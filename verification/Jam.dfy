/** A cluster can jam with no fault anywhere: three nodes that ask one another in a ring before any of them stands. */
module Jamming {
  import opened Basics
  import opened Logs
  import opened Rpc
  import opened NodeSpec
  import opened ClusterSpec
  import opened Actions
  import opened Paths
  import opened Witness

  /** A follower of the first term that has asked, or not, whether an election would work. */
  ghost predicate Waits(s: NodeState, n: Name, asked: bool) {
    && s.name == n && n in M && s.members == M && s.preVote && s.term == 1 && s.role == Follower
    && s.votedFor == None && s.log == RawLog([], 0, 0) && s.electionDeadline <= s.now
    && s.preVotes == if asked then {n} else {}
  }

  /** A candidate of the second term that asks before it stands. */
  ghost predicate Stood(s: NodeState) {
    s.preVote && s.role == Candidate && s.term == 2
  }

  /** Nothing but timeouts and deliveries. */
  ghost predicate Faultless(p: Path) {
    forall k :: 0 <= k < |p.events| ==> p.events[k].Timer? || p.events[k].Deliver?
  }

  lemma Prepares(p: Path, n: Name, to: Name) returns (q: Path)
    requires Faultless(p) && Good(p) && n in {A, B, C} && to in {A, B, C} && to != n && Waits(At(p, n), n, false)
    ensures Faultless(q) && Good(q) && Waits(At(q, n), n, true) && Only(p, q, n)
    ensures RequestVote(n, to, 2, 0, 0, true) in Sent(q)
  {
    hide Good, At, Sent;
    var s := At(p, n);
    AsksBefore(s, to);
    q := Ticks(p, n, s.now);
  }

  lemma AsksBefore(s: NodeState, to: Name)
    requires Waits(s, s.name, false) && to in M && to != s.name
    ensures Tick(s, s.now, 0).Ok?
    ensures var e := Tick(s, s.now, 0).value;
            Waits(e.node, s.name, true) && RequestVote(s.name, to, 2, 0, 0, true) in e.sends
  {
    assert s.(now := s.now) == s;
    Peer(s.name, to);
    var i :| 0 <= i < |s.Peers()| && s.Peers()[i] == to;
    assert VoteRequests(s, 2, true)[i] == VoteRequest(s, to, 2, true);
  }

  lemma Agrees(p: Path, n: Name, from: Name) returns (q: Path)
    requires Faultless(p) && Good(p) && n in {A, B, C} && from in {A, B, C} && from != n && Waits(At(p, n), n, true)
    requires RequestVote(from, n, 2, 0, 0, true) in Sent(p)
    ensures Faultless(q) && Good(q) && Only(p, q, n) && At(q, n) == At(p, n)
    ensures Vote(n, from, 1, true, true) in Sent(q)
  {
    hide Good, At, Sent;
    var m := RequestVote(from, n, 2, 0, 0, true);
    assert Step(At(p, n), m, 0) == Ok(Effect(At(p, n), [Vote(n, from, 1, true, true)]));
    q := Hears(p, m);
    assert Vote(n, from, 1, true, true) in [Vote(n, from, 1, true, true)];
  }

  lemma StandsAsked(p: Path, n: Name, from: Name) returns (q: Path)
    requires Faultless(p) && Good(p) && n in {A, B, C} && from in {A, B, C} && from != n && Waits(At(p, n), n, true)
    requires Vote(from, n, 1, true, true) in Sent(p)
    ensures Faultless(q) && Good(q) && Stood(At(q, n)) && Only(p, q, n)
  {
    hide Good, At, Sent;
    var s, m := At(p, n), Vote(from, n, 1, true, true);
    var counted := s.(preVotes := s.preVotes + {from});
    assert counted.preVotes == {n, from} && |counted.preVotes| == 2;
    assert Step(s, m, 0) == BecomeCandidate(counted, 0);
    q := Hears(p, m);
  }

  lemma Begin() returns (p: Path)
    ensures Faultless(p) && Good(p) && forall n :: n in {A, B, C} ==> Waits(At(p, n), n, false)
  {
    var nodes := map n | n in {A, B, C} :: Fresh(n, M, true, 64, 0);
    var c := Cluster(M, nodes, {}, {});
    assert Names(M) == {A, B, C};
    assert forall n :: n in nodes ==> InitialNode(nodes[n], n, M);
    p := Path([c], []);
  }

  /** Each asks the next; each answers before it is answered; each stands: three candidates of one term. */
  lemma ACanJam() returns (states: seq<Cluster>, events: seq<Event>)
    ensures Run(states, events) && |states[|events|].members| == 3
    ensures var nodes := states[|events|].nodes;
            forall n :: n in nodes ==> nodes[n].preVote && nodes[n].role == Candidate && nodes[n].term == 2
    ensures forall k :: 0 <= k < |events| ==> events[k].Timer? || events[k].Deliver?
  {
    var p := Ring();
    states, events := p.states, p.events;
    forall n | n in Now(p).nodes ensures Stood(Now(p).nodes[n]) {
      assert n in Now(p).nodes.Keys;
      assert Stood(At(p, n));
    }
  }

  lemma Ring() returns (p: Path)
    ensures Faultless(p) && Good(p) && forall n :: n in {A, B, C} ==> Stood(At(p, n))
  {
    hide Faultless, Good, At, Sent, Waits, Stood;
    var p0 := Begin();
    var p1 := Prepares(p0, A, B);
    var p2 := Prepares(p1, B, C);
    var p3 := Prepares(p2, C, A);
    var p4 := Agrees(p3, B, A);
    var p5 := Agrees(p4, C, B);
    var p6 := Agrees(p5, A, C);
    var p7 := StandsAsked(p6, A, B);
    var p8 := StandsAsked(p7, B, C);
    p := StandsAsked(p8, C, A);
  }
}
