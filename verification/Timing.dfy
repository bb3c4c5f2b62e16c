/**
Elections under timers set by the experiment (rsm/timing.py), and the livelock of a fixed timeout: with
no randomness left in the timers, a cluster of two or more never elects anyone.
*/
module Timing {
  import opened Basics
  import opened Logs
  import opened Rpc
  import opened NodeSpec
  import opened Net
  import opened Acts

  datatype Timings = Timings(heartbeat: int, minTimeout: int, maxTimeout: int, delay: int) {
    /** What the constructor checks. */
    predicate Sound() {
      heartbeat >= 1 && minTimeout >= 1 && maxTimeout >= minTimeout && delay >= 1
    }

    predicate Fixed() { minTimeout == maxTimeout }
  }

  /* ---- why nobody wins ---- */

  /** A node that has voted for itself in the common term, or for nobody in the first. */
  ghost predicate Locked(s: NodeState, n: Name, members: seq<Name>, t: int) {
    && s.name == n && s.members == members && !s.preVote
    && s.term == t && s.role != Leader
    && (if t == 1 then s.role == Follower else s.role == Candidate && s.votedFor == Some(n) && s.votes == {n})
  }

  /** A message that can no longer elect anyone once the common term is `t`. */
  ghost predicate Hopeless(m: Message, t: int) {
    !m.Asking() && m.term <= t && (m.RequestVote? || (m.Vote? && !m.granted)) && (m.RequestVote? ==> m.term >= 2)
  }

  /** A locked node answers a hopeless message with a hopeless message and is not moved by it. */
  lemma HopelessMovesNothing(s: NodeState, n: Name, members: seq<Name>, t: int, m: Message, span: int)
    requires Locked(s, n, members, t) && Hopeless(m, t) && m.recipient == n
    ensures Step(s, m, span).Ok? && Step(s, m, span).value.node == s
    ensures forall o :: o in Step(s, m, span).value.sends ==> Hopeless(o, t) && o.sender == n && o.recipient == m.sender
  {
  }

  /** Standing moves a locked node to the next term, locked again, and asks for votes it cannot get. */
  lemma StandingLocks(s: NodeState, n: Name, members: seq<Name>, t: int, span: int)
    requires Locked(s, n, members, t) && |members| >= 2 && t >= 1
    ensures Stand(s, span).Ok?
    ensures var e := Stand(s, span).value;
            && Locked(e.node, n, members, t + 1) && e.node == Stood(s, span)
            && forall o :: o in e.sends ==> Hopeless(o, t + 1) && o.sender == n && o.recipient in members
  {
    var e := Stand(s, span).value;
    forall o | o in e.sends ensures Hopeless(o, t + 1) && o.sender == n && o.recipient in members {
      var i :| 0 <= i < |e.sends| && e.sends[i] == o;
      assert e.node.Peers()[i] in e.node.Peers();
    }
  }

  /* ---- handlers talk only to members, and never change who they are ---- */

  ghost predicate Inside(m: Message, s: NodeState, from: set<Name>) {
    m.sender == s.name && m.recipient in from
  }

  ghost predicate SameNode(s: NodeState, s': NodeState) {
    s'.name == s.name && s'.members == s.members && s'.preVote == s.preVote
  }

  ghost predicate Contained(s: NodeState, r: Result<Effect>, from: set<Name>) {
    r.Ok? ==> SameNode(s, r.value.node) && forall o :: o in r.value.sends ==> Inside(o, s, from)
  }

  lemma ReplicateInside(s: NodeState, from: set<Name>)
    requires Names(s.members) <= from
    ensures forall o :: o in Replicate(s) ==> Inside(o, s, from)
  {
    var out := Replicate(s);
    forall o | o in out ensures Inside(o, s, from) {
      var i :| 0 <= i < |out| && out[i] == o;
      assert s.Peers()[i] in s.Peers();
    }
  }

  lemma RequestsInside(s: NodeState, term: Term, preVote: bool, from: set<Name>)
    requires Names(s.members) <= from
    ensures forall o :: o in VoteRequests(s, term, preVote) ==> Inside(o, s, from)
  {
    var out := VoteRequests(s, term, preVote);
    forall o | o in out ensures Inside(o, s, from) {
      var i :| 0 <= i < |out| && out[i] == o;
      assert s.Peers()[i] in s.Peers();
    }
  }

  lemma OpensInside(s: NodeState, from: set<Name>)
    requires Names(s.members) <= from
    ensures Contained(s, Opened(s), from)
  {
    var beating := s.(heartbeatDue := s.now + HEARTBEAT_INTERVAL);
    var led := if |s.members| == 1 then AdvanceCommit(beating) else Ok(beating);
    if led.Ok? { ReplicateInside(led.value, from); }
  }

  lemma LeadsInside(s: NodeState, from: set<Name>)
    requires Names(s.members) <= from
    ensures Contained(s, BecomeLeader(s), from)
  {
    var written := Write(TakenOffice(s), NoOp);
    if written.Ok? { OpensInside(written.value, from); }
  }

  lemma StandsInside(s: NodeState, span: int, from: set<Name>)
    requires Names(s.members) <= from
    ensures Contained(s, Stand(s, span), from) && Contained(s, BecomeCandidate(s, span), from)
  {
    var stood := Stood(s, span);
    LeadsInside(stood, from);
    RequestsInside(stood, stood.term, false, from);
    RequestsInside(s, s.term + 1, true, from);
  }

  lemma VotesInside(s: NodeState, m: Message, span: int, from: set<Name>)
    requires m.recipient == s.name && m.sender in from && Names(s.members) <= from && m.Vote?
    ensures Contained(s, OnVote(s, m, span), from)
  {
    LeadsInside(s.(votes := s.votes + {m.sender}), from);
    StandsInside(s.(preVotes := s.preVotes + {m.sender}), span, from);
  }

  lemma AppendsInside(s: NodeState, m: Message, span: int, from: set<Name>)
    requires m.recipient == s.name && m.sender in from && m.Append?
    ensures Contained(s, OnAppend(s, m, span), from)
  {
    assert SameNode(s, Heard(s, m.sender, m.term, span));
  }

  lemma RepliesInside(s: NodeState, m: Message, from: set<Name>)
    requires m.recipient == s.name && m.sender in from
    ensures m.Appended? ==> Contained(s, OnAppended(s, m), from)
    ensures m.Installed? ==> Contained(s, OnInstalled(s, m), from)
  {
    hide AdvanceCommit, RetryIndex;
  }

  lemma HandlesInside(s: NodeState, m: Message, span: int, from: set<Name>)
    requires m.recipient == s.name && m.sender in from && Names(s.members) <= from
    ensures Contained(s, Handle(s, m, span), from)
  {
    match m
    case Vote(_, _, _, _, _) => VotesInside(s, m, span, from);
    case Append(_, _, _, _, _, _, _) => AppendsInside(s, m, span, from);
    case RequestVote(_, _, _, _, _, _) =>
    case InstallSnapshot(_, _, _, _, _, _, _) =>
    case _ => RepliesInside(s, m, from);
  }

  lemma StepsInside(s: NodeState, m: Message, span: int, from: set<Name>)
    requires m.recipient == s.name && m.sender in from && Names(s.members) <= from
    ensures Contained(s, Step(s, m, span), from)
  {
    hide Handle;
    HandlesInside(s, m, span, from);
    HandlesInside(BecomeFollower(s, m.term, None, span), m, span, from);
  }

  /** The term a livelocked cluster is in at a tick, and the tick at which all of it stands next. */
  function CommonTerm(now: nat, T: int): int
    requires T >= 1
  {
    1 + now / T
  }

  function NextDue(now: nat, T: int): int
    requires T >= 1
  {
    (now / T + 1) * T
  }

  lemma NextMultiple(now: nat, T: int)
    requires T >= 1
    ensures CommonTerm(now, T) >= 1
    ensures now + 1 >= NextDue(now, T) ==>
              CommonTerm(now + 1, T) == CommonTerm(now, T) + 1 && NextDue(now + 1, T) == now + 1 + T
    ensures now + 1 < NextDue(now, T) ==>
              CommonTerm(now + 1, T) == CommonTerm(now, T) && NextDue(now + 1, T) == NextDue(now, T)
  {
    var q, r := now / T, now % T;
    assert now == q * T + r;
    if r == T - 1 {
      assert now + 1 == (q + 1) * T;
      DivUnique(now + 1, T, q + 1, 0);
    } else {
      assert now + 1 == q * T + (r + 1);
      DivUnique(now + 1, T, q, r + 1);
    }
  }

  lemma {:induction false} AtLeastOnce(a: nat, T: int)
    requires a >= 1 && T >= 1
    ensures a * T >= T
  {
    if a > 1 {
      AtLeastOnce(a - 1, T);
      assert a * T == (a - 1) * T + T;
    }
  }

  lemma DivUnique(n: nat, T: int, q: int, r: int)
    requires T >= 1 && 0 <= r < T && n == q * T + r
    ensures n / T == q
  {
    var q' := n / T;
    var d := q - q';
    assert q * T == q' * T + d * T;
    if d >= 1 { AtLeastOnce(d, T); }
    assert (-d) * T == -(d * T);
    if d <= -1 { AtLeastOnce(-d, T); }
  }

  /** What was drawn for each member, and nothing else. */
  function Each(members: seq<Name>, drawn: map<Name, int>): (r: map<Name, int>)
    requires forall n :: n in members ==> n in drawn
    ensures forall n :: n in members ==> n in r && r[n] == drawn[n]
  {
    map n | n in members :: drawn[n]
  }

  /** The nodes of a trial nobody has touched. */
  function FreshNodes(members: seq<Name>, spans: map<Name, int>): map<Name, NodeState>
    requires forall n :: n in members ==> n in spans
  {
    map n | n in members :: Fresh(n, members, false, 64, spans[n])
  }

  lemma FreshNames(members: seq<Name>, spans: map<Name, int>)
    requires forall n :: n in members ==> n in spans
    ensures forall n :: n in members ==>
              n in FreshNodes(members, spans) && FreshNodes(members, spans)[n] == Fresh(n, members, false, 64, spans[n])
              && Fresh(n, members, false, 64, spans[n]).name == n && Fresh(n, members, false, 64, spans[n]).members == members
  {
  }

  class Trial {
    const timings: Timings
    const members: seq<Name>
    const net: Network
    var nodes: map<Name, NodeState>
    var now: nat
    var deadline: map<Name, int>
    var seen: map<Name, int>
    var beatDue: map<Name, int>
    var leaderless: nat
    var leadersSeen: set<Name>
    var termsSeen: int

    /** The nodes this trial began with, and all they have done since. */
    ghost var begun: map<Name, NodeState>
    ghost var acts: seq<Act>

    ghost predicate Valid()
      reads this, net
    {
      Ready() && Traced()
    }

    ghost predicate Ready()
      reads this, net
    {
      timings.Sound() && Distinct(members) && Wired() && AllSeated()
    }

    /** The nodes are where their acts lead, and what was offered to the network is what they said. */
    ghost predicate Traced()
      reads this, net
    {
      PlayedAll(begun, acts) == Some((nodes, net.offered))
    }

    ghost predicate AllSeated()
      reads this`nodes, this`deadline, this`seen, this`beatDue
    {
      forall n :: n in members ==> Seated(n)
    }

    /** The network carries messages between members, one fixed delay each. */
    ghost predicate Wired()
      reads this, net
    {
      && net.Valid() && net.members == members && net.minDelay == net.maxDelay == timings.delay && net.now == now
      && forall one :: one in net.flight ==> Between(one.message)
    }

    ghost predicate Between(m: Message) {
      m.sender in members && m.recipient in members
    }

    ghost predicate Seated(n: Name)
      reads this`nodes, this`deadline, this`seen, this`beatDue
    {
      && n in nodes && n in deadline && n in seen && n in beatDue
      && nodes[n].name == n && nodes[n].members == members
    }

    /** A locked node whose own timer is the one this trial last saw, due at `due`. */
    ghost predicate Waiting(n: Name, t: int, due: int)
      reads this`nodes, this`deadline, this`seen, this`beatDue
    {
      Seated(n) && Locked(nodes[n], n, members, t) && deadline[n] == due && seen[n] == nodes[n].electionDeadline
    }

    /** Every node waiting in term `t` for the same tick. */
    ghost predicate AllWaiting(t: int, due: int)
      reads this`nodes, this`deadline, this`seen, this`beatDue
    {
      forall n :: n in members ==> Waiting(n, t, due)
    }

    /** Nothing in flight could elect anyone. */
    ghost predicate WireHopeless(t: int)
      reads net
    {
      forall one :: one in net.flight ==> Hopeless(one.message, t)
    }

    /**
    The livelock: every node is in the term the clock says, nobody leads, every timer is due at the next
    multiple of the timeout, and there has been no leader at any tick so far.
    */
    ghost predicate Livelock()
      reads this, net
    {
      && timings.Fixed() && timings.Sound() && |members| >= 2
      && AllWaiting(CommonTerm(now, timings.minTimeout), NextDue(now, timings.minTimeout))
      && WireHopeless(CommonTerm(now, timings.minTimeout))
      && leaderless == now && leadersSeen == {} && termsSeen == CommonTerm(now, timings.minTimeout)
    }

    /** A trial nobody has touched, with one timeout to draw from, is livelocked from the start. */
    lemma StartsLocked()
      requires timings.Sound() && timings.Fixed() && |members| >= 2
      requires now == 0 && leaderless == 0 && leadersSeen == {} && termsSeen == 1 && net.flight == []
      requires forall n :: n in members ==>
                 Seated(n) && nodes[n] == Fresh(n, members, false, 64, seen[n]) && deadline[n] == timings.minTimeout
      ensures Livelock()
    {
      DivUnique(0, timings.minTimeout, 0, 0);
      assert CommonTerm(0, timings.minTimeout) == 1 && NextDue(0, timings.minTimeout) == timings.minTimeout;
    }

    /** `spans` are the timeouts the nodes drew for themselves, `drawn` the ones this trial drew for them. */
    constructor (timings: Timings, members: seq<Name>, spans: map<Name, int>, drawn: map<Name, int>)
      requires timings.Sound() && members != [] && Distinct(members)
      requires forall n :: n in members ==> n in spans && 10 <= spans[n] <= 20
      requires forall n :: n in members ==> n in drawn && timings.minTimeout <= drawn[n] <= timings.maxTimeout
      ensures Valid() && fresh(net) && now == 0 && this.timings == timings && this.members == members
      ensures timings.Fixed() && |members| >= 2 ==> Livelock()
      ensures leaderless == 0 && leadersSeen == {} && termsSeen == 1 && acts == [] && begun == FreshNodes(members, spans)
      ensures forall n :: n in members ==> n in deadline && deadline[n] == drawn[n] && n in seen && seen[n] == spans[n]
      ensures forall n :: n in members ==> n in beatDue && beatDue[n] == 0
    {
      hide WireOk, Livelock, Fresh, FreshNodes, Each, Network.Valid, Locked, Hopeless;
      this.timings, this.members := timings, members;
      net := new Network(members, timings.delay, timings.delay);
      nodes := FreshNodes(members, spans);
      now, leaderless, leadersSeen, termsSeen := 0, 0, {}, 1;
      seen := Each(members, spans);
      beatDue := map n | n in members :: 0;
      deadline := Each(members, drawn);
      begun, acts := FreshNodes(members, spans), [];
      new;
      FreshNames(members, spans);
      assert AllSeated();
      if timings.Fixed() && |members| >= 2 { StartsLocked(); }
    }

    /** The new deadline is within the trial's range from now, and the node's own timer is noted. */
    method Rearm(n: Name)
      requires Seated(n) && timings.Sound()
      modifies this`deadline, this`seen
      ensures n in deadline && timings.minTimeout <= deadline[n] - now <= timings.maxTimeout
      ensures seen == old(seen)[n := nodes[n].electionDeadline] && deadline == old(deadline)[n := deadline[n]]
      ensures forall k {:trigger Seated(k)} :: old(Seated(k)) ==> Seated(k)
    {
      var span: int :| timings.minTimeout <= span <= timings.maxTimeout;
      deadline := deadline[n := now + span];
      seen := seen[n := nodes[n].electionDeadline];
    }

    lemma EachSeated()
      requires AllSeated()
      ensures forall k {:trigger members[k]} :: 0 <= k < |members| ==> Seated(members[k])
    {
      forall k | 0 <= k < |members| ensures Seated(members[k]) {
        assert members[k] in members;
      }
    }

    /** A node is rearmed exactly when its own timer is not the one last seen. */
    ghost predicate Followed(n: Name, seenBefore: map<Name, int>, dueBefore: map<Name, int>)
      reads this
    {
      && Seated(n) && n in seenBefore && n in dueBefore && seen[n] == nodes[n].electionDeadline
      && if nodes[n].electionDeadline == seenBefore[n] then deadline[n] == dueBefore[n]
         else timings.minTimeout <= deadline[n] - now <= timings.maxTimeout
    }

    /** No node's own timer has been reset since it was last noted. */
    ghost predicate Tracking()
      reads this
    {
      forall n :: n in members ==> n in seen && n in nodes && seen[n] == nodes[n].electionDeadline
    }

    /** A node gets a new deadline exactly when its own timer is not the one last noted. */
    method Follow()
      requires timings.Sound() && Distinct(members) && AllSeated()
      modifies this`deadline, this`seen
      ensures AllSeated()
      ensures forall n {:trigger Seated(n)} :: n in members ==> Followed(n, old(seen), old(deadline))
    {
      EachSeated();
      for i := 0 to |members|
        invariant AllSeated()
        invariant forall k {:trigger members[k]} :: i <= k < |members| ==>
                    Seated(members[k]) && Untouched(members[k], old(seen), old(deadline))
        invariant forall k {:trigger members[k]} :: 0 <= k < i ==>
                    Followed(members[k], old(seen), old(deadline))
      {
        EachSeated();
        var n := members[i];
        ghost var seenNow, dueNow := seen, deadline;
        if nodes[n].electionDeadline != seen[n] { Rearm(n); }
        assert forall k :: 0 <= k < |members| && k != i ==>
          members[k] != n && members[k] in seenNow && members[k] in dueNow
          && seen[members[k]] == seenNow[members[k]] && deadline[members[k]] == dueNow[members[k]];
      }
      forall n | n in members ensures Followed(n, old(seen), old(deadline)) {
        var k :| 0 <= k < |members| && members[k] == n;
      }
    }

    ghost predicate Untouched(n: Name, seenBefore: map<Name, int>, dueBefore: map<Name, int>)
      requires Seated(n)
      reads this
    {
      n in seenBefore && n in dueBefore && deadline[n] == dueBefore[n] && seen[n] == seenBefore[n]
    }

    /** Put messages on a wire that loses nothing. */
    method SendAll(messages: seq<Message>)
      requires Wired() && forall m :: m in messages ==> Between(m)
      modifies net
      ensures Wired() && net.offered == old(net.offered) + messages
      ensures forall one :: one in net.flight ==> one in old(net.flight) || one.message in messages
    {
      hide Wired, Network.Valid;
      assert messages[..0] == [];
      for i := 0 to |messages|
        invariant Wired() && net.offered == old(net.offered) + messages[..i]
        invariant forall one :: one in net.flight ==> one in old(net.flight) || one.message in messages
      {
        assert messages[..i + 1] == messages[..i] + [messages[i]];
        SendOne(messages[i]);
      }
      assert messages[..|messages|] == messages;
    }

    method SendOne(m: Message)
      requires Wired() && Between(m)
      modifies net
      ensures Wired() && net.offered == old(net.offered) + [m]
      ensures forall one :: one in net.flight ==> one in old(net.flight) || one.message == m
    {
      hide WireOk;
      var _ := net.Send(m, false, timings.delay);
    }

    /** Give one landed message to its recipient and put the answer on the wire. */
    method Receive(m: Message, ghost t: int, ghost due: int) returns (r: Result<()>)
      requires Valid() && Between(m)
      modifies this`nodes, this`acts, net
      ensures Valid()
      ensures r.Ok? ==> |acts| == |old(acts)| + 1 && old(acts) <= acts && AllHeard(acts[|old(acts)|..], [m])
      ensures old(AllWaiting(t, due)) && old(WireHopeless(t)) && Hopeless(m, t) ==>
                r.Ok? && nodes == old(nodes) && WireHopeless(t)
    {
      hide WireOk, Handle, Step, Network.Valid, PlayedAll, AllHeard;
      var n := m.recipient;
      assert Seated(n);
      var span: int :| 10 <= span <= 20;
      ghost var s := nodes[n];
      StepsInside(s, m, span, Names(members));
      if AllWaiting(t, due) && Hopeless(m, t) {
        assert Waiting(n, t, due);
        HopelessMovesNothing(s, n, members, t, m, span);
      }
      var e :- Step(nodes[n], m, span);
      PlayedOn(begun, acts, Hears(m, span), nodes, net.offered, nodes[n := e.node], e.sends);
      HeardOne(acts, acts + [Hears(m, span)], m, span);
      acts := acts + [Hears(m, span)];
      nodes := nodes[n := e.node];
      assert forall k {:trigger Seated(k)} :: old(Seated(k)) ==> Seated(k);
      SendAll(e.sends);
      r := Ok(());
    }

    lemma NothingHeard()
      ensures AllHeard([], [])
    {
    }

    method Deliver(out: seq<Message>, ghost t: int, ghost due: int) returns (r: Result<()>)
      requires Valid() && forall m :: m in out ==> Between(m)
      modifies this`nodes, this`acts, net
      ensures Valid() && (r.Ok? ==> old(acts) <= acts && AllHeard(acts[|old(acts)|..], out))
      ensures old(AllWaiting(t, due)) && old(WireHopeless(t)) && (forall m :: m in out ==> Hopeless(m, t)) ==>
                r.Ok? && nodes == old(nodes) && WireHopeless(t)
    {
      hide WireOk, Network.Valid, PlayedAll, AllHeard, Traced, Wired, Locked, Hopeless;
      NothingHeard();
      assert out[..0] == [] && acts[|old(acts)|..] == [];
      for i := 0 to |out|
        invariant Valid() && old(acts) <= acts && AllHeard(acts[|old(acts)|..], out[..i])
        invariant old(AllWaiting(t, due)) && old(WireHopeless(t)) && (forall m :: m in out ==> Hopeless(m, t)) ==>
                    nodes == old(nodes) && WireHopeless(t)
      {
        ghost var before := acts;
        var _ :- Receive(out[i], t, due);
        HeardOn(before[|old(acts)|..], acts[|before|..], out[..i], [out[i]]);
        assert acts[|old(acts)|..] == before[|old(acts)|..] + acts[|before|..] && out[..i + 1] == out[..i] + [out[i]];
      }
      assert out[..|out|] == out;
      r := Ok(());
    }

    /** Where a waiting node stands once this tick has been timed. */
    ghost function TermNow(t: int, due: int): int
      reads this`now
    {
      if now >= due then t + 1 else t
    }

    ghost function DueNow(due: int): int
      reads this`now
    {
      if now >= due then now + timings.minTimeout else due
    }

    method Stands(n: Name, ghost t: int) returns (r: Result<()>, ghost span: int, ghost said: seq<Message>)
      requires Ready() && n in members
      modifies this`nodes, net
      ensures Ready() && n in nodes && nodes == old(nodes)[n := nodes[n]]
      ensures r.Ok? ==> && 10 <= span <= 20 && Stand(old(nodes)[n], span) == Ok(Effect(nodes[n], said))
                        && net.offered == old(net.offered) + said
      ensures |members| >= 2 && old(n in nodes && Locked(nodes[n], n, members, t)) && t >= 1 && old(WireHopeless(t + 1)) ==>
                r.Ok? && Locked(nodes[n], n, members, t + 1) && WireHopeless(t + 1)
    {
      hide WireOk;
      var drawn: int :| 10 <= drawn <= 20;
      span, said := drawn, [];
      ghost var s := nodes[n];
      StandsInside(s, drawn, Names(members));
      if |members| >= 2 && Locked(s, n, members, t) && t >= 1 { StandingLocks(s, n, members, t, drawn); }
      var stood := Stand(nodes[n], drawn);
      if stood.Err? { return Err(stood.error), span, said; }
      var e := stood.value;
      said := e.sends;
      nodes := nodes[n := e.node];
      assert forall k {:trigger Seated(k)} :: old(Seated(k)) ==> Seated(k);
      SendAll(e.sends);
      r := Ok(());
    }

    /** A leader whose beat is due sends every follower what it misses, and is next due an interval of the trial's later. */
    method Beat(n: Name)
      requires Ready() && n in members
      modifies this`beatDue, net
      ensures Ready()
      ensures if now >= old(beatDue)[n]
              then beatDue == old(beatDue)[n := now + timings.heartbeat] && net.offered == old(net.offered) + Replicate(nodes[n])
              else beatDue == old(beatDue) && net.offered == old(net.offered)
    {
      hide WireOk;
      if now >= beatDue[n] {
        beatDue := beatDue[n := now + timings.heartbeat];
        assert forall k {:trigger Seated(k)} :: old(Seated(k)) ==> Seated(k);
        ReplicateInside(nodes[n], Names(members));
        SendAll(Replicate(nodes[n]));
      }
    }

    /** The deadline is drawn anew for a leader and for a node that stood, and for nobody else. */
    ghost predicate DrawnAnew(a: Act, n: Name, leads: bool, before: map<Name, int>)
      reads this
    {
      && n in before && n in deadline
      && if leads || a.Stands? then timings.minTimeout <= deadline[n] - now <= timings.maxTimeout
         else deadline[n] == before[n]
    }

    /** A leader whose clock was just moved beats if its beat is due, and has its deadline drawn anew either way. */
    method TimeLeader(n: Name, ghost before: map<Name, NodeState>)
      requires Ready() && n in members && nodes[n].role == Leader && PlayedAll(begun, acts) == Some((before, net.offered))
      requires n in before && nodes == before[n := before[n].(now := now)]
      modifies this`deadline, this`seen, this`beatDue, this`acts, net
      ensures Valid() && acts == old(acts) + [if now >= old(beatDue)[n] then Beats(n, now) else Waits(n, now)]
      ensures n in deadline && timings.minTimeout <= deadline[n] - now <= timings.maxTimeout
      ensures deadline == old(deadline)[n := deadline[n]] && seen == old(seen)[n := nodes[n].electionDeadline]
      ensures beatDue == if now >= old(beatDue)[n] then old(beatDue)[n := now + timings.heartbeat] else old(beatDue)
    {
      hide WireOk, Network.Valid, Replicate, PlayedAll;
      ghost var said0 := net.offered;
      ghost var a := if now >= beatDue[n] then Beats(n, now) else Waits(n, now);
      Beat(n);
      Rearm(n);
      assert said0 + [] == said0;
      PlayedOn(begun, acts, a, before, said0, nodes, if a.Beats? then Replicate(nodes[n]) else []);
      acts := acts + [a];
    }

    /** One node does what it is due to do at this tick. */
    method TimeOne(n: Name, ghost t: int, ghost due: int) returns (r: Result<()>)
      requires Valid() && n in members && t >= 1
      modifies this`nodes, this`deadline, this`seen, this`beatDue, this`acts, net
      ensures Ready() && (r.Ok? ==> Valid())
      ensures n in nodes && n in deadline && n in seen && n in beatDue
      ensures nodes == old(nodes)[n := nodes[n]] && deadline == old(deadline)[n := deadline[n]] && seen == old(seen)[n := seen[n]]
      ensures r.Ok? ==>
                && |acts| == |old(acts)| + 1 && old(acts) <= acts
                && var a := acts[|old(acts)|];
                   && ActsAt(a, n, old(nodes), old(deadline), old(beatDue), now)
                   && DrawnAnew(a, n, old(nodes)[n].role == Leader, old(deadline))
                   && beatDue == if a.Beats? then old(beatDue)[n := now + timings.heartbeat] else old(beatDue)
      ensures timings.Fixed() && |members| >= 2 && old(Waiting(n, t, due)) && old(WireHopeless(TermNow(t, due))) ==>
                r.Ok? && Waiting(n, TermNow(t, due), DueNow(due)) && WireHopeless(TermNow(t, due))
    {
      hide WireOk, Network.Valid, Replicate, Stand, PlayedAll, WireHopeless, Hopeless;
      ghost var before, said0 := nodes, net.offered;
      assert Seated(n);
      nodes := nodes[n := nodes[n].(now := now)];
      assert forall k {:trigger Seated(k)} :: old(Seated(k)) ==> Seated(k);
      if nodes[n].role == Leader {
        TimeLeader(n, before);
        return Ok(());
      }
      if now >= deadline[n] {
        var stood, span, said := Stands(n, t);
        var _ :- stood;
        Rearm(n);
        assert nodes == before[n := nodes[n]];
        PlayedOn(begun, acts, Act.Stands(n, now, span), before, said0, nodes, said);
        acts := acts + [Act.Stands(n, now, span)];
      } else {
        PlayedOn(begun, acts, Waits(n, now), before, said0, nodes, []);
        assert said0 + [] == said0;
        acts := acts + [Waits(n, now)];
      }
      r := Ok(());
    }

    /** This node leads, and every other leader is in an earlier term. */
    ghost predicate Sole(n: Name)
      reads this`nodes
    {
      && n in members && n in nodes && nodes[n].role == Leader
      && forall k :: k in members && k in nodes && k != n && nodes[k].role == Leader ==> nodes[k].term < nodes[n].term
    }

    /** A sole claimant to the highest term that is led, and nobody only if there is none. */
    method FindLeader() returns (found: Option<Name>)
      requires AllSeated() && Distinct(members)
      ensures found.Some? ==> Sole(found.value)
      ensures found.None? ==> forall n :: !Sole(n)
    {
      found := None;
      var best: int := 0;
      var top := 0;
      ghost var at, rival := 0, 0;
      EachSeated();
      for i := 0 to |members|
        invariant found.None? ==>
                    top == best == 0 && forall j {:trigger members[j]} :: 0 <= j < i ==> nodes[members[j]].role != Leader
        invariant found.Some? ==>
                    && 0 <= at < i && members[at] == found.value && nodes[found.value].role == Leader
                    && nodes[found.value].term == best && top >= 1
                    && forall j {:trigger members[j]} :: 0 <= j < i && nodes[members[j]].role == Leader ==>
                         nodes[members[j]].term <= best && (top == 1 && j != at ==> nodes[members[j]].term < best)
        invariant top >= 2 ==>
                    0 <= rival < i && rival != at && nodes[members[rival]].role == Leader && nodes[members[rival]].term == best
      {
        var n := members[i];
        assert n in members;
        if nodes[n].role == Leader {
          if nodes[n].term > best {
            found, best, top := Some(n), nodes[n].term, 1;
            at := i;
          } else if nodes[n].term == best {
            top := top + 1;
            rival := i;
          }
        }
      }
      LeadsByPosition();
      if top != 1 { found := None; }
    }

    lemma LeadsByPosition()
      requires AllSeated()
      ensures forall n :: n in members && nodes[n].role == Leader ==>
                exists j {:trigger members[j]} :: 0 <= j < |members| && members[j] == n && nodes[members[j]].role == Leader
    {
    }

    /** The clock moves on and the network hands over what has landed. */
    method TakeLanded(ghost t: int) returns (out: seq<Message>)
      requires Valid()
      modifies this`now, net
      ensures Valid() && now == old(now) + 1 && out == Messages(Landed(old(net.flight), now))
      ensures forall m :: m in out ==> Between(m)
      ensures old(WireHopeless(t)) ==> WireHopeless(t) && forall m :: m in out ==> Hopeless(m, t)
    {
      hide WireOk;
      now := now + 1;
      ghost var flight := net.flight;
      out := net.Tick();
      forall one ensures one in Landed(flight, net.now) || one in net.flight ==> one in flight {
        SplitsByTime(flight, net.now, one);
      }
    }

    /** Following rearms no node whose own timer is the one last seen. */
    method FollowWaiting(ghost t: int, ghost due: int)
      requires Valid()
      modifies this`deadline, this`seen
      ensures Valid() && Tracking() && (old(AllWaiting(t, due)) ==> AllWaiting(t, due))
      ensures forall n :: n in members ==>
                Renewed(n, nodes, old(seen), old(deadline), deadline, now + timings.minTimeout, now + timings.maxTimeout)
    {
      hide WireOk;
      Follow();
      forall n | n in members
        ensures && n in seen && n in nodes && seen[n] == nodes[n].electionDeadline
                && Renewed(n, nodes, old(seen), old(deadline), deadline, now + timings.minTimeout, now + timings.maxTimeout)
      {
        assert Seated(n) && Followed(n, old(seen), old(deadline));
      }
      if old(AllWaiting(t, due)) {
        forall n | n in members ensures Waiting(n, t, due) {
          assert old(Waiting(n, t, due));
          assert Seated(n) && Followed(n, old(seen), old(deadline));
        }
      }
    }

    /** The nodes before `i` have been timed this tick and the others not yet. */
    ghost predicate PartTimed(i: nat, t: int, due: int)
      requires i <= |members|
      reads this, net
    {
      && (forall k {:trigger members[k]} :: 0 <= k < i ==> Waiting(members[k], TermNow(t, due), DueNow(due)))
      && (forall k {:trigger members[k]} :: i <= k < |members| ==> Waiting(members[k], t, due))
      && WireHopeless(TermNow(t, due))
    }

    lemma WaitingByPosition(t: int, due: int)
      ensures AllWaiting(t, due) <==> forall k {:trigger members[k]} :: 0 <= k < |members| ==> Waiting(members[k], t, due)
    {
      forall k | 0 <= k < |members| ensures members[k] in members {}
      if forall k :: 0 <= k < |members| ==> Waiting(members[k], t, due) {
        forall n | n in members ensures Waiting(n, t, due) {
          var k :| 0 <= k < |members| && members[k] == n;
        }
      }
    }

    /** What could elect nobody in one term can elect nobody in a later one. */
    lemma HopelessLater(t: int, t': int)
      requires t <= t'
      ensures WireHopeless(t) ==> WireHopeless(t')
    {
    }

    /** Every node does what it is due to do at this tick, in membership order. */
    method TimeAll(ghost t: int, ghost due: int) returns (r: Result<()>)
      requires Valid() && t >= 1
      modifies this`nodes, this`deadline, this`seen, this`beatDue, this`acts, net
      ensures Ready() && (r.Ok? ==> Valid())
      ensures r.Ok? ==> old(acts) <= acts
                        && AllActed(acts[|old(acts)|..], members, old(nodes), old(deadline), old(beatDue), now)
      ensures timings.Fixed() && |members| >= 2 && old(AllWaiting(t, due)) && old(WireHopeless(t)) ==>
                r.Ok? && AllWaiting(TermNow(t, due), DueNow(due)) && WireHopeless(TermNow(t, due))
    {
      hide WireOk, Network.Valid, Traced, Due, PlayedAll, DrawnAnew, Wired, Locked, WireHopeless, PartTimed, RestSame,
           Seated, ActsAt;
      NoneTimed(t, due);
      for i := 0 to |members|
        invariant Valid() && old(acts) <= acts && |acts| == |old(acts)| + i
        invariant RestSame(i, old(nodes), old(deadline), old(beatDue))
        invariant forall k {:trigger members[k]} :: 0 <= k < i ==>
                    ActsAt(acts[|old(acts)| + k], members[k], old(nodes), old(deadline), old(beatDue), now)
        invariant timings.Fixed() && |members| >= 2 && old(AllWaiting(t, due)) && old(WireHopeless(t)) ==> PartTimed(i, t, due)
      {
        var _ :- TimeNext(i, t, due, old(nodes), old(deadline), old(beatDue));
      }
      WaitingByPosition(TermNow(t, due), DueNow(due));
      EveryTimed(t, due);
      r := Ok(());
    }

    /** The next node's turn, with the others as they were. */
    method TimeNext(i: nat, ghost t: int, ghost due: int, ghost nodes0: map<Name, NodeState>,
                    ghost deadline0: map<Name, int>, ghost beatDue0: map<Name, int>) returns (r: Result<()>)
      requires Valid() && t >= 1 && i < |members| && RestSame(i, nodes0, deadline0, beatDue0)
      modifies this`nodes, this`deadline, this`seen, this`beatDue, this`acts, net
      ensures Ready() && (r.Ok? ==> Valid())
      ensures r.Ok? ==> && |acts| == |old(acts)| + 1 && old(acts) <= acts
                        && ActsAt(acts[|old(acts)|], members[i], nodes0, deadline0, beatDue0, now)
                        && RestSame(i + 1, nodes0, deadline0, beatDue0)
      ensures timings.Fixed() && |members| >= 2 && old(PartTimed(i, t, due)) ==> r.Ok? && PartTimed(i + 1, t, due)
    {
      hide WireOk, Network.Valid, Traced, Due, PlayedAll, DrawnAnew, Wired, Locked, WireHopeless;
      assert members[i] in members;
      var _ :- TimeOne(members[i], t, due);
      assert forall k {:trigger members[k]} :: 0 <= k < |members| && k != i ==> members[k] != members[i];
      r := Ok(());
    }

    lemma NoneTimed(t: int, due: int)
      requires AllSeated()
      ensures RestSame(0, nodes, deadline, beatDue)
      ensures AllWaiting(t, due) && WireHopeless(t) ==> PartTimed(0, t, due)
    {
      EachSeated();
      WaitingByPosition(t, due);
      HopelessLater(t, TermNow(t, due));
    }

    lemma EveryTimed(t: int, due: int)
      ensures PartTimed(|members|, t, due) ==> AllWaiting(TermNow(t, due), DueNow(due)) && WireHopeless(TermNow(t, due))
    {
      WaitingByPosition(TermNow(t, due), DueNow(due));
    }

    /** The nodes from `i` on, and the clocks kept for them, are as they were. */
    ghost predicate RestSame(i: nat, nodes0: map<Name, NodeState>, deadline0: map<Name, int>, beatDue0: map<Name, int>)
      requires i <= |members|
      reads this
    {
      forall k {:trigger members[k]} :: i <= k < |members| ==> SameClocks(members[k], nodes0, deadline0, beatDue0)
    }

    /** This node and the clocks kept for it are as they were. */
    ghost predicate SameClocks(n: Name, nodes0: map<Name, NodeState>, deadline0: map<Name, int>, beatDue0: map<Name, int>)
      reads this
    {
      && n in nodes && n in nodes0 && nodes[n] == nodes0[n]
      && n in deadline && n in deadline0 && deadline[n] == deadline0[n]
      && n in beatDue && n in beatDue0 && beatDue[n] == beatDue0[n]
    }

    /** Deliver what has landed, then time every node, rearming after each. */
    method DeliverAndTime(ghost t: int, ghost due: int) returns (r: Result<()>)
      requires Valid() && t >= 1
      modifies this`nodes, this`now, this`deadline, this`seen, this`beatDue, this`acts, net
      ensures Ready() && (r.Ok? ==> Valid()) && now == old(now) + 1
      ensures r.Ok? ==>
                Ticked(begun, old(acts), acts, Messages(Landed(old(net.flight), now)), members, old(seen), old(deadline),
                       old(beatDue), now, timings.minTimeout, timings.maxTimeout)
      ensures timings.Fixed() && |members| >= 2 && old(AllWaiting(t, due)) && old(WireHopeless(t)) ==>
                r.Ok? && AllWaiting(TermNow(t, due), DueNow(due)) && WireHopeless(TermNow(t, due))
      ensures r.Ok? ==> Tracking()
    {
      hide WireOk, Locked, Hopeless, Between, Network.Valid, AllActed, AllHeard, Renewed, PlayedAll, Ticked,
           Observed, Messages, Landed, Seated;
      ghost var seen0, deadline0, beatDue0, acts0 := seen, deadline, beatDue, acts;
      var out := TakeLanded(t);
      var _ :- Deliver(out, t, due);
      ghost var acts1, nodes1 := acts, nodes;
      FollowWaiting(t, due);
      ghost var dues := deadline;
      var _ :- TimeAll(t, due);
      TickIsPlayed(acts0, acts1, acts, out, nodes1, seen0, deadline0, dues, beatDue0);
      FollowWaiting(TermNow(t, due), DueNow(due));
      r := Ok(());
    }

    lemma TickIsPlayed(
      acts0: seq<Act>, acts1: seq<Act>, acts2: seq<Act>, out: seq<Message>, nodes1: map<Name, NodeState>, seen0: map<Name, int>,
      deadline0: map<Name, int>, dues: map<Name, int>, beatDue0: map<Name, int>)
      requires acts0 <= acts1 <= acts2 && AllHeard(acts1[|acts0|..], out)
      requires PlayedAll(begun, acts1).Some? && PlayedAll(begun, acts1).value.0 == nodes1
      requires AllActed(acts2[|acts1|..], members, nodes1, dues, beatDue0, now)
      requires forall n :: n in members ==>
                 Renewed(n, nodes1, seen0, deadline0, dues, now + timings.minTimeout, now + timings.maxTimeout)
      ensures Ticked(begun, acts0, acts2, out, members, seen0, deadline0, beatDue0, now, timings.minTimeout, timings.maxTimeout)
    {
      hide PlayedAll, Renewed;
      var k := |acts0| + |out|;
      assert |acts1| == k && acts2[..k] == acts1 && acts2[|acts0|..k] == acts1[|acts0|..];
      assert TimesOut(nodes1, acts2[k..], members, seen0, deadline0, dues, beatDue0, now, timings.minTimeout, timings.maxTimeout);
    }

    /**
    Advances the clock by one. If nothing is raised, what landed is heard, every member does what it is due to do, all
    deadlines follow the nodes' own timers again, and what was noted is what there is to see; and the livelock of a
    fixed timeout goes on.
    */
    method Tick() returns (r: Result<()>)
      requires Valid()
      modifies this, net
      ensures Ready() && (r.Ok? ==> Valid()) && now == old(now) + 1 && begun == old(begun)
      ensures r.Ok? ==>
                && Ticked(begun, old(acts), acts, Messages(Landed(old(net.flight), now)), members, old(seen), old(deadline),
                          old(beatDue), now, timings.minTimeout, timings.maxTimeout)
                && Observed(old(leaderless), old(leadersSeen), old(termsSeen)) && Tracking()
      ensures old(Livelock()) ==> r.Ok? && Livelock()
    {
      hide WireOk, CommonTerm, NextDue, Locked, Hopeless, Sole, Ticked, PlayedAll, Network.Valid;
      ghost var t, due := CommonTerm(now, timings.minTimeout), NextDue(now, timings.minTimeout);
      NextMultiple(now, timings.minTimeout);
      var _ :- DeliverAndTime(t, due);
      Observe(TermNow(t, due), DueNow(due));
      r := Ok(());
    }

    /** What the trial has noted since: a tick without a sole leader or one more leader, and the highest term so far. */
    ghost predicate Observed(leaderless0: nat, leaders0: set<Name>, terms0: int)
      reads this
    {
      && leaderless == leaderless0 + (if exists n :: Sole(n) then 0 else 1)
      && (forall n :: n in leadersSeen <==> n in leaders0 || Sole(n))
      && termsSeen >= terms0 && (forall n :: n in members && n in nodes ==> nodes[n].term <= termsSeen)
      && (termsSeen == terms0 || exists n :: n in members && n in nodes && nodes[n].term == termsSeen)
    }

    method Observe(ghost t: int, ghost due: int)
      requires Valid()
      modifies this`leaderless, this`leadersSeen, this`termsSeen
      ensures Valid() && Observed(old(leaderless), old(leadersSeen), old(termsSeen))
      ensures old(AllWaiting(t, due)) && members != [] ==>
                && AllWaiting(t, due) && leaderless == old(leaderless) + 1 && leadersSeen == old(leadersSeen)
                && termsSeen == Max(old(termsSeen), t)
    {
      hide WireOk, Network.Valid, PlayedAll, Wired, Locked, Sole;
      NoteTerms(t, due);
      NoteLeader();
      NobodyLeads(t, due);
    }

    lemma NobodyLeads(t: int, due: int)
      ensures AllWaiting(t, due) ==> forall n :: !Sole(n)
    {
      if AllWaiting(t, due) {
        forall n ensures !Sole(n) {
          if n in members { assert Waiting(n, t, due); }
        }
      }
    }

    method NoteLeader()
      requires Valid()
      modifies this`leaderless, this`leadersSeen
      ensures Valid()
      ensures leaderless == old(leaderless) + (if exists n :: Sole(n) then 0 else 1)
      ensures forall n :: n in leadersSeen <==> n in old(leadersSeen) || Sole(n)
      ensures (forall n :: !Sole(n)) ==> leadersSeen == old(leadersSeen)
    {
      hide WireOk;
      var found := FindLeader();
      if found.None? {
        leaderless := leaderless + 1;
        assert forall n :: !Sole(n);
      } else {
        leadersSeen := leadersSeen + {found.value};
        assert Sole(found.value) && forall n :: Sole(n) ==> n == found.value;
      }
    }

    method NoteTerms(ghost t: int, ghost due: int)
      requires Valid()
      modifies this`termsSeen
      ensures Valid() && termsSeen >= old(termsSeen)
      ensures forall n :: n in members && n in nodes ==> nodes[n].term <= termsSeen
      ensures termsSeen == old(termsSeen) || exists n :: n in members && n in nodes && nodes[n].term == termsSeen
      ensures old(AllWaiting(t, due)) && members != [] ==> AllWaiting(t, due) && termsSeen == Max(old(termsSeen), t)
    {
      hide WireOk;
      EachSeated();
      for i := 0 to |members|
        invariant Valid() && termsSeen >= old(termsSeen)
        invariant forall j {:trigger members[j]} :: 0 <= j < i ==> nodes[members[j]].term <= termsSeen
        invariant termsSeen == old(termsSeen) || exists n :: n in members && n in nodes && nodes[n].term == termsSeen
        invariant old(AllWaiting(t, due)) ==>
                    AllWaiting(t, due) && termsSeen == if i == 0 then old(termsSeen) else Max(old(termsSeen), t)
      {
        var n := members[i];
        assert n in members && Seated(n);
        if AllWaiting(t, due) { assert Waiting(n, t, due); }
        termsSeen := Max(termsSeen, nodes[n].term);
      }
    }

    /**
    A fixed timeout elects nobody in any number of ticks: in a cluster of
    two or more, over any fixed delay, every node is in term 1 + now / timeout and none has ever led.
    */
    method Run(ticks: nat) returns (r: Result<()>)
      requires Valid()
      modifies this, net
      ensures Ready() && (r.Ok? ==> Valid() && now == old(now) + ticks && begun == old(begun))
      ensures old(Livelock()) ==> r.Ok? && Livelock()
    {
      hide WireOk;
      for i := 0 to ticks
        invariant Valid() && now == old(now) + i && begun == old(begun)
        invariant old(Livelock()) ==> Livelock()
      {
        var _ :- Tick();
      }
      r := Ok(());
    }
  }
}
