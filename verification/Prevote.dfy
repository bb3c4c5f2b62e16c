/**
Pre-vote can jam. A candidate whose election fails stays a candidate, and with pre-vote on its next timeout only
asks whether an election would work; but only a follower counts the answers. Once every node has spent its vote of
the term on itself, a leader can come only from a follower that a majority would answer, and if every node is a
candidate there is none: no timeout and no delivery ever makes a leader again.
*/
module Prevoting {
  import opened Basics
  import opened Logs
  import opened Rpc
  import opened NodeSpec
  import opened ClusterSpec
  import opened Invariant
  import opened Keeping
  import opened Actions
  import opened Commit
  import opened Matching
  import opened Safety

  /* ---- what every reachable cluster satisfies about who asked what ---- */

  /** The voter would not call the other's log older than its own. */
  predicate Backs(voter: NodeState, s: NodeState) {
    UpToDate(voter.log.entries, |s.log.entries|, LastTermOf(s.log.entries))
  }

  ghost predicate Unled(h: History, t: int) { t !in h.offices }

  /** A node's name is its own, and so is a candidate's vote. */
  ghost predicate Named(s: NodeState, n: Name) {
    s.name == n && (s.role == Candidate ==> s.votedFor == Some(n))
  }

  /** A node counts only answers from nodes no earlier in term, and in an unled term only from its backers. */
  ghost predicate Counted(h: History, nodes: map<Name, NodeState>, n: Name, k: Name)
    requires n in nodes
  {
    k in nodes[n].preVotes && k != n ==>
      && k in nodes && nodes[k].term >= nodes[n].term
      && (nodes[k].term == nodes[n].term && Unled(h, nodes[n].term) ==> Backs(nodes[k], nodes[n]))
  }

  /** What a message says was true when it was said, and while its term lasts unled it still is. */
  ghost predicate Truthful(h: History, nodes: map<Name, NodeState>, m: Message) {
    && m.sender in nodes && m.recipient in nodes
    && var s := nodes[m.sender];
       if !m.Asking() then m.term <= s.term
       else if m.RequestVote? then
         && m.term <= s.term + 1
         && (m.term == s.term + 1 && Unled(h, s.term) ==>
               m.lastIndex == |s.log.entries| && m.lastTerm == LastTermOf(s.log.entries))
       else
         && m.term <= s.term
         && (m.granted ==>
               && m.term <= nodes[m.recipient].term
               && (m.term == s.term == nodes[m.recipient].term && Unled(h, m.term) ==> Backs(s, nodes[m.recipient])))
  }

  ghost predicate Honest(h: History, c: Cluster) {
    && (forall n {:trigger Named(c.nodes[n], n)} :: n in c.nodes ==> Named(c.nodes[n], n))
    && (forall n, k {:trigger Counted(h, c.nodes, n, k)} :: n in c.nodes ==> Counted(h, c.nodes, n, k))
    && (forall m {:trigger Truthful(h, c.nodes, m)} :: m in c.sent ==> Truthful(h, c.nodes, m))
  }

  /* ---- one node moves ---- */

  /** A node goes on: never back in term, and within an unled term with the log it has. */
  ghost predicate GoesOn(h: History, s: NodeState, s': NodeState) {
    && s'.term >= s.term && s'.name == s.name
    && (s'.term == s.term && Unled(h, s.term) ==> s'.log.entries == s.log.entries)
  }

  /** What a node says, apart from granting a pre-vote, is true of it. */
  ghost predicate Speaks(s: NodeState, m: Message) {
    && m.sender == s.name
    && if !m.Asking() then m.term <= s.term
       else if m.RequestVote? then
         m.term == s.term + 1 && m.lastIndex == |s.log.entries| && m.lastTerm == LastTermOf(s.log.entries)
       else m.term == s.term
  }

  /** A granted pre-vote answers a question in flight that the voter's log agrees to. */
  ghost predicate Answers(s: NodeState, asked: Message, m: Message) {
    m.Vote? && m.preVote && m.granted ==>
      && asked.RequestVote? && asked.preVote && m.recipient == asked.sender && asked.term > s.term
      && UpToDate(s.log.entries, asked.lastIndex, asked.lastTerm)
  }

  lemma CountedStays(h: History, h': History, nodes: map<Name, NodeState>, nodes': map<Name, NodeState>, n: Name, k: Name)
    requires n in nodes && Counted(h, nodes, n, k) && nodes'.Keys == nodes.Keys
    requires forall a :: a in nodes ==> GoesOn(h', nodes[a], nodes'[a])
    requires h.offices.Keys <= h'.offices.Keys
    requires nodes'[n].preVotes <= nodes[n].preVotes && nodes'[n].term == nodes[n].term
    ensures Counted(h', nodes', n, k)
  {
  }

  lemma TruthStays(h: History, h': History, nodes: map<Name, NodeState>, nodes': map<Name, NodeState>, m: Message)
    requires Truthful(h, nodes, m) && nodes'.Keys == nodes.Keys
    requires forall a :: a in nodes ==> GoesOn(h', nodes[a], nodes'[a])
    requires h.offices.Keys <= h'.offices.Keys
    ensures Truthful(h', nodes', m)
  {
  }

  /** What a node may do with the answers it has counted: keep them within the term, or start over. */
  ghost predicate Recounts(s: NodeState, s': NodeState, more: set<Name>) {
    s'.preVotes <= {s'.name} || (s'.term == s.term && s'.preVotes <= s.preVotes + more)
  }

  /** Everyone `more` adds is a node no earlier in term, and in an unled term one of the node's backers. */
  ghost predicate Fit(h: History, nodes: map<Name, NodeState>, n: Name, more: set<Name>)
    requires n in nodes
  {
    forall k :: k in more ==>
      && k in nodes && nodes[k].term >= nodes[n].term
      && (nodes[k].term == nodes[n].term && Unled(h, nodes[n].term) ==> Backs(nodes[k], nodes[n]))
  }

  /** A cluster stays honest when one node goes on honestly. */
  lemma HonestMoves(c: Cluster, h: History, h': History, n: Name, e: Effect, asked: Message, more: set<Name>)
    requires Honest(h, c) && n in c.nodes && h.offices.Keys <= h'.offices.Keys
    requires Named(e.node, n) && GoesOn(h', c.nodes[n], e.node) && Recounts(c.nodes[n], e.node, more)
    requires Fit(h, c.nodes, n, more)
    requires forall o :: o in e.sends ==> Speaks(e.node, o) && o.recipient in c.nodes && Answers(e.node, asked, o)
    requires asked in c.sent || forall o :: o in e.sends ==> !(o.Vote? && o.preVote && o.granted)
    ensures Honest(h', Install(c, n, e))
  {
    var nodes, nodes' := c.nodes, c.nodes[n := e.node];
    assert nodes'.Keys == nodes.Keys;
    assert forall a :: a in nodes ==> Named(nodes[a], a);
    forall a, k | a in nodes' ensures Counted(h', nodes', a, k) {
      assert Counted(h, nodes, a, k);
      if a != n {
        CountedStays(h, h', nodes, nodes', a, k);
      } else {
        RecountsWell(h, h', nodes, n, e.node, more, k);
      }
    }
    forall m | m in Install(c, n, e).sent ensures Truthful(h', nodes', m) {
      if m in c.sent {
        assert Truthful(h, nodes, m);
        TruthStays(h, h', nodes, nodes', m);
      } else {
        assert asked in c.sent ==> Truthful(h, nodes, asked);
        SpeaksTruth(h, h', nodes, n, e.node, asked, asked in c.sent, m);
      }
    }
  }

  lemma RecountsWell(h: History, h': History, nodes: map<Name, NodeState>, n: Name, s': NodeState, more: set<Name>, k: Name)
    requires n in nodes && Counted(h, nodes, n, k) && h.offices.Keys <= h'.offices.Keys
    requires s'.name == n && GoesOn(h', nodes[n], s') && Recounts(nodes[n], s', more) && Fit(h, nodes, n, more)
    ensures Counted(h', nodes[n := s'], n, k)
  {
  }

  lemma SpeaksTruth(h: History, h': History, nodes: map<Name, NodeState>, n: Name, s': NodeState, asked: Message,
                    inFlight: bool, m: Message)
    requires n in nodes && h.offices.Keys <= h'.offices.Keys
    requires s'.name == n && GoesOn(h', nodes[n], s')
    requires Speaks(s', m) && m.recipient in nodes && Answers(s', asked, m)
    requires if inFlight then Truthful(h, nodes, asked) else !(m.Vote? && m.preVote && m.granted)
    ensures Truthful(h', nodes[n := s'], m)
  {
    if m.Vote? && m.preVote && m.granted {
      var r := nodes[m.recipient];
      assert m.recipient != n && m.term <= r.term;
      if m.term == r.term && Unled(h', m.term) {
        assert asked.term == r.term + 1 && asked.lastIndex == |r.log.entries|;
      }
    }
  }

  /* ---- what the code does ---- */

  ghost predicate Flat(s: NodeState) { s.log.snapshotIndex == 0 && s.log.snapshotTerm == NO_TERM }

  ghost predicate Own(s: NodeState) { s.role == Candidate ==> s.votedFor == Some(s.name) }

  /** A handler that speaks the truth of the node it leaves, and keeps the log unless the node ends up leading. */
  ghost predicate Proper(s: NodeState, e: Effect, more: set<Name>) {
    && e.node.name == s.name && e.node.term >= s.term && Flat(e.node) && (Own(s) ==> Own(e.node))
    && Recounts(s, e.node, more)
    && (e.node.log == s.log || e.node.role == Leader)
    && forall o :: o in e.sends ==> Speaks(e.node, o) && !(o.Vote? && o.preVote && o.granted)
  }

  lemma RequestsSpeak(s: NodeState, s': NodeState, term: Term, preVote: bool)
    requires Flat(s) && s.name == s'.name && s.log == s'.log
    requires if preVote then term == s'.term + 1 else term == s'.term
    ensures forall o :: o in VoteRequests(s, term, preVote) ==> Speaks(s', o) && o.RequestVote?
  {
    FlatLast(s.log);
    var out := VoteRequests(s, term, preVote);
    forall o | o in out ensures Speaks(s', o) && o.RequestVote? {
      var i :| 0 <= i < |out| && out[i] == o;
    }
  }

  lemma ReplicasSpeak(s: NodeState)
    requires Flat(s)
    ensures forall o :: o in Replicate(s) ==> Speaks(s, o) && !o.Asking()
  {
    var out := Replicate(s);
    forall o | o in out ensures Speaks(s, o) && !o.Asking() {
      var i :| 0 <= i < |out| && out[i] == o;
    }
  }

  lemma OpensProper(s: NodeState)
    requires Flat(s) && s.role == Leader && Opened(s).Ok?
    ensures Proper(s, Opened(s).value, {})
  {
    var beating := s.(heartbeatDue := s.now + HEARTBEAT_INTERVAL);
    ReplicasSpeak(Opened(s).value.node);
  }

  lemma LeadsProper(s: NodeState)
    requires Flat(s) && BecomeLeader(s).Ok?
    ensures Proper(s, BecomeLeader(s).value, {})
  {
    var written := NodeSpec.Write(TakenOffice(s), NoOp).value;
    OpensProper(written);
  }

  lemma StandsProper(s: NodeState, span: int)
    requires Flat(s)
    ensures Stand(s, span).Ok? ==> Proper(s, Stand(s, span).value, {})
    ensures BecomeCandidate(s, span).Ok? ==> Proper(s, BecomeCandidate(s, span).value, {})
  {
    var stood := Stood(s, span);
    if BecomeLeader(stood).Ok? { LeadsProper(stood); }
    RequestsSpeak(stood, stood, stood.term, false);
    var asking := ResetTimer(s.(preVotes := {s.name}), span);
    RequestsSpeak(s, asking, s.term + 1, true);
  }

  lemma TicksProper(s: NodeState, now: int, span: int)
    requires Flat(s) && Tick(s, now, span).Ok?
    ensures Proper(s, Tick(s, now, span).value, {})
  {
    var on := s.(now := now);
    StandsProper(on, span);
    ReplicasSpeak(on.(heartbeatDue := now + HEARTBEAT_INTERVAL));
  }

  lemma ProposesProper(s: NodeState, command: Command)
    requires Flat(s) && s.role == Leader && Propose(s, command).Ok?
    ensures var s' := Propose(s, command).value.0; Proper(s, Effect(s', Replicate(s')), {})
  {
    ReplicasSpeak(Propose(s, command).value.0);
  }

  lemma VotesProper(s: NodeState, m: Message, span: int)
    requires Flat(s) && m.recipient == s.name && m.Vote? && OnVote(s, m, span).Ok?
    ensures Proper(s, OnVote(s, m, span).value, if m.preVote && m.granted then {m.sender} else {})
  {
    var counted := s.(votes := s.votes + {m.sender});
    if BecomeLeader(counted).Ok? { LeadsProper(counted); }
    StandsProper(s.(preVotes := s.preVotes + {m.sender}), span);
  }

  lemma AnsweredProper(s: NodeState, m: Message)
    requires Flat(s) && m.recipient == s.name && m.Appended? && OnAppended(s, m).Ok?
    ensures Proper(s, OnAppended(s, m).value, {})
  {
  }

  /** The one a granted pre-vote adds to what its receiver counts. */
  function Adds(s: NodeState, m: Message): set<Name> {
    if m.Vote? && m.preVote && m.granted && m.term >= s.term then {m.sender} else {}
  }

  /** What handling a message does: as above, except that an append may change the log and a question be answered. */
  ghost predicate Candid(s: NodeState, e: Effect, m: Message, more: set<Name>) {
    && e.node.name == s.name && e.node.term >= s.term && (Own(s) ==> Own(e.node))
    && Recounts(s, e.node, more)
    && (e.node.log == s.log || e.node.role == Leader || (m.Append? && m.term == e.node.term))
    && forall o :: o in e.sends ==> Speaks(e.node, o) && Answers(e.node, m, o)
  }

  lemma RequestsCandid(s: NodeState, m: Message, span: int)
    requires Flat(s) && m.recipient == s.name && m.RequestVote?
    ensures Candid(s, OnRequestVote(s, m, span), m, {})
  {
    FlatLast(s.log);
  }

  lemma AppendsCandid(s: NodeState, m: Message, span: int)
    requires m.recipient == s.name && m.Append? && m.term == s.term && OnAppend(s, m, span).Ok?
    ensures Candid(s, OnAppend(s, m, span).value, m, {})
  {
    hide TakeAll, ApplyCommitted, Conflict, Heard, Candid, Recounts;
    var g := Heard(s, m.sender, m.term, span);
    HeardStill(s, m.sender, m.term, span);
    if !g.log.Matches(m.previousIndex, m.previousTerm) { ConflictSpeaks(g, m); }
    FollowsCandid(s, g, OnAppend(s, m, span).value, m);
  }

  lemma FollowsCandid(s: NodeState, g: NodeState, e: Effect, m: Message)
    requires m.Append? && m.term == s.term && g.name == s.name && g.term == s.term && g.role == Follower
    requires g.preVotes <= s.preVotes
    requires e.node.name == g.name && e.node.term == g.term && e.node.role == g.role && e.node.preVotes == g.preVotes
    requires forall o :: o in e.sends ==> o.Appended? && o.sender == g.name && o.term <= g.term
    ensures Candid(s, e, m, {})
  {
  }

  lemma HeardStill(s: NodeState, from: Name, term: Term, span: int)
    requires term == s.term
    ensures var s' := Heard(s, from, term, span);
            s'.name == s.name && s'.term == s.term && s'.role == Follower && s'.log == s.log && s'.preVotes <= s.preVotes
  {
  }

  lemma ConflictSpeaks(s: NodeState, m: Message)
    requires m.recipient == s.name && m.Append?
    requires !s.log.Matches(m.previousIndex, m.previousTerm)
    ensures Conflict(s, m).Ok? ==> Conflict(s, m).value.Appended? && Speaks(s, Conflict(s, m).value)
  {
  }

  lemma HandlesCandid(s: NodeState, m: Message, span: int)
    requires Flat(s) && m.recipient == s.name && !m.InstallSnapshot? && !m.Installed? && Handle(s, m, span).Ok?
    requires m.Append? ==> m.term == s.term
    ensures Candid(s, Handle(s, m, span).value, m, if m.Vote? && m.preVote && m.granted then {m.sender} else {})
  {
    match m
    case RequestVote(_, _, _, _, _, _) => RequestsCandid(s, m, span);
    case Vote(_, _, _, _, _) => VotesProper(s, m, span);
    case Append(_, _, _, _, _, _, _) => AppendsCandid(s, m, span);
    case Appended(_, _, _, _, _, _, _) => AnsweredProper(s, m);
  }

  lemma StepsCandid(s: NodeState, m: Message, span: int)
    requires Flat(s) && m.recipient == s.name && !m.InstallSnapshot? && !m.Installed? && Step(s, m, span).Ok?
    ensures Candid(s, Step(s, m, span).value, m, Adds(s, m))
  {
    hide Handle;
    if TermCheck(s.term, m) == Stale {
    } else if TermCheck(s.term, m) == Ahead && !m.Asking() {
      HandlesCandid(BecomeFollower(s, m.term, None, span), m, span);
    } else {
      HandlesCandid(s, m, span);
    }
  }

  /* ---- every run is honest ---- */

  lemma FlatHere(w: World, n: Name)
    requires Inv(w) && n in w.nodes
    ensures Flat(w.nodes[n]) && w.nodes[n].name == n && w.nodes[n].members == w.members
    ensures w.nodes[n].role == Leader ==> !Unled(w.h, w.nodes[n].term)
  {
    NodeAt(w, n);
  }

  /** An event keeps a cluster honest. */
  lemma EventHonest(c: Cluster, h: History, e: Event, h': History)
    requires Inv(WorldOf(c, h)) && Honest(h, c) && Enabled(c, e) && Apply(c, e).Ok?
    requires Inv(WorldOf(Apply(c, e).value, h')) && Extends(h, h')
    ensures Honest(h', Apply(c, e).value)
  {
    hide Inv, Honest, Step, Tick, Propose, Candid, Proper;
    var w, c' := WorldOf(c, h), Apply(c, e).value;
    var w' := WorldOf(c', h');
    OfficesGrow(h, h');
    match e
    case Deliver(m, span) => DeliverHonest(c, h, h', m, span);
    case Timer(n, now, span) =>
      FlatHere(w, n);
      TicksProper(c.nodes[n], now, span);
      ProperHonest(c, h, h', n, Tick(c.nodes[n], now, span).value);
    case Request(n, command) =>
      FlatHere(w, n);
      ProposesProper(c.nodes[n], command);
      var s' := Propose(c.nodes[n], command).value.0;
      ProperHonest(c, h, h', n, Effect(s', Replicate(s')));
    case Crash(n) => SameHonest(c, h, h', c');
    case Restart(n, now, span) => RestartHonest(c, h, h', n, now, span);
  }

  lemma OfficesGrow(h: History, h': History)
    requires Extends(h, h')
    ensures h.offices.Keys <= h'.offices.Keys
  {
    forall t | t in h.offices ensures t in h'.offices { assert OfficeExtends(h, h', t); }
  }

  lemma SentAmong(c: Cluster, h: History, m: Message)
    requires Inv(WorldOf(c, h)) && m in c.sent
    ensures m.recipient in c.nodes && m.sender in c.nodes && !m.InstallSnapshot? && !m.Installed?
    ensures m.Append? ==> m.term in h.offices
  {
    assert MessageOk(h, c.members, m);
  }

  lemma NamedAt(c: Cluster, h: History, n: Name)
    requires Honest(h, c) && n in c.nodes
    ensures Named(c.nodes[n], n)
  {
  }

  lemma ProperHonest(c: Cluster, h: History, h': History, n: Name, e: Effect)
    requires Inv(WorldOf(c, h)) && Honest(h, c) && n in c.nodes && h.offices.Keys <= h'.offices.Keys
    requires Inv(WorldOf(Install(c, n, e), h')) && Proper(c.nodes[n], e, {})
    ensures Honest(h', Install(c, n, e))
  {
    hide Inv, Honest, Speaks, Recounts;
    NamedAt(c, h, n);
    FlatHere(WorldOf(Install(c, n, e), h'), n);
    forall o | o in e.sends ensures o.recipient in c.nodes {
      assert o in Install(c, n, e).sent;
      SentAmong(Install(c, n, e), h', o);
    }
    var none := Installed(Name(0), Name(1), 1, 0);
    HonestMoves(c, h, h', n, e, none, {});
  }

  lemma DeliverHonest(c: Cluster, h: History, h': History, m: Message, span: int)
    requires Inv(WorldOf(c, h)) && Honest(h, c) && Enabled(c, Deliver(m, span)) && h.offices.Keys <= h'.offices.Keys
    requires Step(c.nodes[m.recipient], m, span).Ok?
    requires Inv(WorldOf(Install(c, m.recipient, Step(c.nodes[m.recipient], m, span).value), h'))
    ensures Honest(h', Install(c, m.recipient, Step(c.nodes[m.recipient], m, span).value))
  {
    hide Inv, Honest, Speaks, Recounts, Step, Adds;
    var n := m.recipient;
    var s, e := c.nodes[n], Step(c.nodes[n], m, span).value;
    var c' := Install(c, n, e);
    SentAmong(c, h, m);
    FlatHere(WorldOf(c, h), n);
    FlatHere(WorldOf(c', h'), n);
    NamedAt(c, h, n);
    StepsCandid(s, m, span);
    forall o | o in e.sends ensures o.recipient in c.nodes {
      assert o in c'.sent;
      SentAmong(c', h', o);
    }
    AddsFit(c, h, m);
    HonestMoves(c, h, h', n, e, m, Adds(s, m));
  }

  /** A pre-vote that is counted comes from a backer. */
  lemma AddsFit(c: Cluster, h: History, m: Message)
    requires Honest(h, c) && m in c.sent && m.recipient in c.nodes
    ensures Fit(h, c.nodes, m.recipient, Adds(c.nodes[m.recipient], m))
  {
    assert Truthful(h, c.nodes, m);
  }

  lemma SameHonest(c: Cluster, h: History, h': History, c': Cluster)
    requires Honest(h, c) && h.offices.Keys <= h'.offices.Keys && c'.nodes == c.nodes && c'.sent == c.sent
    ensures Honest(h', c')
  {
    forall n, k | n in c'.nodes ensures Counted(h', c'.nodes, n, k) { assert Counted(h, c.nodes, n, k); }
    forall m | m in c'.sent ensures Truthful(h', c'.nodes, m) { assert Truthful(h, c.nodes, m); }
  }

  lemma RestartHonest(c: Cluster, h: History, h': History, n: Name, now: int, span: int)
    requires Honest(h, c) && n in c.nodes && h.offices.Keys <= h'.offices.Keys && Restarted(c.nodes[n], now, span).Ok?
    ensures Honest(h', c.(nodes := c.nodes[n := Restarted(c.nodes[n], now, span).value], down := c.down - {n}))
  {
    hide Honest;
    NamedAt(c, h, n);
    var e := Effect(Restarted(c.nodes[n], now, span).value, []);
    HonestMoves(c, h, h', n, e, Installed(Name(0), Name(1), 1, 0), {});
    SameHonest(Install(c, n, e), h', h', c.(nodes := c.nodes[n := e.node], down := c.down - {n}));
  }

  lemma BeginsHonest(c: Cluster, h: History)
    requires Initial(c)
    ensures Honest(h, c)
  {
    forall n | n in c.nodes ensures Named(c.nodes[n], n) && forall k :: Counted(h, c.nodes, n, k) {
      assert InitialNode(c.nodes[n], n, c.members);
    }
  }

  lemma {:induction false} RunsHonest(states: seq<Cluster>, events: seq<Event>, hs: seq<History>, k: nat)
    requires Run(states, events) && Recorded(states, hs) && k <= |events|
    ensures Honest(hs[k], states[k])
  {
    hide Honest, Full;
    if k == 0 {
      BeginsHonest(states[0], hs[0]);
    } else {
      RunsHonest(states, events, hs, k - 1);
      assert Full(WorldOf(states[k - 1], hs[k - 1])) && Full(WorldOf(states[k], hs[k])) && Extends(hs[k - 1], hs[k]);
      FullInv(WorldOf(states[k - 1], hs[k - 1]));
      FullInv(WorldOf(states[k], hs[k]));
      assert StepOf(states, events, k - 1);
      EventHonest(states[k - 1], hs[k - 1], events[k - 1], hs[k]);
    }
  }

  lemma FullInv(w: World)
    requires Full(w)
    ensures Inv(w)
  {
  }

  /* ---- when no leader can come any more ---- */

  /** Every node is in the term, asks before it stands, and has spent its vote of the term on itself. */
  ghost predicate AllSpent(c: Cluster, t: int) {
    && |c.members| > 1
    && forall n {:trigger Spent(c.nodes[n], n, t)} :: n in c.nodes ==> Spent(c.nodes[n], n, t)
  }

  ghost predicate Spent(s: NodeState, n: Name, t: int) {
    s.preVote && s.term == t && s.votedFor == Some(n)
  }

  /** The nodes that would answer `n` yes if it asked, itself among them. */
  ghost function Backers(c: Cluster, n: Name): set<Name>
    requires n in c.nodes
  {
    set k | k in c.nodes && (k == n || Backs(c.nodes[k], c.nodes[n]))
  }

  /** A follower that a majority would answer. */
  ghost predicate Hopeful(c: Cluster, n: Name) {
    n in c.nodes && c.nodes[n].role == Follower && |Backers(c, n)| >= |c.members| / 2 + 1
  }

  ghost predicate Hopeless(c: Cluster) { forall n :: !Hopeful(c, n) }

  /** A message that can neither elect nor depose anyone. */
  ghost predicate Mute(c: Cluster, t: int, m: Message) {
    && m.sender in c.nodes && m.recipient in c.nodes
    && if !m.Asking() then
         m.term < t || (m.term == t && (m.RequestVote? || (m.Vote? && !m.granted) || (m.Appended? && !m.success)))
       else if m.RequestVote? then
         && m.term <= t + 1
         && var s := c.nodes[m.sender];
            m.term == t + 1 ==> m.lastIndex == |s.log.entries| && m.lastTerm == LastTermOf(s.log.entries)
       else m.granted && m.term >= t ==> m.sender in Backers(c, m.recipient)
  }

  /** A node that leads nobody and has counted only backers. */
  ghost predicate Idle(c: Cluster, n: Name)
    requires n in c.nodes
  {
    var s := c.nodes[n];
    && s.name == n && s.members == c.members && s.role != Leader && Flat(s)
    && (s.role == Follower ==> s.preVotes <= Backers(c, n))
  }

  ghost predicate Stuck(c: Cluster, t: int) {
    && AllSpent(c, t) && Hopeless(c)
    && (forall n {:trigger Idle(c, n)} :: n in c.nodes ==> Idle(c, n))
    && (forall m {:trigger Mute(c, t, m)} :: m in c.sent ==> Mute(c, t, m))
  }

  /** The same log, term, vote and role. */
  ghost predicate SameSeat(s: NodeState, s': NodeState) {
    && s'.name == s.name && s'.members == s.members && s'.preVote == s.preVote && s'.term == s.term
    && s'.votedFor == s.votedFor && s'.role == s.role && s'.log == s.log
  }

  lemma SameBackers(c: Cluster, c': Cluster, n: Name)
    requires n in c.nodes && c'.nodes.Keys == c.nodes.Keys
    requires forall k :: k in c.nodes ==> SameSeat(c.nodes[k], c'.nodes[k])
    ensures Backers(c', n) == Backers(c, n)
  {
  }

  /** What a node of a stuck cluster does: it stays in its seat, and says nothing that matters. */
  ghost predicate Still(c: Cluster, t: int, n: Name, e: Effect)
    requires n in c.nodes
  {
    && SameSeat(c.nodes[n], e.node)
    && (e.node.role == Follower ==> e.node.preVotes <= Backers(c, n))
    && forall o :: o in e.sends ==> Mute(c, t, o)
  }

  lemma StillStuck(c: Cluster, t: int, n: Name, e: Effect)
    requires Stuck(c, t) && n in c.nodes && Still(c, t, n, e)
    ensures Stuck(Install(c, n, e), t)
  {
    var c' := Install(c, n, e);
    assert c'.nodes.Keys == c.nodes.Keys;
    assert forall k :: k in c.nodes ==> SameSeat(c.nodes[k], c'.nodes[k]);
    forall k | k in c.nodes ensures Backers(c', k) == Backers(c, k) { SameBackers(c, c', k); }
    forall k | k in c'.nodes ensures Spent(c'.nodes[k], k, t) && Idle(c', k) && !Hopeful(c', k) {
      assert Spent(c.nodes[k], k, t) && Idle(c, k) && !Hopeful(c, k);
    }
    forall m | m in c'.sent ensures Mute(c', t, m) {
      assert Mute(c, t, m);
    }
  }

  /** No message moves a node of a stuck cluster. */
  lemma MutesChangeNothing(c: Cluster, t: int, m: Message, span: int)
    requires Stuck(c, t) && m in c.sent && m.recipient in c.nodes
    ensures m.recipient == c.nodes[m.recipient].name && Step(c.nodes[m.recipient], m, span).Ok?
    ensures Still(c, t, m.recipient, Step(c.nodes[m.recipient], m, span).value)
  {
    var n := m.recipient;
    var s := c.nodes[n];
    assert Mute(c, t, m) && Idle(c, n) && Spent(s, n, t) && !Hopeful(c, n);
    FlatLast(s.log);
    if m.Vote? && m.preVote {
      TooFew(c, t, m);
    } else if m.RequestVote? {
      RefusedVote(c, t, m, span);
    }
  }

  /** Counting one more backer of a hopeless follower does not make a majority. */
  lemma TooFew(c: Cluster, t: int, m: Message)
    requires Stuck(c, t) && m in c.sent && m.recipient in c.nodes && m.Vote? && m.preVote
    ensures var s := c.nodes[m.recipient];
            s.role == Follower && m.granted && m.term >= t ==>
              |s.preVotes + {m.sender}| < s.Quorum() && s.preVotes + {m.sender} <= Backers(c, m.recipient)
  {
    var n := m.recipient;
    var s := c.nodes[n];
    assert Mute(c, t, m) && Idle(c, n) && !Hopeful(c, n);
    if s.role == Follower && m.granted && m.term >= t {
      SubsetSize(s.preVotes + {m.sender}, Backers(c, n));
    }
  }

  lemma RefusedVote(c: Cluster, t: int, m: Message, span: int)
    requires Stuck(c, t) && m in c.sent && m.recipient in c.nodes && m.RequestVote?
    ensures m.recipient == c.nodes[m.recipient].name && Step(c.nodes[m.recipient], m, span).Ok?
    ensures Still(c, t, m.recipient, Step(c.nodes[m.recipient], m, span).value)
  {
    var n := m.recipient;
    var s := c.nodes[n];
    assert Mute(c, t, m) && Idle(c, n) && Spent(s, n, t);
    FlatLast(s.log);
  }

  /** A timeout only asks. */
  lemma TimeoutsOnlyAsk(c: Cluster, t: int, n: Name, now: int, span: int)
    requires Stuck(c, t) && n in c.nodes && Names(c.members) <= c.nodes.Keys
    ensures Tick(c.nodes[n], now, span).Ok? && Still(c, t, n, Tick(c.nodes[n], now, span).value)
  {
    var s := c.nodes[n];
    assert Idle(c, n) && Spent(s, n, t);
    FlatLast(s.log);
    var on := s.(now := now);
    var out := VoteRequests(on, on.term + 1, true);
    forall o | o in out ensures Mute(c, t, o) {
      var i :| 0 <= i < |out| && out[i] == o;
      assert on.Peers()[i] in on.Peers() && o.recipient in Names(c.members);
    }
  }

  /** Nothing but a restart changes a stuck cluster. */
  lemma StuckHolds(c: Cluster, t: int, e: Event)
    requires Stuck(c, t) && Enabled(c, e) && !e.Restart? && Names(c.members) <= c.nodes.Keys
    ensures Apply(c, e).Ok? && Stuck(Apply(c, e).value, t)
    ensures Apply(c, e).value.members == c.members && Apply(c, e).value.nodes.Keys == c.nodes.Keys
  {
    hide Stuck, Still, Step, Tick;
    match e
    case Deliver(m, span) =>
      MutesChangeNothing(c, t, m, span);
      StillStuck(c, t, m.recipient, Step(c.nodes[m.recipient], m, span).value);
    case Timer(n, now, span) =>
      TimeoutsOnlyAsk(c, t, n, now, span);
      StillStuck(c, t, n, Tick(c.nodes[n], now, span).value);
    case Request(n, command) =>
      NobodyLeads(c, t, n);
    case Crash(n) => CrashedStuck(c, t, n);
  }

  lemma NobodyLeads(c: Cluster, t: int, n: Name)
    requires Stuck(c, t) && n in c.nodes
    ensures c.nodes[n].role != Leader && c.nodes[n].term == t
  {
    assert Idle(c, n) && Spent(c.nodes[n], n, t);
  }

  lemma CrashedStuck(c: Cluster, t: int, n: Name)
    requires Stuck(c, t)
    ensures Stuck(c.(down := c.down + {n}), t)
  {
    var c' := c.(down := c.down + {n});
    forall k | k in c.nodes ensures Backers(c', k) == Backers(c, k) {}
    forall k | k in c'.nodes ensures Idle(c', k) && !Hopeful(c', k) { assert Idle(c, k) && !Hopeful(c, k); }
    forall m | m in c'.sent ensures Mute(c', t, m) { assert Mute(c, t, m); }
  }

  /* ---- a reachable cluster is stuck as soon as it looks it ---- */

  /** Somebody other than the leader of a term voted for it. */
  lemma Elector(c: Cluster, h: History, t: int) returns (v: Name)
    requires Inv(WorldOf(c, h)) && !Unled(h, t) && |c.members| > 1
    ensures v in c.nodes && (c.nodes[v].term == t ==> c.nodes[v].votedFor.Some? && c.nodes[v].votedFor != Some(v))
  {
    var office := h.offices[t];
    assert OfficeOk(h, c.members, c.nodes, t);
    v := Another(office.voters, office.leader);
    assert CastOk(h, c.nodes, Seat(t, v));
  }

  /** A term in which everyone voted for itself has no leader. */
  lemma SpentUnled(c: Cluster, h: History, t: int)
    requires Inv(WorldOf(c, h)) && AllSpent(c, t)
    ensures Unled(h, t)
  {
    if !Unled(h, t) {
      var v := Elector(c, h, t);
      var spent := Spent(c.nodes[v], v, t);
      assert false;
    }
  }

  lemma Another(s: set<Name>, one: Name) returns (v: Name)
    requires |s| >= 2
    ensures v in s && v != one
  {
    assert |s - {one}| >= 1 by { if one in s { assert s == (s - {one}) + {one}; } else { assert s - {one} == s; } }
    v :| v in s - {one};
  }

  /** A vote granted in its sender's term is that node's vote, and an append or a success has a leader behind it. */
  lemma SaidBy(c: Cluster, h: History, m: Message)
    requires Inv(WorldOf(c, h)) && m in c.sent
    ensures m.sender in c.nodes && !m.InstallSnapshot? && !m.Installed?
    ensures m.Vote? && !m.preVote && m.granted && m.term == c.nodes[m.sender].term ==>
              c.nodes[m.sender].votedFor == Some(m.recipient)
    ensures m.Append? || (m.Appended? && m.success) ==> !Unled(h, m.term)
  {
    assert MessageOk(h, c.members, m);
    if m.Vote? && !m.preVote && m.granted { assert CastOk(h, c.nodes, Seat(m.term, m.sender)); }
    if m.Appended? && m.success {
      assert Ack(m.sender, m.term, 0) in Acks(m.sender, m.term, m.matchIndex);
      assert AckOk(h, c.nodes, Ack(m.sender, m.term, 0));
    }
  }

  lemma LooksMute(c: Cluster, h: History, t: int, m: Message)
    requires Inv(WorldOf(c, h)) && Honest(h, c) && AllSpent(c, t) && Unled(h, t) && m in c.sent
    ensures Mute(c, t, m)
  {
    hide Inv;
    SaidBy(c, h, m);
    assert Truthful(h, c.nodes, m);
    assert Spent(c.nodes[m.sender], m.sender, t) && Spent(c.nodes[m.recipient], m.recipient, t);
  }

  lemma LooksIdle(c: Cluster, h: History, t: int, n: Name)
    requires Inv(WorldOf(c, h)) && Honest(h, c) && AllSpent(c, t) && Unled(h, t) && n in c.nodes
    ensures Idle(c, n)
  {
    FlatHere(WorldOf(c, h), n);
    assert Spent(c.nodes[n], n, t);
    forall k | k in c.nodes[n].preVotes ensures k in Backers(c, n) {
      assert Counted(h, c.nodes, n, k);
      if k != n { assert Spent(c.nodes[k], k, t); }
    }
  }

  lemma LooksStuck(states: seq<Cluster>, events: seq<Event>, k: nat, t: int)
    requires Run(states, events) && k <= |events| && AllSpent(states[k], t) && Hopeless(states[k])
    ensures Stuck(states[k], t) && Names(states[k].members) <= states[k].nodes.Keys
  {
    hide Honest, Full, Inv, AllSpent, Mute, Idle, Hopeless;
    var hs := RunRecord(states, events);
    var c, h := states[k], hs[k];
    RunsHonest(states, events, hs, k);
    assert Full(WorldOf(c, h));
    FullInv(WorldOf(c, h));
    SpentUnled(c, h, t);
    forall n | n in c.nodes ensures Idle(c, n) { LooksIdle(c, h, t, n); }
    forall m | m in c.sent ensures Mute(c, t, m) { LooksMute(c, h, t, m); }
    AllMembers(WorldOf(c, h));
  }

  lemma AllMembers(w: World)
    requires Inv(w)
    ensures Names(w.members) == w.nodes.Keys
  {
  }

  /**
  Once every node has spent its vote of a term on itself and no follower has a majority of backers, nobody leads
  and no term moves, however long the run goes on without a restart.
  */
  lemma StuckIsForever(states: seq<Cluster>, events: seq<Event>, i: nat, j: nat, t: int)
    requires Run(states, events) && i <= j <= |events| && AllSpent(states[i], t) && Hopeless(states[i])
    requires forall k :: i <= k < j ==> !events[k].Restart?
    ensures AllSpent(states[j], t) && Hopeless(states[j])
    ensures forall n :: n in states[j].nodes ==> states[j].nodes[n].role != Leader && states[j].nodes[n].term == t
  {
    LooksStuck(states, events, i, t);
    StuckGoesOn(states, events, i, j, t);
  }

  lemma {:induction false} StuckGoesOn(states: seq<Cluster>, events: seq<Event>, i: nat, j: nat, t: int)
    requires Run(states, events) && i <= j <= |events| && Stuck(states[i], t)
    requires Names(states[i].members) <= states[i].nodes.Keys
    requires forall k :: i <= k < j ==> !events[k].Restart?
    ensures AllSpent(states[j], t) && Hopeless(states[j])
    ensures forall n :: n in states[j].nodes ==> states[j].nodes[n].role != Leader && states[j].nodes[n].term == t
    decreases j - i
  {
    hide Mute, Idle, Hopeful, Spent;
    if i < j {
      assert StepOf(states, events, i);
      StuckHolds(states[i], t, events[i]);
      StuckGoesOn(states, events, i + 1, j, t);
    } else {
      forall n | n in states[j].nodes ensures states[j].nodes[n].role != Leader && states[j].nodes[n].term == t {
        NobodyLeads(states[j], t, n);
      }
    }
  }

  /**
  The jam: once every node is a candidate of one term under pre-vote, nobody ever leads again without a restart.
  Nothing else need be known of the nodes or of what is in flight.
  */
  lemma JamIsForever(states: seq<Cluster>, events: seq<Event>, i: nat, j: nat, t: int)
    requires Run(states, events) && i <= j <= |events| && |states[i].members| > 1
    requires forall n :: n in states[i].nodes ==>
               states[i].nodes[n].preVote && states[i].nodes[n].role == Candidate && states[i].nodes[n].term == t
    requires forall k :: i <= k < j ==> !events[k].Restart?
    ensures forall n :: n in states[j].nodes ==> states[j].nodes[n].role != Leader && states[j].nodes[n].term == t
  {
    var hs := RunRecord(states, events);
    RunsHonest(states, events, hs, i);
    forall n | n in states[i].nodes ensures Spent(states[i].nodes[n], n, t) { NamedAt(states[i], hs[i], n); }
    StuckIsForever(states, events, i, j, t);
  }
}
