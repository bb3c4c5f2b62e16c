/** What a leader knows about a follower, and how the two logs move while they share a term. */
module Matching {
  import opened Basics
  import opened Logs
  import opened Rpc
  import opened NodeSpec
  import opened ClusterSpec
  import opened Invariant
  import opened Keeping
  import opened Actions
  import opened Commit
  import opened Steps
  import opened Handlers
  import opened Safety

  /**
  Match soundness: as long as a follower is in its leader's term, it holds the leader's log up to the
  match index the leader has for it, whatever order appends and replies arrived in.
  */
  lemma MatchIsHeld(states: seq<Cluster>, events: seq<Event>, i: nat, n: Name, f: Name)
    requires Run(states, events) && i <= |events|
    requires n in states[i].nodes && f in states[i].nodes
    requires states[i].nodes[n].role == Leader && states[i].nodes[f].term == states[i].nodes[n].term
    requires f in states[i].nodes[n].matchIndex
    ensures var match_, x, y := states[i].nodes[n].matchIndex[f], states[i].nodes[n].log.entries, states[i].nodes[f].log.entries;
            match_ <= |x| && (match_ >= 0 ==> x[..match_] <= y)
  {
    var hs := RunRecord(states, events);
    var w := WorldOf(states[i], hs[i]);
    assert Full(w);
    NodeAt(w, n);
    var s := w.nodes[n];
    if s.matchIndex[f] > 0 {
      var a := Ack(f, s.term, s.matchIndex[f]);
      assert a in Acks(f, s.term, s.matchIndex[f]);
      assert AckOk(w.h, w.nodes, a);
      assert Held(w.h, a) == s.log.entries[..s.matchIndex[f]];
    }
  }

  lemma MatchStep(states: seq<Cluster>, events: seq<Event>, i: nat, n: Name, f: Name)
    requires Run(states, events) && i < |events|
    requires n in states[i].nodes && n in states[i + 1].nodes
    requires states[i].nodes[n].role == Leader && states[i + 1].nodes[n].role == Leader
    requires states[i].nodes[n].term == states[i + 1].nodes[n].term
    ensures Get(states[i].nodes[n].matchIndex, f, NO_INDEX) <= Get(states[i + 1].nodes[n].matchIndex, f, NO_INDEX)
  {
    hide Apply, Enabled, Initial, Commits;
    var hs := RunRecord(states, events);
    assert Full(WorldOf(states[i], hs[i])) && StepOf(states, events, i);
    NodeAt(WorldOf(states[i], hs[i]), n);
    OwnMatch(WorldOf(states[i], hs[i]), n);
    EventMatch(states[i], events[i], n, f);
  }

  lemma EventMatch(c: Cluster, e: Event, n: Name, f: Name)
    requires Enabled(c, e) && Apply(c, e).Ok? && n in c.nodes && n in Apply(c, e).value.nodes
    requires var s, s' := c.nodes[n], Apply(c, e).value.nodes[n];
             && s.role == Leader && s'.role == Leader && s'.term == s.term
             && Get(s.matchIndex, s.name, NO_INDEX) <= s.log.LastIndex()
    ensures Get(c.nodes[n].matchIndex, f, NO_INDEX) <= Get(Apply(c, e).value.nodes[n].matchIndex, f, NO_INDEX)
  {
    hide AdvanceCommit, Handle;
    var s := c.nodes[n];
    match e
    case Deliver(m, span) => if m.recipient == n { StepMatch(s, m, span, f); }
    case Timer(k, now, span) => if k == n { TickMatch(s, now, span, f); }
    case Request(k, command) => if k == n { ProposeMatch(s, command, f); }
    case _ =>
  }

  /** A leader's match index for itself is within its log. */
  lemma OwnMatch(w: World, n: Name)
    requires Inv(w) && n in w.nodes && w.nodes[n].role == Leader
    ensures Get(w.nodes[n].matchIndex, n, NO_INDEX) <= w.nodes[n].log.LastIndex()
  {
    NodeAt(w, n);
    var s := w.nodes[n];
    if n in s.matchIndex && s.matchIndex[n] > 0 {
      var a := Ack(n, s.term, s.matchIndex[n]);
      assert a in Acks(n, s.term, s.matchIndex[n]);
      assert AckOk(w.h, w.nodes, a);
    }
  }

  lemma AdvanceMatch(s: NodeState, f: Name)
    requires AdvanceCommit(s).Ok? && s.role == Leader
    requires Get(s.matchIndex, s.name, NO_INDEX) <= s.log.LastIndex()
    ensures Get(s.matchIndex, f, NO_INDEX) <= Get(AdvanceCommit(s).value.matchIndex, f, NO_INDEX)
    ensures AdvanceCommit(s).value.role == Leader && AdvanceCommit(s).value.term == s.term
  {
  }

  lemma ProposeMatch(s: NodeState, command: Command, f: Name)
    requires s.role == Leader && Propose(s, command).Ok?
    requires Get(s.matchIndex, s.name, NO_INDEX) <= s.log.LastIndex()
    ensures Get(s.matchIndex, f, NO_INDEX) <= Get(Propose(s, command).value.0.matchIndex, f, NO_INDEX)
  {
    var written := NodeSpec.Write(s, command).value;
    if |s.members| == 1 { AdvanceMatch(written, f); }
  }

  lemma TickMatch(s: NodeState, now: int, span: int, f: Name)
    requires s.role == Leader && Tick(s, now, span).Ok?
    ensures Tick(s, now, span).value.node.matchIndex == s.matchIndex
  {
  }

  /** Taking office happens within a term. */
  lemma OfficeTerm(s: NodeState)
    requires BecomeLeader(s).Ok?
    ensures BecomeLeader(s).value.node.term == s.term
  {
  }

  lemma VoteTerm(s: NodeState, m: Message, span: int)
    requires m.recipient == s.name && m.Vote? && OnVote(s, m, span).Ok?
    ensures OnVote(s, m, span).value.node.term >= s.term
  {
    var counted := s.(votes := s.votes + {m.sender});
    if BecomeLeader(counted).Ok? { OfficeTerm(counted); }
    var stood := Stood(s.(preVotes := s.preVotes + {m.sender}), span);
    if BecomeLeader(stood).Ok? { OfficeTerm(stood); }
  }

  lemma AppendTerm(s: NodeState, m: Message, span: int)
    requires m.recipient == s.name && m.Append? && OnAppend(s, m, span).Ok?
    ensures OnAppend(s, m, span).value.node.term >= s.term
  {
    assert Heard(s, m.sender, m.term, span).term >= s.term;
  }

  /** No handler takes a node back to an earlier term. */
  lemma HandleTerm(s: NodeState, m: Message, span: int)
    requires m.recipient == s.name && Handle(s, m, span).Ok?
    ensures Handle(s, m, span).value.node.term >= s.term
  {
    if m.Vote? {
      VoteTerm(s, m, span);
    } else if m.Append? {
      AppendTerm(s, m, span);
    }
  }

  lemma AppendDeposes(s: NodeState, m: Message, span: int)
    requires m.recipient == s.name && m.Append? && OnAppend(s, m, span).Ok?
    ensures OnAppend(s, m, span).value.node.role == Follower
  {
  }

  lemma StepMatch(s: NodeState, m: Message, span: int, f: Name)
    requires m.recipient == s.name && s.role == Leader && Step(s, m, span).Ok?
    requires Get(s.matchIndex, s.name, NO_INDEX) <= s.log.LastIndex()
    requires var s' := Step(s, m, span).value.node; s'.role == Leader && s'.term == s.term
    ensures Get(s.matchIndex, f, NO_INDEX) <= Get(Step(s, m, span).value.node.matchIndex, f, NO_INDEX)
  {
    hide AdvanceCommit, RetryIndex, ReplicateTo;
    if TermCheck(s.term, m) == Ahead && !m.Asking() {
      HandleTerm(BecomeFollower(s, m.term, None, span), m, span);
    } else if TermCheck(s.term, m) == Current {
      if m.Appended? && m.success {
        AdvanceMatch(Matched(s, m.sender, m.matchIndex), f);
      } else if m.Installed? {
        AdvanceMatch(Matched(s, m.sender, m.upTo), f);
      } else if m.Append? {
        AppendDeposes(s, m, span);
      }
    }
  }

  /* ---- agreement ---- */

  /** An append is the only message that can cut a log; anything else leaves it or adds one entry. */
  lemma OfficeLog(s: NodeState)
    requires BecomeLeader(s).Ok?
    ensures s.log.entries <= BecomeLeader(s).value.node.log.entries
  {
  }

  lemma VoteLog(s: NodeState, m: Message, span: int)
    requires m.recipient == s.name && m.Vote? && OnVote(s, m, span).Ok?
    ensures s.log.entries <= OnVote(s, m, span).value.node.log.entries
  {
    var counted := s.(votes := s.votes + {m.sender});
    if BecomeLeader(counted).Ok? { OfficeLog(counted); }
    var stood := Stood(s.(preVotes := s.preVotes + {m.sender}), span);
    if BecomeLeader(stood).Ok? { OfficeLog(stood); }
  }

  lemma AppendLog(s: NodeState, m: Message, span: int)
    requires m.recipient == s.name && m.Append? && OnAppend(s, m, span).Ok?
    ensures OnAppend(s, m, span).value.node.log ==
            if s.log.Matches(m.previousIndex, m.previousTerm) then TakeAll(s.log, m.entries) else s.log
  {
    assert Heard(s, m.sender, m.term, span).log == s.log;
  }

  lemma HandleLog(s: NodeState, m: Message, span: int)
    requires m.recipient == s.name && Handle(s, m, span).Ok? && !m.InstallSnapshot?
    ensures var s' := Handle(s, m, span).value.node;
            s.log.entries <= s'.log.entries || (m.Append? && s.log.Matches(m.previousIndex, m.previousTerm)
                                                && s'.log == TakeAll(s.log, m.entries))
  {
    if m.Vote? {
      VoteLog(s, m, span);
    } else if m.Append? {
      AppendLog(s, m, span);
    }
  }

  lemma TickLog(s: NodeState, now: int, span: int)
    requires Tick(s, now, span).Ok?
    ensures s.log.entries <= Tick(s, now, span).value.node.log.entries
  {
    var stood := Stood(s.(now := now), span);
    if BecomeLeader(stood).Ok? { OfficeLog(stood); }
  }

  /** Within its term a node's log only grows, or takes an append of that term. */
  lemma StepMoves(s: NodeState, m: Message, span: int)
    requires m.recipient == s.name && Step(s, m, span).Ok? && !m.InstallSnapshot?
    requires Step(s, m, span).value.node.term == s.term
    ensures var s' := Step(s, m, span).value.node;
            s.log.entries <= s'.log.entries || (m.Append? && m.term == s.term && s.log.Matches(m.previousIndex, m.previousTerm)
                                                && s'.log == TakeAll(s.log, m.entries))
  {
    hide TakeAll, Handle;
    if TermCheck(s.term, m) == Ahead && !m.Asking() {
      HandleTerm(BecomeFollower(s, m.term, None, span), m, span);
    } else if TermCheck(s.term, m) != Stale {
      HandleLog(s, m, span);
    }
  }

  /** A step either lets a log grow or replaces its end by what the leader of the node's term offers. */
  lemma FollowerMoves(w: World, f: Name, m: Message, span: int, p: seq<Entry>)
    requires Full(w) && f in w.nodes && m in w.sent && m.recipient == f
    requires NodeOk(w.h, w.members, f, w.nodes[f]) && Step(w.nodes[f], m, span).Ok?
    requires Step(w.nodes[f], m, span).value.node.term == w.nodes[f].term
    requires var t := w.nodes[f].term; t in w.h.offices && p <= w.h.offices[t].log
    requires p <= w.nodes[f].log.entries
    ensures p <= Step(w.nodes[f], m, span).value.node.log.entries
  {
    hide TakeAll, Step, Handle, RecordOk, PromisesOk, Commits, Shaped, Rooted;
    var s := w.nodes[f];
    assert MessageOk(w.h, w.members, m);
    StepMoves(s, m, span);
    var x' := Step(s, m, span).value.node.log.entries;
    if s.log.entries <= x' {
      PrefixTrans(p, s.log.entries, x');
    } else {
      AcceptedLog(w, f, m);
      PrefixSurvives(p, s.log.entries, Offered(w.h, m), w.h.offices[s.term].log);
    }
  }

  /** What a node shares with the leader of its term it still shares after any event that leaves it in that term. */
  lemma SharedSurvives(c: Cluster, h: History, e: Event, f: Name, p: seq<Entry>)
    requires Full(WorldOf(c, h)) && Enabled(c, e) && Apply(c, e).Ok?
    requires f in c.nodes && f in Apply(c, e).value.nodes && c.nodes[f].term == Apply(c, e).value.nodes[f].term
    requires c.nodes[f].term in h.offices && p <= h.offices[c.nodes[f].term].log && p <= c.nodes[f].log.entries
    ensures p <= Apply(c, e).value.nodes[f].log.entries
  {
    hide Commits, RecordOk, PromisesOk, Rooted, Shaped, Initial;
    var w := WorldOf(c, h);
    NodeAt(w, f);
    var y, y' := c.nodes[f].log.entries, Apply(c, e).value.nodes[f].log.entries;
    match e
    case Deliver(m, span) => if m.recipient == f { FollowerMoves(w, f, m, span, p); }
    case Timer(g, now, span) =>
      if g == f {
        TickLog(c.nodes[f], now, span);
        PrefixTrans(p, y, y');
      }
    case Request(g, command) =>
      if g == f { PrefixTrans(p, y, y'); }
    case _ =>
  }

  lemma AgreementStep(states: seq<Cluster>, events: seq<Event>, i: nat, n: Name, f: Name)
    requires Run(states, events) && i < |events|
    requires n in states[i].nodes && n in states[i + 1].nodes && f in states[i].nodes && f in states[i + 1].nodes
    requires states[i].nodes[n].role == Leader && states[i + 1].nodes[n].role == Leader
    requires states[i].nodes[n].term == states[i + 1].nodes[n].term
             == states[i].nodes[f].term == states[i + 1].nodes[f].term
    ensures Agreement(states[i].nodes[n].log.entries, states[i].nodes[f].log.entries)
            <= Agreement(states[i + 1].nodes[n].log.entries, states[i + 1].nodes[f].log.entries)
  {
    hide Commits, RecordOk, PromisesOk, Rooted, Shaped, Enabled, Apply;
    var hs := RunRecord(states, events);
    var w, w' := WorldOf(states[i], hs[i]), WorldOf(states[i + 1], hs[i + 1]);
    assert Full(w) && Full(w') && StepOf(states, events, i) && Extends(hs[i], hs[i + 1]);
    NodeAt(w, n);
    NodeAt(w', n);
    assert OfficeExtends(hs[i], hs[i + 1], w.nodes[n].term);
    var x, x' := w.nodes[n].log.entries, w'.nodes[n].log.entries;
    var k := Agreement(x, w.nodes[f].log.entries);
    PrefixTrans(x[..k], x, x');
    SharedSurvives(states[i], hs[i], events[i], f, x[..k]);
    AgreementAtLeast(x', w'.nodes[f].log.entries, k);
  }

  /* ---- over any stretch of a term ---- */

  /** A node's term only rises, and a follower leads only in a later one. */
  predicate Risen(s: NodeState, s': NodeState) {
    s.term <= s'.term && (s.role == Follower && s'.role == Leader ==> s.term < s'.term)
  }

  lemma StoodRisen(s: NodeState, span: int)
    ensures BecomeLeader(Stood(s, span)).Ok? ==> BecomeLeader(Stood(s, span)).value.node.term > s.term
  {
    if BecomeLeader(Stood(s, span)).Ok? { OfficeTerm(Stood(s, span)); }
  }

  lemma TickRisen(s: NodeState, now: int, span: int)
    requires Tick(s, now, span).Ok?
    ensures Risen(s, Tick(s, now, span).value.node)
  {
    StoodRisen(s.(now := now), span);
  }

  lemma VoteRisen(s: NodeState, m: Message, span: int)
    requires m.recipient == s.name && m.Vote? && OnVote(s, m, span).Ok?
    ensures Risen(s, OnVote(s, m, span).value.node)
  {
    VoteTerm(s, m, span);
    StoodRisen(s.(preVotes := s.preVotes + {m.sender}), span);
  }

  lemma HandleRisen(s: NodeState, m: Message, span: int)
    requires m.recipient == s.name && Handle(s, m, span).Ok?
    ensures Risen(s, Handle(s, m, span).value.node)
  {
    HandleTerm(s, m, span);
    if m.Vote? {
      VoteRisen(s, m, span);
    } else if m.Append? {
      AppendDeposes(s, m, span);
    }
  }

  lemma StepRisen(s: NodeState, m: Message, span: int)
    requires m.recipient == s.name && Step(s, m, span).Ok?
    ensures Risen(s, Step(s, m, span).value.node)
  {
    if TermCheck(s.term, m) == Ahead && !m.Asking() {
      HandleRisen(BecomeFollower(s, m.term, None, span), m, span);
    } else if TermCheck(s.term, m) != Stale {
      HandleRisen(s, m, span);
    }
  }

  lemma EventRisen(c: Cluster, e: Event, n: Name)
    requires Enabled(c, e) && Apply(c, e).Ok? && n in c.nodes
    ensures n in Apply(c, e).value.nodes && Risen(c.nodes[n], Apply(c, e).value.nodes[n])
  {
    match e
    case Deliver(m, span) => if m.recipient == n { StepRisen(c.nodes[n], m, span); }
    case Timer(k, now, span) => if k == n { TickRisen(c.nodes[n], now, span); }
    case _ =>
  }

  lemma {:induction false} TermsRise(states: seq<Cluster>, events: seq<Event>, i: nat, j: nat, n: Name)
    requires Run(states, events) && i <= j <= |events| && n in states[i].nodes
    ensures n in states[j].nodes && states[i].nodes[n].term <= states[j].nodes[n].term
    decreases j - i
  {
    hide Apply, Enabled, Initial;
    if i < j {
      assert StepOf(states, events, i);
      EventRisen(states[i], events[i], n);
      TermsRise(states, events, i + 1, j, n);
    }
  }

  /** Whoever leads a term at two moments has led it all the time between, without a restart. */
  lemma {:induction false} LedBetween(states: seq<Cluster>, events: seq<Event>, i: nat, k: nat, j: nat, n: Name)
    requires Run(states, events) && i <= k <= j <= |events|
    requires n in states[i].nodes && n in states[j].nodes
    requires states[i].nodes[n].role == Leader && states[j].nodes[n].role == Leader
    requires states[i].nodes[n].term == states[j].nodes[n].term
    ensures n in states[k].nodes && states[k].nodes[n].role == Leader && states[k].nodes[n].term == states[i].nodes[n].term
    decreases j - k
  {
    hide Apply, Enabled, Initial, Commits, PromisesOk, Rooted, Shaped;
    if k < j {
      LedBetween(states, events, i, k + 1, j, n);
      TermsRise(states, events, i, k, n);
      assert StepOf(states, events, k);
      EventRisen(states[k], events[k], n);
      NeverStandsAgain(states, events, i, k, n);
    }
  }

  lemma NeverStandsAgain(states: seq<Cluster>, events: seq<Event>, i: nat, k: nat, n: Name)
    requires Run(states, events) && i <= k <= |events| && n in states[i].nodes && n in states[k].nodes
    requires states[i].nodes[n].role == Leader && states[k].nodes[n].term == states[i].nodes[n].term
    ensures states[k].nodes[n].role != Candidate
  {
    hide Commits, PromisesOk, Rooted, Shaped;
    var hs := RunRecord(states, events);
    var w, w' := WorldOf(states[i], hs[i]), WorldOf(states[k], hs[k]);
    assert Full(w) && Full(w') && Extends(hs[i], hs[k]);
    NodeAt(w, n);
    var t := w.nodes[n].term;
    assert OfficeExtends(hs[i], hs[k], t);
    assert OfficeOk(hs[k], w'.members, w'.nodes, t);
  }

  /** A leader's match indices never move back while it leads one term, however far apart the two moments are. */
  lemma {:induction false} MatchNeverFalls(states: seq<Cluster>, events: seq<Event>, i: nat, j: nat, n: Name, f: Name)
    requires Run(states, events) && i <= j <= |events|
    requires n in states[i].nodes && n in states[j].nodes
    requires states[i].nodes[n].role == Leader && states[j].nodes[n].role == Leader
    requires states[i].nodes[n].term == states[j].nodes[n].term
    ensures Get(states[i].nodes[n].matchIndex, f, NO_INDEX) <= Get(states[j].nodes[n].matchIndex, f, NO_INDEX)
    decreases j - i
  {
    hide Run;
    if i < j {
      LedBetween(states, events, i, i + 1, j, n);
      MatchStep(states, events, i, n, f);
      MatchNeverFalls(states, events, i + 1, j, n, f);
    }
  }

  /** While a leader and a follower share a term, their agreement never shrinks, in whatever order appends arrive. */
  lemma {:induction false} AgreementNeverShrinks(
    states: seq<Cluster>, events: seq<Event>, i: nat, j: nat, n: Name, f: Name)
    requires Run(states, events) && i <= j <= |events|
    requires n in states[i].nodes && n in states[j].nodes && f in states[i].nodes && f in states[j].nodes
    requires states[i].nodes[n].role == Leader && states[j].nodes[n].role == Leader
    requires states[i].nodes[n].term == states[j].nodes[n].term == states[i].nodes[f].term == states[j].nodes[f].term
    ensures Agreement(states[i].nodes[n].log.entries, states[i].nodes[f].log.entries)
            <= Agreement(states[j].nodes[n].log.entries, states[j].nodes[f].log.entries)
    decreases j - i
  {
    hide Run, Agreement;
    if i < j {
      LedBetween(states, events, i, i + 1, j, n);
      TermsRise(states, events, i, i + 1, f);
      TermsRise(states, events, i + 1, j, f);
      AgreementStep(states, events, i, n, f);
      AgreementNeverShrinks(states, events, i + 1, j, n, f);
    }
  }
}
