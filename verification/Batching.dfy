/**
When an announced commit index is safe to follow. A leader cuts its appends at a batch and a follower commits up
to its own last index, so an append can announce more than it carries; here is exactly when it does, when that
does harm, and a condition on the batch size under which it never happens.
*/
module Batching {
  import opened Basics
  import opened Logs
  import opened Rpc
  import opened NodeSpec
  import opened ClusterSpec
  import opened Invariant
  import opened Keeping
  import opened Actions
  import opened Commit
  import opened Steps
  import opened Handlers
  import opened Matching
  import opened Retry
  import Safety

  /** An append announces no more than it carries exactly when the commit index falls inside its batch. */
  lemma AnnouncesWhatItCarries(s: NodeState, to: Name)
    requires s.log.snapshotIndex == 0 && Shaped(s.log.entries) && to != s.name && StartFor(s, to) >= 1
    requires s.commitIndex <= |s.log.entries|
    ensures var m := ReplicateTo(s, to);
            m.Append? && (m.commitIndex <= m.AppendEnd() <==> s.commitIndex < StartFor(s, to) + s.maxBatch)
  {
    NextAppend(s, to);
  }

  /**
  An append that would make a follower commit its own tail: what it carries is all shared already, and what it
  announces is not, as far as the follower's log goes.
  */
  predicate StraysFrom(x: seq<Entry>, y: seq<Entry>, m: Message)
    requires m.Append?
  {
    m.AppendEnd() <= Agreement(x, y) < Min(m.commitIndex, |y|)
  }

  /** The log left behind, as far as it is then committed, is the leader's exactly when nothing strays. */
  lemma StraysExactly(x: seq<Entry>, y: seq<Entry>, end: nat, announced: nat)
    requires end <= |x|
    ensures var y' := if x[..end] <= y then y else x[..end];
            y'[..Min(announced, |y'|)] <= x <==> !(end <= Agreement(x, y) < Min(announced, |y|))
  {
    if x[..end] <= y {
      AgreementAtLeast(x, y, end);
      PrefixIsShared(x, y, Min(announced, |y|));
    } else {
      AgreesShort(x, y, end);
    }
  }

  lemma StraysOnTaking(x: seq<Entry>, y: seq<Entry>, m: Message)
    requires m.Append? && 0 <= m.AppendEnd() <= |x| && 0 <= m.commitIndex
    ensures var y' := if x[..m.AppendEnd()] <= y then y else x[..m.AppendEnd()];
            y'[..Min(m.commitIndex, |y'|)] <= x <==> !StraysFrom(x, y, m)
    ensures m.commitIndex <= m.AppendEnd() ==> !StraysFrom(x, y, m)
  {
    StraysExactly(x, y, m.AppendEnd(), m.commitIndex);
  }

  lemma PrefixIsShared(x: seq<Entry>, y: seq<Entry>, c: nat)
    requires c <= |y|
    ensures y[..c] <= x <==> c <= Agreement(x, y)
  {
    var a := Agreement(x, y);
    if y[..c] <= x {
      assert x[..c] == y[..c];
      AgreementAtLeast(x, y, c);
    }
    if c <= a { assert y[..c] == y[..a][..c] == x[..a][..c] == x[..c]; }
  }

  /** A node that has just heard an append of its own or a later term. */
  function Hearing(s: NodeState, m: Message, span: int): NodeState
    requires m.Append?
  {
    Heard(if m.term > s.term then BecomeFollower(s, m.term, None, span) else s, m.sender, m.term, span)
  }

  /** The same log, and the same committed and applied. */
  ghost predicate Alike(s: NodeState, s': NodeState) {
    && s'.log == s.log && s'.name == s.name && s'.commitIndex == s.commitIndex && s'.lastApplied == s.lastApplied
    && s'.applied == s.applied && s'.state == s.state
  }

  lemma DownAlike(s: NodeState, term: Term, leader: Option<Name>, span: int)
    requires term >= s.term
    ensures var s' := BecomeFollower(s, term, leader, span); Alike(s, s') && s'.term == term && s'.role == Follower
  {
  }

  lemma HeardAlike(s: NodeState, from: Name, term: Term, span: int)
    requires term == s.term
    ensures var s' := Heard(s, from, term, span); Alike(s, s') && s'.term == term && s'.role == Follower
  {
    hide BecomeFollower;
    DownAlike(s, term, Some(from), span);
  }

  lemma HearingAlike(s: NodeState, m: Message, span: int)
    requires m.Append? && m.term >= s.term
    ensures var g := Hearing(s, m, span); Alike(s, g) && g.term == m.term && g.role == Follower
  {
    hide BecomeFollower, Heard;
    DownAlike(s, m.term, None, span);
    HeardAlike(if m.term > s.term then BecomeFollower(s, m.term, None, span) else s, m.sender, m.term, span);
  }

  lemma StepHears(s: NodeState, m: Message, span: int)
    requires m.Append? && m.recipient == s.name && m.term >= s.term
    ensures Step(s, m, span) == OnAppend(if m.term > s.term then BecomeFollower(s, m.term, None, span) else s, m, span)
  {
  }

  /** A follower that takes an append holds what `TakeAll` says and commits up to the end of that. */
  lemma TakesAndCommits(s: NodeState, m: Message, span: int)
    requires m.Append? && m.recipient == s.name && m.term >= s.term && s.log.snapshotIndex == 0
    requires s.log.Matches(m.previousIndex, m.previousTerm) && m.commitIndex > s.commitIndex
    ensures Step(s, m, span).Ok?
    ensures var s', taken := Step(s, m, span).value.node, TakeAll(s.log, m.entries);
            && s'.log == taken && s'.term == m.term && s'.commitIndex == Min(m.commitIndex, taken.LastIndex())
            && s' == ApplyCommitted(Hearing(s, m, span).(log := taken, commitIndex := s'.commitIndex))
  {
    hide TakeAll, ApplyCommitted, Heard, BecomeFollower;
    HearingAlike(s, m, span);
    StepHears(s, m, span);
  }

  /** Taking what was cut from a matching log: all of it was held, or it replaces the log. */
  lemma TakesCut(x: seq<Entry>, log: LogState, m: Message)
    requires m.Append? && log.snapshotIndex == 0 && Shaped(x) && LogMatched(x, log.entries)
    requires 0 <= m.previousIndex <= m.AppendEnd() <= |x| && m.previousTerm == TermOf(x, m.previousIndex)
    requires m.entries == x[m.previousIndex..m.AppendEnd()] && log.Matches(m.previousIndex, m.previousTerm)
    ensures TakeAll(log, m.entries)
            == if x[..m.AppendEnd()] <= log.entries then log else log.(entries := x[..m.AppendEnd()])
  {
    hide TakeAll;
    var prev := m.previousIndex;
    assert prev <= |log.entries| && x[..prev] == log.entries[..prev];
    TakesPrefix(x, log, prev, m.AppendEnd());
  }

  lemma TwinsMatch(x: seq<Entry>, y: seq<Entry>)
    requires Twins(x, y)
    ensures LogMatched(x, y)
  {
  }

  /**
  A follower that takes an append from a leader whose log is its twin commits a prefix of the leader's log exactly
  when, before it takes it, the append does not stray. A tame append never does.
  */
  lemma FollowsOrStrays(s: NodeState, f: NodeState, span: int)
    requires Led(s, f) && 0 <= f.commitIndex
    requires f.log.Matches(StartFor(s, f.name) - 1, TermOf(s.log.entries, StartFor(s, f.name) - 1))
    requires s.commitIndex > f.commitIndex
    ensures var m, x, y := ReplicateTo(s, f.name), s.log.entries, f.log.entries;
            && m.Append? && m.recipient == f.name && Step(f, m, span).Ok?
            && var f' := Step(f, m, span).value.node;
               && 0 <= f'.commitIndex <= |f'.log.entries|
               && (f'.log.entries[..f'.commitIndex] <= x <==> !StraysFrom(x, y, m))
               && (m.commitIndex <= m.AppendEnd() ==> !StraysFrom(x, y, m))
  {
    hide Twins, Ruled, Agreement, Step, Shaped, ReplicateTo, LogMatched, StraysFrom;
    var x, y := s.log.entries, f.log.entries;
    ShapedTwin(x, y);
    TwinsMatch(x, y);
    NextAppend(s, f.name);
    FollowsCut(x, f, ReplicateTo(s, f.name), span);
  }

  lemma FollowsCut(x: seq<Entry>, f: NodeState, m: Message, span: int)
    requires m.Append? && m.recipient == f.name && m.term >= f.term && 0 <= f.commitIndex < m.commitIndex
    requires f.log.snapshotIndex == 0 && Shaped(x) && LogMatched(x, f.log.entries)
    requires 0 <= m.previousIndex <= m.AppendEnd() <= |x| && m.previousTerm == TermOf(x, m.previousIndex)
    requires m.entries == x[m.previousIndex..m.AppendEnd()] && f.log.Matches(m.previousIndex, m.previousTerm)
    ensures Step(f, m, span).Ok?
    ensures var f' := Step(f, m, span).value.node;
            && 0 <= f'.commitIndex <= |f'.log.entries|
            && (f'.log.entries[..f'.commitIndex] <= x <==> !StraysFrom(x, f.log.entries, m))
            && (m.commitIndex <= m.AppendEnd() ==> !StraysFrom(x, f.log.entries, m))
  {
    hide Agreement, Step, TakeAll, Shaped, LogMatched, Hearing, ApplyCommitted, StraysFrom;
    TakesCut(x, f.log, m);
    TakesAndCommits(f, m, span);
    StraysOnTaking(x, f.log.entries, m);
  }

  /* ---- every append is cut from its sender's log as it then is ---- */

  ghost predicate CutFresh(e: Effect) {
    forall m :: m in e.sends && m.Append? ==>
      e.node.role == Leader && m.recipient != e.node.name && m == ReplicateTo(e.node, m.recipient)
  }

  /** A node commits nothing beyond its log unless an append told it to. */
  ghost predicate Bounded(s: NodeState) {
    s.log.snapshotIndex == 0 && s.log.snapshotTerm == NO_TERM && !s.commitAnyTerm && 0 <= s.commitIndex <= |s.log.entries|
  }

  lemma ReplicasAreFresh(s: NodeState)
    requires s.role == Leader
    ensures CutFresh(Effect(s, Replicate(s)))
  {
    forall m | m in Replicate(s) ensures m.recipient != s.name && m == ReplicateTo(s, m.recipient) {
      var i :| 0 <= i < |Replicate(s)| && Replicate(s)[i] == m;
    }
  }

  lemma AdvanceBounded(s: NodeState)
    requires Bounded(s) && AdvanceCommit(s).Ok?
    ensures Bounded(AdvanceCommit(s).value) && AdvanceCommit(s).value.role == s.role
  {
    if s.role == Leader {
      var counted := s.(matchIndex := s.matchIndex[s.name := s.log.LastIndex()]);
      ScanFlat(counted, counted.log.LastIndex());
    }
  }

  lemma OpensFresh(s: NodeState)
    requires Bounded(s) && s.role == Leader && Opened(s).Ok?
    ensures CutFresh(Opened(s).value) && Bounded(Opened(s).value.node)
  {
    var beating := s.(heartbeatDue := s.now + HEARTBEAT_INTERVAL);
    if |s.members| == 1 { AdvanceBounded(beating); }
    ReplicasAreFresh(Opened(s).value.node);
  }

  lemma WriteBounded(s: NodeState, command: Command)
    requires Bounded(s) && NodeSpec.Write(s, command).Ok?
    ensures Bounded(NodeSpec.Write(s, command).value) && NodeSpec.Write(s, command).value.role == s.role
  {
  }

  lemma LeadsFresh(s: NodeState)
    requires Bounded(s) && BecomeLeader(s).Ok?
    ensures CutFresh(BecomeLeader(s).value) && Bounded(BecomeLeader(s).value.node)
  {
    WriteBounded(TakenOffice(s), NoOp);
    OpensFresh(NodeSpec.Write(TakenOffice(s), NoOp).value);
  }

  lemma StandsFresh(s: NodeState, span: int)
    requires Bounded(s)
    ensures Stand(s, span).Ok? ==> CutFresh(Stand(s, span).value) && Bounded(Stand(s, span).value.node)
    ensures BecomeCandidate(s, span).Ok? ==>
              CutFresh(BecomeCandidate(s, span).value) && Bounded(BecomeCandidate(s, span).value.node)
  {
    if BecomeLeader(Stood(s, span)).Ok? { LeadsFresh(Stood(s, span)); }
  }

  lemma VotesFresh(s: NodeState, m: Message, span: int)
    requires Bounded(s) && m.recipient == s.name && m.Vote? && OnVote(s, m, span).Ok?
    ensures CutFresh(OnVote(s, m, span).value) && Bounded(OnVote(s, m, span).value.node)
  {
    var counted := s.(votes := s.votes + {m.sender});
    if BecomeLeader(counted).Ok? { LeadsFresh(counted); }
    StandsFresh(s.(preVotes := s.preVotes + {m.sender}), span);
  }

  lemma AnswersFresh(s: NodeState, m: Message)
    requires Bounded(s) && m.recipient == s.name && m.Appended? && OnAppended(s, m).Ok?
    ensures CutFresh(OnAppended(s, m).value) && Bounded(OnAppended(s, m).value.node)
  {
    if s.role == Leader && m.success { AdvanceBounded(Matched(s, m.sender, m.matchIndex)); }
  }

  lemma HandlesFresh(s: NodeState, m: Message, span: int)
    requires Bounded(s) && m.recipient == s.name && !m.InstallSnapshot? && !m.Installed? && Handle(s, m, span).Ok?
    ensures CutFresh(Handle(s, m, span).value) && (!m.Append? ==> Bounded(Handle(s, m, span).value.node))
  {
    match m
    case Vote(_, _, _, _, _) => VotesFresh(s, m, span);
    case Appended(_, _, _, _, _, _, _) => AnswersFresh(s, m);
    case _ =>
  }

  lemma StepsFresh(s: NodeState, m: Message, span: int)
    requires Bounded(s) && m.recipient == s.name && !m.InstallSnapshot? && !m.Installed? && Step(s, m, span).Ok?
    ensures var e := Step(s, m, span).value;
            CutFresh(e) && (Bounded(e.node) || forall o :: o in e.sends ==> !o.Append?)
  {
    if TermCheck(s.term, m) == Stale {
    } else if TermCheck(s.term, m) == Ahead && !m.Asking() {
      HandlesFresh(BecomeFollower(s, m.term, None, span), m, span);
      if m.Append? { AppendsSendNone(BecomeFollower(s, m.term, None, span), m, span); }
    } else {
      HandlesFresh(s, m, span);
      if m.Append? { AppendsSendNone(s, m, span); }
    }
  }

  lemma AppendsSendNone(s: NodeState, m: Message, span: int)
    requires m.recipient == s.name && m.Append? && Handle(s, m, span).Ok?
    ensures forall o :: o in Handle(s, m, span).value.sends ==> !o.Append?
  {
  }

  lemma TicksFresh(s: NodeState, now: int, span: int)
    requires Bounded(s) && Tick(s, now, span).Ok?
    ensures CutFresh(Tick(s, now, span).value) && Bounded(Tick(s, now, span).value.node)
  {
    var on := s.(now := now);
    StandsFresh(on, span);
    var beating := on.(heartbeatDue := now + HEARTBEAT_INTERVAL);
    if s.role == Leader { ReplicasAreFresh(beating); }
  }

  lemma ProposesFresh(s: NodeState, command: Command)
    requires Bounded(s) && s.role == Leader && Propose(s, command).Ok?
    ensures CutFresh(Effect(Propose(s, command).value.0, Replicate(Propose(s, command).value.0)))
    ensures Bounded(Propose(s, command).value.0)
  {
    var written := NodeSpec.Write(s, command).value;
    WriteBounded(s, command);
    if |s.members| == 1 { AdvanceBounded(written); }
    ReplicasAreFresh(Propose(s, command).value.0);
  }

  /** The sender of an append, leading its term, with the log and commit index the append was cut from. */
  ghost predicate CutFrom(c: Cluster, m: Message) {
    && m.Append? && m.sender in c.nodes
    && var s := c.nodes[m.sender];
       s.name == m.sender && s.role == Leader && Bounded(s) && m.recipient != s.name && m == ReplicateTo(s, m.recipient)
  }

  lemma BoundedHere(w: World, n: Name)
    requires Full(w) && !w.h.strayed && n in w.nodes
    ensures Bounded(w.nodes[n]) && w.nodes[n].name == n
  {
    Safety.NodeAt(w, n);
    assert CommitOk(w.h, w.nodes[n]);
  }

  lemma EffectCut(c: Cluster, n: Name, e: Effect, m: Message)
    requires n in c.nodes && c.nodes[n] == e.node && e.node.name == n && CutFresh(e)
    requires Bounded(e.node) || forall o :: o in e.sends ==> !o.Append?
    requires m in e.sends && m.Append?
    ensures CutFrom(c, m)
  {
  }

  /** Every append an event puts on the wire is cut from its sender as the event leaves it. */
  lemma SentFresh(c: Cluster, h: History, e: Event, h': History, m: Message)
    requires Full(Safety.WorldOf(c, h)) && !h.strayed && Enabled(c, e)
    requires Apply(c, e).Ok? && Inv(Safety.WorldOf(Apply(c, e).value, h'))
    requires m.Append? && m in Apply(c, e).value.sent && m !in c.sent
    ensures CutFrom(Apply(c, e).value, m)
  {
    hide Commits, ReplicateTo, RecordOk, PromisesOk, CutFrom, CutFresh, Bounded;
    var w, c' := Safety.WorldOf(c, h), Apply(c, e).value;
    var w' := Safety.WorldOf(c', h');
    match e
    case Deliver(d, span) =>
      BoundedHere(w, d.recipient);
      assert MessageOk(w.h, w.members, d);
      StepsFresh(c.nodes[d.recipient], d, span);
      Safety.NodeAt(w', d.recipient);
      EffectCut(c', d.recipient, Step(c.nodes[d.recipient], d, span).value, m);
    case Timer(n, now, span) =>
      BoundedHere(w, n);
      TicksFresh(c.nodes[n], now, span);
      Safety.NodeAt(w', n);
      EffectCut(c', n, Tick(c.nodes[n], now, span).value, m);
    case Request(n, command) =>
      BoundedHere(w, n);
      ProposesFresh(c.nodes[n], command);
      Safety.NodeAt(w', n);
      var s' := Propose(c.nodes[n], command).value.0;
      EffectCut(c', n, Effect(s', Replicate(s')), m);
    case Crash(n) =>
    case Restart(n, now, span) =>
  }

  /* ---- batches as long as the logs ---- */

  /** No node's log is longer than one of its batches. */
  ghost predicate Wide(c: Cluster) {
    forall n {:trigger c.nodes[n]} :: n in c.nodes ==> |c.nodes[n].log.entries| <= c.nodes[n].maxBatch
  }

  lemma StartsInside(s: NodeState, to: Name, h: History)
    requires s.role == Leader && LeaderOk(h, s.name, s) && Bounded(s)
    ensures StartFor(s, to) >= 1
  {
  }

  /** What one event adds to the wire is tame, if the batches are wide enough. */
  lemma EventTame(c: Cluster, h: History, e: Event, h': History)
    requires Full(Safety.WorldOf(c, h)) && !h.strayed && Enabled(c, e) && Tame(c.sent)
    requires Apply(c, e).Ok? && Wide(Apply(c, e).value) && Inv(Safety.WorldOf(Apply(c, e).value, h'))
    ensures Tame(Apply(c, e).value.sent)
  {
    var c' := Apply(c, e).value;
    forall m | m in c'.sent && m.Append? ensures m.commitIndex <= m.AppendEnd() {
      if m !in c.sent {
        SentFresh(c, h, e, h', m);
        Safety.NodeAt(Safety.WorldOf(c', h'), m.sender);
        StartsInside(c'.nodes[m.sender], m.recipient, h');
        AnnouncesWhatItCarries(c'.nodes[m.sender], m.recipient);
      }
    }
  }
}
