/**
State Machine Safety over whole runs, with the exact condition under which it holds: no delivery strays, that is,
no follower takes an append that carries only what it shares with the sender and announces more than it shares.
*/
module Straying {
  import opened Basics
  import opened Logs
  import opened Rpc
  import opened NodeSpec
  import opened ClusterSpec
  import opened Invariant
  import opened Keeping
  import opened Actions
  import opened Commit
  import opened Safety
  import opened Retry
  import opened Batching

  /* ---- strays ---- */

  /** The event after moment `j` put `m` on the wire. */
  ghost predicate SentAt(states: seq<Cluster>, j: nat, m: Message) {
    j + 1 < |states| && m !in states[j].sent && m in states[j + 1].sent
  }

  /** `m`, as its sender sent it after moment `j`, would make a follower with log `y` commit its own tail. */
  ghost predicate StraysSince(states: seq<Cluster>, j: nat, m: Message, y: seq<Entry>)
    requires m.Append?
  {
    && SentAt(states, j, m) && m.sender in states[j + 1].nodes
    && StraysFrom(states[j + 1].nodes[m.sender].log.entries, y, m)
  }

  /** The event after moment `k` delivers an append that is taken, moves the commit index, and strays. */
  ghost predicate Strays(states: seq<Cluster>, events: seq<Event>, k: nat) {
    && k < |events| && k < |states| && events[k].Deliver? && events[k].message.Append?
    && var m := events[k].message;
       && m.recipient in states[k].nodes
       && var s := states[k].nodes[m.recipient];
          && m.term >= s.term && s.log.Matches(m.previousIndex, m.previousTerm) && m.commitIndex > s.commitIndex
          && exists j: nat :: j < k && StraysSince(states, j, m, s.log.entries)
  }

  ghost predicate NoStrayBefore(states: seq<Cluster>, events: seq<Event>, k: nat) {
    forall i: nat :: i < k ==> !Strays(states, events, i)
  }

  /* ---- when a message was sent ---- */

  lemma {:induction false} Sending(states: seq<Cluster>, events: seq<Event>, k: nat, m: Message) returns (j: nat)
    requires Run(states, events) && k <= |events| && m in states[k].sent
    ensures j < k && SentAt(states, j, m)
  {
    if m in states[k - 1].sent {
      j := Sending(states, events, k - 1, m);
    } else {
      j := k - 1;
    }
  }

  /** An append sent while nothing had strayed: its sender's log then, and what of it the append carries. */
  lemma SentFrom(states: seq<Cluster>, events: seq<Event>, hs: seq<History>, j: nat, m: Message)
    requires Run(states, events) && Recorded(states, hs) && j < |events| && !hs[j + 1].strayed
    requires m.Append? && SentAt(states, j, m)
    ensures m.sender in states[j + 1].nodes
    ensures var s := states[j + 1].nodes[m.sender]; var x := s.log.entries;
            && s.role == Leader && s.term == m.term && m.commitIndex == s.commitIndex && 0 <= m.commitIndex <= |x|
            && Shaped(x) && LeaderOk(hs[j + 1], m.sender, s)
            && 0 <= m.previousIndex <= m.AppendEnd() <= |x| && m.previousTerm == TermOf(x, m.previousIndex)
            && m.entries == x[m.previousIndex..m.AppendEnd()]
  {
    hide Commits, Rooted, RecordOk, PromisesOk, ReplicateTo;
    assert Full(WorldOf(states[j], hs[j])) && Full(WorldOf(states[j + 1], hs[j + 1]));
    assert StepOf(states, events, j) && Extends(hs[j], hs[j + 1]);
    SentFresh(states[j], hs[j], events[j], hs[j + 1], m);
    NodeAt(WorldOf(states[j + 1], hs[j + 1]), m.sender);
    var s := states[j + 1].nodes[m.sender];
    StartsInside(s, m.recipient, hs[j + 1]);
    NextAppend(s, m.recipient);
  }

  /* ---- what a follower makes of an append ---- */

  /** Only an append it takes moves a follower's commit index. */
  lemma OnlyAppendsCommit(s: NodeState, m: Message, span: int)
    requires m.recipient == s.name && Step(s, m, span).Ok? && !m.InstallSnapshot?
    requires Step(s, m, span).value.node.role == Follower && Step(s, m, span).value.node.commitIndex > s.commitIndex
    ensures m.Append? && m.term >= s.term && s.log.Matches(m.previousIndex, m.previousTerm) && m.commitIndex > s.commitIndex
  {
    if TermCheck(s.term, m) == Ahead && !m.Asking() {
      HandlesCommit(BecomeFollower(s, m.term, None, span), m, span);
    } else if TermCheck(s.term, m) != Stale {
      HandlesCommit(s, m, span);
    }
  }

  lemma HandlesCommit(s: NodeState, m: Message, span: int)
    requires m.recipient == s.name && Handle(s, m, span).Ok? && !m.InstallSnapshot?
    requires Handle(s, m, span).value.node.role == Follower && Handle(s, m, span).value.node.commitIndex > s.commitIndex
    ensures m.Append? && s.log.Matches(m.previousIndex, m.previousTerm) && m.commitIndex > s.commitIndex
  {
    if m.Vote? { VotesLead(s, m, span); }
    if m.Append? { assert Heard(s, m.sender, m.term, span).commitIndex == s.commitIndex; }
  }

  lemma VotesLead(s: NodeState, m: Message, span: int)
    requires m.recipient == s.name && m.Vote? && OnVote(s, m, span).Ok?
    ensures var s' := OnVote(s, m, span).value.node; s'.role == Follower ==> s'.commitIndex == s.commitIndex
  {
    var counted := s.(votes := s.votes + {m.sender});
    if BecomeLeader(counted).Ok? { LeadsRole(counted); }
    var stood := Stood(s.(preVotes := s.preVotes + {m.sender}), span);
    if BecomeLeader(stood).Ok? { LeadsRole(stood); }
  }

  lemma LeadsRole(s: NodeState)
    requires BecomeLeader(s).Ok?
    ensures BecomeLeader(s).value.node.role == Leader
  {
  }

  lemma TicksCommit(s: NodeState, now: int, span: int)
    requires Tick(s, now, span).Ok? && Tick(s, now, span).value.node.role == Follower
    ensures Tick(s, now, span).value.node.commitIndex == s.commitIndex
  {
    var stood := Stood(s.(now := now), span);
    if BecomeLeader(stood).Ok? { LeadsRole(stood); }
  }

  /** The logs at any two moments match. */
  lemma MatchedAcross(states: seq<Cluster>, events: seq<Event>, i: nat, j: nat, a: Name, b: Name)
    requires Run(states, events) && i <= |events| && j <= |events| && a in states[i].nodes && b in states[j].nodes
    ensures LogMatched(states[i].nodes[a].log.entries, states[j].nodes[b].log.entries)
  {
    hide StepOf, Initial;
    var x, y := states[i].nodes[a].log.entries, states[j].nodes[b].log.entries;
    forall k | 0 <= k < |x| && k < |y| && x[k].term == y[k].term ensures x[..k + 1] == y[..k + 1] {
      LogsMatch(states, events, i, j, a, b, k);
    }
  }

  /** The log an append leaves behind when it was sent after moment `j` and is taken after moment `k`. */
  lemma TakenLater(states: seq<Cluster>, events: seq<Event>, hs: seq<History>, j: nat, k: nat, m: Message, span: int)
    requires Run(states, events) && Recorded(states, hs) && j < k < |events| && !hs[j + 1].strayed
    requires m.Append? && SentAt(states, j, m) && m.recipient in states[k].nodes
    requires var s := states[k].nodes[m.recipient];
             m.term >= s.term && s.log.Matches(m.previousIndex, m.previousTerm) && m.commitIndex > s.commitIndex
    ensures m.sender in states[j + 1].nodes && m.recipient == states[k].nodes[m.recipient].name
    ensures var s, x := states[k].nodes[m.recipient], states[j + 1].nodes[m.sender].log.entries;
            var y := s.log.entries;
            && 0 <= m.AppendEnd() <= |x| && 0 <= m.commitIndex <= |x|
            && Step(s, m, span).Ok?
            && var s' := Step(s, m, span).value.node; var y' := s'.log.entries;
               && s'.log == (if x[..m.AppendEnd()] <= y then s.log else s.log.(entries := x[..m.AppendEnd()]))
               && s'.commitIndex == Min(m.commitIndex, |y'|) && s'.term == m.term && s'.log.snapshotIndex == 0
               && (y'[..s'.commitIndex] <= x <==> !StraysFrom(x, y, m))
  {
    hide Step, TakeAll, LeaderOk, Shaped, Agreement, LogMatched, Hearing, ApplyCommitted, StraysFrom;
    SentFrom(states, events, hs, j, m);
    ReachableNode(states, events, k, m.recipient);
    MatchedAcross(states, events, j + 1, k, m.sender, m.recipient);
    var s, x := states[k].nodes[m.recipient], states[j + 1].nodes[m.sender].log.entries;
    TakesCut(x, s.log, m);
    TakesAndCommits(s, m, span);
    StraysOnTaking(x, s.log.entries, m);
  }

  /* ---- the first stray ---- */

  /** A step on record as the first to stray is the delivery of an append that strays. */
  lemma FirstStray(states: seq<Cluster>, events: seq<Event>, hs: seq<History>, k: nat)
    requires Run(states, events) && Recorded(states, hs) && k < |events| && !hs[k].strayed && hs[k + 1].strayed
    ensures Strays(states, events, k)
  {
    hide StraysFrom, Apply, Enabled, Full, Inv, Commits, Step, Extends, SentAt, Initial;
    assert CommitAfter(states, hs, k);
    var n :| StrayedHere(hs[k + 1], states[k], states[k + 1], n);
    var m, span := StrayDelivered(states, events, hs, k, n);
    var j := Sending(states, events, k, m);
    CalmEarlier(states, hs, j + 1, k);
    TakenLater(states, events, hs, j, k, m, span);
    SentInOffice(states, events, hs, j, k + 1, m);
    var x, s' := states[j + 1].nodes[m.sender].log.entries, states[k + 1].nodes[n];
    var committed := s'.log.entries[..s'.commitIndex];
    if committed <= x { PrefixTrans(committed, x, hs[k + 1].offices[m.term].log); }
    assert StraysSince(states, j, m, states[k].nodes[n].log.entries);
  }

  /** The event that moved a follower's commit index delivered an append that the follower took. */
  lemma StrayDelivered(states: seq<Cluster>, events: seq<Event>, hs: seq<History>, k: nat, n: Name)
    returns (m: Message, span: int)
    requires Run(states, events) && Recorded(states, hs) && k < |events|
    requires StrayedHere(hs[k + 1], states[k], states[k + 1], n)
    ensures events[k] == Deliver(m, span) && m.recipient == n && m.Append? && m in states[k].sent
    ensures states[k].nodes[n].name == n && Step(states[k].nodes[n], m, span).Ok?
    ensures states[k + 1].nodes[n] == Step(states[k].nodes[n], m, span).value.node
    ensures var s := states[k].nodes[n];
            m.term >= s.term && s.log.Matches(m.previousIndex, m.previousTerm) && m.commitIndex > s.commitIndex
  {
    hide Commits, RecordOk, PromisesOk, Rooted, Shaped, Step, Tick, Propose, Initial;
    var w := WorldOf(states[k], hs[k]);
    assert Full(w) && StepOf(states, events, k);
    NodeAt(w, n);
    var s := states[k].nodes[n];
    match events[k]
    case Deliver(d, gap) =>
      m, span := d, gap;
      assert MessageOk(w.h, w.members, m);
      if m.recipient == n { OnlyAppendsCommit(s, m, span); }
    case Timer(g, now, gap) =>
      if g == n { TicksCommit(s, now, gap); }
      assert false;
    case Request(g, command) =>
      if g == n { ProposesLead(s, command); }
      assert false;
    case Crash(g) => assert false;
    case Restart(g, now, gap) => assert false;
  }

  lemma ProposesLead(s: NodeState, command: Command)
    requires s.role == Leader && Propose(s, command).Ok?
    ensures Propose(s, command).value.0.role == Leader
  {
  }

  /** Nothing strayed before a moment up to which nothing had. */
  lemma CalmEarlier(states: seq<Cluster>, hs: seq<History>, i: nat, k: nat)
    requires Recorded(states, hs) && i <= k < |states| && !hs[k].strayed
    ensures !hs[i].strayed
  {
    assert Extends(hs[i], hs[k]);
  }

  /** What a sender held when it sent is in the log of its office ever after. */
  lemma SentInOffice(states: seq<Cluster>, events: seq<Event>, hs: seq<History>, j: nat, k: nat, m: Message)
    requires Run(states, events) && Recorded(states, hs) && j < k <= |events| && !hs[j + 1].strayed
    requires m.Append? && SentAt(states, j, m)
    ensures m.sender in states[j + 1].nodes && m.term in hs[k].offices
    ensures states[j + 1].nodes[m.sender].log.entries <= hs[k].offices[m.term].log
  {
    SentFrom(states, events, hs, j, m);
    assert Extends(hs[j + 1], hs[k]);
    assert OfficeExtends(hs[j + 1], hs[k], m.term);
  }

  lemma {:induction false} CalmBefore(states: seq<Cluster>, events: seq<Event>, hs: seq<History>, k: nat)
    requires Run(states, events) && Recorded(states, hs) && k <= |events| && NoStrayBefore(states, events, k)
    ensures !hs[k].strayed
  {
    if k > 0 {
      CalmBefore(states, events, hs, k - 1);
      if hs[k].strayed {
        FirstStray(states, events, hs, k - 1);
        assert false;
      }
    }
  }

  /* ---- state machine safety ---- */

  /**
  State Machine Safety: as long as nothing strays, what any node has applied at any moment and what any other has
  applied at any other moment are the same as far as both go; each is the committed prefix of the node's own log,
  and each node's state is the replay of what it applied.
  */
  lemma AppliedAgree(states: seq<Cluster>, events: seq<Event>, i: nat, j: nat, a: Name, b: Name)
    requires Run(states, events) && i <= |events| && j <= |events|
    requires NoStrayBefore(states, events, i) && NoStrayBefore(states, events, j)
    requires a in states[i].nodes && b in states[j].nodes
    ensures var s, t := states[i].nodes[a], states[j].nodes[b];
            && (s.applied <= t.applied || t.applied <= s.applied)
            && 0 <= s.lastApplied == s.commitIndex <= |s.log.entries|
            && s.applied == s.log.entries[..s.lastApplied]
            && s.state == Folded(map[], s.applied)
  {
    hide Strays;
    var hs := RunRecord(states, events);
    var top := TwoMoments(states, hs, i, j);
    CalmBefore(states, events, hs, i);
    CalmBefore(states, events, hs, j);
    var s, t := states[i].nodes[a], states[j].nodes[b];
    assert CommitOk(hs[i], s) && CommitOk(hs[j], t);
    BackedExtends(hs[i], hs[top], s.term, s.term, s.log.entries, s.log.entries, s.commitIndex);
    BackedExtends(hs[j], hs[top], t.term, t.term, t.log.entries, t.log.entries, t.commitIndex);
    BackedAgree(WorldOf(states[top], hs[top]), s.term, s.log.entries, s.commitIndex,
                t.term, t.log.entries, t.commitIndex);
  }

  predicate Comparable(a: seq<Entry>, b: seq<Entry>) { a <= b || b <= a }

  /** The first stray sets its receiver apart from its sender: neither applied sequence extends the other. */
  lemma StraySetsApart(states: seq<Cluster>, events: seq<Event>, k: nat) returns (j: nat, a: Name, b: Name)
    requires Run(states, events) && k < |events| && Strays(states, events, k) && NoStrayBefore(states, events, k)
    ensures j <= |events| && a in states[j].nodes && b in states[k + 1].nodes
    ensures b == events[k].message.recipient && a == events[k].message.sender
    ensures !Comparable(states[j].nodes[a].applied, states[k + 1].nodes[b].applied)
  {
    var hs := RunRecord(states, events);
    CalmBefore(states, events, hs, k);
    var m := events[k].message;
    var sent: nat :| sent < k && StraysSince(states, sent, m, states[k].nodes[m.recipient].log.entries);
    j, a, b := sent + 1, m.sender, m.recipient;
    SetsApart(states, events, hs, sent, k, m, events[k].span);
  }

  lemma SetsApart(states: seq<Cluster>, events: seq<Event>, hs: seq<History>, j: nat, k: nat, m: Message, span: int)
    requires Run(states, events) && Recorded(states, hs) && j < k < |events| && !hs[k].strayed
    requires events[k] == Deliver(m, span) && Strays(states, events, k)
    requires m.Append? && StraysSince(states, j, m, states[k].nodes[m.recipient].log.entries)
    ensures m.recipient in states[k + 1].nodes
    ensures !Comparable(states[j + 1].nodes[m.sender].applied, states[k + 1].nodes[m.recipient].applied)
  {
    hide Full, Step, Agreement, Comparable, Run, LeaderOk, Shaped;
    CalmEarlier(states, hs, j + 1, k);
    SentFrom(states, events, hs, j, m);
    TakenLater(states, events, hs, j, k, m, span);
    var x, y := states[j + 1].nodes[m.sender].log.entries, states[k].nodes[m.recipient].log.entries;
    HoldsShared(x, y, m.AppendEnd());
    AppliedWhenTaken(states, events, hs, k, m, span);
    AppliedThen(states, hs, j + 1, m.sender);
    Apart(x, y, m.AppendEnd(), m.commitIndex);
  }

  lemma HoldsShared(x: seq<Entry>, y: seq<Entry>, k: nat)
    requires k <= Agreement(x, y)
    ensures x[..k] <= y
  {
    var a := Agreement(x, y);
    assert x[..k] == x[..a][..k] == y[..a][..k] == y[..k];
  }

  lemma AppliedThen(states: seq<Cluster>, hs: seq<History>, i: nat, n: Name)
    requires Recorded(states, hs) && i < |states| && !hs[i].strayed && n in states[i].nodes
    ensures var s := states[i].nodes[n];
            0 <= s.commitIndex <= |s.log.entries| && s.applied == s.log.entries[..s.commitIndex]
  {
    assert Full(WorldOf(states[i], hs[i]));
    assert CommitOk(hs[i], states[i].nodes[n]);
  }

  /** A follower that had applied what it had committed has done so again after it takes an append. */
  lemma AppliedWhenTaken(states: seq<Cluster>, events: seq<Event>, hs: seq<History>, k: nat, m: Message, span: int)
    requires Run(states, events) && Recorded(states, hs) && k < |events| && !hs[k].strayed
    requires events[k] == Deliver(m, span) && m.Append? && m.recipient in states[k].nodes
    requires m.recipient == states[k].nodes[m.recipient].name
    requires var s := states[k].nodes[m.recipient];
             m.term >= s.term && s.log.Matches(m.previousIndex, m.previousTerm) && m.commitIndex > s.commitIndex
    requires Step(states[k].nodes[m.recipient], m, span).Ok?
    requires Step(states[k].nodes[m.recipient], m, span).value.node.log == states[k].nodes[m.recipient].log
    ensures m.recipient in states[k + 1].nodes
    ensures var s' := states[k + 1].nodes[m.recipient];
            0 <= s'.commitIndex <= |s'.log.entries| && s'.applied == s'.log.entries[..s'.commitIndex]
            && s' == Step(states[k].nodes[m.recipient], m, span).value.node
  {
    hide RecordOk, PromisesOk, TakeAll, Hearing;
    var s := states[k].nodes[m.recipient];
    assert Full(WorldOf(states[k], hs[k])) && StepOf(states, events, k);
    assert CommitOk(hs[k], s);
    NodeAt(WorldOf(states[k], hs[k]), m.recipient);
    TakesAndCommits(s, m, span);
    HearingAlike(s, m, span);
    AppliesPrefix(Hearing(s, m, span).(log := s.log, commitIndex := Min(m.commitIndex, s.log.LastIndex())));
  }

  lemma Apart(x: seq<Entry>, y: seq<Entry>, end: int, announced: nat)
    requires end <= Agreement(x, y) < Min(announced, |y|) && announced <= |x|
    ensures !Comparable(x[..announced], y[..Min(announced, |y|)])
  {
    var a := Agreement(x, y);
    assert x[..announced][a] != y[..Min(announced, |y|)][a];
  }

  /** Every two applied sequences of a run, at any two moments. */
  ghost predicate AllComparable(states: seq<Cluster>) {
    forall i: nat, j: nat, a, b :: i < |states| && j < |states| && a in states[i].nodes && b in states[j].nodes ==>
      Comparable(states[i].nodes[a].applied, states[j].nodes[b].applied)
  }

  lemma {:induction false} Earliest(states: seq<Cluster>, events: seq<Event>, k: nat) returns (first: nat)
    requires Strays(states, events, k)
    ensures first <= k && Strays(states, events, first) && NoStrayBefore(states, events, first)
  {
    if NoStrayBefore(states, events, k) {
      first := k;
    } else {
      var i: nat :| i < k && Strays(states, events, i);
      first := Earliest(states, events, i);
    }
  }

  /** State Machine Safety holds of a run exactly when nothing in it strays. */
  lemma SafeExactly(states: seq<Cluster>, events: seq<Event>)
    requires Run(states, events)
    ensures AllComparable(states) <==> NoStrayBefore(states, events, |events|)
  {
    hide Strays, Comparable;
    if NoStrayBefore(states, events, |events|) {
      forall i: nat, j: nat, a, b | i < |states| && j < |states| && a in states[i].nodes && b in states[j].nodes
        ensures Comparable(states[i].nodes[a].applied, states[j].nodes[b].applied)
      {
        AppliedAgree(states, events, i, j, a, b);
        IsComparable(states[i].nodes[a].applied, states[j].nodes[b].applied);
      }
    } else {
      var k: nat :| k < |events| && Strays(states, events, k);
      var first := Earliest(states, events, k);
      var j, a, b := StraySetsApart(states, events, first);
    }
  }

  lemma IsComparable(a: seq<Entry>, b: seq<Entry>)
    requires a <= b || b <= a
    ensures Comparable(a, b)
  {
  }

  /* ---- tame runs ---- */

  lemma SentStays(states: seq<Cluster>, events: seq<Event>, i: nat, j: nat)
    requires Run(states, events) && i <= j <= |events|
    ensures states[i].sent <= states[j].sent
    decreases j - i
  {
    if i < j {
      assert StepOf(states, events, i);
      SentStays(states, events, i + 1, j);
    }
  }

  /** A run whose appends announce no more than they carry never strays. */
  lemma TameNeverStrays(states: seq<Cluster>, events: seq<Event>, k: nat)
    requires Run(states, events) && k <= |events| && Tame(states[k].sent)
    ensures NoStrayBefore(states, events, k)
  {
    forall i: nat | i < k ensures !Strays(states, events, i) {
      assert StepOf(states, events, i);
      SentStays(states, events, i, k);
      if events[i].Deliver? {
        assert events[i].message in states[k].sent;
      }
    }
  }

  /** Batches at least as long as every log make every append tame, so such a run is safe with no further condition. */
  lemma {:induction false} WideIsTame(states: seq<Cluster>, events: seq<Event>, k: nat)
    requires Run(states, events) && k <= |events| && forall i :: 0 <= i < |states| ==> Wide(states[i])
    ensures Tame(states[k].sent) && NoStrayBefore(states, events, k)
  {
    hide Full;
    if k > 0 {
      WideIsTame(states, events, k - 1);
      var hs := RunRecord(states, events);
      CalmBefore(states, events, hs, k - 1);
      assert Full(WorldOf(states[k - 1], hs[k - 1])) && Full(WorldOf(states[k], hs[k]));
      assert StepOf(states, events, k - 1);
      IsInv(WorldOf(states[k], hs[k]));
      EventTame(states[k - 1], hs[k - 1], events[k - 1], hs[k]);
    }
    TameNeverStrays(states, events, k);
  }

  lemma IsInv(w: World)
    requires Full(w)
    ensures Inv(w)
  {
  }
}
