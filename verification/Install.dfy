/**
Bringing a follower up by snapshot (rsm/node.py): a snapshot replaces a log only where it reaches beyond it, however
late or often it arrives, and once it is taken the leader goes on with exactly what comes after it.
*/
module Installing {
  import opened Basics
  import opened Logs
  import opened Rpc
  import opened NodeSpec
  import opened Invariant
  import opened Commit
  import opened Snapshots
  import opened Timers

  /** The same log, the same commands committed and applied, and the same state. */
  predicate SameHoldings(s: NodeState, s': NodeState) {
    && s'.log == s.log && s'.commitIndex == s.commitIndex && s'.lastApplied == s.lastApplied
    && s'.applied == s.applied && s'.state == s.state
  }

  /**
  A snapshot that reaches no further than the log takes nothing away, and the answer names that end. A snapshot of
  more leaves its own boundary, its state and an empty log above it, all of it committed and applied.
  */
  lemma OnlyBeyondTheLog(s: NodeState, m: Message, span: int)
    requires m.InstallSnapshot? && m.recipient == s.name && m.term >= s.term
    ensures Step(s, m, span).Ok?
    ensures var e := Step(s, m, span).value;
            if m.snapIndex <= s.log.LastIndex()
            then && SameHoldings(s, e.node)
                 && e.sends == [Installed(s.name, m.sender, m.term, s.log.LastIndex())]
            else && e.node.log == RawLog([], m.snapIndex, m.snapTerm) && e.node.state == m.state
                 && e.node.commitIndex == e.node.lastApplied == m.snapIndex && e.node.applied == s.applied
                 && e.sends == [Installed(s.name, m.sender, m.term, m.snapIndex)]
  {
    StepIsHandle(s, m, span);
  }

  /** Installing never moves the end of a log, or what is committed within it, backwards. */
  lemma InstallNeverTakesBack(s: NodeState, m: Message, span: int)
    requires m.InstallSnapshot? && m.recipient == s.name && m.term >= s.term && s.commitIndex <= s.log.LastIndex()
    ensures Step(s, m, span).Ok?
    ensures var s' := Step(s, m, span).value.node;
            && s'.log.LastIndex() >= s.log.LastIndex() && s'.commitIndex >= s.commitIndex
            && s'.commitIndex <= s'.log.LastIndex()
  {
    OnlyBeyondTheLog(s, m, span);
  }

  /** A snapshot that arrives again, at any later time in the same term, changes nothing the node holds. */
  lemma InstallTwice(s: NodeState, m: Message, span: int, t: NodeState, span': int)
    requires m.InstallSnapshot? && m.recipient == s.name == t.name && s.term <= m.term == t.term
    requires Step(s, m, span).Ok? && t.log.LastIndex() >= Step(s, m, span).value.node.log.LastIndex()
    ensures Step(t, m, span').Ok? && SameHoldings(t, Step(t, m, span').value.node)
  {
    OnlyBeyondTheLog(s, m, span);
    OnlyBeyondTheLog(t, m, span');
  }

  /* ---- what follows a snapshot ---- */

  lemma {:induction false} ScanReads(s: NodeState, index: int)
    requires s.log.snapshotIndex <= s.commitIndex && index <= s.log.LastIndex()
    ensures CommitScan(s, index).Ok?
    decreases index - s.commitIndex
  {
    if index > s.commitIndex { ScanReads(s, index - 1); }
  }

  /** A leader that has committed what it compacted can always count. */
  lemma CountsAbove(s: NodeState)
    requires s.role == Leader && s.log.snapshotIndex <= s.commitIndex
    ensures AdvanceCommit(s).Ok?
    ensures AdvanceCommit(s).value.matchIndex == s.matchIndex[s.name := s.log.LastIndex()]
  {
    var counted := s.(matchIndex := s.matchIndex[s.name := s.log.LastIndex()]);
    ScanReads(counted, counted.log.LastIndex());
  }

  /** What a leader makes of the news that a follower took its snapshot: the next append starts right after it. */
  lemma GoesOnAfter(s: NodeState, full: LogState, f: Name, span: int)
    requires s.role == Leader && f != s.name && CompactionOf(s.log, full)
    requires s.log.snapshotIndex <= s.commitIndex && Get(s.matchIndex, f, NO_INDEX) <= s.log.snapshotIndex
    ensures var b, x, m := s.log.snapshotIndex, full.entries, Installed(f, s.name, s.term, s.log.snapshotIndex);
            && Step(s, m, span).Ok?
            && var e := Step(s, m, span).value;
               && Get(e.node.matchIndex, f, NO_INDEX) == b && Get(e.node.nextIndex, f, NO_INDEX) == b + 1
               && |e.sends| == 1
               && var next := e.sends[0];
                  && next.Append? && next.sender == s.name && next.recipient == f && next.term == s.term
                  && next.previousIndex == b && next.previousTerm == TermOf(x, b)
                  && next.entries == x[b..Min(b + s.maxBatch, |x|)]
  {
    hide AdvanceCommit, OnInstalled, ReplicateTo, CompactionOf;
    var m := Installed(f, s.name, s.term, s.log.snapshotIndex);
    assert Step(s, m, span) == OnInstalled(s, m);
    CountsAbove(Matched(s, f, s.log.snapshotIndex));
    Records(s, m);
    SendsAfter(AdvanceCommit(Matched(s, f, s.log.snapshotIndex)).value, full, f);
  }

  lemma Records(s: NodeState, m: Message)
    requires m.Installed? && m.recipient == s.name && s.role == Leader && AdvanceCommit(Matched(s, m.sender, m.upTo)).Ok?
    ensures OnInstalled(s, m).Ok?
    ensures var moved := AdvanceCommit(Matched(s, m.sender, m.upTo)).value;
            && moved.name == s.name && OnInstalled(s, m).value == Effect(moved, [ReplicateTo(moved, m.sender)])
            && moved.log == s.log && moved.term == s.term && moved.maxBatch == s.maxBatch
            && moved.nextIndex == Matched(s, m.sender, m.upTo).nextIndex
  {
    hide AdvanceCommit, ReplicateTo;
  }

  lemma SendsAfter(s: NodeState, full: LogState, f: Name)
    requires f != s.name && CompactionOf(s.log, full) && Get(s.nextIndex, f, 0) == s.log.snapshotIndex + 1
    ensures var b, x, next := s.log.snapshotIndex, full.entries, ReplicateTo(s, f);
            && next.Append? && next.sender == s.name && next.recipient == f && next.term == s.term
            && next.previousIndex == b && next.previousTerm == TermOf(x, b)
            && next.entries == x[b..Min(b + s.maxBatch, |x|)]
  {
    EndsAlike(s.log, full);
    SlicesAlike(s.log, full, s.log.snapshotIndex + 1, s.log.snapshotIndex + s.maxBatch);
  }

  /** An empty log above a boundary takes what comes right after it as it is. */
  lemma {:induction false} TakesOnTop(log: LogState, full: LogState, k: nat, end: nat)
    requires log.snapshotIndex <= k <= end <= |full.entries| && full.snapshotIndex == 0
    requires log.entries == full.entries[log.snapshotIndex..k]
    ensures TakeAll(log, full.entries[k..end]) == log.(entries := full.entries[log.snapshotIndex..end])
    decreases end - k
  {
    if k < end {
      var x, one := full.entries, full.entries[k];
      assert x[k..end][0] == one && x[k..end][1..] == x[k + 1..end];
      assert x[log.snapshotIndex..k] + [one] == x[log.snapshotIndex..k + 1];
      TakesOnTop(Extended(log, one), full, k + 1, end);
    }
  }

  /**
  The handshake: a follower behind the leader's compacted log is sent the snapshot, says how far that took it, is sent
  what comes right after it up to a batch, and takes all of that.
  */
  lemma Handshake(s: NodeState, f: NodeState, full: LogState, span: int)
    returns (m: Message, took: Effect, next: Message, level: Effect)
    requires s.role == Leader && s.name != f.name && f.term <= s.term && CompactionOf(s.log, full)
    requires s.log.snapshotIndex <= s.commitIndex && Get(s.matchIndex, f.name, NO_INDEX) <= s.log.snapshotIndex
    requires StartFor(s, f.name) <= s.log.snapshotIndex && f.log.LastIndex() < s.log.snapshotIndex
    ensures m == ReplicateTo(s, f.name) && m.InstallSnapshot?
    ensures m.recipient == f.name && Step(f, m, span) == Ok(took)
    ensures took.sends == [Installed(f.name, s.name, s.term, s.log.snapshotIndex)]
    ensures Step(s, Installed(f.name, s.name, s.term, s.log.snapshotIndex), span).Ok?
    ensures Step(s, Installed(f.name, s.name, s.term, s.log.snapshotIndex), span).value.sends == [next]
    ensures next.recipient == took.node.name && Step(took.node, next, span) == Ok(level)
    ensures var end := Min(s.log.snapshotIndex + s.maxBatch, |full.entries|);
            && CompactionOf(level.node.log, full.(entries := full.entries[..end]))
            && level.sends == [Appended(f.name, s.name, s.term, true, end, NO_TERM, NO_INDEX)]
  {
    hide Step, TakeAll, ReplicateTo, StartFor, StepLeft;
    m := ReplicateTo(s, f.name);
    var b, x := s.log.snapshotIndex, full.entries;
    SendsAlike(s, full, f.name);
    OnlyBeyondTheLog(f, m, span);
    GoesOnAfter(s, full, f.name, span);
    TakenSame(f, m, span);
    took := Step(f, m, span).value;
    next := Step(s, Installed(f.name, s.name, s.term, b), span).value.sends[0];
    TakesAfter(took.node, full, next, Min(b + s.maxBatch, |x|), span);
    level := Step(took.node, next, span).value;
  }

  lemma TakenSame(s: NodeState, m: Message, span: int)
    requires m.InstallSnapshot? && m.recipient == s.name && m.term >= s.term && Step(s, m, span).Ok?
    ensures Step(s, m, span).value.node.name == s.name && Step(s, m, span).value.node.term == m.term
  {
    StepIsHandle(s, m, span);
  }

  lemma TakesAfter(f: NodeState, full: LogState, m: Message, end: nat, span: int)
    requires m.Append? && m.recipient == f.name && m.term == f.term && 0 <= m.previousIndex && 0 <= m.previousTerm
    requires f.log == RawLog([], m.previousIndex, m.previousTerm) && full.snapshotIndex == 0 && full.snapshotTerm == NO_TERM
    requires m.previousIndex <= end <= |full.entries| && m.previousTerm == TermOf(full.entries, m.previousIndex)
    requires m.entries == full.entries[m.previousIndex..end]
    ensures Step(f, m, span).Ok?
    ensures var e := Step(f, m, span).value;
            && CompactionOf(e.node.log, full.(entries := full.entries[..end]))
            && e.sends == [Appended(f.name, m.sender, m.term, true, end, NO_TERM, NO_INDEX)]
  {
    hide ApplyCommitted, TakeAll, Heard;
    StepIsHandle(f, m, span);
    HeardFollows(f, m.sender, m.term, span);
    HeardLog(f, m.sender, m.term, span);
    TakesOnTop(f.log, full, m.previousIndex, end);
    assert full.entries[..end][m.previousIndex..] == full.entries[m.previousIndex..end];
  }

  lemma HeardLog(f: NodeState, from: Name, term: Term, span: int)
    ensures var g := Heard(f, from, term, span); g.log == f.log && g.name == f.name
  {
  }
}
