/** The two reconciliation loops of rsm/log.py: what they find, what they cost, and where one of them never ends. */
module Reconciling {
  import opened Basics
  import opened Logs
  import opened NodeSpec
  import opened Invariant
  import opened Keeping
  import opened Matching
  import opened Retry
  import opened Repairing
  import opened Snapshots

  /** The term the leader claims for a position: its own if it holds it, and none otherwise. */
  function Claimed(leader: LogState, index: int): int {
    if leader.Holds(index) then leader.TermAt(index) else NO_TERM
  }

  predicate Accepted(leader: LogState, follower: LogState, index: int) {
    follower.Matches(index, Claimed(leader, index))
  }

  /** One trip for each refused position from the end of the leader's log down, and one for the first accepted. */
  method OneAtATime(leader: Log, follower: Log) returns (trips: nat)
    requires leader.Valid() && follower.Valid()
    ensures 1 <= trips <= leader.View().LastIndex() + 1
    ensures var last := leader.View().LastIndex();
            && Accepted(leader.View(), follower.View(), last + 1 - trips)
            && forall i :: last + 1 - trips < i <= last ==> !Accepted(leader.View(), follower.View(), i)
  {
    trips := 0;
    var next: int := leader.View().LastIndex() + 1;
    while next > NO_INDEX
      invariant 0 <= next <= leader.View().LastIndex() + 1 && trips == leader.View().LastIndex() + 1 - next
      invariant next > 0 || trips > leader.View().LastIndex() + 1
      invariant forall i :: next <= i <= leader.View().LastIndex() ==> !Accepted(leader.View(), follower.View(), i)
    {
      trips := trips + 1;
      var previous := next - 1;
      if follower.View().Matches(previous, if leader.View().Holds(previous) then leader.View().TermAt(previous) else 0) {
        return;
      }
      if previous == NO_INDEX { return; }
      next := next - 1;
    }
  }

  /** Where the other loop looks next, if a position one below `next` was refused. */
  function NextTry(leader: LogState, follower: LogState, next: int): (r: Option<int>)
    requires next >= 1
    ensures r.Some? ==> r.value >= 1
  {
    var previous := next - 1;
    if previous == NO_INDEX || Accepted(leader, follower, previous) then None
    else if !follower.Holds(previous) then Some(follower.LastIndex() + 1)
    else Some(RunStart(follower, previous))
  }

  /** The loop ends in exactly `k` trips from there. */
  ghost predicate EndsIn(leader: LogState, follower: LogState, next: int, k: nat)
    requires next >= 1
    decreases k
  {
    k >= 1 &&
    match NextTry(leader, follower, next)
    case None => k == 1
    case Some(again) => EndsIn(leader, follower, again, k - 1)
  }

  /** Started at the end of the leader's log, the loop ends in exactly `k` trips. */
  ghost predicate EndsAfter(leader: LogState, follower: LogState, k: nat) {
    EndsIn(leader, follower, leader.LastIndex() + 1, k)
  }

  ghost predicate Ends(leader: LogState, follower: LogState) {
    exists k :: EndsAfter(leader, follower, k)
  }

  /** The positions the loop can come to: the ends of the two logs, and those just before a run of the follower's. */
  predicate Visits(leader: LogState, follower: LogState, p: int) {
    p == leader.LastIndex() || p == follower.LastIndex() || (follower.Holds(p + 1) && RunStart(follower, p + 1) == p + 1)
  }

  ghost predicate MeetsSomewhere(leader: LogState, follower: LogState) {
    exists p :: Visits(leader, follower, p) && Accepted(leader, follower, p)
  }

  /** Skip a whole term of the follower's at each trip. Called only where it ends. */
  method ByConflictTerm(leader: Log, follower: Log) returns (trips: nat)
    requires leader.Valid() && follower.Valid() && MeetsSomewhere(leader.View(), follower.View())
    ensures EndsAfter(leader.View(), follower.View(), trips)
  {
    hide MeetsSomewhere, Visits;
    trips := 0;
    var ours, theirs := leader.View(), follower.View();
    var next: int := ours.LastIndex() + 1;
    EndsExactly(ours, theirs);
    ghost var all: nat :| EndsAfter(ours, theirs, all);
    ghost var left := all;
    while next > NO_INDEX
      invariant next >= 1 && trips + left == all && EndsIn(ours, theirs, next, left)
      decreases left
    {
      trips := trips + 1;
      var previous := next - 1;
      var leaderTerm := if ours.Holds(previous) then ours.TermAt(previous) else NO_TERM;
      if previous == NO_INDEX || theirs.Matches(previous, leaderTerm) { return; }
      if !theirs.Holds(previous) {
        next := theirs.LastIndex() + 1;
      } else {
        var conflicting := theirs.TermAt(previous);
        var first := previous;
        while first > theirs.FirstIndex() && theirs.TermAt(first - 1) == conflicting
          invariant theirs.Holds(first) && first <= previous && theirs.TermAt(first) == conflicting
          invariant RunStart(theirs, first) == RunStart(theirs, previous)
        {
          first := first - 1;
        }
        next := first;
      }
      left := left - 1;
    }
  }

  /* ---- where the loop ends ---- */

  lemma {:induction false} StartsItself(log: LogState, index: int)
    requires log.Holds(index)
    ensures log.Holds(RunStart(log, index)) && RunStart(log, RunStart(log, index)) == RunStart(log, index)
    decreases index
  {
    if index > log.FirstIndex() && log.TermAt(index - 1) == log.TermAt(index) { StartsItself(log, index - 1); }
  }

  /** A run that starts at or before a position starts at or before that position's own run. */
  lemma {:induction false} StartsInOrder(log: LogState, start: int, index: int)
    requires log.Holds(start) && log.Holds(index) && start <= index && RunStart(log, start) == start
    ensures start <= RunStart(log, index)
    decreases index
  {
    if index > log.FirstIndex() && log.TermAt(index - 1) == log.TermAt(index) && start < index {
      StartsInOrder(log, start, index - 1);
    }
  }

  lemma {:induction false} EndsSomewhere(leader: LogState, follower: LogState, next: int, k: nat)
    requires next >= 1 && EndsIn(leader, follower, next, k) && Visits(leader, follower, next - 1)
    ensures MeetsSomewhere(leader, follower)
    decreases k
  {
    match NextTry(leader, follower, next)
    case None => assert Accepted(leader, follower, next - 1);
    case Some(again) =>
      if follower.Holds(next - 1) { StartsItself(follower, next - 1); }
      EndsSomewhere(leader, follower, again, k - 1);
  }

  /** From a position at or above one the loop comes to and the follower accepts. */
  lemma {:induction false} DescendsTo(leader: LogState, follower: LogState, p: int, next: int) returns (k: nat)
    requires Accepted(leader, follower, p) && follower.snapshotIndex <= p <= next - 1 <= follower.LastIndex()
    requires p == next - 1 || (follower.Holds(p + 1) && RunStart(follower, p + 1) == p + 1)
    ensures EndsIn(leader, follower, next, k)
    decreases next
  {
    match NextTry(leader, follower, next)
    case None => k := 1;
    case Some(again) =>
      StartsInOrder(follower, p + 1, next - 1);
      var rest := DescendsTo(leader, follower, p, again);
      k := rest + 1;
  }

  /** From a position inside the follower's log the loop ends if it ends from the follower's end. */
  lemma {:induction false} EndsFromInside(leader: LogState, follower: LogState, next: int, fromEnd: nat) returns (k: nat)
    requires follower.snapshotIndex <= next - 1 <= follower.LastIndex()
    requires EndsIn(leader, follower, follower.LastIndex() + 1, fromEnd)
    ensures next >= 1 && EndsIn(leader, follower, next, k)
    decreases next
  {
    match NextTry(leader, follower, next)
    case None => k := 1;
    case Some(again) =>
      if follower.Holds(next - 1) {
        var rest := EndsFromInside(leader, follower, again, fromEnd);
        k := rest + 1;
      } else {
        k := fromEnd + 1;
      }
  }

  /** The loop ends exactly when the follower accepts one of the positions the loop can come to. */
  lemma EndsExactly(leader: LogState, follower: LogState)
    ensures Ends(leader, follower) <==> MeetsSomewhere(leader, follower)
  {
    var next := leader.LastIndex() + 1;
    if k :| EndsAfter(leader, follower, k) { EndsSomewhere(leader, follower, next, k); }
    if p :| Visits(leader, follower, p) && Accepted(leader, follower, p) {
      if NextTry(leader, follower, next).None? {
        assert EndsAfter(leader, follower, 1);
      } else {
        var fromEnd := DescendsTo(leader, follower, p, follower.LastIndex() + 1);
        if follower.Holds(next - 1) {
          var k := EndsFromInside(leader, follower, next, fromEnd);
          assert EndsAfter(leader, follower, k);
        } else {
          assert EndsAfter(leader, follower, fromEnd + 1);
        }
      }
    }
  }

  /** The position before a follower's first entry is always one the loop can come to. */
  lemma VisitsBoundary(leader: LogState, follower: LogState)
    ensures Visits(leader, follower, follower.snapshotIndex)
  {
  }

  /** So with an uncompacted follower the loop always ends. */
  lemma UncompactedEnds(leader: LogState, follower: LogState)
    requires follower.snapshotIndex == 0
    ensures Ends(leader, follower)
  {
    VisitsBoundary(leader, follower);
    assert Accepted(leader, follower, 0);
    EndsExactly(leader, follower);
  }

  /** And with one compacted out of a log that matches the leader's, exactly when they agree at the boundary. */
  lemma CompactedEndsExactly(leader: LogState, follower: LogState, full: LogState)
    requires leader.snapshotIndex == 0 && CompactionOf(follower, full) && LogMatched(leader.entries, full.entries)
    ensures Ends(leader, follower) <==> leader.entries == [] || Accepted(leader, follower, follower.snapshotIndex)
  {
    EndsExactly(leader, follower);
    VisitsBoundary(leader, follower);
    EndsAlike(follower, full);
    if leader.entries == [] { assert Visits(leader, follower, 0) && Accepted(leader, follower, 0); }
    if p :| Visits(leader, follower, p) && Accepted(leader, follower, p) {
      AcceptsBelow(leader, follower, full, p);
    }
  }

  lemma MatchedBelow(x: seq<Entry>, y: seq<Entry>, p: nat, b: nat)
    requires LogMatched(x, y) && 0 < b <= p <= |x| && p <= |y| && x[p - 1].term == y[p - 1].term
    ensures x[b - 1] == y[b - 1]
  {
    assert x[b - 1] == x[..p][b - 1] && y[b - 1] == y[..p][b - 1];
  }

  lemma AcceptsBelow(leader: LogState, follower: LogState, full: LogState, p: int)
    requires leader.snapshotIndex == 0 && CompactionOf(follower, full) && LogMatched(leader.entries, full.entries)
    requires Visits(leader, follower, p) && Accepted(leader, follower, p)
    ensures leader.entries == [] || Accepted(leader, follower, follower.snapshotIndex)
  {
    hide LogMatched;
    EndsAlike(follower, full);
    var b, x, y := follower.snapshotIndex, leader.entries, full.entries;
    if p > 0 && b > 0 {
      assert follower.TermAt(p) == y[p - 1].term by { AnswersAlike(follower, full, p, 0, 0); }
      MatchedBelow(x, y, p, b);
    }
  }

  /* ---- what it costs ---- */

  /** On logs without snapshots, what is accepted is what is level. */
  lemma AcceptedIsLevel(leader: LogState, follower: LogState, index: int)
    requires leader.snapshotIndex == follower.snapshotIndex == 0 && 0 <= index <= |leader.entries|
    ensures Accepted(leader, follower, index) <==> Level(leader.entries, follower.entries, index)
  {
  }

  /** Walking back stops at the agreement point, so it takes one trip more than there are divergent positions. */
  lemma WalkStopsAtAgreement(leader: LogState, follower: LogState, t: nat, trips: nat)
    requires leader.snapshotIndex == follower.snapshotIndex == 0 && AgreedAt(leader, follower, t)
    requires 1 <= trips <= |leader.entries| + 1 && Accepted(leader, follower, |leader.entries| + 1 - trips)
    requires forall i :: |leader.entries| + 1 - trips < i <= |leader.entries| ==> !Accepted(leader, follower, i)
    ensures trips == |leader.entries| - t + 1
  {
    var at := |leader.entries| + 1 - trips;
    AcceptedIsLevel(leader, follower, t);
    AcceptedIsLevel(leader, follower, at);
    LevelIsSame(leader, follower, t);
    LevelIsSame(leader, follower, at);
  }

  lemma AgreedAccepted(leader: LogState, follower: LogState, index: nat)
    requires leader.snapshotIndex == follower.snapshotIndex == 0 && LogMatched(leader.entries, follower.entries)
    requires index <= |leader.entries|
    ensures Accepted(leader, follower, index) <==> index <= Agreement(leader.entries, follower.entries)
  {
    var x, y := leader.entries, follower.entries;
    AcceptedIsLevel(leader, follower, index);
    var a := Agreement(x, y);
    if index > 0 {
      if index <= a { assert x[..a][index - 1] == y[..a][index - 1]; }
      if Level(x, y, index) { AgreementAtLeast(x, y, index); }
    }
  }

  /**
  On logs that match, skipping terms never takes more trips than walking, and at most two more than the number
  of distinct terms in the follower's divergent suffix.
  */
  lemma {:induction false} SkippingIsCheaper(leader: LogState, follower: LogState, next: int, k: nat)
    requires leader.snapshotIndex == follower.snapshotIndex == 0
    requires Shaped(follower.entries) && LogMatched(leader.entries, follower.entries)
    requires 1 <= next <= |leader.entries| + 1 && EndsIn(leader, follower, next, k)
    ensures var t := Agreement(leader.entries, follower.entries);
            k <= Max(next - 1 - t, 0) + 1 && k <= Skips(follower.entries, t, next - 1)
    decreases k
  {
    hide LogMatched, Agreement, TermsBetween, Shaped, StartOf;
    var y, t, p := follower.entries, Agreement(leader.entries, follower.entries), next - 1;
    AgreedAccepted(leader, follower, p);
    if p > t {
      var again := NextTry(leader, follower, next).value;
      SkippingIsCheaper(leader, follower, again, k - 1);
      if p <= |y| {
        RunStartIs(follower, p);
        if again - 1 >= t { FewerTerms(y, t, p, again - 1); } else { SomeTerms(y, t, p); }
      }
    }
  }

  lemma SomeTerms(y: seq<Entry>, lo: nat, hi: nat)
    requires lo < hi <= |y|
    ensures |TermsBetween(y, lo, hi)| >= 1
  {
    assert y[lo].term in TermsBetween(y, lo, hi);
  }

  /** The trips still needed from a position, by the terms the follower holds between there and the agreement point. */
  function Skips(y: seq<Entry>, t: nat, index: int): nat {
    if index <= t then 1
    else if index > |y| then (if t <= |y| then |TermsBetween(y, t, |y|)| + 2 else 2)
    else |TermsBetween(y, t, index)| + 1
  }

  /** A follower that has compacted its log can send the loop round for ever. */
  lemma CompactedFollowerCycles(leader: LogState, follower: LogState, command: Command)
    requires var e := (t: Term, i: Term) => Entry(t, i, command);
             && leader == RawLog([e(3, 1), e(3, 2), e(3, 3)], 0, 0) && follower == RawLog([e(2, 3)], 2, 1)
    ensures NextTry(leader, follower, leader.LastIndex() + 1) == Some(3)
    ensures NextTry(leader, follower, 3) == Some(4)
    ensures !Ends(leader, follower)
  {
    EndsExactly(leader, follower);
  }
}
