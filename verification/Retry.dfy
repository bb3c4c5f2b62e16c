/**
Repairing a follower's log (rsm/node.py): where a refusal sends the leader, and how many round trips the
exchange of appends and answers can take. Stated for any two logs that match and start their terms
together, which the logs of a leader and a follower of its term always do.
*/
module Retry {
  import opened Basics
  import opened Logs
  import opened Rpc
  import opened NodeSpec
  import opened ClusterSpec
  import opened Invariant
  import opened Keeping
  import opened Actions
  import opened Commit
  import opened Steps
  import Safety
  import opened Matching

  /* ---- two logs ---- */

  /** The same index and term means the same log up to there. */
  ghost predicate LogMatched(x: seq<Entry>, y: seq<Entry>) {
    forall k :: 0 <= k < |x| && k < |y| && x[k].term == y[k].term ==> x[..k + 1] == y[..k + 1]
  }

  ghost predicate StartsAt(x: seq<Entry>, k: int) {
    0 <= k < |x| && (k == 0 || x[k - 1].term != x[k].term)
  }

  /** A term both logs hold starts at the same index in both. */
  ghost predicate CommonStart(x: seq<Entry>, y: seq<Entry>) {
    forall k, l :: StartsAt(x, k) && StartsAt(y, l) && x[k].term == y[l].term ==> k == l
  }

  ghost predicate Twins(x: seq<Entry>, y: seq<Entry>) {
    Shaped(x) && Shaped(y) && LogMatched(x, y) && CommonStart(x, y)
  }

  ghost predicate Holding(x: seq<Entry>, term: int) {
    exists k :: 0 <= k < |x| && x[k].term == term
  }

  /** Where the run of the term at position `k` starts. */
  function StartOf(x: seq<Entry>, k: nat): (l: nat)
    requires k < |x|
    ensures l <= k && StartsAt(x, l) && forall i :: l <= i <= k ==> x[i].term == x[k].term
  {
    if k == 0 || x[k - 1].term != x[k].term then k else StartOf(x, k - 1)
  }

  /** The loop of `_conflict` finds the start of the run, which is one past the position counted from zero. */
  lemma {:induction false} RunStartIs(log: LogState, index: int)
    requires log.snapshotIndex == 0 && log.Holds(index)
    ensures RunStart(log, index) == StartOf(log.entries, index - 1) + 1
    decreases index
  {
    if index > 1 && log.TermAt(index - 1) == log.TermAt(index) { RunStartIs(log, index - 1); }
  }

  /** Compacted or not, it finds the first entry of the run: all from there on are of one term, and the one before is not. */
  lemma {:induction false} RunStartExactly(log: LogState, index: int)
    requires log.Holds(index)
    ensures var first := RunStart(log, index);
            && log.Holds(first) && first <= index
            && (forall k :: first <= k <= index ==> log.Holds(k) && log.At(k).term == log.At(index).term)
            && (first > log.FirstIndex() ==> log.At(first - 1).term != log.At(index).term)
    decreases index
  {
    if index > log.FirstIndex() && log.TermAt(index - 1) == log.TermAt(index) { RunStartExactly(log, index - 1); }
  }

  /** Compacted or not, the backward scan finds the last held entry of a term, and nothing only if none is held. */
  lemma {:induction false} LastOfTermExactly(log: LogState, term: int, index: int)
    requires index <= log.LastIndex()
    ensures match LastOfTerm(log, term, index)
            case None => forall k :: log.FirstIndex() <= k <= index ==> log.At(k).term != term
            case Some(last) => && log.Holds(last) && last <= index && log.At(last).term == term
                               && forall k :: last < k <= index ==> log.At(k).term != term
    decreases index - log.snapshotIndex
  {
    if index >= log.FirstIndex() && log.TermAt(index) != term { LastOfTermExactly(log, term, index - 1); }
  }

  /** The loop of `_skip_term` finds the last entry of a term, and fails only if there is none. */
  lemma {:induction false} LastOfTermIs(log: LogState, term: int, index: int)
    requires log.snapshotIndex == 0 && 0 <= index <= |log.entries|
    ensures match LastOfTerm(log, term, index)
            case None => forall k :: 0 <= k < index ==> log.entries[k].term != term
            case Some(last) => && 1 <= last <= index && log.entries[last - 1].term == term
                               && forall k :: last <= k < index ==> log.entries[k].term != term
    decreases index
  {
    if index >= 1 && log.TermAt(index) != term { LastOfTermIs(log, term, index - 1); }
  }

  /** What disagrees at a position disagrees from the agreement point on. */
  lemma AgreesBelow(x: seq<Entry>, y: seq<Entry>, k: nat)
    requires LogMatched(x, y) && k < |x| && k < |y| && x[k].term != y[k].term
    ensures Agreement(x, y) <= k
  {
    var a := Agreement(x, y);
    assert forall i :: 0 <= i < a ==> x[i] == x[..a][i] == y[..a][i] == y[i];
  }

  /* ---- where a refusal sends the leader ---- */

  /** If the leader has entries of the refused position's term, its last one is where the two logs stop agreeing. */
  lemma LeaderHoldsTerm(x: seq<Entry>, y: seq<Entry>, p: nat, last: nat)
    requires Twins(x, y) && 1 <= p <= |x| && p <= |y| && x[p - 1].term != y[p - 1].term
    requires 1 <= last <= |x| && x[last - 1].term == y[p - 1].term
    requires forall k :: last <= k < |x| ==> x[k].term != y[p - 1].term
    ensures last == Agreement(x, y) < p && y[last].term == y[p - 1].term
  {
    var start := StartOf(y, p - 1);
    assert StartOf(x, last - 1) == start;
    assert forall k :: start <= k < last ==> x[k].term == y[p - 1].term;
    assert y[last - 1].term == x[last - 1].term;
    AgreementAtLeast(x, y, last);
    AgreesBelow(x, y, last);
  }

  /** If it has none, the follower's run starts past that point, and right there exactly when the follower has that term there. */
  lemma LeaderLacksTerm(x: seq<Entry>, y: seq<Entry>, p: nat)
    requires Twins(x, y) && 1 <= p <= |x| && p <= |y| && !Holding(x, y[p - 1].term)
    ensures var first := StartOf(y, p - 1) + 1;
            && Agreement(x, y) + 1 <= first <= p
            && (first == Agreement(x, y) + 1 <==> y[Agreement(x, y)].term == y[p - 1].term)
  {
    hide CommonStart;
    var a, l := Agreement(x, y), StartOf(y, p - 1);
    AgreesBelow(x, y, l);
    assert a < l ==> y[a].term <= y[l - 1].term < y[l].term;
  }

  /**
  The retry window: a refused probe is retried strictly below it and never below the agreement point, and
  lands on the agreement point exactly when what the follower holds right after it, entry or nothing, is of
  the term it named. That is always so when the leader holds the named term.
  */
  lemma RetryWindow(s: NodeState, f: NodeState, m: Message)
    requires s.log.snapshotIndex == f.log.snapshotIndex == 0 && Twins(s.log.entries, f.log.entries)
    requires m.Append? && m.recipient == f.name && 1 <= m.previousIndex <= |s.log.entries|
    requires m.previousTerm == s.log.entries[m.previousIndex - 1].term
    requires !f.log.Matches(m.previousIndex, m.previousTerm)
    ensures Conflict(f, m).Ok?
    ensures var refusal, a := Conflict(f, m).value, Agreement(s.log.entries, f.log.entries);
            var retry := RetryIndex(s, refusal.conflictTerm, refusal.conflictIndex);
            && refusal.conflictTerm == TermOf(f.log.entries, m.previousIndex)
            && a + 1 <= retry <= m.previousIndex
            && (retry == a + 1 <==> TermOf(f.log.entries, a + 1) == refusal.conflictTerm)
            && (Holding(s.log.entries, refusal.conflictTerm) ==> retry == a + 1)
  {
    hide Twins, LastOfTerm, StartOf, Agreement, Conflict, SkipTerm;
    var x, y, p := s.log.entries, f.log.entries, m.previousIndex;
    if p <= |y| {
      RefusalWithin(f, m);
      RetryWithin(s, y, p);
    } else {
      RefusalBeyond(f, m);
    }
  }

  /** A follower whose log ends before the probe says where it ends, and names no term. */
  lemma RefusalBeyond(f: NodeState, m: Message)
    requires f.log.snapshotIndex == 0 && m.Append? && m.recipient == f.name && m.previousIndex > |f.log.entries|
    ensures !f.log.Matches(m.previousIndex, m.previousTerm) && Conflict(f, m).Ok?
    ensures var r := Conflict(f, m).value; r.Appended? && r.conflictTerm == NO_TERM && r.conflictIndex == |f.log.entries| + 1
  {
  }

  lemma RefusalWithin(f: NodeState, m: Message)
    requires f.log.snapshotIndex == 0 && m.Append? && m.recipient == f.name && 1 <= m.previousIndex <= |f.log.entries|
    requires !f.log.Matches(m.previousIndex, m.previousTerm)
    ensures Conflict(f, m).Ok?
    ensures var r, at := Conflict(f, m).value, m.previousIndex - 1;
            r.Appended? && r.conflictTerm == f.log.entries[at].term && r.conflictIndex == StartOf(f.log.entries, at) + 1
  {
    RunStartIs(f.log, m.previousIndex);
  }

  lemma RetryWithin(s: NodeState, y: seq<Entry>, p: nat)
    requires s.log.snapshotIndex == 0 && Twins(s.log.entries, y)
    requires 1 <= p <= |s.log.entries| && p <= |y| && s.log.entries[p - 1].term != y[p - 1].term
    ensures var a, retry := Agreement(s.log.entries, y), RetryIndex(s, y[p - 1].term, StartOf(y, p - 1) + 1);
            && a + 1 <= retry <= p
            && (retry == a + 1 <==> y[a].term == y[p - 1].term)
            && (Holding(s.log.entries, y[p - 1].term) ==> retry == a + 1)
            && (retry == a + 1 || retry == StartOf(y, p - 1) + 1)
  {
    hide Twins, LastOfTerm, StartOf, Agreement;
    var x, term := s.log.entries, y[p - 1].term;
    LastOfTermIs(s.log, term, |x|);
    match LastOfTerm(s.log, term, |x|)
    case Some(last) =>
      LeaderHoldsTerm(x, y, p, last);
      assert x[last - 1].term == term;
    case None => LeaderLacksTerm(x, y, p);
  }

  /* ---- the exchange ---- */

  /**
  A leader and one follower, the message on its way from one to the other if there is one, and how many
  appends have been refused and taken so far.
  */
  datatype Exchange = Exchange(leader: NodeState, follower: NodeState, pending: seq<Message>, refused: nat, taken: nat)

  /** One round trip: the pending message arrives, the answer comes back, and the leader may send the next. */
  function Trip(p: Exchange, span: int): Result<Exchange> {
    if p.pending == [] || p.pending[0].recipient != p.follower.name then Ok(p)
    else
      var heard :- Step(p.follower, p.pending[0], span);
      if heard.sends == [] || heard.sends[0].recipient != p.leader.name then Ok(p)
      else
        var reply := heard.sends[0];
        var told :- Step(p.leader, reply, span);
        var ok := reply.Appended? && reply.success;
        Ok(Exchange(told.node, heard.node, told.sends,
                    p.refused + (if ok then 0 else 1), p.taken + (if ok then 1 else 0)))
  }

  function Trips(p: Exchange, span: int, k: nat): Result<Exchange>
    decreases k
  {
    if k == 0 then Ok(p)
    else
      var p' :- Trip(p, span);
      Trips(p', span, k - 1)
  }

  /** A leader and a follower of its term, as they are in every reachable cluster. */
  ghost predicate Led(s: NodeState, f: NodeState) {
    && s.role == Leader && s.term == f.term && s.name != f.name && s.maxBatch >= 1 && !s.commitAnyTerm
    && s.log.snapshotIndex == f.log.snapshotIndex == 0 && s.commitIndex >= 0
    && Twins(s.log.entries, f.log.entries)
    && Ruled(s.log.entries, f.log.entries, s.term)
    && Get(s.matchIndex, f.name, NO_INDEX) <= Agreement(s.log.entries, f.log.entries)
    && StartFor(s, f.name) >= 1
  }

  /** Whatever a log holds of the leader's term is the leader's. */
  ghost predicate Ruled(x: seq<Entry>, y: seq<Entry>, term: int) {
    && x != [] && LastTermOf(x) == term && LastTermOf(y) <= term
    && forall k :: 0 <= k < |y| && y[k].term == term ==> y[..k + 1] <= x
  }

  /** The leader's next append to this follower is on its way. */
  ghost predicate Ready(p: Exchange) {
    Led(p.leader, p.follower) && p.pending == [ReplicateTo(p.leader, p.follower.name)]
  }

  /* ---- one trip ---- */

  lemma NextAppend(s: NodeState, to: Name)
    requires s.log.snapshotIndex == 0 && Shaped(s.log.entries) && to != s.name && StartFor(s, to) >= 1
    ensures var m, x, prev := ReplicateTo(s, to), s.log.entries, StartFor(s, to) - 1;
            var end := Min(prev + s.maxBatch, |x|);
            && m.Append? && m.sender == s.name && m.recipient == to && m.term == s.term && m.commitIndex == s.commitIndex
            && m.previousIndex == prev <= |x| && m.previousTerm == TermOf(x, prev)
            && m.entries == x[prev..end] && m.AppendEnd() == end
  {
    var x, prev := s.log.entries, StartFor(s, to) - 1;
    assert s.log.LastIndex() == |x|;
    SliceEnds(x, prev, Min(prev + s.maxBatch, |x|));
  }

  /** A slice of a log ends where its last entry says, or is empty. */
  lemma SliceEnds(x: seq<Entry>, prev: nat, end: nat)
    requires Shaped(x) && prev <= end <= |x|
    ensures x[prev..end] == [] ==> prev == end
    ensures x[prev..end] != [] ==> x[prev..end][|x[prev..end]| - 1].index == end
  {
  }

  /** What a follower of the sender's term makes of an append. */
  lemma Answers(f: NodeState, m: Message, span: int)
    requires m.Append? && m.recipient == f.name && m.term == f.term && f.log.snapshotIndex == 0 && m.previousIndex >= 0
    ensures Step(f, m, span).Ok?
    ensures var e := Step(f, m, span).value;
            && e.node.name == f.name && e.node.term == f.term
            && if f.log.Matches(m.previousIndex, m.previousTerm)
               then && e.node.log == TakeAll(f.log, m.entries)
                    && e.sends == [Appended(f.name, m.sender, f.term, true, m.AppendEnd(), NO_TERM, NO_INDEX)]
               else && e.node.log == f.log && Conflict(f, m).Ok? && e.sends == [Conflict(f, m).value]
  {
    hide ApplyCommitted, TakeAll, Conflict, Heard;
    var heard := Heard(f, m.sender, m.term, span);
    HearsQuietly(f, m.sender, m.term, span);
    if !f.log.Matches(m.previousIndex, m.previousTerm) { SameConflict(heard, f, m); }
  }

  lemma HearsQuietly(f: NodeState, from: Name, term: Term, span: int)
    ensures var g := Heard(f, from, term, span);
            g.log == f.log && g.name == f.name && g.term == if f.role == Follower then f.term else Max(f.term, term)
  {
  }

  lemma SameConflict(g: NodeState, f: NodeState, m: Message)
    requires g.name == f.name && g.term == f.term && g.log == f.log && f.log.snapshotIndex == 0
    requires m.recipient == f.name && m.Append? && m.previousIndex >= 0 && !f.log.Matches(m.previousIndex, m.previousTerm)
    ensures Conflict(g, m) == Conflict(f, m) && Conflict(f, m).Ok?
  {
  }

  /** What a leader makes of an answer of its term. */
  lemma Reacts(s: NodeState, m: Message, span: int)
    requires m.Appended? && m.recipient == s.name && m.term == s.term && s.role == Leader
    requires s.log.snapshotIndex == 0 && s.commitIndex >= 0 && !s.commitAnyTerm
    ensures Step(s, m, span).Ok?
    ensures var e := Step(s, m, span).value; var f := m.sender;
            && e.node.role == Leader && e.node.log == s.log && e.node.term == s.term && e.node.name == s.name
            && e.node.maxBatch == s.maxBatch && e.node.commitIndex >= 0 && !e.node.commitAnyTerm
            && (m.success ==>
                  && Get(e.node.matchIndex, f, NO_INDEX) == Max(Get(s.matchIndex, f, NO_INDEX), m.matchIndex)
                  && Get(e.node.nextIndex, f, 0) == Max(Get(s.matchIndex, f, NO_INDEX), m.matchIndex) + 1
                  && f in e.node.nextIndex
                  && e.sends == if e.node.nextIndex[f] <= s.log.LastIndex() then [ReplicateTo(e.node, f)] else [])
            && (!m.success ==>
                  && e.node.matchIndex == s.matchIndex && f in e.node.nextIndex
                  && e.node.nextIndex[f] == RetryIndex(s, m.conflictTerm, m.conflictIndex)
                  && e.sends == [ReplicateTo(e.node, f)])
  {
    hide AdvanceCommit, RetryIndex, ReplicateTo;
    if m.success {
      CountsReadily(Matched(s, m.sender, m.matchIndex));
    }
  }

  /** Without a snapshot the count of the matches reads every position and moves only what is committed and applied. */
  lemma CountsReadily(s: NodeState)
    requires s.role == Leader && s.log.snapshotIndex == 0 && s.commitIndex >= 0 && !s.commitAnyTerm
    ensures AdvanceCommit(s).Ok?
    ensures var v := AdvanceCommit(s).value;
            && v.commitIndex >= 0 && v.matchIndex == s.matchIndex[s.name := s.log.LastIndex()]
            && v == s.(matchIndex := v.matchIndex, commitIndex := v.commitIndex, lastApplied := v.lastApplied,
                       applied := v.applied, state := v.state)
  {
    var counted := s.(matchIndex := s.matchIndex[s.name := s.log.LastIndex()]);
    ScanFlat(counted, counted.log.LastIndex());
  }

  /** A log that passes the check of an append from its twin takes it as a whole or holds it already. */
  lemma Takes(x: seq<Entry>, log: LogState, prev: nat, end: nat)
    requires log.snapshotIndex == 0 && Twins(x, log.entries) && prev <= end <= |x|
    requires log.Matches(prev, TermOf(x, prev))
    ensures prev <= Agreement(x, log.entries)
    ensures TakeAll(log, x[prev..end]) == if x[..end] <= log.entries then log else log.(entries := x[..end])
  {
    hide TakeAll, CommonStart;
    var y := log.entries;
    assert prev <= |y| && x[..prev] == y[..prev];
    AgreementAtLeast(x, y, prev);
    TakesPrefix(x, log, prev, end);
  }

  lemma TakesPrefix(x: seq<Entry>, log: LogState, prev: nat, end: nat)
    requires log.snapshotIndex == 0 && Shaped(x) && LogMatched(x, log.entries)
    requires prev <= end <= |x| && prev <= |log.entries| && x[..prev] == log.entries[..prev]
    ensures TakeAll(log, x[prev..end]) == if x[..end] <= log.entries then log else log.(entries := x[..end])
  {
    hide TakeAll;
    var y := log.entries;
    forall i | prev <= i < end && i < |y| && x[..end][i].term == y[i].term ensures x[..end][i] == y[i] {
      assert x[..i + 1][i] == y[..i + 1][i];
    }
    assert x[..end][..prev] == x[..prev] && x[..end][prev..] == x[prev..end];
    TakeAllFlat(log, prev, x[prev..end], x[..end]);
  }

  /** A prefix of a log is its twin. */
  lemma PrefixTwins(x: seq<Entry>, end: nat)
    requires Shaped(x) && end <= |x|
    ensures Twins(x, x[..end])
  {
    var y := x[..end];
    assert forall k :: 0 <= k < |y| && x[k].term == y[k].term ==> x[..k + 1] == y[..k + 1];
    forall k, l | StartsAt(x, k) && StartsAt(y, l) && x[k].term == y[l].term ensures k == l {
      assert StartsAt(x, l);
    }
  }

  /** The probe a leader's next append makes, and whether the follower will take it. */
  function Probe(p: Exchange): int { StartFor(p.leader, p.follower.name) - 1 }

  ghost predicate WillTake(p: Exchange)
    requires Ready(p)
  {
    p.follower.log.Matches(Probe(p), TermOf(p.leader.log.entries, Probe(p)))
  }

  lemma TripTurns(p: Exchange, span: int)
    requires p.pending != [] && p.pending[0].recipient == p.follower.name && Step(p.follower, p.pending[0], span).Ok?
    requires var heard := Step(p.follower, p.pending[0], span).value;
             heard.sends != [] && heard.sends[0].recipient == p.leader.name && Step(p.leader, heard.sends[0], span).Ok?
    ensures var heard := Step(p.follower, p.pending[0], span).value;
            var told, ok := Step(p.leader, heard.sends[0], span).value, heard.sends[0].Appended? && heard.sends[0].success;
            Trip(p, span) == Ok(Exchange(told.node, heard.node, told.sends,
                                         p.refused + (if ok then 0 else 1), p.taken + (if ok then 1 else 0)))
  {
    hide Step;
  }

  /** A refused trip changes neither log and moves the probe where the retry window says. */
  lemma RefusedTrip(p: Exchange, span: int)
    requires Ready(p) && !WillTake(p)
    ensures Trip(p, span).Ok?
    ensures var p', x, y := Trip(p, span).value, p.leader.log.entries, p.follower.log.entries;
            && Ready(p') && p'.leader.log == p.leader.log && p'.follower.log == p.follower.log
            && p'.leader.maxBatch == p.leader.maxBatch
            && p'.refused == p.refused + 1 && p'.taken == p.taken
            && Agreement(x, y) <= Probe(p') < Probe(p) <= |x|
            && (Probe(p) > |y| ==> Probe(p') == |y|)
            && (Probe(p) <= |y| ==> Probe(p') == Agreement(x, y) || Probe(p') == StartOf(y, Probe(p) - 1))
  {
    hide Twins, Ruled, Agreement, StartOf, Step, Conflict, Shaped, RetryIndex, ReplicateTo, TakeAll, Trip;
    var s, f := p.leader, p.follower;
    var m := p.pending[0];
    ShapedTwin(s.log.entries, f.log.entries);
    NextAppend(s, f.name);
    Answers(f, m, span);
    RetryWindow(s, f, m);
    RefusalGoes(s, f, m);
    Reacts(s, Step(f, m, span).value.sends[0], span);
    TripTurns(p, span);
  }

  lemma ShapedTwin(x: seq<Entry>, y: seq<Entry>)
    requires Twins(x, y)
    ensures Shaped(x) && Shaped(y)
  {
  }

  lemma RefusalGoes(s: NodeState, f: NodeState, m: Message)
    requires s.log.snapshotIndex == f.log.snapshotIndex == 0 && Twins(s.log.entries, f.log.entries)
    requires m.Append? && m.recipient == f.name && 1 <= m.previousIndex <= |s.log.entries|
    requires m.previousTerm == s.log.entries[m.previousIndex - 1].term
    requires !f.log.Matches(m.previousIndex, m.previousTerm)
    ensures Conflict(f, m).Ok?
    ensures var r, x, y := Conflict(f, m).value, s.log.entries, f.log.entries;
            var retry := RetryIndex(s, r.conflictTerm, r.conflictIndex);
            && r.Appended? && !r.success && r.sender == f.name && r.recipient == m.sender && r.term == f.term
            && (m.previousIndex > |y| ==> retry == |y| + 1)
            && (m.previousIndex <= |y| ==> retry == Agreement(x, y) + 1 || retry == StartOf(y, m.previousIndex - 1) + 1)
  {
    hide Twins, StartOf, Agreement, LastOfTerm, SkipTerm, RunStart;
    if m.previousIndex <= |f.log.entries| {
      RefusalWithin(f, m);
      RetryWithin(s, f.log.entries, m.previousIndex);
    } else {
      RefusalBeyond(f, m);
    }
  }

  /** A taken trip leaves the follower agreeing up to the end of the batch and moves the probe there or beyond. */
  lemma TakenTrip(p: Exchange, span: int)
    requires Ready(p) && WillTake(p)
    ensures Trip(p, span).Ok?
    ensures var p', x, y := Trip(p, span).value, p.leader.log.entries, p.follower.log.entries;
            var end := Min(Probe(p) + p.leader.maxBatch, |x|);
            && Led(p'.leader, p'.follower) && p'.leader.log == p.leader.log && p'.leader.maxBatch == p.leader.maxBatch
            && p'.refused == p.refused && p'.taken == p.taken + 1
            && 0 <= Probe(p) <= Agreement(x, y)
            && end <= Probe(p') <= Agreement(x, p'.follower.log.entries)
            && p'.pending == if Probe(p') < |x| then [ReplicateTo(p'.leader, p'.follower.name)] else []
  {
    hide Twins, Ruled, Agreement, Step, ReplicateTo;
    var s, f := p.leader, p.follower;
    FollowerTakes(s, f, span);
    var e := Step(f, p.pending[0], span).value;
    Credits(s, e.node, e.sends[0], Min(Probe(p) + s.maxBatch, |s.log.entries|), span);
  }

  lemma FollowerTakes(s: NodeState, f: NodeState, span: int)
    requires Led(s, f) && f.log.Matches(StartFor(s, f.name) - 1, TermOf(s.log.entries, StartFor(s, f.name) - 1))
    ensures var x, m, prev := s.log.entries, ReplicateTo(s, f.name), StartFor(s, f.name) - 1;
            var end := Min(prev + s.maxBatch, |x|);
            && m.recipient == f.name && Step(f, m, span).Ok?
            && prev <= Agreement(x, f.log.entries)
            && var e := Step(f, m, span).value; var y' := e.node.log.entries;
               && e.node.name == f.name && e.node.term == f.term && e.node.log.snapshotIndex == 0
               && e.sends == [Appended(f.name, s.name, f.term, true, end, NO_TERM, NO_INDEX)]
               && Twins(x, y') && Ruled(x, y', s.term) && end <= Agreement(x, y')
               && Get(s.matchIndex, f.name, NO_INDEX) <= Agreement(x, y')
  {
    hide Twins, Ruled, Agreement, Step, TakeAll, ReplicateTo, Shaped, StartFor;
    var x, y := s.log.entries, f.log.entries;
    ShapedTwin(x, y);
    NextAppend(s, f.name);
    var end := Min(StartFor(s, f.name) - 1 + s.maxBatch, |x|);
    StepTakes(x, f, ReplicateTo(s, f.name), end, span);
    TakenLed(s, f, Step(f, ReplicateTo(s, f.name), span).value.node, end);
  }

  /** What a follower of the sender's term makes of a batch it can place. */
  lemma StepTakes(x: seq<Entry>, f: NodeState, m: Message, end: nat, span: int)
    requires m.Append? && m.recipient == f.name && m.term == f.term && f.log.snapshotIndex == 0 && Twins(x, f.log.entries)
    requires 0 <= m.previousIndex <= end <= |x| && m.previousTerm == TermOf(x, m.previousIndex)
    requires m.entries == x[m.previousIndex..end] && m.AppendEnd() == end && f.log.Matches(m.previousIndex, m.previousTerm)
    ensures m.previousIndex <= Agreement(x, f.log.entries)
    ensures Step(f, m, span).Ok?
    ensures var e := Step(f, m, span).value;
            && e.node.name == f.name && e.node.term == f.term
            && e.node.log == (if x[..end] <= f.log.entries then f.log else f.log.(entries := x[..end]))
            && e.sends == [Appended(f.name, m.sender, f.term, true, end, NO_TERM, NO_INDEX)]
  {
    hide Twins, Agreement, Step, TakeAll, Conflict;
    Answers(f, m, span);
    Takes(x, f.log, m.previousIndex, end);
  }

  /** A leader that hears a batch was taken sends the next one, or nothing if that was the last. */
  lemma Credits(s: NodeState, f: NodeState, reply: Message, end: nat, span: int)
    requires s.role == Leader && s.term == f.term && s.name != f.name && s.maxBatch >= 1 && !s.commitAnyTerm
    requires s.log.snapshotIndex == f.log.snapshotIndex == 0 && s.commitIndex >= 0
    requires Twins(s.log.entries, f.log.entries) && Ruled(s.log.entries, f.log.entries, s.term)
    requires Get(s.matchIndex, f.name, NO_INDEX) <= Agreement(s.log.entries, f.log.entries)
    requires end <= Agreement(s.log.entries, f.log.entries)
    requires reply == Appended(f.name, s.name, f.term, true, end, NO_TERM, NO_INDEX)
    ensures Step(s, reply, span).Ok?
    ensures var e := Step(s, reply, span).value;
            && Led(e.node, f) && e.node.log == s.log && e.node.maxBatch == s.maxBatch && e.node.name == s.name
            && end <= StartFor(e.node, f.name) - 1 <= Agreement(s.log.entries, f.log.entries)
            && e.sends == if StartFor(e.node, f.name) - 1 < |s.log.entries| then [ReplicateTo(e.node, f.name)] else []
  {
    hide Twins, Ruled, Agreement, Step;
    Reacts(s, reply, span);
    ShapedTwin(s.log.entries, f.log.entries);
  }

  /** Taking a batch keeps everything the exchange relies on, and agreement reaches the end of the batch. */
  lemma TakenLed(s: NodeState, f: NodeState, f': NodeState, end: nat)
    requires Led(s, f) && end <= |s.log.entries|
    requires f'.log == if s.log.entries[..end] <= f.log.entries then f.log else f.log.(entries := s.log.entries[..end])
    ensures Twins(s.log.entries, f'.log.entries) && Ruled(s.log.entries, f'.log.entries, s.term) && f'.log.snapshotIndex == 0
    ensures end <= Agreement(s.log.entries, f'.log.entries)
    ensures Get(s.matchIndex, f.name, NO_INDEX) <= Agreement(s.log.entries, f'.log.entries)
  {
    hide Twins, Ruled, Agreement;
    var x, y := s.log.entries, f.log.entries;
    if x[..end] <= y {
      AgreementAtLeast(x, y, end);
    } else {
      ShapedTwin(x, y);
      PrefixTwins(x, end);
      PrefixRuled(x, y, end, s.term);
      AgreementAtLeast(x, x[..end], end);
      AgreesShort(x, y, end);
    }
  }

  lemma PrefixRuled(x: seq<Entry>, y: seq<Entry>, end: nat, term: int)
    requires Shaped(x) && Ruled(x, y, term) && end <= |x|
    ensures Ruled(x, x[..end], term)
  {
    var z := x[..end];
    forall k | 0 <= k < |z| && z[k].term == term ensures z[..k + 1] <= x {
      assert z[..k + 1] == x[..k + 1];
    }
  }

  lemma AgreesShort(x: seq<Entry>, y: seq<Entry>, end: nat)
    requires end <= |x| && !(x[..end] <= y)
    ensures Agreement(x, y) < end
  {
    var a := Agreement(x, y);
    assert forall j :: 0 <= j < a ==> x[j] == x[..a][j] == y[..a][j] == y[j];
    if end <= |y| {
      assert x[..end] != y[..end];
      var i :| 0 <= i < end && x[i] != y[i];
    }
  }

  /* ---- the whole exchange ---- */

  /** How many batches carry what is missing; an append carrying nothing still takes one. */
  function Batches(missing: int, batch: nat): (k: nat)
    requires batch >= 1
    ensures k >= 1 && (k - 1) * batch <= Max(missing, 0) <= k * batch && (missing >= 1 ==> (k - 1) * batch < missing)
    decreases missing
  {
    if missing <= batch then 1 else 1 + Batches(missing - batch, batch)
  }

  lemma {:induction false} FewerBatches(missing: int, more: int, batch: nat)
    requires batch >= 1 && missing <= more
    ensures Batches(missing, batch) <= Batches(more, batch)
    decreases missing
  {
    if missing > batch { FewerBatches(missing - batch, more - batch, batch); }
  }

  lemma OneBatchFewer(missing: int, left: int, batch: nat)
    requires batch >= 1 && 0 < left <= missing && left <= Max(missing - batch, 0)
    ensures Batches(left, batch) + 1 <= Batches(missing, batch)
  {
    FewerBatches(left, missing - batch, batch);
  }

  /** The distinct terms a log holds between two positions. */
  function TermsBetween(y: seq<Entry>, lo: nat, hi: nat): set<int>
    requires hi <= |y|
  {
    set i | lo <= i < hi :: y[i].term
  }

  lemma FewerTerms(y: seq<Entry>, lo: nat, hi: nat, hi': nat)
    requires Shaped(y) && lo <= hi' < hi <= |y| && (hi' == lo || hi' == StartOf(y, hi - 1))
    ensures |TermsBetween(y, lo, hi')| + 1 <= |TermsBetween(y, lo, hi)|
  {
    var less, all, t := TermsBetween(y, lo, hi'), TermsBetween(y, lo, hi), y[hi - 1].term;
    assert hi' > lo ==> y[hi' - 1].term < t;
    assert forall i :: lo <= i < hi' ==> y[i].term <= y[hi' - 1].term;
    assert t in all;
    SubsetSize(less + {t}, all);
  }

  lemma TakesSoon(p: Exchange)
    requires Ready(p) && Probe(p) <= Agreement(p.leader.log.entries, p.follower.log.entries)
    ensures WillTake(p)
  {
    hide Twins, Ruled, Agreement;
    MatchesBelow(p.leader.log.entries, p.follower.log, Probe(p));
  }

  lemma MatchesBelow(x: seq<Entry>, log: LogState, prev: nat)
    requires log.snapshotIndex == 0 && prev <= Agreement(x, log.entries)
    ensures log.Matches(prev, TermOf(x, prev))
  {
    var a := Agreement(x, log.entries);
    if prev > 0 { assert x[prev - 1] == x[..a][prev - 1] == log.entries[..a][prev - 1] == log.entries[prev - 1]; }
  }

  lemma TakesOnly(p: Exchange)
    requires Ready(p) && WillTake(p)
    ensures Probe(p) <= Agreement(p.leader.log.entries, p.follower.log.entries)
  {
    Takes(p.leader.log.entries, p.follower.log, Probe(p), Probe(p));
  }

  /** A follower that holds all of the leader's log holds nothing else. */
  lemma EndsEqual(x: seq<Entry>, y: seq<Entry>, term: int)
    requires Twins(x, y) && Ruled(x, y, term) && Agreement(x, y) == |x|
    ensures y == x
  {
    assert x == x[..|x|] == y[..|x|];
  }

  /** From a probe at or below the agreement point nothing is refused and the batches carry the rest. */
  lemma {:induction false} Transfers(p: Exchange, span: int) returns (k: nat)
    requires Ready(p) && Probe(p) <= Agreement(p.leader.log.entries, p.follower.log.entries)
    ensures Trips(p, span, k).Ok?
    ensures var q, x := Trips(p, span, k).value, p.leader.log.entries;
            && q.pending == [] && q.leader.log == p.leader.log && q.follower.log.entries == x
            && q.refused == p.refused && q.taken == p.taken + k
            && 1 <= k <= Batches(|x| - Probe(p), p.leader.maxBatch)
    decreases |p.leader.log.entries| - Probe(p)
  {
    hide Twins, Ruled, Agreement, Trip, Batches, ReplicateTo, WillTake;
    var x, B := p.leader.log.entries, p.leader.maxBatch;
    TakesSoon(p);
    TakenTrip(p, span);
    var p' := Trip(p, span).value;
    if Probe(p') < |x| {
      var rest := Transfers(p', span);
      OneBatchFewer(|x| - Probe(p), |x| - Probe(p'), B);
      k := rest + 1;
    } else {
      EndsEqual(x, p'.follower.log.entries, p'.leader.term);
      k := 1;
      assert Trips(p', span, 0) == Ok(p');
    }
  }

  /** The refusals still to come: one for each term the follower holds beyond the agreement point, and one for a short log. */
  function Refusals(p: Exchange): nat {
    var a, y := Agreement(p.leader.log.entries, p.follower.log.entries), p.follower.log.entries;
    if Probe(p) > |y| then |TermsBetween(y, a, |y|)| + 1
    else if Probe(p) < 0 then 0 else |TermsBetween(y, a, Probe(p))|
  }

  lemma FewerRefusals(p: Exchange, span: int)
    requires Ready(p) && !WillTake(p)
    ensures Trip(p, span).Ok? && Refusals(Trip(p, span).value) + 1 <= Refusals(p)
  {
    hide Ruled, Agreement, Trip, TermsBetween, StartOf;
    RefusedTrip(p, span);
    var p', y := Trip(p, span).value, p.follower.log.entries;
    var a := Agreement(p.leader.log.entries, y);
    if Probe(p) <= |y| { FewerTerms(y, a, Probe(p), Probe(p')); }
  }

  /**
  Repair terminates: the exchange of appends and answers, one at a time, ends with the follower's log equal to
  the leader's and the leader with nothing to send, after at most one refusal for each distinct term in the
  follower's divergent suffix and one more, and then as many batches as carry what was missing, or a single
  empty one.
  */
  lemma {:induction false} Repairs(p: Exchange, span: int) returns (k: nat)
    requires Ready(p)
    ensures Trips(p, span, k).Ok?
    ensures var q, x, a := Trips(p, span, k).value, p.leader.log.entries, Agreement(p.leader.log.entries, p.follower.log.entries);
            && q.pending == [] && q.leader.log == p.leader.log && q.follower.log.entries == x
            && k == (q.refused - p.refused) + (q.taken - p.taken)
            && 0 <= q.refused - p.refused <= Refusals(p)
            && 1 <= q.taken - p.taken <= Batches(|x| - Min(Probe(p), a), p.leader.maxBatch)
    decreases Probe(p)
  {
    hide Twins, Ruled, Agreement, Trip, Refusals, Batches;
    if WillTake(p) {
      TakesOnly(p);
      k := Transfers(p, span);
    } else {
      RefusedTrip(p, span);
      FewerRefusals(p, span);
      var rest := Repairs(Trip(p, span).value, span);
      k := rest + 1;
    }
  }

  /* ---- without a common start ---- */

  /** A leader and a follower of its term whose logs match, although they start terms 2 and 3 at different places. */
  ghost predicate Askew(p: Exchange, command: Command) {
    var e := (t: Term, i: Term) => Entry(t, i, command);
    && p.leader.role == Leader && p.leader.term == p.follower.term && p.leader.name != p.follower.name
    && p.leader.commitIndex >= 0 && !p.leader.commitAnyTerm
    && p.leader.log == RawLog([e(1, 1), e(2, 2), e(2, 3), e(3, 4)], 0, 0)
    && p.follower.log == RawLog([e(1, 1), e(1, 2), e(3, 3)], 0, 0)
  }

  /** The exchange stands at one of the two probes of the circle. */
  ghost predicate Circling(p: Exchange, command: Command) {
    Askew(p, command) && (Probe(p) == 3 || Probe(p) == 4) && p.pending == [ReplicateTo(p.leader, p.follower.name)]
  }

  /** Such logs are twins in every way but where their terms start. */
  lemma AskewLogs(p: Exchange, command: Command)
    requires Askew(p, command)
    ensures var x, y := p.leader.log.entries, p.follower.log.entries;
            Shaped(x) && Shaped(y) && LogMatched(x, y) && !CommonStart(x, y)
  {
    var x, y := p.leader.log.entries, p.follower.log.entries;
    assert StartsAt(x, 3) && StartsAt(y, 2);
    assert x[..1] == y[..1];
  }

  /** A probe at 3 is refused and sends the leader up to 4; a probe at 4 is refused and sends it back to 3. */
  lemma CircleTurns(p: Exchange, command: Command, span: int)
    requires Circling(p, command)
    ensures Trip(p, span).Ok?
    ensures var q := Trip(p, span).value;
            && Circling(q, command) && Probe(q) == 7 - Probe(p)
            && q.refused == p.refused + 1 && q.taken == p.taken
  {
    hide Step, Conflict, ReplicateTo, RetryIndex, Shaped, LogMatched, CommonStart, Agreement;
    var s, f, m := p.leader, p.follower, p.pending[0];
    AskewLogs(p, command);
    NextAppend(s, f.name);
    Answers(f, m, span);
    CircleAnswer(p, command);
    Reacts(s, Conflict(f, m).value, span);
  }

  lemma CircleAnswer(p: Exchange, command: Command)
    requires Circling(p, command)
    ensures var s, f, m := p.leader, p.follower, p.pending[0];
            && m.Append? && Conflict(f, m).Ok?
            && var r := Conflict(f, m).value;
               && r.Appended? && !r.success && r.sender == f.name && r.recipient == s.name && r.term == f.term
               && RetryIndex(s, r.conflictTerm, r.conflictIndex) == 8 - Probe(p)
  {
    hide ReplicateTo, Shaped, LogMatched, CommonStart, Agreement, StartOf, RunStart;
    AskewLogs(p, command);
    var s, f, m := p.leader, p.follower, p.pending[0];
    NextAppend(s, f.name);
    if Probe(p) == 3 {
      RefusalWithin(f, m);
      LastOfTermIs(s.log, 3, 4);
    } else {
      RefusalBeyond(f, m);
    }
  }

  /**
  Log matching alone is not enough: two logs that start a term apart send the leader round in a circle of two
  probes for ever. Every round trip is a refusal, and after every second one it sends the same probe again.
  */
  lemma {:induction false} CyclesWithoutCommonStart(p: Exchange, command: Command, span: int, k: nat)
    requires Circling(p, command)
    ensures Trips(p, span, k).Ok?
    ensures var q := Trips(p, span, k).value;
            && Circling(q, command) && Probe(q) == (if k % 2 == 0 then Probe(p) else 7 - Probe(p))
            && q.refused == p.refused + k && q.taken == p.taken
    decreases k
  {
    hide Circling, Trip, ReplicateTo;
    if k > 0 {
      CircleTurns(p, command, span);
      CyclesWithoutCommonStart(Trip(p, span).value, command, span, k - 1);
    }
  }

  /** At most one refusal for each distinct term in the divergent suffix, and one more. */
  lemma RefusalsBounded(p: Exchange)
    requires Ready(p)
    ensures var y := p.follower.log.entries;
            Refusals(p) <= |TermsBetween(y, Agreement(p.leader.log.entries, y), |y|)| + 1
  {
    var y := p.follower.log.entries;
    var a := Agreement(p.leader.log.entries, y);
    if 0 <= Probe(p) <= |y| { SubsetSize(TermsBetween(y, a, Probe(p)), TermsBetween(y, a, |y|)); }
  }

  /* ---- every reachable leader and follower ---- */

  /** The logs of any two nodes at any moment of a run match and start their terms together. */
  lemma ReachableTwins(states: seq<Cluster>, events: seq<Event>, i: nat, n: Name, f: Name)
    requires Run(states, events) && i <= |events| && n in states[i].nodes && f in states[i].nodes
    ensures Twins(states[i].nodes[n].log.entries, states[i].nodes[f].log.entries)
  {
    hide LogMatched, CommonStart;
    ReachableNode(states, events, i, n);
    ReachableNode(states, events, i, f);
    ReachableMatched(states, events, i, n, f);
    ReachableStart(states, events, i, n, f);
  }

  lemma ReachableMatched(states: seq<Cluster>, events: seq<Event>, i: nat, n: Name, f: Name)
    requires Run(states, events) && i <= |events| && n in states[i].nodes && f in states[i].nodes
    ensures LogMatched(states[i].nodes[n].log.entries, states[i].nodes[f].log.entries)
  {
    hide StepOf, Initial;
    var x, y := states[i].nodes[n].log.entries, states[i].nodes[f].log.entries;
    forall k | 0 <= k < |x| && k < |y| && x[k].term == y[k].term ensures x[..k + 1] == y[..k + 1] {
      Safety.LogsMatch(states, events, i, i, n, f, k);
    }
  }

  lemma ReachableStart(states: seq<Cluster>, events: seq<Event>, i: nat, n: Name, f: Name)
    requires Run(states, events) && i <= |events| && n in states[i].nodes && f in states[i].nodes
    ensures CommonStart(states[i].nodes[n].log.entries, states[i].nodes[f].log.entries)
  {
    hide StepOf, Initial;
    var x, y := states[i].nodes[n].log.entries, states[i].nodes[f].log.entries;
    forall k, l | StartsAt(x, k) && StartsAt(y, l) && x[k].term == y[l].term ensures k == l {
      Safety.RunsStartTogether(states, events, i, i, n, f, k, l);
    }
  }

  lemma ReachableNode(states: seq<Cluster>, events: seq<Event>, i: nat, n: Name)
    requires Run(states, events) && i <= |events| && n in states[i].nodes
    ensures var s := states[i].nodes[n];
            && Shaped(s.log.entries) && LastTermOf(s.log.entries) <= s.term && s.name == n
            && s.log.snapshotIndex == 0 && s.commitIndex >= 0 && !s.commitAnyTerm
            && (s.role == Leader ==> forall g :: g in s.nextIndex ==> s.nextIndex[g] >= 1)
  {
    var hs := Safety.RunRecord(states, events);
    assert Full(Safety.WorldOf(states[i], hs[i]));
    Safety.NodeAt(Safety.WorldOf(states[i], hs[i]), n);
  }

  /** A leader's log ends in its own term, and holds whatever any log holds of that term. */
  lemma ReachableRuled(states: seq<Cluster>, events: seq<Event>, i: nat, n: Name, f: Name)
    requires Run(states, events) && i <= |events| && n in states[i].nodes && f in states[i].nodes
    requires states[i].nodes[n].role == Leader && states[i].nodes[f].term == states[i].nodes[n].term
    ensures Ruled(states[i].nodes[n].log.entries, states[i].nodes[f].log.entries, states[i].nodes[n].term)
  {
    var hs := Safety.RunRecord(states, events);
    var w := Safety.WorldOf(states[i], hs[i]);
    assert Full(w);
    Safety.NodeAt(w, n);
    Safety.NodeAt(w, f);
    var x, y, t := w.nodes[n].log.entries, w.nodes[f].log.entries, w.nodes[n].term;
    assert OfficeOk(w.h, w.members, w.nodes, t);
    forall k | 0 <= k < |y| && y[k].term == t ensures y[..k + 1] <= x {
      assert RootedAt(w.h, y, k);
    }
  }

  /** In every reachable cluster, a leader sending to a follower of its term is ready for the exchange. */
  lemma ReachableReady(states: seq<Cluster>, events: seq<Event>, i: nat, n: Name, f: Name)
    requires Run(states, events) && i <= |events| && n in states[i].nodes && f in states[i].nodes && n != f
    requires var s := states[i].nodes[n];
             s.role == Leader && states[i].nodes[f].term == s.term && s.maxBatch >= 1 && s.name == n && f != s.name
    ensures Ready(Exchange(states[i].nodes[n], states[i].nodes[f], [ReplicateTo(states[i].nodes[n], f)], 0, 0))
  {
    hide Twins, Ruled, Agreement;
    var s, y := states[i].nodes[n], states[i].nodes[f].log.entries;
    ReachableNode(states, events, i, n);
    ReachableNode(states, events, i, f);
    ReachableTwins(states, events, i, n, f);
    ReachableRuled(states, events, i, n, f);
    if f in s.matchIndex {
      MatchIsHeld(states, events, i, n, f);
      if s.matchIndex[f] >= 0 { HeldAgrees(s.log.entries, y, s.matchIndex[f]); }
    }
  }

  lemma HeldAgrees(x: seq<Entry>, y: seq<Entry>, k: nat)
    requires k <= |x| && x[..k] <= y
    ensures k <= Agreement(x, y)
  {
    AgreementAtLeast(x, y, k);
  }

  /** From any moment of any run a follower in its leader's term can be brought level, at no more than this cost. */
  lemma FollowersAreRepaired(states: seq<Cluster>, events: seq<Event>, i: nat, n: Name, f: Name, span: int) returns (k: nat)
    requires Run(states, events) && i <= |events| && n in states[i].nodes && f in states[i].nodes && n != f
    requires var s := states[i].nodes[n];
             s.role == Leader && states[i].nodes[f].term == s.term && s.maxBatch >= 1 && s.name == n && f != s.name
    ensures var p := Exchange(states[i].nodes[n], states[i].nodes[f], [ReplicateTo(states[i].nodes[n], f)], 0, 0);
            var x, y := states[i].nodes[n].log.entries, states[i].nodes[f].log.entries;
            && Trips(p, span, k).Ok?
            && var q := Trips(p, span, k).value;
               && q.pending == [] && q.leader.log == states[i].nodes[n].log && q.follower.log.entries == x
               && k == q.refused + q.taken
               && q.refused <= |TermsBetween(y, Agreement(x, y), |y|)| + 1
               && 1 <= q.taken <= Batches(|x| - Min(Probe(p), Agreement(x, y)), p.leader.maxBatch)
  {
    hide Ready, Trip, Trips, Agreement, TermsBetween, Batches;
    var p := Exchange(states[i].nodes[n], states[i].nodes[f], [ReplicateTo(states[i].nodes[n], f)], 0, 0);
    ReachableReady(states, events, i, n, f);
    RefusalsBounded(p);
    k := Repairs(p, span);
  }
}
