/**
The search for the agreement point of two logs (rsm/repair.py and the two reconciliations of rsm/log.py): every
strategy lands on the same point and leaves the follower's log alone; they differ in what they ask.
*/
module Repairing {
  import opened Basics
  import opened Logs
  import opened Rpc
  import opened NodeSpec
  import opened Nodes
  import opened Invariant
  import opened Keeping
  import opened Matching
  import opened Retry

  /** How many probes a strategy is allowed. */
  const LIMIT := 4000

  /** What a strategy cost, where it ended up, and where the logs really stop agreeing. */
  datatype Cost = Cost(probes: nat, matched: int, divergence: nat)

  /* ---- the agreement point ---- */

  predicate SameTerm(left: LogState, right: LogState, index: int) {
    index >= 1 && left.Holds(index) && right.Holds(index) && left.TermAt(index) == right.TermAt(index)
  }

  /** The highest index both logs hold at the same term, or zero. */
  ghost predicate AgreedAt(left: LogState, right: LogState, t: nat) {
    && (t == NO_INDEX || SameTerm(left, right, t))
    && forall i :: t < i ==> !SameTerm(left, right, i)
  }

  method AgreeUpTo(left: Log, right: Log) returns (t: nat)
    requires left.Valid() && right.Valid()
    ensures AgreedAt(left.View(), right.View(), t)
  {
    var index: int := Min(left.View().LastIndex(), right.View().LastIndex());
    while index > NO_INDEX
      invariant 0 <= index
      invariant forall i :: index < i ==> !SameTerm(left.View(), right.View(), i)
    {
      if left.View().Holds(index) && right.View().Holds(index) {
        if left.View().TermAt(index) == right.View().TermAt(index) { return index; }
      }
      index := index - 1;
    }
    t := NO_INDEX;
  }

  /** What the consistency check asks, on logs without a snapshot. */
  predicate Level(x: seq<Entry>, y: seq<Entry>, index: int) {
    index == 0 || (1 <= index <= |x| && index <= |y| && x[index - 1].term == y[index - 1].term)
  }

  lemma LevelIsSame(left: LogState, right: LogState, index: int)
    requires left.snapshotIndex == right.snapshotIndex == 0
    ensures SameTerm(left, right, index) <==> index >= 1 && Level(left.entries, right.entries, index)
  {
  }

  /** On logs that match, the agreement point is the length of the prefix they share. */
  lemma AgreedIsShared(left: LogState, right: LogState, t: nat)
    requires left.snapshotIndex == right.snapshotIndex == 0 && LogMatched(left.entries, right.entries)
    requires AgreedAt(left, right, t)
    ensures t == Agreement(left.entries, right.entries)
  {
    var x, y, a := left.entries, right.entries, Agreement(left.entries, right.entries);
    LevelIsSame(left, right, t);
    LevelIsSame(left, right, a);
    if t > 0 { AgreementAtLeast(x, y, t); }
    if a > 0 { assert x[..a][a - 1] == y[..a][a - 1]; }
  }

  /** On logs that match, agreeing at an index means agreeing at every index below it. */
  lemma LevelBelow(x: seq<Entry>, y: seq<Entry>, i: int, j: int)
    requires LogMatched(x, y) && 0 <= i <= j && Level(x, y, j)
    ensures Level(x, y, i)
  {
    if i > 0 { assert x[i - 1] == x[..j][i - 1] == y[..j][i - 1] == y[i - 1]; }
  }

  /* ---- one probe ---- */

  /** Two nodes and their logs, none of them the same object. */
  ghost predicate Apart(leader: Node, follower: Node)
    reads leader, leader.log, follower, follower.log
  {
    leader.Valid() && follower.Valid() && leader != follower && leader.log != follower.log && leader.name != follower.name
  }

  /** Two nodes without snapshots, the one not in a later term than the other, ready to be compared. */
  ghost predicate Probing(leader: Node, follower: Node)
    reads leader, leader.log, follower, follower.log
  {
    && Apart(leader, follower) && follower.term <= leader.term
    && leader.log.snapshotIndex == follower.log.snapshotIndex == 0
  }

  /** What any follower in no later term makes of the question whether it can place an entry after a position. */
  ghost predicate Tells(log: LogState, index: int, term: int, r: Result<Message>) {
    if log.Matches(index, term) then r.Ok? && r.value.Appended? && r.value.success
    else if index > log.LastIndex() then
      && r.Ok? && r.value.Appended? && !r.value.success
      && r.value.conflictTerm == NO_TERM && r.value.conflictIndex == log.LastIndex() + 1
    else if index < log.snapshotIndex then r == Err(Compacted)
    else
      && r.Ok? && r.value.Appended? && !r.value.success
      && r.value.conflictTerm == log.TermAt(index) && r.value.conflictIndex == RunStart(log, index)
  }

  /** What a follower without a snapshot says about a position. */
  ghost predicate Told(x: seq<Entry>, y: seq<Entry>, index: int, reply: Message)
    requires 0 <= index <= |x|
  {
    && reply.Appended?
    && (reply.success <==> Level(x, y, index))
    && (!reply.success && index > |y| ==> reply.conflictTerm == NO_TERM && reply.conflictIndex == |y| + 1)
    && (!reply.success && index <= |y| ==>
          reply.conflictTerm == y[index - 1].term && reply.conflictIndex == StartOf(y, index - 1) + 1)
  }

  lemma TellsTold(x: seq<Entry>, log: LogState, index: int, r: Result<Message>)
    requires log.snapshotIndex == 0 && 0 <= index <= |x| && Tells(log, index, TermOf(x, index), r)
    ensures r.Ok? && Told(x, log.entries, index, r.value)
  {
    if 1 <= index <= |log.entries| { RunStartIs(log, index); }
  }

  lemma EmptyTells(f: NodeState, m: Message, span: int)
    requires m.Append? && m.recipient == f.name && m.entries == []
    ensures match OnAppend(f, m, span)
            case Ok(e) => e.node.log == f.log && e.node.term == Heard(f, m.sender, m.term, span).term
                          && |e.sends| == 1 && Tells(f.log, m.previousIndex, m.previousTerm, Ok(e.sends[0]))
            case Err(error) => Tells(f.log, m.previousIndex, m.previousTerm, Err(error))
  {
    hide RunStart, ApplyCommitted;
    HearsQuietly(f, m.sender, m.term, span);
  }

  /** An empty append moves no log, whatever the two terms are and whatever the follower has compacted. */
  lemma ProbeTells(f: NodeState, m: Message, span: int)
    requires m.Append? && m.recipient == f.name && m.entries == []
    ensures m.term < f.term ==>
              Step(f, m, span) == Ok(Effect(f, [Appended(f.name, m.sender, f.term, false, NO_INDEX, NO_TERM, NO_INDEX)]))
    ensures m.term >= f.term ==>
              match Step(f, m, span)
              case Ok(e) => && e.node.log == f.log && e.node.term == m.term
                            && |e.sends| == 1 && Tells(f.log, m.previousIndex, m.previousTerm, Ok(e.sends[0]))
              case Err(error) => && StepLeft(f, m, span).log == f.log && StepLeft(f, m, span).term == m.term
                                 && Tells(f.log, m.previousIndex, m.previousTerm, Err(error))
  {
    hide OnAppend, Tells, Heard;
    if m.term >= f.term {
      var g := if m.term > f.term then BecomeFollower(f, m.term, None, span) else f;
      assert g.log == f.log && g.name == f.name && g.term == m.term;
      EmptyTells(g, m, span);
      HearsQuietly(g, m.sender, m.term, span);
    }
  }

  /**
  Asks a follower whether it could place an entry after this position. Its log does not move. A follower of a later term answers
  with its term and nothing else, and a compacted one raises where the position is inside its snapshot.
  */
  method Probe(leader: Node, follower: Node, index: int) returns (r: Result<Message>)
    requires Apart(leader, follower)
    modifies follower, follower.log
    ensures Apart(leader, follower) && follower.log == old(follower.log) && follower.log.View() == old(follower.log.View())
    ensures index < 0 ==> r == Err(ConfigError) && follower.View() == old(follower.View())
    ensures index >= 0 && !leader.log.View().KnowsTerm(index) ==>
              && r == Err(if index < leader.log.snapshotIndex then Compacted else NotFound)
              && follower.View() == old(follower.View())
    ensures index >= 0 && leader.log.View().KnowsTerm(index) && old(follower.term) > leader.term ==>
              && r == Ok(Appended(follower.name, leader.name, follower.term, false, NO_INDEX, NO_TERM, NO_INDEX))
              && follower.View() == old(follower.View())
    ensures index >= 0 && leader.log.View().KnowsTerm(index) && old(follower.term) <= leader.term ==>
              && Tells(follower.log.View(), index, leader.log.View().TermAt(index), r)
              && follower.term == leader.term
  {
    if index < 0 { return Err(ConfigError); }
    var previousTerm :- leader.log.TermAt(index);
    var m := Append(leader.name, follower.name, leader.term, index, previousTerm, [], leader.commitIndex);
    var span: int :| 10 <= span <= 20;
    ProbeTells(follower.View(), m, span);
    var replies :- follower.Receive(m, span);
    r := Ok(replies[0]);
  }

  /* ---- the strategies ---- */

  /** Exactly one probe for each index above the agreement point, and one for that point, unless the limit is met first. */
  method Walk(leader: Node, follower: Node) returns (r: Result<Cost>)
    requires Probing(leader, follower)
    modifies follower, follower.log
    ensures Probing(leader, follower) && follower.log == old(follower.log) && follower.log.View() == old(follower.log.View())
    ensures r.Ok? && AgreedAt(leader.log.View(), follower.log.View(), r.value.divergence)
    ensures var last, t := |leader.log.entries|, r.value.divergence;
            r.value == if last - t < LIMIT then Cost(last - t + 1, t, t) else Cost(LIMIT, -1, t)
  {
    var truth := AgreeUpTo(leader.log, follower.log);
    ghost var x, y := leader.log.entries, follower.log.entries;
    LevelIsSame(leader.log.View(), follower.log.View(), truth);
    var index: int := leader.log.View().LastIndex();
    var probes: nat := 0;
    while index >= 0 && probes < LIMIT
      invariant Probing(leader, follower) && follower.log == old(follower.log) && follower.log.View() == old(follower.log.View())
      invariant truth <= index <= |x| && probes == |x| - index && probes <= LIMIT
    {
      LevelIsSame(leader.log.View(), follower.log.View(), index);
      probes := probes + 1;
      var reply := Probe(leader, follower, index);
      TellsTold(x, follower.log.View(), index, reply);
      if reply.value.success { return Ok(Cost(probes, index, truth)); }
      index := index - 1;
    }
    r := Ok(Cost(probes, -1, truth));
  }

  /** The next position a refusal sends a jumping search to, always below the refused one. */
  function NextIndex(log: LogState, conflictTerm: int, conflictIndex: int, index: int): int {
    if conflictTerm > 0 then
      match LastOfTerm(log, conflictTerm, log.LastIndex())
      case Some(own) => Min(own, index - 1)
      case None => Min(Max(conflictIndex - 1, 0), index - 1)
    else if conflictIndex > 0 then Min(conflictIndex - 1, index - 1)
    else index - 1
  }

  /** Jumping never goes past the agreement point, on any two logs whose terms do not go backwards. */
  lemma NextStaysAbove(log: LogState, y: seq<Entry>, t: nat, index: int, reply: Message)
    requires log.snapshotIndex == 0 && Shaped(log.entries) && Shaped(y)
    requires Level(log.entries, y, t) && t < index <= |log.entries| && !Level(log.entries, y, index)
    requires Told(log.entries, y, index, reply)
    ensures t <= NextIndex(log, reply.conflictTerm, reply.conflictIndex, index) < index
  {
    var x := log.entries;
    if index <= |y| {
      LastOfTermIs(log, reply.conflictTerm, |x|);
    }
  }

  /** On twins it drops a whole term of the follower's at every jump. */
  lemma NextDropsATerm(log: LogState, y: seq<Entry>, index: int, reply: Message)
    requires log.snapshotIndex == 0 && Twins(log.entries, y)
    requires Agreement(log.entries, y) < index <= |log.entries| && !Level(log.entries, y, index)
    requires Told(log.entries, y, index, reply)
    ensures var next, t := NextIndex(log, reply.conflictTerm, reply.conflictIndex, index), Agreement(log.entries, y);
            && t <= next < index
            && (index > |y| ==> next == |y|)
            && (index <= |y| ==> |TermsBetween(y, t, next)| + 1 <= |TermsBetween(y, t, index)|)
  {
    hide Agreement, TermsBetween, Twins, LastOfTerm, StartOf;
    var x, t := log.entries, Agreement(log.entries, y);
    ShapedTwin(x, y);
    if index <= |y| {
      NextTwin(log, y, index);
      FewerTerms(y, t, index, NextIndex(log, reply.conflictTerm, reply.conflictIndex, index));
    }
  }

  lemma NextTwin(log: LogState, y: seq<Entry>, p: nat)
    requires log.snapshotIndex == 0 && Twins(log.entries, y) && 1 <= p <= |log.entries| && p <= |y|
    requires log.entries[p - 1].term != y[p - 1].term
    ensures var next, t := NextIndex(log, y[p - 1].term, StartOf(y, p - 1) + 1, p), Agreement(log.entries, y);
            t <= next < p && (next == t || next == StartOf(y, p - 1))
  {
    hide Twins, LastOfTerm, StartOf, Agreement;
    var x, term := log.entries, y[p - 1].term;
    LastOfTermIs(log, term, |x|);
    match LastOfTerm(log, term, |x|)
    case Some(last) => LeaderHoldsTerm(x, y, p, last);
    case None => LeaderLacksTerm(x, y, p);
  }

  /** The probes a jumping search still needs, on twins. */
  function SkipProbes(y: seq<Entry>, t: nat, index: int): nat {
    if index > |y| then |TermsBetween(y, t, |y|)| + 2
    else if index < 0 then 1 else |TermsBetween(y, t, index)| + 1
  }

  /**
  Follows the jumps of `NextIndex`. It never passes the agreement point and never asks more than walking does;
  on twins it asks at most once for each distinct term the follower holds beyond the agreement point, and twice more.
  */
  method Skip(leader: Node, follower: Node) returns (r: Result<Cost>)
    requires Probing(leader, follower) && Shaped(leader.log.entries) && Shaped(follower.log.entries)
    modifies follower, follower.log
    ensures Probing(leader, follower) && follower.log == old(follower.log) && follower.log.View() == old(follower.log.View())
    ensures r.Ok? && AgreedAt(leader.log.View(), follower.log.View(), r.value.divergence)
    ensures var last, t := |leader.log.entries|, r.value.divergence;
            if r.value.matched == t then 1 <= r.value.probes <= Min(LIMIT, last - t + 1)
            else r.value == Cost(LIMIT, -1, t) && last - t >= LIMIT
    ensures Twins(leader.log.entries, follower.log.entries) ==>
              && r.value.probes <= SkipProbes(follower.log.entries, r.value.divergence, |leader.log.entries|)
              && (SkipProbes(follower.log.entries, r.value.divergence, |leader.log.entries|) <= LIMIT ==>
                    r.value.matched == r.value.divergence)
  {
    hide Twins, TermsBetween, Shaped, Agreement, Told;
    var truth := AgreeUpTo(leader.log, follower.log);
    ghost var x, y := leader.log.entries, follower.log.entries;
    LevelIsSame(leader.log.View(), follower.log.View(), truth);
    var index: int := leader.log.View().LastIndex();
    var probes: nat := 0;
    while index >= 0 && probes < LIMIT
      invariant Probing(leader, follower) && follower.log == old(follower.log) && follower.log.View() == old(follower.log.View())
      invariant truth <= index <= |x| && probes <= |x| - index && probes <= LIMIT
      invariant Twins(x, y) ==> probes + SkipProbes(y, truth, index) <= SkipProbes(y, truth, |x|)
    {
      LevelIsSame(leader.log.View(), follower.log.View(), index);
      probes := probes + 1;
      var reply := Probe(leader, follower, index);
      TellsTold(x, follower.log.View(), index, reply);
      ToldSuccess(x, y, index, reply.value);
      if reply.value.success { return Ok(Cost(probes, index, truth)); }
      NextStaysAbove(leader.log.View(), y, truth, index, reply.value);
      if Twins(x, y) {
        TwinsMatch(x, y);
        AgreedIsShared(leader.log.View(), follower.log.View(), truth);
        NextDropsATerm(leader.log.View(), y, index, reply.value);
      }
      index := NextIndex(leader.log.View(), reply.value.conflictTerm, reply.value.conflictIndex, index);
    }
    r := Ok(Cost(probes, -1, truth));
  }

  lemma ToldSuccess(x: seq<Entry>, y: seq<Entry>, index: int, reply: Message)
    requires 0 <= index <= |x| && Told(x, y, index, reply)
    ensures reply.Appended? && (reply.success <==> Level(x, y, index))
  {
  }

  lemma TwinsMatch(x: seq<Entry>, y: seq<Entry>)
    requires Twins(x, y)
    ensures LogMatched(x, y)
  {
  }

  function Pow2(k: nat): (p: nat)
    ensures p >= 1
  {
    if k == 0 then 1 else 2 * Pow2(k - 1)
  }

  /** How many times a range can be halved: one more than the floor of its binary logarithm. */
  function Halvings(n: nat): (k: nat)
    ensures n < Pow2(k) && (n >= 1 ==> k >= 1 && Pow2(k - 1) <= n)
  {
    if n == 0 then 0 else 1 + Halvings(n / 2)
  }

  lemma {:induction false} FewerHalvings(n: nat, m: nat)
    requires n <= m
    ensures Halvings(n) <= Halvings(m)
  {
    if n > 0 { FewerHalvings(n / 2, m / 2); }
  }

  lemma MiddleSplits(low: nat, high: nat)
    requires low <= high
    ensures low <= (low + high) / 2 <= high
    ensures (low + high) / 2 - low <= (high - low + 1) / 2 && high - (low + high) / 2 <= (high - low + 1) / 2
  {
  }

  lemma OneHalving(n: nat)
    requires n >= 1
    ensures Halvings(n) == 1 + Halvings(n / 2)
  {
  }

  /** A probe in the middle leaves at most half of a range, on either side. */
  lemma HalfRemains(low: nat, high: nat)
    requires low <= high
    ensures var middle := (low + high) / 2;
            Halvings(high - middle) + 1 <= Halvings(high - low + 1) && Halvings(middle - low) + 1 <= Halvings(high - low + 1)
  {
    hide Halvings;
    var middle, half := (low + high) / 2, (high - low + 1) / 2;
    MiddleSplits(low, high);
    OneHalving(high - low + 1);
    FewerHalvings(high - middle, half);
    FewerHalvings(middle - low, half);
  }

  /** Halves the range until the agreement point is left, in no more probes than the range has halvings. */
  method Search(leader: Node, follower: Node, top: int, spent: nat, ghost t: nat) returns (best: nat, probes: nat)
    requires Probing(leader, follower) && LogMatched(leader.log.entries, follower.log.entries)
    requires AgreedAt(leader.log.View(), follower.log.View(), t) && t <= top <= |leader.log.entries|
    modifies follower, follower.log
    ensures Probing(leader, follower) && follower.log == old(follower.log) && follower.log.View() == old(follower.log.View())
    ensures probes <= Max(spent, LIMIT) && probes <= spent + Halvings(top + 1)
    ensures spent + Halvings(top + 1) <= LIMIT ==> best == t
  {
    hide Halvings, LogMatched, Told, Tells;
    ghost var x, y := leader.log.entries, follower.log.entries;
    LevelIsSame(leader.log.View(), follower.log.View(), t);
    var low: nat, high: int := 0, top;
    best, probes := 0, spent;
    while low <= high && probes < LIMIT
      invariant Probing(leader, follower) && follower.log == old(follower.log) && follower.log.View() == old(follower.log.View())
      invariant best == Max(low - 1, 0) <= t <= high <= top && low <= high + 1
      invariant probes + Halvings(high - low + 1) <= spent + Halvings(top + 1) && probes <= Max(spent, LIMIT)
      decreases high - low + 1
    {
      var middle := (low + high) / 2;
      HalfRemains(low, high);
      probes := probes + 1;
      var reply := Probe(leader, follower, middle);
      TellsTold(x, follower.log.View(), middle, reply);
      ToldSuccess(x, y, middle, reply.value);
      LevelIsSame(leader.log.View(), follower.log.View(), middle);
      if reply.value.success {
        best := middle;
        low := middle + 1;
      } else {
        if middle <= t { LevelBelow(x, y, middle, t); }
        high := middle - 1;
      }
    }
  }

  /** Binary search over the whole of the leader's log. */
  method Bisect(leader: Node, follower: Node) returns (r: Result<Cost>)
    requires Probing(leader, follower) && LogMatched(leader.log.entries, follower.log.entries)
    modifies follower, follower.log
    ensures Probing(leader, follower) && follower.log == old(follower.log) && follower.log.View() == old(follower.log.View())
    ensures r.Ok? && AgreedAt(leader.log.View(), follower.log.View(), r.value.divergence)
    ensures r.value.probes <= Min(LIMIT, Halvings(|leader.log.entries| + 1))
    ensures Halvings(|leader.log.entries| + 1) <= LIMIT ==> r.value.matched == r.value.divergence
  {
    var truth := AgreeUpTo(leader.log, follower.log);
    LevelIsSame(leader.log.View(), follower.log.View(), truth);
    var best, probes := Search(leader, follower, leader.log.View().LastIndex(), 0, truth);
    r := Ok(Cost(probes, best, truth));
  }

  /** As the walk while patience lasts, and as a bisection of what is left after that. */
  method Hybrid(leader: Node, follower: Node, patience: int) returns (r: Result<Cost>)
    requires Probing(leader, follower) && LogMatched(leader.log.entries, follower.log.entries)
    modifies follower, follower.log
    ensures Probing(leader, follower) && follower.log == old(follower.log) && follower.log.View() == old(follower.log.View())
    ensures patience < 0 ==> r == Err(ConfigError)
    ensures patience >= 0 ==>
              && r.Ok? && AgreedAt(leader.log.View(), follower.log.View(), r.value.divergence)
              && var last, t := |leader.log.entries|, r.value.divergence;
                 if last - t < patience then r.value == Cost(last - t + 1, t, t)
                 else && last - patience >= 0
                      && r.value.probes <= patience + Halvings(last - patience + 1)
                      && (patience + Halvings(last - patience + 1) <= LIMIT ==> r.value.matched == t)
  {
    hide Halvings, LogMatched, Told;
    if patience < 0 { return Err(ConfigError); }
    var truth := AgreeUpTo(leader.log, follower.log);
    ghost var x, y := leader.log.entries, follower.log.entries;
    LevelIsSame(leader.log.View(), follower.log.View(), truth);
    var index: int := leader.log.View().LastIndex();
    var probes: nat := 0;
    while index >= 0 && probes < patience
      invariant Probing(leader, follower) && follower.log == old(follower.log) && follower.log.View() == old(follower.log.View())
      invariant truth <= index <= |x| && probes == |x| - index <= patience
    {
      LevelIsSame(leader.log.View(), follower.log.View(), index);
      probes := probes + 1;
      var reply := Probe(leader, follower, index);
      TellsTold(x, follower.log.View(), index, reply);
      ToldSuccess(x, y, index, reply.value);
      if reply.value.success { return Ok(Cost(probes, index, truth)); }
      index := index - 1;
    }
    var best;
    best, probes := Search(leader, follower, index, probes, truth);
    r := Ok(Cost(probes, best, truth));
  }
}
