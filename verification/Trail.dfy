/**
A follower brought up by a snapshot, for as long as it lives after that: whatever appends arrive, in whatever
order, and whenever it compacts its own log, it stays on the way and then in the state a full replay leads to.
*/
module Trails {
  import opened Basics
  import opened Logs
  import opened Rpc
  import opened NodeSpec
  import opened Invariant
  import opened Keeping
  import opened Retry
  import opened Batching
  import opened Snapshots

  /**
  A follower, the log it would hold if it never forgot, the commands known to be committed so far, and the label and
  the applied index of the snapshot it last took.
  */
  datatype Trail = Trail(node: NodeState, whole: LogState, chosen: seq<Entry>, base: nat, given: nat)

  /**
  An append cut from some leader's log, a snapshot of a leader that had applied so much of its log, late or not, or a
  compaction of the follower's own log.
  */
  datatype Move =
    | Hears(message: Message, log: seq<Entry>, span: int)
    | Installs(message: Message, log: seq<Entry>, applied: nat, span: int)
    | Forgets(upto: nat)

  /** It was given the state at `q` under the label `b`, and has since applied only what was chosen. */
  ghost predicate OnTrack(t: Trail) {
    && CompactionOf(t.node.log, t.whole)
    && t.node.log.snapshotIndex <= t.node.commitIndex == t.node.lastApplied <= |t.whole.entries|
    && t.whole.entries[..t.node.commitIndex] <= t.chosen
    && CatchingUp(t.node, t.chosen, t.base, t.given)
  }

  /** One of the two is a prefix of the other. */
  ghost predicate Compatible(x: seq<Entry>, y: seq<Entry>) { x <= y || y <= x }

  predicate CutFrom(m: Message, x: seq<Entry>) {
    && m.Append? && 0 <= m.previousIndex <= m.AppendEnd() <= |x| && m.previousTerm == TermOf(x, m.previousIndex)
    && m.entries == x[m.previousIndex..m.AppendEnd()]
  }

  /**
  What a follower can meet. An append is cut from a log that matches its own and contradicts nothing chosen, and
  does not make it commit a tail it does not share. A snapshot carries the state its sender had reached by applying
  what was chosen, under a label no later than that. The follower compacts no further than it has applied.
  */
  ghost predicate Fits(t: Trail, move: Move) {
    match move
    case Hears(m, x, _) =>
      && CutFrom(m, x) && m.recipient == t.node.name
      && Shaped(x) && LogMatched(x, t.whole.entries) && Compatible(x, t.chosen) && !StraysFrom(x, t.whole.entries, m)
    case Installs(m, x, q, _) =>
      && m.InstallSnapshot? && m.recipient == t.node.name
      && m.snapIndex <= q <= |x| && m.snapTerm == TermOf(x, m.snapIndex) && m.state == Replayed(x, q)
      && Contiguous(x) && Compatible(x[..q], t.chosen)
    case Forgets(upto) => t.node.log.snapshotIndex <= upto <= t.node.lastApplied
  }

  predicate Contiguous(x: seq<Entry>) { forall i :: 0 <= i < |x| ==> x[i].index == i + 1 }

  /** A follower after an append, also one it could not answer because it asks about a compacted position. */
  function AfterAppend(f: NodeState, m: Message, span: int): NodeState
    requires m.Append? && m.recipient == f.name
  {
    match OnAppend(f, m, span)
    case Ok(e) => e.node
    case Err(_) => Heard(f, m.sender, m.term, span)
  }

  /** The whole log takes what the compacted one took. */
  function Wholly(f: NodeState, whole: LogState, m: Message): LogState
    requires m.Append?
  {
    if f.log.Matches(m.previousIndex, m.previousTerm) then TakeAll(whole, m.entries) else whole
  }

  /** What a follower commits beyond all that was chosen so far is chosen from then on. */
  function Chosen(chosen: seq<Entry>, whole: seq<Entry>, commit: int): seq<Entry> {
    if |chosen| < commit <= |whole| then whole[..commit] else chosen
  }

  function Further(x: seq<Entry>, y: seq<Entry>): seq<Entry> { if |x| < |y| then y else x }

  ghost function Moved(t: Trail, move: Move): Trail
    requires Fits(t, move)
  {
    match move
    case Hears(m, _, span) =>
      var node, whole := AfterAppend(t.node, m, span), Wholly(t.node, t.whole, m);
      t.(node := node, whole := whole, chosen := Chosen(t.chosen, whole.entries, node.commitIndex))
    case Installs(m, x, q, span) =>
      var node := OnInstall(t.node, m, span).node;
      if m.snapIndex <= t.node.log.LastIndex() then t.(node := node)
      else Trail(node, RawLog(x[..m.snapIndex], 0, NO_TERM), Further(t.chosen, x[..q]), m.snapIndex, q)
    case Forgets(upto) =>
      var log := t.node.log;
      if log.snapshotIndex <= upto <= log.LastIndex() && log.KnowsTerm(upto)
      then t.(node := t.node.(log := Compact(log, upto, log.TermAt(upto))))
      else t
  }

  ghost predicate AllFit(t: Trail, moves: seq<Move>)
    decreases |moves|
  {
    moves != [] ==> Fits(t, moves[0]) && AllFit(Moved(t, moves[0]), moves[1..])
  }

  ghost function MovedAll(t: Trail, moves: seq<Move>): Trail
    requires AllFit(t, moves)
    decreases |moves|
  {
    if moves == [] then t else MovedAll(Moved(t, moves[0]), moves[1..])
  }

  /* ---- a compacted log takes entries as the whole one does ---- */

  /** No entry contradicts what lies below the boundary. */
  ghost predicate Respects(entries: seq<Entry>, full: LogState, boundary: int) {
    forall k :: 0 <= k < |entries| ==> Respectful(entries[k], full, boundary)
  }

  predicate Respectful(one: Entry, full: LogState, boundary: int) {
    one.index > boundary || (full.Holds(one.index) && full.TermAt(one.index) == one.term)
  }

  lemma TakesOneAlike(log: LogState, full: LogState, one: Entry)
    requires CompactionOf(log, full) && Respectful(one, full, log.snapshotIndex)
    ensures CompactionOf(TakeOne(log, one), TakeOne(full, one)) && TakeOne(log, one).snapshotIndex == log.snapshotIndex
    ensures TakeOne(full, one).entries[..log.snapshotIndex] == full.entries[..log.snapshotIndex]
  {
    hide CompactionOf;
    EndsAlike(log, full);
    var b := log.snapshotIndex;
    BoundaryHeld(log, full);
    if one.index > b {
      AnswersAlike(log, full, one.index, one.term, 0);
      var cut, whole := log, full;
      if log.Holds(one.index) && log.TermAt(one.index) != one.term {
        TruncatesAlike(log, full, one.index);
        cut, whole := Truncated(log, one.index), Truncated(full, one.index);
      }
      EndsAlike(cut, whole);
      if one.index == cut.LastIndex() + 1 { ExtendsAlike(cut, whole, one); }
    }
  }

  lemma BoundaryHeld(log: LogState, full: LogState)
    requires CompactionOf(log, full)
    ensures 0 <= log.snapshotIndex <= |full.entries| && full.snapshotIndex == 0
  {
  }

  lemma ExtendsAlike(log: LogState, full: LogState, one: Entry)
    requires CompactionOf(log, full) && one.index == log.LastIndex() + 1 == full.LastIndex() + 1
    ensures CompactionOf(Extended(log, one), Extended(full, one))
  {
    assert full.entries[log.snapshotIndex..] + [one] == (full.entries + [one])[log.snapshotIndex..];
  }

  lemma {:induction false} TakesAlike(log: LogState, full: LogState, entries: seq<Entry>)
    requires CompactionOf(log, full) && Respects(entries, full, log.snapshotIndex)
    ensures CompactionOf(TakeAll(log, entries), TakeAll(full, entries))
    ensures TakeAll(log, entries).snapshotIndex == log.snapshotIndex
    decreases |entries|
  {
    hide CompactionOf, TakeOne, Respectful;
    if entries != [] {
      var one, rest := entries[0], entries[1..];
      TakesOneAlike(log, full, one);
      forall k | 0 <= k < |rest| ensures Respectful(rest[k], TakeOne(full, one), log.snapshotIndex) {
        assert rest[k] == entries[k + 1];
        RespectsOn(rest[k], full, TakeOne(full, one), log.snapshotIndex, log, TakeOne(log, one));
      }
      TakesAlike(TakeOne(log, one), TakeOne(full, one), rest);
    }
  }

  lemma RespectsOn(one: Entry, full: LogState, full': LogState, b: int, log: LogState, log': LogState)
    requires CompactionOf(log, full) && CompactionOf(log', full') && log.snapshotIndex == log'.snapshotIndex == b
    requires full'.entries[..b] == full.entries[..b]
    requires Respectful(one, full, b)
    ensures Respectful(one, full', b)
  {
    if one.index <= b { assert full.entries[..b][one.index - 1] == full'.entries[..b][one.index - 1]; }
  }

  /* ---- one append ---- */

  /** Below what it has committed, a follower and any log that contradicts nothing chosen are the same. */
  lemma SameBelow(t: Trail, x: seq<Entry>, k: nat)
    requires OnTrack(t) && Compatible(x, t.chosen) && k <= t.node.commitIndex && k <= |x|
    ensures x[..k] == t.whole.entries[..k]
  {
    var c := t.node.commitIndex;
    assert t.whole.entries[..k] == t.whole.entries[..c][..k] == t.chosen[..c][..k] == t.chosen[..k];
  }

  /** An accepted append leaves the whole log as it was or as its sender's up to its end, and keeps what was committed. */
  lemma AcceptedOn(t: Trail, m: Message, x: seq<Entry>, span: int)
    requires OnTrack(t) && Fits(t, Hears(m, x, span))
    requires t.node.log.Matches(m.previousIndex, m.previousTerm)
    ensures var whole := Wholly(t.node, t.whole, m);
            && whole == (if x[..m.AppendEnd()] <= t.whole.entries then t.whole else RawLog(x[..m.AppendEnd()], 0, NO_TERM))
            && CompactionOf(TakeAll(t.node.log, m.entries), whole)
            && TakeAll(t.node.log, m.entries).snapshotIndex == t.node.log.snapshotIndex
            && t.node.commitIndex <= |whole.entries|
            && whole.entries[..t.node.commitIndex] == t.whole.entries[..t.node.commitIndex]
  {
    hide OnTrack, CompactionOf, TakeAll, LogMatched, Shaped, CatchingUp, Compatible, StraysFrom;
    var y, prev, end, c := t.whole.entries, m.previousIndex, m.AppendEnd(), t.node.commitIndex;
    Bounds(t);
    PassesWhole(t, m, x, span);
    TakesPrefix(x, t.whole, prev, end);
    RespectsAll(t, m, x, span);
    TakesAlike(t.node.log, t.whole, m.entries);
    if end < c {
      SameBelow(t, x, end);
    } else {
      SameBelow(t, x, c);
      assert x[..end][..c] == x[..c];
    }
  }

  lemma Bounds(t: Trail)
    requires OnTrack(t)
    ensures CompactionOf(t.node.log, t.whole) && CatchingUp(t.node, t.chosen, t.base, t.given)
    ensures 0 <= t.node.log.snapshotIndex <= t.node.commitIndex == t.node.lastApplied <= |t.whole.entries|
    ensures t.node.commitIndex <= |t.chosen| && t.whole.entries[..t.node.commitIndex] <= t.chosen
  {
  }

  /** What the compacted log lets pass, the whole one does, and it is level with the sender there. */
  lemma PassesWhole(t: Trail, m: Message, x: seq<Entry>, span: int)
    requires OnTrack(t) && Fits(t, Hears(m, x, span))
    requires t.node.log.Matches(m.previousIndex, m.previousTerm)
    ensures m.previousIndex <= |t.whole.entries| && x[..m.previousIndex] == t.whole.entries[..m.previousIndex]
  {
    hide OnTrack, CatchingUp, StraysFrom, Shaped, CompactionOf;
    var y, prev := t.whole.entries, m.previousIndex;
    Bounds(t);
    BoundaryHeld(t.node.log, t.whole);
    AnswersAlike(t.node.log, t.whole, prev, m.previousTerm, 0);
    if prev > 0 {
      assert t.whole.Matches(prev, m.previousTerm);
      assert x[prev - 1].term == y[prev - 1].term;
      assert x[..prev - 1 + 1] == y[..prev - 1 + 1];
    }
  }

  lemma RespectsAll(t: Trail, m: Message, x: seq<Entry>, span: int)
    requires OnTrack(t) && Fits(t, Hears(m, x, span))
    ensures Respects(m.entries, t.whole, t.node.log.snapshotIndex)
  {
    hide OnTrack, CatchingUp, StraysFrom, LogMatched, Compatible, CompactionOf;
    Bounds(t);
    var y, at := t.whole.entries, t.node.log.snapshotIndex;
    forall k | 0 <= k < |m.entries| ensures Respectful(m.entries[k], t.whole, at) {
      var i := m.previousIndex + k;
      assert m.entries[k] == x[i] && x[i].index == i + 1;
      if i < at {
        SameBelow(t, x, i + 1);
        assert x[i] == x[..i + 1][i] == y[..i + 1][i] == y[i];
      }
    }
  }

  /** Committing more of the whole log, where that is chosen, keeps a follower on track. */
  lemma CommitsOn(f: NodeState, whole: LogState, chosen: seq<Entry>, b: nat, q: nat)
    requires CompactionOf(f.log, whole) && f.log.snapshotIndex <= f.lastApplied <= f.commitIndex <= |whole.entries|
    requires whole.entries[..f.commitIndex] <= chosen && CatchingUp(f, chosen, b, q)
    ensures OnTrack(Trail(ApplyCommitted(f), whole, chosen, b, q))
  {
    GoesOnCatchingUp(f, whole, chosen, b, q);
  }

  lemma ChosenGrows(x: seq<Entry>, chosen: seq<Entry>, whole: seq<Entry>, commit: nat)
    requires commit <= |whole| && Compatible(x, chosen) && whole[..commit] <= x
    ensures chosen <= Chosen(chosen, whole, commit) && whole[..commit] <= Chosen(chosen, whole, commit)
  {
    if x <= chosen {
      PrefixTrans(whole[..commit], x, chosen);
    } else {
      PrefixesCompare(whole[..commit], chosen, x);
      PrefixesCompare(chosen, whole[..commit], x);
    }
  }

  lemma RefusedOn(t: Trail, m: Message, span: int)
    requires OnTrack(t) && m.Append? && m.recipient == t.node.name
    requires !t.node.log.Matches(m.previousIndex, m.previousTerm)
    ensures Alike(t.node, AfterAppend(t.node, m, span))
  {
    HeardSame(t.node, m.sender, m.term, span);
  }

  lemma HeardSame(s: NodeState, from: Name, term: Term, span: int)
    ensures Alike(s, Heard(s, from, term, span))
  {
  }

  lemma AlikeOnTrack(t: Trail, g: NodeState)
    requires OnTrack(t) && Alike(t.node, g)
    ensures OnTrack(t.(node := g))
  {
  }

  lemma HearsOn(t: Trail, m: Message, x: seq<Entry>, span: int)
    requires OnTrack(t) && Fits(t, Hears(m, x, span))
    ensures OnTrack(Moved(t, Hears(m, x, span))) && t.chosen <= Moved(t, Hears(m, x, span)).chosen
  {
    hide OnTrack, CompactionOf, CatchingUp, TakeAll, LogMatched, Shaped, Heard, ApplyCommitted, StraysFrom, Compatible;
    Bounds(t);
    if !t.node.log.Matches(m.previousIndex, m.previousTerm) {
      RefusedOn(t, m, span);
      AlikeOnTrack(t, AfterAppend(t.node, m, span));
    } else {
      HeardSame(t.node, m.sender, m.term, span);
      AcceptedOn(t, m, x, span);
      var taken := Heard(t.node, m.sender, m.term, span).(log := TakeAll(t.node.log, m.entries));
      TakesOn(t, m, x, span, taken);
    }
  }

  /** Whatever the append announces, a follower that took it commits only what is then chosen. */
  lemma TakesOn(t: Trail, m: Message, x: seq<Entry>, span: int, taken: NodeState)
    requires OnTrack(t) && Fits(t, Hears(m, x, span)) && t.node.log.Matches(m.previousIndex, m.previousTerm)
    requires taken.log == TakeAll(t.node.log, m.entries) && Alike(t.node, taken.(log := t.node.log))
    ensures var whole := Wholly(t.node, t.whole, m);
            var end := if m.commitIndex > taken.commitIndex
                       then ApplyCommitted(taken.(commitIndex := Min(m.commitIndex, taken.log.LastIndex()))) else taken;
            && t.chosen <= Chosen(t.chosen, whole.entries, end.commitIndex)
            && OnTrack(t.(node := end, whole := whole, chosen := Chosen(t.chosen, whole.entries, end.commitIndex)))
  {
    hide OnTrack, CompactionOf, TakeAll, LogMatched, Shaped, CatchingUp, ApplyCommitted, Compatible;
    Bounds(t);
    AcceptedOn(t, m, x, span);
    var whole := Wholly(t.node, t.whole, m);
    EndsAlike(taken.log, whole);
    if m.commitIndex > taken.commitIndex {
      var c := Min(m.commitIndex, |whole.entries|);
      StraysOnTaking(x, t.whole.entries, m);
      ChosenGrows(x, t.chosen, whole.entries, c);
      var chosen' := Chosen(t.chosen, whole.entries, c);
      LongerLog(t.node, t.chosen, chosen', t.base, t.given);
      SameCatching(t.node, taken.(commitIndex := c), chosen', t.base, t.given);
      CommitsOn(taken.(commitIndex := c), whole, chosen', t.base, t.given);
    } else {
      SameCatching(t.node, taken, t.chosen, t.base, t.given);
      Tracks(t.(node := taken, whole := whole));
    }
  }

  lemma SameCatching(f: NodeState, g: NodeState, chosen: seq<Entry>, b: nat, q: nat)
    requires CatchingUp(f, chosen, b, q) && g.lastApplied == f.lastApplied && g.state == f.state
    ensures CatchingUp(g, chosen, b, q)
  {
  }

  lemma Tracks(t: Trail)
    requires CompactionOf(t.node.log, t.whole) && CatchingUp(t.node, t.chosen, t.base, t.given)
    requires t.node.log.snapshotIndex <= t.node.commitIndex == t.node.lastApplied <= |t.whole.entries|
    requires t.whole.entries[..t.node.commitIndex] <= t.chosen
    ensures OnTrack(t)
  {
  }

  lemma ForgetsOn(t: Trail, upto: nat)
    requires OnTrack(t) && Fits(t, Forgets(upto))
    ensures OnTrack(Moved(t, Forgets(upto))) && Moved(t, Forgets(upto)).chosen == t.chosen
    ensures Moved(t, Forgets(upto)).node.log.snapshotIndex == upto
  {
    EndsAlike(t.node.log, t.whole);
    CompactsAgain(t.node.log, t.whole, upto);
  }

  /* ---- one snapshot ---- */

  /** A snapshot of what a follower already holds leaves it where it is; any other puts it on its own track. */
  lemma InstallsOn(t: Trail, m: Message, x: seq<Entry>, q: nat, span: int)
    requires OnTrack(t) && Fits(t, Installs(m, x, q, span))
    ensures OnTrack(Moved(t, Installs(m, x, q, span))) && t.chosen <= Moved(t, Installs(m, x, q, span)).chosen
  {
    var t' := Moved(t, Installs(m, x, q, span));
    if m.snapIndex > t.node.log.LastIndex() {
      var b := m.snapIndex;
      assert x[..b][b..] == [] && t'.chosen[b..b] == [];
      assert x[..q] <= t'.chosen && x[..b] <= t'.chosen;
      assert t'.chosen[..q] == x[..q];
    }
  }

  /* ---- ever after ---- */

  lemma {:induction false} StaysOnTrack(t: Trail, moves: seq<Move>)
    requires OnTrack(t) && AllFit(t, moves)
    ensures OnTrack(MovedAll(t, moves)) && t.chosen <= MovedAll(t, moves).chosen
    decreases |moves|
  {
    hide OnTrack, Moved, Fits;
    if moves != [] {
      match moves[0] {
        case Hears(m, x, span) => HearsOn(t, m, x, span);
        case Installs(m, x, q, span) => InstallsOn(t, m, x, q, span);
        case Forgets(upto) => ForgetsOn(t, upto);
      }
      var t' := Moved(t, moves[0]);
      StaysOnTrack(t', moves[1..]);
      PrefixTrans(t.chosen, t'.chosen, MovedAll(t', moves[1..]).chosen);
    }
  }

  /** A follower that has just taken the leader's snapshot, with what the leader had applied as what is chosen. */
  ghost function Installed(s: NodeState, f: NodeState, full: LogState, span: int): Trail
    requires s.name != f.name && ReplicateTo(s, f.name).InstallSnapshot? && ReplicateTo(s, f.name).recipient == f.name
    requires 0 <= s.log.snapshotIndex <= s.lastApplied <= |full.entries|
  {
    Trail(OnInstall(f, ReplicateTo(s, f.name), span).node, full.(entries := full.entries[..s.log.snapshotIndex]),
          full.entries[..s.lastApplied], s.log.snapshotIndex, s.lastApplied)
  }

  lemma BeginsOnTrack(s: NodeState, f: NodeState, full: LogState, span: int)
    requires s.name != f.name && CompactionOf(s.log, full)
    requires s.log.snapshotIndex <= s.lastApplied <= |full.entries| && s.state == Replayed(full.entries, s.lastApplied)
    requires StartFor(s, f.name) <= s.log.snapshotIndex && s.log.snapshotIndex > f.log.LastIndex()
    ensures ReplicateTo(s, f.name).InstallSnapshot? && ReplicateTo(s, f.name).recipient == f.name
    ensures OnTrack(Installed(s, f, full, span))
  {
    hide OnInstall, ReplicateTo;
    InstallBegins(s, f, full, span);
    var x, b, q := full.entries, s.log.snapshotIndex, s.lastApplied;
    assert x[..q][..q] == x[..q] && x[..q][b..b] == x[b..b] && x[..b][..b] <= x[..q];
  }

  /**
  It has applied a prefix of what is chosen, and where that reaches as far as the sender of its last snapshot had
  applied, its state is what replaying that prefix from nothing leads to.
  */
  ghost predicate Correct(t: Trail) {
    && CompactionOf(t.node.log, t.whole)
    && 0 <= t.node.lastApplied == t.node.commitIndex <= |t.whole.entries|
    && t.node.commitIndex <= |t.chosen| && t.whole.entries[..t.node.commitIndex] <= t.chosen
    && (t.node.lastApplied >= t.given ==> t.node.state == Replayed(t.chosen, t.node.lastApplied))
  }

  /**
  Install once, correct ever after. From the moment a follower takes a snapshot, through any appends and snapshots in
  any order, late ones too, and any compactions of its own, what it applies is a prefix of what is chosen, which never
  shrinks and starts with what the snapshot's sender had applied; and from the applied index of the last snapshot it
  took on, its state is exactly what replaying that prefix from nothing leads to.
  */
  lemma CaughtUpForGood(s: NodeState, f: NodeState, full: LogState, span: int, moves: seq<Move>)
    requires s.name != f.name && CompactionOf(s.log, full)
    requires s.log.snapshotIndex <= s.lastApplied <= |full.entries| && s.state == Replayed(full.entries, s.lastApplied)
    requires StartFor(s, f.name) <= s.log.snapshotIndex && s.log.snapshotIndex > f.log.LastIndex()
    requires ReplicateTo(s, f.name).InstallSnapshot? && ReplicateTo(s, f.name).recipient == f.name
    requires AllFit(Installed(s, f, full, span), moves)
    ensures Correct(MovedAll(Installed(s, f, full, span), moves))
    ensures Installed(s, f, full, span).chosen <= MovedAll(Installed(s, f, full, span), moves).chosen
  {
    hide AllFit, MovedAll, OnInstall, ReplicateTo, Replayed;
    BeginsOnTrack(s, f, full, span);
    StaysOnTrack(Installed(s, f, full, span), moves);
    var end := MovedAll(Installed(s, f, full, span), moves);
    CaughtUp(end.node, end.chosen, end.base, end.given);
  }

  /**
  Nothing a follower has is taken back: through all of that its log never gets shorter than it was committed, and
  its commit index and what it has applied never fall.
  */
  lemma {:induction false} NothingTakenBack(t: Trail, moves: seq<Move>)
    requires OnTrack(t) && AllFit(t, moves)
    ensures var end := MovedAll(t, moves);
            && end.node.commitIndex >= t.node.commitIndex && end.node.lastApplied >= t.node.lastApplied
            && end.node.log.LastIndex() >= t.node.commitIndex
            && t.chosen <= end.chosen
            && t.whole.entries[..t.node.commitIndex] <= end.chosen
    decreases |moves|
  {
    hide OnTrack, Moved, Fits, CompactionOf, CatchingUp;
    StaysOnTrack(t, moves);
    Bounds(t);
    if moves == [] {
      EndsAlike(t.node.log, t.whole);
    } else {
      MoveKeeps(t, moves[0]);
      NothingTakenBack(Moved(t, moves[0]), moves[1..]);
    }
    PrefixTrans(t.whole.entries[..t.node.commitIndex], t.chosen, MovedAll(t, moves).chosen);
  }

  lemma MoveKeeps(t: Trail, move: Move)
    requires OnTrack(t) && Fits(t, move)
    ensures OnTrack(Moved(t, move)) && Moved(t, move).node.commitIndex >= t.node.commitIndex
    ensures Moved(t, move).node.lastApplied >= t.node.lastApplied
  {
    hide CompactionOf, CatchingUp, TakeAll, ApplyCommitted, Heard, Replayed, LogMatched, Shaped, Compatible, StraysFrom;
    Bounds(t);
    EndsAlike(t.node.log, t.whole);
    match move
    case Hears(m, x, span) =>
      HearsOn(t, m, x, span);
      HeardSame(t.node, m.sender, m.term, span);
      if t.node.log.Matches(m.previousIndex, m.previousTerm) { AcceptedEnds(t, m, x, span); }
    case Installs(m, x, q, span) => InstallsOn(t, m, x, q, span);
    case Forgets(upto) => ForgetsOn(t, upto);
  }

  lemma AcceptedEnds(t: Trail, m: Message, x: seq<Entry>, span: int)
    requires OnTrack(t) && Fits(t, Hears(m, x, span)) && t.node.log.Matches(m.previousIndex, m.previousTerm)
    ensures TakeAll(t.node.log, m.entries).LastIndex() >= t.node.commitIndex
  {
    hide TakeAll, CompactionOf;
    AcceptedOn(t, m, x, span);
    EndsAlike(TakeAll(t.node.log, m.entries), Wholly(t.node, t.whole, m));
  }
}
