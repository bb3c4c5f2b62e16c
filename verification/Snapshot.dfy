/**
Compaction (rsm/snapshot.py over rsm/log.py): a compacted log answers as the whole one would, and a follower
brought up by a snapshot ends in the state it would have reached by replaying everything.
*/
module Snapshots {
  import opened Basics
  import opened Logs
  import opened Rpc
  import opened NodeSpec
  import opened Nodes
  import opened Invariant
  import opened Commit

  /* ---- the compacted log ---- */

  /** `compact`: only entries above an index are kept, and the boundary remembers its term. */
  function Compact(log: LogState, upto: nat, term: nat): LogState
    requires log.snapshotIndex <= upto <= log.LastIndex()
  {
    RawLog(log.entries[upto - log.snapshotIndex..], upto, term)
  }

  method CompactLog(log: Log, upto: nat, term: nat) returns (r: Result<nat>)
    requires log.Valid()
    modifies log
    ensures log.Valid()
    ensures upto < old(log.snapshotIndex) ==> r == Err(ConfigError) && log.View() == old(log.View())
    ensures upto > old(log.View()).LastIndex() ==> r == Err(LogError) && log.View() == old(log.View())
    ensures old(log.snapshotIndex) <= upto <= old(log.View()).LastIndex() ==>
              log.View() == Compact(old(log.View()), upto, term) && r == Ok(upto - old(log.snapshotIndex))
  {
    if upto < log.snapshotIndex { return Err(ConfigError); }
    if upto > log.View().LastIndex() { return Err(LogError); }
    var going, keep := 0, [];
    for i := 0 to |log.entries|
      invariant going == Min(i, upto - log.snapshotIndex)
      invariant keep == log.entries[Min(i, upto - log.snapshotIndex)..i]
    {
      if log.entries[i].index <= upto { going := going + 1; } else { keep := keep + [log.entries[i]]; }
    }
    assert keep == log.entries[upto - log.snapshotIndex..];
    log.entries := keep;
    log.snapshotIndex := upto;
    log.snapshotTerm := term;
    r := Ok(going);
  }

  /** `log` is what is left of `full`, which never forgot anything. */
  ghost predicate CompactionOf(log: LogState, full: LogState) {
    && full.snapshotIndex == 0 && full.snapshotTerm == NO_TERM
    && log.snapshotIndex <= |full.entries|
    && log.entries == full.entries[log.snapshotIndex..]
    && log.snapshotTerm == TermOf(full.entries, log.snapshotIndex)
  }

  /** What the consistency check, the election restriction and replication ask, a compacted log answers as the whole one. */
  lemma AnswersAlike(log: LogState, full: LogState, index: int, term: int, stop: int)
    requires CompactionOf(log, full)
    ensures log.LastIndex() == full.LastIndex() && log.LastTerm() == full.LastTerm()
    ensures log.IsUpToDate(index, term) == full.IsUpToDate(index, term)
    ensures index >= log.snapshotIndex || index <= NO_INDEX ==>
              && log.KnowsTerm(index) == full.KnowsTerm(index)
              && (log.KnowsTerm(index) ==> log.TermAt(index) == full.TermAt(index))
              && log.Matches(index, term) == full.Matches(index, term)
    ensures index > log.snapshotIndex ==>
              && log.Holds(index) == full.Holds(index) && (log.Holds(index) ==> log.At(index) == full.At(index))
              && log.Slice(index, stop) == full.Slice(index, stop)
    // strictly inside the snapshot the compacted log refuses to answer, or answers no
    ensures NO_INDEX < index < log.snapshotIndex ==> !log.KnowsTerm(index) && !log.Matches(index, term)
  {
    EndsAlike(log, full);
    if index > log.snapshotIndex { SlicesAlike(log, full, index, stop); }
  }

  lemma EndsAlike(log: LogState, full: LogState)
    requires CompactionOf(log, full)
    ensures log.LastIndex() == full.LastIndex() == |full.entries| && log.LastTerm() == full.LastTerm()
  {
  }

  lemma SlicesAlike(log: LogState, full: LogState, start: int, stop: int)
    requires CompactionOf(log, full) && start > log.snapshotIndex
    ensures log.Slice(start, stop) == full.Slice(start, stop)
  {
    EndsAlike(log, full);
    var end := Min(stop, |full.entries|);
    if end >= start {
      assert full.entries[log.snapshotIndex..][start - log.FirstIndex()..end + 1 - log.FirstIndex()]
          == full.entries[start - 1..end];
    }
  }

  /* ---- any sequence of operations ---- */

  datatype Edit = AppendEntries(entries: seq<Entry>) | TruncateFrom(index: int) | CompactTo(upto: nat)

  /** An edit that stays above the boundary. */
  predicate Legal(log: LogState, edit: Edit) {
    match edit
    case AppendEntries(_) => true
    case TruncateFrom(index) => index > log.snapshotIndex
    case CompactTo(upto) => log.snapshotIndex <= upto <= log.LastIndex()
  }

  /** What an edit leaves and what it raised. The log that never forgets ignores compaction. */
  function Edited(log: LogState, edit: Edit, forgets: bool): (LogState, Option<Error>) {
    match edit
    case AppendEntries(entries) => AppendAll(log, entries)
    case TruncateFrom(index) =>
      if index <= log.snapshotIndex then (log, Some(Compacted))
      else if index > log.LastIndex() then (log, None)
      else (Truncated(log, index), None)
    case CompactTo(upto) =>
      if forgets && log.snapshotIndex <= upto <= log.LastIndex() && log.KnowsTerm(upto)
      then (Compact(log, upto, log.TermAt(upto)), None)
      else (log, None)
  }

  lemma {:induction false} AppendsAlike(log: LogState, full: LogState, entries: seq<Entry>)
    requires CompactionOf(log, full)
    ensures var (log', raised), (full', raised') := AppendAll(log, entries), AppendAll(full, entries);
            CompactionOf(log', full') && raised == raised'
    decreases |entries|
  {
    EndsAlike(log, full);
    if entries != [] && AppendOne(log, entries[0]).Ok? {
      var one := entries[0];
      assert full.entries[log.snapshotIndex..] + [one] == (full.entries + [one])[log.snapshotIndex..];
      AppendsAlike(Extended(log, one), Extended(full, one), entries[1..]);
    }
  }

  lemma EditsAlike(log: LogState, full: LogState, edit: Edit)
    requires CompactionOf(log, full) && Legal(log, edit)
    ensures var (log', raised), (full', raised') := Edited(log, edit, true), Edited(full, edit, false);
            CompactionOf(log', full') && raised == raised'
  {
    hide AppendAll;
    EndsAlike(log, full);
    match edit
    case AppendEntries(entries) => AppendsAlike(log, full, entries);
    case TruncateFrom(index) => if index <= log.LastIndex() { TruncatesAlike(log, full, index); }
    case CompactTo(upto) => CompactsAgain(log, full, upto);
  }

  lemma TruncatesAlike(log: LogState, full: LogState, index: int)
    requires CompactionOf(log, full) && log.snapshotIndex < index <= log.LastIndex()
    ensures log.Holds(index) && full.Holds(index)
    ensures CompactionOf(Truncated(log, index), Truncated(full, index))
  {
    EndsAlike(log, full);
    var b := log.snapshotIndex;
    assert full.entries[b..][..index - log.FirstIndex()] == full.entries[..index - 1][b..];
  }

  lemma CompactsAgain(log: LogState, full: LogState, upto: nat)
    requires CompactionOf(log, full) && log.snapshotIndex <= upto <= log.LastIndex()
    ensures log.KnowsTerm(upto) && CompactionOf(Compact(log, upto, log.TermAt(upto)), full)
  {
    EndsAlike(log, full);
    assert full.entries[log.snapshotIndex..][upto - log.snapshotIndex..] == full.entries[upto..];
  }

  /** Every edit legal when its turn comes. */
  ghost predicate AllLegal(log: LogState, edits: seq<Edit>)
    decreases |edits|
  {
    edits != [] ==> Legal(log, edits[0]) && AllLegal(Edited(log, edits[0], true).0, edits[1..])
  }

  function EditedAll(log: LogState, edits: seq<Edit>, forgets: bool): (LogState, seq<Option<Error>>)
    decreases |edits|
  {
    if edits == [] then (log, [])
    else
      var (log', raised) := Edited(log, edits[0], forgets);
      var (last, rest) := EditedAll(log', edits[1..], forgets);
      (last, [raised] + rest)
  }

  /**
  Compaction refines the log: under any legal sequence of appends, truncations and compactions the compacted log
  raises exactly what the whole log would and stays a compaction of it, so it goes on answering as it would.
  */
  lemma {:induction false} CompactionRefines(log: LogState, full: LogState, edits: seq<Edit>)
    requires CompactionOf(log, full) && AllLegal(log, edits)
    ensures CompactionOf(EditedAll(log, edits, true).0, EditedAll(full, edits, false).0)
    ensures EditedAll(log, edits, true).1 == EditedAll(full, edits, false).1
    decreases |edits|
  {
    if edits != [] {
      EditsAlike(log, full, edits[0]);
      CompactionRefines(Edited(log, edits[0], true).0, Edited(full, edits[0], false).0, edits[1..]);
    }
  }

  /* ---- replaying a suffix twice ---- */

  /** The last value a key was set to, if it was set. */
  function LastSet(entries: seq<Entry>, key: string): Option<Value> {
    if entries == [] then None
    else
      match entries[|entries| - 1].command
      case SetKey(k, value) => if k == key then Some(value) else LastSet(entries[..|entries| - 1], key)
      case _ => LastSet(entries[..|entries| - 1], key)
  }

  function Lookup(state: map<string, Value>, key: string): Option<Value> {
    if key in state then Some(state[key]) else None
  }

  /** Replay decides each key by its last set, and leaves the others. */
  lemma {:induction false} ReplayDecides(state: map<string, Value>, entries: seq<Entry>, key: string)
    ensures Lookup(Folded(state, entries), key) ==
            if LastSet(entries, key).Some? then LastSet(entries, key) else Lookup(state, key)
  {
    if entries != [] { ReplayDecides(state, entries[..|entries| - 1], key); }
  }

  lemma SameLookups(a: map<string, Value>, b: map<string, Value>)
    requires forall key :: Lookup(a, key) == Lookup(b, key)
    ensures a == b
  {
    forall key ensures key in a <==> key in b { assert Lookup(a, key) == Lookup(b, key); }
    forall key | key in a ensures a[key] == b[key] { assert Lookup(a, key) == Lookup(b, key); }
  }

  /** Replaying entries a state already has the effect of changes nothing. */
  lemma ReplayTwice(state: map<string, Value>, early: seq<Entry>, late: seq<Entry>)
    ensures Folded(Folded(state, early + late), late) == Folded(state, early + late)
  {
    FoldedOn(state, early, late);
    forall key ensures Lookup(Folded(Folded(state, early + late), late), key) == Lookup(Folded(state, early + late), key) {
      ReplayDecides(Folded(state, early + late), late, key);
      ReplayDecides(Folded(state, early), late, key);
    }
    SameLookups(Folded(Folded(state, early + late), late), Folded(state, early + late));
  }

  /* ---- catching up from a snapshot ---- */

  /** The state after the first `k` entries, replayed from nothing. */
  function Replayed(full: seq<Entry>, k: nat): map<string, Value>
    requires k <= |full|
  {
    Folded(map[], full[..k])
  }

  /**
  A follower that was given the leader's state at `q` under the label `b`, and has applied the log from `b`
  to where it is.
  */
  ghost predicate CatchingUp(f: NodeState, full: seq<Entry>, b: nat, q: nat) {
    && b <= q <= |full| && b <= f.lastApplied <= |full|
    && f.state == Folded(Replayed(full, q), full[b..f.lastApplied])
  }

  /** A leader whose log has been compacted sends its state under the label of its snapshot, not of what it has applied. */
  lemma InstallBegins(s: NodeState, f: NodeState, full: LogState, span: int)
    requires s.name != f.name && CompactionOf(s.log, full)
    requires s.log.snapshotIndex <= s.lastApplied <= |full.entries| && s.state == Replayed(full.entries, s.lastApplied)
    requires StartFor(s, f.name) <= s.log.snapshotIndex
    requires s.log.snapshotIndex > f.log.LastIndex()
    ensures var m := ReplicateTo(s, f.name);
            && m.InstallSnapshot? && m.recipient == f.name
            && var f' := OnInstall(f, m, span).node;
               && CatchingUp(f', full.entries, s.log.snapshotIndex, s.lastApplied)
               && f'.log.LastIndex() == f'.lastApplied == f'.commitIndex == s.log.snapshotIndex
               && CompactionOf(f'.log, full.(entries := full.entries[..s.log.snapshotIndex]))
  {
    var b := s.log.snapshotIndex;
    assert full.entries[..b][b..] == [];
    assert full.entries[b..b] == [];
  }

  /**
  What a leader sends does not depend on how much it has compacted, as long as it still holds what the follower needs
  next; and when it does not, it sends its snapshot.
  */
  lemma SendsAlike(s: NodeState, full: LogState, to: Name)
    requires to != s.name && CompactionOf(s.log, full)
    ensures StartFor(s, to) == StartFor(s.(log := full), to)
    ensures StartFor(s, to) > s.log.snapshotIndex ==> ReplicateTo(s, to) == ReplicateTo(s.(log := full), to)
    ensures StartFor(s, to) <= s.log.snapshotIndex ==>
              ReplicateTo(s, to) == InstallSnapshot(s.name, to, s.term, s.log.snapshotIndex,
                                                    TermOf(full.entries, s.log.snapshotIndex), s.state, s.members)
  {
    EndsAlike(s.log, full);
    if StartFor(s, to) > s.log.snapshotIndex { AppendsSent(s, full, to); }
  }

  lemma AppendsSent(s: NodeState, full: LogState, to: Name)
    requires to != s.name && CompactionOf(s.log, full) && StartFor(s, to) > s.log.snapshotIndex
    requires s.log.LastIndex() == full.LastIndex() && full.snapshotIndex == 0
    ensures ReplicateTo(s, to) == ReplicateTo(s.(log := full), to)
  {
    hide CompactionOf;
    var start := StartFor(s, to);
    assert StartFor(s.(log := full), to) == start;
    AnswersAlike(s.log, full, start - 1, 0, 0);
    SlicesAlike(s.log, full, start, start + s.maxBatch - 1);
  }

  /** Applying what a compacted log holds between two indices is replaying that part of the whole log. */
  lemma {:induction false} AppliesRange(s: NodeState, full: LogState)
    requires CompactionOf(s.log, full) && s.log.snapshotIndex <= s.lastApplied <= s.commitIndex <= |full.entries|
    ensures var r := ApplyCommitted(s);
            && r.lastApplied == s.commitIndex
            && r.applied == s.applied + full.entries[s.lastApplied..s.commitIndex]
            && r.state == Folded(s.state, full.entries[s.lastApplied..s.commitIndex])
    decreases s.commitIndex - s.lastApplied
  {
    hide CompactionOf, Folded, ApplyCommand;
    var x, i, c := full.entries, s.lastApplied, s.commitIndex;
    if i < c {
      AppliesOne(s, full);
      var s' := AppliedOne(s, x[i]);
      AppliesRange(s', full);
      assert x[i..c] == [x[i]] + x[i + 1..c];
      FoldedFrom(s.state, x[i], x[i + 1..c]);
    } else {
      assert x[i..c] == [];
      FoldedNone(s.state);
    }
  }

  lemma FoldedNone(state: map<string, Value>)
    ensures Folded(state, []) == state
  {
  }

  function AppliedOne(s: NodeState, one: Entry): NodeState {
    s.(lastApplied := s.lastApplied + 1, applied := s.applied + [one], state := ApplyCommand(s.state, one.command))
  }

  lemma AppliesOne(s: NodeState, full: LogState)
    requires CompactionOf(s.log, full) && s.log.snapshotIndex <= s.lastApplied < s.commitIndex <= |full.entries|
    ensures ApplyCommitted(s) == ApplyCommitted(AppliedOne(s, full.entries[s.lastApplied]))
  {
    hide ApplyCommand, CompactionOf;
    var i := s.lastApplied + 1;
    HeldAlike(s.log, full, i);
    var one := s.log.At(i);
    assert AppliedOne(s, one) == s.(lastApplied := i).(applied := s.applied + [one], state := ApplyCommand(s.state, one.command));
  }

  lemma HeldAlike(log: LogState, full: LogState, i: int)
    requires CompactionOf(log, full) && log.snapshotIndex < i <= |full.entries|
    ensures log.Holds(i) && log.At(i) == full.entries[i - 1]
  {
  }

  lemma FoldedFrom(state: map<string, Value>, one: Entry, rest: seq<Entry>)
    ensures Folded(state, [one] + rest) == Folded(ApplyCommand(state, one.command), rest)
  {
    FoldedOn(state, [one], rest);
    assert [one][..0] == [];
    assert Folded(state, [one]) == ApplyCommand(Folded(state, [one][..0]), one.command);
  }

  /** Applying more of its log, as far as that is what was chosen, keeps a follower on the way. */
  lemma GoesOnCatchingUp(f: NodeState, full: LogState, chosen: seq<Entry>, b: nat, q: nat)
    requires CatchingUp(f, chosen, b, q)
    requires CompactionOf(f.log, full) && f.log.snapshotIndex <= f.lastApplied <= f.commitIndex <= |full.entries|
    requires full.entries[..f.commitIndex] <= chosen
    ensures CatchingUp(ApplyCommitted(f), chosen, b, q) && ApplyCommitted(f).lastApplied == f.commitIndex
  {
    hide CompactionOf, ApplyCommitted, Folded;
    AppliesRange(f, full);
    var x, k, c := full.entries, f.lastApplied, f.commitIndex;
    assert x[k..c] == x[..c][k..] == chosen[..c][k..] == chosen[k..c];
    assert chosen[b..c] == chosen[b..k] + chosen[k..c];
    FoldedOn(Replayed(chosen, q), chosen[b..k], chosen[k..c]);
  }

  /** The log going on beyond what it was changes nothing about the catching up. */
  lemma LongerLog(f: NodeState, full: seq<Entry>, longer: seq<Entry>, b: nat, q: nat)
    requires CatchingUp(f, full, b, q) && full <= longer
    ensures CatchingUp(f, longer, b, q)
  {
    assert longer[..q] == full[..q] && longer[b..f.lastApplied] == full[b..f.lastApplied];
  }

  /**
  Once it has applied as far as the leader had when it sent the snapshot, and ever after, a follower that was
  caught up by a snapshot is in exactly the state a full replay leads to. Before that it is so exactly when
  every key it has not itself set since the boundary still has the value the leader later gave it.
  */
  lemma CaughtUp(f: NodeState, full: seq<Entry>, b: nat, q: nat)
    requires CatchingUp(f, full, b, q)
    ensures f.lastApplied >= q ==> f.state == Replayed(full, f.lastApplied)
    ensures f.state == Replayed(full, f.lastApplied) <==>
            forall key :: LastSet(full[b..f.lastApplied], key).None? ==>
              Lookup(Replayed(full, q), key) == Lookup(Replayed(full, f.lastApplied), key)
  {
    var k := f.lastApplied;
    if k >= q {
      ReplayTwice(map[], full[..b], full[b..q]);
      assert full[..q] == full[..b] + full[b..q] && full[..k] == full[..q] + full[q..k] && full[b..k] == full[b..q] + full[q..k];
      FoldedOn(Replayed(full, q), full[b..q], full[q..k]);
      FoldedOn(map[], full[..q], full[q..k]);
    }
    assert full[..k] == full[..b] + full[b..k];
    FoldedOn(map[], full[..b], full[b..k]);
    forall key ensures LastSet(full[b..k], key).Some? ==> Lookup(f.state, key) == Lookup(Replayed(full, k), key)
    ensures LastSet(full[b..k], key).None? ==> Lookup(f.state, key) == Lookup(Replayed(full, q), key)
    {
      ReplayDecides(Replayed(full, q), full[b..k], key);
      ReplayDecides(Replayed(full, b), full[b..k], key);
    }
    if forall key :: LastSet(full[b..k], key).None? ==> Lookup(Replayed(full, q), key) == Lookup(Replayed(full, k), key) {
      SameLookups(f.state, Replayed(full, k));
    }
  }

  /* ---- taking and restoring ---- */

  datatype Snapshot = Snapshot(lastIndex: nat, lastTerm: nat, state: map<string, Value>, members: seq<Name>)

  /** What a snapshot of a node holds: state, index and term together, or the error of reading that term. */
  function Captured(s: NodeState): Result<Snapshot> {
    if s.lastApplied < NO_INDEX then Err(ConfigError)
    else if s.lastApplied == NO_INDEX then Ok(Snapshot(NO_INDEX, NO_TERM, s.state, s.members))
    else if !s.log.KnowsTerm(s.lastApplied) then
      Err(if s.lastApplied < s.log.snapshotIndex then Compacted else NotFound)
    else if s.log.TermAt(s.lastApplied) < 1 then Err(ConfigError)
    else Ok(Snapshot(s.lastApplied, s.log.TermAt(s.lastApplied), s.state, s.members))
  }

  /** There is a snapshot exactly where the term of the last applied entry is known, and it says just what was applied. */
  lemma CapturedExactly(s: NodeState)
    requires s.log.snapshotIndex == 0 || s.log.snapshotTerm >= 1
    ensures Captured(s).Ok? <==> s.lastApplied >= 0 && s.log.KnowsTerm(s.lastApplied)
    ensures Captured(s).Ok? ==>
              var made := Captured(s).value;
              && made.lastIndex == s.lastApplied && made.lastTerm == s.log.TermAt(s.lastApplied)
              && made.state == s.state && made.members == s.members
  {
    if s.lastApplied > NO_INDEX && s.log.Holds(s.lastApplied) { assert s.log.At(s.lastApplied).term >= 1; }
  }

  method Take(node: Node) returns (r: Result<Snapshot>)
    requires node.Valid()
    ensures r == Captured(node.View())
  {
    var applied := node.lastApplied;
    var term := NO_TERM;
    if applied > NO_INDEX { term :- node.log.TermAt(applied); }
    if applied < NO_INDEX { return Err(ConfigError); }
    if applied > NO_INDEX && term < 1 { return Err(ConfigError); }
    r := Ok(Snapshot(applied, term, node.state, node.members));
  }

  method Restore(node: Node, made: Snapshot)
    requires node.Valid()
    modifies node
    ensures node.Valid() && fresh(node.log)
    ensures node.View() == old(node.View()).(log := RawLog([], made.lastIndex, made.lastTerm), state := made.state,
                                             commitIndex := made.lastIndex, lastApplied := made.lastIndex)
  {
    node.ReplaceLog(made.lastIndex, made.lastTerm, made.state);
  }

  /** A snapshot restored anywhere stands for exactly the prefix its source had applied, state and boundary together. */
  lemma RestoresPrefix(s: NodeState, f: NodeState, full: LogState)
    requires CompactionOf(s.log, full) && s.log.snapshotIndex <= s.lastApplied <= |full.entries|
    requires s.state == Replayed(full.entries, s.lastApplied)
    ensures Captured(s).Ok?
    ensures var made, q := Captured(s).value, s.lastApplied;
            var f' := f.(log := RawLog([], made.lastIndex, made.lastTerm), state := made.state,
                         commitIndex := made.lastIndex, lastApplied := made.lastIndex);
            && made.lastIndex == q && CompactionOf(f'.log, full.(entries := full.entries[..q]))
            && CatchingUp(f', full.entries, q, q)
  {
    var x, q := full.entries, s.lastApplied;
    EndsAlike(s.log, full);
    assert x[..q][q..] == [] && x[q..q] == [];
  }
}
