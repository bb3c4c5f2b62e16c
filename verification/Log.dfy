/** The replicated log (rsm/log.py): its value, and the class that edits it in place. */
module Logs {
  import opened Basics

  /** What an entry carries: nothing (the election entry), a `("set", key, value)`, or anything else. */
  datatype Command = NoOp | SetKey(key: string, value: Value) | Opaque(payload: Value)

  datatype Entry = Entry(term: Term, index: Term, command: Command)

  /** The three fields of a log, as a value. */
  datatype RawLog = RawLog(entries: seq<Entry>, snapshotIndex: nat, snapshotTerm: nat) {

    predicate Contiguous() {
      forall i :: 0 <= i < |entries| ==> entries[i].index == snapshotIndex + i + 1
    }

    /** Terms never go backwards: the second thing the constructor checks. */
    predicate Ordered() {
      forall i :: 0 < i < |entries| ==> entries[i - 1].term <= entries[i].term
    }

    function FirstIndex(): nat { snapshotIndex + 1 }

    function LastIndex(): (last: nat)
      ensures Contiguous() ==> last == snapshotIndex + |entries|
    {
      if entries == [] then snapshotIndex else entries[|entries| - 1].index
    }

    function LastTerm(): nat {
      if entries == [] then snapshotTerm else entries[|entries| - 1].term
    }

    predicate Holds(index: int) { FirstIndex() <= index <= LastIndex() }

    /** The positions `term_at` answers rather than refuses. */
    predicate KnowsTerm(index: int) {
      index == NO_INDEX || index == snapshotIndex || Holds(index)
    }

    function At(index: int): Entry
      requires Contiguous() && Holds(index)
    {
      entries[index - FirstIndex()]
    }

    function TermAt(index: int): nat
      requires Contiguous() && KnowsTerm(index)
    {
      if index == NO_INDEX then NO_TERM
      else if index == snapshotIndex then snapshotTerm
      else At(index).term
    }

    predicate Matches(index: int, term: int)
      requires Contiguous()
    {
      if index == NO_INDEX then true
      else if index < snapshotIndex || index > LastIndex() then false
      else TermAt(index) == term
    }

    predicate IsUpToDate(otherIndex: int, otherTerm: int) {
      if otherTerm != LastTerm() then otherTerm > LastTerm() else otherIndex >= LastIndex()
    }

    /** The entries from `start` to `stop`, cut at the end of the log. */
    function Slice(start: int, stop: int): seq<Entry>
      requires Contiguous() && FirstIndex() <= start
    {
      var end := Min(stop, LastIndex());
      if end < start then [] else entries[start - FirstIndex()..end + 1 - FirstIndex()]
    }
  }

  /** Every log the code can build is contiguous; `Ordered` has to be earned. */
  type LogState = l: RawLog | l.Contiguous() witness RawLog([], 0, 0)

  function Truncated(log: LogState, index: int): LogState
    requires log.Holds(index)
  {
    log.(entries := log.entries[..index - log.FirstIndex()])
  }

  function Extended(log: LogState, one: Entry): LogState
    requires one.index == log.LastIndex() + 1
  {
    log.(entries := log.entries + [one])
  }

  /** What `append` answers when it is given one entry. */
  function AppendOne(log: LogState, one: Entry): Result<LogState> {
    if one.index != log.LastIndex() + 1 then Err(LogError)
    else if one.term < log.LastTerm() then Err(LeaderAppendOnly)
    else Ok(Extended(log, one))
  }

  /** In order from the boundary on: no term goes below the one before it, the snapshot's included. */
  predicate OrderedFrom(log: RawLog) {
    log.Ordered() && (log.entries != [] ==> log.snapshotTerm <= log.entries[0].term)
  }

  /** An entry is appended exactly where that leaves a log whose entries are in their places and in order. */
  lemma AppendsExactly(log: LogState, one: Entry)
    requires OrderedFrom(log)
    ensures var longer := RawLog(log.entries + [one], log.snapshotIndex, log.snapshotTerm);
            && (AppendOne(log, one).Ok? <==> longer.Contiguous() && OrderedFrom(longer))
            && (AppendOne(log, one).Ok? ==> AppendOne(log, one).value == longer)
            && (AppendOne(log, one).Err? ==>
                  AppendOne(log, one).error == if longer.Contiguous() then LeaderAppendOnly else LogError)
  {
    var longer := RawLog(log.entries + [one], log.snapshotIndex, log.snapshotTerm);
    assert longer.entries[|log.entries|] == one;
    if log.entries != [] { assert longer.entries[|log.entries| - 1] == log.entries[|log.entries| - 1]; }
  }

  /** So whatever is appended, a log in order stays in order, keeps what it had, and holds what was given up to the refusal. */
  lemma {:induction false} AppendsInOrder(log: LogState, entries: seq<Entry>)
    requires OrderedFrom(log)
    ensures var (log', raised) := AppendAll(log, entries);
            && OrderedFrom(log') && log'.snapshotIndex == log.snapshotIndex
            && log.entries <= log'.entries && log'.entries[|log.entries|..] <= entries
            && (raised.None? <==> log'.entries == log.entries + entries)
    decreases |entries|
  {
    if entries != [] {
      AppendsExactly(log, entries[0]);
      if AppendOne(log, entries[0]).Ok? {
        AppendsInOrder(Extended(log, entries[0]), entries[1..]);
        assert log.entries + [entries[0]] + entries[1..] == log.entries + entries;
      }
    }
  }

  /** What `append` leaves behind, and what it raised if it stopped part of the way. */
  function AppendAll(log: LogState, entries: seq<Entry>): (LogState, Option<Error>)
    decreases |entries|
  {
    if entries == [] then (log, None)
    else
      match AppendOne(log, entries[0])
      case Ok(log') => AppendAll(log', entries[1..])
      case Err(e) => (log, Some(e))
  }

  /** The log object, whose methods edit `entries` in place and are specified on its view. */
  class Log {
    var entries: seq<Entry>
    var snapshotIndex: nat
    var snapshotTerm: nat

    function View(): RawLog
      reads this
    {
      RawLog(entries, snapshotIndex, snapshotTerm)
    }

    ghost predicate Valid()
      reads this
    {
      View().Contiguous()
    }

    constructor (entries: seq<Entry>, snapshotIndex: nat, snapshotTerm: nat)
      ensures View() == RawLog(entries, snapshotIndex, snapshotTerm)
    {
      this.entries, this.snapshotIndex, this.snapshotTerm := entries, snapshotIndex, snapshotTerm;
    }

    /** The constructor's checks: each entry in its place, then no term below the one before it. */
    static method Make(entries: seq<Entry>, snapshotIndex: nat, snapshotTerm: nat) returns (r: Result<Log>)
      ensures var l := RawLog(entries, snapshotIndex, snapshotTerm);
              if l.Contiguous() && l.Ordered() then r.Ok? && fresh(r.value) && r.value.View() == l
              else r == Err(ConfigError)
    {
      for position := 0 to |entries|
        invariant forall i :: 0 <= i < position ==> entries[i].index == snapshotIndex + i + 1
      {
        if entries[position].index != snapshotIndex + position + 1 { return Err(ConfigError); }
      }
      var later := 1;
      while later < |entries|
        invariant forall i :: 0 < i < later && i < |entries| ==> entries[i - 1].term <= entries[i].term
      {
        if entries[later].term < entries[later - 1].term { return Err(ConfigError); }
        later := later + 1;
      }
      var made := new Log(entries, snapshotIndex, snapshotTerm);
      r := Ok(made);
    }

    /** The entry held there, or which of the two errors says why none is. */
    method At(index: int) returns (r: Result<Entry>)
      requires Valid()
      ensures r == if index <= snapshotIndex then Err(Compacted)
                   else if index > View().LastIndex() then Err(NotFound)
                   else Ok(entries[index - snapshotIndex - 1])
    {
      if index <= snapshotIndex { return Err(Compacted); }
      if index > View().LastIndex() { return Err(NotFound); }
      r := Ok(entries[index - View().FirstIndex()]);
    }

    method TermAt(index: int) returns (r: Result<nat>)
      requires Valid()
      ensures r.Ok? <==> View().KnowsTerm(index)
      ensures r.Ok? ==> r.value == View().TermAt(index)
      ensures r.Err? ==> r.error == if index < snapshotIndex then Compacted else NotFound
    {
      if index == NO_INDEX { return Ok(NO_TERM); }
      if index == snapshotIndex { return Ok(snapshotTerm); }
      var one :- At(index);
      r := Ok(one.term);
    }

    /** Appends up to the first entry that is out of place or out of order; what came before that one stays. */
    method Append(more: seq<Entry>) returns (r: Result<()>)
      requires Valid()
      modifies this
      ensures Valid()
      ensures var (log, raised) := AppendAll(old(View()), more);
              View() == log && r == if raised.Some? then Err(raised.value) else Ok(())
    {
      ghost var start := View();
      for i := 0 to |more|
        invariant Valid() && AppendAll(View(), more[i..]) == AppendAll(start, more)
      {
        var one := more[i];
        assert more[i..][0] == one && more[i..][1..] == more[i + 1..];
        if one.index != View().LastIndex() + 1 { return Err(LogError); }
        if one.term < View().LastTerm() { return Err(LeaderAppendOnly); }
        entries := entries + [one];
      }
      r := Ok(());
    }

    /** Keeps exactly what lies below the index and counts what is dropped, if the index is above the snapshot. */
    method TruncateFrom(index: int) returns (r: Result<nat>)
      requires Valid()
      modifies this`entries
      ensures Valid()
      ensures index <= snapshotIndex ==> r == Err(Compacted) && entries == old(entries)
      ensures index > old(View()).LastIndex() ==> r == Ok(0) && entries == old(entries)
      ensures old(View()).Holds(index) ==>
                View() == Truncated(old(View()), index) && r == Ok(old(|entries|) - |entries|)
    {
      if index <= snapshotIndex { return Err(Compacted); }
      if index > View().LastIndex() { return Ok(0); }
      var keep := index - View().FirstIndex();
      var going := |entries| - keep;
      entries := entries[..keep];
      r := Ok(going);
    }
  }
}
