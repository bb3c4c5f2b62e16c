/** The key value machine the log drives (rsm/machine.py). */
module Machines {
  import opened Basics

  /** What a client can ask. An increment carries an integer or nothing; reading a clock is not among them. */
  datatype Command =
    | Set(key: string, value: Value)
    | Delete(key: string)
    | Increment(key: string, amount: Option<int>)
    | CompareAndSet(key: string, expected: Value, value: Value)

  type State = map<string, Value>

  function Read(state: State, key: string, absent: Value): Value {
    if key in state then state[key] else absent
  }

  /** `int(value or 1)`: no amount counts as one, and so does an amount of zero. */
  function Amount(amount: Option<int>): int {
    if amount == None || amount == Some(0) then 1 else amount.value
  }

  /** The new state and what the client is told, or the refusal to increment what is not a number. */
  function Applied(state: State, command: Command): Result<(State, Value)> {
    match command
    case Set(key, value) => Ok((state[key := value], value))
    case Delete(key) => Ok((state - {key}, Read(state, key, Nothing)))
    case Increment(key, amount) =>
      (match Read(state, key, Int(0))
       case Int(n) => Ok((state[key := Int(n + Amount(amount))], Int(n + Amount(amount))))
       case _ => Err(Refused))
    case CompareAndSet(key, expected, value) =>
      if Read(state, key, Nothing) == expected then Ok((state[key := value], Int(1))) else Ok((state, Int(0)))
  }

  /* ---- what the commands mean ---- */

  /** A command touches no key but its own, and only an increment of what is no number is refused. */
  lemma OnlyItsKey(state: State, c: Command)
    ensures Applied(state, c).Err? <==> c.Increment? && !Read(state, c.key, Int(0)).Int?
    ensures Applied(state, c).Err? ==> Applied(state, c).error == Refused
    ensures Applied(state, c).Ok? ==>
              var after := Applied(state, c).value.0;
              && after.Keys - {c.key} == state.Keys - {c.key}
              && forall k :: k in state && k != c.key ==> after[k] == state[k]
  {
  }

  /** What is set is what is there until it is deleted, and a delete answers with it. */
  lemma SetThenDelete(state: State, key: string, value: Value)
    ensures Applied(state, Set(key, value)) == Ok((state[key := value], value))
    ensures var was := Applied(state, Set(key, value)).value.0;
            && Applied(was, Delete(key)).Ok?
            && var (gone, told) := Applied(was, Delete(key)).value;
               told == value && key !in gone && Applied(gone, Delete(key)) == Ok((gone, Nothing))
  {
    var gone := state[key := value] - {key};
    assert gone - {key} == gone;
  }

  /** Increments of a number, or of a key not yet there, add up, and each is answered with the sum so far. */
  lemma IncrementsAdd(state: State, key: string, a: Option<int>, b: Option<int>)
    requires Read(state, key, Int(0)).Int?
    ensures var n, once := Read(state, key, Int(0)).n, Applied(state, Increment(key, a));
            && once.Ok? && once.value.1 == Int(n + Amount(a))
            && var twice := Applied(once.value.0, Increment(key, b));
               && twice.Ok? && twice.value.1 == Int(n + Amount(a) + Amount(b))
               && twice.value.0 == state[key := Int(n + Amount(a) + Amount(b))]
    ensures Amount(a) != 0 && (a.Some? && a.value != 0 ==> Amount(a) == a.value) && (a == None ==> Amount(a) == 1)
  {
    var n := Read(state, key, Int(0)).n;
    var sum := Int(n + Amount(a) + Amount(b));
    assert state[key := Int(n + Amount(a))][key := sum] == state[key := sum];
  }

  /** Of two that expect the same value and would change it, the first wins if the value is there, and else neither. */
  lemma OneSwapWins(state: State, key: string, expected: Value, mine: Value, yours: Value)
    requires mine != expected
    ensures var first := Applied(state, CompareAndSet(key, expected, mine));
            && first.Ok?
            && var second := Applied(first.value.0, CompareAndSet(key, expected, yours));
               && second == Ok((first.value.0, Int(0)))
               && if Read(state, key, Nothing) == expected
                  then first.value == (state[key := mine], Int(1)) else first.value == (state, Int(0))
  {
  }

  /** Of the commands that are not refused, exactly the increments leave something else when they are applied twice. */
  lemma HarmlessTwiceExactly(state: State, c: Command)
    requires Applied(state, c).Ok?
    ensures Applied(Applied(state, c).value.0, c).Ok?
    ensures Applied(Applied(state, c).value.0, c).value.0 == Applied(state, c).value.0 <==> !c.Increment?
  {
    var once := Applied(state, c).value.0;
    if c.Increment? {
      IncrementsAdd(state, c.key, c.amount, c.amount);
      assert Applied(once, c).value.0[c.key] != once[c.key];
    } else if c.Delete? {
      assert once - {c.key} == once;
    }
  }

  /** Applying commands one after another from an empty machine: the state and every answer, if none is refused. */
  function Replay(commands: seq<Command>): (r: Result<(State, seq<Value>)>)
    ensures r.Ok? ==> |r.value.1| == |commands|
  {
    if commands == [] then Ok((map[], []))
    else
      var before :- Replay(commands[..|commands| - 1]);
      var after :- Applied(before.0, commands[|commands| - 1]);
      Ok((after.0, before.1 + [after.1]))
  }

  class Machine {
    var state: State
    var applied: nat
    var results: seq<Value>

    constructor ()
      ensures state == map[] && applied == 0 && results == []
    {
      state, applied, results := map[], 0, [];
    }

    /** The new state and the answer are those of `Applied`; a refused command moves only the counter. */
    method Apply(command: Command) returns (r: Result<Value>)
      modifies this
      ensures applied == old(applied) + 1
      ensures match Applied(old(state), command)
              case Ok(after) => r == Ok(after.1) && state == after.0 && results == old(results) + [after.1]
              case Err(e) => r == Err(e) && state == old(state) && results == old(results)
    {
      applied := applied + 1;
      var out;
      match command {
      case Set(key, value) =>
        state := state[key := value];
        out := value;
      case Delete(key) =>
        out := Read(state, key, Nothing);
        state := state - {key};
      case Increment(key, amount) =>
        var current := Read(state, key, Int(0));
        if !current.Int? { return Err(Refused); }
        state := state[key := Int(current.n + Amount(amount))];
        out := state[key];
      case CompareAndSet(key, expected, value) =>
        var current := Read(state, key, Nothing);
        if current == expected {
          state := state[key := value];
          out := Int(1);
        } else {
          out := Int(0);
        }
      }
      results := results + [out];
      r := Ok(out);
    }
  }

  /** The loop over a new machine ends in the state and with the answers of `Replay`. */
  method ReplayAll(commands: seq<Command>) returns (r: Result<Machine>)
    ensures match Replay(commands)
            case Ok(end) => r.Ok? && fresh(r.value) && r.value.state == end.0 && r.value.results == end.1
                            && r.value.applied == |commands|
            case Err(e) => r == Err(e)
  {
    var made := new Machine();
    for i := 0 to |commands|
      invariant made.applied == i && Replay(commands[..i]) == Ok((made.state, made.results))
    {
      assert commands[..i + 1][..i] == commands[..i];
      var out := made.Apply(commands[i]);
      if out.Err? {
        RefusedStays(commands, i + 1);
        return Err(out.error);
      }
    }
    assert commands[..|commands|] == commands;
    r := Ok(made);
  }

  /** A replay refused part of the way is refused. */
  lemma {:induction false} RefusedStays(commands: seq<Command>, k: nat)
    requires k <= |commands| && Replay(commands[..k]).Err?
    ensures Replay(commands) == Replay(commands[..k])
    decreases |commands|
  {
    if k < |commands| {
      var early := commands[..|commands| - 1];
      assert early[..k] == commands[..k];
      RefusedStays(early, k);
    } else {
      assert commands[..k] == commands;
    }
  }
}
