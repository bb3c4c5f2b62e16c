/** Vocabulary shared by every module: names, terms, values, and results that may fail. */
module Basics {

  /** A member's name. The cluster calls its nodes n0, n1, ...; only identity matters. */
  datatype Name = Name(id: nat)

  /** Terms and log indices both start at one; zero stands for the empty prefix. */
  type Term = t: int | 1 <= t witness 1

  const NO_TERM: nat := 0
  const NO_INDEX: nat := 0

  /** What the key value state can hold. A Python bool is an int, so booleans are Int(0) and Int(1). */
  datatype Value = Nothing | Int(n: int) | Text(s: string)

  datatype Option<+T> = None | Some(value: T)

  /** The exceptions the modelled code can raise. */
  datatype Error =
    | ConfigError
    | LogError
    | LeaderAppendOnly
    | Compacted
    | NotFound
    | NotLeader
    | NoLeader
    | UnknownNode
    | ElectionSafety
    | LogMatching
    | StateMachineSafety
    | Refused

  datatype Result<+T> = Ok(value: T) | Err(error: Error) {
    predicate IsFailure() { Err? }

    function PropagateFailure<U>(): Result<U>
      requires Err?
    {
      Err(error)
    }

    function Extract(): T
      requires Ok?
    {
      value
    }
  }

  function Min(a: int, b: int): int { if a <= b then a else b }

  function Max(a: int, b: int): int { if a <= b then b else a }

  /** `d.get(k, default)`. */
  function Get(m: map<Name, int>, k: Name, default: int): int {
    if k in m then m[k] else default
  }

  /** No name twice: what every membership must satisfy. */
  predicate Distinct(members: seq<Name>) {
    forall i, j :: 0 <= i < j < |members| ==> members[i] != members[j]
  }

  function Names(members: seq<Name>): set<Name> { set m | m in members }
}
