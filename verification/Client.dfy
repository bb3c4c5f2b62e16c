/** Client sessions (rsm/client.py): a retried request is answered from memory and applied once. */
module Clients {
  import opened Basics
  import opened Machines

  type Key = (string, int)

  datatype RawRequest = Request(client: string, sequence: int, command: Command) {
    function Id(): Key { (client, sequence) }
  }

  /** The constructor refuses a request without a client and a sequence number below one. */
  type Request = r: RawRequest | r.client != "" && r.sequence >= 1
    witness Request("c", 1, Delete("k"))

  function Ids(rs: seq<Request>): set<Key> { set r | r in rs :: r.Id() }

  function CommandsOf(rs: seq<Request>): (cs: seq<Command>)
    ensures |cs| == |rs|
  {
    if rs == [] then [] else CommandsOf(rs[..|rs| - 1]) + [rs[|rs| - 1].command]
  }

  /** The requests that are not retries: each identity where it first appears. */
  function Firsts(rs: seq<Request>): seq<Request> {
    if rs == [] then []
    else
      var early, last := rs[..|rs| - 1], rs[|rs| - 1];
      if last.Id() in Ids(early) then Firsts(early) else Firsts(early) + [last]
  }

  /* ---- the session table over a machine ---- */

  /** A table of answers and the machine behind it, as a value. */
  datatype Service = Service(lastSeen: map<string, int>, answers: map<Key, Value>, applied: nat, deduplicated: nat, state: State)

  const EMPTY := Service(map[], map[], 0, 0, map[])

  function LastSeen(m: map<string, int>, client: string): int { if client in m then m[client] else 0 }

  /** One call: the service after it and the answer, or the machine's refusal with nothing remembered. */
  function Called(s: Service, r: Request): (Service, Result<Value>) {
    if r.Id() in s.answers then (s.(deduplicated := s.deduplicated + 1), Ok(s.answers[r.Id()]))
    else
      match Machines.Applied(s.state, r.command)
      case Ok(after) =>
        (Service(s.lastSeen[r.client := Max(LastSeen(s.lastSeen, r.client), r.sequence)],
                 s.answers[r.Id() := after.1], s.applied + 1, s.deduplicated, after.0),
         Ok(after.1))
      case Err(e) => (s, Err(e))
  }

  function CalledAll(rs: seq<Request>): (Service, seq<Result<Value>>) {
    if rs == [] then (EMPTY, [])
    else
      var (s, outs) := CalledAll(rs[..|rs| - 1]);
      var (s', out) := Called(s, rs[|rs| - 1]);
      (s', outs + [out])
  }

  class Sessions {
    var lastSeen: map<string, int>
    var answers: map<Key, Value>
    var applied: nat
    var deduplicated: nat

    constructor ()
      ensures lastSeen == map[] && answers == map[] && applied == deduplicated == 0
    {
      lastSeen, answers, applied, deduplicated := map[], map[], 0, 0;
    }

    function View(machine: Machine): Service
      reads this, machine
    {
      Service(lastSeen, answers, applied, deduplicated, machine.state)
    }

    /** A known identity gets its stored answer; a new one is applied and, unless the machine refuses it, stored. */
    method Run(request: Request, machine: Machine) returns (r: Result<Value>)
      modifies this, machine
      ensures (View(machine), r) == Called(old(View(machine)), request)
    {
      if request.Id() in answers {
        deduplicated := deduplicated + 1;
        return Ok(answers[request.Id()]);
      }
      var out :- machine.Apply(request.command);
      answers := answers[request.Id() := out];
      lastSeen := lastSeen[request.client := Max(LastSeen(lastSeen, request.client), request.sequence)];
      applied := applied + 1;
      r := Ok(out);
    }
  }

  /* ---- exactly once ---- */

  /**
  The requests that take effect: of each identity the first attempt that the machine, as those before it have left
  it, does not refuse.
  */
  function Effective(rs: seq<Request>): (made: seq<Request>)
    ensures Replay(CommandsOf(made)).Ok?
  {
    if rs == [] then []
    else
      var made, last := Effective(rs[..|rs| - 1]), rs[|rs| - 1];
      if last.Id() in Ids(made) || Machines.Applied(Left(made), last.command).Err? then made
      else
        OneMore(made, last);
        made + [last]
  }

  /** The state some requests leave behind. */
  function Left(made: seq<Request>): State {
    if Replay(CommandsOf(made)).Ok? then Replay(CommandsOf(made)).value.0 else map[]
  }

  lemma OneMore(made: seq<Request>, last: Request)
    ensures CommandsOf(made + [last]) == CommandsOf(made) + [last.command]
    ensures Replay(CommandsOf(made + [last])).Ok? <==>
              Replay(CommandsOf(made)).Ok? && Machines.Applied(Left(made), last.command).Ok?
    ensures Replay(CommandsOf(made + [last])).Ok? ==>
              var once, after := Replay(CommandsOf(made)).value, Machines.Applied(Left(made), last.command).value;
              Replay(CommandsOf(made + [last])).value == (after.0, once.1 + [after.1])
  {
    assert (made + [last])[..|made|] == made;
    var commands := CommandsOf(made) + [last.command];
    assert commands[..|commands| - 1] == CommandsOf(made);
  }

  /** The answers remembered are those of the requests made once, in the order they were made. */
  ghost predicate Remembers(s: Service, made: seq<Request>, answers: seq<Value>) {
    && |answers| == |made|
    && forall j :: 0 <= j < |made| ==> made[j].Id() in s.answers && s.answers[made[j].Id()] == answers[j]
  }

  ghost predicate Once(made: seq<Request>) {
    forall i, j :: 0 <= i < j < |made| ==> made[i].Id() != made[j].Id()
  }

  /** A call is told what is remembered for its identity, or else what the machine refused just then. */
  ghost predicate ToldRight(rs: seq<Request>, s: Service, i: nat, out: Result<Value>)
    requires i < |rs|
  {
    Right(Effective(rs[..i]), Effective(rs[..i + 1]), rs[i], s, out)
  }

  ghost predicate Right(before: seq<Request>, after: seq<Request>, r: Request, s: Service, out: Result<Value>) {
    if r.Id() in Ids(after) then r.Id() in s.answers && out == Ok(s.answers[r.Id()])
    else
      var refusal := Machines.Applied(Left(before), r.command);
      refusal.Err? && out == Err(refusal.error)
  }

  /** Of each client that had something take effect, the highest number that did. */
  ghost predicate SeenHighest(lastSeen: map<string, int>, made: seq<Request>) {
    && (forall r :: r in made ==> r.client in lastSeen && r.sequence <= lastSeen[r.client])
    && (forall client :: client in lastSeen ==> exists r :: r in made && r.client == client && r.sequence == lastSeen[client])
  }

  function Refusals(outs: seq<Result<Value>>): nat {
    if outs == [] then 0 else Refusals(outs[..|outs| - 1]) + (if outs[|outs| - 1].Err? then 1 else 0)
  }

  /** What a service owes its callers after a sequence of calls. */
  ghost predicate Owed(rs: seq<Request>, s: Service, outs: seq<Result<Value>>) {
    var made := Effective(rs);
    && Once(made)
    && s.state == Left(made)
    && s.answers.Keys == Ids(made) && Remembers(s, made, Replay(CommandsOf(made)).value.1)
    && SeenHighest(s.lastSeen, made)
    && |outs| == |rs|
    && (forall i :: 0 <= i < |rs| ==> ToldRight(rs, s, i, outs[i]))
    && s.applied == |made| && s.applied + s.deduplicated + Refusals(outs) == |rs|
  }

  lemma IdsGrow(early: seq<Request>, last: Request)
    ensures Ids(early + [last]) == Ids(early) + {last.Id()}
  {
    assert forall r :: r in early + [last] <==> r in early || r == last;
  }

  /**
  Exactly once, whatever is refused: with retries mixed in anywhere and any number of times, the machine ends as if
  the requests that take effect had been made once each and no others had been; a call whose identity has taken
  effect is told what it was told then, and one whose identity has not is told why; and every call was applied,
  answered from memory or refused.
  */
  lemma {:induction false} ExactlyOnce(rs: seq<Request>)
    ensures Owed(rs, CalledAll(rs).0, CalledAll(rs).1)
  {
    hide Owed, Called;
    if rs != [] {
      var early, last := rs[..|rs| - 1], rs[|rs| - 1];
      ExactlyOnce(early);
      assert rs == early + [last];
      CallsOn(early, last, CalledAll(early).0, CalledAll(early).1);
    } else {
      NothingOwed();
    }
  }

  lemma NothingOwed()
    ensures Owed([], EMPTY, [])
  {
  }

  lemma CallsOn(early: seq<Request>, last: Request, s: Service, outs: seq<Result<Value>>)
    requires Owed(early, s, outs)
    ensures var (s', out) := Called(s, last); Owed(early + [last], s', outs + [out])
  {
    hide Machines.Applied, Replay, Remembers, Once, Right, Effective, CommandsOf, Ids, SeenHighest;
    var made, rs := Effective(early), early + [last];
    var (s', out) := Called(s, last);
    EffectiveGrows(early, last);
    assert (outs + [out])[..|outs|] == outs;
    IdsGrow(made, last);
    OneMore(made, last);
    if s' != s && s'.applied > s.applied {
      MemoryGrows(made, last, s, s');
      SeesHigher(s.lastSeen, made, last);
    } else {
      MemoryStays(made, s, s');
    }
    forall i | 0 <= i < |rs| ensures ToldRight(rs, s', i, (outs + [out])[i]) {
      if i < |early| {
        StillTold(early, last, s, s', i, outs[i]);
      } else {
        assert rs[..|early| + 1] == rs && rs[..|early|] == early;
        LastTold(made, Effective(rs), last, s);
      }
    }
  }

  lemma EffectiveGrows(early: seq<Request>, last: Request)
    ensures var made := Effective(early);
            Effective(early + [last]) ==
            if last.Id() in Ids(made) || Machines.Applied(Left(made), last.command).Err? then made else made + [last]
  {
    assert (early + [last])[..|early|] == early;
  }

  lemma SeesHigher(lastSeen: map<string, int>, made: seq<Request>, last: Request)
    requires SeenHighest(lastSeen, made)
    ensures SeenHighest(lastSeen[last.client := Max(LastSeen(lastSeen, last.client), last.sequence)], made + [last])
  {
    var after, all := lastSeen[last.client := Max(LastSeen(lastSeen, last.client), last.sequence)], made + [last];
    assert forall r :: r in all <==> r in made || r == last;
    forall client | client in after ensures exists r :: r in all && r.client == client && r.sequence == after[client] {
      if client in lastSeen && after[client] == lastSeen[client] {
        var r :| r in made && r.client == client && r.sequence == lastSeen[client];
        assert r in all;
      } else {
        assert last in all;
      }
    }
  }

  lemma MemoryStays(made: seq<Request>, s: Service, s': Service)
    requires Replay(CommandsOf(made)).Ok? && Remembers(s, made, Replay(CommandsOf(made)).value.1) && s'.answers == s.answers
    ensures Remembers(s', made, Replay(CommandsOf(made)).value.1)
  {
  }

  lemma MemoryGrows(made: seq<Request>, last: Request, s: Service, s': Service)
    requires Once(made) && s.answers.Keys == Ids(made) && last.Id() !in Ids(made)
    requires Replay(CommandsOf(made)).Ok? && Remembers(s, made, Replay(CommandsOf(made)).value.1)
    requires Machines.Applied(Left(made), last.command).Ok?
    requires s'.answers == s.answers[last.Id() := Machines.Applied(Left(made), last.command).value.1]
    ensures Once(made + [last]) && Replay(CommandsOf(made + [last])).Ok?
    ensures Remembers(s', made + [last], Replay(CommandsOf(made + [last])).value.1)
  {
    hide Machines.Applied, Replay;
    OneMore(made, last);
    assert forall j :: 0 <= j < |made| ==> made[j].Id() in Ids(made);
  }

  /** An earlier call was still told what is remembered, since nothing remembered changes. */
  lemma StillTold(early: seq<Request>, last: Request, s: Service, s': Service, i: nat, out: Result<Value>)
    requires i < |early| && ToldRight(early, s, i, out)
    requires forall id :: id in s.answers ==> id in s'.answers && s'.answers[id] == s.answers[id]
    ensures ToldRight(early + [last], s', i, out)
  {
    assert (early + [last])[..i + 1] == early[..i + 1] && (early + [last])[..i] == early[..i];
  }

  lemma LastTold(made: seq<Request>, made': seq<Request>, last: Request, s: Service)
    requires s.state == Left(made) && s.answers.Keys == Ids(made)
    requires made' == if last.Id() in Ids(made) || Machines.Applied(Left(made), last.command).Err? then made else made + [last]
    ensures Right(made, made', last, Called(s, last).0, Called(s, last).1)
  {
    hide Machines.Applied, Left, Ids;
    IdsGrow(made, last);
  }

  /* ---- when nothing is refused ---- */

  lemma {:induction false} FirstsIds(rs: seq<Request>)
    ensures Ids(Firsts(rs)) == Ids(rs)
  {
    if rs != [] {
      var early, last := rs[..|rs| - 1], rs[|rs| - 1];
      FirstsIds(early);
      assert rs == early + [last];
      IdsGrow(early, last);
      if last.Id() !in Ids(early) { IdsGrow(Firsts(early), last); }
    }
  }

  /** The requests that take effect are the first attempts exactly when those, made alone, would not be refused. */
  lemma {:induction false} FirstsTakeEffect(rs: seq<Request>)
    ensures Effective(rs) == Firsts(rs) <==> Replay(CommandsOf(Firsts(rs))).Ok?
  {
    if rs != [] && Replay(CommandsOf(Firsts(rs))).Ok? {
      var early, last := rs[..|rs| - 1], rs[|rs| - 1];
      if last.Id() !in Ids(early) { OneMore(Firsts(early), last); }
      FirstsTakeEffect(early);
      FirstsIds(early);
    }
  }
}
