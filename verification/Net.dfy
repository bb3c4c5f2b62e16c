/**
The simulated network (rsm/net.py). Whether a message is lost and how long it takes are drawn by a
generator in the code; here they are arguments, so what is proved holds for every draw.
*/
module Net {
  import opened Basics
  import opened Logs
  import opened Rpc

  datatype InFlight = InFlight(message: Message, sentAt: int, dueAt: int, sequence: int)

  /* ---- filtering and sorting what is in flight ---- */

  function Landed(flight: seq<InFlight>, now: int): seq<InFlight> {
    if flight == [] then []
    else if flight[0].dueAt <= now then [flight[0]] + Landed(flight[1..], now)
    else Landed(flight[1..], now)
  }

  function Aloft(flight: seq<InFlight>, now: int): seq<InFlight> {
    if flight == [] then []
    else if flight[0].dueAt > now then [flight[0]] + Aloft(flight[1..], now)
    else Aloft(flight[1..], now)
  }

  ghost predicate Ascending(flight: seq<InFlight>) {
    forall i, j :: 0 <= i < j < |flight| ==> flight[i].sequence < flight[j].sequence
  }

  /** `list.sort(key=sequence)`. */
  function Insert(one: InFlight, sorted: seq<InFlight>): seq<InFlight> {
    if sorted == [] || one.sequence <= sorted[0].sequence then [one] + sorted
    else [sorted[0]] + Insert(one, sorted[1..])
  }

  function SortBySequence(list: seq<InFlight>): seq<InFlight> {
    if list == [] then [] else Insert(list[0], SortBySequence(list[1..]))
  }

  function Messages(flight: seq<InFlight>): (ms: seq<Message>)
    ensures |ms| == |flight|
  {
    seq(|flight|, i requires 0 <= i < |flight| => flight[i].message)
  }

  lemma MessagesJoin(a: seq<InFlight>, b: seq<InFlight>)
    ensures Messages(a + b) == Messages(a) + Messages(b)
  {
  }

  /** What is in flight is in send order already, so sorting what landed changes nothing. */
  lemma {:induction false} SortedStays(list: seq<InFlight>)
    requires Ascending(list)
    ensures SortBySequence(list) == list
  {
    if list != [] {
      assert Ascending(list[1..]);
      SortedStays(list[1..]);
    }
  }

  /** Splitting what is in flight loses nothing and adds nothing. */
  lemma {:induction false} SplitsWhole(flight: seq<InFlight>, now: int)
    ensures multiset(Landed(flight, now)) + multiset(Aloft(flight, now)) == multiset(flight)
  {
    if flight != [] {
      assert flight == [flight[0]] + flight[1..];
      SplitsWhole(flight[1..], now);
    }
  }

  lemma {:induction false} SplitSizes(flight: seq<InFlight>, now: int)
    ensures |Landed(flight, now)| + |Aloft(flight, now)| == |flight|
  {
    if flight != [] { SplitSizes(flight[1..], now); }
  }

  lemma {:induction false} SplitsByTime(flight: seq<InFlight>, now: int, one: InFlight)
    ensures one in Landed(flight, now) <==> one in flight && one.dueAt <= now
    ensures one in Aloft(flight, now) <==> one in flight && one.dueAt > now
  {
    if flight != [] {
      SplitsByTime(flight[1..], now, one);
      assert one in flight <==> one == flight[0] || one in flight[1..];
    }
  }

  /** Each part of a split keeps the order. */
  lemma {:induction false} SplitsInOrder(flight: seq<InFlight>, now: int)
    requires Ascending(flight)
    ensures Ascending(Landed(flight, now)) && Ascending(Aloft(flight, now))
  {
    if flight != [] {
      var rest := flight[1..];
      SplitsInOrder(rest, now);
      forall one ensures one in Landed(rest, now) || one in Aloft(rest, now) ==> flight[0].sequence < one.sequence {
        SplitsByTime(rest, now, one);
      }
    }
  }

  /** When due times follow send order, what lands is the front of what was in flight. */
  lemma {:induction false} FrontLands(flight: seq<InFlight>, now: int)
    requires forall i, j :: 0 <= i < j < |flight| ==> flight[i].dueAt <= flight[j].dueAt
    ensures Landed(flight, now) + Aloft(flight, now) == flight
  {
    if flight != [] {
      FrontLands(flight[1..], now);
      if flight[0].dueAt > now { NoneLand(flight[1..], now); }
    }
  }

  lemma {:induction false} NoneLand(flight: seq<InFlight>, now: int)
    requires forall i :: 0 <= i < |flight| ==> flight[i].dueAt > now
    ensures Landed(flight, now) == []
  {
    if flight != [] { NoneLand(flight[1..], now); }
  }

  /* ---- the wire: everything accepted, what arrived, what is still in flight ---- */

  datatype Wire = Wire(accepted: seq<InFlight>, arrived: seq<InFlight>, flight: seq<InFlight>, now: int, sequence: int)

  /** Every accepted message is in flight or has arrived, exactly once. */
  ghost predicate Conserved(w: Wire) {
    multiset(w.accepted) == multiset(w.arrived) + multiset(w.flight)
  }

  /** Nothing is in flight past its due tick, and nothing arrived before it. */
  ghost predicate OnTime(w: Wire) {
    && (forall one :: one in w.flight ==> one.dueAt > w.now)
    && (forall one :: one in w.arrived ==> one.dueAt <= w.now)
  }

  /** Sequence numbers rise in send order, on the wire and over the whole run. */
  ghost predicate InOrder(w: Wire) {
    && Ascending(w.accepted) && Ascending(w.flight)
    && (forall one :: one in w.accepted || one in w.flight ==> one.sequence <= w.sequence)
  }

  ghost predicate Timed(one: InFlight, now: int, minDelay: int, maxDelay: int) {
    one.sentAt <= now && one.sentAt + minDelay <= one.dueAt <= one.sentAt + maxDelay
  }

  ghost predicate AllTimed(w: Wire, minDelay: int, maxDelay: int) {
    && (forall i :: 0 <= i < |w.accepted| ==> Timed(w.accepted[i], w.now, minDelay, maxDelay))
    && (forall i, j :: 0 <= i < j < |w.accepted| ==> w.accepted[i].sentAt <= w.accepted[j].sentAt)
  }

  /** With a fixed delay nothing overtakes anything: the delivery history is in send order. */
  ghost predicate NoOvertaking(w: Wire, minDelay: int, maxDelay: int) {
    minDelay == maxDelay ==> w.accepted == w.arrived + w.flight
  }

  ghost predicate WireOk(w: Wire, minDelay: int, maxDelay: int) {
    && Conserved(w) && OnTime(w) && InOrder(w) && AllTimed(w, minDelay, maxDelay) && NoOvertaking(w, minDelay, maxDelay)
  }

  function Accepting(w: Wire, message: Message, delay: int): Wire {
    var one := InFlight(message, w.now, w.now + delay, w.sequence + 1);
    w.(accepted := w.accepted + [one], flight := w.flight + [one], sequence := w.sequence + 1)
  }

  lemma AcceptKeepsWire(w: Wire, message: Message, delay: int, minDelay: int, maxDelay: int)
    requires WireOk(w, minDelay, maxDelay) && 1 <= minDelay <= delay <= maxDelay
    ensures WireOk(Accepting(w, message, delay), minDelay, maxDelay)
  {
    hide InOrder, AllTimed, OnTime;
    var w' := Accepting(w, message, delay);
    AcceptKeepsOrder(w, message, delay);
    AcceptKeepsTimes(w, message, delay, minDelay, maxDelay);
    assert w'.arrived + w'.flight == (w.arrived + w.flight) + [w'.flight[|w.flight|]];
  }

  lemma AcceptKeepsOrder(w: Wire, message: Message, delay: int)
    requires InOrder(w)
    ensures InOrder(Accepting(w, message, delay))
  {
  }

  lemma AcceptKeepsTimes(w: Wire, message: Message, delay: int, minDelay: int, maxDelay: int)
    requires OnTime(w) && AllTimed(w, minDelay, maxDelay) && 1 <= minDelay <= delay <= maxDelay
    ensures OnTime(Accepting(w, message, delay)) && AllTimed(Accepting(w, message, delay), minDelay, maxDelay)
  {
  }

  /** A message that is lost uses up a sequence number and nothing else. */
  lemma LossKeepsWire(w: Wire, minDelay: int, maxDelay: int)
    requires WireOk(w, minDelay, maxDelay)
    ensures WireOk(w.(sequence := w.sequence + 1), minDelay, maxDelay)
  {
  }

  function Landing(w: Wire): Wire {
    var now := w.now + 1;
    w.(now := now, arrived := w.arrived + Landed(w.flight, now), flight := Aloft(w.flight, now))
  }

  lemma LandKeepsTime(w: Wire)
    requires OnTime(w)
    ensures OnTime(Landing(w))
  {
    var w' := Landing(w);
    forall one ensures (one in w'.flight ==> one.dueAt > w'.now) && (one in w'.arrived ==> one.dueAt <= w'.now) {
      SplitsByTime(w.flight, w'.now, one);
    }
  }

  lemma LandKeepsOrder(w: Wire)
    requires InOrder(w)
    ensures InOrder(Landing(w))
  {
    SplitsInOrder(w.flight, w.now + 1);
    forall one ensures one in Aloft(w.flight, w.now + 1) ==> one in w.flight {
      SplitsByTime(w.flight, w.now + 1, one);
    }
  }

  lemma LandOvertakesNothing(w: Wire, minDelay: int, maxDelay: int)
    requires AllTimed(w, minDelay, maxDelay) && NoOvertaking(w, minDelay, maxDelay)
    ensures NoOvertaking(Landing(w), minDelay, maxDelay)
  {
    if minDelay == maxDelay {
      forall i, j | 0 <= i < j < |w.flight| ensures w.flight[i].dueAt <= w.flight[j].dueAt {
        var k := |w.arrived|;
        assert w.accepted[k + i] == w.flight[i] && w.accepted[k + j] == w.flight[j];
      }
      FrontLands(w.flight, w.now + 1);
      var w' := Landing(w);
      assert w'.arrived + w'.flight == w.arrived + (Landed(w.flight, w.now + 1) + Aloft(w.flight, w.now + 1));
    }
  }

  lemma Lands(w: Wire, minDelay: int, maxDelay: int)
    requires WireOk(w, minDelay, maxDelay)
    ensures SortBySequence(Landed(w.flight, w.now + 1)) == Landed(w.flight, w.now + 1)
  {
    SplitsInOrder(w.flight, w.now + 1);
    SortedStays(Landed(w.flight, w.now + 1));
  }

  lemma LandKeepsWire(w: Wire, minDelay: int, maxDelay: int)
    requires WireOk(w, minDelay, maxDelay)
    ensures WireOk(Landing(w), minDelay, maxDelay)
  {
    SplitsWhole(w.flight, w.now + 1);
    LandKeepsTime(w);
    LandKeepsOrder(w);
    LandOvertakesNothing(w, minDelay, maxDelay);
  }

  /* ---- the network ---- */

  /* ---- partitions ---- */

  /** All the names a split mentions, side after side. */
  function Named(split: seq<seq<Name>>): seq<Name> {
    if split == [] then [] else Named(split[..|split| - 1]) + split[|split| - 1]
  }

  function Sides(split: seq<seq<Name>>): (sides: seq<set<Name>>)
    ensures |sides| == |split| && forall i :: 0 <= i < |split| ==> sides[i] == Names(split[i])
  {
    if split == [] then [] else Sides(split[..|split| - 1]) + [Names(split[|split| - 1])]
  }

  ghost predicate OnSide(split: seq<seq<Name>>, i: int, n: Name) { 0 <= i < |split| && n in split[i] }

  /** Every member is on exactly one side, once, and nobody else is on any. */
  ghost predicate SoundSplit(members: seq<Name>, split: seq<seq<Name>>) {
    && (forall i, n :: OnSide(split, i, n) ==> n in members)
    && (forall n :: n in members ==> exists i :: OnSide(split, i, n))
    && OnceEach(split)
  }

  /** No name is on two sides, or on one of them twice. */
  ghost predicate OnceEach(split: seq<seq<Name>>) {
    && (forall i, j, n :: OnSide(split, i, n) && OnSide(split, j, n) ==> i == j)
    && (forall i :: 0 <= i < |split| ==> Distinct(split[i]))
  }

  lemma {:induction false} NamedOnSides(split: seq<seq<Name>>, n: Name)
    ensures n in Named(split) <==> exists i :: OnSide(split, i, n)
    decreases |split|
  {
    if split != [] {
      var k := |split| - 1;
      var early := split[..k];
      NamedOnSides(early, n);
      if i :| OnSide(early, i, n) { assert OnSide(split, i, n); }
      if n in split[k] { assert OnSide(split, k, n); }
      if i :| OnSide(split, i, n) { assert i == k || OnSide(early, i, n); }
    }
  }

  lemma DistinctJoin(x: seq<Name>, y: seq<Name>)
    ensures Distinct(x + y) <==> Distinct(x) && Distinct(y) && Names(x) !! Names(y)
  {
    var z := x + y;
    if Distinct(x) && Distinct(y) && Names(x) !! Names(y) {
      forall i, j | 0 <= i < j < |z| ensures z[i] != z[j] {
        if i < |x| <= j { assert x[i] in Names(x) && y[j - |x|] in Names(y); }
      }
    }
    if Distinct(z) {
      forall i, j | 0 <= i < j < |x| ensures x[i] != x[j] { assert z[i] == x[i] && z[j] == x[j]; }
      forall i, j | 0 <= i < j < |y| ensures y[i] != y[j] { assert z[|x| + i] == y[i] && z[|x| + j] == y[j]; }
      forall i, j | 0 <= i < |x| && 0 <= j < |y| ensures x[i] != y[j] { assert z[i] == x[i] && z[|x| + j] == y[j]; }
    }
  }

  lemma {:induction false} DistinctNamed(split: seq<seq<Name>>)
    ensures Distinct(Named(split)) <==> OnceEach(split)
    decreases |split|
  {
    hide Distinct;
    if split != [] {
      var k := |split| - 1;
      var early, last := split[..k], split[k];
      DistinctNamed(early);
      DistinctJoin(Named(early), last);
      OnceEachJoin(split);
      forall n ensures n in Names(Named(early)) <==> exists i :: OnSide(early, i, n) { NamedOnSides(early, n); }
      assert Names(Named(early)) !! Names(last) <==> forall i, n :: OnSide(early, i, n) ==> n !in Names(last);
    } else {
      NoNames();
    }
  }

  lemma NoNames()
    ensures Distinct([])
  {
  }

  lemma OnceEachJoin(split: seq<seq<Name>>)
    requires split != []
    ensures var k := |split| - 1;
            OnceEach(split) <==> && OnceEach(split[..k]) && Distinct(split[k])
                                 && forall i, n :: OnSide(split[..k], i, n) ==> n !in split[k]
  {
    hide Distinct;
    var k := |split| - 1;
    var early := split[..k];
    if OnceEach(split) {
      forall i, n | OnSide(early, i, n) ensures n !in split[k] {
        assert OnSide(split, i, n);
        assert n in split[k] ==> OnSide(split, k, n);
      }
      forall i, j, n | OnSide(early, i, n) && OnSide(early, j, n) ensures i == j {
        assert OnSide(split, i, n) && OnSide(split, j, n);
      }
    }
    if OnceEach(early) && Distinct(split[k]) && forall i, n :: OnSide(early, i, n) ==> n !in split[k] {
      forall i, j, n | OnSide(split, i, n) && OnSide(split, j, n) ensures i == j {
        if i < k { assert OnSide(early, i, n); }
        if j < k { assert OnSide(early, j, n); }
      }
      forall i | 0 <= i < |split| ensures Distinct(split[i]) { assert i < k ==> split[i] == early[i]; }
    }
  }

  /** A list has as many names as members of its set exactly when no name is there twice. */
  lemma {:induction false} CountsOnce(x: seq<Name>)
    ensures |Names(x)| <= |x| && (|Names(x)| == |x| <==> Distinct(x))
    decreases |x|
  {
    if x != [] {
      var k := |x| - 1;
      var early, last := x[..k], x[k];
      CountsOnce(early);
      assert Names(x) == Names(early) + {last};
      DistinctJoin(early, [last]);
      assert x == early + [last];
    }
  }

  /** What the checks on the list of names come to. */
  lemma SplitNamed(members: seq<Name>, split: seq<seq<Name>>)
    ensures Names(Named(split)) <= Names(members) <==> forall i, n :: OnSide(split, i, n) ==> n in members
    ensures SoundSplit(members, split) <==>
              Names(Named(split)) == Names(members) && |Named(split)| == |Names(Named(split))|
  {
    hide OnceEach, Distinct, Named;
    var named := Named(split);
    DistinctNamed(split);
    CountsOnce(named);
    forall i, n | OnSide(split, i, n) ensures n in Names(named) { NamedOnSides(split, n); }
    forall n | n in Names(named) ensures exists i :: OnSide(split, i, n) { NamedOnSides(split, n); }
    forall n ensures n in members <==> n in Names(members) {}
  }

  class Network {
    var members: seq<Name>
    const minDelay: int
    const maxDelay: int

    var now: int
    var sent: nat
    var deliveredCount: nat
    var droppedByLoss: nat
    var droppedByPartition: nat
    var flight: seq<InFlight>
    var sequence: int
    var sides: seq<set<Name>>
    var delivered: seq<Message>

    /** Everything ever sent, lost or not; what was accepted of it, in send order; and what arrived, in delivery order. */
    ghost var offered: seq<Message>
    ghost var accepted: seq<InFlight>
    ghost var arrived: seq<InFlight>

    ghost function View(): Wire
      reads this
    {
      Wire(accepted, arrived, flight, now, sequence)
    }

    ghost predicate Valid()
      reads this
    {
      && 1 <= minDelay <= maxDelay
      && WireOk(View(), minDelay, maxDelay)
      && delivered == Messages(arrived) && deliveredCount == |delivered|
      // the books balance
      && sent == |offered| == deliveredCount + droppedByLoss + droppedByPartition + |flight|
    }

    constructor (members: seq<Name>, minDelay: int, maxDelay: int)
      requires 1 <= minDelay <= maxDelay
      ensures Valid() && this.members == members && this.minDelay == minDelay && this.maxDelay == maxDelay
      ensures View() == Wire([], [], [], 0, 0) && sides == [] && offered == []
    {
      this.members, this.minDelay, this.maxDelay := members, minDelay, maxDelay;
      now, sent, deliveredCount, droppedByLoss, droppedByPartition, sequence := 0, 0, 0, 0, 0, 0;
      flight, sides, delivered := [], [], [];
      offered, accepted, arrived := [], [], [];
    }

    /** Whether no partition separates two nodes. A node on no side reaches nobody. */
    predicate Reachable(sender: Name, recipient: Name)
      reads this
    {
      sides == [] ||
      exists i :: 0 <= i < |sides| && sender in sides[i] && recipient in sides[i]
                  && forall j :: 0 <= j < i ==> sender !in sides[j]
    }

    /** Under a split that was taken, two nodes reach each other exactly if they are on the same side of it. */
    lemma SidesDecide(split: seq<seq<Name>>, a: Name, b: Name)
      requires SoundSplit(members, split) && sides == Sides(split) && split != [] && a in members
      ensures Reachable(a, b) <==> exists i :: OnSide(split, i, a) && OnSide(split, i, b)
    {
      if i :| OnSide(split, i, a) && OnSide(split, i, b) {
        forall j | 0 <= j < i ensures a !in sides[j] { assert !OnSide(split, j, a); }
        assert a in sides[i] && b in sides[i];
      }
      if Reachable(a, b) {
        var i :| 0 <= i < |sides| && a in sides[i] && b in sides[i] && forall j :: 0 <= j < i ==> a !in sides[j];
        assert OnSide(split, i, a) && OnSide(split, i, b);
      }
    }

    /** The scan of the sides, in order. */
    method CheckReachable(sender: Name, recipient: Name) returns (r: bool)
      ensures r == Reachable(sender, recipient)
    {
      if sides == [] { return true; }
      for i := 0 to |sides|
        invariant forall j :: 0 <= j < i ==> sender !in sides[j]
      {
        if sender in sides[i] { return recipient in sides[i]; }
      }
      r := false;
    }

    /**
    Takes a split if it puts every member on exactly one side. A stranger is refused as unknown, and a split that
    puts a member on two sides or on none is refused as badly configured; the sides that stand are those of the last
    split that was taken.
    */
    method Partition(split: seq<seq<Name>>) returns (r: Result<()>)
      requires Valid()
      modifies this`sides
      ensures Valid() && sides == (if r.Ok? then Sides(split) else old(sides))
      ensures r.Ok? <==> SoundSplit(members, split)
      ensures r == Err(UnknownNode) <==> exists i, n :: OnSide(split, i, n) && n !in members
      ensures r.Err? ==> r.error == UnknownNode || r.error == ConfigError
    {
      hide WireOk, OnceEach, Distinct;
      var named: seq<Name> := [];
      for i := 0 to |split|
        invariant named == Named(split[..i])
      {
        assert split[..i + 1][..i] == split[..i];
        named := named + split[i];
      }
      assert split[..|split|] == split;
      SplitNamed(members, split);
      for i := 0 to |named|
        invariant Names(named[..i]) <= Names(members)
      {
        assert named[i] in Names(named);
        if named[i] !in members { return Err(UnknownNode); }
      }
      assert named[..|named|] == named;
      if |named| != |Names(named)| { return Err(ConfigError); }
      for i := 0 to |members|
        invariant Names(members[..i]) <= Names(named)
      {
        assert members[i] in Names(members);
        if members[i] !in named { return Err(ConfigError); }
      }
      assert members[..|members|] == members;
      sides := Sides(split);
      r := Ok(());
    }

    method Heal()
      requires Valid()
      modifies this`sides
      ensures Valid() && sides == [] && forall a, b :: Reachable(a, b)
    {
      sides := [];
    }

    /** Between members, either accepts the message with its due tick or loses it; nothing later changes which. */
    method Send(message: Message, lost: bool, delay: int) returns (r: Result<bool>)
      requires Valid() && minDelay <= delay <= maxDelay
      modifies this`sent, this`sequence, this`droppedByPartition, this`droppedByLoss, this`flight, this`offered, this`accepted
      ensures Valid()
      ensures message.sender !in members || message.recipient !in members ==>
                r == Err(UnknownNode) && View() == old(View()) && offered == old(offered)
      ensures message.sender in members && message.recipient in members ==>
                && offered == old(offered) + [message]
                && r == Ok(Reachable(message.sender, message.recipient) && !lost)
                && View() == (if r.value then Accepting(old(View()), message, delay)
                              else old(View()).(sequence := old(sequence) + 1))
                && droppedByPartition == old(droppedByPartition) + (if Reachable(message.sender, message.recipient) then 0 else 1)
                && droppedByLoss == old(droppedByLoss) + (if Reachable(message.sender, message.recipient) && lost then 1 else 0)
    {
      hide WireOk;
      if message.sender !in members { return Err(UnknownNode); }
      if message.recipient !in members { return Err(UnknownNode); }
      sent, offered := sent + 1, offered + [message];
      var open := CheckReachable(message.sender, message.recipient);
      AcceptKeepsWire(View(), message, delay, minDelay, maxDelay);
      LossKeepsWire(View(), minDelay, maxDelay);
      if open && !lost {
        Board(InFlight(message, now, now + delay, sequence + 1));
      } else {
        Lose(open);
      }
      r := Ok(open && !lost);
    }

    method Lose(open: bool)
      modifies this`sequence, this`droppedByLoss, this`droppedByPartition
      ensures sequence == old(sequence) + 1
      ensures droppedByLoss + droppedByPartition == old(droppedByLoss + droppedByPartition) + 1
      ensures droppedByPartition == old(droppedByPartition) + (if open then 0 else 1)
    {
      sequence := sequence + 1;
      if !open {
        droppedByPartition := droppedByPartition + 1;
      } else {
        droppedByLoss := droppedByLoss + 1;
      }
    }

    method Board(one: InFlight)
      modifies this`sequence, this`flight, this`accepted
      ensures View() == old(View()).(accepted := old(accepted) + [one], flight := old(flight) + [one],
                                     sequence := one.sequence)
    {
      sequence := one.sequence;
      flight := flight + [one];
      accepted := accepted + [one];
    }

    /** What is due at the new tick leaves the wire, is returned in the order it was sent, and is added to the record. */
    method Tick() returns (out: seq<Message>)
      requires Valid()
      modifies this`now, this`flight, this`delivered, this`deliveredCount, this`arrived
      ensures Valid() && View() == Landing(old(View()))
      ensures out == Messages(Landed(old(flight), now)) && delivered == old(delivered) + out
    {
      hide WireOk;
      Lands(View(), minDelay, maxDelay);
      LandKeepsWire(View(), minDelay, maxDelay);
      SplitSizes(flight, now + 1);
      MessagesJoin(arrived, Landed(flight, now + 1));
      var landed := TakeLanded();
      out := Record(landed);
    }

    method Record(landed: seq<InFlight>) returns (out: seq<Message>)
      modifies this`deliveredCount, this`delivered, this`arrived
      ensures out == Messages(landed) && delivered == old(delivered) + out && arrived == old(arrived) + landed
      ensures deliveredCount == old(deliveredCount) + |landed|
    {
      deliveredCount := deliveredCount + |landed|;
      out := Messages(landed);
      delivered := delivered + out;
      arrived := arrived + landed;
    }

    method TakeLanded() returns (landed: seq<InFlight>)
      modifies this`now, this`flight
      ensures now == old(now) + 1 && flight == Aloft(old(flight), now)
      ensures landed == SortBySequence(Landed(old(flight), now))
    {
      now := now + 1;
      landed := Landed(flight, now);
      flight := Aloft(flight, now);
      landed := SortBySequence(landed);
    }
  }

  /** What a tick hands over is exactly what was due at that tick, neither early nor late. */
  lemma DeliveredWhenDue(w: Wire, one: InFlight)
    requires OnTime(w)
    ensures one in Landed(w.flight, w.now + 1) <==> one in w.flight && one.dueAt == w.now + 1
  {
    SplitsByTime(w.flight, w.now + 1, one);
  }

  /** The wire after so many more ticks. */
  function Later(w: Wire, ticks: nat): Wire {
    if ticks == 0 then w else Landing(Later(w, ticks - 1))
  }

  /**
  A message accepted with a delay is in flight for exactly that many ticks and has arrived from then on, whatever
  else was in flight when it was sent.
  */
  lemma {:induction false} ArrivesAfterItsDelay(w: Wire, message: Message, delay: int, ticks: nat)
    requires OnTime(w) && InOrder(w) && delay >= 1 && forall one :: one in w.arrived ==> one.sequence <= w.sequence
    ensures var one, later := InFlight(message, w.now, w.now + delay, w.sequence + 1), Later(Accepting(w, message, delay), ticks);
            && later.now == w.now + ticks && OnTime(later)
            && (one in later.flight <==> ticks < delay) && (one in later.arrived <==> ticks >= delay)
    decreases ticks
  {
    var one, sent := InFlight(message, w.now, w.now + delay, w.sequence + 1), Accepting(w, message, delay);
    if ticks == 0 {
      assert sent.flight[|w.flight|] == one;
    } else {
      var before := Later(sent, ticks - 1);
      ArrivesAfterItsDelay(w, message, delay, ticks - 1);
      LandKeepsTime(before);
      SplitsByTime(before.flight, before.now + 1, one);
    }
  }
}
