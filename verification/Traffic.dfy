/**
What a run says and when (rsm/cluster.py): the messages its events put on the wire, in order, which are exactly the
messages ever sent, and readings of a clock that never goes back, with timeouts drawn from the shipped range.
*/
module Traffic {
  import opened Basics
  import opened Logs
  import opened Rpc
  import opened NodeSpec
  import opened ClusterSpec
  import opened Timers
  import Driver

  /* ---- what is said ---- */

  /** What the node an event is about says because of it, in order. */
  ghost function Says(c: Cluster, e: Event): seq<Message> {
    if !Enabled(c, e) || Apply(c, e).Err? then []
    else
      match e
      case Deliver(m, span) => Step(c.nodes[m.recipient], m, span).value.sends
      case Timer(n, now, span) => Tick(c.nodes[n], now, span).value.sends
      case Request(n, command) => Replicate(Propose(c.nodes[n], command).value.0)
      case _ => []
  }

  /** All that was said in the first `k` events. */
  ghost function Said(states: seq<Cluster>, events: seq<Event>, k: nat): seq<Message>
    requires k <= |events| < |states|
  {
    if k == 0 then [] else Said(states, events, k - 1) + Says(states[k - 1], events[k - 1])
  }

  /** A longer run has said what a shorter one had, as far as that went. */
  lemma {:induction false} SaidBefore(states: seq<Cluster>, events: seq<Event>, more: seq<Cluster>, later: seq<Event>, k: nat)
    requires k <= |events| < |states| && |later| < |more| && states <= more && events <= later
    ensures Said(more, later, k) == Said(states, events, k)
    decreases k
  {
    hide Says;
    if k > 0 { SaidBefore(states, events, more, later, k - 1); }
  }

  lemma SaysOwn(c: Cluster, e: Event, n: Name)
    requires Enabled(c, e) && Apply(c, e).Ok?
    requires match e
             case Deliver(m, _) => n == m.recipient
             case Timer(k, _, _) => n == k
             case Request(k, _) => n == k
             case _ => false
    ensures forall m :: m in Says(c, e) ==> m.sender == n
  {
    hide Step, Tick, Propose, Replicate;
    match e
    case Deliver(m, span) => StepOwn(c.nodes[n], m, span);
    case Timer(_, now, span) => TickOwn(c.nodes[n], now, span);
    case Request(_, command) =>
      ReplicasOwn(Propose(c.nodes[n], command).value.0);
      ProposeName(c.nodes[n], command);
  }

  lemma ProposeName(s: NodeState, command: Command)
    requires Propose(s, command).Ok?
    ensures Propose(s, command).value.0.name == s.name
  {
  }

  lemma SaysSends(c: Cluster, e: Event)
    requires Enabled(c, e) && Apply(c, e).Ok?
    ensures Apply(c, e).value.sent == c.sent + (set m | m in Says(c, e))
  {
    hide Step, Tick, Propose, Replicate, Restarted;
  }

  /** The messages ever sent in a run are exactly those said. */
  lemma {:induction false} SaidIsSent(states: seq<Cluster>, events: seq<Event>, k: nat)
    requires Run(states, events) && k <= |events|
    ensures forall m :: m in states[k].sent <==> m in Said(states, events, k)
    decreases k
  {
    hide Apply, Enabled, Says;
    if k > 0 {
      assert StepOf(states, events, k - 1);
      SaidIsSent(states, events, k - 1);
      SaysSends(states[k - 1], events[k - 1]);
    }
  }

  /* ---- when things happen ---- */

  predicate Reads(e: Event) { e.Timer? || e.Restart? }

  /** It reads no clock ahead of `now`, and draws no timeout out of range. */
  predicate InTime(e: Event, now: int) {
    && (Reads(e) ==> 0 <= e.now <= now)
    && (Reads(e) || e.Deliver? ==> Driver.MIN_ELECTION_TIMEOUT <= e.span <= Driver.MAX_ELECTION_TIMEOUT)
  }

  /** Events by a clock that never goes back and now reads `now`. */
  ghost predicate Clocked(events: seq<Event>, now: int) {
    && 0 <= now && (forall i :: 0 <= i < |events| ==> InTime(events[i], now))
    && (forall i, j :: 0 <= i < j < |events| && Reads(events[i]) && Reads(events[j]) ==> events[i].now <= events[j].now)
  }

  lemma ClockedOn(events: seq<Event>, e: Event, now: int)
    requires Clocked(events, now) && InTime(e, now) && (Reads(e) ==> e.now == now)
    ensures Clocked(events + [e], now)
  {
  }

  /** No node's clock is ahead of any reading still to come. */
  lemma {:induction false} ClocksBehind(states: seq<Cluster>, events: seq<Event>, now: int, i: nat, j: nat, f: Name)
    requires Run(states, events) && Clocked(events, now) && i <= j < |events| && Reads(events[j]) && f in states[i].nodes
    ensures states[i].nodes[f].now <= events[j].now
    decreases i
  {
    hide Apply, Enabled;
    if i > 0 {
      assert StepOf(states, events, i - 1);
      ClockMoves(states[i - 1], events[i - 1], f);
      ClocksBehind(states, events, now, i - 1, j, f);
    } else {
      assert InTime(events[j], now) && InitialNode(states[0].nodes[f], f, states[0].members);
    }
  }

  lemma ClockMoves(c: Cluster, e: Event, f: Name)
    requires Enabled(c, e) && Apply(c, e).Ok? && f in Apply(c, e).value.nodes
    ensures f in c.nodes
    ensures var s' := Apply(c, e).value.nodes[f];
            s'.now == if Reads(e) && e.node == f then e.now else c.nodes[f].now
  {
    hide Step, Tick, Propose;
    match e
    case Deliver(m, span) => if m.recipient == f { TimerMovesExactly(c.nodes[f], m, span); }
    case Timer(n, now, span) => if n == f { TickTimer(c.nodes[f], now, span); }
    case Request(n, command) => if n == f { ProposeTimer(c.nodes[f], command); }
    case _ =>
  }

  /**
  The leash of the driver: for as long as the shortest timeout after it has heard its leader, a node that does not
  lead is stirred by no timer of its own; every such tick leaves the whole cluster as it was but for its clock.
  */
  lemma DriverKeepsTheLeash(states: seq<Cluster>, events: seq<Event>, now: int, i: nat, j: nat, f: Name)
    requires Run(states, events) && Clocked(events, now) && i < j < |events| && f in states[i].nodes
    requires events[i].Deliver? && events[i].message.recipient == f
    requires events[i].message.Append? || events[i].message.InstallSnapshot?
    requires events[i].message.term >= states[i].nodes[f].term
    requires events[j].Timer? && events[j].node == f
    requires events[j].now < states[i].nodes[f].now + Driver.MIN_ELECTION_TIMEOUT
    ensures f in states[j].nodes
    ensures states[j].nodes[f].role != Leader ==>
              states[j + 1] == states[j].(nodes := states[j].nodes[f := states[j].nodes[f].(now := events[j].now)])
  {
    hide Apply, Enabled, Initial;
    forall k | i <= k < j ensures Timely(events[k], f, states[i].nodes[f].now, Driver.MIN_ELECTION_TIMEOUT) {
      assert InTime(events[k], now);
      if Reads(events[k]) { ClocksBehind(states, events, now, i, k, f); }
    }
    HeardIsQuiet(states, events, i, j, f, Driver.MIN_ELECTION_TIMEOUT);
  }
}
