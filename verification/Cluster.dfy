/**
The cluster as a transition system (rsm/cluster.py over rsm/net.py). `sent` is every message ever
put on the wire; a message in it may arrive at any time, again, or never, which covers every loss,
delay, reordering and partition the network can produce. Timers may fire at any reading of the clock.
*/
module ClusterSpec {
  import opened Basics
  import opened Logs
  import opened Rpc
  import opened NodeSpec

  datatype Cluster = Cluster(members: seq<Name>, nodes: map<Name, NodeState>, down: set<Name>, sent: set<Message>)

  datatype Event =
    | Deliver(message: Message, span: int)
    | Timer(node: Name, now: int, span: int)
    | Request(node: Name, command: Command)
    | Crash(node: Name)
    | Restart(node: Name, now: int, span: int)

  ghost predicate Initial(c: Cluster) {
    && c.members != [] && Distinct(c.members)
    && c.nodes.Keys == Names(c.members)
    && c.down == {} && c.sent == {}
    && (forall n :: n in c.nodes ==> InitialNode(c.nodes[n], n, c.members))
  }

  ghost predicate InitialNode(s: NodeState, n: Name, members: seq<Name>) {
    s == Fresh(n, members, s.preVote, s.maxBatch, s.electionDeadline)
  }

  ghost predicate WellNamed(c: Cluster) {
    forall n :: n in c.nodes ==> c.nodes[n].name == n
  }

  /** What the driver can do next. Only running nodes hear, tick or take writes. */
  ghost predicate Enabled(c: Cluster, e: Event) {
    WellNamed(c) &&
    match e
    case Deliver(m, _) => m in c.sent && m.recipient in c.nodes && m.recipient !in c.down
    case Timer(n, _, _) => n in c.nodes && n !in c.down
    case Request(n, _) => n in c.nodes && n !in c.down && c.nodes[n].role == Leader
    case Crash(n) => n in c.nodes
    case Restart(n, _, _) => n in c.nodes && n in c.down
  }

  function Install(c: Cluster, n: Name, effect: Effect): Cluster {
    c.(nodes := c.nodes[n := effect.node], sent := c.sent + set m | m in effect.sends)
  }

  /** What an event does to the cluster, or the exception that escapes from it. */
  ghost function Apply(c: Cluster, e: Event): Result<Cluster>
    requires Enabled(c, e)
  {
    match e
    case Deliver(m, span) =>
      var effect :- Step(c.nodes[m.recipient], m, span);
      Ok(Install(c, m.recipient, effect))
    case Timer(n, now, span) =>
      var effect :- Tick(c.nodes[n], now, span);
      Ok(Install(c, n, effect))
    case Request(n, command) =>
      var written :- Propose(c.nodes[n], command);
      Ok(Install(c, n, Effect(written.0, Replicate(written.0))))
    case Crash(n) => Ok(c.(down := c.down + {n}))
    case Restart(n, now, span) =>
      var reborn :- Restarted(c.nodes[n], now, span);
      Ok(c.(nodes := c.nodes[n := reborn], down := c.down - {n}))
  }

  /** A run: the states it went through and the events between them. */
  ghost predicate Run(states: seq<Cluster>, events: seq<Event>) {
    && |states| == |events| + 1
    && Initial(states[0])
    && forall i :: 0 <= i < |events| ==> StepOf(states, events, i)
  }

  ghost predicate StepOf(states: seq<Cluster>, events: seq<Event>, i: int)
    requires 0 <= i < |events| && |states| == |events| + 1
  {
    Enabled(states[i], events[i]) && Apply(states[i], events[i]) == Ok(states[i + 1])
  }
}
