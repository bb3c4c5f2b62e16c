/** The driver object (rsm/cluster.py): what its methods change, and the run of ClusterSpec they trace out. */
module Clusters {
  import opened Basics
  import opened Logs
  import opened Rpc
  import opened NodeSpec
  import ClusterSpec
  import opened Net
  import Driver
  import Commit
  import Safety
  import Straying
  import Invariant
  import Restarts
  import opened Traffic

  type State = ClusterSpec.Cluster
  type Event = ClusterSpec.Event

  /* ---- a run, one event longer ---- */

  lemma RunGoesOn(states: seq<State>, events: seq<Event>, e: Event)
    requires ClusterSpec.Run(states, events) && ClusterSpec.Enabled(states[|events|], e)
    ensures ClusterSpec.Apply(states[|events|], e).Ok?
    ensures ClusterSpec.Run(states + [ClusterSpec.Apply(states[|events|], e).value], events + [e])
  {
    Safety.NothingRaises(states, events, e);
    var states', events' := states + [ClusterSpec.Apply(states[|events|], e).value], events + [e];
    forall i | 0 <= i < |events'| ensures ClusterSpec.StepOf(states', events', i) {
      if i < |events| { assert ClusterSpec.StepOf(states, events, i); }
    }
  }

  /** Everything on the wire goes between members. */
  lemma SentBetweenMembers(states: seq<State>, events: seq<Event>, m: Message)
    requires ClusterSpec.Run(states, events) && m in states[|events|].sent
    ensures m.sender in states[|events|].members && m.recipient in states[|events|].members
  {
    var hs := Safety.RunRecord(states, events);
    var w := Safety.WorldOf(states[|events|], hs[|events|]);
    assert Commit.Full(w);
    assert Invariant.MessageOk(w.h, w.members, m);
  }

  /* ---- what a tick of the driver amounts to ---- */

  /** The messages whose recipient is running, in order. */
  function Arriving(messages: seq<Message>, down: set<Name>): seq<Message> {
    if messages == [] then []
    else
      var early, last := messages[..|messages| - 1], messages[|messages| - 1];
      if last.recipient in down then Arriving(early, down) else Arriving(early, down) + [last]
  }

  /** The messages whose sender is running, in order. */
  function Spoken(messages: seq<Message>, down: set<Name>): seq<Message> {
    if messages == [] then []
    else
      var early, last := messages[..|messages| - 1], messages[|messages| - 1];
      if last.sender in down then Spoken(early, down) else Spoken(early, down) + [last]
  }

  /** The running members, in order. */
  function Up(members: seq<Name>, down: set<Name>): seq<Name> {
    if members == [] then []
    else
      var early, last := members[..|members| - 1], members[|members| - 1];
      if last in down then Up(early, down) else Up(early, down) + [last]
  }

  ghost predicate Deliveries(es: seq<Event>, heard: seq<Message>) {
    |es| == |heard| && forall i :: 0 <= i < |es| ==> es[i].Deliver? && es[i].message == heard[i]
  }

  ghost predicate TimersRan(es: seq<Event>, ups: seq<Name>, now: int) {
    |es| == |ups| && forall i :: 0 <= i < |es| ==> es[i].Timer? && es[i].node == ups[i] && es[i].now == now
  }

  /** A tick delivers what landed for running nodes, in order, and then times every running node, in order. */
  ghost predicate TickTrace(es: seq<Event>, heard: seq<Message>, ups: seq<Name>, now: int) {
    |es| == |heard| + |ups| && Deliveries(es[..|heard|], heard) && TimersRan(es[|heard|..], ups, now)
  }

  lemma OneMoreDelivery(es: seq<Event>, heard: seq<Message>, e: Event)
    requires Deliveries(es, heard) && e.Deliver?
    ensures Deliveries(es + [e], heard + [e.message])
  {
  }

  lemma ArrivingGrows(messages: seq<Message>, i: nat, down: set<Name>)
    requires i < |messages|
    ensures Arriving(messages[..i + 1], down) ==
            Arriving(messages[..i], down) + (if messages[i].recipient in down then [] else [messages[i]])
  {
    assert messages[..i + 1][..i] == messages[..i];
  }

  lemma OneMoreTimer(es: seq<Event>, ups: seq<Name>, now: int, e: Event)
    requires TimersRan(es, ups, now) && e.Timer? && e.now == now
    ensures TimersRan(es + [e], ups + [e.node], now)
  {
  }

  lemma UpGrows(members: seq<Name>, i: nat, down: set<Name>)
    requires i < |members|
    ensures Up(members[..i + 1], down) == Up(members[..i], down) + (if members[i] in down then [] else [members[i]])
  {
    assert members[..i + 1][..i] == members[..i];
  }

  lemma TraceJoins(es: seq<Event>, es': seq<Event>, all: seq<Event>, heard: seq<Message>, ups: seq<Name>, now: int)
    requires Deliveries(es, heard) && TimersRan(es', ups, now) && all == es + es'
    ensures TickTrace(all, heard, ups, now)
  {
    assert all[..|heard|] == es && all[|heard|..] == es';
  }

  class Cluster {
    const members: seq<Name>
    const preVote: bool
    const maxBatch: nat
    const net: Network
    var nodes: map<Name, NodeState>
    var now: int
    var down: set<Name>

    /** The run so far. */
    ghost var states: seq<State>
    ghost var events: seq<Event>

    /**
    The driver's state is where its run has got to, its clock is the network's, and what it offered the network is
    what the run said, in that order.
    */
    ghost predicate Valid()
      reads this, net
    {
      Going() && net.now == now && Clocked(events, now) && net.offered == Said(states, events, |events|)
    }

    ghost predicate Going()
      reads this, net
    {
      && net.Valid() && net.members == members
      && ClusterSpec.Run(states, events)
      && (var c := states[|events|]; c.members == members && c.nodes == nodes && c.down == down && OnWire(net.flight, c.sent))
      && down <= Names(members)
      && MadeAlike(states[0])
    }

    /** Every node is made with the cluster's settings. */
    ghost predicate MadeAlike(c: State) {
      forall n :: n in c.nodes ==> c.nodes[n].preVote == preVote && c.nodes[n].maxBatch == maxBatch
    }

    /** And stays so. */
    lemma StillAlike()
      requires Going()
      ensures MadeAlike(states[|events|])
      ensures forall n :: n in nodes ==> nodes[n].members == members && !nodes[n].commitAnyTerm
    {
      hide MadeAlike, ClusterSpec.Run, Net.Network.Valid, OnWire;
      AlikeThroughout(states, events, |events|);
    }

    lemma AlikeThroughout(states: seq<State>, events: seq<Event>, k: nat)
      requires ClusterSpec.Run(states, events) && k <= |events| && MadeAlike(states[0])
      ensures MadeAlike(states[k])
      ensures forall n :: n in states[k].nodes ==>
                states[k].nodes[n].members == states[k].members && !states[k].nodes[n].commitAnyTerm
    {
      Driver.RunShape(states, events, 0);
      Driver.RunShape(states, events, k);
      Driver.MembersStay(states, events, k);
      forall n | n in states[k].nodes
        ensures && states[k].nodes[n].preVote == preVote && states[k].nodes[n].maxBatch == maxBatch
                && states[k].nodes[n].members == states[k].members && !states[k].nodes[n].commitAnyTerm
      {
        Restarts.MakeStays(states, events, 0, k, n);
        Restarts.CurrentTermOnly(states, events, k, n);
        assert ClusterSpec.InitialNode(states[0].nodes[n], n, states[0].members);
      }
    }

    ghost predicate OnWire(flight: seq<InFlight>, sent: set<Message>) {
      forall one :: one in flight ==> one.message in sent
    }

    /** The run went on from where it was. */
    twostate predicate Continues()
      reads this
    {
      old(states) <= states && old(events) <= events
    }

    /** `spans` are the election timeouts the nodes drew. */
    constructor (members: seq<Name>, minDelay: int, maxDelay: int, preVote: bool, maxBatch: nat, spans: map<Name, int>)
      requires members != [] && Distinct(members) && 1 <= minDelay <= maxDelay
      requires forall n :: n in members ==>
                 n in spans && Driver.MIN_ELECTION_TIMEOUT <= spans[n] <= Driver.MAX_ELECTION_TIMEOUT
      ensures Valid() && fresh(net) && this.members == members && this.preVote == preVote && this.maxBatch == maxBatch
      ensures net.minDelay == minDelay && net.maxDelay == maxDelay && events == [] && now == 0 && down == {}
      ensures nodes.Keys == Names(members)
      ensures forall n :: n in members ==> nodes[n] == Fresh(n, members, preVote, maxBatch, spans[n])
    {
      this.members, this.preVote, this.maxBatch := members, preVote, maxBatch;
      net := new Network(members, minDelay, maxDelay);
      nodes := map n | n in members :: Fresh(n, members, preVote, maxBatch, spans[n]);
      now, down := 0, {};
      events := [];
      states := [ClusterSpec.Cluster(members, map n | n in members :: Fresh(n, members, preVote, maxBatch, spans[n]), {}, {})];
    }

    /** The next timeout a node draws. */
    method Draw() returns (span: int)
      ensures Driver.MIN_ELECTION_TIMEOUT <= span <= Driver.MAX_ELECTION_TIMEOUT
    {
      span :| Driver.MIN_ELECTION_TIMEOUT <= span <= Driver.MAX_ELECTION_TIMEOUT;
    }

    ghost method Record(e: Event)
      requires ClusterSpec.Run(states, events) && ClusterSpec.Enabled(states[|events|], e)
      requires Clocked(events, now) && InTime(e, now) && (Reads(e) ==> e.now == now)
      modifies this`states, this`events
      ensures ClusterSpec.Run(states, events) && events == old(events) + [e] && old(states) <= states
      ensures ClusterSpec.Apply(old(states[|events|]), e) == Ok(states[|events|])
      ensures Clocked(events, now)
      ensures Said(states, events, |events|) == old(Said(states, events, |events|)) + Says(old(states[|events|]), e)
    {
      hide Says, Clocked;
      RunGoesOn(states, events, e);
      ClockedOn(events, e, now);
      SaidBefore(states, events, states + [ClusterSpec.Apply(states[|events|], e).value], events + [e], |events|);
      states := states + [ClusterSpec.Apply(states[|events|], e).value];
      events := events + [e];
    }

    /** Offers the network the messages of running senders, in their order, and no others. */
    method SendAll(messages: seq<Message>) returns (r: Result<()>)
      requires Going() && forall m :: m in messages ==> m in states[|events|].sent
      modifies net
      ensures Going() && net.now == old(net.now) && r == Ok(()) && net.offered == old(net.offered) + Spoken(messages, down)
    {
      hide Going, Net.Network.Valid;
      for i := 0 to |messages|
        invariant Going() && net.now == old(net.now) && net.offered == old(net.offered) + Spoken(messages[..i], down)
      {
        assert messages[..i + 1][..i] == messages[..i];
        if messages[i].sender !in down { SendOne(messages[i]); }
      }
      assert messages[..|messages|] == messages;
      r := Ok(());
    }

    /** What a running node says is all offered. */
    lemma AllSpoken(messages: seq<Message>, n: Name)
      requires n !in down && forall m :: m in messages ==> m.sender == n
      ensures Spoken(messages, down) == messages
      decreases |messages|
    {
      if messages != [] {
        assert messages == messages[..|messages| - 1] + [messages[|messages| - 1]];
        AllSpoken(messages[..|messages| - 1], n);
      }
    }

    method SendOne(m: Message)
      requires Going() && m in states[|events|].sent
      modifies net
      ensures Going() && net.now == old(net.now) && net.offered == old(net.offered) + [m]
    {
      hide ClusterSpec.Run, WireOk;
      SentBetweenMembers(states, events, m);
      var lost: bool := *;
      var delay: int :| net.minDelay <= delay <= net.maxDelay;
      ghost var before := net.flight;
      var _ := net.Send(m, lost, delay);
      assert forall one :: one in net.flight ==> one in before || one.message == m;
    }

    /** An event a running node's call amounts to: the node it leaves takes the old one's place, and all it says is sent. */
    method Happens(n: Name, node: NodeState, sends: seq<Message>, ghost e: Event)
      requires Valid() && n !in down && InTime(e, now) && (Reads(e) ==> e.now == now)
      requires ClusterSpec.Enabled(states[|events|], e)
      requires ClusterSpec.Apply(states[|events|], e) == Ok(ClusterSpec.Install(states[|events|], n, Effect(node, sends)))
      requires Says(states[|events|], e) == sends && forall m :: m in sends ==> m.sender == n
      modifies this`nodes, this`states, this`events, net
      ensures Valid() && Continues() && events == old(events) + [e]
      ensures nodes == old(nodes)[n := node] && net.offered == old(net.offered) + sends
      ensures old(states[|events|].sent) <= states[|events|].sent
    {
      hide ClusterSpec.StepOf, ClusterSpec.Apply, ClusterSpec.Enabled, Says, Clocked, Net.Network.Valid, MadeAlike;
      Record(e);
      nodes := nodes[n := node];
      AllSpoken(sends, n);
      var _ := SendAll(sends);
    }

    method DeliverOne(message: Message) returns (r: Result<()>)
      requires Valid() && message in states[|events|].sent && message.recipient !in down
      modifies this`nodes, this`states, this`events, net
      ensures Valid() && Continues() && r == Ok(())
      ensures |events| == old(|events|) + 1 && events[old(|events|)].Deliver? && events[old(|events|)].message == message
      ensures old(states[|events|].sent) <= states[|events|].sent
    {
      hide Net.Network.Valid, MadeAlike, Step, ClusterSpec.StepOf, OnWire;
      SentBetweenMembers(states, events, message);
      Driver.RunShape(states, events, |events|);
      var n := message.recipient;
      var span := Draw();
      ghost var e := ClusterSpec.Deliver(message, span);
      Safety.NothingRaises(states, events, e);
      SaysOwn(states[|events|], e, n);
      var effect := Step(nodes[n], message, span).value;
      Happens(n, effect.node, effect.sends, e);
      r := Ok(());
    }

    method TickOne(n: Name) returns (r: Result<()>)
      requires Valid() && n in members && n !in down
      modifies this`nodes, this`states, this`events, net
      ensures Valid() && Continues() && r == Ok(())
      ensures |events| == old(|events|) + 1
      ensures var e := events[old(|events|)]; e.Timer? && e.node == n && e.now == now
    {
      hide Net.Network.Valid, MadeAlike, NodeSpec.Tick, ClusterSpec.StepOf, OnWire;
      Driver.RunShape(states, events, |events|);
      var span := Draw();
      ghost var e := ClusterSpec.Timer(n, now, span);
      Safety.NothingRaises(states, events, e);
      SaysOwn(states[|events|], e, n);
      var effect := NodeSpec.Tick(nodes[n], now, span).value;
      Happens(n, effect.node, effect.sends, e);
      r := Ok(());
    }

    /**
    Extends the run by the deliveries that are due and then by every running node's timer. The checks at its end
    never fail as long as nothing has strayed, and never on leaders or on logs in any case.
    */
    method Tick() returns (r: Result<()>)
      requires Valid()
      modifies this`nodes, this`now, this`states, this`events, net
      ensures Valid() && Continues() && now == old(now) + 1
      ensures TickTrace(events[old(|events|)..], Arriving(Messages(Landed(old(net.flight), old(net.now) + 1)), down),
                        Up(members, down), now)
      ensures Straying.NoStrayBefore(states, events, |events|) ==> r == Ok(())
      ensures r.Err? ==> r.error == StateMachineSafety
    {
      hide Deliveries, TimersRan, TickTrace, ClusterSpec.Run, WireOk, OnWire, Landed, Arriving, Up, Messages;
      var landed := TakeLanded();
      DeliverAndTime(landed);
      r := Check();
    }

    method DeliverAndTime(landed: seq<Message>)
      requires Valid() && forall m :: m in landed ==> m in states[|events|].sent
      modifies this`nodes, this`states, this`events, net
      ensures Valid() && Continues()
      ensures TickTrace(events[old(|events|)..], Arriving(landed, down), Up(members, down), now)
    {
      hide Deliveries, TimersRan, TickTrace, OnWire, Net.Network.Valid, Clocked, Said, MadeAlike, ClusterSpec.StepOf;
      ghost var e0 := events;
      DeliverAll(landed);
      ghost var e1 := events;
      TimeAll();
      ghost var e2 := events;
      assert e2[|e0|..] == e1[|e0|..] + e2[|e1|..];
      TraceJoins(e1[|e0|..], e2[|e1|..], e2[|e0|..], Arriving(landed, down), Up(members, down), now);
    }

    method DeliverAll(landed: seq<Message>)
      requires Valid() && forall m :: m in landed ==> m in states[|events|].sent
      modifies this`nodes, this`states, this`events, net
      ensures Valid() && Continues() && Deliveries(events[old(|events|)..], Arriving(landed, down))
    {
      hide Deliveries, Arriving, OnWire, Net.Network.Valid, Clocked, Said, MadeAlike, ClusterSpec.StepOf;
      NoDeliveries();
      assert events[old(|events|)..] == [] && landed[..0] == [];
      for i := 0 to |landed|
        invariant Valid() && Continues() && Deliveries(events[old(|events|)..], Arriving(landed[..i], down))
        invariant forall m :: m in landed ==> m in states[|events|].sent
      {
        ghost var before, k := events, |events|;
        ArrivingGrows(landed, i, down);
        assert Arriving(landed[..i], down) + [] == Arriving(landed[..i], down);
        if landed[i].recipient !in down {
          var _ := DeliverOne(landed[i]);
          assert events[..k] == before;
          assert events[old(|events|)..] == before[old(|events|)..] + [events[k]];
          OneMoreDelivery(before[old(|events|)..], Arriving(landed[..i], down), events[k]);
        }
      }
      assert landed[..|landed|] == landed;
    }

    lemma NoDeliveries()
      ensures Deliveries([], Arriving([], down))
    {
    }

    method TimeAll()
      requires Valid()
      modifies this`nodes, this`states, this`events, net
      ensures Valid() && Continues() && TimersRan(events[old(|events|)..], Up(members, down), now)
    {
      hide TimersRan, Up, Valid;
      NoTimers(now);
      assert events[old(|events|)..] == [] && members[..0] == [];
      for i := 0 to |members|
        invariant Valid() && Continues() && TimersRan(events[old(|events|)..], Up(members[..i], down), now)
      {
        ghost var before, k := events, |events|;
        UpGrows(members, i, down);
        assert Up(members[..i], down) + [] == Up(members[..i], down);
        if members[i] !in down {
          var _ := TickOne(members[i]);
          assert events[..k] == before;
          assert events[old(|events|)..] == before[old(|events|)..] + [events[k]];
          OneMoreTimer(before[old(|events|)..], Up(members[..i], down), now, events[k]);
        }
      }
      assert members[..|members|] == members;
    }

    lemma NoTimers(now: int)
      ensures TimersRan([], Up([], down), now)
    {
    }

    method TakeLanded() returns (landed: seq<Message>)
      requires Valid()
      modifies this`now, net
      ensures Valid() && now == old(now) + 1 && forall m :: m in landed ==> m in states[|events|].sent
      ensures landed == Messages(Landed(old(net.flight), old(net.now) + 1))
    {
      hide ClusterSpec.StepOf, Net.Network.Valid, Clocked, Said, MadeAlike, OnWire, Landed, Aloft, Messages;
      ClockedLater(events, now);
      StillFlying(net.flight, now + 1, states[|events|].sent);
      now := now + 1;
      landed := net.Tick();
    }

    lemma ClockedLater(events: seq<Event>, now: int)
      requires Clocked(events, now)
      ensures Clocked(events, now + 1)
    {
    }

    lemma StillFlying(flight: seq<InFlight>, now: int, sent: set<Message>)
      requires OnWire(flight, sent)
      ensures OnWire(Aloft(flight, now), sent) && forall m :: m in Messages(Landed(flight, now)) ==> m in sent
    {
      forall one ensures one in Landed(flight, now) || one in Aloft(flight, now) ==> one in flight {
        SplitsByTime(flight, now, one);
      }
      var landed := Landed(flight, now);
      forall m | m in Messages(landed) ensures m in sent {
        var i :| 0 <= i < |Messages(landed)| && Messages(landed)[i] == m;
        assert landed[i] in landed;
      }
    }

    /** The safety checks on the running nodes. */
    method Check() returns (r: Result<()>)
      requires Valid()
      ensures Straying.NoStrayBefore(states, events, |events|) ==> r == Ok(())
      ensures r.Err? ==> r.error == StateMachineSafety
    {
      Driver.VerifyNeverFails(states, events, |events|);
      r := Driver.Verify(Driver.UpNodes(members, nodes, down));
    }

    /** The running leader above all other running leaders in term; there is none exactly when nobody running leads. */
    method Leader() returns (found: Option<Name>)
      requires Valid()
      ensures found.None? <==> forall n :: n in members && n !in down && n in nodes ==> nodes[n].role != NodeSpec.Leader
      ensures found.Some? ==>
                var n := found.value;
                && n in members && n !in down && n in nodes && nodes[n].role == NodeSpec.Leader
                && forall k :: k in members && k !in down && k in nodes && nodes[k].role == NodeSpec.Leader && k != n ==>
                     nodes[k].term < nodes[n].term
    {
      hide Clocked, Net.Network.Valid, MadeAlike, OnWire, ClusterSpec.StepOf, Said;
      Driver.RunShape(states, events, |events|);
      found := None;
      var best: int := 0;
      var top := 0;
      for i := 0 to |members|
        invariant found.None? ==>
                    top == best == 0
                    && forall j :: 0 <= j < i ==> members[j] in down || nodes[members[j]].role != NodeSpec.Leader
        invariant found.Some? ==>
                    var n := found.value;
                    && n in members[..i] && n !in down && nodes[n].role == NodeSpec.Leader && nodes[n].term == best
                    && top == 1
                    && (forall j ::
                          0 <= j < i && members[j] !in down && nodes[members[j]].role == NodeSpec.Leader && members[j] != n
                          ==> nodes[members[j]].term < best)
      {
        var n := members[i];
        if n !in down && nodes[n].role == NodeSpec.Leader {
          if nodes[n].term > best {
            found, best, top := Some(n), nodes[n].term, 1;
          } else if nodes[n].term == best {
            Safety.OneLeaderPerTerm(states, events, |events|, |events|, n, found.value);
            top := top + 1;
          }
        }
      }
      if top != 1 { found := None; }
    }

    /** Of the running leaders the one highest in term took the write, and no other node changed. */
    ghost predicate Wrote(before: map<Name, NodeState>, n: Name, command: Command, index: int)
      reads this`nodes, this`down
    {
      && n in members && n !in down && n in before && n in nodes && before[n].role == NodeSpec.Leader
      && (forall k :: k in members && k !in down && k in before && before[k].role == NodeSpec.Leader && k != n ==>
            before[k].term < before[n].term)
      && NodeSpec.Propose(before[n], command) == Ok((nodes[n], index))
      && nodes == before[n := nodes[n]]
    }

    /** Hands the write to the leader that `Leader` finds, and fails exactly when it finds none. */
    method Propose(command: Command) returns (r: Result<int>)
      requires Valid()
      modifies this`nodes, this`states, this`events, net
      ensures Valid() && Continues()
      ensures r.Err? <==> forall n :: n in members && n !in down && n in old(nodes) ==> old(nodes)[n].role != NodeSpec.Leader
      ensures r.Err? ==> r.error == NoLeader && nodes == old(nodes) && events == old(events)
      ensures r.Ok? ==> exists n :: Wrote(old(nodes), n, command, r.value)
                                    && events == old(events) + [ClusterSpec.Request(n, command)]
                                    && net.offered == old(net.offered) + Replicate(nodes[n])
    {
      hide Clocked, Net.Network.Valid, MadeAlike, NodeSpec.Propose, ClusterSpec.StepOf, Replicate, OnWire;
      Driver.RunShape(states, events, |events|);
      var found := Leader();
      if found.None? { return Err(NoLeader); }
      var n := found.value;
      ghost var e := ClusterSpec.Request(n, command);
      Safety.NothingRaises(states, events, e);
      SaysOwn(states[|events|], e, n);
      var written := NodeSpec.Propose(nodes[n], command).value;
      Happens(n, written.0, Replicate(written.0), e);
      r := Ok(written.1);
      assert Wrote(old(nodes), n, command, r.value);
    }

    /** Stop a node. */
    method Crash(n: Name) returns (r: Result<()>)
      requires Valid()
      modifies this`down, this`states, this`events
      ensures Valid() && Continues()
      ensures if n in members then r == Ok(()) && down == old(down) + {n} else r == Err(UnknownNode) && down == old(down)
    {
      if n !in members { return Err(UnknownNode); }
      Driver.RunShape(states, events, |events|);
      Record(ClusterSpec.Crash(n));
      down := down + {n};
      r := Ok(());
    }

    /** A crashed node runs again: what is persistent is as it was, and the rest as in a new node. */
    method Restart(n: Name) returns (r: Result<()>)
      requires Valid()
      modifies this`nodes, this`down, this`states, this`events
      ensures Valid() && Continues()
      ensures n !in old(down) ==> r == Err(ConfigError) && nodes == old(nodes) && down == old(down) && events == old(events)
      ensures n in old(down) ==>
                && r == Ok(()) && down == old(down) - {n} && n in nodes && n in old(nodes) && nodes == old(nodes)[n := nodes[n]]
                && var s, s' := old(nodes)[n], nodes[n];
                   && s'.term == s.term && s'.votedFor == s.votedFor && s'.log == s.log
                   && s'.role == Follower && s'.leader == None && s'.votes == {} && s'.preVotes == {}
                   && s'.nextIndex == map[] && s'.matchIndex == map[]
                   && s'.commitIndex == s'.lastApplied == 0 && s'.applied == [] && s'.state == map[]
                   && s'.name == n && s'.members == members && s'.preVote == preVote && s'.maxBatch == maxBatch
                   && !s'.commitAnyTerm
                   && s'.now == now
                   && Driver.MIN_ELECTION_TIMEOUT <= s'.electionDeadline - now <= Driver.MAX_ELECTION_TIMEOUT
    {
      hide Net.Network.Valid, ClusterSpec.StepOf, OnWire, Said;
      if n !in down { return Err(ConfigError); }
      Driver.RunShape(states, events, |events|);
      StillAlike();
      var span := Draw();
      ghost var e := ClusterSpec.Restart(n, now, span);
      Safety.NothingRaises(states, events, e);
      var reborn := Restarted(nodes[n], now, span).value;
      Record(e);
      nodes := nodes[n := reborn];
      down := down - {n};
      r := Ok(());
    }
  }
}
