/**
The safety theorems of the whole cluster, for every size, every schedule of deliveries, losses,
delays, reorderings, timeouts, writes, crashes and restarts, and every length of run.
*/
module Safety {
  import opened Basics
  import opened Logs
  import opened Rpc
  import opened NodeSpec
  import opened ClusterSpec
  import opened Invariant
  import opened Keeping
  import opened Actions
  import opened Commit
  import opened Steps
  import opened Handlers

  /* ---- the invariant holds at every moment of a run ---- */

  ghost function WorldOf(c: Cluster, h: History): World {
    World(c.members, c.nodes, c.sent, h)
  }

  lemma Begins(c: Cluster) returns (h: History)
    requires Initial(c)
    ensures Full(WorldOf(c, h)) && !h.strayed
  {
    h := History(map[], map[], map[], {}, {}, false);
    forall n | n in c.nodes ensures NodeOk(h, c.members, n, c.nodes[n]) && CommitOk(h, c.nodes[n]) {
      assert InitialNode(c.nodes[n], n, c.members);
    }
  }

  lemma RestartKeeps(w: World, n: Name, now: int, span: int)
    requires Full(w) && n in w.nodes
    ensures Restarted(w.nodes[n], now, span).Ok?
    ensures Full(Moved(w, n, Restarted(w.nodes[n], now, span).value, w.h))
  {
    var s := w.nodes[n];
    assert NodeOk(w.h, w.members, n, s);
    var s' := Restarted(s, now, span).value;
    Settle(w, n, s');
    ExtendsSelf(w.h);
    if !w.h.strayed { MovedCommits(w, n, s', w.h); }
  }

  /**
  Every leader whose commit index rose in a step has a certificate for where it now stands, and a step on record
  as the first to stray moved some follower's commit index beyond what its leader holds.
  */
  ghost predicate CommitStep(h: History, h': History, c: Cluster, c': Cluster) {
    && (forall n {:trigger c.nodes[n]} {:trigger c'.nodes[n]} ::
          n in c.nodes && n in c'.nodes ==> Certified(h', c.nodes[n], c'.nodes[n]))
    && (h'.strayed && !h.strayed ==> exists n :: StrayedHere(h', c, c', n))
  }

  ghost predicate StrayedHere(h: History, c: Cluster, c': Cluster, n: Name) {
    n in c.nodes && n in c'.nodes && Strayed(h, c.nodes[n], c'.nodes[n])
  }

  /** Whatever happens next, no exception escapes, and the invariant survives it. */
  lemma EventKeeps(c: Cluster, h: History, e: Event) returns (h': History)
    requires Full(WorldOf(c, h)) && Enabled(c, e)
    ensures Apply(c, e).Ok?
    ensures Extends(h, h') && Full(WorldOf(Apply(c, e).value, h'))
    ensures CommitStep(h, h', c, Apply(c, e).value)
  {
    hide Full, Step, Tick, Propose, CommitStep, Follows, Restarted, Extends;
    var w := WorldOf(c, h);
    match e
    case Deliver(m, span) =>
      Arriving(c, h, m);
      var w' := Delivers(w, m.recipient, m, span);
      FollowsKeeps(c, h, w', m.recipient, Step(c.nodes[m.recipient], m, span));
      h' := w'.h;
    case Timer(n, now, span) =>
      var w' := Ticking(w, n, now, span);
      FollowsKeeps(c, h, w', n, Tick(c.nodes[n], now, span));
      h' := w'.h;
    case Request(n, command) =>
      var w' := Requests(w, n, command);
      var s' := Propose(c.nodes[n], command).value.0;
      FollowsKeeps(c, h, w', n, Ok(Effect(s', Replicate(s'))));
      h' := w'.h;
    case Crash(n) =>
      h' := h;
      ExtendsSelf(h);
      QuietStep(h, c, Apply(c, e).value);
    case Restart(n, now, span) =>
      h' := h;
      ExtendsSelf(h);
      RestartKeeps(w, n, now, span);
      RestartFollows(c.nodes[n], now, span);
      QuietStep(h, c, Apply(c, e).value);
  }

  lemma Arriving(c: Cluster, h: History, m: Message)
    requires Full(WorldOf(c, h)) && WellNamed(c) && m in c.sent && m.recipient in c.nodes
    ensures Arrives(WorldOf(c, h), m.recipient, m)
  {
  }

  lemma FollowsKeeps(c: Cluster, h: History, w': World, n: Name, r: Result<Effect>)
    requires n in c.nodes && Follows(WorldOf(c, h), w', n, r)
    ensures var c' := Install(c, n, r.value);
            Extends(h, w'.h) && Full(WorldOf(c', w'.h)) && CommitStep(h, w'.h, c, c')
  {
    hide Full, Extends, Certified, Strayed;
    var c' := Install(c, n, r.value);
    assert w' == WorldOf(c', w'.h);
    forall k | k in c.nodes && k in c'.nodes ensures Certified(w'.h, c.nodes[k], c'.nodes[k]) {
      if k != n { SameCertified(w'.h, c.nodes[k]); }
    }
    assert w'.h.strayed && !h.strayed ==> StrayedHere(w'.h, c, c', n);
  }

  lemma SameCertified(h: History, s: NodeState)
    ensures Certified(h, s, s)
  {
  }

  lemma QuietStep(h: History, c: Cluster, c': Cluster)
    requires forall n :: n in c.nodes && n in c'.nodes ==> c'.nodes[n] == c.nodes[n] || c'.nodes[n].role == Follower
    ensures CommitStep(h, h, c, c')
  {
  }

  lemma RestartFollows(s: NodeState, now: int, span: int)
    requires Restarted(s, now, span).Ok?
    ensures Restarted(s, now, span).value.role == Follower
  {
  }

  lemma Requests(w: World, n: Name, command: Command) returns (w': World)
    requires Full(w) && n in w.nodes && w.nodes[n].role == Leader
    ensures Propose(w.nodes[n], command).Ok?
    ensures var s' := Propose(w.nodes[n], command).value.0; Follows(w, w', n, Ok(Effect(s', Replicate(s'))))
  {
    var s := w.nodes[n];
    assert NodeOk(w.h, w.members, n, s);
    WriteWorks(w, n, s, command);
    var written := NodeSpec.Write(s, command).value;
    var w1 := Writes(w, n, command);
    if |s.members| == 1 {
      w' := OpensAlone(w1, n);
      var led := AdvanceCommit(written).value;
      Chain(w, w1, w', n, written, Ok(Effect(led, Replicate(led))));
    } else {
      w' := ThenReplicates(w, w1, n, written);
    }
  }

  lemma Writes(w: World, n: Name, command: Command) returns (w1: World)
    requires Full(w) && n in w.nodes && w.nodes[n].role == Leader
    ensures NodeSpec.Write(w.nodes[n], command).Ok?
    ensures Follows(w, w1, n, Ok(Effect(NodeSpec.Write(w.nodes[n], command).value, [])))
  {
    var s := w.nodes[n];
    assert NodeOk(w.h, w.members, n, s);
    WriteWorks(w, n, s, command);
    var written := NodeSpec.Write(s, command).value;
    var h' := WriteKeeps(w, n, written, command);
    FullStays(w, n, written, h');
    w1 := Follow(w, n, written, h');
  }

  /** One record for every moment of a run, each growing out of the last. */
  ghost predicate Recorded(states: seq<Cluster>, hs: seq<History>) {
    && |hs| == |states| > 0 && !hs[0].strayed
    && (forall i {:trigger Full(WorldOf(states[i], hs[i]))} :: 0 <= i < |hs| ==> Full(WorldOf(states[i], hs[i])))
    && (forall i, j {:trigger Extends(hs[i], hs[j])} :: 0 <= i <= j < |hs| ==> Extends(hs[i], hs[j]))
    && (forall i :: 0 <= i < |hs| - 1 ==> CommitAfter(states, hs, i))
  }

  ghost predicate CommitAfter(states: seq<Cluster>, hs: seq<History>, i: int)
    requires 0 <= i < |hs| - 1 && |states| == |hs|
  {
    CommitStep(hs[i], hs[i + 1], states[i], states[i + 1])
  }

  lemma RecordGrows(states: seq<Cluster>, before: seq<History>, h': History)
    requires |states| >= 2 && Recorded(states[..|states| - 1], before)
    requires var k := |before| - 1;
             Extends(before[k], h') && Full(WorldOf(states[k + 1], h')) && CommitStep(before[k], h', states[k], states[k + 1])
    ensures Recorded(states, before + [h'])
  {
    var hs, k, early := before + [h'], |before| - 1, states[..|states| - 1];
    forall i | 0 <= i < |hs| ensures Full(WorldOf(states[i], hs[i])) {
      if i <= k { assert Full(WorldOf(early[i], before[i])); }
    }
    forall i, j | 0 <= i <= j < |hs| ensures Extends(hs[i], hs[j]) {
      if i > k {
        ExtendsSelf(h');
      } else if j > k {
        assert Extends(before[i], before[k]);
        ExtendsTrans(before[i], before[k], h');
      } else {
        assert Extends(before[i], before[j]);
      }
    }
    forall i | 0 <= i < |hs| - 1 ensures CommitAfter(states, hs, i) {
      if i < k { assert CommitAfter(early, before, i); }
    }
  }

  lemma {:induction false} RunRecord(states: seq<Cluster>, events: seq<Event>) returns (hs: seq<History>)
    requires Run(states, events)
    ensures Recorded(states, hs)
    decreases |events|
  {
    hide Inv, Commits, CommitStep, Extends, Apply, Enabled;
    if events == [] {
      var h := Begins(states[0]);
      ExtendsSelf(h);
      hs := [h];
    } else {
      var k := |events| - 1;
      ShorterRun(states, events);
      var before := RunRecord(states[..k + 1], events[..k]);
      assert Full(WorldOf(states[..k + 1][k], before[k]));
      assert StepOf(states, events, k);
      var h' := EventKeeps(states[k], before[k], events[k]);
      RecordGrows(states, before, h');
      hs := before + [h'];
    }
  }

  lemma ShorterRun(states: seq<Cluster>, events: seq<Event>)
    requires Run(states, events) && events != []
    ensures Run(states[..|events|], events[..|events| - 1])
  {
    var early, fewer := states[..|events|], events[..|events| - 1];
    forall i | 0 <= i < |fewer| ensures StepOf(early, fewer, i) {
      assert StepOf(states, events, i);
    }
  }

  /* ---- no exception ---- */

  /**
  No handler ever raises: in every reachable cluster every delivery, timeout, write and restart runs
  to its end. Every term read, slice, append and rebuilt log is in range, contiguous and in order.
  */
  lemma NothingRaises(states: seq<Cluster>, events: seq<Event>, e: Event)
    requires Run(states, events) && Enabled(states[|events|], e)
    ensures Apply(states[|events|], e).Ok?
  {
    var hs := RunRecord(states, events);
    var k := |events|;
    assert Full(WorldOf(states[k], hs[k]));
    var h' := EventKeeps(states[k], hs[k], e);
  }

  /** Moments `i` and `j` of a run seen through one record, whichever came first. */
  lemma TwoMoments(states: seq<Cluster>, hs: seq<History>, i: nat, j: nat) returns (top: nat)
    requires Recorded(states, hs) && i < |states| && j < |states|
    ensures top < |states| && i <= top && j <= top
    ensures Full(WorldOf(states[i], hs[i])) && Full(WorldOf(states[j], hs[j])) && Full(WorldOf(states[top], hs[top]))
    ensures Extends(hs[i], hs[top]) && Extends(hs[j], hs[top])
  {
    top := if i <= j then j else i;
    assert Full(WorldOf(states[i], hs[i])) && Full(WorldOf(states[j], hs[j]));
    assert Extends(hs[i], hs[top]) && Extends(hs[j], hs[top]);
  }

  lemma NodeAt(w: World, n: Name)
    requires Inv(w) && n in w.nodes
    ensures NodeOk(w.h, w.members, n, w.nodes[n])
  {
  }

  /* ---- election safety ---- */

  /** Election Safety: one term has at most one leader in the whole of a run, restarts included. */
  lemma OneLeaderPerTerm(states: seq<Cluster>, events: seq<Event>, i: nat, j: nat, a: Name, b: Name)
    requires Run(states, events) && i <= |events| && j <= |events|
    requires a in states[i].nodes && b in states[j].nodes
    requires states[i].nodes[a].role == Leader && states[j].nodes[b].role == Leader
    requires states[i].nodes[a].term == states[j].nodes[b].term
    ensures a == b
  {
    var hs := RunRecord(states, events);
    var top := TwoMoments(states, hs, i, j);
    NodeAt(WorldOf(states[i], hs[i]), a);
    NodeAt(WorldOf(states[j], hs[j]), b);
    var t := states[i].nodes[a].term;
    assert OfficeExtends(hs[i], hs[top], t) && OfficeExtends(hs[j], hs[top], t);
  }

  /* ---- log matching ---- */

  /** Log Matching: the same index and term, on any two nodes at any two moments, means equal logs up to there. */
  lemma LogsMatch(states: seq<Cluster>, events: seq<Event>, i: nat, j: nat, a: Name, b: Name, k: nat)
    requires Run(states, events) && i <= |events| && j <= |events|
    requires a in states[i].nodes && b in states[j].nodes
    requires var x, y := states[i].nodes[a].log.entries, states[j].nodes[b].log.entries;
             k < |x| && k < |y| && x[k].term == y[k].term
    ensures states[i].nodes[a].log.entries[..k + 1] == states[j].nodes[b].log.entries[..k + 1]
  {
    var hs := RunRecord(states, events);
    var top := TwoMoments(states, hs, i, j);
    NodeAt(WorldOf(states[i], hs[i]), a);
    NodeAt(WorldOf(states[j], hs[j]), b);
    var x, y := states[i].nodes[a].log.entries, states[j].nodes[b].log.entries;
    RootedExtends(hs[i], hs[top], x);
    RootedExtends(hs[j], hs[top], y);
    RootedAgree(hs[top], x, y, k);
  }

  /** Nothing in flight contradicts a log: an entry of any append is the entry of any log at its index and term. */
  lemma FlightMatches(states: seq<Cluster>, events: seq<Event>, i: nat, j: nat, a: Name, m: Message, k: nat)
    requires Run(states, events) && i <= |events| && j <= |events|
    requires a in states[i].nodes && m in states[j].sent && m.Append? && k < |m.entries|
    requires var x := states[i].nodes[a].log.entries;
             1 <= m.entries[k].index <= |x| && x[m.entries[k].index - 1].term == m.entries[k].term
    ensures states[i].nodes[a].log.entries[m.entries[k].index - 1] == m.entries[k]
  {
    hide Commits, Enabled, Apply, StoodOk, CastOk, AckOk, PromiseOk, CertOk, Initial, CommitStep;
    var hs := RunRecord(states, events);
    var top := TwoMoments(states, hs, i, j);
    var w := WorldOf(states[j], hs[j]);
    NodeAt(WorldOf(states[i], hs[i]), a);
    var x := states[i].nodes[a].log.entries;
    RootedExtends(hs[i], hs[top], x);
    assert MessageOk(hs[j], w.members, m) && OfficeOk(hs[j], w.members, w.nodes, m.term);
    var y, at := hs[j].offices[m.term].log, m.previousIndex + k;
    RootedExtends(hs[j], hs[top], y);
    assert m.entries[k] == y[at] && y[at].index == at + 1;
    RootedAgree(hs[top], x, y, at);
    assert x[..at + 1][at] == y[..at + 1][at];
  }

  /** Every log that holds an entry of a term starts its run of that term at the same index. */
  lemma RunsStartTogether(states: seq<Cluster>, events: seq<Event>, i: nat, j: nat, a: Name, b: Name, k: nat, l: nat)
    requires Run(states, events) && i <= |events| && j <= |events|
    requires a in states[i].nodes && b in states[j].nodes
    requires var x, y := states[i].nodes[a].log.entries, states[j].nodes[b].log.entries;
             && k < |x| && l < |y| && x[k].term == y[l].term
             && (k == 0 || x[k - 1].term != x[k].term) && (l == 0 || y[l - 1].term != y[l].term)
    ensures k == l
  {
    var hs := RunRecord(states, events);
    var top := TwoMoments(states, hs, i, j);
    RunStartsAt(WorldOf(states[i], hs[i]), a, k);
    RunStartsAt(WorldOf(states[j], hs[j]), b, l);
    var t := states[i].nodes[a].log.entries[k].term;
    assert OfficeExtends(hs[i], hs[top], t) && OfficeExtends(hs[j], hs[top], t);
  }

  lemma RunStartsAt(w: World, n: Name, k: nat)
    requires Inv(w) && n in w.nodes
    requires var x := w.nodes[n].log.entries; k < |x| && (k == 0 || x[k - 1].term != x[k].term)
    ensures var t := w.nodes[n].log.entries[k].term; t in w.h.offices && k == |w.h.offices[t].founding|
  {
    NodeAt(w, n);
    var x := w.nodes[n].log.entries;
    var t := x[k].term;
    assert RootedAt(w.h, x, k) && OfficeOk(w.h, w.members, w.nodes, t);
    var y := w.h.offices[t].log;
    assert x[k] == x[..k + 1][k] == y[k];
    OfficeTerms(w, t, k);
    if k > 0 {
      assert x[k - 1] == x[..k + 1][k - 1] == y[k - 1];
    }
  }

  /* ---- leader completeness ---- */

  /**
  Leader Completeness: when a leader's commit index rises, everything up to it is, at the same
  indices, in the log of whoever leads any later term at any moment of the run.
  */
  lemma LeadersAreComplete(states: seq<Cluster>, events: seq<Event>, i: nat, a: Name, j: nat, b: Name)
    requires Run(states, events) && i < |events| && j <= |events|
    requires a in states[i].nodes && a in states[i + 1].nodes && b in states[j].nodes
    requires states[i + 1].nodes[a].role == Leader
    requires states[i + 1].nodes[a].commitIndex > states[i].nodes[a].commitIndex
    requires states[j].nodes[b].role == Leader && states[j].nodes[b].term > states[i + 1].nodes[a].term
    ensures 0 <= states[i + 1].nodes[a].commitIndex <= |states[i + 1].nodes[a].log.entries|
    ensures states[i + 1].nodes[a].log.entries[..states[i + 1].nodes[a].commitIndex] <= states[j].nodes[b].log.entries
  {
    hide Commits, Rooted, Enabled, Apply, StoodOk, CastOk, AckOk, PromiseOk, Initial, Shaped;
    var hs := RunRecord(states, events);
    var top := TwoMoments(states, hs, i + 1, j);
    assert CommitAfter(states, hs, i);
    var s, s' := states[i].nodes[a], states[i + 1].nodes[a];
    assert Certified(hs[i + 1], s, s');
    NodeAt(WorldOf(states[i + 1], hs[i + 1]), a);
    NodeAt(WorldOf(states[j], hs[j]), b);
    var q :| Cert(s'.term, s'.commitIndex, q) in hs[i + 1].certs;
    var c, u := Cert(s'.term, s'.commitIndex, q), states[j].nodes[b].term;
    assert CertOk(hs[i + 1], states[i + 1].members, c);
    assert OfficeExtends(hs[i + 1], hs[top], c.term) && OfficeExtends(hs[j], hs[top], u);
    LeaderCompleteness(WorldOf(states[top], hs[top]), c, u);
    assert OfficeOk(hs[j], states[j].members, states[j].nodes, u);
    PrefixTrans(CertPrefix(hs[top], c), hs[j].offices[u].founding, hs[j].offices[u].log);
  }
}
