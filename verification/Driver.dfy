/**
The driver (rsm/cluster.py): several nodes on one network, a tick at a time, with the safety checks
it makes at every tick. Every tick, write, crash and restart of the driver is a stretch of a run of
ClusterSpec, so what is proved of runs holds of it: no exception escapes and the checks never fail.
*/
module Driver {
  import opened Basics
  import opened Logs
  import opened Rpc
  import opened NodeSpec
  import opened ClusterSpec
  import opened Net
  import Commit
  import Safety
  import Straying

  const MIN_ELECTION_TIMEOUT := 10
  const MAX_ELECTION_TIMEOUT := 20

  /* ---- the checks of `verify`, as predicates ---- */

  function UpNodes(members: seq<Name>, nodes: map<Name, NodeState>, down: set<Name>): (ns: seq<NodeState>)
    requires forall n :: n in members ==> n in nodes
    ensures forall s :: s in ns ==> exists n :: n in members && n !in down && nodes[n] == s
  {
    if members == [] then []
    else
      var rest := UpNodes(members[1..], nodes, down);
      if members[0] in down then rest else [nodes[members[0]]] + rest
  }

  /** No two running nodes lead one term. */
  ghost predicate LeadersApart(ns: seq<NodeState>) {
    forall i, j :: 0 <= i < j < |ns| && ns[i].role == Leader && ns[j].role == Leader ==> ns[i].term != ns[j].term
  }

  function AllEntries(ns: seq<NodeState>): seq<Entry> {
    if ns == [] then [] else AllEntries(ns[..|ns| - 1]) + ns[|ns| - 1].log.entries
  }

  /** The dictionary the check fills: for each index, the first entry met there. */
  function FirstSeen(es: seq<Entry>): (m: map<int, Entry>)
    ensures forall k :: k in m ==> m[k] in es && m[k].index == k
  {
    if es == [] then map[]
    else
      var m, last := FirstSeen(es[..|es| - 1]), es[|es| - 1];
      if last.index in m then m else m[last.index := last]
  }

  ghost predicate Clash(es: seq<Entry>, i: int)
    requires 0 <= i < |es|
  {
    var m := FirstSeen(es[..i]);
    es[i].index in m && m[es[i].index].term == es[i].term && m[es[i].index].command != es[i].command
  }

  ghost predicate ClashFree(es: seq<Entry>) {
    forall i :: 0 <= i < |es| ==> !Clash(es, i)
  }

  ghost predicate EntriesMatch(ns: seq<NodeState>) {
    ClashFree(AllEntries(ns))
  }

  lemma GrowsFree(es: seq<Entry>, one: Entry)
    ensures var m := FirstSeen(es);
            && (ClashFree(es + [one]) <==>
                  ClashFree(es)
                  && !(one.index in m && m[one.index].term == one.term && m[one.index].command != one.command))
            && FirstSeen(es + [one]) == if one.index in m then m else m[one.index := one]
  {
    var longer := es + [one];
    assert longer[..|longer| - 1] == es;
    forall i | 0 <= i < |es| ensures Clash(es, i) == Clash(longer, i) {
      assert longer[..i] == es[..i];
    }
    assert ClashFree(longer) ==> !Clash(longer, |es|);
  }

  lemma ShorterFree(a: seq<Entry>, b: seq<Entry>)
    requires a <= b && ClashFree(b)
    ensures ClashFree(a)
  {
    forall i | 0 <= i < |a| ensures !Clash(a, i) {
      assert a[..i] == b[..i];
      assert !Clash(b, i);
    }
  }

  /** Two running nodes that have both applied a position applied the same command there. */
  ghost predicate AppliedMatch(ns: seq<NodeState>) {
    forall p, i, j :: 0 <= i < |ns| && 0 <= j < |ns| && 0 <= p < Shortest(ns) ==>
      SameCommand(ns[i], ns[j], p)
  }

  predicate SameCommand(s: NodeState, t: NodeState, p: int) {
    0 <= p < |s.applied| && p < |t.applied| ==> s.applied[p].command == t.applied[p].command
  }

  function Shortest(ns: seq<NodeState>): (k: nat)
    ensures forall i :: 0 <= i < |ns| ==> k <= |ns[i].applied|
  {
    if ns == [] then 0
    else if |ns| == 1 then |ns[0].applied|
    else
      var rest := Shortest(ns[1..]);
      if |ns[0].applied| < rest then |ns[0].applied| else rest
  }

  function Verdict(leaders: bool, entries: bool, applied: bool): Result<()> {
    if !leaders then Err(ElectionSafety)
    else if !entries then Err(LogMatching)
    else if !applied then Err(StateMachineSafety)
    else Ok(())
  }

  /** `verify`: grouped leaders, the dictionary over every log, and the applied positions. */
  method Verify(ns: seq<NodeState>) returns (r: Result<()>)
    ensures r == Verdict(LeadersApart(ns), EntriesMatch(ns), AppliedMatch(ns))
  {
    var led: set<int> := {};
    for i := 0 to |ns|
      invariant forall k :: 0 <= k < i && ns[k].role == Leader ==> ns[k].term in led
      invariant forall t :: t in led ==> exists k :: 0 <= k < i && ns[k].role == Leader && ns[k].term == t
      invariant LeadersApart(ns[..i])
    {
      if ns[i].role == Leader {
        if ns[i].term in led {
          assert !LeadersApart(ns);
          return Err(ElectionSafety);
        }
        led := led + {ns[i].term};
      }
    }
    assert ns[..|ns|] == ns;
    var matched := VerifyEntries(ns);
    if !matched { return Err(LogMatching); }
    var same := VerifyApplied(ns);
    if !same { return Err(StateMachineSafety); }
    r := Ok(());
  }

  method VerifyEntries(ns: seq<NodeState>) returns (ok: bool)
    ensures ok == EntriesMatch(ns)
  {
    var byIndex: map<int, Entry> := map[];
    for k := 0 to |ns|
      invariant byIndex == FirstSeen(AllEntries(ns[..k])) && ClashFree(AllEntries(ns[..k]))
    {
      AllEntriesPrefix(ns, k);
      ok, byIndex := VerifyLog(ns[k].log.entries, byIndex, AllEntries(ns[..k]));
      if !ok {
        if EntriesMatch(ns) { ShorterFree(AllEntries(ns[..k + 1]), AllEntries(ns)); }
        return;
      }
    }
    assert ns[..|ns|] == ns;
    ok := true;
  }

  /** One node's log against the dictionary of everything met before it. */
  method VerifyLog(entries: seq<Entry>, seen: map<int, Entry>, ghost before: seq<Entry>)
    returns (ok: bool, byIndex: map<int, Entry>)
    requires seen == FirstSeen(before) && ClashFree(before)
    ensures ok == ClashFree(before + entries)
    ensures ok ==> byIndex == FirstSeen(before + entries)
  {
    hide FirstSeen, ClashFree;
    byIndex := seen;
    assert before + entries[..0] == before;
    for p := 0 to |entries|
      invariant byIndex == FirstSeen(before + entries[..p]) && ClashFree(before + entries[..p])
    {
      var one := entries[p];
      ghost var met := before + entries[..p];
      GrowsFree(met, one);
      assert before + entries[..p + 1] == met + [one];
      if one.index in byIndex {
        if byIndex[one.index].term == one.term && byIndex[one.index].command != one.command {
          if ClashFree(before + entries) { ShorterFree(before + entries[..p + 1], before + entries); }
          return false, byIndex;
        }
      } else {
        byIndex := byIndex[one.index := one];
      }
    }
    assert entries[..|entries|] == entries;
    ok := true;
  }

  lemma {:induction false} AllEntriesPrefix(ns: seq<NodeState>, k: nat)
    requires k < |ns|
    ensures AllEntries(ns[..k + 1]) == AllEntries(ns[..k]) + ns[k].log.entries <= AllEntries(ns)
    decreases |ns|
  {
    assert ns[..k + 1][..k] == ns[..k];
    var early := ns[..|ns| - 1];
    if k < |ns| - 1 {
      AllEntriesPrefix(early, k);
      assert early[..k] == ns[..k] && early[..k + 1] == ns[..k + 1];
    } else {
      assert early == ns[..k];
    }
  }

  method VerifyApplied(ns: seq<NodeState>) returns (ok: bool)
    ensures ok == AppliedMatch(ns)
  {
    var shortest := Shortest(ns);
    for p := 0 to shortest
      invariant forall q, i, j :: 0 <= i < |ns| && 0 <= j < |ns| && 0 <= q < p ==> SameCommand(ns[i], ns[j], q)
    {
      for i := 1 to |ns|
        invariant forall k :: 0 <= k < i ==> ns[k].applied[p].command == ns[0].applied[p].command
      {
        if ns[i].applied[p].command != ns[0].applied[p].command {
          assert !SameCommand(ns[i], ns[0], p);
          return false;
        }
      }
    }
    ok := true;
  }

  /* ---- the checks never fail ---- */

  ghost predicate Apart(ns: seq<NodeState>) {
    forall i, j {:trigger ns[i], ns[j]} :: 0 <= i < j < |ns| ==> ns[i].name != ns[j].name
  }

  lemma {:induction false} UpNodesApart(members: seq<Name>, nodes: map<Name, NodeState>, down: set<Name>)
    requires Distinct(members) && forall n :: n in members ==> n in nodes && nodes[n].name == n
    ensures Apart(UpNodes(members, nodes, down))
  {
    if members != [] {
      var rest := UpNodes(members[1..], nodes, down);
      UpNodesApart(members[1..], nodes, down);
      forall i | 0 <= i < |rest| ensures rest[i].name != members[0] {
        assert rest[i] in rest;
        var n :| n in members[1..] && n !in down && nodes[n] == rest[i];
        var k :| 0 <= k < |members| - 1 && members[k + 1] == n;
      }
      var ns := UpNodes(members, nodes, down);
      if members[0] !in down {
        assert members[0] in members && ns == [nodes[members[0]]] + rest;
        forall i, j | 0 <= i < j < |ns| ensures ns[i].name != ns[j].name {
          assert ns[j] == rest[j - 1];
          if i > 0 { assert ns[i] == rest[i - 1]; }
        }
      }
    }
  }

  lemma {:induction false} FromSomeNode(ns: seq<NodeState>, e: Entry)
    requires e in AllEntries(ns)
    ensures exists k :: 0 <= k < |ns| && e in ns[k].log.entries
  {
    if ns != [] {
      var early := ns[..|ns| - 1];
      if e in AllEntries(early) {
        FromSomeNode(early, e);
        var k :| 0 <= k < |early| && e in early[k].log.entries;
        assert e in ns[k].log.entries;
      } else {
        assert e in ns[|ns| - 1].log.entries;
      }
    }
  }

  /** A node of a run holds each entry at its own index. */
  lemma InPlace(states: seq<ClusterSpec.Cluster>, events: seq<Event>, k: nat, n: Name)
    requires Run(states, events) && k <= |events| && n in states[k].nodes
    ensures var x := states[k].nodes[n].log.entries; forall i :: 0 <= i < |x| ==> x[i].index == i + 1
  {
    var hs := Safety.RunRecord(states, events);
    assert Commit.Full(Safety.WorldOf(states[k], hs[k]));
    Safety.NodeAt(Safety.WorldOf(states[k], hs[k]), n);
  }

  lemma EntriesNeverClash(states: seq<ClusterSpec.Cluster>, events: seq<Event>, k: nat, ns: seq<NodeState>)
    requires Run(states, events) && k <= |events|
    requires forall s :: s in ns ==> exists n :: n in states[k].nodes && states[k].nodes[n] == s
    ensures EntriesMatch(ns)
  {
    var es := AllEntries(ns);
    forall i | 0 <= i < |es| ensures !Clash(es, i) {
      var seen := FirstSeen(es[..i]);
      var one := es[i];
      if one.index in seen && seen[one.index].term == one.term {
        var other := seen[one.index];
        assert other in es by { assert other in es[..i]; }
        FromSomeNode(ns, one);
        FromSomeNode(ns, other);
        var p :| 0 <= p < |ns| && one in ns[p].log.entries;
        var q :| 0 <= q < |ns| && other in ns[q].log.entries;
        assert ns[p] in ns && ns[q] in ns;
        SameEntry(states, events, k, ns[p], ns[q], one, other);
      }
    }
  }

  lemma SameEntry(states: seq<ClusterSpec.Cluster>, events: seq<Event>, k: nat, s: NodeState, t: NodeState,
                  one: Entry, other: Entry)
    requires Run(states, events) && k <= |events|
    requires exists n :: n in states[k].nodes && states[k].nodes[n] == s
    requires exists n :: n in states[k].nodes && states[k].nodes[n] == t
    requires one in s.log.entries && other in t.log.entries && one.index == other.index && one.term == other.term
    ensures one == other
  {
    var a :| a in states[k].nodes && states[k].nodes[a] == s;
    var b :| b in states[k].nodes && states[k].nodes[b] == t;
    InPlace(states, events, k, a);
    InPlace(states, events, k, b);
    var x, y, at := s.log.entries, t.log.entries, one.index - 1;
    assert x[at] == one && y[at] == other;
    Safety.LogsMatch(states, events, k, k, a, b, at);
    assert x[at] == x[..at + 1][at] == y[..at + 1][at] == y[at];
  }

  lemma AppliedNeverClash(states: seq<ClusterSpec.Cluster>, events: seq<Event>, k: nat, ns: seq<NodeState>)
    requires Run(states, events) && k <= |events| && Straying.NoStrayBefore(states, events, k)
    requires forall s :: s in ns ==> exists n :: n in states[k].nodes && states[k].nodes[n] == s
    ensures AppliedMatch(ns)
  {
    forall p, i, j | 0 <= i < |ns| && 0 <= j < |ns| && 0 <= p < Shortest(ns) ensures SameCommand(ns[i], ns[j], p) {
      assert ns[i] in ns && ns[j] in ns;
      var a :| a in states[k].nodes && states[k].nodes[a] == ns[i];
      var b :| b in states[k].nodes && states[k].nodes[b] == ns[j];
      Straying.AppliedAgree(states, events, k, k, a, b);
    }
  }

  lemma LeadersNeverShare(states: seq<ClusterSpec.Cluster>, events: seq<Event>, k: nat)
    requires Run(states, events) && k <= |events|
    requires forall n :: n in states[k].members ==> n in states[k].nodes && states[k].nodes[n].name == n
    requires Distinct(states[k].members)
    ensures LeadersApart(UpNodes(states[k].members, states[k].nodes, states[k].down))
  {
    var c := states[k];
    var ns := UpNodes(c.members, c.nodes, c.down);
    UpNodesApart(c.members, c.nodes, c.down);
    forall i, j | 0 <= i < j < |ns| && ns[i].role == Leader && ns[j].role == Leader ensures ns[i].term != ns[j].term {
      assert ns[i] in ns && ns[j] in ns;
      var a :| a in c.members && a !in c.down && c.nodes[a] == ns[i];
      var b :| b in c.members && b !in c.down && c.nodes[b] == ns[j];
      if ns[i].term == ns[j].term {
        Safety.OneLeaderPerTerm(states, events, k, k, a, b);
      }
    }
  }

  lemma RunShape(states: seq<ClusterSpec.Cluster>, events: seq<Event>, k: nat)
    requires Run(states, events) && k <= |events|
    ensures Distinct(states[k].members) && states[k].nodes.Keys == Names(states[k].members)
    ensures states[k].members != []
    ensures WellNamed(states[k])
  {
    var hs := Safety.RunRecord(states, events);
    assert Commit.Full(Safety.WorldOf(states[k], hs[k]));
    forall n | n in states[k].nodes ensures states[k].nodes[n].name == n {
      Safety.NodeAt(Safety.WorldOf(states[k], hs[k]), n);
    }
    MembersStay(states, events, k);
  }

  lemma {:induction false} MembersStay(states: seq<ClusterSpec.Cluster>, events: seq<Event>, k: nat)
    requires Run(states, events) && k <= |events|
    ensures states[k].members == states[0].members
  {
    if k > 0 {
      MembersStay(states, events, k - 1);
      assert StepOf(states, events, k - 1);
    }
  }

  /**
  `verify` never raises: at no moment of a run do two running nodes lead one term or two running logs
  disagree at an index and term; nor, as long as nothing has strayed, do two nodes apply different
  commands at one position.
  */
  lemma VerifyNeverFails(states: seq<ClusterSpec.Cluster>, events: seq<Event>, k: nat)
    requires Run(states, events) && k <= |events|
    ensures forall n :: n in states[k].members ==> n in states[k].nodes
    ensures var ns := UpNodes(states[k].members, states[k].nodes, states[k].down);
            && LeadersApart(ns) && EntriesMatch(ns)
            && (Straying.NoStrayBefore(states, events, k) ==> AppliedMatch(ns))
  {
    RunShape(states, events, k);
    var ns := UpNodes(states[k].members, states[k].nodes, states[k].down);
    LeadersNeverShare(states, events, k);
    EntriesNeverClash(states, events, k, ns);
    if Straying.NoStrayBefore(states, events, k) { AppliedNeverClash(states, events, k, ns); }
  }
}
