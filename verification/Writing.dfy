/**
A client's write (rsm/node.py): where it lands, that it stays there for as long as its leader leads, and that once
its leader has committed it, it is what every node applies at that place.
*/
module Writing {
  import opened Basics
  import opened Logs
  import opened Rpc
  import opened NodeSpec
  import opened ClusterSpec
  import opened Invariant
  import opened Keeping
  import opened Actions
  import opened Commit
  import opened Steps
  import opened Safety
  import opened Matching
  import Snapshots
  import Straying

  /** A leader's write is its new last entry, of its own term, at the index it answers; nobody else takes writes. */
  lemma WriteLands(s: NodeState, command: Command)
    ensures s.role != Leader ==> Propose(s, command) == Err(NotLeader)
    ensures Propose(s, command).Ok? ==>
              var (s', index) := Propose(s, command).value;
              && index == s'.log.LastIndex() && s'.log.Holds(index) && s'.log.At(index) == Entry(s.term, index, command)
              && |s'.log.entries| == |s.log.entries| + 1 && s.log.entries <= s'.log.entries
              && s'.log.snapshotIndex == s.log.snapshotIndex
              && s'.term == s.term && s'.role == Leader && s'.nextIndex == s.nextIndex
              && Get(s'.matchIndex, s.name, NO_INDEX) == index
  {
    hide CommitScan, ApplyCommitted;
    if Propose(s, command).Ok? {
      var written := NodeSpec.Write(s, command).value;
      assert |s.members| == 1 ==> AdvanceCommit(written).Ok?;
    }
  }

  /** As long as the leader that took it leads that term, a write stays at its index. */
  lemma WriteStays(states: seq<Cluster>, events: seq<Event>, i: nat, j: nat)
    requires Run(states, events) && i < j <= |events| && events[i].Request?
    requires var n := events[i].node;
             && n in states[j].nodes && states[j].nodes[n].role == Leader
             && n in states[i].nodes && states[j].nodes[n].term == states[i].nodes[n].term
    ensures var n, command := events[i].node, events[i].command;
            && Propose(states[i].nodes[n], command).Ok?
            && var index := Propose(states[i].nodes[n], command).value.1;
               && 1 <= index <= |states[j].nodes[n].log.entries|
               && states[j].nodes[n].log.entries[index - 1] == Entry(states[j].nodes[n].term, index, command)
  {
    hide Commits, RecordOk, PromisesOk, Rooted, Propose, Initial;
    var n := events[i].node;
    assert StepOf(states, events, i);
    WriteLands(states[i].nodes[n], events[i].command);
    var hs := RunRecord(states, events);
    assert Full(WorldOf(states[i + 1], hs[i + 1])) && Full(WorldOf(states[j], hs[j])) && Extends(hs[i + 1], hs[j]);
    NodeAt(WorldOf(states[i + 1], hs[i + 1]), n);
    NodeAt(WorldOf(states[j], hs[j]), n);
    assert OfficeExtends(hs[i + 1], hs[j], states[j].nodes[n].term);
  }

  /**
  An acknowledged write: once the leader that took it has committed its index in that term, the write is the command
  that every node applies there, at any moment, as long as nothing strays.
  */
  lemma CommittedWriteIsApplied(states: seq<Cluster>, events: seq<Event>, i: nat, j: nat, k: nat, b: Name)
    requires Run(states, events) && i < j <= |events| && k <= |events| && events[i].Request?
    requires Straying.NoStrayBefore(states, events, j) && Straying.NoStrayBefore(states, events, k)
    requires var n := events[i].node;
             && n in states[j].nodes && states[j].nodes[n].role == Leader
             && n in states[i].nodes && states[j].nodes[n].term == states[i].nodes[n].term
    requires b in states[k].nodes
    ensures var n, command := events[i].node, events[i].command;
            && Propose(states[i].nodes[n], command).Ok?
            && var index, theirs := Propose(states[i].nodes[n], command).value.1, states[k].nodes[b].applied;
               states[j].nodes[n].commitIndex >= index && |theirs| >= index ==>
                 index >= 1 && theirs[index - 1] == Entry(states[j].nodes[n].term, index, command)
  {
    hide Run, Propose;
    WriteStays(states, events, i, j);
    Straying.AppliedAgree(states, events, j, k, events[i].node, b);
  }

  /* ---- a cluster of one ---- */

  /** A node that is its whole cluster. */
  ghost predicate Alone(s: NodeState) {
    && s.members == [s.name] && !s.commitAnyTerm && s.log.snapshotIndex == 0 && s.log.snapshotTerm == NO_TERM
    && Shaped(s.log.entries) && LastTermOf(s.log.entries) <= s.term
    && 0 <= s.lastApplied <= s.commitIndex <= |s.log.entries|
  }

  lemma LoneAdvance(s: NodeState)
    requires Alone(s) && s.role == Leader && s.log.entries != [] && LastTermOf(s.log.entries) == s.term
    ensures AdvanceCommit(s).Ok?
    ensures var s', x := AdvanceCommit(s).value, s.log.entries;
            && s'.commitIndex == |x|
            && (s.commitIndex < |x| ==> s'.lastApplied == |x| && s'.applied == s.applied + x[s.lastApplied..])
  {
    hide ApplyCommitted;
    var counted := s.(matchIndex := s.matchIndex[s.name := |s.log.entries|]);
    if s.commitIndex < |s.log.entries| {
      assert Holders(s.members, counted.matchIndex, |s.log.entries|) == {s.name};
      var all := counted.(commitIndex := |s.log.entries|);
      assert Snapshots.CompactionOf(all.log, all.log);
      Snapshots.AppliesRange(all, all.log);
    }
  }

  /** Alone, a leader commits and applies a write as it takes it. */
  lemma LoneCommits(s: NodeState, command: Command)
    requires Alone(s) && s.role == Leader
    ensures Propose(s, command).Ok?
    ensures var (s', index) := Propose(s, command).value;
            && s'.commitIndex == s'.lastApplied == index == |s.log.entries| + 1
            && s'.applied == s.applied + s'.log.entries[s.lastApplied..]
  {
    hide AdvanceCommit;
    FlatLast(s.log);
    var written := NodeSpec.Write(s, command).value;
    ShapedExtends(s.log.entries, Entry(s.term, |s.log.entries| + 1, command));
    LoneAdvance(written);
  }

  /** And it leads as soon as its timer runs out, with pre-vote or without. */
  lemma LoneLeads(s: NodeState, now: int, span: int)
    requires Alone(s) && s.role != Leader && now >= s.electionDeadline
    ensures Tick(s, now, span).Ok?
    ensures var e := Tick(s, now, span).value;
            && e.node.role == Leader && e.node.term == s.term + 1 && e.sends == []
            && e.node.log.entries == s.log.entries + [Entry(s.term + 1, |s.log.entries| + 1, NoOp)]
            && e.node.commitIndex == e.node.lastApplied == |s.log.entries| + 1
            && e.node.applied == s.applied + e.node.log.entries[s.lastApplied..]
  {
    hide BecomeLeader;
    LoneOffice(Stood(s.(now := now), span));
  }

  lemma LoneOffice(s: NodeState)
    requires Alone(s)
    ensures BecomeLeader(s).Ok?
    ensures var e := BecomeLeader(s).value;
            && e.node.role == Leader && e.node.term == s.term && e.sends == []
            && e.node.log.entries == s.log.entries + [Entry(s.term, |s.log.entries| + 1, NoOp)]
            && e.node.commitIndex == e.node.lastApplied == |s.log.entries| + 1
            && e.node.applied == s.applied + e.node.log.entries[s.lastApplied..]
  {
    hide AdvanceCommit, Replicate, FromKeys;
    FlatLast(s.log);
    var first := Entry(s.term, |s.log.entries| + 1, NoOp);
    ShapedExtends(s.log.entries, first);
    var written := NodeSpec.Write(TakenOffice(s), NoOp).value;
    var beating := written.(heartbeatDue := written.now + HEARTBEAT_INTERVAL);
    LoneAdvance(beating);
    NoPeers(AdvanceCommit(beating).value);
  }

  lemma NoPeers(s: NodeState)
    requires s.members == [s.name]
    ensures Replicate(s) == []
  {
    assert s.members[1..] == [];
    assert Others(s.members[1..], s.name) == [];
    assert Others(s.members, s.name) == [];
  }
}
