/**
What a run never changes about a node, and what a restart brings back (rsm/cluster.py): how a node was made stays as
it was, through crashes and restarts too, and of all it has learned only term, vote and log outlive one.
*/
module Restarts {
  import opened Basics
  import opened Logs
  import opened Rpc
  import opened NodeSpec
  import opened ClusterSpec
  import opened Timers
  import Commit
  import Safety

  /** Made alike: the same name among the same members with the same settings. */
  predicate SameMake(s: NodeState, s': NodeState) {
    && s'.name == s.name && s'.members == s.members && s'.preVote == s.preVote
    && s'.commitAnyTerm == s.commitAnyTerm && s'.maxBatch == s.maxBatch
  }

  lemma OfficeMake(s: NodeState)
    requires BecomeLeader(s).Ok?
    ensures SameMake(s, BecomeLeader(s).value.node)
  {
  }

  lemma StoodMake(s: NodeState, span: int)
    ensures BecomeLeader(Stood(s, span)).Ok? ==> SameMake(s, BecomeLeader(Stood(s, span)).value.node)
  {
    if BecomeLeader(Stood(s, span)).Ok? { OfficeMake(Stood(s, span)); }
  }

  lemma VoteMake(s: NodeState, m: Message, span: int)
    requires m.recipient == s.name && m.Vote? && OnVote(s, m, span).Ok?
    ensures SameMake(s, OnVote(s, m, span).value.node)
  {
    hide BecomeLeader;
    var counted := s.(votes := s.votes + {m.sender});
    if BecomeLeader(counted).Ok? { OfficeMake(counted); }
    StoodMake(s.(preVotes := s.preVotes + {m.sender}), span);
  }

  lemma HeardMake(s: NodeState, from: Name, term: Term, span: int)
    ensures SameMake(s, Heard(s, from, term, span))
  {
  }

  lemma AppendMake(s: NodeState, m: Message, span: int)
    requires m.recipient == s.name && m.Append? && OnAppend(s, m, span).Ok?
    ensures SameMake(s, OnAppend(s, m, span).value.node)
  {
    hide ApplyCommitted, TakeAll, Conflict, Heard;
    HeardMake(s, m.sender, m.term, span);
  }

  lemma AnswerMake(s: NodeState, m: Message)
    requires m.recipient == s.name
    ensures m.Appended? && OnAppended(s, m).Ok? ==> SameMake(s, OnAppended(s, m).value.node)
    ensures m.Installed? && OnInstalled(s, m).Ok? ==> SameMake(s, OnInstalled(s, m).value.node)
  {
    hide AdvanceCommit, RetryIndex, ReplicateTo;
  }

  lemma HandleMake(s: NodeState, m: Message, span: int)
    requires m.recipient == s.name && Handle(s, m, span).Ok?
    ensures SameMake(s, Handle(s, m, span).value.node)
  {
    hide OnVote, OnAppend, OnAppended, OnInstalled;
    match m
    case Vote(_, _, _, _, _) => VoteMake(s, m, span);
    case Append(_, _, _, _, _, _, _) => AppendMake(s, m, span);
    case Appended(_, _, _, _, _, _, _) => AnswerMake(s, m);
    case Installed(_, _, _, _) => AnswerMake(s, m);
    case _ =>
  }

  lemma StepMake(s: NodeState, m: Message, span: int)
    requires m.recipient == s.name && Step(s, m, span).Ok?
    ensures SameMake(s, Step(s, m, span).value.node)
  {
    hide Handle;
    if m.term >= s.term {
      HandleMake(if m.term > s.term && !m.Asking() then BecomeFollower(s, m.term, None, span) else s, m, span);
    }
  }

  lemma TickMake(s: NodeState, now: int, span: int)
    requires Tick(s, now, span).Ok?
    ensures SameMake(s, Tick(s, now, span).value.node)
  {
    hide BecomeLeader;
    StoodMake(s.(now := now), span);
  }

  lemma ProposeMake(s: NodeState, command: Command)
    requires Propose(s, command).Ok?
    ensures SameMake(s, Propose(s, command).value.0)
  {
  }

  lemma EventMake(c: Cluster, e: Event, n: Name)
    requires Enabled(c, e) && Apply(c, e).Ok? && n in c.nodes && !c.nodes[n].commitAnyTerm
    ensures n in Apply(c, e).value.nodes && SameMake(c.nodes[n], Apply(c, e).value.nodes[n])
  {
    hide Step, Tick, Propose;
    match e
    case Deliver(m, span) => if m.recipient == n { StepMake(c.nodes[n], m, span); }
    case Timer(k, now, span) => if k == n { TickMake(c.nodes[n], now, span); }
    case Request(k, command) => if k == n { ProposeMake(c.nodes[n], command); }
    case _ =>
  }

  /** Nothing that happens, restarts included, changes how a node was made. */
  lemma {:induction false} MakeStays(states: seq<Cluster>, events: seq<Event>, i: nat, j: nat, n: Name)
    requires Run(states, events) && i <= j <= |events| && n in states[i].nodes
    ensures n in states[j].nodes && SameMake(states[i].nodes[n], states[j].nodes[n])
    decreases j - i
  {
    hide Apply, Enabled, Initial;
    if i < j {
      assert StepOf(states, events, i);
      CurrentTermOnly(states, events, i, n);
      EventMake(states[i], events[i], n);
      MakeStays(states, events, i + 1, j, n);
    }
  }

  /** No node of a run commits by counting replicas of an earlier term. */
  lemma CurrentTermOnly(states: seq<Cluster>, events: seq<Event>, i: nat, n: Name)
    requires Run(states, events) && i <= |events| && n in states[i].nodes
    ensures !states[i].nodes[n].commitAnyTerm
  {
    hide Commit.Commits, Initial;
    var hs := Safety.RunRecord(states, events);
    assert Commit.Full(Safety.WorldOf(states[i], hs[i]));
    Safety.NodeAt(Safety.WorldOf(states[i], hs[i]), n);
  }

  /* ---- what outlives a crash ---- */

  /** The state a node keeps on disk. */
  predicate SameDisk(s: NodeState, s': NodeState) {
    s'.term == s.term && s'.votedFor == s.votedFor && s'.log == s.log
  }

  /** A crashed node does not move, so its disk is as it was when it went down, however long that takes. */
  lemma {:induction false} DownKeepsStill(states: seq<Cluster>, events: seq<Event>, i: nat, j: nat, n: Name)
    requires Run(states, events) && i <= j <= |events| && n in states[i].nodes && n in states[i].down
    requires forall k :: i <= k < j ==> !(events[k].Restart? && events[k].node == n)
    ensures n in states[j].nodes && n in states[j].down && states[j].nodes[n] == states[i].nodes[n]
    decreases j - i
  {
    hide Step, Tick, Propose, Restarted, Initial;
    if i < j {
      assert StepOf(states, events, i);
      DownKeepsStill(states, events, i + 1, j, n);
    }
  }

  /** A restart is a function of the disk: nothing else a node knew makes any difference to the node that comes back. */
  lemma RestartForgets(s: NodeState, t: NodeState, now: int, span: int)
    requires SameDisk(s, t) && s.name == t.name && s.members == t.members && s.preVote == t.preVote && s.maxBatch == t.maxBatch
    ensures Restarted(s, now, span) == Restarted(t, now, span)
  {
  }

  /**
  Down and up again: over a whole outage a node keeps its disk and its settings, and comes back a follower that
  knows no leader, counts no votes, has applied nothing, and waits out a whole new timeout before it stands.
  */
  lemma BackFromDisk(states: seq<Cluster>, events: seq<Event>, i: nat, j: nat, n: Name, later: int, span': int)
    requires Run(states, events) && i <= j < |events| && n in states[i].nodes && n in states[i].down
    requires forall k :: i <= k < j ==> !(events[k].Restart? && events[k].node == n)
    requires events[j].Restart? && events[j].node == n
    ensures n in states[j + 1].nodes && n !in states[j + 1].down
    ensures var s, s' := states[i].nodes[n], states[j + 1].nodes[n];
            && SameDisk(s, s') && SameMake(s, s')
            && s'.role == Follower && s'.leader == None && s'.votes == {} && s'.preVotes == {}
            && s'.nextIndex == map[] && s'.matchIndex == map[]
            && s'.commitIndex == s'.lastApplied == 0 && s'.applied == [] && s'.state == map[]
            && s'.now == events[j].now && s'.electionDeadline == events[j].now + events[j].span
            && (later < events[j].now + events[j].span ==> Tick(s', later, span') == Ok(Effect(s'.(now := later), [])))
  {
    hide Initial;
    DownKeepsStill(states, events, i, j, n);
    assert StepOf(states, events, j);
    MakeStays(states, events, i, j + 1, n);
    if later < events[j].now + events[j].span { NotDueYet(states[j + 1].nodes[n], later, span'); }
  }
}
