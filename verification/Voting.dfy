/**
Elections message by message (rsm/node.py): who is given a vote and what else that changes, when an answer makes a
leader and what the leader then says, and that over a whole run no node gives two votes in one term.
*/
module Voting {
  import opened Basics
  import opened Logs
  import opened Rpc
  import opened NodeSpec
  import opened ClusterSpec
  import opened Invariant
  import opened Commit
  import opened Steps
  import opened Timers
  import Safety

  /** The candidate's log is no older than the voter's: a later last term, or the same and no shorter. */
  predicate NoOlder(m: Message, s: NodeState)
    requires m.RequestVote?
  {
    m.lastTerm > s.log.LastTerm() || (m.lastTerm == s.log.LastTerm() && m.lastIndex >= s.log.LastIndex())
  }

  /**
  A vote is given exactly to a candidate of this or a later term whose log is no older, if this term's vote is not
  another's. Giving it records it and starts the timer anew; refusing it does neither. A stale candidate is told the
  term and changes nothing.
  */
  lemma VoteIsGivenExactly(s: NodeState, m: Message, span: int)
    requires m.RequestVote? && !m.preVote && m.recipient == s.name
    ensures Step(s, m, span).Ok?
    ensures var e := Step(s, m, span).value;
            var given := && m.term >= s.term && NoOlder(m, s)
                         && (m.term > s.term || s.votedFor == None || s.votedFor == Some(m.sender));
            && e.sends == [Vote(s.name, m.sender, Max(s.term, m.term), given, false)]
            && e.node.term == Max(s.term, m.term)
            && e.node.votedFor == (if given then Some(m.sender) else if m.term > s.term then None else s.votedFor)
            && (m.term > s.term ==> e.node.role == Follower && e.node.votes == {} && e.node.preVotes == {})
            && (m.term < s.term ==> e.node == s)
            && (m.term == s.term ==> e.node == s.(votedFor := e.node.votedFor, electionDeadline := e.node.electionDeadline))
            && e.node.log == s.log && e.node.commitIndex == s.commitIndex
            && e.node.electionDeadline == if given || m.term > s.term then s.now + span else s.electionDeadline
  {
  }

  /** Being asked what one would answer changes nothing, whatever the term, and is answered yes only for a later one. */
  lemma AskingChangesNothing(s: NodeState, m: Message, span: int)
    requires m.RequestVote? && m.preVote && m.recipient == s.name
    ensures Step(s, m, span) ==
            Ok(Effect(s, [Vote(s.name, m.sender, s.term, m.term > s.term && NoOlder(m, s), m.term >= s.term)]))
  {
  }

  /** What a new leader is, and that it at once sends every peer its first entry. */
  ghost predicate TakesOffice(s: NodeState, e: Effect) {
    && e.node.role == Leader && e.node.leader == Some(s.name) && e.node.votes == {}
    && e.node.log.snapshotIndex == s.log.snapshotIndex
    && e.node.log.entries == s.log.entries + [Entry(s.term, s.log.LastIndex() + 1, NoOp)]
    && e.node.heartbeatDue == s.now + HEARTBEAT_INTERVAL
    && OneEach(e.node, e.sends)
    && (forall m :: m in e.sends ==> FirstWord(s, m))
    && (forall k :: k in s.members && k != s.name ==>
          Get(e.node.nextIndex, k, NO_INDEX) == s.log.LastIndex() + 1 && Get(e.node.matchIndex, k, NO_INDEX - 1) == NO_INDEX)
    && Get(e.node.matchIndex, s.name, NO_INDEX) == s.log.LastIndex() + 1
  }

  lemma OfficeIsTaken(s: NodeState)
    requires |s.members| > 1 && Distinct(s.members) && s.name in s.members && s.log.LastTerm() <= s.term
    ensures BecomeLeader(s).Ok? && TakesOffice(s, BecomeLeader(s).value) && BecomeLeader(s).value.node.term == s.term
  {
    hide Replicate, ReplicateTo, InOffice, BecomeLeader, OneEach;
    OfficeOpens(s);
    OfficeFields(s);
    ReplicatesAll(InOffice(s));
    forall k | k in s.members && k != s.name ensures FirstWord(s, ReplicateTo(InOffice(s), k)) { SaysFirstWord(s, k); }
  }

  lemma OfficeFields(s: NodeState)
    requires s.name in s.members && s.log.LastTerm() <= s.term
    ensures var led := InOffice(s);
            && led.role == Leader && led.leader == Some(s.name) && led.votes == {} && led.term == s.term
            && led.name == s.name && led.members == s.members && led.heartbeatDue == s.now + HEARTBEAT_INTERVAL
            && led.log.snapshotIndex == s.log.snapshotIndex
            && led.log.entries == s.log.entries + [Entry(s.term, s.log.LastIndex() + 1, NoOp)]
            && (forall k :: k in s.members && k != s.name ==>
                  Get(led.nextIndex, k, NO_INDEX) == s.log.LastIndex() + 1 && Get(led.matchIndex, k, NO_INDEX - 1) == NO_INDEX)
            && Get(led.matchIndex, s.name, NO_INDEX) == s.log.LastIndex() + 1
  {
    assert forall k :: k in s.members && k != s.name ==> k in s.Peers();
  }

  /** The append a leader opens with: its empty entry, right after all that it held when it stood. */
  predicate FirstWord(s: NodeState, m: Message) {
    && m.Append? && m.term == s.term && m.previousIndex == s.log.LastIndex() && m.commitIndex == s.commitIndex
    && (s.maxBatch >= 1 ==> m.entries == [Entry(s.term, s.log.LastIndex() + 1, NoOp)])
    && m.previousTerm == if s.log.LastIndex() == NO_INDEX then NO_TERM else s.log.LastTerm()
  }

  lemma SaysFirstWord(s: NodeState, k: Name)
    requires k in s.members && k != s.name && s.log.LastTerm() <= s.term
    ensures FirstWord(s, ReplicateTo(InOffice(s), k))
  {
    assert k in s.Peers();
    var led, last := InOffice(s), s.log.LastIndex();
    assert StartFor(led, k) == last + 1;
  }

  /** A vote makes a leader exactly when it is granted to a candidate of its term and completes a majority. */
  lemma MajorityMakesALeader(s: NodeState, m: Message, span: int)
    requires m.Vote? && !m.preVote && m.recipient == s.name && m.term == s.term
    requires |s.members| > 1 && Distinct(s.members) && s.name in s.members && s.log.LastTerm() <= s.term
    ensures Step(s, m, span).Ok?
    ensures var e := Step(s, m, span).value;
            && e.node.term == s.term && e.node.votedFor == s.votedFor && e.node.electionDeadline == s.electionDeadline
            && if s.role != Candidate || !m.granted then e == Effect(s, [])
               else if 2 * |s.votes + {m.sender}| > |s.members| then TakesOffice(s, e)
               else e == Effect(s.(votes := s.votes + {m.sender}), [])
  {
    hide BecomeLeader;
    var counted := s.(votes := s.votes + {m.sender});
    OfficeIsTaken(counted);
    OfficeKeepsVote(counted);
    assert Step(s, m, span) == OnVote(s, m, span);
  }

  lemma OfficeKeepsVote(s: NodeState)
    requires BecomeLeader(s).Ok?
    ensures var s' := BecomeLeader(s).value.node;
            s'.term == s.term && s'.votedFor == s.votedFor && s'.electionDeadline == s.electionDeadline
  {
  }

  /** A yes makes a follower that asked stand, in the next term, exactly when it completes a majority; no other does. */
  lemma MajorityMakesACandidate(s: NodeState, m: Message, span: int)
    requires m.Vote? && m.preVote && m.recipient == s.name && m.term >= s.term
    requires |s.members| > 1 && Distinct(s.members)
    ensures Step(s, m, span).Ok?
    ensures var e := Step(s, m, span).value;
            if s.role != Follower || !m.granted || s.preVotes == {} then e == Effect(s, [])
            else if 2 * |s.preVotes + {m.sender}| > |s.members| then
              && e.node.term == s.term + 1 && e.node.role == Candidate && e.node.votedFor == Some(s.name)
              && e.node.votes == {s.name} && e.node.preVotes == {} && e.node.log == s.log
              && e.node.electionDeadline == s.now + span && Asks(e.node, e.sends, s.term + 1, false)
            else e == Effect(s.(preVotes := s.preVotes + {m.sender}), [])
  {
    var counted := s.(preVotes := s.preVotes + {m.sender});
    AsksAll(Stood(counted, span), s.term + 1, false);
    assert Step(s, m, span) == OnPreVote(s, m, span);
  }

  /* ---- earlier and later terms ---- */

  /** A message of an earlier term changes nothing; who asked for a vote or sent an append is told the term it missed. */
  lemma StaleIsTold(s: NodeState, m: Message, span: int)
    requires m.recipient == s.name && m.term < s.term
    ensures Step(s, m, span).Ok?
    ensures var e := Step(s, m, span).value;
            && e.node == s
            && match m
               case RequestVote(from, _, _, _, _, _) => e.sends == [Vote(s.name, from, s.term, false, false)]
               case Append(from, _, _, _, _, _, _) =>
                 e.sends == [Appended(s.name, from, s.term, false, NO_INDEX, NO_TERM, NO_INDEX)]
               case _ => e.sends == []
  {
  }

  /**
  A message of a later term, unless it only asks or answers what would be, makes its receiver a follower of that
  term, whatever it was: its votes are void, its new vote can only be the sender's, and it knows a leader only if
  that is who it heard.
  */
  lemma LaterTermDeposes(s: NodeState, m: Message, span: int)
    requires m.recipient == s.name && m.term > s.term && !m.Asking() && Step(s, m, span).Ok?
    ensures var s' := Step(s, m, span).value.node;
            && s'.term == m.term && s'.role == Follower && s'.votes == {} && s'.preVotes == {}
            && (s'.votedFor == None || (m.RequestVote? && s'.votedFor == Some(m.sender)))
            && s'.electionDeadline == s.now + span
            && s'.leader == (if m.Append? || m.InstallSnapshot? then Some(m.sender) else None)
  {
    hide Handle;
    DownHandles(BecomeFollower(s, m.term, None, span), m, span);
  }

  lemma DownHandles(s: NodeState, m: Message, span: int)
    requires m.recipient == s.name && !m.Asking() && Handle(s, m, span).Ok?
    requires s.role == Follower && s.votes == {} && s.preVotes == {} && s.votedFor == None && s.term == m.term
    requires s.electionDeadline == s.now + span && s.leader == None
    ensures var s' := Handle(s, m, span).value.node;
            && s'.term == m.term && s'.role == Follower && s'.votes == {} && s'.preVotes == {}
            && (s'.votedFor == None || (m.RequestVote? && s'.votedFor == Some(m.sender)))
            && s'.electionDeadline == s.now + span
            && s'.leader == (if m.Append? || m.InstallSnapshot? then Some(m.sender) else None)
  {
    hide OnAppend, AdvanceCommit, BecomeLeader;
    if m.Append? { FollowerAppends(s, m, span); }
  }

  lemma FollowerAppends(s: NodeState, m: Message, span: int)
    requires m.recipient == s.name && m.Append? && s.role == Follower && OnAppend(s, m, span).Ok?
    ensures var s' := OnAppend(s, m, span).value.node;
            && s'.term == s.term && s'.role == Follower && s'.votes == s.votes && s'.preVotes == s.preVotes
            && s'.votedFor == s.votedFor && s'.electionDeadline == s.now + span && s'.leader == Some(m.sender)
  {
    hide ApplyCommitted, TakeAll, Conflict, BecomeFollower;
  }

  /* ---- over runs ---- */

  /** One vote a term: all the votes a node ever gives in one term of a run, through restarts, go to one candidate. */
  lemma OneVoteATerm(states: seq<Cluster>, events: seq<Event>, i: nat, j: nat, m: Message, k: Message)
    requires Run(states, events) && i <= |events| && j <= |events| && m in states[i].sent && k in states[j].sent
    requires m.Vote? && k.Vote? && m.granted && k.granted && !m.preVote && !k.preVote
    requires m.sender == k.sender && m.term == k.term
    ensures m.recipient == k.recipient
  {
    hide Commits, PromisesOk, Initial;
    var hs := Safety.RunRecord(states, events);
    var top := Safety.TwoMoments(states, hs, i, j);
    assert MessageOk(hs[i], states[i].members, m) && MessageOk(hs[j], states[j].members, k);
  }
}
