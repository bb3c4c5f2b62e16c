/**
The two timers of a node (rsm/node.py): what starts the election timer anew, what a node does before it runs out
and when it has, and what that means over runs. A node that has heard its leader lets it be until the time it drew
is over, and a timer that is read early changes nothing.
*/
module Timers {
  import opened Basics
  import opened Logs
  import opened Rpc
  import opened NodeSpec
  import opened ClusterSpec

  /* ---- asking everyone ---- */

  /** Each member but the sender gets one of these messages, and nobody gets two. */
  ghost predicate OneEach(s: NodeState, sends: seq<Message>) {
    && (forall m :: m in sends ==> m.sender == s.name && m.recipient in s.members)
    && (forall k :: k in s.members && k != s.name ==> exists m :: m in sends && m.recipient == k)
    && (forall i, j :: 0 <= i < j < |sends| ==> sends[i].recipient != sends[j].recipient)
  }

  /** What a node says of its log when it asks for votes. */
  ghost predicate Asks(s: NodeState, sends: seq<Message>, term: int, preVote: bool) {
    && OneEach(s, sends)
    && forall m :: m in sends ==>
         m.RequestVote? && m.term == term && m.preVote == preVote
         && m.lastIndex == s.log.LastIndex() && m.lastTerm == s.log.LastTerm()
  }

  lemma {:induction false} OthersDistinct(members: seq<Name>, name: Name)
    requires Distinct(members)
    ensures Distinct(Others(members, name))
  {
    if members != [] {
      var rest := Others(members[1..], name);
      OthersDistinct(members[1..], name);
      assert forall i :: 0 <= i < |rest| ==> rest[i] in rest;
      assert members == [members[0]] + members[1..];
      assert members[0] !in members[1..];
    }
  }

  lemma AsksAll(s: NodeState, term: Term, preVote: bool)
    requires Distinct(s.members)
    ensures Asks(s, VoteRequests(s, term, preVote), term, preVote)
  {
    var peers, out := s.Peers(), VoteRequests(s, term, preVote);
    OthersDistinct(s.members, s.name);
    forall m | m in out ensures m.RequestVote? && m.recipient in s.members && m == VoteRequest(s, m.recipient, term, preVote) {
      var i :| 0 <= i < |out| && out[i] == m;
      assert peers[i] in peers;
    }
    forall k | k in s.members && k != s.name ensures exists m :: m in out && m.recipient == k {
      assert k in peers;
      var i :| 0 <= i < |peers| && peers[i] == k;
      assert out[i] in out;
    }
  }

  lemma ReplicatesAll(s: NodeState)
    requires Distinct(s.members)
    ensures OneEach(s, Replicate(s))
    ensures forall m :: m in Replicate(s) ==> m.recipient != s.name && m == ReplicateTo(s, m.recipient)
  {
    var peers, out := s.Peers(), Replicate(s);
    OthersDistinct(s.members, s.name);
    forall m | m in out 
      ensures m.sender == s.name && m.recipient in s.members && m.recipient != s.name && m == ReplicateTo(s, m.recipient)
    {
      var i :| 0 <= i < |out| && out[i] == m;
      assert peers[i] in peers;
    }
    forall k | k in s.members && k != s.name ensures exists m :: m in out && m.recipient == k {
      assert k in peers;
      var i :| 0 <= i < |peers| && peers[i] == k;
      assert out[i] in out;
    }
  }

  /* ---- everyone speaks for itself ---- */

  /** What a node sends, it sends in its own name. */
  predicate Own(s: NodeState, sends: seq<Message>) { forall m :: m in sends ==> m.sender == s.name }

  lemma RequestsOwn(s: NodeState, term: Term, preVote: bool)
    ensures Own(s, VoteRequests(s, term, preVote))
  {
    var out := VoteRequests(s, term, preVote);
    forall m | m in out ensures m.sender == s.name { var i :| 0 <= i < |out| && out[i] == m; }
  }

  lemma ReplicasOwn(s: NodeState)
    ensures Own(s, Replicate(s))
  {
    var out := Replicate(s);
    forall m | m in out ensures m.sender == s.name { var i :| 0 <= i < |out| && out[i] == m; }
  }

  lemma OfficeOwn(s: NodeState)
    requires BecomeLeader(s).Ok?
    ensures Own(s, BecomeLeader(s).value.sends)
  {
    hide Replicate;
    ReplicasOwn(BecomeLeader(s).value.node);
  }

  lemma StandOwn(s: NodeState, span: int)
    ensures BecomeCandidate(s, span).Ok? ==> Own(s, BecomeCandidate(s, span).value.sends)
    ensures Stand(s, span).Ok? ==> Own(s, Stand(s, span).value.sends)
  {
    hide BecomeLeader, VoteRequests;
    var stood := Stood(s, span);
    if BecomeLeader(stood).Ok? { OfficeOwn(stood); }
    RequestsOwn(stood, stood.term, false);
    RequestsOwn(s, s.term + 1, true);
  }

  lemma TickOwn(s: NodeState, now: int, span: int)
    requires Tick(s, now, span).Ok?
    ensures Own(s, Tick(s, now, span).value.sends)
  {
    hide Stand, Replicate;
    StandOwn(s.(now := now), span);
    ReplicasOwn(s.(now := now, heartbeatDue := now + HEARTBEAT_INTERVAL));
  }

  lemma HandleOwn(s: NodeState, m: Message, span: int)
    requires m.recipient == s.name && Handle(s, m, span).Ok?
    ensures Own(s, Handle(s, m, span).value.sends)
  {
    hide BecomeLeader, BecomeCandidate, AdvanceCommit, ApplyCommitted, TakeAll, RetryIndex, RunStart, Heard;
    match m
    case Vote(_, _, _, _, _) =>
      var counted := s.(votes := s.votes + {m.sender});
      if BecomeLeader(counted).Ok? { OfficeOwn(counted); }
      StandOwn(s.(preVotes := s.preVotes + {m.sender}), span);
    case Append(_, _, _, _, _, _, _) => HeardName(s, m.sender, m.term, span);
    case _ =>
  }

  lemma HeardName(s: NodeState, from: Name, term: Term, span: int)
    ensures Heard(s, from, term, span).name == s.name
  {
  }

  lemma StepOwn(s: NodeState, m: Message, span: int)
    requires m.recipient == s.name && Step(s, m, span).Ok?
    ensures Own(s, Step(s, m, span).value.sends)
  {
    hide Handle;
    if m.term >= s.term {
      HandleOwn(if m.term > s.term && !m.Asking() then BecomeFollower(s, m.term, None, span) else s, m, span);
    }
  }

  /* ---- reading the timers ---- */

  /** When the next thing a node does of its own accord is due: its beat if it leads, and else its election. */
  function DueAt(s: NodeState): int { if s.role == Leader then s.heartbeatDue else s.electionDeadline }

  /** Read before it is due, a timer moves the clock and does nothing else. */
  lemma NotDueYet(s: NodeState, now: int, span: int)
    requires now < DueAt(s)
    ensures Tick(s, now, span) == Ok(Effect(s.(now := now), []))
  {
  }

  /** A leader whose beat is due sends every peer its next append, and is next due an interval later. */
  lemma BeatsWhenDue(s: NodeState, now: int, span: int)
    requires Distinct(s.members) && s.role == Leader && now >= DueAt(s)
    ensures Tick(s, now, span).Ok?
    ensures var e := Tick(s, now, span).value;
            && DueAt(e.node) == now + 3 && e.node == s.(now := now, heartbeatDue := now + 3)
            && OneEach(e.node, e.sends)
            && forall m :: m in e.sends ==> m.recipient != s.name && m == ReplicateTo(e.node, m.recipient)
  {
    ReplicatesAll(Tick(s, now, span).value.node);
  }

  /**
  Anyone else whose time is over asks for an election: at once in the next term, with its own vote, or first, under
  pre-vote, without any of that. Either way it asks every peer, and its timer starts anew.
  */
  lemma StandsWhenDue(s: NodeState, now: int, span: int)
    requires Distinct(s.members) && |s.members| > 1 && s.role != Leader && now >= DueAt(s)
    ensures Tick(s, now, span).Ok?
    ensures var e := Tick(s, now, span).value;
            && e.node.electionDeadline == now + span && e.node.now == now && e.node.log == s.log
            && Asks(e.node, e.sends, s.term + 1, s.preVote)
            && if s.preVote
               then e.node == s.(now := now, electionDeadline := now + span, preVotes := {s.name})
               else && e.node.term == s.term + 1 && e.node.role == Candidate && e.node.votedFor == Some(s.name)
                    && e.node.votes == {s.name} && e.node.preVotes == {} && e.node.leader == None
                    && e.node.commitIndex == s.commitIndex && e.node.applied == s.applied && e.node.state == s.state
  {
    hide VoteRequests, OneEach;
    var on := s.(now := now);
    if s.preVote {
      AsksAll(on, s.term + 1, true);
      AsksAlike(on, Tick(s, now, span).value.node, Tick(s, now, span).value.sends, s.term + 1, true);
    } else {
      AsksAll(Stood(on, span), s.term + 1, false);
    }
  }

  lemma AsksAlike(s: NodeState, s': NodeState, sends: seq<Message>, term: int, preVote: bool)
    requires Asks(s, sends, term, preVote) && s'.name == s.name && s'.members == s.members && s'.log == s.log
    ensures Asks(s', sends, term, preVote)
  {
  }

  /* ---- starting the timer anew ---- */

  /** What makes a node draw a new time: a later term, its leader, a vote it grants, or a pre-vote it wins. */
  predicate StartsTimer(s: NodeState, m: Message) {
    m.term >= s.term && ((m.term > s.term && !m.Asking()) || Stirs(s, m))
  }

  /** What does so within a term. */
  predicate Stirs(s: NodeState, m: Message) {
    match m
    case Append(_, _, _, _, _, _, _) => true
    case InstallSnapshot(_, _, _, _, _, _, _) => true
    case RequestVote(from, _, _, lastIndex, lastTerm, preVote) =>
      !preVote && s.votedFor in {None, Some(from)} && s.log.IsUpToDate(lastIndex, lastTerm)
    case Vote(from, _, _, granted, preVote) =>
      && preVote && granted && s.role == Follower
      && s.preVotes != {} && |s.preVotes + {from}| >= |s.members| / 2 + 1
    case _ => false
  }

  /** A message starts the election timer anew exactly when it is one of those, and otherwise leaves it running. */
  lemma TimerMovesExactly(s: NodeState, m: Message, span: int)
    requires m.recipient == s.name && Step(s, m, span).Ok?
    ensures var s' := Step(s, m, span).value.node;
            s'.now == s.now && s'.electionDeadline == if StartsTimer(s, m) then s.now + span else s.electionDeadline
  {
    hide Handle, Stirs;
    if m.term >= s.term {
      HandleTimer(if m.term > s.term && !m.Asking() then BecomeFollower(s, m.term, None, span) else s, m, span);
    }
  }

  lemma HandleTimer(s: NodeState, m: Message, span: int)
    requires m.recipient == s.name && Handle(s, m, span).Ok?
    ensures var s' := Handle(s, m, span).value.node;
            s'.now == s.now && s'.electionDeadline == if Stirs(s, m) then s.now + span else s.electionDeadline
  {
    hide OnVote, OnAppended, OnInstalled, OnAppend;
    match m
    case Vote(_, _, _, _, _) => VoteTimer(s, m, span);
    case Append(_, _, _, _, _, _, _) => AppendFollows(s, m, span);
    case Appended(_, _, _, _, _, _, _) => AnswerTimer(s, m);
    case Installed(_, _, _, _) => AnswerTimer(s, m);
    case _ =>
  }

  /** What an append does to its receiver before its entries are looked at, whatever then becomes of them. */
  lemma AppendFollows(s: NodeState, m: Message, span: int)
    requires m.recipient == s.name && m.Append?
    ensures var s' := match OnAppend(s, m, span) case Ok(e) => e.node case Err(_) => HandleLeft(s, m, span);
            && s'.role == Follower && s'.leader == Some(m.sender) && s'.now == s.now && s'.electionDeadline == s.now + span
            && (m.term == s.term ==> s'.term == s.term && s'.votedFor == s.votedFor)
  {
    hide ApplyCommitted, TakeAll, Conflict, Heard, HandleLeft;
    HeardFollows(s, m.sender, m.term, span);
    LeftIsHeard(s, m, span);
  }

  lemma LeftIsHeard(s: NodeState, m: Message, span: int)
    requires m.recipient == s.name && m.Append?
    ensures HandleLeft(s, m, span) == Heard(s, m.sender, m.term, span)
  {
  }

  lemma HeardFollows(s: NodeState, from: Name, term: Term, span: int)
    ensures var g := Heard(s, from, term, span);
            && g.role == Follower && g.leader == Some(from) && g.now == s.now && g.electionDeadline == s.now + span
            && (term == s.term ==> g.term == s.term && g.votedFor == s.votedFor)
  {
  }

  lemma OfficeTimer(s: NodeState)
    requires BecomeLeader(s).Ok?
    ensures BecomeLeader(s).value.node.electionDeadline == s.electionDeadline && BecomeLeader(s).value.node.now == s.now
  {
  }

  lemma VoteTimer(s: NodeState, m: Message, span: int)
    requires m.recipient == s.name && m.Vote? && OnVote(s, m, span).Ok?
    ensures var s' := OnVote(s, m, span).value.node;
            && s'.now == s.now
            && s'.electionDeadline ==
               if m.preVote && m.granted && s.role == Follower && s.preVotes != {}
                  && |s.preVotes + {m.sender}| >= |s.members| / 2 + 1
               then s.now + span else s.electionDeadline
  {
    var counted := s.(votes := s.votes + {m.sender});
    if BecomeLeader(counted).Ok? { OfficeTimer(counted); }
    var stood := Stood(s.(preVotes := s.preVotes + {m.sender}), span);
    if BecomeLeader(stood).Ok? { OfficeTimer(stood); }
  }

  lemma AnswerTimer(s: NodeState, m: Message)
    requires m.recipient == s.name
    ensures m.Appended? && OnAppended(s, m).Ok? ==>
              var s' := OnAppended(s, m).value.node; s'.electionDeadline == s.electionDeadline && s'.now == s.now
    ensures m.Installed? && OnInstalled(s, m).Ok? ==>
              var s' := OnInstalled(s, m).value.node; s'.electionDeadline == s.electionDeadline && s'.now == s.now
  {
    hide AdvanceCommit, RetryIndex, ReplicateTo;
  }

  /**
  Hearing from a leader of its own or a later term, a node follows it: it takes the term and the leader's name and
  draws a new time, whether the append is taken, refused or raises. Only a snapshot leaves a candidate standing.
  */
  lemma HearingFollows(s: NodeState, m: Message, span: int)
    requires (m.Append? || m.InstallSnapshot?) && m.recipient == s.name && m.term >= s.term
    ensures var s' := match Step(s, m, span) case Ok(e) => e.node case Err(_) => StepLeft(s, m, span);
            && s'.term == m.term && s'.leader == Some(m.sender)
            && s'.now == s.now && s'.electionDeadline == s.now + span
            && s'.votedFor == (if m.term > s.term then None else s.votedFor)
            && s'.role == if m.Append? || m.term > s.term then Follower else s.role
  {
    hide OnAppend, HandleLeft;
    var g := if m.term > s.term then BecomeFollower(s, m.term, None, span) else s;
    StepIsHandle(s, m, span);
    if m.Append? { AppendFollows(g, m, span); }
  }

  lemma StepIsHandle(s: NodeState, m: Message, span: int)
    requires (m.Append? || m.InstallSnapshot?) && m.recipient == s.name && m.term >= s.term
    ensures var g := if m.term > s.term then BecomeFollower(s, m.term, None, span) else s;
            && StepLeft(s, m, span) == HandleLeft(g, m, span)
            && Step(s, m, span) == if m.Append? then OnAppend(g, m, span) else Ok(OnInstall(g, m, span))
  {
    hide OnAppend, HandleLeft, OnInstall;
  }

  /** So a follower that heard its leader stands at no tick before the time it drew is over. */
  lemma HeardWaits(s: NodeState, m: Message, span: int, now: int, span': int)
    requires m.Append? && m.recipient == s.name && m.term >= s.term && Step(s, m, span).Ok? && now < s.now + span
    ensures var s' := Step(s, m, span).value.node; Tick(s', now, span') == Ok(Effect(s'.(now := now), []))
  {
    HearingFollows(s, m, span);
    NotDueYet(Step(s, m, span).value.node, now, span');
  }

  /* ---- over runs ---- */

  /** A timer read before it is due changes nothing in the whole cluster but that node's clock. */
  lemma EarlyTimersDoNothing(states: seq<Cluster>, events: seq<Event>, i: nat)
    requires Run(states, events) && i < |events| && events[i].Timer?
    requires events[i].node in states[i].nodes && events[i].now < DueAt(states[i].nodes[events[i].node])
    ensures var n := events[i].node;
            states[i + 1] == states[i].(nodes := states[i].nodes[n := states[i].nodes[n].(now := events[i].now)])
  {
    var n := events[i].node;
    assert StepOf(states, events, i);
    NotDueYet(states[i].nodes[n], events[i].now, events[i].span);
    assert states[i].sent + (set m | m in []) == states[i].sent;
  }

  /** From time `t` on, no clock reading of this node goes behind it, and no time drawn is shorter than `least`. */
  ghost predicate Timely(e: Event, f: Name, t: int, least: int) {
    match e
    case Deliver(m, span) => m.recipient == f ==> span >= least
    case Timer(n, now, span) => n == f ==> now >= t && span >= least
    case Restart(n, now, span) => n == f ==> now >= t && span >= least
    case _ => true
  }

  /** The clock is past `t`, and the deadline past all that could have been drawn by then. */
  predicate Patient(s: NodeState, t: int, least: int) {
    s.now >= t && s.electionDeadline >= t + least
  }

  lemma EventPatient(c: Cluster, e: Event, f: Name, t: int, least: int)
    requires Enabled(c, e) && Apply(c, e).Ok? && f in c.nodes && Timely(e, f, t, least)
    requires Patient(c.nodes[f], t, least)
    ensures f in Apply(c, e).value.nodes && Patient(Apply(c, e).value.nodes[f], t, least)
  {
    hide Step, Tick, Propose;
    match e
    case Deliver(m, span) => if m.recipient == f { TimerMovesExactly(c.nodes[f], m, span); }
    case Timer(n, now, span) => if n == f { TickTimer(c.nodes[f], now, span); }
    case Request(n, command) => if n == f { ProposeTimer(c.nodes[f], command); }
    case _ =>
  }

  lemma TickTimer(s: NodeState, now: int, span: int)
    requires Tick(s, now, span).Ok?
    ensures var s' := Tick(s, now, span).value.node;
            s'.now == now && (s'.electionDeadline == s.electionDeadline || s'.electionDeadline == now + span)
  {
    var stood := Stood(s.(now := now), span);
    if BecomeLeader(stood).Ok? { OfficeTimer(stood); }
  }

  lemma ProposeTimer(s: NodeState, command: Command)
    requires Propose(s, command).Ok?
    ensures var s' := Propose(s, command).value.0; s'.now == s.now && s'.electionDeadline == s.electionDeadline
  {
  }

  lemma {:induction false} StaysPatient(states: seq<Cluster>, events: seq<Event>, i: nat, j: nat, f: Name, t: int, least: int)
    requires Run(states, events) && i <= j <= |events| && f in states[i].nodes && Patient(states[i].nodes[f], t, least)
    requires forall k :: i <= k < j ==> Timely(events[k], f, t, least)
    ensures f in states[j].nodes && Patient(states[j].nodes[f], t, least)
    decreases j - i
  {
    hide Apply, Enabled, Initial, Timely, Patient;
    if i < j {
      assert StepOf(states, events, i);
      EventPatient(states[i], events[i], f, t, least);
      StaysPatient(states, events, i + 1, j, f, t, least);
    }
  }

  /**
  The leash of a heartbeat: once a node has heard its leader at `t`, and as long as clocks do not go back, none of
  its timers stirs it before `t + least`, whatever else arrives, if nothing it draws is shorter than `least`.
  Unless it has become leader itself by then, every such reading leaves the whole cluster as it was.
  */
  lemma HeardIsQuiet(states: seq<Cluster>, events: seq<Event>, i: nat, j: nat, f: Name, least: int)
    requires Run(states, events) && i < j < |events| && f in states[i].nodes
    requires events[i].Deliver? && events[i].message.recipient == f
    requires events[i].message.Append? || events[i].message.InstallSnapshot?
    requires events[i].message.term >= states[i].nodes[f].term
    requires forall k :: i <= k < j ==> Timely(events[k], f, states[i].nodes[f].now, least)
    requires events[j].Timer? && events[j].node == f && events[j].now < states[i].nodes[f].now + least
    ensures f in states[j].nodes
    ensures states[j].nodes[f].role != Leader ==>
              states[j + 1] == states[j].(nodes := states[j].nodes[f := states[j].nodes[f].(now := events[j].now)])
  {
    hide Apply, Initial, Step;
    var t := states[i].nodes[f].now;
    assert StepOf(states, events, i);
    HeardPatient(states[i], events[i], f, least);
    StaysPatient(states, events, i + 1, j, f, t, least);
    if states[j].nodes[f].role != Leader { EarlyTimersDoNothing(states, events, j); }
  }

  lemma HeardPatient(c: Cluster, e: Event, f: Name, least: int)
    requires Enabled(c, e) && Apply(c, e).Ok? && f in c.nodes && e.Deliver? && e.message.recipient == f
    requires (e.message.Append? || e.message.InstallSnapshot?) && e.message.term >= c.nodes[f].term && e.span >= least
    ensures f in Apply(c, e).value.nodes && Patient(Apply(c, e).value.nodes[f], c.nodes[f].now, least)
  {
    hide Step;
    HearingFollows(c.nodes[f], e.message, e.span);
  }
}
