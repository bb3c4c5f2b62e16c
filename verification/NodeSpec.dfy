/**
One node of the cluster (rsm/node.py) as functions from a node's state and an input to its next
state and the messages it sends, or to the exception it raises. The class in Node.dfy is the
code in its own form and is proved to do exactly this.

A call draws its election timeouts from a generator; the last draw of a call is the one that
stays, and it is the parameter `span`.
*/
module NodeSpec {
  import opened Basics
  import opened Logs
  import opened Rpc

  const HEARTBEAT_INTERVAL := 3

  datatype Role = Follower | Candidate | Leader

  datatype NodeState = NodeState(
    name: Name,
    members: seq<Name>,
    preVote: bool,
    commitAnyTerm: bool,
    maxBatch: nat,
    term: Term,
    votedFor: Option<Name>,
    log: LogState,
    role: Role,
    leader: Option<Name>,
    commitIndex: int,
    lastApplied: int,
    nextIndex: map<Name, int>,
    matchIndex: map<Name, int>,
    votes: set<Name>,
    preVotes: set<Name>,
    now: int,
    electionDeadline: int,
    heartbeatDue: int,
    applied: seq<Entry>,
    state: map<string, Value>)
  {
    function Quorum(): nat { |members| / 2 + 1 }

    function Peers(): seq<Name> { Others(members, name) }
  }

  datatype Effect = Effect(node: NodeState, sends: seq<Message>)

  /** Everyone but `name`, in membership order. */
  function Others(members: seq<Name>, name: Name): (peers: seq<Name>)
    ensures forall p :: p in peers <==> p in members && p != name
    ensures forall i :: 0 <= i < |peers| ==> peers[i] != name
  {
    if members == [] then []
    else if members[0] == name then Others(members[1..], name)
    else [members[0]] + Others(members[1..], name)
  }

  /** A node just constructed, before anything reached it. */
  function Fresh(name: Name, members: seq<Name>, preVote: bool, maxBatch: nat, span: int): NodeState {
    NodeState(name, members, preVote, false, maxBatch, 1, None, RawLog([], NO_INDEX, NO_TERM), Follower,
              None, NO_INDEX, NO_INDEX, map[], map[], {}, {}, 0, span, 0, [], map[])
  }

  function ResetTimer(s: NodeState, span: int): NodeState {
    s.(electionDeadline := s.now + span)
  }

  function BecomeFollower(s: NodeState, term: Term, leader: Option<Name>, span: int): NodeState {
    var adopted := if term > s.term then s.(term := term, votedFor := None) else s;
    ResetTimer(adopted.(role := Follower, leader := leader, votes := {}, preVotes := {}), span)
  }

  function VoteRequest(s: NodeState, to: Name, term: Term, preVote: bool): Message
    requires to != s.name
  {
    RequestVote(s.name, to, term, s.log.LastIndex(), s.log.LastTerm(), preVote)
  }

  function VoteRequests(s: NodeState, term: Term, preVote: bool): seq<Message> {
    var peers := s.Peers();
    seq(|peers|, i requires 0 <= i < |peers| => VoteRequest(s, peers[i], term, preVote))
  }

  /** What is asked depends on who asks and on its log, and on nothing else. */
  lemma SameRequests(s: NodeState, s': NodeState, term: Term, preVote: bool)
    requires s.name == s'.name && s.members == s'.members && s.log == s'.log
    ensures VoteRequests(s, term, preVote) == VoteRequests(s', term, preVote)
  {
  }

  function BecomePreCandidate(s: NodeState, span: int): Effect {
    Effect(ResetTimer(s.(preVotes := {s.name}), span), VoteRequests(s, s.term + 1, true))
  }

  /** The state a node is in when it has just stood: one more term, its own vote, no leader. */
  function Stood(s: NodeState, span: int): NodeState {
    ResetTimer(s.(term := s.term + 1, role := Candidate, votedFor := Some(s.name), leader := None,
                  votes := {s.name}, preVotes := {}), span)
  }

  function BecomeCandidate(s: NodeState, span: int): Result<Effect> {
    var stood := Stood(s, span);
    if |s.members| == 1 then BecomeLeader(stood)
    else Ok(Effect(stood, VoteRequests(stood, stood.term, false)))
  }

  function Stand(s: NodeState, span: int): Result<Effect> {
    if s.preVote && |s.members| > 1 then Ok(BecomePreCandidate(s, span)) else BecomeCandidate(s, span)
  }

  /** `dict.fromkeys`. */
  function FromKeys(keys: seq<Name>, value: int): map<Name, int> {
    map k | k in keys :: value
  }

  /** A leader before its first entry: every follower presumed level and none known to match. */
  function TakenOffice(s: NodeState): NodeState {
    s.(role := Leader, leader := Some(s.name), votes := {},
       nextIndex := FromKeys(s.Peers(), s.log.LastIndex() + 1),
       matchIndex := FromKeys(s.Peers(), NO_INDEX))
  }

  /** Append one entry of the node's own term to its own log, and count itself as holding it. */
  function Write(s: NodeState, command: Command): Result<NodeState> {
    var log :- AppendOne(s.log, Entry(s.term, s.log.LastIndex() + 1, command));
    Ok(s.(log := log, matchIndex := s.matchIndex[s.name := log.LastIndex()]))
  }

  function BecomeLeader(s: NodeState): Result<Effect> {
    var written :- Write(TakenOffice(s), NoOp);
    Opened(written)
  }

  /** A leader whose first entry is written starts to beat, and to commit if it is alone. */
  function Opened(s: NodeState): Result<Effect> {
    var beating := s.(heartbeatDue := s.now + HEARTBEAT_INTERVAL);
    var led :- if |s.members| == 1 then AdvanceCommit(beating) else Ok(beating);
    Ok(Effect(led, Replicate(led)))
  }

  /** `propose`: the new state and the index the command landed at. */
  function Propose(s: NodeState, command: Command): Result<(NodeState, int)> {
    if s.role != Leader then Err(NotLeader) else
    var written :- Write(s, command);
    var led :- if |s.members| == 1 then AdvanceCommit(written) else Ok(written);
    Ok((led, s.log.LastIndex() + 1))
  }

  /** Where the next message to `to` starts, clamped to the end of the leader's own log. */
  function StartFor(s: NodeState, to: Name): int {
    Min(Get(s.nextIndex, to, s.log.LastIndex() + 1), s.log.LastIndex() + 1)
  }

  function ReplicateTo(s: NodeState, to: Name): Message
    requires to != s.name
  {
    var start := StartFor(s, to);
    if start <= s.log.snapshotIndex then
      InstallSnapshot(s.name, to, s.term, s.log.snapshotIndex, s.log.snapshotTerm, s.state, s.members)
    else
      Append(s.name, to, s.term, start - 1, s.log.TermAt(start - 1),
             s.log.Slice(start, start + s.maxBatch - 1), s.commitIndex)
  }

  function Replicate(s: NodeState): seq<Message> {
    var peers := s.Peers();
    seq(|peers|, i requires 0 <= i < |peers| => ReplicateTo(s, peers[i]))
  }

  function Tick(s: NodeState, now: int, span: int): Result<Effect> {
    var s := s.(now := now);
    if s.role == Leader then
      if now >= s.heartbeatDue then
        var beating := s.(heartbeatDue := now + HEARTBEAT_INTERVAL);
        Ok(Effect(beating, Replicate(beating)))
      else Ok(Effect(s, []))
    else if now >= s.electionDeadline then Stand(s, span)
    else Ok(Effect(s, []))
  }

  function Refuse(s: NodeState, message: Message): seq<Message>
    requires message.sender != s.name
  {
    if message.RequestVote? then [Vote(s.name, message.sender, s.term, false, false)]
    else if message.Append? then [Appended(s.name, message.sender, s.term, false, NO_INDEX, NO_TERM, NO_INDEX)]
    else []
  }

  function Step(s: NodeState, message: Message, span: int): Result<Effect>
    requires message.recipient == s.name
  {
    var check := TermCheck(s.term, message);
    if check == Stale then Ok(Effect(s, Refuse(s, message)))
    else if check == Ahead && !message.Asking() then
      Handle(BecomeFollower(s, message.term, None, span), message, span)
    else Handle(s, message, span)
  }

  /** The dispatch after the term check. */
  function Handle(s: NodeState, message: Message, span: int): Result<Effect>
    requires message.recipient == s.name
  {
    match message
    case RequestVote(_, _, _, _, _, _) => Ok(OnRequestVote(s, message, span))
    case Vote(_, _, _, _, _) => OnVote(s, message, span)
    case Append(_, _, _, _, _, _, _) => OnAppend(s, message, span)
    case Appended(_, _, _, _, _, _, _) => OnAppended(s, message)
    case InstallSnapshot(_, _, _, _, _, _, _) => Ok(OnInstall(s, message, span))
    case Installed(_, _, _, _) => OnInstalled(s, message)
  }

  predicate Grants(s: NodeState, message: Message)
    requires message.RequestVote?
  {
    (s.votedFor == None || s.votedFor == Some(message.sender))
    && s.log.IsUpToDate(message.lastIndex, message.lastTerm)
  }

  function OnRequestVote(s: NodeState, message: Message, span: int): Effect
    requires message.recipient == s.name && message.RequestVote?
  {
    if message.preVote then
      var current := s.log.IsUpToDate(message.lastIndex, message.lastTerm);
      Effect(s, [Vote(s.name, message.sender, s.term, current && message.term > s.term, true)])
    else
      var granted := Grants(s, message);
      var s' := if granted then ResetTimer(s.(votedFor := Some(message.sender)), span) else s;
      Effect(s', [Vote(s.name, message.sender, s.term, granted, false)])
  }

  function OnVote(s: NodeState, message: Message, span: int): Result<Effect>
    requires message.recipient == s.name && message.Vote?
  {
    if message.preVote then OnPreVote(s, message, span)
    else if s.role != Candidate || !message.granted then Ok(Effect(s, []))
    else
      var counted := s.(votes := s.votes + {message.sender});
      if |counted.votes| >= counted.Quorum() then BecomeLeader(counted) else Ok(Effect(counted, []))
  }

  function OnPreVote(s: NodeState, message: Message, span: int): Result<Effect>
    requires message.recipient == s.name && message.Vote?
  {
    if s.role != Follower || !message.granted || s.preVotes == {} then Ok(Effect(s, []))
    else
      var counted := s.(preVotes := s.preVotes + {message.sender});
      if |counted.preVotes| >= counted.Quorum() then BecomeCandidate(counted, span)
      else Ok(Effect(counted, []))
  }

  /** One entry of an append: skipped if held at the same term, otherwise it cuts and is appended. */
  function TakeOne(log: LogState, one: Entry): LogState {
    if log.Holds(one.index) && log.TermAt(one.index) == one.term then log
    else
      var cut := if log.Holds(one.index) then Truncated(log, one.index) else log;
      if one.index == cut.LastIndex() + 1 then Extended(cut, one) else cut
  }

  function TakeAll(log: LogState, entries: seq<Entry>): LogState
    decreases |entries|
  {
    if entries == [] then log else TakeAll(TakeOne(log, entries[0]), entries[1..])
  }

  /** A follower that has heard from a leader of its term. */
  function Heard(s: NodeState, from: Name, term: Term, span: int): NodeState {
    var s' := if s.role != Follower then BecomeFollower(s, term, Some(from), span) else s;
    ResetTimer(s'.(leader := Some(from)), span)
  }

  function OnAppend(s: NodeState, message: Message, span: int): Result<Effect>
    requires message.recipient == s.name && message.Append?
  {
    var s := Heard(s, message.sender, message.term, span);
    if !s.log.Matches(message.previousIndex, message.previousTerm) then
      var refusal :- Conflict(s, message);
      Ok(Effect(s, [refusal]))
    else
      var taken := s.(log := TakeAll(s.log, message.entries));
      var committed :=
        if message.commitIndex > taken.commitIndex
        then ApplyCommitted(taken.(commitIndex := Min(message.commitIndex, taken.log.LastIndex())))
        else taken;
      Ok(Effect(committed,
                [Appended(s.name, message.sender, s.term, true, message.AppendEnd(), NO_TERM, NO_INDEX)]))
  }

  /** The first index of the run of equal terms that ends at `index`. */
  function RunStart(log: LogState, index: int): (first: int)
    requires log.KnowsTerm(index) && log.snapshotIndex <= index
    ensures log.Holds(index) ==> log.FirstIndex() <= first <= index
    decreases index
  {
    if index > log.FirstIndex() && log.TermAt(index - 1) == log.TermAt(index) then RunStart(log, index - 1)
    else index
  }

  function Conflict(s: NodeState, message: Message): Result<Message>
    requires message.recipient == s.name && message.Append?
    requires !s.log.Matches(message.previousIndex, message.previousTerm)
  {
    var at := message.previousIndex;
    if at > s.log.LastIndex() then
      Ok(Appended(s.name, message.sender, s.term, false, NO_INDEX, NO_TERM, s.log.LastIndex() + 1))
    else if at < s.log.snapshotIndex then Err(Compacted)
    else
      Ok(Appended(s.name, message.sender, s.term, false, NO_INDEX, s.log.TermAt(at), RunStart(s.log, at)))
  }

  /** The last index at or below `index` whose entry has the given term, if any. */
  function LastOfTerm(log: LogState, term: int, index: int): (found: Option<int>)
    requires index <= log.LastIndex()
    ensures found.Some? ==> log.Holds(found.value) && found.value <= index && log.TermAt(found.value) == term
    decreases index - log.snapshotIndex
  {
    if index < log.FirstIndex() then None
    else if log.TermAt(index) == term then Some(index)
    else LastOfTerm(log, term, index - 1)
  }

  function SkipTerm(s: NodeState, conflictTerm: int, conflictIndex: int): int {
    match LastOfTerm(s.log, conflictTerm, s.log.LastIndex())
    case Some(index) => index + 1
    case None => Max(conflictIndex, s.log.FirstIndex())
  }

  /** Where a refusal moves the next index. */
  function RetryIndex(s: NodeState, conflictTerm: int, conflictIndex: int): int {
    if conflictTerm != NO_TERM then SkipTerm(s, conflictTerm, conflictIndex)
    else Max(conflictIndex, s.log.FirstIndex())
  }

  function OnAppended(s: NodeState, message: Message): Result<Effect>
    requires message.recipient == s.name && message.Appended?
  {
    if s.role != Leader then Ok(Effect(s, []))
    else if message.success then
      var moved :- AdvanceCommit(Matched(s, message.sender, message.matchIndex));
      Ok(Effect(moved, if moved.nextIndex[message.sender] <= moved.log.LastIndex()
                       then [ReplicateTo(moved, message.sender)] else []))
    else
      var s' := s.(nextIndex := s.nextIndex[message.sender := RetryIndex(s, message.conflictTerm, message.conflictIndex)]);
      Ok(Effect(s', [ReplicateTo(s', message.sender)]))
  }

  /** A leader that has learned a follower matches up to an index. The match never moves back. */
  function Matched(s: NodeState, follower: Name, index: int): NodeState {
    var best := Max(Get(s.matchIndex, follower, NO_INDEX), index);
    s.(matchIndex := s.matchIndex[follower := best], nextIndex := s.nextIndex[follower := best + 1])
  }

  /** The members a leader knows to hold an index. */
  function Holders(members: seq<Name>, matchIndex: map<Name, int>, index: int): set<Name> {
    set m | m in members && Get(matchIndex, m, NO_INDEX) >= index
  }

  /**
  The scan for an index to commit, from `index` down to the commit index: the first that a majority holds at
  the leader's current term. It raises where it cannot read a term.
  */
  function CommitScan(s: NodeState, index: int): Result<Option<int>>
    requires index <= s.log.LastIndex()
    decreases index - s.commitIndex
  {
    if index <= s.commitIndex then Ok(None)
    else if !s.commitAnyTerm && !s.log.KnowsTerm(index) then Err(Compacted)
    else if (s.commitAnyTerm || s.log.TermAt(index) == s.term)
            && |Holders(s.members, s.matchIndex, index)| >= s.Quorum() then Ok(Some(index))
    else CommitScan(s, index - 1)
  }

  function AdvanceCommit(s: NodeState): (r: Result<NodeState>)
    ensures r.Ok? ==>
              var v := r.value;
              v == s.(matchIndex := v.matchIndex, commitIndex := v.commitIndex, lastApplied := v.lastApplied,
                      applied := v.applied, state := v.state)
  {
    if s.role != Leader then Ok(s) else
    var s := s.(matchIndex := s.matchIndex[s.name := s.log.LastIndex()]);
    var found :- CommitScan(s, s.log.LastIndex());
    match found
    case None => Ok(s)
    case Some(index) => Ok(ApplyCommitted(s.(commitIndex := index)))
  }

  function ApplyCommand(state: map<string, Value>, command: Command): map<string, Value> {
    match command
    case SetKey(key, value) => state[key := value]
    case _ => state
  }

  /** Hand over every entry above `lastApplied` up to `commitIndex`, skipping what is not held. */
  function ApplyCommitted(s: NodeState): (r: NodeState)
    ensures r == s.(lastApplied := r.lastApplied, applied := r.applied, state := r.state)
    decreases s.commitIndex - s.lastApplied
  {
    if s.lastApplied >= s.commitIndex then s
    else
      var s' := s.(lastApplied := s.lastApplied + 1);
      if !s.log.Holds(s'.lastApplied) then ApplyCommitted(s')
      else
        var one := s.log.At(s'.lastApplied);
        ApplyCommitted(s'.(applied := s.applied + [one], state := ApplyCommand(s.state, one.command)))
  }

  function OnInstall(s: NodeState, message: Message, span: int): Effect
    requires message.recipient == s.name && message.InstallSnapshot?
  {
    var heard := ResetTimer(s.(leader := Some(message.sender)), span);
    var s' :=
      if message.snapIndex > s.log.LastIndex() then
        heard.(log := RawLog([], message.snapIndex, message.snapTerm), state := message.state,
               commitIndex := message.snapIndex, lastApplied := message.snapIndex)
      else heard;
    Effect(s', [Installed(s.name, message.sender, s.term, s'.log.LastIndex())])
  }

  function OnInstalled(s: NodeState, message: Message): Result<Effect>
    requires message.recipient == s.name && message.Installed?
  {
    if s.role != Leader then Ok(Effect(s, [])) else
    var moved :- AdvanceCommit(Matched(s, message.sender, message.upTo));
    Ok(Effect(moved, [ReplicateTo(moved, message.sender)]))
  }

  /** `restart`: a new node but for its persistent fields, unless the log is out of order. */
  function Restarted(s: NodeState, now: int, span: int): Result<NodeState> {
    if !s.log.Ordered() then Err(ConfigError)
    else
      Ok(Fresh(s.name, s.members, s.preVote, s.maxBatch, span).(
         term := s.term, votedFor := s.votedFor, log := s.log, now := now, electionDeadline := now + span))
  }

  /* ---- the state an exception leaves behind ---- */

  /** The count of the commit scan met a position it could not read. */
  function CountLeft(s: NodeState): NodeState {
    s.(matchIndex := s.matchIndex[s.name := s.log.LastIndex()])
  }

  function OfficeLeft(s: NodeState): NodeState {
    match Write(TakenOffice(s), NoOp)
    case Ok(written) => CountLeft(written.(heartbeatDue := written.now + HEARTBEAT_INTERVAL))
    case Err(_) => TakenOffice(s)
  }

  function StandingLeft(s: NodeState, span: int): NodeState { OfficeLeft(Stood(s, span)) }

  function ProposeLeft(s: NodeState, command: Command): NodeState {
    if s.role != Leader || Write(s, command).Err? then s else CountLeft(Write(s, command).value)
  }

  function PreVoteLeft(s: NodeState, message: Message, span: int): NodeState {
    StandingLeft(s.(preVotes := s.preVotes + {message.sender}), span)
  }

  function HandleLeft(s: NodeState, message: Message, span: int): NodeState {
    match message
    case Vote(from, _, _, _, preVote) =>
      if preVote then PreVoteLeft(s, message, span) else OfficeLeft(s.(votes := s.votes + {from}))
    case Append(from, _, term, _, _, _, _) => Heard(s, from, term, span)
    case Appended(from, _, _, _, upTo, _, _) => CountLeft(Matched(s, from, upTo))
    case Installed(from, _, _, upTo) => CountLeft(Matched(s, from, upTo))
    case _ => s
  }

  function StepLeft(s: NodeState, message: Message, span: int): NodeState {
    var down := TermCheck(s.term, message) == Ahead && !message.Asking();
    HandleLeft(if down then BecomeFollower(s, message.term, None, span) else s, message, span)
  }
}
