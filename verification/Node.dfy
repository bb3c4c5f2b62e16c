/**
One node of the cluster in the form it is written in (rsm/node.py): an object whose handlers edit
its fields and its log in place. Every method is proved to do what its function in NodeSpec says.
*/
module Nodes {
  import opened Basics
  import opened Logs
  import opened Rpc
  import opened NodeSpec

  /** A method that did what the specification says: the same reply and state, or the same exception and what it leaves. */
  ghost predicate Did(spec: Result<Effect>, left: NodeState, r: Result<seq<Message>>, node: NodeState) {
    match spec
    case Ok(effect) => r == Ok(effect.sends) && node == effect.node
    case Err(e) => r == Err(e) && node == left
  }

  lemma CountsHolders(members: seq<Name>, match_: map<Name, int>, index: int, k: nat)
    requires Distinct(members) && k < |members|
    ensures Holders(members[..k + 1], match_, index) ==
            Holders(members[..k], match_, index) + (if Get(match_, members[k], NO_INDEX) >= index then {members[k]} else {})
    ensures members[k] !in Holders(members[..k], match_, index)
  {
    assert members[..k + 1] == members[..k] + [members[k]];
  }

  class Node {
    const name: Name
    const members: seq<Name>
    const preVote: bool
    const commitAnyTerm: bool
    const maxBatch: nat

    var term: Term
    var votedFor: Option<Name>
    var log: Log

    var role: Role
    var leader: Option<Name>
    var commitIndex: int
    var lastApplied: int

    var nextIndex: map<Name, int>
    var matchIndex: map<Name, int>
    var votes: set<Name>
    var preVotes: set<Name>

    var now: int
    var electionDeadline: int
    var heartbeatDue: int
    var applied: seq<Entry>
    var state: map<string, Value>

    ghost predicate Valid()
      reads this`log, log
    {
      log.Valid() && Distinct(members)
    }

    ghost function View(): NodeState
      reads this, log
      requires Valid()
    {
      NodeState(name, members, preVote, commitAnyTerm, maxBatch, term, votedFor, log.View(), role, leader,
                commitIndex, lastApplied, nextIndex, matchIndex, votes, preVotes, now, electionDeadline,
                heartbeatDue, applied, state)
    }

    constructor (name: Name, members: seq<Name>, preVote: bool, maxBatch: nat, span: int)
      requires name in members && Distinct(members)
      ensures Valid() && fresh(log) && View() == Fresh(name, members, preVote, maxBatch, span)
      ensures term == 1 && votedFor == None && role == Follower && leader == None && log.View() == RawLog([], 0, 0)
      ensures commitIndex == lastApplied == 0 && applied == [] && state == map[] && votes == {} && preVotes == {}
      ensures now == 0 && electionDeadline == span && !commitAnyTerm
    {
      this.name, this.members, this.preVote, this.maxBatch := name, members, preVote, maxBatch;
      commitAnyTerm := false;
      term, votedFor := 1, None;
      role, leader, commitIndex, lastApplied := Follower, None, NO_INDEX, NO_INDEX;
      nextIndex, matchIndex, votes, preVotes := map[], map[], {}, {};
      now, electionDeadline, heartbeatDue := 0, 0 + span, 0;
      applied, state := [], map[];
      log := new Log([], NO_INDEX, NO_TERM);
    }

    /** Construction with the checks on the membership. */
    static method Make(name: Name, members: seq<Name>, preVote: bool, maxBatch: nat, span: int)
      returns (r: Result<Node>)
      ensures if name in members && Distinct(members)
              then r.Ok? && fresh(r.value) && r.value.Valid()
                   && r.value.View() == Fresh(name, members, preVote, maxBatch, span)
              else r == Err(ConfigError)
    {
      if name !in members || !Distinct(members) { return Err(ConfigError); }
      var made := new Node(name, members, preVote, maxBatch, span);
      r := Ok(made);
    }

    method ResetElectionTimer(span: int)
      requires Valid()
      modifies this`electionDeadline
      ensures Valid() && View() == ResetTimer(old(View()), span)
    {
      electionDeadline := now + span;
    }

    method StepDown(newTerm: Term, newLeader: Option<Name>, span: int)
      requires Valid()
      modifies this
      ensures Valid() && log == old(log) && View() == BecomeFollower(old(View()), newTerm, newLeader, span)
    {
      if newTerm > term {
        term := newTerm;
        votedFor := None;
      }
      role := Follower;
      leader := newLeader;
      votes := {};
      preVotes := {};
      ResetElectionTimer(span);
    }

    /** Ask every peer for its vote, or whether it would give it. */
    method AskAll(asked: Term, pre: bool) returns (out: seq<Message>)
      requires Valid()
      ensures out == VoteRequests(View(), asked, pre)
    {
      var peers := Others(members, name);
      out := [];
      for i := 0 to |peers|
        invariant |out| == i && forall j :: 0 <= j < i ==> out[j] == VoteRequest(View(), peers[j], asked, pre)
      {
        out := out + [RequestVote(name, peers[i], asked, log.View().LastIndex(), log.View().LastTerm(), pre)];
      }
    }

    method StandForElection(span: int) returns (r: Result<seq<Message>>)
      requires Valid()
      modifies this, log
      ensures Valid() && log == old(log)
      ensures Did(Stand(old(View()), span), StandingLeft(old(View()), span), r, View())
    {
      if preVote && |members| > 1 {
        preVotes := {name};
        ResetElectionTimer(span);
        var out := AskAll(term + 1, true);
        SameRequests(View(), old(View()), term + 1, true);
        r := Ok(out);
      } else {
        r := Candidacy(span);
      }
    }

    method ClaimTerm()
      requires Valid()
      modifies this`term, this`role, this`votedFor, this`leader
      ensures Valid()
      ensures View() == old(View()).(term := old(term) + 1, role := Candidate, votedFor := Some(name), leader := None)
    {
      term := term + 1;
      role := Candidate;
      votedFor := Some(name);
      leader := None;
    }

    method RaiseTerm(span: int)
      requires Valid()
      modifies this
      ensures Valid() && log == old(log) && View() == Stood(old(View()), span)
    {
      ClaimTerm();
      votes := {name};
      preVotes := {};
      ResetElectionTimer(span);
    }

    method Candidacy(span: int) returns (r: Result<seq<Message>>)
      requires Valid()
      modifies this, log
      ensures Valid() && log == old(log)
      ensures Did(BecomeCandidate(old(View()), span), StandingLeft(old(View()), span), r, View())
    {
      RaiseTerm(span);
      if |members| == 1 {
        r := TakeOffice();
      } else {
        var out := AskAll(term, false);
        r := Ok(out);
      }
    }

    method Inaugurate()
      requires Valid()
      modifies this
      ensures Valid() && log == old(log) && View() == TakenOffice(old(View()))
    {
      hide FromKeys, Others;
      role := Leader;
      leader := Some(name);
      votes := {};
      nextIndex := FromKeys(Others(members, name), log.View().LastIndex() + 1);
      matchIndex := FromKeys(Others(members, name), NO_INDEX);
    }

    method TakeOffice() returns (r: Result<seq<Message>>)
      requires Valid()
      modifies this, log
      ensures Valid() && log == old(log)
      ensures Did(BecomeLeader(old(View())), OfficeLeft(old(View())), r, View())
    {
      Inaugurate();
      var wrote := WriteEntry(NoOp);
      if wrote.Err? { return Err(wrote.error); }
      r := OpenOffice();
    }

    method OpenOffice() returns (r: Result<seq<Message>>)
      requires Valid()
      modifies this
      ensures Valid() && log == old(log)
      ensures Did(Opened(old(View())), CountLeft(old(View()).(heartbeatDue := old(now) + HEARTBEAT_INTERVAL)), r, View())
    {
      heartbeatDue := now + HEARTBEAT_INTERVAL;
      if |members| == 1 {
        var advanced := AdvanceCommitIndex();
        if advanced.Err? { return Err(advanced.error); }
      }
      var out := ReplicateToAll();
      r := Ok(out);
    }

    /** Append one entry of this node's term to its own log. */
    method WriteEntry(command: Command) returns (r: Result<()>)
      requires Valid()
      modifies this`matchIndex, log
      ensures Valid()
      ensures match Write(old(View()), command)
              case Ok(s) => r == Ok(()) && View() == s
              case Err(e) => r == Err(e) && View() == old(View())
    {
      var one := Entry(term, log.View().LastIndex() + 1, command);
      ghost var before := log.View();
      var done := log.Append([one]);
      assert AppendAll(before, [one]) == match AppendOne(before, one)
                                         case Ok(l) => (l, None)
                                         case Err(e) => (before, Some(e)) by {
        assert [one][1..] == [];
      }
      if done.Err? { return Err(done.error); }
      matchIndex := matchIndex[name := log.View().LastIndex()];
      r := Ok(());
    }

    method ProposeCommand(command: Command) returns (r: Result<int>)
      requires Valid()
      modifies this, log
      ensures Valid() && log == old(log)
      ensures match Propose(old(View()), command)
              case Ok(written) => r == Ok(written.1) && View() == written.0
              case Err(e) => r == Err(e) && View() == ProposeLeft(old(View()), command)
    {
      if role != Leader { return Err(NotLeader); }
      var index := log.View().LastIndex() + 1;
      var wrote := WriteEntry(command);
      if wrote.Err? { return Err(wrote.error); }
      if |members| == 1 {
        var advanced := AdvanceCommitIndex();
        if advanced.Err? { return Err(advanced.error); }
      }
      r := Ok(index);
    }

    /** The message `ReplicateTo` prescribes for this follower. */
    method ReplicateOne(to: Name) returns (m: Message)
      requires Valid() && to != name
      ensures m == ReplicateTo(View(), to)
    {
      var wanted := if to in nextIndex then nextIndex[to] else log.View().LastIndex() + 1;
      var start := Min(wanted, log.View().LastIndex() + 1);
      if start <= log.snapshotIndex {
        m := InstallSnapshot(name, to, term, log.snapshotIndex, log.snapshotTerm, state, members);
      } else {
        var previous := start - 1;
        m := Append(name, to, term, previous, log.View().TermAt(previous),
                    log.View().Slice(start, start + maxBatch - 1), commitIndex);
      }
    }

    method ReplicateToAll() returns (out: seq<Message>)
      requires Valid()
      ensures out == Replicate(View())
    {
      var peers := Others(members, name);
      out := [];
      for i := 0 to |peers|
        invariant |out| == i && forall j :: 0 <= j < i ==> out[j] == ReplicateTo(View(), peers[j])
      {
        var m := ReplicateOne(peers[i]);
        out := out + [m];
      }
    }

    method Advance(clock: int, span: int) returns (r: Result<seq<Message>>)
      requires Valid()
      modifies this, log
      ensures Valid() && log == old(log)
      ensures Did(Tick(old(View()), clock, span), StandingLeft(old(View()).(now := clock), span), r, View())
    {
      now := clock;
      if role == Leader {
        if clock >= heartbeatDue {
          heartbeatDue := clock + HEARTBEAT_INTERVAL;
          var out := ReplicateToAll();
          return Ok(out);
        }
        return Ok([]);
      }
      if clock >= electionDeadline {
        r := StandForElection(span);
      } else {
        r := Ok([]);
      }
    }

    /** What `Step` says of any message: the same replies and state, or the same exception and what it leaves. */
    method Receive(message: Message, span: int) returns (r: Result<seq<Message>>)
      requires Valid() && message.recipient == name
      modifies this, log
      ensures Valid() && (log == old(log) || fresh(log))
      ensures Did(Step(old(View()), message, span), StepLeft(old(View()), message, span), r, View())
      ensures !message.InstallSnapshot? ==> log == old(log)
    {
      var check := TermCheck(term, message);
      if message.Asking() {
        if check == Stale {
          var refusal := RefuseStale(message);
          return Ok(refusal);
        }
      } else if check == Ahead {
        StepDown(message.term, None, span);
      } else if check == Stale {
        var refusal := RefuseStale(message);
        return Ok(refusal);
      }
      match message
      case RequestVote(_, _, _, _, _, _) =>
        var reply := ReceiveRequestVote(message, span);
        r := Ok([reply]);
      case Vote(_, _, _, _, _) => r := ReceiveVote(message, span);
      case Append(_, _, _, _, _, _, _) => r := ReceiveAppend(message, span);
      case Appended(_, _, _, _, _, _, _) => r := ReceiveAppended(message);
      case InstallSnapshot(_, _, _, _, _, _, _) =>
        var reply := ReceiveInstall(message, span);
        r := Ok([reply]);
      case Installed(_, _, _, _) => r := ReceiveInstalled(message);
    }

    /** Replies to a stale request or append with a bare refusal in this node's own term, and to nothing else. */
    method RefuseStale(message: Message) returns (out: seq<Message>)
      requires Valid() && message.sender != name
      ensures out == Refuse(View(), message)
    {
      if message.RequestVote? {
        return [Vote(name, message.sender, term, false, false)];
      }
      if message.Append? {
        return [Appended(name, message.sender, term, false, NO_INDEX, NO_TERM, NO_INDEX)];
      }
      out := [];
    }

    method ReceiveRequestVote(message: Message, span: int) returns (reply: Message)
      requires Valid() && message.recipient == name && message.RequestVote?
      modifies this
      ensures Valid() && log == old(log)
      ensures OnRequestVote(old(View()), message, span) == Effect(View(), [reply])
    {
      var current := log.View().IsUpToDate(message.lastIndex, message.lastTerm);
      if message.preVote {
        return Vote(name, message.sender, term, current && message.term > term, true);
      }
      var free := votedFor == None || votedFor == Some(message.sender);
      var granted := free && current;
      if granted {
        votedFor := Some(message.sender);
        ResetElectionTimer(span);
      }
      reply := Vote(name, message.sender, term, granted, false);
    }

    method ReceiveVote(message: Message, span: int) returns (r: Result<seq<Message>>)
      requires Valid() && message.recipient == name && message.Vote?
      modifies this, log
      ensures Valid() && log == old(log)
      ensures Did(OnVote(old(View()), message, span), HandleLeft(old(View()), message, span), r, View())
    {
      if message.preVote {
        r := ReceivePreVote(message, span);
        return;
      }
      if role != Candidate || !message.granted { return Ok([]); }
      votes := votes + {message.sender};
      if |votes| >= |members| / 2 + 1 {
        r := TakeOffice();
      } else {
        r := Ok([]);
      }
    }

    method ReceivePreVote(message: Message, span: int) returns (r: Result<seq<Message>>)
      requires Valid() && message.recipient == name && message.Vote?
      modifies this, log
      ensures Valid() && log == old(log)
      ensures Did(OnPreVote(old(View()), message, span), PreVoteLeft(old(View()), message, span), r, View())
    {
      if role != Follower || !message.granted || preVotes == {} { return Ok([]); }
      preVotes := preVotes + {message.sender};
      if |preVotes| >= |members| / 2 + 1 {
        r := Candidacy(span);
      } else {
        r := Ok([]);
      }
    }

    /** Follow whoever sent an append of this term. */
    method Hear(from: Name, itsTerm: Term, span: int)
      requires Valid()
      modifies this
      ensures Valid() && log == old(log) && View() == Heard(old(View()), from, itsTerm, span)
    {
      leader := Some(from);
      if role != Follower {
        StepDown(itsTerm, Some(from), span);
        leader := Some(from);
      }
      ResetElectionTimer(span);
    }

    /** An append this node's log does not match is refused; a matching one is taken and its commit index followed. */
    method ReceiveAppend(message: Message, span: int) returns (r: Result<seq<Message>>)
      requires Valid() && message.recipient == name && message.Append?
      modifies this, log
      ensures Valid() && log == old(log)
      ensures Did(OnAppend(old(View()), message, span), HandleLeft(old(View()), message, span), r, View())
    {
      Hear(message.sender, message.term, span);
      if !log.View().Matches(message.previousIndex, message.previousTerm) {
        var refusal := ConflictReply(message);
        if refusal.Err? { return Err(refusal.error); }
        return Ok([refusal.value]);
      }
      TakeEntries(message.entries);
      FollowCommit(message.commitIndex);
      r := Ok([Appended(name, message.sender, term, true, message.AppendEnd(), NO_TERM, NO_INDEX)]);
    }

    /** The commit index never passes the end of this log, and everything up to it is applied. */
    method FollowCommit(announced: int)
      requires Valid()
      modifies this`commitIndex, this`lastApplied, this`applied, this`state
      ensures Valid()
      ensures View() == if announced > old(commitIndex)
                        then ApplyCommitted(old(View()).(commitIndex := Min(announced, log.View().LastIndex())))
                        else old(View())
    {
      if announced > commitIndex {
        CommitUpTo(Min(announced, log.View().LastIndex()));
      }
    }

    /** The loop over the entries leaves the log `TakeAll` describes. */
    method TakeEntries(entries: seq<Entry>)
      requires Valid()
      modifies log
      ensures Valid() && View() == old(View()).(log := TakeAll(old(log.View()), entries))
    {
      ghost var start := log.View();
      for i := 0 to |entries|
        invariant Valid() && TakeAll(log.View(), entries[i..]) == TakeAll(start, entries)
        invariant View() == old(View()).(log := log.View())
      {
        var one := entries[i];
        assert entries[i..][0] == one && entries[i..][1..] == entries[i + 1..];
        var skip := log.View().Holds(one.index) && log.View().TermAt(one.index) == one.term;
        if !skip {
          if log.View().Holds(one.index) { var _ := log.TruncateFrom(one.index); }
          if one.index == log.View().LastIndex() + 1 {
            log.entries := log.entries + [one];
          }
        }
      }
    }

    /** The refusal `Conflict` prescribes, or the error of reading a compacted position. */
    method ConflictReply(message: Message) returns (r: Result<Message>)
      requires Valid() && message.recipient == name && message.Append?
      requires !log.View().Matches(message.previousIndex, message.previousTerm)
      ensures r == Conflict(View(), message)
    {
      if message.previousIndex > log.View().LastIndex() {
        return Ok(Appended(name, message.sender, term, false, NO_INDEX, NO_TERM, log.View().LastIndex() + 1));
      }
      var conflicting :- log.TermAt(message.previousIndex);
      var first := message.previousIndex;
      while first > log.View().FirstIndex() && log.View().TermAt(first - 1) == conflicting
        invariant log.View().KnowsTerm(first) && log.snapshotIndex <= first <= message.previousIndex
        invariant log.View().TermAt(first) == conflicting
        invariant RunStart(log.View(), first) == RunStart(log.View(), message.previousIndex)
      {
        first := first - 1;
      }
      r := Ok(Appended(name, message.sender, term, false, NO_INDEX, conflicting, first));
    }

    method ReceiveAppended(message: Message) returns (r: Result<seq<Message>>)
      requires Valid() && message.recipient == name && message.Appended?
      modifies this
      ensures Valid() && log == old(log)
      ensures Did(OnAppended(old(View()), message), HandleLeft(old(View()), message, 0), r, View())
    {
      if role != Leader { return Ok([]); }
      if message.success {
        Learn(message.sender, message.matchIndex);
        var advanced := AdvanceCommitIndex();
        if advanced.Err? { return Err(advanced.error); }
        if nextIndex[message.sender] <= log.View().LastIndex() {
          var m := ReplicateOne(message.sender);
          return Ok([m]);
        }
        return Ok([]);
      }
      var retry;
      if message.conflictTerm != NO_TERM {
        retry := Skip(message.conflictTerm, message.conflictIndex);
      } else {
        retry := Max(message.conflictIndex, log.View().FirstIndex());
      }
      nextIndex := nextIndex[message.sender := retry];
      var m := ReplicateOne(message.sender);
      r := Ok([m]);
    }

    method Learn(follower: Name, index: int)
      requires Valid()
      modifies this`matchIndex, this`nextIndex
      ensures Valid() && View() == Matched(old(View()), follower, index)
    {
      matchIndex := matchIndex[follower := Max(Get(matchIndex, follower, NO_INDEX), index)];
      nextIndex := nextIndex[follower := matchIndex[follower] + 1];
    }

    /** One past this log's last entry of the named term, or the follower's index if there is none. */
    method Skip(conflictTerm: int, conflictIndex: int) returns (index: int)
      requires Valid()
      ensures index == SkipTerm(View(), conflictTerm, conflictIndex)
    {
      index := log.View().LastIndex();
      while index >= log.View().FirstIndex()
        invariant log.snapshotIndex <= index <= log.View().LastIndex()
        invariant LastOfTerm(log.View(), conflictTerm, index)
                  == LastOfTerm(log.View(), conflictTerm, log.View().LastIndex())
      {
        if log.View().TermAt(index) == conflictTerm { return index + 1; }
        index := index - 1;
      }
      index := Max(conflictIndex, log.View().FirstIndex());
    }

    method CountHolders(index: int) returns (holders: nat)
      requires Valid()
      ensures holders == |Holders(members, matchIndex, index)|
    {
      holders := 0;
      for i := 0 to |members|
        invariant holders == |Holders(members[..i], matchIndex, index)|
      {
        CountsHolders(members, matchIndex, index, i);
        if Get(matchIndex, members[i], NO_INDEX) >= index { holders := holders + 1; }
      }
      assert members[..|members|] == members;
    }

    /** Moves the commit index to the one `CommitScan` finds, and applies up to it. */
    method AdvanceCommitIndex() returns (r: Result<()>)
      requires Valid()
      modifies this
      ensures Valid() && log == old(log)
      ensures match AdvanceCommit(old(View()))
              case Ok(s) => r == Ok(()) && View() == s
              case Err(e) => r == Err(e) && View() == CountLeft(old(View()))
    {
      hide ApplyCommitted, Holders;
      if role != Leader { return Ok(()); }
      matchIndex := matchIndex[name := log.View().LastIndex()];
      ghost var counted := View();
      var index := log.View().LastIndex();
      while index > commitIndex
        invariant Valid() && log == old(log) && View() == counted && index <= log.View().LastIndex()
        invariant CommitScan(counted, index) == CommitScan(counted, log.View().LastIndex())
        decreases index - commitIndex
      {
        var eligible := commitAnyTerm;
        if !eligible {
          var at := log.TermAt(index);
          if at.Err? { return Err(Compacted); }
          eligible := at.value == term;
        }
        if eligible {
          var holders := CountHolders(index);
          if holders >= |members| / 2 + 1 {
            CommitUpTo(index);
            return Ok(());
          }
        }
        index := index - 1;
      }
      r := Ok(());
    }

    method CommitUpTo(index: int)
      requires Valid()
      modifies this`commitIndex, this`lastApplied, this`applied, this`state
      ensures Valid() && View() == ApplyCommitted(old(View()).(commitIndex := index))
    {
      commitIndex := index;
      ApplyCommittedEntries();
    }

    /** Applies what is held between the last applied index and the commit index, one entry after another. */
    method ApplyCommittedEntries()
      requires Valid()
      modifies this`lastApplied, this`applied, this`state
      ensures Valid() && View() == ApplyCommitted(old(View()))
    {
      while lastApplied < commitIndex
        invariant Valid() && ApplyCommitted(View()) == ApplyCommitted(old(View()))
        decreases commitIndex - lastApplied
      {
        lastApplied := lastApplied + 1;
        if log.View().Holds(lastApplied) {
          var one := log.View().At(lastApplied);
          applied := applied + [one];
          state := ApplyCommand(state, one.command);
        }
      }
    }

    method ReplaceLog(index: nat, snapTerm: nat, newState: map<string, Value>)
      requires Valid()
      modifies this
      ensures Valid() && fresh(log)
      ensures View() == old(View()).(log := RawLog([], index, snapTerm), state := newState,
                                     commitIndex := index, lastApplied := index)
    {
      log := new Log([], index, snapTerm);
      state := newState;
      commitIndex := index;
      lastApplied := index;
    }

    method ReceiveInstall(message: Message, span: int) returns (reply: Message)
      requires Valid() && message.recipient == name && message.InstallSnapshot?
      modifies this
      ensures Valid() && (log == old(log) || fresh(log))
      ensures OnInstall(old(View()), message, span) == Effect(View(), [reply])
    {
      leader := Some(message.sender);
      ResetElectionTimer(span);
      if message.snapIndex > log.View().LastIndex() {
        ReplaceLog(message.snapIndex, message.snapTerm, message.state);
      }
      reply := Installed(name, message.sender, term, log.View().LastIndex());
    }

    method ReceiveInstalled(message: Message) returns (r: Result<seq<Message>>)
      requires Valid() && message.recipient == name && message.Installed?
      modifies this
      ensures Valid() && log == old(log)
      ensures Did(OnInstalled(old(View()), message), HandleLeft(old(View()), message, 0), r, View())
    {
      if role != Leader { return Ok([]); }
      Learn(message.sender, message.upTo);
      var advanced := AdvanceCommitIndex();
      if advanced.Err? { return Err(advanced.error); }
      var m := ReplicateOne(message.sender);
      r := Ok([m]);
    }
  }
}
