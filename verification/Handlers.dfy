/** The message handlers: each finishes without raising and keeps the invariant. */
module Handlers {
  import opened Basics
  import opened Logs
  import opened Rpc
  import opened NodeSpec
  import opened ClusterSpec
  import opened Invariant
  import opened Keeping
  import opened Actions
  import opened Commit
  import opened Steps

  /** A message about to be handled by the node it was sent to, at the node's own term. */
  ghost predicate Arrives(w: World, n: Name, m: Message) {
    Full(w) && n in w.nodes && m in w.sent && m.recipient == n == w.nodes[n].name && n in w.members
  }

  lemma ThenSends1(w: World, w1: World, n: Name, node: NodeState, m: Message) returns (w': World)
    requires Follows(w, w1, n, Ok(Effect(node, []))) && n in w.nodes
    requires MessageOk(w1.h, w1.members, m) && (!w1.h.strayed ==> MessageBacked(w1.h, m))
    ensures Follows(w, w', n, Ok(Effect(node, [m])))
  {
    w' := ThenSends(w, w1, n, node, [m]);
  }

  lemma Unchanged(w: World, n: Name) returns (w': World)
    requires Full(w) && n in w.nodes
    ensures Follows(w, w', n, Ok(Effect(w.nodes[n], []))) && w'.h == w.h
  {
    ExtendsSelf(w.h);
    assert Moved(w, n, w.nodes[n], w.h) == w by { assert w.nodes[n := w.nodes[n]] == w.nodes; }
    w' := Follow(w, n, w.nodes[n], w.h);
  }

  lemma HandlesRequestVote(w: World, n: Name, m: Message, span: int) returns (w': World)
    requires Arrives(w, n, m) && m.RequestVote? && (m.preVote || m.term == w.nodes[n].term)
    ensures Follows(w, w', n, Ok(OnRequestVote(w.nodes[n], m, span)))
  {
    var s := w.nodes[n];
    var effect := OnRequestVote(s, m, span);
    if !m.preVote && Grants(s, m) {
      assert NodeOk(w.h, w.members, n, s);
      var h' := VoteKeeps(w, n, effect.node, m);
      FullStays(w, n, effect.node, h');
      var w1 := Follow(w, n, effect.node, h');
      assert MessageOk(w.h, w.members, m);
      w' := ThenSends1(w, w1, n, effect.node, effect.sends[0]);
    } else {
      var w1 := Unchanged(w, n);
      assert MessageOk(w.h, w.members, m);
      w' := ThenSends1(w, w1, n, effect.node, effect.sends[0]);
    }
  }

  lemma CountsVote(w: World, n: Name, m: Message) returns (w1: World)
    requires Arrives(w, n, m) && m.Vote? && !m.preVote && m.granted && m.term == w.nodes[n].term
    requires w.nodes[n].role == Candidate
    ensures Follows(w, w1, n, Ok(Effect(w.nodes[n].(votes := w.nodes[n].votes + {m.sender}), [])))
  {
    var s := w.nodes[n];
    var counted := s.(votes := s.votes + {m.sender});
    assert NodeOk(w.h, w.members, n, s) && MessageOk(w.h, w.members, m);
    FullSettles(w, n, counted);
    ExtendsSelf(w.h);
    w1 := Follow(w, n, counted, w.h);
  }

  lemma HandlesVote(w: World, n: Name, m: Message, span: int) returns (w': World)
    requires Arrives(w, n, m) && m.Vote? && (m.preVote || m.term == w.nodes[n].term)
    ensures Follows(w, w', n, OnVote(w.nodes[n], m, span))
  {
    var s := w.nodes[n];
    if m.preVote {
      w' := HandlesPreVote(w, n, m, span);
    } else if s.role != Candidate || !m.granted {
      w' := Unchanged(w, n);
    } else {
      var w1 := CountsVote(w, n, m);
      var counted := s.(votes := s.votes + {m.sender});
      if |counted.votes| >= counted.Quorum() {
        w' := TakesOffice(w1, n);
        Chain(w, w1, w', n, counted, BecomeLeader(counted));
      } else {
        w' := w1;
      }
    }
  }

  lemma HandlesPreVote(w: World, n: Name, m: Message, span: int) returns (w': World)
    requires Arrives(w, n, m) && m.Vote? && m.preVote
    ensures Follows(w, w', n, OnPreVote(w.nodes[n], m, span))
  {
    var s := w.nodes[n];
    if s.role != Follower || !m.granted || s.preVotes == {} {
      w' := Unchanged(w, n);
    } else {
      var counted := s.(preVotes := s.preVotes + {m.sender});
      assert NodeOk(w.h, w.members, n, s);
      var w1 := Quiet(w, n, counted);
      if |counted.preVotes| >= counted.Quorum() {
        w' := Candidacy(w1, n, span);
        Chain(w, w1, w', n, counted, BecomeCandidate(counted, span));
      } else {
        w' := w1;
      }
    }
  }

  /* ---- appends ---- */

  /** The node once it has taken an append's entries and commit index. */
  function Taken(s: NodeState, m: Message): NodeState
    requires m.Append?
  {
    var taken := s.(log := TakeAll(s.log, m.entries));
    if m.commitIndex > taken.commitIndex
    then ApplyCommitted(taken.(commitIndex := Min(m.commitIndex, taken.log.LastIndex())))
    else taken
  }

  /** Accepting an append never cuts into what the follower has committed. */
  lemma CommittedSurvives(w: World, n: Name, m: Message, c: int)
    requires Inv(w) && n in w.nodes && m in w.sent && m.Append? && m.term == w.nodes[n].term
    requires w.nodes[n].log.Matches(m.previousIndex, m.previousTerm)
    requires Backed(w.h, m.term, w.nodes[n].log.entries, c)
    ensures c <= |TakeAll(w.nodes[n].log, m.entries).entries|
    ensures TakeAll(w.nodes[n].log, m.entries).entries[..c] == w.nodes[n].log.entries[..c]
  {
    hide TakeAll, RecordOk, PromisesOk, Shaped, Rooted;
    AcceptedLog(w, n, m);
    var x, full, y := w.nodes[n].log.entries, Offered(w.h, m), w.h.offices[m.term].log;
    if c > 0 && !(full <= x) {
      var d :| BackedBy(w.h, m.term, x, c, d);
      CertIn(w, d, m.term);
      assert x[..c] == CertPrefix(w.h, d)[..c];
      PrefixTrans(x[..c], CertPrefix(w.h, d), y);
      PrefixSurvives(x[..c], x, full, y);
    }
  }

  /** What a follower commits when it takes an append is committed, if its leader holds it. */
  lemma AnnouncedCommit(w: World, n: Name, m: Message, c: int)
    requires Inv(w) && n in w.nodes && m in w.sent && m.Append? && m.term == w.nodes[n].term
    requires MessageBacked(w.h, m) && 0 <= c <= m.commitIndex
    requires var x' := TakeAll(w.nodes[n].log, m.entries).entries; c <= |x'| && x'[..c] <= w.h.offices[m.term].log
    ensures Backed(w.h, m.term, TakeAll(w.nodes[n].log, m.entries).entries, c)
  {
    if c > 0 {
      var x', y := TakeAll(w.nodes[n].log, m.entries).entries, w.h.offices[m.term].log;
      var cert :| BackedBy(w.h, m.term, y, m.commitIndex, cert);
      var z := w.h.offices[cert.term].log;
      assert x'[..c] == y[..c] == y[..m.commitIndex][..c] == z[..m.commitIndex][..c] == z[..c];
      assert BackedBy(w.h, m.term, x', c, cert);
    }
  }

  lemma TakenCommits(w: World, n: Name, m: Message)
    requires Inv(w) && n in w.nodes && m in w.sent && m.Append? && m.term == w.nodes[n].term && w.nodes[n].role == Follower
    requires w.nodes[n].log.Matches(m.previousIndex, m.previousTerm)
    requires MessageBacked(w.h, m) && CommitOk(w.h, w.nodes[n]) && !Strayed(w.h, w.nodes[n], Taken(w.nodes[n], m))
    ensures CommitOk(w.h, Taken(w.nodes[n], m))
  {
    var s := w.nodes[n];
    var taken := s.(log := TakeAll(s.log, m.entries));
    CommittedSurvives(w, n, m, s.commitIndex);
    ExtendsSelf(w.h);
    BackedExtends(w.h, w.h, m.term, m.term, s.log.entries, taken.log.entries, s.commitIndex);
    if m.commitIndex > s.commitIndex {
      AcceptedLog(w, n, m);
      var c := Min(m.commitIndex, taken.log.LastIndex());
      AppliesPrefix(taken.(commitIndex := c));
      assert c > s.commitIndex ==> taken.log.entries[..c] <= w.h.offices[m.term].log;
      if c > s.commitIndex { AnnouncedCommit(w, n, m, c); }
    }
  }

  lemma AcceptsAppend(w: World, n: Name, m: Message) returns (w': World)
    requires Arrives(w, n, m) && m.Append? && m.term == w.nodes[n].term && w.nodes[n].role == Follower
    requires w.nodes[n].log.Matches(m.previousIndex, m.previousTerm)
    ensures Follows(w, w', n, Ok(Effect(Taken(w.nodes[n], m), [])))
    ensures m.AppendEnd() >= 0 && Acks(n, m.term, m.AppendEnd()) <= w'.h.acks
  {
    var s := w.nodes[n];
    var s' := Taken(s, m);
    assert NodeOk(w.h, w.members, n, s) && MessageOk(w.h, w.members, m);
    var h' := AcceptKeeps(w, n, s', m, w.h.strayed || Strayed(w.h, s, s'));
    if !h'.strayed {
      assert CommitOk(w.h, s) && MessageBacked(w.h, m);
      TakenCommits(w, n, m);
      BackedExtends(w.h, h', s'.term, s'.term, s'.log.entries, s'.log.entries, s'.commitIndex);
      MovedCommits(w, n, s', h');
    }
    w' := Follow(w, n, s', h');
  }

  lemma HearsLeader(w: World, n: Name, m: Message, span: int) returns (w1: World)
    requires Arrives(w, n, m) && m.Append? && m.term == w.nodes[n].term
    ensures var s' := Heard(w.nodes[n], m.sender, m.term, span);
            Follows(w, w1, n, Ok(Effect(s', []))) && w1.h == w.h && s'.role == Follower
  {
    var s := w.nodes[n];
    var s' := Heard(s, m.sender, m.term, span);
    assert NodeOk(w.h, w.members, n, s);
    FullSettles(w, n, s');
    ExtendsSelf(w.h);
    w1 := Follow(w, n, s', w.h);
  }

  lemma HandlesAppend(w: World, n: Name, m: Message, span: int) returns (w': World)
    requires Arrives(w, n, m) && m.Append? && m.term == w.nodes[n].term
    ensures Follows(w, w', n, OnAppend(w.nodes[n], m, span))
  {
    hide Commits, RecordOk, PromisesOk, Rooted, Shaped, TakeAll, RunStart;
    var w1 := HearsLeader(w, n, m, span);
    var s := Heard(w.nodes[n], m.sender, m.term, span);
    assert NodeOk(w1.h, w1.members, n, s) && MessageOk(w1.h, w1.members, m);
    if s.log.Matches(m.previousIndex, m.previousTerm) {
      var w2 := AcceptsAppend(w1, n, m);
      var node := Taken(s, m);
      var reply := Appended(n, m.sender, s.term, true, m.AppendEnd(), NO_TERM, NO_INDEX);
      var w3 := ThenSends1(w1, w2, n, node, reply);
      Chain(w, w1, w3, n, s, Ok(Effect(node, [reply])));
      w' := w3;
    } else {
      var refusal := Conflict(s, m).value;
      w' := ThenSends1(w, w1, n, s, refusal);
    }
  }

  /* ---- replies to appends ---- */

  lemma LearnsMatch(w: World, n: Name, m: Message) returns (w1: World)
    requires Arrives(w, n, m) && m.Appended? && m.success && m.term == w.nodes[n].term && w.nodes[n].role == Leader
    ensures Follows(w, w1, n, Ok(Effect(Matched(w.nodes[n], m.sender, m.matchIndex), [])))
  {
    var s := w.nodes[n];
    var s' := Matched(s, m.sender, m.matchIndex);
    assert NodeOk(w.h, w.members, n, s) && MessageOk(w.h, w.members, m);
    FullSettles(w, n, s');
    ExtendsSelf(w.h);
    w1 := Follow(w, n, s', w.h);
  }

  lemma HandlesSuccess(w: World, n: Name, m: Message) returns (w': World)
    requires Arrives(w, n, m) && m.Appended? && m.success && m.term == w.nodes[n].term && w.nodes[n].role == Leader
    ensures Follows(w, w', n, OnAppended(w.nodes[n], m))
  {
    var s' := Matched(w.nodes[n], m.sender, m.matchIndex);
    var w1 := LearnsMatch(w, n, m);
    var w2 := AdvanceKeeps(w1, n);
    var moved := AdvanceCommit(s').value;
    Chain(w, w1, w2, n, s', Ok(Effect(moved, [])));
    if moved.nextIndex[m.sender] <= moved.log.LastIndex() {
      assert NodeOk(w2.h, w2.members, n, moved) && MessageOk(w2.h, w2.members, m);
      ReplicateOk(w2, n, m.sender);
      w' := ThenSends1(w, w2, n, moved, ReplicateTo(moved, m.sender));
    } else {
      w' := w2;
    }
  }

  lemma HandlesRefusal(w: World, n: Name, m: Message) returns (w': World)
    requires Arrives(w, n, m) && m.Appended? && !m.success && w.nodes[n].role == Leader
    ensures Follows(w, w', n, OnAppended(w.nodes[n], m))
  {
    var s := w.nodes[n];
    assert NodeOk(w.h, w.members, n, s);
    var s' := s.(nextIndex := s.nextIndex[m.sender := RetryIndex(s, m.conflictTerm, m.conflictIndex)]);
    var w1 := Quiet(w, n, s');
    assert MessageOk(w1.h, w1.members, m);
    ReplicateOk(w1, n, m.sender);
    w' := ThenSends1(w, w1, n, s', ReplicateTo(s', m.sender));
  }

  lemma HandlesAppended(w: World, n: Name, m: Message) returns (w': World)
    requires Arrives(w, n, m) && m.Appended? && m.term == w.nodes[n].term
    ensures Follows(w, w', n, OnAppended(w.nodes[n], m))
  {
    if w.nodes[n].role != Leader {
      w' := Unchanged(w, n);
    } else if m.success {
      w' := HandlesSuccess(w, n, m);
    } else {
      w' := HandlesRefusal(w, n, m);
    }
  }

  /* ---- dispatch ---- */

  lemma Handles(w: World, n: Name, m: Message, span: int) returns (w': World)
    requires Arrives(w, n, m) && (m.Asking() || m.term == w.nodes[n].term)
    ensures Follows(w, w', n, Handle(w.nodes[n], m, span))
  {
    assert MessageOk(w.h, w.members, m);
    match m
    case RequestVote(_, _, _, _, _, _) => w' := HandlesRequestVote(w, n, m, span);
    case Vote(_, _, _, _, _) => w' := HandlesVote(w, n, m, span);
    case Append(_, _, _, _, _, _, _) => w' := HandlesAppend(w, n, m, span);
    case Appended(_, _, _, _, _, _, _) => w' := HandlesAppended(w, n, m);
    case _ => assert false;
  }

  lemma Refuses(w: World, n: Name, m: Message) returns (w': World)
    requires Arrives(w, n, m)
    ensures Follows(w, w', n, Ok(Effect(w.nodes[n], Refuse(w.nodes[n], m))))
  {
    var w1 := Unchanged(w, n);
    assert MessageOk(w.h, w.members, m);
    w' := ThenSends(w, w1, n, w.nodes[n], Refuse(w.nodes[n], m));
  }

  /** Stepping down to the term of a later message keeps the invariant, so the handlers may assume terms level. */
  lemma Adopts(w: World, n: Name, m: Message, span: int) returns (w': World)
    requires Arrives(w, n, m) && m.term > w.nodes[n].term && !m.Asking()
    ensures Follows(w, w', n, Handle(BecomeFollower(w.nodes[n], m.term, None, span), m, span))
  {
    var s := BecomeFollower(w.nodes[n], m.term, None, span);
    var w1 := StepsDown(w, n, m.term, None, span);
    w' := Handles(w1, n, m, span);
    Chain(w, w1, w', n, s, Handle(s, m, span));
  }

  lemma Delivers(w: World, n: Name, m: Message, span: int) returns (w': World)
    requires Arrives(w, n, m)
    ensures Follows(w, w', n, Step(w.nodes[n], m, span))
  {
    match TermCheck(w.nodes[n].term, m)
    case Stale => w' := Refuses(w, n, m);
    case Current => w' := Handles(w, n, m, span);
    case Ahead =>
      if m.Asking() {
        w' := Handles(w, n, m, span);
      } else {
        w' := Adopts(w, n, m, span);
      }
  }
}
