/** Every handler, started in a world that satisfies the invariant, finishes, and in one that does. */
module Steps {
  import opened Basics
  import opened Logs
  import opened Rpc
  import opened NodeSpec
  import opened ClusterSpec
  import opened Invariant
  import opened Keeping
  import opened Actions
  import opened Commit

  /** The world after node `n` did what `r` says, with a record that still satisfies the invariant. */
  ghost predicate Follows(w: World, w': World, n: Name, r: Result<Effect>) {
    && r.Ok?
    && w'.members == w.members
    && w'.nodes == w.nodes[n := r.value.node]
    && w'.sent == w.sent + (set m | m in r.value.sends)
    && Extends(w.h, w'.h)
    && Full(w')
    && (n in w.nodes ==> Certified(w'.h, w.nodes[n], r.value.node))
    && (n in w.nodes && w'.h.strayed && !w.h.strayed ==> Strayed(w'.h, w.nodes[n], r.value.node))
  }

  /** A leader's commit index only ever rises onto an index that a majority is on record as holding. */
  ghost predicate Certified(h: History, s: NodeState, s': NodeState) {
    s'.role == Leader && s'.commitIndex > s.commitIndex ==>
      s'.commitIndex >= 0 && exists q :: Cert(s'.term, s'.commitIndex, q) in h.certs
  }

  /** Nothing committed, applied or cut from the log. */
  ghost predicate Stays(s: NodeState, s': NodeState) {
    && s'.term >= s.term && s.log.entries <= s'.log.entries
    && s'.commitIndex == s.commitIndex && s'.lastApplied == s.lastApplied
    && s'.applied == s.applied && s'.state == s.state
  }

  lemma FullStays(w: World, n: Name, s': NodeState, h': History)
    requires Full(w) && n in w.nodes && Extends(w.h, h') && Inv(Moved(w, n, s', h'))
    requires Stays(w.nodes[n], s')
    ensures Full(Moved(w, n, s', h'))
  {
    if !h'.strayed { CommitStays(w, n, s', h'); }
  }

  lemma FullSettles(w: World, n: Name, s': NodeState)
    requires Full(w) && n in w.nodes && Forward(w.nodes[n], s') && Stays(w.nodes[n], s')
    requires s'.log == w.nodes[n].log
    requires NodeOk(w.h, w.members, n, s')
    ensures Full(Moved(w, n, s', w.h))
  {
    Settle(w, n, s');
    ExtendsSelf(w.h);
    FullStays(w, n, s', w.h);
  }

  lemma FullSends(w: World, messages: seq<Message>)
    requires Full(w)
    requires forall m :: m in messages ==> MessageOk(w.h, w.members, m)
    requires !w.h.strayed ==> forall m :: m in messages ==> MessageBacked(w.h, m)
    ensures Full(w.(sent := w.sent + set m | m in messages))
  {
    var w' := w.(sent := w.sent + set m | m in messages);
    SendKeeps(w, set m | m in messages);
    if !w'.h.strayed {
      forall n | n in w'.nodes ensures CommitOk(w'.h, w'.nodes[n]) { assert CommitOk(w.h, w.nodes[n]); }
      forall m | m in w'.sent ensures MessageBacked(w'.h, m) {
        assert m in w.sent ==> MessageBacked(w.h, m);
      }
    }
  }

  /* ---- what a leader and a candidate put on the wire ---- */

  lemma ReplicateOk(w: World, n: Name, f: Name)
    requires Full(w) && n in w.nodes && w.nodes[n].role == Leader && f != n && f in w.members && w.nodes[n].name == n
    ensures var m := ReplicateTo(w.nodes[n], f);
            MessageOk(w.h, w.members, m) && (!w.h.strayed ==> MessageBacked(w.h, m))
  {
    var s := w.nodes[n];
    assert NodeOk(w.h, w.members, n, s);
    var start := StartFor(s, f);
    var m := ReplicateTo(s, f);
    var x := s.log.entries;
    assert 1 <= start <= |x| + 1;
    assert m.Append? && m.previousIndex == start - 1;
    assert m.entries == x[start - 1..start - 1 + |m.entries|];
    if !w.h.strayed { assert CommitOk(w.h, s); }
  }

  lemma ReplicatesOk(w: World, n: Name)
    requires Full(w) && n in w.nodes && w.nodes[n].role == Leader && w.nodes[n].name == n
    ensures Full(w.(sent := w.sent + set m | m in Replicate(w.nodes[n])))
  {
    var s := w.nodes[n];
    var peers, out := s.Peers(), Replicate(s);
    forall m | m in out
      ensures MessageOk(w.h, w.members, m) && (!w.h.strayed ==> MessageBacked(w.h, m))
    {
      var i :| 0 <= i < |out| && out[i] == m;
      assert NodeOk(w.h, w.members, n, s) && peers[i] in peers;
      ReplicateOk(w, n, peers[i]);
    }
    FullSends(w, out);
  }

  lemma RequestsOk(w: World, n: Name, s: NodeState, term: Term, preVote: bool)
    requires Full(w) && n in w.nodes && s.name == n && s.members == w.members && s.log == w.nodes[n].log
    requires preVote || (Seat(term, n) in w.h.stood && w.h.stood[Seat(term, n)] == s.log.entries)
    ensures Full(w.(sent := w.sent + set m | m in VoteRequests(s, term, preVote)))
  {
    assert NodeOk(w.h, w.members, n, w.nodes[n]);
    var out := VoteRequests(s, term, preVote);
    FlatLast(s.log);
    forall m | m in out ensures MessageOk(w.h, w.members, m) && MessageBacked(w.h, m) {
      var i :| 0 <= i < |out| && out[i] == m;
      assert s.Peers()[i] in s.Peers() && m == VoteRequest(s, s.Peers()[i], term, preVote);
    }
    FullSends(w, out);
  }

  /* ---- committing ---- */

  /** What a leader may commit: an entry of its own term that a majority is known to hold. */
  ghost predicate Eligible(s: NodeState, index: int) {
    && 1 <= index <= |s.log.entries| && s.log.entries[index - 1].term == s.term
    && |Holders(s.members, s.matchIndex, index)| >= s.Quorum()
  }

  /** On a log without a snapshot the scan never raises, and it finds the highest eligible index if there is one. */
  lemma {:induction false} ScanFlat(s: NodeState, index: int)
    requires s.log.snapshotIndex == 0 && s.commitIndex >= 0 && index <= s.log.LastIndex() && !s.commitAnyTerm
    ensures CommitScan(s, index).Ok?
    ensures match CommitScan(s, index).value
            case None => forall i :: s.commitIndex < i <= index ==> !Eligible(s, i)
            case Some(i) => && s.commitIndex < i <= index && Eligible(s, i)
                            && forall j :: i < j <= index ==> !Eligible(s, j)
    decreases index - s.commitIndex
  {
    if index > s.commitIndex { ScanFlat(s, index - 1); }
  }

  /** A leader that advances ends on the highest index it may commit, or stays where it is if that is no higher. */
  lemma AdvancesToHighest(s: NodeState)
    requires s.role == Leader && s.log.snapshotIndex == 0 && 0 <= s.commitIndex <= |s.log.entries| && !s.commitAnyTerm
    ensures AdvanceCommit(s).Ok?
    ensures var led := AdvanceCommit(s).value;
            && led.commitIndex >= s.commitIndex
            && (led.commitIndex > s.commitIndex ==> Eligible(led, led.commitIndex))
            && forall j :: led.commitIndex < j ==> !Eligible(led, j)
  {
    hide Eligible;
    var counted := s.(matchIndex := s.matchIndex[s.name := s.log.LastIndex()]);
    ScanFlat(counted, counted.log.LastIndex());
    var led := AdvanceCommit(s).value;
    forall j ensures Eligible(led, j) == Eligible(counted, j) && (Eligible(counted, j) ==> j <= counted.log.LastIndex()) {
      SameEligible(counted, led, j);
    }
  }

  lemma SameEligible(s: NodeState, s': NodeState, index: int)
    requires s.log == s'.log && s.term == s'.term && s.members == s'.members && s.matchIndex == s'.matchIndex
    requires s.log.snapshotIndex == 0
    ensures Eligible(s, index) == Eligible(s', index) && (Eligible(s, index) ==> index <= s.log.LastIndex())
  {
  }

  /** A leader counts itself as holding its whole log. */
  lemma CountsItself(w: World, n: Name) returns (w1: World)
    requires Full(w) && n in w.nodes && w.nodes[n].role == Leader
    ensures var s := w.nodes[n];
            w1 == Moved(w, n, s.(matchIndex := s.matchIndex[n := s.log.LastIndex()]), w.h) && Full(w1) && s.name == n
    ensures var counted := w1.nodes[n];
            counted.log.snapshotIndex == 0 && counted.commitIndex >= 0 && !counted.commitAnyTerm
  {
    hide Commits, RecordOk, PromisesOk, Rooted, Shaped;
    var s := w.nodes[n];
    assert NodeOk(w.h, w.members, n, s);
    var counted := s.(matchIndex := s.matchIndex[n := s.log.LastIndex()]);
    FullSettles(w, n, counted);
    w1 := Moved(w, n, counted, w.h);
  }

  /** Advancing the commit index never raises, keeps the invariant, and records why it moved. */
  lemma AdvanceKeeps(w: World, n: Name) returns (w': World)
    requires Full(w) && n in w.nodes
    ensures AdvanceCommit(w.nodes[n]).Ok?
    ensures Follows(w, w', n, Ok(Effect(AdvanceCommit(w.nodes[n]).value, [])))
  {
    var s := w.nodes[n];
    if s.role == Leader {
      w' := LeaderAdvances(w, n);
    } else {
      ExtendsSelf(w.h);
      w' := w;
      assert w.nodes == w.nodes[n := s];
      assert w'.sent == w.sent + set m: Message | m in [];
    }
  }

  lemma LeaderAdvances(w: World, n: Name) returns (w': World)
    requires Full(w) && n in w.nodes && w.nodes[n].role == Leader
    ensures AdvanceCommit(w.nodes[n]).Ok?
    ensures Follows(w, w', n, Ok(Effect(AdvanceCommit(w.nodes[n]).value, [])))
  {
    hide Full, Inv, NodeOk, CommitScan, ApplyCommitted;
    var s := w.nodes[n];
    var w1 := CountsItself(w, n);
    var counted := w1.nodes[n];
    ScanFlat(counted, counted.log.LastIndex());
    ExtendsSelf(w.h);
    match CommitScan(counted, counted.log.LastIndex()).value {
      case None => w' := w1;
      case Some(index) =>
        w' := CommitAt(w1, n, index);
        ExtendsTrans(w.h, w1.h, w'.h);
        assert w'.nodes == w.nodes[n := w'.nodes[n]];
    }
    assert w'.sent == w.sent + set m: Message | m in [];
  }

  lemma CommitAt(w: World, n: Name, index: int) returns (w': World)
    requires Full(w) && n in w.nodes && w.nodes[n].role == Leader
    requires var s := w.nodes[n];
             && 0 <= s.commitIndex < index <= |s.log.entries| && s.log.entries[index - 1].term == s.term
             && |Holders(s.members, s.matchIndex, index)| >= s.Quorum()
    ensures Extends(w.h, w'.h) && Full(w') && w'.h.strayed == w.h.strayed
    ensures w' == w.(nodes := w.nodes[n := ApplyCommitted(w.nodes[n].(commitIndex := index))], h := w'.h)
    ensures exists q :: Cert(w.nodes[n].term, index, q) in w'.h.certs
  {
    var s := w.nodes[n];
    assert NodeOk(w.h, w.members, n, s);
    var h' := CertifyKeeps(w, n, index);
    var w1 := w.(h := h');
    var committed := s.(commitIndex := index);
    var s' := ApplyCommitted(committed);
    assert NodeOk(h', w.members, n, s);
    Settle(w1, n, s');
    w' := Moved(w1, n, s', h');
    if !w.h.strayed {
      assert CommitOk(w.h, s);
      AppliesPrefix(committed);
      var q :| Cert(s.term, index, q) in h'.certs;
      assert BackedBy(h', s.term, s.log.entries, index, Cert(s.term, index, q));
      MovedCommits(w, n, s', h');
    }
  }

  /* ---- composing ---- */

  /** A handler that ends by sending, after a change that was already followed. */
  lemma ThenSends(w: World, w1: World, n: Name, node: NodeState, sends: seq<Message>) returns (w': World)
    requires Follows(w, w1, n, Ok(Effect(node, []))) && n in w.nodes
    requires forall m :: m in sends ==> MessageOk(w1.h, w1.members, m)
    requires !w1.h.strayed ==> forall m :: m in sends ==> MessageBacked(w1.h, m)
    ensures Follows(w, w', n, Ok(Effect(node, sends)))
  {
    FullSends(w1, sends);
    w' := w1.(sent := w1.sent + set m | m in sends);
    assert w1.sent == w.sent;
  }

  lemma ThenReplicates(w: World, w1: World, n: Name, node: NodeState) returns (w': World)
    requires Follows(w, w1, n, Ok(Effect(node, []))) && n in w.nodes && node.role == Leader && node.name == n
    ensures Follows(w, w', n, Ok(Effect(node, Replicate(node))))
  {
    ReplicatesOk(w1, n);
    w' := w1.(sent := w1.sent + set m | m in Replicate(node));
    assert w1.sent == w.sent;
  }

  lemma ThenRequests(w: World, w1: World, n: Name, node: NodeState, s: NodeState, term: Term, preVote: bool)
    returns (w': World)
    requires Follows(w, w1, n, Ok(Effect(node, []))) && n in w.nodes && s.name == n && s.members == w.members && s.log == node.log
    requires preVote || (Seat(term, n) in w1.h.stood && w1.h.stood[Seat(term, n)] == s.log.entries)
    ensures Follows(w, w', n, Ok(Effect(node, VoteRequests(s, term, preVote))))
  {
    RequestsOk(w1, n, s, term, preVote);
    w' := w1.(sent := w1.sent + set m | m in VoteRequests(s, term, preVote));
    assert w1.sent == w.sent;
  }

  /** Two changes of one node, the first of which sent nothing. */
  lemma Chain(w: World, w1: World, w2: World, n: Name, node: NodeState, r: Result<Effect>)
    requires n in w.nodes && Follows(w, w1, n, Ok(Effect(node, []))) && Follows(w1, w2, n, r)
    requires node.commitIndex == w.nodes[n].commitIndex
    ensures Follows(w, w2, n, r)
  {
    ExtendsTrans(w.h, w1.h, w2.h);
    assert w.nodes[n := node][n := r.value.node] == w.nodes[n := r.value.node];
    assert w1.sent == w.sent;
  }

  /** One node moved and the record grew with it. */
  lemma Follow(w: World, n: Name, s': NodeState, h': History) returns (w': World)
    requires n in w.nodes && Extends(w.h, h') && Full(Moved(w, n, s', h'))
    requires s'.role == Leader ==> s'.commitIndex == w.nodes[n].commitIndex
    requires h'.strayed && !w.h.strayed ==> Strayed(h', w.nodes[n], s')
    ensures Follows(w, w', n, Ok(Effect(s', []))) && w' == Moved(w, n, s', h')
  {
    w' := Moved(w, n, s', h');
    assert w'.sent == w.sent + set m: Message | m in [];
  }

  /** A node that changed nothing the invariant can see, and so may say nothing or reply. */
  lemma Quiet(w: World, n: Name, s': NodeState) returns (w': World)
    requires Full(w) && n in w.nodes && SameStanding(w.nodes[n], s') && Stays(w.nodes[n], s')
    requires var s := w.nodes[n];
             && (s'.role == Candidate ==> s.role == Candidate && s'.votes <= s.votes)
             && (s'.role == Leader ==> s.role == Leader && s'.matchIndex == s.matchIndex)
             && (s'.role == Leader ==> forall f :: f in s'.nextIndex ==> s'.nextIndex[f] >= 1)
    ensures Follows(w, w', n, Ok(Effect(s', []))) && w'.h == w.h
  {
    assert NodeOk(w.h, w.members, n, w.nodes[n]);
    FullSettles(w, n, s');
    ExtendsSelf(w.h);
    w' := Follow(w, n, s', w.h);
  }

  lemma StepsDown(w: World, n: Name, term: Term, leader: Option<Name>, span: int) returns (w': World)
    requires Full(w) && n in w.nodes && w.nodes[n].term <= term
    ensures Follows(w, w', n, Ok(Effect(BecomeFollower(w.nodes[n], term, leader, span), []))) && w'.h == w.h
  {
    var s' := BecomeFollower(w.nodes[n], term, leader, span);
    assert NodeOk(w.h, w.members, n, w.nodes[n]);
    FullSettles(w, n, s');
    ExtendsSelf(w.h);
    w' := Follow(w, n, s', w.h);
  }

  /* ---- elections ---- */

  /** A leader's own write is never refused by its own log. */
  lemma WriteWorks(w: World, n: Name, s: NodeState, command: Command)
    requires Full(w) && n in w.nodes && s.log == w.nodes[n].log && s.term == w.nodes[n].term
    ensures s.log.LastIndex() == |s.log.entries|
    ensures var e := Entry(s.term, s.log.LastIndex() + 1, command);
            Write(s, command) ==
            Ok(s.(log := Extended(s.log, e), matchIndex := s.matchIndex[s.name := |s.log.entries| + 1]))
  {
    assert NodeOk(w.h, w.members, n, w.nodes[n]);
    FlatLast(s.log);
  }

  /** A leader before it sends anything: in office, with its empty entry written. */
  function InOffice(s: NodeState): NodeState {
    var office := TakenOffice(s);
    var e := Entry(s.term, s.log.LastIndex() + 1, NoOp);
    office.(log := Extended(s.log, e), matchIndex := office.matchIndex[s.name := s.log.LastIndex() + 1],
            heartbeatDue := s.now + HEARTBEAT_INTERVAL)
  }

  lemma EntersOffice(w: World, n: Name) returns (w1: World)
    requires Full(w) && n in w.nodes && w.nodes[n].role == Candidate
    requires |w.nodes[n].votes| >= w.nodes[n].Quorum()
    ensures Follows(w, w1, n, Ok(Effect(InOffice(w.nodes[n]), [])))
  {
    var s := w.nodes[n];
    assert NodeOk(w.h, w.members, n, s);
    FlatLast(s.log);
    var s' := InOffice(s);
    var h' := LeadKeeps(w, n, s');
    FullStays(w, n, s', h');
    w1 := Follow(w, n, s', h');
  }

  lemma OfficeOpens(s: NodeState)
    requires s.log.LastTerm() <= s.term
    ensures var led := InOffice(s);
            BecomeLeader(s) ==
            if |s.members| == 1 then
              (if AdvanceCommit(led).Ok? then Ok(Effect(AdvanceCommit(led).value, Replicate(AdvanceCommit(led).value)))
               else Err(AdvanceCommit(led).error))
            else Ok(Effect(led, Replicate(led)))
  {
    var e := Entry(s.term, s.log.LastIndex() + 1, NoOp);
    assert AppendOne(s.log, e) == Ok(Extended(s.log, e));
    assert Extended(s.log, e).LastIndex() == s.log.LastIndex() + 1;
  }

  lemma TakesOffice(w: World, n: Name) returns (w': World)
    requires Full(w) && n in w.nodes && w.nodes[n].role == Candidate
    requires |w.nodes[n].votes| >= w.nodes[n].Quorum()
    ensures Follows(w, w', n, BecomeLeader(w.nodes[n]))
  {
    var s := w.nodes[n];
    assert NodeOk(w.h, w.members, n, s);
    FlatLast(s.log);
    OfficeOpens(s);
    var w1 := EntersOffice(w, n);
    var led := InOffice(s);
    assert NodeOk(w1.h, w1.members, n, led);
    if |s.members| == 1 {
      w' := OpensAlone(w1, n);
      Chain(w, w1, w', n, led, BecomeLeader(s));
    } else {
      w' := ThenReplicates(w, w1, n, led);
    }
  }

  /** A leader that may have committed something replicates what it now has. */
  lemma OpensAlone(w: World, n: Name) returns (w': World)
    requires Full(w) && n in w.nodes && w.nodes[n].role == Leader
    ensures AdvanceCommit(w.nodes[n]).Ok?
    ensures var led := AdvanceCommit(w.nodes[n]).value; Follows(w, w', n, Ok(Effect(led, Replicate(led))))
  {
    assert NodeOk(w.h, w.members, n, w.nodes[n]);
    var w1 := AdvanceKeeps(w, n);
    w' := ThenReplicates(w, w1, n, AdvanceCommit(w.nodes[n]).value);
  }

  lemma Candidacy(w: World, n: Name, span: int) returns (w': World)
    requires Full(w) && n in w.nodes
    ensures Follows(w, w', n, BecomeCandidate(w.nodes[n], span))
  {
    var s := w.nodes[n];
    assert NodeOk(w.h, w.members, n, s);
    var s' := Stood(s, span);
    var h' := StandKeeps(w, n, s');
    FullStays(w, n, s', h');
    var w1 := Follow(w, n, s', h');
    if |s.members| == 1 {
      w' := TakesOffice(w1, n);
      Chain(w, w1, w', n, s', BecomeLeader(s'));
    } else {
      w' := ThenRequests(w, w1, n, s', s', s'.term, false);
    }
  }

  lemma PreStanding(w: World, n: Name, span: int) returns (w': World)
    requires Full(w) && n in w.nodes
    ensures Follows(w, w', n, Ok(BecomePreCandidate(w.nodes[n], span)))
  {
    hide Commits, RecordOk, PromisesOk, Rooted, Shaped, VoteRequests;
    var s := w.nodes[n];
    assert NodeOk(w.h, w.members, n, s);
    var asking := ResetTimer(s.(preVotes := {n}), span);
    var w1 := Quiet(w, n, asking);
    w' := ThenRequests(w, w1, n, asking, s, s.term + 1, true);
  }

  lemma Standing(w: World, n: Name, span: int) returns (w': World)
    requires Full(w) && n in w.nodes
    ensures Follows(w, w', n, Stand(w.nodes[n], span))
  {
    var s := w.nodes[n];
    if s.preVote && |s.members| > 1 {
      w' := PreStanding(w, n, span);
    } else {
      w' := Candidacy(w, n, span);
    }
  }

  lemma Beating(w: World, n: Name, s': NodeState) returns (w': World)
    requires Full(w) && n in w.nodes && w.nodes[n].role == Leader
    requires s' == w.nodes[n].(now := s'.now, heartbeatDue := s'.heartbeatDue)
    ensures Follows(w, w', n, Ok(Effect(s', Replicate(s'))))
  {
    assert NodeOk(w.h, w.members, n, w.nodes[n]);
    var w1 := Quiet(w, n, s');
    w' := ThenReplicates(w, w1, n, s');
  }

  lemma TimesOut(w: World, n: Name, now: int, span: int) returns (w': World)
    requires Full(w) && n in w.nodes
    ensures Follows(w, w', n, Stand(w.nodes[n].(now := now), span))
  {
    assert NodeOk(w.h, w.members, n, w.nodes[n]);
    var s := w.nodes[n].(now := now);
    var w1 := Quiet(w, n, s);
    w' := Standing(w1, n, span);
    Chain(w, w1, w', n, s, Stand(s, span));
  }

  lemma Ticking(w: World, n: Name, now: int, span: int) returns (w': World)
    requires Full(w) && n in w.nodes
    ensures Follows(w, w', n, Tick(w.nodes[n], now, span))
  {
    var s := w.nodes[n].(now := now);
    if s.role == Leader && now >= s.heartbeatDue {
      w' := Beating(w, n, s.(heartbeatDue := now + HEARTBEAT_INTERVAL));
    } else if s.role != Leader && now >= s.electionDeadline {
      w' := TimesOut(w, n, now, span);
    } else {
      assert NodeOk(w.h, w.members, n, w.nodes[n]);
      w' := Quiet(w, n, s);
    }
  }
}
