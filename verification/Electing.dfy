/**
What a cluster in which every node spent its vote on itself still needs: a follower that a majority would answer.
With every node up such a follower is enough, and without one no leader ever comes.
*/
module Electing {
  import opened Basics
  import opened Logs
  import opened Rpc
  import opened NodeSpec
  import opened ClusterSpec
  import opened Invariant
  import opened Actions
  import opened Keeping
  import opened Paths
  import opened Prevoting
  import Commit
  import Safety

  /** Some way of going on without a restart makes a leader. */
  ghost predicate LeaderCanCome(p: Path) {
    exists q :: LeadsOnTo(p, q)
  }

  ghost predicate LeadsOnTo(p: Path, q: Path) {
    && Sound(q) && Onward(p, q)
    && exists n :: n in Now(q).nodes && Now(q).nodes[n].role == Leader
  }

  /* ---- asking round ---- */

  function Question(s: NodeState, to: Name, term: Term, preVote: bool): Message
    requires to != s.name
  {
    RequestVote(s.name, to, term, |s.log.entries|, LastTermOf(s.log.entries), preVote)
  }

  lemma QuestionsAsked(s: NodeState, term: Term, preVote: bool, to: Name)
    requires Flat(s) && to in s.members && to != s.name
    ensures Question(s, to, term, preVote) in VoteRequests(s, term, preVote)
  {
    FlatLast(s.log);
    assert to in s.Peers();
    var i :| 0 <= i < |s.Peers()| && s.Peers()[i] == to;
    assert VoteRequests(s, term, preVote)[i] == Question(s, to, term, preVote);
  }

  /** The cluster as it was, with every node up and in its term with its own vote. */
  ghost predicate Setting(c: Cluster, n: Name, t: int) {
    && AllSpent(c, t) && t >= 1 && c.down == {} && c.nodes.Keys == Names(c.members) && n in c.nodes
    && (forall k {:trigger Seated(c, k)} :: k in c.nodes ==> Seated(c, k))
    && c.nodes[n].role == Follower
  }

  ghost predicate Seated(c: Cluster, k: Name)
    requires k in c.nodes
  {
    c.nodes[k].name == k && c.nodes[k].members == c.members && Flat(c.nodes[k])
  }

  /** Every node but `n` is as it was, and `n` has the log and term it had. */
  ghost predicate Apart(c0: Cluster, c: Cluster, n: Name) {
    && c.members == c0.members && c.nodes.Keys == c0.nodes.Keys && c.down == {} && n in c.nodes
    && forall k :: k in c0.nodes && k != n ==> c.nodes[k] == c0.nodes[k]
  }

  /** `n` has asked whether an election would work; `todo` are backers it has not heard from. */
  ghost predicate Polling(c0: Cluster, c: Cluster, n: Name, t: int, todo: set<Name>) {
    && Setting(c0, n, t) && Apart(c0, c, n)
    && var s := c.nodes[n];
       && s.name == n && SameSeat(c0.nodes[n], s) && n in s.preVotes
       && todo <= Backers(c0, n) - {n} && todo !! s.preVotes
       && |s.preVotes| < s.Quorum() <= |s.preVotes| + |todo|
       && forall k :: k in todo ==> Question(s, k, t + 1, true) in c.sent
  }

  /** `n` stands in the next term, its backers as they were. */
  ghost predicate Standing(c0: Cluster, c: Cluster, n: Name, t: int) {
    && Setting(c0, n, t) && Apart(c0, c, n)
    && var s := c.nodes[n];
       && s.name == n && s.members == c0.members && s.log == c0.nodes[n].log && s.term == t + 1
       && s.role == Candidate && s.votes == {n}
       && forall k :: k in c0.nodes && k != n ==> Question(s, k, t + 1, false) in c.sent
  }

  /** One backer is asked and answers yes. */
  lemma AsksBacker(c0: Cluster, c: Cluster, n: Name, t: int, todo: set<Name>, k: Name)
    requires Polling(c0, c, n, t, todo) && k in todo
    ensures k in c.nodes && k != n
    ensures var m := Question(c.nodes[n], k, t + 1, true);
            m in c.sent && m.recipient == c.nodes[k].name
            && Step(c.nodes[k], m, 0) == Ok(Effect(c.nodes[k], [Vote(k, n, t, true, true)]))
  {
    assert Seated(c0, k) && Spent(c0.nodes[k], k, t) && Seated(c0, n);
    FlatLast(c.nodes[k].log);
  }

  /** And the answer is counted: the next term's election if that makes a majority. */
  lemma CountsBacker(c0: Cluster, c: Cluster, n: Name, t: int, todo: set<Name>, k: Name)
    requires Polling(c0, c, n, t, todo) && k in todo
    ensures var s, m := c.nodes[n], Vote(k, n, t, true, true);
            var counted := s.(preVotes := s.preVotes + {k});
            && n == s.name && t >= 1
            && Step(s, m, 0) == if |s.preVotes| + 1 >= s.Quorum() then BecomeCandidate(counted, 0) else Ok(Effect(counted, []))
  {
    assert Seated(c0, n) && Spent(c0.nodes[n], n, t);
    var s := c.nodes[n];
    assert |s.preVotes + {k}| == |s.preVotes| + 1;
  }

  lemma StandsUp(s: NodeState, n: Name)
    requires |s.members| > 1 && Flat(s) && s.name == n
    ensures var e := BecomeCandidate(s, 0).value;
            && BecomeCandidate(s, 0).Ok? && e.node == Stood(s, 0)
            && forall k :: k in s.members && k != n ==> Question(e.node, k, s.term + 1, false) in e.sends
  {
    var stood := Stood(s, 0);
    forall k | k in s.members && k != n ensures Question(stood, k, s.term + 1, false) in VoteRequests(stood, stood.term, false) {
      QuestionsAsked(stood, stood.term, false, k);
    }
  }

  /** What `n` makes of an answer, and nobody else has moved. */
  ghost predicate Heard(c: Cluster, c': Cluster, n: Name, e: Effect) {
    && c'.members == c.members && c'.down == c.down && c'.nodes == c.nodes[n := e.node]
    && c.sent <= c'.sent && forall m :: m in e.sends ==> m in c'.sent
  }

  lemma PollOne(p: Path, c0: Cluster, n: Name, t: int, todo: set<Name>, k: Name) returns (q: Path)
    requires Sound(p) && Polling(c0, Now(p), n, t, todo) && k in todo
    ensures Sound(q) && Onward(p, q)
    ensures n == Now(p).nodes[n].name && t >= 1 && k != n
    ensures var m := Vote(k, n, t, true, true);
            Step(Now(p).nodes[n], m, 0).Ok? && Heard(Now(p), Now(q), n, Step(Now(p).nodes[n], m, 0).value)
  {
    hide Polling, Step;
    var c := Now(p);
    AsksBacker(c0, c, n, t, todo, k);
    PollingNamed(c0, c, n, t, todo);
    var p1 := Goes(p, Deliver(Question(c.nodes[n], k, t + 1, true), 0));
    var answer := Vote(k, n, t, true, true);
    SameNodes(c, Now(p1), k);
    q := Goes(p1, Deliver(answer, 0));
    OnwardAgain(p, p1, q);
  }

  lemma PollingNamed(c0: Cluster, c: Cluster, n: Name, t: int, todo: set<Name>)
    requires Polling(c0, c, n, t, todo)
    ensures WellNamed(c) && n in c.nodes && c.down == {} && t >= 1
  {
    NamesFit(c0, c, n, t);
  }

  lemma StillPolling(c0: Cluster, c: Cluster, c': Cluster, n: Name, t: int, todo: set<Name>, k: Name)
    requires Polling(c0, c, n, t, todo) && k in todo
    requires var s := c.nodes[n]; Heard(c, c', n, Effect(s.(preVotes := s.preVotes + {k}), []))
    requires |c.nodes[n].preVotes| + 1 < c.nodes[n].Quorum()
    ensures Polling(c0, c', n, t, todo - {k})
  {
    var s := c.nodes[n];
    assert |s.preVotes + {k}| == |s.preVotes| + 1 && |todo - {k}| == |todo| - 1;
    assert c'.nodes.Keys == c.nodes.Keys;
  }

  lemma PollingSeat(c0: Cluster, c: Cluster, n: Name, t: int, todo: set<Name>)
    requires Polling(c0, c, n, t, todo)
    ensures Seated(c0, n) && Seated(c, n) && c.nodes[n].term == t && |c0.members| > 1
  {
    assert Seated(c0, n) && Spent(c0.nodes[n], n, t);
  }

  lemma PollWon(c0: Cluster, c: Cluster, c': Cluster, n: Name, t: int, todo: set<Name>, k: Name)
    requires Polling(c0, c, n, t, todo)
    requires var s := c.nodes[n]; var counted := s.(preVotes := s.preVotes + {k});
             BecomeCandidate(counted, 0).Ok? && Heard(c, c', n, BecomeCandidate(counted, 0).value)
    ensures Standing(c0, c', n, t)
  {
    hide BecomeCandidate, Backers, AllSpent;
    var s := c.nodes[n];
    PollingSeat(c0, c, n, t, todo);
    StandsUp(s.(preVotes := s.preVotes + {k}), n);
    assert c'.nodes.Keys == c.nodes.Keys;
  }

  lemma {:induction false} Polls(p: Path, c0: Cluster, n: Name, t: int, todo: set<Name>) returns (q: Path)
    requires Sound(p) && Polling(c0, Now(p), n, t, todo)
    ensures Sound(q) && Onward(p, q) && Standing(c0, Now(q), n, t)
    decreases |todo|
  {
    hide Step, Standing, Heard, Setting, Apart, SameSeat, Backers, BecomeCandidate;
    var c := Now(p);
    PollingNamed(c0, c, n, t, todo);
    var s := c.nodes[n];
    assert todo != {};
    var k :| k in todo;
    var p1 := PollOne(p, c0, n, t, todo, k);
    CountsBacker(c0, c, n, t, todo, k);
    if |s.preVotes| + 1 >= s.Quorum() {
      PollWon(c0, c, Now(p1), n, t, todo, k);
      q := p1;
    } else {
      StillPolling(c0, c, Now(p1), n, t, todo, k);
      assert |todo - {k}| == |todo| - 1;
      q := Polls(p1, c0, n, t, todo - {k});
      OnwardAgain(p, p1, q);
    }
  }

  lemma NamesFit(c0: Cluster, c: Cluster, n: Name, t: int)
    requires Setting(c0, n, t) && Apart(c0, c, n) && c.nodes[n].name == n
    ensures WellNamed(c)
  {
    forall k | k in c.nodes ensures c.nodes[k].name == k { assert Seated(c0, k); }
  }

  lemma SameNodes(c: Cluster, c': Cluster, k: Name)
    requires k in c.nodes && c'.nodes == c.nodes[k := c.nodes[k]]
    ensures c'.nodes == c.nodes
  {
  }

  /* ---- canvassing ---- */

  /** `n` stands in the next term; `todo` are backers that have not voted in it. */
  ghost predicate Canvassing(c0: Cluster, c: Cluster, n: Name, t: int, todo: set<Name>) {
    && Setting(c0, n, t) && c.members == c0.members && c.nodes.Keys == c0.nodes.Keys && c.down == {} && n in c.nodes
    && (forall k {:trigger c.nodes[k]} :: k in c.nodes ==> c.nodes[k].name == k)
    && var s := c.nodes[n];
       && s.name == n && s.members == c0.members && s.log == c0.nodes[n].log && s.term == t + 1 && s.role == Candidate
       && n in s.votes && todo !! s.votes && todo <= Backers(c0, n) - {n}
       && |s.votes| < s.Quorum() <= |s.votes| + |todo|
       && forall k :: k in todo ==> c.nodes[k] == c0.nodes[k] && Question(s, k, t + 1, false) in c.sent
  }

  /** A backer asked for its vote of the next term gives it. */
  lemma WinsBacker(c0: Cluster, c: Cluster, n: Name, t: int, todo: set<Name>, k: Name)
    requires Canvassing(c0, c, n, t, todo) && k in todo
    ensures k in c.nodes && k != n && t >= 0
    ensures var m := Question(c.nodes[n], k, t + 1, false);
            m in c.sent && m.recipient == c.nodes[k].name && Step(c.nodes[k], m, 0).Ok?
            && var e := Step(c.nodes[k], m, 0).value; e.node.name == k && e.sends == [Vote(k, n, t + 1, true, false)]
  {
    assert Seated(c0, k) && Spent(c0.nodes[k], k, t) && Seated(c0, n);
    FlatLast(c.nodes[k].log);
  }

  lemma CountsVoter(c0: Cluster, c: Cluster, n: Name, t: int, todo: set<Name>, k: Name)
    requires Canvassing(c0, c, n, t, todo) && k in todo
    ensures var s, m := c.nodes[n], Vote(k, n, t + 1, true, false);
            var counted := s.(votes := s.votes + {k});
            && n == s.name && t >= 0
            && Step(s, m, 0) == if |s.votes| + 1 >= s.Quorum() then BecomeLeader(counted) else Ok(Effect(counted, []))
  {
    var s := c.nodes[n];
    assert |s.votes + {k}| == |s.votes| + 1;
  }

  lemma CanvassOne(p: Path, c0: Cluster, n: Name, t: int, todo: set<Name>, k: Name) returns (q: Path)
    requires Sound(p) && Canvassing(c0, Now(p), n, t, todo) && k in todo
    ensures Sound(q) && Onward(p, q) && n == Now(p).nodes[n].name && t >= 0 && k != n
    ensures var m := Vote(k, n, t + 1, true, false); var c, c' := Now(p), Now(q);
            && Step(c.nodes[n], m, 0).Ok?
            && c'.members == c.members && c'.down == c.down && c'.nodes.Keys == c.nodes.Keys && c.sent <= c'.sent
            && c'.nodes[n] == Step(c.nodes[n], m, 0).value.node && WellNamed(c')
            && forall j :: j in c.nodes && j != n && j != k ==> c'.nodes[j] == c.nodes[j]
  {
    hide Canvassing, Step;
    var c := Now(p);
    WinsBacker(c0, c, n, t, todo, k);
    CanvassingNamed(c0, c, n, t, todo);
    var p1 := Goes(p, Deliver(Question(c.nodes[n], k, t + 1, false), 0));
    q := Goes(p1, Deliver(Vote(k, n, t + 1, true, false), 0));
    OnwardAgain(p, p1, q);
  }

  lemma CanvassingNamed(c0: Cluster, c: Cluster, n: Name, t: int, todo: set<Name>)
    requires Canvassing(c0, c, n, t, todo)
    ensures WellNamed(c) && n in c.nodes && c.down == {} && t >= 1
  {
  }

  lemma StillCanvassing(c0: Cluster, c: Cluster, c': Cluster, n: Name, t: int, todo: set<Name>, k: Name)
    requires Canvassing(c0, c, n, t, todo) && k in todo
    requires c'.members == c.members && c'.down == c.down && c'.nodes.Keys == c.nodes.Keys && c.sent <= c'.sent
    requires c'.nodes[n] == c.nodes[n].(votes := c.nodes[n].votes + {k}) && WellNamed(c')
    requires forall j :: j in c.nodes && j != n && j != k ==> c'.nodes[j] == c.nodes[j]
    requires |c.nodes[n].votes| + 1 < c.nodes[n].Quorum()
    ensures Canvassing(c0, c', n, t, todo - {k})
  {
    var s := c.nodes[n];
    assert |s.votes + {k}| == |s.votes| + 1 && |todo - {k}| == |todo| - 1;
  }

  lemma LeadsNow(s: NodeState)
    requires BecomeLeader(s).Ok?
    ensures BecomeLeader(s).value.node.role == Leader
  {
  }

  lemma {:induction false} Canvasses(p: Path, c0: Cluster, n: Name, t: int, todo: set<Name>) returns (q: Path)
    requires Sound(p) && Canvassing(c0, Now(p), n, t, todo)
    ensures Sound(q) && Onward(p, q) && n in Now(q).nodes && Now(q).nodes[n].role == Leader
    decreases |todo|
  {
    hide Step, Setting, Backers, BecomeLeader;
    var c := Now(p);
    CanvassingNamed(c0, c, n, t, todo);
    var s := c.nodes[n];
    assert todo != {};
    var k :| k in todo;
    var p1 := CanvassOne(p, c0, n, t, todo, k);
    CountsVoter(c0, c, n, t, todo, k);
    if |s.votes| + 1 >= s.Quorum() {
      LeadsNow(s.(votes := s.votes + {k}));
      q := p1;
    } else {
      StillCanvassing(c0, c, Now(p1), n, t, todo, k);
      assert |todo - {k}| == |todo| - 1;
      q := Canvasses(p1, c0, n, t, todo - {k});
      OnwardAgain(p, p1, q);
    }
  }

  /* ---- the exact condition ---- */

  lemma StandingCanvasses(c0: Cluster, c: Cluster, n: Name, t: int)
    requires Standing(c0, c, n, t) && Hopeful(c0, n)
    ensures Canvassing(c0, c, n, t, Backers(c0, n) - {n})
  {
    var all := Backers(c0, n);
    assert all == (all - {n}) + {n};
    forall k | k in c.nodes ensures c.nodes[k].name == k { assert Seated(c0, k); }
  }

  /** Asking again when its time has come. */
  lemma AsksAnew(c: Cluster, n: Name, t: int)
    requires Setting(c, n, t)
    ensures var s := c.nodes[n]; var e := BecomePreCandidate(s.(now := Max(s.now, s.electionDeadline)), 0);
            && Tick(s, Max(s.now, s.electionDeadline), 0) == Ok(e)
            && SameSeat(s, e.node) && s.name == n && e.node.preVotes == {n}
            && forall k :: k in c.nodes && k != n ==> Question(s, k, t + 1, true) in e.sends
  {
    var s := c.nodes[n];
    assert Seated(c, n) && Spent(s, n, t);
    var on := s.(now := Max(s.now, s.electionDeadline));
    forall k | k in c.nodes && k != n ensures Question(s, k, t + 1, true) in VoteRequests(on, t + 1, true) {
      assert k in Names(c.members);
      QuestionsAsked(on, t + 1, true, k);
    }
  }

  lemma AsksFirst(p: Path, n: Name, t: int) returns (q: Path)
    requires Sound(p) && Setting(Now(p), n, t) && Hopeful(Now(p), n)
    ensures Sound(q) && Onward(p, q) && Polling(Now(p), Now(q), n, t, Backers(Now(p), n) - {n})
  {
    hide Hopeful, Tick;
    var c := Now(p);
    var s := c.nodes[n];
    AsksAnew(c, n, t);
    forall k | k in c.nodes ensures c.nodes[k].name == k { assert Seated(c, k); }
    q := Goes(p, Timer(n, Max(s.now, s.electionDeadline), 0));
    PollOpens(c, Now(q), n, t);
  }

  lemma PollOpens(c: Cluster, c': Cluster, n: Name, t: int)
    requires Setting(c, n, t) && Hopeful(c, n)
    requires c'.members == c.members && c'.down == c.down && n in c'.nodes && c'.nodes == c.nodes[n := c'.nodes[n]]
    requires var s := c'.nodes[n]; SameSeat(c.nodes[n], s) && s.name == n && s.preVotes == {n}
    requires forall k :: k in c.nodes && k != n ==> Question(c.nodes[n], k, t + 1, true) in c'.sent
    ensures Polling(c, c', n, t, Backers(c, n) - {n})
  {
    var all := Backers(c, n);
    assert all == (all - {n}) + {n};
    assert Seated(c, n);
  }

  lemma SettingHere(p: Path, n: Name, t: int)
    requires Sound(p) && AllSpent(Now(p), t) && Now(p).down == {} && Hopeful(Now(p), n)
    ensures Setting(Now(p), n, t)
  {
    hide AllSpent;
    var hs := Safety.RunRecord(p.states, p.events);
    var w := Safety.WorldOf(Now(p), hs[|p.events|]);
    assert Commit.Full(w);
    FullInv(w);
    AllMembers(w);
    forall k | k in Now(p).nodes ensures Seated(Now(p), k) { FlatHere(w, k); }
    TermsPositive(Now(p), n, t);
  }

  lemma TermsPositive(c: Cluster, n: Name, t: int)
    requires AllSpent(c, t) && n in c.nodes
    ensures t >= 1
  {
    assert Spent(c.nodes[n], n, t);
  }

  /**
  When every node is up and has spent its vote of the term on itself, a leader can still come without a restart
  exactly when some follower's log is no older than those of a majority. A restarted candidate is such a
  follower, or is not, by its log alone.
  */
  lemma LeaderCanComeExactly(p: Path, t: int)
    requires Sound(p) && AllSpent(Now(p), t) && Now(p).down == {}
    ensures LeaderCanCome(p) <==> exists n :: Hopeful(Now(p), n)
  {
    hide AllSpent, Hopeful, Run;
    if n :| Hopeful(Now(p), n) {
      SettingHere(p, n, t);
      var asked := AsksFirst(p, n, t);
      var stood := Polls(asked, Now(p), n, t, Backers(Now(p), n) - {n});
      StandingCanvasses(Now(p), Now(stood), n, t);
      var led := Canvasses(stood, Now(p), n, t, Backers(Now(p), n) - {n});
      OnwardAgain(p, asked, stood);
      OnwardAgain(p, stood, led);
      assert LeadsOnTo(p, led);
    } else if LeaderCanCome(p) {
      var q :| LeadsOnTo(p, q);
      assert q.states[|p.events|] == Now(p);
      StuckIsForever(q.states, q.events, |p.events|, |q.events|, t);
    }
  }
}
