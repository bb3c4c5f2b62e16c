/**
A run in which the cluster's own checks fail. With batches of one entry, three nodes, and no crash, a leader that
is told a bare refusal meant for an older term of its own starts over from its first entry, announces a commit
index its batch does not reach, and the follower commits its own stale tail.
*/
module Witness {
  import opened Basics
  import opened Logs
  import opened Rpc
  import opened NodeSpec
  import opened ClusterSpec
  import opened Invariant
  import opened Actions
  import opened Commit
  import opened Steps
  import Driver
  import Safety
  import opened Paths
  import Straying

  const A := Name(0)
  const B := Name(1)
  const C := Name(2)
  const M: seq<Name> := [A, B, C]

  /* ---- what each step does to a node ---- */

  /** A node of the three with a log, a vote and a commit index, whose election timer has run out. */
  ghost predicate Sits(s: NodeState, n: Name, t: int, voted: Option<Name>, role: Role, x: seq<Entry>, c: int) {
    && s.name == n && n in M && s.members == M && !s.preVote && !s.commitAnyTerm && s.maxBatch == 1
    && s.term == t && s.votedFor == voted && s.role == role && s.log == RawLog(x, 0, 0) && Shaped(x)
    && 0 <= c == s.commitIndex == s.lastApplied <= |x| && s.applied == x[..c] && s.state == Folded(map[], s.applied)
    && s.electionDeadline <= s.now
  }

  lemma Peer(n: Name, to: Name)
    requires n in M && to in M && to != n
    ensures exists i :: 0 <= i < |Others(M, n)| && Others(M, n)[i] == to
  {
    assert to in Others(M, n);
  }

  /** Everyone but `n` is sent what is asked of them. */
  lemma AsksEach(s: NodeState, term: Term, to: Name)
    requires s.members == M && s.name in M && to in M && to != s.name
    ensures VoteRequest(s, to, term, false) in VoteRequests(s, term, false)
  {
    Peer(s.name, to);
    var i :| 0 <= i < |s.Peers()| && s.Peers()[i] == to;
    assert VoteRequests(s, term, false)[i] == VoteRequest(s, to, term, false);
  }

  lemma SendsEach(s: NodeState, to: Name)
    requires s.members == M && s.name in M && to in M && to != s.name
    ensures ReplicateTo(s, to) in Replicate(s)
  {
    Peer(s.name, to);
    var i :| 0 <= i < |s.Peers()| && s.Peers()[i] == to;
    assert Replicate(s)[i] == ReplicateTo(s, to);
  }

  lemma Stands(s: NodeState, n: Name, t: int, voted: Option<Name>, role: Role, x: seq<Entry>, c: int, to: Name)
    requires Sits(s, n, t, voted, role, x, c) && role != Leader && to in M && to != n
    ensures Tick(s, s.now, 0).Ok?
    ensures var e := Tick(s, s.now, 0).value;
            && Sits(e.node, n, t + 1, Some(n), Candidate, x, c) && e.node.votes == {n}
            && RequestVote(n, to, t + 1, |x|, LastTermOf(x), false) in e.sends
  {
    FlatLast(s.log);
    var stood := Stood(s, 0);
    assert s.(now := s.now) == s;
    AsksEach(stood, stood.term, to);
  }

  lemma Grants(s: NodeState, n: Name, t: int, voted: Option<Name>, role: Role, x: seq<Entry>, c: int, m: Message)
    requires Sits(s, n, t, voted, role, x, c) && m.RequestVote? && !m.preVote && m.recipient == n && m.term > t
    ensures Step(s, m, 0).Ok?
    ensures var e := Step(s, m, 0).value;
            if UpToDate(x, m.lastIndex, m.lastTerm)
            then Sits(e.node, n, m.term, Some(m.sender), Follower, x, c) && e.sends == [Vote(n, m.sender, m.term, true, false)]
            else Sits(e.node, n, m.term, None, Follower, x, c)
  {
    FlatLast(s.log);
  }

  /** What a leader of the three thinks of the other two. */
  ghost predicate Thinks(s: NodeState, f: Name, next: int, match_: int) {
    f in s.nextIndex && s.nextIndex[f] == next && Get(s.matchIndex, f, NO_INDEX) == match_
  }

  lemma Wins(s: NodeState, n: Name, t: int, voted: Option<Name>, x: seq<Entry>, c: int, m: Message, to: Name)
    requires Sits(s, n, t, voted, Candidate, x, c) && s.votes == {n} && LastTermOf(x) <= t && t >= 1
    requires m.Vote? && m.granted && !m.preVote && m.term == t && m.recipient == n && m.sender != n
    requires to in M && to != n
    ensures Step(s, m, 0).Ok?
    ensures var e := Step(s, m, 0).value; var first := Entry(t, |x| + 1, NoOp);
            && Sits(e.node, n, t, voted, Leader, x + [first], c) && e.node.heartbeatDue == e.node.now + HEARTBEAT_INTERVAL
            && Thinks(e.node, to, |x| + 1, 0)
            && Append(n, to, t, |x|, LastTermOf(x), [first], c) in e.sends
  {
    hide Folded, Replicate, ReplicateTo, Opened;
    var counted := s.(votes := s.votes + {m.sender});
    assert counted.votes == {n, m.sender} && |counted.votes| == 2;
    FlatLast(counted.log);
    OfficeOpens(counted);
    assert Step(s, m, 0) == OnVote(s, m, 0) == BecomeLeader(counted);
    LeadsFrom(counted, n, t, voted, x, c, to);
  }

  lemma LeadsFrom(s: NodeState, n: Name, t: int, voted: Option<Name>, x: seq<Entry>, c: int, to: Name)
    requires Sits(s, n, t, voted, Candidate, x, c) && LastTermOf(x) <= t && t >= 1 && to in M && to != n
    ensures var led, first := InOffice(s), Entry(t, |x| + 1, NoOp);
            && Sits(led, n, t, voted, Leader, x + [first], c) && led.heartbeatDue == led.now + HEARTBEAT_INTERVAL
            && Thinks(led, to, |x| + 1, 0)
            && Append(n, to, t, |x|, LastTermOf(x), [first], c) in Replicate(led)
  {
    hide Folded, Replicate, ReplicateTo, InOffice, Sits;
    var led, first := InOffice(s), Entry(t, |x| + 1, NoOp);
    SitsInOffice(s, n, t, voted, x, c);
    SitsShaped(led, n, t, voted, Leader, x + [first], c);
    ThinksFresh(s, n, t, voted, x, c, to);
    SendsEach(led, to);
    NextOne(led, to, x + [first], |x| + 1);
  }

  lemma SitsShaped(s: NodeState, n: Name, t: int, voted: Option<Name>, role: Role, x: seq<Entry>, c: int)
    requires Sits(s, n, t, voted, role, x, c)
    ensures s.log == RawLog(x, 0, 0) && Shaped(x) && s.maxBatch == 1 && s.name == n && s.members == M && n in M
    ensures s.term == t && s.commitIndex == c
  {
  }

  lemma SitsInOffice(s: NodeState, n: Name, t: int, voted: Option<Name>, x: seq<Entry>, c: int)
    requires Sits(s, n, t, voted, Candidate, x, c) && LastTermOf(x) <= t && t >= 1
    ensures var led := InOffice(s);
            && Sits(led, n, t, voted, Leader, x + [Entry(t, |x| + 1, NoOp)], c)
            && led.heartbeatDue == led.now + HEARTBEAT_INTERVAL
  {
    hide Folded, FromKeys;
    var first := Entry(t, |x| + 1, NoOp);
    ShapedExtends(x, first);
    FlatLast(s.log);
    assert (x + [first])[..c] == x[..c];
  }

  lemma ThinksFresh(s: NodeState, n: Name, t: int, voted: Option<Name>, x: seq<Entry>, c: int, to: Name)
    requires Sits(s, n, t, voted, Candidate, x, c) && LastTermOf(x) <= t && t >= 1 && to in M && to != n
    ensures Thinks(InOffice(s), to, |x| + 1, 0)
  {
    hide Folded;
    FlatLast(s.log);
    Peer(n, to);
  }

  /** With batches of one, the next append carries one entry, or none when the follower is level. */
  lemma NextOne(s: NodeState, f: Name, x: seq<Entry>, next: int)
    requires s.log == RawLog(x, 0, 0) && Shaped(x) && s.maxBatch == 1 && f != s.name
    requires f in s.nextIndex && s.nextIndex[f] == next && 1 <= next <= |x| + 1
    ensures ReplicateTo(s, f) == Append(s.name, f, s.term, next - 1, TermOf(x, next - 1),
                                        if next <= |x| then [x[next - 1]] else [], s.commitIndex)
  {
    if next <= |x| { assert x[next - 1..next] == [x[next - 1]]; }
  }

  /** Following an announced commit index. */
  function Announced(c: int, announced: int, last: int): int {
    if announced > c then Min(announced, last) else c
  }

  /** A follower takes an append that leaves it with the log `x'`. */
  lemma Takes(s: NodeState, n: Name, t: int, voted: Option<Name>, x: seq<Entry>, c: int, m: Message, x': seq<Entry>)
    requires Sits(s, n, t, voted, Follower, x, c) && m.Append? && m.recipient == n && m.term >= t
    requires s.log.Matches(m.previousIndex, m.previousTerm)
    requires TakeAll(s.log, m.entries) == RawLog(x', 0, 0) && Shaped(x') && c <= |x'| && x'[..c] == x[..c]
    ensures Step(s, m, 0).Ok?
    ensures var e := Step(s, m, 0).value;
            && Sits(e.node, n, m.term, if m.term > t then None else voted, Follower, x', Announced(c, m.commitIndex, |x'|))
            && e.sends == [Appended(n, m.sender, m.term, true, m.AppendEnd(), NO_TERM, NO_INDEX)]
  {
    hide Folded, ApplyCommitted, TakeAll;
    var g := if m.term > t then BecomeFollower(s, m.term, None, 0) else s;
    var heard := Heard(g, m.sender, m.term, 0);
    assert heard.log == s.log && heard.commitIndex == c;
    assert Step(s, m, 0) == OnAppend(g, m, 0);
    var taken := heard.(log := TakeAll(s.log, m.entries));
    if m.commitIndex > c { AppliesPrefix(taken.(commitIndex := Min(m.commitIndex, |x'|))); }
  }

  /** One entry more than the log has. */
  lemma TakesNext(log: LogState, one: Entry)
    requires log.snapshotIndex == 0 && one.index == |log.entries| + 1
    ensures TakeAll(log, [one]) == log.(entries := log.entries + [one])
  {
    TakeOneFlat(log, |log.entries|, one);
    assert log.entries[..|log.entries|] == log.entries;
    assert [one][1..] == [];
  }

  /** One entry the log already holds. */
  lemma TakesHeld(log: LogState, one: Entry)
    requires log.snapshotIndex == 0 && 1 <= one.index <= |log.entries| && log.entries[one.index - 1].term == one.term
    ensures TakeAll(log, [one]) == log
  {
    TakeOneFlat(log, one.index - 1, one);
    assert [one][1..] == [];
  }

  lemma Proposes(s: NodeState, n: Name, t: int, voted: Option<Name>, x: seq<Entry>, c: int, command: Command)
    requires Sits(s, n, t, voted, Leader, x, c) && LastTermOf(x) <= t && t >= 1
    ensures Propose(s, command).Ok?
    ensures var s' := Propose(s, command).value.0;
            && Sits(s', n, t, voted, Leader, x + [Entry(t, |x| + 1, command)], c)
            && s'.nextIndex == s.nextIndex && s'.matchIndex == s.matchIndex[n := |x| + 1]
            && s'.heartbeatDue == s.heartbeatDue && s'.now == s.now
  {
    hide Folded;
    var one := Entry(t, |x| + 1, command);
    FlatLast(s.log);
    ShapedExtends(x, one);
    assert (x + [one])[..c] == x[..c];
  }

  /** A leader's heartbeat, which restarts nothing it thinks. */
  lemma Beats(s: NodeState, n: Name, t: int, voted: Option<Name>, x: seq<Entry>, c: int, to: Name, next: int)
    requires Sits(s, n, t, voted, Leader, x, c) && s.heartbeatDue == s.now + HEARTBEAT_INTERVAL
    requires to in M && to != n && to in s.nextIndex && s.nextIndex[to] == next && 1 <= next <= |x| + 1
    ensures Tick(s, s.heartbeatDue, 0).Ok?
    ensures var e := Tick(s, s.heartbeatDue, 0).value;
            && Sits(e.node, n, t, voted, Leader, x, c)
            && e.node.nextIndex == s.nextIndex && e.node.matchIndex == s.matchIndex
            && Append(n, to, t, next - 1, TermOf(x, next - 1), if next <= |x| then [x[next - 1]] else [], c) in e.sends
  {
    hide Folded, ReplicateTo;
    var beating := s.(now := s.heartbeatDue, heartbeatDue := s.heartbeatDue + HEARTBEAT_INTERVAL);
    SendsEach(beating, to);
    NextOne(beating, to, x, next);
  }

  /** A stale append draws a refusal that names no position. */
  lemma Refuses(s: NodeState, m: Message)
    requires m.Append? && m.recipient == s.name && m.term < s.term
    ensures Step(s, m, 0) == Ok(Effect(s, [Appended(s.name, m.sender, s.term, false, NO_INDEX, NO_TERM, NO_INDEX)]))
  {
  }

  /** Such a refusal, reaching the leader of the term it carries, sends it back to its first entry. */
  lemma StartsOver(s: NodeState, n: Name, t: int, voted: Option<Name>, x: seq<Entry>, c: int, m: Message)
    requires Sits(s, n, t, voted, Leader, x, c) && x != []
    requires m.Appended? && m.recipient == n && m.sender != n && m.term == t
    requires !m.success && m.conflictTerm == NO_TERM && m.conflictIndex == NO_INDEX
    ensures Step(s, m, 0).Ok?
    ensures var e := Step(s, m, 0).value;
            Sits(e.node, n, t, voted, Leader, x, c) && e.sends == [Append(n, m.sender, t, 0, 0, [x[0]], c)]
  {
    hide Folded, ReplicateTo;
    var s' := s.(nextIndex := s.nextIndex[m.sender := 1]);
    NextOne(s', m.sender, x, 1);
  }

  /** A success that gives an entry of the leader's term its majority commits it. */
  lemma Commits(s: NodeState, n: Name, t: int, voted: Option<Name>, x: seq<Entry>, c: int, m: Message, g: Name, k: nat)
    requires Sits(s, n, t, voted, Leader, x, c) && c < k <= |x| && x[k - 1].term == t
    requires m.Appended? && m.recipient == n && m.term == t && m.success && m.matchIndex == k
    requires m.sender in M && g in M && m.sender != n && g != n && g != m.sender
    requires Get(s.matchIndex, m.sender, NO_INDEX) <= k && Get(s.matchIndex, g, NO_INDEX) == 0
    ensures Step(s, m, 0).Ok?
    ensures var e := Step(s, m, 0).value;
            && Sits(e.node, n, t, voted, Leader, x, k) && e.node.heartbeatDue == s.heartbeatDue && e.node.now == s.now
            && Thinks(e.node, m.sender, k + 1, k) && Get(e.node.matchIndex, g, NO_INDEX) == 0
            && (k < |x| ==> Append(n, m.sender, t, k, t, [x[k]], k) in e.sends)
  {
    hide Folded, ApplyCommitted, ReplicateTo, CommitScan;
    var known := Matched(s, m.sender, k);
    var counted := known.(matchIndex := known.matchIndex[n := |x|]);
    ScansTo(counted, n, x, m.sender, g, k, |x|);
    AppliesPrefix(counted.(commitIndex := k));
    var led := ApplyCommitted(counted.(commitIndex := k));
    assert AdvanceCommit(known) == Ok(led);
    if k < |x| { NextOne(led, m.sender, x, k + 1); }
  }

  lemma {:induction false} ScansTo(s: NodeState, n: Name, x: seq<Entry>, f: Name, g: Name, k: nat, index: int)
    requires s.log == RawLog(x, 0, 0) && s.members == M && n in M && f in M && g in M && f != n && g != n && f != g
    requires !s.commitAnyTerm && 0 <= s.commitIndex < k <= index <= |x| && x[k - 1].term == s.term
    requires Get(s.matchIndex, n, 0) == |x| && Get(s.matchIndex, f, 0) == k && Get(s.matchIndex, g, 0) == 0
    ensures CommitScan(s, index) == Ok(Some(k))
    decreases index
  {
    assert Holders(M, s.matchIndex, index) == if index > k then {n} else {n, f};
    if index > k { ScansTo(s, n, x, f, g, k, index - 1); }
  }

  /* ---- going along a run ---- */

  ghost predicate Good(p: Path) {
    && Sound(p)
    && Now(p).members == M && Now(p).nodes.Keys == {A, B, C} && Now(p).down == {} && WellNamed(Now(p))
  }

  ghost function At(p: Path, n: Name): NodeState
    requires Good(p) && n in {A, B, C}
  {
    Now(p).nodes[n]
  }

  ghost function Sent(p: Path): set<Message>
    requires Good(p)
  {
    Now(p).sent
  }

  /** One node of the run moved and sent, and nothing else changed. */
  ghost predicate Moves(p: Path, q: Path, n: Name, e: Effect)
    requires Good(p) && Good(q) && n in {A, B, C}
  {
    && At(q, n) == e.node && (forall k :: k in {A, B, C} && k != n ==> At(q, k) == At(p, k))
    && (forall m :: m in Sent(q) <==> m in Sent(p) || m in e.sends)
  }

  lemma GoesHere(p: Path, event: Event) returns (q: Path)
    requires Good(p) && Enabled(Now(p), event) && !event.Crash? && !event.Restart?
    ensures Sound(q) && Apply(Now(p), event) == Ok(Now(q)) && Good(q) && q.events == p.events + [event]
  {
    hide Run;
    q := Goes(p, event);
    StaysUp(Now(p), event);
  }

  /** Deliveries, timeouts and writes change neither who the members are nor who is up. */
  lemma StaysUp(c: Cluster, event: Event)
    requires Enabled(c, event) && !event.Crash? && !event.Restart? && Apply(c, event).Ok?
    ensures var c' := Apply(c, event).value; c'.members == c.members && c'.nodes.Keys == c.nodes.Keys && c'.down == c.down
  {
  }

  lemma Installs(p: Path, q: Path, n: Name, e: Effect)
    requires Good(p) && Good(q) && n in {A, B, C} && Now(q) == Install(Now(p), n, e)
    ensures Moves(p, q, n, e)
  {
    hide Run;
  }

  lemma Hears(p: Path, m: Message) returns (q: Path)
    requires Good(p) && m in Sent(p) && m.recipient in {A, B, C}
    ensures Good(q) && Step(At(p, m.recipient), m, 0).Ok? && q.events == p.events + [Deliver(m, 0)]
    ensures Moves(p, q, m.recipient, Step(At(p, m.recipient), m, 0).value)
  {
    hide Step, Run, Moves;
    q := GoesHere(p, Deliver(m, 0));
    Installs(p, q, m.recipient, Step(At(p, m.recipient), m, 0).value);
  }

  lemma Ticks(p: Path, n: Name, now: int) returns (q: Path)
    requires Good(p) && n in {A, B, C}
    ensures Good(q) && Tick(At(p, n), now, 0).Ok? && q.events == p.events + [Timer(n, now, 0)]
    ensures Moves(p, q, n, Tick(At(p, n), now, 0).value)
  {
    hide Tick, Run, Moves;
    q := GoesHere(p, Timer(n, now, 0));
    Installs(p, q, n, Tick(At(p, n), now, 0).value);
  }

  lemma Asks(p: Path, n: Name, command: Command) returns (q: Path)
    requires Good(p) && n in {A, B, C} && At(p, n).role == Leader
    ensures Good(q) && Propose(At(p, n), command).Ok?
    ensures var s' := Propose(At(p, n), command).value.0; Moves(p, q, n, Effect(s', Replicate(s')))
  {
    hide Propose, Run, Replicate, Step, Tick, Restarted, Moves;
    q := GoesHere(p, Request(n, command));
    var s' := Propose(At(p, n), command).value.0;
    Installs(p, q, n, Effect(s', Replicate(s')));
  }

  /* ---- the run ---- */

  const E1 := Entry(2, 1, NoOp)
  const C2 := Entry(3, 2, NoOp)
  const C3 := Entry(3, 3, SetKey("k", Int(1)))
  const A2 := Entry(4, 2, NoOp)
  const A3 := Entry(4, 3, SetKey("k", Int(2)))

  /** Three fresh nodes. */
  lemma Starts() returns (p: Path)
    ensures Good(p)
    ensures forall n :: n in {A, B, C} ==> Sits(At(p, n), n, 1, None, Follower, [], 0)
  {
    var nodes := map n | n in {A, B, C} :: Fresh(n, M, false, 1, 0);
    var c := Cluster(M, nodes, {}, {});
    assert Names(M) == {A, B, C};
    assert forall n :: n in nodes ==> InitialNode(nodes[n], n, M);
    p := Path([c], []);
  }

  /** Nothing but `n` moved, and nothing was taken off the wire. */
  ghost predicate Only(p: Path, q: Path, n: Name)
    requires Good(p) && Good(q) && n in {A, B, C}
  {
    Sent(p) <= Sent(q) && forall k :: k in {A, B, C} && k != n ==> At(q, k) == At(p, k)
  }

  /** `a` stands for a new term with the vote of `b`, wins, and writes its first entry, unheard by `c`. */
  lemma Elects(p: Path, a: Name, b: Name, c: Name, t: int, va: Option<Name>, ra: Role, xa: seq<Entry>, ca: int,
               tb: int, vb: Option<Name>, rb: Role, xb: seq<Entry>, cb: int) returns (q: Path)
    requires Good(p) && {a, b, c} == {A, B, C} && a != b && b != c && a != c
    requires Sits(At(p, a), a, t - 1, va, ra, xa, ca) && ra != Leader && t >= 1 && LastTermOf(xa) <= t
    requires Sits(At(p, b), b, tb, vb, rb, xb, cb) && tb < t && UpToDate(xb, |xa|, LastTermOf(xa))
    ensures Good(q) && Sent(p) <= Sent(q) && At(q, c) == At(p, c)
    ensures var s, first := At(q, a), Entry(t, |xa| + 1, NoOp);
            && Sits(s, a, t, Some(a), Leader, xa + [first], ca) && s.heartbeatDue == s.now + HEARTBEAT_INTERVAL
            && Thinks(s, b, |xa| + 1, 0) && Thinks(s, c, |xa| + 1, 0)
            && Append(a, b, t, |xa|, LastTermOf(xa), [first], ca) in Sent(q)
            && Append(a, c, t, |xa|, LastTermOf(xa), [first], ca) in Sent(q)
    ensures Sits(At(q, b), b, t, Some(a), Follower, xb, cb)
    ensures RequestVote(a, c, t, |xa|, LastTermOf(xa), false) in Sent(q)
  {
    hide Good, At, Sent, Sits, Shaped, LastTermOf, UpToDate, Thinks, Step, Tick, Run;
    var request, vote := RequestVote(a, b, t, |xa|, LastTermOf(xa), false), Vote(b, a, t, true, false);
    var p1 := StandsIn(p, a, b, c, t - 1, va, ra, xa, ca);
    var p2 := GrantsIn(p1, b, tb, vb, rb, xb, cb, request);
    q := WinsIn(p2, a, b, c, t, xa, ca, vote);
  }

  lemma StandsIn(p: Path, a: Name, b: Name, c: Name, t: int, va: Option<Name>, ra: Role, xa: seq<Entry>, ca: int)
    returns (q: Path)
    requires Good(p) && {a, b, c} == {A, B, C} && a != b && b != c && a != c
    requires Sits(At(p, a), a, t, va, ra, xa, ca) && ra != Leader
    ensures Good(q) && Only(p, q, a) && t >= 0
    ensures Sits(At(q, a), a, t + 1, Some(a), Candidate, xa, ca) && At(q, a).votes == {a}
    ensures RequestVote(a, b, t + 1, |xa|, LastTermOf(xa), false) in Sent(q)
    ensures RequestVote(a, c, t + 1, |xa|, LastTermOf(xa), false) in Sent(q)
  {
    hide Good, At, Sent, Shaped, LastTermOf, Folded, Tick, Run;
    var s := At(p, a);
    Stands(s, a, t, va, ra, xa, ca, b);
    Stands(s, a, t, va, ra, xa, ca, c);
    q := Ticks(p, a, s.now);
  }

  lemma GrantsIn(p: Path, b: Name, tb: int, vb: Option<Name>, rb: Role, xb: seq<Entry>, cb: int, m: Message)
    returns (q: Path)
    requires Good(p) && b in {A, B, C} && Sits(At(p, b), b, tb, vb, rb, xb, cb)
    requires m in Sent(p) && m.RequestVote? && !m.preVote && m.recipient == b && m.term > tb
    ensures Good(q) && Only(p, q, b)
    ensures UpToDate(xb, m.lastIndex, m.lastTerm) ==>
              Sits(At(q, b), b, m.term, Some(m.sender), Follower, xb, cb) && Vote(b, m.sender, m.term, true, false) in Sent(q)
    ensures !UpToDate(xb, m.lastIndex, m.lastTerm) ==> Sits(At(q, b), b, m.term, None, Follower, xb, cb)
  {
    hide Good, At, Sent, Shaped, LastTermOf, UpToDate, Folded, Step, Run;
    var s := At(p, b);
    Grants(s, b, tb, vb, rb, xb, cb, m);
    q := Hears(p, m);
    if UpToDate(xb, m.lastIndex, m.lastTerm) { assert Vote(b, m.sender, m.term, true, false) in Step(s, m, 0).value.sends; }
  }

  lemma WinsIn(p: Path, a: Name, b: Name, c: Name, t: int, xa: seq<Entry>, ca: int, vote: Message) returns (q: Path)
    requires Good(p) && {a, b, c} == {A, B, C} && a != b && b != c && a != c && t >= 1 && LastTermOf(xa) <= t
    requires Sits(At(p, a), a, t, Some(a), Candidate, xa, ca) && At(p, a).votes == {a}
    requires vote == Vote(b, a, t, true, false) && vote in Sent(p)
    ensures Good(q) && Only(p, q, a)
    ensures var s, first := At(q, a), Entry(t, |xa| + 1, NoOp);
            && Sits(s, a, t, Some(a), Leader, xa + [first], ca) && s.heartbeatDue == s.now + HEARTBEAT_INTERVAL
            && Thinks(s, b, |xa| + 1, 0) && Thinks(s, c, |xa| + 1, 0)
            && Append(a, b, t, |xa|, LastTermOf(xa), [first], ca) in Sent(q)
            && Append(a, c, t, |xa|, LastTermOf(xa), [first], ca) in Sent(q)
  {
    hide Good, At, Sent, Sits, Shaped, LastTermOf, Thinks, Step, Run;
    var s := At(p, a);
    Wins(s, a, t, Some(a), xa, ca, vote, b);
    Wins(s, a, t, Some(a), xa, ca, vote, c);
    q := Hears(p, vote);
  }

  /** A leader writes what it is asked to. */
  lemma WritesIn(p: Path, n: Name, t: int, voted: Option<Name>, x: seq<Entry>, c: int, command: Command) returns (q: Path)
    requires Good(p) && n in {A, B, C} && Sits(At(p, n), n, t, voted, Leader, x, c) && LastTermOf(x) <= t && t >= 1
    ensures Good(q) && Only(p, q, n)
    ensures var s, s' := At(p, n), At(q, n);
            && Sits(s', n, t, voted, Leader, x + [Entry(t, |x| + 1, command)], c)
            && s'.heartbeatDue == s.heartbeatDue && s'.now == s.now
            && forall f, i, j :: f != n && Thinks(s, f, i, j) ==> Thinks(s', f, i, j)
  {
    hide Good, At, Sent, Shaped, Folded, LastTermOf, Propose, Replicate, Run;
    Proposes(At(p, n), n, t, voted, x, c, command);
    q := Asks(p, n, command);
  }

  /** A follower at the end of its log takes one more entry. */
  lemma Extends1(p: Path, n: Name, t: int, voted: Option<Name>, x: seq<Entry>, c: int, m: Message, one: Entry)
    returns (q: Path)
    requires Good(p) && n in {A, B, C} && Sits(At(p, n), n, t, voted, Follower, x, c)
    requires m in Sent(p) && m.recipient == n && m.Append? && m.term >= t && m.entries == [one]
    requires m.previousIndex == |x| && m.previousTerm == LastTermOf(x) && one.index == |x| + 1 && one.term >= LastTermOf(x)
    ensures Good(q) && Only(p, q, n)
    ensures Sits(At(q, n), n, m.term, if m.term > t then None else voted, Follower, x + [one],
                 Announced(c, m.commitIndex, |x| + 1))
    ensures Appended(n, m.sender, m.term, true, |x| + 1, NO_TERM, NO_INDEX) in Sent(q)
  {
    hide Good, At, Sent, Step, Run, Folded, TakeAll;
    var s := At(p, n);
    TakesNext(s.log, one);
    ShapedExtends(x, one);
    assert (x + [one])[..c] == x[..c];
    Takes(s, n, t, voted, x, c, m, x + [one]);
    q := Hears(p, m);
  }

  /** A follower that holds all an append carries follows its commit index. */
  lemma Follows1(p: Path, n: Name, t: int, voted: Option<Name>, x: seq<Entry>, c: int, m: Message) returns (q: Path)
    requires Good(p) && n in {A, B, C} && Sits(At(p, n), n, t, voted, Follower, x, c)
    requires m in Sent(p) && m.recipient == n && m.Append? && m.term == t
    requires At(p, n).log.Matches(m.previousIndex, m.previousTerm)
    requires TakeAll(At(p, n).log, m.entries) == At(p, n).log
    ensures Good(q) && Only(p, q, n)
    ensures Sits(At(q, n), n, t, voted, Follower, x, Announced(c, m.commitIndex, |x|))
  {
    hide Good, At, Sent, Step, Enabled, Apply, Run, Folded, TakeAll;
    Takes(At(p, n), n, t, voted, x, c, m, x);
    q := Hears(p, m);
  }

  /** A leads term 2, everyone takes its first entry, and its heartbeat sends C that entry once more. */
  lemma FirstTerm() returns (p: Path)
    ensures Good(p) && Append(A, C, 2, 0, 0, [E1], 0) in Sent(p)
    ensures
      && Sits(At(p, A), A, 2, Some(A), Leader, [E1], 0)
            && Sits(At(p, B), B, 2, Some(A), Follower, [E1], 0)
            && Sits(At(p, C), C, 2, None, Follower, [E1], 0)
  {
    hide Good, At, Sent, Sits, Step, Tick, Enabled, Apply, Run;
    assert [] + [E1] == [E1];
    var p0 := Starts();
    var p1 := Elects(p0, A, B, C, 2, None, Follower, [], 0, 1, None, Follower, [], 0);
    var p2 := Extends1(p1, B, 2, Some(A), [], 0, Append(A, B, 2, 0, 0, [E1], 0), E1);
    var p3 := Extends1(p2, C, 1, None, [], 0, Append(A, C, 2, 0, 0, [E1], 0), E1);
    var s := At(p3, A);
    Beats(s, A, 2, Some(A), [E1], 0, C, 1);
    p := Ticks(p3, A, s.heartbeatDue);
  }

  /** C leads term 3 and writes what nobody else hears of; A steps down for it. */
  lemma SecondTerm() returns (p: Path)
    ensures Good(p) && Append(A, C, 2, 0, 0, [E1], 0) in Sent(p)
    ensures
      && Sits(At(p, A), A, 3, Some(C), Follower, [E1], 0)
            && Sits(At(p, B), B, 3, Some(C), Follower, [E1], 0)
            && Sits(At(p, C), C, 3, Some(C), Leader, [E1, C2, C3], 0)
  {
    hide Good, At, Sent, Sits, Thinks, Step, Run, Shaped;
    var p0 := FirstTerm();
    assert [E1] + [C2] == [E1, C2] && [E1, C2] + [C3] == [E1, C2, C3];
    var p1 := Elects(p0, C, B, A, 3, None, Follower, [E1], 0, 2, Some(A), Follower, [E1], 0);
    var p2 := WritesIn(p1, C, 3, Some(C), [E1, C2], 0, C3.command);
    p := GrantsIn(p2, A, 2, Some(A), Leader, [E1], 0, RequestVote(C, A, 3, 1, 2, false));
  }

  /** A leads term 4, writes, and B takes its first entry of the term. C has not heard of term 4 yet. */
  lemma ThirdTerm() returns (p: Path)
    ensures Good(p) && Append(A, C, 2, 0, 0, [E1], 0) in Sent(p)
    ensures RequestVote(A, C, 4, 1, 2, false) in Sent(p)
    ensures Appended(B, A, 4, true, 2, NO_TERM, NO_INDEX) in Sent(p)
    ensures
      && Sits(At(p, A), A, 4, Some(A), Leader, [E1, A2, A3], 0)
            && At(p, A).heartbeatDue == At(p, A).now + HEARTBEAT_INTERVAL
            && Thinks(At(p, A), B, 2, 0) && Thinks(At(p, A), C, 2, 0)
            && Sits(At(p, B), B, 4, Some(A), Follower, [E1, A2], 0)
            && Sits(At(p, C), C, 3, Some(C), Leader, [E1, C2, C3], 0)
  {
    hide Good, At, Sent, Sits, Thinks, Step, Run, Shaped;
    var p0 := SecondTerm();
    assert [E1] + [A2] == [E1, A2] && [E1, A2] + [A3] == [E1, A2, A3];
    var p1 := Elects(p0, A, B, C, 4, Some(C), Follower, [E1], 0, 3, Some(C), Follower, [E1], 0);
    var p2 := WritesIn(p1, A, 4, Some(A), [E1, A2], 0, A3.command);
    p := Extends1(p2, B, 4, Some(A), [E1], 0, Append(A, B, 4, 1, 2, [A2], 0), A2);
  }

  /** A commits its log with B, and B learns of it. */
  lemma Committing() returns (p: Path)
    ensures Good(p) && Append(A, C, 2, 0, 0, [E1], 0) in Sent(p)
    ensures RequestVote(A, C, 4, 1, 2, false) in Sent(p)
    ensures
      && Sits(At(p, A), A, 4, Some(A), Leader, [E1, A2, A3], 3)
            && Sits(At(p, B), B, 4, Some(A), Follower, [E1, A2, A3], 3)
            && Sits(At(p, C), C, 3, Some(C), Leader, [E1, C2, C3], 0)
  {
    hide Good, At, Sent, Step, Tick, Enabled, Apply, Run, Shaped, Folded;
    var x := [E1, A2, A3];
    assert [E1, A2] + [A3] == x;
    var p0 := ThirdTerm();
    var two, three := Appended(B, A, 4, true, 2, NO_TERM, NO_INDEX), Appended(B, A, 4, true, 3, NO_TERM, NO_INDEX);
    Commits(At(p0, A), A, 4, Some(A), x, 0, two, C, 2);
    var p1 := Hears(p0, two);
    var p2 := Extends1(p1, B, 4, Some(A), [E1, A2], 0, Append(A, B, 4, 2, 4, [A3], 2), A3);
    Commits(At(p2, A), A, 4, Some(A), x, 2, three, C, 3);
    var p3 := Hears(p2, three);
    var s := At(p3, A);
    Beats(s, A, 4, Some(A), x, 3, B, 4);
    var p4 := Ticks(p3, A, s.heartbeatDue);
    p := Follows1(p4, B, 4, Some(A), x, 2, Append(A, B, 4, 3, 4, [], 3));
  }

  /** C hears of term 4, refuses the old append, and is told to commit by an append that carries one entry. */
  lemma CommitsItsTail() returns (p: Path)
    ensures Good(p) && Append(A, C, 4, 0, 0, [E1], 3) in Sent(p)
    ensures
      && Sits(At(p, A), A, 4, Some(A), Leader, [E1, A2, A3], 3)
            && Sits(At(p, B), B, 4, Some(A), Follower, [E1, A2, A3], 3)
            && Sits(At(p, C), C, 4, None, Follower, [E1, C2, C3], 3)
  {
    hide Good, At, Sent, Step, Tick, Enabled, Apply, Run, Shaped, Folded;
    var x := [E1, C2, C3];
    var p0 := Committing();
    var request := RequestVote(A, C, 4, 1, 2, false);
    var p1 := GrantsIn(p0, C, 3, Some(C), Leader, x, 0, request);
    var late := Append(A, C, 2, 0, 0, [E1], 0);
    Refuses(At(p1, C), late);
    var p2 := Hears(p1, late);
    var refusal := Appended(C, A, 4, false, NO_INDEX, NO_TERM, NO_INDEX);
    StartsOver(At(p2, A), A, 4, Some(A), [E1, A2, A3], 3, refusal);
    var p3 := Hears(p2, refusal);
    var again := Append(A, C, 4, 0, 0, [E1], 3);
    TakesHeld(At(p3, C).log, E1);
    p := Follows1(p3, C, 4, None, x, 0, again);
  }

  /**
  State Machine Safety can fail: in this run a delivery strays, A and C have applied different commands at the same
  position, and the cluster's own check raises.
  */
  lemma SafetyCanFail() returns (states: seq<Cluster>, events: seq<Event>)
    ensures Run(states, events) && !Tame(states[|events|].sent) && !Straying.NoStrayBefore(states, events, |events|)
    ensures var c := states[|events|];
            && A in c.nodes && C in c.nodes
            && |c.nodes[A].applied| == |c.nodes[C].applied| == 3
            && c.nodes[A].applied[2].command != c.nodes[C].applied[2].command
            && (forall n :: n in c.members ==> n in c.nodes)
            && !Driver.AppliedMatch(Driver.UpNodes(c.members, c.nodes, c.down))
  {
    var p := CommitsItsTail();
    states, events := p.states, p.events;
    var c := Now(p);
    var stray := Append(A, C, 4, 0, 0, [E1], 3);
    assert stray in c.sent && stray.AppendEnd() == 1;
    var ns := [c.nodes[A], c.nodes[B], c.nodes[C]];
    ThreeUp(c);
    if Straying.NoStrayBefore(states, events, |events|) { Straying.AppliedAgree(states, events, |events|, |events|, A, C); }
    assert ns[1..] == [c.nodes[B], c.nodes[C]] && ns[1..][1..] == [c.nodes[C]];
    assert Driver.Shortest(ns[1..][1..]) == 3 && Driver.Shortest(ns[1..]) == 3 && Driver.Shortest(ns) == 3;
    assert !Driver.SameCommand(ns[0], ns[2], 2);
  }

  lemma ThreeUp(c: Cluster)
    requires c.members == M && c.nodes.Keys == {A, B, C} && c.down == {}
    ensures forall n :: n in c.members ==> n in c.nodes
    ensures Driver.UpNodes(c.members, c.nodes, c.down) == [c.nodes[A], c.nodes[B], c.nodes[C]]
  {
    assert M[1..] == [B, C] && [B, C][1..] == [C] && [C][1..] == [];
    var none: seq<Name> := [];
    assert Driver.UpNodes(none, c.nodes, c.down) == [];
    assert Driver.UpNodes([C], c.nodes, c.down) == [c.nodes[C]];
    assert Driver.UpNodes([B, C], c.nodes, c.down) == [c.nodes[B], c.nodes[C]];
  }
}
