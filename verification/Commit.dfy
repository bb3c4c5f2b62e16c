/** What commitment means: leader completeness, and what every node has applied. */
module Commit {
  import opened Basics
  import opened Logs
  import opened Rpc
  import opened NodeSpec
  import opened ClusterSpec
  import opened Invariant
  import opened Keeping
  import opened Actions

  /* ---- leader completeness ---- */

  ghost function CertPrefix(h: History, c: Cert): seq<Entry>
    requires c.term in h.offices && c.index <= |h.offices[c.term].log|
  {
    h.offices[c.term].log[..c.index]
  }

  /**
  Leader Completeness: what a majority of one term is on record as holding, the leader of any later
  term held when it stood.
  */
  lemma {:induction false} LeaderCompleteness(w: World, c: Cert, u: int)
    requires Inv(w) && c in w.h.certs && u in w.h.offices && c.term < u
    ensures CertOk(w.h, w.members, c)
    ensures CertPrefix(w.h, c) <= w.h.offices[u].founding
    decreases u
  {
    assert CertOk(w.h, w.members, c) && OfficeOk(w.h, w.members, w.nodes, u);
    var office := w.h.offices[u];
    var v := MajoritiesMeet(w.members, c.quorum, office.voters);
    var a := Ack(v, c.term, c.index);
    var seat := Seat(u, v);
    assert AckOk(w.h, w.nodes, a) && PromiseOk(w.h, a, seat) && CastOk(w.h, w.nodes, seat);
    var p, x := CertPrefix(w.h, c), w.h.cast[seat].log;
    if !(p <= x) {
      var t :| a.term < t <= u - 1 && Broke(w.h, a, t);
      LeaderCompleteness(w, c, t);
    }
    var y := office.founding;
    assert StoodOk(w.h, w.nodes, Seat(u, office.leader));
    assert x[c.index - 1] == p[c.index - 1];
    assert LastTermOf(x) >= c.term;
    if LastTermOf(y) == LastTermOf(x) {
      assert RootedAt(w.h, x, |x| - 1) && RootedAt(w.h, y, |y| - 1);
      assert x == x[..|x|] && y == y[..|y|];
      PrefixesCompare(x, y, w.h.offices[LastTermOf(x)].log);
      PrefixTrans(p, x, y);
    } else {
      forall t | c.term < t < u && t in w.h.offices ensures p <= w.h.offices[t].founding {
        LeaderCompleteness(w, c, t);
      }
      LaterFounding(w, c, u);
    }
  }

  /** A leader whose log ends in a term after the committed one inherited that term's founding log. */
  lemma LaterFounding(w: World, c: Cert, u: int)
    requires Inv(w) && c in w.h.certs && CertOk(w.h, w.members, c) && u in w.h.offices
    requires c.term < LastTermOf(w.h.offices[u].founding) < u
    requires forall t :: c.term < t < u && t in w.h.offices ==> CertPrefix(w.h, c) <= w.h.offices[t].founding
    ensures CertPrefix(w.h, c) <= w.h.offices[u].founding
  {
    var y := w.h.offices[u].founding;
    var t, last := LastTermOf(y), |y| - 1;
    assert OfficeOk(w.h, w.members, w.nodes, u);
    assert StoodOk(w.h, w.nodes, Seat(u, w.h.offices[u].leader));
    assert RootedAt(w.h, y, last);
    assert OfficeOk(w.h, w.members, w.nodes, t);
    var f, z := w.h.offices[t].founding, w.h.offices[t].log;
    assert y == y[..last + 1] && y <= z;
    if last < |f| { OfficeTerms(w, t, last); }
    PrefixesCompare(f, y, z);
    PrefixTrans(CertPrefix(w.h, c), f, y);
  }

  /* ---- what is committed and applied ---- */

  /** Appends whose commit index lies within what they leave the follower holding. */
  ghost predicate Tame(sent: set<Message>) {
    forall m {:trigger m in sent} :: m in sent && m.Append? ==> m.commitIndex <= m.AppendEnd()
  }

  /** The first `c` entries of `x` were committed in some term up to `t`. */
  ghost predicate Backed(h: History, t: int, x: seq<Entry>, c: int) {
    0 <= c <= |x| && (c == 0 || exists cert :: BackedBy(h, t, x, c, cert))
  }

  ghost predicate BackedBy(h: History, t: int, x: seq<Entry>, c: int, cert: Cert)
    requires 0 <= c <= |x|
  {
    && cert in h.certs && cert.term in h.offices && cert.term <= t
    && c <= cert.index <= |h.offices[cert.term].log|
    && x[..c] == h.offices[cert.term].log[..c]
  }

  /** The state a sequence of entries leads to from `state`. */
  function Folded(state: map<string, Value>, entries: seq<Entry>): map<string, Value> {
    if entries == [] then state
    else ApplyCommand(Folded(state, entries[..|entries| - 1]), entries[|entries| - 1].command)
  }

  /** What has been applied is the committed prefix of the log, and the state is its replay. */
  ghost predicate CommitOk(h: History, s: NodeState) {
    && s.lastApplied == s.commitIndex
    && Backed(h, s.term, s.log.entries, s.commitIndex)
    && s.applied == s.log.entries[..s.commitIndex]
    && s.state == Folded(map[], s.applied)
  }

  ghost predicate MessageBacked(h: History, m: Message) {
    m.Append? ==> m.term in h.offices && Backed(h, m.term, h.offices[m.term].log, m.commitIndex)
  }

  ghost predicate Commits(w: World) {
    && (forall n {:trigger CommitOk(w.h, w.nodes[n])} :: n in w.nodes ==> CommitOk(w.h, w.nodes[n]))
    && (forall m {:trigger MessageBacked(w.h, m)} :: m in w.sent ==> MessageBacked(w.h, m))
  }

  /** The invariant, with what is committed and applied as long as no node has strayed. */
  ghost predicate Full(w: World) {
    Inv(w) && (!w.h.strayed ==> Commits(w))
  }

  /** A follower moved its commit index onto something the leader of its term does not hold. */
  ghost predicate Strayed(h: History, s: NodeState, s': NodeState) {
    && s'.role == Follower && s'.commitIndex > s.commitIndex
    && s'.term in h.offices && 0 <= s'.commitIndex <= |s'.log.entries|
    && !(s'.log.entries[..s'.commitIndex] <= h.offices[s'.term].log)
  }

  lemma BackedExtends(h: History, h': History, t: int, t': int, x: seq<Entry>, x': seq<Entry>, c: int)
    requires Extends(h, h') && t <= t' && Backed(h, t, x, c) && c <= |x'| && x[..c] == x'[..c]
    ensures Backed(h', t', x', c)
  {
    if c > 0 {
      var cert :| BackedBy(h, t, x, c, cert);
      assert OfficeExtends(h, h', cert.term);
      assert BackedBy(h', t', x', c, cert);
    }
  }

  lemma MovedCommits(w: World, n: Name, s': NodeState, h': History)
    requires Commits(w) && n in w.nodes && Extends(w.h, h') && CommitOk(h', s')
    ensures Commits(Moved(w, n, s', h'))
  {
    var w' := Moved(w, n, s', h');
    forall k | k in w'.nodes ensures CommitOk(h', w'.nodes[k]) {
      if k != n {
        var s := w.nodes[k];
        assert CommitOk(w.h, s);
        BackedExtends(w.h, h', s.term, s.term, s.log.entries, s.log.entries, s.commitIndex);
      }
    }
    forall m | m in w.sent ensures MessageBacked(h', m) {
      assert MessageBacked(w.h, m);
      if m.Append? {
        assert OfficeExtends(w.h, h', m.term);
        BackedExtends(w.h, h', m.term, m.term, w.h.offices[m.term].log, h'.offices[m.term].log, m.commitIndex);
      }
    }
  }

  /** A node that commits nothing and loses nothing it committed. */
  lemma CommitStays(w: World, n: Name, s': NodeState, h': History)
    requires Commits(w) && n in w.nodes && Extends(w.h, h')
    requires var s := w.nodes[n];
             && s'.term >= s.term && s.log.entries <= s'.log.entries
             && s'.commitIndex == s.commitIndex && s'.lastApplied == s.lastApplied
             && s'.applied == s.applied && s'.state == s.state
    ensures Commits(Moved(w, n, s', h'))
  {
    var s := w.nodes[n];
    assert CommitOk(w.h, s);
    var x, x' := s.log.entries, s'.log.entries;
    assert x == x'[..|x|];
    assert x[..s.commitIndex] == x'[..s.commitIndex];
    BackedExtends(w.h, h', s.term, s'.term, x, x', s.commitIndex);
    MovedCommits(w, n, s', h');
  }

  /** Two committed prefixes are the same as far as both go. */
  lemma BackedAgree(w: World, t: int, x: seq<Entry>, c: int, t': int, x': seq<Entry>, c': int)
    requires Inv(w) && Backed(w.h, t, x, c) && Backed(w.h, t', x', c')
    ensures x[..c] <= x'[..c'] || x'[..c'] <= x[..c]
  {
    if c > 0 && c' > 0 {
      var d :| BackedBy(w.h, t, x, c, d);
      var d' :| BackedBy(w.h, t', x', c', d');
      var top := if d.term <= d'.term then d'.term else d.term;
      CertIn(w, d, top);
      CertIn(w, d', top);
      var y := w.h.offices[top].log;
      assert x[..c] == CertPrefix(w.h, d)[..c] && x'[..c'] == CertPrefix(w.h, d')[..c'];
      PrefixTrans(x[..c], CertPrefix(w.h, d), y);
      PrefixTrans(x'[..c'], CertPrefix(w.h, d'), y);
      PrefixesCompare(x[..c], x'[..c'], y);
    }
  }

  /** A committed prefix is in the log of its own leader and of every later one. */
  lemma CertIn(w: World, c: Cert, t: int)
    requires Inv(w) && c in w.h.certs && t in w.h.offices && c.term <= t
    ensures CertOk(w.h, w.members, c)
    ensures CertPrefix(w.h, c) <= w.h.offices[t].log
  {
    assert CertOk(w.h, w.members, c) && OfficeOk(w.h, w.members, w.nodes, t);
    if c.term < t {
      LeaderCompleteness(w, c, t);
      PrefixTrans(CertPrefix(w.h, c), w.h.offices[t].founding, w.h.offices[t].log);
    }
  }

  /* ---- applying ---- */

  lemma {:induction false} FoldedOn(state: map<string, Value>, a: seq<Entry>, b: seq<Entry>)
    ensures Folded(state, a + b) == Folded(Folded(state, a), b)
    decreases |b|
  {
    if b == [] {
      assert a + b == a;
    } else {
      assert (a + b)[..|a + b| - 1] == a + b[..|b| - 1];
      FoldedOn(state, a, b[..|b| - 1]);
    }
  }

  /** Applying what was committed extends the applied prefix to the commit index, and replays it. */
  lemma {:induction false} AppliesPrefix(s: NodeState)
    requires s.log.snapshotIndex == 0 && 0 <= s.lastApplied <= s.commitIndex <= |s.log.entries|
    requires s.applied == s.log.entries[..s.lastApplied] && s.state == Folded(map[], s.applied)
    ensures var r := ApplyCommitted(s);
            r.lastApplied == s.commitIndex && r.applied == s.log.entries[..s.commitIndex]
            && r.state == Folded(map[], r.applied)
    decreases s.commitIndex - s.lastApplied
  {
    if s.lastApplied < s.commitIndex {
      var one := s.log.entries[s.lastApplied];
      var s' := s.(lastApplied := s.lastApplied + 1, applied := s.applied + [one],
                   state := ApplyCommand(s.state, one.command));
      assert s'.applied[..|s'.applied| - 1] == s.applied;
      assert s'.applied == s.log.entries[..s'.lastApplied];
      AppliesPrefix(s');
    }
  }
}
