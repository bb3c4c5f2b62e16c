/** Each small change a handler makes keeps the invariant, given the matching growth of the record. */
module Keeping {
  import opened Basics
  import opened Logs
  import opened Rpc
  import opened NodeSpec
  import opened ClusterSpec
  import opened Invariant

  /* ---- sequences and quorums ---- */

  /** Two rooted logs that agree on the term at a position agree on everything up to it. */
  lemma RootedAgree(h: History, x: seq<Entry>, y: seq<Entry>, i: int)
    requires Rooted(h, x) && Rooted(h, y)
    requires 0 <= i < |x| && i < |y| && x[i].term == y[i].term
    ensures x[..i + 1] == y[..i + 1]
  {
    assert RootedAt(h, x, i) && RootedAt(h, y, i);
  }

  lemma RootedPrefix(h: History, x: seq<Entry>, y: seq<Entry>)
    requires Rooted(h, y) && x <= y
    ensures Rooted(h, x)
  {
    forall i | 0 <= i < |x| ensures RootedAt(h, x, i) {
      assert RootedAt(h, y, i) && x[..i + 1] == y[..i + 1];
    }
  }

  lemma RootedExtends(h: History, h': History, x: seq<Entry>)
    requires Rooted(h, x) && Extends(h, h')
    ensures Rooted(h', x)
  {
    forall i | 0 <= i < |x| ensures RootedAt(h', x, i) {
      assert RootedAt(h, x, i) && OfficeExtends(h, h', x[i].term);
      PrefixTrans(x[..i + 1], h.offices[x[i].term].log, h'.offices[x[i].term].log);
    }
  }

  lemma PrefixesCompare<T>(x: seq<T>, y: seq<T>, z: seq<T>)
    requires x <= z && y <= z
    ensures x <= y || y <= x
    ensures |x| <= |y| ==> x <= y
  {
    if |x| <= |y| {
      assert x == z[..|x|] == z[..|y|][..|x|];
    } else {
      assert y == z[..|y|] == z[..|x|][..|y|];
    }
  }

  lemma PrefixTrans<T>(x: seq<T>, y: seq<T>, z: seq<T>)
    requires x <= y && y <= z
    ensures x <= z
  {
    assert x == y[..|x|] == z[..|y|][..|x|];
  }

  /** If `full` had to change `x`, then every prefix of `x` on the way to `y` is inside `full`. */
  lemma PrefixSurvives<T>(p: seq<T>, x: seq<T>, full: seq<T>, y: seq<T>)
    requires p <= x && p <= y && full <= y && !(full <= x)
    ensures p <= full
  {
    PrefixesCompare(p, full, y);
    if full <= p { PrefixTrans(full, p, x); }
  }

  /** How many leading entries two logs share. */
  function Agreement(x: seq<Entry>, y: seq<Entry>): (k: nat)
    ensures k <= |x| && k <= |y| && x[..k] == y[..k]
    ensures k < |x| && k < |y| ==> x[k] != y[k]
  {
    if x == [] || y == [] || x[0] != y[0] then 0
    else
      var k := Agreement(x[1..], y[1..]);
      assert x[..k + 1] == [x[0]] + x[1..][..k] == y[..k + 1];
      k + 1
  }

  lemma AgreementAtLeast(x: seq<Entry>, y: seq<Entry>, k: nat)
    requires k <= |x| && k <= |y| && x[..k] == y[..k]
    ensures k <= Agreement(x, y)
  {
    var a := Agreement(x, y);
    assert forall i :: 0 <= i < k ==> x[i] == x[..k][i] == y[..k][i] == y[i];
  }

  lemma SubsetSize<T>(a: set<T>, b: set<T>)
    requires a <= b
    ensures |a| <= |b|
  {
    assert b == a + (b - a);
  }

  lemma NamesSize(members: seq<Name>)
    requires Distinct(members)
    ensures |Names(members)| == |members|
  {
    if members != [] {
      var rest := members[1..];
      assert Names(members) == {members[0]} + Names(rest) by {
        assert members == [members[0]] + rest;
      }
      assert members[0] !in Names(rest);
      NamesSize(rest);
    }
  }

  /** Any two majorities share a member. */
  lemma MajoritiesMeet(members: seq<Name>, a: set<Name>, b: set<Name>) returns (v: Name)
    requires Distinct(members) && a <= Names(members) && b <= Names(members)
    requires 2 * |a| > |members| && 2 * |b| > |members|
    ensures v in a && v in b
  {
    NamesSize(members);
    SubsetSize(a + b, Names(members));
    assert |a + b| + |a * b| == |a| + |b|;
    assert a * b != {};
    v :| v in a * b;
  }

  /* ---- what growth of the record leaves standing ---- */

  lemma KeptExtends(h: History, h': History, a: Ack, upTo: int, upTo': int, x: seq<Entry>, x': seq<Entry>)
    requires Extends(h, h') && a.term in h.offices && a.index <= |h.offices[a.term].log|
    requires Kept(h, a, upTo, x) && upTo <= upTo' && x <= x'
    ensures a.term in h'.offices && a.index <= |h'.offices[a.term].log|
    ensures Held(h', a) == Held(h, a)
    ensures Kept(h', a, upTo', x')
  {
    assert OfficeExtends(h, h', a.term);
    if Held(h, a) <= x {
      PrefixTrans(Held(h, a), x, x');
    } else {
      var t :| a.term < t <= upTo && Broke(h, a, t);
      assert OfficeExtends(h, h', t);
      assert Broke(h', a, t);
    }
  }

  lemma MessageExtends(h: History, h': History, members: seq<Name>, m: Message)
    requires Extends(h, h') && MessageOk(h, members, m)
    ensures MessageOk(h', members, m)
  {
    if m.Append? {
      assert OfficeExtends(h, h', m.term);
      var x, x' := h.offices[m.term].log, h'.offices[m.term].log;
      assert x == x'[..|x|];
      assert x[m.previousIndex..m.previousIndex + |m.entries|] == x'[m.previousIndex..m.previousIndex + |m.entries|];
    }
  }

  /** A node that did not move keeps its part, unless someone else wrote in its term of office. */
  lemma NodeExtends(h: History, h': History, members: seq<Name>, n: Name, s: NodeState)
    requires Extends(h, h') && NodeOk(h, members, n, s)
    requires s.role == Leader ==> s.term in h'.offices && h'.offices[s.term].log == h.offices[s.term].log
    ensures NodeOk(h', members, n, s)
  {
    RootedExtends(h, h', s.log.entries);
    if s.role == Leader {
      assert OfficeExtends(h, h', s.term);
    }
  }

  lemma StoodExtends(h: History, h': History, nodes: map<Name, NodeState>, nodes': map<Name, NodeState>, seat: Seat)
    requires Extends(h, h') && seat in h.stood && StoodOk(h, nodes, seat)
    requires seat.who in nodes' && nodes'[seat.who].term >= nodes[seat.who].term
    ensures StoodOk(h', nodes', seat)
  {
    RootedExtends(h, h', h.stood[seat]);
  }

  lemma CastExtends(h: History, h': History, nodes: map<Name, NodeState>, nodes': map<Name, NodeState>, seat: Seat)
    requires Extends(h, h') && seat in h.cast && CastOk(h, nodes, seat)
    requires seat.who in nodes' && nodes'[seat.who].term >= nodes[seat.who].term
    requires nodes'[seat.who].term == seat.term ==> nodes'[seat.who].votedFor == nodes[seat.who].votedFor
    ensures CastOk(h', nodes', seat)
  {
    RootedExtends(h, h', h.cast[seat].log);
  }

  lemma OfficeStays(h: History, h': History, members: seq<Name>, nodes: map<Name, NodeState>,
                    nodes': map<Name, NodeState>, t: int)
    requires Extends(h, h') && t in h.offices && OfficeOk(h, members, nodes, t)
    requires t in h'.offices && h'.offices[t] == h.offices[t]
    requires var l := h.offices[t].leader;
             l in nodes' && nodes'[l].term >= nodes[l].term
             && (nodes'[l].term == t ==> nodes'[l].role == nodes[l].role || nodes'[l].role != Candidate)
    ensures OfficeOk(h', members, nodes', t)
  {
    RootedExtends(h, h', h.offices[t].log);
  }

  lemma CertExtends(h: History, h': History, members: seq<Name>, c: Cert)
    requires Extends(h, h') && CertOk(h, members, c)
    ensures CertOk(h', members, c)
  {
    assert OfficeExtends(h, h', c.term);
  }

  lemma PromiseExtends(h: History, h': History, a: Ack, seat: Seat)
    requires Extends(h, h') && a.term in h.offices && a.index <= |h.offices[a.term].log| && seat in h.cast
    requires PromiseOk(h, a, seat)
    ensures a.term in h'.offices && a.index <= |h'.offices[a.term].log| && seat in h'.cast
    ensures PromiseOk(h', a, seat)
  {
    assert OfficeExtends(h, h', a.term);
    if a.holder == seat.who && a.term < seat.term {
      if Late(h, seat) {
        assert OfficeExtends(h, h', seat.term);
      } else {
        KeptExtends(h, h', a, seat.term - 1, seat.term - 1, h.cast[seat].log, h'.cast[seat].log);
      }
    }
  }

  /* ---- one node moves and the record grows ---- */

  ghost function Moved(w: World, n: Name, s: NodeState, h: History): World {
    w.(nodes := w.nodes[n := s], h := h)
  }

  /** What a single node may do at all: its term and its vote are never taken back. */
  ghost predicate Forward(s: NodeState, s': NodeState) {
    && s'.term >= s.term
    && (s'.term == s.term ==>
          && (s.votedFor.Some? ==> s'.votedFor == s.votedFor)
          && (s'.role == Candidate ==> s.role == Candidate))
  }

  /** Only `n` writes to a log of office. */
  ghost predicate OnlyWriter(h: History, h': History, n: Name) {
    forall t :: t in h.offices && t in h'.offices && h'.offices[t] != h.offices[t] ==> h.offices[t].leader == n
  }

  ghost predicate NewRecordOk(w: World, w': World) {
    && (forall seat {:trigger StoodOk(w'.h, w'.nodes, seat)} :: seat in w'.h.stood && seat !in w.h.stood ==> StoodOk(w'.h, w'.nodes, seat))
    && (forall seat {:trigger CastOk(w'.h, w'.nodes, seat)} :: seat in w'.h.cast && seat !in w.h.cast ==> CastOk(w'.h, w'.nodes, seat))
    && (forall t {:trigger OfficeOk(w'.h, w'.members, w'.nodes, t)} :: t in w'.h.offices && (t in w.h.offices ==> w.h.offices[t] != w'.h.offices[t]) ==>
          OfficeOk(w'.h, w'.members, w'.nodes, t))
  }

  ghost predicate NewPromisesOk(w: World, w': World, n: Name) {
    && (forall a {:trigger AckOk(w'.h, w'.nodes, a)} :: a in w'.h.acks && (a in w.h.acks ==> a.holder == n) ==> AckOk(w'.h, w'.nodes, a))
    && (forall a, seat {:trigger PromiseOk(w'.h, a, seat)} :: a in w'.h.acks && seat in w'.h.cast && (a !in w.h.acks || seat !in w.h.cast) ==>
          a.term in w'.h.offices && a.index <= |w'.h.offices[a.term].log| && PromiseOk(w'.h, a, seat))
    && (forall c {:trigger CertOk(w'.h, w'.members, c)} :: c in w'.h.certs && c !in w.h.certs ==> CertOk(w'.h, w'.members, c))
  }

  lemma MovedRecord(w: World, n: Name, s': NodeState, h': History)
    requires Inv(w) && n in w.nodes
    requires Extends(w.h, h') && Forward(w.nodes[n], s')
    requires NewRecordOk(w, Moved(w, n, s', h'))
    ensures RecordOk(Moved(w, n, s', h'))
  {
    var w' := Moved(w, n, s', h');
    forall seat | seat in h'.stood ensures StoodOk(h', w'.nodes, seat) {
      assert seat in w.h.stood ==> StoodOk(w.h, w.nodes, seat);
      if seat in w.h.stood { StoodExtends(w.h, h', w.nodes, w'.nodes, seat); }
    }
    forall seat | seat in h'.cast ensures CastOk(h', w'.nodes, seat) {
      assert seat in w.h.cast ==> CastOk(w.h, w.nodes, seat);
      if seat in w.h.cast { CastExtends(w.h, h', w.nodes, w'.nodes, seat); }
    }
    forall t | t in h'.offices ensures OfficeOk(h', w.members, w'.nodes, t) {
      if t in w.h.offices && w.h.offices[t] == h'.offices[t] {
        assert OfficeOk(w.h, w.members, w.nodes, t);
        OfficeStays(w.h, h', w.members, w.nodes, w'.nodes, t);
      }
    }
  }

  lemma MovedPromises(w: World, n: Name, s': NodeState, h': History)
    requires Inv(w) && n in w.nodes && Extends(w.h, h') && NewPromisesOk(w, Moved(w, n, s', h'), n)
    ensures PromisesOk(Moved(w, n, s', h'))
  {
    var w' := Moved(w, n, s', h');
    forall a | a in h'.acks ensures AckOk(h', w'.nodes, a) {
      if a in w.h.acks && a.holder != n {
        assert AckOk(w.h, w.nodes, a);
        assert OfficeExtends(w.h, h', a.term);
        var s := w.nodes[a.holder];
        KeptExtends(w.h, h', a, s.term, s.term, s.log.entries, s.log.entries);
      }
    }
    forall a, seat | a in h'.acks && seat in h'.cast ensures AckOk(h', w'.nodes, a) && PromiseOk(h', a, seat) {
      if a in w.h.acks && seat in w.h.cast {
        assert AckOk(w.h, w.nodes, a);
        assert PromiseOk(w.h, a, seat);
        PromiseExtends(w.h, h', a, seat);
      }
    }
    forall c | c in h'.certs ensures CertOk(h', w.members, c) {
      assert c in w.h.certs ==> CertOk(w.h, w.members, c);
      if c in w.h.certs { CertExtends(w.h, h', w.members, c); }
    }
  }

  /** The invariant of the new world, from the new parts alone. */
  lemma MovedInv(w: World, n: Name, s': NodeState, h': History)
    requires Inv(w) && n in w.nodes
    requires Extends(w.h, h') && OnlyWriter(w.h, h', n) && Forward(w.nodes[n], s')
    requires NodeOk(h', w.members, n, s')
    requires NewRecordOk(w, Moved(w, n, s', h')) && NewPromisesOk(w, Moved(w, n, s', h'), n)
    ensures Inv(Moved(w, n, s', h'))
  {
    var w' := Moved(w, n, s', h');
    MovedRecord(w, n, s', h');
    MovedPromises(w, n, s', h');
    forall k | k in w'.nodes ensures NodeOk(h', w.members, k, w'.nodes[k]) {
      if k != n {
        assert NodeOk(w.h, w.members, k, w.nodes[k]);
        if w.nodes[k].role == Leader { assert OfficeExtends(w.h, h', w.nodes[k].term); }
        NodeExtends(w.h, h', w.members, k, w.nodes[k]);
      }
    }
    forall m | m in w.sent ensures MessageOk(h', w.members, m) {
      assert MessageOk(w.h, w.members, m);
      MessageExtends(w.h, h', w.members, m);
    }
    assert w'.nodes.Keys == w.nodes.Keys;
  }

  lemma ExtendsSelf(h: History)
    ensures Extends(h, h)
  {
    forall t | t in h.offices ensures OfficeExtends(h, h, t) {}
  }

  lemma ExtendsTrans(h: History, h': History, h'': History)
    requires Extends(h, h') && Extends(h', h'')
    ensures Extends(h, h'')
  {
    forall t | t in h.offices ensures OfficeExtends(h, h'', t) {
      assert OfficeExtends(h, h', t) && OfficeExtends(h', h'', t);
    }
  }

  /** A node that changes without writing and without the record growing. */
  lemma Settle(w: World, n: Name, s': NodeState)
    requires Inv(w) && n in w.nodes && Forward(w.nodes[n], s')
    requires s'.log.entries == w.nodes[n].log.entries
    requires NodeOk(w.h, w.members, n, s')
    ensures Inv(Moved(w, n, s', w.h))
  {
    ExtendsSelf(w.h);
    var w' := Moved(w, n, s', w.h);
    forall a | a in w.h.acks && a.holder == n ensures AckOk(w.h, w'.nodes, a) {
      assert AckOk(w.h, w.nodes, a);
      var s := w.nodes[n];
      KeptExtends(w.h, w.h, a, s.term, s'.term, s.log.entries, s'.log.entries);
    }
    MovedInv(w, n, s', w.h);
  }
}
