/** The changes that matter in a handler, one lemma each: standing, voting, leading, writing, accepting. */
module Actions {
  import opened Basics
  import opened Logs
  import opened Rpc
  import opened NodeSpec
  import opened ClusterSpec
  import opened Invariant
  import opened Keeping

  /** Two states the invariant cannot tell apart, except for timers, indices and what was applied. */
  ghost predicate SameStanding(s: NodeState, s': NodeState) {
    && s'.name == s.name && s'.members == s.members && s'.commitAnyTerm == s.commitAnyTerm
    && s'.term == s.term && s'.votedFor == s.votedFor && s'.log == s.log
    && s'.commitIndex >= 0
  }

  lemma ShapedExtends(x: seq<Entry>, e: Entry)
    requires Shaped(x) && e.index == |x| + 1 && e.term >= LastTermOf(x)
    ensures Shaped(x + [e])
  {
  }

  lemma FlatLast(log: LogState)
    requires log.snapshotIndex == 0 && log.snapshotTerm == NO_TERM
    ensures log.LastIndex() == |log.entries| && log.LastTerm() == LastTermOf(log.entries)
  {
  }

  /* ---- elections ---- */

  ghost function StoodHistory(h: History, t: int, n: Name, x: seq<Entry>): History {
    h.(stood := h.stood[Seat(t, n) := x], cast := h.cast[Seat(t, n) := Ballot(n, x)])
  }

  /** A node stands: a new term, its own vote, the log it has. */
  lemma StandKeeps(w: World, n: Name, s': NodeState) returns (h': History)
    requires Inv(w) && n in w.nodes
    requires var s := w.nodes[n];
             && s'.name == s.name && s'.members == s.members && s'.commitAnyTerm == s.commitAnyTerm
             && s'.commitIndex >= 0 && s'.log == s.log
             && s'.term == s.term + 1 && s'.votedFor == Some(n) && s'.role == Candidate && s'.votes == {n}
    ensures h'.strayed == w.h.strayed
    ensures Extends(w.h, h') && Inv(Moved(w, n, s', h'))
    ensures Seat(s'.term, n) in h'.stood && h'.stood[Seat(s'.term, n)] == s'.log.entries
  {
    var s := w.nodes[n];
    var t, x := s'.term, s.log.entries;
    var seat := Seat(t, n);
    assert NodeOk(w.h, w.members, n, s);
    assert seat in w.h.stood ==> StoodOk(w.h, w.nodes, seat);
    assert seat in w.h.cast ==> CastOk(w.h, w.nodes, seat);
    h' := StoodHistory(w.h, t, n, x);
    forall u | u in w.h.offices ensures OfficeExtends(w.h, h', u) {}
    RootedExtends(w.h, h', x);
    var w' := Moved(w, n, s', h');
    assert StoodOk(h', w'.nodes, seat) && CastOk(h', w'.nodes, seat);
    forall a | a in w.h.acks && a.holder == n
      ensures AckOk(h', w'.nodes, a) && PromiseOk(h', a, seat)
    {
      assert AckOk(w.h, w.nodes, a);
      KeptExtends(w.h, h', a, s.term, s'.term, x, x);
      KeptExtends(w.h, h', a, s.term, s.term, x, x);
    }
    forall a | a in w.h.acks ensures a.term in h'.offices && a.index <= |h'.offices[a.term].log| && PromiseOk(h', a, seat) {
      assert AckOk(w.h, w.nodes, a);
    }
    MovedInv(w, n, s', h');
  }

  /** A node gives its vote for the term, or gives the same one again. */
  lemma VoteKeeps(w: World, n: Name, s': NodeState, m: Message) returns (h': History)
    requires Inv(w) && n in w.nodes
    requires m in w.sent && m.RequestVote? && !m.preVote && m.term == w.nodes[n].term
    requires Grants(w.nodes[n], m)
    requires SameStanding(w.nodes[n].(votedFor := Some(m.sender)), s')
    requires s'.role == w.nodes[n].role && s'.votes == w.nodes[n].votes
             && s'.matchIndex == w.nodes[n].matchIndex && s'.nextIndex == w.nodes[n].nextIndex
    ensures h'.strayed == w.h.strayed
    ensures Extends(w.h, h') && Inv(Moved(w, n, s', h'))
    ensures Seat(s'.term, n) in h'.cast && h'.cast[Seat(s'.term, n)].candidate == m.sender
  {
    var s := w.nodes[n];
    assert NodeOk(w.h, w.members, n, s);
    if s.votedFor.Some? {
      h' := w.h;
      ExtendsSelf(h');
      Settle(w, n, s');
    } else {
      h' := CastVote(w, n, s', m);
    }
  }

  lemma CastVote(w: World, n: Name, s': NodeState, m: Message) returns (h': History)
    requires Inv(w) && n in w.nodes && w.nodes[n].votedFor.None?
    requires m in w.sent && m.RequestVote? && !m.preVote && m.term == w.nodes[n].term
    requires Grants(w.nodes[n], m)
    requires SameStanding(w.nodes[n].(votedFor := Some(m.sender)), s')
    requires s'.role == w.nodes[n].role && s'.votes == w.nodes[n].votes
             && s'.matchIndex == w.nodes[n].matchIndex && s'.nextIndex == w.nodes[n].nextIndex
    ensures h'.strayed == w.h.strayed
    ensures Extends(w.h, h') && Inv(Moved(w, n, s', h'))
    ensures Seat(s'.term, n) in h'.cast && h'.cast[Seat(s'.term, n)].candidate == m.sender
  {
    var s := w.nodes[n];
    var x, seat := s.log.entries, Seat(s.term, n);
    assert NodeOk(w.h, w.members, n, s);
    assert seat in w.h.cast ==> CastOk(w.h, w.nodes, seat);
    h' := w.h.(cast := w.h.cast[seat := Ballot(m.sender, x)]);
    forall u | u in w.h.offices ensures OfficeExtends(w.h, h', u) {}
    RootedExtends(w.h, h', x);
    var w' := Moved(w, n, s', h');
    assert MessageOk(w.h, w.members, m);
    FlatLast(s.log);
    assert CastOk(h', w'.nodes, seat);
    NodeExtends(w.h, h', w.members, n, s);
    forall a | a in w.h.acks
      ensures a.term in h'.offices && a.index <= |h'.offices[a.term].log| && PromiseOk(h', a, seat)
    {
      assert AckOk(w.h, w.nodes, a);
      if a.holder == n && a.term < s.term {
        VotedAfter(w, h', a, seat, x);
      }
    }
    forall a | a in w.h.acks && a.holder == n ensures AckOk(h', w'.nodes, a) {
      assert AckOk(w.h, w.nodes, a);
      KeptExtends(w.h, h', a, s.term, s.term, x, x);
    }
    MovedInv(w, n, s', h');
  }

  /** If a leader of the very term voted in had broken the promise, the vote came too late for it. */
  lemma VotedAfter(w: World, h': History, a: Ack, seat: Seat, x: seq<Entry>)
    requires Inv(w) && a in w.h.acks && seat !in w.h.cast
    requires Extends(w.h, h') && h'.offices == w.h.offices
    requires a.term in w.h.offices && a.index <= |w.h.offices[a.term].log|
    requires Kept(w.h, a, seat.term, x)
    ensures Kept(h', a, seat.term - 1, x) || Late(h', seat)
  {
    if !(Held(w.h, a) <= x) {
      var t :| a.term < t <= seat.term && Broke(w.h, a, t);
      assert Broke(h', a, t);
      if t == seat.term { assert OfficeOk(w.h, w.members, w.nodes, t); }
    }
  }

  /** A candidate with a majority is the only one its term will ever have. */
  lemma OfficeIsFree(w: World, n: Name)
    requires Inv(w) && n in w.nodes && w.nodes[n].role == Candidate
    requires |w.nodes[n].votes| >= w.nodes[n].Quorum()
    ensures w.nodes[n].votes <= Names(w.members)
    ensures w.nodes[n].term !in w.h.offices
  {
    var s := w.nodes[n];
    assert NodeOk(w.h, w.members, n, s);
    forall v | v in s.votes ensures v in Names(w.members) {
      assert CastOk(w.h, w.nodes, Seat(s.term, v));
    }
    assert s.term in w.h.offices ==> OfficeOk(w.h, w.members, w.nodes, s.term);
    if s.term in w.h.offices {
      var v := MajoritiesMeet(w.members, s.votes, w.h.offices[s.term].voters);
    }
  }

  ghost function OfficeHistory(h: History, t: int, office: Office): History
    requires office.log != []
  {
    h.(offices := h.offices[t := office], acks := h.acks + Acks(office.leader, t, |office.log|))
  }

  /** A candidate with a majority takes office and writes its empty entry. */
  lemma LeadKeeps(w: World, n: Name, s': NodeState) returns (h': History)
    requires Inv(w) && n in w.nodes && w.nodes[n].role == Candidate
    requires |w.nodes[n].votes| >= w.nodes[n].Quorum()
    requires var s := w.nodes[n];
             && SameStanding(s.(log := s'.log), s') && s'.role == Leader
             && s'.log == s.log.(entries := s.log.entries + [Entry(s.term, |s.log.entries| + 1, NoOp)])
             && (forall f :: f in s'.matchIndex ==> s'.matchIndex[f] <= 0 || (f == n && s'.matchIndex[f] == |s'.log.entries|))
             && (forall f :: f in s'.nextIndex ==> s'.nextIndex[f] >= 1)
    ensures h'.strayed == w.h.strayed
    ensures Extends(w.h, h') && Inv(Moved(w, n, s', h'))
  {
    var s := w.nodes[n];
    assert NodeOk(w.h, w.members, n, s);
    OfficeIsFree(w, n);
    var x, x', t := s.log.entries, s'.log.entries, s.term;
    assert StoodOk(w.h, w.nodes, Seat(t, n));
    h' := OfficeHistory(w.h, t, Office(n, s.votes, x, x'));
    forall u | u in w.h.offices ensures OfficeExtends(w.h, h', u) {}
    Written(w, h', n, s', x[..], x'[|x|]);
    NamesSize(w.members);
    assert OfficeOk(h', w.members, Moved(w, n, s', h').nodes, t);
    WriterPromises(w, h', n, s');
    MovedInv(w, n, s', h');
  }

  /** A log of office extended by an entry of its own term is in shape and rooted. */
  lemma Written(w: World, h': History, n: Name, s': NodeState, x: seq<Entry>, e: Entry)
    requires Inv(w) && n in w.nodes && x == w.nodes[n].log.entries && Extends(w.h, h')
    requires e.term == w.nodes[n].term == s'.term && e.index == |x| + 1
    requires s'.log.entries == x + [e]
    requires e.term in h'.offices && h'.offices[e.term].log == x + [e]
    ensures Shaped(x + [e]) && Rooted(h', x + [e]) && LastTermOf(x + [e]) <= s'.term
  {
    assert NodeOk(w.h, w.members, n, w.nodes[n]);
    ShapedExtends(x, e);
    RootedExtends(w.h, h', x);
    var x' := x + [e];
    forall i | 0 <= i < |x'| ensures RootedAt(h', x', i) {
      if i < |x| { assert RootedAt(h', x, i) && x'[..i + 1] == x[..i + 1]; }
      else { assert x'[..i + 1] == x'; }
    }
  }

  /** A leader that has just written owes nothing new to anyone. */
  lemma WriterPromises(w: World, h': History, n: Name, s': NodeState)
    requires Inv(w) && n in w.nodes && Extends(w.h, h')
    requires s'.term == w.nodes[n].term && w.nodes[n].log.entries <= s'.log.entries
    requires h'.cast == w.h.cast && h'.certs == w.h.certs
    requires h'.acks == w.h.acks + Acks(n, s'.term, |s'.log.entries|)
    requires s'.term in h'.offices && h'.offices[s'.term].log == s'.log.entries
    ensures NewPromisesOk(w, Moved(w, n, s', h'), n)
  {
    var w' := Moved(w, n, s', h');
    forall a | a in h'.acks && (a in w.h.acks ==> a.holder == n) ensures AckOk(h', w'.nodes, a) {
      if a in w.h.acks {
        assert AckOk(w.h, w.nodes, a);
        KeptExtends(w.h, h', a, s'.term, s'.term, w.nodes[n].log.entries, s'.log.entries);
      }
    }
    forall a, seat | a in h'.acks && a !in w.h.acks && seat in h'.cast
      ensures a.term in h'.offices && a.index <= |h'.offices[a.term].log| && PromiseOk(h', a, seat)
    {
      assert CastOk(w.h, w.nodes, seat);
    }
  }

  /** A leader appends an entry of its own term. */
  lemma WriteKeeps(w: World, n: Name, s': NodeState, command: Command) returns (h': History)
    requires Inv(w) && n in w.nodes && w.nodes[n].role == Leader
    requires var s := w.nodes[n];
             && SameStanding(s.(log := s'.log), s') && s'.role == Leader
             && s'.log == s.log.(entries := s.log.entries + [Entry(s.term, |s.log.entries| + 1, command)])
             && s'.matchIndex == s.matchIndex[n := |s'.log.entries|]
             && s'.nextIndex == s.nextIndex
    ensures h'.strayed == w.h.strayed
    ensures Extends(w.h, h') && Inv(Moved(w, n, s', h'))
  {
    var s := w.nodes[n];
    var x, x', t := s.log.entries, s'.log.entries, s.term;
    assert NodeOk(w.h, w.members, n, s) && OfficeOk(w.h, w.members, w.nodes, t);
    h' := OfficeHistory(w.h, t, w.h.offices[t].(log := x'));
    forall u | u in w.h.offices ensures OfficeExtends(w.h, h', u) {}
    Written(w, h', n, s', x, x'[|x|]);
    assert OfficeOk(h', w.members, Moved(w, n, s', h').nodes, t);
    WriterPromises(w, h', n, s');
    MovedInv(w, n, s', h');
  }

  /* ---- replication ---- */

  /** The log an append asks its receiver to hold: the leader's, as far as the message reaches. */
  ghost function Offered(h: History, m: Message): seq<Entry>
    requires m.Append? && m.term in h.offices
    requires 0 <= m.previousIndex && m.previousIndex + |m.entries| <= |h.offices[m.term].log|
  {
    h.offices[m.term].log[..m.previousIndex + |m.entries|]
  }

  lemma TakeOneFlat(log: LogState, prev: int, one: Entry)
    requires log.snapshotIndex == 0 && 0 <= prev <= |log.entries| && one.index == prev + 1
    ensures TakeOne(log, one) ==
            if prev < |log.entries| && log.entries[prev].term == one.term then log
            else log.(entries := log.entries[..prev] + [one])
  {
    if prev < |log.entries| {
      assert log.Holds(one.index) && log.TermAt(one.index) == log.entries[prev].term;
      assert Truncated(log, one.index).entries == log.entries[..prev];
    } else {
      assert log.entries[..prev] == log.entries;
    }
  }

  /**
  Taking the entries that lead from a shared prefix to `full`: nothing changes if all of it is held,
  otherwise `full` replaces the log. Terms decide, so equal terms must mean equal entries.
  */
  lemma {:induction false} TakeAllFlat(log: LogState, prev: int, entries: seq<Entry>, full: seq<Entry>)
    requires log.snapshotIndex == 0 && 0 <= prev <= |log.entries|
    requires |full| == prev + |entries| && full[..prev] == log.entries[..prev] && full[prev..] == entries
    requires forall i :: prev <= i < |full| ==> full[i].index == i + 1
    requires forall i :: prev <= i < |full| && i < |log.entries| && full[i].term == log.entries[i].term ==>
               full[i] == log.entries[i]
    ensures TakeAll(log, entries) == if full <= log.entries then log else log.(entries := full)
    decreases |entries|
  {
    if entries == [] {
      assert full == full[..prev];
    } else {
      var log' := TakeOne(log, full[prev]);
      assert entries[0] == full[prev] && entries[1..] == full[prev + 1..];
      TakeOneFlat(log, prev, full[prev]);
      assert full[..prev + 1] == full[..prev] + [full[prev]];
      assert log'.entries[..prev + 1] == full[..prev + 1];
      TakeAllFlat(log', prev + 1, entries[1..], full);
      if log' != log {
        assert prev < |log.entries| ==> log.entries[prev] != full[prev];
        if full <= log'.entries { assert full == log'.entries; }
      }
    }
  }

  /** A log that passes the consistency check is level with the leader's up to the position asked about. */
  lemma MatchedLevel(h: History, log: LogState, y: seq<Entry>, prev: int, term: int)
    requires log.snapshotIndex == 0 && Rooted(h, log.entries) && Rooted(h, y)
    requires 0 <= prev <= |y| && term == TermOf(y, prev) && log.Matches(prev, term)
    ensures prev <= |log.entries| && log.entries[..prev] == y[..prev]
  {
    if prev > 0 { RootedAgree(h, log.entries, y, prev - 1); }
  }

  lemma TermsDecide(h: History, x: seq<Entry>, y: seq<Entry>, full: seq<Entry>, i: int)
    requires Rooted(h, x) && Rooted(h, y) && full <= y
    requires 0 <= i < |full| && i < |x| && full[i].term == x[i].term
    ensures full[i] == x[i]
  {
    RootedAgree(h, x, y, i);
    assert x[..i + 1][i] == y[..i + 1][i];
  }

  lemma TakeOffer(h: History, log: LogState, y: seq<Entry>, prev: int, term: int, entries: seq<Entry>)
    requires log.snapshotIndex == 0 && Rooted(h, log.entries) && Rooted(h, y) && Shaped(y)
    requires 0 <= prev && prev + |entries| <= |y| && entries == y[prev..prev + |entries|]
    requires term == TermOf(y, prev) && log.Matches(prev, term)
    ensures var full := y[..prev + |entries|];
            TakeAll(log, entries) == if full <= log.entries then log else log.(entries := full)
  {
    var full := y[..prev + |entries|];
    MatchedLevel(h, log, y, prev, term);
    assert full[..prev] == y[..prev] && full[prev..] == entries;
    forall i | prev <= i < |full| && i < |log.entries| && full[i].term == log.entries[i].term
      ensures full[i] == log.entries[i]
    {
      TermsDecide(h, log.entries, y, full, i);
    }
    TakeAllFlat(log, prev, entries, full);
  }

  /** What a follower of the sender's term holds after an append that it accepts. */
  lemma AcceptedLog(w: World, n: Name, m: Message)
    requires Inv(w) && n in w.nodes && m in w.sent && m.Append? && m.term == w.nodes[n].term
    requires w.nodes[n].log.Matches(m.previousIndex, m.previousTerm)
    ensures MessageOk(w.h, w.members, m)
    ensures m.AppendEnd() == |Offered(w.h, m)|
    ensures w.nodes[n].log.snapshotIndex == 0 && w.nodes[n].log.snapshotTerm == NO_TERM
    ensures TakeAll(w.nodes[n].log, m.entries)
            == if Offered(w.h, m) <= w.nodes[n].log.entries then w.nodes[n].log
               else w.nodes[n].log.(entries := Offered(w.h, m))
  {
    assert NodeOk(w.h, w.members, n, w.nodes[n]);
    OfferEnds(w, m);
    TakeOffer(w.h, w.nodes[n].log, w.h.offices[m.term].log, m.previousIndex, m.previousTerm, m.entries);
  }

  lemma OfferEnds(w: World, m: Message)
    requires Inv(w) && m in w.sent && m.Append?
    ensures MessageOk(w.h, w.members, m)
    ensures Rooted(w.h, w.h.offices[m.term].log) && Shaped(w.h.offices[m.term].log)
    ensures m.AppendEnd() == |Offered(w.h, m)|
  {
    assert MessageOk(w.h, w.members, m) && OfficeOk(w.h, w.members, w.nodes, m.term);
    if m.entries != [] {
      assert m.entries[|m.entries| - 1] == w.h.offices[m.term].log[m.previousIndex + |m.entries| - 1];
    }
  }

  /** An acknowledged prefix survives a later leader's offer, or that leader was elected without it. */
  lemma OfferKeeps(w: World, a: Ack, t: int, upTo: int, x: seq<Entry>, full: seq<Entry>)
    requires Inv(w) && a in w.h.acks && t in w.h.offices && a.term <= t <= upTo
    requires full <= w.h.offices[t].log && !(full <= x)
    requires AckOk(w.h, w.nodes, a) && Kept(w.h, a, upTo, x)
    ensures Kept(w.h, a, upTo, full)
  {
    var p, y, founding := Held(w.h, a), w.h.offices[t].log, w.h.offices[t].founding;
    assert OfficeOk(w.h, w.members, w.nodes, t);
    if p <= x {
      if p <= y {
        PrefixSurvives(p, x, full, y);
      } else {
        if p <= founding { PrefixTrans(p, founding, y); }
        assert Broke(w.h, a, t);
      }
    }
  }

  lemma AcceptedShape(w: World, n: Name, m: Message, x': seq<Entry>)
    requires Inv(w) && n in w.nodes && m in w.sent && m.Append? && m.term == w.nodes[n].term
    requires w.nodes[n].log.Matches(m.previousIndex, m.previousTerm)
    requires x' == TakeAll(w.nodes[n].log, m.entries).entries
    ensures Shaped(x') && LastTermOf(x') <= m.term && Rooted(w.h, x')
  {
    assert NodeOk(w.h, w.members, n, w.nodes[n]);
    AcceptedLog(w, n, m);
    if x' != w.nodes[n].log.entries {
      var y := w.h.offices[m.term].log;
      assert OfficeOk(w.h, w.members, w.nodes, m.term);
      assert x' == Offered(w.h, m);
      RootedPrefix(w.h, x', y);
      if x' != [] {
        assert x'[|x'| - 1] == y[|x'| - 1];
        OfficeTerms(w, m.term, |x'| - 1);
      }
    }
  }

  /** Having accepted an append, a node holds what it held of every earlier term, or may be excused. */
  lemma AcceptedPromises(w: World, n: Name, s': NodeState, m: Message, h': History)
    requires Inv(w) && n in w.nodes && m in w.sent && m.Append? && m.term == w.nodes[n].term
    requires w.nodes[n].log.Matches(m.previousIndex, m.previousTerm)
    requires s'.term == m.term && s'.log == TakeAll(w.nodes[n].log, m.entries)
    requires MessageOk(w.h, w.members, m)
    requires h' == w.h.(acks := w.h.acks + Acks(n, m.term, |Offered(w.h, m)|), strayed := h'.strayed) && Extends(w.h, h')
    ensures NewPromisesOk(w, Moved(w, n, s', h'), n)
  {
    AcceptedLog(w, n, m);
    var t, x, x', full := m.term, w.nodes[n].log.entries, s'.log.entries, Offered(w.h, m);
    var w' := Moved(w, n, s', h');
    forall a | a in h'.acks && (a in w.h.acks ==> a.holder == n) ensures AckOk(h', w'.nodes, a) {
      if a in w.h.acks {
        assert AckOk(w.h, w.nodes, a);
        if x' != x { OfferKeeps(w, a, t, t, x, full); }
        KeptExtends(w.h, h', a, t, t, x', x');
      } else {
        PrefixTrans(Held(h', a), full, x');
      }
    }
    forall a, seat | a in h'.acks && a !in w.h.acks && seat in h'.cast
      ensures a.term in h'.offices && a.index <= |h'.offices[a.term].log| && PromiseOk(h', a, seat)
    {
      assert CastOk(w.h, w.nodes, seat);
    }
  }

  /** A follower takes what an append of its term carries, and is recorded as holding it. */
  lemma AcceptKeeps(w: World, n: Name, s': NodeState, m: Message, strayed: bool) returns (h': History)
    requires w.h.strayed ==> strayed
    requires Inv(w) && n in w.nodes && w.nodes[n].role == Follower
    requires m in w.sent && m.Append? && m.term == w.nodes[n].term
    requires w.nodes[n].log.Matches(m.previousIndex, m.previousTerm)
    requires SameStanding(w.nodes[n].(log := TakeAll(w.nodes[n].log, m.entries)), s') && s'.role == Follower
    ensures Extends(w.h, h') && Inv(Moved(w, n, s', h'))
    ensures m.AppendEnd() >= 0 && Acks(n, m.term, m.AppendEnd()) <= h'.acks
    ensures h'.offices == w.h.offices && h'.certs == w.h.certs && h'.strayed == strayed
  {
    AcceptedLog(w, n, m);
    h' := w.h.(acks := w.h.acks + Acks(n, m.term, |Offered(w.h, m)|), strayed := strayed);
    forall u | u in w.h.offices ensures OfficeExtends(w.h, h', u) {}
    AcceptedShape(w, n, m, s'.log.entries);
    RootedExtends(w.h, h', s'.log.entries);
    AcceptedPromises(w, n, s', m, h');
    assert NodeOk(w.h, w.members, n, w.nodes[n]);
    MovedInv(w, n, s', h');
  }

  /** No entry of a leader's log is from a later term. */
  lemma OfficeTerms(w: World, t: int, i: int)
    requires Inv(w) && t in w.h.offices && 0 <= i < |w.h.offices[t].log|
    ensures w.h.offices[t].log[i].term <= t
    ensures i < |w.h.offices[t].founding| ==> w.h.offices[t].log[i].term < t
  {
    assert OfficeOk(w.h, w.members, w.nodes, t);
    var office := w.h.offices[t];
    var f := office.founding;
    if i < |f| {
      assert StoodOk(w.h, w.nodes, Seat(t, office.leader));
      assert office.log[i] == f[i];
      assert f[i].term <= f[|f| - 1].term;
    }
  }

  /** A leader records what a majority holds of an entry of its own term. */
  lemma CertifyKeeps(w: World, n: Name, index: int) returns (h': History)
    requires Inv(w) && n in w.nodes && w.nodes[n].role == Leader
    requires 0 < index <= |w.nodes[n].log.entries| && w.nodes[n].log.entries[index - 1].term == w.nodes[n].term
    requires var s := w.nodes[n]; |Holders(s.members, s.matchIndex, index)| >= s.Quorum()
    ensures Extends(w.h, h') && Inv(w.(h := h'))
    ensures h'.offices == w.h.offices && h' == w.h.(certs := h'.certs)
    ensures exists q :: Cert(w.nodes[n].term, index, q) in h'.certs
  {
    var s := w.nodes[n];
    assert NodeOk(w.h, w.members, n, s) && OfficeOk(w.h, w.members, w.nodes, s.term);
    var q := Holders(s.members, s.matchIndex, index);
    var cert := Cert(s.term, index, q);
    h' := w.h.(certs := w.h.certs + {cert});
    forall u | u in w.h.offices ensures OfficeExtends(w.h, h', u) {}
    forall v | v in q ensures Ack(v, s.term, index) in h'.acks {
      assert Ack(v, s.term, index) in Acks(v, s.term, s.matchIndex[v]);
    }
    assert CertOk(h', w.members, cert);
    NodeExtends(w.h, h', w.members, n, s);
    forall a | a in w.h.acks && a.holder == n ensures AckOk(h', w.nodes, a) {
      assert AckOk(w.h, w.nodes, a);
      KeptExtends(w.h, h', a, s.term, s.term, s.log.entries, s.log.entries);
    }
    assert w.nodes[n := s] == w.nodes;
    MovedInv(w, n, s, h');
  }

  /** Messages that are true of the record may be put on the wire. */
  lemma SendKeeps(w: World, messages: set<Message>)
    requires Inv(w) && forall m :: m in messages ==> MessageOk(w.h, w.members, m)
    ensures Inv(w.(sent := w.sent + messages))
  {
  }
}
