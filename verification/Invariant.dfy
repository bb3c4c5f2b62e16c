/**
What every reachable cluster satisfies, over a record of the run that the code does not keep: who
stood and with what log, how every vote was cast, what each term's leader has written, which
prefixes were held by whom in which term, and which indices were committed by which majority.
*/
module Invariant {
  import opened Basics
  import opened Logs
  import opened Rpc
  import opened NodeSpec
  import opened ClusterSpec

  datatype Seat = Seat(term: int, who: Name)

  datatype Ballot = Ballot(candidate: Name, log: seq<Entry>)

  /** A term that has a leader: who elected it, its log when it stood, and its log as written so far. */
  datatype Office = Office(leader: Name, voters: set<Name>, founding: seq<Entry>, log: seq<Entry>)

  /** While in `term`, `holder` held the first `index` entries of that term's leader's log. */
  datatype Ack = Ack(holder: Name, term: int, index: nat)

  /** Holding a prefix is holding every shorter one. */
  ghost function Acks(holder: Name, term: int, upTo: int): set<Ack> {
    set j | 0 <= j <= upTo :: Ack(holder, term, j)
  }

  /** The leader of `term` committed `index` because every node of `quorum` held it. */
  datatype Cert = Cert(term: int, index: nat, quorum: set<Name>)

  datatype History = History(
    stood: map<Seat, seq<Entry>>,
    cast: map<Seat, Ballot>,
    offices: map<int, Office>,
    acks: set<Ack>,
    certs: set<Cert>,
    strayed: bool)

  datatype World = World(members: seq<Name>, nodes: map<Name, NodeState>, sent: set<Message>, h: History)

  /* ---- logs ---- */

  ghost predicate Shaped(x: seq<Entry>) {
    && (forall i :: 0 <= i < |x| ==> x[i].index == i + 1)
    && (forall i, j :: 0 <= i < j < |x| ==> x[i].term <= x[j].term)
  }

  function LastTermOf(x: seq<Entry>): nat { if x == [] then NO_TERM else x[|x| - 1].term }

  function TermOf(x: seq<Entry>, index: int): int {
    if 1 <= index <= |x| then x[index - 1].term else NO_TERM
  }

  /** Every entry, with all below it, is what the leader of its term wrote. */
  ghost predicate Rooted(h: History, x: seq<Entry>) {
    forall i {:trigger RootedAt(h, x, i)} :: 0 <= i < |x| ==> RootedAt(h, x, i)
  }

  ghost predicate RootedAt(h: History, x: seq<Entry>, i: int)
    requires 0 <= i < |x|
  {
    x[i].term in h.offices && x[..i + 1] <= h.offices[x[i].term].log
  }

  predicate UpToDate(mine: seq<Entry>, lastIndex: int, lastTerm: int) {
    if lastTerm != LastTermOf(mine) then lastTerm > LastTermOf(mine) else lastIndex >= |mine|
  }

  /* ---- nodes ---- */

  ghost predicate NodeOk(h: History, members: seq<Name>, n: Name, s: NodeState) {
    && s.name == n && s.members == members && !s.commitAnyTerm
    && s.commitIndex >= 0
    && s.log.snapshotIndex == 0 && s.log.snapshotTerm == NO_TERM
    && Shaped(s.log.entries) && LastTermOf(s.log.entries) <= s.term
    && Rooted(h, s.log.entries)
    && (s.votedFor.Some? ==> Seat(s.term, n) in h.cast && h.cast[Seat(s.term, n)].candidate == s.votedFor.value)
    && (s.role == Candidate ==> CandidateOk(h, n, s))
    && (s.role == Leader ==> LeaderOk(h, n, s))
  }

  ghost predicate CandidateOk(h: History, n: Name, s: NodeState) {
    && Seat(s.term, n) in h.stood && h.stood[Seat(s.term, n)] == s.log.entries
    && (forall v :: v in s.votes ==> Seat(s.term, v) in h.cast && h.cast[Seat(s.term, v)].candidate == n)
  }

  ghost predicate LeaderOk(h: History, n: Name, s: NodeState) {
    && s.term in h.offices && h.offices[s.term].leader == n && h.offices[s.term].log == s.log.entries
    && Acks(n, s.term, |s.log.entries|) <= h.acks
    && (forall f :: f in s.matchIndex && s.matchIndex[f] > 0 ==> Acks(f, s.term, s.matchIndex[f]) <= h.acks)
    && (forall f :: f in s.nextIndex ==> s.nextIndex[f] >= 1)
  }

  /* ---- the record ---- */

  ghost predicate StoodOk(h: History, nodes: map<Name, NodeState>, seat: Seat)
    requires seat in h.stood
  {
    && seat.who in nodes && nodes[seat.who].term >= seat.term
    && Shaped(h.stood[seat]) && LastTermOf(h.stood[seat]) < seat.term
    && Rooted(h, h.stood[seat])
  }

  ghost predicate CastOk(h: History, nodes: map<Name, NodeState>, seat: Seat)
    requires seat in h.cast
  {
    var ballot := h.cast[seat];
    && seat.who in nodes && nodes[seat.who].term >= seat.term
    && (nodes[seat.who].term == seat.term ==> nodes[seat.who].votedFor == Some(ballot.candidate))
    && Shaped(ballot.log) && Rooted(h, ballot.log)
    && Seat(seat.term, ballot.candidate) in h.stood
    && var theirs := h.stood[Seat(seat.term, ballot.candidate)];
       UpToDate(ballot.log, |theirs|, LastTermOf(theirs))
  }

  ghost predicate OfficeOk(h: History, members: seq<Name>, nodes: map<Name, NodeState>, t: int)
    requires t in h.offices
  {
    var office := h.offices[t];
    && t >= 1
    && office.leader in nodes && nodes[office.leader].term >= t
    && (nodes[office.leader].term == t ==> nodes[office.leader].role != Candidate)
    && Seat(t, office.leader) in h.stood && h.stood[Seat(t, office.leader)] == office.founding
    && office.voters <= Names(members) && 2 * |office.voters| > |members|
    && (forall v :: v in office.voters ==> Seat(t, v) in h.cast && h.cast[Seat(t, v)].candidate == office.leader)
    && office.founding < office.log
    && Shaped(office.log) && Rooted(h, office.log)
    && (forall i :: |office.founding| <= i < |office.log| ==> office.log[i].term == t)
  }

  ghost function Held(h: History, a: Ack): seq<Entry>
    requires a.term in h.offices && a.index <= |h.offices[a.term].log|
  {
    h.offices[a.term].log[..a.index]
  }

  /** The leader of `t` was elected without the acknowledged prefix. */
  ghost predicate Broke(h: History, a: Ack, t: int)
    requires a.term in h.offices && a.index <= |h.offices[a.term].log|
  {
    t in h.offices && !(Held(h, a) <= h.offices[t].founding)
  }

  /** `x` still holds the acknowledged prefix, or a leader up to `upTo` was elected without it. */
  ghost predicate Kept(h: History, a: Ack, upTo: int, x: seq<Entry>)
    requires a.term in h.offices && a.index <= |h.offices[a.term].log|
  {
    Held(h, a) <= x || exists t :: a.term < t <= upTo && Broke(h, a, t)
  }

  ghost predicate AckOk(h: History, nodes: map<Name, NodeState>, a: Ack) {
    && a.term in h.offices && a.index <= |h.offices[a.term].log|
    && a.holder in nodes && nodes[a.holder].term >= a.term
    && Kept(h, a, nodes[a.holder].term, nodes[a.holder].log.entries)
  }

  /** A vote cast too late to elect anyone: the term already had its leader, elected by others. */
  ghost predicate Late(h: History, seat: Seat) {
    seat.term in h.offices && seat.who !in h.offices[seat.term].voters
  }

  /** What a voter held in an earlier term it still held when it voted, with the same exception. */
  ghost predicate PromiseOk(h: History, a: Ack, seat: Seat)
    requires a.term in h.offices && a.index <= |h.offices[a.term].log| && seat in h.cast
  {
    a.holder == seat.who && a.term < seat.term ==>
      Kept(h, a, seat.term - 1, h.cast[seat].log) || Late(h, seat)
  }

  ghost predicate CertOk(h: History, members: seq<Name>, c: Cert) {
    && c.term in h.offices && 0 < c.index <= |h.offices[c.term].log|
    && h.offices[c.term].log[c.index - 1].term == c.term
    && c.quorum <= Names(members) && 2 * |c.quorum| > |members|
    && (forall v :: v in c.quorum ==> Ack(v, c.term, c.index) in h.acks)
  }

  ghost predicate MessageOk(h: History, members: seq<Name>, m: Message) {
    && m.sender in members && m.recipient in members
    && match m
       case RequestVote(sender, _, term, lastIndex, lastTerm, preVote) =>
         preVote || (Seat(term, sender) in h.stood
                     && lastIndex == |h.stood[Seat(term, sender)]|
                     && lastTerm == LastTermOf(h.stood[Seat(term, sender)]))
       case Vote(sender, recipient, term, granted, preVote) =>
         granted && !preVote ==> Seat(term, sender) in h.cast && h.cast[Seat(term, sender)].candidate == recipient
       case Append(sender, _, term, previousIndex, previousTerm, entries, commitIndex) =>
         && commitIndex >= 0
         && term in h.offices && h.offices[term].leader == sender
         && 0 <= previousIndex && previousIndex + |entries| <= |h.offices[term].log|
         && entries == h.offices[term].log[previousIndex..previousIndex + |entries|]
         && previousTerm == TermOf(h.offices[term].log, previousIndex)
       case Appended(sender, _, term, success, matchIndex, _, _) =>
         success ==> matchIndex >= 0 && Acks(sender, term, matchIndex) <= h.acks
       case _ => false
  }

  ghost predicate RecordOk(w: World) {
    && (forall seat {:trigger StoodOk(w.h, w.nodes, seat)} :: seat in w.h.stood ==> StoodOk(w.h, w.nodes, seat))
    && (forall seat {:trigger CastOk(w.h, w.nodes, seat)} :: seat in w.h.cast ==> CastOk(w.h, w.nodes, seat))
    && (forall t {:trigger OfficeOk(w.h, w.members, w.nodes, t)} :: t in w.h.offices ==> OfficeOk(w.h, w.members, w.nodes, t))
  }

  ghost predicate PromisesOk(w: World) {
    && (forall a {:trigger AckOk(w.h, w.nodes, a)} :: a in w.h.acks ==> AckOk(w.h, w.nodes, a))
    && (forall a, seat {:trigger PromiseOk(w.h, a, seat)} :: a in w.h.acks && seat in w.h.cast ==>
          AckOk(w.h, w.nodes, a) && PromiseOk(w.h, a, seat))
    && (forall c {:trigger CertOk(w.h, w.members, c)} :: c in w.h.certs ==> CertOk(w.h, w.members, c))
  }

  ghost predicate Inv(w: World) {
    && Distinct(w.members) && w.nodes.Keys == Names(w.members)
    && (forall n {:trigger NodeOk(w.h, w.members, n, w.nodes[n])} :: n in w.nodes ==> NodeOk(w.h, w.members, n, w.nodes[n]))
    && RecordOk(w)
    && PromisesOk(w)
    && (forall m {:trigger MessageOk(w.h, w.members, m)} :: m in w.sent ==> MessageOk(w.h, w.members, m))
  }

  /** The record only grows: nothing in it is ever forgotten or rewritten. */
  ghost predicate Extends(h: History, h': History) {
    && (forall seat :: seat in h.stood ==> seat in h'.stood && h'.stood[seat] == h.stood[seat])
    && (forall seat :: seat in h.cast ==> seat in h'.cast && h'.cast[seat] == h.cast[seat])
    && (forall t {:trigger OfficeExtends(h, h', t)} :: t in h.offices ==> OfficeExtends(h, h', t))
    && h.acks <= h'.acks && h.certs <= h'.certs && (h.strayed ==> h'.strayed)
  }

  ghost predicate OfficeExtends(h: History, h': History, t: int)
    requires t in h.offices
  {
    && t in h'.offices && h.offices[t].log <= h'.offices[t].log
    && h'.offices[t] == h.offices[t].(log := h'.offices[t].log)
  }
}
