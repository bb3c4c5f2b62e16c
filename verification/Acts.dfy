/**
What the nodes of a trial do (rsm/timing.py), act by act: a trial hands them messages, and times them by its own
clocks rather than theirs. Played from the start, the acts of a trial lead to its nodes and say all that was sent.
*/
module Acts {
  import opened Basics
  import opened Rpc
  import opened NodeSpec

  /** Hearing a message, sending every follower what it misses, standing, or letting a tick go by. */
  datatype Act =
    | Hears(message: Message, span: int)
    | Beats(node: Name, now: int)
    | Stands(node: Name, now: int, span: int)
    | Waits(node: Name, now: int)

  type Nodes = map<Name, NodeState>

  /** The nodes after an act and what is said in it, unless it raises. */
  function Played(nodes: Nodes, a: Act): Option<(Nodes, seq<Message>)> {
    match a
    case Hears(m, span) =>
      if m.recipient !in nodes || nodes[m.recipient].name != m.recipient then None
      else
        (match Step(nodes[m.recipient], m, span)
         case Ok(e) => Some((nodes[m.recipient := e.node], e.sends))
         case Err(_) => None)
    case Beats(n, now) =>
      if n !in nodes then None
      else
        var s := nodes[n].(now := now);
        Some((nodes[n := s], Replicate(s)))
    case Stands(n, now, span) =>
      if n !in nodes then None
      else
        (match Stand(nodes[n].(now := now), span)
         case Ok(e) => Some((nodes[n := e.node], e.sends))
         case Err(_) => None)
    case Waits(n, now) => if n !in nodes then None else Some((nodes[n := nodes[n].(now := now)], []))
  }

  /** The nodes after all of them, and all that was said, in order. */
  function PlayedAll(nodes: Nodes, acts: seq<Act>): Option<(Nodes, seq<Message>)> {
    if acts == [] then Some((nodes, []))
    else
      match PlayedAll(nodes, acts[..|acts| - 1])
      case None => None
      case Some(before) =>
        match Played(before.0, acts[|acts| - 1])
        case None => None
        case Some(after) => Some((after.0, before.1 + after.1))
  }

  lemma PlayedOn(begun: Nodes, acts: seq<Act>, a: Act, before: Nodes, said: seq<Message>, after: Nodes, more: seq<Message>)
    requires PlayedAll(begun, acts) == Some((before, said)) && Played(before, a) == Some((after, more))
    ensures PlayedAll(begun, acts + [a]) == Some((after, said + more))
  {
    assert (acts + [a])[..|acts|] == acts;
  }

  /* ---- the acts of one tick ---- */

  /** These messages were heard, in this order. */
  predicate AllHeard(acts: seq<Act>, out: seq<Message>) {
    |acts| == |out| && forall i :: 0 <= i < |out| ==> acts[i].Hears? && acts[i].message == out[i] && 10 <= acts[i].span <= 20
  }

  lemma HeardOne(acts: seq<Act>, more: seq<Act>, m: Message, span: int)
    requires more == acts + [Hears(m, span)] && 10 <= span <= 20
    ensures acts <= more && more[|acts|..] == [Hears(m, span)] && AllHeard(more[|acts|..], [m])
  {
  }

  lemma HeardOn(acts: seq<Act>, more: seq<Act>, out: seq<Message>, rest: seq<Message>)
    requires AllHeard(acts, out) && AllHeard(more, rest)
    ensures AllHeard(acts + more, out + rest)
  {
  }

  /** What a node is due to do at a tick by the clocks kept for it. */
  predicate Due(a: Act, n: Name, s: NodeState, deadline: int, beatDue: int, now: int) {
    if s.role == Leader then a == if now >= beatDue then Beats(n, now) else Waits(n, now)
    else if now >= deadline then a.Stands? && a.node == n && a.now == now && 10 <= a.span <= 20
    else a == Waits(n, now)
  }

  /** Every member did what it was due to do, in membership order. */
  predicate AllActed(acts: seq<Act>, members: seq<Name>, nodes: Nodes, deadline: map<Name, int>, beatDue: map<Name, int>,
                     now: int) {
    && |acts| == |members|
    && forall k :: 0 <= k < |members| ==> ActsAt(acts[k], members[k], nodes, deadline, beatDue, now)
  }

  predicate ActsAt(a: Act, n: Name, nodes: Nodes, deadline: map<Name, int>, beatDue: map<Name, int>, now: int) {
    n in nodes && n in deadline && n in beatDue && Due(a, n, nodes[n], deadline[n], beatDue[n], now)
  }

  /** A deadline is new where a node has reset its own timer since it was last noted, and the old one everywhere else. */
  predicate Renewed(n: Name, nodes: Nodes, seen: map<Name, int>, before: map<Name, int>, after: map<Name, int>,
                    least: int, most: int) {
    && n in nodes && n in seen && n in before && n in after
    && if nodes[n].electionDeadline == seen[n] then after[n] == before[n] else least <= after[n] <= most
  }

  /**
  A tick: what landed is heard, in order; the deadlines of the nodes that reset their timers are drawn anew; and every
  member then does what it is due to do.
  */
  ghost predicate Ticked(
    begun: Nodes, before: seq<Act>, acts: seq<Act>, out: seq<Message>, members: seq<Name>, seen: map<Name, int>,
    deadline: map<Name, int>, beatDue: map<Name, int>, now: int, least: int, most: int)
  {
    && before <= acts && |acts| == |before| + |out| + |members|
    && var k := |before| + |out|;
       && AllHeard(acts[|before|..k], out)
       && PlayedAll(begun, acts[..k]).Some?
       && exists dues :: TimesOut(PlayedAll(begun, acts[..k]).value.0, acts[k..], members, seen, deadline, dues,
                                  beatDue, now, least, most)
  }

  ghost predicate TimesOut(
    nodes: Nodes, acts: seq<Act>, members: seq<Name>, seen: map<Name, int>, deadline: map<Name, int>, dues: map<Name, int>,
    beatDue: map<Name, int>, now: int, least: int, most: int)
  {
    && AllActed(acts, members, nodes, dues, beatDue, now)
    && forall n :: n in members ==> Renewed(n, nodes, seen, deadline, dues, now + least, now + most)
  }
}
