/** Building a run event by event. */
module Paths {
  import opened Basics
  import opened Rpc
  import opened NodeSpec
  import opened ClusterSpec
  import Clusters
  import Driver

  /** A run so far. */
  datatype Path = Path(states: seq<Cluster>, events: seq<Event>)

  ghost predicate Sound(p: Path) {
    |p.states| == |p.events| + 1 && Run(p.states, p.events)
  }

  ghost function Now(p: Path): Cluster
    requires |p.states| == |p.events| + 1
  {
    p.states[|p.events|]
  }

  /** One path goes on where the other stopped, without a restart. */
  ghost predicate Onward(p: Path, q: Path) {
    && p.states <= q.states && p.events <= q.events
    && forall k :: |p.events| <= k < |q.events| ==> !q.events[k].Restart?
  }

  lemma OnwardAgain(p: Path, q: Path, r: Path)
    requires Onward(p, q) && Onward(q, r)
    ensures Onward(p, r)
  {
    assert q.events == r.events[..|q.events|];
    assert q.states == r.states[..|q.states|];
    forall k | |p.events| <= k < |r.events| ensures !r.events[k].Restart? {
      if k < |q.events| { assert r.events[k] == q.events[k]; }
    }
  }

  /** Any event that can happen next can be the next. */
  lemma Goes(p: Path, event: Event) returns (q: Path)
    requires Sound(p) && Enabled(Now(p), event) && !event.Restart?
    ensures Sound(q) && Onward(p, q) && Apply(Now(p), event) == Ok(Now(q)) && WellNamed(Now(q))
    ensures q.events == p.events + [event]
  {
    hide Run;
    Clusters.RunGoesOn(p.states, p.events, event);
    q := Path(p.states + [Apply(Now(p), event).value], p.events + [event]);
    Driver.RunShape(q.states, q.events, |q.events|);
  }
}
