/**
 Data-flow problems over a graph: every node has a set of facts, and every edge adds to its
 target what its transfer function makes of the facts at its source.
 */
module FlowProblem {
  import opened Graphs

  type Fact = nat
  type Facts = map<NodeID, set<Fact>>

  /** transfer(n, k, x) is what the k-th out-edge of n makes of the facts x. */
  datatype Problem = Problem(graph: Graph, universe: set<Fact>, transfer: (NodeID, nat, set<Fact>) -> set<Fact>)

  function At(val: Facts, n: NodeID): set<Fact> { if n in val then val[n] else {} }

  ghost predicate Leq(a: Facts, b: Facts) {
    forall n {:trigger At(a, n)} :: At(a, n) <= At(b, n)
  }

  /** A node without an entry has no facts. */
  lemma LeqMeans(a: Facts, b: Facts)
    ensures Leq(a, b) <==> forall n, f {:trigger f in a[n]} :: n in a && f in a[n] ==> n in b && f in b[n]
  {
    if Leq(a, b) {
      forall n, f | n in a && f in a[n] ensures n in b && f in b[n] { assert At(a, n) <= At(b, n); }
    }
  }

  ghost predicate SatEdge(p: Problem, val: Facts, n: NodeID, k: nat)
    requires n in p.graph.succ && k < |p.graph.succ[n]|
  {
    p.transfer(n, k, At(val, n)) <= At(val, p.graph.succ[n][k])
  }

  /** Every out-edge of n has delivered. */
  ghost predicate Sat(p: Problem, val: Facts, n: NodeID)
    requires n in p.graph.succ
  {
    forall k :: 0 <= k < |p.graph.succ[n]| ==> SatEdge(p, val, n, k)
  }

  ghost predicate Fixpoint(p: Problem, val: Facts) {
    forall n :: n in p.graph.succ ==> Sat(p, val, n)
  }

  /** In a fixpoint, what each edge makes of the facts at its source is at its target. */
  lemma FixpointMeans(p: Problem, val: Facts)
    ensures Fixpoint(p, val) <==>
      forall n, k: nat, f {:trigger f in p.transfer(n, k, if n in val then val[n] else {})} ::
        n in p.graph.succ && k < |p.graph.succ[n]| && f in p.transfer(n, k, if n in val then val[n] else {}) ==>
          p.graph.succ[n][k] in val && f in val[p.graph.succ[n][k]]
  {
    if Fixpoint(p, val) {
      forall n, k: nat, f {:trigger f in p.transfer(n, k, if n in val then val[n] else {})} |
        n in p.graph.succ && k < |p.graph.succ[n]| && f in p.transfer(n, k, if n in val then val[n] else {})
        ensures p.graph.succ[n][k] in val && f in val[p.graph.succ[n][k]]
      {
        assert Sat(p, val, n);
        assert SatEdge(p, val, n, k);
      }
    }
  }

  ghost predicate Monotone(p: Problem) {
    forall n, k, x, y {:trigger p.transfer(n, k, x), p.transfer(n, k, y)} ::
      x <= y ==> p.transfer(n, k, x) <= p.transfer(n, k, y)
  }

  /** Facts come from a finite universe. */
  ghost predicate Bounded(p: Problem) {
    forall n, k, x {:trigger p.transfer(n, k, x)} :: p.transfer(n, k, x) <= p.universe
  }

  /** No fixpoint above `start` lies below anything in val. */
  ghost predicate BelowFixpoints(p: Problem, start: Facts, val: Facts) {
    forall y :: Fixpoint(p, y) && Leq(start, y) ==> Leq(val, y)
  }

  /** val is the least fixpoint above start. */
  ghost predicate LeastFixpointAbove(p: Problem, start: Facts, val: Facts) {
    Fixpoint(p, val) && Leq(start, val) && BelowFixpoints(p, start, val)
  }

  lemma LeastFixpointUnique(p: Problem, start: Facts, a: Facts, b: Facts)
    requires LeastFixpointAbove(p, start, a) && LeastFixpointAbove(p, start, b)
    ensures forall n :: At(a, n) == At(b, n)
  {
    hide Fixpoint, At;
    assert Leq(a, b) && Leq(b, a);
  }

  /** `propFromSrcToDst` on the k-th out-edge of n. */
  function Deliver(p: Problem, val: Facts, n: NodeID, k: nat): Facts
    requires n in p.graph.succ && k < |p.graph.succ[n]|
  {
    var w := p.graph.succ[n][k];
    val[w := At(val, w) + p.transfer(n, k, At(val, n))]
  }

  lemma DeliverGrows(p: Problem, val: Facts, n: NodeID, k: nat)
    requires n in p.graph.succ && k < |p.graph.succ[n]|
    ensures var t := Deliver(p, val, n, k); var w := p.graph.succ[n][k];
      && Leq(val, t)
      && (forall x {:trigger At(t, x)} :: x != w ==> At(t, x) == At(val, x))
      && At(t, w) == At(val, w) + p.transfer(n, k, At(val, n))
  {
  }

  /** Delivering facts keeps val below every fixpoint above the start. */
  lemma DeliverBelow(p: Problem, start: Facts, val: Facts, n: NodeID, k: nat)
    requires Monotone(p) && BelowFixpoints(p, start, val)
    requires n in p.graph.succ && k < |p.graph.succ[n]|
    ensures BelowFixpoints(p, start, Deliver(p, val, n, k))
  {
    DeliverGrows(p, val, n, k);
    var t, w := Deliver(p, val, n, k), p.graph.succ[n][k];
    hide Deliver;
    forall y | Fixpoint(p, y) && Leq(start, y) ensures Leq(t, y) {
      assert Leq(val, y) && SatEdge(p, y, n, k) by { assert Sat(p, y, n); }
      hide Fixpoint;
      assert p.transfer(n, k, At(val, n)) <= p.transfer(n, k, At(y, n));
      forall x ensures At(t, x) <= At(y, x) {}
    }
  }

  /** The facts not yet at the nodes: what bounds the number of changes. */
  ghost function Missing(p: Problem, val: Facts): set<(NodeID, Fact)> {
    set n, f | n in p.graph.succ.Keys && f in p.universe && f !in At(val, n) :: (n, f)
  }

  lemma MissingShrinks(p: Problem, val: Facts, t: Facts)
    requires Leq(val, t)
    ensures Missing(p, t) <= Missing(p, val)
  {}

  lemma ChangeShrinksMissing(p: Problem, val: Facts, n: NodeID, k: nat)
    requires Bounded(p) && WellFormed(p.graph) && n in p.graph.succ && k < |p.graph.succ[n]|
    requires !SatEdge(p, val, n, k)
    ensures Missing(p, Deliver(p, val, n, k)) < Missing(p, val)
  {
    DeliverGrows(p, val, n, k);
    var t, w := Deliver(p, val, n, k), p.graph.succ[n][k];
    assert Edge(p.graph, n, w);
    hide Deliver;
    MissingShrinks(p, val, t);
    var f :| f in p.transfer(n, k, At(val, n)) && f !in At(val, w);
    assert (w, f) in Missing(p, val) && (w, f) !in Missing(p, t);
  }

  // ------------------------------------------------------------------ what is left to do

  /** Where nodes with undelivered facts may be: on the work list; or among those whose component is
      still to come, if `all` of these get processed or the node is a candidate. */
  datatype Agenda = Agenda(later: set<NodeID>, all: bool, work: set<NodeID>, cands: set<NodeID>)
  {
    ghost predicate Covers(n: NodeID) {
      n in work || (n in later && (all || n in cands))
    }
  }

  /** Node n is on the agenda, or its first k edges have delivered. */
  ghost predicate SatUpTo(p: Problem, val: Facts, a: Agenda, n: NodeID, k: nat)
    requires n in p.graph.succ && k <= |p.graph.succ[n]|
  {
    a.Covers(n) || forall i :: 0 <= i < k ==> SatEdge(p, val, n, i)
  }

  /** All nodes but n are on the agenda or have delivered, and n has done so up to its k-th edge. */
  ghost predicate OnTrack(p: Problem, val: Facts, a: Agenda, n: NodeID, k: nat)
    requires n in p.graph.succ && k <= |p.graph.succ[n]|
  {
    && (forall x :: x in p.graph.succ && x != n ==> a.Covers(x) || Sat(p, val, x))
    && SatUpTo(p, val, a, n, k)
  }

  ghost predicate AllOnTrack(p: Problem, val: Facts, a: Agenda) {
    forall x :: x in p.graph.succ ==> a.Covers(x) || Sat(p, val, x)
  }

  /** The agenda after the target of a delivery has been added to it, if the delivery changed it. */
  ghost predicate Extends(a: Agenda, b: Agenda) {
    forall x :: a.Covers(x) ==> b.Covers(x)
  }

  lemma DeliverKeepsSat(p: Problem, val: Facts, n: NodeID, k: nat, x: NodeID, i: nat)
    requires n in p.graph.succ && k < |p.graph.succ[n]| && x in p.graph.succ && i < |p.graph.succ[x]|
    requires SatEdge(p, val, x, i)
    ensures var t := Deliver(p, val, n, k);
      At(t, x) == At(val, x) ==> SatEdge(p, t, x, i)
  {
    DeliverGrows(p, val, n, k);
    hide Deliver;
  }

  /** Delivering along the k-th edge of n keeps everything on track, if a changed target joins the agenda. */
  lemma DeliverOnTrack(p: Problem, val: Facts, a: Agenda, b: Agenda, n: NodeID, k: nat)
    requires n in p.graph.succ && k < |p.graph.succ[n]|
    requires OnTrack(p, val, a, n, k) && Extends(a, b)
    requires var t, w := Deliver(p, val, n, k), p.graph.succ[n][k];
      At(t, w) != At(val, w) ==> b.Covers(w)
    ensures OnTrack(p, Deliver(p, val, n, k), b, n, k + 1)
  {
    hide Agenda.Covers;
    DeliverGrows(p, val, n, k);
    var t, w := Deliver(p, val, n, k), p.graph.succ[n][k];
    forall x, i | x in p.graph.succ && 0 <= i < |p.graph.succ[x]| && SatEdge(p, val, x, i) && At(t, x) == At(val, x)
      ensures SatEdge(p, t, x, i)
    {
      DeliverKeepsSat(p, val, n, k, x, i);
    }
    hide Deliver;
    forall x | x in p.graph.succ && x != n ensures b.Covers(x) || Sat(p, t, x) {
      if !b.Covers(x) { assert Sat(p, val, x) && At(t, x) == At(val, x); }
    }
    if !b.Covers(n) {
      assert At(t, n) == At(val, n);
    }
  }

  /** Each of the nodes ns is one to start from or has got new facts. */
  ghost predicate OnlyNeeded(start: Facts, val: Facts, starts: set<NodeID>, ns: set<NodeID>) {
    forall n :: n in ns ==> n in starts || At(val, n) != At(start, n)
  }

  lemma OnlyNeededStays(start: Facts, was: Facts, val: Facts, starts: set<NodeID>, ns: set<NodeID>, ms: set<NodeID>)
    requires Leq(start, was) && Leq(was, val) && OnlyNeeded(start, was, starts, ns)
    requires forall n :: n in ms && n !in ns ==> At(val, n) != At(was, n)
    ensures OnlyNeeded(start, val, starts, ms)
  {
    hide At;
    forall n | n in ms && n !in starts ensures At(val, n) != At(start, n) {
      assert At(start, n) <= At(was, n) <= At(val, n);
    }
  }

  lemma NothingLeft(p: Problem, val: Facts, a: Agenda)
    requires AllOnTrack(p, val, a) && forall x :: x in p.graph.succ ==> !a.Covers(x)
    ensures Fixpoint(p, val)
  {}

  lemma LeqRefl(a: Facts)
    ensures Leq(a, a)
  {}

  lemma LeqTrans(a: Facts, b: Facts, c: Facts)
    requires Leq(a, b)
    ensures Leq(b, c) ==> Leq(a, c)
  {
    hide At;
    if Leq(b, c) {
      forall n ensures At(a, n) <= At(c, n) { assert At(a, n) <= At(b, n) <= At(c, n); }
    }
  }

  lemma EdgeStays(g: Graph, n: NodeID, w: NodeID)
    requires WellFormed(g) && Edge(g, n, w)
    ensures w in g.succ
  {}

  lemma ExtendsRefl(a: Agenda)
    ensures Extends(a, a)
  {}

  lemma OnTrackToTheEnd(p: Problem, val: Facts, a: Agenda, n: NodeID)
    requires n in p.graph.succ && OnTrack(p, val, a, n, |p.graph.succ[n]|)
    ensures AllOnTrack(p, val, a)
  {
    hide SatEdge, Agenda.Covers;
  }

  /** Taking n off the agenda leaves the other nodes on track. */
  lemma OneOffTrack(p: Problem, val: Facts, a: Agenda, b: Agenda, n: NodeID)
    requires AllOnTrack(p, val, a) && n in p.graph.succ && b == a.(work := a.work - {n})
    ensures OnTrack(p, val, b, n, 0)
  {
    hide Sat, SatEdge;
  }

  /** A delivery leaves the missing facts as they are or, if its target changes, fewer. */
  lemma DeliverMeasure(p: Problem, val: Facts, n: NodeID, k: nat)
    requires Bounded(p) && WellFormed(p.graph) && n in p.graph.succ && k < |p.graph.succ[n]|
    ensures var t, w := Deliver(p, val, n, k), p.graph.succ[n][k];
      && Leq(val, t)
      && (At(t, w) != At(val, w) ==> Missing(p, t) < Missing(p, val))
      && (At(t, w) == At(val, w) ==> Missing(p, t) == Missing(p, val))
  {
    var t, w := Deliver(p, val, n, k), p.graph.succ[n][k];
    DeliverGrows(p, val, n, k);
    if SatEdge(p, val, n, k) {
      hide Deliver;
      assert At(t, w) == At(val, w);
      forall x ensures At(t, x) == At(val, x) { }
      hide At;
      assert Missing(p, t) == Missing(p, val);
    } else {
      ChangeShrinksMissing(p, val, n, k);
    }
  }

  lemma NewAgenda(p: Problem, val: Facts, a: Agenda, b: Agenda)
    requires AllOnTrack(p, val, a) && Extends(a, b)
    ensures AllOnTrack(p, val, b)
  {
    hide Sat, Agenda.Covers;
  }

  lemma AllOnTrackAtFirst(p: Problem, val: Facts, a: Agenda)
    requires a.later == p.graph.succ.Keys
    requires a.all || forall n :: n in p.graph.succ && !Sat(p, val, n) ==> n in a.cands
    ensures AllOnTrack(p, val, a) && BelowFixpoints(p, val, val)
  {}
}
