/** Finite directed graphs with ordered, possibly repeated, out-edges, and reachability in them. */
module Graphs {
  /** `NodeID` is an `unsigned` in the program; WellFormed bounds the ids a graph uses. */
  type NodeID = nat

  const UINT_MAX: nat := 0xFFFF_FFFF

  datatype Graph = Graph(nodes: seq<NodeID>, succ: map<NodeID, seq<NodeID>>)

  ghost predicate Edge(g: Graph, a: NodeID, b: NodeID) {
    a in g.succ && b in g.succ[a]
  }

  /** Every node is listed once, has an id that fits an `unsigned` other than UINT_MAX
      (which the program reserves for "no representative"), and has its children in the graph. */
  ghost predicate WellFormed(g: Graph) {
    && (forall i, j :: 0 <= i < j < |g.nodes| ==> g.nodes[i] != g.nodes[j])
    && (forall n :: n in g.nodes <==> n in g.succ)
    && (forall n :: n in g.succ ==> n < UINT_MAX)
    && ClosedGraph(g)
  }

  /** The children of nodes are nodes. */
  ghost predicate ClosedGraph(g: Graph) {
    forall a, b :: Edge(g, a, b) ==> b in g.succ
  }

  ghost predicate IsPath(g: Graph, p: seq<NodeID>) {
    |p| > 0 && forall i :: 0 <= i < |p| - 1 ==> Edge(g, p[i], p[i + 1])
  }

  ghost predicate PathFromTo(g: Graph, p: seq<NodeID>, a: NodeID, b: NodeID) {
    IsPath(g, p) && p[0] == a && p[|p| - 1] == b
  }

  /** There is a path, possibly empty, from `a` to `b`. */
  ghost predicate Reaches(g: Graph, a: NodeID, b: NodeID) {
    exists p :: PathFromTo(g, p, a, b)
  }

  ghost predicate MutuallyReach(g: Graph, a: NodeID, b: NodeID) {
    Reaches(g, a, b) && Reaches(g, b, a)
  }

  /** `a` lies on a cycle: a non-empty path leads from `a` back to `a`. */
  ghost predicate OnCycle(g: Graph, a: NodeID) {
    exists b :: Edge(g, a, b) && Reaches(g, b, a)
  }

  ghost predicate ClosedUnderEdges(g: Graph, s: iset<NodeID>) {
    forall a, b :: a in s && Edge(g, a, b) ==> b in s
  }

  lemma ReachesRefl(g: Graph, a: NodeID)
    ensures Reaches(g, a, a)
  {
    assert PathFromTo(g, [a], a, a);
  }

  lemma ReachesStep(g: Graph, a: NodeID, b: NodeID, c: NodeID)
    requires Reaches(g, a, b) && Edge(g, b, c)
    ensures Reaches(g, a, c)
  {
    var p :| PathFromTo(g, p, a, b);
    assert PathFromTo(g, p + [c], a, c);
  }

  lemma ReachesTrans(g: Graph, a: NodeID, b: NodeID, c: NodeID)
    requires Reaches(g, a, b) && Reaches(g, b, c)
    ensures Reaches(g, a, c)
  {
    var p :| PathFromTo(g, p, a, b);
    var q :| PathFromTo(g, q, b, c);
    assert PathFromTo(g, p + q[1..], a, c);
  }

  lemma EdgeReaches(g: Graph, a: NodeID, b: NodeID)
    requires Edge(g, a, b)
    ensures Reaches(g, a, b)
  {
    ReachesRefl(g, a);
    ReachesStep(g, a, a, b);
  }

  /** A set closed under edges contains whatever its members reach. */
  lemma ReachesInClosed(g: Graph, s: iset<NodeID>, a: NodeID, b: NodeID)
    requires ClosedUnderEdges(g, s) && a in s && Reaches(g, a, b)
    ensures b in s
  {
    var p :| PathFromTo(g, p, a, b);
    var i := 0;
    while i < |p| - 1
      invariant 0 <= i < |p| && p[i] in s
    {
      assert Edge(g, p[i], p[i + 1]);
      i := i + 1;
    }
  }

  /** A path that ends elsewhere starts with an edge. */
  lemma ReachesFirstEdge(g: Graph, a: NodeID, b: NodeID) returns (c: NodeID)
    requires Reaches(g, a, b) && a != b
    ensures Edge(g, a, c) && Reaches(g, c, b)
  {
    var p :| PathFromTo(g, p, a, b);
    c := p[1];
    assert Edge(g, p[0], p[1]);
    assert PathFromTo(g, p[1..], c, b);
  }

  lemma ReachesStaysInGraph(g: Graph, a: NodeID, b: NodeID)
    requires ClosedGraph(g) && a in g.succ && Reaches(g, a, b)
    ensures b in g.succ
  {
    ReachesInClosed(g, (iset n | n in g.succ), a, b);
  }

  lemma NonEmptyHasMember(s: set<NodeID>)
    requires s != {}
    ensures exists n :: n in s
  {}
}
