/**
 The node order of the flow-sensitive solvers: all nodes, component by component, in
 topological order from the top of the stack.
 */
module NodeOrder {
  import opened Graphs
  import opened SccRecords
  import opened SccAnswers

  /** The rank of a node is how high its representative was on the detector's topological stack. */
  function Rank(rank: map<NodeID, nat>, n: NodeID): nat { if n in rank then rank[n] else 0 }

  /** Edges never lead to a higher rank, and the nodes of one rank are one component. */
  ghost predicate Ranks(g: Graph, rank: map<NodeID, nat>) {
    && (forall n, k :: Edge(g, n, k) ==> Rank(rank, k) <= Rank(rank, n))
    && (forall n, k {:trigger Rank(rank, n), Rank(rank, k)} ::
          n in g.succ && k in g.succ ==> (Rank(rank, n) == Rank(rank, k) <==> MutuallyReach(g, n, k)))
  }

  ghost function RanksOf(m: InfoMap, pos: map<NodeID, nat>): map<NodeID, nat> {
    map n | n in m :: if RepOf(m, n) in pos then pos[RepOf(m, n)] else 0
  }

  /** Where on the topological stack q the representative of n is. */
  lemma RankIsPlace(g: Graph, m: InfoMap, q: seq<NodeID>, pos: map<NodeID, nat>, n: NodeID)
    requires RepsCorrect(g, m) && TopoCorrect(g, m, q) && PlacedAt(q, pos) && n in m
    ensures Rank(RanksOf(m, pos), n) < |q| && q[Rank(RanksOf(m, pos), n)] == RepOf(m, n)
  {
    hide MutuallyReach, NoEdge, Distinct;
    var r := RepOf(m, n);
    assert MutuallyReach(g, n, r) && RepOf(m, r) == r;
    assert r in q;
    var i :| 0 <= i < |q| && q[i] == r;
  }

  lemma RanksHold(g: Graph, m: InfoMap, q: seq<NodeID>, pos: map<NodeID, nat>)
    requires WellFormed(g) && RepsCorrect(g, m) && TopoCorrect(g, m, q) && PlacedAt(q, pos)
    ensures Ranks(g, RanksOf(m, pos))
  {
    var rank := RanksOf(m, pos);
    hide MutuallyReach, RanksOf, Rank;
    forall n, k | Edge(g, n, k) ensures Rank(rank, k) <= Rank(rank, n) {
      RankIsPlace(g, m, q, pos, n);
      RankIsPlace(g, m, q, pos, k);
    }
    hide TopoCorrect, PlacedAt, WellFormed;
    forall n, k | n in g.succ && k in g.succ
      ensures Rank(rank, n) == Rank(rank, k) <==> MutuallyReach(g, n, k)
    {
      RankIsPlace(g, m, q, pos, n);
      RankIsPlace(g, m, q, pos, k);
      RankIsInjective(g, m, q, pos, n, k);
    }
  }

  lemma RankIsInjective(g: Graph, m: InfoMap, q: seq<NodeID>, pos: map<NodeID, nat>, n: NodeID, k: NodeID)
    requires RepsCorrect(g, m) && TopoCorrect(g, m, q) && PlacedAt(q, pos) && n in m && k in m
    ensures Rank(RanksOf(m, pos), n) == Rank(RanksOf(m, pos), k) <==> RepOf(m, n) == RepOf(m, k)
  {
    RankIsPlace(g, m, q, pos, n);
    RankIsPlace(g, m, q, pos, k);
    hide RepsCorrect, TopoCorrect, PlacedAt, MutuallyReach;
  }

  /** Nodes of higher rank come later, that is, nearer the top of the stack. */
  ghost predicate Ascending(ns: seq<NodeID>, rank: map<NodeID, nat>) {
    forall i, j :: 0 <= i <= j < |ns| ==> Rank(rank, ns[i]) <= Rank(rank, ns[j])
  }

  /** The stack holds every node once, components are contiguous on it, and no edge leads from one
      component to another that is nearer the top. */
  ghost predicate TopologicalStack(g: Graph, ns: seq<NodeID>) {
    && Distinct(ns) && Elems(ns) == g.succ.Keys
    && (forall i, j, k {:trigger ns[i], ns[j], ns[k]} ::
          0 <= i < j < k < |ns| && MutuallyReach(g, ns[i], ns[k]) ==> MutuallyReach(g, ns[i], ns[j]))
    && (forall i, j {:trigger ns[i], ns[j]} ::
          0 <= i < j < |ns| && Edge(g, ns[i], ns[j]) ==> MutuallyReach(g, ns[i], ns[j]))
  }

  lemma AscendingIsTopological(g: Graph, ns: seq<NodeID>, rank: map<NodeID, nat>)
    requires Ranks(g, rank) && Ascending(ns, rank) && Distinct(ns) && Elems(ns) == g.succ.Keys
    ensures TopologicalStack(g, ns)
  {
    hide MutuallyReach, Rank;
    assert forall i :: 0 <= i < |ns| ==> ns[i] in Elems(ns);
    hide Elems;
    forall i, j, k {:trigger ns[i], ns[j], ns[k]} | 0 <= i < j < k < |ns| && MutuallyReach(g, ns[i], ns[k])
      ensures MutuallyReach(g, ns[i], ns[j])
    {
      assert Rank(rank, ns[i]) == Rank(rank, ns[k]);
      assert Rank(rank, ns[i]) == Rank(rank, ns[j]);
    }
    forall i, j {:trigger ns[i], ns[j]} | 0 <= i < j < |ns| && Edge(g, ns[i], ns[j])
      ensures MutuallyReach(g, ns[i], ns[j])
    {
      assert Rank(rank, ns[i]) == Rank(rank, ns[j]);
    }
  }

  ghost predicate Descending(ns: seq<NodeID>, rank: map<NodeID, nat>) {
    forall i, j :: 0 <= i <= j < |ns| ==> Rank(rank, ns[i]) >= Rank(rank, ns[j])
  }

  /** The nodes of rank at least j. */
  ghost function FromRank(g: Graph, rank: map<NodeID, nat>, j: nat): set<NodeID> {
    set n | n in g.succ.Keys && Rank(rank, n) >= j
  }

  lemma RepsKeys(g: Graph, m: InfoMap)
    requires RepsCorrect(g, m)
    ensures m.Keys == g.succ.Keys
  {}

  lemma RootAtHeight(g: Graph, m: InfoMap, q: seq<NodeID>, pos: map<NodeID, nat>, j: nat)
    requires RepsCorrect(g, m) && TopoCorrect(g, m, q) && PlacedAt(q, pos) && j < |q|
    ensures q[j] in m && RepOf(m, q[j]) == q[j] && Rank(RanksOf(m, pos), q[j]) == j
  {
    hide MutuallyReach, NoEdge, Distinct;
    var r := q[j];
    assert r in q;
  }

  /** The sub-nodes of the representative at height j of the topological stack are the nodes of rank j. */
  lemma SubNodesHaveRank(g: Graph, m: InfoMap, q: seq<NodeID>, pos: map<NodeID, nat>, j: nat)
    requires WellFormed(g) && RepsCorrect(g, m) && SubNodesCorrect(g, m) && TopoCorrect(g, m, q) && PlacedAt(q, pos)
    requires j < |q|
    ensures q[j] in m
    ensures var rank := RanksOf(m, pos);
      && FromRank(g, rank, j) == m[q[j]].subNodes + FromRank(g, rank, j + 1)
      && forall n :: n in m[q[j]].subNodes ==> n in m && Rank(rank, n) == j
  {
    var rank := RanksOf(m, pos);
    var r := q[j];
    hide WellFormed, RepsCorrect, SubNodesCorrect, TopoCorrect, PlacedAt, Ranks, RanksOf, Rank, RepOf;
    RanksHold(g, m, q, pos);
    RootAtHeight(g, m, q, pos, j);
    ComponentIsRank(g, m, rank, r);
    RepsKeys(g, m);
    FromRankSplit(g, rank, j, m[r].subNodes);
    hide FromRank;
  }

  lemma FromRankSplit(g: Graph, rank: map<NodeID, nat>, j: nat, sub: set<NodeID>)
    requires forall n :: n in sub <==> n in g.succ && Rank(rank, n) == j
    ensures FromRank(g, rank, j) == sub + FromRank(g, rank, j + 1)
  {
    hide Rank;
  }

  lemma NoneFromTop(g: Graph, m: InfoMap, q: seq<NodeID>, pos: map<NodeID, nat>)
    requires RepsCorrect(g, m) && TopoCorrect(g, m, q) && PlacedAt(q, pos)
    ensures FromRank(g, RanksOf(m, pos), |q|) == {}
  {
    hide MutuallyReach, RanksOf, Rank, TopoCorrect, PlacedAt;
    forall n | n in m ensures Rank(RanksOf(m, pos), n) < |q| { RankIsPlace(g, m, q, pos, n); }
  }

  /** The smallest id, which an iterator over a bit set yields first. */
  function Least(s: set<NodeID>): NodeID
    requires s != {}
    ensures Least(s) in s
  {
    LeastExists(s);
    var x :| x in s && forall y :: y in s ==> x <= y;
    x
  }

  ghost predicate IsLeast(x: NodeID, s: set<NodeID>) {
    x in s && forall y :: y in s ==> x <= y
  }

  lemma LeastExists(s: set<NodeID>)
    requires s != {}
    ensures exists x :: IsLeast(x, s)
  {
    var x :| x in s;
    if s == {x} {
      assert IsLeast(x, s);
    } else {
      LeastExists(s - {x});
      var y :| IsLeast(y, s - {x});
      var z := if x < y then x else y;
      forall k | k in s ensures z <= k {
        if k != x { assert k in s - {x}; }
      }
      assert IsLeast(z, s);
    }
  }

  /** The component recorded at the representative of n is the nodes of the rank of n. */
  lemma ComponentIsRank(g: Graph, m: InfoMap, rank: map<NodeID, nat>, n: NodeID)
    requires RepsCorrect(g, m) && SubNodesCorrect(g, m) && Ranks(g, rank) && n in m
    ensures RepOf(m, n) in m && RepOf(m, RepOf(m, n)) == RepOf(m, n)
    ensures Rank(rank, RepOf(m, n)) == Rank(rank, n)
    ensures forall x :: x in m[RepOf(m, n)].subNodes <==> x in g.succ && Rank(rank, x) == Rank(rank, n)
  {
    hide MutuallyReach, Rank;
    var r := RepOf(m, n);
    assert MutuallyReach(g, n, r);
    assert Rank(rank, r) == Rank(rank, n);
    forall x | x in g.succ ensures x in m[r].subNodes <==> Rank(rank, x) == Rank(rank, n) {
      assert Rank(rank, r) == Rank(rank, x) <==> MutuallyReach(g, r, x);
    }
  }

  lemma NonRepHasNoSubNodes(g: Graph, m: InfoMap, n: NodeID)
    requires SubNodesCorrect(g, m) && n in m && RepOf(m, n) != n
    ensures m[n].subNodes == {}
  {
    hide MutuallyReach;
  }

  /** The nodes whose representatives are still on the stack. */
  ghost function Later(m: InfoMap, stack: seq<NodeID>): set<NodeID> {
    set n | n in m && RepOf(m, n) in Elems(stack)
  }

  lemma LaterIsLower(g: Graph, m: InfoMap, rank: map<NodeID, nat>, ns: seq<NodeID>, j: nat, n: NodeID)
    requires RepsCorrect(g, m) && SubNodesCorrect(g, m) && Ranks(g, rank)
    requires Ascending(ns, rank) && Elems(ns) == g.succ.Keys && j < |ns| && n in m
    ensures Rank(rank, n) < Rank(rank, ns[j]) ==> n in Later(m, ns[..j])
  {
    ComponentIsRank(g, m, rank, n);
    hide RepsCorrect, SubNodesCorrect, Ranks, Rank;
    var r := RepOf(m, n);
    assert r in Elems(ns);
    var i :| 0 <= i < |ns| && ns[i] == r;
    if Rank(rank, n) < Rank(rank, ns[j]) {
      assert ns[..j][i] == r;
    }
  }

  lemma EdgeTarget(g: Graph, v: NodeID, w: NodeID)
    requires WellFormed(g) && Edge(g, v, w)
    ensures w in g.succ
  {}

  /** Popping node r from the stack leaves later the nodes that were later before, less those recorded at r;
      and edges out of the component of r lead to nodes that are still later. */
  lemma PopNode(g: Graph, m: InfoMap, rank: map<NodeID, nat>, ns: seq<NodeID>, j: nat)
    requires WellFormed(g) && RepsCorrect(g, m) && SubNodesCorrect(g, m) && Ranks(g, rank)
    requires Ascending(ns, rank) && Elems(ns) == g.succ.Keys && Distinct(ns) && j < |ns|
    ensures var r := ns[j];
      && r in m && RepOf(m, r) in m
      && m[r].subNodes <= m[RepOf(m, r)].subNodes <= g.succ.Keys
      && Later(m, ns[..j + 1]) == Later(m, ns[..j]) + m[r].subNodes
      && m[r].subNodes !! Later(m, ns[..j])
      && (forall v, w :: v in m[RepOf(m, r)].subNodes && Edge(g, v, w) ==>
            w in m[RepOf(m, r)].subNodes || w in Later(m, ns[..j]))
  {
    hide RepsCorrect, SubNodesCorrect, MutuallyReach, Rank, WellFormed, Ascending;
    var r := ns[j];
    assert r in Elems(ns);
    assert m.Keys == g.succ.Keys by { RepsKeys(g, m); }
    ComponentIsRank(g, m, rank, r);
    assert ns[..j + 1] == ns[..j] + [r];
    PoppedElems(ns[..j], r);
    PopNodeLater(g, m, ns[..j], r);
    hide Distinct, Elems, Later;
    forall v, w | v in m[RepOf(m, r)].subNodes && Edge(g, v, w)
      ensures w in m[RepOf(m, r)].subNodes || w in Later(m, ns[..j])
    {
      assert Rank(rank, w) <= Rank(rank, v) && Rank(rank, v) == Rank(rank, r);
      EdgeTarget(g, v, w);
      LaterIsLower(g, m, rank, ns, j, w);
    }
  }

  lemma PopNodeLater(g: Graph, m: InfoMap, q: seq<NodeID>, r: NodeID)
    requires RepsCorrect(g, m) && SubNodesCorrect(g, m) && r in m && Elems(q) == Elems(q + [r]) - {r}
    ensures Later(m, q + [r]) == Later(m, q) + m[r].subNodes && m[r].subNodes !! Later(m, q)
    ensures m[r].subNodes <= m[RepOf(m, r)].subNodes
  {
    hide MutuallyReach, WellFormed, Elems;
    ElemsLast(q, r);
    if RepOf(m, r) != r {
      NonRepHasNoSubNodes(g, m, r);
    }
    forall n | n in m ensures n in m[r].subNodes <==> RepOf(m, n) == r {
      if RepOf(m, n) == r { assert RepOf(m, r) == r; }
    }
  }

  lemma EverythingLater(g: Graph, m: InfoMap, ns: seq<NodeID>)
    requires RepsCorrect(g, m) && Elems(ns) == g.succ.Keys
    ensures Later(m, ns) == g.succ.Keys && Later(m, []) == {}
  {
    hide MutuallyReach;
  }
}
