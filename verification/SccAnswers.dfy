/** What the detector's fields say about the graph once `find` has returned. */
module SccAnswers {
  import opened Graphs
  import opened Scc
  import opened SccRecords

  function RepOf(m: InfoMap, n: NodeID): NodeID
    requires n in m
  {
    if m[n].rep != UINT_MAX then m[n].rep else n
  }

  /** Each node's representative is in its component, and components have one representative each. */
  ghost predicate RepsCorrect(g: Graph, m: InfoMap) {
    && m.Keys == g.succ.Keys
    && (forall n {:trigger RepOf(m, n)} :: n in m ==> RepOf(m, n) in m && MutuallyReach(g, n, RepOf(m, n)))
    && (forall n, k {:trigger MutuallyReach(g, n, k)} {:trigger RepOf(m, n), RepOf(m, k)} ::
          n in m && k in m ==> (RepOf(m, n) == RepOf(m, k) <==> MutuallyReach(g, n, k)))
  }

  /** A representative's sub-nodes are its component; any other node has none. */
  ghost predicate SubNodesCorrect(g: Graph, m: InfoMap) {
    forall r, n {:trigger n in m[r].subNodes} ::
      r in m ==> (n in m[r].subNodes <==> RepOf(m, r) == r && n in m && MutuallyReach(g, r, n))
  }

  ghost predicate SharesComponent(g: Graph, r: NodeID) {
    exists n :: n in g.succ && n != r && MutuallyReach(g, r, n)
  }

  /** `getRepNodes` holds the representatives of the components of at least two nodes. */
  ghost predicate RepNodesCorrect(g: Graph, m: InfoMap, repNodes: set<NodeID>) {
    forall r :: r in repNodes <==> r in m && RepOf(m, r) == r && SharesComponent(g, r)
  }

  /** `T` holds each representative once, and an edge leads to its own component or to one that is
      lower on the stack. */
  ghost predicate TopoCorrect(g: Graph, m: InfoMap, q: seq<NodeID>) {
    && Distinct(q)
    && (forall r :: r in q <==> r in m && RepOf(m, r) == r)
    && (forall i, j :: 0 <= i < j < |q| ==> NoEdge(g, m, q[i], q[j]))
  }

  /** No edge leads from the component of r to the component of t. */
  ghost predicate NoEdge(g: Graph, m: InfoMap, r: NodeID, t: NodeID) {
    forall n, k :: Edge(g, n, k) && n in m && k in m && RepOf(m, n) == r ==> RepOf(m, k) != t
  }

  /** The answers of the detector, in terms of the graph alone. */
  ghost predicate Correct(g: Graph, m: InfoMap, q: seq<NodeID>, repNodes: set<NodeID>) {
    RepsCorrect(g, m) && SubNodesCorrect(g, m) && RepNodesCorrect(g, m, repNodes) && TopoCorrect(g, m, q)
  }

  lemma RecordedReps(g: Graph, m: InfoMap, r: Rest)
    requires Complete(g, Recorded(m, r)) && forall n :: n in m ==> m[n].visited
    ensures RepsCorrect(g, m)
    ensures forall n {:trigger RepOf(m, n)} :: n in m ==> RepOf(m, n) == m[n].rep == Recorded(m, r).Rep(n)
  {
    hide Recorded, State.Rep, State.Sub, State.Ord, State.Pos, Reaches, MutuallyReach, Inv, Complete, WellFormed;
    var s := Recorded(m, r);
    RecordedAt(m, r, s);
    RecordedKeys(g, m, r);
    forall n | n in m ensures RepOf(m, n) == s.Rep(n) && s.Rep(n) in m && MutuallyReach(g, n, s.Rep(n)) {
      RepInComponent(g, s, n);
    }
    forall n, k | n in m && k in m ensures RepOf(m, n) == RepOf(m, k) <==> MutuallyReach(g, n, k) {
      SameRepIffMutuallyReach(g, s, n, k);
    }
  }

  lemma RecordedKeys(g: Graph, m: InfoMap, r: Rest)
    requires Complete(g, Recorded(m, r)) && forall n :: n in m ==> m[n].visited
    ensures m.Keys == g.succ.Keys
  {
    hide Recorded, Reaches, Stacked, RepsOk, StackOk, PendingSubs, RepNodesOk, DoneOk, Topological;
    var s := Recorded(m, r);
    RecordedAt(m, r, s);
    forall n ensures n in m <==> n in g.succ {
      assert n in s.vis <==> n in m;
    }
  }

  lemma RecordedSubs(g: Graph, m: InfoMap, r: Rest)
    requires Complete(g, Recorded(m, r)) && forall n :: n in m ==> m[n].visited
    ensures SubNodesCorrect(g, m) && RepNodesCorrect(g, m, r.repNodes)
  {
    hide Recorded, State.Rep, State.Sub, State.Ord, State.Pos, Inv, Reaches, MutuallyReach, Complete, WellFormed;
    var s := Recorded(m, r);
    RecordedReps(g, m, r);
    RecordedAt(m, r, s);
    forall x, n {:trigger n in m[x].subNodes} | x in m
      ensures n in m[x].subNodes <==> RepOf(m, x) == x && n in m && MutuallyReach(g, x, n)
    {
      SubNodesAreComponent(g, s, x, n);
    }
    forall x ensures x in r.repNodes <==> x in m && RepOf(m, x) == x && SharesComponent(g, x) {
      RepNodesExact(g, s, x);
    }
  }

  lemma RecordedTopo(g: Graph, m: InfoMap, r: Rest)
    requires Complete(g, Recorded(m, r)) && forall n :: n in m ==> m[n].visited
    requires PlacedAt(r.T, r.pos)
    ensures TopoCorrect(g, m, r.T)
  {
    hide Recorded, State.Rep, State.Sub, State.Ord, State.Pos, Inv, Reaches, MutuallyReach, Complete, WellFormed;
    var s := Recorded(m, r);
    RecordedReps(g, m, r);
    RecordedAt(m, r, s);
    forall x ensures x in r.T <==> x in m && RepOf(m, x) == x {
      RootsAreReps(g, s, x);
      assert x in r.T <==> x in Elems(r.T);
    }
    forall i, j | 0 <= i < j < |r.T| ensures NoEdge(g, m, r.T[i], r.T[j]) {
      forall n, k | Edge(g, n, k) && n in m && k in m && RepOf(m, n) == r.T[i] ensures RepOf(m, k) != r.T[j] {
        if RepOf(m, k) == r.T[j] {
          assert !MutuallyReach(g, n, k);
          EdgesDescend(g, s, n, k);
        }
      }
    }
  }

  /** A node lies on a cycle exactly if its component has several nodes or its representative a self-edge. */
  lemma CycleCases(g: Graph, m: InfoMap, n: NodeID)
    requires WellFormed(g) && RepsCorrect(g, m) && SubNodesCorrect(g, m) && n in m
    ensures var r := RepOf(m, n); OnCycle(g, n) <==> |m[r].subNodes| > 1 || Edge(g, r, r)
  {
    hide ClosedGraph, Reaches;
    var r := RepOf(m, n);
    assert r in m[r].subNodes && n in m[r].subNodes by { ReachesRefl(g, r); }
    if |m[r].subNodes| > 1 {
      var k := OtherMember(m[r].subNodes, n);
      assert MutuallyReach(g, n, k);
      var b := ReachesFirstEdge(g, n, k);
      ReachesTrans(g, b, k, n);
    } else {
      OnlyMember(m[r].subNodes, r, n);
      if Edge(g, r, r) {
        ReachesRefl(g, r);
      } else if OnCycle(g, n) {
        var b :| Edge(g, n, b) && Reaches(g, b, n);
        EdgeReaches(g, n, b);
        ReachesStaysInGraph(g, n, b);
        assert MutuallyReach(g, n, b) && b in m[r].subNodes;
        OnlyMember(m[r].subNodes, r, b);
      }
    }
  }

  lemma OtherMember(s: set<NodeID>, n: NodeID) returns (k: NodeID)
    requires |s| > 1
    ensures k in s && k != n
  {
    if s - {n} == {} {
      SubsetSize(s, {n});
    }
    k :| k in s - {n};
  }

  lemma OnlyMember(s: set<NodeID>, a: NodeID, b: NodeID)
    requires |s| <= 1 && a in s && b in s
    ensures a == b
  {
    if a != b { assert {a, b} <= s && |{a, b}| == 2; SubsetSize({a, b}, s); }
  }

  lemma SubsetSize(s: set<NodeID>, t: set<NodeID>)
    requires s <= t
    ensures |s| <= |t|
  {
    if s != {} {
      var x :| x in s;
      SubsetSize(s - {x}, t - {x});
    }
  }
}
