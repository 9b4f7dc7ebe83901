/** The demand-driven solver: forward along out-edges, backward along in-edges. */
module CflSolver {
  import opened Graphs
  import opened WorkList
  import opened CflTraversal

  /** `inv` has the edges of `g` turned around. */
  ghost predicate Inverse(g: Graph, inv: Graph) {
    forall a: NodeID, b: NodeID {:trigger Edge(g, a, b)} {:trigger Edge(inv, b, a)} ::
      Edge(g, a, b) <==> Edge(inv, b, a)
  }

  class CFLSolver {
    const graph: Graph
    const inverse: Graph
    const worklist: FIFOWorkList<DPItem>
    ghost var processed: set<DPItem>     // what the process hooks have been given

    ghost predicate Valid()
      reads this, worklist
    {
      worklist.Valid() && ClosedGraph(graph) && ClosedGraph(inverse) && inverse.succ.Keys == graph.succ.Keys &&
        Inverse(graph, inverse)
    }

    constructor (g: Graph, inv: Graph)
      requires ClosedGraph(g) && ClosedGraph(inv) && inv.succ.Keys == g.succ.Keys && Inverse(g, inv)
      ensures Valid() && fresh(worklist) && worklist.dataList == [] && graph == g && inverse == inv && processed == {}
    {
      graph, inverse := g, inv;
      worklist := new FIFOWorkList();
      processed := {};
    }

    method PushIntoWorklist(item: DPItem)
      requires worklist.Valid()
      modifies worklist
      ensures worklist.Valid() && worklist.dataList == PushOne(old(worklist.dataList), item)
    {
      var _ := worklist.Push(item);
    }

    method ForwardProcess(item: DPItem)
      modifies this`processed
      ensures processed == old(processed) + {item}
    {
      processed := processed + {item};
    }

    method ForwardPropagate(item: DPItem, dst: NodeID)
      requires worklist.Valid()
      modifies worklist
      ensures worklist.Valid() && worklist.dataList == PushOne(old(worklist.dataList), item.(cur := dst))
    {
      PushIntoWorklist(item.(cur := dst));
    }

    /** One turn of the loop: process an item and push those for its children. */
    method Turn(g: Graph)
      requires worklist.Valid() && !worklist.Empty() && worklist.dataList[0].cur in g.succ
      modifies worklist, this`processed
      ensures worklist.Valid() && worklist.dataList == Round(g, old(worklist.dataList))
      ensures processed == old(processed) + {old(worklist.dataList)[0]}
    {
      var item := worklist.Pop();
      ForwardProcess(item);
      ghost var q := worklist.dataList;
      var kids := g.succ[item.cur];
      var i := 0;
      assert kids[..0] == [];
      while i < |kids|
        invariant i <= |kids| && worklist.Valid() && worklist.dataList == PushAll(q, item, kids[..i])
        invariant processed == old(processed) + {item}
      {
        assert kids[..i + 1][..i] == kids[..i];
        ForwardPropagate(item, kids[i]);
        i := i + 1;
      }
      assert kids[..|kids|] == kids;
    }

    /** From an item from which no cycle can be reached: stops, having processed exactly what can be reached. */
    method ForwardTraverse(it: DPItem)
      requires Valid() && worklist.dataList == []
      requires it.cur in graph.succ && AcyclicFrom(graph, it.cur)
      modifies worklist, this`processed
      ensures Valid() && worklist.dataList == []
      ensures forall x: DPItem :: x in processed <==> x in old(processed) || ItemReaches(graph, it, x)
    {
      Traverse(graph, it);
    }

    method BackwardTraverse(it: DPItem)
      requires Valid() && worklist.dataList == []
      requires it.cur in graph.succ && AcyclicFrom(inverse, it.cur)
      modifies worklist, this`processed
      ensures Valid() && worklist.dataList == []
      ensures forall x: DPItem :: x in processed <==> x in old(processed) || ItemReaches(graph, x, it)
    {
      Traverse(inverse, it);
      forall x: DPItem ensures ItemReaches(inverse, it, x) <==> ItemReaches(graph, x, it) {
        InverseReaches(graph, inverse, x.cur, it.cur);
      }
    }

    method Traverse(g: Graph, it: DPItem)
      requires worklist.Valid() && worklist.dataList == []
      requires ClosedGraph(g) && it.cur in g.succ && AcyclicFrom(g, it.cur)
      modifies worklist, this`processed
      ensures worklist.Valid() && worklist.dataList == []
      ensures forall x: DPItem :: x in processed <==> x in old(processed) || ItemReaches(g, it, x)
    {
      PushIntoWorklist(it);
      ReachesRefl(g, it.cur);
      assert worklist.dataList == [it];
      ghost var done: set<DPItem> := {};
      while !worklist.Empty()
        invariant worklist.Valid() && OnTrack(g, it, done, worklist.dataList) && Fits(g, worklist.dataList)
        invariant processed == old(processed) + done
        decreases QueueWeight(g, worklist.dataList)
      {
        RoundOnTrack(g, it, done, worklist.dataList);
        done := done + {worklist.dataList[0]};
        RoundWeight(g, worklist.dataList);
        assert worklist.dataList[0] in worklist.dataList;
        Turn(g);
      }
      TrackEnds(g, it, done);
    }
  }

  lemma InverseReaches(g: Graph, inv: Graph, a: NodeID, b: NodeID)
    requires Inverse(g, inv)
    ensures Reaches(g, a, b) <==> Reaches(inv, b, a)
  {
    if Reaches(g, a, b) {
      var p :| PathFromTo(g, p, a, b);
      assert PathFromTo(inv, Turned(p), b, a);
    }
    if Reaches(inv, b, a) {
      var p :| PathFromTo(inv, p, b, a);
      assert PathFromTo(g, Turned(p), a, b);
    }
  }

  function Turned(p: seq<NodeID>): (r: seq<NodeID>)
    ensures |r| == |p| && forall i :: 0 <= i < |p| ==> r[i] == p[|p| - 1 - i]
  {
    seq(|p|, i requires 0 <= i < |p| => p[|p| - 1 - i])
  }
}
