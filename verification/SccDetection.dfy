/** The SCC detector: a class whose recursive `Visit` updates its fields in place. */
module SccDetection {
  import opened Graphs
  import opened Scc
  import opened SccRecords
  import opened SccAnswers

  class SCCDetection {
    const graph: Graph
    var info: InfoMap    // _NodeSCCAuxInfo
    var I: nat
    var D: map<NodeID, nat>
    var SS: seq<NodeID>  // the top of a stack is its last element
    var T: seq<NodeID>
    var repNodes: set<NodeID>
    ghost var pos: map<NodeID, nat>  // where on T a node is

    constructor (g: Graph)
      ensures graph == g
    {
      graph, info, I, D, SS, T, repNodes, pos := g, map[], 0, map[], [], [], {}, map[];
    }

    ghost function Others(): Rest
      reads this
    {
      Rest(D, I, SS, T, pos, repNodes)
    }

    /** What has been recorded so far, as a value. */
    ghost function View(): State
      reads this
    {
      Recorded(info, Others())
    }

    /** Exactly the visited nodes have an entry, and `pos` tells where each node of T is. */
    ghost predicate Clean()
      reads this
    {
      && info.Keys == D.Keys && (forall n :: n in info ==> info[n].visited)
      && Distinct(SS) && PlacedAt(T, pos)
    }

    function Order(n: NodeID): nat
      reads this
    {
      if n in D then D[n] else 0
    }

    method Clear()
      modifies this
      ensures Clean() && info == map[] && I == 0 && SS == T == [] && repNodes == {}
    {
      info, I, D, repNodes, SS, T, pos := map[], 0, map[], {}, [], [], map[];
    }

    method SetVisited(n: NodeID)
      modifies this`info
      ensures info == old(info)[n := Lookup(old(info), n).(visited := true)]
    {
      info := info[n := Lookup(info, n).(visited := true)];
    }

    method SetInSCC(n: NodeID)
      modifies this`info
      ensures info == old(info)[n := Lookup(old(info), n).(inSCC := true)]
    {
      info := info[n := Lookup(info, n).(inSCC := true)];
    }

    /** `rep(n, r)`. */
    method SetRep(n: NodeID, r: NodeID)
      modifies this`info, this`repNodes
      ensures info == WithRep(old(info), n, r)
      ensures repNodes == if n == r then old(repNodes) else old(repNodes) - {n} + {r}
    {
      info := info[n := Lookup(info, n).(rep := r)];
      info := info[r := Lookup(info, r).(subNodes := Lookup(info, r).subNodes + {n})];
      if n != r {
        info := info[n := Lookup(info, n).(subNodes := {})];
        repNodes := repNodes - {n};
        repNodes := repNodes + {r};
      }
    }

    /** The first lines of `visit`. */
    method EnterNode(v: NodeID)
      requires Clean() && v !in info
      modifies this`info, this`repNodes, this`I, this`D
      ensures Clean() && Entered(old(View()), View(), v)
    {
      hide Recorded, Entered, Distinct, PlacedAt;
      EnterRecorded(info, Others(), v);
      I := I + 1;
      D := D[v := I];
      SetRep(v, v);
      SetVisited(v);
      assert FRESH.subNodes + {v} == {v};
      assert info == old(info)[v := Info(true, false, v, {v})];
    }

    /** `rep(n, r)` on nodes that have been visited. */
    method RedirectNode(n: NodeID, r: NodeID)
      requires Clean() && n in info && r in info
      modifies this`info, this`repNodes
      ensures Clean() && Redirected(old(View()), View(), n, r)
    {
      hide Recorded, Redirected, WithRep, Distinct, PlacedAt;
      WithRepAt(info, n, r);
      if n == r {
        RedirectSelfRecorded(info, Others(), n);
        SetRep(n, r);
      } else {
        RedirectRecorded(info, Others(), n, r);
        SetRep(n, r);
      }
    }

    /** Move the top of the stack into the component of v. */
    method PopInto(v: NodeID)
      requires Clean() && SS != [] && v in info && SS[|SS| - 1] in info && SS[|SS| - 1] != v
      modifies this`info, this`SS, this`repNodes
      ensures Clean() && info.Keys == old(info).Keys
      ensures SS == old(SS)[..|old(SS)| - 1] && old(SS)[|old(SS)| - 1] in old(Elems(SS))
      ensures Elems(SS) == old(Elems(SS)) - {old(SS)[|old(SS)| - 1]}
      ensures Popped(old(View()), View(), v, old(SS)[|old(SS)| - 1])
    {
      var x := SS[|SS| - 1];
      var q := SS[..|SS| - 1];
      assert SS == q + [x];
      PoppedElems(q, x);
      PopRecorded(info, Others(), q, x, v);
      WithRepAt(info[x := info[x].(inSCC := true)], x, v);
      hide Recorded, Popped, WithRep, PlacedAt, Elems;
      SS := q;
      SetInSCC(x);
      SetRep(x, v);
    }

    /** Mark v and the nodes stacked above height k as one component. */
    method GatherComponent(v: NodeID, ghost k: nat)
      requires Clean() && Poppable(info, Others(), v, k)
      modifies this`info, this`SS, this`repNodes
      ensures Clean() && SS == old(SS)[..k]
      ensures var w := old(Elems(SS)) - Elems(SS);
        Gathered(old(View()), View(), v, w) && SameTopo(old(View()), View())
    {
      hide Recorded, Gathered, Popped, SameTopo, PlacedAt, Distinct, Elems, Poppable;
      ghost var s, r, m := View(), Others(), info;
      ghost var w := {};
      PoppableAvoids(m, r, v, k);
      DoneRecorded(info, r, v);
      SetInSCC(v);
      while SS != []
        invariant k <= |SS| <= |r.SS| && SS == r.SS[..|SS|]
        invariant w == Elems(r.SS) - Elems(SS) && Elems(SS) <= Elems(r.SS)
        invariant Clean() && info.Keys == m.Keys
        invariant Gathered(s, View(), v, w) && SameTopo(s, View())
        decreases |SS|
      {
        var x := SS[|SS| - 1];
        PoppableAt(m, r, v, k, |SS| - 1);
        if Order(x) <= Order(v) {
          break;
        } else {
          ghost var t := View();
          PopInto(v);
          GatherOneMore(s, t, View(), v, w, x);
          w := w + {x};
        }
      }
    }

    lemma PoppableHere(s0: State, v: NodeID, active: set<NodeID>, k: nat)
      requires Clean() && Numbered(graph, s0) && Stacked(s0, active) && Numbered(graph, View())
      requires Stacked(View(), active + {v})
      requires v in graph.succ && Exploring(graph, s0, View(), v, |graph.succ[v]|, View().Ord(v)) && View().Rep(v) == v
      requires k <= |SS| && Elems(SS[..k]) == s0.stack
      ensures Poppable(info, Others(), v, k)
    {
      var s := View();
      RootIsReady(graph, s0, s, v, active);
      RecordedAt(info, Others(), s);
      hide Exploring, Recorded, Reaches, State.Rep, State.Sub, State.Ord, State.Pos;
      forall i | 0 <= i < |SS|
        ensures SS[i] in info && SS[i] in D && SS[i] != v && (i >= k <==> D[SS[i]] > D[v])
      {
        assert SS[i] in s.stack && s.Pending(SS[i]);
        if i < k {
          assert SS[..k][i] in Elems(SS[..k]);
        } else {
          assert forall j :: 0 <= j < k ==> SS[..k][j] != SS[i];
        }
      }
    }

    method Visit(v: NodeID, ghost active: set<NodeID>)
      requires WellFormed(graph) && v in graph.succ && v !in info
      requires Clean() && Inv(graph, View(), active)
      modifies this
      ensures Clean() && Inv(graph, View(), active) && VisitedFrom(graph, old(View()), View(), v)
      ensures old(SS) <= SS && (v in View().done ==> SS == old(SS))
      decreases graph.succ.Keys - View().vis, 0
    {
      hide Numbered, Stacked, RepsOk, StackOk, PendingSubs, RepNodesOk, DoneOk, Topological, VisitedFrom;
      hide Entered, Redirected, Popped;
      hide Distinct, PlacedAt, Exploring;
      ghost var s0, stack := View(), SS;
      EnterNode(v);
      EnterKeepsInv(graph, s0, View(), v, active);
      var i := 0;
      while i < |graph.succ[v]|
        invariant i <= |graph.succ[v]|
        invariant Clean() && Inv(graph, View(), active + {v}) && stack <= SS
        invariant Exploring(graph, s0, View(), v, i, View().Ord(View().Rep(v)))
      {
        ExploringGrows(graph, s0, View(), v, i, View().Ord(View().Rep(v)));
        VisitChild(v, i, s0, active + {v});
        i := i + 1;
      }
      if Lookup(info, v).rep == v {
        CloseComponent(v, s0, active, |stack|);
      } else {
        ghost var s := View();
        ghost var q := SS;
        PushRecorded(info, Others(), v);
        SS := SS + [v];
        PushKeepsInv(graph, s0, s, View(), v, active);
        DistinctPush(q, v);
      }
    }

    /** The body of the loop over the children of v. */
    method VisitChild(v: NodeID, i: nat, ghost s0: State, ghost active: set<NodeID>)
      requires WellFormed(graph) && v in graph.succ && i < |graph.succ[v]| && v in active
      requires Clean() && Inv(graph, View(), active)
      requires Exploring(graph, s0, View(), v, i, View().Ord(View().Rep(v)))
      modifies this
      ensures Clean() && Inv(graph, View(), active) && old(SS) <= SS
      ensures Exploring(graph, s0, View(), v, i + 1, View().Ord(View().Rep(v)))
      decreases graph.succ.Keys - View().vis, 1
    {
      hide Numbered, Stacked, RepsOk, StackOk, PendingSubs, RepNodesOk, DoneOk, Topological, VisitedFrom;
      var w := graph.succ[v][i];
      assert Edge(graph, v, w);
      ghost var b := View().Ord(View().Rep(v));
      if !Lookup(info, w).visited {
        ghost var s := View();
        Visit(w, active);
        ChildVisited(graph, s0, s, View(), v, w, active, i);
        b := NextBound(View(), v, w);
      }
      ChildReady(graph, s0, View(), v, active, i, b);
      if !Lookup(info, w).inSCC {
        var repV, repW := Lookup(info, v).rep, Lookup(info, w).rep;
        var r := if Order(repV) < Order(repW) then repV else repW;
        ghost var s := View();
        RedirectNode(v, r);
        RedirectKeepsInv(graph, s0, s, View(), v, r, active, i + 1, NextBound(s, v, w));
      }
    }

    /** The root branch at the end of `visit`. */
    method CloseComponent(v: NodeID, ghost s0: State, ghost active: set<NodeID>, ghost k: nat)
      requires v in graph.succ && v !in active && View().Rep(v) == v
      requires Clean() && Inv(graph, s0, active) && Inv(graph, View(), active + {v})
      requires Exploring(graph, s0, View(), v, |graph.succ[v]|, View().Ord(v))
      requires k <= |SS| && Elems(SS[..k]) == s0.stack
      modifies this
      ensures Clean() && Inv(graph, View(), active) && VisitedFrom(graph, s0, View(), v)
      ensures SS == old(SS)[..k]
    {
      hide Numbered, Stacked, RepsOk, StackOk, PendingSubs, RepNodesOk, DoneOk, Topological, VisitedFrom;
      hide Exploring, Poppable, Gathered, SameTopo, Closed;
      ghost var s := View();
      PoppableHere(s0, v, active, k);
      GatherComponent(v, k);
      CloseRecorded(info, Others(), s, v, s.stack - s0.stack);
      ghost var q, p := T, pos;
      pos := pos[v := |T|];
      T := T + [v];
      CloseKeepsInv(graph, s0, s, View(), v, active, s.stack - s0.stack);
      PlacedPush(q, p, v);
      hide PlacedAt, Distinct;
    }

    method Find()
      requires WellFormed(graph)
      modifies this
      ensures Correct(graph, info, T, repNodes) && PlacedAt(T, pos) && SS == []
    {
      hide Numbered, Stacked, RepsOk, StackOk, PendingSubs, RepNodesOk, DoneOk, Topological, VisitedFrom;
      Clear();
      InitialInv();
      var i := 0;
      while i < |graph.nodes|
        invariant i <= |graph.nodes| && Clean() && Inv(graph, View(), {}) && SS == []
        invariant forall j :: 0 <= j < i ==> graph.nodes[j] in View().vis
      {
        var node := graph.nodes[i];
        if !Lookup(info, node).visited {
          assert Lookup(info, node).rep == UINT_MAX;
          if Lookup(info, node).rep == UINT_MAX || Lookup(info, node).rep == node {
            ghost var s := View();
            Visit(node, {});
            TopLevelVisit(graph, s, View(), node);
          }
        }
        i := i + 1;
      }
      AllVisitedAreDone(graph, View());
      hide *;
      RecordedReps(graph, info, Others());
      RecordedSubs(graph, info, Others());
      RecordedTopo(graph, info, Others());
    }

    lemma InitialInv()
      requires info == map[] && I == 0 && SS == T == [] && repNodes == {} && Clean()
      ensures Inv(graph, View(), {})
    {
      var s := View();
      assert s.vis == {} && s.done == {} && s.stack == {} && s.roots == {} && s.repNodes == {};
    }

    /** `repNode`. */
    function RepNode(n: NodeID): NodeID
      requires n in info
      reads this
    {
      RepOf(info, n)
    }

    /** Whether n is in a cycle: its component has several nodes, or its representative has a self-edge. */
    method IsInCycle(n: NodeID) returns (b: bool)
      requires WellFormed(graph) && Correct(graph, info, T, repNodes) && n in info
      ensures b <==> OnCycle(graph, n)
    {
      hide WellFormed, SubNodesCorrect, RepNodesCorrect, TopoCorrect, OnCycle, MutuallyReach;
      var rep := RepNode(n);
      CycleCases(graph, info, n);
      if |info[rep].subNodes| > 1 {
        b := true;
      } else {
        b := false;
        for i := 0 to |graph.succ[rep]|
          invariant forall j :: 0 <= j < i ==> graph.succ[rep][j] != rep
        {
          if graph.succ[rep][i] == rep {
            return true;
          }
        }
      }
    }
  }
}
