/**
 The flow-sensitive solvers: one pass over the components in topological order, with a work list
 inside each component. The class holds the fields of `WPASCCSolver` and `WPAMinimumSolver`;
 `minimum` says which of the two an object is, and so which overriding it uses.
 */
module FsSolver {
  import opened Graphs
  import opened SccRecords
  import opened SccAnswers
  import opened SccDetection
  import opened NodeOrder
  import opened FlowProblem
  import opened WorkList

  class Solver {
    const problem: Problem
    const minimum: bool
    const scc: SCCDetection
    const worklist: FIFOWorkList<NodeID>
    var nodeStack: seq<NodeID>   // the top is the last element
    var curSCC: NodeID
    var candidates: set<NodeID>
    var val: Facts
    ghost var processed: set<NodeID>   // whose facts have been passed on in this run

    constructor (p: Problem, start: Facts, onlyNeeded: bool)
      ensures problem == p && val == start && minimum == onlyNeeded
      ensures Ready() && worklist.dataSet == {} && candidates == {}
    {
      problem, val, minimum := p, start, onlyNeeded;
      scc := new SCCDetection(p.graph);
      worklist := new FIFOWorkList();
      nodeStack, curSCC, candidates, processed := [], 0, {}, {};
    }

    ghost predicate Ready()
      reads this, worklist
    {
      scc.graph == problem.graph && worklist.Valid() && nodeStack == []
    }

    /** Fill the node stack: the detector's topological stack with every component spelled out. */
    method SccDetect() returns (ghost rank: map<NodeID, nat>)
      requires WellFormed(problem.graph) && scc.graph == problem.graph && nodeStack == []
      modifies this`nodeStack, scc
      ensures TopologicalStack(problem.graph, nodeStack)
      ensures Ranks(problem.graph, rank) && Ascending(nodeStack, rank)
      ensures RepsCorrect(problem.graph, scc.info) && SubNodesCorrect(problem.graph, scc.info)
    {
      hide WellFormed, Ranks, RepsCorrect, SubNodesCorrect, TopoCorrect, RepNodesCorrect, PlacedAt, RanksOf, Rank;
      hide TopologicalStack, FromRank;
      scc.Find();
      ghost var g, m, q, pos := problem.graph, scc.info, scc.T, scc.pos;
      rank := RanksOf(m, pos);
      RanksHold(g, m, q, pos);
      var rev: seq<NodeID> := [];
      NoneFromTop(g, m, q, pos);
      while scc.T != []
        invariant |scc.T| <= |q| && scc.T == q[..|scc.T|] && scc.info == m && nodeStack == []
        invariant Distinct(rev) && Descending(rev, rank) && Elems(rev) == FromRank(g, rank, |scc.T|)
        invariant forall n :: n in rev ==> Rank(rank, n) >= |scc.T|
        decreases |scc.T|
      {
        var node := scc.T[|scc.T| - 1];
        SubNodesHaveRank(g, m, q, pos, |scc.T| - 1);
        scc.T := scc.T[..|scc.T| - 1];
        rev := AppendAll(rev, scc.info[node].subNodes, rank, |scc.T|);
      }
      ReverseOnto(rev, rank);
      FromRankZero(g, rank);
      AscendingIsTopological(g, nodeStack, rank);
    }

    /** Push the members of a component, in the order of their ids. */
    method AppendAll(rev: seq<NodeID>, sub: set<NodeID>, ghost rank: map<NodeID, nat>, ghost j: nat)
      returns (r: seq<NodeID>)
      requires Distinct(rev) && Descending(rev, rank) && forall n :: n in rev ==> Rank(rank, n) > j
      requires forall n :: n in sub ==> Rank(rank, n) == j
      ensures Distinct(r) && Descending(r, rank) && Elems(r) == sub + Elems(rev)
      ensures forall n :: n in r ==> Rank(rank, n) >= j
    {
      hide Rank;
      r := rev;
      var rest := sub;
      while rest != {}
        invariant rest <= sub && Elems(r) !! rest && Elems(r) + rest == sub + Elems(rev)
        invariant Distinct(r) && Descending(r, rank) && forall n :: n in r ==> Rank(rank, n) >= j
        decreases rest
      {
        var n := Least(rest);
        DistinctPush(r, n);
        r := r + [n];
        rest := rest - {n};
      }
    }

    /** Move the reversed stack over, which restores the topological order. */
    method ReverseOnto(rev0: seq<NodeID>, ghost rank: map<NodeID, nat>)
      requires Distinct(rev0) && Descending(rev0, rank) && nodeStack == []
      modifies this`nodeStack
      ensures Distinct(nodeStack) && Ascending(nodeStack, rank) && Elems(nodeStack) == Elems(rev0)
    {
      hide Rank;
      var rev := rev0;
      while rev != []
        invariant Distinct(rev) && Descending(rev, rank) && Distinct(nodeStack) && Ascending(nodeStack, rank)
        invariant Elems(nodeStack) !! Elems(rev) && Elems(nodeStack) + Elems(rev) == Elems(rev0)
        invariant forall i, j ::
            0 <= i < |nodeStack| && 0 <= j < |rev| ==> Rank(rank, nodeStack[i]) <= Rank(rank, rev[j])
        decreases |rev|
      {
        var n := rev[|rev| - 1];
        PoppedElems(rev[..|rev| - 1], n);
        assert rev == rev[..|rev| - 1] + [n];
        DistinctPush(nodeStack, n);
        rev := rev[..|rev| - 1];
        nodeStack := nodeStack + [n];
      }
    }

    static lemma FromRankZero(g: Graph, rank: map<NodeID, nat>)
      ensures FromRank(g, rank, 0) == g.succ.Keys
    {}

    // ---------------------------------------------------------------- one component

    /** What has been processed or is noted to be. */
    ghost function Touched(): set<NodeID>
      reads this`processed, this`candidates, worklist
    {
      processed + worklist.dataSet + candidates
    }

    /** Edges out of the current component lead to components that are still to come. */
    ghost predicate InComponent(later: set<NodeID>)
      reads this, scc
    {
      && WellFormed(problem.graph) && curSCC in scc.info
      && (forall v, w :: v in scc.info[curSCC].subNodes && Edge(problem.graph, v, w) ==>
            w in scc.info[curSCC].subNodes || w in later)
    }

    ghost function Todo(later: set<NodeID>, all: bool): Agenda
      reads this, worklist
    {
      Agenda(later, all, worklist.dataSet, candidates)
    }

    /** The work list holds nodes of the current component; candidates are nodes still to come or `own`. */
    ghost predicate Sorted(later: set<NodeID>, own: set<NodeID>)
      reads this, worklist, scc
    {
      && worklist.Valid() && curSCC in scc.info
      && worklist.dataSet <= scc.info[curSCC].subNodes <= problem.graph.succ.Keys
      && candidates <= later + own
    }

    method AddNodeIntoWorkList(n: NodeID, ghost later: set<NodeID>, ghost own: set<NodeID>, ghost all: bool)
      requires InComponent(later) && Sorted(later, own)
      requires n in scc.info[curSCC].subNodes || n in later
      requires all || minimum
      modifies this`candidates, worklist
      ensures Sorted(later, own) && Todo(later, all).Covers(n)
      ensures Extends(old(Todo(later, all)), Todo(later, all)) && (!minimum ==> candidates == old(candidates))
      ensures var inside := n in scc.info[curSCC].subNodes;
        && worklist.dataSet == old(worklist.dataSet) + (if inside then {n} else {})
        && candidates == old(candidates) + if inside || !minimum then {} else {n}
    {
      hide WellFormed, FIFOWorkList.Valid;
      if n in scc.info[curSCC].subNodes {
        var _ := worklist.Push(n);
      } else if minimum {
        candidates := candidates + {n};
      }
    }

    method PropFromSrcToDst(v: NodeID, k: nat) returns (changed: bool)
      requires v in problem.graph.succ && k < |problem.graph.succ[v]|
      modifies this`val
      ensures val == Deliver(problem, old(val), v, k)
      ensures changed <==> At(val, problem.graph.succ[v][k]) != At(old(val), problem.graph.succ[v][k])
      ensures var src, w := if v in old(val) then old(val)[v] else {}, problem.graph.succ[v][k];
        var dst := if w in old(val) then old(val)[w] else {};
        && val == old(val)[w := dst + problem.transfer(v, k, src)]
        && (changed <==> !(problem.transfer(v, k, src) <= dst))
    {
      var w := problem.graph.succ[v][k];
      var dst := At(val, w);
      val := val[w := dst + problem.transfer(v, k, At(val, v))];
      changed := val[w] != dst;
    }

    /** `processNode`: pass the facts of v on along its out-edges. */
    method Propagate(v: NodeID, ghost start: Facts, ghost later: set<NodeID>, ghost own: set<NodeID>, ghost all: bool,
                     ghost starts: set<NodeID>)
      requires InComponent(later) && Sorted(later, own) && v in scc.info[curSCC].subNodes
      requires all || minimum
      requires Monotone(problem) && Bounded(problem) && BelowFixpoints(problem, start, val)
      requires OnTrack(problem, val, Todo(later, all), v, 0)
      requires Leq(start, val) && OnlyNeeded(start, val, starts, Touched() + {v})
      modifies this`candidates, this`val, this`processed, worklist
      ensures processed == old(processed) + {v} && OnlyNeeded(start, val, starts, Touched())
      ensures old(worklist.dataSet) <= worklist.dataSet && old(candidates) <= candidates
      ensures Sorted(later, own) && AllOnTrack(problem, val, Todo(later, all))
      ensures !minimum ==> candidates == old(candidates)
      ensures BelowFixpoints(problem, start, val) && Leq(old(val), val)
      ensures
        || Missing(problem, val) < Missing(problem, old(val))
        || (Missing(problem, val) == Missing(problem, old(val)) && worklist.dataList == old(worklist.dataList))
    {
      hide WellFormed, Monotone, Bounded, BelowFixpoints, OnTrack, Sat, SatEdge, Missing, Deliver, At, OnlyNeeded;
      hide Agenda.Covers, Extends, FIFOWorkList.Valid, Leq;
      var k := 0;
      LeqRefl(val);
      assert processed + {v} + worklist.dataSet + candidates == Touched() + {v};
      processed := processed + {v};
      while k < |problem.graph.succ[v]|
        invariant !minimum ==> candidates == old(candidates)
        invariant k <= |problem.graph.succ[v]| && Sorted(later, own) && InComponent(later)
        invariant OnTrack(problem, val, Todo(later, all), v, k)
        invariant processed == old(processed) + {v} && OnlyNeeded(start, val, starts, Touched()) && Leq(start, val)
        invariant old(worklist.dataSet) <= worklist.dataSet && old(candidates) <= candidates
        invariant BelowFixpoints(problem, start, val) && Leq(old(val), val)
        invariant
          || Missing(problem, val) < Missing(problem, old(val))
          || (Missing(problem, val) == Missing(problem, old(val)) && worklist.dataList == old(worklist.dataList))
      {
        var w := problem.graph.succ[v][k];
        ghost var was, todo, touched := val, Todo(later, all), Touched();
        assert Edge(problem.graph, v, w);
        EdgeStays(problem.graph, v, w);
        DeliverBelow(problem, start, val, v, k);
        DeliverMeasure(problem, val, v, k);
        ExtendsRefl(todo);
        var changed := PropFromSrcToDst(v, k);
        LeqTrans(old(val), was, val);
        LeqTrans(start, was, val);
        if changed {
          AddNodeIntoWorkList(w, later, own, all);
        }
        OnlyNeededStays(start, was, val, starts, touched, Touched());
        DeliverOnTrack(problem, was, todo, Todo(later, all), v, k);
        k := k + 1;
      }
      OnTrackToTheEnd(problem, val, Todo(later, all), v);
    }

    /** Work through the work list until the current component has settled. */
    method Settle(ghost start: Facts, ghost later: set<NodeID>, ghost own: set<NodeID>, ghost all: bool,
                  ghost starts: set<NodeID>)
      requires InComponent(later) && Sorted(later, own) && (all || minimum)
      requires Monotone(problem) && Bounded(problem) && BelowFixpoints(problem, start, val)
      requires AllOnTrack(problem, val, Todo(later, all))
      requires Leq(start, val) && OnlyNeeded(start, val, starts, Touched())
      modifies this`candidates, this`val, this`processed, worklist
      ensures OnlyNeeded(start, val, starts, Touched())
      ensures old(processed) + old(worklist.dataSet) <= processed && old(candidates) <= candidates
      ensures Sorted(later, own) && worklist.dataSet == {}
      ensures !minimum ==> candidates == old(candidates)
      ensures AllOnTrack(problem, val, Todo(later, all))
      ensures BelowFixpoints(problem, start, val) && Leq(old(val), val)
    {
      hide WellFormed, Monotone, Bounded, BelowFixpoints, OnTrack, Sat, SatEdge, Missing, At, AllOnTrack, OnlyNeeded;
      hide Agenda.Covers, FIFOWorkList.Valid, Leq;
      LeqRefl(val);
      while !worklist.Empty()
        invariant InComponent(later) && Sorted(later, own) && (!minimum ==> candidates == old(candidates))
        invariant AllOnTrack(problem, val, Todo(later, all))
        invariant OnlyNeeded(start, val, starts, Touched()) && Leq(start, val)
        invariant old(processed) + old(worklist.dataSet) <= processed + worklist.dataSet
        invariant old(candidates) <= candidates
        invariant BelowFixpoints(problem, start, val) && Leq(old(val), val)
        decreases Missing(problem, val), |worklist.dataList|
      {
        ghost var was, todo, touched := val, Todo(later, all), Touched();
        var v := worklist.Pop();
        OneOffTrack(problem, val, todo, Todo(later, all), v);
        assert Touched() + {v} == touched;
        Propagate(v, start, later, own, all, starts);
        LeqTrans(old(val), was, val);
        LeqTrans(start, was, val);
      }
      worklist.EmptyMeansNone();
    }

    // ---------------------------------------------------------------- all components

    method PushAll(nodes: set<NodeID>)
      requires worklist.Valid() && worklist.dataSet == {}
      modifies worklist
      ensures worklist.Valid() && worklist.dataSet == nodes
    {
      hide FIFOWorkList.Valid;
      var rest := nodes;
      while rest != {}
        invariant rest <= nodes && worklist.Valid() && worklist.dataSet == nodes - rest
        decreases rest
      {
        var n := Least(rest);
        var _ := worklist.Push(n);
        rest := rest - {n};
      }
    }

    /** The agenda between components: what is left is among the nodes still to come. */
    ghost function Rest(all: bool): Agenda
      reads this, scc
    {
      Agenda(Later(scc.info, nodeStack), all, {}, candidates)
    }

    /** The stack is what remains of the topological stack ns. */
    ghost predicate Traversing(ns: seq<NodeID>, rank: map<NodeID, nat>)
      reads this, scc
    {
      && RepsCorrect(problem.graph, scc.info) && SubNodesCorrect(problem.graph, scc.info)
      && Ranks(problem.graph, rank) && Ascending(ns, rank) && Distinct(ns) && Elems(ns) == problem.graph.succ.Keys
      && |nodeStack| <= |ns| && nodeStack == ns[..|nodeStack|]
    }

    /** The turn of one node of the stack: if it is a representative, its component settles. */
    method SolveTop(ghost start: Facts, ghost ns: seq<NodeID>, ghost rank: map<NodeID, nat>, all: bool,
                    ghost starts: set<NodeID>)
      requires WellFormed(problem.graph) && Traversing(ns, rank) && nodeStack != [] && (all || minimum)
      requires worklist.Valid() && worklist.dataSet == {} && candidates <= Later(scc.info, nodeStack)
      requires !minimum ==> candidates == {}
      requires Monotone(problem) && Bounded(problem) && BelowFixpoints(problem, start, val)
      requires AllOnTrack(problem, val, Rest(all))
      requires Leq(start, val) && OnlyNeeded(start, val, starts, processed + candidates)
      requires all ==> starts == problem.graph.succ.Keys
      modifies this`nodeStack, this`curSCC, this`candidates, this`val, this`processed, worklist
      ensures OnlyNeeded(start, val, starts, processed + candidates)
      ensures old(processed + candidates) <= processed + candidates
      ensures all ==> old(processed + Later(scc.info, nodeStack)) <= processed + Later(scc.info, nodeStack)
      ensures Traversing(ns, rank) && |nodeStack| < |old(nodeStack)|
      ensures worklist.Valid() && worklist.dataSet == {} && candidates <= Later(scc.info, nodeStack)
      ensures !minimum ==> candidates == {}
      ensures BelowFixpoints(problem, start, val) && Leq(old(val), val)
      ensures AllOnTrack(problem, val, Rest(all))
    {
      hide WellFormed, Monotone, Bounded, BelowFixpoints, AllOnTrack, FIFOWorkList.Valid, Later;
      hide RepsCorrect, SubNodesCorrect, Ranks, Ascending, Distinct, Elems, Leq, At;
      var rep := nodeStack[|nodeStack| - 1];
      PopNode(problem.graph, scc.info, rank, ns, |nodeStack| - 1);
      ghost var before := Rest(all);
      assert ns[..|nodeStack| - 1 + 1] == nodeStack && nodeStack[..|nodeStack| - 1] == ns[..|nodeStack| - 1];
      nodeStack := nodeStack[..|nodeStack| - 1];
      curSCC := scc.RepNode(rep);
      ghost var later := Later(scc.info, nodeStack);
      assert before.later == later + scc.info[rep].subNodes;
      var sccNodes := scc.info[rep].subNodes;
      if !all {
        sccNodes := sccNodes * candidates;
      }
      PushAll(sccNodes);
      NewAgenda(problem, val, before, Todo(later, all));
      assert OnlyNeeded(start, val, starts, Touched());
      Settle(start, later, sccNodes, all, starts);
      ghost var after := Todo(later, all);
      if minimum {
        candidates := candidates - sccNodes;
      }
      NewAgenda(problem, val, after, Rest(all));
    }

    /** The pass over the node stack, which both solvers make. */
    method SolveStack(ghost start: Facts, all: bool)
      requires Ready() && worklist.dataSet == {} && candidates <= problem.graph.succ.Keys
      requires WellFormed(problem.graph) && Monotone(problem) && Bounded(problem) && (all || minimum)
      requires !minimum ==> candidates == {}
      requires BelowFixpoints(problem, start, val)
      requires AllOnTrack(problem, val, Agenda(problem.graph.succ.Keys, all, {}, candidates))
      requires processed == {} && val == start
      modifies this, scc, worklist
      ensures var starts := if all then problem.graph.succ.Keys else old(candidates);
        starts <= processed && OnlyNeeded(start, val, starts, processed)
      ensures Ready() && worklist.dataSet == {} && candidates == {}
      ensures LeastFixpointAbove(problem, start, val)
    {
      hide WellFormed, Monotone, Bounded, BelowFixpoints, AllOnTrack, FIFOWorkList.Valid, Later;
      hide RepsCorrect, SubNodesCorrect, Ranks, Ascending, Elems, Leq, Fixpoint, At;
      ghost var rank := SccDetect();
      ghost var ns, starts := nodeStack, if all then problem.graph.succ.Keys else candidates;
      LeqRefl(val);
      EverythingLater(problem.graph, scc.info, ns);
      assert ns == ns[..|ns|];
      while nodeStack != []
        invariant scc.graph == problem.graph && Traversing(ns, rank) && worklist.Valid() && worklist.dataSet == {}
        invariant candidates <= Later(scc.info, nodeStack) && (!minimum ==> candidates == {})
        invariant BelowFixpoints(problem, start, val) && Leq(start, val)
        invariant AllOnTrack(problem, val, Rest(all)) && OnlyNeeded(start, val, starts, processed + candidates)
        invariant starts <= processed + if all then Later(scc.info, nodeStack) else candidates
        decreases |nodeStack|
      {
        ghost var was := val;
        SolveTop(start, ns, rank, all, starts);
        LeqTrans(start, was, val);
      }
      EverythingLater(problem.graph, scc.info, ns);
      NothingLeft(problem, val, Rest(all));
    }

    /** `WPASCCSolver::solve`: one pass over all components reaches the least fixpoint. */
    method Solve()
      requires !minimum && Ready() && candidates == {}
      requires WellFormed(problem.graph) && Monotone(problem) && Bounded(problem)
      modifies this, scc, worklist
      ensures Ready() && worklist.dataSet == {} && candidates == {}
      ensures LeastFixpointAbove(problem, old(val), val) && problem.graph.succ.Keys <= processed
    {
      hide WellFormed, Monotone, Bounded, AllOnTrack, LeastFixpointAbove, FIFOWorkList.Valid;
      processed := {};
      while !worklist.Empty()
        invariant worklist.Valid() && val == old(val) && candidates == processed == {} && nodeStack == []
        decreases |worklist.dataList|
      {
        var _ := worklist.Pop();
      }
      worklist.EmptyMeansNone();
      LeqRefl(val);
      AllOnTrackAtFirst(problem, val, Agenda(problem.graph.succ.Keys, true, {}, {}));
      SolveStack(val, true);
    }

    /** The nodes with undelivered facts. */
    ghost predicate Unsatisfied(n: NodeID)
      reads this
    {
      n in problem.graph.succ && !Sat(problem, val, n)
    }

    /** `WPAMinimumSolver::solve`: starting from the nodes of the work list, or from all if there are none,
        reaches the same fixpoint, provided every node with undelivered facts is a start node. It processes the
        start nodes, and no others but those that have got new facts. */
    method SolveMinimum()
      requires minimum && Ready()
      requires WellFormed(problem.graph) && Monotone(problem) && Bounded(problem)
      requires worklist.dataSet + candidates <= problem.graph.succ.Keys
      requires worklist.Empty() || forall n :: Unsatisfied(n) ==> n in worklist.dataSet + candidates
      modifies this, scc, worklist
      ensures Ready() && worklist.dataSet == {} && candidates == {}
      ensures LeastFixpointAbove(problem, old(val), val)
      ensures var starts := if old(worklist.dataList) == [] then problem.graph.succ.Keys
                            else old(worklist.dataSet + candidates);
        && starts <= processed
        && forall n :: n in processed && n !in starts ==> At(val, n) != At(old(val), n)
    {
      hide WellFormed, Monotone, Bounded, AllOnTrack, LeastFixpointAbove, FIFOWorkList.Valid, Sat;
      processed := {};
      var solveAll := true;
      ghost var starts := worklist.dataSet + candidates;
      worklist.EmptyMeansNone();
      if !worklist.Empty() {
        solveAll := false;
        while !worklist.Empty()
          invariant worklist.Valid() && worklist.dataSet + candidates == starts
          invariant val == old(val) && nodeStack == [] && processed == {}
          decreases |worklist.dataList|
        {
          var n := worklist.Pop();
          candidates := candidates + {n};
        }
        worklist.EmptyMeansNone();
      }
      LeqRefl(val);
      AllOnTrackAtFirst(problem, val, Agenda(problem.graph.succ.Keys, solveAll, {}, candidates));
      SolveStack(val, solveAll);
    }
  }
}
