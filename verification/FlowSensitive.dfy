/**
 The flow-sensitive analysis on top of the incremental store: how it processes the nodes of the value-flow
 graph, and that it never calls the store in a way that the discipline does not allow.
 */
module FlowSensitive {
  import opened DfPoints
  import opened DfPtData
  import opened IncPtData
  import opened IncRefines
  import opened FlowEffects
  import opened FlowRuns
  import O = Orders
  import opened WorkList

  class FlowSensitive {
    const ptd: IncDFPTData
    const nodes: Nodes
    const inert: set<Key>            // constant and non-pointer objects
    const strongable: set<Key>       // objects that stand for one memory cell
    const worklist: FIFOWorkList<LocId>
    var outs: OutEdges
    ghost var net: Net

    ghost predicate Ready()
      reads this, ptd, ptd.data
    {
      ptd.Valid() && NetOf(nodes, outs, net) && NothingLost(net, ptd.View())
    }

    /** What holds before and after each node is processed. */
    ghost predicate Valid()
      reads this, ptd, ptd.data
    {
      Ready() && Quiet(ptd.View())
    }

    ghost function TheGraph(): Graph
      reads this
    {
      Graph(nodes, outs, inert, strongable)
    }

    constructor (nodes: Nodes, outs: OutEdges, inert: set<Key>, strongable: set<Key>, ghost net: Net)
      requires NetOf(nodes, outs, net)
      ensures Valid() && fresh(ptd) && fresh(ptd.data) && fresh(worklist) && this.net == net
      ensures TheGraph() == Graph(nodes, outs, inert, strongable)
      ensures worklist.Valid() && worklist.dataSet == {} && NoSets(ptd.View().df)
    {
      ptd := new IncDFPTData();
      worklist := new FIFOWorkList();
      this.nodes, this.inert, this.strongable, this.outs, this.net := nodes, inert, strongable, outs, net;
      new;
      NothingLostAtStart(net);
    }

    // ---------------------------------------------------------------- processing

    /** Everything that what the pointer points to may hold goes to the loaded variable. The objects are those that
        the pointer points to when the load is processed. */
    method ProcessLoad(loc: LocId) returns (changed: bool)
      requires Valid() && loc in nodes && nodes[loc].Load?
      modifies ptd, ptd.data
      ensures Valid()
      ensures var s, load := old(ptd.View()).df, nodes[loc];
        LoadEffect(s, ptd.View().df, loc, load.dst, Top(s, load.ptr) - inert, changed)
    {
      hide NetOf, NothingLost, IncStep, PlainStep, IncDFPTData.Valid, SameInFlags, FlaggedOut, FlaggedIn, LoadEffect;
      hide In, Out, Top;
      var load := nodes[loc];
      LoadIsLoad(nodes, outs, net, loc);
      ghost var x0 := ptd.View();
      var todo := ptd.GetPts(load.ptr);
      ghost var all := todo;
      UntouchedKeeps(net, x0, ptd.View());
      LoadNothing(x0.df, ptd.View().df, loc, load.dst);
      hide SameSets;
      changed := false;
      assert all - todo - inert == {};
      while todo != {}
        invariant Valid() && todo <= all && LoadEffect(x0.df, ptd.View().df, loc, load.dst, all - todo - inert, changed)
      {
        var obj :| obj in todo;
        ghost var done := all - todo - inert;
        todo := todo - {obj};
        assert all - todo - inert == if obj in inert then done else done + {obj};
        if obj !in inert {
          ghost var x := ptd.View();
          var grew := ptd.UpdateTLVPts(loc, obj, load.dst);
          Disciplined(net, x, TlvPts(loc, obj, load.dst), ptd.View(), grew);
          InsKeepOutFlags(x, TlvPts(loc, obj, load.dst), ptd.View(), grew);
          LoadOneMore(x0.df, x.df, ptd.View().df, loc, load.dst, done, obj, changed, grew);
          changed := changed || grew;
        }
      }
      assert all - todo - inert == all - inert;
    }

    /** The stored value goes to everything the pointer points to; the rest passes through, but for the one object
        that is overwritten for sure. */
    method ProcessStore(loc: LocId) returns (changed: bool)
      requires Valid() && IsStore(nodes, loc)
      modifies ptd, ptd.data
      ensures Ready() && QuietBut(ptd.View(), loc) && (!changed ==> Quiet(ptd.View()))
      ensures NodeEffect(nodes[loc], inert, strongable, old(ptd.View()).df, ptd.View().df, loc, changed)
    {
      hide NetOf, NothingLost, IncStep, PlainStep, IncDFPTData.Valid, SameInFlags, FlaggedOut, FlaggedIn;
      hide StoreEffect, In, Out, Top;
      var store := nodes[loc];
      StoreIsStore(nodes, outs, net, loc);
      ghost var x0 := ptd.View();
      var dstPts := ptd.GetPts(store.ptr);
      UntouchedKeeps(net, x0, ptd.View());
      if dstPts == {} { return false; }
      ghost var x1 := ptd.View();
      var value := ptd.GetPts(store.value);
      UntouchedKeeps(net, x1, ptd.View());
      SameTwice(x0.df, x1.df, ptd.View().df);
      hide SameSets;
      assert value == Top(x0.df, store.value);
      changed := StoreValue(loc, store.value, value, dstPts, x0.df);
      var strong, singleton := IsStrongUpdate(dstPts);
      ghost var x := ptd.View();
      var grew := ptd.UpdateAllDFOutFromIn(loc, singleton, strong);
      Disciplined(net, x, AllOutFromIn(loc, singleton, strong), ptd.View(), grew);
      OutsFlagOnlyHere(x, AllOutFromIn(loc, singleton, strong), ptd.View(), grew);
      StoreAndPass(x0.df, x.df, ptd.View().df, loc, dstPts - inert, value, singleton, strong, changed, grew);
      KilledIs(dstPts, strongable, strong, singleton);
      changed := changed || grew;
    }

    /** The loop over the objects that the value is stored to. */
    method StoreValue(loc: LocId, src: Key, value: set<Key>, dstPts: set<Key>, ghost s: Df) returns (changed: bool)
      requires Valid() && IsStore(nodes, loc) && SameSets(s, ptd.View().df) && value == Top(s, src)
      modifies ptd, ptd.data
      ensures Ready() && QuietBut(ptd.View(), loc) && (!changed ==> Quiet(ptd.View()))
      ensures StoreEffect(s, ptd.View().df, loc, dstPts - inert, value, false, {}, changed)
    {
      hide NetOf, NothingLost, IncStep, PlainStep, IncDFPTData.Valid, SameInFlags, FlaggedOut, FlaggedIn;
      hide StoreEffect, In, Out, Top;
      StoreNothing(s, ptd.View().df, loc, value);
      hide SameSets;
      changed := false;
      if value != {} {
        var todo := dstPts;
        assert dstPts - todo - inert == {};
        while todo != {}
          invariant Ready() && QuietBut(ptd.View(), loc) && (!changed ==> Quiet(ptd.View())) && todo <= dstPts
          invariant StoreEffect(s, ptd.View().df, loc, dstPts - todo - inert, value, false, {}, changed)
        {
          var obj :| obj in todo;
          ghost var done := dstPts - todo - inert;
          todo := todo - {obj};
          assert dstPts - todo - inert == if obj in inert then done else done + {obj};
          if obj !in inert {
            ghost var x := ptd.View();
            var grew := ptd.UpdateATVPts(src, loc, obj);
            Disciplined(net, x, AtvPts(src, loc, obj), ptd.View(), grew);
            OutsFlagOnlyHere(x, AtvPts(src, loc, obj), ptd.View(), grew);
            StoreOneMore(s, x.df, ptd.View().df, loc, done, src, obj, changed, grew);
            changed := changed || grew;
          }
        }
        assert dstPts - todo - inert == dstPts - inert;
      } else {
        StoreOfNothing(s, ptd.View().df, loc, dstPts - inert);
      }
    }

    /** The one object pointed to, if it is sure to be one memory cell. */
    method IsStrongUpdate(dstPts: set<Key>) returns (strong: bool, singleton: Key)
      ensures strong ==> dstPts == {singleton} && singleton in strongable
      ensures !strong ==> forall o: Key :: dstPts == {o} ==> o !in strongable
    {
      strong, singleton := false, 0;
      if |dstPts| == 1 {
        var o :| o in dstPts;
        OneElement(dstPts, o);
        if o in strongable { strong, singleton := true, o; }
      }
    }

    method ProcessSvfgNode(loc: LocId) returns (changed: bool)
      requires Valid() && loc in nodes
      modifies ptd, ptd.data
      ensures Ready() && QuietBut(ptd.View(), loc) && (!changed ==> Quiet(ptd.View()))
      ensures !IsStore(nodes, loc) ==> Quiet(ptd.View())
      ensures NodeEffect(nodes[loc], inert, strongable, old(ptd.View()).df, ptd.View().df, loc, changed)
    {
      hide NetOf, NothingLost, IncStep, PlainStep, IncDFPTData.Valid, SameInFlags, FlaggedOut, FlaggedIn, LoadEffect;
      hide In, Out, Top;
      hide StoreEffect;
      ghost var x := ptd.View();
      match nodes[loc] {
        case Addr(dst, obj) =>
          changed := ptd.AddPointsTo(dst, obj);
          Disciplined(net, x, AddPts(dst, obj), ptd.View(), changed);
          InsKeepOutFlags(x, AddPts(dst, obj), ptd.View(), changed);
        case Copy(dst, src) =>
          changed := ptd.UnionPointsTo(dst, src);
          Disciplined(net, x, UnionPts(dst, src), ptd.View(), changed);
          InsKeepOutFlags(x, UnionPts(dst, src), ptd.View(), changed);
        case Load(_, _) => changed := ProcessLoad(loc);
        case Store(_, _) => changed := ProcessStore(loc);
        case Mssa =>
          changed := true;
      }
    }

    // ---------------------------------------------------------------- propagation

    method PropVarPtsFromSrcToDst(v: Key, src: LocId, dst: LocId) returns (changed: bool)
      requires Ready() && src in nodes && (nodes[src].Mssa? || (nodes[src].Store? && Edge(src, v, dst, v) in net.edges))
      modifies ptd, ptd.data
      ensures Ready() && SameOutFlags(old(ptd.View()), ptd.View())
      ensures PlainStep(old(ptd.View()).df, PropOp(nodes, src, v, dst), ptd.View().df, changed)
    {
      hide NothingLost, IncStep, PlainStep, IncDFPTData.Valid, SameSets, SameInFlags, FlaggedOut, FlaggedIn;
      ghost var x := ptd.View();
      var e := Edge(src, v, dst, v);
      if nodes[src].Store? {
        changed := ptd.UpdateDFInFromOut(e);
        Disciplined(net, x, InFromOut(e), ptd.View(), changed);
        InsKeepOutFlags(x, InFromOut(e), ptd.View(), changed);
      } else {
        changed := ptd.UpdateDFInFromIn(e);
        Disciplined(net, x, InFromIn(e), ptd.View(), changed);
        InsKeepOutFlags(x, InFromIn(e), ptd.View(), changed);
      }
    }

    /** The edge delivers, for all the objects it carries, whatever its source has. */
    method PropAlongIndirectEdge(src: LocId, i: nat, ghost s: Df, ghost to: set<(LocId, Key)>) returns (changed: bool)
      requires Ready() && i < |Outs(outs, src)| && Outs(outs, src)[i].Indirect?
      requires PropEffect(nodes, s, ptd.View().df, src, to)
      modifies ptd, ptd.data
      ensures Ready() && SameOutFlags(old(ptd.View()), ptd.View())
      ensures PropEffect(nodes, s, ptd.View().df, src, to + PairsOf(Outs(outs, src)[i]))
      ensures var d := Outs(outs, src)[i].dst;
        GrewOnlyAt(old(ptd.View()).df, ptd.View().df, d) && (changed <==> GrewAt(old(ptd.View()).df, ptd.View().df, d))
    {
      hide NothingLost, PlainStep, IncDFPTData.Valid, FlaggedOut, FlaggedIn, In, Out, Top, PropEffect, GrewOnlyAt;
      hide GrewAt;
      ghost var t := ptd.View().df;
      GrewNowhere(t, Outs(outs, src)[i].dst);
      var edge := Outs(outs, src)[i];
      var todo := edge.vars;
      ghost var reached := to;
      changed := false;
      while todo != {}
        invariant todo <= edge.vars && Ready() && SameOutFlags(old(ptd.View()), ptd.View())
        invariant PropEffect(nodes, s, ptd.View().df, src, reached)
        invariant reached == to + set v: Key | v in edge.vars && v !in todo :: (edge.dst, v)
        invariant GrewOnlyAt(t, ptd.View().df, edge.dst) && (changed <==> GrewAt(t, ptd.View().df, edge.dst))
      {
        var v :| v in todo;
        ghost var x := ptd.View();
        assert Outs(outs, src)[i].Indirect?;
        assert IsStore(nodes, src) ==> Edge(src, v, Outs(outs, src)[i].dst, v) in net.edges;
        var grew := PropVarPtsFromSrcToDst(v, src, edge.dst);
        PropOneMore(nodes, s, x.df, ptd.View().df, src, reached, v, edge.dst, grew);
        PropGrows(nodes, x.df, ptd.View().df, src, v, edge.dst, grew);
        GrewOnlyAtTwice(t, x.df, ptd.View().df, edge.dst, changed, grew);
        reached := reached + {(edge.dst, v)};
        todo := todo - {v};
        changed := changed || grew;
      }
      assert reached == to + PairsOf(edge);
    }

    method PropFromSrcToDst(src: LocId, i: nat, ghost s: Df, ghost to: set<(LocId, Key)>) returns (changed: bool)
      requires Ready() && i < |Outs(outs, src)| && PropEffect(nodes, s, ptd.View().df, src, to)
      modifies ptd, ptd.data
      ensures Ready() && SameOutFlags(old(ptd.View()), ptd.View())
      ensures PropEffect(nodes, s, ptd.View().df, src, to + PairsOf(Outs(outs, src)[i]))
      ensures var e := Outs(outs, src)[i];
        && GrewOnlyAt(old(ptd.View()).df, ptd.View().df, e.dst)
        && (changed <==> e.Direct? || GrewAt(old(ptd.View()).df, ptd.View().df, e.dst))
    {
      match Outs(outs, src)[i] {
        case Direct(dst) =>
          changed := true;
          GrewNowhere(ptd.View().df, dst);
          assert to + PairsOf(Outs(outs, src)[i]) == to;
        case Indirect(_, _) => changed := PropAlongIndirectEdge(src, i, s, to);
      }
    }

    /** Along all edges of a node: every IN set that an edge leads to grows by what the node has; answers which nodes
        are to be processed. */
    method Propagate(src: LocId) returns (work: seq<LocId>)
      requires Ready()
      modifies ptd, ptd.data
      ensures Ready() && SameOutFlags(old(ptd.View()), ptd.View())
      ensures PropEffect(nodes, old(ptd.View()).df, ptd.View().df, src, Pairs(Outs(outs, src)))
      ensures IsStore(nodes, src) ==> PassedOn(net, ptd.View().df, src)
      ensures WorkIs(Outs(outs, src), old(ptd.View()).df, ptd.View().df, O.Elements(work))
      ensures work == Woken(nodes, old(ptd.View()).df, src, Outs(outs, src))
    {
      hide NetOf, NothingLost, PlainStep, IncDFPTData.Valid, FlaggedOut, FlaggedIn, In, Out, Top, PropEffect, PassedOn;
      hide GrewAt, GrewOnlyAt, WorkIs, Woken, Wakes, O.Elements, Pairs;
      work := [];
      NoElements();
      var k := 0;
      ghost var s, es := ptd.View().df, Outs(outs, src);
      PropNothing(nodes, s, src);
      WorkNone(s);
      NonePropagated(nodes, s, src, es);
      while k < |Outs(outs, src)|
        invariant k <= |Outs(outs, src)| && Ready() && SameOutFlags(old(ptd.View()), ptd.View())
        invariant PropEffect(nodes, s, ptd.View().df, src, Pairs(es[..k]))
        invariant WorkIs(es[..k], s, ptd.View().df, O.Elements(work)) && work == Woken(nodes, s, src, es[..k])
      {
        ghost var t := ptd.View().df;
        var changed := PropFromSrcToDst(src, k, s, Pairs(es[..k]));
        assert es[..k + 1][..k] == es[..k] && es[..k + 1] == es[..k] + [es[k]];
        PairsNext(es, k);
        WorkOneMore(es[..k], s, t, ptd.View().df, O.Elements(work), es[k], changed);
        WakesIff(nodes, s, t, ptd.View().df, src, es, k);
        WokenNext(nodes, s, src, es, k);
        ElementsPush(work, es[k].dst);
        if changed { work := work + [Outs(outs, src)[k].dst]; }
        k := k + 1;
      }
      assert es[..|es|] == es;
      if IsStore(nodes, src) { PropDelivers(nodes, outs, net, s, ptd.View().df, src); }
    }

    /** Process a node, propagate if something changed, and clear its flags: always allowed. */
    method ProcessNode(loc: LocId) returns (work: seq<LocId>, ghost mid: Df, ghost changed: bool)
      requires Valid() && loc in nodes
      modifies ptd, ptd.data
      ensures Valid() && NodeEffect(nodes[loc], inert, strongable, old(ptd.View()).df, mid, loc, changed)
      ensures if changed then PropEffect(nodes, mid, ptd.View().df, loc, Pairs(Outs(outs, loc)))
              else SameSets(mid, ptd.View().df)
      ensures if changed then WorkIs(Outs(outs, loc), mid, ptd.View().df, O.Elements(work)) else work == []
      ensures changed ==> work == Woken(nodes, mid, loc, Outs(outs, loc))
    {
      hide NetOf, NothingLost, PlainStep, IncDFPTData.Valid, FlaggedOut, FlaggedIn, In, Out, Top, PassedOn, IncStep;
      hide NodeEffect, Pairs, WorkIs, Woken, O.Elements;
      work := [];
      var processed := ProcessSvfgNode(loc);
      mid, changed := ptd.View().df, processed;
      if processed { work := Propagate(loc); }
      ghost var x := ptd.View();
      MayClear(nodes, outs, net, x, loc);
      ptd.ClearAllDFOutUpdatedVar(loc);
      Disciplined(net, x, ClearOut(loc), ptd.View(), false);
      Cleared(x, loc, ptd.View());
      if processed {
        PropThenSame(nodes, mid, x.df, ptd.View().df, loc, Pairs(Outs(outs, loc)));
        WorkThenSame(Outs(outs, loc), mid, x.df, ptd.View().df, O.Elements(work));
      }
    }

    // ---------------------------------------------------------------- a whole run

    method PushAll(work: seq<LocId>)
      requires worklist.Valid()
      modifies worklist
      ensures worklist.Valid() && worklist.dataSet == old(worklist.dataSet) + O.Elements(work)
      ensures worklist.dataList == Queued(old(worklist.dataList), work)
    {
      hide O.Elements, FIFOWorkList.Valid;
      var i := 0;
      NoElements();
      while i < |work|
        invariant worklist.Valid() && i <= |work|
        invariant worklist.dataSet == old(worklist.dataSet) + O.Elements(work[..i])
        invariant worklist.dataList == Queued(old(worklist.dataList), work[..i])
      {
        worklist.ListIsSet(work[i]);
        var _ := worklist.Push(work[i]);
        ElementsPush(work[..i], work[i]);
        assert work[..i + 1] == work[..i] + [work[i]] && work[..i + 1][..i] == work[..i];
        i := i + 1;
      }
      assert work[..|work|] == work;
    }

    /** Process a node and queue what it says: what is left to do is what was left before, and what is queued. */
    method ProcessAndQueue(loc: LocId, ghost keys: set<Key>, ghost s0: Df, ghost rest: set<LocId>)
      returns (ghost r: TurnRecord)
      requires Valid() && worklist.Valid() && Wired(TheGraph()) && About(TheGraph(), keys) && loc in nodes
      requires worklist.dataSet <= nodes.Keys
      requires Running(TheGraph(), keys, s0, ptd.View().df, rest + worklist.dataSet + {loc})
      modifies ptd, ptd.data, worklist
      ensures Valid() && worklist.Valid() && worklist.dataSet <= nodes.Keys
      ensures Running(TheGraph(), keys, s0, ptd.View().df, rest + worklist.dataSet)
      ensures r.node == loc && r.before == old(ptd.View()).df && r.after == ptd.View().df
      ensures r.queue == worklist.dataList && Took(TheGraph(), r, old(worklist.dataList))
      ensures var g, s, t := TheGraph(), old(ptd.View()).df, ptd.View().df;
        && MissingTop(keys, t) <= MissingTop(keys, s) && MissingIn(g, keys, t) <= MissingIn(g, keys, s)
        && MissingOut(g, keys, t) <= MissingOut(g, keys, s)
        && (SameMissing(g, keys, s, t) ==> worklist.dataSet == old(worklist.dataSet))
    {
      hide NetOf, NothingLost, IncDFPTData.Valid, Quiet, Turn, Wired, About, OnTrack, BelowSets, Bounded;
      hide StaysBelow, NodeEffect, PropEffect, WorkIs, SameSets, AllSettled, O.Elements, Woken, Queued;
      ghost var g, s, list := TheGraph(), ptd.View().df, worklist.dataSet;
      var order, mid, changed := ProcessNode(loc);
      ghost var t, work := ptd.View().df, O.Elements(order);
      NoElements();
      IsTurn(g, s, mid, t, loc, changed, work);
      RunTurn(g, keys, s0, s, mid, t, loc, changed, work, rest + list + {loc}, rest + (list + work));
      TurnMeasure(g, keys, s, mid, t, loc, changed, work);
      PushAll(order);
      r := TurnRecord(loc, s, mid, t, changed, order, worklist.dataList);
    }

    /** All nodes from the top of the stack down, then what is queued until nothing is. It ends, and then processing
        any node changes nothing. It does these turns and nothing else, so it ends below whatever no node changes when
        stores overwrite nothing: without strong updates with the least sets above the start. */
    method Solve(stack: seq<LocId>, ghost keys: set<Key>) returns (ghost rs: seq<TurnRecord>)
      requires Valid() && worklist.Valid() && Wired(TheGraph()) && About(TheGraph(), keys)
      requires OnTrack(TheGraph(), ptd.View().df, nodes.Keys) && Bounded(TheGraph(), keys, ptd.View().df)
      requires O.Elements(stack) == nodes.Keys && worklist.dataSet <= nodes.Keys
      modifies ptd, ptd.data, worklist
      ensures Valid() && worklist.Valid() && worklist.dataSet == {} && AllSettled(TheGraph(), ptd.View().df)
      ensures BelowSets(old(ptd.View()).df, ptd.View().df)
      ensures forall m: Df {:trigger BelowSets(ptd.View().df, m)} ::
          AllSettled(Graph(nodes, outs, inert, {}), m) && BelowSets(old(ptd.View()).df, m) ==>
            BelowSets(ptd.View().df, m)
      ensures |rs| >= |stack|
      ensures IsRun(TheGraph(), stack, old(worklist.dataList), old(ptd.View()).df, rs, ptd.View().df, [])
    {
      hide NetOf, NothingLost, IncDFPTData.Valid, Quiet, Running, Wired, About, OnTrack, Bounded, BelowSets;
      hide StaysBelow, AllSettled, O.Elements, MissingTop, MissingIn, MissingOut, IsRun, Took;
      ghost var g, s0, list := TheGraph(), ptd.View().df, worklist.dataList;
      rs := [];
      NoTurns(g, stack, list, s0);
      var nodeStack := stack;
      RunStarts(g, keys, s0, O.Elements(nodeStack) + worklist.dataSet);
      while nodeStack != []
        invariant Valid() && worklist.Valid() && O.Elements(nodeStack) <= nodes.Keys && worklist.dataSet <= nodes.Keys
        invariant Running(g, keys, s0, ptd.View().df, O.Elements(nodeStack) + worklist.dataSet)
        invariant |rs| == |stack| - |nodeStack| && nodeStack == stack[..|nodeStack|]
        invariant IsRun(g, stack, list, s0, rs, ptd.View().df, worklist.dataList)
        decreases |nodeStack|
      {
        var nodeId := nodeStack[|nodeStack| - 1];
        ElementsLast(nodeStack);
        nodeStack := nodeStack[..|nodeStack| - 1];
        assert O.Elements(nodeStack) + {nodeId} + worklist.dataSet ==
            O.Elements(nodeStack) + worklist.dataSet + {nodeId};
        ghost var s, q := ptd.View().df, worklist.dataList;
        ghost var r := ProcessAndQueue(nodeId, keys, s0, O.Elements(nodeStack));
        OneMoreTurn(g, stack, list, s0, rs, s, q, r);
        rs := rs + [r];
      }
      NoElements();
      assert O.Elements<LocId>([]) + worklist.dataSet == worklist.dataSet;
      while !worklist.Empty()
        invariant Valid() && worklist.Valid() && worklist.dataSet <= nodes.Keys
        invariant Running(g, keys, s0, ptd.View().df, worklist.dataSet)
        invariant |rs| >= |stack| && IsRun(g, stack, list, s0, rs, ptd.View().df, worklist.dataList)
        decreases MissingTop(keys, ptd.View().df), MissingIn(g, keys, ptd.View().df),
                  MissingOut(g, keys, ptd.View().df), worklist.dataSet
      {
        ghost var before, s, q := worklist.dataSet, ptd.View().df, worklist.dataList;
        var nodeId := worklist.Pop();
        assert {} + worklist.dataSet + {nodeId} == before;
        ghost var r := ProcessAndQueue(nodeId, keys, s0, {});
        OneMoreTurn(g, stack, list, s0, rs, s, q, r);
        rs := rs + [r];
        assert {} + worklist.dataSet == worklist.dataSet;
      }
      worklist.EmptyMeansNone();
      RunEnds(g, keys, s0, ptd.View().df);
    }

    // ---------------------------------------------------------------- new edges

    /** An indirect edge that is found when a call gets a new callee: what is there already is propagated whether
        flagged or not. */
    method ConnectEdge(src: LocId, dst: LocId, vars: set<Key>) returns (changed: bool)
      requires Valid() && src in nodes && (nodes[src].Store? || nodes[src].Mssa?)
      modifies this`outs, this`net, ptd, ptd.data
      ensures Valid() && outs == old(outs)[src := Outs(old(outs), src) + [Indirect(dst, vars)]]
      ensures PropEffect(nodes, old(ptd.View()).df, ptd.View().df, src, PairsOf(Indirect(dst, vars)))
      ensures changed <==> GrewAt(old(ptd.View()).df, ptd.View().df, dst)
    {
      hide NothingLost, PlainStep, IncDFPTData.Valid, FlaggedOut, FlaggedIn, In, Out, Top, NetOf, PropEffect, GrewAt;
      hide GrewOnlyAt;
      hide Quiet, IncStep;
      var todo := vars;
      changed := false;
      ghost var n, s, reached := net, ptd.View().df, {};
      PropNothing(nodes, s, src);
      GrewNowhere(s, dst);
      while todo != {}
        invariant todo <= vars && ptd.Valid() && NothingLost(n, ptd.View()) && Quiet(ptd.View())
        invariant n == GrownNet(net, nodes, src, dst, vars - todo) && outs == old(outs) && net == old(net)
        invariant PropEffect(nodes, s, ptd.View().df, src, reached)
        invariant reached == set v: Key | v in vars && v !in todo :: (dst, v)
        invariant GrewOnlyAt(s, ptd.View().df, dst) && (changed <==> GrewAt(s, ptd.View().df, dst))
      {
        var v :| v in todo;
        ghost var x := ptd.View();
        var grew := PropVarPtsAfterCgUpdated(n, v, src, dst);
        n := if IsStore(nodes, src) then After(n, AllInFromOut(Edge(src, v, dst, v))) else n;
        GrownNetStep(net, nodes, src, dst, vars - todo, v);
        PropOneMore(nodes, s, x.df, ptd.View().df, src, reached, v, dst, grew);
        PropGrows(nodes, x.df, ptd.View().df, src, v, dst, grew);
        GrewOnlyAtTwice(s, x.df, ptd.View().df, dst, changed, grew);
        todo := todo - {v};
        changed := changed || grew;
        reached := reached + {(dst, v)};
        assert vars - todo == vars - (todo + {v}) + {v};
      }
      assert vars - todo == vars && reached == PairsOf(Indirect(dst, vars));
      GrownNetOf(nodes, outs, net, src, dst, vars);
      outs := outs[src := Outs(outs, src) + [Indirect(dst, vars)]];
      net := n;
    }

    method PropVarPtsAfterCgUpdated(ghost n: Net, v: Key, src: LocId, dst: LocId) returns (changed: bool)
      requires ptd.Valid() && NothingLost(n, ptd.View()) && Quiet(ptd.View())
      requires src in nodes && (nodes[src].Store? || nodes[src].Mssa?)
      modifies ptd, ptd.data
      ensures ptd.Valid() && Quiet(ptd.View())
      ensures NothingLost(if IsStore(nodes, src) then After(n, AllInFromOut(Edge(src, v, dst, v))) else n, ptd.View())
      ensures PlainStep(old(ptd.View()).df, PropOp(nodes, src, v, dst), ptd.View().df, changed)
    {
      hide NothingLost, PlainStep, IncDFPTData.Valid, FlaggedOut, FlaggedIn, In, Out, Top, IncStep;
      var e := Edge(src, v, dst, v);
      ghost var x := ptd.View();
      if nodes[src].Store? {
        changed := ptd.UpdateAllDFInFromOut(e);
        StepKeeps(n, x, AllInFromOut(e), ptd.View(), changed);
        InsKeepOutFlags(x, AllInFromOut(e), ptd.View(), changed);
        AllIsProp(nodes, x, ptd.View(), AllInFromOut(e), v, src, dst, changed);
      } else {
        changed := ptd.UpdateAllDFInFromIn(e);
        StepKeeps(n, x, AllInFromIn(e), ptd.View(), changed);
        InsKeepOutFlags(x, AllInFromIn(e), ptd.View(), changed);
        AllIsProp(nodes, x, ptd.View(), AllInFromIn(e), v, src, dst, changed);
      }
    }
  }

  /** Without looking at flags, propagation does what it does in the plain store. */
  lemma AllIsProp(nodes: Nodes, x: Inc, y: Inc, op: Op, v: Key, src: LocId, dst: LocId, changed: bool)
    requires IncStep(x, op, y, changed)
    requires op == if IsStore(nodes, src) then AllInFromOut(Edge(src, v, dst, v)) else AllInFromIn(Edge(src, v, dst, v))
    ensures PlainStep(x.df, PropOp(nodes, src, v, dst), y.df, changed)
  {
    hide In, Out, Top;
    var p := PropOp(nodes, src, v, dst);
    assert forall l: LocId, w: Key :: AddIn(op, x.df, l, w) == AddIn(p, x.df, l, w);
  }

  // ------------------------------------------------------------------ about runs

  lemma IsTurn(g: Graph, s: Df, mid: Df, t: Df, n: LocId, changed: bool, work: set<LocId>)
    requires n in g.nodes && NodeEffect(g.nodes[n], g.inert, g.strongable, s, mid, n, changed)
    requires if changed then PropEffect(g.nodes, mid, t, n, Pairs(Outs(g.outs, n))) else SameSets(mid, t)
    requires if changed then WorkIs(Outs(g.outs, n), mid, t, work) else work == {}
    ensures Turn(g, s, mid, t, n, changed, work)
  {}

  lemma ElementsLast(q: seq<LocId>)
    requires q != []
    ensures O.Elements(q) == O.Elements(q[..|q| - 1]) + {q[|q| - 1]}
  {
    assert q == q[..|q| - 1] + [q[|q| - 1]];
  }

  lemma ElementsPush(q: seq<LocId>, l: LocId)
    ensures O.Elements(q + [l]) == O.Elements(q) + {l}
  {}

  lemma NonePropagated(nodes: Nodes, s: Df, src: LocId, es: seq<SvfgEdge>)
    ensures Pairs(es[..0]) == {} && Woken(nodes, s, src, es[..0]) == []
  {}

  lemma NoTurns(g: Graph, stack: seq<LocId>, list: seq<LocId>, s: Df)
    ensures IsRun(g, stack, list, s, [], s, list)
  {}

  lemma NoElements()
    ensures O.Elements<LocId>([]) == {}
  {}

  // ------------------------------------------------------------------ about nodes

  lemma LoadIsLoad(nodes: Nodes, outs: OutEdges, net: Net, loc: LocId)
    requires NetOf(nodes, outs, net) && loc in nodes && nodes[loc].Load?
    ensures IsLoad(net, loc) && net.loads[loc] == nodes[loc].dst
  {}

  lemma StoreIsStore(nodes: Nodes, outs: OutEdges, net: Net, loc: LocId)
    requires NetOf(nodes, outs, net) && IsStore(nodes, loc)
    ensures loc in net.stores
  {}

  lemma UntouchedKeeps(net: Net, x: Inc, y: Inc)
    requires NothingLost(net, x) && Untouched(x, y)
    ensures NothingLost(net, y) && (Quiet(x) ==> Quiet(y))
  {
    IdleKeeps(net, x, y);
    hide FlaggedOut, FlaggedIn, In, Out, Top;
  }

  lemma SameTwice(s: Df, t: Df, u: Df)
    requires SameSets(s, t) && SameSets(t, u)
    ensures SameSets(s, u)
  {
    hide In, Out, Top;
    forall l: LocId, v: Key ensures In(u, l, v) == In(s, l, v) { assert In(u, l, v) == In(t, l, v); }
    forall l: LocId, v: Key ensures Out(u, l, v) == Out(s, l, v) { assert Out(u, l, v) == Out(t, l, v); }
    forall v: Key ensures Top(u, v) == Top(s, v) { assert Top(u, v) == Top(t, v); }
  }

  lemma StoreOfNothing(s: Df, t: Df, loc: LocId, os: set<Key>)
    requires StoreEffect(s, t, loc, {}, {}, false, {}, false)
    ensures StoreEffect(s, t, loc, os, {}, false, {}, false)
  {
    hide In, Out, Top;
  }

  lemma KilledIs(os: set<Key>, strongable: set<Key>, strong: bool, x: Key)
    requires strong ==> os == {x} && x in strongable
    requires !strong ==> forall o: Key :: os == {o} ==> o !in strongable
    ensures Killed(os, strongable) == if strong then {x} else {}
  {
    if !strong && |os| == 1 {
      var o :| o in os;
      OneElement(os, o);
    }
  }

  lemma OneElement(s: set<Key>, o: Key)
    requires |s| == 1 && o in s
    ensures s == {o}
  {
    assert s == {o} + (s - {o});
  }

  // ------------------------------------------------------------------ about edges

  /** Clearing is allowed: either everything has just been propagated, or nothing is flagged. */
  lemma MayClear(nodes: Nodes, outs: OutEdges, net: Net, x: Inc, loc: LocId)
    requires NetOf(nodes, outs, net) && NothingLost(net, x)
    requires Quiet(x) || (IsStore(nodes, loc) && PassedOn(net, x.df, loc))
    ensures Allowed(net, x.df, ClearOut(loc))
  {
    hide In, Out, Top, FlaggedIn, FlaggedOut;
  }

  lemma PropThenSame(nodes: Nodes, s: Df, t: Df, u: Df, src: LocId, to: set<(LocId, Key)>)
    requires PropEffect(nodes, s, t, src, to) && SameSets(t, u)
    ensures PropEffect(nodes, s, u, src, to)
  {
    hide In, Out, Top;
    assert SameOut(s, u) by {
      forall l: LocId, v: Key ensures Out(u, l, v) == Out(s, l, v) {
        assert Out(u, l, v) == Out(t, l, v);
      }
    }
    assert SameTop(s, u) by { forall v: Key ensures Top(u, v) == Top(s, v) { assert Top(u, v) == Top(t, v); } }
    forall l: LocId, v: Key ensures In(u, l, v) == In(s, l, v) + if (l, v) in to then Source(nodes, s, src, v) else {} {
      assert In(u, l, v) == In(t, l, v);
    }
  }

  lemma WorkThenSame(es: seq<SvfgEdge>, s: Df, t: Df, u: Df, work: set<LocId>)
    requires WorkIs(es, s, t, work) && SameSets(t, u)
    ensures WorkIs(es, s, u, work)
  {
    hide In, Out, Top;
    forall l: LocId, v: Key ensures In(s, l, v) <= In(u, l, v) && In(u, l, v) == In(t, l, v) {
      assert In(s, l, v) <= In(t, l, v);
    }
    forall l: LocId ensures GrewAt(s, u, l) <==> GrewAt(s, t, l) {
      assert forall v: Key :: In(u, l, v) == In(t, l, v);
    }
  }

  lemma Cleared(x: Inc, loc: LocId, y: Inc)
    requires IncStep(x, ClearOut(loc), y, false) && QuietBut(x, loc)
    ensures Quiet(y) && SameSets(x.df, y.df)
  {
    hide In, Out, Top, FlaggedIn, FlaggedOut;
  }

  ghost function GrownNet(net: Net, nodes: Nodes, src: LocId, dst: LocId, vars: set<Key>): Net {
    if IsStore(nodes, src) then net.(edges := net.edges + (set v | v in vars :: Edge(src, v, dst, v))) else net
  }

  lemma GrownNetStep(net: Net, nodes: Nodes, src: LocId, dst: LocId, vars: set<Key>, v: Key)
    ensures GrownNet(net, nodes, src, dst, vars + {v}) ==
      if IsStore(nodes, src) then After(GrownNet(net, nodes, src, dst, vars), AllInFromOut(Edge(src, v, dst, v)))
      else net
  {}

  lemma GrownNetOf(nodes: Nodes, outs: OutEdges, net: Net, src: LocId, dst: LocId, vars: set<Key>)
    requires NetOf(nodes, outs, net) && src in nodes && (nodes[src].Store? || nodes[src].Mssa?)
    ensures NetOf(nodes, outs[src := Outs(outs, src) + [Indirect(dst, vars)]], GrownNet(net, nodes, src, dst, vars))
  {
    var outs', net' := outs[src := Outs(outs, src) + [Indirect(dst, vars)]], GrownNet(net, nodes, src, dst, vars);
    forall e: Edge | e in net'.edges ensures IsStore(nodes, e.src) && e.dstVar == e.srcVar && Carried(outs', e) {
      if e in net.edges {
        assert Carried(outs, e);
        var i: nat :| i < |Outs(outs, e.src)| && Carries(Outs(outs, e.src)[i], e.dst, e.srcVar);
        assert Outs(outs', e.src)[i] == Outs(outs, e.src)[i];
      } else {
        assert Carries(Outs(outs', src)[|Outs(outs, src)|], e.dst, e.srcVar);
      }
    }
    forall l: LocId, i: nat | i < |Outs(outs', l)| && Outs(outs', l)[i].Indirect?
      ensures l in nodes && (nodes[l].Store? || nodes[l].Mssa?)
      ensures IsStore(nodes, l) ==>
        forall v: Key :: v in Outs(outs', l)[i].vars ==> Edge(l, v, Outs(outs', l)[i].dst, v) in net'.edges
    {
      if l != src || i < |Outs(outs, l)| {
        assert Outs(outs', l)[i] == Outs(outs, l)[i];
        assert IsStore(nodes, l) ==>
          forall v: Key :: v in Outs(outs, l)[i].vars ==> Edge(l, v, Outs(outs, l)[i].dst, v) in net.edges;
      }
    }
  }
}
