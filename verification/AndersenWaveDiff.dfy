/** Wave propagation with differences: the solver's operations, in any interleaving. */
module AndersenWaveDiff {
  import opened DfPoints
  import opened PtData
  import opened WaveDiff
  import opened WaveSteps
  import opened WaveSolve
  import opened WaveOrder
  import opened WaveRounds
  import opened WaveFlow
  import opened WaveLeast
  import opened WaveCalled
  import opened WaveCalls
  import opened WaveRuns
  import opened WorkList
  import G = Graphs
  import R = SccRecords
  import A = SccAnswers
  import D = SccDetection

  lemma StartIsGood(sys: System, w: Wave)
    requires sys.addrs == {} && w == Wave(map[], map[], NONE, NoLoops(sys.copies), sys.loads, sys.stores, map[])
    ensures Good(sys, w) && Sound(sys, w)
  {
    forall m: PtsMap | Solves(sys, m, NONE) ensures Below(sys, w, m) {
      forall e: Link | e in w.copies ensures Pts(m, e.src) <= Pts(m, e.dst) {
        assert Answer(m, NONE, e.src) <= Answer(m, NONE, e.dst);
      }
      forall e: Link, o: Key | e in w.loads && o in Pts(m, e.src) && o !in sys.inert
        ensures Pts(m, o) <= Pts(m, e.dst)
      {
        assert Answer(m, NONE, o) <= Answer(m, NONE, e.dst);
      }
      forall e: Link, o: Key | e in w.stores && o in Pts(m, e.dst) && o !in sys.inert
        ensures Pts(m, e.src) <= Pts(m, o)
      {
        assert Answer(m, NONE, e.src) <= Answer(m, NONE, o);
      }
    }
  }

  class AndersenWaveDiff {
    const nodes: set<Key>
    const ptd: DiffPTData
    const worklist: FIFOWorkList<Key>
    const inert: set<Key>             // constant and non-pointer objects
    const sites: Sites                // calls through pointers
    var nodeToRepMap: Reps
    var copies: set<Link>             // the constraint graph
    var loads: set<Link>
    var stores: set<Link>
    var indCalls: set<Call>           // the calls that have been connected
    ghost var base: System            // the constraints
    ghost var sys: System             // the constraints and the connections so far

    ghost function View(): Wave
      reads this, ptd, ptd.base
    {
      Wave(ptd.base.ptsMap, ptd.propaPtsMap, nodeToRepMap, copies, loads, stores, ptd.cacheMap)
    }

    ghost predicate DataOk()
      reads this, ptd, ptd.base, worklist
    {
      ptd.Valid() && worklist.Valid() && sys.inert == inert
    }

    /** What holds between any two operations. */
    ghost predicate Valid()
      reads this, ptd, ptd.base, worklist
    {
      DataOk() && Good(sys, View()) && Sound(sys, View()) && Within(nodes, View()) && Traced(sys, View())
    }

    ghost predicate CallsOk()
      reads this`base, this`sys, this`indCalls
    {
      && CallsSound(base, sites, indCalls, sys)
      && forall c, e :: c in sites && e in sites[c] ==> e.src in nodes && e.dst in nodes
    }

    constructor (nodes: set<Key>, copyEdges: set<Link>, loadEdges: set<Link>, storeEdges: set<Link>, inert: set<Key>,
                 sites: Sites)
      requires forall e :: e in copyEdges || e in loadEdges || e in storeEdges ==> e.src in nodes && e.dst in nodes
      requires forall c, e :: c in sites && e in sites[c] ==> e.src in nodes && e.dst in nodes
      ensures Valid() && CallsOk() && fresh(ptd) && fresh(ptd.base) && fresh(worklist)
      ensures this.nodes == nodes && this.inert == inert && this.sites == sites
      ensures sys == base == System({}, copyEdges, loadEdges, storeEdges, inert) && indCalls == {}
      ensures View() == Wave(map[], map[], NONE, NoLoops(copyEdges), loadEdges, storeEdges, map[])
      ensures worklist.dataSet == {} && NonEmptyQueued(View(), worklist.dataSet)
    {
      ptd := new DiffPTData();
      worklist := new FIFOWorkList();
      this.nodes, this.inert, this.sites := nodes, inert, sites;
      nodeToRepMap := NONE;
      copies := set e | e in copyEdges && e.src != e.dst;
      loads, stores := loadEdges, storeEdges;
      indCalls := {};
      sys := System({}, copyEdges, loadEdges, storeEdges, inert);
      base := System({}, copyEdges, loadEdges, storeEdges, inert);
      new;
      assert copies == NoLoops(copyEdges);
      StartIsGood(sys, View());
      StartTraced(sys, View());
      NoCalls(base, sites);
    }

    function SccRepNode(id: Key): Key
      reads this
    {
      RepOf(nodeToRepMap, id)
    }

    function GetPts(id: Key): set<Key>
      reads this, ptd, ptd.base
    {
      Pts(ptd.base.ptsMap, SccRepNode(id))
    }

    method PushIntoWorklist(id: Key)
      requires worklist.Valid()
      modifies worklist
      ensures worklist.Valid() && worklist.dataSet == old(worklist.dataSet) + {SccRepNode(id)}
    {
      var _ := worklist.Push(SccRepNode(id));
    }

    /** `src` is the address of an object: it flows into `dst`. Nothing has been merged yet. */
    method ProcessAddr(src: Key, dst: Key)
      requires Valid() && CallsOk() && IsRep(View(), dst) && src in nodes && dst in nodes
      modifies this`sys, this`base, ptd.base, worklist
      ensures Valid() && CallsOk()
      ensures sys == old(sys).(addrs := old(sys).addrs + {Link(src, dst)})
      ensures base == old(base).(addrs := old(base).addrs + {Link(src, dst)})
      ensures AddrStep(old(View()), View(), src, dst)
      ensures Queued(old(ptd.base.ptsMap), ptd.base.ptsMap, old(worklist.dataSet), worklist.dataSet)
    {
      hide Within, Good, Sound, Pts, Cached, Traced, CallsSound;
      ghost var w := View();
      var changed := ptd.base.AddPts(dst, src);
      if changed { PushIntoWorklist(dst); }
      QueuedOne(w.pts, ptd.base.ptsMap, dst, {src}, old(worklist.dataSet), worklist.dataSet);
      sys := sys.(addrs := sys.addrs + {Link(src, dst)});
      base := base.(addrs := base.addrs + {Link(src, dst)});
      AddrKeeps(old(sys), w, View(), src, dst);
      WithinAddr(nodes, w, View(), src, dst);
      AddrStaysSound(old(sys), w, View(), src, dst);
      AddrTraced(old(sys), w, View(), {Link(src, dst)});
      CallsAddr(old(base), sites, indCalls, old(sys), {Link(src, dst)});
    }

    method ProcessAllAddr(addrs: set<Link>)
      requires Valid() && CallsOk() && nodeToRepMap == NONE
      requires forall e :: e in addrs ==> e.src in nodes && e.dst in nodes
      requires NonEmptyQueued(View(), worklist.dataSet)
      modifies this`sys, this`base, ptd.base, worklist
      ensures Valid() && CallsOk() && sys == old(sys).(addrs := old(sys).addrs + addrs)
      ensures base == old(base).(addrs := old(base).addrs + addrs)
      ensures AddrsTaken(old(View()), View(), addrs) && NonEmptyQueued(View(), worklist.dataSet)
      ensures Queued(old(ptd.base.ptsMap), ptd.base.ptsMap, old(worklist.dataSet), worklist.dataSet)
    {
      hide Within, Good, Sound, Pts, Cached, NonEmptyQueued, AddrsTaken, Queued, AddrStep, Traced, CallsOk;
      var todo := addrs;
      ghost var w := View();
      NoneTaken(w);
      QueuedNone(w.pts, worklist.dataSet);
      assert addrs - todo == {};
      while todo != {}
        invariant Valid() && CallsOk() && todo <= addrs
        invariant sys == old(sys).(addrs := old(sys).addrs + (addrs - todo))
        invariant base == old(base).(addrs := old(base).addrs + (addrs - todo))
        invariant AddrsTaken(w, View(), addrs - todo) && NonEmptyQueued(View(), worklist.dataSet)
        invariant Queued(w.pts, ptd.base.ptsMap, old(worklist.dataSet), worklist.dataSet)
      {
        var e :| e in todo;
        ghost var x, list := View(), worklist.dataSet;
        ProcessAddr(e.src, e.dst);
        assert addrs - (todo - {e}) == addrs - todo + {e};
        OneMoreTaken(w, x, View(), addrs - todo, e, old(worklist.dataSet), list, worklist.dataSet);
        todo := todo - {e};
      }
      assert addrs - todo == addrs;
    }

    /** A copy edge between representatives, unless there is one already or they are the same. */
    method AddCopyCGEdge(src: Key, dst: Key) returns (added: bool)
      modifies this`copies
      ensures added <==> !Covered(old(View()), src, dst)
      ensures copies == if added then old(copies) + {Link(SccRepNode(src), SccRepNode(dst))} else old(copies)
    {
      var s, d := SccRepNode(src), SccRepNode(dst);
      if Link(s, d) in copies || s == d { return false; }
      copies := copies + {Link(s, d)};
      return true;
    }

    method AddCopyEdge(src: Key, dst: Key) returns (added: bool)
      requires DataOk() && RepsOk(View())
      modifies this`copies, ptd.base, worklist
      ensures DataOk() && sys == old(sys) && CopyStep(old(View()), View(), src, dst)
      ensures added <==> !Covered(old(View()), src, dst)
      ensures old(copies) <= copies && (added <==> copies != old(copies))
      ensures Queued(old(ptd.base.ptsMap), ptd.base.ptsMap, old(worklist.dataSet), worklist.dataSet)
    {
      added := AddCopyCGEdge(src, dst);
      ghost var pts, s, d := ptd.base.ptsMap, SccRepNode(src), SccRepNode(dst);
      QueuedNone(pts, worklist.dataSet);
      if added {
        var changed := ptd.base.UnionPts(SccRepNode(dst), SccRepNode(src));
        if changed { PushIntoWorklist(SccRepNode(dst)); }
        QueuedOne(pts, ptd.base.ptsMap, d, Pts(pts, s), old(worklist.dataSet), worklist.dataSet);
      }
    }

    /** Add the edges between arguments and parameters and from the result, and note which are new. */
    method ConnectCaller2CalleeParams(c: Call, pairs: set<Link>, ghost w: Wave, ghost given: set<Link>)
      returns (more: set<Link>)
      requires c in sites && nodeToRepMap == w.rep
      requires pairs == NewPairs(w, given) && copies == w.copies + pairs
      modifies this`copies
      ensures more == NewPairs(w, given + sites[c]) && copies == w.copies + more
    {
      hide NewPairs;
      more := pairs;
      var todo := sites[c];
      assert given + (sites[c] - todo) == given;
      while todo != {}
        invariant todo <= sites[c]
        invariant more == NewPairs(w, given + (sites[c] - todo)) && copies == w.copies + more
      {
        var e :| e in todo;
        assert Rep(View(), e.src) == Rep(w, e.src) && Rep(View(), e.dst) == Rep(w, e.dst);
        OneMorePair(w, given + (sites[c] - todo), e, copies, more);
        assert given + (sites[c] - todo) + {e} == given + (sites[c] - (todo - {e}));
        var added := AddCopyCGEdge(e.src, e.dst);
        if added { more := more + {Link(SccRepNode(e.src), SccRepNode(e.dst))}; }
        todo := todo - {e};
      }
      assert given + (sites[c] - todo) == given + sites[c];
    }

    /** Calls that pointers have been found to make, and that are not connected. */
    method OnTheFlyCallGraphSolve() returns (newEdges: set<Call>)
      modifies this`indCalls
      ensures newEdges == CallsMade(sites, View()) - old(indCalls) && indCalls == old(indCalls) + newEdges
    {
      newEdges := {};
      var todo := sites.Keys;
      while todo != {}
        invariant todo <= sites.Keys && indCalls == old(indCalls) + newEdges
        invariant forall c :: c in newEdges <==> c in CallsMade(sites, View()) && c !in todo && c !in old(indCalls)
      {
        var c :| c in todo;
        if c.callee in GetPts(c.pointer) && c !in indCalls {
          newEdges := newEdges + {c};
          indCalls := indCalls + {c};
        }
        todo := todo - {c};
      }
    }

    method ConnectAll(newEdges: set<Call>) returns (cpySrcNodes: set<Link>)
      requires newEdges <= sites.Keys
      modifies this`copies
      ensures cpySrcNodes == NewPairs(old(View()), Connected(sites, newEdges))
      ensures copies == old(copies) + cpySrcNodes
    {
      hide NewPairs, Connected, Covered;
      ghost var w := View();
      cpySrcNodes := {};
      var todo := newEdges;
      NoPairs(w);
      NoConnections(sites);
      assert newEdges - todo == {};
      while todo != {}
        invariant todo <= newEdges
        invariant cpySrcNodes == NewPairs(w, Connected(sites, newEdges - todo)) && copies == w.copies + cpySrcNodes
      {
        var c :| c in todo;
        cpySrcNodes := ConnectCaller2CalleeParams(c, cpySrcNodes, w, Connected(sites, newEdges - todo));
        ConnectedMore(sites, newEdges - todo, c);
        assert newEdges - (todo - {c}) == newEdges - todo + {c};
        todo := todo - {c};
      }
      assert newEdges - todo == newEdges;
    }

    /** What the source of each new edge has flows to its destination, which is queued. */
    method PropagateAlong(cpySrcNodes: set<Link>)
      requires ptd.Valid() && worklist.Valid()
      requires forall p :: p in cpySrcNodes ==> SccRepNode(p.src) == p.src && SccRepNode(p.dst) == p.dst
      modifies ptd.base, worklist
      ensures ptd.Valid() && worklist.Valid() && Flowed(old(View()), ptd.base.ptsMap, cpySrcNodes)
      ensures worklist.dataSet == old(worklist.dataSet) + Targets(cpySrcNodes)
      ensures cpySrcNodes == {} ==> ptd.base.ptsMap == old(ptd.base.ptsMap)
    {
      hide Pts, Inverse, Holds, Targets, Flowed;
      ghost var w := View();
      var pairs := cpySrcNodes;
      NoneFlowed(w);
      NoPairs(w);
      assert cpySrcNodes - pairs == {};
      while pairs != {}
        invariant pairs <= cpySrcNodes && ptd.Valid() && worklist.Valid()
        invariant Flowed(w, ptd.base.ptsMap, cpySrcNodes - pairs)
        invariant worklist.dataSet == old(worklist.dataSet) + Targets(cpySrcNodes - pairs)
        invariant cpySrcNodes == {} ==> ptd.base.ptsMap == w.pts
      {
        var p :| p in pairs;
        ghost var pts := ptd.base.ptsMap;
        var src, dst := SccRepNode(p.src), SccRepNode(p.dst);
        var _ := ptd.base.UnionPts(dst, src);
        PushIntoWorklist(dst);
        OneMoreFlowed(w, pts, ptd.base.ptsMap, cpySrcNodes - pairs, p);
        TargetsMore(cpySrcNodes - pairs, p);
        assert cpySrcNodes - (pairs - {p}) == cpySrcNodes - pairs + {p};
        pairs := pairs - {p};
      }
      assert cpySrcNodes - pairs == cpySrcNodes;
    }

    /** Connect the calls that pointers have been found to make. First all edges are added; then what the one end
        has flows to the other, which is queued. */
    method UpdateCallGraph() returns (changed: bool)
      requires Valid() && CallsOk()
      modifies this`copies, this`indCalls, this`sys, ptd.base, worklist
      ensures Valid() && CallsOk() && indCalls == old(indCalls) + CallsMade(sites, old(View()))
      ensures changed <==> indCalls != old(indCalls)
      ensures sys == old(sys).(copies := old(sys).copies + Connected(sites, indCalls - old(indCalls)))
      ensures ConnectStep(old(View()), View(), Connected(sites, indCalls - old(indCalls)), old(worklist.dataSet),
                          worklist.dataSet)
      ensures worklist.dataSet == old(worklist.dataSet) + set e | e in copies && e !in old(copies) :: e.dst
      ensures forall e :: e in copies && e !in old(copies) ==>
          Pts(old(ptd.base.ptsMap), e.src) <= Pts(ptd.base.ptsMap, e.dst)
      ensures !changed ==> View() == old(View()) && worklist.dataSet == old(worklist.dataSet) && sys == old(sys)
      ensures !changed ==> AllConnected(sites, indCalls, View())
    {
      hide Good, Sound, Within, Traced, Pts, Cached, Inverse, Holds, CallsSound, Rep, NewPairs, Targets, Flowed;
      hide Connected, CallsMade, AllConnected;
      ghost var w, list, calls := View(), worklist.dataSet, indCalls;
      var newEdges := OnTheFlyCallGraphSolve();
      MadeAreSites(sites, w, newEdges);
      var cpySrcNodes := ConnectAll(newEdges);
      PairsFit(sys, w, Connected(sites, newEdges));
      PropagateAlong(cpySrcNodes);
      FlowedFrom(w, View().(pts := w.pts), ptd.base.ptsMap, cpySrcNodes);
      changed := newEdges != {};
      sys := sys.(copies := sys.copies + Connected(sites, newEdges));
      assert indCalls - calls == newEdges;
      Connecting(base, sites, calls, old(sys), nodes, w, View(), newEdges, list, worklist.dataSet);
      ConnectedAre(w, View(), Connected(sites, newEdges), list, worklist.dataSet);
      if !changed { NothingFound(sites, calls, w, newEdges); }
    }

    /** Pass on what has not been passed on. */
    method HandleCopyGep(node: Key)
      requires Valid() && IsRep(View(), node)
      modifies ptd, ptd.base, worklist
      ensures Valid() && sys == old(sys) && PassStep(old(View()), View(), node)
      ensures Queued(old(ptd.base.ptsMap), ptd.base.ptsMap, old(worklist.dataSet), worklist.dataSet)
    {
      hide Good, Sound, Traced, Pts, Cached, Inverse, Holds, Queued, Within;
      ghost var w := View();
      assert SccRepNode(node) == node;
      var nonEmpty := ptd.ComputeDiffPts(node, Pts(ptd.base.ptsMap, node));
      var diff := Pts(ptd.diffPtsMap, node);
      assert diff == Diff(w, node);
      var todo := set e | e in copies && e.src == node;
      QueuedNone(w.pts, worklist.dataSet);
      EdgesEndAtReps(sys, w);
      if nonEmpty {
        while todo != {}
          invariant DataOk() && todo <= copies && sys == old(sys) && SameGraph(w, View()) && ptd.cacheMap == w.cache
          invariant forall e :: e in todo ==> e.src == node
          invariant Pts(ptd.diffPtsMap, node) == diff && Replaced(w.propa, ptd.propaPtsMap, node, Pts(w.pts, node))
          invariant PartlyPassed(w, ptd.base.ptsMap, node, todo)
          invariant Queued(w.pts, ptd.base.ptsMap, old(worklist.dataSet), worklist.dataSet)
        {
          var e :| e in todo;
          ghost var pts, list := ptd.base.ptsMap, worklist.dataSet;
          var _ := ProcessCopy(node, e);
          QueuedOnUnited(w.pts, pts, ptd.base.ptsMap, e.dst, diff, old(worklist.dataSet), list, worklist.dataSet);
          todo := todo - {e};
        }
        PassedAll(w, ptd.base.ptsMap, node, todo);
      } else {
        NothingToPass(w, ptd.base.ptsMap, node);
      }
      PassKeeps(sys, w, View(), node);
      SameTraced(sys, w, View());
      PassStaysSound(sys, w, View(), node);
      WithinPass(nodes, w, View(), node);
    }

    method ProcessCopy(node: Key, edge: Link) returns (changed: bool)
      requires DataOk() && IsRep(View(), edge.dst)
      modifies ptd.base, worklist
      ensures DataOk() && United(old(ptd.base.ptsMap), ptd.base.ptsMap, edge.dst, Pts(ptd.diffPtsMap, node))
      ensures changed <==> !(Pts(ptd.diffPtsMap, node) <= Pts(old(ptd.base.ptsMap), edge.dst))
      ensures Queued(old(ptd.base.ptsMap), ptd.base.ptsMap, old(worklist.dataSet), worklist.dataSet)
    {
      ghost var pts := ptd.base.ptsMap;
      changed := ptd.base.UnionPtsData(edge.dst, Pts(ptd.diffPtsMap, node));
      if changed { PushIntoWorklist(edge.dst); }
      QueuedOne(pts, ptd.base.ptsMap, edge.dst, Pts(ptd.diffPtsMap, node), old(worklist.dataSet), worklist.dataSet);
    }

    method ProcessLoad(o: Key, load: Link) returns (added: bool)
      requires DataOk() && RepsOk(View())
      modifies this`copies, ptd.base, worklist
      ensures DataOk() && sys == old(sys)
      ensures if o in inert then !added && View() == old(View()) else CopyStep(old(View()), View(), o, load.dst)
      ensures added <==> o !in inert && !Covered(old(View()), o, load.dst)
      ensures old(copies) <= copies && (added <==> copies != old(copies))
      ensures Queued(old(ptd.base.ptsMap), ptd.base.ptsMap, old(worklist.dataSet), worklist.dataSet)
    {
      QueuedNone(ptd.base.ptsMap, worklist.dataSet);
      if o in inert { return false; }
      added := AddCopyEdge(o, load.dst);
    }

    method ProcessStore(o: Key, store: Link) returns (added: bool)
      requires DataOk() && RepsOk(View())
      modifies this`copies, ptd.base, worklist
      ensures DataOk() && sys == old(sys)
      ensures if o in inert then !added && View() == old(View()) else CopyStep(old(View()), View(), store.src, o)
      ensures added <==> o !in inert && !Covered(old(View()), store.src, o)
      ensures old(copies) <= copies && (added <==> copies != old(copies))
      ensures Queued(old(ptd.base.ptsMap), ptd.base.ptsMap, old(worklist.dataSet), worklist.dataSet)
    {
      QueuedNone(ptd.base.ptsMap, worklist.dataSet);
      if o in inert { return false; }
      added := AddCopyEdge(store.src, o);
    }

    /** Resolve a load for what its pointer has that it was not resolved for yet. */
    method HandleLoad(node: Key, edge: Link) returns (changed: bool)
      requires Valid() && edge in loads && edge.src == node
      modifies this`copies, ptd, ptd.base, worklist
      ensures Valid() && sys == old(sys) && (changed <==> copies != old(copies))
      ensures ResolveStep(inert, old(View()), View(), LoadKey(node, edge.dst), Pts(old(ptd.base.ptsMap), node))
      ensures Resolving(inert, old(View()), View()) && (changed ==> !Done(sys, old(View()), node))
      ensures NewCalledAt(inert, old(View()), View(), node)
      ensures Queued(old(ptd.base.ptsMap), ptd.base.ptsMap, old(worklist.dataSet), worklist.dataSet)
    {
      hide Good, GoodBut, Traced, Sound, Pts, Cached, Inverse, Holds, CopyStep, Covered, CacheStep, Queued, RepsOk,
           Within, GrowsAtNew, ResolveStep, Resolving, Done, NewCalledAt;
      ghost var w := View();
      EndsAreReps(sys, w, edge);
      WithinAt(nodes, w, edge, node);
      var key := LoadKey(node, edge.dst);
      var newPts := GetPts(node) - Cached(ptd.cacheMap, key);
      ptd.AddCachePts(key, newPts);
      ghost var x := View();
      StartResolving(sys, w, x, key, newPts);
      WithinSame(nodes, w, x);
      QueuedNone(w.pts, worklist.dataSet);
      changed := false;
      var todo := newPts;
      while todo != {}
        invariant DataOk() && sys == old(sys) && todo <= newPts && (changed <==> copies != w.copies)
        invariant GoodBut(sys, View(), key, todo) && Sound(sys, View()) && Grew(inert, x, View(), key, newPts)
        invariant Queued(w.pts, ptd.base.ptsMap, old(worklist.dataSet), worklist.dataSet) && Within(nodes, View())
      {
        var o :| o in todo;
        ghost var y, list := View(), worklist.dataSet;
        GoodReps(sys, y, key, todo);
        var added := ProcessLoad(o, edge);
        if o !in inert {
          CopyKeeps(sys, y, View(), key, todo, o, edge.dst);
          WithinCopy(nodes, y, View(), o, edge.dst);
          LoadStaysSound(sys, w, y, View(), edge, o);
          GrewByCopy(inert, x, y, View(), key, newPts, o);
          CopyGrows(y, View(), key, o);
          QueuedOn(w.pts, y.pts, ptd.base.ptsMap, old(worklist.dataSet), list, worklist.dataSet);
        } else {
          StillQueued(w.pts, y.pts, old(worklist.dataSet), list, worklist.dataSet);
        }
        Resolve(sys, View(), key, todo, o);
        todo := todo - {o};
        changed := changed || added;
      }
      AllResolved(sys, View(), key);
      ResolvedAll(inert, w, x, View(), key, newPts);
      HandledKey(sys, w, View(), key, Pts(w.pts, node));
      ResolvingTraced(sys, w, View());
    }

    /** Resolve a store for what its pointer has that it was not resolved for yet. */
    method HandleStore(node: Key, edge: Link) returns (changed: bool)
      requires Valid() && edge in stores && edge.dst == node
      modifies this`copies, ptd, ptd.base, worklist
      ensures Valid() && sys == old(sys) && (changed <==> copies != old(copies))
      ensures ResolveStep(inert, old(View()), View(), StoreKey(edge.src, node), Pts(old(ptd.base.ptsMap), node))
      ensures Resolving(inert, old(View()), View()) && (changed ==> !Done(sys, old(View()), node))
      ensures NewCalledAt(inert, old(View()), View(), node)
      ensures Queued(old(ptd.base.ptsMap), ptd.base.ptsMap, old(worklist.dataSet), worklist.dataSet)
    {
      hide Good, GoodBut, Traced, Sound, Pts, Cached, Inverse, Holds, CopyStep, Covered, CacheStep, Queued, RepsOk,
           Within, GrowsAtNew, ResolveStep, Resolving, Done, NewCalledAt;
      ghost var w := View();
      EndsAreReps(sys, w, edge);
      WithinAt(nodes, w, edge, node);
      var key := StoreKey(edge.src, node);
      var newPts := GetPts(node) - Cached(ptd.cacheMap, key);
      ptd.AddCachePts(key, newPts);
      ghost var x := View();
      StartResolving(sys, w, x, key, newPts);
      WithinSame(nodes, w, x);
      QueuedNone(w.pts, worklist.dataSet);
      changed := false;
      var todo := newPts;
      while todo != {}
        invariant DataOk() && sys == old(sys) && todo <= newPts && (changed <==> copies != w.copies)
        invariant GoodBut(sys, View(), key, todo) && Sound(sys, View()) && Grew(inert, x, View(), key, newPts)
        invariant Queued(w.pts, ptd.base.ptsMap, old(worklist.dataSet), worklist.dataSet) && Within(nodes, View())
      {
        var o :| o in todo;
        ghost var y, list := View(), worklist.dataSet;
        GoodReps(sys, y, key, todo);
        var added := ProcessStore(o, edge);
        if o !in inert {
          CopyKeeps(sys, y, View(), key, todo, edge.src, o);
          WithinCopy(nodes, y, View(), edge.src, o);
          StoreStaysSound(sys, w, y, View(), edge, o);
          GrewByCopy(inert, x, y, View(), key, newPts, o);
          CopyGrows(y, View(), key, o);
          QueuedOn(w.pts, y.pts, ptd.base.ptsMap, old(worklist.dataSet), list, worklist.dataSet);
        } else {
          StillQueued(w.pts, y.pts, old(worklist.dataSet), list, worklist.dataSet);
        }
        Resolve(sys, View(), key, todo, o);
        todo := todo - {o};
        changed := changed || added;
      }
      AllResolved(sys, View(), key);
      ResolvedAll(inert, w, x, View(), key, newPts);
      HandledKey(sys, w, View(), key, Pts(w.pts, node));
      ResolvingTraced(sys, w, View());
    }

    /** A node becomes one with the representative of its cycle, and so do all that it stood for. */
    method MergeNodeToRep(nodeId: Key, newRepId: Key)
      requires Valid() && nodeId in nodes && newRepId in nodes
      requires IsRep(View(), nodeId) && IsRep(View(), newRepId)
      requires Reaches(copies, nodeId, newRepId) && Reaches(copies, newRepId, nodeId)
      modifies this`nodeToRepMap, this`copies, this`loads, this`stores, ptd, ptd.base
      ensures Valid() && sys == old(sys)
      ensures if nodeId == newRepId then View() == old(View()) else MergeStep(old(View()), View(), nodeId, newRepId)
    {
      hide Good, Sound, Traced, Pts, Cached, Inverse, Holds, Images, NoLoops, Reaches, Within;
      if nodeId == newRepId { return; }
      ghost var w := View();
      ptd.UpdatePropaPtsMap(nodeId, newRepId);
      var _ := ptd.base.UnionPts(newRepId, nodeId);
      copies := NoLoops(Images(copies, nodeId, newRepId));
      loads := Images(loads, nodeId, newRepId);
      stores := Images(stores, nodeId, newRepId);
      RedirectedReps(w, nodeToRepMap, nodeId, newRepId);
      nodeToRepMap := Redirected(nodeToRepMap, nodeId, newRepId);
      MergeKeeps(sys, w, View(), nodeId, newRepId);
      MergeStaysSound(sys, w, View(), nodeId, newRepId);
      GoodParts(sys, w);
      MergeTraced(sys, w, View(), nodeId, newRepId);
      WithinMerge(nodes, w, View(), nodeId, newRepId);
    }

    method MergeSccNodes(repNodeId: Key, subNodes: set<Key>)
      requires Valid() && IsRep(View(), repNodeId) && repNodeId in nodes && subNodes <= nodes
      requires forall n ::
          n in subNodes ==> IsRep(View(), n) && Reaches(copies, n, repNodeId) && Reaches(copies, repNodeId, n)
      modifies this`nodeToRepMap, this`copies, this`loads, this`stores, ptd, ptd.base
      ensures Valid() && sys == old(sys) && Merged(old(View()), View())
      ensures forall v: Key ::
          Rep(View(), v) == if Rep(old(View()), v) in subNodes then repNodeId else Rep(old(View()), v)
    {
      hide Good, Sound, Traced, Pts, Cached, Inverse, Holds, Images, NoLoops, Reaches, Rep, Replaced, United, SameCache;
      hide Merged, Within;
      ghost var w := View();
      StartMerged(sys, w);
      var todo := subNodes;
      while todo != {}
        invariant Valid() && sys == old(sys) && todo <= subNodes && IsRep(View(), repNodeId) && Merged(w, View())
        invariant forall n ::
            n in todo ==> IsRep(View(), n) && Reaches(copies, n, repNodeId) && Reaches(copies, repNodeId, n)
        invariant forall v: Key {:trigger Rep(View(), v)} ::
          Rep(View(), v) == if Rep(w, v) in subNodes - todo then repNodeId else Rep(w, v)
      {
        var n :| n in todo;
        ghost var x := View();
        MergeNodeToRep(n, repNodeId);
        if n != repNodeId {
          CycleStays(sys, x, View(), n, repNodeId, todo - {n});
          MergedOneMore(sys, w, x, View(), n, repNodeId);
        }
        todo := todo - {n};
      }
    }

    // ---------------------------------------------------------------- a round

    /** Merge all cycles, from the top of the detector's stack down, and restore the stack. */
    method MergeSccCycle(stack: seq<Key>, m: R.InfoMap, ghost reps: set<Key>) returns (restored: seq<Key>)
      requires Valid() && reps == GraphNodes(nodes, nodeToRepMap) && m.Keys == reps
      requires DetectedIn(View(), reps, m, stack)
      modifies this`nodeToRepMap, this`copies, this`loads, this`stores, ptd, ptd.base
      ensures Valid() && sys == old(sys) && restored == stack && Merged(old(View()), View())
      ensures MergedFrom(View(), m, reps, stack, 0)
    {
      hide Good, Sound, Traced, Pts, Cached, Inverse, Holds, Reaches, Rep, Merged, Within, DetectedIn, MergedFrom;
      hide A.RepOf;
      ghost var w := View();
      StartMerged(sys, w);
      var topoOrder, revTopoOrder := stack, [];
      NothingMerged(nodes, w, m, reps, stack);
      assert stack[..|stack|] == stack;
      while topoOrder != []
        invariant |topoOrder| <= |stack| && topoOrder == stack[..|topoOrder|]
        invariant Turned(stack, revTopoOrder, |topoOrder|)
        invariant Valid() && sys == old(sys) && Merged(w, View()) && MergedFrom(View(), m, reps, stack, |topoOrder|)
        decreases |topoOrder|
      {
        ghost var k, x := |topoOrder| - 1, View();
        var repNodeId := topoOrder[|topoOrder| - 1];
        assert repNodeId == stack[k] && topoOrder[..k] == stack[..k];
        topoOrder := topoOrder[..|topoOrder| - 1];
        revTopoOrder := revTopoOrder + [repNodeId];
        MayMerge(nodes, reps, w, x, m, stack, k);
        MergeSccNodes(repNodeId, m[repNodeId].subNodes);
        MergedTrans(w, x, View());
        MergedOneComponent(nodes, reps, w, x, View(), m, stack, k);
      }
      restored := topoOrder;
      while revTopoOrder != []
        invariant |restored| <= |stack| && restored == stack[..|restored|] && Turned(stack, revTopoOrder, |restored|)
        invariant Valid() && sys == old(sys) && Merged(w, View()) && MergedFrom(View(), m, reps, stack, 0)
        decreases |revTopoOrder|
      {
        assert revTopoOrder[|revTopoOrder| - 1] == stack[|restored|];
        assert stack[..|restored| + 1] == stack[..|restored|] + [stack[|restored|]];
        restored := restored + [revTopoOrder[|revTopoOrder| - 1]];
        revTopoOrder := revTopoOrder[..|revTopoOrder| - 1];
      }
    }

    /** Find the cycles of the constraint graph and merge them. */
    method SccDetect() returns (stack: seq<Key>)
      requires Valid() && forall n :: n in nodes ==> n < G.UINT_MAX
      modifies this`nodeToRepMap, this`copies, this`loads, this`stores, ptd, ptd.base
      ensures Valid() && sys == old(sys) && Merged(old(View()), View()) && Ordered(nodes, View(), stack)
      ensures CyclesMerged(nodes, old(View()), View())
    {
      hide Sound, Traced, Pts, Cached, Inverse, Holds, Reaches, Rep, Merged, Within, A.RepOf, Good, MergedFrom;
      ghost var w := View();
      var reps := GraphNodes(nodes, nodeToRepMap);
      GraphIsFit(sys, nodes, w, reps);
      var scc := new D.SCCDetection(GraphOf(reps, copies));
      scc.Find();
      stack := MergeSccCycle(scc.T, scc.info, reps);
      RoundOrdered(sys, nodes, reps, w, View(), scc.info, stack);
      RoundMergesCycles(nodes, reps, w, View(), scc.info, stack);
    }

    /** Only representatives are processed. */
    method ProcessNode(nodeId: Key)
      requires Valid()
      modifies ptd, ptd.base, worklist
      ensures Valid() && sys == old(sys)
      ensures Queued(old(ptd.base.ptsMap), ptd.base.ptsMap, old(worklist.dataSet), worklist.dataSet)
      ensures if IsRep(old(View()), nodeId) then PassStep(old(View()), View(), nodeId) else View() == old(View())
    {
      QueuedNone(ptd.base.ptsMap, worklist.dataSet);
      if SccRepNode(nodeId) != nodeId { return; }
      HandleCopyGep(nodeId);
    }

    /** Process the nodes from the top of the stack: afterwards all differences are empty. */
    method PassDown(stack: seq<Key>)
      requires Valid() && Ordered(nodes, View(), stack)
      modifies ptd, ptd.base, worklist
      ensures Valid() && sys == old(sys) && Passed(old(View()), View())
      ensures Queued(old(ptd.base.ptsMap), ptd.base.ptsMap, old(worklist.dataSet), worklist.dataSet)
    {
      hide Good, Sound, Traced, Pts, Cached, Inverse, Holds, Within, Ordered, Queued, PassStep, Settled, Rep, Grows;
      hide PtsFlow;
      ghost var w := View();
      var nodeStack := stack;
      StartPass(nodes, w, stack);
      NothingFlowed(w);
      QueuedNone(w.pts, worklist.dataSet);
      while nodeStack != []
        invariant |nodeStack| <= |stack| && nodeStack == stack[..|nodeStack|]
        invariant Valid() && sys == old(sys) && Ordered(nodes, View(), stack) && PtsGrown(w, View())
        invariant PtsFlow(w, View())
        invariant forall r :: r in nodes && IsRep(View(), r) && r !in stack[..|nodeStack|] ==> Settled(View(), r)
        invariant Queued(w.pts, ptd.base.ptsMap, old(worklist.dataSet), worklist.dataSet)
        decreases |nodeStack|
      {
        ghost var k, x, list := |nodeStack| - 1, View(), worklist.dataSet;
        var nodeId := nodeStack[|nodeStack| - 1];
        assert nodeId == stack[k] && nodeStack == stack[..k + 1] && nodeStack[..k] == stack[..k];
        nodeStack := nodeStack[..|nodeStack| - 1];
        OrderedTop(nodes, x, stack, k);
        ProcessNode(nodeId);
        PassGoesOn(sys, nodes, x, View(), stack, k);
        GrownTwice(w, x, View(), nodeId);
        FlowOneMore(w, x, View(), nodeId);
        QueuedOnGrown(w, x, View(), old(worklist.dataSet), list, worklist.dataSet);
      }
      SettledOutside(nodes, View());
    }

    /** Resolve all loads and stores through a node. If the node has not grown meanwhile they are done. */
    method PostProcessNode(nodeId: Key) returns (changed: bool)
      requires Valid() && IsRep(View(), nodeId)
      modifies this`copies, ptd, ptd.base, worklist
      ensures Valid() && sys == old(sys) && (changed <==> copies != old(copies))
      ensures Resolving(inert, old(View()), View()) && NewCalledAt(inert, old(View()), View(), nodeId)
      ensures Queued(old(ptd.base.ptsMap), ptd.base.ptsMap, old(worklist.dataSet), worklist.dataSet)
      ensures Pts(ptd.base.ptsMap, nodeId) <= Pts(old(ptd.base.ptsMap), nodeId) ==> Done(sys, View(), nodeId)
      ensures changed ==> !Done(sys, old(View()), nodeId)
    {
      hide Good, Sound, Traced, Pts, Cached, Inverse, Holds, Within, Queued, ResolveStep, Rep, Grows, Done, LoadFor;
      hide StoreFor, NewCalledAt;
      ghost var w, had := View(), Pts(ptd.base.ptsMap, nodeId);
      ResolvingNone(inert, w);
      NoneCalled(inert, w, nodeId);
      QueuedNone(w.pts, worklist.dataSet);
      changed := false;
      var todo := set e | e in loads && e.src == nodeId;
      while todo != {}
        invariant Valid() && sys == old(sys) && (changed <==> copies != w.copies) && Resolving(inert, w, View())
        invariant (changed ==> !Done(sys, w, nodeId)) && NewCalledAt(inert, w, View(), nodeId)
        invariant loads == w.loads && stores == w.stores && todo <= loads
        invariant forall e :: e in todo ==> e.src == nodeId
        invariant forall e :: e in loads && e.src == nodeId && e !in todo ==> LoadFor(sys, View(), e, had)
        invariant Queued(w.pts, ptd.base.ptsMap, old(worklist.dataSet), worklist.dataSet)
      {
        var e :| e in todo;
        ghost var x, list := View(), worklist.dataSet;
        var added := HandleLoad(nodeId, e);
        LoadDone(sys, w, x, View(), e, had);
        ResolvingTrans(inert, w, x, View());
        ResolvingParts(inert, x, View());
        NewCalledAtTrans(inert, w, x, View(), nodeId);
        if added && !changed { StillUndone(sys, w, x, nodeId); }
        ForStay(sys, x, View(), had);
        QueuedOnGrown(w, x, View(), old(worklist.dataSet), list, worklist.dataSet);
        todo := todo - {e};
        changed := changed || added;
      }
      todo := set e | e in stores && e.dst == nodeId;
      while todo != {}
        invariant Valid() && sys == old(sys) && (changed <==> copies != w.copies) && Resolving(inert, w, View())
        invariant (changed ==> !Done(sys, w, nodeId)) && NewCalledAt(inert, w, View(), nodeId)
        invariant loads == w.loads && stores == w.stores && todo <= stores
        invariant forall e :: e in todo ==> e.dst == nodeId
        invariant forall e :: e in loads && e.src == nodeId ==> LoadFor(sys, View(), e, had)
        invariant forall e :: e in stores && e.dst == nodeId && e !in todo ==> StoreFor(sys, View(), e, had)
        invariant Queued(w.pts, ptd.base.ptsMap, old(worklist.dataSet), worklist.dataSet)
      {
        var e :| e in todo;
        ghost var x, list := View(), worklist.dataSet;
        var added := HandleStore(nodeId, e);
        StoreDone(sys, w, x, View(), e, had);
        ResolvingTrans(inert, w, x, View());
        ResolvingParts(inert, x, View());
        NewCalledAtTrans(inert, w, x, View(), nodeId);
        if added && !changed { StillUndone(sys, w, x, nodeId); }
        ForStay(sys, x, View(), had);
        QueuedOnGrown(w, x, View(), old(worklist.dataSet), list, worklist.dataSet);
        todo := todo - {e};
        changed := changed || added;
      }
      AllFor(sys, View(), nodeId, had);
    }

    /** One round: merge cycles, pass differences down, and resolve the loads and stores of all that is queued.
        Whether it adds an edge, and if not, whether it ends at rest, and whether it ends with the least solution,
        can be told exactly from the graph and the work list before it. */
    method Solve() returns (changed: bool, ghost k: Round)
      requires Valid() && forall n :: n in nodes ==> n < G.UINT_MAX
      modifies this`nodeToRepMap, this`copies, this`loads, this`stores, ptd, ptd.base, worklist
      ensures Valid() && sys == old(sys) && worklist.dataSet == {}
      ensures IsRound(sys, nodes, k) && (changed <==> copies != k.passed.copies)
      ensures k.before == old(View()) && k.list == old(worklist.dataSet) && k.after == View()
      ensures changed <==> !AddsNone(sys, nodes, old(View()), old(worklist.dataSet))
      ensures !changed ==> (AtRest(sys, View()) <==> Ready(sys, nodes, old(View()), old(worklist.dataSet)))
      ensures !changed ==> (Least(sys, View()) <==> Harmless(sys, nodes, old(View()), old(worklist.dataSet)))
      ensures Ready(sys, nodes, old(View()), old(worklist.dataSet)) ==> AllDone(sys, View())
    {
      hide Good, Sound, Traced, Pts, Cached, Inverse, Holds, Within, Queued, Rep, Grows, Done, Merged, Tracked, Ordered;
      hide Missing, Overlooked, AllSettled, CyclesMerged, Passed, Resolving, Idle, Cycled;
      hide AddsNone, AtRest, Ready, Least, Harmless, AllDone, OnlyWoken, ListWoken, NewCalledAt;
      ghost var w, list := View(), worklist.dataSet;
      var nodeStack := SccDetect();
      ghost var mid := View();
      StartCycled(sys, nodes, w, mid);
      PassDown(nodeStack);
      ghost var z, queued := View(), worklist.dataSet;
      TrackedAtFirst(sys, z, queued);
      WokenAtFirst(inert, z, queued);
      ResolvingNone(inert, z);
      changed := false;
      while !worklist.Empty()
        invariant Valid() && sys == old(sys) && Resolving(inert, z, View()) && (changed <==> copies != z.copies)
        invariant Tracked(sys, View(), worklist.dataSet, z, queued)
        invariant OnlyWoken(inert, z, queued, View()) && ListWoken(z, queued, View(), worklist.dataSet)
        invariant if changed then !Idle(sys, z, queued) else worklist.dataSet <= queued
        decreases Missing(nodes, View()), worklist.dataSet
      {
        ghost var x, before := View(), worklist.dataSet;
        var v := worklist.Pop();
        var nodeId := SccRepNode(v);
        RepIsRep(sys, x, v);
        var added := PostProcessNode(nodeId);
        ResolvingParts(inert, z, x);
        ResolvingParts(inert, x, View());
        TrackedTurn(sys, x, View(), z, queued, before, v, worklist.dataSet);
        WokenTurn(inert, z, queued, x, View(), before, v, worklist.dataSet);
        MissingShrinks(nodes, x, View(), before - {v}, worklist.dataSet);
        ResolvingTrans(inert, z, x, View());
        if added && !changed {
          GoodParts(sys, z);
          TurnAdds(sys, z, x, queued, v);
        }
        if !added { NoneQueued(inert, x, View(), before - {v}, worklist.dataSet); }
        changed := changed || added;
      }
      worklist.EmptyMeansNone();
      TrackedEnds(sys, View(), z, queued);
      k := Round(w, list, mid, z, queued, View());
      RoundToldBefore(sys, nodes, k);
    }

    /** Rounds, each followed by an update of the call graph, until a round adds no edge and no call is found. It does
        these rounds and updates and nothing else. The last ends with the least solution exactly if what it overlooked
        is harmless. If all nodes with objects were queued at first, it overlooked no node that has stood for the same
        nodes since the merging of the first round. */
    method SolveUntilStable() returns (ghost ks: seq<Round>)
      requires Valid() && CallsOk() && forall n :: n in nodes ==> n < G.UINT_MAX
      modifies this`nodeToRepMap, this`copies, this`loads, this`stores, this`indCalls, this`sys
      modifies ptd, ptd.base, worklist
      ensures Valid() && CallsOk() && worklist.dataSet == {} && AllConnected(sites, indCalls, View())
      ensures WholeRun(sites, nodes, Start(old(sys), old(indCalls), old(View()), old(worklist.dataSet)), ks)
      ensures RunEndsWith(sites, nodes, Start(old(sys), old(indCalls), old(View()), old(worklist.dataSet)), ks, sys,
                          indCalls, View())
      ensures AtRest(sys, View()) <==> Ready(sys, nodes, ks[|ks| - 1].before, ks[|ks| - 1].list)
      ensures Least(sys, View()) <==> Harmless(sys, nodes, ks[|ks| - 1].before, ks[|ks| - 1].list)
      ensures NonEmptyQueued(old(View()), old(worklist.dataSet)) ==>
          forall r: Key {:trigger Done(sys, View(), r)} ::
            IsRep(View(), r) && (forall v: Key :: Rep(View(), v) == r ==> Rep(ks[0].merged, v) == r) ==>
              Done(sys, View(), r)
    {
      hide Good, Sound, Traced, Pts, Cached, Inverse, Holds, Within, Rep, Grows, Done, Uncovered, CallsOk, GoesOn;
      hide NonEmptyQueued, AllDone, AllSettled, RoundOf, IsRound, AddsNone, Ready, Harmless, Least, AllConnected;
      hide ConnectStep, Rounds, StartsFrom, SystemAt, CallsAt, Unmerged, Connected, CallsMade;
      ghost var s := Start(sys, indCalls, View(), worklist.dataSet);
      ks := [];
      NoRounds(sites, nodes, s);
      var reanalyze := true;
      while reanalyze
        invariant Valid() && CallsOk() && Rounds(sites, nodes, s, ks)
        invariant StartsFrom(sites, s, ks, |ks|, View(), worklist.dataSet)
        invariant sys == SystemAt(sites, s, ks, |ks|) && indCalls == CallsAt(sites, s, ks, |ks|)
        invariant if ks == [] then reanalyze else reanalyze <==> GoesOn(sites, s, ks, |ks| - 1)
        invariant !reanalyze ==> worklist.dataSet == {} && AllConnected(sites, indCalls, View())
        invariant !reanalyze ==> ks[|ks| - 1].after == View() && sys == SystemAt(sites, s, ks, |ks| - 1)
        invariant !reanalyze ==> indCalls == CallsAt(sites, s, ks, |ks| - 1)
        invariant !reanalyze ==> copies == ks[|ks| - 1].passed.copies
        decreases Uncovered(nodes, View()), sites.Keys - indCalls, reanalyze
      {
        ghost var w, sys0, calls := View(), sys, indCalls;
        ghost var k;
        reanalyze, k := Solve();
        ghost var x := View();
        RoundIsRoundOf(sys, nodes, k);
        GoodParts(sys, x);
        RoundCovers(sys, nodes, w, k.merged, x, k.list);
        OneMoreRound(sites, nodes, s, ks, k);
        AfterOneMore(sites, s, ks, k);
        AtPrefix(sites, s, ks, k, |ks|);
        var updated := UpdateCallGraph();
        ghost var found := CallsMade(sites, x) - calls;
        MadeAreSites(sites, x, CallsMade(sites, x));
        FoundAre(calls, CallsMade(sites, x), indCalls);
        CallsCover(sys0, nodes, x, View(), Connected(sites, found), {}, worklist.dataSet);
        ks := ks + [k];
        StartsNext(sites, s, ks, View(), worklist.dataSet);
        reanalyze := reanalyze || updated;
      }
      ghost var last := ks[|ks| - 1];
      LastIsRound(sites, nodes, s, ks);
      RoundToldBefore(sys, nodes, last);
      if NonEmptyQueued(s.state, s.list) {
        forall r: Key
          | IsRep(View(), r) && (forall v: Key :: Rep(View(), v) == r ==> Rep(ks[0].merged, v) == r)
          ensures Done(sys, View(), r)
        {
          assert Unmerged(ks[0].merged, View(), r) by { UnmergedIs(ks[0].merged, View(), r); }
          ApartIsDone(sites, nodes, s, ks, |ks| - 1, r);
        }
      }
    }

    /** The whole analysis, from a graph in which nothing has been merged: the address constraints, and then rounds
        until nothing is added. It always ends. It ends with the least solution of constraints and calls exactly if
        what the last round overlooked is harmless. That is certain if the copies that loads, stores and calls call for
        in some solution close no cycle that the given copies do not close; and no node is overlooked that has stood
        for the same nodes since the merging of the first round. */
    method Analyze(addrs: set<Link>) returns (ghost s: Start, ghost ks: seq<Round>)
      requires Valid() && CallsOk() && nodeToRepMap == NONE && NonEmptyQueued(View(), worklist.dataSet)
      requires forall e :: e in addrs ==> e.src in nodes && e.dst in nodes
      requires forall n :: n in nodes ==> n < G.UINT_MAX
      modifies this, ptd, ptd.base, worklist
      ensures Valid() && CallsOk() && base == old(base).(addrs := old(base).addrs + addrs)
      ensures s.sys == old(sys).(addrs := old(sys).addrs + addrs) && s.calls == old(indCalls)
      ensures AddrsTaken(old(View()), s.state, addrs)
      ensures Queued(old(ptd.base.ptsMap), s.state.pts, old(worklist.dataSet), s.list)
      ensures WholeRun(sites, nodes, s, ks) && RunEndsWith(sites, nodes, s, ks, sys, indCalls, View())
      ensures LeastWithCalls(base, sites, View()) <==>
          Harmless(sys, nodes, ks[|ks| - 1].before, ks[|ks| - 1].list)
      ensures forall r: Key {:trigger Done(sys, View(), r)} ::
          IsRep(View(), r) && (forall v: Key :: Rep(View(), v) == r ==> Rep(ks[0].merged, v) == r) ==>
            Done(sys, View(), r)
      ensures forall m: PtsMap {:trigger CalledWith(base, sites, m)} ::
                Solves(base, m, NONE) && CallsHold(sites, m, NONE) &&
                NoLateCycles(CalledWith(base, sites, m), base.copies) ==>
                  LeastWithCalls(base, sites, View())
    {
      hide Good, Sound, Traced, NonEmptyQueued, RepsFollow, SameReps, AtRest, CyclesMerged, AddrsTaken, Within, Least;
      hide CallsSound, CallsHold, LeastWithCalls, Harmless, Ready, IsRound, AllConnected, Solves, NoLateCycles;
      hide CalledWith, Queued, Done, Rep, RunEndsWith, Rounds, GoesOn;
      ProcessAllAddr(addrs);
      s := Start(sys, indCalls, View(), worklist.dataSet);
      ks := SolveUntilStable();
      LeastWithCallsIff(base, sites, indCalls, sys, nodes, View());
      forall m: PtsMap
        | Solves(base, m, NONE) && CallsHold(sites, m, NONE) && NoLateCycles(CalledWith(base, sites, m), base.copies)
        ensures LeastWithCalls(base, sites, View())
      {
        CallsSolve(base, sites, indCalls, sys, m);
        CalledIsWith(base, sites, indCalls, sys, m);
        GivenCopiesThere(base, sites, s.calls, s.sys, s.state);
        GoodParts(sys, View());
        FirstMerges(sites, nodes, s, ks, sys, indCalls, View());
        NothingMergedLater(sys, nodes, s.state, ks[0].merged, View(), m, CalledWith(base, sites, m), base.copies);
        RestIfUnmerged(sites, nodes, s, ks, sys, indCalls, View());
        RestIsLeast(sys, View());
      }
    }

    /** When nothing is left to do, the answers are the least solution of the constraints. */
    lemma Finished(m: PtsMap)
      requires Valid() && AtRest(sys, View()) && Solves(sys, m, NONE)
      ensures Solves(sys, ptd.base.ptsMap, nodeToRepMap) && forall v: Key :: GetPts(v) <= Pts(m, v)
    {
      RestIsLeast(sys, View());
      forall v: Key
        ensures GetPts(v) <= Pts(m, v)
      {
        assert Answer(ptd.base.ptsMap, nodeToRepMap, v) <= Answer(m, NONE, v);
      }
    }
  }

  ghost predicate Grew(inert: set<Key>, w: Wave, x: Wave, key: CacheKey, news: set<Key>) {
    && x.rep == w.rep && x.loads == w.loads && x.stores == w.stores && w.copies <= x.copies && SamePropa(w, x)
    && SameCache(w, x) && (forall v: Key {:trigger Pts(x.pts, v)} :: Pts(w.pts, v) <= Pts(x.pts, v))
    && GrowsAtNew(w, x)
    && (forall e: Link ::
          e in x.copies && e !in w.copies ==> exists o: Key :: o in news && o !in inert && e == NewEdge(w, key, o))
  }

  /** The address constraints have been taken up, and nothing else has happened. */
  ghost predicate AddrsTaken(w: Wave, x: Wave, addrs: set<Link>) {
    && SameGraph(w, x) && SamePropa(w, x) && SameCache(w, x)
    && forall o: Key, v: Key {:trigger o in Pts(x.pts, v)} ::
         o in Pts(x.pts, v) <==> o in Pts(w.pts, v) || Link(o, v) in addrs
  }

  lemma NoneTaken(w: Wave)
    ensures AddrsTaken(w, w, {})
  {}

  lemma OneMoreTaken(w: Wave, x: Wave, y: Wave, addrs: set<Link>, e: Link, r: set<Key>, s: set<Key>, t: set<Key>)
    requires AddrsTaken(w, x, addrs) && AddrStep(x, y, e.src, e.dst)
    requires Queued(w.pts, x.pts, r, s) && Queued(x.pts, y.pts, s, t) && NonEmptyQueued(x, s)
    ensures AddrsTaken(w, y, addrs + {e}) && NonEmptyQueued(y, t) && Queued(w.pts, y.pts, r, t)
  {
    NonEmptyStillQueued(x, y, s, t);
    hide Pts, Cached, Rep, NonEmptyQueued;
    forall v: Key ensures Rep(y, v) == Rep(w, v) { assert Rep(x, v) == Rep(w, v); }
    forall v: Key ensures Pts(y.propa, v) == Pts(w.propa, v) { assert Pts(x.propa, v) == Pts(w.propa, v); }
    forall k: CacheKey ensures Cached(y.cache, k) == Cached(w.cache, k) {
      assert Cached(x.cache, k) == Cached(w.cache, k);
    }
    forall o: Key, v: Key ensures o in Pts(y.pts, v) <==> o in Pts(w.pts, v) || Link(o, v) in addrs + {e} {
      assert o in Pts(x.pts, v) <==> o in Pts(w.pts, v) || Link(o, v) in addrs;
    }
    TakenGrows(w, x, addrs);
    QueuedOn(w.pts, x.pts, y.pts, r, s, t);
  }

  lemma TakenGrows(w: Wave, x: Wave, addrs: set<Link>)
    requires AddrsTaken(w, x, addrs)
    ensures forall v: Key {:trigger Pts(x.pts, v)} {:trigger Pts(w.pts, v)} :: Pts(w.pts, v) <= Pts(x.pts, v)
  {
    hide Pts;
    forall v: Key ensures Pts(w.pts, v) <= Pts(x.pts, v) {
      forall o | o in Pts(w.pts, v) ensures o in Pts(x.pts, v) {}
    }
  }

  lemma NoCalls(base: System, sites: Sites)
    ensures CallsSound(base, sites, {}, base)
  {
    NoConnections(sites);
    assert base.(copies := base.copies + {}) == base;
  }

  lemma NoConnections(sites: Sites)
    ensures Connected(sites, {}) == {}
  {}

  lemma FoundAre(calls: set<Call>, made: set<Call>, all: set<Call>)
    requires all == calls + made
    ensures all - calls == made - calls && (all != calls <==> made - calls != {})
    ensures calls + (made - calls) == all
  {
    if made - calls == {} {
      forall c | c in all ensures c in calls { assert c !in made - calls; }
    }
    if c :| c in made - calls { assert c in all && c !in calls; }
  }

  lemma MadeAreSites(sites: Sites, w: Wave, calls: set<Call>)
    requires calls <= CallsMade(sites, w)
    ensures calls <= sites.Keys && forall c :: c in calls ==> c.callee in Pts(w.pts, Rep(w, c.pointer))
  {}

  lemma FlowedFrom(w: Wave, x: Wave, pts: PtsMap, es: set<Link>)
    requires Flowed(x, pts, es) && x.pts == w.pts
    ensures Flowed(w, pts, es)
  {
    hide Pts, Targets, Obeys;
    forall m: PtsMap | Above(w, m) ensures Above(x, m) {}
    hide Above;
  }

  lemma NothingFound(sites: Sites, calls: set<Call>, w: Wave, newEdges: set<Call>)
    requires newEdges == CallsMade(sites, w) - calls && newEdges == {}
    ensures AllConnected(sites, calls, w) && Connected(sites, {}) == {} && NewPairs(w, {}) == {} && Targets({}) == {}
  {
    forall c: Call | c in sites && c.callee in Answer(w.pts, w.rep, c.pointer) ensures c in calls {
      assert c in CallsMade(sites, w);
      assert c in newEdges <==> c !in calls;
    }
  }

  /** The ends of all new edges are queued, and what their starts had has flowed along them. */
  lemma ConnectedAre(w: Wave, x: Wave, given: set<Link>, list: set<Key>, queued: set<Key>)
    requires ConnectStep(w, x, given, list, queued)
    ensures queued == list + set e | e in x.copies && e !in w.copies :: e.dst
    ensures forall e :: e in x.copies && e !in w.copies ==> Pts(w.pts, e.src) <= Pts(x.pts, e.dst)
  {
    hide Pts, Rep;
    assert forall e: Link :: e in NewPairs(w, given) <==> e in x.copies && e !in w.copies;
    hide NewPairs;
  }

  lemma PairsFit(sys: System, w: Wave, given: set<Link>)
    requires Good(sys, w)
    ensures forall e: Link :: e in NewPairs(w, given) ==> RepOf(w.rep, e.src) == e.src && RepOf(w.rep, e.dst) == e.dst
  {
    NewPairsFit(w, given);
    hide NewPairs;
  }

  lemma WithinAt(nodes: set<Key>, w: Wave, e: Link, r: Key)
    requires Within(nodes, w) && (e in w.loads || e in w.stores)
    ensures e.src in nodes && e.dst in nodes && Pts(w.pts, r) <= nodes
  {}

  lemma WithinSame(nodes: set<Key>, w: Wave, x: Wave)
    requires Within(nodes, w) && x.pts == w.pts && x.rep == w.rep
    requires x.copies == w.copies && x.loads == w.loads && x.stores == w.stores
    ensures Within(nodes, x)
  {
    forall v: Key ensures Rep(x, v) == Rep(w, v) {}
  }

  lemma StartMerged(sys: System, w: Wave)
    requires Good(sys, w)
    ensures Merged(w, w)
  {
    MergedNone(w);
  }

  lemma MergedOneMore(sys: System, w: Wave, x: Wave, y: Wave, n: Key, r: Key)
    requires Merged(w, x) && Good(sys, x) && MergeStep(x, y, n, r)
    ensures Merged(w, y)
  {
    MergeIsMerged(x, y, n, r);
    hide Merged, MergeStep;
    MergedTrans(w, x, y);
  }

  lemma RepIsRep(sys: System, w: Wave, v: Key)
    requires Good(sys, w)
    ensures IsRep(w, Rep(w, v)) && Rep(w, v) == RepOf(w.rep, v) && RepsOk(w)
  {
    assert IsRep(w, Rep(w, v));
  }

  lemma CallsCover(sys: System, nodes: set<Key>, w: Wave, x: Wave, given: set<Link>, list: set<Key>, queued: set<Key>)
    requires Good(sys, w) && ConnectStep(w, x, given, list, queued)
    ensures Uncovered(nodes, x) <= Uncovered(nodes, w)
  {
    ConnectKeeps(sys, w, x, given, list, queued);
    hide ConnectStep, Good, OnlyCopiesGrow;
    forall a: Key, b: Key | Covered(w, a, b) ensures Covered(x, a, b) { CoveredStays(w, x, a, b); }
    hide Covered;
  }

  lemma GivenCopiesThere(base: System, sites: Sites, calls: set<Call>, sys: System, w: Wave)
    requires Good(sys, w) && w.rep == NONE && CallsSound(base, sites, calls, sys)
    ensures NoLoops(base.copies) <= w.copies
  {
    forall e | e in NoLoops(base.copies) ensures e in w.copies {
      assert e in sys.copies;
      assert Covered(w, e.src, e.dst);
    }
  }

  lemma ResolvingParts(inert: set<Key>, w: Wave, x: Wave)
    requires Resolving(inert, w, x)
    ensures OnlyCopiesGrow(w, x) && Grows(w.pts, x.pts) && w.copies <= x.copies && SameReps(w, x)
  {}

  lemma GoodParts(sys: System, w: Wave)
    requires Good(sys, w)
    ensures RepsOk(w) && GraphOk(w)
  {}

  lemma GoodReps(sys: System, w: Wave, key: CacheKey, open: set<Key>)
    requires GoodBut(sys, w, key, open)
    ensures RepsOk(w)
  {}

  lemma EdgesEndAtReps(sys: System, w: Wave)
    requires Good(sys, w)
    ensures forall e: Link :: e in w.copies ==> IsRep(w, e.dst)
  {}

  lemma CopyGrows(w: Wave, x: Wave, key: CacheKey, o: Key)
    requires if key.LoadKey? then CopyStep(w, x, o, key.dst) else CopyStep(w, x, key.src, o)
    ensures forall v: Key {:trigger Pts(x.pts, v)} :: Pts(w.pts, v) <= Pts(x.pts, v)
  {
    hide Pts, Cached;
  }

  lemma StillQueued(w: PtsMap, x: PtsMap, r: set<Key>, s: set<Key>, t: set<Key>)
    requires Queued(w, x, r, s) && Queued(x, x, s, t)
    ensures Queued(w, x, r, t)
  {
    hide Pts;
    assert forall v: Key :: v in t <==> v in s;
  }

  lemma QueuedOnUnited(u: PtsMap, w: PtsMap, x: PtsMap, d: Key, data: set<Key>, r: set<Key>, s: set<Key>, t: set<Key>)
    requires Queued(u, w, r, s) && Queued(w, x, s, t) && United(w, x, d, data)
    requires forall v: Key {:trigger Pts(w, v)} :: Pts(u, v) <= Pts(w, v)
    ensures Queued(u, x, r, t)
  {
    hide Pts, Queued;
    QueuedOn(u, w, x, r, s, t);
  }

  lemma EndsAreReps(sys: System, w: Wave, e: Link)
    requires Good(sys, w) && (e in w.loads || e in w.stores)
    ensures Rep(w, e.src) == e.src && Rep(w, e.dst) == e.dst
  {}

  lemma StartResolving(sys: System, w: Wave, x: Wave, key: CacheKey, news: set<Key>)
    requires Good(sys, w) && Sound(sys, w) && x.pts == w.pts && x.propa == w.propa && x.rep == w.rep
    requires x.copies == w.copies && x.loads == w.loads && x.stores == w.stores
    requires forall k: CacheKey {:trigger Cached(x.cache, k)} ::
        Cached(x.cache, k) == Cached(w.cache, k) + if k == key then news else {}
    ensures GoodBut(sys, x, key, news) && Sound(sys, x) && Grew(sys.inert, x, x, key, news)
  {
    assert CacheStep(w, x, key, news);
    CacheKeeps(sys, w, x, key, news);
    hide Below, CacheStep;
    forall m: PtsMap | Solves(sys, m, NONE) ensures Below(sys, x, m) { CacheSound(sys, w, x, key, news, m); }
  }

  lemma HandledKey(sys: System, w: Wave, x: Wave, key: CacheKey, had: set<Key>)
    requires Good(sys, w) && Good(sys, x) && ResolveStep(sys.inert, w, x, key, had) && AtKey(w, key, had)
    ensures Resolving(sys.inert, w, x) && NewCalledAt(sys.inert, w, x, if key.LoadKey? then key.src else key.dst)
    ensures x.copies != w.copies ==> !Done(sys, w, if key.LoadKey? then key.src else key.dst)
  {
    StepIsResolving(sys.inert, w, x, key, had);
    StepCalledAt(sys.inert, w, x, key, had, if key.LoadKey? then key.src else key.dst);
    if x.copies != w.copies { AddedUndone(sys, w, x, key, had); }
  }

  lemma GrewByCopy(inert: set<Key>, w: Wave, x: Wave, y: Wave, key: CacheKey, news: set<Key>, o: Key)
    requires Grew(inert, w, x, key, news) && o in news && o !in inert && y.rep == x.rep
    requires if key.LoadKey? then CopyStep(x, y, o, key.dst) else CopyStep(x, y, key.src, o)
    ensures Grew(inert, w, y, key, news)
  {
    CopyGrowsAtNew(x, y, if key.LoadKey? then o else key.src, if key.LoadKey? then key.dst else o);
    GrowsAtNewTrans(w, x, y);
    hide Pts, Cached, GrowsAtNew;
  }

  lemma CopyGrowsAtNew(x: Wave, y: Wave, s: Key, d: Key)
    requires CopyStep(x, y, s, d)
    ensures GrowsAtNew(x, y) && x.copies <= y.copies && Grows(x.pts, y.pts)
  {
    hide Pts, Cached, Rep;
    forall o: Key, v: Key | o in Pts(y.pts, v) && o !in Pts(x.pts, v) ensures NewAt(x, y, v, o) {
      assert v == Rep(x, d) && Link(Rep(x, s), Rep(x, d)) in y.copies;
      assert o in Pts(x.pts, Rep(x, s)) && o in Pts(y.pts, Rep(x, s));
    }
  }

  lemma ResolvedAll(inert: set<Key>, w: Wave, x: Wave, y: Wave, key: CacheKey, news: set<Key>)
    requires Grew(inert, x, y, key, news) && x.pts == w.pts && x.propa == w.propa && x.rep == w.rep
    requires x.copies == w.copies && x.loads == w.loads && x.stores == w.stores
    requires forall k: CacheKey {:trigger Cached(x.cache, k)} ::
        Cached(x.cache, k) == Cached(w.cache, k) + if k == key then news else {}
    requires news == Pts(w.pts, if key.LoadKey? then key.src else key.dst) - Cached(w.cache, key)
    ensures ResolveStep(inert, w, y, key, Pts(w.pts, if key.LoadKey? then key.src else key.dst))
  {
    hide Pts, Cached;
    forall o: Key, v: Key | o in Pts(y.pts, v) && o !in Pts(w.pts, v) ensures NewAt(w, y, v, o) {
      assert NewAt(x, y, v, o);
    }
  }

  lemma LoadStaysSound(sys: System, w: Wave, x: Wave, y: Wave, e: Link, o: Key)
    requires Sound(sys, w) && Sound(sys, x) && e in w.loads && o in Pts(w.pts, e.src) && o !in sys.inert
    requires CopyStep(x, y, o, e.dst)
    ensures Sound(sys, y)
  {
    hide CopyStep;
    forall m: PtsMap | Solves(sys, m, NONE) ensures Below(sys, y, m) {
      assert Below(sys, w, m) && Below(sys, x, m);
      hide Solves, Pts, Rep;
      assert o in Pts(m, e.src);
      assert Pts(m, o) <= Pts(m, e.dst);
      hide Below;
      CopySound(sys, x, y, o, e.dst, m);
    }
  }

  lemma StoreStaysSound(sys: System, w: Wave, x: Wave, y: Wave, e: Link, o: Key)
    requires Sound(sys, w) && Sound(sys, x) && e in w.stores && o in Pts(w.pts, e.dst) && o !in sys.inert
    requires CopyStep(x, y, e.src, o)
    ensures Sound(sys, y)
  {
    hide CopyStep;
    forall m: PtsMap | Solves(sys, m, NONE) ensures Below(sys, y, m) {
      assert Below(sys, w, m) && Below(sys, x, m);
      hide Solves, Pts, Rep;
      assert o in Pts(m, e.dst);
      assert Pts(m, e.src) <= Pts(m, o);
      hide Below;
      CopySound(sys, x, y, e.src, o, m);
    }
  }

  function Redirected(rep: Reps, n: Key, r: Key): Reps {
    (map v | v in rep :: if rep[v] == n then r else rep[v])[n := r]
  }

  lemma RedirectedReps(w: Wave, rep: Reps, n: Key, r: Key)
    requires w.rep == rep && IsRep(w, n)
    ensures forall v: Key {:trigger RepOf(Redirected(rep, n, r), v)} ::
              RepOf(Redirected(rep, n, r), v) == if Rep(w, v) == n then r else Rep(w, v)
  {}

  lemma MergeStaysSound(sys: System, w: Wave, x: Wave, n: Key, r: Key)
    requires Sound(sys, w) && MergeStep(w, x, n, r) && Reaches(w.copies, n, r) && Reaches(w.copies, r, n)
    ensures Sound(sys, x)
  {
    hide Below, MergeStep, Reaches;
    forall m: PtsMap | Solves(sys, m, NONE) ensures Below(sys, x, m) { MergeSound(sys, w, x, n, r, m); }
  }

  lemma CycleStays(sys: System, w: Wave, x: Wave, n: Key, r: Key, others: set<Key>)
    requires Good(sys, w) && MergeStep(w, x, n, r) && n !in others
    requires forall a :: a in others ==> IsRep(w, a) && Reaches(w.copies, a, r) && Reaches(w.copies, r, a)
    ensures IsRep(x, r) && forall a :: a in others ==> IsRep(x, a) && Reaches(x.copies, a, r) && Reaches(x.copies, r, a)
  {
    MergeReps(w, x, n, r);
    hide MergeStep, Rep, Good;
    forall a | a in others ensures IsRep(x, a) && Reaches(x.copies, a, r) && Reaches(x.copies, r, a) {
      var p: seq<Key> :| IsPath(w.copies, p) && p[0] == a && p[|p| - 1] == r;
      var q: seq<Key> :| IsPath(w.copies, q) && q[0] == r && q[|q| - 1] == a;
      ImagePath(w, x, n, r, p);
      ImagePath(w, x, n, r, q);
    }
  }

  lemma AddrStaysSound(sys: System, w: Wave, x: Wave, o: Key, v: Key)
    requires Sound(sys, w) && AddrStep(w, x, o, v)
    ensures Sound(sys.(addrs := sys.addrs + {Link(o, v)}), x)
  {
    hide Below;
    var sys' := sys.(addrs := sys.addrs + {Link(o, v)});
    forall m: PtsMap | Solves(sys', m, NONE) ensures Below(sys', x, m) {
      assert Solves(sys, m, NONE);
      assert Link(o, v) in sys'.addrs;
      AddrSound(sys, w, x, o, v, m);
      SameBelow(sys, sys', x, m);
    }
  }

  lemma SameBelow(sys: System, sys': System, x: Wave, m: PtsMap)
    requires Below(sys, x, m) && sys'.inert == sys.inert
    ensures Below(sys', x, m)
  {}

  lemma PassStaysSound(sys: System, w: Wave, x: Wave, n: Key)
    requires Sound(sys, w) && PassStep(w, x, n)
    ensures Sound(sys, x)
  {
    hide Below, PassStep;
    forall m: PtsMap | Solves(sys, m, NONE) ensures Below(sys, x, m) { PassSound(sys, w, x, n, m); }
  }

  // ------------------------------------------------------------------ the loop over the successors

  ghost predicate PartlyPassed(w: Wave, pts: PtsMap, n: Key, todo: set<Link>) {
    forall v: Key {:trigger Pts(pts, v)} ::
      Pts(pts, v) == Pts(w.pts, v) + if Link(n, v) in w.copies - todo then Diff(w, n) else {}
  }

  lemma PassedAll(w: Wave, pts: PtsMap, n: Key, todo: set<Link>)
    requires PartlyPassed(w, pts, n, todo) && todo == {}
    ensures forall v: Key {:trigger Pts(pts, v)} ::
        Pts(pts, v) == Pts(w.pts, v) + if Link(n, v) in w.copies then Diff(w, n) else {}
  {}

  lemma NothingToPass(w: Wave, pts: PtsMap, n: Key)
    requires pts == w.pts && Diff(w, n) == {}
    ensures forall v: Key {:trigger Pts(pts, v)} ::
        Pts(pts, v) == Pts(w.pts, v) + if Link(n, v) in w.copies then Diff(w, n) else {}
  {}
}
