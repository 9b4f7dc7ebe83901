/**
 One round of the wave solver: merge the cycles, pass differences on in topological order, and resolve loads and
 stores of what has grown. What a round achieves, and when it has found the solution.
 */
module WaveSolve {
  import opened DfPoints
  import opened PtData
  import opened WaveDiff
  import opened WaveSteps

  // ------------------------------------------------------------------ a finite set of nodes

  /** Everything is about the nodes of the graph. */
  ghost predicate Within(nodes: set<Key>, w: Wave) {
    && (forall v: Key {:trigger Pts(w.pts, v)} :: Pts(w.pts, v) <= nodes && (v !in nodes ==> Pts(w.pts, v) == {}))
    && (forall v: Key {:trigger Rep(w, v)} :: if v in nodes then Rep(w, v) in nodes else Rep(w, v) == v)
    && (forall e: Link :: e in w.copies || e in w.loads || e in w.stores ==> e.src in nodes && e.dst in nodes)
  }

  lemma WithinAddr(nodes: set<Key>, w: Wave, x: Wave, o: Key, v: Key)
    requires Within(nodes, w) && AddrStep(w, x, o, v) && o in nodes && v in nodes
    ensures Within(nodes, x)
  {
    hide Pts, Cached, Rep;
  }

  lemma WithinCopy(nodes: set<Key>, w: Wave, x: Wave, s: Key, d: Key)
    requires Within(nodes, w) && CopyStep(w, x, s, d) && s in nodes && d in nodes
    ensures Within(nodes, x)
  {
    hide Pts, Cached, Rep;
  }

  lemma WithinPass(nodes: set<Key>, w: Wave, x: Wave, n: Key)
    requires Within(nodes, w) && PassStep(w, x, n)
    ensures Within(nodes, x)
  {
    hide Pts, Cached, Rep;
  }

  lemma WithinMerge(nodes: set<Key>, w: Wave, x: Wave, n: Key, r: Key)
    requires Within(nodes, w) && MergeStep(w, x, n, r) && n in nodes && r in nodes
    ensures Within(nodes, x)
  {
    hide Pts, Cached, Rep;
  }

  // ------------------------------------------------------------------ loads and stores that are done

  /** What leaves the graph's other parts alone and only adds copy edges. */
  ghost predicate OnlyCopiesGrow(w: Wave, x: Wave) {
    SameReps(w, x) && x.loads == w.loads && x.stores == w.stores && w.copies <= x.copies
  }

  lemma CoveredStays(w: Wave, x: Wave, a: Key, b: Key)
    requires OnlyCopiesGrow(w, x) && Covered(w, a, b)
    ensures Covered(x, a, b)
  {
    hide Rep;
    assert Rep(x, a) == Rep(w, a) && Rep(x, b) == Rep(w, b);
  }

  lemma DoneStays(sys: System, w: Wave, x: Wave, r: Key)
    requires OnlyCopiesGrow(w, x) && Done(sys, w, r) && Pts(x.pts, r) <= Pts(w.pts, r)
    ensures Done(sys, x, r)
  {
    hide Pts, Rep, Covered;
    forall a: Key, b: Key | Covered(w, a, b) ensures Covered(x, a, b) { CoveredStays(w, x, a, b); }
  }

  lemma DoneBack(sys: System, w: Wave, x: Wave, r: Key)
    requires OnlyCopiesGrow(w, x) && x.copies == w.copies && Done(sys, x, r) && Pts(w.pts, r) <= Pts(x.pts, r)
    ensures Done(sys, w, r)
  {
    hide Pts, Rep;
    forall a: Key, b: Key ensures Covered(x, a, b) <==> Covered(w, a, b) {
      assert Rep(x, a) == Rep(w, a) && Rep(x, b) == Rep(w, b);
    }
    hide Covered;
    forall e: Link, o: Key | e in w.loads && e.src == r && o in Pts(w.pts, r) && o !in sys.inert
      ensures Covered(w, o, e.dst)
    {
      assert o in Pts(x.pts, r);
    }
    forall e: Link, o: Key | e in w.stores && e.dst == r && o in Pts(w.pts, r) && o !in sys.inert
      ensures Covered(w, e.src, o)
    {
      assert o in Pts(x.pts, r);
    }
  }

  /** Without new edges, what is missing an edge goes on missing it. */
  lemma UndoneStays(sys: System, w: Wave, x: Wave, r: Key)
    requires OnlyCopiesGrow(w, x) && x.copies == w.copies && !Done(sys, w, r) && Pts(w.pts, r) <= Pts(x.pts, r)
    ensures !Done(sys, x, r)
  {
    hide Done, OnlyCopiesGrow, Pts;
    if Done(sys, x, r) { DoneBack(sys, w, x, r); }
  }

  /** Coverage as it is after n has become one with r. */
  predicate CoveredMerged(w: Wave, n: Key, r: Key, a: Key, b: Key) {
    var e := Image(Link(Rep(w, a), Rep(w, b)), n, r);
    e.src == e.dst || e in NoLoops(Images(w.copies, n, r))
  }

  /** The loads and stores through either node have, once the two are one, edges also for what the other has. */
  ghost predicate CrossDone(sys: System, w: Wave, n: Key, r: Key) {
    && (forall e: Link, o: Key {:trigger e in w.loads, CoveredMerged(w, n, r, o, e.dst)} ::
          e in w.loads && (e.src == n || e.src == r) && (o in Pts(w.pts, n) || o in Pts(w.pts, r)) &&
          o !in sys.inert ==>
            CoveredMerged(w, n, r, o, e.dst))
    && (forall e: Link, o: Key {:trigger e in w.stores, CoveredMerged(w, n, r, e.src, o)} ::
          e in w.stores && (e.dst == n || e.dst == r) && (o in Pts(w.pts, n) || o in Pts(w.pts, r)) &&
          o !in sys.inert ==>
            CoveredMerged(w, n, r, e.src, o))
  }

  lemma CoveredAfter(w: Wave, x: Wave, n: Key, r: Key, a: Key, b: Key)
    requires MergeStep(w, x, n, r)
    ensures Covered(x, a, b) <==> CoveredMerged(w, n, r, a, b)
  {
    hide Pts, Cached, Rep, Images, NoLoops;
  }

  /** Merging leaves the loads and stores of the merged node done exactly if they have edges also across. */
  lemma MergeDoneIff(sys: System, w: Wave, x: Wave, n: Key, r: Key)
    requires RepsOk(w) && GraphOk(w) && MergeStep(w, x, n, r)
    ensures Done(sys, x, r) <==> CrossDone(sys, w, n, r)
  {
    if CrossDone(sys, w, n, r) { CrossIsDone(sys, w, x, n, r); }
    if Done(sys, x, r) { DoneIsCross(sys, w, x, n, r); }
  }

  lemma CrossIsDone(sys: System, w: Wave, x: Wave, n: Key, r: Key)
    requires RepsOk(w) && GraphOk(w) && MergeStep(w, x, n, r) && CrossDone(sys, w, n, r)
    ensures Done(sys, x, r)
  {
    hide Pts, Cached, Rep, NoLoops, CoveredMerged, Covered;
    forall e: Link, o: Key | e in x.loads && e.src == r && o in Pts(x.pts, r) && o !in sys.inert
      ensures Covered(x, o, e.dst)
    {
      var f: Link :| f in w.loads && e == Image(f, n, r);
      assert o in Pts(w.pts, n) || o in Pts(w.pts, r);
      assert CoveredMerged(w, n, r, o, f.dst);
      CoveredAfter(w, x, n, r, o, f.dst);
      SameEnd(w, x, n, r, f.dst, e.dst);
      CoveredSame(x, o, o, f.dst, e.dst);
    }
    forall e: Link, o: Key | e in x.stores && e.dst == r && o in Pts(x.pts, r) && o !in sys.inert
      ensures Covered(x, e.src, o)
    {
      var f: Link :| f in w.stores && e == Image(f, n, r);
      assert o in Pts(w.pts, n) || o in Pts(w.pts, r);
      assert CoveredMerged(w, n, r, f.src, o);
      CoveredAfter(w, x, n, r, f.src, o);
      SameEnd(w, x, n, r, f.src, e.src);
      CoveredSame(x, f.src, e.src, o, o);
    }
  }

  lemma DoneIsCross(sys: System, w: Wave, x: Wave, n: Key, r: Key)
    requires RepsOk(w) && GraphOk(w) && MergeStep(w, x, n, r) && Done(sys, x, r)
    ensures CrossDone(sys, w, n, r)
  {
    hide Pts, Cached, Rep, NoLoops, CoveredMerged, Covered, Images;
    forall e: Link, o: Key
      | e in w.loads && (e.src == n || e.src == r) && (o in Pts(w.pts, n) || o in Pts(w.pts, r)) && o !in sys.inert
      ensures CoveredMerged(w, n, r, o, e.dst)
    {
      var f := Image(e, n, r);
      ImageIn(w.loads, n, r, e);
      assert f in x.loads && f.src == r && o in Pts(x.pts, r);
      assert Covered(x, o, f.dst);
      SameEnd(w, x, n, r, e.dst, f.dst);
      CoveredSame(x, o, o, f.dst, e.dst);
      CoveredAfter(w, x, n, r, o, e.dst);
    }
    forall e: Link, o: Key
      | e in w.stores && (e.dst == n || e.dst == r) && (o in Pts(w.pts, n) || o in Pts(w.pts, r)) && o !in sys.inert
      ensures CoveredMerged(w, n, r, e.src, o)
    {
      var f := Image(e, n, r);
      ImageIn(w.stores, n, r, e);
      assert f in x.stores && f.dst == r && o in Pts(x.pts, r);
      assert Covered(x, f.src, o);
      SameEnd(w, x, n, r, e.src, f.src);
      CoveredSame(x, f.src, e.src, o, o);
      CoveredAfter(w, x, n, r, e.src, o);
    }
  }

  /** An end of an edge and its image have one representative after the merge. */
  lemma SameEnd(w: Wave, x: Wave, n: Key, r: Key, a: Key, b: Key)
    requires MergeStep(w, x, n, r) && IsRep(w, a) && b == if a == n then r else a
    ensures Rep(x, a) == Rep(x, b)
  {
    hide Pts, Cached, Rep, NoLoops, Images;
    assert Rep(x, a) == if Rep(w, a) == n then r else Rep(w, a);
    assert Rep(x, b) == if Rep(w, b) == n then r else Rep(w, b);
  }

  lemma CoveredSame(x: Wave, a: Key, a': Key, b: Key, b': Key)
    requires Covered(x, a, b) && Rep(x, a') == Rep(x, a) && Rep(x, b') == Rep(x, b)
    ensures Covered(x, a', b')
  {}

  /** Merging leaves the loads and stores of all other nodes done. */
  lemma MergeDoneElsewhere(sys: System, w: Wave, x: Wave, n: Key, r: Key, k: Key)
    requires RepsOk(w) && GraphOk(w) && MergeStep(w, x, n, r) && Done(sys, w, k) && k != n && k != r
    ensures Done(sys, x, k)
  {
    hide Pts, Cached, Rep, NoLoops, Covered;
    assert Pts(x.pts, k) == Pts(w.pts, k);
    forall e: Link, o: Key | e in x.loads && e.src == k && o in Pts(x.pts, k) && o !in sys.inert
      ensures Covered(x, o, e.dst)
    {
      var f: Link :| f in w.loads && e == Image(f, n, r);
      assert Covered(w, o, f.dst);
      MergeCovers(w, x, n, r, o, f.dst);
      SameEnd(w, x, n, r, f.dst, e.dst);
      CoveredSame(x, o, o, f.dst, e.dst);
    }
    forall e: Link, o: Key | e in x.stores && e.dst == k && o in Pts(x.pts, k) && o !in sys.inert
      ensures Covered(x, e.src, o)
    {
      var f: Link :| f in w.stores && e == Image(f, n, r);
      assert Covered(w, f.src, o);
      MergeCovers(w, x, n, r, f.src, o);
      SameEnd(w, x, n, r, f.src, e.src);
      CoveredSame(x, f.src, e.src, o, o);
    }
  }

  // ------------------------------------------------------------------ what is queued

  /** Some node in the work list stands for r, or is stood for by it. */
  ghost predicate InList(w: Wave, list: set<Key>, r: Key) { exists v: Key :: v in list && Rep(w, v) == r }

  /** Every node is queued or done. */
  ghost predicate QueuedOrDone(sys: System, w: Wave, list: set<Key>) {
    forall r: Key {:trigger Done(sys, w, r)} {:trigger InList(w, list, r)} ::
      IsRep(w, r) ==> InList(w, list, r) || Done(sys, w, r)
  }

  /** Merging two nodes leaves every node queued or done exactly if one of the two is queued or they are done
      across: the merged node itself is not queued. */
  lemma MergeQueuedIff(sys: System, w: Wave, x: Wave, list: set<Key>, n: Key, r: Key)
    requires RepsOk(w) && GraphOk(w) && MergeStep(w, x, n, r) && QueuedOrDone(sys, w, list)
    ensures QueuedOrDone(sys, x, list) <==> InList(w, list, n) || InList(w, list, r) || CrossDone(sys, w, n, r)
  {
    MergeReps(w, x, n, r);
    MergeDoneIff(sys, w, x, n, r);
    ListAfterMerge(w, x, list, n, r);
    hide Pts, Cached, Rep, Images, NoLoops, CrossDone, Done, InList, MergeStep;
    assert IsRep(x, r) by { MergedIsRep(w, x, n, r); }
    forall k: Key | IsRep(x, k) && k != r ensures InList(x, list, k) || Done(sys, x, k) {
      assert IsRep(w, k) && k != n;
      if !InList(w, list, k) { MergeDoneElsewhere(sys, w, x, n, r, k); }
    }
  }

  lemma MergedIsRep(w: Wave, x: Wave, n: Key, r: Key)
    requires MergeStep(w, x, n, r)
    ensures IsRep(x, r) && IsRep(w, n) && IsRep(w, r)
  {
    hide Pts, Cached, Rep, Images, NoLoops;
    assert Rep(x, r) == if Rep(w, r) == n then r else Rep(w, r);
  }

  lemma ListAfterMerge(w: Wave, x: Wave, list: set<Key>, n: Key, r: Key)
    requires MergeStep(w, x, n, r)
    ensures InList(x, list, r) <==> InList(w, list, n) || InList(w, list, r)
    ensures forall k: Key {:trigger InList(x, list, k)} :: k != n && k != r && InList(w, list, k) ==> InList(x, list, k)
  {
    hide Pts, Cached, Rep, Images, NoLoops;
    assert forall v: Key {:trigger Rep(x, v)} {:trigger Rep(w, v)} ::
        Rep(x, v) == if Rep(w, v) == n then r else Rep(w, v);
  }

  /** Exactly the nodes whose set has grown have been queued. */
  ghost predicate Queued(w: PtsMap, x: PtsMap, before: set<Key>, after: set<Key>) {
    forall v: Key {:trigger v in after} {:trigger Pts(x, v)} :: v in after <==> v in before || !(Pts(x, v) <= Pts(w, v))
  }

  lemma QueuedNone(w: PtsMap, s: set<Key>)
    ensures Queued(w, w, s, s)
  {}

  lemma QueuedOne(w: PtsMap, x: PtsMap, d: Key, data: set<Key>, before: set<Key>, after: set<Key>)
    requires United(w, x, d, data) && after == if data <= Pts(w, d) then before else before + {d}
    ensures Queued(w, x, before, after)
  {
    hide Pts;
  }

  lemma QueuedOn(u: PtsMap, w: PtsMap, x: PtsMap, r: set<Key>, s: set<Key>, t: set<Key>)
    requires Queued(u, w, r, s) && Queued(w, x, s, t)
    requires forall v: Key {:trigger Pts(w, v)} :: Pts(u, v) <= Pts(w, v)
    requires forall v: Key {:trigger Pts(x, v)} :: Pts(w, v) <= Pts(x, v)
    ensures Queued(u, x, r, t)
  {
    hide Pts;
    forall v: Key ensures v in t <==> v in r || !(Pts(x, v) <= Pts(u, v)) {
      assert v in s <==> v in r || !(Pts(w, v) <= Pts(u, v));
      assert Pts(w, v) <= Pts(x, v);
    }
  }

  lemma QueuedOnGrown(w: Wave, x: Wave, y: Wave, r: set<Key>, s: set<Key>, t: set<Key>)
    requires Queued(w.pts, x.pts, r, s) && Queued(x.pts, y.pts, s, t) && Grows(w.pts, x.pts) && Grows(x.pts, y.pts)
    ensures Queued(w.pts, y.pts, r, t)
  {
    hide Queued;
    QueuedOn(w.pts, x.pts, y.pts, r, s, t);
  }

  // ------------------------------------------------------------------ parts of a round

  ghost predicate Grows(m: PtsMap, n: PtsMap) { forall v: Key {:trigger Pts(n, v)} :: Pts(m, v) <= Pts(n, v) }

  /** Only points-to and propagated sets have changed, and points-to sets only grown. */
  ghost predicate PtsGrown(w: Wave, x: Wave) { SameGraph(w, x) && Grows(w.pts, x.pts) }

  lemma GrownTwice(w: Wave, x: Wave, y: Wave, n: Key)
    requires PtsGrown(w, x) && PassStep(x, y, n)
    ensures PtsGrown(w, y) && PtsGrown(x, y)
  {
    hide Pts, Cached, Rep;
    forall v: Key ensures Pts(w.pts, v) <= Pts(y.pts, v) { assert Pts(w.pts, v) <= Pts(x.pts, v); }
    forall v: Key ensures Rep(y, v) == Rep(w, v) { assert Rep(x, v) == Rep(w, v); }
  }

  /** Points-to sets grow only where a new edge ends, by what the edge starts with. */
  ghost predicate GrowsAtNew(w: Wave, x: Wave) {
    forall o: Key, v: Key {:trigger o in Pts(x.pts, v)} :: 
      o in Pts(x.pts, v) && o !in Pts(w.pts, v) ==> NewAt(w, x, v, o)
  }

  ghost predicate NewAt(w: Wave, x: Wave, v: Key, o: Key) {
    exists e: Link :: e in x.copies && e !in w.copies && e.dst == v && o in Pts(x.pts, e.src)
  }

  /** A load or store was resolved: only copy edges and points-to sets grew, and it is cached for all it had. */
  ghost predicate ResolveStep(inert: set<Key>, w: Wave, x: Wave, key: CacheKey, had: set<Key>) {
    && x.rep == w.rep && x.loads == w.loads && x.stores == w.stores && w.copies <= x.copies && SamePropa(w, x)
    && (forall v: Key {:trigger Pts(x.pts, v)} :: Pts(w.pts, v) <= Pts(x.pts, v))
    && GrowsAtNew(w, x)
    && (forall k: CacheKey {:trigger Cached(x.cache, k)} ::
        Cached(x.cache, k) == Cached(w.cache, k) + if k == key then had else {})
    && (forall e: Link ::
          e in x.copies && e !in w.copies ==> exists o: Key :: o in had && o !in inert && e == NewEdge(w, key, o))
  }

  /** The edge that a load or store gets for an object. */
  function NewEdge(w: Wave, key: CacheKey, o: Key): Link {
    if key.LoadKey? then Link(Rep(w, o), Rep(w, key.dst)) else Link(Rep(w, key.src), Rep(w, o))
  }

  /** A load or store of the graph, and the objects of its pointer. */
  ghost predicate AtKey(w: Wave, key: CacheKey, had: set<Key>) {
    && Link(key.src, key.dst) in (if key.LoadKey? then w.loads else w.stores)
    && had == Pts(w.pts, if key.LoadKey? then key.src else key.dst)
  }

  /** A load or store calls for the edge. */
  ghost predicate CalledIn(inert: set<Key>, w: Wave, e: Link) {
    || (exists f: Link, o: Key {:trigger f in w.loads, Rep(w, o)} ::
          f in w.loads && o in Pts(w.pts, f.src) && o !in inert && e == Link(Rep(w, o), f.dst))
    || (exists f: Link, o: Key {:trigger f in w.stores, Rep(w, o)} ::
          f in w.stores && o in Pts(w.pts, f.dst) && o !in inert && e == Link(f.src, Rep(w, o)))
  }

  ghost predicate NewCalled(inert: set<Key>, w: Wave, x: Wave) {
    forall e: Link {:trigger CalledIn(inert, x, e)} :: e in x.copies && e !in w.copies ==> CalledIn(inert, x, e)
  }

  /** Loads and stores have been resolved: only edges that they call for have been added, and points-to sets have
      grown only where a new edge ends. */
  ghost predicate Resolving(inert: set<Key>, w: Wave, x: Wave) {
    OnlyCopiesGrow(w, x) && SamePropa(w, x) && Grows(w.pts, x.pts) && GrowsAtNew(w, x) && NewCalled(inert, w, x)
  }

  // ------------------------------------------------------------------ whose loads and stores are resolved

  /** A load or store through r calls for the edge. */
  ghost predicate CalledAt(inert: set<Key>, w: Wave, r: Key, e: Link) {
    || (exists f: Link, o: Key {:trigger f in w.loads, Rep(w, o)} ::
          f in w.loads && f.src == r && o in Pts(w.pts, r) && o !in inert && e == Link(Rep(w, o), f.dst))
    || (exists f: Link, o: Key {:trigger f in w.stores, Rep(w, o)} ::
          f in w.stores && f.dst == r && o in Pts(w.pts, r) && o !in inert && e == Link(f.src, Rep(w, o)))
  }

  ghost predicate NewCalledAt(inert: set<Key>, w: Wave, x: Wave, r: Key) {
    forall e: Link {:trigger CalledAt(inert, x, r, e)} :: e in x.copies && e !in w.copies ==> CalledAt(inert, x, r, e)
  }

  /** A node that r stands for was queued at z, or has grown since. */
  ghost predicate Woken(z: Wave, queued: set<Key>, x: Wave, r: Key) {
    exists v: Key :: Rep(z, v) == r && (v in queued || !(Pts(x.pts, v) <= Pts(z.pts, v)))
  }

  /** The load or store is through a node that was queued or has grown. */
  ghost predicate CalledByWoken(inert: set<Key>, z: Wave, queued: set<Key>, x: Wave, e: Link) {
    exists r: Key :: Woken(z, queued, x, r) && CalledAt(inert, x, r, e)
  }

  /** Since z, edges have only been added for loads and stores through nodes that were queued or have grown. */
  ghost predicate OnlyWoken(inert: set<Key>, z: Wave, queued: set<Key>, x: Wave) {
    forall e: Link {:trigger CalledByWoken(inert, z, queued, x, e)} ::
      e in x.copies && e !in z.copies ==> CalledByWoken(inert, z, queued, x, e)
  }

  /** What is queued was queued at z or has grown since. */
  ghost predicate ListWoken(z: Wave, queued: set<Key>, x: Wave, list: set<Key>) {
    forall v: Key :: v in list ==> v in queued || !(Pts(x.pts, v) <= Pts(z.pts, v))
  }

  lemma CalledAtStays(inert: set<Key>, w: Wave, x: Wave, r: Key, e: Link)
    requires OnlyCopiesGrow(w, x) && Grows(w.pts, x.pts) && CalledAt(inert, w, r, e)
    ensures CalledAt(inert, x, r, e)
  {
    hide Pts, Rep;
    assert Pts(w.pts, r) <= Pts(x.pts, r);
    if f: Link, o: Key :|
      f in w.loads && f.src == r && o in Pts(w.pts, r) && o !in inert && e == Link(Rep(w, o), f.dst)
    {
      assert Rep(x, o) == Rep(w, o);
    } else {
      var f: Link, o: Key :|
        f in w.stores && f.dst == r && o in Pts(w.pts, r) && o !in inert && e == Link(f.src, Rep(w, o));
      assert Rep(x, o) == Rep(w, o);
    }
  }

  lemma StepCalledAt(inert: set<Key>, x: Wave, y: Wave, key: CacheKey, had: set<Key>, r: Key)
    requires GraphOk(x) && ResolveStep(inert, x, y, key, had) && AtKey(x, key, had)
    requires r == if key.LoadKey? then key.src else key.dst
    ensures NewCalledAt(inert, x, y, r)
  {
    forall v: Key ensures Rep(y, v) == Rep(x, v) {}
    hide Pts, Cached, Rep;
    forall e: Link | e in y.copies && e !in x.copies ensures CalledAt(inert, y, r, e) {
      var o: Key :| o in had && o !in inert && e == NewEdge(x, key, o);
      assert Pts(x.pts, r) <= Pts(y.pts, r);
      assert IsRep(x, key.src) && IsRep(x, key.dst);
      assert Link(key.src, key.dst) in (if key.LoadKey? then y.loads else y.stores);
      assert Rep(y, o) == Rep(x, o);
    }
  }

  lemma NewCalledAtTrans(inert: set<Key>, w: Wave, x: Wave, y: Wave, r: Key)
    requires NewCalledAt(inert, w, x, r) && NewCalledAt(inert, x, y, r)
    requires OnlyCopiesGrow(x, y) && Grows(x.pts, y.pts)
    ensures NewCalledAt(inert, w, y, r)
  {
    hide CalledAt, OnlyCopiesGrow, Grows;
    forall e: Link | e in y.copies && e !in w.copies ensures CalledAt(inert, y, r, e) {
      if e in x.copies { CalledAtStays(inert, x, y, r, e); }
    }
  }

  lemma NoneCalled(inert: set<Key>, w: Wave, r: Key)
    ensures NewCalledAt(inert, w, w, r)
  {}

  lemma WokenAtFirst(inert: set<Key>, w: Wave, list: set<Key>)
    ensures OnlyWoken(inert, w, list, w) && ListWoken(w, list, w, list)
  {}

  lemma WokenStays(z: Wave, queued: set<Key>, x: Wave, y: Wave, r: Key)
    requires Woken(z, queued, x, r) && Grows(x.pts, y.pts)
    ensures Woken(z, queued, y, r)
  {
    hide Pts, Rep;
    var v: Key :| Rep(z, v) == r && (v in queued || !(Pts(x.pts, v) <= Pts(z.pts, v)));
    assert Pts(x.pts, v) <= Pts(y.pts, v);
  }

  /** The turn of v, for which its representative is resolved. */
  lemma WokenTurn(inert: set<Key>, z: Wave, queued: set<Key>, x: Wave, y: Wave, list: set<Key>, v: Key, list': set<Key>)
    requires OnlyWoken(inert, z, queued, x) && ListWoken(z, queued, x, list) && v in list && SameReps(z, x)
    requires NewCalledAt(inert, x, y, Rep(x, v)) && OnlyCopiesGrow(x, y) && Grows(x.pts, y.pts)
    requires Queued(x.pts, y.pts, list - {v}, list') && Grows(z.pts, x.pts)
    ensures OnlyWoken(inert, z, queued, y) && ListWoken(z, queued, y, list')
  {
    hide CalledAt, Pts, Rep;
    var r := Rep(x, v);
    assert Rep(z, v) == r && Woken(z, queued, x, r);
    WokenStays(z, queued, x, y, r);
    hide OnlyCopiesGrow, Woken;
    forall e: Link | e in y.copies && e !in z.copies ensures CalledByWoken(inert, z, queued, y, e) {
      if e in x.copies {
        assert CalledByWoken(inert, z, queued, x, e);
        var q: Key :| Woken(z, queued, x, q) && CalledAt(inert, x, q, e);
        WokenStays(z, queued, x, y, q);
        CalledAtStays(inert, x, y, q, e);
      }
    }
    forall u: Key | u in list' ensures u in queued || !(Pts(y.pts, u) <= Pts(z.pts, u)) {
      assert u in list || !(Pts(y.pts, u) <= Pts(x.pts, u));
      assert Pts(z.pts, u) <= Pts(x.pts, u) <= Pts(y.pts, u);
    }
  }

  lemma ResolvingNone(inert: set<Key>, w: Wave)
    ensures Resolving(inert, w, w)
  {}

  lemma NoNewSamePts(w: Wave, x: Wave)
    requires GrowsAtNew(w, x) && Grows(w.pts, x.pts) && x.copies == w.copies
    ensures SamePts(w, x)
  {
    hide Pts;
    forall v: Key ensures Pts(x.pts, v) == Pts(w.pts, v) {
      forall o: Key | o in Pts(x.pts, v) ensures o in Pts(w.pts, v) {}
    }
  }

  lemma CalledStays(inert: set<Key>, w: Wave, x: Wave, e: Link)
    requires OnlyCopiesGrow(w, x) && Grows(w.pts, x.pts) && CalledIn(inert, w, e)
    ensures CalledIn(inert, x, e)
  {
    hide Pts, Rep;
    if f: Link, o: Key :| f in w.loads && o in Pts(w.pts, f.src) && o !in inert && e == Link(Rep(w, o), f.dst) {
      assert Rep(x, o) == Rep(w, o) && Pts(w.pts, f.src) <= Pts(x.pts, f.src);
    } else {
      var f: Link, o: Key :| f in w.stores && o in Pts(w.pts, f.dst) && o !in inert && e == Link(f.src, Rep(w, o));
      assert Rep(x, o) == Rep(w, o) && Pts(w.pts, f.dst) <= Pts(x.pts, f.dst);
    }
  }

  lemma StepIsResolving(inert: set<Key>, x: Wave, y: Wave, key: CacheKey, had: set<Key>)
    requires GraphOk(x) && ResolveStep(inert, x, y, key, had) && AtKey(x, key, had)
    ensures Resolving(inert, x, y)
  {
    forall v: Key ensures Rep(y, v) == Rep(x, v) {}
    hide Pts, Cached, Rep;
    forall e: Link | e in y.copies && e !in x.copies ensures CalledIn(inert, y, e) {
      var o: Key :| o in had && o !in inert && e == NewEdge(x, key, o);
      var ptr := if key.LoadKey? then key.src else key.dst;
      assert Pts(x.pts, ptr) <= Pts(y.pts, ptr);
      assert IsRep(x, key.src) && IsRep(x, key.dst);
      assert Link(key.src, key.dst) in (if key.LoadKey? then y.loads else y.stores);
      assert Rep(y, o) == Rep(x, o);
    }
  }

  lemma GrowsAtNewTrans(w: Wave, x: Wave, y: Wave)
    requires GrowsAtNew(w, x) && GrowsAtNew(x, y) && w.copies <= x.copies <= y.copies && Grows(x.pts, y.pts)
    ensures GrowsAtNew(w, y)
  {
    hide Pts;
    forall o: Key, v: Key | o in Pts(y.pts, v) && o !in Pts(w.pts, v) ensures NewAt(w, y, v, o) {
      if o in Pts(x.pts, v) {
        var e: Link :| e in x.copies && e !in w.copies && e.dst == v && o in Pts(x.pts, e.src);
        assert e in y.copies && Pts(x.pts, e.src) <= Pts(y.pts, e.src);
      } else {
        var e: Link :| e in y.copies && e !in x.copies && e.dst == v && o in Pts(y.pts, e.src);
        assert e !in w.copies;
      }
    }
  }

  lemma ResolvingTrans(inert: set<Key>, w: Wave, x: Wave, y: Wave)
    requires Resolving(inert, w, x) && Resolving(inert, x, y)
    ensures Resolving(inert, w, y)
  {
    GrowsAtNewTrans(w, x, y);
    hide Pts, Rep, GrowsAtNew, CalledIn;
    forall v: Key ensures Rep(y, v) == Rep(w, v) { assert Rep(x, v) == Rep(w, v); }
    forall v: Key ensures Pts(w.pts, v) <= Pts(y.pts, v) { assert Pts(w.pts, v) <= Pts(x.pts, v); }
    forall v: Key ensures Pts(y.propa, v) == Pts(w.propa, v) { assert Pts(x.propa, v) == Pts(w.propa, v); }
    forall e: Link | e in y.copies && e !in w.copies ensures CalledIn(inert, y, e) {
      if e in x.copies { CalledStays(inert, x, y, e); }
    }
  }

  /** A load or store that gets a new edge was not done. */
  lemma AddedUndone(sys: System, w: Wave, x: Wave, key: CacheKey, had: set<Key>)
    requires GraphOk(w) && GraphOk(x) && ResolveStep(sys.inert, w, x, key, had) && AtKey(w, key, had)
    requires x.copies != w.copies
    ensures !Done(sys, w, if key.LoadKey? then key.src else key.dst)
  {
    hide Pts, Cached, Rep;
    var e: Link :| e in x.copies && e !in w.copies;
    var o: Key :| o in had && o !in sys.inert && e == NewEdge(w, key, o);
    assert IsRep(w, key.src) && IsRep(w, key.dst) && e.src != e.dst;
    if key.LoadKey? { assert !Covered(w, o, key.dst); } else { assert !Covered(w, key.src, o); }
  }

  lemma StillUndone(sys: System, w: Wave, x: Wave, r: Key)
    requires Resolving(sys.inert, w, x) && x.copies == w.copies && !Done(sys, x, r)
    ensures !Done(sys, w, r)
  {
    NoNewSamePts(w, x);
    assert Pts(x.pts, r) == Pts(w.pts, r);
    hide Pts, Done, Resolving, SamePts;
    if Done(sys, w, r) { DoneStays(sys, w, x, r); }
  }

  /** The load has its edges for the objects in `os`. */
  ghost predicate LoadFor(sys: System, w: Wave, e: Link, os: set<Key>) {
    forall o: Key {:trigger Covered(w, o, e.dst)} :: o in os && o !in sys.inert ==> Covered(w, o, e.dst)
  }

  ghost predicate StoreFor(sys: System, w: Wave, e: Link, os: set<Key>) {
    forall o: Key {:trigger Covered(w, e.src, o)} :: o in os && o !in sys.inert ==> Covered(w, e.src, o)
  }

  lemma LoadDone(sys: System, w: Wave, x: Wave, y: Wave, e: Link, had: set<Key>)
    requires Good(sys, y) && e in y.loads && ResolveStep(sys.inert, x, y, LoadKey(e.src, e.dst), Pts(x.pts, e.src))
    requires Resolving(sys.inert, w, x) && had == Pts(w.pts, e.src)
    ensures LoadFor(sys, y, e, had)
  {
    hide Pts, Cached, Rep, Covered;
    assert Pts(w.pts, e.src) <= Pts(x.pts, e.src);
    forall o: Key | o in had && o !in sys.inert ensures Covered(y, o, e.dst) {
      assert o in Cached(y.cache, LoadKey(e.src, e.dst));
    }
  }

  lemma StoreDone(sys: System, w: Wave, x: Wave, y: Wave, e: Link, had: set<Key>)
    requires Good(sys, y) && e in y.stores && ResolveStep(sys.inert, x, y, StoreKey(e.src, e.dst), Pts(x.pts, e.dst))
    requires Resolving(sys.inert, w, x) && had == Pts(w.pts, e.dst)
    ensures StoreFor(sys, y, e, had)
  {
    hide Pts, Cached, Rep, Covered;
    assert Pts(w.pts, e.dst) <= Pts(x.pts, e.dst);
    forall o: Key | o in had && o !in sys.inert ensures Covered(y, e.src, o) {
      assert o in Cached(y.cache, StoreKey(e.src, e.dst));
    }
  }

  lemma ForStay(sys: System, x: Wave, y: Wave, had: set<Key>)
    requires Resolving(sys.inert, x, y)
    ensures forall e: Link {:trigger LoadFor(sys, y, e, had)} :: LoadFor(sys, x, e, had) ==> LoadFor(sys, y, e, had)
    ensures forall e: Link {:trigger StoreFor(sys, y, e, had)} :: StoreFor(sys, x, e, had) ==> StoreFor(sys, y, e, had)
  {
    hide Covered, Rep, OnlyCopiesGrow;
    forall a: Key, b: Key | Covered(x, a, b) ensures Covered(y, a, b) { CoveredStays(x, y, a, b); }
  }

  lemma AllFor(sys: System, x: Wave, n: Key, had: set<Key>)
    requires forall e :: e in x.loads && e.src == n ==> LoadFor(sys, x, e, had)
    requires forall e :: e in x.stores && e.dst == n ==> StoreFor(sys, x, e, had)
    ensures Pts(x.pts, n) <= had ==> Done(sys, x, n)
  {
    hide Covered, Pts;
  }

  // ------------------------------------------------------------------ the rest of a round

  /** Neither queued nor done when the cycles have been merged. */
  ghost predicate Overlooked(sys: System, w: Wave, list: set<Key>, r: Key) { !InList(w, list, r) && !Done(sys, w, r) }

  /** In the rest of a round: every node is queued or done, unless it was overlooked when the rest began at `mid`. */
  ghost predicate Tracked(sys: System, w: Wave, list: set<Key>, mid: Wave, before: set<Key>) {
    forall r: Key {:trigger Done(sys, w, r)} {:trigger InList(w, list, r)} ::
      IsRep(w, r) ==> InList(w, list, r) || Done(sys, w, r) || Overlooked(sys, mid, before, r)
  }

  lemma TrackedAtFirst(sys: System, w: Wave, list: set<Key>)
    ensures Tracked(sys, w, list, w, list)
  {
    hide Done, InList;
  }

  lemma StaysTracked(sys: System, w: Wave, x: Wave, s: set<Key>, t: set<Key>, r: Key)
    requires OnlyCopiesGrow(w, x) && Queued(w.pts, x.pts, s, t) && IsRep(x, r)
    ensures InList(w, s, r) ==> InList(x, t, r)
    ensures Done(sys, w, r) ==> InList(x, t, r) || Done(sys, x, r)
  {
    if Pts(x.pts, r) <= Pts(w.pts, r) && Done(sys, w, r) { DoneStays(sys, w, x, r); }
    hide Pts, Rep, Done, Covered;
    if InList(w, s, r) {
      var v: Key :| v in s && Rep(w, v) == r;
      assert v in t && Rep(x, v) == r;
    }
    if !(Pts(x.pts, r) <= Pts(w.pts, r)) { assert r in t && Rep(x, r) == r; }
  }

  /** Taking v from the list, and resolving what its representative has. */
  lemma TrackedTurn(sys: System, w: Wave, x: Wave, mid: Wave, before: set<Key>, s: set<Key>, v: Key, t: set<Key>)
    requires RepsOk(w) && Tracked(sys, w, s, mid, before) && OnlyCopiesGrow(w, x) && Queued(w.pts, x.pts, s - {v}, t)
    requires Pts(x.pts, Rep(w, v)) <= Pts(w.pts, Rep(w, v)) ==> Done(sys, x, Rep(w, v))
    ensures Tracked(sys, x, t, mid, before)
  {
    hide Pts, Rep, Done, Overlooked, Covered;
    var n := Rep(w, v);
    forall r: Key | IsRep(x, r) ensures InList(x, t, r) || Done(sys, x, r) || Overlooked(sys, mid, before, r) {
      assert IsRep(w, r);
      if r == n {
        if !(Pts(x.pts, n) <= Pts(w.pts, n)) { assert n in t && Rep(x, n) == n; }
      } else {
        StaysTracked(sys, w, x, s - {v}, t, r);
        if InList(w, s, r) {
          var u: Key :| u in s && Rep(w, u) == r;
          assert u in s - {v};
        }
      }
    }
  }

  lemma TrackedEnds(sys: System, w: Wave, mid: Wave, before: set<Key>)
    requires Tracked(sys, w, {}, mid, before)
    ensures forall r: Key {:trigger Done(sys, w, r)} ::
              IsRep(w, r) ==> Done(sys, w, r) || Overlooked(sys, mid, before, r)
  {
    hide Done, Overlooked, Rep;
    forall r: Key ensures !InList(w, {}, r) {}
  }

  /** What was overlooked and has not grown is not done at the end of a round without new edges. */
  lemma OverlookedStays(sys: System, mid: Wave, x: Wave, before: set<Key>, r: Key)
    requires OnlyCopiesGrow(mid, x) && x.copies == mid.copies && Grows(mid.pts, x.pts)
    requires Overlooked(sys, mid, before, r)
    ensures !Done(sys, x, r)
  {
    hide Done, OnlyCopiesGrow, InList;
    UndoneStays(sys, mid, x, r);
  }

  lemma SettledStays(inert: set<Key>, w: Wave, x: Wave)
    requires AllSettled(w) && Resolving(inert, w, x) && x.copies == w.copies
    ensures AllSettled(x)
  {
    NoNewSamePts(w, x);
    hide Pts, Rep;
    forall r: Key | IsRep(x, r) ensures Settled(x, r) {
      assert IsRep(w, r) && Settled(w, r);
    }
  }

  // ------------------------------------------------------------------ why it stops

  ghost function Missing(nodes: set<Key>, w: Wave): set<(Key, Key)> {
    set v, o | v in nodes && o in nodes && o !in Pts(w.pts, v) :: (v, o)
  }

  lemma MissingShrinks(nodes: set<Key>, w: Wave, x: Wave, s: set<Key>, t: set<Key>)
    requires Grows(w.pts, x.pts) && Within(nodes, x) && Queued(w.pts, x.pts, s, t)
    ensures Missing(nodes, x) <= Missing(nodes, w) && (Missing(nodes, x) == Missing(nodes, w) ==> t == s)
  {
    hide Pts, Rep;
    assert Missing(nodes, x) <= Missing(nodes, w) by {
      forall v: Key, o: Key | (v, o) in Missing(nodes, x) ensures (v, o) in Missing(nodes, w) {
        assert Pts(w.pts, v) <= Pts(x.pts, v);
      }
    }
    if t != s {
      var v :| v in t && v !in s;
      var o :| o in Pts(x.pts, v) && o !in Pts(w.pts, v);
      assert (v, o) in Missing(nodes, w) && (v, o) !in Missing(nodes, x);
    }
  }

  ghost function Uncovered(nodes: set<Key>, w: Wave): set<(Key, Key)> {
    set a, b | a in nodes && b in nodes && !Covered(w, a, b) :: (a, b)
  }

  lemma UncoveredShrinks(nodes: set<Key>, w: Wave, mid: Wave, x: Wave)
    requires forall a: Key, b: Key {:trigger Covered(mid, a, b)} :: Covered(w, a, b) ==> Covered(mid, a, b)
    requires OnlyCopiesGrow(mid, x) && x.copies != mid.copies && GraphOk(x) && Within(nodes, x)
    ensures Uncovered(nodes, x) < Uncovered(nodes, w)
  {
    hide Pts, Rep;
    forall a: Key, b: Key | Covered(mid, a, b) ensures Covered(x, a, b) { CoveredStays(mid, x, a, b); }
    var e :| e in x.copies && e !in mid.copies;
    assert Rep(mid, e.src) == Rep(x, e.src) == e.src && Rep(mid, e.dst) == Rep(x, e.dst) == e.dst;
    assert !Covered(mid, e.src, e.dst) && Covered(x, e.src, e.dst);
    hide Covered;
    assert (e.src, e.dst) in Uncovered(nodes, w) && (e.src, e.dst) !in Uncovered(nodes, x);
  }
}
