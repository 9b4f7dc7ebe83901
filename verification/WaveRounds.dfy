/**
 A round of the wave solver in terms of the state before it: when it adds an edge, when it ends with nothing left to
 do, and when it ends with the least solution.
 */
module WaveRounds {
  import opened DfPoints
  import opened PtData
  import opened WaveDiff
  import opened WaveSteps
  import opened WaveSolve
  import opened WaveOrder

  // ------------------------------------------------------------------ cycles that are still to be merged

  ghost predicate OneCycle(w: Wave, a: Key, b: Key) { Reaches(w.copies, a, b) && Reaches(w.copies, b, a) }

  /** The two are one or on one cycle, or an edge joins their cycles. */
  ghost predicate Joined(w: Wave, a: Key, b: Key) {
    || OneCycle(w, Rep(w, a), Rep(w, b))
    || exists f: Link :: f in w.copies && OneCycle(w, f.src, Rep(w, a)) && OneCycle(w, f.dst, Rep(w, b))
  }

  /** Some node on the cycle of r is queued. */
  ghost predicate CycleQueued(w: Wave, list: set<Key>, r: Key) {
    exists v: Key :: v in list && OneCycle(w, Rep(w, v), r)
  }

  /** Some node on the cycle of r has the object. */
  ghost predicate CycleHas(w: Wave, r: Key, o: Key) {
    exists u: Key :: IsRep(w, u) && OneCycle(w, u, r) && o in Pts(w.pts, u)
  }

  /** What the nodes on the cycle of r have. */
  ghost function CyclePts(nodes: set<Key>, w: Wave, r: Key): set<Key> { set o | o in nodes && CycleHas(w, r, o) }

  /** Every load and store through the cycle of r has its edges, up to cycles, for the given objects. */
  ghost predicate JoinedFor(sys: System, w: Wave, r: Key, os: set<Key>) {
    && (forall e: Link, o: Key {:trigger e in w.loads, Joined(w, o, e.dst)} ::
          e in w.loads && OneCycle(w, e.src, r) && o in os && o !in sys.inert ==> Joined(w, o, e.dst))
    && (forall e: Link, o: Key {:trigger e in w.stores, Joined(w, e.src, o)} ::
          e in w.stores && OneCycle(w, e.dst, r) && o in os && o !in sys.inert ==> Joined(w, e.src, o))
  }

  /** Of every cycle some node is queued, or its loads and stores have their edges for all that the cycle has. */
  ghost predicate Ready(sys: System, nodes: set<Key>, w: Wave, list: set<Key>) {
    forall r: Key {:trigger CyclePts(nodes, w, r)} ::
      r in nodes && IsRep(w, r) ==> CycleQueued(w, list, r) || JoinedFor(sys, w, r, CyclePts(nodes, w, r))
  }

  // ------------------------------------------------------------------ before and after merging

  /** From w to x all cycles have been merged, and nothing else has happened. */
  ghost predicate Cycled(nodes: set<Key>, w: Wave, x: Wave) {
    && GraphOk(w) && GraphOk(x) && RepsOk(w) && RepsOk(x) && Within(nodes, w) && Within(nodes, x)
    && Merged(w, x) && CyclesMerged(nodes, w, x)
  }

  lemma CycleIff(nodes: set<Key>, w: Wave, x: Wave, a: Key, b: Key)
    requires Cycled(nodes, w, x) && IsRep(w, a) && IsRep(w, b) && b in nodes
    ensures OneCycle(w, a, b) <==> Rep(x, a) == Rep(x, b)
  {
    hide Rep, Reaches, Merged;
    if a in nodes {
      assert CyclesMerged(nodes, w, x);
    } else {
      assert Rep(x, a) == a && Rep(x, b) in nodes;
      if Reaches(w.copies, a, b) { StartsWithin(nodes, w, a, b); }
    }
  }

  lemma StartsWithin(nodes: set<Key>, w: Wave, a: Key, b: Key)
    requires Within(nodes, w) && Reaches(w.copies, a, b) && b in nodes
    ensures a in nodes
  {
    hide Pts, Rep;
    var p: seq<Key> :| IsPath(w.copies, p) && p[0] == a && p[|p| - 1] == b;
    if |p| > 1 { assert Link(p[0], p[1]) in w.copies; }
  }

  lemma SameRepAfter(w: Wave, x: Wave, v: Key)
    requires Merged(w, x)
    ensures Rep(x, Rep(w, v)) == Rep(x, v)
  {
    hide Rep;
    assert RepsFollow(w, x) && Rep(x, v) == Rep(x, v);
  }

  lemma QueuedIff(nodes: set<Key>, w: Wave, x: Wave, list: set<Key>, r: Key)
    requires Cycled(nodes, w, x) && IsRep(w, r) && r in nodes
    ensures CycleQueued(w, list, r) <==> InList(x, list, Rep(x, r))
  {
    hide Rep, OneCycle, Merged, Within, GraphOk, CyclesMerged;
    forall v: Key ensures OneCycle(w, Rep(w, v), r) <==> Rep(x, v) == Rep(x, r) {
      assert IsRep(w, Rep(w, v));
      CycleIff(nodes, w, x, Rep(w, v), r);
      SameRepAfter(w, x, v);
    }
  }

  lemma HasIff(nodes: set<Key>, w: Wave, x: Wave, r: Key, o: Key)
    requires Cycled(nodes, w, x) && IsRep(w, r) && r in nodes
    ensures CycleHas(w, r, o) <==> o in Pts(x.pts, Rep(x, r))
  {
    assert PtsGo(w, x) && PtsCome(w, x);
    hide Rep, OneCycle, Merged, Within, GraphOk, CyclesMerged, Pts;
    if CycleHas(w, r, o) {
      var u: Key :| IsRep(w, u) && OneCycle(w, u, r) && o in Pts(w.pts, u);
      CycleIff(nodes, w, x, u, r);
    }
    if o in Pts(x.pts, Rep(x, r)) {
      assert IsRep(x, Rep(x, r));
      assert ComesFrom(w, x, Rep(x, r), o);
      var u: Key :| Rep(x, u) == Rep(x, r) && IsRep(w, u) && o in Pts(w.pts, u);
      CycleIff(nodes, w, x, u, r);
    }
  }

  lemma JoinedIff(nodes: set<Key>, w: Wave, x: Wave, a: Key, b: Key)
    requires Cycled(nodes, w, x) && a in nodes && b in nodes
    ensures Joined(w, a, b) <==> Covered(x, a, b)
  {
    var r, s := Rep(w, a), Rep(w, b);
    assert IsRep(w, r) && IsRep(w, s) && r in nodes && s in nodes;
    SameRepAfter(w, x, a);
    SameRepAfter(w, x, b);
    CycleIff(nodes, w, x, r, s);
    assert CoverKept(w, x) && Come(x, w.copies, x.copies);
    hide Rep, OneCycle, Merged, Within, CyclesMerged;
    forall f: Link | f in w.copies
      ensures OneCycle(w, f.src, r) <==> Rep(x, f.src) == Rep(x, a)
      ensures OneCycle(w, f.dst, s) <==> Rep(x, f.dst) == Rep(x, b)
    {
      CycleIff(nodes, w, x, f.src, r);
      CycleIff(nodes, w, x, f.dst, s);
    }
    if f: Link :| f in w.copies && OneCycle(w, f.src, r) && OneCycle(w, f.dst, s) {
      assert Covered(w, f.src, f.dst);
      assert Covered(x, f.src, f.dst);
    }
  }

  lemma DoneOutside(sys: System, nodes: set<Key>, x: Wave, r: Key)
    requires Within(nodes, x) && r !in nodes
    ensures Done(sys, x, r)
  {
    hide Pts, Rep, Covered;
  }

  /** The loads and stores through r have their edges for the given objects. */
  ghost predicate DoneFor(sys: System, w: Wave, r: Key, os: set<Key>) {
    && (forall e: Link, o: Key {:trigger e in w.loads, Covered(w, o, e.dst)} ::
          e in w.loads && e.src == r && o in os && o !in sys.inert ==> Covered(w, o, e.dst))
    && (forall e: Link, o: Key {:trigger e in w.stores, Covered(w, e.src, o)} ::
          e in w.stores && e.dst == r && o in os && o !in sys.inert ==> Covered(w, e.src, o))
  }

  lemma DoneIsFor(sys: System, w: Wave, r: Key)
    ensures Done(sys, w, r) <==> DoneFor(sys, w, r, Pts(w.pts, r))
  {
    hide Pts, Covered;
  }

  lemma CyclePtsAre(nodes: set<Key>, w: Wave, x: Wave, r: Key)
    requires Cycled(nodes, w, x) && IsRep(w, r) && r in nodes
    ensures CyclePts(nodes, w, r) == Pts(x.pts, Rep(x, r))
  {
    assert Pts(x.pts, Rep(x, r)) <= nodes;
    hide Pts, Rep, CycleHas, Cycled;
    forall o: Key ensures CycleHas(w, r, o) <==> o in Pts(x.pts, Rep(x, r)) { HasIff(nodes, w, x, r, o); }
  }

  lemma JoinedForIff(sys: System, nodes: set<Key>, w: Wave, x: Wave, r: Key, os: set<Key>)
    requires Cycled(nodes, w, x) && IsRep(w, r) && r in nodes && os <= nodes
    ensures JoinedFor(sys, w, r, os) <==> DoneFor(sys, x, Rep(x, r), os)
  {
    if JoinedFor(sys, w, r, os) { JoinedIsDone(sys, nodes, w, x, r, os); }
    if DoneFor(sys, x, Rep(x, r), os) { DoneIsJoined(sys, nodes, w, x, r, os); }
  }

  lemma JoinedIsDone(sys: System, nodes: set<Key>, w: Wave, x: Wave, r: Key, os: set<Key>)
    requires Cycled(nodes, w, x) && IsRep(w, r) && r in nodes && os <= nodes && JoinedFor(sys, w, r, os)
    ensures DoneFor(sys, x, Rep(x, r), os)
  {
    assert EdgesCome(w, x);
    hide Rep, OneCycle, Merged, CyclesMerged, Pts, Joined, Covered;
    var k := Rep(x, r);
    forall e: Link, o: Key | e in x.loads && e.src == k && o in os && o !in sys.inert ensures Covered(x, o, e.dst) {
      var f: Link :| f in w.loads && e == Link(Rep(x, f.src), Rep(x, f.dst));
      CycleIff(nodes, w, x, f.src, r);
      assert Joined(w, o, f.dst);
      JoinedIff(nodes, w, x, o, f.dst);
      RepTwice(x, f.dst);
      CoveredSame(x, o, o, f.dst, e.dst);
    }
    forall e: Link, o: Key | e in x.stores && e.dst == k && o in os && o !in sys.inert ensures Covered(x, e.src, o) {
      var f: Link :| f in w.stores && e == Link(Rep(x, f.src), Rep(x, f.dst));
      CycleIff(nodes, w, x, f.dst, r);
      assert Joined(w, f.src, o);
      JoinedIff(nodes, w, x, f.src, o);
      RepTwice(x, f.src);
      CoveredSame(x, f.src, e.src, o, o);
    }
  }

  lemma RepTwice(x: Wave, v: Key)
    requires RepsOk(x)
    ensures Rep(x, Rep(x, v)) == Rep(x, v)
  {
    assert IsRep(x, Rep(x, v));
  }

  lemma DoneIsJoined(sys: System, nodes: set<Key>, w: Wave, x: Wave, r: Key, os: set<Key>)
    requires Cycled(nodes, w, x) && IsRep(w, r) && r in nodes && os <= nodes && DoneFor(sys, x, Rep(x, r), os)
    ensures JoinedFor(sys, w, r, os)
  {
    assert AllGo(w, x);
    hide Rep, OneCycle, Merged, CyclesMerged, Pts, Joined, Covered;
    forall e: Link, o: Key | e in w.loads && OneCycle(w, e.src, r) && o in os && o !in sys.inert
      ensures Joined(w, o, e.dst)
    {
      CycleIff(nodes, w, x, e.src, r);
      var f := Link(Rep(x, e.src), Rep(x, e.dst));
      assert f in x.loads;
      assert Covered(x, o, f.dst);
      RepTwice(x, e.dst);
      CoveredSame(x, o, o, f.dst, e.dst);
      JoinedIff(nodes, w, x, o, e.dst);
    }
    forall e: Link, o: Key | e in w.stores && OneCycle(w, e.dst, r) && o in os && o !in sys.inert
      ensures Joined(w, e.src, o)
    {
      CycleIff(nodes, w, x, e.dst, r);
      var f := Link(Rep(x, e.src), Rep(x, e.dst));
      assert f in x.stores;
      assert Covered(x, f.src, o);
      RepTwice(x, e.src);
      CoveredSame(x, f.src, e.src, o, o);
      JoinedIff(nodes, w, x, e.src, o);
    }
  }

  lemma AfterMerging(nodes: set<Key>, w: Wave, x: Wave)
    requires Cycled(nodes, w, x)
    ensures forall r: Key :: IsRep(x, Rep(x, r))
    ensures forall k: Key :: k in nodes && IsRep(x, k) ==> IsRep(w, k) && Rep(x, k) == k
  {
    MergedFollows(w, x);
    hide Pts, Merged, CyclesMerged, GraphOk;
    forall k: Key | k in nodes && IsRep(x, k) ensures IsRep(w, k) && Rep(x, k) == k {}
  }

  lemma MergedFollows(w: Wave, x: Wave)
    requires Merged(w, x)
    ensures RepsFollow(w, x)
  {}

  /** Whether all is queued or done after merging can be told before. */
  lemma ReadyIff(sys: System, nodes: set<Key>, w: Wave, x: Wave, list: set<Key>)
    requires Cycled(nodes, w, x)
    ensures Ready(sys, nodes, w, list) <==> QueuedOrDone(sys, x, list)
  {
    AfterMerging(nodes, w, x);
    hide Rep, Cycled, CycleQueued, JoinedFor, CyclePts, InList, Done, DoneFor, Pts;
    forall r: Key | r in nodes && IsRep(w, r)
      ensures CycleQueued(w, list, r) <==> InList(x, list, Rep(x, r))
      ensures JoinedFor(sys, w, r, CyclePts(nodes, w, r)) <==> Done(sys, x, Rep(x, r))
    {
      QueuedIff(nodes, w, x, list, r);
      CyclePtsAre(nodes, w, x, r);
      CycledWithin(nodes, w, x);
      PtsWithin(nodes, x, Rep(x, r));
      JoinedForIff(sys, nodes, w, x, r, CyclePts(nodes, w, r));
      DoneIsFor(sys, x, Rep(x, r));
    }
    CycledWithin(nodes, w, x);
    forall k: Key | IsRep(x, k) && k !in nodes ensures Done(sys, x, k) { DoneOutside(sys, nodes, x, k); }
    if Ready(sys, nodes, w, list) {
      forall k: Key | IsRep(x, k) ensures InList(x, list, k) || Done(sys, x, k) {
        if k in nodes { assert CyclePts(nodes, w, k) == CyclePts(nodes, w, k); }
      }
    }
  }

  lemma CycledWithin(nodes: set<Key>, w: Wave, x: Wave)
    requires Cycled(nodes, w, x)
    ensures Within(nodes, w) && Within(nodes, x)
  {}

  lemma PtsWithin(nodes: set<Key>, x: Wave, v: Key)
    requires Within(nodes, x)
    ensures Pts(x.pts, v) <= nodes
  {}
}
