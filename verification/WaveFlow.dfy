/** Where objects flow to in a round, and what its answers are, in terms of the state before it. */
module WaveFlow {
  import opened DfPoints
  import opened PtData
  import opened WaveDiff
  import opened WaveSteps
  import opened WaveSolve
  import opened WaveOrder
  import opened WaveRounds

  // ------------------------------------------------------------------ the pass

  /** The object was at a node from which v is reached. */
  ghost predicate Came(w: Wave, v: Key, o: Key) { exists u: Key :: Reaches(w.copies, u, v) && o in Pts(w.pts, u) }

  ghost predicate PtsFlow(w: Wave, x: Wave) {
    forall v: Key, o: Key {:trigger o in Pts(x.pts, v)} :: o in Pts(x.pts, v) ==> Came(w, v, o)
  }

  /** The whole pass: differences are empty, and objects have only come along edges. */
  ghost predicate Passed(w: Wave, x: Wave) { PtsGrown(w, x) && AllSettled(x) && PtsFlow(w, x) }

  lemma NothingFlowed(w: Wave)
    ensures PtsFlow(w, w)
  {
    hide Pts;
    forall v: Key, o: Key | o in Pts(w.pts, v) ensures Came(w, v, o) {
      assert IsPath(w.copies, [v]);
      assert Reaches(w.copies, v, v);
    }
  }

  lemma FlowOneMore(w: Wave, x: Wave, y: Wave, n: Key)
    requires w.copies == x.copies && PtsFlow(w, x) && PassStep(x, y, n)
    ensures PtsFlow(w, y)
  {
    hide Pts, Cached, Rep, Reaches;
    forall v: Key, o: Key | o in Pts(y.pts, v) ensures Came(w, v, o) {
      if o !in Pts(x.pts, v) {
        assert Link(n, v) in x.copies && o in Pts(x.pts, n);
        var u: Key :| Reaches(w.copies, u, n) && o in Pts(w.pts, u);
        ReachesOn(w.copies, u, n, v);
      }
    }
  }

  // ------------------------------------------------------------------ paths before and after merging

  lemma ReachesTrans(es: set<Link>, a: Key, b: Key, c: Key)
    requires Reaches(es, a, b) && Reaches(es, b, c)
    ensures Reaches(es, a, c)
  {
    var p: seq<Key> :| IsPath(es, p) && p[0] == a && p[|p| - 1] == b;
    var q: seq<Key> :| IsPath(es, q) && q[0] == b && q[|q| - 1] == c;
    var t := p + q[1..];
    forall i: nat | i < |t| - 1 ensures Link(t[i], t[i + 1]) in es {
      if i < |p| - 1 { assert Link(p[i], p[i + 1]) in es; } else { assert Link(q[i + 1 - |p|], q[i + 2 - |p|]) in es; }
    }
    assert IsPath(es, t);
  }

  lemma {:induction false} CoverPath(w: Wave, x: Wave, p: seq<Key>)
    requires CoverKept(w, x) && GraphOk(w) && IsPath(w.copies, p)
    ensures Reaches(x.copies, Rep(x, p[0]), Rep(x, p[|p| - 1]))
    decreases |p|
  {
    hide Rep;
    if |p| == 1 {
      assert IsPath(x.copies, [Rep(x, p[0])]);
    } else {
      var q := p[..|p| - 1];
      assert forall i: nat {:trigger q[i]} :: i < |q| - 1 ==> q[i] == p[i] && q[i + 1] == p[i + 1];
      CoverPath(w, x, q);
      var e := Link(p[|p| - 2], p[|p| - 1]);
      assert e in w.copies;
      assert Covered(w, e.src, e.dst);
      assert Covered(x, e.src, e.dst);
      hide Reaches;
      if Rep(x, e.src) != Rep(x, e.dst) { ReachesOn(x.copies, Rep(x, p[0]), Rep(x, e.src), Rep(x, e.dst)); }
    }
  }

  lemma LiftEdge(nodes: set<Key>, w: Wave, x: Wave, e: Link)
    requires Cycled(nodes, w, x) && e in x.copies
    ensures Reaches(w.copies, e.src, e.dst)
  {
    AfterMerging(nodes, w, x);
    assert EdgesCome(w, x);
    hide Rep, Reaches, Merged, CyclesMerged, Pts;
    var f: Link :| f in w.copies && e == Link(Rep(x, f.src), Rep(x, f.dst));
    CycleIff(nodes, w, x, e.src, f.src);
    CycleIff(nodes, w, x, f.dst, e.dst);
    ReachesOn(w.copies, e.src, f.src, f.dst);
    ReachesTrans(w.copies, e.src, f.dst, e.dst);
  }

  lemma {:induction false} LiftPath(nodes: set<Key>, w: Wave, x: Wave, p: seq<Key>)
    requires Cycled(nodes, w, x) && IsPath(x.copies, p)
    ensures Reaches(w.copies, p[0], p[|p| - 1])
    decreases |p|
  {
    hide Cycled;
    if |p| == 1 {
      assert IsPath(w.copies, p);
    } else {
      var q := p[..|p| - 1];
      assert forall i: nat {:trigger q[i]} :: i < |q| - 1 ==> q[i] == p[i] && q[i + 1] == p[i + 1];
      LiftPath(nodes, w, x, q);
      var e := Link(p[|p| - 2], p[|p| - 1]);
      assert e in x.copies;
      hide Reaches;
      LiftEdge(nodes, w, x, e);
      ReachesTrans(w.copies, p[0], e.src, e.dst);
    }
  }

  lemma StartIsRep(x: Wave, a: Key, b: Key)
    requires GraphOk(x) && Reaches(x.copies, a, b) && IsRep(x, b)
    ensures IsRep(x, a)
  {
    hide Rep;
    var p: seq<Key> :| IsPath(x.copies, p) && p[0] == a && p[|p| - 1] == b;
    if |p| > 1 { assert Link(p[0], p[1]) in x.copies; }
  }

  // ------------------------------------------------------------------ where objects flow to

  /** Some node from which r is reached has the object. */
  ghost predicate FlowsTo(w: Wave, o: Key, r: Key) {
    exists u: Key :: IsRep(w, u) && Reaches(w.copies, u, r) && o in Pts(w.pts, u)
  }

  /** What r has when all has been passed on. */
  ghost function FlowPts(nodes: set<Key>, w: Wave, r: Key): set<Key> { set o | o in nodes && FlowsTo(w, o, r) }

  lemma FlowArrives(nodes: set<Key>, w: Wave, x: Wave, z: Wave, r: Key, o: Key)
    requires Cycled(nodes, w, x) && Passed(x, z) && PropaArrived(z) && IsRep(w, r) && FlowsTo(w, o, r)
    ensures o in Pts(z.pts, Rep(x, r))
  {
    assert CoverKept(w, x) && PtsGo(w, x);
    var u: Key :| IsRep(w, u) && Reaches(w.copies, u, r) && o in Pts(w.pts, u);
    var p: seq<Key> :| IsPath(w.copies, p) && p[0] == u && p[|p| - 1] == r;
    CoverPath(w, x, p);
    hide Pts, Rep, Merged, CyclesMerged, Within;
    var q: seq<Key> :| IsPath(x.copies, q) && q[0] == Rep(x, u) && q[|q| - 1] == Rep(x, r);
    assert Pts(w.pts, u) <= Pts(x.pts, Rep(x, u)) <= Pts(z.pts, Rep(x, u));
    forall e: Link | e in z.copies ensures Pts(z.pts, e.src) <= Pts(z.pts, e.dst) {
      assert IsRep(x, e.src) && Rep(z, e.src) == Rep(x, e.src);
      assert Settled(z, e.src);
      assert Pts(z.pts, e.src) <= Pts(z.propa, e.src) <= Pts(z.pts, e.dst);
    }
    GrowsAlong(z.copies, z.pts, q);
  }

  lemma FlowCame(nodes: set<Key>, w: Wave, x: Wave, z: Wave, r: Key, o: Key)
    requires Cycled(nodes, w, x) && PtsFlow(x, z) && IsRep(w, r) && r in nodes && o in Pts(z.pts, Rep(x, r))
    ensures FlowsTo(w, o, r)
  {
    AfterMerging(nodes, w, x);
    var k := Rep(x, r);
    assert PtsCome(w, x);
    assert k in nodes;
    hide Rep, Reaches, Merged, CyclesMerged, Pts;
    assert Came(x, k, o);
    var u: Key :| Reaches(x.copies, u, k) && o in Pts(x.pts, u);
    StartIsRep(x, u, k);
    assert u in nodes;
    assert ComesFrom(w, x, u, o);
    var t: Key :| Rep(x, t) == u && IsRep(w, t) && o in Pts(w.pts, t);
    CycleIff(nodes, w, x, t, u);
    CycleIff(nodes, w, x, k, r);
    LiftReaches(nodes, w, x, u, k);
    ReachesTrans(w.copies, t, u, k);
    ReachesTrans(w.copies, t, k, r);
  }

  lemma LiftReaches(nodes: set<Key>, w: Wave, x: Wave, a: Key, b: Key)
    requires Cycled(nodes, w, x) && Reaches(x.copies, a, b)
    ensures Reaches(w.copies, a, b)
  {
    hide Cycled;
    var p: seq<Key> :| IsPath(x.copies, p) && p[0] == a && p[|p| - 1] == b;
    LiftPath(nodes, w, x, p);
  }

  /** Merging and passing on end with what flows along the graph as it was. */
  lemma FlowPtsAre(nodes: set<Key>, w: Wave, x: Wave, z: Wave, r: Key)
    requires Cycled(nodes, w, x) && Passed(x, z) && PropaArrived(z) && Within(nodes, z) && IsRep(w, r) && r in nodes
    ensures FlowPts(nodes, w, r) == Pts(z.pts, Rep(x, r))
  {
    PtsWithin(nodes, z, Rep(x, r));
    hide Pts, Rep, FlowsTo, Cycled, PropaArrived, Within, PtsGrown, AllSettled;
    forall o: Key ensures FlowsTo(w, o, r) <==> o in Pts(z.pts, Rep(x, r)) {
      if FlowsTo(w, o, r) { FlowArrives(nodes, w, x, z, r, o); }
      if o in Pts(z.pts, Rep(x, r)) { FlowCame(nodes, w, x, z, r, o); }
    }
  }
}
