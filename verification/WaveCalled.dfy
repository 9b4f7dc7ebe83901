/** Which copies the solver may ever have: those that the constraints call for in a solution. */
module WaveCalled {
  import opened DfPoints
  import opened PtData
  import opened WaveDiff
  import opened WaveSteps
  import opened WaveSolve
  import opened WaveOrder
  import opened WaveFlow

  /** The given copies, and for each object that a load or store may meet in the solution the copy that it needs. */
  ghost function Called(sys: System, m: PtsMap): set<Link> {
    sys.copies
    + (set e, o | e in sys.loads && o in Pts(m, e.src) && o !in sys.inert :: Link(o, e.dst))
    + (set e, o | e in sys.stores && o in Pts(m, e.dst) && o !in sys.inert :: Link(e.src, o))
  }

  ghost predicate Mutual(es: set<Link>, a: Key, b: Key) { Reaches(es, a, b) && Reaches(es, b, a) }

  /** Edges of the graph follow called copies, and what has been merged is on a cycle of called copies. */
  ghost predicate TracedBy(sys: System, w: Wave, m: PtsMap) {
    && (forall e: Link :: e in w.copies ==> Reaches(Called(sys, m), e.src, e.dst))
    && (forall v: Key {:trigger Rep(w, v)} :: Mutual(Called(sys, m), v, Rep(w, v)))
  }

  ghost predicate Traced(sys: System, w: Wave) {
    && Come(w, sys.loads, w.loads) && Come(w, sys.stores, w.stores)
    && forall m: PtsMap {:trigger TracedBy(sys, w, m)} :: Solves(sys, m, NONE) ==> TracedBy(sys, w, m)
  }

  lemma ReachesSelf(es: set<Link>, a: Key)
    ensures Reaches(es, a, a)
  {
    assert IsPath(es, [a]);
  }

  lemma ReachesLink(es: set<Link>, e: Link)
    requires e in es
    ensures Reaches(es, e.src, e.dst)
  {
    assert IsPath(es, [e.src, e.dst]);
  }

  lemma ReachesMore(es: set<Link>, fs: set<Link>, a: Key, b: Key)
    requires es <= fs && Reaches(es, a, b)
    ensures Reaches(fs, a, b)
  {
    var p: seq<Key> :| IsPath(es, p) && p[0] == a && p[|p| - 1] == b;
    assert IsPath(fs, p);
  }

  /** Along a path of edges each of which is a path. */
  lemma {:induction false} TracePath(es: set<Link>, fs: set<Link>, p: seq<Key>)
    requires IsPath(es, p) && forall e: Link :: e in es ==> Reaches(fs, e.src, e.dst)
    ensures Reaches(fs, p[0], p[|p| - 1])
    decreases |p|
  {
    if |p| == 1 {
      ReachesSelf(fs, p[0]);
    } else {
      var q := p[..|p| - 1];
      assert forall i: nat {:trigger q[i]} :: i < |q| - 1 ==> q[i] == p[i] && q[i + 1] == p[i + 1];
      TracePath(es, fs, q);
      assert Link(p[|p| - 2], p[|p| - 1]) in es;
      hide Reaches;
      ReachesTrans(fs, p[0], p[|p| - 2], p[|p| - 1]);
    }
  }

  lemma TraceReaches(es: set<Link>, fs: set<Link>, a: Key, b: Key)
    requires Reaches(es, a, b) && forall e: Link :: e in es ==> Reaches(fs, e.src, e.dst)
    ensures Reaches(fs, a, b)
  {
    var p: seq<Key> :| IsPath(es, p) && p[0] == a && p[|p| - 1] == b;
    TracePath(es, fs, p);
  }

  // ------------------------------------------------------------------ every step keeps this

  lemma StartTraced(sys: System, w: Wave)
    requires w.rep == NONE && w.copies <= sys.copies && w.loads == sys.loads && w.stores == sys.stores
    ensures Traced(sys, w)
  {
    forall v: Key ensures Rep(w, v) == v {}
    hide Rep, Reaches;
    forall e: Link, s: set<Link> | e in s ensures exists f: Link :: f in s && e == Link(Rep(w, f.src), Rep(w, f.dst)) {
      assert e == Link(Rep(w, e.src), Rep(w, e.dst));
    }
    forall m: PtsMap ensures TracedBy(sys, w, m) {
      forall e: Link | e in w.copies ensures Reaches(Called(sys, m), e.src, e.dst) { ReachesLink(Called(sys, m), e); }
      forall v: Key ensures Mutual(Called(sys, m), v, Rep(w, v)) { ReachesSelf(Called(sys, m), v); }
    }
  }

  lemma SameTraced(sys: System, w: Wave, x: Wave)
    requires Traced(sys, w) && SameGraph(w, x)
    ensures Traced(sys, x)
  {
    hide Rep, Solves, Mutual, Called, Reaches;
    forall m: PtsMap | Solves(sys, m, NONE) ensures TracedBy(sys, x, m) { assert TracedBy(sys, w, m); }
  }

  lemma AddrTraced(sys: System, w: Wave, x: Wave, addrs: set<Link>)
    requires Traced(sys, w) && SameGraph(w, x)
    ensures Traced(sys.(addrs := sys.addrs + addrs), x)
  {
    var sys' := sys.(addrs := sys.addrs + addrs);
    SameTraced(sys, w, x);
    forall m: PtsMap | Solves(sys', m, NONE) ensures TracedBy(sys', x, m) {
      assert Solves(sys, m, NONE);
      assert TracedBy(sys, x, m);
      assert Called(sys', m) == Called(sys, m);
      hide Rep, Solves, Mutual, Called, Reaches;
    }
  }

  lemma CalledEdge(sys: System, x: Wave, m: PtsMap, e: Link)
    requires Come(x, sys.loads, x.loads) && Come(x, sys.stores, x.stores) && Below(sys, x, m)
    requires forall v: Key {:trigger Rep(x, v)} :: Mutual(Called(sys, m), v, Rep(x, v))
    requires CalledIn(sys.inert, x, e)
    ensures Reaches(Called(sys, m), e.src, e.dst)
  {
    hide Rep, Reaches, Pts;
    var es := Called(sys, m);
    var c: Link;
    if f: Link, o: Key :| f in x.loads && o in Pts(x.pts, f.src) && o !in sys.inert && e == Link(Rep(x, o), f.dst) {
      var g: Link :| g in sys.loads && f == Link(Rep(x, g.src), Rep(x, g.dst));
      assert Pts(x.pts, f.src) <= Pts(m, f.src) == Pts(m, g.src);
      c := Link(o, g.dst);
    } else {
      var f: Link, o: Key :|
        f in x.stores && o in Pts(x.pts, f.dst) && o !in sys.inert && e == Link(f.src, Rep(x, o));
      var g: Link :| g in sys.stores && f == Link(Rep(x, g.src), Rep(x, g.dst));
      assert Pts(x.pts, f.dst) <= Pts(m, f.dst) == Pts(m, g.dst);
      c := Link(g.src, o);
    }
    assert c in es && e == Link(Rep(x, c.src), Rep(x, c.dst));
    EdgeOfReps(es, x, c);
  }

  lemma EdgeOfReps(es: set<Link>, x: Wave, c: Link)
    requires c in es && Mutual(es, c.src, Rep(x, c.src)) && Mutual(es, c.dst, Rep(x, c.dst))
    ensures Reaches(es, Rep(x, c.src), Rep(x, c.dst))
  {
    hide Rep, Reaches;
    ReachesOn(es, Rep(x, c.src), c.src, c.dst);
    ReachesTrans(es, Rep(x, c.src), c.dst, Rep(x, c.dst));
  }

  lemma ResolvingTraced(sys: System, w: Wave, x: Wave)
    requires Traced(sys, w) && Sound(sys, x) && Resolving(sys.inert, w, x)
    ensures Traced(sys, x)
  {
    hide Rep, Reaches, Solves, Below, CalledIn, Pts, Called;
    forall v: Key ensures Rep(x, v) == Rep(w, v) {}
    forall m: PtsMap | Solves(sys, m, NONE) ensures TracedBy(sys, x, m) {
      assert TracedBy(sys, w, m) && Below(sys, x, m);
      forall e: Link | e in x.copies ensures Reaches(Called(sys, m), e.src, e.dst) {
        if e !in w.copies {
          assert CalledIn(sys.inert, x, e);
          CalledEdge(sys, x, m, e);
        }
      }
    }
  }

  lemma MergeTraced(sys: System, w: Wave, x: Wave, n: Key, r: Key)
    requires RepsOk(w) && GraphOk(w) && Traced(sys, w) && MergeStep(w, x, n, r)
    requires Reaches(w.copies, n, r) && Reaches(w.copies, r, n)
    ensures Traced(sys, x)
  {
    MergeIsMerged(w, x, n, r);
    assert EdgesCome(w, x) && RepsFollow(w, x);
    hide Merged;
    ComeTrans(w, x, sys.loads, w.loads, x.loads);
    ComeTrans(w, x, sys.stores, w.stores, x.stores);
    hide Come, Solves, TracedBy;
    forall m: PtsMap | Solves(sys, m, NONE) ensures TracedBy(sys, x, m) {
      assert TracedBy(sys, w, m);
      MergeTracedBy(sys, w, x, n, r, m);
    }
  }

  lemma MergeTracedBy(sys: System, w: Wave, x: Wave, n: Key, r: Key, m: PtsMap)
    requires TracedBy(sys, w, m) && MergeStep(w, x, n, r) && Reaches(w.copies, n, r) && Reaches(w.copies, r, n)
    ensures TracedBy(sys, x, m)
  {
    var es := Called(sys, m);
    TraceReaches(w.copies, es, n, r);
    TraceReaches(w.copies, es, r, n);
    hide Rep, Reaches, Pts, Called, Cached, Images, NoLoops;
    forall v: Key ensures Mutual(es, v, Rep(x, v)) {
      assert Mutual(es, v, Rep(w, v));
      if Rep(w, v) == n {
        ReachesTrans(es, v, n, r);
        ReachesTrans(es, r, n, v);
      }
    }
    forall e: Link | e in x.copies ensures Reaches(es, e.src, e.dst) {
      var f := ImageOf(w.copies, n, r, e);
      if f.src == n { ReachesTrans(es, r, n, f.dst); }
      if f.dst == n { ReachesTrans(es, e.src, n, r); }
    }
  }

  lemma ImageOf(es: set<Link>, n: Key, r: Key, e: Link) returns (f: Link)
    requires e in NoLoops(Images(es, n, r))
    ensures f in es && e == Image(f, n, r)
  {
    f :| f in es && e == Image(f, n, r);
  }

  // ------------------------------------------------------------------ no late cycles

  /** Called copies close no cycle that the given copies do not close. */
  ghost predicate NoLateCycles(called: set<Link>, given: set<Link>) {
    forall a: Key, b: Key {:trigger Mutual(called, a, b)} :: Mutual(called, a, b) ==> Mutual(given, a, b)
  }

  lemma MutualMore(es: set<Link>, fs: set<Link>, a: Key, b: Key)
    requires es <= fs && Mutual(es, a, b)
    ensures Mutual(fs, a, b)
  {
    ReachesMore(es, fs, a, b);
    ReachesMore(es, fs, b, a);
  }

  lemma MutualWithoutLoops(es: set<Link>, a: Key, b: Key)
    requires Mutual(es, a, b)
    ensures Mutual(NoLoops(es), a, b)
  {
    forall e: Link | e in es ensures Reaches(NoLoops(es), e.src, e.dst) {
      if e.src == e.dst { ReachesSelf(NoLoops(es), e.src); } else { ReachesLink(NoLoops(es), e); }
    }
    TraceReaches(es, NoLoops(es), a, b);
    TraceReaches(es, NoLoops(es), b, a);
  }

  /** Without late cycles nothing is merged that the first round, on the given copies, has not merged. */
  lemma NothingMergedLater(sys: System, nodes: set<Key>, initial: Wave, first: Wave, w: Wave, m: PtsMap,
                           called: set<Link>, given: set<Link>)
    requires Traced(sys, w) && Solves(sys, m, NONE) && Called(sys, m) <= called && NoLateCycles(called, given)
    requires initial.rep == NONE && NoLoops(given) <= initial.copies && CyclesMerged(nodes, initial, first)
    requires RepsFollow(first, w) && Within(nodes, first) && Within(nodes, w) && RepsOk(w)
    ensures SameReps(first, w)
  {
    assert TracedBy(sys, w, m);
    forall v: Key ensures Rep(w, v) == Rep(first, v) {
      var r := Rep(w, v);
      assert IsRep(w, r);
      assert Mutual(Called(sys, m), v, r);
      MutualMore(Called(sys, m), called, v, r);
      MutualWithoutLoops(given, v, r);
      MutualMore(NoLoops(given), initial.copies, v, r);
      hide Rep, Pts, Reaches, Called;
      if v in nodes {
        assert r in nodes;
        assert IsRep(initial, v) && IsRep(initial, r) by { RepOfNone(initial, v); RepOfNone(initial, r); }
        assert Rep(first, v) == Rep(first, r);
        assert Rep(w, r) == r && IsRep(first, r);
      }
    }
  }

  lemma RepOfNone(w: Wave, v: Key)
    requires w.rep == NONE
    ensures Rep(w, v) == v
  {}
}
