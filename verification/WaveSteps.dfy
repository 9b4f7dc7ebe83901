/** The steps of the wave solver, and that each keeps what holds between steps. */
module WaveSteps {
  import opened DfPoints
  import opened PtData
  import opened WaveDiff

  ghost predicate SamePropa(w: Wave, x: Wave) {
    forall v: Key {:trigger Pts(x.propa, v)} :: Pts(x.propa, v) == Pts(w.propa, v)
  }

  ghost predicate SamePts(w: Wave, x: Wave) { forall v: Key {:trigger Pts(x.pts, v)} :: Pts(x.pts, v) == Pts(w.pts, v) }

  ghost predicate SameCache(w: Wave, x: Wave) {
    forall k: CacheKey {:trigger Cached(x.cache, k)} :: Cached(x.cache, k) == Cached(w.cache, k)
  }

  ghost predicate SameReps(w: Wave, x: Wave) { forall v: Key {:trigger Rep(x, v)} :: Rep(x, v) == Rep(w, v) }

  ghost predicate SameGraph(w: Wave, x: Wave) {
    SameReps(w, x) && x.copies == w.copies && x.loads == w.loads && x.stores == w.stores
  }

  // ------------------------------------------------------------------ the steps

  /** An object flows into a variable. */
  ghost predicate AddrStep(w: Wave, x: Wave, o: Key, v: Key) {
    IsRep(w, v) && SameGraph(w, x) && SamePropa(w, x) && SameCache(w, x) && United(w.pts, x.pts, v, {o})
  }

  /** A copy edge is added, unless there is one or both ends are one, and everything flows along it. */
  ghost predicate CopyStep(w: Wave, x: Wave, s: Key, d: Key) {
    && SameReps(w, x) && x.loads == w.loads && x.stores == w.stores && SamePropa(w, x) && SameCache(w, x)
    && if Covered(w, s, d) then x.copies == w.copies && SamePts(w, x)
       else
         && x.copies == w.copies + {Link(Rep(w, s), Rep(w, d))}
         && United(w.pts, x.pts, Rep(w, d), Pts(w.pts, Rep(w, s)))
  }

  function Diff(w: Wave, n: Key): set<Key> { Pts(w.pts, n) - Pts(w.propa, n) }

  /** What of n has not been propagated flows to all its successors. */
  ghost predicate PassStep(w: Wave, x: Wave, n: Key) {
    && IsRep(w, n) && SameGraph(w, x) && SameCache(w, x) && Replaced(w.propa, x.propa, n, Pts(w.pts, n))
    && forall v: Key {:trigger Pts(x.pts, v)} ::
        Pts(x.pts, v) == Pts(w.pts, v) + if Link(n, v) in w.copies then Diff(w, n) else {}
  }

  /** A load or store is going to be resolved for more objects. */
  ghost predicate CacheStep(w: Wave, x: Wave, key: CacheKey, more: set<Key>) {
    && SameGraph(w, x) && SamePropa(w, x) && SamePts(w, x)
    && forall k: CacheKey {:trigger Cached(x.cache, k)} ::
        Cached(x.cache, k) == Cached(w.cache, k) + if k == key then more else {}
  }

  function Image(e: Link, n: Key, r: Key): Link {
    Link(if e.src == n then r else e.src, if e.dst == n then r else e.dst)
  }

  function Images(es: set<Link>, n: Key, r: Key): set<Link> { set e: Link | e in es :: Image(e, n, r) }

  function NoLoops(es: set<Link>): set<Link> { set e: Link | e in es && e.src != e.dst }

  ghost predicate IsPath(es: set<Link>, p: seq<Key>) {
    |p| > 0 && forall i: nat {:trigger p[i]} :: i < |p| - 1 ==> Link(p[i], p[i + 1]) in es
  }

  ghost predicate Reaches(es: set<Link>, a: Key, b: Key) {
    exists p: seq<Key> :: IsPath(es, p) && p[0] == a && p[|p| - 1] == b
  }

  /** A node is merged into the representative of its cycle. */
  ghost predicate MergeStep(w: Wave, x: Wave, n: Key, r: Key) {
    && IsRep(w, n) && IsRep(w, r) && n != r && SameCache(w, x)
    && (forall v: Key {:trigger Rep(x, v)} :: Rep(x, v) == if Rep(w, v) == n then r else Rep(w, v))
    && x.copies == NoLoops(Images(w.copies, n, r)) && x.loads == Images(w.loads, n, r) &&
        x.stores == Images(w.stores, n, r)
    && Replaced(w.propa, x.propa, r, Pts(w.propa, r) * Pts(w.propa, n))
    && United(w.pts, x.pts, r, Pts(w.pts, n))
  }

  // ------------------------------------------------------------------ addresses

  lemma AddrKeeps(sys: System, w: Wave, x: Wave, o: Key, v: Key)
    requires Good(sys, w) && AddrStep(w, x, o, v)
    ensures Good(sys.(addrs := sys.addrs + {Link(o, v)}), x)
  {
    hide Pts, Cached, Rep;
  }

  lemma AddrSound(sys: System, w: Wave, x: Wave, o: Key, v: Key, m: PtsMap)
    requires Below(sys, w, m) && AddrStep(w, x, o, v) && o in Pts(m, v)
    ensures Below(sys, x, m)
  {
    hide Pts, Cached, Rep;
  }

  // ------------------------------------------------------------------ copies

  lemma CopyKeeps(sys: System, w: Wave, x: Wave, key: CacheKey, open: set<Key>, s: Key, d: Key)
    requires GoodBut(sys, w, key, open) && CopyStep(w, x, s, d)
    ensures GoodBut(sys, x, key, open) && Covered(x, s, d)
  {
    hide Pts, Cached, Rep;
  }

  lemma CopySound(sys: System, w: Wave, x: Wave, s: Key, d: Key, m: PtsMap)
    requires Below(sys, w, m) && CopyStep(w, x, s, d) && Pts(m, s) <= Pts(m, d)
    ensures Below(sys, x, m)
  {
    hide Pts, Cached, Rep;
    assert Pts(m, Rep(w, s)) <= Pts(m, Rep(w, d));
  }

  // ------------------------------------------------------------------ propagation of differences

  lemma PassKeeps(sys: System, w: Wave, x: Wave, n: Key)
    requires Good(sys, w) && PassStep(w, x, n)
    ensures Good(sys, x)
  {
    hide Pts, Cached, Rep;
  }

  lemma PassSound(sys: System, w: Wave, x: Wave, n: Key, m: PtsMap)
    requires Below(sys, w, m) && PassStep(w, x, n)
    ensures Below(sys, x, m)
  {
    hide Pts, Cached, Rep;
    forall v: Key ensures Pts(x.pts, v) <= Pts(m, v) {
      if Link(n, v) in w.copies { assert Pts(w.pts, n) <= Pts(m, n) <= Pts(m, v); }
    }
  }

  // ------------------------------------------------------------------ loads and stores

  lemma CacheKeeps(sys: System, w: Wave, x: Wave, key: CacheKey, more: set<Key>)
    requires Good(sys, w) && CacheStep(w, x, key, more)
    ensures GoodBut(sys, x, key, more)
  {
    hide Pts, Cached, Rep;
  }

  lemma CacheSound(sys: System, w: Wave, x: Wave, key: CacheKey, more: set<Key>, m: PtsMap)
    requires Below(sys, w, m) && CacheStep(w, x, key, more)
    ensures Below(sys, x, m)
  {
    hide Pts, Cached, Rep;
  }

  /** One object less is open once it has its edge, or is not dereferenced. */
  lemma Resolve(sys: System, w: Wave, key: CacheKey, open: set<Key>, o: Key)
    requires GoodBut(sys, w, key, open)
    requires o in sys.inert || (key.LoadKey? && Covered(w, o, key.dst)) || (key.StoreKey? && Covered(w, key.src, o))
    ensures GoodBut(sys, w, key, open - {o})
  {
    hide Pts, Cached, Rep;
  }

  lemma AllResolved(sys: System, w: Wave, key: CacheKey)
    requires GoodBut(sys, w, key, {})
    ensures Good(sys, w)
  {
    hide Pts, Cached, Rep;
  }

  // ------------------------------------------------------------------ merging

  lemma MergeReps(w: Wave, x: Wave, n: Key, r: Key)
    requires RepsOk(w) && MergeStep(w, x, n, r)
    ensures RepsOk(x) && forall v: Key {:trigger IsRep(x, v)} {:trigger IsRep(w, v)} ::
        IsRep(x, v) <==> IsRep(w, v) && v != n
  {
    hide Pts, Cached, Rep, Images, NoLoops;
    forall v: Key ensures IsRep(x, Rep(x, v)) { assert IsRep(w, Rep(w, v)); }
    forall v: Key ensures IsRep(x, v) <==> IsRep(w, v) && v != n {
      assert Rep(x, v) == if Rep(w, v) == n then r else Rep(w, v);
    }
  }

  lemma ImageIn(es: set<Link>, n: Key, r: Key, e: Link)
    requires e in es
    ensures Image(e, n, r) in Images(es, n, r)
    ensures Image(e, n, r).src != Image(e, n, r).dst ==> Image(e, n, r) in NoLoops(Images(es, n, r))
  {}

  lemma MergeCovers(w: Wave, x: Wave, n: Key, r: Key, a: Key, b: Key)
    requires MergeStep(w, x, n, r) && Covered(w, a, b)
    ensures Covered(x, a, b)
  {
    hide Pts, Cached, Rep, Images, NoLoops;
    if Rep(w, a) != Rep(w, b) { ImageIn(w.copies, n, r, Link(Rep(w, a), Rep(w, b))); }
  }

  lemma MergeGraph(w: Wave, x: Wave, n: Key, r: Key)
    requires RepsOk(w) && GraphOk(w) && MergeStep(w, x, n, r)
    ensures GraphOk(x)
  {
    MergeReps(w, x, n, r);
    hide Pts, Cached, Rep;
    assert IsRep(x, r);
    forall e: Link | e in x.copies ensures IsRep(x, e.src) && IsRep(x, e.dst) {
      var f: Link :| f in w.copies && e == Image(f, n, r);
    }
    forall e: Link | e in x.loads ensures IsRep(x, e.src) && IsRep(x, e.dst) {
      var f: Link :| f in w.loads && e == Image(f, n, r);
    }
    forall e: Link | e in x.stores ensures IsRep(x, e.src) && IsRep(x, e.dst) {
      var f: Link :| f in w.stores && e == Image(f, n, r);
    }
  }

  lemma MergePropa(w: Wave, x: Wave, n: Key, r: Key)
    requires RepsOk(w) && GraphOk(w) && PropaOwn(w) && PropaArrived(w) && MergeStep(w, x, n, r)
    ensures PropaOwn(x) && PropaArrived(x)
  {
    MergeReps(w, x, n, r);
    hide Pts, Cached, Rep;
    forall v: Key | IsRep(x, v) ensures Pts(x.propa, v) <= Pts(x.pts, v) { assert IsRep(w, v); }
    forall e: Link | e in x.copies ensures Pts(x.propa, e.src) <= Pts(x.pts, e.dst) {
      var f: Link :| f in w.copies && e == Image(f, n, r);
      assert Pts(w.propa, f.src) <= Pts(w.pts, f.dst) <= Pts(x.pts, e.dst);
      assert Pts(x.propa, e.src) <= Pts(w.propa, f.src);
    }
  }

  lemma MergeConstraints(sys: System, w: Wave, x: Wave, n: Key, r: Key)
    requires AddrsIn(sys, w) && ConstraintsIn(sys, w) && MergeStep(w, x, n, r)
    ensures AddrsIn(sys, x) && ConstraintsIn(sys, x)
  {
    hide Pts, Cached, Rep, Images, NoLoops;
    forall e: Link | e in sys.copies ensures Covered(x, e.src, e.dst) { MergeCovers(w, x, n, r, e.src, e.dst); }
    forall e: Link | e in sys.loads ensures Link(Rep(x, e.src), Rep(x, e.dst)) in x.loads {
      ImageIn(w.loads, n, r, Link(Rep(w, e.src), Rep(w, e.dst)));
    }
    forall e: Link | e in sys.stores ensures Link(Rep(x, e.src), Rep(x, e.dst)) in x.stores {
      ImageIn(w.stores, n, r, Link(Rep(w, e.src), Rep(w, e.dst)));
    }
  }

  lemma MergeResolved(sys: System, w: Wave, x: Wave, key: CacheKey, n: Key, r: Key)
    requires RepsOk(w) && LoadsResolved(sys, w, key, {}) && StoresResolved(sys, w, key, {}) && MergeStep(w, x, n, r)
    ensures LoadsResolved(sys, x, key, {}) && StoresResolved(sys, x, key, {})
  {
    MergeReps(w, x, n, r);
    hide Pts, Cached, Rep, Images, NoLoops;
    forall a: Key, b: Key, o: Key | IsRep(x, a) && IsRep(x, b) && o in Cached(x.cache, LoadKey(a, b)) && o !in sys.inert
      ensures Covered(x, o, b)
    {
      assert o in Cached(w.cache, LoadKey(a, b));
      MergeCovers(w, x, n, r, o, b);
    }
    forall a: Key, b: Key, o: Key
      | IsRep(x, a) && IsRep(x, b) && o in Cached(x.cache, StoreKey(a, b)) && o !in sys.inert
      ensures Covered(x, a, o)
    {
      assert o in Cached(w.cache, StoreKey(a, b));
      MergeCovers(w, x, n, r, a, o);
    }
  }

  lemma MergeKeeps(sys: System, w: Wave, x: Wave, n: Key, r: Key)
    requires Good(sys, w) && MergeStep(w, x, n, r)
    ensures Good(sys, x)
  {
    hide MergeStep, RepsOk, GraphOk, PropaOwn, PropaArrived, AddrsIn, ConstraintsIn, LoadsResolved, StoresResolved;
    MergeReps(w, x, n, r);
    MergeGraph(w, x, n, r);
    MergePropa(w, x, n, r);
    MergeConstraints(sys, w, x, n, r);
    MergeResolved(sys, w, x, LoadKey(0, 0), n, r);
  }

  /** A solution grows along paths. */
  lemma {:induction false} GrowsAlong(es: set<Link>, m: PtsMap, p: seq<Key>)
    requires IsPath(es, p) && forall e: Link :: e in es ==> Pts(m, e.src) <= Pts(m, e.dst)
    ensures Pts(m, p[0]) <= Pts(m, p[|p| - 1])
    decreases |p|
  {
    hide Pts;
    if |p| > 1 {
      var q := p[..|p| - 1];
      assert forall i: nat {:trigger q[i]} :: i < |q| - 1 ==> q[i] == p[i] && q[i + 1] == p[i + 1];
      GrowsAlong(es, m, q);
      assert Link(p[|p| - 2], p[|p| - 1]) in es;
    }
  }

  /** Every solution has the same set for all nodes of a cycle, so merging them stays below it. */
  lemma MergeSound(sys: System, w: Wave, x: Wave, n: Key, r: Key, m: PtsMap)
    requires Below(sys, w, m) && MergeStep(w, x, n, r) && Reaches(w.copies, n, r) && Reaches(w.copies, r, n)
    ensures Below(sys, x, m)
  {
    var p: seq<Key> :| IsPath(w.copies, p) && p[0] == n && p[|p| - 1] == r;
    var q: seq<Key> :| IsPath(w.copies, q) && q[0] == r && q[|q| - 1] == n;
    GrowsAlong(w.copies, m, p);
    GrowsAlong(w.copies, m, q);
    assert Pts(m, n) == Pts(m, r);
    MergedBelow(sys, w, x, n, r, m);
  }

  lemma MergedBelow(sys: System, w: Wave, x: Wave, n: Key, r: Key, m: PtsMap)
    requires Below(sys, w, m) && MergeStep(w, x, n, r) && Pts(m, n) == Pts(m, r)
    ensures Below(sys, x, m)
  {
    hide Pts, Cached, Rep;
    forall v: Key ensures Pts(m, Rep(x, v)) == Pts(m, v) { assert Pts(m, Rep(w, v)) == Pts(m, v); }
    forall e: Link | e in x.copies ensures Pts(m, e.src) <= Pts(m, e.dst) {
      var f: Link :| f in w.copies && e == Image(f, n, r);
    }
    forall e: Link, o: Key | e in x.loads && o in Pts(m, e.src) && o !in sys.inert ensures Pts(m, o) <= Pts(m, e.dst) {
      var f: Link :| f in w.loads && e == Image(f, n, r);
      assert o in Pts(m, f.src);
    }
    forall e: Link, o: Key | e in x.stores && o in Pts(m, e.dst) && o !in sys.inert ensures Pts(m, e.src) <= Pts(m, o) {
      var f: Link :| f in w.stores && e == Image(f, n, r);
      assert o in Pts(m, f.dst);
    }
  }

  /** Merging other nodes of a cycle leaves the rest of the cycle a cycle. */
  lemma {:induction false} ImagePath(w: Wave, x: Wave, n: Key, r: Key, p: seq<Key>)
    requires MergeStep(w, x, n, r) && IsPath(w.copies, p)
    ensures Reaches(x.copies, if p[0] == n then r else p[0], if p[|p| - 1] == n then r else p[|p| - 1])
    decreases |p|
  {
    hide Pts, Cached, Rep, Images, NoLoops, Replaced, United;
    var a, b := if p[0] == n then r else p[0], if p[|p| - 1] == n then r else p[|p| - 1];
    if |p| == 1 {
      assert IsPath(x.copies, [a]);
    } else {
      var q := p[..|p| - 1];
      assert forall i: nat {:trigger q[i]} :: i < |q| - 1 ==> q[i] == p[i] && q[i + 1] == p[i + 1];
      ImagePath(w, x, n, r, q);
      var c := if q[|q| - 1] == n then r else q[|q| - 1];
      var e := Link(p[|p| - 2], p[|p| - 1]);
      assert e in w.copies;
      ImageIn(w.copies, n, r, e);
      if c != b { ReachesOn(x.copies, a, c, b); }
    }
  }

  lemma ReachesOn(es: set<Link>, a: Key, c: Key, b: Key)
    requires Reaches(es, a, c) && Link(c, b) in es
    ensures Reaches(es, a, b)
  {
    var p: seq<Key> :| IsPath(es, p) && p[0] == a && p[|p| - 1] == c;
    assert IsPath(es, p + [b]);
  }
}
