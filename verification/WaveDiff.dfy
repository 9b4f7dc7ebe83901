/**
 Inclusion-based points-to analysis by difference propagation: what is kept between the steps of the
 wave solver, and why what it ends with is the least solution of its constraints.
 */
module WaveDiff {
  import opened DfPoints
  import opened PtData

  datatype Link = Link(src: Key, dst: Key)

  type Reps = map<Key, Key>

  /** The constraints: addresses (an object flows into a variable), copies, loads and stores. Objects in
      `inert` are not dereferenced. */
  datatype System = System(addrs: set<Link>, copies: set<Link>, loads: set<Link>, stores: set<Link>, inert: set<Key>)

  /** The solver: points-to and propagated sets of representatives, the constraint graph on representatives,
      and what loads and stores have been resolved for. */
  datatype Wave = Wave(pts: PtsMap, propa: PtsMap, rep: Reps, copies: set<Link>, loads: set<Link>, stores: set<Link>,
                       cache: CacheMap)

  function RepOf(rep: Reps, v: Key): Key { if v in rep then rep[v] else v }

  function Rep(w: Wave, v: Key): Key { RepOf(w.rep, v) }

  /** What the solver answers for a variable: the set of its representative. */
  function Answer(pts: PtsMap, rep: Reps, v: Key): set<Key> { Pts(pts, RepOf(rep, v)) }

  // ------------------------------------------------------------------ solutions

  ghost predicate AddrsHold(sys: System, m: PtsMap, rep: Reps) {
    forall e: Link :: e in sys.addrs ==> e.src in Answer(m, rep, e.dst)
  }

  ghost predicate CopiesHold(sys: System, m: PtsMap, rep: Reps) {
    forall e: Link :: e in sys.copies ==> Answer(m, rep, e.src) <= Answer(m, rep, e.dst)
  }

  ghost predicate LoadsHold(sys: System, m: PtsMap, rep: Reps) {
    forall e: Link, o: Key {:trigger e in sys.loads, Answer(m, rep, o)} ::
      e in sys.loads && o in Answer(m, rep, e.src) && o !in sys.inert ==> Answer(m, rep, o) <= Answer(m, rep, e.dst)
  }

  ghost predicate StoresHold(sys: System, m: PtsMap, rep: Reps) {
    forall e: Link, o: Key {:trigger e in sys.stores, Answer(m, rep, o)} ::
      e in sys.stores && o in Answer(m, rep, e.dst) && o !in sys.inert ==> Answer(m, rep, e.src) <= Answer(m, rep, o)
  }

  /** The sets satisfy all constraints. */
  ghost predicate Solves(sys: System, m: PtsMap, rep: Reps) {
    AddrsHold(sys, m, rep) && CopiesHold(sys, m, rep) && LoadsHold(sys, m, rep) && StoresHold(sys, m, rep)
  }

  const NONE: Reps := map[]

  // ------------------------------------------------------------------ what holds between steps

  predicate IsRep(w: Wave, v: Key) { Rep(w, v) == v }

  /** Either the two are one by now, or there is an edge between their representatives. */
  predicate Covered(w: Wave, a: Key, b: Key) {
    Rep(w, a) == Rep(w, b) || Link(Rep(w, a), Rep(w, b)) in w.copies
  }

  ghost predicate RepsOk(w: Wave) { forall v: Key {:trigger Rep(w, v)} :: IsRep(w, Rep(w, v)) }

  ghost predicate GraphOk(w: Wave) {
    && (forall e: Link :: e in w.copies ==> IsRep(w, e.src) && IsRep(w, e.dst) && e.src != e.dst)
    && (forall e: Link :: e in w.loads ==> IsRep(w, e.src) && IsRep(w, e.dst))
    && (forall e: Link :: e in w.stores ==> IsRep(w, e.src) && IsRep(w, e.dst))
  }

  ghost predicate PropaOwn(w: Wave) {
    forall v: Key {:trigger Pts(w.propa, v)} :: IsRep(w, v) ==> Pts(w.propa, v) <= Pts(w.pts, v)
  }

  /** What counts as propagated has arrived at every successor. */
  ghost predicate PropaArrived(w: Wave) {
    forall e: Link :: e in w.copies ==> Pts(w.propa, e.src) <= Pts(w.pts, e.dst)
  }

  ghost predicate AddrsIn(sys: System, w: Wave) {
    forall e: Link :: e in sys.addrs ==> e.src in Pts(w.pts, Rep(w, e.dst))
  }

  ghost predicate ConstraintsIn(sys: System, w: Wave) {
    && (forall e: Link :: e in sys.copies ==> Covered(w, e.src, e.dst))
    && (forall e: Link :: e in sys.loads ==> Link(Rep(w, e.src), Rep(w, e.dst)) in w.loads)
    && (forall e: Link :: e in sys.stores ==> Link(Rep(w, e.src), Rep(w, e.dst)) in w.stores)
  }

  /** What a load or store was resolved for has its edge, except for objects in `open` at `key`. */
  ghost predicate LoadsResolved(sys: System, w: Wave, key: CacheKey, open: set<Key>) {
    forall a: Key, b: Key, o: Key {:trigger o in Cached(w.cache, LoadKey(a, b))} ::
      IsRep(w, a) && IsRep(w, b) && o in Cached(w.cache, LoadKey(a, b)) && o !in sys.inert ==>
        (key == LoadKey(a, b) && o in open) || Covered(w, o, b)
  }

  ghost predicate StoresResolved(sys: System, w: Wave, key: CacheKey, open: set<Key>) {
    forall a: Key, b: Key, o: Key {:trigger o in Cached(w.cache, StoreKey(a, b))} ::
      IsRep(w, a) && IsRep(w, b) && o in Cached(w.cache, StoreKey(a, b)) && o !in sys.inert ==>
        (key == StoreKey(a, b) && o in open) || Covered(w, a, o)
  }

  ghost predicate GoodBut(sys: System, w: Wave, key: CacheKey, open: set<Key>) {
    && RepsOk(w) && GraphOk(w) && PropaOwn(w) && PropaArrived(w) && AddrsIn(sys, w) && ConstraintsIn(sys, w)
    && LoadsResolved(sys, w, key, open) && StoresResolved(sys, w, key, open)
  }

  ghost predicate Good(sys: System, w: Wave) { GoodBut(sys, w, LoadKey(0, 0), {}) }

  /** Everything the solver has is in the solution `m` too, and the graph says nothing that `m` does not obey. */
  ghost predicate Below(sys: System, w: Wave, m: PtsMap) {
    && (forall v: Key {:trigger Pts(w.pts, v)} :: Pts(w.pts, v) <= Pts(m, v))
    && (forall v: Key {:trigger Rep(w, v)} :: Pts(m, Rep(w, v)) == Pts(m, v))
    && (forall e: Link :: e in w.copies ==> Pts(m, e.src) <= Pts(m, e.dst))
    && (forall e: Link, o: Key {:trigger e in w.loads, Pts(m, o)} ::
          e in w.loads && o in Pts(m, e.src) && o !in sys.inert ==> Pts(m, o) <= Pts(m, e.dst))
    && (forall e: Link, o: Key {:trigger e in w.stores, Pts(m, o)} ::
          e in w.stores && o in Pts(m, e.dst) && o !in sys.inert ==> Pts(m, e.src) <= Pts(m, o))
  }

  /** The solver is below every solution. */
  ghost predicate Sound(sys: System, w: Wave) {
    forall m: PtsMap :: Solves(sys, m, NONE) ==> Below(sys, w, m)
  }

  // ------------------------------------------------------------------ at rest

  /** All that the representative has has been propagated. */
  ghost predicate Settled(w: Wave, r: Key) { Pts(w.pts, r) <= Pts(w.propa, r) }

  /** The loads and stores through the representative have their edges for all it has. */
  ghost predicate Done(sys: System, w: Wave, r: Key) {
    && (forall e: Link, o: Key {:trigger e in w.loads, o in Pts(w.pts, r)} ::
          e in w.loads && e.src == r && o in Pts(w.pts, r) && o !in sys.inert ==> Covered(w, o, e.dst))
    && (forall e: Link, o: Key {:trigger e in w.stores, o in Pts(w.pts, r)} ::
          e in w.stores && e.dst == r && o in Pts(w.pts, r) && o !in sys.inert ==> Covered(w, e.src, o))
  }

  ghost predicate AllSettled(w: Wave) { forall r: Key {:trigger Settled(w, r)} :: IsRep(w, r) ==> Settled(w, r) }

  ghost predicate AllDone(sys: System, w: Wave) {
    forall r: Key {:trigger Done(sys, w, r)} :: IsRep(w, r) ==> Done(sys, w, r)
  }

  /** All differences are empty, and all loads and stores have their edges. */
  ghost predicate AtRest(sys: System, w: Wave) { AllSettled(w) && AllDone(sys, w) }

  lemma CoveredFlows(w: Wave, a: Key, b: Key)
    requires RepsOk(w) && GraphOk(w) && PropaArrived(w) && AllSettled(w) && Covered(w, a, b)
    ensures Answer(w.pts, w.rep, a) <= Answer(w.pts, w.rep, b)
  {
    hide Pts;
    var e := Link(Rep(w, a), Rep(w, b));
    if e in w.copies {
      assert Settled(w, e.src);
      assert Pts(w.pts, e.src) <= Pts(w.propa, e.src) <= Pts(w.pts, e.dst);
    }
  }

  /** At rest, the answers satisfy all constraints. */
  lemma RestSolves(sys: System, w: Wave)
    requires Good(sys, w) && AtRest(sys, w)
    ensures Solves(sys, w.pts, w.rep)
  {
    hide Pts, Covered, Cached, PropaOwn, PropaArrived, RepsOk, Done, Settled;
    forall e: Link | e in sys.copies ensures Answer(w.pts, w.rep, e.src) <= Answer(w.pts, w.rep, e.dst) {
      CoveredFlows(w, e.src, e.dst);
    }
    forall e: Link, o: Key | e in sys.loads && o in Answer(w.pts, w.rep, e.src) && o !in sys.inert
      ensures Answer(w.pts, w.rep, o) <= Answer(w.pts, w.rep, e.dst)
    {
      LoadFlows(sys, w, e, o);
    }
    forall e: Link, o: Key | e in sys.stores && o in Answer(w.pts, w.rep, e.dst) && o !in sys.inert
      ensures Answer(w.pts, w.rep, e.src) <= Answer(w.pts, w.rep, o)
    {
      StoreFlows(sys, w, e, o);
    }
  }

  lemma LoadFlows(sys: System, w: Wave, e: Link, o: Key)
    requires Good(sys, w) && AtRest(sys, w) && e in sys.loads && o in Answer(w.pts, w.rep, e.src) && o !in sys.inert
    ensures Answer(w.pts, w.rep, o) <= Answer(w.pts, w.rep, e.dst)
  {
    hide Pts, Cached, PropaOwn, PropaArrived, StoresResolved, AddrsIn;
    var a, b := Rep(w, e.src), Rep(w, e.dst);
    assert Link(a, b) in w.loads && IsRep(w, a);
    assert Done(sys, w, a);
    assert Covered(w, o, b);
    CoveredFlows(w, o, b);
  }

  lemma StoreFlows(sys: System, w: Wave, e: Link, o: Key)
    requires Good(sys, w) && AtRest(sys, w) && e in sys.stores && o in Answer(w.pts, w.rep, e.dst) && o !in sys.inert
    ensures Answer(w.pts, w.rep, e.src) <= Answer(w.pts, w.rep, o)
  {
    hide Pts, Cached, PropaOwn, PropaArrived, LoadsResolved, AddrsIn;
    var a, b := Rep(w, e.src), Rep(w, e.dst);
    assert Link(a, b) in w.stores && IsRep(w, b);
    assert Done(sys, w, b);
    assert Covered(w, a, o);
    CoveredFlows(w, a, o);
  }

  /** The answers satisfy all constraints and are part of every solution. */
  ghost predicate Least(sys: System, w: Wave) {
    && Solves(sys, w.pts, w.rep)
    && forall m: PtsMap, v: Key {:trigger Answer(m, NONE, v)} ::
         Solves(sys, m, NONE) ==> Answer(w.pts, w.rep, v) <= Answer(m, NONE, v)
  }

  /** At rest, the answers are the least solution. */
  lemma RestIsLeast(sys: System, w: Wave)
    requires Good(sys, w) && Sound(sys, w) && AtRest(sys, w)
    ensures Least(sys, w)
  {
    RestSolves(sys, w);
    hide Solves, Pts, Good, AtRest;
    forall m: PtsMap, v: Key | Solves(sys, m, NONE) ensures Answer(w.pts, w.rep, v) <= Answer(m, NONE, v) {
      assert Below(sys, w, m);
      assert Pts(w.pts, Rep(w, v)) <= Pts(m, Rep(w, v)) == Pts(m, v);
    }
  }
}
