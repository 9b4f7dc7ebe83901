/** A run of the wave solver that ends without a solution, as it does not queue what it merges. */
module WaveOverlooks {
  import opened DfPoints
  import opened PtData
  import opened WaveDiff
  import opened WaveSteps
  import opened WaveSolve
  import opened WaveOrder
  import opened WaveRounds
  import opened WaveFlow
  import opened WaveLeast
  import S = AndersenWaveDiff
  import G = Graphs

  function Nodes(): set<Key> { {0, 1, 2, 3, 4, 5, 6, 7} }

  /** Node 3 points to 7, 4 to 0, 7 to 5 and 5 to 6. */
  function Addrs(): set<Link> { {Link(7, 3), Link(0, 4), Link(5, 7), Link(6, 5)} }

  function Copies(): set<Link> { {Link(1, 0)} }

  function Loads(): set<Link> { {Link(3, 1), Link(4, 1), Link(0, 2)} }

  function Constraints(): System { System(Addrs(), Copies(), Loads(), {}, {}) }

  /** What the variables have in the least solution. */
  function Solution(): PtsMap {
    map[3 := {7}, 4 := {0}, 7 := {5}, 5 := {6}, 1 := {5}, 0 := {5}, 2 := {6}]
  }

  /** What they have before the first round. */
  function Given(v: Key): set<Key> {
    if v == 3 then {7} else if v == 4 then {0} else if v == 7 then {5} else if v == 5 then {6} else {}
  }

  function Had(v: Key): set<Key> { if v == 0 || v == 1 then {5} else if v == 2 then {6} else Given(v) }

  lemma SolutionHas()
    ensures forall v: Key {:trigger Answer(Solution(), NONE, v)} :: Answer(Solution(), NONE, v) == Had(v)
    ensures forall v: Key {:trigger Pts(Solution(), v)} :: Pts(Solution(), v) == Had(v)
  {}

  lemma SolutionSolves()
    ensures Solves(Constraints(), Solution(), NONE)
    ensures forall v: Key {:trigger Pts(Solution(), v)} :: Pts(Solution(), v) == Had(v)
  {
    hide Answer, Solution, Pts;
    SolutionHas();
  }

  /** A path that is not trivial starts and ends with an edge. */
  lemma FirstAndLast(es: set<Link>, a: Key, b: Key)
    requires Reaches(es, a, b) && a != b
    ensures (exists e :: e in es && e.src == a) && (exists e :: e in es && e.dst == b)
  {
    var p: seq<Key> :| IsPath(es, p) && p[0] == a && p[|p| - 1] == b;
    assert Link(p[0], p[1]) in es && Link(p[|p| - 2], p[|p| - 1]) in es;
  }

  // ------------------------------------------------------------------ before the first round

  ghost predicate AtFirst(w: Wave) {
    && w.copies == Copies() && w.loads == Loads() && w.stores == {}
    && (forall v: Key {:trigger Rep(w, v)} :: Rep(w, v) == v)
    && (forall v: Key {:trigger Pts(w.pts, v)} :: Pts(w.pts, v) == Given(v))
  }

  lemma StartsSo(w: Wave, x: Wave, list: set<Key>)
    requires w == Wave(map[], map[], NONE, NoLoops(Copies()), Loads(), {}, map[]) && S.AddrsTaken(w, x, Addrs())
    requires Queued(w.pts, x.pts, {}, list)
    ensures AtFirst(x) && 3 in list && NonEmptyQueued(x, list)
  {
    StartsQueued(w, x, list);
    assert NoLoops(Copies()) == Copies();
    forall v: Key ensures Rep(w, v) == v && Pts(w.pts, v) == {} {}
    hide Rep, Pts;
    forall v: Key ensures Pts(x.pts, v) == Given(v) {
      forall o: Key ensures o in Pts(x.pts, v) <==> o in Given(v) {
        assert o in Pts(x.pts, v) <==> o in Pts(w.pts, v) || Link(o, v) in Addrs();
      }
    }
    assert 7 in Pts(x.pts, 3);
  }

  lemma StartsQueued(w: Wave, x: Wave, list: set<Key>)
    requires w.pts == map[] && S.AddrsTaken(w, x, Addrs()) && Queued(w.pts, x.pts, {}, list)
    ensures NonEmptyQueued(x, list)
  {
    hide Addrs, Queued, Rep;
    assert NonEmptyQueued(w, {});
    NonEmptyStillQueued(w, x, {}, list);
  }

  /** In the first graph only 1 reaches another node, which is 0. */
  lemma ReachAtFirst(a: Key, b: Key)
    requires Reaches(Copies(), a, b)
    ensures a == b || (a == 1 && b == 0)
  {
    if a != b { FirstAndLast(Copies(), a, b); }
  }

  lemma FirstAdds(w: Wave, list: set<Key>)
    requires AtFirst(w) && 3 in list
    ensures !AddsNone(Constraints(), Nodes(), w, list)
  {
    assert Rep(w, 3) == 3 && Rep(w, 7) == 7 && Rep(w, 1) == 1;
    hide Rep, Pts, Reaches;
    ReachesItself(w, 3);
    assert 7 in Pts(w.pts, 3);
    assert FlowsTo(w, 7, 3) && 7 in FlowPts(Nodes(), w, 3);
    assert CycleQueued(w, list, 3);
    forall a: Key, b: Key | OneCycle(w, a, b) ensures a == b {
      ReachAtFirst(a, b);
      ReachAtFirst(b, a);
    }
    assert !Joined(w, 7, 1);
    assert Link(3, 1) in w.loads && !JoinedFor(Constraints(), w, 3, FlowPts(Nodes(), w, 3));
  }

  lemma ReachesItself(w: Wave, v: Key)
    ensures Reaches(w.copies, v, v) && OneCycle(w, v, v)
  {
    assert IsPath(w.copies, [v]);
  }

  // ------------------------------------------------------------------ after the first round

  /** Object 5 has come to 1, which is on a cycle with 0 now; 0 has nothing yet. */
  ghost predicate AfterFirst(w: Wave) {
    && w.copies == {Link(1, 0), Link(7, 1), Link(0, 1)} && w.loads == Loads() && w.stores == {}
    && (forall v: Key {:trigger Rep(w, v)} :: Rep(w, v) == v)
    && (forall v: Key {:trigger Pts(w.pts, v)} :: Pts(w.pts, v) == if v == 1 then {5} else Given(v))
  }

  lemma ReachAfterFirst(w: Wave, a: Key, b: Key)
    requires AfterFirst(w) && Reaches(w.copies, a, b)
    ensures a == b || ((a == 0 || a == 1 || a == 7) && (b == 0 || b == 1))
  {
    hide Rep, Pts;
    if a != b { FirstAndLast(w.copies, a, b); }
  }

  lemma CycleAfterFirst(w: Wave)
    requires AfterFirst(w)
    ensures OneCycle(w, 0, 1) && OneCycle(w, 1, 0)
  {
    assert IsPath(w.copies, [0, 1]) && IsPath(w.copies, [1, 0]);
  }

  lemma SecondAddsNone(w: Wave)
    requires AfterFirst(w)
    ensures AddsNone(Constraints(), Nodes(), w, {})
  {
    CycleAfterFirst(w);
    hide Rep, Pts, Reaches, JoinedFor;
    forall r: Key | r in Nodes() && IsRep(w, r) ensures FlowPts(Nodes(), w, r) <= CyclePts(Nodes(), w, r) {
      forall o | o in FlowPts(Nodes(), w, r) ensures o in CyclePts(Nodes(), w, r) {
        var u: Key :| IsRep(w, u) && Reaches(w.copies, u, r) && o in Pts(w.pts, u);
        ReachAfterFirst(w, u, r);
        ReachesItself(w, r);
        assert Pts(w.pts, u) == if u == 1 then {5} else Given(u);
        assert Pts(w.pts, 1) == {5} && Rep(w, 1) == 1;
        assert IsRep(w, if u == r then u else 1) && OneCycle(w, if u == r then u else 1, r);
        assert CycleHas(w, r, o);
      }
    }
  }

  lemma SecondHarms(w: Wave)
    requires AfterFirst(w)
    ensures !Harmless(Constraints(), Nodes(), w, {})
  {
    CycleAfterFirst(w);
    ReachesItself(w, 0);
    ReachesItself(w, 5);
    assert Rep(w, 0) == 0 && Rep(w, 1) == 1 && Rep(w, 5) == 5 && Rep(w, 2) == 2;
    assert 5 in Pts(w.pts, 1) && 6 in Pts(w.pts, 5) && Pts(w.pts, 2) == {};
    hide Rep, Pts, Reaches;
    assert CycleHas(w, 0, 5) && 5 in CyclePts(Nodes(), w, 0);
    assert FlowsTo(w, 6, 5) && 6 in FlowPts(Nodes(), w, 5);
    if FlowsTo(w, 6, 2) {
      var u: Key :| IsRep(w, u) && Reaches(w.copies, u, 2) && 6 in Pts(w.pts, u);
      ReachAfterFirst(w, u, 2);
    }
    assert 6 !in FlowPts(Nodes(), w, 2);
    assert Link(0, 2) in w.loads;
    assert !HarmlessFor(Constraints(), Nodes(), w, 0, CyclePts(Nodes(), w, 0));
  }

  // ------------------------------------------------------------------ the first round

  lemma FirstMergesNone(w: Wave, x: Wave)
    requires AtFirst(w) && Cycled(Nodes(), w, x)
    ensures forall v: Key {:trigger Rep(x, v)} :: Rep(x, v) == v
  {
    hide Nodes, Copies, Loads, Given, Pts, Reaches, Rep, Merged, CyclesMerged;
    forall v: Key ensures Rep(x, v) == v {
      if v in Nodes() {
        var r := Rep(x, v);
        RepTwice(x, v);
        CycleIff(Nodes(), w, x, v, r);
        ReachAtFirst(v, r);
        ReachAtFirst(r, v);
      }
    }
  }

  lemma CycledParts(nodes: set<Key>, w: Wave, x: Wave)
    requires Cycled(nodes, w, x)
    ensures EdgesCome(w, x) && AllGo(w, x) && CoverKept(w, x) && PtsCome(w, x)
  {}

  /** When nothing has been merged before and after, merging has changed nothing. */
  lemma MergesNothing(nodes: set<Key>, w: Wave, x: Wave)
    requires Cycled(nodes, w, x) && GraphOk(w)
    requires forall v: Key {:trigger Rep(w, v)} :: Rep(w, v) == v
    requires forall v: Key {:trigger Rep(x, v)} :: Rep(x, v) == v
    ensures x.copies == w.copies && x.loads == w.loads && x.stores == w.stores
    ensures forall v: Key {:trigger Pts(x.pts, v)} :: Pts(x.pts, v) == Pts(w.pts, v)
  {
    CycledParts(nodes, w, x);
    hide Cycled, Pts, Rep, ReachKept;
    ComeUnmerged(x, w.copies, x.copies);
    ComeUnmerged(x, w.loads, x.loads);
    ComeUnmerged(x, w.stores, x.stores);
    GoUnmerged(x, w.loads, x.loads);
    GoUnmerged(x, w.stores, x.stores);
    forall e | e in w.copies ensures e in x.copies {
      assert Rep(w, e.src) == e.src && Rep(w, e.dst) == e.dst && Covered(w, e.src, e.dst);
      assert Rep(x, e.src) == e.src && Rep(x, e.dst) == e.dst && Covered(x, e.src, e.dst);
    }
    hide Come, Go, CoverKept;
    forall v: Key ensures Pts(x.pts, v) == Pts(w.pts, v) {
      assert IsRep(x, v) && IsRep(w, v) && Rep(x, v) == v;
      assert Pts(w.pts, v) <= Pts(x.pts, v);
      forall o: Key | o in Pts(x.pts, v) ensures o in Pts(w.pts, v) {
        assert ComesFrom(w, x, v, o);
        var u: Key :| Rep(x, u) == v && IsRep(w, u) && o in Pts(w.pts, u);
      }
    }
  }

  lemma ComeUnmerged(x: Wave, s: set<Link>, t: set<Link>)
    requires Come(x, s, t) && forall v: Key {:trigger Rep(x, v)} :: Rep(x, v) == v
    ensures t <= s
  {
    hide Rep;
    forall e | e in t ensures e in s {
      var f: Link :| f in s && e == Link(Rep(x, f.src), Rep(x, f.dst));
    }
  }

  lemma GoUnmerged(x: Wave, s: set<Link>, t: set<Link>)
    requires Go(x, s, t) && forall v: Key {:trigger Rep(x, v)} :: Rep(x, v) == v
    ensures s <= t
  {
    hide Rep;
    forall e | e in s ensures e in t { assert Link(Rep(x, e.src), Rep(x, e.dst)) in t; }
  }

  lemma FirstPass(x: Wave, z: Wave)
    requires Passed(x, z) && x.copies == Copies() && forall v: Key {:trigger Pts(x.pts, v)} :: Pts(x.pts, v) == Given(v)
    ensures forall v: Key {:trigger Pts(z.pts, v)} :: Pts(z.pts, v) == Given(v)
  {
    hide Pts, Rep, Reaches, AllSettled;
    forall v: Key ensures Pts(z.pts, v) == Given(v) {
      forall o: Key | o in Pts(z.pts, v) ensures o in Given(v) {
        assert Came(x, v, o);
        var u: Key :| Reaches(x.copies, u, v) && o in Pts(x.pts, u);
        ReachAtFirst(u, v);
      }
      assert Pts(x.pts, v) <= Pts(z.pts, v);
    }
  }

  /** What the first round starts resolving from, and what of it stays. */
  ghost predicate Resolved(z: Wave, y: Wave) {
    && Resolving({}, z, y) && z.copies == Copies() && y.loads == Loads() && y.stores == {}
    && (forall v: Key {:trigger Rep(y, v)} :: Rep(y, v) == v)
    && (forall v: Key {:trigger Pts(z.pts, v)} :: Pts(z.pts, v) == Given(v))
    && (forall v: Key {:trigger Pts(y.pts, v)} :: Pts(y.pts, v) <= Pts(Solution(), v))
  }

  lemma NewEdgeIs(z: Wave, y: Wave, e: Link)
    requires Resolved(z, y) && e in y.copies && e !in z.copies
    ensures e.dst == 1 || e.dst == 2
    ensures exists f: Link, o: Key :: f in Loads() && o in Pts(y.pts, f.src) && e == Link(o, f.dst)
  {
    hide Pts, Rep, Solution, Given;
    assert CalledIn({}, y, e);
    var f: Link, o: Key :| f in y.loads && o in Pts(y.pts, f.src) && o !in {} && e == Link(Rep(y, o), f.dst);
  }

  /** Only 1 and 2 can get anything, and 0 gets nothing, so that 2 gets nothing. */
  lemma FirstNewEdges(z: Wave, y: Wave)
    requires Resolved(z, y)
    ensures forall v: Key {:trigger Pts(y.pts, v)} :: v != 1 ==> Pts(y.pts, v) == Given(v)
    ensures y.copies <= Copies() + {Link(7, 1), Link(0, 1)}
  {
    hide Pts, Rep, Solution;
    forall v: Key | v != 1 && v != 2 ensures Pts(y.pts, v) == Given(v) { StaysGiven(z, y, v); }
    forall e | e in y.copies && e !in Copies() ensures e == Link(7, 1) || e == Link(0, 1) {
      NewEdgeIs(z, y, e);
      var f: Link, o: Key :| f in Loads() && o in Pts(y.pts, f.src) && e == Link(o, f.dst);
      assert Pts(y.pts, f.src) == Given(f.src);
    }
    StaysGiven(z, y, 2);
  }

  lemma StaysGiven(z: Wave, y: Wave, v: Key)
    requires Resolved(z, y)
    requires v == 2 ==> y.copies <= Copies() + {Link(7, 1), Link(0, 1)}
    ensures v != 1 ==> Pts(y.pts, v) == Given(v)
  {
    hide Pts, Rep, Solution;
    assert Pts(z.pts, v) <= Pts(y.pts, v);
    if v != 1 {
      forall o: Key | o in Pts(y.pts, v) ensures o in Given(v) {
        if o !in Pts(z.pts, v) {
          assert NewAt(z, y, v, o);
          var e: Link :| e in y.copies && e !in z.copies && e.dst == v;
          NewEdgeIs(z, y, e);
        }
      }
    }
  }

  lemma FirstRoundEdges(z: Wave, y: Wave)
    requires Resolved(z, y) && AllDone(Constraints(), y)
    ensures Link(7, 1) in y.copies && Link(0, 1) in y.copies
  {
    hide Resolving, Solution;
    assert Rep(y, 3) == 3 && Rep(y, 4) == 4 && Rep(y, 7) == 7 && Rep(y, 1) == 1 && Rep(y, 0) == 0;
    assert Done(Constraints(), y, 3) && Done(Constraints(), y, 4);
    ResolvedGrows(z, y);
    assert 7 in Pts(y.pts, 3) && 0 in Pts(y.pts, 4);
    hide Pts, Rep;
    assert Link(3, 1) in y.loads && Covered(y, 7, 1);
    assert Link(4, 1) in y.loads && Covered(y, 0, 1);
  }

  lemma ResolvedGrows(z: Wave, y: Wave)
    requires Resolved(z, y)
    ensures Given(3) <= Pts(y.pts, 3) && Given(4) <= Pts(y.pts, 4) && z.copies <= y.copies
    ensures Pts(y.propa, 7) == Pts(z.propa, 7) && Rep(z, 7) == 7
  {
    hide Pts, Rep, Given, Solution, GrowsAtNew, NewCalled;
    assert Pts(z.pts, 3) <= Pts(y.pts, 3) && Pts(z.pts, 4) <= Pts(y.pts, 4);
    assert Rep(y, 7) == Rep(z, 7);
  }

  lemma OneGetsFive(z: Wave, y: Wave)
    requires Resolved(z, y) && Link(7, 1) in y.copies && PropaArrived(y) && AllSettled(z)
    ensures Pts(y.pts, 1) == {5}
  {
    ResolvedGrows(z, y);
    SolutionSolves();
    hide Pts, Rep, Solution, Resolving, Solves;
    assert Settled(z, 7);
    assert 5 in Given(7) && Pts(z.pts, 7) == Given(7);
    assert Pts(y.propa, 7) <= Pts(y.pts, 1);
    assert Pts(y.pts, 1) <= Pts(Solution(), 1);
  }

  lemma FirstRoundEnds(z: Wave, y: Wave)
    requires Resolved(z, y) && AllDone(Constraints(), y) && PropaArrived(y) && AllSettled(z)
    ensures AfterFirst(y)
  {
    hide Pts, Rep, Solution, AllDone, Resolving, Given, AllSettled, PropaArrived;
    FirstNewEdges(z, y);
    FirstRoundEdges(z, y);
    ResolvedGrows(z, y);
    OneGetsFive(z, y);
    assert y.copies == {Link(1, 0), Link(7, 1), Link(0, 1)};
  }

  lemma GoodEnd(sys: System, nodes: set<Key>, k: Round)
    requires IsRound(sys, nodes, k)
    ensures RepsOk(k.after) && PropaArrived(k.after) && Sound(sys, k.after) && AllSettled(k.passed) && GraphOk(k.before)
    ensures Resolving(sys.inert, k.passed, k.after) && SameGraph(k.merged, k.passed)
  {}

  lemma FirstRoundIs(w: Wave, k: Round)
    requires AtFirst(w) && IsRound(Constraints(), Nodes(), k) && k.before == w && NonEmptyQueued(w, k.list)
    ensures AfterFirst(k.after)
  {
    hide IsRound, Constraints, AfterFirst, AllDone, PropaArrived, AllSettled, Cycled, RoundOf, Queued, NonEmptyQueued;
    hide QueuedOrDone, Resolved, Sound, RepsOk, Resolving, Passed, GraphOk, Nodes, Copies, Loads, Given, Pts, Rep;
    var x, z, y := k.merged, k.passed, k.after;
    RoundIsRoundOf(Constraints(), Nodes(), k);
    RoundParts(Constraints(), Nodes(), k);
    GoodEnd(Constraints(), Nodes(), k);
    FirstRound(Constraints(), w, x, y, k.list);
    FirstMergesNone(w, x);
    MergesNothing(Nodes(), w, x);
    FirstPass(x, z);
    FirstResolved(x, z, y);
    FirstRoundEnds(z, y);
  }

  lemma FirstResolved(x: Wave, z: Wave, y: Wave)
    requires SameGraph(x, z) && x.copies == Copies() && x.loads == Loads() && x.stores == {}
    requires forall v: Key {:trigger Rep(x, v)} :: Rep(x, v) == v
    requires forall v: Key {:trigger Pts(z.pts, v)} :: Pts(z.pts, v) == Given(v)
    requires Resolving(Constraints().inert, z, y) && Sound(Constraints(), y)
    ensures Resolved(z, y)
  {
    hide Copies, Loads, Given, Pts, Rep, Solution, GrowsAtNew, NewCalled, Solves;
    SolutionSolves();
    assert Below(Constraints(), y, Solution());
    forall v: Key ensures Rep(y, v) == v { assert Rep(z, v) == Rep(x, v) == v; }
  }

  // ------------------------------------------------------------------ the run

  /** Whatever order the solver takes things in: from the state that it is made with, and the address constraints,
      the first round adds edges, and the second adds none and ends with answers that are not a solution. */
  lemma RunsOverlook(w: Wave, k: Round, l: Round)
    requires w == Wave(map[], map[], NONE, NoLoops(Copies()), Loads(), {}, map[])
    requires S.AddrsTaken(w, k.before, Addrs()) && Queued(w.pts, k.before.pts, {}, k.list)
    requires IsRound(Constraints(), Nodes(), k) && IsRound(Constraints(), Nodes(), l)
    requires l.before == k.after && l.list == {}
    ensures k.after.copies != k.passed.copies && l.after.copies == l.passed.copies
    ensures !Solves(Constraints(), l.after.pts, l.after.rep)
  {
    hide AtFirst, AfterFirst, AddsNone, Harmless, Least, Ready, NonEmptyQueued, AtRest, IsRound, Loads, Copies, Addrs;
    hide Nodes, AllDone, Solves, Sound, Constraints;
    StartsSo(w, k.before, k.list);
    FirstAdds(k.before, k.list);
    RoundToldBefore(Constraints(), Nodes(), k);
    FirstRoundIs(k.before, k);
    SecondAddsNone(k.after);
    SecondHarms(k.after);
    RoundToldBefore(Constraints(), Nodes(), l);
    GoodEnd(Constraints(), Nodes(), l);
    if Solves(Constraints(), l.after.pts, l.after.rep) { SolutionIsLeast(Constraints(), l.after); }
  }

  /** The analysis of these constraints, step by step: it ends after two rounds without a solution. */
  method RunOverlooks() returns (a: S.AndersenWaveDiff, reanalyze: bool)
    ensures !reanalyze && a.base == Constraints() && a.worklist.dataSet == {}
    ensures !Solves(a.base, a.ptd.base.ptsMap, a.nodeToRepMap)
  {
    hide AddsNone, Harmless, Least, IsRound, Ready, NonEmptyQueued, Queued, S.AddrsTaken, AtRest, Solves;
    hide S.AndersenWaveDiff.Valid, S.AndersenWaveDiff.CallsOk, AllDone, Loads, Copies, Addrs;
    EdgesFit();
    a := new S.AndersenWaveDiff(Nodes(), Copies(), Loads(), {}, {}, map[]);
    ghost var w := a.View();
    a.ProcessAllAddr(Addrs());
    assert a.sys == Constraints() && a.base == Constraints() by { assert {} + Addrs() == Addrs(); }
    ghost var k, l;
    reanalyze, k := a.Solve();
    var updated := a.UpdateCallGraph();
    assert a.View() == k.after;
    reanalyze, l := a.Solve();
    RunsOverlook(w, k, l);
    ghost var last := a.View();
    updated := a.UpdateCallGraph();
    assert a.View() == last && !updated;
    reanalyze := reanalyze || updated;
  }

  lemma EdgesFit()
    ensures forall e :: e in Copies() || e in Loads() || e in Addrs() ==> e.src in Nodes() && e.dst in Nodes()
    ensures forall n :: n in Nodes() ==> n < G.UINT_MAX
  {}
}
