/** What a round of the wave solver ends with, exactly, in terms of the state before it. */
module WaveLeast {
  import opened DfPoints
  import opened PtData
  import opened WaveDiff
  import opened WaveSteps
  import opened WaveSolve
  import opened WaveOrder
  import opened WaveRounds
  import opened WaveFlow

  /** A round: the state and list before it, after its merging, after its pass, and at its end. */
  datatype Round = Round(before: Wave, list: set<Key>, merged: Wave, passed: Wave, queued: set<Key>, after: Wave)

  /** All that is queued is done. */
  ghost predicate Idle(sys: System, w: Wave, list: set<Key>) {
    forall r: Key {:trigger InList(w, list, r)} {:trigger Done(sys, w, r)} ::
      IsRep(w, r) && InList(w, list, r) ==> Done(sys, w, r)
  }

  /** Cycles are merged, all is passed on, and from there loads and stores of what is queued are resolved until
      nothing is. It adds an edge only for what was queued and not done. */
  ghost predicate IsRound(sys: System, nodes: set<Key>, k: Round) {
    && Cycled(nodes, k.before, k.merged) && Passed(k.merged, k.passed) && Good(sys, k.passed) && Within(nodes, k.passed)
    && Queued(k.merged.pts, k.passed.pts, k.list, k.queued) && Resolving(sys.inert, k.passed, k.after)
    && Good(sys, k.after) && Sound(sys, k.after) && Within(nodes, k.after)
    && (forall r: Key {:trigger Done(sys, k.after, r)} ::
          IsRep(k.after, r) ==> Done(sys, k.after, r) || Overlooked(sys, k.passed, k.queued, r))
    && (k.after.copies != k.passed.copies ==> !Idle(sys, k.passed, k.queued))
    && OnlyWoken(sys.inert, k.passed, k.queued, k.after)
  }

  // ------------------------------------------------------------------ whether it adds an edge

  /** Loads and stores of every cycle that is queued or gets more have their edges for all that the cycle gets. */
  ghost predicate AddsNone(sys: System, nodes: set<Key>, w: Wave, list: set<Key>) {
    forall r: Key {:trigger FlowPts(nodes, w, r)} :: r in nodes && IsRep(w, r) ==>
      (CycleQueued(w, list, r) || !(FlowPts(nodes, w, r) <= CyclePts(nodes, w, r))) ==>
        JoinedFor(sys, w, r, FlowPts(nodes, w, r))
  }

  lemma InListAfterPass(x: Wave, z: Wave, list: set<Key>, queued: set<Key>, r: Key)
    requires GraphOk(x) && Passed(x, z) && Queued(x.pts, z.pts, list, queued) && IsRep(x, r)
    ensures InList(z, queued, r) <==> InList(x, list, r) || !(Pts(z.pts, r) <= Pts(x.pts, r))
  {
    hide Pts, Rep, AllSettled, Reaches;
    if v: Key :| v in list && Rep(x, v) == r { assert v in queued && Rep(z, v) == r; }
    if !(Pts(z.pts, r) <= Pts(x.pts, r)) { assert r in queued && Rep(z, r) == r; }
    if InList(z, queued, r) && !InList(x, list, r) {
      var v: Key :| v in queued && Rep(z, v) == r;
      assert Rep(x, v) == r && v !in list;
      GrownIsRep(x, z, v);
    }
  }

  /** Only representatives get more. */
  lemma GrownIsRep(x: Wave, z: Wave, v: Key)
    requires GraphOk(x) && PtsFlow(x, z) && !(Pts(z.pts, v) <= Pts(x.pts, v))
    ensures IsRep(x, v)
  {
    hide Pts, Rep;
    var o :| o in Pts(z.pts, v) && o !in Pts(x.pts, v);
    assert Came(x, v, o);
    var u: Key :| Reaches(x.copies, u, v) && o in Pts(x.pts, u);
    var p: seq<Key> :| IsPath(x.copies, p) && p[0] == u && p[|p| - 1] == v;
    if |p| > 1 { assert Link(p[|p| - 2], p[|p| - 1]) in x.copies; }
  }

  lemma DoneForSame(sys: System, x: Wave, z: Wave, r: Key, os: set<Key>)
    requires SameGraph(x, z)
    ensures DoneFor(sys, z, r, os) <==> DoneFor(sys, x, r, os)
  {
    forall a: Key, b: Key ensures Covered(z, a, b) <==> Covered(x, a, b) {
      hide Rep;
      assert Rep(z, a) == Rep(x, a) && Rep(z, b) == Rep(x, b);
    }
    hide Covered, Rep;
  }

  lemma FlowDoneIff(sys: System, nodes: set<Key>, w: Wave, x: Wave, z: Wave, r: Key)
    requires Cycled(nodes, w, x) && Passed(x, z) && PropaArrived(z) && Within(nodes, z) && IsRep(w, r) && r in nodes
    ensures JoinedFor(sys, w, r, FlowPts(nodes, w, r)) <==> Done(sys, z, Rep(x, r))
  {
    hide Cycled, Rep, Pts, Within, PropaArrived, JoinedFor, Done, DoneFor, AllSettled, PtsFlow;
    FlowPtsAre(nodes, w, x, z, r);
    PtsWithin(nodes, z, Rep(x, r));
    JoinedForIff(sys, nodes, w, x, r, FlowPts(nodes, w, r));
    DoneForSame(sys, x, z, Rep(x, r), FlowPts(nodes, w, r));
    DoneIsFor(sys, z, Rep(x, r));
  }

  lemma IdleIff(sys: System, nodes: set<Key>, k: Round)
    requires IsRound(sys, nodes, k)
    ensures Idle(sys, k.passed, k.queued) <==> AddsNone(sys, nodes, k.before, k.list)
  {
    var w, x, z := k.before, k.merged, k.passed;
    assert PropaArrived(z) && GraphOk(x);
    AfterMerging(nodes, w, x);
    hide Rep, Pts, Cycled, Good, Sound, Within, Passed, Queued, Resolving, PropaArrived, Done, InList, JoinedFor;
    hide CycleQueued, FlowPts, CyclePts, GraphOk;
    forall r: Key | r in nodes && IsRep(w, r)
      ensures JoinedFor(sys, w, r, FlowPts(nodes, w, r)) <==> Done(sys, z, Rep(x, r))
      ensures (CycleQueued(w, k.list, r) || !(FlowPts(nodes, w, r) <= CyclePts(nodes, w, r))) <==>
                InList(z, k.queued, Rep(x, r))
    {
      FlowDoneIff(sys, nodes, w, x, z, r);
      QueuedIff(nodes, w, x, k.list, r);
      FlowPtsAre(nodes, w, x, z, r);
      CyclePtsAre(nodes, w, x, r);
      InListAfterPass(x, z, k.list, k.queued, Rep(x, r));
    }
    forall v: Key ensures Rep(z, v) == Rep(x, v) { PassedReps(x, z, v); }
    forall r: Key | IsRep(z, r) && r !in nodes ensures Done(sys, z, r) { DoneOutside(sys, nodes, z, r); }
    if AddsNone(sys, nodes, w, k.list) {
      forall r: Key | IsRep(z, r) && InList(z, k.queued, r) ensures Done(sys, z, r) {
        if r in nodes { assert FlowPts(nodes, w, r) == FlowPts(nodes, w, r); }
      }
    }
  }

  lemma PassedReps(x: Wave, z: Wave, v: Key)
    requires Passed(x, z)
    ensures Rep(z, v) == Rep(x, v)
  {}

  /** A round adds no edge exactly if no load or store that it resolves calls for one. */
  lemma AddsNoneIff(sys: System, nodes: set<Key>, k: Round)
    requires IsRound(sys, nodes, k)
    ensures k.after.copies == k.passed.copies <==> AddsNone(sys, nodes, k.before, k.list)
  {
    IdleIff(sys, nodes, k);
    hide Pts, Cycled, Good, Sound, Within, Passed, Queued, Done, InList, AddsNone;
    if k.after.copies == k.passed.copies {
      forall r: Key | IsRep(k.passed, r) && InList(k.passed, k.queued, r) ensures Done(sys, k.passed, r) {
        ResolvedReps(sys.inert, k.passed, k.after, r);
        assert Done(sys, k.after, r);
        hide Resolving;
        DoneAtFirst(sys, k.passed, k.after, r);
      }
    }
  }

  lemma ResolvedReps(inert: set<Key>, z: Wave, y: Wave, v: Key)
    requires Resolving(inert, z, y)
    ensures Rep(y, v) == Rep(z, v)
  {}

  lemma DoneAtFirst(sys: System, z: Wave, y: Wave, r: Key)
    requires Resolving(sys.inert, z, y) && y.copies == z.copies && Done(sys, y, r)
    ensures Done(sys, z, r)
  {
    assert Pts(z.pts, r) <= Pts(y.pts, r);
    hide Pts, Done;
    DoneBack(sys, z, y, r);
  }

  // ------------------------------------------------------------------ whether it ends at rest

  lemma RestIff(sys: System, nodes: set<Key>, k: Round)
    requires IsRound(sys, nodes, k) && k.after.copies == k.passed.copies
    ensures AtRest(sys, k.after) <==> Ready(sys, nodes, k.before, k.list)
  {
    var x, z, y := k.merged, k.passed, k.after;
    ReadyIff(sys, nodes, k.before, x, k.list);
    SettledStays(sys.inert, z, y);
    hide Pts, Cycled, Good, Sound, Within, Queued, Done, InList, Ready, Rep, AllSettled;
    forall r: Key ensures IsRep(y, r) <==> IsRep(x, r) {
      PassedReps(x, z, r);
      ResolvedReps(sys.inert, z, y, r);
    }
    hide Resolving, Passed;
    if AtRest(sys, y) {
      forall r: Key | IsRep(x, r) ensures Done(sys, x, r) {
        assert Done(sys, y, r);
        DoneAtFirst(sys, z, y, r);
        DoneBeforePass(sys, x, z, r);
      }
    }
    if QueuedOrDone(sys, x, k.list) {
      forall r: Key | IsRep(y, r) ensures Done(sys, y, r) {
        assert IsRep(x, r);
        NotOverlooked(sys, x, z, k.list, k.queued, r);
      }
    }
  }

  lemma DoneBeforePass(sys: System, x: Wave, z: Wave, r: Key)
    requires Passed(x, z) && Done(sys, z, r)
    ensures Done(sys, x, r)
  {
    assert Pts(x.pts, r) <= Pts(z.pts, r);
    hide Pts, Done;
    DoneBack(sys, x, z, r);
  }

  lemma NotOverlooked(sys: System, x: Wave, z: Wave, list: set<Key>, queued: set<Key>, r: Key)
    requires Passed(x, z) && Queued(x.pts, z.pts, list, queued) && IsRep(x, r)
    ensures Overlooked(sys, z, queued, r) ==> Overlooked(sys, x, list, r)
  {
    PassedReps(x, z, r);
    hide Rep;
    StaysTracked(sys, x, z, list, queued, r);
  }

  /** With every cycle queued or done, a round leaves every node done. */
  lemma ReadyIsDone(sys: System, nodes: set<Key>, k: Round)
    requires IsRound(sys, nodes, k) && Ready(sys, nodes, k.before, k.list)
    ensures AllDone(sys, k.after)
  {
    var x, z, y := k.merged, k.passed, k.after;
    ReadyIff(sys, nodes, k.before, x, k.list);
    hide Pts, Cycled, Good, Sound, Within, Queued, Done, InList, Ready, Rep;
    forall r: Key | IsRep(y, r) ensures Done(sys, y, r) {
      PassedReps(x, z, r);
      ResolvedReps(sys.inert, z, y, r);
      assert IsRep(x, r);
      NotOverlooked(sys, x, z, k.list, k.queued, r);
    }
  }

  // ------------------------------------------------------------------ whether it ends with the least solution

  /** The loads and stores of the graph hold, whether they have their edges or not. */
  ghost predicate GraphSolved(sys: System, y: Wave) {
    && (forall e: Link, o: Key {:trigger e in y.loads, Rep(y, o)} ::
          e in y.loads && o in Pts(y.pts, e.src) && o !in sys.inert ==> Pts(y.pts, Rep(y, o)) <= Pts(y.pts, e.dst))
    && (forall e: Link, o: Key {:trigger e in y.stores, Rep(y, o)} ::
          e in y.stores && o in Pts(y.pts, e.dst) && o !in sys.inert ==> Pts(y.pts, e.src) <= Pts(y.pts, Rep(y, o)))
  }

  lemma SolvedIsLeast(sys: System, y: Wave)
    requires Good(sys, y) && Sound(sys, y) && AllSettled(y) && GraphSolved(sys, y)
    ensures Least(sys, y)
  {
    assert AddrsHold(sys, y.pts, y.rep);
    hide Pts, Rep, AllSettled, PropaArrived, Covered, Below;
    forall e: Link | e in sys.copies ensures Answer(y.pts, y.rep, e.src) <= Answer(y.pts, y.rep, e.dst) {
      CoveredFlows(y, e.src, e.dst);
    }
    forall v: Key ensures Answer(y.pts, y.rep, v) == Pts(y.pts, Rep(y, v)) { AnswerIs(y, v); }
    forall e: Link, o: Key | e in sys.loads && o in Answer(y.pts, y.rep, e.src) && o !in sys.inert
      ensures Answer(y.pts, y.rep, o) <= Answer(y.pts, y.rep, e.dst)
    {
      assert Link(Rep(y, e.src), Rep(y, e.dst)) in y.loads;
    }
    forall e: Link, o: Key | e in sys.stores && o in Answer(y.pts, y.rep, e.dst) && o !in sys.inert
      ensures Answer(y.pts, y.rep, e.src) <= Answer(y.pts, y.rep, o)
    {
      assert Link(Rep(y, e.src), Rep(y, e.dst)) in y.stores;
    }
    hide Good, GraphSolved;
    SolutionIsLeast(sys, y);
  }

  lemma AnswerIs(y: Wave, v: Key)
    ensures Answer(y.pts, y.rep, v) == Pts(y.pts, Rep(y, v))
  {}

  /** As the solver is below every solution, a solution is the least. */
  lemma SolutionIsLeast(sys: System, y: Wave)
    requires Sound(sys, y) && Solves(sys, y.pts, y.rep)
    ensures Least(sys, y)
  {
    hide Solves, Pts;
    forall m: PtsMap, v: Key | Solves(sys, m, NONE) ensures Answer(y.pts, y.rep, v) <= Answer(m, NONE, v) {
      assert Below(sys, y, m);
      assert Pts(y.pts, Rep(y, v)) <= Pts(m, Rep(y, v)) == Pts(m, v);
    }
  }

  /** The answers, variable by variable. */
  ghost function Answers(nodes: set<Key>, y: Wave): PtsMap { map v | v in nodes :: Pts(y.pts, Rep(y, v)) }

  lemma AnswersAre(nodes: set<Key>, y: Wave)
    requires Within(nodes, y)
    ensures forall v: Key {:trigger Pts(Answers(nodes, y), v)} :: Pts(Answers(nodes, y), v) == Pts(y.pts, Rep(y, v))
    ensures forall v: Key {:trigger Answer(Answers(nodes, y), NONE, v)} ::
              Answer(Answers(nodes, y), NONE, v) == Answer(y.pts, y.rep, v)
  {
    forall v: Key ensures Pts(Answers(nodes, y), v) == Pts(y.pts, Rep(y, v)) {
      hide Rep;
      if v !in nodes { assert Rep(y, v) == v && Pts(y.pts, v) == {}; }
    }
    forall v: Key ensures Answer(Answers(nodes, y), NONE, v) == Answer(y.pts, y.rep, v) {
      assert Pts(Answers(nodes, y), v) == Pts(y.pts, Rep(y, v));
    }
  }

  lemma AnswersSolve(sys: System, nodes: set<Key>, y: Wave)
    requires Within(nodes, y) && Solves(sys, y.pts, y.rep)
    ensures Solves(sys, Answers(nodes, y), NONE)
  {
    AnswersAre(nodes, y);
    hide Answer, Answers, Pts, Rep;
  }

  lemma LeastIsSolved(sys: System, nodes: set<Key>, y: Wave)
    requires Good(sys, y) && Sound(sys, y) && Within(nodes, y) && Least(sys, y)
    ensures GraphSolved(sys, y)
  {
    var m := Answers(nodes, y);
    AnswersSolve(sys, nodes, y);
    AnswersAre(nodes, y);
    assert Below(sys, y, m);
    hide Answers, Pts, Rep, Solves, Sound, Within, Least;
    forall e: Link, o: Key | e in y.loads && o in Pts(y.pts, e.src) && o !in sys.inert
      ensures Pts(y.pts, Rep(y, o)) <= Pts(y.pts, e.dst)
    {
      assert IsRep(y, e.src) && IsRep(y, e.dst);
      assert o in Pts(m, e.src);
      assert Pts(m, o) <= Pts(m, e.dst);
    }
    forall e: Link, o: Key | e in y.stores && o in Pts(y.pts, e.dst) && o !in sys.inert
      ensures Pts(y.pts, e.src) <= Pts(y.pts, Rep(y, o))
    {
      assert IsRep(y, e.src) && IsRep(y, e.dst);
      assert o in Pts(m, e.dst);
      assert Pts(m, e.src) <= Pts(m, o);
    }
  }

  /** Through the cycle of r, what flows to the one end of every edge that is called for flows to the other. */
  ghost predicate HarmlessFor(sys: System, nodes: set<Key>, w: Wave, r: Key, os: set<Key>) {
    && (forall e: Link, o: Key {:trigger e in w.loads, Rep(w, o)} ::
          e in w.loads && OneCycle(w, e.src, r) && o in os && o !in sys.inert ==>
            FlowPts(nodes, w, Rep(w, o)) <= FlowPts(nodes, w, e.dst))
    && (forall e: Link, o: Key {:trigger e in w.stores, Rep(w, o)} ::
          e in w.stores && OneCycle(w, e.dst, r) && o in os && o !in sys.inert ==>
            FlowPts(nodes, w, e.src) <= FlowPts(nodes, w, Rep(w, o)))
  }

  /** Of every cycle some node is queued, or the edges that it calls for would bring nothing. */
  ghost predicate Harmless(sys: System, nodes: set<Key>, w: Wave, list: set<Key>) {
    forall r: Key {:trigger CyclePts(nodes, w, r)} :: r in nodes && IsRep(w, r) ==>
      CycleQueued(w, list, r) || HarmlessFor(sys, nodes, w, r, CyclePts(nodes, w, r))
  }

  lemma FlowPtsEnd(sys: System, nodes: set<Key>, k: Round, v: Key)
    requires IsRound(sys, nodes, k) && k.after.copies == k.passed.copies && v in nodes
    ensures FlowPts(nodes, k.before, Rep(k.before, v)) == Pts(k.after.pts, Rep(k.after, v))
  {
    var w := k.before;
    NoNewSamePts(k.passed, k.after);
    PassedReps(k.merged, k.passed, v);
    ResolvedReps(sys.inert, k.passed, k.after, v);
    SameRepAfter(w, k.merged, v);
    assert IsRep(w, Rep(w, v)) && Rep(w, v) in nodes;
    hide Cycled, Passed, PropaArrived, Within, Pts, Rep, Resolving, FlowPts, Queued, Sound;
    FlowPtsAre(nodes, w, k.merged, k.passed, Rep(w, v));
    assert Pts(k.after.pts, Rep(k.after, v)) == Pts(k.passed.pts, Rep(k.after, v));
  }

  lemma SolvedIsHarmless(sys: System, nodes: set<Key>, k: Round)
    requires IsRound(sys, nodes, k) && k.after.copies == k.passed.copies && GraphSolved(sys, k.after)
    ensures Harmless(sys, nodes, k.before, k.list)
  {
    hide IsRound, CycleQueued, HarmlessFor, CyclePts, GraphSolved, Rep;
    forall r: Key | r in nodes && IsRep(k.before, r)
      ensures HarmlessFor(sys, nodes, k.before, r, CyclePts(nodes, k.before, r))
    {
      SolvedThrough(sys, nodes, k, r);
    }
  }

  lemma EdgesBefore(sys: System, nodes: set<Key>, k: Round)
    requires IsRound(sys, nodes, k)
    ensures forall e: Link :: e in k.before.loads || e in k.before.stores ==>
        && e.src in nodes && e.dst in nodes
        && Rep(k.before, e.src) == e.src && Rep(k.before, e.dst) == e.dst
  {
    var w := k.before;
    assert GraphOk(w) && Within(nodes, w);
    hide IsRound, Rep, Pts;
  }

  lemma GoSame(x: Wave, y: Wave, s: set<Link>, t: set<Link>)
    requires SameReps(x, y)
    ensures Go(x, s, t) ==> Go(y, s, t)
    ensures Come(x, s, t) ==> Come(y, s, t)
  {
    hide Rep;
  }

  /** The graph of a round that adds no edge, seen from the graph before. */
  lemma EdgesEnd(sys: System, nodes: set<Key>, k: Round)
    requires IsRound(sys, nodes, k)
    ensures Go(k.after, k.before.loads, k.after.loads) && Go(k.after, k.before.stores, k.after.stores)
    ensures Come(k.after, k.before.loads, k.after.loads) && Come(k.after, k.before.stores, k.after.stores)
  {
    var w, x, y := k.before, k.merged, k.after;
    assert AllGo(w, x) && EdgesCome(w, x) by { assert Cycled(nodes, w, x); }
    assert y.loads == x.loads && y.stores == x.stores;
    assert SameReps(x, y) by {
      forall v: Key ensures Rep(y, v) == Rep(x, v) {
        PassedReps(x, k.passed, v);
        ResolvedReps(sys.inert, k.passed, y, v);
      }
    }
    hide IsRound, Go, Come, Rep, SameReps, PtsGo;
    GoSame(x, y, w.loads, x.loads);
    GoSame(x, y, w.stores, x.stores);
  }

  lemma CycleEnd(sys: System, nodes: set<Key>, k: Round, a: Key, r: Key)
    requires IsRound(sys, nodes, k) && r in nodes && IsRep(k.before, a) && IsRep(k.before, r)
    ensures OneCycle(k.before, a, r) <==> Rep(k.after, a) == Rep(k.after, r)
  {
    PassedReps(k.merged, k.passed, a);
    ResolvedReps(sys.inert, k.passed, k.after, a);
    PassedReps(k.merged, k.passed, r);
    ResolvedReps(sys.inert, k.passed, k.after, r);
    hide Cycled, Passed, Rep, Resolving, OneCycle;
    CycleIff(nodes, k.before, k.merged, a, r);
  }

  lemma CyclePtsEnd(sys: System, nodes: set<Key>, k: Round, r: Key)
    requires IsRound(sys, nodes, k) && r in nodes && IsRep(k.before, r)
    ensures CyclePts(nodes, k.before, r) == Pts(k.merged.pts, Rep(k.after, r))
    ensures CyclePts(nodes, k.before, r) <= nodes
    ensures CyclePts(nodes, k.before, r) <= Pts(k.after.pts, Rep(k.after, r))
  {
    PassedReps(k.merged, k.passed, r);
    ResolvedReps(sys.inert, k.passed, k.after, r);
    var q := Rep(k.after, r);
    assert Pts(k.merged.pts, q) <= Pts(k.passed.pts, q) <= Pts(k.after.pts, q);
    hide Cycled, Passed, Rep, Resolving, Pts;
    CyclePtsAre(nodes, k.before, k.merged, r);
  }

  lemma SolvedThrough(sys: System, nodes: set<Key>, k: Round, r: Key)
    requires IsRound(sys, nodes, k) && k.after.copies == k.passed.copies && GraphSolved(sys, k.after)
    requires r in nodes && IsRep(k.before, r)
    ensures HarmlessFor(sys, nodes, k.before, r, CyclePts(nodes, k.before, r))
  {
    var w, y := k.before, k.after;
    var os := CyclePts(nodes, w, r);
    hide IsRound, OneCycle, Rep, Pts, CyclePts, FlowPts;
    CyclePtsEnd(sys, nodes, k, r);
    EdgesEnd(sys, nodes, k);
    EdgesBefore(sys, nodes, k);
    forall e: Link, o: Key | e in w.loads && OneCycle(w, e.src, r) && o in os && o !in sys.inert
      ensures FlowPts(nodes, w, Rep(w, o)) <= FlowPts(nodes, w, e.dst)
    {
      CycleEnd(sys, nodes, k, e.src, r);
      FlowPtsEnd(sys, nodes, k, o);
      FlowPtsEnd(sys, nodes, k, e.dst);
      assert Link(Rep(y, e.src), Rep(y, e.dst)) in y.loads;
    }
    forall e: Link, o: Key | e in w.stores && OneCycle(w, e.dst, r) && o in os && o !in sys.inert
      ensures FlowPts(nodes, w, e.src) <= FlowPts(nodes, w, Rep(w, o))
    {
      CycleEnd(sys, nodes, k, e.dst, r);
      FlowPtsEnd(sys, nodes, k, o);
      FlowPtsEnd(sys, nodes, k, e.src);
      assert Link(Rep(y, e.src), Rep(y, e.dst)) in y.stores;
    }
  }

  lemma HarmlessIsSolved(sys: System, nodes: set<Key>, k: Round)
    requires IsRound(sys, nodes, k) && k.after.copies == k.passed.copies && Harmless(sys, nodes, k.before, k.list)
    ensures GraphSolved(sys, k.after)
  {
    var y := k.after;
    hide IsRound, Rep, Pts, Harmless;
    forall e: Link, o: Key | e in y.loads && o in Pts(y.pts, e.src) && o !in sys.inert
      ensures Pts(y.pts, Rep(y, o)) <= Pts(y.pts, e.dst)
    {
      LoadSolved(sys, nodes, k, e, o);
    }
    forall e: Link, o: Key | e in y.stores && o in Pts(y.pts, e.dst) && o !in sys.inert
      ensures Pts(y.pts, e.src) <= Pts(y.pts, Rep(y, o))
    {
      StoreSolved(sys, nodes, k, e, o);
    }
  }

  lemma OverlookedAtEnd(sys: System, nodes: set<Key>, k: Round, r: Key)
    requires IsRound(sys, nodes, k) && k.after.copies == k.passed.copies && IsRep(k.after, r) && r in nodes
    requires !Done(sys, k.after, r)
    ensures IsRep(k.before, r) && IsRep(k.merged, r) && !InList(k.passed, k.queued, r)
    ensures Pts(k.after.pts, r) == Pts(k.passed.pts, r)
  {
    NoNewSamePts(k.passed, k.after);
    PassedReps(k.merged, k.passed, r);
    ResolvedReps(sys.inert, k.passed, k.after, r);
    assert Overlooked(sys, k.passed, k.queued, r);
    hide Pts, Rep, Cycled, Passed, Queued, Resolving, Done, InList, Good, Sound, Within;
    AfterMerging(nodes, k.before, k.merged);
  }

  lemma RoundParts(sys: System, nodes: set<Key>, k: Round)
    requires IsRound(sys, nodes, k)
    ensures Cycled(nodes, k.before, k.merged) && Passed(k.merged, k.passed) && GraphOk(k.merged)
    ensures Queued(k.merged.pts, k.passed.pts, k.list, k.queued) && PtsGrown(k.merged, k.passed)
  {}

  /** What was not resolved is not queued, and has what its cycle had. */
  lemma UndoneAtEnd(sys: System, nodes: set<Key>, k: Round, r: Key)
    requires IsRound(sys, nodes, k) && k.after.copies == k.passed.copies && IsRep(k.after, r) && r in nodes
    requires !Done(sys, k.after, r)
    ensures IsRep(k.before, r) && !CycleQueued(k.before, k.list, r)
    ensures CyclePts(nodes, k.before, r) == Pts(k.after.pts, r)
  {
    hide IsRound, Cycled, Passed, Queued, GraphOk, Pts, InList, CycleQueued, CyclePts, Rep, Done;
    OverlookedAtEnd(sys, nodes, k, r);
    RoundParts(sys, nodes, k);
    InListAfterPass(k.merged, k.passed, k.list, k.queued, r);
    QueuedIff(nodes, k.before, k.merged, k.list, r);
    CyclePtsEnd(sys, nodes, k, r);
    assert Pts(k.merged.pts, r) <= Pts(k.passed.pts, r);
  }

  lemma CoveredEnd(sys: System, nodes: set<Key>, k: Round, a: Key, b: Key)
    requires IsRound(sys, nodes, k) && k.after.copies == k.passed.copies && Covered(k.after, a, b)
    ensures Pts(k.after.pts, Rep(k.after, a)) <= Pts(k.after.pts, Rep(k.after, b))
  {
    SettledStays(sys.inert, k.passed, k.after);
    AnswerIs(k.after, a);
    AnswerIs(k.after, b);
    hide Pts, Rep, Answer, Cycled, Passed, Resolving;
    CoveredFlows(k.after, a, b);
  }

  lemma EndsAfter(sys: System, nodes: set<Key>, k: Round)
    requires IsRound(sys, nodes, k)
    ensures forall e: Link :: e in k.after.loads || e in k.after.stores ==>
        && e.src in nodes && e.dst in nodes && Rep(k.after, e.src) == e.src && Rep(k.after, e.dst) == e.dst
    ensures forall v: Key :: Pts(k.after.pts, v) <= nodes
  {
    var y := k.after;
    assert GraphOk(y) && Within(nodes, y);
    hide IsRound, Rep, Pts;
  }

  lemma LoadSolved(sys: System, nodes: set<Key>, k: Round, e: Link, o: Key)
    requires IsRound(sys, nodes, k) && k.after.copies == k.passed.copies && Harmless(sys, nodes, k.before, k.list)
    requires e in k.after.loads && o in Pts(k.after.pts, e.src) && o !in sys.inert
    ensures Pts(k.after.pts, Rep(k.after, o)) <= Pts(k.after.pts, e.dst)
  {
    var w, y := k.before, k.after;
    hide IsRound, Rep, Pts, CyclePts, FlowPts, CycleQueued, OneCycle, Covered, Done;
    EndsAfter(sys, nodes, k);
    assert o in nodes;
    if Done(sys, y, e.src) {
      assert Covered(y, o, e.dst) by { DoneCovers(sys, y, e, o); }
      CoveredEnd(sys, nodes, k, o, e.dst);
    } else {
      UndoneAtEnd(sys, nodes, k, e.src);
      EdgesEnd(sys, nodes, k);
      EdgesBefore(sys, nodes, k);
      var f: Link :| f in w.loads && e == Link(Rep(y, f.src), Rep(y, f.dst));
      CycleEnd(sys, nodes, k, f.src, e.src);
      FlowPtsEnd(sys, nodes, k, o);
      FlowPtsEnd(sys, nodes, k, f.dst);
      assert HarmlessFor(sys, nodes, w, e.src, CyclePts(nodes, w, e.src));
    }
  }

  lemma DoneCovers(sys: System, y: Wave, e: Link, o: Key)
    requires o !in sys.inert
    ensures Done(sys, y, e.src) && e in y.loads && o in Pts(y.pts, e.src) ==> Covered(y, o, e.dst)
    ensures Done(sys, y, e.dst) && e in y.stores && o in Pts(y.pts, e.dst) ==> Covered(y, e.src, o)
  {}

  lemma StoreSolved(sys: System, nodes: set<Key>, k: Round, e: Link, o: Key)
    requires IsRound(sys, nodes, k) && k.after.copies == k.passed.copies && Harmless(sys, nodes, k.before, k.list)
    requires e in k.after.stores && o in Pts(k.after.pts, e.dst) && o !in sys.inert
    ensures Pts(k.after.pts, e.src) <= Pts(k.after.pts, Rep(k.after, o))
  {
    var w, y := k.before, k.after;
    hide IsRound, Rep, Pts, CyclePts, FlowPts, CycleQueued, OneCycle, Covered, Done;
    EndsAfter(sys, nodes, k);
    assert o in nodes;
    if Done(sys, y, e.dst) {
      assert Covered(y, e.src, o) by { DoneCovers(sys, y, e, o); }
      CoveredEnd(sys, nodes, k, e.src, o);
    } else {
      UndoneAtEnd(sys, nodes, k, e.dst);
      EdgesEnd(sys, nodes, k);
      EdgesBefore(sys, nodes, k);
      var f: Link :| f in w.stores && e == Link(Rep(y, f.src), Rep(y, f.dst));
      CycleEnd(sys, nodes, k, f.dst, e.dst);
      FlowPtsEnd(sys, nodes, k, o);
      FlowPtsEnd(sys, nodes, k, f.src);
      assert HarmlessFor(sys, nodes, w, e.dst, CyclePts(nodes, w, e.dst));
    }
  }

  /** A round that adds no edge ends with the least solution exactly if all that it overlooks is harmless. */
  lemma LeastIff(sys: System, nodes: set<Key>, k: Round)
    requires IsRound(sys, nodes, k) && k.after.copies == k.passed.copies
    ensures Least(sys, k.after) <==> Harmless(sys, nodes, k.before, k.list)
  {
    SettledStays(sys.inert, k.passed, k.after);
    hide Cycled, Passed, Queued, Resolving, Done, Overlooked, Idle, Good, Sound, Within, GraphSolved, Harmless, Least;
    hide AllSettled, OnlyCopiesGrow;
    if Least(sys, k.after) {
      LeastIsSolved(sys, nodes, k.after);
      SolvedIsHarmless(sys, nodes, k);
    }
    if Harmless(sys, nodes, k.before, k.list) {
      HarmlessIsSolved(sys, nodes, k);
      SolvedIsLeast(sys, k.after);
    }
  }

  // ------------------------------------------------------------------ about the loop of a round

  lemma StartCycled(sys: System, nodes: set<Key>, w: Wave, x: Wave)
    requires Good(sys, w) && Good(sys, x) && Within(nodes, w) && Within(nodes, x)
    requires Merged(w, x) && CyclesMerged(nodes, w, x)
    ensures Cycled(nodes, w, x)
  {}

  /** The first edge is added for something that was queued and not done. */
  lemma TurnAdds(sys: System, z: Wave, x: Wave, list: set<Key>, v: Key)
    requires Resolving(sys.inert, z, x) && x.copies == z.copies && RepsOk(z)
    requires v in list && !Done(sys, x, Rep(x, v))
    ensures !Idle(sys, z, list)
  {
    ResolvedReps(sys.inert, z, x, v);
    StillUndone(sys, z, x, Rep(x, v));
    assert IsRep(z, Rep(z, v));
    hide Done, Rep, Resolving;
    assert InList(z, list, Rep(z, v));
  }

  lemma NoneQueued(inert: set<Key>, x: Wave, y: Wave, s: set<Key>, t: set<Key>)
    requires Resolving(inert, x, y) && Queued(x.pts, y.pts, s, t) && y.copies == x.copies
    ensures t <= s
  {
    NoNewSamePts(x, y);
    hide Pts;
    forall v | v in t ensures v in s { assert Pts(y.pts, v) == Pts(x.pts, v); }
  }

  lemma RoundIsRoundOf(sys: System, nodes: set<Key>, k: Round)
    requires IsRound(sys, nodes, k)
    ensures RoundOf(sys, k.before, k.merged, k.after, k.list) && k.passed.copies == k.merged.copies
  {
    var x, z, y := k.merged, k.passed, k.after;
    if y.copies == x.copies { SettledStays(sys.inert, z, y); }
    assert Merged(k.before, x) by { assert Cycled(nodes, k.before, x); }
    assert Grows(x.pts, z.pts) && Grows(z.pts, y.pts) && SameReps(x, z) && SameReps(z, y);
    forall v: Key ensures Rep(y, v) == Rep(x, v) { assert Rep(z, v) == Rep(x, v); }
    forall v: Key ensures Pts(x.pts, v) <= Pts(y.pts, v) { assert Pts(x.pts, v) <= Pts(z.pts, v) <= Pts(y.pts, v); }
    hide Pts, Rep, Cycled, Good, Sound, Within, Queued, Done, InList, AllSettled, Merged;
    forall r: Key | IsRep(y, r) ensures Done(sys, y, r) || Overlooked(sys, x, k.list, r) {
      assert IsRep(x, r);
      NotOverlooked(sys, x, z, k.list, k.queued, r);
    }
  }

  /** All that can be told of a round beforehand. */
  lemma RoundToldBefore(sys: System, nodes: set<Key>, k: Round)
    requires IsRound(sys, nodes, k)
    ensures k.after.copies == k.passed.copies <==> AddsNone(sys, nodes, k.before, k.list)
    ensures k.after.copies == k.passed.copies ==> (AtRest(sys, k.after) <==> Ready(sys, nodes, k.before, k.list))
    ensures k.after.copies == k.passed.copies ==> (Least(sys, k.after) <==> Harmless(sys, nodes, k.before, k.list))
    ensures Ready(sys, nodes, k.before, k.list) ==> AllDone(sys, k.after)
  {
    hide IsRound, AddsNone, AtRest, Ready, Least, Harmless, AllDone;
    AddsNoneIff(sys, nodes, k);
    if k.after.copies == k.passed.copies {
      RestIff(sys, nodes, k);
      LeastIff(sys, nodes, k);
    }
    if Ready(sys, nodes, k.before, k.list) { ReadyIsDone(sys, nodes, k); }
  }
}
