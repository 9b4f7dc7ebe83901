/** Calls through pointers: when a pointer is found to have a function, its parameters and result are connected. */
module WaveCalls {
  import opened DfPoints
  import opened PtData
  import opened WaveDiff
  import opened WaveSteps
  import opened WaveSolve
  import opened WaveOrder
  import opened WaveLeast
  import opened WaveCalled

  /** A call through `pointer` to the function that is the object `callee`. */
  datatype Call = Call(pointer: Key, callee: Key)

  /** For every possible call what it connects: arguments with parameters, and the result with where it goes. */
  type Sites = map<Call, set<Link>>

  ghost predicate CallsHold(sites: Sites, m: PtsMap, rep: Reps) {
    forall c: Call, e: Link {:trigger c in sites, e in sites[c]} ::
      c in sites && e in sites[c] && c.callee in Answer(m, rep, c.pointer) ==>
        Answer(m, rep, e.src) <= Answer(m, rep, e.dst)
  }

  /** The answers satisfy constraints and calls, and are part of every solution of both. */
  ghost predicate LeastWithCalls(base: System, sites: Sites, w: Wave) {
    && Solves(base, w.pts, w.rep) && CallsHold(sites, w.pts, w.rep)
    && forall m: PtsMap, v: Key {:trigger Answer(m, NONE, v)} ::
         Solves(base, m, NONE) && CallsHold(sites, m, NONE) ==> Answer(w.pts, w.rep, v) <= Answer(m, NONE, v)
  }

  function Connected(sites: Sites, calls: set<Call>): set<Link> {
    set c, e | c in calls && c in sites && e in sites[c] :: e
  }

  /** The constraints are the given ones and the connections of the calls found so far, which are calls in every
      solution. */
  ghost predicate CallsSound(base: System, sites: Sites, calls: set<Call>, sys: System) {
    && calls <= sites.Keys && sys == base.(copies := base.copies + Connected(sites, calls))
    && forall m: PtsMap, c: Call {:trigger c.callee in Pts(m, c.pointer)} ::
         Solves(base, m, NONE) && CallsHold(sites, m, NONE) && c in calls ==> c.callee in Pts(m, c.pointer)
  }

  /** The calls that pointers make, as far as is known. */
  function CallsMade(sites: Sites, w: Wave): set<Call> {
    set c | c in sites && c.callee in Pts(w.pts, Rep(w, c.pointer))
  }

  ghost predicate AllConnected(sites: Sites, calls: set<Call>, w: Wave) {
    forall c: Call :: c in sites && c.callee in Answer(w.pts, w.rep, c.pointer) ==> c in calls
  }

  lemma CallsSolve(base: System, sites: Sites, calls: set<Call>, sys: System, m: PtsMap)
    requires CallsSound(base, sites, calls, sys) && Solves(base, m, NONE) && CallsHold(sites, m, NONE)
    ensures Solves(sys, m, NONE)
  {
    forall e: Link | e in sys.copies ensures Answer(m, NONE, e.src) <= Answer(m, NONE, e.dst) {
      if e !in base.copies {
        var c: Call :| c in calls && c in sites && e in sites[c];
        assert c.callee in Pts(m, c.pointer);
        assert c.callee in Answer(m, NONE, c.pointer);
      }
    }
  }

  /** When no call is missing, the least solution of what has been connected is that of constraints and calls. */
  lemma LeastWithCallsIff(base: System, sites: Sites, calls: set<Call>, sys: System, nodes: set<Key>, w: Wave)
    requires CallsSound(base, sites, calls, sys) && AllConnected(sites, calls, w)
    requires Sound(sys, w) && Within(nodes, w)
    ensures LeastWithCalls(base, sites, w) <==> Least(sys, w)
  {
    if Least(sys, w) { LeastIsWithCalls(base, sites, calls, sys, w); }
    if LeastWithCalls(base, sites, w) { WithCallsIsLeast(base, sites, calls, sys, nodes, w); }
  }

  lemma LeastIsWithCalls(base: System, sites: Sites, calls: set<Call>, sys: System, w: Wave)
    requires CallsSound(base, sites, calls, sys) && AllConnected(sites, calls, w) && Least(sys, w)
    ensures LeastWithCalls(base, sites, w)
  {
    hide Answer;
    assert Solves(base, w.pts, w.rep);
    forall c: Call, e: Link | c in sites && e in sites[c] && c.callee in Answer(w.pts, w.rep, c.pointer)
      ensures Answer(w.pts, w.rep, e.src) <= Answer(w.pts, w.rep, e.dst)
    {
      assert c in calls;
      assert e in sys.copies;
    }
    forall m: PtsMap, v: Key | Solves(base, m, NONE) && CallsHold(sites, m, NONE)
      ensures Answer(w.pts, w.rep, v) <= Answer(m, NONE, v)
    {
      hide CallsSound, Solves, CallsHold, AllConnected;
      CallsSolve(base, sites, calls, sys, m);
    }
  }

  lemma WithCallsIsLeast(base: System, sites: Sites, calls: set<Call>, sys: System, nodes: set<Key>, w: Wave)
    requires CallsSound(base, sites, calls, sys) && Sound(sys, w) && Within(nodes, w) && LeastWithCalls(base, sites, w)
    ensures Least(sys, w)
  {
    var m := Answers(nodes, w);
    AnswersSolve(base, nodes, w);
    AnswersAre(nodes, w);
    hide Answer, Answers, Sound, Within;
    assert CallsHold(sites, m, NONE);
    CallsSolve(base, sites, calls, sys, m);
    hide CallsSound, CallsHold;
    assert Solves(sys, w.pts, w.rep);
    SolutionIsLeast(sys, w);
  }

  // ------------------------------------------------------------------ connecting

  /** The edges that connecting the links adds. */
  function NewPairs(w: Wave, given: set<Link>): set<Link> {
    set e | e in given && !Covered(w, e.src, e.dst) :: Link(Rep(w, e.src), Rep(w, e.dst))
  }

  /** `m` has all that the solver has. */
  ghost predicate Above(w: Wave, m: PtsMap) { forall v: Key {:trigger Pts(w.pts, v)} :: Pts(w.pts, v) <= Pts(m, v) }

  ghost predicate Obeys(m: PtsMap, es: set<Link>) { forall e: Link :: e in es ==> Pts(m, e.src) <= Pts(m, e.dst) }

  function Targets(es: set<Link>): set<Key> { set e | e in es :: e.dst }

  /** Links have been connected: first the edges are added, then what was there flows along them, once each, and
      their ends are queued in any case. */
  ghost predicate ConnectStep(w: Wave, x: Wave, given: set<Link>, list: set<Key>, queued: set<Key>) {
    && x.rep == w.rep && x.loads == w.loads && x.stores == w.stores && x.propa == w.propa && x.cache == w.cache
    && x.copies == w.copies + NewPairs(w, given) && queued == list + Targets(NewPairs(w, given))
    && Flowed(w, x.pts, NewPairs(w, given))
  }

  /** What was there has flowed along the edges, and nothing else has happened. */
  ghost predicate Flowed(w: Wave, pts: PtsMap, es: set<Link>) {
    && (forall v: Key {:trigger Pts(pts, v)} ::
          Pts(w.pts, v) <= Pts(pts, v) && (v in Targets(es) || Pts(pts, v) == Pts(w.pts, v)))
    && (forall e: Link :: e in es ==> Pts(w.pts, e.src) <= Pts(pts, e.dst))
    && (forall m: PtsMap {:trigger Obeys(m, es)} ::
          Above(w, m) && Obeys(m, es) ==> forall v: Key :: Pts(pts, v) <= Pts(m, v))
  }

  lemma NoneFlowed(w: Wave)
    ensures Flowed(w, w.pts, {})
  {
    forall m: PtsMap, v: Key | Above(w, m) ensures Pts(w.pts, v) <= Pts(m, v) {}
  }

  lemma OneMoreFlowed(w: Wave, pts: PtsMap, pts': PtsMap, es: set<Link>, e: Link)
    requires Flowed(w, pts, es) && United(pts, pts', e.dst, Pts(pts, e.src))
    ensures Flowed(w, pts', es + {e})
  {
    assert e in es + {e};
    assert forall v: Key :: v in Targets(es + {e}) <==> v in Targets(es) || v == e.dst by {
      forall v: Key | v in Targets(es + {e}) ensures v in Targets(es) || v == e.dst {}
      forall v: Key | v in Targets(es) ensures v in Targets(es + {e}) {
        var f :| f in es && f.dst == v;
        assert f in es + {e};
      }
    }
    hide Pts, Targets;
    forall m: PtsMap | Above(w, m) && Obeys(m, es + {e}) ensures forall v: Key :: Pts(pts', v) <= Pts(m, v) {
      assert Obeys(m, es) by { forall f | f in es ensures Pts(m, f.src) <= Pts(m, f.dst) { assert f in es + {e}; } }
      forall v: Key ensures Pts(pts', v) <= Pts(m, v) {
        assert Pts(pts, v) <= Pts(m, v) && Pts(pts, e.src) <= Pts(m, e.src) <= Pts(m, e.dst);
      }
    }
  }

  lemma NewPairsFit(w: Wave, given: set<Link>)
    requires RepsOk(w)
    ensures forall e: Link :: e in NewPairs(w, given) ==> IsRep(w, e.src) && IsRep(w, e.dst) && e.src != e.dst
    ensures forall e: Link :: e in given ==>
        Rep(w, e.src) == Rep(w, e.dst) || Link(Rep(w, e.src), Rep(w, e.dst)) in w.copies + NewPairs(w, given)
  {
    forall p | p in NewPairs(w, given) ensures IsRep(w, p.src) && IsRep(w, p.dst) && p.src != p.dst {
      var e :| e in given && !Covered(w, e.src, e.dst) && p == Link(Rep(w, e.src), Rep(w, e.dst));
      assert IsRep(w, Rep(w, e.src)) && IsRep(w, Rep(w, e.dst));
    }
  }

  lemma ConnectGraph(w: Wave, x: Wave, given: set<Link>, list: set<Key>, queued: set<Key>)
    requires RepsOk(w) && GraphOk(w) && ConnectStep(w, x, given, list, queued)
    ensures RepsOk(x) && GraphOk(x) && OnlyCopiesGrow(w, x)
    ensures forall e: Link :: e in given ==> Covered(x, e.src, e.dst)
  {
    NewPairsFit(w, given);
    forall v: Key ensures Rep(x, v) == Rep(w, v) {}
    hide Pts, Rep, NewPairs, Targets, Flowed;
  }

  lemma ConnectPropa(w: Wave, x: Wave, given: set<Link>, list: set<Key>, queued: set<Key>)
    requires PropaOwn(w) && PropaArrived(w) && RepsOk(w) && ConnectStep(w, x, given, list, queued)
    ensures PropaOwn(x) && PropaArrived(x)
  {
    NewPairsFit(w, given);
    forall v: Key ensures Rep(x, v) == Rep(w, v) {}
    hide Pts, Rep, NewPairs, Targets, Above, Obeys;
  }

  lemma ConnectConstraints(sys: System, w: Wave, x: Wave, given: set<Link>, list: set<Key>, queued: set<Key>)
    requires Good(sys, w) && ConnectStep(w, x, given, list, queued) && OnlyCopiesGrow(w, x)
    requires forall e: Link :: e in given ==> Covered(x, e.src, e.dst)
    ensures var sys' := sys.(copies := sys.copies + given);
      && AddrsIn(sys', x) && ConstraintsIn(sys', x)
      && LoadsResolved(sys', x, LoadKey(0, 0), {}) && StoresResolved(sys', x, LoadKey(0, 0), {})
  {
    forall v: Key ensures Rep(x, v) == Rep(w, v) {}
    forall a: Key, b: Key | Covered(w, a, b) ensures Covered(x, a, b) { CoveredStays(w, x, a, b); }
    hide Pts, Rep, Cached, NewPairs, Targets, Above, Obeys, Covered;
  }

  lemma ConnectKeeps(sys: System, w: Wave, x: Wave, given: set<Link>, list: set<Key>, queued: set<Key>)
    requires Good(sys, w) && ConnectStep(w, x, given, list, queued)
    ensures Good(sys.(copies := sys.copies + given), x) && OnlyCopiesGrow(w, x)
  {
    hide ConnectStep, OnlyCopiesGrow, Covered, RepsOk, GraphOk, PropaOwn, PropaArrived, AddrsIn, ConstraintsIn;
    hide LoadsResolved, StoresResolved;
    ConnectGraph(w, x, given, list, queued);
    ConnectPropa(w, x, given, list, queued);
    ConnectConstraints(sys, w, x, given, list, queued);
  }

  lemma ConnectSound(sys: System, w: Wave, x: Wave, given: set<Link>, list: set<Key>, queued: set<Key>)
    requires Sound(sys, w) && ConnectStep(w, x, given, list, queued)
    ensures Sound(sys.(copies := sys.copies + given), x)
  {
    var sys' := sys.(copies := sys.copies + given);
    hide ConnectStep, Below;
    forall m: PtsMap | Solves(sys', m, NONE) ensures Below(sys', x, m) {
      assert Solves(sys, m, NONE);
      forall e | e in given ensures Pts(m, e.src) <= Pts(m, e.dst) {
        assert e in sys'.copies;
        assert Answer(m, NONE, e.src) <= Answer(m, NONE, e.dst);
      }
      ConnectBelow(sys, w, x, given, list, queued, m);
    }
  }

  lemma ConnectBelow(sys: System, w: Wave, x: Wave, given: set<Link>, list: set<Key>, queued: set<Key>, m: PtsMap)
    requires Below(sys, w, m) && ConnectStep(w, x, given, list, queued)
    requires forall e :: e in given ==> Pts(m, e.src) <= Pts(m, e.dst)
    ensures Below(sys.(copies := sys.copies + given), x, m)
  {
    forall v: Key ensures Rep(x, v) == Rep(w, v) {}
    hide Pts, Rep;
    forall p | p in NewPairs(w, given) ensures Pts(m, p.src) <= Pts(m, p.dst) {
      var e :| e in given && p == Link(Rep(w, e.src), Rep(w, e.dst));
      assert Pts(m, Rep(w, e.src)) == Pts(m, e.src) && Pts(m, Rep(w, e.dst)) == Pts(m, e.dst);
    }
    assert Above(w, m) && Obeys(m, NewPairs(w, given));
    forall v: Key ensures Pts(x.pts, v) <= Pts(m, v) {}
  }

  lemma ConnectTraced(sys: System, w: Wave, x: Wave, given: set<Link>, list: set<Key>, queued: set<Key>)
    requires Traced(sys, w) && ConnectStep(w, x, given, list, queued)
    ensures Traced(sys.(copies := sys.copies + given), x)
  {
    var sys' := sys.(copies := sys.copies + given);
    forall v: Key ensures Rep(x, v) == Rep(w, v) {}
    hide Pts, Rep, Reaches;
    forall m: PtsMap | Solves(sys', m, NONE) ensures TracedBy(sys', x, m) {
      assert Solves(sys, m, NONE);
      assert TracedBy(sys, w, m);
      var es, fs := Called(sys, m), Called(sys', m);
      assert es <= fs;
      forall v: Key ensures Mutual(fs, v, Rep(x, v)) { MutualMore(es, fs, v, Rep(w, v)); }
      forall e: Link | e in x.copies ensures Reaches(fs, e.src, e.dst) {
        if e in w.copies {
          ReachesMore(es, fs, e.src, e.dst);
        } else {
          var c :| c in given && e == Link(Rep(w, c.src), Rep(w, c.dst));
          assert Mutual(fs, c.src, Rep(x, c.src)) && Mutual(fs, c.dst, Rep(x, c.dst));
          EdgeOfReps(fs, x, c);
        }
      }
    }
  }

  lemma ConnectWithin(nodes: set<Key>, w: Wave, x: Wave, given: set<Link>, list: set<Key>, queued: set<Key>)
    requires Within(nodes, w) && ConnectStep(w, x, given, list, queued)
    requires forall e :: e in given ==> e.src in nodes && e.dst in nodes
    ensures Within(nodes, x)
  {
    forall v: Key ensures Rep(x, v) == Rep(w, v) {}
    var m: PtsMap := map v | v in nodes :: nodes;
    assert forall v: Key {:trigger Pts(m, v)} :: Pts(m, v) == if v in nodes then nodes else {};
    hide Pts, Rep;
    forall p | p in NewPairs(w, given) ensures p.src in nodes && p.dst in nodes {
      var e :| e in given && p == Link(Rep(w, e.src), Rep(w, e.dst));
    }
    assert Above(w, m) && Obeys(m, NewPairs(w, given));
    forall v: Key ensures Pts(x.pts, v) <= Pts(m, v) {}
  }

  lemma DoneByInert(sys: System, sys': System, x: Wave, r: Key)
    requires sys'.inert == sys.inert
    ensures Done(sys, x, r) <==> Done(sys', x, r)
  {}

  // ------------------------------------------------------------------ about finding calls

  lemma CallsAddr(base: System, sites: Sites, calls: set<Call>, sys: System, addrs: set<Link>)
    requires CallsSound(base, sites, calls, sys)
    ensures CallsSound(base.(addrs := base.addrs + addrs), sites, calls, sys.(addrs := sys.addrs + addrs))
  {
    var base' := base.(addrs := base.addrs + addrs);
    forall m: PtsMap, c: Call | Solves(base', m, NONE) && CallsHold(sites, m, NONE) && c in calls
      ensures c.callee in Pts(m, c.pointer)
    {
      assert Solves(base, m, NONE);
    }
  }

  /** What a pointer has now it has in every solution. */
  lemma CallsFound(base: System, sites: Sites, calls: set<Call>, sys: System, w: Wave, found: set<Call>)
    requires CallsSound(base, sites, calls, sys) && Sound(sys, w) && found <= sites.Keys
    requires forall c :: c in found ==> c.callee in Pts(w.pts, Rep(w, c.pointer))
    ensures CallsSound(base, sites, calls + found, sys.(copies := sys.copies + Connected(sites, found)))
  {
    assert Connected(sites, calls + found) == Connected(sites, calls) + Connected(sites, found) by {
      forall e | e in Connected(sites, calls + found) ensures e in Connected(sites, calls) + Connected(sites, found) {
        var c :| c in calls + found && c in sites && e in sites[c];
      }
    }
    forall m: PtsMap, c: Call | Solves(base, m, NONE) && CallsHold(sites, m, NONE) && c in calls + found
      ensures c.callee in Pts(m, c.pointer)
    {
      CallsSolve(base, sites, calls, sys, m);
      hide Solves, CallsHold, Rep, Pts;
      if c in found {
        assert Below(sys, w, m);
        assert Pts(w.pts, Rep(w, c.pointer)) <= Pts(m, Rep(w, c.pointer)) == Pts(m, c.pointer);
      }
    }
  }

  lemma OneMorePair(w: Wave, given: set<Link>, e: Link, copies: set<Link>, pairs: set<Link>)
    requires pairs == NewPairs(w, given) && copies == w.copies + pairs
    ensures var l := Link(Rep(w, e.src), Rep(w, e.dst));
      NewPairs(w, given + {e}) == if l in copies || l.src == l.dst then pairs else pairs + {l}
  {
    var l := Link(Rep(w, e.src), Rep(w, e.dst));
    hide Rep;
    forall p ensures p in NewPairs(w, given + {e}) <==> p in pairs || (p == l && l !in copies && l.src != l.dst) {
      if p in NewPairs(w, given + {e}) {
        var f :| f in given + {e} && !Covered(w, f.src, f.dst) && p == Link(Rep(w, f.src), Rep(w, f.dst));
        if f in given { assert p in NewPairs(w, given); }
      }
      if p in pairs {
        var f :| f in given && !Covered(w, f.src, f.dst) && p == Link(Rep(w, f.src), Rep(w, f.dst));
        assert f in given + {e};
      }
      if p == l && l !in copies && l.src != l.dst {
        assert e in given + {e} && !Covered(w, e.src, e.dst);
      }
    }
  }

  lemma NoPairs(w: Wave)
    ensures NewPairs(w, {}) == {} && Targets({}) == {}
  {}

  lemma ConnectedMore(sites: Sites, calls: set<Call>, c: Call)
    requires c in sites
    ensures Connected(sites, calls + {c}) == Connected(sites, calls) + sites[c]
  {
    forall e ensures e in Connected(sites, calls + {c}) <==> e in Connected(sites, calls) + sites[c] {
      if e in Connected(sites, calls + {c}) {
        var d :| d in calls + {c} && d in sites && e in sites[d];
      }
      if e in sites[c] { assert c in calls + {c}; }
      if e in Connected(sites, calls) {
        var d :| d in calls && d in sites && e in sites[d];
        assert d in calls + {c};
      }
    }
  }

  lemma TargetsMore(es: set<Link>, e: Link)
    ensures Targets(es + {e}) == Targets(es) + {e.dst}
  {
    forall v ensures v in Targets(es + {e}) <==> v in Targets(es) + {e.dst} {
      if v in Targets(es) {
        var f :| f in es && f.dst == v;
        assert f in es + {e};
      }
      if v == e.dst { assert e in es + {e}; }
    }
  }

  /** All of the step. */
  lemma Connecting(base: System, sites: Sites, calls: set<Call>, sys: System, nodes: set<Key>, w: Wave, x: Wave,
                   found: set<Call>, list: set<Key>, queued: set<Key>)
    requires CallsSound(base, sites, calls, sys) && Good(sys, w) && Sound(sys, w) && Traced(sys, w) && Within(nodes, w)
    requires found <= sites.Keys && forall c :: c in found ==> c.callee in Pts(w.pts, Rep(w, c.pointer))
    requires forall c, e :: c in sites && e in sites[c] ==> e.src in nodes && e.dst in nodes
    requires ConnectStep(w, x, Connected(sites, found), list, queued)
    ensures var sys' := sys.(copies := sys.copies + Connected(sites, found));
      && CallsSound(base, sites, calls + found, sys')
      && Good(sys', x) && Sound(sys', x) && Traced(sys', x) && Within(nodes, x)
  {
    var given := Connected(sites, found);
    forall e | e in given ensures e.src in nodes && e.dst in nodes {
      var c :| c in found && c in sites && e in sites[c];
    }
    hide CallsSound, Good, Sound, Traced, Within, ConnectStep, Connected, Rep, Pts;
    CallsFound(base, sites, calls, sys, w, found);
    ConnectKeeps(sys, w, x, given, list, queued);
    ConnectSound(sys, w, x, given, list, queued);
    ConnectTraced(sys, w, x, given, list, queued);
    ConnectWithin(nodes, w, x, given, list, queued);
  }

  // ------------------------------------------------------------------ no late cycles

  /** The copies that constraints and calls call for in a solution. */
  ghost function CalledWith(base: System, sites: Sites, m: PtsMap): set<Link> {
    Called(base, m) + Connected(sites, set c | c in sites && c.callee in Pts(m, c.pointer))
  }

  lemma CalledIsWith(base: System, sites: Sites, calls: set<Call>, sys: System, m: PtsMap)
    requires CallsSound(base, sites, calls, sys) && Solves(base, m, NONE) && CallsHold(sites, m, NONE)
    ensures Called(sys, m) <= CalledWith(base, sites, m)
  {
    var all := set c | c in sites && c.callee in Pts(m, c.pointer);
    forall e | e in Connected(sites, calls) ensures e in Connected(sites, all) {
      var c :| c in calls && c in sites && e in sites[c];
      assert c in all;
    }
  }
}
