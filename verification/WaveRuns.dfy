/** Whole runs of the wave solver: rounds, each followed by an update of the call graph, from the first to the last. */
module WaveRuns {
  import opened DfPoints
  import opened PtData
  import opened WaveDiff
  import opened WaveSteps
  import opened WaveSolve
  import opened WaveOrder
  import opened WaveRounds
  import opened WaveFlow
  import opened WaveLeast
  import opened WaveCalls

  /** What a run starts from: constraints, connected calls, the state and the work list. */
  datatype Start = Start(sys: System, calls: set<Call>, state: Wave, list: set<Key>)

  // ------------------------------------------------------------------ the chain of rounds

  /** The calls that are connected when the i-th round starts: those that pointers made after a round before it. */
  ghost function CallsAt(sites: Sites, s: Start, ks: seq<Round>, i: nat): set<Call>
    requires i <= |ks|
  {
    if i == 0 then s.calls else CallsAt(sites, s, ks, i - 1) + CallsMade(sites, ks[i - 1].after)
  }

  /** The calls that are found after the i-th round. */
  ghost function CallsFoundAfter(sites: Sites, s: Start, ks: seq<Round>, i: nat): set<Call>
    requires i < |ks|
  {
    CallsMade(sites, ks[i].after) - CallsAt(sites, s, ks, i)
  }

  ghost function SystemAt(sites: Sites, s: Start, ks: seq<Round>, i: nat): System
    requires i <= |ks|
  {
    if i == 0 then s.sys
    else
      var sys := SystemAt(sites, s, ks, i - 1);
      sys.(copies := sys.copies + Connected(sites, CallsFoundAfter(sites, s, ks, i - 1)))
  }

  /** The i-th round starts from the state x and the list: for the first that is the start, and for a later one what
      connecting the calls found after the round before leaves of that round's end, where the list is empty. */
  ghost predicate StartsFrom(sites: Sites, s: Start, ks: seq<Round>, i: nat, x: Wave, list: set<Key>)
    requires i <= |ks|
  {
    if i == 0 then x == s.state && list == s.list
    else ConnectStep(ks[i - 1].after, x, Connected(sites, CallsFoundAfter(sites, s, ks, i - 1)), {}, list)
  }

  /** After the i-th round there is another: it has added an edge, or a call has been found. */
  ghost predicate GoesOn(sites: Sites, s: Start, ks: seq<Round>, i: nat)
    requires i < |ks|
  {
    ks[i].after.copies != ks[i].passed.copies || CallsFoundAfter(sites, s, ks, i) != {}
  }

  /** Each is a round from what the one before left, and all but perhaps the last ask for another. */
  ghost predicate Rounds(sites: Sites, nodes: set<Key>, s: Start, ks: seq<Round>) {
    && (forall i: nat {:trigger ks[i]} :: i < |ks| ==>
          IsRound(SystemAt(sites, s, ks, i), nodes, ks[i]) && StartsFrom(sites, s, ks, i, ks[i].before, ks[i].list))
    && (forall i: nat {:trigger GoesOn(sites, s, ks, i)} :: i < |ks| - 1 ==> GoesOn(sites, s, ks, i))
  }

  /** These are all the rounds of a run. */
  ghost predicate WholeRun(sites: Sites, nodes: set<Key>, s: Start, ks: seq<Round>) {
    ks != [] && Rounds(sites, nodes, s, ks) && !GoesOn(sites, s, ks, |ks| - 1)
  }

  lemma {:induction false} AtPrefix(sites: Sites, s: Start, ks: seq<Round>, k: Round, i: nat)
    requires i <= |ks|
    ensures CallsAt(sites, s, ks + [k], i) == CallsAt(sites, s, ks, i)
    ensures SystemAt(sites, s, ks + [k], i) == SystemAt(sites, s, ks, i)
  {
    if i != 0 { AtPrefix(sites, s, ks, k, i - 1); }
  }

  lemma NoRounds(sites: Sites, nodes: set<Key>, s: Start)
    ensures Rounds(sites, nodes, s, []) && StartsFrom(sites, s, [], 0, s.state, s.list)
    ensures SystemAt(sites, s, [], 0) == s.sys && CallsAt(sites, s, [], 0) == s.calls
  {}

  lemma StartPrefix(sites: Sites, s: Start, ks: seq<Round>, k: Round, i: nat, x: Wave, list: set<Key>)
    requires i <= |ks|
    ensures StartsFrom(sites, s, ks + [k], i, x, list) <==> StartsFrom(sites, s, ks, i, x, list)
  {
    hide ConnectStep, CallsMade, Connected;
    if i > 0 { AtPrefix(sites, s, ks, k, i - 1); }
  }

  lemma GoesOnPrefix(sites: Sites, s: Start, ks: seq<Round>, k: Round, i: nat)
    requires i < |ks|
    ensures GoesOn(sites, s, ks + [k], i) <==> GoesOn(sites, s, ks, i)
  {
    hide CallsMade;
    AtPrefix(sites, s, ks, k, i);
  }

  /** One more round from where the last one led. */
  lemma OneMoreRound(sites: Sites, nodes: set<Key>, s: Start, ks: seq<Round>, k: Round)
    requires Rounds(sites, nodes, s, ks) && (ks != [] ==> GoesOn(sites, s, ks, |ks| - 1))
    requires StartsFrom(sites, s, ks, |ks|, k.before, k.list) && IsRound(SystemAt(sites, s, ks, |ks|), nodes, k)
    ensures Rounds(sites, nodes, s, ks + [k])
  {
    hide IsRound, SystemAt, StartsFrom, GoesOn;
    var all := ks + [k];
    forall i: nat {:trigger all[i]} | i < |all|
      ensures IsRound(SystemAt(sites, s, all, i), nodes, all[i])
      ensures StartsFrom(sites, s, all, i, all[i].before, all[i].list)
    {
      AtPrefix(sites, s, ks, k, i);
      StartPrefix(sites, s, ks, k, i, all[i].before, all[i].list);
      assert i < |ks| ==> all[i] == ks[i];
    }
    forall i: nat | i < |all| - 1 ensures GoesOn(sites, s, all, i) {
      GoesOnPrefix(sites, s, ks, k, i);
    }
  }

  /** Where it leads. */
  lemma AfterOneMore(sites: Sites, s: Start, ks: seq<Round>, k: Round)
    ensures var n, all := |ks|, ks + [k]; var found := CallsMade(sites, k.after) - CallsAt(sites, s, ks, n);
      && CallsFoundAfter(sites, s, all, n) == found
      && CallsAt(sites, s, all, n + 1) == CallsAt(sites, s, ks, n) + CallsMade(sites, k.after)
      && SystemAt(sites, s, all, n + 1) ==
         SystemAt(sites, s, ks, n).(copies := SystemAt(sites, s, ks, n).copies + Connected(sites, found))
      && (GoesOn(sites, s, all, n) <==> k.after.copies != k.passed.copies || found != {})
  {
    hide CallsMade, Connected;
    AtPrefix(sites, s, ks, k, |ks|);
  }

  // ------------------------------------------------------------------ what no later round has merged

  /** Nothing has become one with r from w to x. */
  ghost predicate Unmerged(w: Wave, x: Wave, r: Key) {
    forall v: Key {:trigger Rep(x, v)} :: Rep(x, v) == r ==> Rep(w, v) == r
  }

  ghost predicate ListedOrDone(sys: System, w: Wave, list: set<Key>, r: Key) { InList(w, list, r) || Done(sys, w, r) }

  lemma UnmergedBetween(w: Wave, x: Wave, y: Wave, r: Key)
    requires RepsFollow(w, x) && RepsFollow(x, y) && IsRep(y, r) && Unmerged(w, y, r)
    ensures IsRep(x, r) && IsRep(w, r) && Unmerged(w, x, r) && Unmerged(x, y, r)
  {
    hide Rep;
    forall v: Key | Rep(x, v) == r ensures Rep(w, v) == r {
      assert Rep(y, Rep(x, v)) == Rep(y, v);
    }
    forall v: Key | Rep(y, v) == r ensures Rep(x, v) == r {
      assert Rep(w, v) == r && Rep(x, Rep(w, v)) == Rep(x, v);
    }
  }

  /** What a merging leaves alone stays done. */
  lemma DoneApart(sys: System, w: Wave, x: Wave, r: Key)
    requires GraphOk(w) && Merged(w, x) && IsRep(x, r) && Unmerged(w, x, r) && Done(sys, w, r)
    ensures Done(sys, x, r)
  {
    hide Pts, Rep, Covered, AllGo, ReachKept;
    forall o: Key | o in Pts(x.pts, r) ensures o in Pts(w.pts, r) {
      assert ComesFrom(w, x, r, o);
      var u: Key :| Rep(x, u) == r && IsRep(w, u) && o in Pts(w.pts, u);
    }
    forall e: Link, o: Key | e in x.loads && e.src == r && o in Pts(x.pts, r) && o !in sys.inert
      ensures Covered(x, o, e.dst)
    {
      var f: Link :| f in w.loads && e == Link(Rep(x, f.src), Rep(x, f.dst));
      assert f.src == r && Covered(w, o, f.dst);
      assert Covered(x, o, f.dst);
      RepTwice(w, x, f.dst);
      CoveredSame(x, o, o, f.dst, e.dst);
    }
    forall e: Link, o: Key | e in x.stores && e.dst == r && o in Pts(x.pts, r) && o !in sys.inert
      ensures Covered(x, e.src, o)
    {
      var f: Link :| f in w.stores && e == Link(Rep(x, f.src), Rep(x, f.dst));
      assert f.dst == r && Covered(w, f.src, o);
      assert Covered(x, f.src, o);
      RepTwice(w, x, f.src);
      CoveredSame(x, f.src, e.src, o, o);
    }
  }

  lemma RepTwice(w: Wave, x: Wave, v: Key)
    requires Merged(w, x)
    ensures Rep(x, Rep(x, v)) == Rep(x, v)
  {
    hide Rep, Pts, Reaches;
    assert IsRep(x, Rep(x, v));
  }

  lemma ListedApart(w: Wave, x: Wave, list: set<Key>, r: Key)
    requires RepsFollow(w, x) && IsRep(x, r) && InList(w, list, r)
    ensures InList(x, list, r)
  {
    hide Rep;
    var v: Key :| v in list && Rep(w, v) == r;
    assert Rep(x, Rep(w, v)) == Rep(x, v);
  }

  lemma SameApart(x: Wave, y: Wave, r: Key)
    requires SameReps(x, y)
    ensures forall w: Wave {:trigger Unmerged(w, y, r)} :: Unmerged(w, y, r) <==> Unmerged(w, x, r)
    ensures forall z: Wave {:trigger Unmerged(y, z, r)} :: Unmerged(y, z, r) <==> Unmerged(x, z, r)
    ensures IsRep(y, r) <==> IsRep(x, r)
  {
    hide Rep;
    assert forall v: Key {:trigger Rep(x, v)} {:trigger Rep(y, v)} :: Rep(y, v) == Rep(x, v);
  }

  lemma RoundApart(sys: System, nodes: set<Key>, k: Round, r: Key)
    requires IsRound(sys, nodes, k) && IsRep(k.after, r) && Unmerged(k.before, k.after, r)
    requires ListedOrDone(sys, k.before, k.list, r)
    ensures Done(sys, k.after, r)
  {
    RoundIsRoundOf(sys, nodes, k);
    RoundGraphs(sys, nodes, k);
    hide IsRound, Done, InList, Merged, Unmerged, Grows;
    SameApart(k.merged, k.after, r);
    RoundFollows(k.before, k.merged);
    hide Rep, RepsFollow;
    if Done(sys, k.before, r) { DoneApart(sys, k.before, k.merged, r); }
    if InList(k.before, k.list, r) { ListedApart(k.before, k.merged, k.list, r); }
  }

  lemma RoundGraphs(sys: System, nodes: set<Key>, k: Round)
    requires IsRound(sys, nodes, k)
    ensures GraphOk(k.before) && GraphOk(k.after) && RepsOk(k.after) && Good(sys, k.after)
  {
    hide Rep, Pts;
  }

  lemma RoundFollows(w: Wave, x: Wave)
    requires Merged(w, x)
    ensures RepsFollow(w, x)
  {}

  /** From one round's end to the next. */
  lemma NextFollows(sys: System, nodes: set<Key>, w: Wave, k: Round, given: set<Link>)
    requires IsRound(sys, nodes, k) && ConnectStep(w, k.before, given, {}, k.list)
    ensures RepsFollow(w, k.after) && SameReps(w, k.before)
  {
    RoundIsRoundOf(sys, nodes, k);
    RoundGraphs(sys, nodes, k);
    forall v: Key ensures Rep(k.before, v) == Rep(w, v) {}
    hide IsRound, Rep, ConnectStep, GraphOk, Grows;
    RoundFollows(k.before, k.merged);
    SameFollows(k.merged, k.after);
    FollowTrans(k.before, k.merged, k.after);
    forall v: Key
      ensures Rep(k.after, Rep(w, v)) == Rep(k.after, v) && (IsRep(k.after, v) ==> IsRep(w, v))
    {
      assert Rep(k.after, Rep(k.before, v)) == Rep(k.after, v);
    }
  }

  /** What is done is done or queued after calls have been connected. */
  lemma ConnectApart(sys: System, w: Wave, x: Wave, given: set<Link>, list: set<Key>, r: Key)
    requires Good(sys, w) && IsRep(w, r) && Done(sys, w, r) && ConnectStep(w, x, given, {}, list)
    ensures ListedOrDone(sys.(copies := sys.copies + given), x, list, r)
  {
    ConnectKeeps(sys, w, x, given, {}, list);
    hide Pts, Rep, Good, Done, NewPairs;
    if Pts(x.pts, r) <= Pts(w.pts, r) {
      DoneStays(sys, w, x, r);
      DoneByInert(sys, sys.(copies := sys.copies + given), x, r);
    } else {
      assert r in list && Rep(x, r) == r;
    }
  }

  /** In a run that starts with everything queued that has something, what no round after the first has merged is
      done at the end of each round. */
  lemma {:induction false} ApartIsDone(sites: Sites, nodes: set<Key>, s: Start, ks: seq<Round>, i: nat, r: Key)
    requires Rounds(sites, nodes, s, ks) && NonEmptyQueued(s.state, s.list) && i < |ks|
    requires IsRep(ks[i].after, r) && Unmerged(ks[0].merged, ks[i].after, r)
    ensures Done(SystemAt(sites, s, ks, i), ks[i].after, r)
  {
    hide IsRound, Done, ConnectStep, Unmerged, ListedOrDone, RepsFollow, Rep, GoesOn, CallsMade, Connected;
    hide NonEmptyQueued, AllDone;
    var sys, k := SystemAt(sites, s, ks, i), ks[i];
    if i == 0 {
      RoundIsRoundOf(sys, nodes, k);
      RoundGraphs(sys, nodes, k);
      FirstRound(sys, k.before, k.merged, k.after, k.list);
      AllDoneAt(sys, k.after, r);
    } else {
      var was, sys' := ks[i - 1].after, SystemAt(sites, s, ks, i - 1);
      var given := Connected(sites, CallsFoundAfter(sites, s, ks, i - 1));
      assert IsRound(sys', nodes, ks[i - 1]);
      NextFollows(sys, nodes, was, k, given);
      FollowsFirst(sites, nodes, s, ks, i - 1);
      UnmergedBetween(ks[0].merged, was, k.after, r);
      ApartIsDone(sites, nodes, s, ks, i - 1, r);
      RoundGraphs(sys', nodes, ks[i - 1]);
      ConnectApart(sys', was, k.before, given, k.list, r);
      SameApart(was, k.before, r);
      RoundApart(sys, nodes, k, r);
    }
  }

  lemma AllDoneAt(sys: System, x: Wave, r: Key)
    requires AllDone(sys, x) && IsRep(x, r)
    ensures Done(sys, x, r)
  {}

  /** What the first round has merged stays merged. */
  lemma {:induction false} FollowsFirst(sites: Sites, nodes: set<Key>, s: Start, ks: seq<Round>, i: nat)
    requires Rounds(sites, nodes, s, ks) && i < |ks|
    ensures RepsFollow(ks[0].merged, ks[i].after)
  {
    hide IsRound, ConnectStep, RepsFollow, GoesOn, CallsMade, Connected;
    var sys, k := SystemAt(sites, s, ks, i), ks[i];
    if i == 0 {
      RoundIsRoundOf(sys, nodes, k);
      RoundGraphs(sys, nodes, k);
      SameFollows(k.merged, k.after);
    } else {
      FollowsFirst(sites, nodes, s, ks, i - 1);
      NextFollows(sys, nodes, ks[i - 1].after, k, Connected(sites, CallsFoundAfter(sites, s, ks, i - 1)));
      FollowTrans(ks[0].merged, ks[i - 1].after, k.after);
    }
  }

  // ------------------------------------------------------------------ about the loop

  /** The run leads to these constraints, connected calls and this state. */
  ghost predicate RunEndsWith(sites: Sites, nodes: set<Key>, s: Start, ks: seq<Round>, sys: System, calls: set<Call>,
                              x: Wave)
    requires ks != []
  {
    && sys == SystemAt(sites, s, ks, |ks| - 1) && calls == CallsAt(sites, s, ks, |ks| - 1)
    && x == ks[|ks| - 1].after
  }

  lemma StartsNext(sites: Sites, s: Start, ks: seq<Round>, x: Wave, list: set<Key>)
    requires ks != []
    requires ConnectStep(ks[|ks| - 1].after, x, Connected(sites, CallsFoundAfter(sites, s, ks, |ks| - 1)), {}, list)
    ensures StartsFrom(sites, s, ks, |ks|, x, list)
  {}

  lemma LastIsRound(sites: Sites, nodes: set<Key>, s: Start, ks: seq<Round>)
    requires ks != [] && Rounds(sites, nodes, s, ks)
    ensures IsRound(SystemAt(sites, s, ks, |ks| - 1), nodes, ks[|ks| - 1])
  {
    hide IsRound;
  }

  lemma UnmergedIs(w: Wave, x: Wave, r: Key)
    requires forall v: Key :: Rep(x, v) == r ==> Rep(w, v) == r
    ensures Unmerged(w, x, r)
  {
    hide Rep;
  }

  /** The first round merges the cycles of the start, and what it has merged stays merged. */
  lemma FirstMerges(sites: Sites, nodes: set<Key>, s: Start, ks: seq<Round>, sys: System, calls: set<Call>, x: Wave)
    requires WholeRun(sites, nodes, s, ks) && RunEndsWith(sites, nodes, s, ks, sys, calls, x)
    ensures CyclesMerged(nodes, s.state, ks[0].merged) && Within(nodes, ks[0].merged)
    ensures RepsFollow(ks[0].merged, x)
  {
    FollowsFirst(sites, nodes, s, ks, |ks| - 1);
    var k := ks[0];
    assert IsRound(SystemAt(sites, s, ks, 0), nodes, k) && StartsFrom(sites, s, ks, 0, k.before, k.list);
    assert Cycled(nodes, k.before, k.merged);
    hide Merged, Within, CyclesMerged, Passed, Good, Sound, Resolving, GoesOn, RepsFollow, ConnectStep;
  }

  /** A run whose later rounds merge nothing ends at rest. */
  lemma RestIfUnmerged(sites: Sites, nodes: set<Key>, s: Start, ks: seq<Round>, sys: System, calls: set<Call>, x: Wave)
    requires WholeRun(sites, nodes, s, ks) && RunEndsWith(sites, nodes, s, ks, sys, calls, x)
    requires NonEmptyQueued(s.state, s.list) && SameReps(ks[0].merged, x)
    ensures AtRest(sys, x)
  {
    hide IsRound, Done, ConnectStep, Rep, NonEmptyQueued, Resolving, SystemAt, CallsAt;
    var k := ks[|ks| - 1];
    LastIsRound(sites, nodes, s, ks);
    LastSettled(sys, nodes, k);
    forall r: Key | IsRep(x, r) ensures Done(sys, x, r) {
      assert Unmerged(ks[0].merged, x, r);
      ApartIsDone(sites, nodes, s, ks, |ks| - 1, r);
    }
  }

  lemma LastSettled(sys: System, nodes: set<Key>, k: Round)
    requires IsRound(sys, nodes, k) && k.after.copies == k.passed.copies
    ensures AllSettled(k.after)
  {
    RoundIsRoundOf(sys, nodes, k);
    hide IsRound;
  }
}
