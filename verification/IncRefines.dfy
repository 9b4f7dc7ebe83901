/**
 Under the discipline of the flow-sensitive solver, the incremental points-to store has the same sets
 as the plain one and gives the same answers, in every run.
 */
module IncRefines {
  import opened DfPoints
  import opened DfPtData
  import opened IncPtData

  /** Which locations are stores, which are loads (and into which variable), and along which edges OUT sets flow. */
  datatype Net = Net(stores: set<LocId>, loads: map<LocId, Key>, edges: set<Edge>)

  predicate IsLoad(net: Net, l: LocId) { l in net.loads && l !in net.stores }

  // ------------------------------------------------------------------ the discipline

  /** All of what `loc` has in OUT has arrived at the other ends of its edges. */
  ghost predicate PassedOn(net: Net, s: Df, loc: LocId) {
    forall e: Edge :: e in net.edges && e.src == loc ==> Out(s, loc, e.srcVar) <= In(s, e.dst, e.dstVar)
  }

  /** What may be called when. */
  ghost predicate Allowed(net: Net, s: Df, op: Op) {
    match op
    case InFromIn(e) => e.src !in net.stores && e.src !in net.loads
    case InFromOut(e) => e in net.edges
    case OutFromIn(e) => e.src in net.stores && e.dst == e.src && e.dstVar == e.srcVar
    case AllOutFromIn(loc, _, _) => loc in net.stores
    case TlvPts(loc, _, dstVar) => IsLoad(net, loc) && net.loads[loc] == dstVar
    case ClearOut(loc) => PassedOn(net, s, loc)
    case AllInFromIn(_) => true
    case AllInFromOut(_) => true
    case AtvPts(_, _, _) => true
    case AddPts(_, _) => true
    case UnionPts(_, _) => true
  }

  /** New edges are made along with the unflagged propagation along them. */
  function After(net: Net, op: Op): Net {
    if op.AllInFromOut? then net.(edges := net.edges + {op.e}) else net
  }

  // ------------------------------------------------------------------ the invariant

  /** Where what is in the IN set of a location ends up. */
  function Consumed(net: Net, s: Df, l: LocId, v: Key): set<Key> {
    if l in net.stores then Out(s, l, v) else if l in net.loads then Top(s, net.loads[l]) else {}
  }

  /** What is not flagged has been passed on. */
  ghost predicate InsConsumed(net: Net, x: Inc) {
    forall l: LocId, v: Key {:trigger In(x.df, l, v)} ::
      v !in FlaggedIn(x, l) ==> In(x.df, l, v) <= Consumed(net, x.df, l, v)
  }

  ghost predicate EdgesSettled(net: Net, x: Inc) {
    forall e: Edge ::
      e in net.edges && e.srcVar !in FlaggedOut(x, e.src) ==> Out(x.df, e.src, e.srcVar) <= In(x.df, e.dst, e.dstVar)
  }

  ghost predicate NothingLost(net: Net, x: Inc) { InsConsumed(net, x) && EdgesSettled(net, x) }

  // ------------------------------------------------------------------ each operation does what the plain one does

  lemma IdleIsPlain(x: Inc, op: Op, y: Inc)
    requires Untouched(x, y) && !Adds(op, x.df)
    ensures PlainStep(x.df, op, y.df, false)
  {
    hide In, Out, Top, AddIn, AddOut, AddTop;
    var s, t := x.df, y.df;
    forall l: LocId, v: Key ensures In(t, l, v) == In(s, l, v) + AddIn(op, s, l, v) {}
    forall l: LocId, v: Key ensures Out(t, l, v) == Out(s, l, v) + AddOut(op, s, l, v) {}
    forall v: Key ensures Top(t, v) == Top(s, v) + AddTop(op, s, v) {}
  }

  /** An operation that is skipped for want of a flag would have added nothing. */
  lemma SkippedAddsNothing(net: Net, x: Inc, op: Op)
    requires NothingLost(net, x) && Allowed(net, x.df, op)
    requires Skipped(x, op)
    ensures !Adds(op, x.df)
  {
    hide In, Out, Top, FlaggedIn, FlaggedOut;
    match op
    case InFromIn(e) => assert In(x.df, e.src, e.srcVar) <= Consumed(net, x.df, e.src, e.srcVar);
    case InFromOut(e) => assert Out(x.df, e.src, e.srcVar) <= In(x.df, e.dst, e.dstVar);
    case OutFromIn(e) => assert In(x.df, e.src, e.srcVar) <= Consumed(net, x.df, e.src, e.srcVar);
    case TlvPts(loc, srcVar, _) => assert In(x.df, loc, srcVar) <= Consumed(net, x.df, loc, srcVar);
    case _ =>
  }

  lemma FlushIsPlain(net: Net, x: Inc, y: Inc, loc: LocId, singleton: Key, strong: bool, changed: bool)
    requires NothingLost(net, x) && loc in net.stores
    requires Flush(x, y, loc, Chosen(FlaggedIn(x, loc), singleton, strong), changed)
    ensures PlainStep(x.df, AllOutFromIn(loc, singleton, strong), y.df, changed)
  {
    hide In, Out, Top, FlaggedIn, FlaggedOut;
    var op, vs, s, t := AllOutFromIn(loc, singleton, strong), Chosen(FlaggedIn(x, loc), singleton, strong), x.df, y.df;
    forall v: Key | v !in FlaggedIn(x, loc) ensures In(s, loc, v) <= Out(s, loc, v) {
      assert In(s, loc, v) <= Consumed(net, s, loc, v);
    }
    forall l: LocId, v: Key ensures Out(t, l, v) == Out(s, l, v) + AddOut(op, s, l, v) {
      assert Out(t, l, v) == Out(s, l, v) + if l == loc && v in vs then In(s, l, v) else {};
    }
    if changed {
      var v :| v in Fresh(x, loc, vs);
      assert !(AddOut(op, s, loc, v) <= Out(s, loc, v));
    } else {
      assert forall v: Key :: v in vs && !(In(s, loc, v) <= Out(s, loc, v)) ==> v in Fresh(x, loc, vs);
    }
  }

  /** Whatever the discipline allows, the incremental operation does to the sets, and answers, what the plain one
      does. */
  lemma IncStepIsPlain(net: Net, x: Inc, op: Op, y: Inc, changed: bool)
    requires NothingLost(net, x) && Allowed(net, x.df, op) && IncStep(x, op, y, changed)
    ensures PlainStep(x.df, op, y.df, changed)
  {
    hide In, Out, Top, PlainStep, NothingLost, SameIn, SameOut, SameTop;
    if !op.AllOutFromIn? && !op.ClearOut? && Untouched(x, y) && !changed && Skipped(x, op) {
      SkippedAddsNothing(net, x, op);
      IdleIsPlain(x, op, y);
    } else if op.AllOutFromIn? {
      FlushIsPlain(net, x, y, op.loc, op.singleton, op.strong, changed);
    } else if op.ClearOut? {
      ClearIsPlain(x.df, y.df, op.loc);
    }
  }

  ghost predicate Skipped(x: Inc, op: Op) {
    match op
    case InFromIn(e) => e.srcVar !in FlaggedIn(x, e.src)
    case InFromOut(e) => e.srcVar !in FlaggedOut(x, e.src)
    case OutFromIn(e) => e.srcVar !in FlaggedIn(x, e.src)
    case TlvPts(loc, srcVar, _) => srcVar !in FlaggedIn(x, loc)
    case _ => false
  }

  lemma ClearIsPlain(s: Df, t: Df, loc: LocId)
    requires SameSets(s, t)
    ensures PlainStep(s, ClearOut(loc), t, false)
  {
    hide In, Out, Top;
  }

  // ------------------------------------------------------------------ nothing gets lost

  /** Growing sets keep what is unflagged passed on, if every IN set that grew is flagged. */
  lemma InsStayConsumed(net: Net, x: Inc, op: Op, y: Inc)
    requires InsConsumed(net, x) && Grown(op, x.df, y.df)
    requires forall l: LocId, v: Key {:trigger In(y.df, l, v)} :: v !in FlaggedIn(y, l) ==>
               || (v !in FlaggedIn(x, l) && AddIn(op, x.df, l, v) <= In(x.df, l, v))
               || In(y.df, l, v) <= Consumed(net, y.df, l, v)
    ensures InsConsumed(net, y)
  {
    hide In, Out, Top, FlaggedIn, AddIn, AddOut, AddTop;
    forall l: LocId, v: Key | v !in FlaggedIn(y, l) ensures In(y.df, l, v) <= Consumed(net, y.df, l, v) {
      assert In(y.df, l, v) == In(x.df, l, v) + AddIn(op, x.df, l, v);
      if v !in FlaggedIn(x, l) && AddIn(op, x.df, l, v) <= In(x.df, l, v) {
        assert In(x.df, l, v) <= Consumed(net, x.df, l, v);
        assert Consumed(net, x.df, l, v) <= Consumed(net, y.df, l, v);
      }
    }
  }

  lemma EdgesStaySettled(net: Net, x: Inc, op: Op, y: Inc)
    requires EdgesSettled(net, x) && Grown(op, x.df, y.df)
    requires forall l: LocId, v: Key {:trigger Out(y.df, l, v)} :: v !in FlaggedOut(y, l) ==>
               v !in FlaggedOut(x, l) && AddOut(op, x.df, l, v) <= Out(x.df, l, v)
    ensures EdgesSettled(net, y)
  {
    hide In, Out, Top, FlaggedOut, AddIn, AddOut, AddTop;
    forall e: Edge | e in net.edges && e.srcVar !in FlaggedOut(y, e.src)
      ensures Out(y.df, e.src, e.srcVar) <= In(y.df, e.dst, e.dstVar)
    {
      assert Out(y.df, e.src, e.srcVar) == Out(x.df, e.src, e.srcVar) + AddOut(op, x.df, e.src, e.srcVar);
      assert In(y.df, e.dst, e.dstVar) == In(x.df, e.dst, e.dstVar) + AddIn(op, x.df, e.dst, e.dstVar);
    }
  }

  lemma IntoInKeeps(net: Net, x: Inc, op: Op, y: Inc, changed: bool)
    requires NothingLost(net, x) && Allowed(net, x.df, op)
    requires op.InFromIn? || op.InFromOut? || op.AllInFromIn? || op.AllInFromOut?
    requires IntoIn(x, op, y, op.e, changed)
    ensures NothingLost(After(net, op), y)
  {
    hide In, Out, Top, FlaggedIn, FlaggedOut, InsConsumed, EdgesSettled;
    forall l: LocId, v: Key | v !in FlaggedIn(y, l)
      ensures v !in FlaggedIn(x, l) && AddIn(op, x.df, l, v) <= In(x.df, l, v)
    {
      assert FlaggedIn(y, l) ==
          if l == op.e.dst then FlaggedIn(x, l) - {} + When(changed, op.e.dstVar) else FlaggedIn(x, l);
    }
    InsStayConsumed(net, x, op, y);
    forall l: LocId, v: Key | v !in FlaggedOut(y, l)
      ensures v !in FlaggedOut(x, l) && AddOut(op, x.df, l, v) <= Out(x.df, l, v)
    {
      assert FlaggedOut(y, l) == FlaggedOut(x, l) && AddOut(op, x.df, l, v) == {};
    }
    EdgesStaySettled(net, x, op, y);
    if op.AllInFromOut? { NewEdgeSettled(net, x, op, y, changed); } else { assert After(net, op) == net; }
  }

  /** Unflagged propagation settles the edge it goes along. */
  lemma NewEdgeSettled(net: Net, x: Inc, op: Op, y: Inc, changed: bool)
    requires InsConsumed(net, y) && EdgesSettled(net, y) && op.AllInFromOut? && Grown(op, x.df, y.df)
    ensures NothingLost(After(net, op), y)
  {
    hide In, Out, Top, FlaggedIn, FlaggedOut;
    var e := op.e;
    assert Out(y.df, e.src, e.srcVar) == Out(x.df, e.src, e.srcVar) + AddOut(op, x.df, e.src, e.srcVar);
    assert In(y.df, e.dst, e.dstVar) == In(x.df, e.dst, e.dstVar) + AddIn(op, x.df, e.dst, e.dstVar);
    forall l: LocId, v: Key | v !in FlaggedIn(y, l) ensures In(y.df, l, v) <= Consumed(After(net, op), y.df, l, v) {
      assert In(y.df, l, v) <= Consumed(net, y.df, l, v);
    }
  }

  lemma FlushKeeps(net: Net, x: Inc, y: Inc, loc: LocId, singleton: Key, strong: bool, changed: bool)
    requires NothingLost(net, x) && loc in net.stores
    requires Flush(x, y, loc, Chosen(FlaggedIn(x, loc), singleton, strong), changed)
    ensures NothingLost(net, y)
  {
    var op, vs := AllOutFromIn(loc, singleton, strong), Chosen(FlaggedIn(x, loc), singleton, strong);
    FlushIsPlain(net, x, y, loc, singleton, strong, changed);
    hide In, Out, Top, FlaggedIn, FlaggedOut, InsConsumed, EdgesSettled;
    forall l: LocId, v: Key | v !in FlaggedIn(y, l)
      ensures v !in FlaggedIn(x, l) || In(y.df, l, v) <= Consumed(net, y.df, l, v)
    {
      assert FlaggedIn(y, l) == if l == loc then FlaggedIn(x, l) - vs + {} else FlaggedIn(x, l);
      if v in FlaggedIn(x, l) {
        assert Out(y.df, l, v) == Out(x.df, l, v) + In(x.df, l, v) && In(y.df, l, v) == In(x.df, l, v);
      }
    }
    InsStayConsumed(net, x, op, y);
    FlushedOuts(net, x, y, loc, singleton, strong, changed);
    EdgesStaySettled(net, x, op, y);
  }

  lemma FlushedOuts(net: Net, x: Inc, y: Inc, loc: LocId, singleton: Key, strong: bool, changed: bool)
    requires NothingLost(net, x) && loc in net.stores
    requires Flush(x, y, loc, Chosen(FlaggedIn(x, loc), singleton, strong), changed)
    ensures forall l: LocId, v: Key {:trigger Out(y.df, l, v)} :: v !in FlaggedOut(y, l) ==>
      v !in FlaggedOut(x, l) && AddOut(AllOutFromIn(loc, singleton, strong), x.df, l, v) <= Out(x.df, l, v)
  {
    hide In, Out, Top, FlaggedIn, FlaggedOut;
    var op, vs := AllOutFromIn(loc, singleton, strong), Chosen(FlaggedIn(x, loc), singleton, strong);
    forall l: LocId, v: Key | v !in FlaggedOut(y, l)
      ensures v !in FlaggedOut(x, l) && AddOut(op, x.df, l, v) <= Out(x.df, l, v)
    {
      assert FlaggedOut(y, l) == if l == loc then FlaggedOut(x, l) - {} + Fresh(x, loc, vs) else FlaggedOut(x, l);
      if l == loc && v !in FlaggedIn(x, loc) { assert In(x.df, loc, v) <= Consumed(net, x.df, loc, v); }
    }
  }

  lemma MoveOnKeeps(net: Net, x: Inc, op: Op, y: Inc, changed: bool)
    requires NothingLost(net, x) && Allowed(net, x.df, op) && op.OutFromIn? && MoveOn(x, op, y, op.e, changed)
    ensures NothingLost(net, y)
  {
    hide In, Out, Top, FlaggedIn, FlaggedOut, InsConsumed, EdgesSettled;
    var e := op.e;
    forall l: LocId, v: Key | v !in FlaggedIn(y, l)
      ensures v !in FlaggedIn(x, l) || In(y.df, l, v) <= Consumed(net, y.df, l, v)
    {
      assert FlaggedIn(y, l) == if l == e.src then FlaggedIn(x, l) - {e.srcVar} + {} else FlaggedIn(x, l);
      if v in FlaggedIn(x, l) {
        assert In(y.df, l, v) == In(x.df, l, v) + AddIn(op, x.df, l, v);
        assert Out(y.df, l, v) == Out(x.df, l, v) + AddOut(op, x.df, l, v);
      }
    }
    InsStayConsumed(net, x, op, y);
    forall l: LocId, v: Key | v !in FlaggedOut(y, l)
      ensures v !in FlaggedOut(x, l) && AddOut(op, x.df, l, v) <= Out(x.df, l, v)
    {
      assert FlaggedOut(y, l) ==
          if l == e.dst then FlaggedOut(x, l) - {} + When(changed, e.dstVar) else FlaggedOut(x, l);
    }
    EdgesStaySettled(net, x, op, y);
  }

  lemma LoadKeeps(net: Net, x: Inc, op: Op, y: Inc, changed: bool)
    requires NothingLost(net, x) && Allowed(net, x.df, op) && op.TlvPts?
    requires PlainStep(x.df, op, y.df, changed) && InFlags(x, y, op.loc, {op.srcVar}, {}) && SameOutFlags(x, y)
    ensures NothingLost(net, y)
  {
    hide In, Out, Top, FlaggedIn, FlaggedOut, InsConsumed, EdgesSettled;
    forall l: LocId, v: Key | v !in FlaggedIn(y, l)
      ensures v !in FlaggedIn(x, l) || In(y.df, l, v) <= Consumed(net, y.df, l, v)
    {
      assert FlaggedIn(y, l) == if l == op.loc then FlaggedIn(x, l) - {op.srcVar} + {} else FlaggedIn(x, l);
      if v in FlaggedIn(x, l) {
        assert In(y.df, l, v) == In(x.df, l, v) + AddIn(op, x.df, l, v);
        assert Top(y.df, op.dstVar) == Top(x.df, op.dstVar) + AddTop(op, x.df, op.dstVar);
      }
    }
    InsStayConsumed(net, x, op, y);
    EdgesStaySettled(net, x, op, y);
  }

  /** Operations that take no flags away and flag each OUT set that grew. */
  lemma OtherKeeps(net: Net, x: Inc, op: Op, y: Inc, changed: bool)
    requires NothingLost(net, x) && PlainStep(x.df, op, y.df, changed) && SameInFlags(x, y)
    requires (op.AtvPts? && OutFlags(x, y, op.loc, {}, When(changed, op.dstVar))) ||
             ((op.AddPts? || op.UnionPts?) && SameOutFlags(x, y))
    ensures NothingLost(net, y)
  {
    hide In, Out, Top, FlaggedIn, FlaggedOut, InsConsumed, EdgesSettled;
    InsStayConsumed(net, x, op, y);
    forall l: LocId, v: Key | v !in FlaggedOut(y, l)
      ensures v !in FlaggedOut(x, l) && AddOut(op, x.df, l, v) <= Out(x.df, l, v)
    {
      if op.AtvPts? {
        assert FlaggedOut(y, l) ==
            if l == op.loc then FlaggedOut(x, l) - {} + When(changed, op.dstVar) else FlaggedOut(x, l);
      }
    }
    EdgesStaySettled(net, x, op, y);
  }

  lemma ClearKeeps(net: Net, x: Inc, loc: LocId, y: Inc)
    requires NothingLost(net, x) && PassedOn(net, x.df, loc) && SameSets(x.df, y.df) && SameInFlags(x, y)
    requires OutFlags(x, y, loc, FlaggedOut(x, loc), {})
    ensures NothingLost(net, y)
  {
    hide In, Out, Top, FlaggedIn, FlaggedOut;
    forall l: LocId, v: Key | v !in FlaggedIn(y, l) ensures In(y.df, l, v) <= Consumed(net, y.df, l, v) {
      assert In(x.df, l, v) <= Consumed(net, x.df, l, v);
    }
    forall e: Edge | e in net.edges && e.srcVar !in FlaggedOut(y, e.src)
      ensures Out(y.df, e.src, e.srcVar) <= In(y.df, e.dst, e.dstVar)
    {
      assert Out(x.df, e.src, e.srcVar) <= In(x.df, e.dst, e.dstVar);
    }
  }

  lemma IdleKeeps(net: Net, x: Inc, y: Inc)
    requires NothingLost(net, x) && Untouched(x, y)
    ensures NothingLost(net, y)
  {
    hide In, Out, Top, FlaggedIn, FlaggedOut;
    forall l: LocId, v: Key | v !in FlaggedIn(y, l) ensures In(y.df, l, v) <= Consumed(net, y.df, l, v) {
      assert In(x.df, l, v) <= Consumed(net, x.df, l, v);
    }
  }

  lemma StepKeeps(net: Net, x: Inc, op: Op, y: Inc, changed: bool)
    requires NothingLost(net, x) && Allowed(net, x.df, op) && IncStep(x, op, y, changed)
    ensures NothingLost(After(net, op), y)
  {
    hide NothingLost, IntoIn, MoveOn, PlainStep, InFlags, OutFlags, FlaggedIn, FlaggedOut, Flush, PassedOn, SameSets,
         SameInFlags, SameOutFlags;
    assert !op.AllInFromOut? ==> After(net, op) == net;
    match op
    case InFromIn(e) =>
      if e.srcVar in FlaggedIn(x, e.src) {
        IntoInKeeps(net, x, op, y, changed);
      } else {
        IdleKeeps(net, x, y);
      }
    case InFromOut(e) =>
      if e.srcVar in FlaggedOut(x, e.src) {
        IntoInKeeps(net, x, op, y, changed);
      } else {
        IdleKeeps(net, x, y);
      }
    case OutFromIn(e) =>
      if e.srcVar in FlaggedIn(x, e.src) {
        MoveOnKeeps(net, x, op, y, changed);
      } else {
        IdleKeeps(net, x, y);
      }
    case AllInFromIn(_) => IntoInKeeps(net, x, op, y, changed);
    case AllInFromOut(_) => IntoInKeeps(net, x, op, y, changed);
    case AllOutFromIn(loc, singleton, strong) => FlushKeeps(net, x, y, loc, singleton, strong, changed);
    case TlvPts(loc, v, _) =>
      if v in FlaggedIn(x, loc) {
        LoadKeeps(net, x, op, y, changed);
      } else {
        IdleKeeps(net, x, y);
      }
    case AtvPts(_, _, _) => OtherKeeps(net, x, op, y, changed);
    case ClearOut(loc) => ClearKeeps(net, x, loc, y);
    case AddPts(_, _) => OtherKeeps(net, x, op, y, changed);
    case UnionPts(_, _) => OtherKeeps(net, x, op, y, changed);
  }

  // ------------------------------------------------------------------ whole runs

  function NetAfter(net: Net, ops: seq<Op>): Net {
    if ops == [] then net else After(NetAfter(net, ops[..|ops| - 1]), ops[|ops| - 1])
  }

  ghost predicate PlainRun(ss: seq<Df>, ops: seq<Op>, answers: seq<bool>) {
    && |ss| == |ops| + 1 && |answers| == |ops|
    && forall i: nat {:trigger ops[i]} :: i < |ops| ==> PlainStep(ss[i], ops[i], ss[i + 1], answers[i])
  }

  /** A run of the incremental store that keeps to the discipline. */
  ghost predicate IncRun(net: Net, xs: seq<Inc>, ops: seq<Op>, answers: seq<bool>) {
    && |xs| == |ops| + 1 && |answers| == |ops|
    && forall i: nat {:trigger ops[i]} :: i < |ops| ==>
         && Allowed(NetAfter(net, ops[..i]), xs[i].df, ops[i])
         && IncStep(xs[i], ops[i], xs[i + 1], answers[i])
  }

  lemma NothingLostAtStart(net: Net)
    ensures NothingLost(net, Inc(Df(map[], map[], map[]), map[], map[]))
  {}

  lemma {:induction false} NothingLostInRun(net: Net, xs: seq<Inc>, ops: seq<Op>, answers: seq<bool>, i: nat)
    requires IncRun(net, xs, ops, answers) && NothingLost(net, xs[0]) && i <= |ops|
    ensures NothingLost(NetAfter(net, ops[..i]), xs[i])
  {
    hide NothingLost, IncStep, Allowed, After;
    if i != 0 {
      NothingLostInRun(net, xs, ops, answers, i - 1);
      assert ops[..i][..i - 1] == ops[..i - 1] && ops[..i][i - 1] == ops[i - 1];
      StepKeeps(NetAfter(net, ops[..i - 1]), xs[i - 1], ops[i - 1], xs[i], answers[i - 1]);
    }
  }

  /** The incremental store refines the plain one: in every run that keeps to the discipline it holds the same
      sets at every point and gives the same answers. */
  lemma {:induction false} RunsAgree(net: Net, xs: seq<Inc>, ss: seq<Df>, ops: seq<Op>, answers: seq<bool>,
                                     plain: seq<bool>, i: nat)
    requires IncRun(net, xs, ops, answers) && PlainRun(ss, ops, plain)
    requires NothingLost(net, xs[0]) && SameSets(ss[0], xs[0].df) && i <= |ops|
    ensures SameSets(ss[i], xs[i].df) && answers[..i] == plain[..i]
  {
    hide NothingLost, IncStep, PlainStep, Allowed, After, SameSets;
    if i != 0 {
      RunsAgree(net, xs, ss, ops, answers, plain, i - 1);
      NothingLostInRun(net, xs, ops, answers, i - 1);
      IncStepIsPlain(NetAfter(net, ops[..i - 1]), xs[i - 1], ops[i - 1], xs[i], answers[i - 1]);
      PlainStepAgrees(ss[i - 1], ss[i], plain[i - 1], xs[i - 1].df, xs[i].df, answers[i - 1], ops[i - 1]);
      assert answers[..i] == answers[..i - 1] + [answers[i - 1]] && plain[..i] == plain[..i - 1] + [plain[i - 1]];
    }
  }

  // ------------------------------------------------------------------ what the discipline is for

  /** Propagating along every edge of a location makes clearing its OUT flags allowed. */
  lemma {:induction false} PropagatedMayClear(net: Net, xs: seq<Inc>, es: seq<Edge>, answers: seq<bool>, loc: LocId)
    requires |xs| == |es| + 1 && |answers| == |es| && NothingLost(net, xs[0])
    requires forall i :: 0 <= i < |es| ==> es[i] in net.edges && IncStep(xs[i], InFromOut(es[i]), xs[i + 1], answers[i])
    requires forall e: Edge :: e in net.edges && e.src == loc ==> e in es
    ensures Allowed(net, xs[|es|].df, ClearOut(loc))
  {
    hide IncStep, NothingLost;
    PropagatedArrives(net, xs, es, answers, |es|);
    forall e: Edge | e in net.edges && e.src == loc
      ensures Out(xs[|es|].df, loc, e.srcVar) <= In(xs[|es|].df, e.dst, e.dstVar)
    {
      var i :| 0 <= i < |es| && es[i] == e;
    }
  }

  lemma {:induction false} PropagatedArrives(net: Net, xs: seq<Inc>, es: seq<Edge>, answers: seq<bool>, n: nat)
    requires |xs| == |es| + 1 && |answers| == |es| && n <= |es| && NothingLost(net, xs[0])
    requires forall i :: 0 <= i < |es| ==> es[i] in net.edges && IncStep(xs[i], InFromOut(es[i]), xs[i + 1], answers[i])
    ensures NothingLost(net, xs[n])
    ensures forall i :: 0 <= i < n ==> Out(xs[n].df, es[i].src, es[i].srcVar) <= In(xs[n].df, es[i].dst, es[i].dstVar)
  {
    hide IncStep, NothingLost, In, Out, Top;
    if n != 0 {
      PropagatedArrives(net, xs, es, answers, n - 1);
      var op, x, y := InFromOut(es[n - 1]), xs[n - 1], xs[n];
      IncStepIsPlain(net, x, op, y, answers[n - 1]);
      StepKeeps(net, x, op, y, answers[n - 1]);
      forall i | 0 <= i < n ensures Out(y.df, es[i].src, es[i].srcVar) <= In(y.df, es[i].dst, es[i].dstVar) {
        var e := es[i];
        assert Out(y.df, e.src, e.srcVar) == Out(x.df, e.src, e.srcVar) + AddOut(op, x.df, e.src, e.srcVar);
        assert In(y.df, e.dst, e.dstVar) == In(x.df, e.dst, e.dstVar) + AddIn(op, x.df, e.dst, e.dstVar);
      }
    }
  }

  /** A variable that a strong update skips stays flagged. */
  lemma StrongUpdateKeepsFlag(x: Inc, y: Inc, loc: LocId, v: Key, changed: bool)
    requires IncStep(x, AllOutFromIn(loc, v, true), y, changed) && v in FlaggedIn(x, loc)
    ensures v in FlaggedIn(y, loc) && Out(y.df, loc, v) == Out(x.df, loc, v)
  {
    hide In, Out, Top, FlaggedIn, FlaggedOut;
    assert FlaggedIn(y, loc) == FlaggedIn(x, loc) - Chosen(FlaggedIn(x, loc), v, true) + {};
  }

  /** A weak update leaves nothing behind, whatever strong updates skipped before. */
  lemma WeakUpdateCatchesUp(net: Net, x: Inc, y: Inc, loc: LocId, k: Key, v: Key, changed: bool)
    requires NothingLost(net, x) && loc in net.stores && IncStep(x, AllOutFromIn(loc, k, false), y, changed)
    ensures In(y.df, loc, v) <= Out(y.df, loc, v) && v !in FlaggedIn(y, loc)
  {
    StepKeeps(net, x, AllOutFromIn(loc, k, false), y, changed);
    hide In, Out, Top, FlaggedIn, FlaggedOut;
    assert After(net, AllOutFromIn(loc, k, false)) == net;
    assert FlaggedIn(y, loc) == FlaggedIn(x, loc) - Chosen(FlaggedIn(x, loc), k, false) + {};
    assert v !in FlaggedIn(y, loc);
    assert In(y.df, loc, v) <= Consumed(net, y.df, loc, v);
  }

  /** A load with two destinations: the second gets nothing, which is right exactly if it has everything. */
  lemma SecondDestinationStarves(x: Inc, y: Inc, z: Inc, loc: LocId, v: Key, d: Key, e: Key, a: bool, b: bool)
    requires d != e && v in FlaggedIn(x, loc)
    requires IncStep(x, TlvPts(loc, v, d), y, a) && IncStep(y, TlvPts(loc, v, e), z, b)
    ensures PlainStep(y.df, TlvPts(loc, v, e), z.df, b) <==> In(x.df, loc, v) <= Top(x.df, e)
  {
    hide In, Out, Top, FlaggedIn, FlaggedOut;
    assert v !in FlaggedIn(y, loc) by { assert FlaggedIn(y, loc) == FlaggedIn(x, loc) - {v} + {}; }
    assert In(y.df, loc, v) == In(x.df, loc, v) + AddIn(TlvPts(loc, v, d), x.df, loc, v);
    assert Top(y.df, e) == Top(x.df, e) + AddTop(TlvPts(loc, v, d), x.df, e);
    var op := TlvPts(loc, v, e);
    assert AddTop(op, y.df, e) == In(y.df, loc, v);
    if In(x.df, loc, v) <= Top(x.df, e) {
      assert !Adds(op, y.df);
      IdleIsPlain(y, op, z);
    } else {
      assert Adds(op, y.df);
    }
  }
}
