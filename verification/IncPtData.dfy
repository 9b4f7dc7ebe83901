/**
 The incremental data-flow points-to store: it remembers which IN and OUT sets have changed since they
 were last passed on, and passes on only those.
 */
module IncPtData {
  import opened DfPoints
  import opened DfPtData

  /** A store and, per location, the variables whose IN or OUT set is flagged as changed. */
  datatype Inc = Inc(df: Df, inFlags: FlagMap, outFlags: FlagMap)

  function FlaggedIn(x: Inc, l: LocId): set<Key> { Flags(x.inFlags, l) }

  function FlaggedOut(x: Inc, l: LocId): set<Key> { Flags(x.outFlags, l) }

  /** Flags are only set for locations that have entries. */
  ghost predicate Present(x: Inc) {
    && (forall l: LocId, v: Key :: v in Flags(x.inFlags, l) ==> HasIn(x.df, l))
    && (forall l: LocId, v: Key :: v in Flags(x.outFlags, l) ==> HasOut(x.df, l))
  }

  lemma Unflagged(x: Inc, loc: LocId)
    requires Present(x)
    ensures (!HasIn(x.df, loc) ==> FlaggedIn(x, loc) == {}) && (!HasOut(x.df, loc) ==> FlaggedOut(x, loc) == {})
  {
    hide HasIn, HasOut;
    assert forall v: Key :: v in FlaggedIn(x, loc) <==> v in Flags(x.inFlags, loc);
    assert forall v: Key :: v in FlaggedOut(x, loc) <==> v in Flags(x.outFlags, loc);
  }

  lemma FlagsSet(m: FlagMap, loc: LocId, s: set<Key>)
    ensures forall l: LocId {:trigger Flags(m[loc := s], l)} ::
        Flags(m[loc := s], l) == if l == loc then s else Flags(m, l)
  {}

  lemma StillPresent(x: Inc, y: Inc)
    requires Present(x) && KeepsEntries(x.df, y.df) && y.inFlags == x.inFlags && y.outFlags == x.outFlags
    ensures Present(y)
  {}

  // ------------------------------------------------------------------ what the operations do

  ghost predicate InFlags(x: Inc, y: Inc, loc: LocId, less: set<Key>, more: set<Key>) {
    forall l: LocId {:trigger FlaggedIn(y, l)} ::
      FlaggedIn(y, l) == if l == loc then FlaggedIn(x, l) - less + more else FlaggedIn(x, l)
  }

  ghost predicate OutFlags(x: Inc, y: Inc, loc: LocId, less: set<Key>, more: set<Key>) {
    forall l: LocId {:trigger FlaggedOut(y, l)} ::
      FlaggedOut(y, l) == if l == loc then FlaggedOut(x, l) - less + more else FlaggedOut(x, l)
  }

  ghost predicate SameInFlags(x: Inc, y: Inc) {
    forall l: LocId {:trigger FlaggedIn(y, l)} :: FlaggedIn(y, l) == FlaggedIn(x, l)
  }

  ghost predicate SameOutFlags(x: Inc, y: Inc) {
    forall l: LocId {:trigger FlaggedOut(y, l)} :: FlaggedOut(y, l) == FlaggedOut(x, l)
  }

  function When(b: bool, v: Key): set<Key> { if b then {v} else {} }

  ghost predicate Untouched(x: Inc, y: Inc) { SameSets(x.df, y.df) && SameInFlags(x, y) && SameOutFlags(x, y) }

  ghost predicate Idle(x: Inc, y: Inc, changed: bool) {
    SameSets(x.df, y.df) && SameInFlags(x, y) && SameOutFlags(x, y) && !changed
  }

  /** An IN set is united with another set, and flagged if it grew. */
  ghost predicate IntoIn(x: Inc, op: Op, y: Inc, e: Edge, changed: bool) {
    PlainStep(x.df, op, y.df, changed) && InFlags(x, y, e.dst, {}, When(changed, e.dstVar)) && SameOutFlags(x, y)
  }

  ghost predicate MoveOn(x: Inc, op: Op, y: Inc, e: Edge, changed: bool) {
    && PlainStep(x.df, op, y.df, changed)
    && InFlags(x, y, e.src, {e.srcVar}, {}) && OutFlags(x, y, e.dst, {}, When(changed, e.dstVar))
  }

  ghost function Fresh(x: Inc, loc: LocId, vs: set<Key>): set<Key> {
    set v: Key | v in vs && !(In(x.df, loc, v) <= Out(x.df, loc, v))
  }

  ghost function Chosen(vs: set<Key>, x: Key, strong: bool): set<Key> { set v: Key | v in vs && Taken(x, strong, v) }

  /** The IN sets of the variables in `vs` flow to their OUT sets. */
  ghost predicate Flush(x: Inc, y: Inc, loc: LocId, vs: set<Key>, changed: bool) {
    && SameIn(x.df, y.df) && SameTop(x.df, y.df)
    && (forall l: LocId, v: Key {:trigger Out(y.df, l, v)} ::
          Out(y.df, l, v) == Out(x.df, l, v) + if l == loc && v in vs then In(x.df, l, v) else {})
    && (changed <==> Fresh(x, loc, vs) != {})
    && InFlags(x, y, loc, vs, {}) && OutFlags(x, y, loc, {}, Fresh(x, loc, vs))
  }

  /** One operation of the incremental store. */
  ghost predicate IncStep(x: Inc, op: Op, y: Inc, changed: bool) {
    match op
    case InFromIn(e) => if e.srcVar in FlaggedIn(x, e.src) then IntoIn(x, op, y, e, changed) else Idle(x, y, changed)
    case InFromOut(e) => if e.srcVar in FlaggedOut(x, e.src) then IntoIn(x, op, y, e, changed) else Idle(x, y, changed)
    case AllInFromIn(e) => IntoIn(x, op, y, e, changed)
    case AllInFromOut(e) => IntoIn(x, op, y, e, changed)
    case OutFromIn(e) => if e.srcVar in FlaggedIn(x, e.src) then MoveOn(x, op, y, e, changed) else Idle(x, y, changed)
    case AllOutFromIn(loc, singleton, strong) => Flush(x, y, loc, Chosen(FlaggedIn(x, loc), singleton, strong), changed)
    case TlvPts(loc, srcVar, _) =>
      if srcVar in FlaggedIn(x, loc)
      then PlainStep(x.df, op, y.df, changed) && InFlags(x, y, loc, {srcVar}, {}) && SameOutFlags(x, y)
      else Idle(x, y, changed)
    case AtvPts(_, loc, dstVar) =>
      PlainStep(x.df, op, y.df, changed) && SameInFlags(x, y) && OutFlags(x, y, loc, {}, When(changed, dstVar))
    case ClearOut(loc) =>
      SameSets(x.df, y.df) && !changed && SameInFlags(x, y) && OutFlags(x, y, loc, FlaggedOut(x, loc), {})
    case AddPts(_, _) => PlainStep(x.df, op, y.df, changed) && SameInFlags(x, y) && SameOutFlags(x, y)
    case UnionPts(_, _) => PlainStep(x.df, op, y.df, changed) && SameInFlags(x, y) && SameOutFlags(x, y)
  }

  /** Four operations look at a flag first: without it they do nothing, and with it what the plain store does. */
  lemma GuardMeans(x: Inc, op: Op, y: Inc, changed: bool)
    requires IncStep(x, op, y, changed) && (op.InFromIn? || op.InFromOut? || op.OutFromIn? || op.TlvPts?)
    ensures var flagged := if op.TlvPts? then op.srcVar in FlaggedIn(x, op.loc)
                           else if op.InFromOut? then op.e.srcVar in FlaggedOut(x, op.e.src)
                           else op.e.srcVar in FlaggedIn(x, op.e.src);
      if flagged then PlainStep(x.df, op, y.df, changed) else SameSets(x.df, y.df) && !changed
  {
    hide In, Out, Top, FlaggedIn, FlaggedOut, PlainStep;
  }

  /** A flag is set on what has grown. The flag of an IN set is taken off when the set is passed on within its location,
      and OUT flags when they are cleared. */
  lemma FlagsMean(x: Inc, op: Op, y: Inc, changed: bool)
    requires IncStep(x, op, y, changed) && !op.AllOutFromIn?
    ensures forall l: LocId, v: Key {:trigger v in FlaggedIn(y, l)} ::
        v in FlaggedIn(y, l) <==>
          || (v in FlaggedIn(x, l) && !(op.OutFromIn? && l == op.e.src && v == op.e.srcVar)
                                   && !(op.TlvPts? && l == op.loc && v == op.srcVar))
          || (changed && (op.InFromIn? || op.InFromOut? || op.AllInFromIn? || op.AllInFromOut?) &&
              l == op.e.dst && v == op.e.dstVar)
    ensures forall l: LocId, v: Key {:trigger v in FlaggedOut(y, l)} ::
        v in FlaggedOut(y, l) <==>
          || (v in FlaggedOut(x, l) && !(op.ClearOut? && l == op.loc))
          || (changed && op.OutFromIn? && l == op.e.dst && v == op.e.dstVar)
          || (changed && op.AtvPts? && l == op.loc && v == op.dstVar)
  {
    hide In, Out, Top, FlaggedIn, FlaggedOut, PlainStep, SameSets;
  }

  /** The flagged IN sets of a location, but for a strongly updated one, go to its OUT sets; their flags are taken off,
      and the OUT sets that grow are flagged. */
  lemma FlushMeans(x: Inc, loc: LocId, single: Key, strong: bool, y: Inc, changed: bool)
    requires IncStep(x, AllOutFromIn(loc, single, strong), y, changed)
    ensures SameIn(x.df, y.df) && SameTop(x.df, y.df)
    ensures forall l: LocId, v: Key ::
        var goes := l == loc && v in FlaggedIn(x, loc) && !(strong && v == single);
        && Out(y.df, l, v) == Out(x.df, l, v) + (if goes then In(x.df, l, v) else {})
        && (v in FlaggedIn(y, l) <==> v in FlaggedIn(x, l) && !goes)
        && (v in FlaggedOut(y, l) <==> v in FlaggedOut(x, l) || (goes && !(In(x.df, l, v) <= Out(x.df, l, v))))
    ensures changed <==> exists v: Key ::
        v in FlaggedIn(x, loc) && !(strong && v == single) && !(In(x.df, loc, v) <= Out(x.df, loc, v))
  {
    hide In, Out, Top, FlaggedIn, FlaggedOut;
    var goers := Fresh(x, loc, Chosen(FlaggedIn(x, loc), single, strong));
    assert forall v: Key :: v in goers <==>
        v in FlaggedIn(x, loc) && !(strong && v == single) && !(In(x.df, loc, v) <= Out(x.df, loc, v));
  }

  // ------------------------------------------------------------------ the class

  class IncDFPTData {
    const data: DFPTData              // what is inherited
    var inUpdatedVarMap: FlagMap
    var outUpdatedVarMap: FlagMap

    ghost function View(): Inc reads this, data { Inc(data.View(), inUpdatedVarMap, outUpdatedVarMap) }

    ghost predicate Valid() reads this, data { Present(View()) }

    constructor ()
      ensures Valid() && fresh(data) && View() == Inc(Df(map[], map[], map[]), map[], map[])
    {
      data := new DFPTData();
      inUpdatedVarMap, outUpdatedVarMap := map[], map[];
    }

    method SetVarDFInSetUpdated(loc: LocId, v: Key)
      requires Valid() && data.HasDFInSet(loc)
      modifies this`inUpdatedVarMap
      ensures Valid() && InFlags(old(View()), View(), loc, {}, {v}) && View().df == old(View()).df
      ensures SameOutFlags(old(View()), View())
    {
      FlagsSet(inUpdatedVarMap, loc, Flags(inUpdatedVarMap, loc) + {v});
      inUpdatedVarMap := inUpdatedVarMap[loc := Flags(inUpdatedVarMap, loc) + {v}];
    }

    method RemoveVarFromDFInUpdatedSet(loc: LocId, v: Key)
      requires Valid()
      modifies this`inUpdatedVarMap
      ensures Valid() && InFlags(old(View()), View(), loc, {v}, {}) && View().df == old(View()).df
      ensures SameOutFlags(old(View()), View())
    {
      if loc in inUpdatedVarMap {
        FlagsSet(inUpdatedVarMap, loc, Flags(inUpdatedVarMap, loc) - {v});
        inUpdatedVarMap := inUpdatedVarMap[loc := inUpdatedVarMap[loc] - {v}];
      }
    }

    predicate VarHasNewDFInPts(loc: LocId, v: Key): (r: bool)
      reads this, data
      ensures r <==> v in FlaggedIn(View(), loc)
    {
      loc in inUpdatedVarMap && v in inUpdatedVarMap[loc]
    }

    method SetVarDFOutSetUpdated(loc: LocId, v: Key)
      requires Valid() && data.HasDFOutSet(loc)
      modifies this`outUpdatedVarMap
      ensures Valid() && OutFlags(old(View()), View(), loc, {}, {v}) && View().df == old(View()).df
      ensures SameInFlags(old(View()), View())
    {
      FlagsSet(outUpdatedVarMap, loc, Flags(outUpdatedVarMap, loc) + {v});
      outUpdatedVarMap := outUpdatedVarMap[loc := Flags(outUpdatedVarMap, loc) + {v}];
    }

    method RemoveVarFromDFOutUpdatedSet(loc: LocId, v: Key)
      requires Valid()
      modifies this`outUpdatedVarMap
      ensures Valid() && OutFlags(old(View()), View(), loc, {v}, {}) && View().df == old(View()).df
      ensures SameInFlags(old(View()), View())
    {
      if loc in outUpdatedVarMap {
        FlagsSet(outUpdatedVarMap, loc, Flags(outUpdatedVarMap, loc) - {v});
        outUpdatedVarMap := outUpdatedVarMap[loc := outUpdatedVarMap[loc] - {v}];
      }
    }

    predicate VarHasNewDFOutPts(loc: LocId, v: Key): (r: bool)
      reads this, data
      ensures r <==> v in FlaggedOut(View(), loc)
    {
      loc in outUpdatedVarMap && v in outUpdatedVarMap[loc]
    }

    method GetDFInPtsSet(loc: LocId, v: Key) returns (src: set<Key>)
      requires Valid()
      modifies data
      ensures Valid() && Untouched(old(View()), View()) && src == In(old(View().df), loc, v)
    {
      src := data.GetDFInPtsSet(loc, v);
      StillPresent(old(View()), View());
    }

    method GetDFOutPtsSet(loc: LocId, v: Key) returns (src: set<Key>)
      requires Valid()
      modifies data
      ensures Valid() && Untouched(old(View()), View()) && src == Out(old(View().df), loc, v)
    {
      src := data.GetDFOutPtsSet(loc, v);
      StillPresent(old(View()), View());
    }

    method GetPts(v: Key) returns (src: set<Key>)
      requires Valid()
      modifies data
      ensures Valid() && Untouched(old(View()), View()) && src == Top(old(View().df), v)
    {
      src := data.GetPts(v);
      StillPresent(old(View()), View());
    }

    method GrowTop(v: Key, src: set<Key>) returns (changed: bool)
      requires Valid()
      modifies data
      ensures Valid() && UnitedTop(old(View().df), View().df, v, src)
      ensures changed <==> !(src <= Top(old(View().df), v))
      ensures SameInFlags(old(View()), View()) && SameOutFlags(old(View()), View())
    {
      changed := data.UnionTop(v, src);
      StillPresent(old(View()), View());
    }

    /** Unite an IN set with `src` and flag it if it grew. */
    method GrowIn(loc: LocId, v: Key, src: set<Key>) returns (changed: bool)
      requires Valid()
      modifies this, data
      ensures Valid() && UnitedIn(old(View().df), View().df, loc, v, src)
      ensures changed <==> !(src <= In(old(View().df), loc, v))
      ensures InFlags(old(View()), View(), loc, {}, When(changed, v)) && SameOutFlags(old(View()), View())
    {
      hide In, Out, Top, Flags, UnitedIn;
      changed := data.UnionIn(loc, v, src);
      StillPresent(old(View()), View());
      if changed { SetVarDFInSetUpdated(loc, v); }
    }

    method GrowOut(loc: LocId, v: Key, src: set<Key>) returns (changed: bool)
      requires Valid()
      modifies this, data
      ensures Valid() && UnitedOut(old(View().df), View().df, loc, v, src)
      ensures changed <==> !(src <= Out(old(View().df), loc, v))
      ensures OutFlags(old(View()), View(), loc, {}, When(changed, v)) && SameInFlags(old(View()), View())
    {
      hide In, Out, Top, Flags, UnitedOut;
      changed := data.UnionOut(loc, v, src);
      StillPresent(old(View()), View());
      if changed { SetVarDFOutSetUpdated(loc, v); }
    }

    method UpdateAllDFInFromIn(e: Edge) returns (changed: bool)
      requires Valid()
      modifies this, data
      ensures Valid() && IncStep(old(View()), AllInFromIn(e), View(), changed)
    {
      hide In, Out, Top, Adds, FlaggedIn, FlaggedOut;
      var src := GetDFInPtsSet(e.src, e.srcVar);
      changed := GrowIn(e.dst, e.dstVar, src);
      InStep(old(View().df), View().df, AllInFromIn(e), e.dst, e.dstVar, changed);
    }

    method UpdateAllDFInFromOut(e: Edge) returns (changed: bool)
      requires Valid()
      modifies this, data
      ensures Valid() && IncStep(old(View()), AllInFromOut(e), View(), changed)
    {
      hide In, Out, Top, Adds, FlaggedIn, FlaggedOut;
      var src := GetDFOutPtsSet(e.src, e.srcVar);
      changed := GrowIn(e.dst, e.dstVar, src);
      InStep(old(View().df), View().df, AllInFromOut(e), e.dst, e.dstVar, changed);
    }

    method UpdateDFInFromIn(e: Edge) returns (changed: bool)
      requires Valid()
      modifies this, data
      ensures Valid() && IncStep(old(View()), InFromIn(e), View(), changed)
    {
      hide In, Out, Top, Adds, FlaggedIn, FlaggedOut;
      changed := false;
      if VarHasNewDFInPts(e.src, e.srcVar) {
        var src := GetDFInPtsSet(e.src, e.srcVar);
        changed := GrowIn(e.dst, e.dstVar, src);
        InStep(old(View().df), View().df, InFromIn(e), e.dst, e.dstVar, changed);
      }
    }

    method UpdateDFInFromOut(e: Edge) returns (changed: bool)
      requires Valid()
      modifies this, data
      ensures Valid() && IncStep(old(View()), InFromOut(e), View(), changed)
    {
      hide In, Out, Top, Adds, FlaggedIn, FlaggedOut;
      changed := false;
      if VarHasNewDFOutPts(e.src, e.srcVar) {
        var src := GetDFOutPtsSet(e.src, e.srcVar);
        changed := GrowIn(e.dst, e.dstVar, src);
        InStep(old(View().df), View().df, InFromOut(e), e.dst, e.dstVar, changed);
      }
    }

    method UpdateDFOutFromIn(e: Edge) returns (changed: bool)
      requires Valid()
      modifies this, data
      ensures Valid() && IncStep(old(View()), OutFromIn(e), View(), changed)
    {
      hide In, Out, Top, Adds, FlaggedIn, FlaggedOut;
      changed := false;
      if VarHasNewDFInPts(e.src, e.srcVar) {
        RemoveVarFromDFInUpdatedSet(e.src, e.srcVar);
        var src := GetDFInPtsSet(e.src, e.srcVar);
        changed := GrowOut(e.dst, e.dstVar, src);
        OutStep(old(View().df), View().df, OutFromIn(e), e.dst, e.dstVar, changed);
      }
    }

    method UpdateTLVPts(loc: LocId, srcVar: Key, dstVar: Key) returns (changed: bool)
      requires Valid()
      modifies this, data
      ensures Valid() && IncStep(old(View()), TlvPts(loc, srcVar, dstVar), View(), changed)
    {
      hide In, Out, Top, Adds, FlaggedIn, FlaggedOut;
      changed := false;
      if VarHasNewDFInPts(loc, srcVar) {
        RemoveVarFromDFInUpdatedSet(loc, srcVar);
        var src := GetDFInPtsSet(loc, srcVar);
        changed := GrowTop(dstVar, src);
        TopStep(old(View().df), View().df, TlvPts(loc, srcVar, dstVar), dstVar, changed);
      }
    }

    method UpdateATVPts(srcVar: Key, loc: LocId, dstVar: Key) returns (changed: bool)
      requires Valid()
      modifies this, data
      ensures Valid() && IncStep(old(View()), AtvPts(srcVar, loc, dstVar), View(), changed)
    {
      hide In, Out, Top, Adds, FlaggedIn, FlaggedOut;
      var src := GetPts(srcVar);
      changed := GrowOut(loc, dstVar, src);
      OutStep(old(View().df), View().df, AtvPts(srcVar, loc, dstVar), loc, dstVar, changed);
    }

    method AddPointsTo(dstKey: Key, obj: Key) returns (changed: bool)
      requires Valid()
      modifies this, data
      ensures Valid() && IncStep(old(View()), AddPts(dstKey, obj), View(), changed)
    {
      hide In, Out, Top, Adds, FlaggedIn, FlaggedOut;
      changed := GrowTop(dstKey, {obj});
      TopStep(old(View().df), View().df, AddPts(dstKey, obj), dstKey, changed);
    }

    method UnionPointsTo(dstKey: Key, srcKey: Key) returns (changed: bool)
      requires Valid()
      modifies this, data
      ensures Valid() && IncStep(old(View()), UnionPts(dstKey, srcKey), View(), changed)
    {
      hide In, Out, Top, Adds, FlaggedIn, FlaggedOut;
      var src := GetPts(srcKey);
      changed := GrowTop(dstKey, src);
      TopStep(old(View().df), View().df, UnionPts(dstKey, srcKey), dstKey, changed);
    }

    method ClearAllDFOutUpdatedVar(loc: LocId)
      requires Valid()
      modifies this
      ensures Valid() && IncStep(old(View()), ClearOut(loc), View(), false)
    {
      hide In, Out, Top, HasIn, HasOut;
      ghost var x := View();
      Unflagged(x, loc);
      if data.HasDFOutSet(loc) {
        var pts := Flags(outUpdatedVarMap, loc);
        var todo := pts;
        while todo != {}
          invariant Valid() && todo <= pts && View().df == x.df && SameInFlags(x, View())
          invariant OutFlags(x, View(), loc, pts - todo, {})
        {
          var v :| v in todo;
          RemoveVarFromDFOutUpdatedSet(loc, v);
          todo := todo - {v};
        }
      }
    }

    /** Every flagged variable of `loc`, except the one that is strongly updated. */
    method UpdateAllDFOutFromIn(loc: LocId, singleton: Key, strongUpdates: bool) returns (changed: bool)
      requires Valid()
      modifies this, data
      ensures Valid() && IncStep(old(View()), AllOutFromIn(loc, singleton, strongUpdates), View(), changed)
    {
      hide In, Out, Top, IncStep, Flush, HasIn, HasOut;
      changed := false;
      ghost var x := View();
      Unflagged(x, loc);
      if data.HasDFInSet(loc) {
        var pts := Flags(inUpdatedVarMap, loc);
        var todo := pts;
        ghost var done: set<Key> := {};
        NothingFlushed(x, loc);
        assert Chosen({}, singleton, strongUpdates) == {};
        while todo != {}
          invariant Valid() && done !! todo && pts == todo + done
          invariant Flush(x, View(), loc, Chosen(done, singleton, strongUpdates), changed)
        {
          var v :| v in todo;
          todo := todo - {v};
          if !(strongUpdates && v == singleton) {
            ghost var y := View();
            var grew := UpdateDFOutFromIn(Edge(loc, v, loc, v));
            FlushOneMore(x, y, View(), loc, Chosen(done, singleton, strongUpdates), v, changed, grew);
            changed := changed || grew;
            assert Chosen(done + {v}, singleton, strongUpdates) == Chosen(done, singleton, strongUpdates) + {v};
          } else {
            assert Chosen(done + {v}, singleton, strongUpdates) == Chosen(done, singleton, strongUpdates);
          }
          done := done + {v};
        }
        assert done == pts == FlaggedIn(x, loc);
      } else {
        NothingFlushed(x, loc);
        assert Chosen({}, singleton, strongUpdates) == {};
      }
      FlushIsStep(x, View(), loc, singleton, strongUpdates, changed);
    }
  }

  lemma NothingFlushed(x: Inc, loc: LocId)
    ensures Flush(x, x, loc, {}, false)
  {}

  lemma FlushIsStep(x: Inc, y: Inc, loc: LocId, singleton: Key, strong: bool, changed: bool)
    requires Flush(x, y, loc, Chosen(FlaggedIn(x, loc), singleton, strong), changed)
    ensures IncStep(x, AllOutFromIn(loc, singleton, strong), y, changed)
  {}

  lemma FlushOneMore(x: Inc, y: Inc, z: Inc, loc: LocId, vs: set<Key>, v: Key, changed: bool, grew: bool)
    requires Flush(x, y, loc, vs, changed) && v in FlaggedIn(x, loc) && v !in vs
    requires IncStep(y, OutFromIn(Edge(loc, v, loc, v)), z, grew)
    ensures Flush(x, z, loc, vs + {v}, changed || grew)
  {
    hide In, Out, Top, Adds, Flags;
    SameOutAdded(y.df, loc, v);
    assert v in FlaggedIn(y, loc);
    assert In(y.df, loc, v) == In(x.df, loc, v);
    assert Out(y.df, loc, v) == Out(x.df, loc, v);
    assert Fresh(x, loc, vs + {v}) == Fresh(x, loc, vs) + When(grew, v);
    FlushSets(x.df, y.df, z.df, loc, vs, v, grew);
    FlushFlags(x, y, z, loc, vs, v, grew);
  }

  lemma FlushSets(s: Df, t: Df, u: Df, loc: LocId, vs: set<Key>, v: Key, grew: bool)
    requires SameIn(s, t) && SameTop(s, t) && PlainStep(t, OutFromIn(Edge(loc, v, loc, v)), u, grew)
    requires forall l: LocId, w: Key {:trigger Out(t, l, w)} ::
               Out(t, l, w) == Out(s, l, w) + if l == loc && w in vs then In(s, l, w) else {}
    ensures SameIn(s, u) && SameTop(s, u)
    ensures forall l: LocId, w: Key {:trigger Out(u, l, w)} ::
              Out(u, l, w) == Out(s, l, w) + if l == loc && w in vs + {v} then In(s, l, w) else {}
  {
    hide In, Out, Top, Adds;
    forall k: LocId, w: Key ensures In(u, k, w) == In(s, k, w) { assert In(u, k, w) == In(t, k, w); }
    forall w: Key ensures Top(u, w) == Top(s, w) { assert Top(u, w) == Top(t, w); }
    forall k: LocId, w: Key
      ensures Out(u, k, w) == Out(s, k, w) + if k == loc && w in vs + {v} then In(s, k, w) else {}
    {
      assert Out(u, k, w) == Out(t, k, w) + if k == loc && w == v then In(t, k, w) else {};
    }
  }

  lemma FlushFlags(x: Inc, y: Inc, z: Inc, loc: LocId, vs: set<Key>, v: Key, grew: bool)
    requires InFlags(x, y, loc, vs, {}) && OutFlags(x, y, loc, {}, Fresh(x, loc, vs))
    requires InFlags(y, z, loc, {v}, {}) && OutFlags(y, z, loc, {}, When(grew, v))
    requires Fresh(x, loc, vs + {v}) == Fresh(x, loc, vs) + When(grew, v)
    ensures InFlags(x, z, loc, vs + {v}, {}) && OutFlags(x, z, loc, {}, Fresh(x, loc, vs + {v}))
  {
    hide FlaggedIn, FlaggedOut, Fresh;
    forall l: LocId ensures FlaggedIn(z, l) == if l == loc then FlaggedIn(x, l) - (vs + {v}) + {} else FlaggedIn(x, l) {
      assert FlaggedIn(y, l) == if l == loc then FlaggedIn(x, l) - vs + {} else FlaggedIn(x, l);
    }
    forall l: LocId
      ensures FlaggedOut(z, l) == if l == loc then FlaggedOut(x, l) - {} + Fresh(x, loc, vs + {v}) else FlaggedOut(x, l)
    {
      assert FlaggedOut(y, l) == if l == loc then FlaggedOut(x, l) - {} + Fresh(x, loc, vs) else FlaggedOut(x, l);
    }
  }
}
