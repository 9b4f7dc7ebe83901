/** The plain data-flow points-to store. */
module DfPtData {
  import opened DfPoints

  /** `t` is `s` after the sets of one IN entry were united with `data`. */
  ghost predicate UnitedIn(s: Df, t: Df, l: LocId, v: Key, data: set<Key>) {
    && (forall k: LocId, w: Key {:trigger In(t, k, w)} ::
        In(t, k, w) == In(s, k, w) + if k == l && w == v then data else {})
    && SameOut(s, t) && SameTop(s, t)
  }

  ghost predicate UnitedOut(s: Df, t: Df, l: LocId, v: Key, data: set<Key>) {
    && (forall k: LocId, w: Key {:trigger Out(t, k, w)} ::
        Out(t, k, w) == Out(s, k, w) + if k == l && w == v then data else {})
    && SameIn(s, t) && SameTop(s, t)
  }

  ghost predicate UnitedTop(s: Df, t: Df, v: Key, data: set<Key>) {
    && (forall w: Key {:trigger Top(t, w)} :: Top(t, w) == Top(s, w) + if w == v then data else {})
    && SameIn(s, t) && SameOut(s, t)
  }

  lemma InStep(s: Df, t: Df, op: Op, l: LocId, v: Key, changed: bool)
    requires UnitedIn(s, t, l, v, AddIn(op, s, l, v)) && (changed <==> !(AddIn(op, s, l, v) <= In(s, l, v)))
    requires op.InFromIn? || op.InFromOut? || op.AllInFromIn? || op.AllInFromOut?
    requires l == op.e.dst && v == op.e.dstVar
    ensures PlainStep(s, op, t, changed)
  {
    hide In, Out, Top;
  }

  lemma OutStep(s: Df, t: Df, op: Op, l: LocId, v: Key, changed: bool)
    requires UnitedOut(s, t, l, v, AddOut(op, s, l, v)) && (changed <==> !(AddOut(op, s, l, v) <= Out(s, l, v)))
    requires (op.OutFromIn? && l == op.e.dst && v == op.e.dstVar) || (op.AtvPts? && l == op.loc && v == op.dstVar)
    ensures PlainStep(s, op, t, changed)
  {
    hide In, Out, Top;
  }

  lemma TopStep(s: Df, t: Df, op: Op, v: Key, changed: bool)
    requires UnitedTop(s, t, v, AddTop(op, s, v)) && (changed <==> !(AddTop(op, s, v) <= Top(s, v)))
    requires (op.TlvPts? || op.AddPts? || op.UnionPts?) && v == op.dstVar
    ensures PlainStep(s, op, t, changed)
  {
    hide In, Out, Top;
  }

  // What each operation does: one set is united with another, except that all IN sets of a location, but for a
  // strongly updated one, can go to the OUT sets at once.

  lemma InMeans(s: Df, op: Op, t: Df, changed: bool)
    requires PlainStep(s, op, t, changed) && (op.InFromIn? || op.AllInFromIn? || op.InFromOut? || op.AllInFromOut?)
    ensures var e := op.e;
      var data := if op.InFromIn? || op.AllInFromIn? then In(s, e.src, e.srcVar) else Out(s, e.src, e.srcVar);
      UnitedIn(s, t, e.dst, e.dstVar, data) && (changed <==> !(data <= In(s, e.dst, e.dstVar)))
  {
    hide In, Out, Top;
    var e := op.e;
    var data := if op.InFromIn? || op.AllInFromIn? then In(s, e.src, e.srcVar) else Out(s, e.src, e.srcVar);
    assert AddIn(op, s, e.dst, e.dstVar) == data;
  }

  lemma OutMeans(s: Df, op: Op, t: Df, changed: bool)
    requires PlainStep(s, op, t, changed) && (op.OutFromIn? || op.AtvPts?)
    ensures var data := if op.OutFromIn? then In(s, op.e.src, op.e.srcVar) else Top(s, op.srcVar);
      var l, v := if op.OutFromIn? then op.e.dst else op.loc, if op.OutFromIn? then op.e.dstVar else op.dstVar;
      UnitedOut(s, t, l, v, data) && (changed <==> !(data <= Out(s, l, v)))
  {
    hide In, Out, Top;
    var data := if op.OutFromIn? then In(s, op.e.src, op.e.srcVar) else Top(s, op.srcVar);
    var l, v := if op.OutFromIn? then op.e.dst else op.loc, if op.OutFromIn? then op.e.dstVar else op.dstVar;
    assert AddOut(op, s, l, v) == data;
  }

  lemma TopMeans(s: Df, op: Op, t: Df, changed: bool)
    requires PlainStep(s, op, t, changed) && (op.TlvPts? || op.AddPts? || op.UnionPts?)
    ensures var data := if op.TlvPts? then In(s, op.loc, op.srcVar)
                        else if op.AddPts? then {op.obj} else Top(s, op.srcVar);
      UnitedTop(s, t, op.dstVar, data) && (changed <==> !(data <= Top(s, op.dstVar)))
  {
    hide In, Out, Top;
    assert AddTop(op, s, op.dstVar) ==
        if op.TlvPts? then In(s, op.loc, op.srcVar) else if op.AddPts? then {op.obj} else Top(s, op.srcVar);
  }

  /** All IN sets of a location but for a strongly updated one go to the OUT sets. */
  lemma AllOutMeans(s: Df, loc: LocId, x: Key, strong: bool, t: Df, changed: bool)
    requires PlainStep(s, AllOutFromIn(loc, x, strong), t, changed)
    ensures SameIn(s, t) && SameTop(s, t)
    ensures forall l: LocId, v: Key {:trigger Out(t, l, v)} ::
        Out(t, l, v) == Out(s, l, v) + if l == loc && (v != x || !strong) then In(s, loc, v) else {}
    ensures changed <==> exists v: Key :: (v != x || !strong) && !(In(s, loc, v) <= Out(s, loc, v))
  {
    var op := AllOutFromIn(loc, x, strong);
    hide In, Out, Top;
    if v: Key :| (v != x || !strong) && !(In(s, loc, v) <= Out(s, loc, v)) {
      assert !(AddOut(op, s, loc, v) <= Out(s, loc, v));
    }
  }

  class DFPTData {
    var dfInPtsMap: DfPtsMap
    var dfOutPtsMap: DfPtsMap
    var ptsMap: PtsMap

    ghost function View(): Df reads this { Df(dfInPtsMap, dfOutPtsMap, ptsMap) }

    constructor ()
      ensures View() == Df(map[], map[], map[])
    {
      dfInPtsMap, dfOutPtsMap, ptsMap := map[], map[], map[];
    }

    predicate HasDFInSet(loc: LocId): (r: bool)
      reads this
      ensures r <==> HasIn(View(), loc)
    {
      loc in dfInPtsMap
    }

    predicate HasDFOutSet(loc: LocId): (r: bool)
      reads this
      ensures r <==> HasOut(View(), loc)
    {
      loc in dfOutPtsMap
    }

    // Looking an entry up makes an empty one if there is none.

    method GetDFInPtsSet(loc: LocId, v: Key) returns (data: set<Key>)
      modifies this`dfInPtsMap
      ensures data == In(old(View()), loc, v) && SameSets(old(View()), View()) && KeepsEntries(old(View()), View())
    {
      data := PtsAt(dfInPtsMap, loc, v);
      PutAt(dfInPtsMap, loc, v, data);
      dfInPtsMap := Put(dfInPtsMap, loc, v, data);
    }

    method GetDFOutPtsSet(loc: LocId, v: Key) returns (data: set<Key>)
      modifies this`dfOutPtsMap
      ensures data == Out(old(View()), loc, v) && SameSets(old(View()), View()) && KeepsEntries(old(View()), View())
    {
      data := PtsAt(dfOutPtsMap, loc, v);
      PutAt(dfOutPtsMap, loc, v, data);
      dfOutPtsMap := Put(dfOutPtsMap, loc, v, data);
    }

    method GetPts(v: Key) returns (data: set<Key>)
      modifies this`ptsMap
      ensures data == Top(old(View()), v) && SameSets(old(View()), View()) && KeepsEntries(old(View()), View())
    {
      data := Pts(ptsMap, v);
      ptsMap := ptsMap[v := data];
    }

    method UnionIn(loc: LocId, v: Key, src: set<Key>) returns (changed: bool)
      modifies this`dfInPtsMap
      ensures KeepsEntries(old(View()), View()) && HasIn(View(), loc)
      ensures UnitedIn(old(View()), View(), loc, v, src) && (changed <==> !(src <= In(old(View()), loc, v)))
    {
      var dst := PtsAt(dfInPtsMap, loc, v);
      PutAt(dfInPtsMap, loc, v, dst + src);
      dfInPtsMap := Put(dfInPtsMap, loc, v, dst + src);
      changed := dst + src != dst;
    }

    method UnionOut(loc: LocId, v: Key, src: set<Key>) returns (changed: bool)
      modifies this`dfOutPtsMap
      ensures KeepsEntries(old(View()), View()) && HasOut(View(), loc)
      ensures UnitedOut(old(View()), View(), loc, v, src) && (changed <==> !(src <= Out(old(View()), loc, v)))
    {
      var dst := PtsAt(dfOutPtsMap, loc, v);
      PutAt(dfOutPtsMap, loc, v, dst + src);
      dfOutPtsMap := Put(dfOutPtsMap, loc, v, dst + src);
      changed := dst + src != dst;
    }

    method UnionTop(v: Key, src: set<Key>) returns (changed: bool)
      modifies this`ptsMap
      ensures KeepsEntries(old(View()), View())
      ensures UnitedTop(old(View()), View(), v, src) && (changed <==> !(src <= Top(old(View()), v)))
    {
      var dst := Pts(ptsMap, v);
      ptsMap := ptsMap[v := dst + src];
      changed := dst + src != dst;
    }

    method UpdateDFInFromIn(e: Edge) returns (changed: bool)
      modifies this
      ensures PlainStep(old(View()), InFromIn(e), View(), changed)
    {
      var src := GetDFInPtsSet(e.src, e.srcVar);
      changed := UnionIn(e.dst, e.dstVar, src);
      InStep(old(View()), View(), InFromIn(e), e.dst, e.dstVar, changed);
    }

    method UpdateDFInFromOut(e: Edge) returns (changed: bool)
      modifies this
      ensures PlainStep(old(View()), InFromOut(e), View(), changed)
    {
      var src := GetDFOutPtsSet(e.src, e.srcVar);
      changed := UnionIn(e.dst, e.dstVar, src);
      InStep(old(View()), View(), InFromOut(e), e.dst, e.dstVar, changed);
    }

    method UpdateDFOutFromIn(e: Edge) returns (changed: bool)
      modifies this
      ensures PlainStep(old(View()), OutFromIn(e), View(), changed)
    {
      var src := GetDFInPtsSet(e.src, e.srcVar);
      changed := UnionOut(e.dst, e.dstVar, src);
      OutStep(old(View()), View(), OutFromIn(e), e.dst, e.dstVar, changed);
    }

    method UpdateAllDFInFromOut(e: Edge) returns (changed: bool)
      modifies this
      ensures PlainStep(old(View()), AllInFromOut(e), View(), changed)
    {
      changed := UpdateDFInFromOut(e);
      SameOp(old(View()), View(), InFromOut(e), AllInFromOut(e), changed);
    }

    method UpdateAllDFInFromIn(e: Edge) returns (changed: bool)
      modifies this
      ensures PlainStep(old(View()), AllInFromIn(e), View(), changed)
    {
      changed := UpdateDFInFromIn(e);
      SameOp(old(View()), View(), InFromIn(e), AllInFromIn(e), changed);
    }

    /** Every variable with an IN entry at `loc`, except the one that is strongly updated. */
    method UpdateAllDFOutFromIn(loc: LocId, singleton: Key, strongUpdates: bool) returns (changed: bool)
      modifies this
      ensures PlainStep(old(View()), AllOutFromIn(loc, singleton, strongUpdates), View(), changed)
    {
      hide In, Out, Top, PlainStep;
      ghost var s := View();
      changed := false;
      NoEntry(s, loc);
      if HasDFInSet(loc) {
        var todo := dfInPtsMap[loc].Keys;
        ghost var done := {};
        StartedPart(s, loc, singleton, strongUpdates);
        while todo != {}
          invariant forall v: Key :: v !in todo + done ==> In(s, loc, v) == {}
          invariant Part(s, View(), loc, singleton, strongUpdates, done, changed)
        {
          var v :| v in todo;
          todo := todo - {v};
          if !(strongUpdates && v == singleton) {
            ghost var t := View();
            var grew := UpdateDFOutFromIn(Edge(loc, v, loc, v));
            NextPart(s, t, View(), loc, singleton, strongUpdates, done, v, changed, grew);
            changed := changed || grew;
          } else {
            SkippedPart(s, View(), loc, singleton, strongUpdates, done, v, changed);
          }
          done := done + {v};
        }
        WholePart(s, View(), loc, singleton, strongUpdates, done, changed);
      } else {
        StartedPart(s, loc, singleton, strongUpdates);
        WholePart(s, s, loc, singleton, strongUpdates, {}, false);
      }
    }

    method UpdateTLVPts(loc: LocId, srcVar: Key, dstVar: Key) returns (changed: bool)
      modifies this
      ensures PlainStep(old(View()), TlvPts(loc, srcVar, dstVar), View(), changed)
    {
      var src := GetDFInPtsSet(loc, srcVar);
      changed := UnionTop(dstVar, src);
      TopStep(old(View()), View(), TlvPts(loc, srcVar, dstVar), dstVar, changed);
    }

    method UpdateATVPts(srcVar: Key, loc: LocId, dstVar: Key) returns (changed: bool)
      modifies this
      ensures PlainStep(old(View()), AtvPts(srcVar, loc, dstVar), View(), changed)
    {
      var src := GetPts(srcVar);
      changed := UnionOut(loc, dstVar, src);
      OutStep(old(View()), View(), AtvPts(srcVar, loc, dstVar), loc, dstVar, changed);
    }

    /** Nothing to clear: there are no flags. */
    method ClearAllDFOutUpdatedVar(loc: LocId)
      ensures PlainStep(View(), ClearOut(loc), View(), false)
    {}

    method AddPointsTo(dstKey: Key, obj: Key) returns (changed: bool)
      modifies this
      ensures PlainStep(old(View()), AddPts(dstKey, obj), View(), changed)
    {
      changed := UnionTop(dstKey, {obj});
      TopStep(old(View()), View(), AddPts(dstKey, obj), dstKey, changed);
    }

    method UnionPointsTo(dstKey: Key, srcKey: Key) returns (changed: bool)
      modifies this
      ensures PlainStep(old(View()), UnionPts(dstKey, srcKey), View(), changed)
    {
      var src := GetPts(srcKey);
      changed := UnionTop(dstKey, src);
      TopStep(old(View()), View(), UnionPts(dstKey, srcKey), dstKey, changed);
    }
  }

  lemma SameOp(s: Df, t: Df, op: Op, op': Op, changed: bool)
    requires PlainStep(s, op, t, changed)
    requires (op.InFromIn? && op' == AllInFromIn(op.e)) || (op.InFromOut? && op' == AllInFromOut(op.e))
    ensures PlainStep(s, op', t, changed)
  {
    hide In, Out, Top;
    assert forall l: LocId, v: Key :: AddIn(op, s, l, v) == AddIn(op', s, l, v);
  }

  // ------------------------------------------------------------------ the loop over a location's variables

  lemma NoEntry(s: Df, loc: LocId)
    ensures forall v: Key :: (loc in s.inp ==> v !in s.inp[loc].Keys) ==> In(s, loc, v) == {}
  {}

  predicate Taken(x: Key, strong: bool, v: Key) { !(strong && v == x) }

  /** `t` is `s` after the OUT sets of the variables in `done` were united with their IN sets. */
  ghost predicate Part(s: Df, t: Df, loc: LocId, x: Key, strong: bool, done: set<Key>, changed: bool) {
    && SameIn(s, t) && SameTop(s, t)
    && (forall l: LocId, v: Key {:trigger Out(t, l, v)} ::
          Out(t, l, v) == Out(s, l, v) + if l == loc && v in done && Taken(x, strong, v) then In(s, l, v) else {})
    && (changed <==> exists v: Key :: v in done && Taken(x, strong, v) && !(In(s, loc, v) <= Out(s, loc, v)))
  }

  lemma StartedPart(s: Df, loc: LocId, x: Key, strong: bool)
    ensures Part(s, s, loc, x, strong, {}, false)
  {}

  lemma NextPart(s: Df, t: Df, u: Df, loc: LocId, x: Key, strong: bool, done: set<Key>, v: Key, changed: bool,
                 grew: bool)
    requires Part(s, t, loc, x, strong, done, changed) && Taken(x, strong, v)
    requires PlainStep(t, OutFromIn(Edge(loc, v, loc, v)), u, grew)
    ensures Part(s, u, loc, x, strong, done + {v}, changed || grew)
  {
    hide In, Out, Top, Adds;
    SameOutAdded(t, loc, v);
    assert In(t, loc, v) == In(s, loc, v);
    assert Out(t, loc, v) == Out(s, loc, v) + if v in done then In(s, loc, v) else {};
    assert SameIn(s, u) by {
      forall k: LocId, w: Key ensures In(u, k, w) == In(s, k, w) { assert In(u, k, w) == In(t, k, w); }
    }
    assert SameTop(s, u) by {
      forall w: Key ensures Top(u, w) == Top(s, w) { assert Top(u, w) == Top(t, w); }
    }
    forall k: LocId, w: Key
      ensures Out(u, k, w) == Out(s, k, w) +
          if k == loc && w in done + {v} && Taken(x, strong, w) then In(s, k, w) else {}
    {
      assert Out(u, k, w) == Out(t, k, w) + if k == loc && w == v then In(t, k, w) else {};
    }
  }

  lemma SameOutAdded(t: Df, loc: LocId, v: Key)
    ensures Adds(OutFromIn(Edge(loc, v, loc, v)), t) <==> !(In(t, loc, v) <= Out(t, loc, v))
  {
    hide In, Out, Top;
    var op := OutFromIn(Edge(loc, v, loc, v));
    assert AddOut(op, t, loc, v) == In(t, loc, v);
  }

  lemma SkippedPart(s: Df, t: Df, loc: LocId, x: Key, strong: bool, done: set<Key>, v: Key, changed: bool)
    requires Part(s, t, loc, x, strong, done, changed) && !Taken(x, strong, v)
    ensures Part(s, t, loc, x, strong, done + {v}, changed)
  {
    hide In, Out, Top;
  }

  lemma WholePart(s: Df, t: Df, loc: LocId, x: Key, strong: bool, done: set<Key>, changed: bool)
    requires Part(s, t, loc, x, strong, done, changed) && forall v: Key :: v !in done ==> In(s, loc, v) == {}
    ensures PlainStep(s, AllOutFromIn(loc, x, strong), t, changed)
  {
    hide In, Out, Top;
    var op := AllOutFromIn(loc, x, strong);
    assert forall v: Key :: Taken(x, strong, v) ==> AddOut(op, s, loc, v) == In(s, loc, v);
  }
}
