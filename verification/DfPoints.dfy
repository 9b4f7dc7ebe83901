/**
 Points-to sets per program location: what a data-flow points-to store holds, and what each of its
 operations adds to it.
 */
module DfPoints {
  type Key = nat
  type LocId = nat
  type PtsMap = map<Key, set<Key>>
  type DfPtsMap = map<LocId, PtsMap>
  type FlagMap = map<LocId, set<Key>>

  /** A missing entry and an empty one mean the same. */
  function Pts(m: PtsMap, v: Key): set<Key> { if v in m then m[v] else {} }

  function PtsAt(m: DfPtsMap, l: LocId, v: Key): set<Key> { if l in m then Pts(m[l], v) else {} }

  function Flags(m: FlagMap, l: LocId): set<Key> { if l in m then m[l] else {} }

  /** Write an entry, making the location's map if there is none. */
  function Put(m: DfPtsMap, l: LocId, v: Key, s: set<Key>): DfPtsMap {
    var at: PtsMap := if l in m then m[l] else map[];
    m[l := at[v := s]]
  }

  lemma PutAt(m: DfPtsMap, l: LocId, v: Key, s: set<Key>)
    ensures forall k: LocId, w: Key :: PtsAt(Put(m, l, v, s), k, w) == if k == l && w == v then s else PtsAt(m, k, w)
    ensures Put(m, l, v, s).Keys == m.Keys + {l}
  {}

  /** IN and OUT sets per location, and the points-to sets of top-level pointers. */
  datatype Df = Df(inp: DfPtsMap, outp: DfPtsMap, top: PtsMap)

  function In(s: Df, l: LocId, v: Key): set<Key> { PtsAt(s.inp, l, v) }

  function Out(s: Df, l: LocId, v: Key): set<Key> { PtsAt(s.outp, l, v) }

  function Top(s: Df, v: Key): set<Key> { Pts(s.top, v) }

  // ------------------------------------------------------------------ operations

  datatype Edge = Edge(src: LocId, srcVar: Key, dst: LocId, dstVar: Key)

  datatype Op =
    | InFromIn(e: Edge)
    | InFromOut(e: Edge)
    | OutFromIn(e: Edge)
    | AllInFromIn(e: Edge)
    | AllInFromOut(e: Edge)
    | AllOutFromIn(loc: LocId, singleton: Key, strong: bool)
    | TlvPts(loc: LocId, srcVar: Key, dstVar: Key)
    | AtvPts(srcVar: Key, loc: LocId, dstVar: Key)
    | ClearOut(loc: LocId)
    | AddPts(dstVar: Key, obj: Key)
    | UnionPts(dstVar: Key, srcVar: Key)

  /** What an operation adds to each IN set, OUT set and top-level set. */
  function AddIn(op: Op, s: Df, l: LocId, v: Key): set<Key> {
    match op
    case InFromIn(e) => if l == e.dst && v == e.dstVar then In(s, e.src, e.srcVar) else {}
    case AllInFromIn(e) => if l == e.dst && v == e.dstVar then In(s, e.src, e.srcVar) else {}
    case InFromOut(e) => if l == e.dst && v == e.dstVar then Out(s, e.src, e.srcVar) else {}
    case AllInFromOut(e) => if l == e.dst && v == e.dstVar then Out(s, e.src, e.srcVar) else {}
    case _ => {}
  }

  function AddOut(op: Op, s: Df, l: LocId, v: Key): set<Key> {
    match op
    case OutFromIn(e) => if l == e.dst && v == e.dstVar then In(s, e.src, e.srcVar) else {}
    case AllOutFromIn(loc, singleton, strong) => if l == loc && !(strong && v == singleton) then In(s, l, v) else {}
    case AtvPts(srcVar, loc, dstVar) => if l == loc && v == dstVar then Top(s, srcVar) else {}
    case _ => {}
  }

  function AddTop(op: Op, s: Df, v: Key): set<Key> {
    match op
    case TlvPts(loc, srcVar, dstVar) => if v == dstVar then In(s, loc, srcVar) else {}
    case AddPts(dstVar, obj) => if v == dstVar then {obj} else {}
    case UnionPts(dstVar, srcVar) => if v == dstVar then Top(s, srcVar) else {}
    case _ => {}
  }

  ghost predicate SameIn(s: Df, t: Df) { forall l: LocId, v: Key {:trigger In(t, l, v)} :: In(t, l, v) == In(s, l, v) }
  ghost predicate SameOut(s: Df, t: Df) {
    forall l: LocId, v: Key {:trigger Out(t, l, v)} :: Out(t, l, v) == Out(s, l, v)
  }
  ghost predicate SameTop(s: Df, t: Df) { forall v: Key {:trigger Top(t, v)} :: Top(t, v) == Top(s, v) }

  predicate HasIn(s: Df, l: LocId) { l in s.inp }
  predicate HasOut(s: Df, l: LocId) { l in s.outp }

  /** Entries are made but never taken away. */
  ghost predicate KeepsEntries(s: Df, t: Df) {
    && (forall l: LocId {:trigger HasIn(t, l)} :: HasIn(s, l) ==> HasIn(t, l))
    && (forall l: LocId {:trigger HasOut(t, l)} :: HasOut(s, l) ==> HasOut(t, l))
  }

  /** The two stores hold the same points-to sets. */
  ghost predicate SameSets(s: Df, t: Df) { SameIn(s, t) && SameOut(s, t) && SameTop(s, t) }

  ghost predicate GrownIn(op: Op, s: Df, t: Df) {
    forall l: LocId, v: Key {:trigger In(t, l, v)} :: In(t, l, v) == In(s, l, v) + AddIn(op, s, l, v)
  }
  ghost predicate GrownOut(op: Op, s: Df, t: Df) {
    forall l: LocId, v: Key {:trigger Out(t, l, v)} :: Out(t, l, v) == Out(s, l, v) + AddOut(op, s, l, v)
  }
  ghost predicate GrownTop(op: Op, s: Df, t: Df) {
    forall v: Key {:trigger Top(t, v)} :: Top(t, v) == Top(s, v) + AddTop(op, s, v)
  }

  /** Every set has grown by what the operation adds, and nothing else has changed. */
  ghost predicate Grown(op: Op, s: Df, t: Df) { GrownIn(op, s, t) && GrownOut(op, s, t) && GrownTop(op, s, t) }

  /** The operation adds something that is not there yet. */
  ghost predicate Adds(op: Op, s: Df) {
    || (exists l: LocId, v: Key :: !(AddIn(op, s, l, v) <= In(s, l, v)))
    || (exists l: LocId, v: Key :: !(AddOut(op, s, l, v) <= Out(s, l, v)))
    || (exists v: Key :: !(AddTop(op, s, v) <= Top(s, v)))
  }

  /** One operation of the plain store: what it does, and what it answers. */
  ghost predicate PlainStep(s: Df, op: Op, t: Df, changed: bool) {
    Grown(op, s, t) && (changed <==> Adds(op, s))
  }

  /** Steps from stores with the same sets give stores with the same sets and the same answer. */
  lemma PlainStepAgrees(s: Df, t: Df, changed: bool, s': Df, t': Df, changed': bool, op: Op)
    requires SameSets(s, s') && PlainStep(s, op, t, changed) && PlainStep(s', op, t', changed')
    ensures SameSets(t, t') && changed == changed'
  {
    AddsAgree(s, s', op);
    hide Adds, PtsAt, Pts;
    SameAdded(s, s', op);
    hide AddIn, AddOut, AddTop, In, Out, Top;
    assert SameIn(t, t') by {
      forall l: LocId, v: Key ensures In(t', l, v) == In(t, l, v) {
        assert In(s', l, v) == In(s, l, v);
      }
    }
    assert SameOut(t, t') by {
      forall l: LocId, v: Key ensures Out(t', l, v) == Out(t, l, v) {
        assert Out(s', l, v) == Out(s, l, v);
      }
    }
    assert SameTop(t, t') by { forall v: Key ensures Top(t', v) == Top(t, v) { assert Top(s', v) == Top(s, v); } }
  }

  lemma SameAdded(s: Df, s': Df, op: Op)
    requires SameSets(s, s')
    ensures forall l: LocId, v: Key ::
        AddIn(op, s, l, v) == AddIn(op, s', l, v) && AddOut(op, s, l, v) == AddOut(op, s', l, v)
    ensures forall v: Key :: AddTop(op, s, v) == AddTop(op, s', v)
  {
    hide PtsAt, Pts;
  }

  lemma AddsAgree(s: Df, s': Df, op: Op)
    requires SameSets(s, s')
    ensures Adds(op, s) <==> Adds(op, s')
  {
    SameAdded(s, s', op);
    hide AddIn, AddOut, AddTop, In, Out, Top;
    assert forall l: LocId, v: Key :: In(s', l, v) == In(s, l, v);
    assert forall l: LocId, v: Key :: Out(s', l, v) == Out(s, l, v);
  }
}
