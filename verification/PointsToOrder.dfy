/** Orders on points-to sets, on contexts, and on points-to sets under conditions. */
module PointsToOrder {
  import opened Orders

  type NodeID = nat
  type PointsTo = set<NodeID>

  function IdLess(a: NodeID, b: NodeID): bool { a < b }

  lemma IdLessTotal()
    ensures StrictTotal(IdLess)
  {}

  /** The ids of a set as a bit vector lists them. */
  function Ids(s: PointsTo): (r: seq<NodeID>)
    ensures Elements(r) == s && |r| == |s|
  {
    IdLessTotal();
    Sorted(IdLess, s)
  }

  lemma IdsSame(s: PointsTo, t: PointsTo)
    ensures Ids(s) == Ids(t) <==> s == t
  {
    IdLessTotal();
    SortedSame(IdLess, s, t);
  }

  // ------------------------------------------------------------------ points-to sets

  /** By size, and sets of the same size by their smallest differing element. */
  predicate PtsLess(s: PointsTo, t: PointsTo) {
    if |s| != |t| then |s| < |t| else LexLess(IdLess, Ids(s), Ids(t))
  }

  /** A strict total order: no set is before itself, being before is transitive, and of two different sets one
      is before the other. */
  lemma PtsLessTotal()
    ensures StrictTotal(PtsLess)
  {
    IdLessTotal();
    forall s: PointsTo ensures !PtsLess(s, s) { LexIrreflexive(IdLess, Ids(s)); }
    forall s: PointsTo, t: PointsTo, u: PointsTo | PtsLess(s, t) && PtsLess(t, u) ensures PtsLess(s, u) {
      if |s| == |t| == |u| { LexTransitive(IdLess, Ids(s), Ids(t), Ids(u)); }
    }
    forall s: PointsTo, t: PointsTo ensures s == t || PtsLess(s, t) || PtsLess(t, s) {
      LexTotal(IdLess, Ids(s), Ids(t));
      IdsSame(s, t);
    }
  }

  /** The smallest id that is in one of the sets only is in s. */
  ghost predicate SmallestUnshared(s: PointsTo, t: PointsTo, x: NodeID) {
    x in s && x !in t && forall y :: (y in s) != (y in t) ==> x <= y
  }

  /** The smaller set comes first, so every proper subset, and of two sets of one size the one with the smallest id
      that they do not share. */
  lemma PtsLessIff(s: PointsTo, t: PointsTo)
    ensures PtsLess(s, t) <==> |s| < |t| || (|s| == |t| && exists x :: SmallestUnshared(s, t, x))
    ensures s < t ==> PtsLess(s, t) && !PtsLess(t, s)
  {
    hide LexLess, Ids;
    if s < t { SubsetSmaller(s, t); }
    if |s| == |t| {
      if PtsLess(s, t) { FirstUnshared(s, t); }
      if x :| SmallestUnshared(s, t, x) {
        PtsLessTotal();
        hide PtsLess;
        forall y ensures !SmallestUnshared(t, s, y) {}
        assert !PtsLess(t, s) by { if PtsLess(t, s) { FirstUnshared(t, s); } }
        assert s == t || PtsLess(s, t) || PtsLess(t, s);
      }
    }
  }

  lemma SubsetSmaller(s: PointsTo, t: PointsTo)
    requires s < t
    ensures |s| < |t|
  {
    assert t == s + (t - s) && |t| == |s| + |t - s|;
  }

  lemma FirstUnshared(s: PointsTo, t: PointsTo)
    requires |s| == |t| && PtsLess(s, t)
    ensures exists x :: SmallestUnshared(s, t, x)
  {
    hide SmallestUnshared, FirstLess;
    IdsAscend(s);
    IdsAscend(t);
    LexLessIff(IdLess, Ids(s), Ids(t));
    var k: nat :| FirstLess(IdLess, Ids(s), Ids(t), k);
    UnsharedAt(s, t, Ids(s), Ids(t), k);
  }

  lemma IdsAscend(s: PointsTo)
    ensures Ascending(IdLess, Ids(s))
  {
    IdLessTotal();
  }

  lemma UnsharedAt(s: PointsTo, t: PointsTo, a: seq<NodeID>, b: seq<NodeID>, k: nat)
    requires Ascending(IdLess, a) && Ascending(IdLess, b) && |a| == |b| && FirstLess(IdLess, a, b, k)
    requires Elements(a) == s && Elements(b) == t
    ensures k < |a| && SmallestUnshared(s, t, a[k])
  {
    FirstOfBoth(a, b, k);
    hide Ascending, FirstLess;
    forall y ensures (y in s <==> y in a) && (y in t <==> y in b) {}
  }

  lemma FirstOfBoth(a: seq<NodeID>, b: seq<NodeID>, k: nat)
    requires Ascending(IdLess, a) && Ascending(IdLess, b) && |a| == |b| && FirstLess(IdLess, a, b, k)
    ensures k < |a| && a[k] in a && a[k] !in b
    ensures forall y :: (y in a) != (y in b) ==> a[k] <= y
  {
    IdLessTotal();
    NotAgain(a, b, k);
    hide Ascending;
    forall y | (y in a) != (y in b) ensures a[k] <= y {
      if y < a[k] && y in a { BelowShared(IdLess, a, b, k, y); }
      if y < a[k] && y in b { BelowShared(IdLess, b, a, k, y); }
    }
  }

  lemma NotAgain(a: seq<NodeID>, b: seq<NodeID>, k: nat)
    requires Ascending(IdLess, a) && Ascending(IdLess, b) && FirstLess(IdLess, a, b, k) && k < |a|
    ensures a[k] !in b
  {
    IdLessTotal();
    forall i | 0 <= i < |b| ensures b[i] != a[k] {
      if i < k {
        assert a[..k][i] == b[..k][i];
        assert IdLess(a[i], a[k]);
      } else {
        assert i > k ==> IdLess(b[k], b[i]);
      }
    }
  }

  method CmpPts(lpts: PointsTo, rpts: PointsTo) returns (r: bool)
    ensures r <==> PtsLess(lpts, rpts)
  {
    if |lpts| != |rpts| { return |lpts| < |rpts|; }
    r := CmpIds(Ids(lpts), Ids(rpts));
  }

  /** The loop of the comparison, over sets of one size. */
  method CmpIds(ls: seq<NodeID>, rs: seq<NodeID>) returns (r: bool)
    requires |ls| == |rs|
    ensures r <==> LexLess(IdLess, ls, rs)
  {
    hide LexLess;
    var i := 0;
    LexEnds(IdLess, ls, rs);
    while i < |ls| && i < |rs|
      invariant i <= |ls| == |rs|
      invariant LexLess(IdLess, ls, rs) <==> LexLess(IdLess, ls[i..], rs[i..])
    {
      LexFrom(IdLess, ls, rs, i);
      if ls[i] != rs[i] { return ls[i] < rs[i]; }
      i := i + 1;
    }
    return false;
  }

  // ------------------------------------------------------------------ conditions

  /** A calling context as a condition; contexts compare as their call sites do, and nothing else of them matters. */
  type Context = seq<NodeID>

  predicate ContextLess(a: Context, b: Context) { LexLess(IdLess, a, b) }

  lemma ContextLessTotal()
    ensures StrictTotal(ContextLess)
    ensures forall a: Context, b: Context :: ContextLess(a, b) <==>
        exists k: nat :: k <= |a| && k < |b| && a[..k] == b[..k] && (k == |a| || a[k] < b[k])
  {
    forall a: Context, b: Context
      ensures ContextLess(a, b) <==>
        exists k: nat :: k <= |a| && k < |b| && a[..k] == b[..k] && (k == |a| || a[k] < b[k])
    {
      LexLessIff(IdLess, a, b);
      if k: nat :| k <= |a| && k < |b| && a[..k] == b[..k] && (k == |a| || a[k] < b[k]) {
        assert FirstLess(IdLess, a, b, k);
      }
    }
    IdLessTotal();
    forall a: Context ensures !ContextLess(a, a) { LexIrreflexive(IdLess, a); }
    forall a: Context, b: Context, c: Context | ContextLess(a, b) && ContextLess(b, c) ensures ContextLess(a, c) {
      LexTransitive(IdLess, a, b, c);
    }
    forall a: Context, b: Context ensures a == b || ContextLess(a, b) || ContextLess(b, a) {
      LexTotal(IdLess, a, b);
    }
  }

  /** A variable under a condition compares by its id first. */
  datatype CondVar<C> = CondVar(cond: C, id: NodeID)

  function CondVarLess<C(==)>(lt: (C, C) -> bool): (CondVar<C>, CondVar<C>) -> bool {
    (a: CondVar<C>, b: CondVar<C>) => if a.id != b.id then a.id < b.id else lt(a.cond, b.cond)
  }

  lemma CondVarLessTotal<C(!new)>(lt: (C, C) -> bool)
    requires StrictTotal(lt)
    ensures StrictTotal(CondVarLess(lt))
    ensures forall a: CondVar<C>, b: CondVar<C> ::
              CondVarLess(lt)(a, b) <==> a.id < b.id || (a.id == b.id && lt(a.cond, b.cond))
  {
    var less := CondVarLess(lt);
    forall a: CondVar<C> ensures !less(a, a) { assert !lt(a.cond, a.cond); }
    forall a: CondVar<C>, b: CondVar<C>, c: CondVar<C> | less(a, b) && less(b, c) ensures less(a, c) {
      if a.id == b.id == c.id { assert lt(a.cond, b.cond) && lt(b.cond, c.cond); }
    }
    forall a: CondVar<C>, b: CondVar<C> ensures a == b || less(a, b) || less(b, a) {
      if a.id == b.id { assert a.cond == b.cond || lt(a.cond, b.cond) || lt(b.cond, a.cond); }
    }
  }

  // ------------------------------------------------------------------ points-to sets under conditions

  type CondPts<C> = map<C, PointsTo>

  datatype Entry<C> = Entry(cond: C, pts: PointsTo)

  function EntryLess<C(==)>(lt: (C, C) -> bool): (Entry<C>, Entry<C>) -> bool {
    (a: Entry<C>, b: Entry<C>) => if a.cond != b.cond then lt(a.cond, b.cond) else PtsLess(a.pts, b.pts)
  }

  lemma EntryLessTotal<C(!new)>(lt: (C, C) -> bool)
    requires StrictTotal(lt)
    ensures StrictTotal(EntryLess(lt))
  {
    PtsLessTotal();
    hide PtsLess;
    var less := EntryLess(lt);
    forall a: Entry<C> ensures !less(a, a) { assert !PtsLess(a.pts, a.pts); }
    forall a: Entry<C>, b: Entry<C>, c: Entry<C> | less(a, b) && less(b, c) ensures less(a, c) {
      if a.cond == b.cond == c.cond {
        assert PtsLess(a.pts, b.pts) && PtsLess(b.pts, c.pts);
      } else {
        assert !lt(a.cond, a.cond);
        assert a.cond == b.cond || lt(a.cond, b.cond);
        assert b.cond == c.cond || lt(b.cond, c.cond);
      }
    }
    forall a: Entry<C>, b: Entry<C> ensures a == b || less(a, b) || less(b, a) {
      assert a.cond == b.cond || lt(a.cond, b.cond) || lt(b.cond, a.cond);
      assert a.pts == b.pts || PtsLess(a.pts, b.pts) || PtsLess(b.pts, a.pts);
    }
  }

  function Conds<C(!new)>(lt: (C, C) -> bool, m: CondPts<C>): (r: seq<C>)
    requires StrictTotal(lt)
    ensures Elements(r) == m.Keys && |r| == |m.Keys|
  {
    Sorted(lt, m.Keys)
  }

  /** The entries of a map as its iterator lists them. */
  function Entries<C(!new)>(lt: (C, C) -> bool, m: CondPts<C>): (r: seq<Entry<C>>)
    requires StrictTotal(lt)
    ensures |r| == |m.Keys|
  {
    var cs := Conds(lt, m);
    seq(|cs|, i requires 0 <= i < |cs| => assert cs[i] in Elements(cs); Entry(cs[i], m[cs[i]]))
  }

  lemma EntriesSame<C(!new)>(lt: (C, C) -> bool, m: CondPts<C>, n: CondPts<C>)
    requires StrictTotal(lt)
    ensures Entries(lt, m) == Entries(lt, n) <==> m == n
  {
    if Entries(lt, m) == Entries(lt, n) {
      var cs, ds := Conds(lt, m), Conds(lt, n);
      forall i | 0 <= i < |cs| ensures cs[i] == ds[i] {
        assert Entries(lt, m)[i].cond == cs[i] && Entries(lt, n)[i].cond == ds[i];
      }
      assert cs == ds && m.Keys == n.Keys;
      forall c | c in m ensures m[c] == n[c] {
        assert c in Elements(cs);
        var i :| 0 <= i < |cs| && cs[i] == c;
        assert Entries(lt, m)[i].pts == m[c] && Entries(lt, n)[i].pts == n[c];
      }
    }
  }

  /** By number of entries, and then by the first differing entry. */
  predicate CondPtsLess<C(!new)>(lt: (C, C) -> bool, m: CondPts<C>, n: CondPts<C>)
    requires StrictTotal(lt)
  {
    if |m.Keys| != |n.Keys| then |m.Keys| < |n.Keys| else LexLess(EntryLess(lt), Entries(lt, m), Entries(lt, n))
  }

  /** For conditions of whatever type, as long as they are totally ordered: a strict total order. */
  lemma CondPtsLessTotal<C(!new)>(lt: (C, C) -> bool)
    requires StrictTotal(lt)
    ensures StrictTotal((m: CondPts<C>, n: CondPts<C>) => CondPtsLess(lt, m, n))
  {
    EntryLessTotal(lt);
    hide EntryLess, Entries;
    forall s: CondPts<C> ensures !CondPtsLess(lt, s, s) { LexIrreflexive(EntryLess(lt), Entries(lt, s)); }
    forall s: CondPts<C>, t: CondPts<C>, u: CondPts<C> | CondPtsLess(lt, s, t) && CondPtsLess(lt, t, u)
      ensures CondPtsLess(lt, s, u)
    {
      if |s.Keys| == |t.Keys| == |u.Keys| {
        LexTransitive(EntryLess(lt), Entries(lt, s), Entries(lt, t), Entries(lt, u));
      }
    }
    forall s: CondPts<C>, t: CondPts<C> ensures s == t || CondPtsLess(lt, s, t) || CondPtsLess(lt, t, s) {
      CondPtsTotal(lt, s, t);
    }
  }

  lemma CondPtsTotal<C(!new)>(lt: (C, C) -> bool, m: CondPts<C>, n: CondPts<C>)
    requires StrictTotal(lt)
    ensures m == n || CondPtsLess(lt, m, n) || CondPtsLess(lt, n, m)
  {
    EntryLessTotal(lt);
    hide EntryLess, Entries;
    LexTotal(EntryLess(lt), Entries(lt, m), Entries(lt, n));
    EntriesSame(lt, m, n);
  }

  /** Of the conditions at which the two maps are not the same, c is the first. */
  ghost predicate FirstDifferent<C(!new)>(lt: (C, C) -> bool, m: CondPts<C>, n: CondPts<C>, c: C) {
    && Different(m, n, c)
    && forall d :: Different(m, n, d) ==> d == c || lt(c, d)
  }

  ghost predicate Different<C>(m: CondPts<C>, n: CondPts<C>, c: C) {
    (c in m || c in n) && !(c in m && c in n && m[c] == n[c])
  }

  /** The map with fewer entries comes first. Of two with as many entries, it is decided at the first condition at
      which they are not the same: if only one has it, that one comes first, and otherwise the one with the set that
      comes first. */
  lemma CondPtsLessIff<C(!new)>(lt: (C, C) -> bool, m: CondPts<C>, n: CondPts<C>)
    requires StrictTotal(lt)
    ensures CondPtsLess(lt, m, n) <==>
      || |m.Keys| < |n.Keys|
      || (|m.Keys| == |n.Keys| &&
          exists c :: FirstDifferent(lt, m, n, c) && c in m && (c in n ==> PtsLess(m[c], n[c])))
  {
    hide PtsLess, EntryLess, Entries;
    if |m.Keys| == |n.Keys| {
      if CondPtsLess(lt, m, n) { var c := DecidedAt(lt, m, n); }
      if c :| FirstDifferent(lt, m, n, c) && c in m && (c in n ==> PtsLess(m[c], n[c])) {
        PtsLessTotal();
        CondPtsTotal(lt, m, n);
        forall s: PointsTo, t: PointsTo ensures PtsLess(s, t) ==> !PtsLess(t, s) {
          assert PtsLess(s, t) && PtsLess(t, s) ==> PtsLess(s, s);
        }
        forall d ensures !(FirstDifferent(lt, n, m, d) && d in n && (d in m ==> PtsLess(n[d], m[d]))) {
          assert Different(n, m, c) && (Different(n, m, d) <==> Different(m, n, d));
          assert FirstDifferent(lt, n, m, d) && d != c ==> lt(d, c) && lt(c, d) && lt(c, c);
        }
        assert !CondPtsLess(lt, n, m) by {
          if CondPtsLess(lt, n, m) { var d := DecidedAt(lt, n, m); }
        }
      }
    }
  }

  /** The conditions cs of m and ds of n, and the sets at them, are the same up to k, where m comes first. */
  ghost predicate DecidedBy<C(!new)>(lt: (C, C) -> bool, m: CondPts<C>, n: CondPts<C>, cs: seq<C>, ds: seq<C>, k: nat) {
    && |cs| == |ds| && k < |cs|
    && (forall i :: 0 <= i < |cs| ==> cs[i] in m) && (forall i :: 0 <= i < |ds| ==> ds[i] in n)
    && (forall i :: 0 <= i < k ==> cs[i] == ds[i] && m[cs[i]] == n[ds[i]])
    && (if cs[k] != ds[k] then lt(cs[k], ds[k]) else PtsLess(m[cs[k]], n[ds[k]]))
    && (cs[k] == ds[k] ==> m[cs[k]] != n[ds[k]])
  }

  lemma DecidedAt<C(!new)>(lt: (C, C) -> bool, m: CondPts<C>, n: CondPts<C>) returns (c: C)
    requires StrictTotal(lt) && |m.Keys| == |n.Keys| && CondPtsLess(lt, m, n)
    ensures FirstDifferent(lt, m, n, c) && c in m && (c in n ==> PtsLess(m[c], n[c]))
  {
    hide PtsLess, FirstDifferent, DecidedBy, LexLess, EntryLess, Entries, FirstLess, Conds;
    LexLessIff(EntryLess(lt), Entries(lt, m), Entries(lt, n));
    var k: nat :| FirstLess(EntryLess(lt), Entries(lt, m), Entries(lt, n), k);
    EntriesDecide(lt, m, n, k);
    CondsAscend(lt, m);
    CondsAscend(lt, n);
    FirstIs(lt, m, n, Conds(lt, m), Conds(lt, n), k);
    c := Conds(lt, m)[k];
  }

  lemma CondsAscend<C(!new)>(lt: (C, C) -> bool, m: CondPts<C>)
    requires StrictTotal(lt)
    ensures Ascending(lt, Conds(lt, m)) && Elements(Conds(lt, m)) == m.Keys
  {}

  lemma EntriesDecide<C(!new)>(lt: (C, C) -> bool, m: CondPts<C>, n: CondPts<C>, k: nat)
    requires StrictTotal(lt) && |m.Keys| == |n.Keys|
    requires FirstLess(EntryLess(lt), Entries(lt, m), Entries(lt, n), k)
    ensures k < |Conds(lt, m)| && DecidedBy(lt, m, n, Conds(lt, m), Conds(lt, n), k)
  {
    hide PtsLess, Conds;
    var cs, ds := Conds(lt, m), Conds(lt, n);
    var es, fs := Entries(lt, m), Entries(lt, n);
    forall i | 0 <= i < |cs| ensures cs[i] in m && es[i] == Entry(cs[i], m[cs[i]]) { assert cs[i] in Elements(cs); }
    forall i | 0 <= i < |ds| ensures ds[i] in n && fs[i] == Entry(ds[i], n[ds[i]]) { assert ds[i] in Elements(ds); }
    hide Entries;
    forall i | 0 <= i < k ensures es[i] == fs[i] { assert es[..k][i] == fs[..k][i]; }
  }

  lemma FirstIs<C(!new)>(lt: (C, C) -> bool, m: CondPts<C>, n: CondPts<C>, cs: seq<C>, ds: seq<C>, k: nat)
    requires StrictTotal(lt) && DecidedBy(lt, m, n, cs, ds, k)
    requires Ascending(lt, cs) && Elements(cs) == m.Keys && Ascending(lt, ds) && Elements(ds) == n.Keys
    ensures var c := cs[k]; FirstDifferent(lt, m, n, c) && c in m && (c in n ==> PtsLess(m[c], n[c]))
  {
    hide PtsLess;
    var c := cs[k];
    assert cs[..k] == ds[..k];
    assert forall i, j :: 0 <= i < j < |cs| ==> lt(cs[i], cs[j]);
    hide Ascending;
    assert forall d :: (d in m <==> d in cs) && (d in n <==> d in ds);
    hide Elements;
    if lt(c, ds[k]) && c in ds {
      BelowShared(lt, ds, cs, k, c);
      assert false;
    }
    assert c in n ==> c == ds[k];
    forall d | Different(m, n, d) ensures d == c || lt(c, d) {
      if d in cs && lt(d, c) { BelowShared(lt, cs, ds, k, d); }
      if d in ds && lt(d, c) { BelowShared(lt, ds, cs, k, d); }
    }
  }

  /** Maps neither of which is before the other are exactly the equal ones. */
  lemma IncomparableIffEqual<C(!new)>(lt: (C, C) -> bool, m: CondPts<C>, n: CondPts<C>)
    requires StrictTotal(lt)
    ensures !CondPtsLess(lt, m, n) && !CondPtsLess(lt, n, m) <==> m == n
  {
    CondPtsTotal(lt, m, n);
    if m == n { LexIrreflexive(EntryLess(lt), Entries(lt, m)); }
    hide LexLess, Entries;
  }
}
