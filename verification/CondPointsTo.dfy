/** Points-to sets under conditions, seen as sets of (condition, object) pairs. */
module CondPointsTo {
  import opened Orders
  import opened PointsToOrder

  function Under<C(==)>(m: CondPts<C>, c: C): PointsTo { if c in m then m[c] else {} }

  /** The pair is in the set; an entry with no objects has no pairs. */
  predicate Has<C(==)>(m: CondPts<C>, c: C, o: NodeID) { o in Under(m, c) }

  ghost predicate SamePairs<C(!new)>(m: CondPts<C>, n: CondPts<C>) {
    forall c: C, o: NodeID {:trigger Has(n, c, o)} :: Has(n, c, o) <==> Has(m, c, o)
  }

  ghost predicate NoPairs<C(!new)>(m: CondPts<C>) { forall c: C, o: NodeID :: !Has(m, c, o) }

  ghost predicate Share<C(!new)>(m: CondPts<C>, n: CondPts<C>) {
    exists c: C, o: NodeID :: Has(m, c, o) && Has(n, c, o)
  }

  ghost predicate PairsWithin<C(!new)>(m: CondPts<C>, n: CondPts<C>) {
    forall c: C, o: NodeID {:trigger Has(n, c, o)} :: Has(m, c, o) ==> Has(n, c, o)
  }

  /** Each entry is contained in an entry of the other. */
  ghost predicate EntryWise<C(!new)>(m: CondPts<C>, n: CondPts<C>) {
    forall c: C :: c in m ==> c in n && m[c] <= n[c]
  }

  // ------------------------------------------------------------------ entries and pairs

  /** Equality by entries is equality of the pairs exactly if the same conditions have entries. */
  lemma EqualIffSamePairs<C(!new)>(m: CondPts<C>, n: CondPts<C>)
    ensures m == n <==> SamePairs(m, n) && m.Keys == n.Keys
  {
    if SamePairs(m, n) && m.Keys == n.Keys {
      forall c | c in m ensures m[c] == n[c] {
        forall o: NodeID ensures o in m[c] <==> o in n[c] { assert Has(n, c, o) <==> Has(m, c, o); }
      }
    }
  }

  /** Inclusion by entries is inclusion of the pairs exactly if all conditions with entries have entries there. */
  lemma EntryWiseIffPairsWithin<C(!new)>(m: CondPts<C>, n: CondPts<C>)
    ensures EntryWise(m, n) <==> PairsWithin(m, n) && m.Keys <= n.Keys
  {
    if PairsWithin(m, n) && m.Keys <= n.Keys {
      forall c | c in m ensures m[c] <= n[c] {
        forall o | o in m[c] ensures o in n[c] { assert Has(m, c, o) ==> Has(n, c, o); }
      }
    }
  }

  /** Two sets with no pairs, of which one has an entry: neither equal nor, that way round, a subset. */
  lemma EmptyEntryDiffers(c: Context)
    ensures var m: CondPts<Context>, n: CondPts<Context> := map[c := {}], map[];
      SamePairs(m, n) && m != n && PairsWithin(m, n) && !EntryWise(m, n)
  {
    var m: CondPts<Context>, n: CondPts<Context> := map[c := {}], map[];
    assert c in m.Keys && c !in n.Keys;
  }

  /** Where an intersection keeps all conditions, it has an entry with no objects for each under which the two share
      nothing. */
  lemma IntersectionLeavesEntries<C(!new)>(m: CondPts<C>, n: CondPts<C>, r: CondPts<C>)
    requires n.Keys == m.Keys && forall c: C, o: NodeID :: Has(n, c, o) <==> Has(m, c, o) && Has(r, c, o)
    ensures forall c :: c in m ==> n[c] == m[c] * Under(r, c)
    ensures forall c :: c in m && m[c] !! Under(r, c) ==> c in n && n[c] == {}
  {
    forall c | c in m ensures n[c] == m[c] * Under(r, c) {
      forall o: NodeID ensures o in n[c] <==> o in m[c] && o in Under(r, c) {
        assert Has(n, c, o) <==> Has(m, c, o) && Has(r, c, o);
      }
    }
  }

  // ------------------------------------------------------------------ updating one entry at a time

  /** `n` has the pairs of `m` and, except for the conditions in `todo`, those of `r` too. */
  ghost predicate United<C(!new)>(m: CondPts<C>, n: CondPts<C>, r: CondPts<C>, todo: set<C>) {
    forall c: C {:trigger Under(n, c)} :: Under(n, c) == if c in todo then Under(m, c) else Under(m, c) + Under(r, c)
  }

  /** `n` has the pairs of `m` that, except for the conditions in `todo`, `r` has too. */
  ghost predicate Met<C(!new)>(m: CondPts<C>, n: CondPts<C>, r: CondPts<C>, todo: set<C>) {
    forall c: C {:trigger Under(n, c)} :: Under(n, c) == if c in todo then Under(m, c) else Under(m, c) * Under(r, c)
  }

  class CondPointsToSet<C(==, !new)> {
    const lt: (C, C) -> bool          // how conditions compare
    var condPts: CondPts<C>

    constructor (lt: (C, C) -> bool)
      ensures this.lt == lt && condPts == map[]
    {
      this.lt := lt;
      condPts := map[];
    }

    constructor Of(lt: (C, C) -> bool, cond: C, pts: PointsTo)
      ensures this.lt == lt && condPts == map[cond := pts]
    {
      this.lt := lt;
      condPts := map[cond := pts];
    }

    // ---------------------------------------------------------------- comparison

    /** Entry by entry, so that an entry with no objects counts. */
    method Equals(rhs: CondPointsToSet<C>) returns (r: bool)
      requires StrictTotal(lt) && rhs.lt == lt
      ensures r <==> condPts == rhs.condPts
    {
      EntriesSame(lt, condPts, rhs.condPts);
      if |condPts.Keys| != |rhs.condPts.Keys| { return false; }
      r := SameEntries(Entries(lt, condPts), Entries(lt, rhs.condPts));
    }

    static method SameEntries(ls: seq<Entry<C>>, rs: seq<Entry<C>>) returns (r: bool)
      requires |ls| == |rs|
      ensures r <==> ls == rs
    {
      var i := 0;
      while i < |ls| && i < |rs|
        invariant i <= |ls| && forall j :: 0 <= j < i ==> ls[j] == rs[j]
      {
        if ls[i].cond != rs[i].cond || ls[i].pts != rs[i].pts { return false; }
        i := i + 1;
      }
      return true;
    }

    /** By number of entries, then entry by entry: condition, size, objects in order. */
    method Less(rhs: CondPointsToSet<C>) returns (r: bool)
      requires StrictTotal(lt) && rhs.lt == lt
      ensures r <==> CondPtsLess(lt, condPts, rhs.condPts)
    {
      if |condPts.Keys| < |rhs.condPts.Keys| { return true; }
      if |condPts.Keys| == |rhs.condPts.Keys| {
        r := LessEntries(Entries(lt, condPts), Entries(lt, rhs.condPts));
        return;
      }
      return false;
    }

    method LessEntries(ls: seq<Entry<C>>, rs: seq<Entry<C>>) returns (r: bool)
      requires |ls| == |rs| && StrictTotal(lt)
      ensures r <==> LexLess(EntryLess(lt), ls, rs)
    {
      hide LexLess, PtsLess, EntryLess, StrictTotal;
      LexEnds(EntryLess(lt), ls, rs);
      var i := 0;
      while i < |ls| && i < |rs|
        invariant i <= |ls| && (LexLess(EntryLess(lt), ls, rs) <==> LexLess(EntryLess(lt), ls[i..], rs[i..]))
      {
        LessAt(lt, ls, rs, i);
        var lc, rc := ls[i].cond, rs[i].cond;
        if lt(lc, rc) {
          return true;
        } else if lc == rc {
          var sign := ComparePts(ls[i].pts, rs[i].pts);
          if sign < 0 { return true; }
          if sign > 0 { return false; }
        } else {
          return false;
        }
        i := i + 1;
      }
      return false;
    }

    /** The part of the comparison that is about the objects of one entry: which set is before the other. */
    static method ComparePts(lpts: PointsTo, rpts: PointsTo) returns (sign: int)
      ensures sign < 0 <==> PtsLess(lpts, rpts)
      ensures sign == 0 <==> lpts == rpts
    {
      if |lpts| < |rpts| { return -1; }
      if |lpts| == |rpts| {
        IdsSame(lpts, rpts);
        sign := CompareIds(Ids(lpts), Ids(rpts));
        return;
      }
      return 1;
    }

    static method CompareIds(ls: seq<NodeID>, rs: seq<NodeID>) returns (sign: int)
      requires |ls| == |rs|
      ensures sign < 0 <==> LexLess(IdLess, ls, rs)
      ensures sign == 0 <==> ls == rs
    {
      hide LexLess;
      LexEnds(IdLess, ls, rs);
      var i := 0;
      while i < |ls| && i < |rs|
        invariant i <= |ls| && forall j :: 0 <= j < i ==> ls[j] == rs[j]
        invariant LexLess(IdLess, ls, rs) <==> LexLess(IdLess, ls[i..], rs[i..])
      {
        LexFrom(IdLess, ls, rs, i);
        if ls[i] < rs[i] { return -1; }
        if ls[i] > rs[i] { return 1; }
        i := i + 1;
      }
      return 0;
    }

    // ---------------------------------------------------------------- reading

    predicate HasPointsTo(cond: C)
      reads this
    {
      cond in condPts
    }

    /** How many pairs of a condition and an object there are. */
    method NumElement() returns (num: nat)
      ensures num == |PairsAt(condPts, condPts.Keys)|
      ensures num == 0 <==> NoPairs(condPts)
    {
      num := 0;
      var todo := condPts.Keys;
      assert PairsAt(condPts, condPts.Keys - todo) == {};
      while todo != {}
        invariant todo <= condPts.Keys && num == |PairsAt(condPts, condPts.Keys - todo)|
      {
        var c :| c in todo;
        OneMoreRow(condPts, condPts.Keys - todo, c);
        assert condPts.Keys - (todo - {c}) == condPts.Keys - todo + {c};
        num := num + |condPts[c]|;
        todo := todo - {c};
      }
      assert condPts.Keys - todo == condPts.Keys;
      AllPairs(condPts);
    }

    method Empty() returns (r: bool)
      ensures r <==> NoPairs(condPts)
    {
      var num := NumElement();
      return num == 0;
    }

    /** Looks up each of its conditions in the other set. */
    method Aliased(rhs: CondPointsToSet<C>) returns (r: bool)
      ensures r <==> Share(condPts, rhs.condPts)
    {
      if condPts == map[] || rhs.condPts == map[] { return false; }
      var todo := condPts.Keys;
      while todo != {}
        invariant forall c, o: NodeID :: c in condPts.Keys - todo && Has(condPts, c, o) ==> !Has(rhs.condPts, c, o)
      {
        var c :| c in todo;
        if c in rhs.condPts {
          if condPts[c] * rhs.condPts[c] != {} {
            ghost var o :| o in condPts[c] * rhs.condPts[c];
            assert Has(condPts, c, o) && Has(rhs.condPts, c, o);
            return true;
          }
          assert forall o: NodeID :: Has(condPts, c, o) && Has(rhs.condPts, c, o) ==> o in condPts[c] * rhs.condPts[c];
        }
        todo := todo - {c};
      }
      return false;
    }

    /** Looks up each condition of the other set in its own. */
    method Intersects(rhs: CondPointsToSet<C>) returns (r: bool)
      ensures r <==> Share(condPts, rhs.condPts)
    {
      if condPts == map[] && rhs.condPts == map[] { return false; }
      var todo := rhs.condPts.Keys;
      while todo != {}
        invariant forall c, o: NodeID :: c in rhs.condPts.Keys - todo && Has(rhs.condPts, c, o) ==> !Has(condPts, c, o)
      {
        var c :| c in todo;
        if HasPointsTo(c) {
          if condPts[c] * rhs.condPts[c] != {} {
            ghost var o :| o in condPts[c] * rhs.condPts[c];
            assert Has(condPts, c, o) && Has(rhs.condPts, c, o);
            return true;
          }
          assert forall o: NodeID :: Has(condPts, c, o) && Has(rhs.condPts, c, o) ==> o in condPts[c] * rhs.condPts[c];
        }
        todo := todo - {c};
      }
      return false;
    }

    /** Entry by entry, so that an entry with no objects counts as well. */
    method IsSubset(rhs: CondPointsToSet<C>) returns (r: bool)
      ensures r <==> EntryWise(condPts, rhs.condPts)
    {
      if |condPts.Keys| > |rhs.condPts.Keys| {
        MoreKeys(condPts.Keys, rhs.condPts.Keys);
        return false;
      }
      var todo := condPts.Keys;
      while todo != {}
        invariant todo <= condPts.Keys
        invariant forall c :: c in condPts.Keys - todo ==> c in rhs.condPts && condPts[c] <= rhs.condPts[c]
      {
        var c :| c in todo;
        if c !in rhs.condPts { return false; }
        if !(condPts[c] <= rhs.condPts[c]) { return false; }
        todo := todo - {c};
      }
      return true;
    }

    // ---------------------------------------------------------------- updates

    /** Union; true exactly if there are pairs that were not there. */
    method UnionWith(rhs: CondPointsToSet<C>) returns (changed: bool)
      modifies this
      ensures forall c: C, o: NodeID ::
          Has(condPts, c, o) <==> Has(old(condPts), c, o) || Has(old(rhs.condPts), c, o)
      ensures changed <==> !SamePairs(old(condPts), condPts)
    {
      ghost var m, r := condPts, rhs.condPts;
      NothingYet(m, r);
      changed := false;
      var todo := rhs.condPts.Keys;
      while todo != {}
        invariant todo <= r.Keys && United(m, condPts, r, todo) && rhs.condPts == r
        invariant changed <==> exists c :: c in r && c !in todo && !(r[c] <= Under(m, c))
      {
        var c :| c in todo;
        var pts := Under(condPts, c);
        var rhsPts := rhs.condPts[c];
        assert pts == Under(m, c);
        UnitedOneMore(m, condPts, r, todo, c, pts + rhsPts);
        assert rhs == this ==> pts + rhsPts == condPts[c] && condPts[c := condPts[c]] == condPts;
        condPts := condPts[c := pts + rhsPts];
        if !(rhsPts <= pts) { changed := true; }
        todo := todo - {c};
      }
      UnitedPairs(m, condPts, r, changed);
    }

    /** Intersection; true exactly if there are pairs that are there no more. */
    method IntersectWith(rhs: CondPointsToSet<C>) returns (changed: bool)
      modifies this
      ensures forall c: C, o: NodeID ::
          Has(condPts, c, o) <==> Has(old(condPts), c, o) && Has(old(rhs.condPts), c, o)
      ensures changed <==> !SamePairs(old(condPts), condPts)
      ensures if NoPairs(old(condPts)) then condPts == old(condPts)
              else if NoPairs(old(rhs.condPts)) then condPts == map[]
              else condPts.Keys == old(condPts).Keys
    {
      ghost var m := condPts;
      var none := Empty();
      if none { return false; }
      var noneThere := rhs.Empty();
      if noneThere {
        condPts := map[];
        ghost var c, o :| Has(m, c, o);
        assert !Has(condPts, c, o);
        return true;
      }
      ghost var r := rhs.condPts;
      NothingYet(m, r);
      changed := false;
      var todo := condPts.Keys;
      while todo != {}
        invariant todo <= m.Keys == condPts.Keys && Met(m, condPts, r, todo) && rhs.condPts == r
        invariant changed <==> exists c :: c in m && c !in todo && !(m[c] <= Under(r, c))
      {
        var c :| c in todo;
        var pts := condPts[c];
        assert pts == Under(condPts, c) == m[c];
        if rhs.HasPointsTo(c) {
          var met := pts * rhs.condPts[c];
          if met != pts { changed := true; }
          MetOneMore(m, condPts, r, todo, c, met);
          condPts := condPts[c := met];
        } else if pts != {} {
          MetOneMore(m, condPts, r, todo, c, {});
          condPts := condPts[c := {}];
          changed := true;
        }
        todo := todo - {c};
      }
      MetPairs(m, condPts, r, changed);
    }
  }

  lemma MetOneMore<C(!new)>(m: CondPts<C>, n: CondPts<C>, r: CondPts<C>, todo: set<C>, c: C, s: PointsTo)
    requires Met(m, n, r, todo) && s == Under(m, c) * Under(r, c)
    ensures Met(m, n[c := s], r, todo - {c})
  {
    UnderSet(n, c, s);
    hide Under;
  }

  lemma UnitedOneMore<C(!new)>(m: CondPts<C>, n: CondPts<C>, r: CondPts<C>, todo: set<C>, c: C, s: PointsTo)
    requires United(m, n, r, todo) && s == Under(m, c) + Under(r, c)
    ensures United(m, n[c := s], r, todo - {c})
  {
    UnderSet(n, c, s);
    hide Under;
  }

  lemma NothingYet<C(!new)>(m: CondPts<C>, r: CondPts<C>)
    ensures United(m, m, r, r.Keys) && Met(m, m, r, m.Keys)
  {}

  lemma UnderSet<C(!new)>(m: CondPts<C>, c: C, s: PointsTo)
    ensures forall d: C {:trigger Under(m[c := s], d)} :: Under(m[c := s], d) == if d == c then s else Under(m, d)
  {}

  /** What the first differing part of an entry decides. */
  lemma LessAt<C(!new)>(lt: (C, C) -> bool, ls: seq<Entry<C>>, rs: seq<Entry<C>>, i: nat)
    requires i < |ls| && i < |rs| && StrictTotal(lt)
    ensures var l, r := ls[i], rs[i];
      LexLess(EntryLess(lt), ls[i..], rs[i..]) <==>
        if l.cond != r.cond then lt(l.cond, r.cond)
        else if l.pts != r.pts then PtsLess(l.pts, r.pts)
        else LexLess(EntryLess(lt), ls[i + 1..], rs[i + 1..])
    ensures lt(ls[i].cond, rs[i].cond) ==> ls[i].cond != rs[i].cond
    ensures PtsLess(ls[i].pts, rs[i].pts) ==> ls[i].pts != rs[i].pts
  {
    LexFrom(EntryLess(lt), ls, rs, i);
    PtsLessTotal();
    hide LexLess, PtsLess;
  }

  lemma EmptyEntries<C(!new)>(m: CondPts<C>)
    ensures (forall c :: c in m.Keys ==> m[c] == {}) <==> NoPairs(m)
  {
    if NoPairs(m) {
      forall c | c in m.Keys ensures m[c] == {} { assert forall o: NodeID :: o in m[c] ==> Has(m, c, o); }
    }
  }

  /** The pairs of a condition in cs and an object that m has under it. */
  ghost function PairsAt<C>(m: CondPts<C>, cs: set<C>): set<(C, NodeID)> {
    set c, o | c in cs && c in m && o in m[c] :: (c, o)
  }

  lemma OneMoreRow<C>(m: CondPts<C>, cs: set<C>, c: C)
    requires c in m && c !in cs
    ensures |PairsAt(m, cs + {c})| == |PairsAt(m, cs)| + |m[c]|
  {
    var pairs, row := PairsAt(m, cs), Row(c, m[c]);
    RowSize(c, m[c]);
    assert PairsAt(m, cs + {c}) == pairs + row && pairs !! row;
    assert |pairs + row| == |pairs| + |row|;
  }

  ghost function Row<C>(c: C, s: set<NodeID>): set<(C, NodeID)> { set o | o in s :: (c, o) }

  lemma {:induction false} RowSize<C>(c: C, s: set<NodeID>)
    ensures |Row(c, s)| == |s|
  {
    if s != {} {
      var x :| x in s;
      RowSize(c, s - {x});
      assert Row(c, s) == Row(c, s - {x}) + {(c, x)};
    }
  }

  lemma AllPairs<C(!new)>(m: CondPts<C>)
    ensures forall c: C, o: NodeID :: (c, o) in PairsAt(m, m.Keys) <==> c in m && o in m[c]
    ensures |PairsAt(m, m.Keys)| == 0 <==> NoPairs(m)
  {
    EmptyEntries(m);
    if c, o: NodeID :| Has(m, c, o) { assert (c, o) in PairsAt(m, m.Keys); }
  }

  lemma MoreKeys<C(!new)>(a: set<C>, b: set<C>)
    requires |a| > |b|
    ensures exists c :: c in a && c !in b
  {
    assert a <= b ==> b == a + (b - a);
  }

  lemma UnitedPairs<C(!new)>(m: CondPts<C>, n: CondPts<C>, r: CondPts<C>, changed: bool)
    requires United(m, n, r, {}) && (changed <==> exists c :: c in r && !(r[c] <= Under(m, c)))
    ensures changed <==> !SamePairs(m, n)
    ensures forall c: C, o: NodeID :: Has(n, c, o) <==> Has(m, c, o) || Has(r, c, o)
  {
    if changed {
      var c :| c in r && !(r[c] <= Under(m, c));
      var o :| o in r[c] && o !in Under(m, c);
      assert Has(n, c, o) && !Has(m, c, o);
    }
  }

  lemma MetPairs<C(!new)>(m: CondPts<C>, n: CondPts<C>, r: CondPts<C>, changed: bool)
    requires Met(m, n, r, {}) && (changed <==> exists c :: c in m && !(m[c] <= Under(r, c)))
    ensures changed <==> !SamePairs(m, n)
    ensures forall c: C, o: NodeID :: Has(n, c, o) <==> Has(m, c, o) && Has(r, c, o)
  {
    if changed {
      var c :| c in m && !(m[c] <= Under(r, c));
      var o :| o in m[c] && o !in Under(r, c);
      assert Has(m, c, o) && !Has(n, c, o);
    }
  }
}
