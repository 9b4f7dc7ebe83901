/** Ordered sets of types, and whether two of them share one. */
module TypeSets {
  import opened Orders

  /** A type is known by its address. */
  type PTAType = nat

  function Before(a: PTAType, b: PTAType): bool { a < b }

  lemma BeforeIsTotal()
    ensures StrictTotal(Before)
  {}

  /** The listing of a set; the functions below go through it as iterators do. */
  function Listing(s: set<PTAType>): (r: seq<PTAType>)
    ensures Elements(r) == s && Ascending(Before, r) && |r| == |s|
  {
    BeforeIsTotal();
    Sorted(Before, s)
  }

  /** From the two positions on, the listings have an element in common. */
  ghost predicate Common(a: seq<PTAType>, i: nat, b: seq<PTAType>, j: nat) {
    exists k: nat, l: nat :: i <= k < |a| && j <= l < |b| && a[k] == b[l]
  }

  class TypeSet {
    var typeSet: set<PTAType>

    constructor ()
      ensures typeSet == {}
    {
      typeSet := {};
    }

    method AddType(t: PTAType) returns (added: bool)
      modifies this
      ensures typeSet == old(typeSet) + {t} && (added <==> t !in old(typeSet))
    {
      added := t !in typeSet;
      typeSet := typeSet + {t};
    }

    predicate ContainType(t: PTAType)
      reads this
    {
      t in typeSet
    }

    /** Unless one set is empty and the other has not exactly one element: true exactly if they share one. */
    method Intersect(other: TypeSet) returns (r: bool)
      requires |typeSet| == 1 || |other.typeSet| == 1 || (typeSet != {} && other.typeSet != {})
      ensures r <==> exists t :: t in typeSet && t in other.typeSet
    {
      var mine, theirs := Listing(typeSet), Listing(other.typeSet);
      ListingHas(typeSet);
      ListingHas(other.typeSet);
      if |typeSet| == 1 {
        OnlyOne(mine, typeSet);
        return other.ContainType(mine[0]);
      }
      if |other.typeSet| == 1 {
        OnlyOne(theirs, other.typeSet);
        return ContainType(theirs[0]);
      }
      var largest1, largest2 := theirs[|theirs| - 1], mine[|mine| - 1];
      if Before(largest1, mine[0]) || Before(largest2, theirs[0]) {
        Apart(theirs, mine);
        return false;
      }
      var first1, first2 := 0, 0;
      while first1 < |theirs| && first2 < |mine|
        invariant first1 <= |theirs| && first2 <= |mine|
        invariant Common(theirs, 0, mine, 0) <==> Common(theirs, first1, mine, first2)
        decreases |theirs| - first1 + |mine| - first2
      {
        if Before(theirs[first1], mine[first2]) {
          SkipFirst(theirs, first1, mine, first2);
          first1 := first1 + 1;
        } else if Before(mine[first2], theirs[first1]) {
          SkipFirst(mine, first2, theirs, first1);
          CommonFlip(theirs, first1, mine, first2);
          CommonFlip(theirs, first1, mine, first2 + 1);
          first2 := first2 + 1;
        } else {
          assert theirs[first1] in typeSet;
          return true;
        }
      }
      return false;
    }
  }

  lemma ListingHas(s: set<PTAType>)
    ensures forall t :: t in s <==> t in Listing(s)
  {
    assert forall t :: t in Elements(Listing(s)) <==> t in Listing(s);
  }

  lemma OnlyOne(a: seq<PTAType>, s: set<PTAType>)
    requires Elements(a) == s && |a| == |s| == 1
    ensures s == {a[0]}
  {}

  /** If all of one comes before all of the other they share nothing. */
  lemma Apart(a: seq<PTAType>, b: seq<PTAType>)
    requires Ascending(Before, a) && Ascending(Before, b) && a != [] && b != []
    requires a[|a| - 1] < b[0] || b[|b| - 1] < a[0]
    ensures !Common(a, 0, b, 0) && forall t :: t in a ==> t !in b
  {
    forall k: nat, l: nat | k < |a| && l < |b| ensures a[k] != b[l] {
      assert a[0] <= a[k] <= a[|a| - 1] && b[0] <= b[l] <= b[|b| - 1] by {
        assert k > 0 ==> Before(a[0], a[k]);
        assert k < |a| - 1 ==> Before(a[k], a[|a| - 1]);
        assert l > 0 ==> Before(b[0], b[l]);
        assert l < |b| - 1 ==> Before(b[l], b[|b| - 1]);
      }
    }
  }

  /** An element that is before the other's first is in no rest of the other. */
  lemma SkipFirst(a: seq<PTAType>, i: nat, b: seq<PTAType>, j: nat)
    requires Ascending(Before, b) && i < |a| && j < |b| && a[i] < b[j]
    ensures Common(a, i, b, j) <==> Common(a, i + 1, b, j)
  {
    forall l: nat | j <= l < |b| ensures a[i] != b[l] {
      assert l > j ==> Before(b[j], b[l]);
    }
  }

  lemma CommonFlip(a: seq<PTAType>, i: nat, b: seq<PTAType>, j: nat)
    ensures Common(a, i, b, j) <==> Common(b, j, a, i)
  {}
}
