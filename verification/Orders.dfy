/** Strict total orders, the lexicographic order on sequences, and sets listed in order. */
module Orders {

  ghost predicate Irreflexive<T(!new)>(lt: (T, T) -> bool) { forall x: T :: !lt(x, x) }

  ghost predicate Transitive<T(!new)>(lt: (T, T) -> bool) {
    forall x: T, y: T, z: T {:trigger lt(x, y), lt(y, z)} :: lt(x, y) && lt(y, z) ==> lt(x, z)
  }

  ghost predicate Total<T(!new)>(lt: (T, T) -> bool) {
    forall x: T, y: T {:trigger lt(x, y)} {:trigger lt(y, x)} :: x == y || lt(x, y) || lt(y, x)
  }

  ghost predicate StrictTotal<T(!new)>(lt: (T, T) -> bool) { Irreflexive(lt) && Transitive(lt) && Total(lt) }

  // ------------------------------------------------------------------ sequences

  /** As `std::lexicographical_compare` has it. */
  predicate LexLess<T(==)>(lt: (T, T) -> bool, a: seq<T>, b: seq<T>) {
    if b == [] then false
    else if a == [] then true
    else if a[0] != b[0] then lt(a[0], b[0])
    else LexLess(lt, a[1..], b[1..])
  }

  lemma {:induction false} LexIrreflexive<T(!new)>(lt: (T, T) -> bool, a: seq<T>)
    ensures !LexLess(lt, a, a)
  {
    if a != [] { LexIrreflexive(lt, a[1..]); }
  }

  lemma {:induction false} LexTransitive<T(!new)>(lt: (T, T) -> bool, a: seq<T>, b: seq<T>, c: seq<T>)
    requires StrictTotal(lt) && LexLess(lt, a, b) && LexLess(lt, b, c)
    ensures LexLess(lt, a, c)
  {
    if a != [] && a[0] == b[0] && b[0] == c[0] {
      LexTransitive(lt, a[1..], b[1..], c[1..]);
    }
  }

  lemma {:induction false} LexTotal<T(!new)>(lt: (T, T) -> bool, a: seq<T>, b: seq<T>)
    requires StrictTotal(lt)
    ensures a == b || LexLess(lt, a, b) || LexLess(lt, b, a)
  {
    if a != [] && b != [] {
      if a[0] == b[0] {
        LexTotal(lt, a[1..], b[1..]);
        assert a == [a[0]] + a[1..] && b == [b[0]] + b[1..];
      } else {
        assert lt(a[0], b[0]) || lt(b[0], a[0]);
      }
    }
  }

  /** a and b are the same up to k, where a ends or has the lesser element. */
  ghost predicate FirstLess<T>(lt: (T, T) -> bool, a: seq<T>, b: seq<T>, k: nat) {
    k <= |a| && k < |b| && a[..k] == b[..k] && (k == |a| || (a[k] != b[k] && lt(a[k], b[k])))
  }

  /** A proper prefix comes first, and otherwise the one with the lesser element where they first differ. */
  lemma {:induction false} LexLessIff<T(!new)>(lt: (T, T) -> bool, a: seq<T>, b: seq<T>)
    ensures LexLess(lt, a, b) <==> exists k: nat :: FirstLess(lt, a, b, k)
  {
    if a == [] || b == [] || a[0] != b[0] {
      assert LexLess(lt, a, b) ==> FirstLess(lt, a, b, 0);
      assert forall k: nat :: k > 0 && a != [] && b != [] && FirstLess(lt, a, b, k) ==> a[..k][0] == b[..k][0];
    } else {
      LexLessIff(lt, a[1..], b[1..]);
      assert LexLess(lt, a, b) <==> LexLess(lt, a[1..], b[1..]);
      if k: nat :| FirstLess(lt, a, b, k) {
        assert k > 0;
        FirstLessNext(lt, a, b, k - 1);
      }
      if j: nat :| FirstLess(lt, a[1..], b[1..], j) { FirstLessNext(lt, a, b, j); }
    }
  }

  lemma FirstLessNext<T>(lt: (T, T) -> bool, a: seq<T>, b: seq<T>, k: nat)
    requires a != [] && b != [] && a[0] == b[0]
    ensures FirstLess(lt, a, b, k + 1) <==> FirstLess(lt, a[1..], b[1..], k)
  {
    if k < |a| && k < |b| {
      assert a[..k + 1] == [a[0]] + a[1..][..k] && b[..k + 1] == [b[0]] + b[1..][..k];
    }
  }

  /** Comparing from an index on, where everything before is the same. */
  lemma LexFrom<T>(lt: (T, T) -> bool, a: seq<T>, b: seq<T>, i: nat)
    requires i < |a| && i < |b|
    ensures LexLess(lt, a[i..], b[i..]) <==>
        if a[i] != b[i] then lt(a[i], b[i]) else LexLess(lt, a[i + 1..], b[i + 1..])
  {
    assert a[i..][1..] == a[i + 1..] && b[i..][1..] == b[i + 1..];
  }

  lemma LexEnds<T>(lt: (T, T) -> bool, a: seq<T>, b: seq<T>)
    requires |a| == |b|
    ensures LexLess(lt, a[0..], b[0..]) == LexLess(lt, a, b) && !LexLess(lt, a[|a|..], b[|b|..])
  {
    assert a[0..] == a && b[0..] == b;
  }

  /** What comes before the k-th element of an ascending sequence is in every sequence with the same first k. */
  lemma BelowShared<T(!new)>(lt: (T, T) -> bool, a: seq<T>, b: seq<T>, k: nat, y: T)
    requires StrictTotal(lt) && Ascending(lt, a) && k < |a| && k <= |b| && a[..k] == b[..k]
    requires y in a && lt(y, a[k])
    ensures exists i :: 0 <= i < k && a[i] == b[i] == y
  {
    var i :| 0 <= i < |a| && a[i] == y;
    assert a[..k][i] == b[..k][i];
  }

  // ------------------------------------------------------------------ sets

  ghost predicate IsLeast<T(!new)>(lt: (T, T) -> bool, s: set<T>, x: T) {
    x in s && forall y :: y in s ==> y == x || lt(x, y)
  }

  lemma {:induction false} LeastExists<T(!new)>(lt: (T, T) -> bool, s: set<T>) returns (x: T)
    requires StrictTotal(lt) && s != {}
    ensures IsLeast(lt, s, x)
    decreases |s|
  {
    x :| x in s;
    if s != {x} {
      assert s - {x} != {} by { assert s == {x} + (s - {x}); }
      var y := LeastExists(lt, s - {x});
      if lt(y, x) {
        assert forall z :: z in s ==> z == x || z in s - {x};
        x := y;
      } else {
        assert lt(x, y);
        forall z | z in s ensures z == x || lt(x, z) {
          if z != x { assert z in s - {x}; }
        }
      }
    }
  }

  ghost predicate Ascending<T(!new)>(lt: (T, T) -> bool, a: seq<T>) {
    forall i, j :: 0 <= i < j < |a| ==> lt(a[i], a[j])
  }

  function Elements<T>(a: seq<T>): set<T> { set x | x in a }

  /** The elements of a set in ascending order, as an ordered container lists them. */
  function Sorted<T(!new)>(lt: (T, T) -> bool, s: set<T>): (r: seq<T>)
    requires StrictTotal(lt)
    ensures Elements(r) == s && Ascending(lt, r) && |r| == |s|
  {
    if s == {} then []
    else
      var x0 := Least(lt, s);
      var rest := Sorted(lt, s - {x0});
      SortedCons(lt, s, x0, rest);
      [x0] + rest
  }

  function Least<T(!new)>(lt: (T, T) -> bool, s: set<T>): (x: T)
    requires StrictTotal(lt) && s != {}
    ensures IsLeast(lt, s, x)
  {
    assert exists x :: IsLeast(lt, s, x) by { var x := LeastExists(lt, s); }
    var x :| x in s && forall y :: y in s ==> y == x || lt(x, y);
    x
  }

  lemma SortedCons<T(!new)>(lt: (T, T) -> bool, s: set<T>, x: T, rest: seq<T>)
    requires IsLeast(lt, s, x) && Elements(rest) == s - {x} && Ascending(lt, rest) && |rest| == |s - {x}|
    ensures Elements([x] + rest) == s && Ascending(lt, [x] + rest) && |[x] + rest| == |s|
  {
    var r := [x] + rest;
    forall i, j | 0 <= i < j < |r| ensures lt(r[i], r[j]) {
      if i == 0 { assert rest[j - 1] in Elements(rest); }
    }
    forall y ensures y in Elements(r) <==> y in s {
      assert y in r <==> y == x || y in rest;
      assert y in rest <==> y in Elements(rest);
    }
  }

  /** A set is what its listing has. */
  lemma SortedSame<T(!new)>(lt: (T, T) -> bool, s: set<T>, t: set<T>)
    requires StrictTotal(lt)
    ensures Sorted(lt, s) == Sorted(lt, t) <==> s == t
  {
    assert Elements(Sorted(lt, s)) == s && Elements(Sorted(lt, t)) == t;
  }
}
