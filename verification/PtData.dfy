/** Points-to data with its reverse, and with what has been propagated already. */
module PtData {
  import opened DfPoints

  /** The reverse map says of every object who points to it. */
  ghost predicate Inverse(pts: PtsMap, rev: PtsMap) {
    forall v: Key, o: Key {:trigger o in Pts(pts, v)} {:trigger v in Pts(rev, o)} ::
      o in Pts(pts, v) <==> v in Pts(rev, o)
  }

  /** `n` is `m` with `data` added to what `v` has. */
  ghost predicate United(m: PtsMap, n: PtsMap, v: Key, data: set<Key>) {
    forall w: Key {:trigger Pts(n, w)} :: Pts(n, w) == Pts(m, w) + if w == v then data else {}
  }

  /** `n` is `m` with `data` for `v`. */
  ghost predicate Replaced(m: PtsMap, n: PtsMap, v: Key, data: set<Key>) {
    forall w: Key {:trigger Pts(n, w)} :: Pts(n, w) == if w == v then data else Pts(m, w)
  }

  /** `n` is `m` with `v` added to what each of `os` has. */
  ghost predicate PointedAt(m: PtsMap, n: PtsMap, v: Key, os: set<Key>) {
    forall o: Key {:trigger Pts(n, o)} :: Pts(n, o) == Pts(m, o) + if o in os then {v} else {}
  }

  lemma InverseUnited(pts: PtsMap, rev: PtsMap, pts': PtsMap, rev': PtsMap, v: Key, data: set<Key>)
    requires Inverse(pts, rev) && United(pts, pts', v, data) && PointedAt(rev, rev', v, data)
    ensures Inverse(pts', rev')
  {
    hide Pts;
    forall w: Key, o: Key ensures o in Pts(pts', w) <==> w in Pts(rev', o) {
      assert Pts(pts', w) == Pts(pts, w) + if w == v then data else {};
      assert Pts(rev', o) == Pts(rev, o) + if o in data then {v} else {};
    }
  }

  class PTData {
    var ptsMap: PtsMap
    var revPtsMap: PtsMap

    ghost predicate Valid() reads this { Inverse(ptsMap, revPtsMap) }

    constructor ()
      ensures Valid() && ptsMap == map[] && revPtsMap == map[]
    {
      ptsMap, revPtsMap := map[], map[];
    }

    method AddSingleRevPts(o: Key, v: Key)
      modifies this`revPtsMap
      ensures PointedAt(old(revPtsMap), revPtsMap, v, {o})
    {
      revPtsMap := revPtsMap[o := Pts(revPtsMap, o) + {v}];
    }

    method AddRevPts(data: set<Key>, v: Key)
      modifies this`revPtsMap
      ensures PointedAt(old(revPtsMap), revPtsMap, v, data)
    {
      hide Pts;
      var todo := data;
      while todo != {}
        invariant todo <= data && PointedAt(old(revPtsMap), revPtsMap, v, data - todo)
      {
        var o :| o in todo;
        AddSingleRevPts(o, v);
        todo := todo - {o};
      }
    }

    /** Both maps gain the pair; true if it is new. */
    method AddPts(dstKey: Key, obj: Key) returns (changed: bool)
      requires Valid()
      modifies this
      ensures Valid() && United(old(ptsMap), ptsMap, dstKey, {obj})
      ensures changed <==> obj !in Pts(old(ptsMap), dstKey)
    {
      AddSingleRevPts(obj, dstKey);
      changed := obj !in Pts(ptsMap, dstKey);
      ptsMap := ptsMap[dstKey := Pts(ptsMap, dstKey) + {obj}];
      InverseUnited(old(ptsMap), old(revPtsMap), ptsMap, revPtsMap, dstKey, {obj});
    }

    method UnionPtsData(dstKey: Key, data: set<Key>) returns (changed: bool)
      requires Valid()
      modifies this
      ensures Valid() && United(old(ptsMap), ptsMap, dstKey, data)
      ensures changed <==> !(data <= Pts(old(ptsMap), dstKey))
    {
      AddRevPts(data, dstKey);
      var dst := Pts(ptsMap, dstKey);
      ptsMap := ptsMap[dstKey := dst + data];
      changed := dst + data != dst;
      InverseUnited(old(ptsMap), old(revPtsMap), ptsMap, revPtsMap, dstKey, data);
    }

    method UnionPts(dstKey: Key, srcKey: Key) returns (changed: bool)
      requires Valid()
      modifies this
      ensures Valid() && United(old(ptsMap), ptsMap, dstKey, Pts(old(ptsMap), srcKey))
      ensures changed <==> !(Pts(old(ptsMap), srcKey) <= Pts(old(ptsMap), dstKey))
    {
      changed := UnionPtsData(dstKey, Pts(ptsMap, srcKey));
    }
  }

  /** What has been seen at a load or store edge is cached under it. */
  datatype CacheKey = LoadKey(src: Key, dst: Key) | StoreKey(src: Key, dst: Key)

  type CacheMap = map<CacheKey, set<Key>>

  function Cached(m: CacheMap, k: CacheKey): set<Key> { if k in m then m[k] else {} }

  class DiffPTData {
    const base: PTData              // what is inherited
    var diffPtsMap: PtsMap
    var propaPtsMap: PtsMap
    var cacheMap: CacheMap

    ghost predicate Valid() reads this, base { base.Valid() }

    constructor ()
      ensures Valid() && fresh(base)
      ensures base.ptsMap == map[] && diffPtsMap == map[] && propaPtsMap == map[] && cacheMap == map[]
    {
      base := new PTData();
      diffPtsMap, propaPtsMap, cacheMap := map[], map[], map[];
    }

    /** What of `all` has not been propagated becomes the difference, and all of it counts as propagated. */
    method ComputeDiffPts(v: Key, all: set<Key>) returns (nonEmpty: bool)
      modifies this`diffPtsMap, this`propaPtsMap
      ensures Replaced(old(diffPtsMap), diffPtsMap, v, all - Pts(old(propaPtsMap), v))
      ensures Replaced(old(propaPtsMap), propaPtsMap, v, all)
      ensures nonEmpty <==> !(all <= Pts(old(propaPtsMap), v))
    {
      var propa := Pts(propaPtsMap, v);
      var diff := all - propa;
      assert forall o: Key :: o in all ==> o in diff || o in propa;
      diffPtsMap := diffPtsMap[v := diff];
      propaPtsMap := propaPtsMap[v := all];
      nonEmpty := diff != {};
    }

    /** Only what both have propagated stays propagated. */
    method UpdatePropaPtsMap(src: Key, dst: Key)
      modifies this`propaPtsMap
      ensures Replaced(old(propaPtsMap), propaPtsMap, dst, Pts(old(propaPtsMap), dst) * Pts(old(propaPtsMap), src))
    {
      propaPtsMap := propaPtsMap[dst := Pts(propaPtsMap, dst) * Pts(propaPtsMap, src)];
    }

    method ClearPropaPts(v: Key)
      modifies this`propaPtsMap
      ensures Replaced(old(propaPtsMap), propaPtsMap, v, {})
    {
      propaPtsMap := propaPtsMap[v := {}];
    }

    method AddCachePts(k: CacheKey, data: set<Key>)
      modifies this`cacheMap
      ensures forall l: CacheKey {:trigger Cached(cacheMap, l)} ::
                Cached(cacheMap, l) == Cached(old(cacheMap), l) + if l == k then data else {}
    {
      cacheMap := cacheMap[k := Cached(cacheMap, k) + data];
    }
  }
}
