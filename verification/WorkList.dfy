/** The work lists of the solvers: a queue (or stack) of items, each held at most once. */
module WorkList {

  ghost predicate Holds<T>(q: seq<T>, s: set<T>) {
    && (forall i, j :: 0 <= i < j < |q| ==> q[i] != q[j])
    && (forall x :: x in q ==> x in s) && (forall x :: x in s ==> x in q)
  }

  lemma HoldsPush<T>(q: seq<T>, s: set<T>, x: T)
    requires Holds(q, s) && x !in s
    ensures Holds(q + [x], s + {x})
  {}

  lemma HoldsPopFront<T>(q: seq<T>, s: set<T>)
    requires Holds(q, s) && q != []
    ensures q[0] in s && Holds(q[1..], s - {q[0]})
  {
    assert q == [q[0]] + q[1..];
  }

  lemma HoldsPopBack<T>(q: seq<T>, s: set<T>)
    requires Holds(q, s) && q != []
    ensures q[|q| - 1] in s && Holds(q[..|q| - 1], s - {q[|q| - 1]})
  {
    assert q == q[..|q| - 1] + [q[|q| - 1]];
  }

  class FIFOWorkList<T(==)> {
    var dataList: seq<T>
    var dataSet: set<T>

    /** The set holds exactly the items of the list, which has no item twice. */
    ghost predicate Valid()
      reads this
    {
      Holds(dataList, dataSet)
    }

    constructor ()
      ensures Valid() && dataList == [] && dataSet == {}
    {
      dataList, dataSet := [], {};
    }

    predicate Empty()
      reads this
    {
      dataList == []
    }

    predicate Find(x: T)
      reads this
    {
      x in dataSet
    }

    method Push(x: T) returns (added: bool)
      requires Valid()
      modifies this
      ensures Valid() && added == (x !in old(dataSet)) && dataSet == old(dataSet) + {x}
      ensures dataList == if added then old(dataList) + [x] else old(dataList)
    {
      added := !Find(x);
      if added {
        HoldsPush(dataList, dataSet, x);
        dataList := dataList + [x];
        dataSet := dataSet + {x};
      }
    }

    method Pop() returns (x: T)
      requires Valid() && !Empty()
      modifies this
      ensures Valid() && old(dataList) == [x] + dataList && x in old(dataSet) && dataSet == old(dataSet) - {x}
    {
      HoldsPopFront(dataList, dataSet);
      x := dataList[0];
      dataList := dataList[1..];
      dataSet := dataSet - {x};
    }

    method Clear()
      modifies this
      ensures Valid() && dataList == [] && dataSet == {}
    {
      dataList, dataSet := [], {};
    }

    lemma EmptyMeansNone()
      requires Valid()
      ensures Empty() <==> dataSet == {}
    {
      if dataList != [] { assert dataList[0] in dataList; }
    }

    lemma ListIsSet(x: T)
      requires Valid()
      ensures x in dataList <==> x in dataSet
    {}
  }

  class FILOWorkList<T(==)> {
    var dataList: seq<T>
    var dataSet: set<T>

    ghost predicate Valid()
      reads this
    {
      Holds(dataList, dataSet)
    }

    constructor ()
      ensures Valid() && dataList == [] && dataSet == {}
    {
      dataList, dataSet := [], {};
    }

    predicate Empty()
      reads this
    {
      dataList == []
    }

    method Push(x: T) returns (added: bool)
      requires Valid()
      modifies this
      ensures Valid() && added == (x !in old(dataSet)) && dataSet == old(dataSet) + {x}
      ensures dataList == if added then old(dataList) + [x] else old(dataList)
    {
      added := x !in dataSet;
      if added {
        HoldsPush(dataList, dataSet, x);
        dataList := dataList + [x];
        dataSet := dataSet + {x};
      }
    }

    method Pop() returns (x: T)
      requires Valid() && !Empty()
      modifies this
      ensures Valid() && old(dataList) == dataList + [x] && x in old(dataSet) && dataSet == old(dataSet) - {x}
    {
      HoldsPopBack(dataList, dataSet);
      x := dataList[|dataList| - 1];
      dataList := dataList[..|dataList| - 1];
      dataSet := dataSet - {x};
    }
  }
}
