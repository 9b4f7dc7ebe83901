/** Demand-driven traversal of a graph with a work list and no record of what was processed. */
module CflTraversal {
  import opened Graphs

  /** What is traversed: a position, and whatever else an item carries along. */
  datatype DPItem = DPItem(cur: NodeID, rest: nat)

  // ------------------------------------------------------------------ one round, on the queue

  function PushOne(q: seq<DPItem>, x: DPItem): seq<DPItem> { if x in q then q else q + [x] }

  /** The items for the children of a node, one after the other. */
  function PushAll(q: seq<DPItem>, item: DPItem, kids: seq<NodeID>): seq<DPItem> {
    if kids == [] then q else PushOne(PushAll(q, item, kids[..|kids| - 1]), item.(cur := kids[|kids| - 1]))
  }

  function Kids(g: Graph, n: NodeID): seq<NodeID> { if n in g.succ then g.succ[n] else [] }

  function Round(g: Graph, q: seq<DPItem>): seq<DPItem> {
    if q == [] then [] else PushAll(q[1..], q[0], Kids(g, q[0].cur))
  }

  function Rounds(g: Graph, q: seq<DPItem>, n: nat): seq<DPItem>
    decreases n
  {
    if n == 0 then q else Rounds(g, Round(g, q), n - 1)
  }

  lemma {:induction false} PushAllHas(q: seq<DPItem>, item: DPItem, kids: seq<NodeID>, x: DPItem)
    ensures x in PushAll(q, item, kids) <==> x in q || (x.rest == item.rest && x.cur in kids)
  {
    if kids != [] {
      PushAllHas(q, item, kids[..|kids| - 1], x);
      assert kids == kids[..|kids| - 1] + [kids[|kids| - 1]];
    }
  }

  lemma RoundHas(g: Graph, q: seq<DPItem>, x: DPItem)
    requires q != []
    ensures x in Round(g, q) <==> x in q[1..] || (x.rest == q[0].rest && Edge(g, q[0].cur, x.cur))
  {
    PushAllHas(q[1..], q[0], Kids(g, q[0].cur), x);
  }

  /** The first item leaves the queue, and the items for its children, if none of them is there yet, come to its end in
      the order of the children. */
  lemma RoundInOrder(g: Graph, q: seq<DPItem>)
    requires q != []
    requires var kids := Kids(g, q[0].cur);
      && (forall i, j :: 0 <= i < j < |kids| ==> kids[i] != kids[j])
      && (forall i :: 0 <= i < |kids| ==> DPItem(kids[i], q[0].rest) !in q[1..])
    ensures var kids, r := Kids(g, q[0].cur), Round(g, q);
      && |r| == |q| - 1 + |kids| && r[..|q| - 1] == q[1..]
      && forall i :: 0 <= i < |kids| ==> r[|q| - 1 + i] == DPItem(kids[i], q[0].rest)
  {
    PushAllInOrder(q[1..], q[0], Kids(g, q[0].cur));
  }

  lemma {:induction false} PushAllInOrder(q: seq<DPItem>, item: DPItem, kids: seq<NodeID>)
    requires forall i, j :: 0 <= i < j < |kids| ==> kids[i] != kids[j]
    requires forall i :: 0 <= i < |kids| ==> DPItem(kids[i], item.rest) !in q
    ensures var r := PushAll(q, item, kids);
      && |r| == |q| + |kids| && r[..|q|] == q
      && forall i :: 0 <= i < |kids| ==> r[|q| + i] == DPItem(kids[i], item.rest)
  {
    if kids != [] {
      var most, last := kids[..|kids| - 1], item.(cur := kids[|kids| - 1]);
      PushAllInOrder(q, item, most);
      var r := PushAll(q, item, most);
      assert last !in r by {
        forall i | 0 <= i < |r| ensures r[i] != last {
          if i < |q| {
            assert r[i] == r[..|q|][i];
          } else {
            assert r[|q| + (i - |q|)] == DPItem(most[i - |q|], item.rest);
          }
        }
      }
    }
  }

  // ------------------------------------------------------------------ which items

  ghost predicate ItemReaches(g: Graph, a: DPItem, b: DPItem) { a.rest == b.rest && Reaches(g, a.cur, b.cur) }

  /** What is or was in the queue is reachable, and what was processed has its children in one of the two. */
  ghost predicate OnTrack(g: Graph, start: DPItem, done: set<DPItem>, q: seq<DPItem>) {
    && (start in done || start in q)
    && (forall x :: x in done ==> ItemReaches(g, start, x))
    && (forall x :: x in q ==> ItemReaches(g, start, x))
    && (forall x, y: DPItem {:trigger x in done, Edge(g, x.cur, y.cur)} ::
          x in done && y.rest == x.rest && Edge(g, x.cur, y.cur) ==> y in done || y in q)
  }

  lemma RoundOnTrack(g: Graph, start: DPItem, done: set<DPItem>, q: seq<DPItem>)
    requires OnTrack(g, start, done, q) && q != []
    ensures OnTrack(g, start, done + {q[0]}, Round(g, q))
  {
    var done', q' := done + {q[0]}, Round(g, q);
    assert q == [q[0]] + q[1..];
    forall x: DPItem ensures x in q' <==> x in q[1..] || (x.rest == q[0].rest && Edge(g, q[0].cur, x.cur)) {
      RoundHas(g, q, x);
    }
    hide Round, Reaches, Edge;
    assert q[0] in q && forall x: DPItem :: x in q[1..] ==> x in q;
    forall x | x in q' ensures ItemReaches(g, start, x) {
      if x !in q[1..] { ReachesStep(g, start.cur, q[0].cur, x.cur); }
    }
    forall x, y: DPItem | x in done' && y.rest == x.rest && Edge(g, x.cur, y.cur) ensures y in done' || y in q' {}
  }

  /** With nothing left in the queue, exactly the reachable items have been processed. */
  lemma TrackEnds(g: Graph, start: DPItem, done: set<DPItem>)
    requires OnTrack(g, start, done, [])
    ensures forall x: DPItem :: x in done <==> ItemReaches(g, start, x)
  {
    forall x: DPItem | ItemReaches(g, start, x) ensures x in done {
      var closed := iset n: NodeID | DPItem(n, start.rest) in done;
      assert ClosedUnderEdges(g, closed) by {
        forall a, b | a in closed && Edge(g, a, b) ensures b in closed {
          var u, v := DPItem(a, start.rest), DPItem(b, start.rest);
          assert u in done && Edge(g, u.cur, v.cur);
        }
      }
      assert start == DPItem(start.cur, start.rest);
      ReachesInClosed(g, closed, start.cur, x.cur);
    }
  }

  // ------------------------------------------------------------------ when it stops

  /** No cycle can be reached. */
  ghost predicate AcyclicFrom(g: Graph, n: NodeID) {
    forall m: NodeID :: Reaches(g, n, m) ==> !OnCycle(g, m)
  }

  lemma AcyclicOn(g: Graph, n: NodeID, m: NodeID)
    requires AcyclicFrom(g, n) && Reaches(g, n, m)
    ensures AcyclicFrom(g, m)
  {
    forall k: NodeID | Reaches(g, m, k) ensures !OnCycle(g, k) { ReachesTrans(g, n, m, k); }
  }

  ghost function Below(g: Graph, n: NodeID): set<NodeID> { set m: NodeID | m in g.succ && Reaches(g, n, m) }

  lemma FewerBelow(g: Graph, n: NodeID, m: NodeID)
    requires ClosedGraph(g) && n in g.succ && AcyclicFrom(g, n) && Edge(g, n, m)
    ensures |Below(g, m)| < |Below(g, n)| && AcyclicFrom(g, m) && m in g.succ
  {
    EdgeReaches(g, n, m);
    AcyclicOn(g, n, m);
    ReachesRefl(g, n);
    hide ClosedGraph;
    forall k | k in Below(g, m) ensures k in Below(g, n) { ReachesTrans(g, n, m, k); }
    assert n in Below(g, n);
    assert Reaches(g, m, n) ==> OnCycle(g, n);
    SmallerSet(Below(g, m), Below(g, n), n);
  }

  lemma SmallerSet(a: set<NodeID>, b: set<NodeID>, x: NodeID)
    requires a <= b && x in b && x !in a
    ensures |a| < |b|
  {
    assert a + (b - a) == b;
    assert x in b - a;
  }

  /** The number of paths that start at a node: an item is processed at most that often on account of one push. */
  ghost function Weight(g: Graph, n: NodeID): nat
    requires ClosedGraph(g) && n in g.succ && AcyclicFrom(g, n)
    decreases |Below(g, n)|, |g.succ[n]| + 1
  {
    1 + KidsWeight(g, n, |g.succ[n]|)
  }

  ghost function KidsWeight(g: Graph, n: NodeID, k: nat): nat
    requires ClosedGraph(g) && n in g.succ && AcyclicFrom(g, n) && k <= |g.succ[n]|
    decreases |Below(g, n)|, k
  {
    if k == 0 then 0
    else
      var m := g.succ[n][k - 1];
      assert Edge(g, n, m);
      FewerBelow(g, n, m);
      KidsWeight(g, n, k - 1) + Weight(g, m)
  }

  ghost predicate Fits(g: Graph, q: seq<DPItem>) {
    forall x :: x in q ==> x.cur in g.succ && AcyclicFrom(g, x.cur)
  }

  ghost function QueueWeight(g: Graph, q: seq<DPItem>): nat
    requires ClosedGraph(g) && Fits(g, q)
  {
    if q == [] then 0 else QueueWeight(g, q[..|q| - 1]) + Weight(g, q[|q| - 1].cur)
  }

  lemma {:induction false} QueueWeightFront(g: Graph, q: seq<DPItem>)
    requires ClosedGraph(g) && Fits(g, q) && q != []
    ensures QueueWeight(g, q) == Weight(g, q[0].cur) + QueueWeight(g, q[1..])
  {
    hide ClosedGraph, AcyclicFrom;
    if |q| == 1 {
      assert q[..0] == [] == q[1..];
    } else {
      QueueWeightFront(g, q[..|q| - 1]);
      assert q[..|q| - 1][1..] == q[1..][..|q| - 2];
    }
  }

  lemma {:induction false} PushAllWeight(g: Graph, q: seq<DPItem>, item: DPItem, k: nat)
    requires ClosedGraph(g) && Fits(g, q) && item.cur in g.succ && AcyclicFrom(g, item.cur) && k <= |g.succ[item.cur]|
    ensures Fits(g, PushAll(q, item, g.succ[item.cur][..k]))
    ensures QueueWeight(g, PushAll(q, item, g.succ[item.cur][..k])) <= QueueWeight(g, q) + KidsWeight(g, item.cur, k)
  {
    var kids := g.succ[item.cur];
    if k == 0 {
      assert kids[..0] == [];
    } else {
      PushAllWeight(g, q, item, k - 1);
      assert kids[..k][..k - 1] == kids[..k - 1];
      var m := kids[k - 1];
      assert Edge(g, item.cur, m);
      FewerBelow(g, item.cur, m);
      var r := PushAll(q, item, kids[..k - 1]);
      hide ClosedGraph, AcyclicFrom;
      assert (r + [item.(cur := m)])[..|r|] == r;
    }
  }

  /** Each round takes away from the weight of the queue, though items may come back. */
  lemma RoundWeight(g: Graph, q: seq<DPItem>)
    requires ClosedGraph(g) && Fits(g, q) && q != []
    ensures Fits(g, Round(g, q)) && QueueWeight(g, Round(g, q)) < QueueWeight(g, q)
  {
    QueueWeightFront(g, q);
    assert q[0] in q && forall x :: x in q[1..] ==> x in q;
    assert g.succ[q[0].cur][..|g.succ[q[0].cur]|] == g.succ[q[0].cur];
    PushAllWeight(g, q[1..], q[0], |g.succ[q[0].cur]|);
  }

  lemma {:induction false} AcyclicEnds(g: Graph, q: seq<DPItem>) returns (n: nat)
    requires ClosedGraph(g) && Fits(g, q)
    ensures Rounds(g, q, n) == []
    decreases QueueWeight(g, q)
  {
    if q == [] {
      n := 0;
    } else {
      RoundWeight(g, q);
      var k := AcyclicEnds(g, Round(g, q));
      n := k + 1;
    }
  }

  /** An item from which a cycle can be reached keeps such an item in the queue. */
  ghost predicate Loops(g: Graph, x: DPItem) { !AcyclicFrom(g, x.cur) }

  lemma LoopsOn(g: Graph, x: DPItem) returns (y: DPItem)
    requires Loops(g, x)
    ensures y.rest == x.rest && Edge(g, x.cur, y.cur) && Loops(g, y)
  {
    var m: NodeID :| Reaches(g, x.cur, m) && OnCycle(g, m);
    var b :| Edge(g, m, b) && Reaches(g, b, m);
    if x.cur == m {
      y := x.(cur := b);
      assert Reaches(g, b, m) && OnCycle(g, m);
    } else {
      var c := ReachesFirstEdge(g, x.cur, m);
      y := x.(cur := c);
    }
  }

  lemma {:induction false} CycleNeverEnds(g: Graph, q: seq<DPItem>, x: DPItem, n: nat)
    requires x in q && Loops(g, x)
    ensures Rounds(g, q, n) != []
    decreases n
  {
    if n != 0 {
      var y := x;
      if x == q[0] {
        y := LoopsOn(g, x);
      } else {
        assert q == [q[0]] + q[1..];
      }
      RoundHas(g, q, y);
      CycleNeverEnds(g, Round(g, q), y, n - 1);
    }
  }

  /** The traversal ends exactly if no cycle can be reached from where it starts. */
  lemma EndsIffAcyclic(g: Graph, start: DPItem)
    requires ClosedGraph(g) && start.cur in g.succ
    ensures (exists n: nat :: Rounds(g, [start], n) == []) <==> AcyclicFrom(g, start.cur)
  {
    hide Rounds;
    if AcyclicFrom(g, start.cur) {
      var n := AcyclicEnds(g, [start]);
    } else {
      forall n: nat ensures Rounds(g, [start], n) != [] { CycleNeverEnds(g, [start], start, n); }
    }
  }
}
