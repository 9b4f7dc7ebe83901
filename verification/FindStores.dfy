/** Numbering the values that an expression is made of, and the functions that a function can call. */
module FindStores {
  import opened Graphs

  type Visited = map<NodeID, nat>

  ghost predicate ClosedIn(g: Graph, s: set<NodeID>) {
    forall a: NodeID, b: NodeID :: a in s && Edge(g, a, b) ==> b in s
  }

  ghost function Reachable(g: Graph, n: NodeID): set<NodeID> { set m: NodeID | m in g.succ && Reaches(g, n, m) }

  lemma ClosedHasReachable(g: Graph, s: set<NodeID>, n: NodeID)
    requires ClosedIn(g, s) && n in s
    ensures Reachable(g, n) <= s
  {
    forall m | m in Reachable(g, n) ensures m in s {
      var t := iset k: NodeID | k in s;
      ReachesInClosed(g, t, n, m);
    }
  }

  // ------------------------------------------------------------------ numbering

  /** The values that `w` numbers beyond those of `v` have the numbers from `lo` + 1 to `hi`, each once. */
  ghost predicate Numbers(v: Visited, w: Visited, lo: nat, hi: nat) {
    && lo <= hi
    && (forall n :: n in v ==> n in w && w[n] == v[n])
    && (forall n :: n in w && n !in v ==> lo < w[n] <= hi)
    && (forall n, m :: n in w && n !in v && m in w && m !in v && w[n] == w[m] ==> n == m)
    && (forall i: nat {:trigger HasNumber(v, w, i)} :: lo < i <= hi ==> HasNumber(v, w, i))
  }

  ghost predicate HasNumber(v: Visited, w: Visited, i: nat) { exists n :: n in w && n !in v && w[n] == i }

  lemma NumbersNone(v: Visited, lo: nat)
    ensures Numbers(v, v, lo, lo)
  {}

  lemma NumbersOne(v: Visited, n: NodeID, lo: nat)
    requires n !in v
    ensures Numbers(v, v[n := lo + 1], lo, lo + 1)
  {
    assert HasNumber(v, v[n := lo + 1], lo + 1) by { assert v[n := lo + 1][n] == lo + 1; }
  }

  lemma NumbersTrans(u: Visited, v: Visited, w: Visited, lo: nat, mid: nat, hi: nat)
    requires Numbers(u, v, lo, mid) && Numbers(v, w, mid, hi)
    ensures Numbers(u, w, lo, hi)
  {
    forall i: nat | lo < i <= hi ensures HasNumber(u, w, i) {
      if i <= mid {
        assert HasNumber(u, v, i);
        var n :| n in v && n !in u && v[n] == i;
        assert w[n] == i;
      } else {
        assert HasNumber(v, w, i);
        var n :| n in w && n !in v && w[n] == i;
        assert n !in u;
      }
    }
  }

  /** All that is new is reachable from `n`, and all its operands are there, except those of `open`. */
  ghost predicate Explored(g: Graph, n: NodeID, v: Visited, w: Visited, open: set<NodeID>) {
    && (forall m :: m in w && m !in v ==> m in g.succ && Reaches(g, n, m))
    && (forall m, k {:trigger Edge(g, m, k)} :: m in w && m !in v && m !in open && Edge(g, m, k) ==> k in w)
  }

  lemma ExploredTrans(g: Graph, n: NodeID, m: NodeID, u: Visited, v: Visited, w: Visited, open: set<NodeID>)
    requires Explored(g, n, u, v, open) && Explored(g, m, v, w, {}) && Reaches(g, n, m)
    requires forall k :: k in v ==> k in w
    ensures Explored(g, n, u, w, open)
  {
    forall k | k in w && k !in u ensures k in g.succ && Reaches(g, n, k) {
      if k !in v { ReachesTrans(g, n, m, k); }
    }
  }

  /** Node m has been numbered after one of the first i operands of n, or with it, and is reached from there. */
  ghost predicate ReachedBefore(g: Graph, n: NodeID, v: Visited, w: Visited, i: nat, m: NodeID)
    requires n in g.succ && i <= |g.succ[n]|
  {
    exists h {:trigger g.succ[n][h]} :: 0 <= h < i && g.succ[n][h] in w && g.succ[n][h] !in v && m in w &&
      w[g.succ[n][h]] <= w[m] && Reaches(g, g.succ[n][h], m)
  }

  /** Of what is numbered beyond v, whatever comes before one of the first i operands of n is reached from an operand
      before that one. */
  ghost predicate OperandsInOrder(g: Graph, n: NodeID, v: Visited, w: Visited, i: nat)
    requires n in g.succ && i <= |g.succ[n]|
  {
    forall j, m {:trigger w[g.succ[n][j]], w[m]} ::
      0 <= j < i && g.succ[n][j] in w && g.succ[n][j] !in v && m in w && m !in v && w[m] < w[g.succ[n][j]] ==>
        ReachedBefore(g, n, v, w, j, m)
  }

  /** Everything beyond v is reached from one of the first i operands. */
  ghost predicate AllReachedBefore(g: Graph, n: NodeID, v: Visited, w: Visited, i: nat)
    requires n in g.succ && i <= |g.succ[n]|
  {
    forall m :: m in w && m !in v ==> ReachedBefore(g, n, v, w, i, m)
  }

  lemma ReachedStays(g: Graph, n: NodeID, u: Visited, v: Visited, w: Visited, i: nat, j: nat, m: NodeID)
    requires n in g.succ && i <= j <= |g.succ[n]| && ReachedBefore(g, n, u, v, i, m)
    requires forall k :: k in v ==> k in w && w[k] == v[k]
    ensures ReachedBefore(g, n, u, w, j, m)
  {
    var h :| 0 <= h < i && g.succ[n][h] in v && g.succ[n][h] !in u && v[g.succ[n][h]] <= v[m] &&
             Reaches(g, g.succ[n][h], m);
    hide Reaches;
    assert g.succ[n][h] in w;
  }

  /** The next operand is numbered, with what is reached from it. */
  lemma NextInOrder(g: Graph, n: NodeID, u: Visited, v: Visited, w: Visited, lo: nat, mid: nat, hi: nat, i: nat)
    requires n in g.succ && i < |g.succ[n]| && g.succ[n][i] in w && forall j :: 0 <= j < i ==> g.succ[n][j] in v
    requires Numbers(u, v, lo, mid) && Numbers(v, w, mid, hi) && Explored(g, g.succ[n][i], v, w, {})
    requires if g.succ[n][i] in v then w == v else w[g.succ[n][i]] == mid + 1
    requires OperandsInOrder(g, n, u, v, i) && AllReachedBefore(g, n, u, v, i)
    ensures OperandsInOrder(g, n, u, w, i + 1) && AllReachedBefore(g, n, u, w, i + 1)
  {
    hide Reaches, ReachedBefore;
    forall m | m in w && m !in u ensures ReachedBefore(g, n, u, w, i + 1, m) {
      if m in v {
        ReachedStays(g, n, u, v, w, i, i + 1, m);
      } else {
        ReachedNow(g, n, u, w, i, m);
      }
    }
    forall j, m | 0 <= j < i + 1 && g.succ[n][j] in w && g.succ[n][j] !in u && m in w && m !in u &&
                  w[m] < w[g.succ[n][j]]
      ensures ReachedBefore(g, n, u, w, j, m)
    {
      assert w[m] <= mid && m in v;
      assert j < i ==> v[m] < v[g.succ[n][j]];
      ReachedStays(g, n, u, v, w, j, j, m);
    }
  }

  lemma ReachedNow(g: Graph, n: NodeID, u: Visited, w: Visited, i: nat, m: NodeID)
    requires n in g.succ && i < |g.succ[n]| && g.succ[n][i] in w && g.succ[n][i] !in u
    requires m in w && w[g.succ[n][i]] <= w[m] && Reaches(g, g.succ[n][i], m)
    ensures ReachedBefore(g, n, u, w, i + 1, m)
  {}

  /** Of two operands that get numbers, the earlier one gets the smaller number, unless the later one is reached from
      an operand before both. */
  lemma EarlierOperandFirst(g: Graph, n: NodeID, v: Visited, w: Visited, j: nat, k: nat)
    requires n in g.succ && j < k < |g.succ[n]| && OperandsInOrder(g, n, v, w, |g.succ[n]|)
    requires g.succ[n][j] in w && g.succ[n][j] !in v && g.succ[n][k] in w && g.succ[n][k] !in v
    ensures w[g.succ[n][j]] <= w[g.succ[n][k]] || exists h {:trigger g.succ[n][h]} ::
        0 <= h < j && g.succ[n][h] !in v && Reaches(g, g.succ[n][h], g.succ[n][k])
  {
    hide Reaches;
    if w[g.succ[n][k]] < w[g.succ[n][j]] { assert ReachedBefore(g, n, v, w, j, g.succ[n][k]); }
  }

  lemma NoneInOrder(g: Graph, n: NodeID, v: Visited)
    requires n in g.succ
    ensures OperandsInOrder(g, n, v, v, 0) && AllReachedBefore(g, n, v, v, 0)
  {}

  class Unflattener {
    const graph: Graph                  // of values and their operands
    var partiallyVisited: Visited
    var refNum: nat

    constructor (g: Graph)
      ensures graph == g && partiallyVisited == map[] && refNum == 0
    {
      graph, partiallyVisited, refNum := g, map[], 0;
    }

    /** Numbers what can be reached from `val` and has no number yet, in order, and nothing else. */
    method Unflatten(val: NodeID)
      requires ClosedGraph(graph) && val in graph.succ
      modifies this
      ensures val in partiallyVisited
      ensures Numbers(old(partiallyVisited), partiallyVisited, old(refNum), refNum)
      ensures Explored(graph, val, old(partiallyVisited), partiallyVisited, {})
      ensures if val in old(partiallyVisited) then partiallyVisited == old(partiallyVisited)
              else partiallyVisited[val] == old(refNum) + 1
      ensures val !in old(partiallyVisited) ==>
          OperandsInOrder(graph, val, old(partiallyVisited)[val := old(refNum) + 1], partiallyVisited,
                          |graph.succ[val]|)
      decreases graph.succ.Keys - partiallyVisited.Keys
    {
      hide Numbers, Explored, Reaches, OperandsInOrder, AllReachedBefore;
      ghost var u := partiallyVisited;
      if val in partiallyVisited {
        NumbersNone(u, refNum);
        ExploredNone(graph, val, u);
        return;
      }
      refNum := refNum + 1;
      partiallyVisited := partiallyVisited[val := refNum];
      NumbersOne(u, val, old(refNum));
      ExploredOne(graph, val, u, refNum);
      ghost var u1 := partiallyVisited;
      NumbersNone(u1, refNum);
      NoneInOrder(graph, val, u1);
      var ops := graph.succ[val];
      var i := 0;
      while i < |ops|
        invariant i <= |ops| && u.Keys + {val} <= partiallyVisited.Keys && partiallyVisited[val] == old(refNum) + 1
        invariant Numbers(u, partiallyVisited, old(refNum), refNum)
        invariant Explored(graph, val, u, partiallyVisited, {val})
        invariant forall j :: 0 <= j < i ==> ops[j] in partiallyVisited
        invariant Numbers(u1, partiallyVisited, old(refNum) + 1, refNum)
        invariant OperandsInOrder(graph, val, u1, partiallyVisited, i)
        invariant AllReachedBefore(graph, val, u1, partiallyVisited, i)
      {
        ghost var v, r := partiallyVisited, refNum;
        assert Edge(graph, val, ops[i]);
        EdgeReaches(graph, val, ops[i]);
        Unflatten(ops[i]);
        KeepsNumbers(v, partiallyVisited, r, refNum);
        NumbersTrans(u, v, partiallyVisited, old(refNum), r, refNum);
        ExploredTrans(graph, val, ops[i], u, v, partiallyVisited, {val});
        NextInOrder(graph, val, u1, v, partiallyVisited, old(refNum) + 1, r, refNum, i);
        NumbersTrans(u1, v, partiallyVisited, old(refNum) + 1, r, refNum);
        i := i + 1;
      }
      ExploredAll(graph, val, u, partiallyVisited);
    }

    /** From any collection of earlier, finished calls: afterwards exactly what is reachable from `val` is numbered
        too, and what had a number keeps it. */
    method UnflattenTop(val: NodeID)
      requires ClosedGraph(graph) && val in graph.succ && ClosedIn(graph, partiallyVisited.Keys)
      modifies this
      ensures ClosedIn(graph, partiallyVisited.Keys)
      ensures partiallyVisited.Keys == old(partiallyVisited).Keys + Reachable(graph, val)
      ensures Numbers(old(partiallyVisited), partiallyVisited, old(refNum), refNum)
    {
      Unflatten(val);
      KeepsNumbers(old(partiallyVisited), partiallyVisited, old(refNum), refNum);
      hide Numbers;
      ClosedHasReachable(graph, partiallyVisited.Keys, val);
    }
  }

  lemma KeepsNumbers(v: Visited, w: Visited, lo: nat, hi: nat)
    requires Numbers(v, w, lo, hi)
    ensures v.Keys <= w.Keys && forall n :: n in v ==> n in w && w[n] == v[n]
  {}

  lemma ExploredNone(g: Graph, n: NodeID, v: Visited)
    ensures Explored(g, n, v, v, {})
  {}

  lemma ExploredOne(g: Graph, n: NodeID, v: Visited, i: nat)
    requires n in g.succ
    ensures Explored(g, n, v, v[n := i], {n})
  {
    ReachesRefl(g, n);
  }

  lemma ExploredAll(g: Graph, n: NodeID, v: Visited, w: Visited)
    requires n in g.succ && Explored(g, n, v, w, {n}) && forall j :: 0 <= j < |g.succ[n]| ==> g.succ[n][j] in w
    ensures Explored(g, n, v, w, {})
  {}

  // ------------------------------------------------------------------ reachable functions

  /** What has been visited or is on the stack is reachable, and children of what was visited are one of the two. */
  ghost predicate Searching(g: Graph, node: NodeID, visited: set<NodeID>, st: seq<NodeID>) {
    && (node in visited || node in st)
    && (forall n :: n in visited || n in st ==> n in g.succ && Reaches(g, node, n))
    && (forall n, m :: n in visited && Edge(g, n, m) ==> m in visited || m in st)
  }

  lemma SearchStep(g: Graph, node: NodeID, visited: set<NodeID>, st: seq<NodeID>)
    requires ClosedGraph(g) && Searching(g, node, visited, st) && st != []
    ensures var top, rest := st[|st| - 1], st[..|st| - 1];
      && top in g.succ
      && (top in visited ==> Searching(g, node, visited, rest))
      && (top !in visited ==> Searching(g, node, visited + {top}, rest + g.succ[top]))
  {
    var top, rest := st[|st| - 1], st[..|st| - 1];
    assert st == rest + [top];
    hide Reaches;
    if top !in visited {
      forall n | n in g.succ[top] ensures n in g.succ && Reaches(g, node, n) {
        assert Edge(g, top, n);
        ReachesStep(g, node, top, n);
      }
    }
  }

  /** Exactly what can be reached from a node, on every finite graph. */
  method Dfs(g: Graph, node: NodeID) returns (visited: set<NodeID>)
    requires ClosedGraph(g) && node in g.succ
    ensures visited == Reachable(g, node)
  {
    hide Searching, Reaches;
    var st := [node];
    visited := {};
    SearchStart(g, node);
    while st != []
      invariant Searching(g, node, visited, st)
      decreases g.succ.Keys - visited, |st|
    {
      SearchStep(g, node, visited, st);
      var top := st[|st| - 1];
      st := st[..|st| - 1];
      if top !in visited {
        visited := visited + {top};
        ghost var rest := st;
        var kids := g.succ[top];
        var i := 0;
        while i < |kids|
          invariant i <= |kids| && st == rest + kids[..i]
        {
          st := st + [kids[i]];
          i := i + 1;
        }
        assert kids[..|kids|] == kids;
      }
    }
    SearchEnds(g, node, visited);
  }

  lemma SearchStart(g: Graph, node: NodeID)
    requires node in g.succ
    ensures Searching(g, node, {}, [node])
  {
    ReachesRefl(g, node);
  }

  lemma SearchEnds(g: Graph, node: NodeID, visited: set<NodeID>)
    requires Searching(g, node, visited, [])
    ensures visited == Reachable(g, node)
  {
    ClosedHasReachable(g, visited, node);
  }
}
