/**
 Strongly connected components by Nuutila's variant of Tarjan's algorithm: only non-roots go
 on the component stack, and representatives stay provisional until their root finishes.

 `State` is what the detector has recorded about the nodes at one moment. This module holds
 the invariants of the walk, and shows of each of its steps that they survive it; the class in
 SccDetection.dfy takes those steps in place.
 */
module Scc {
  import opened Graphs

  datatype State = State(
    vis: set<NodeID>,                // visited
    done: set<NodeID>,               // inSCC: the component is complete
    rep: map<NodeID, NodeID>,
    sub: map<NodeID, set<NodeID>>,
    ord: map<NodeID, int>,           // _D
    count: int,                      // _I
    stack: set<NodeID>,              // the nodes on _SS
    roots: set<NodeID>,              // the nodes on _T
    pos: map<NodeID, int>,           // where on _T a root is
    height: int,                     // of _T
    repNodes: set<NodeID>)
  {
    // Looking up a node that has no entry yields the default one.
    function Rep(n: NodeID): NodeID { if n in rep then rep[n] else UINT_MAX }
    function Sub(n: NodeID): set<NodeID> { if n in sub then sub[n] else {} }
    function Ord(n: NodeID): int { if n in ord then ord[n] else 0 }
    function Pos(n: NodeID): int { if n in pos then pos[n] else 0 }

    /** Visited, but the component is not complete yet. */
    ghost predicate Pending(n: NodeID) { n in vis && n !in done }
  }

  // ------------------------------------------------------------------ steps

  ghost predicate SameBut(s: State, t: State, vs: set<NodeID>) {
    && (forall n {:trigger t.Rep(n)} :: n !in vs ==> t.Rep(n) == s.Rep(n))
    && (forall n {:trigger t.Sub(n)} :: n !in vs ==> t.Sub(n) == s.Sub(n))
    && (forall n {:trigger t.Ord(n)} :: n !in vs ==> t.Ord(n) == s.Ord(n))
  }

  ghost predicate SameTopo(s: State, t: State) {
    && t.roots == s.roots && t.height == s.height
    && (forall n {:trigger t.Pos(n)} :: t.Pos(n) == s.Pos(n))
  }

  /** The first lines of `visit`: v gets the next number and becomes its own representative. */
  ghost predicate Entered(s: State, t: State, v: NodeID) {
    && t.vis == s.vis + {v} && t.done == s.done && t.count == s.count + 1
    && t.Rep(v) == v && t.Sub(v) == {v} && t.Ord(v) == t.count
    && SameBut(s, t, {v}) && SameTopo(s, t) && t.stack == s.stack && t.repNodes == s.repNodes
  }

  /** `rep(v, r)`: r becomes the representative of v. */
  ghost predicate Redirected(s: State, t: State, v: NodeID, r: NodeID) {
    && t.vis == s.vis && t.done == s.done && t.count == s.count
    && (forall n {:trigger t.Rep(n)} :: t.Rep(n) == if n == v then r else s.Rep(n))
    && (forall n {:trigger t.Ord(n)} :: t.Ord(n) == s.Ord(n))
    && (forall n {:trigger t.Sub(n)} :: n != v && n != r ==> t.Sub(n) == s.Sub(n))
    && (v == r ==> t.Sub(v) == s.Sub(v) + {v} && t.repNodes == s.repNodes)
    && (v != r ==> t.Sub(v) == {} && t.Sub(r) == s.Sub(r) + {v} && t.repNodes == s.repNodes - {v} + {r})
    && SameTopo(s, t) && t.stack == s.stack
  }

  ghost predicate Pushed(s: State, t: State, v: NodeID) {
    && t.vis == s.vis && t.done == s.done && t.count == s.count
    && SameBut(s, t, {}) && SameTopo(s, t) && t.stack == s.stack + {v} && t.repNodes == s.repNodes
  }

  /** v and the stacked nodes w have become one complete component with root v. */
  ghost predicate Gathered(s: State, t: State, v: NodeID, w: set<NodeID>) {
    && t.vis == s.vis && t.done == s.done + {v} + w && t.count == s.count
    && (forall n {:trigger t.Rep(n)} :: t.Rep(n) == if n in w then v else s.Rep(n))
    && (forall n {:trigger t.Sub(n)} :: n != v ==> t.Sub(n) == if n in w then {} else s.Sub(n))
    && t.Sub(v) == s.Sub(v) + w
    && (forall n {:trigger t.Ord(n)} :: t.Ord(n) == s.Ord(n))
    && t.stack == s.stack - w
    && t.repNodes == if w == {} then s.repNodes else s.repNodes - w + {v}
  }

  /** The root branch of `visit`: the component is complete and v goes on the topological stack. */
  ghost predicate Closed(s: State, t: State, v: NodeID, w: set<NodeID>) {
    && Gathered(s, t, v, w)
    && t.roots == s.roots + {v} && t.height == s.height + 1
    && (forall n {:trigger t.Pos(n)} :: t.Pos(n) == if n == v then s.height else s.Pos(n))
  }

  /** One turn of the loop that gathers a component: x leaves the stack and joins v. */
  ghost predicate Popped(s: State, t: State, v: NodeID, x: NodeID) {
    && t.vis == s.vis && t.done == s.done + {x} && t.count == s.count
    && (forall n {:trigger t.Rep(n)} :: t.Rep(n) == if n == x then v else s.Rep(n))
    && (forall n {:trigger t.Sub(n)} ::
          t.Sub(n) == if n == x then {} else if n == v then s.Sub(v) + {x} else s.Sub(n))
    && (forall n {:trigger t.Ord(n)} :: t.Ord(n) == s.Ord(n))
    && t.stack == s.stack - {x} && t.repNodes == s.repNodes - {x} + {v} && SameTopo(s, t)
  }

  // ------------------------------------------------------------------ invariants

  /** The visited nodes carry different numbers between 1 and the count. */
  ghost predicate Numbered(g: Graph, s: State) {
    && s.done <= s.vis && 0 <= s.count
    && (forall n :: n in s.vis ==> n in g.succ && 1 <= s.Ord(n) <= s.count)
    && (forall n, m {:trigger s.Ord(n), s.Ord(m)} :: n in s.vis && m in s.vis && n != m ==> s.Ord(n) != s.Ord(m))
  }

  /** The pending nodes are the stack and the calls under way. */
  ghost predicate Stacked(s: State, active: set<NodeID>) {
    && (forall n :: s.Pending(n) <==> n in s.stack || n in active)
    && (forall n :: n in s.stack ==> n !in active)
  }

  /** A pending node reaches its provisional representative, which is pending and no younger. */
  ghost predicate RepsOk(g: Graph, s: State) {
    forall n {:trigger s.Rep(n)} :: s.Pending(n) ==>
      s.Pending(s.Rep(n)) && s.Ord(s.Rep(n)) <= s.Ord(n) && Reaches(g, n, s.Rep(n))
  }

  /** A stacked node is no root, and its representative is no younger than any pending child. */
  ghost predicate StackOk(g: Graph, s: State) {
    && (forall n :: n in s.stack ==> s.Rep(n) != n)
    && (forall n, m :: n in s.stack && Edge(g, n, m) ==>
          m in s.vis && (m !in s.done ==> s.Ord(s.Rep(n)) <= s.Ord(m)))
  }

  /** What the provisional sub-node sets of pending nodes may hold. */
  ghost predicate PendingSubs(s: State) {
    && (forall x, n {:trigger n in s.Sub(x)} :: s.Pending(x) && n in s.Sub(x) ==>
          s.Pending(n) && s.Ord(s.Rep(n)) <= s.Ord(x) <= s.Ord(n))
    && (forall x {:trigger s.Rep(x)} :: s.Pending(x) && s.Rep(x) == x ==> x in s.Sub(x))
  }

  /** A node in `repNodes` has a sub-node besides itself, and so has no finished node outside it. */
  ghost predicate RepNodesOk(s: State) {
    && (forall x :: x in s.repNodes ==> x in s.vis && exists n :: n in s.Sub(x) && n != x)
    && (forall x, n :: x in s.done && n in s.Sub(x) && n != x ==> x in s.repNodes)
  }

  /** Finished components are strongly connected, closed under edges, and recorded at their roots. */
  ghost predicate DoneOk(g: Graph, s: State) {
    && (forall n {:trigger s.Rep(n)} :: n in s.done ==>
          s.Rep(n) in s.roots && n in s.Sub(s.Rep(n)) && MutuallyReach(g, n, s.Rep(n)))
    && (forall n, m :: n in s.done && Edge(g, n, m) ==> m in s.done)
    && (forall x, n {:trigger n in s.Sub(x)} :: x in s.done && n in s.Sub(x) ==> n in s.done && s.Rep(n) == x)
  }

  /** The topological stack holds the finished roots, and an edge leads to a component no higher on it. */
  ghost predicate Topological(g: Graph, s: State) {
    && (forall n :: n in s.roots ==> n in s.done && s.Rep(n) == n && s.Pos(n) < s.height)
    && (forall n, m {:trigger s.Pos(n), s.Pos(m)} :: n in s.roots && m in s.roots && n != m ==> s.Pos(n) != s.Pos(m))
    && (forall n, m :: n in s.done && Edge(g, n, m) ==> s.Pos(s.Rep(m)) <= s.Pos(s.Rep(n)))
  }

  ghost predicate Inv(g: Graph, s: State, active: set<NodeID>) {
    && Numbered(g, s) && Stacked(s, active) && RepsOk(g, s) && StackOk(g, s)
    && PendingSubs(s) && RepNodesOk(s) && DoneOk(g, s) && Topological(g, s)
  }

  /** What stays fixed of the nodes that were visited in s. */
  ghost predicate Keeps(s: State, t: State) {
    && s.count <= t.count
    && s.vis <= t.vis && s.done <= t.done
    && (forall n {:trigger t.Ord(n)} :: n in s.vis ==> t.Ord(n) == s.Ord(n))
    && (forall n :: s.Pending(n) ==> t.Pending(n))
    && (forall n {:trigger t.Rep(n)} :: s.Pending(n) ==> t.Rep(n) == s.Rep(n))
  }

  /** The nodes visited in t but not in s are reached from v and numbered after s. */
  ghost predicate NewFrom(g: Graph, s: State, t: State, v: NodeID) {
    forall n :: n in t.vis && n !in s.vis ==> t.Ord(n) > s.count && Reaches(g, v, n)
  }

  /** The stack has grown by nodes whose representatives are numbered b or later. */
  ghost predicate StackGrown(s: State, t: State, b: int) {
    s.stack <= t.stack && forall n :: n in t.stack && n !in s.stack ==> b <= t.Ord(t.Rep(n))
  }

  /** The effect of a call `visit(v)`. */
  ghost predicate VisitedFrom(g: Graph, s: State, t: State, v: NodeID) {
    && Keeps(s, t) && NewFrom(g, s, t, v)
    && v in t.vis && t.Ord(v) == s.count + 1
    && StackGrown(s, t, t.Ord(t.Rep(v)))
    && (v in t.done ==> t.stack == s.stack)
  }

  /** Inside `visit(v)`, once the first i children have been dealt with; b bounds from below
      the numbers of the pending ones and of the representatives stacked meanwhile. */
  ghost predicate Exploring(g: Graph, s: State, t: State, v: NodeID, i: nat, b: int) {
    && Keeps(s, t) && NewFrom(g, s, t, v)
    && v !in s.vis && t.Pending(v) && t.Ord(v) == s.count + 1
    && StackGrown(s, t, b)
    && v in g.succ && i <= |g.succ[v]|
    && forall j :: 0 <= j < i ==> var w := g.succ[v][j]; w in t.vis && (w !in t.done ==> b <= t.Ord(w))
  }

  lemma ExploringGrows(g: Graph, s: State, t: State, v: NodeID, i: nat, b: int)
    requires Exploring(g, s, t, v, i, b)
    ensures s.vis <= t.vis && v in t.vis && v !in s.vis && v !in t.done
  {}

  // ------------------------------------------------------------------ entering a node

  lemma EnterNumbered(g: Graph, s: State, t: State, v: NodeID, active: set<NodeID>)
    requires Entered(s, t, v) && Numbered(g, s) && v in g.succ && v !in s.vis && Stacked(s, active)
    ensures Numbered(g, t) && Stacked(t, active + {v})
  {
    hide State.Rep, State.Sub, State.Ord, State.Pos;
  }

  lemma EnterPending(g: Graph, s: State, t: State, v: NodeID, active: set<NodeID>)
    requires Entered(s, t, v) && v !in s.vis && Stacked(s, active) && RepsOk(g, s) && StackOk(g, s)
    ensures RepsOk(g, t) && StackOk(g, t)
  {
    hide Reaches, State.Rep, State.Sub, State.Ord, State.Pos;
    ReachesRefl(g, v);
  }

  lemma EnterSubs(g: Graph, s: State, t: State, v: NodeID)
    requires Entered(s, t, v) && Numbered(g, s) && v !in s.vis
    requires RepsOk(g, s) && PendingSubs(s) && RepNodesOk(s)
    ensures PendingSubs(t) && RepNodesOk(t)
  {
    hide Reaches, State.Rep, State.Sub, State.Ord, State.Pos;
    forall x | x in t.repNodes ensures x in t.vis && exists n :: n in t.Sub(x) && n != x {
      var n :| n in s.Sub(x) && n != x;
      assert n in t.Sub(x);
    }
  }

  lemma EnterDone(g: Graph, s: State, t: State, v: NodeID)
    requires Entered(s, t, v) && Numbered(g, s) && v !in s.vis
    requires DoneOk(g, s) && Topological(g, s)
    ensures DoneOk(g, t) && Topological(g, t)
  {
    hide Reaches, State.Rep, State.Sub, State.Ord, State.Pos;
  }

  lemma EnterExploring(g: Graph, s: State, t: State, v: NodeID, active: set<NodeID>)
    requires Entered(s, t, v) && Numbered(g, s) && Stacked(s, active) && v in g.succ && v !in s.vis
    ensures Exploring(g, s, t, v, 0, t.Ord(t.Rep(v))) && v !in active
  {
    hide Reaches, State.Rep, State.Sub, State.Ord, State.Pos;
    ReachesRefl(g, v);
    assert !s.Pending(v);
  }

  lemma EnterKeepsInv(g: Graph, s: State, t: State, v: NodeID, active: set<NodeID>)
    requires Inv(g, s, active) && v in g.succ && v !in s.vis && Entered(s, t, v)
    ensures Inv(g, t, active + {v}) && Exploring(g, s, t, v, 0, t.Ord(t.Rep(v))) && v !in active
  {
    EnterNumbered(g, s, t, v, active);
    EnterPending(g, s, t, v, active);
    EnterSubs(g, s, t, v);
    EnterDone(g, s, t, v);
    EnterExploring(g, s, t, v, active);
    hide *;
  }

  // ------------------------------------------------------------------ redirecting a pending node

  /** What `visit` knows when it calls `rep(v, r)` on the node whose children it is going through. */
  ghost predicate CanRedirect(g: Graph, s: State, v: NodeID, r: NodeID) {
    && s.Pending(v) && s.Pending(r) && Reaches(g, v, r)
    && s.Ord(r) <= s.Ord(s.Rep(v)) <= s.Ord(v)
    && v !in s.stack
  }

  lemma RedirectNumbered(g: Graph, s: State, t: State, v: NodeID, r: NodeID, active: set<NodeID>)
    requires Redirected(s, t, v, r) && Numbered(g, s) && Stacked(s, active)
    ensures Numbered(g, t) && Stacked(t, active)
  {
    hide State.Rep, State.Sub, State.Ord, State.Pos;
  }

  lemma RedirectPending(g: Graph, s: State, t: State, v: NodeID, r: NodeID)
    requires Redirected(s, t, v, r) && CanRedirect(g, s, v, r) && RepsOk(g, s) && StackOk(g, s)
    ensures RepsOk(g, t) && StackOk(g, t)
  {
    hide Reaches, State.Rep, State.Sub, State.Ord, State.Pos;
  }

  lemma RedirectSubs(g: Graph, s: State, t: State, v: NodeID, r: NodeID)
    requires Redirected(s, t, v, r) && CanRedirect(g, s, v, r) && Numbered(g, s) && PendingSubs(s)
    ensures PendingSubs(t)
  {
    hide Reaches, State.Rep, State.Sub, State.Ord, State.Pos;
  }

  lemma RedirectRepNodes(g: Graph, s: State, t: State, v: NodeID, r: NodeID)
    requires Redirected(s, t, v, r) && CanRedirect(g, s, v, r) && RepNodesOk(s)
    ensures RepNodesOk(t)
  {
    hide Reaches, State.Rep, State.Sub, State.Ord, State.Pos;
    assert v in t.Sub(r);
    forall x | x in t.repNodes ensures x in t.vis && exists n :: n in t.Sub(x) && n != x {
      if x != r || v == r {
        var n :| n in s.Sub(x) && n != x;
        assert n in t.Sub(x);
      }
    }
  }

  lemma RedirectDone(g: Graph, s: State, t: State, v: NodeID, r: NodeID)
    requires Redirected(s, t, v, r) && CanRedirect(g, s, v, r) && DoneOk(g, s) && Topological(g, s)
    ensures DoneOk(g, t) && Topological(g, t)
  {
    hide Reaches, State.Rep, State.Sub, State.Ord, State.Pos;
  }

  lemma RedirectExploring(g: Graph, s0: State, s: State, t: State, v: NodeID, r: NodeID, i: nat, b: int)
    requires Redirected(s, t, v, r) && CanRedirect(g, s, v, r) && Exploring(g, s0, s, v, i, b)
    ensures Exploring(g, s0, t, v, i, b)
  {
    hide Reaches, State.Rep, State.Sub, State.Ord, State.Pos;
  }

  lemma RedirectKeepsInv(g: Graph, s0: State, s: State, t: State, v: NodeID, r: NodeID,
                         active: set<NodeID>, i: nat, b: int)
    requires Inv(g, s, active) && Exploring(g, s0, s, v, i, b)
    requires CanRedirect(g, s, v, r) && Redirected(s, t, v, r)
    ensures Inv(g, t, active) && Exploring(g, s0, t, v, i, b)
  {
    RedirectNumbered(g, s, t, v, r, active);
    RedirectPending(g, s, t, v, r);
    RedirectSubs(g, s, t, v, r);
    RedirectRepNodes(g, s, t, v, r);
    RedirectDone(g, s, t, v, r);
    RedirectExploring(g, s0, s, t, v, r, i, b);
    hide *;
  }

  // ------------------------------------------------------------------ going through the children

  function Older(s: State, v: NodeID, w: NodeID): NodeID {
    if s.Ord(s.Rep(v)) < s.Ord(s.Rep(w)) then s.Rep(v) else s.Rep(w)
  }

  /** The bound on representatives once child w has been visited. */
  function NextBound(s: State, v: NodeID, w: NodeID): int {
    if w in s.done then s.Ord(s.Rep(v)) else s.Ord(Older(s, v, w))
  }

  lemma NewFromChild(g: Graph, s0: State, s: State, t: State, v: NodeID, w: NodeID)
    requires Keeps(s0, s) && Keeps(s, t) && NewFrom(g, s0, s, v) && NewFrom(g, s, t, w) && Edge(g, v, w)
    ensures NewFrom(g, s0, t, v)
  {
    hide Reaches, State.Rep, State.Sub, State.Ord, State.Pos;
    EdgeReaches(g, v, w);
    forall n | n in t.vis && n !in s0.vis ensures t.Ord(n) > s0.count && Reaches(g, v, n) {
      if n !in s.vis { ReachesTrans(g, v, w, n); }
    }
  }

  lemma ChildVisited(g: Graph, s0: State, s: State, t: State, v: NodeID, w: NodeID, active: set<NodeID>, i: nat)
    requires Exploring(g, s0, s, v, i, s.Ord(s.Rep(v))) && Stacked(s, active) && RepsOk(g, s)
    requires VisitedFrom(g, s, t, w) && Edge(g, v, w)
    ensures Exploring(g, s0, t, v, i, NextBound(t, v, w)) && w in t.vis
  {
    hide Reaches, State.Rep, State.Sub, State.Ord, State.Pos;
    assert s.Pending(v) && t.Rep(v) == s.Rep(v) && t.Ord(t.Rep(v)) == s.Ord(s.Rep(v));
    NewFromChild(g, s0, s, t, v, w);
    hide NewFrom;
    forall n | n in t.stack && n !in s0.stack ensures NextBound(t, v, w) <= t.Ord(t.Rep(n)) {
      if n in s.stack {
        assert s.Pending(n) && t.Rep(n) == s.Rep(n) && s.Pending(s.Rep(n));
      }
    }
  }

  lemma NextChild(g: Graph, s0: State, s: State, v: NodeID, i: nat, b: int, c: int)
    requires Exploring(g, s0, s, v, i, b) && i < |g.succ[v]| && c <= b
    requires var w := g.succ[v][i]; w in s.vis && (w !in s.done ==> c <= s.Ord(w))
    ensures Exploring(g, s0, s, v, i + 1, c)
  {
    hide Reaches, State.Rep, State.Sub, State.Ord, State.Pos;
  }

  lemma ChildReady(g: Graph, s0: State, s: State, v: NodeID, active: set<NodeID>, i: nat, b: int)
    requires v in g.succ && i < |g.succ[v]| && v in active
    requires Stacked(s, active) && RepsOk(g, s)
    requires var w := g.succ[v][i]; w in s.vis && NextBound(s, v, w) <= b
    requires Exploring(g, s0, s, v, i, b)
    ensures var w := g.succ[v][i];
      && Exploring(g, s0, s, v, i + 1, NextBound(s, v, w))
      && (w !in s.done ==> CanRedirect(g, s, v, Older(s, v, w)))
  {
    hide Reaches, State.Rep, State.Sub, State.Ord, State.Pos;
    var w := g.succ[v][i];
    assert Edge(g, v, w);
    EdgeReaches(g, v, w);
    if w !in s.done {
      assert s.Pending(w) && s.Pending(v);
      ReachesTrans(g, v, w, s.Rep(w));
    }
    NextChild(g, s0, s, v, i, b, NextBound(s, v, w));
  }

  // ------------------------------------------------------------------ finishing a non-root

  /** v has gone through its children and found an older representative. */
  ghost predicate NonRoot(g: Graph, s0: State, s: State, v: NodeID) {
    s.Rep(v) != v && v in g.succ && Exploring(g, s0, s, v, |g.succ[v]|, s.Ord(s.Rep(v)))
  }

  lemma PushPending(g: Graph, s0: State, s: State, t: State, v: NodeID, active: set<NodeID>)
    requires Pushed(s, t, v) && NonRoot(g, s0, s, v) && v !in active
    requires Numbered(g, s) && Stacked(s, active + {v}) && RepsOk(g, s)
    ensures Numbered(g, t) && Stacked(t, active) && RepsOk(g, t) && v !in s.stack
  {
    hide Reaches, State.Rep, State.Sub, State.Ord, State.Pos, Exploring;
  }

  lemma PushStackOk(g: Graph, s0: State, s: State, t: State, v: NodeID)
    requires Pushed(s, t, v) && NonRoot(g, s0, s, v) && StackOk(g, s)
    ensures StackOk(g, t)
  {
    hide Reaches, State.Rep, State.Sub, State.Ord, State.Pos;
    forall n, m | n in t.stack && Edge(g, n, m)
      ensures m in t.vis && (m !in t.done ==> t.Ord(t.Rep(n)) <= t.Ord(m))
    {
      if n == v {
        var j :| 0 <= j < |g.succ[v]| && g.succ[v][j] == m;
      }
    }
  }

  lemma PushRecords(g: Graph, s: State, t: State, v: NodeID)
    requires Pushed(s, t, v) && PendingSubs(s) && RepNodesOk(s) && DoneOk(g, s) && Topological(g, s)
    ensures PendingSubs(t) && RepNodesOk(t) && DoneOk(g, t) && Topological(g, t)
  {
    hide Reaches, State.Rep, State.Sub, State.Ord, State.Pos;
    forall x | x in t.repNodes ensures x in t.vis && exists n :: n in t.Sub(x) && n != x {
      var n :| n in s.Sub(x) && n != x;
      assert n in t.Sub(x);
    }
  }

  lemma PushVisitedFrom(g: Graph, s0: State, s: State, t: State, v: NodeID)
    requires Pushed(s, t, v) && NonRoot(g, s0, s, v)
    ensures VisitedFrom(g, s0, t, v)
  {
    hide Reaches, State.Rep, State.Sub, State.Ord, State.Pos;
  }

  lemma PushKeepsInv(g: Graph, s0: State, s: State, t: State, v: NodeID, active: set<NodeID>)
    requires Inv(g, s, active + {v}) && v !in active && NonRoot(g, s0, s, v) && Pushed(s, t, v)
    ensures Inv(g, t, active) && VisitedFrom(g, s0, t, v) && v !in s.stack && v !in t.done
  {
    PushPending(g, s0, s, t, v, active);
    PushStackOk(g, s0, s, t, v);
    PushRecords(g, s, t, v);
    PushVisitedFrom(g, s0, s, t, v);
    ExploringGrows(g, s0, s, v, |g.succ[v]|, s.Ord(s.Rep(v)));
    hide *;
  }

  // ------------------------------------------------------------------ finishing a root

  /** v is its own representative, and w are the stacked nodes that were visited after v. */
  ghost predicate RootReady(s: State, v: NodeID, w: set<NodeID>) {
    && s.Pending(v) && s.Rep(v) == v && v !in w && w <= s.stack
    && (forall x :: x in w ==> s.Pending(x) && s.Ord(x) > s.Ord(v))
    && (forall x :: s.Pending(x) && x !in w && x != v ==> s.Ord(x) < s.Ord(v))
    && (forall x {:trigger s.Rep(x)} :: x in w ==> s.Ord(s.Rep(x)) >= s.Ord(v))
  }

  lemma RootIsReady(g: Graph, s0: State, s: State, v: NodeID, active: set<NodeID>)
    requires Numbered(g, s0) && Stacked(s0, active) && Numbered(g, s) && Stacked(s, active + {v})
    requires v in g.succ && Exploring(g, s0, s, v, |g.succ[v]|, s.Ord(v)) && s.Rep(v) == v
    ensures RootReady(s, v, s.stack - s0.stack)
  {
    hide Reaches, State.Rep, State.Sub, State.Ord, State.Pos;
    forall x | x in s.stack && x !in s0.stack ensures s.Pending(x) && s.Ord(x) > s.Ord(v) {
      assert !s0.Pending(x) && x !in s0.vis;
      assert s.Ord(x) > s0.count;
    }
    forall x | s.Pending(x) && x !in s.stack - s0.stack && x != v ensures s.Ord(x) < s.Ord(v) {
      assert s0.Pending(x);
    }
  }

  /** Every node of the closing component reaches v, through ever older representatives. */
  lemma ClosingReachesRoot(g: Graph, s: State, v: NodeID, w: set<NodeID>, x: NodeID)
    requires RootReady(s, v, w) && RepsOk(g, s) && StackOk(g, s) && Numbered(g, s) && x in w
    ensures Reaches(g, x, v)
    decreases s.Ord(x)
  {
    hide Reaches, State.Rep, State.Sub, State.Ord, State.Pos;
    var r := s.Rep(x);
    assert s.Pending(x) && s.Pending(r) && r != x;
    if r != v {
      assert r in w;
      ClosingReachesRoot(g, s, v, w, r);
      ReachesTrans(g, x, r, v);
    }
  }

  /** The component is strongly connected and every edge out of it leads to a finished node. */
  ghost predicate IsComponent(g: Graph, s: State, v: NodeID, w: set<NodeID>) {
    && (forall x :: x in w + {v} ==> MutuallyReach(g, x, v))
    && (forall x, m :: x in w + {v} && Edge(g, x, m) ==> m in s.done + w + {v})
  }

  lemma ClosingIsComponent(g: Graph, s0: State, s: State, v: NodeID, w: set<NodeID>)
    requires v in g.succ && Exploring(g, s0, s, v, |g.succ[v]|, s.Ord(v)) && w == s.stack - s0.stack
    requires RootReady(s, v, w) && Numbered(g, s) && RepsOk(g, s) && StackOk(g, s) && Numbered(g, s0)
    ensures IsComponent(g, s, v, w)
  {
    hide Reaches, State.Rep, State.Sub, State.Ord, State.Pos;
    forall x | x in w + {v} ensures MutuallyReach(g, x, v) {
      if x == v { ReachesRefl(g, v); } else {
        ClosingReachesRoot(g, s, v, w, x);
        assert x !in s0.vis;
      }
    }
    forall x, m | x in w + {v} && Edge(g, x, m) ensures m in s.done + w + {v} {
      if x == v {
        var j :| 0 <= j < |g.succ[v]| && g.succ[v][j] == m;
      } else {
        assert s.Ord(s.Rep(x)) >= s.Ord(v);
      }
      assert s.Pending(m) ==> s.Ord(m) >= s.Ord(v);
    }
  }

  lemma GatherOneMore(s: State, t: State, u: State, v: NodeID, w: set<NodeID>, x: NodeID)
    requires Gathered(s, t, v, w) && Popped(t, u, v, x) && SameTopo(s, t) && x != v && v !in w && x !in w
    ensures Gathered(s, u, v, w + {x}) && SameTopo(s, u)
  {
    hide State.Rep, State.Sub, State.Ord, State.Pos;
  }

  lemma ClosePending(g: Graph, s: State, t: State, v: NodeID, w: set<NodeID>, active: set<NodeID>)
    requires Gathered(s, t, v, w) && RootReady(s, v, w) && v !in active
    requires Numbered(g, s) && Stacked(s, active + {v})
    ensures Numbered(g, t) && Stacked(t, active)
  {
    hide Reaches, State.Rep, State.Sub, State.Ord, State.Pos;
    assert w <= s.vis;
  }

  lemma CloseReps(g: Graph, s: State, t: State, v: NodeID, w: set<NodeID>, active: set<NodeID>)
    requires Gathered(s, t, v, w) && RootReady(s, v, w) && Stacked(s, active + {v}) && RepsOk(g, s) && StackOk(g, s)
    ensures RepsOk(g, t) && StackOk(g, t)
  {
    hide Reaches, State.Rep, State.Sub, State.Ord, State.Pos;
  }

  lemma CloseSubs(g: Graph, s: State, t: State, v: NodeID, w: set<NodeID>)
    requires Gathered(s, t, v, w) && RootReady(s, v, w) && PendingSubs(s)
    ensures PendingSubs(t)
  {
    hide Reaches, State.Rep, State.Sub, State.Ord, State.Pos;
  }

  lemma CloseRepNodes(g: Graph, s: State, t: State, v: NodeID, w: set<NodeID>)
    requires Gathered(s, t, v, w) && RootReady(s, v, w) && PendingSubs(s) && RepNodesOk(s) && Numbered(g, s)
    ensures RepNodesOk(t)
  {
    hide Reaches, State.Rep, State.Sub, State.Ord, State.Pos;
    forall x | x in t.repNodes ensures x in t.vis && exists n :: n in t.Sub(x) && n != x {
      if x == v && w != {} {
        NonEmptyHasMember(w);
        var n :| n in w;
        assert n in t.Sub(x);
      } else {
        var n :| n in s.Sub(x) && n != x;
        assert n in t.Sub(x);
      }
    }
  }

  lemma CloseSubNodes(g: Graph, s: State, t: State, v: NodeID, w: set<NodeID>)
    requires Gathered(s, t, v, w) && RootReady(s, v, w) && Numbered(g, s) && PendingSubs(s) && DoneOk(g, s)
    ensures forall x, n {:trigger n in t.Sub(x)} :: x in t.done && n in t.Sub(x) ==> n in t.done && t.Rep(n) == x
  {
    hide Reaches, State.Rep, State.Sub, State.Ord, State.Pos;
  }

  lemma CloseDone(g: Graph, s: State, t: State, v: NodeID, w: set<NodeID>)
    requires Closed(s, t, v, w) && RootReady(s, v, w) && IsComponent(g, s, v, w)
    requires Numbered(g, s) && PendingSubs(s) && DoneOk(g, s) && Topological(g, s)
    ensures DoneOk(g, t)
  {
    hide Reaches, State.Rep, State.Sub, State.Ord, State.Pos;
    CloseSubNodes(g, s, t, v, w);
    ReachesRefl(g, v);
    forall n | n in t.done
      ensures t.Rep(n) in t.roots && n in t.Sub(t.Rep(n)) && MutuallyReach(g, n, t.Rep(n))
    {
      if n in s.done { assert s.Rep(n) in s.done && n in s.Sub(s.Rep(n)); }
    }
  }

  lemma CloseTopo(g: Graph, s: State, t: State, v: NodeID, w: set<NodeID>)
    requires Closed(s, t, v, w) && RootReady(s, v, w) && IsComponent(g, s, v, w)
    requires Numbered(g, s) && DoneOk(g, s) && Topological(g, s)
    ensures Topological(g, t) && v !in s.roots
  {
    hide Reaches, State.Rep, State.Sub, State.Ord, State.Pos;
  }

  lemma CloseVisitedFrom(g: Graph, s0: State, s: State, t: State, v: NodeID, w: set<NodeID>)
    requires Gathered(s, t, v, w) && RootReady(s, v, w) && w == s.stack - s0.stack && Numbered(g, s0)
    requires v in g.succ && Exploring(g, s0, s, v, |g.succ[v]|, s.Ord(v))
    ensures VisitedFrom(g, s0, t, v)
  {
    hide Reaches, State.Rep, State.Sub, State.Ord, State.Pos;
  }

  lemma CloseKeepsInv(g: Graph, s0: State, s: State, t: State, v: NodeID, active: set<NodeID>, w: set<NodeID>)
    requires Inv(g, s0, active) && Inv(g, s, active + {v}) && v !in active && v in g.succ
    requires Exploring(g, s0, s, v, |g.succ[v]|, s.Ord(v)) && s.Rep(v) == v
    requires w == s.stack - s0.stack && Closed(s, t, v, w)
    ensures Inv(g, t, active) && VisitedFrom(g, s0, t, v) && v !in s.roots
  {
    RootIsReady(g, s0, s, v, active);
    assert Gathered(s, t, v, w);
    ClosingIsComponent(g, s0, s, v, w);
    ClosePending(g, s, t, v, w, active);
    CloseReps(g, s, t, v, w, active);
    CloseSubs(g, s, t, v, w);
    CloseRepNodes(g, s, t, v, w);
    CloseDone(g, s, t, v, w);
    CloseTopo(g, s, t, v, w);
    CloseVisitedFrom(g, s0, s, t, v, w);
    hide *;
  }

  // ------------------------------------------------------------------ the whole graph

  /** With no call under way and an empty stack, a visited node is always left as a root. */
  lemma TopLevelVisit(g: Graph, s: State, t: State, v: NodeID)
    requires Inv(g, s, {}) && s.stack == {} && v !in s.vis
    requires Inv(g, t, {}) && VisitedFrom(g, s, t, v)
    ensures v in t.done && t.stack == {} && s.vis <= t.vis
  {
    hide Reaches, PendingSubs, RepNodesOk, DoneOk, Topological, State.Rep, State.Sub, State.Ord, State.Pos;
  }

  lemma AllVisitedAreDone(g: Graph, s: State)
    requires Inv(g, s, {}) && s.stack == {} && (forall n :: n in g.nodes ==> n in s.vis) && WellFormed(g)
    ensures s.done == g.succ.Keys
  {
    hide Reaches, RepsOk, StackOk, PendingSubs, RepNodesOk, DoneOk, Topological, State.Rep, State.Sub, State.Ord;
    hide State.Pos;
    forall n | n in g.succ ensures n in s.done { assert n in g.nodes && !s.Pending(n); }
  }

  /** What `find` leaves behind: no call under way, every node in a finished component. */
  ghost predicate Complete(g: Graph, s: State) {
    WellFormed(g) && Inv(g, s, {}) && s.done == g.succ.Keys
  }

  lemma ReachesNoHigher(g: Graph, s: State, n: NodeID, m: NodeID)
    requires Complete(g, s) && n in g.succ && Reaches(g, n, m)
    ensures m in g.succ && s.Pos(s.Rep(m)) <= s.Pos(s.Rep(n))
  {
    hide Reaches, Numbered, Stacked, RepsOk, StackOk, PendingSubs, RepNodesOk, DoneOk;
    hide State.Rep, State.Sub, State.Ord, State.Pos;
    var lower := iset x | x in g.succ && s.Pos(s.Rep(x)) <= s.Pos(s.Rep(n));
    ReachesInClosed(g, lower, n, m);
  }

  lemma RepInComponent(g: Graph, s: State, n: NodeID)
    requires Complete(g, s) && n in g.succ
    ensures s.Rep(n) in g.succ && s.Rep(n) < UINT_MAX && s.Rep(n) in s.roots && s.Rep(s.Rep(n)) == s.Rep(n)
    ensures MutuallyReach(g, n, s.Rep(n))
  {
    hide Reaches, Numbered, Stacked, RepsOk, StackOk, PendingSubs, RepNodesOk;
    hide State.Rep, State.Sub, State.Ord, State.Pos;
    assert s.Rep(n) in s.roots;
  }

  /** Two nodes get the same representative exactly if they reach each other. */
  lemma SameRepIffMutuallyReach(g: Graph, s: State, n: NodeID, m: NodeID)
    requires Complete(g, s) && n in g.succ && m in g.succ
    ensures s.Rep(n) == s.Rep(m) <==> MutuallyReach(g, n, m)
  {
    hide Reaches, Numbered, Stacked, RepsOk, StackOk, PendingSubs, RepNodesOk;
    hide State.Rep, State.Sub, State.Ord, State.Pos;
    var r := s.Rep(n);
    assert MutuallyReach(g, n, s.Rep(n)) && MutuallyReach(g, m, s.Rep(m));
    if s.Rep(m) == r {
      ReachesTrans(g, n, r, m);
      ReachesTrans(g, m, r, n);
    } else if MutuallyReach(g, n, m) {
      ReachesNoHigher(g, s, n, m);
      ReachesNoHigher(g, s, m, n);
    }
  }

  /** The sub-nodes of a representative are its component; other nodes have none left. */
  lemma SubNodesAreComponent(g: Graph, s: State, r: NodeID, n: NodeID)
    requires Complete(g, s) && r in g.succ
    ensures n in s.Sub(r) <==> s.Rep(r) == r && n in g.succ && MutuallyReach(g, r, n)
  {
    hide Reaches, Numbered, Stacked, RepsOk, StackOk, PendingSubs, RepNodesOk;
    hide State.Sub, State.Ord, State.Pos;
    if n in g.succ { SameRepIffMutuallyReach(g, s, r, n); }
    hide MutuallyReach, State.Rep;
    assert s.Rep(r) in s.roots;
    if n in s.Sub(r) { assert s.Rep(n) == r && s.Rep(n) in s.roots; }
  }

  /** `getRepNodes` is exactly the representatives of components of at least two nodes. */
  lemma RepNodesExact(g: Graph, s: State, r: NodeID)
    requires Complete(g, s)
    ensures r in s.repNodes <==>
      r in g.succ && s.Rep(r) == r && exists n :: n in g.succ && n != r && MutuallyReach(g, r, n)
  {
    hide Reaches, MutuallyReach, Stacked, RepsOk, StackOk, PendingSubs, DoneOk;
    hide State.Rep, State.Sub, State.Ord, State.Pos;
    if r in s.repNodes {
      var n :| n in s.Sub(r) && n != r;
      SubNodesAreComponent(g, s, r, n);
    } else if r in g.succ {
      forall n | n in g.succ && n != r ensures !(s.Rep(r) == r && MutuallyReach(g, r, n)) {
        SubNodesAreComponent(g, s, r, n);
      }
    }
  }

  /** Along an edge between components, the target's representative was pushed first. */
  lemma EdgesDescend(g: Graph, s: State, n: NodeID, m: NodeID)
    requires Complete(g, s) && Edge(g, n, m) && !MutuallyReach(g, n, m)
    ensures s.Pos(s.Rep(m)) < s.Pos(s.Rep(n))
  {
    hide Reaches, MutuallyReach, Numbered, Stacked, RepsOk, StackOk, PendingSubs, RepNodesOk;
    hide State.Rep, State.Sub, State.Ord, State.Pos;
    SameRepIffMutuallyReach(g, s, n, m);
    assert s.Rep(n) in s.roots && s.Rep(m) in s.roots;
  }

  lemma RootsAreReps(g: Graph, s: State, n: NodeID)
    requires Complete(g, s)
    ensures n in s.roots <==> n in g.succ && s.Rep(n) == n
  {
    if n in g.succ { RepInComponent(g, s, n); }
    hide Reaches, Numbered, Stacked, RepsOk, StackOk, PendingSubs, RepNodesOk, DoneOk;
    hide State.Rep, State.Sub, State.Ord, State.Pos;
  }
}
