/** The constraint graph as the component detector sees it, and the order in which differences are passed on. */
module WaveOrder {
  import opened DfPoints
  import opened PtData
  import opened WaveDiff
  import opened WaveSteps
  import opened WaveSolve
  import opened SccRecords
  import opened SccAnswers
  import G = Graphs
  import P = PointsToOrder
  import Orders

  // ------------------------------------------------------------------ the graph of the representatives

  function GraphNodes(nodes: set<Key>, rep: Reps): set<Key> { set v | v in nodes && WaveDiff.RepOf(rep, v) == v }

  function Kids(copies: set<Link>, n: Key): set<Key> { set e | e in copies && e.src == n :: e.dst }

  function GraphOf(reps: set<Key>, copies: set<Link>): G.Graph {
    G.Graph(P.Ids(reps), map n | n in reps :: P.Ids(Kids(copies, n)))
  }

  lemma IdsHas(s: set<Key>)
    ensures forall x: Key :: x in P.Ids(s) <==> x in s
  {
    assert forall x: Key :: x in P.Ids(s) <==> x in Orders.Elements(P.Ids(s));
  }

  lemma GraphOfEdge(reps: set<Key>, copies: set<Link>, a: Key, b: Key)
    ensures G.Edge(GraphOf(reps, copies), a, b) <==> a in reps && Link(a, b) in copies
  {
    IdsHas(Kids(copies, a));
    hide P.Ids;
    if a in reps && Link(a, b) in copies { assert b in Kids(copies, a); }
  }

  lemma RepsAre(nodes: set<Key>, w: Wave)
    ensures forall v: Key :: v in GraphNodes(nodes, w.rep) <==> v in nodes && IsRep(w, v)
  {}

  ghost predicate Ends(reps: set<Key>, copies: set<Link>) {
    forall e: Link :: e in copies ==> e.src in reps && e.dst in reps
  }

  lemma GraphOfWellFormed(reps: set<Key>, copies: set<Link>)
    requires Ends(reps, copies) && forall n :: n in reps ==> n < G.UINT_MAX
    ensures G.WellFormed(GraphOf(reps, copies)) && GraphOf(reps, copies).succ.Keys == reps
  {
    var g := GraphOf(reps, copies);
    IdsHas(reps);
    IdsDistinct(reps);
    hide P.Ids;
    forall a: Key, b: Key | G.Edge(g, a, b) ensures b in g.succ {
      GraphOfEdge(reps, copies, a, b);
    }
  }

  lemma IdsDistinct(s: set<Key>)
    ensures forall i, j :: 0 <= i < j < |P.Ids(s)| ==> P.Ids(s)[i] != P.Ids(s)[j]
  {
    P.IdLessTotal();
    assert Orders.Ascending(P.IdLess, P.Ids(s));
  }

  lemma GraphOfReaches(reps: set<Key>, copies: set<Link>, a: Key, b: Key)
    requires Ends(reps, copies)
    ensures G.Reaches(GraphOf(reps, copies), a, b) <==> Reaches(copies, a, b)
  {
    var g := GraphOf(reps, copies);
    forall x: Key, y: Key ensures G.Edge(g, x, y) <==> Link(x, y) in copies { GraphOfEdge(reps, copies, x, y); }
    hide G.Edge, GraphOf;
    if G.Reaches(g, a, b) {
      var p: seq<Key> :| G.PathFromTo(g, p, a, b);
      forall i: nat | i < |p| - 1 ensures Link(p[i], p[i + 1]) in copies { assert G.Edge(g, p[i], p[i + 1]); }
      assert IsPath(copies, p);
    }
    if Reaches(copies, a, b) {
      var p: seq<Key> :| IsPath(copies, p) && p[0] == a && p[|p| - 1] == b;
      forall i | 0 <= i < |p| - 1 ensures G.Edge(g, p[i], p[i + 1]) { assert Link(p[i], p[i + 1]) in copies; }
      assert G.PathFromTo(g, p, a, b);
    }
  }

  // ------------------------------------------------------------------ what merging cycles does to the graph

  /** Every edge is between the representatives of the ends of an edge that was there. */
  ghost predicate Come(x: Wave, before: set<Link>, after: set<Link>) {
    forall e: Link :: e in after ==> exists f: Link :: f in before && e == Link(Rep(x, f.src), Rep(x, f.dst))
  }

  ghost predicate EdgesCome(w: Wave, x: Wave) {
    Come(x, w.copies, x.copies) && Come(x, w.loads, x.loads) && Come(x, w.stores, x.stores)
  }

  lemma ComeNone(w: Wave, s: set<Link>)
    requires forall e: Link :: e in s ==> IsRep(w, e.src) && IsRep(w, e.dst)
    ensures Come(w, s, s)
  {
    forall e: Link | e in s ensures exists f: Link :: f in s && e == Link(Rep(w, f.src), Rep(w, f.dst)) {
      assert e == Link(Rep(w, e.src), Rep(w, e.dst));
    }
  }

  lemma ComeOne(w: Wave, x: Wave, n: Key, r: Key, s: set<Link>, t: set<Link>)
    requires RepsOk(w) && MergeStep(w, x, n, r) && t <= Images(s, n, r)
    requires forall e: Link :: e in s ==> IsRep(w, e.src) && IsRep(w, e.dst)
    ensures Come(x, s, t)
  {
    MergeReps(w, x, n, r);
    MergedIsRep(w, x, n, r);
    hide Pts, Cached, Rep, Reaches, NoLoops;
    forall e: Link | e in t ensures exists f: Link :: f in s && e == Link(Rep(x, f.src), Rep(x, f.dst)) {
      var f: Link :| f in s && e == Image(f, n, r);
      assert Rep(x, f.src) == if Rep(w, f.src) == n then r else Rep(w, f.src);
      assert Rep(x, f.dst) == if Rep(w, f.dst) == n then r else Rep(w, f.dst);
    }
  }

  lemma ComeTrans(x: Wave, y: Wave, s: set<Link>, t: set<Link>, u: set<Link>)
    requires Come(x, s, t) && Come(y, t, u) && RepsFollow(x, y)
    ensures Come(y, s, u)
  {
    hide Rep;
    forall e: Link | e in u ensures exists f: Link :: f in s && e == Link(Rep(y, f.src), Rep(y, f.dst)) {
      var f: Link :| f in t && e == Link(Rep(y, f.src), Rep(y, f.dst));
      var h: Link :| h in s && f == Link(Rep(x, h.src), Rep(x, h.dst));
      assert Rep(y, h.src) == Rep(y, f.src) && Rep(y, h.dst) == Rep(y, f.dst);
    }
  }

  /** Every edge is kept, between the representatives of its ends. */
  ghost predicate Go(x: Wave, before: set<Link>, after: set<Link>) {
    forall e: Link :: e in before ==> Link(Rep(x, e.src), Rep(x, e.dst)) in after
  }

  ghost predicate PtsGo(w: Wave, x: Wave) {
    forall v: Key {:trigger Pts(w.pts, v)} :: IsRep(w, v) ==> Pts(w.pts, v) <= Pts(x.pts, Rep(x, v))
  }

  ghost predicate AllGo(w: Wave, x: Wave) {
    RepsOk(x) && Go(x, w.loads, x.loads) && Go(x, w.stores, x.stores) && PtsGo(w, x)
  }

  lemma NoneGo(w: Wave)
    requires RepsOk(w) && GraphOk(w)
    ensures AllGo(w, w)
  {
    hide Pts;
  }

  lemma OneGoes(w: Wave, x: Wave, n: Key, r: Key)
    requires RepsOk(w) && GraphOk(w) && MergeStep(w, x, n, r)
    ensures AllGo(w, x)
  {
    MergeReps(w, x, n, r);
    hide Pts, Cached, Rep, Images, NoLoops;
    forall v: Key | IsRep(w, v) ensures Pts(w.pts, v) <= Pts(x.pts, Rep(x, v)) {
      assert Rep(x, v) == if Rep(w, v) == n then r else Rep(w, v);
    }
    forall e: Link | e in w.loads ensures Link(Rep(x, e.src), Rep(x, e.dst)) in x.loads {
      ImageIn(w.loads, n, r, e);
      ImageReps(w, x, n, r, e);
    }
    forall e: Link | e in w.stores ensures Link(Rep(x, e.src), Rep(x, e.dst)) in x.stores {
      ImageIn(w.stores, n, r, e);
      ImageReps(w, x, n, r, e);
    }
  }

  lemma ImageReps(w: Wave, x: Wave, n: Key, r: Key, e: Link)
    requires MergeStep(w, x, n, r) && IsRep(w, e.src) && IsRep(w, e.dst)
    ensures Image(e, n, r) == Link(Rep(x, e.src), Rep(x, e.dst))
  {}

  lemma GoTrans(w: Wave, x: Wave, y: Wave)
    requires AllGo(w, x) && AllGo(x, y) && RepsFollow(x, y)
    ensures AllGo(w, y)
  {
    hide Pts, Rep;
    forall v: Key ensures Rep(y, Rep(x, v)) == Rep(y, v) { assert Rep(y, v) == Rep(y, Rep(x, v)); }
    forall v: Key | IsRep(w, v) ensures Pts(w.pts, v) <= Pts(y.pts, Rep(y, v)) {
      assert IsRep(x, Rep(x, v));
      assert Pts(w.pts, v) <= Pts(x.pts, Rep(x, v)) <= Pts(y.pts, Rep(y, Rep(x, v)));
    }
  }

  ghost predicate RepsFollow(w: Wave, x: Wave) {
    forall v: Key {:trigger Rep(x, v)} :: Rep(x, Rep(w, v)) == Rep(x, v) && (IsRep(x, v) ==> IsRep(w, v))
  }

  ghost predicate ReachKept(w: Wave, x: Wave) {
    forall a: Key, b: Key {:trigger Reaches(x.copies, a, b)} ::
      IsRep(x, a) && IsRep(x, b) && Reaches(w.copies, a, b) ==> Reaches(x.copies, a, b)
  }

  ghost predicate CoverKept(w: Wave, x: Wave) {
    forall a: Key, b: Key {:trigger Covered(x, a, b)} :: Covered(w, a, b) ==> Covered(x, a, b)
  }

  /** What a representative has comes from a node it stands for now. */
  ghost predicate PtsCome(w: Wave, x: Wave) {
    forall v: Key, o: Key {:trigger o in Pts(x.pts, v)} :: IsRep(x, v) && o in Pts(x.pts, v) ==> ComesFrom(w, x, v, o)
  }

  ghost predicate ComesFrom(w: Wave, x: Wave, v: Key, o: Key) {
    exists u: Key :: Rep(x, u) == v && IsRep(w, u) && o in Pts(w.pts, u)
  }

  /** Nodes have only been merged. */
  ghost predicate Merged(w: Wave, x: Wave) {
    EdgesCome(w, x) && RepsFollow(w, x) && ReachKept(w, x) && CoverKept(w, x) && PtsCome(w, x) && AllGo(w, x)
  }

  lemma MergedNone(w: Wave)
    requires RepsOk(w) && GraphOk(w)
    ensures Merged(w, w)
  {
    ComeNone(w, w.copies);
    ComeNone(w, w.loads);
    ComeNone(w, w.stores);
    NoneGo(w);
    hide Rep, Reaches, Come, AllGo;
    forall v: Key ensures Rep(w, Rep(w, v)) == Rep(w, v) { assert IsRep(w, Rep(w, v)); }
    hide Pts;
    forall v: Key, o: Key | IsRep(w, v) && o in Pts(w.pts, v) ensures ComesFrom(w, w, v, o) {}
  }

  lemma MergeIsMerged(w: Wave, x: Wave, n: Key, r: Key)
    requires RepsOk(w) && GraphOk(w) && MergeStep(w, x, n, r)
    ensures Merged(w, x)
  {
    MergeReps(w, x, n, r);
    ComeOne(w, x, n, r, w.copies, x.copies);
    ComeOne(w, x, n, r, w.loads, x.loads);
    ComeOne(w, x, n, r, w.stores, x.stores);
    OneGoes(w, x, n, r);
    hide Pts, Cached, Rep, Reaches, Come, Images, NoLoops, AllGo;
    forall v: Key ensures Rep(x, Rep(w, v)) == Rep(x, v) {
      assert IsRep(w, Rep(w, v));
      assert Rep(x, v) == if Rep(w, v) == n then r else Rep(w, v);
    }
    forall a: Key, b: Key | IsRep(x, a) && IsRep(x, b) && Reaches(w.copies, a, b) ensures Reaches(x.copies, a, b) {
      ReachesImage(w, x, n, r, a, b);
    }
    MergePtsCome(w, x, n, r);
    forall a: Key, b: Key | Covered(w, a, b) ensures Covered(x, a, b) { MergeCovers(w, x, n, r, a, b); }
  }

  lemma MergePtsCome(w: Wave, x: Wave, n: Key, r: Key)
    requires RepsOk(w) && MergeStep(w, x, n, r)
    ensures PtsCome(w, x)
  {
    MergeReps(w, x, n, r);
    MergedIsRep(w, x, n, r);
    hide Pts, Cached, Rep, Images, NoLoops;
    forall v: Key, o: Key | IsRep(x, v) && o in Pts(x.pts, v) ensures ComesFrom(w, x, v, o) {
      assert IsRep(w, v);
      if o !in Pts(w.pts, v) {
        assert v == r && o in Pts(w.pts, n);
        assert Rep(x, n) == if Rep(w, n) == n then r else Rep(w, n);
      }
    }
  }

  lemma ReachesImage(w: Wave, x: Wave, n: Key, r: Key, a: Key, b: Key)
    requires MergeStep(w, x, n, r) && a != n && b != n && Reaches(w.copies, a, b)
    ensures Reaches(x.copies, a, b)
  {
    hide MergeStep;
    var p: seq<Key> :| IsPath(w.copies, p) && p[0] == a && p[|p| - 1] == b;
    ImagePath(w, x, n, r, p);
  }

  lemma MergedTrans(w: Wave, x: Wave, y: Wave)
    requires Merged(w, x) && Merged(x, y)
    ensures Merged(w, y)
  {
    ComeTrans(x, y, w.copies, x.copies, y.copies);
    ComeTrans(x, y, w.loads, x.loads, y.loads);
    ComeTrans(x, y, w.stores, x.stores, y.stores);
    FollowTrans(w, x, y);
    GoTrans(w, x, y);
    hide Rep, Reaches, Come, AllGo;
    forall a: Key, b: Key | IsRep(y, a) && IsRep(y, b) && Reaches(w.copies, a, b) ensures Reaches(y.copies, a, b) {
      assert IsRep(x, a) && IsRep(x, b);
      assert Reaches(x.copies, a, b);
    }
    PtsComeTrans(w, x, y);
    CoverTrans(w, x, y);
  }

  lemma FollowTrans(w: Wave, x: Wave, y: Wave)
    requires RepsFollow(w, x) && RepsFollow(x, y)
    ensures RepsFollow(w, y)
  {
    hide Rep;
    forall v: Key ensures Rep(y, Rep(w, v)) == Rep(y, v) && (IsRep(y, v) ==> IsRep(w, v)) {
      var u := Rep(w, v);
      assert Rep(x, u) == Rep(x, v);
      assert Rep(y, Rep(x, u)) == Rep(y, u) && Rep(y, Rep(x, v)) == Rep(y, v);
    }
  }

  lemma CoverTrans(w: Wave, x: Wave, y: Wave)
    requires CoverKept(w, x) && CoverKept(x, y)
    ensures CoverKept(w, y)
  {
    hide Covered;
    forall a: Key, b: Key | Covered(w, a, b) ensures Covered(y, a, b) { assert Covered(x, a, b); }
  }

  lemma PtsComeTrans(w: Wave, x: Wave, y: Wave)
    requires PtsCome(w, x) && PtsCome(x, y) && RepsFollow(x, y)
    ensures PtsCome(w, y)
  {
    hide Pts, Rep;
    forall v: Key, o: Key | IsRep(y, v) && o in Pts(y.pts, v) ensures ComesFrom(w, y, v, o) {
      assert ComesFrom(x, y, v, o);
      var u: Key :| Rep(y, u) == v && IsRep(x, u) && o in Pts(x.pts, u);
      assert ComesFrom(w, x, u, o);
      var t: Key :| Rep(x, t) == u && IsRep(w, t) && o in Pts(w.pts, t);
      assert Rep(y, Rep(x, t)) == Rep(y, t);
    }
  }

  /** Every node that has something is queued: so it is after the address constraints. */
  ghost predicate NonEmptyQueued(w: Wave, list: set<Key>) {
    forall r: Key {:trigger InList(w, list, r)} :: IsRep(w, r) && Pts(w.pts, r) != {} ==> InList(w, list, r)
  }

  lemma NonEmptyStayQueued(w: Wave, x: Wave, list: set<Key>)
    requires Merged(w, x) && NonEmptyQueued(w, list)
    ensures NonEmptyQueued(x, list)
  {
    hide Pts, Rep;
    forall r: Key | IsRep(x, r) && Pts(x.pts, r) != {} ensures InList(x, list, r) {
      var o :| o in Pts(x.pts, r);
      assert ComesFrom(w, x, r, o);
      var u: Key :| Rep(x, u) == r && IsRep(w, u) && o in Pts(w.pts, u);
      assert InList(w, list, u);
      var v: Key :| v in list && Rep(w, v) == u;
      assert Rep(x, Rep(w, v)) == Rep(x, v);
    }
  }

  lemma NonEmptyStillQueued(w: Wave, x: Wave, s: set<Key>, t: set<Key>)
    requires SameReps(w, x) && Queued(w.pts, x.pts, s, t) && NonEmptyQueued(w, s)
    ensures NonEmptyQueued(x, t)
  {
    hide Pts, Rep;
    forall r: Key | IsRep(x, r) && Pts(x.pts, r) != {} ensures InList(x, t, r) {
      assert IsRep(w, r);
      if Pts(x.pts, r) <= Pts(w.pts, r) {
        assert InList(w, s, r);
        var v: Key :| v in s && Rep(w, v) == r;
        assert v in t && Rep(x, v) == r;
      } else {
        assert r in t && Rep(x, r) == r;
      }
    }
  }

  lemma NonEmptyIsQueuedOrDone(sys: System, w: Wave, list: set<Key>)
    requires NonEmptyQueued(w, list)
    ensures QueuedOrDone(sys, w, list)
  {
    hide Pts, Rep;
  }

  // ------------------------------------------------------------------ what is merged stays merged

  lemma SameFollows(w: Wave, x: Wave)
    requires RepsOk(x) && SameReps(w, x)
    ensures RepsFollow(w, x)
  {
    hide Rep;
    forall v: Key ensures Rep(x, Rep(w, v)) == Rep(x, v) && (IsRep(x, v) ==> IsRep(w, v)) {
      assert Rep(w, v) == Rep(x, v) && IsRep(x, Rep(x, v));
    }
  }

  // ------------------------------------------------------------------ the order of the pass

  /** From the top, which is the last, no edge leads back up; and all representatives are there. */
  ghost predicate Ordered(nodes: set<Key>, w: Wave, q: seq<Key>) {
    && (forall i, j :: 0 <= i <= j < |q| ==> Link(q[i], q[j]) !in w.copies)
    && (forall i :: 0 <= i < |q| ==> IsRep(w, q[i]) && q[i] in nodes)
    && (forall v :: v in nodes && IsRep(w, v) ==> v in q)
  }

  /** When all cycles are merged, the detector's stack is such an order. */
  lemma MergedOrdered(nodes: set<Key>, reps: set<Key>, w: Wave, x: Wave, m: InfoMap, q: seq<Key>)
    requires reps == GraphNodes(nodes, w.rep) && Ends(reps, w.copies) && GraphOk(x) && Within(nodes, x)
    requires TopoCorrect(GraphOf(reps, w.copies), m, q) && m.Keys == reps
    requires EdgesCome(w, x) && RepsFollow(w, x) && forall v :: v in reps ==> Rep(x, v) == SccAnswers.RepOf(m, v)
    ensures Ordered(nodes, x, q)
  {
    var g := GraphOf(reps, w.copies);
    RepsAre(nodes, w);
    hide GraphOf, Rep, Pts, SccAnswers.RepOf, Distinct, GraphNodes;
    forall i, j | 0 <= i <= j < |q| ensures Link(q[i], q[j]) !in x.copies {
      if Link(q[i], q[j]) in x.copies {
        var f: Link :| f in w.copies && Link(q[i], q[j]) == Link(Rep(x, f.src), Rep(x, f.dst));
        GraphOfEdge(reps, w.copies, f.src, f.dst);
      }
    }
    forall i | 0 <= i < |q| ensures IsRep(x, q[i]) && q[i] in nodes {
      assert q[i] in q;
    }
    forall v | v in nodes && IsRep(x, v) ensures v in q {
      assert IsRep(w, v);
      assert v in reps;
    }
  }

  /** Passing on from the top of what is left settles the top and unsettles nothing that came before. */
  lemma PassSettles(nodes: set<Key>, w: Wave, x: Wave, q: seq<Key>, k: nat)
    requires k < |q| && Ordered(nodes, w, q) && PassStep(w, x, q[k]) && GraphOk(w) && Within(nodes, w)
    requires forall r :: r in nodes && IsRep(w, r) && r !in q[..k + 1] ==> Settled(w, r)
    ensures Ordered(nodes, x, q)
    ensures forall r :: r in nodes && IsRep(x, r) && r !in q[..k] ==> Settled(x, r)
  {
    var n := q[k];
    hide Pts, Cached, Rep;
    forall r | r in nodes && IsRep(x, r) && r !in q[..k] ensures Settled(x, r) {
      assert IsRep(w, r);
      EdgeLeadsDown(nodes, w, q, k, r);
      if r != n {
        assert q[..k + 1] == q[..k] + [n];
        assert Settled(w, r);
      }
    }
  }

  lemma EdgeLeadsDown(nodes: set<Key>, w: Wave, q: seq<Key>, k: nat, r: Key)
    requires Ordered(nodes, w, q) && k < |q| && Within(nodes, w) && GraphOk(w)
    ensures Link(q[k], r) in w.copies ==> r in q[..k]
  {
    hide Pts, Rep;
    if Link(q[k], r) in w.copies {
      assert r in q;
      var j :| 0 <= j < |q| && q[j] == r;
      assert q[..k][j] == r;
    }
  }

  /** Representatives that are not nodes have nothing. */
  lemma SettledOutside(nodes: set<Key>, w: Wave)
    requires Within(nodes, w) && forall r :: r in nodes && IsRep(w, r) ==> Settled(w, r)
    ensures AllSettled(w)
  {
    hide Pts, Rep;
    forall r: Key | IsRep(w, r) ensures Settled(w, r) {
      if r !in nodes { assert Pts(w.pts, r) == {}; }
    }
  }

  // ------------------------------------------------------------------ about merging all cycles

  /** What the detector has found out about the constraint graph. */
  ghost predicate DetectedIn(w: Wave, reps: set<Key>, m: InfoMap, stack: seq<Key>) {
    && Ends(reps, w.copies) && m.Keys == reps
    && SccAnswers.RepsCorrect(GraphOf(reps, w.copies), m) && SccAnswers.SubNodesCorrect(GraphOf(reps, w.copies), m)
    && SccAnswers.TopoCorrect(GraphOf(reps, w.copies), m, stack)
  }

  /** The components from height k of the stack on have been merged, and no others. */
  ghost predicate MergedFrom(x: Wave, m: InfoMap, reps: set<Key>, stack: seq<Key>, k: nat)
    requires k <= |stack| && m.Keys == reps
  {
    forall v: Key {:trigger Rep(x, v)} ::
      v in reps ==> Rep(x, v) == if SccAnswers.RepOf(m, v) in stack[k..] then SccAnswers.RepOf(m, v) else v
  }

  ghost predicate Turned(stack: seq<Key>, rev: seq<Key>, k: nat) {
    k + |rev| == |stack| && forall i :: 0 <= i < |rev| ==> rev[i] == stack[|stack| - 1 - i]
  }

  lemma NothingMerged(nodes: set<Key>, w: Wave, m: InfoMap, reps: set<Key>, stack: seq<Key>)
    requires reps == GraphNodes(nodes, w.rep) && m.Keys == reps
    ensures MergedFrom(w, m, reps, stack, |stack|)
  {}

  /** The component of a root are the nodes that it represents. */
  lemma ComponentOf(g: G.Graph, m: InfoMap, q: seq<Key>, r: Key)
    requires SccAnswers.RepsCorrect(g, m) && SccAnswers.SubNodesCorrect(g, m) && SccAnswers.TopoCorrect(g, m, q)
    requires r in q
    ensures r in m && forall n :: n in m[r].subNodes <==> n in m && SccAnswers.RepOf(m, n) == r
    ensures forall n :: n in m[r].subNodes ==> G.MutuallyReach(g, r, n)
  {
    hide G.MutuallyReach, Distinct, NoEdge;
    assert SccAnswers.RepOf(m, r) == r;
    forall n | n in m ensures n in m[r].subNodes <==> SccAnswers.RepOf(m, n) == r {
      assert SccAnswers.RepOf(m, r) == SccAnswers.RepOf(m, n) <==> G.MutuallyReach(g, r, n);
    }
  }

  lemma AboveIsOther(stack: seq<Key>, k: nat)
    requires Distinct(stack) && k < |stack|
    ensures stack[k] !in stack[k + 1..] && stack[k..] == [stack[k]] + stack[k + 1..] && stack[k] in stack
  {
    forall i | k + 1 <= i < |stack| ensures stack[i] != stack[k] {}
  }

  /** The next component may be merged: its nodes stand for themselves and still reach each other. */
  lemma MayMerge(nodes: set<Key>, reps: set<Key>, w: Wave, x: Wave, m: InfoMap, stack: seq<Key>, k: nat)
    requires reps == GraphNodes(nodes, w.rep) && DetectedIn(w, reps, m, stack) && k < |stack|
    requires Merged(w, x) && MergedFrom(x, m, reps, stack, k + 1)
    ensures stack[k] in m && IsRep(x, stack[k]) && stack[k] in nodes && m[stack[k]].subNodes <= nodes
    ensures forall n :: n in m[stack[k]].subNodes ==>
        IsRep(x, n) && Reaches(x.copies, n, stack[k]) && Reaches(x.copies, stack[k], n)
  {
    var g, r := GraphOf(reps, w.copies), stack[k];
    AboveIsOther(stack, k);
    ComponentOf(g, m, stack, r);
    RepsAre(nodes, w);
    hide GraphOf, Rep, Reaches, SccAnswers.RepOf, SccAnswers.RepsCorrect, SccAnswers.SubNodesCorrect;
    assert SccAnswers.RepOf(m, r) == r && Rep(x, r) == r;
    forall n | n in m[r].subNodes ensures IsRep(x, n) && Reaches(x.copies, n, r) && Reaches(x.copies, r, n) {
      assert Rep(x, n) == n;
      assert G.MutuallyReach(g, r, n);
      GraphOfReaches(reps, w.copies, r, n);
      GraphOfReaches(reps, w.copies, n, r);
    }
  }

  lemma MergedOneComponent(nodes: set<Key>, reps: set<Key>, w: Wave, x: Wave, y: Wave, m: InfoMap, stack: seq<Key>,
                           k: nat)
    requires DetectedIn(w, reps, m, stack) && k < |stack| && stack[k] in m && MergedFrom(x, m, reps, stack, k + 1)
    requires forall v: Key :: Rep(y, v) == if Rep(x, v) in m[stack[k]].subNodes then stack[k] else Rep(x, v)
    ensures MergedFrom(y, m, reps, stack, k)
  {
    var g, r := GraphOf(reps, w.copies), stack[k];
    assert r in stack;
    ComponentOf(g, m, stack, r);
    RootsAreOwn(g, m, stack);
    hide GraphOf, Rep, SccAnswers.RepOf, SccAnswers.RepsCorrect, SccAnswers.SubNodesCorrect, SccAnswers.TopoCorrect;
    forall v: Key | v in reps
      ensures Rep(y, v) == if SccAnswers.RepOf(m, v) in stack[k..] then SccAnswers.RepOf(m, v) else v
    {
      var q := SccAnswers.RepOf(m, v);
      InAbove(stack, k, q);
      assert Rep(x, v) == if q in stack[k + 1..] then q else v;
      hide *;
    }
  }

  lemma InAbove(stack: seq<Key>, k: nat, q: Key)
    requires k < |stack|
    ensures q in stack[k..] <==> q == stack[k] || q in stack[k + 1..]
  {
    assert stack[k..] == [stack[k]] + stack[k + 1..];
  }

  lemma RootsAreOwn(g: G.Graph, m: InfoMap, q: seq<Key>)
    requires SccAnswers.RepsCorrect(g, m) && SccAnswers.TopoCorrect(g, m, q)
    ensures forall v {:trigger SccAnswers.RepOf(m, v)} :: v in m ==>
        SccAnswers.RepOf(m, v) in m && SccAnswers.RepOf(m, SccAnswers.RepOf(m, v)) == SccAnswers.RepOf(m, v) &&
        SccAnswers.RepOf(m, v) in q
  {
    hide G.MutuallyReach, Distinct, NoEdge;
    forall v | v in m
      ensures SccAnswers.RepOf(m, v) in m && SccAnswers.RepOf(m, SccAnswers.RepOf(m, v)) == SccAnswers.RepOf(m, v)
    {
      assert G.MutuallyReach(g, v, SccAnswers.RepOf(m, v));
    }
  }

  lemma GraphIsFit(sys: System, nodes: set<Key>, w: Wave, reps: set<Key>)
    requires Good(sys, w) && Within(nodes, w) && reps == GraphNodes(nodes, w.rep)
    requires forall n :: n in nodes ==> n < G.UINT_MAX
    ensures Ends(reps, w.copies) && G.WellFormed(GraphOf(reps, w.copies)) && GraphOf(reps, w.copies).succ.Keys == reps
  {
    RepsAre(nodes, w);
    hide Rep, Pts, GraphNodes;
    GraphOfWellFormed(reps, w.copies);
  }

  /** After all components are merged the detector's stack orders the nodes. */
  lemma RoundOrdered(sys: System, nodes: set<Key>, reps: set<Key>, w: Wave, x: Wave, m: InfoMap, stack: seq<Key>)
    requires reps == GraphNodes(nodes, w.rep) && DetectedIn(w, reps, m, stack) && Good(sys, x) && Within(nodes, x)
    requires Merged(w, x) && MergedFrom(x, m, reps, stack, 0)
    ensures Ordered(nodes, x, stack)
  {
    hide GraphOf, Rep, SccAnswers.RepOf, SccAnswers.RepsCorrect, SccAnswers.SubNodesCorrect, Within, Ordered;
    hide SccAnswers.TopoCorrect, MergedFrom;
    AllMerged(GraphOf(reps, w.copies), x, m, reps, stack);
    MergedOrdered(nodes, reps, w, x, m, stack);
  }

  /** Two nodes have become one exactly if they were on a cycle of copies. */
  ghost predicate CyclesMerged(nodes: set<Key>, w: Wave, x: Wave) {
    forall a: Key, b: Key {:trigger Rep(x, a), Rep(x, b)} ::
      a in nodes && b in nodes && IsRep(w, a) && IsRep(w, b) ==>
        (Rep(x, a) == Rep(x, b) <==> Reaches(w.copies, a, b) && Reaches(w.copies, b, a))
  }

  lemma RoundMergesCycles(nodes: set<Key>, reps: set<Key>, w: Wave, x: Wave, m: InfoMap, stack: seq<Key>)
    requires reps == GraphNodes(nodes, w.rep) && DetectedIn(w, reps, m, stack) && MergedFrom(x, m, reps, stack, 0)
    ensures CyclesMerged(nodes, w, x)
  {
    hide GraphOf, Rep, Reaches, SccAnswers.RepOf, SccAnswers.SubNodesCorrect, SccAnswers.TopoCorrect, GraphNodes, Ends;
    hide SccAnswers.RepsCorrect, G.Reaches, MergedFrom;
    var g := GraphOf(reps, w.copies);
    RepsAre(nodes, w);
    AllMerged(g, x, m, reps, stack);
    forall a: Key, b: Key | a in nodes && b in nodes && IsRep(w, a) && IsRep(w, b)
      ensures Rep(x, a) == Rep(x, b) <==> Reaches(w.copies, a, b) && Reaches(w.copies, b, a)
    {
      GraphOfReaches(reps, w.copies, a, b);
      GraphOfReaches(reps, w.copies, b, a);
      SameRootIff(g, m, a, b);
    }
  }

  lemma AllMerged(g: G.Graph, x: Wave, m: InfoMap, reps: set<Key>, stack: seq<Key>)
    requires SccAnswers.RepsCorrect(g, m) && SccAnswers.TopoCorrect(g, m, stack) && m.Keys == reps
    requires MergedFrom(x, m, reps, stack, 0)
    ensures forall v: Key {:trigger Rep(x, v)} :: v in reps ==> Rep(x, v) == SccAnswers.RepOf(m, v)
  {
    RootsAreOwn(g, m, stack);
    assert stack[0..] == stack;
    hide Rep, SccAnswers.RepOf, SccAnswers.RepsCorrect, SccAnswers.TopoCorrect;
  }

  lemma SameRootIff(g: G.Graph, m: InfoMap, a: Key, b: Key)
    requires SccAnswers.RepsCorrect(g, m) && a in m && b in m
    ensures SccAnswers.RepOf(m, a) == SccAnswers.RepOf(m, b) <==> G.MutuallyReach(g, a, b)
  {}

  // ------------------------------------------------------------------ about the pass

  lemma StartPass(nodes: set<Key>, w: Wave, stack: seq<Key>)
    requires Ordered(nodes, w, stack)
    ensures stack[..|stack|] == stack && PtsGrown(w, w)
    ensures forall r :: r in nodes && IsRep(w, r) && r !in stack[..|stack|] ==> Settled(w, r)
  {
    assert stack[..|stack|] == stack;
  }

  lemma OrderedTop(nodes: set<Key>, w: Wave, stack: seq<Key>, k: nat)
    requires Ordered(nodes, w, stack) && k < |stack|
    ensures IsRep(w, stack[k])
  {}

  lemma PassGoesOn(sys: System, nodes: set<Key>, x: Wave, y: Wave, stack: seq<Key>, k: nat)
    requires Good(sys, x) && Within(nodes, x) && Ordered(nodes, x, stack) && k < |stack| && PassStep(x, y, stack[k])
    requires forall r :: r in nodes && IsRep(x, r) && r !in stack[..k + 1] ==> Settled(x, r)
    ensures Ordered(nodes, y, stack)
    ensures forall r :: r in nodes && IsRep(y, r) && r !in stack[..k] ==> Settled(y, r)
  {
    hide Settled, Ordered, PassStep, Within, Rep;
    PassSettles(nodes, x, y, stack, k);
  }

  // ------------------------------------------------------------------ about whole rounds

  /** A round from w to x: cycles merged, with all differences passed on and, for what was in the list or has grown,
      loads and stores resolved. */
  ghost predicate RoundOf(sys: System, w: Wave, mid: Wave, x: Wave, list: set<Key>) {
    && Merged(w, mid) && OnlyCopiesGrow(mid, x) && Grows(mid.pts, x.pts)
    && (forall r: Key {:trigger Done(sys, x, r)} ::
          IsRep(x, r) ==> Done(sys, x, r) || Overlooked(sys, mid, list, r))
    && (x.copies == mid.copies ==> AllSettled(x))
  }

  lemma NoneOverlooked(sys: System, w: Wave, mid: Wave, x: Wave, list: set<Key>)
    requires RoundOf(sys, w, mid, x, list) && QueuedOrDone(sys, mid, list)
    ensures AllDone(sys, x)
  {
    hide Done, Rep, InList, Merged, Grows;
    forall r: Key ensures IsRep(x, r) <==> IsRep(mid, r) {}
  }

  /** When all that has something is queued, the merging of a round does no harm. */
  lemma FirstRound(sys: System, w: Wave, mid: Wave, x: Wave, list: set<Key>)
    requires RoundOf(sys, w, mid, x, list) && RepsOk(x)
    ensures RepsFollow(mid, x) && (NonEmptyQueued(w, list) ==> QueuedOrDone(sys, mid, list) && AllDone(sys, x))
  {
    SameFollows(mid, x);
    hide Merged, NonEmptyQueued, QueuedOrDone, Grows, Rep, RepsFollow, AllDone;
    if NonEmptyQueued(w, list) {
      NonEmptyStayQueued(w, mid, list);
      NonEmptyIsQueuedOrDone(sys, mid, list);
      NoneOverlooked(sys, w, mid, x, list);
    }
  }

  /** A round that adds an edge takes away from the pairs that no edge or merge connects. */
  lemma RoundCovers(sys: System, nodes: set<Key>, w: Wave, mid: Wave, x: Wave, list: set<Key>)
    requires RoundOf(sys, w, mid, x, list) && GraphOk(x) && Within(nodes, x)
    ensures x.copies != mid.copies ==> Uncovered(nodes, x) < Uncovered(nodes, w)
    ensures Uncovered(nodes, x) <= Uncovered(nodes, w)
  {
    hide Pts, Rep;
    if x.copies != mid.copies { UncoveredShrinks(nodes, w, mid, x); }
    forall a: Key, b: Key | Covered(mid, a, b) ensures Covered(x, a, b) { CoveredStays(mid, x, a, b); }
    hide Covered;
  }
}
