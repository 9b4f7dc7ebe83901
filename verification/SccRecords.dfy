/** How the detector's fields record a `State`, and which steps their updates are. */
module SccRecords {
  import opened Graphs
  import opened Scc

  datatype Info = Info(visited: bool, inSCC: bool, rep: NodeID, subNodes: set<NodeID>)

  type InfoMap = map<NodeID, Info>

  /** The entry that looking up an unknown node yields. */
  const FRESH := Info(false, false, UINT_MAX, {})

  function Lookup(m: InfoMap, n: NodeID): Info { if n in m then m[n] else FRESH }

  /** The entries after `rep(n, r)`. */
  function WithRep(m: InfoMap, n: NodeID, r: NodeID): InfoMap {
    var m1 := m[n := Lookup(m, n).(rep := r)];
    var m2 := m1[r := Lookup(m1, r).(subNodes := Lookup(m1, r).subNodes + {n})];
    if n == r then m2 else m2[n := m2[n].(subNodes := {})]
  }

  function Elems(q: seq<NodeID>): set<NodeID> { set n | n in q }

  ghost predicate Distinct(q: seq<NodeID>) {
    forall i, j :: 0 <= i < j < |q| ==> q[i] != q[j]
  }

  lemma ElemsLast(q: seq<NodeID>, x: NodeID)
    ensures x in Elems(q + [x])
  {
    assert (q + [x])[|q|] == x;
  }

  lemma PoppedElems(q: seq<NodeID>, x: NodeID)
    requires Distinct(q + [x])
    ensures Elems(q) == Elems(q + [x]) - {x}
  {
    assert (q + [x])[|q|] == x;
    forall i | 0 <= i < |q| ensures q[i] != x { assert (q + [x])[i] == q[i]; }
    assert Elems(q + [x]) == Elems(q) + {x};
  }

  /** The fields of the detector other than its node entries. */
  datatype Rest = Rest(D: map<NodeID, nat>, I: nat, SS: seq<NodeID>, T: seq<NodeID>,
                       pos: map<NodeID, nat>, repNodes: set<NodeID>)

  ghost function Recorded(m: InfoMap, r: Rest): State {
    State(set n | n in m && m[n].visited, set n | n in m && m[n].inSCC,
          map n | n in m :: m[n].rep, map n | n in m :: m[n].subNodes, r.D, r.I,
          Elems(r.SS), Elems(r.T), r.pos, |r.T|, r.repNodes)
  }

  lemma RecordedAt(m: InfoMap, r: Rest, s: State)
    requires s == Recorded(m, r)
    ensures forall n {:trigger n in s.vis} :: n in s.vis <==> n in m && m[n].visited
    ensures forall n {:trigger n in s.done} :: n in s.done <==> n in m && m[n].inSCC
    ensures forall n {:trigger s.Rep(n)} :: s.Rep(n) == Lookup(m, n).rep
    ensures forall n {:trigger s.Sub(n)} :: s.Sub(n) == Lookup(m, n).subNodes
    ensures forall n {:trigger s.Ord(n)} :: s.Ord(n) == if n in r.D then r.D[n] else 0
    ensures forall n {:trigger s.Pos(n)} :: s.Pos(n) == if n in r.pos then r.pos[n] else 0
    ensures s.count == r.I && s.stack == Elems(r.SS) && s.roots == Elems(r.T) && s.height == |r.T|
    ensures s.repNodes == r.repNodes
  {}

  lemma EnterRecorded(m: InfoMap, r: Rest, v: NodeID)
    requires v !in m
    ensures Entered(Recorded(m, r),
                    Recorded(m[v := Info(true, false, v, {v})], r.(I := r.I + 1, D := r.D[v := r.I + 1])), v)
  {}

  lemma WithRepAt(m: InfoMap, n: NodeID, r: NodeID)
    requires n in m && r in m
    ensures var t := WithRep(m, n, r);
      && t.Keys == m.Keys
      && (forall x {:trigger t[x]} :: x in m && x != n && x != r ==> t[x] == m[x])
      && (n == r ==> t[n] == m[n].(rep := r, subNodes := m[n].subNodes + {n}))
      && (n != r ==> t[n] == m[n].(rep := r, subNodes := {})
                     && t[r] == m[r].(subNodes := m[r].subNodes + {n}))
  {}

  lemma RedirectSelfRecorded(m: InfoMap, r: Rest, n: NodeID)
    requires n in m
    ensures Redirected(Recorded(m, r), Recorded(WithRep(m, n, n), r), n, n)
  {
    WithRepAt(m, n, n);
    hide WithRep;
  }

  lemma RedirectRecorded(m: InfoMap, r: Rest, n: NodeID, p: NodeID)
    requires n in m && p in m && n != p
    ensures Redirected(Recorded(m, r), Recorded(WithRep(m, n, p), r.(repNodes := r.repNodes - {n} + {p})), n, p)
  {
    hide WithRep, Recorded, Elems, State.Rep, State.Sub, State.Ord, State.Pos;
    WithRepAt(m, n, p);
    var t, r' := WithRep(m, n, p), r.(repNodes := r.repNodes - {n} + {p});
    RecordedAt(m, r, Recorded(m, r));
    RecordedAt(t, r', Recorded(t, r'));
  }

  lemma PushRecorded(m: InfoMap, r: Rest, v: NodeID)
    ensures Pushed(Recorded(m, r), Recorded(m, r.(SS := r.SS + [v])), v)
  {}

  lemma DoneRecorded(m: InfoMap, r: Rest, v: NodeID)
    requires v in m
    ensures var s, t := Recorded(m, r), Recorded(m[v := m[v].(inSCC := true)], r);
      Gathered(s, t, v, {}) && SameTopo(s, t)
  {}

  lemma PopRecorded(m: InfoMap, r: Rest, q: seq<NodeID>, x: NodeID, v: NodeID)
    requires x in m && v in m && x != v && r.SS == q + [x] && Distinct(r.SS)
    ensures Popped(Recorded(m, r),
                   Recorded(WithRep(m[x := m[x].(inSCC := true)], x, v),
                            r.(SS := q, repNodes := r.repNodes - {x} + {v})),
                   v, x)
  {
    var m1 := m[x := m[x].(inSCC := true)];
    WithRepAt(m1, x, v);
    PoppedElems(q, x);
    var t := WithRep(m1, x, v);
    var r' := r.(SS := q, repNodes := r.repNodes - {x} + {v});
    RecordedAt(m, r, Recorded(m, r));
    RecordedAt(t, r', Recorded(t, r'));
    hide WithRep, Recorded, Elems, State.Rep, State.Sub, State.Ord, State.Pos;
  }

  lemma CloseRecorded(m: InfoMap, r: Rest, s: State, v: NodeID, w: set<NodeID>)
    requires Gathered(s, Recorded(m, r), v, w) && SameTopo(s, Recorded(m, r))
    ensures Closed(s, Recorded(m, r.(T := r.T + [v], pos := r.pos[v := |r.T|])), v, w)
  {
    var t, u := Recorded(m, r), Recorded(m, r.(T := r.T + [v], pos := r.pos[v := |r.T|]));
    assert forall n {:trigger u.Rep(n)} :: u.Rep(n) == t.Rep(n);
    assert forall n {:trigger u.Sub(n)} :: u.Sub(n) == t.Sub(n);
    assert forall n {:trigger u.Ord(n)} :: u.Ord(n) == t.Ord(n);
    assert forall n {:trigger u.Pos(n)} :: u.Pos(n) == if n == v then |r.T| else t.Pos(n);
    hide State.Rep, State.Sub, State.Ord, State.Pos;
  }

  ghost predicate PlacedAt(q: seq<NodeID>, pos: map<NodeID, nat>) {
    forall i :: 0 <= i < |q| ==> q[i] in pos && pos[q[i]] == i
  }

  /** The part of the stack above height k is what the gathering loop of `visit` pops. */
  ghost predicate Poppable(m: InfoMap, r: Rest, v: NodeID, k: nat) {
    && k <= |r.SS| && Distinct(r.SS) && v in m && v in r.D
    && forall i :: 0 <= i < |r.SS| ==>
         r.SS[i] in m && r.SS[i] in r.D && r.SS[i] != v && (i >= k <==> r.D[r.SS[i]] > r.D[v])
  }

  lemma DistinctPush(q: seq<NodeID>, v: NodeID)
    requires Distinct(q) && v !in Elems(q)
    ensures Distinct(q + [v])
  {
    assert forall i :: 0 <= i < |q| ==> q[i] in Elems(q);
  }

  lemma PlacedPush(q: seq<NodeID>, pos: map<NodeID, nat>, v: NodeID)
    requires PlacedAt(q, pos) && v !in Elems(q)
    ensures PlacedAt(q + [v], pos[v := |q|])
  {
    assert forall i :: 0 <= i < |q| ==> q[i] in Elems(q);
  }

  lemma PoppableAt(m: InfoMap, r: Rest, v: NodeID, k: nat, i: nat)
    requires Poppable(m, r, v, k) && i < |r.SS|
    ensures r.SS[i] in m && r.SS[i] in r.D && v in r.D && r.SS[i] != v && (i >= k <==> r.D[r.SS[i]] > r.D[v])
  {}

  lemma PoppableAvoids(m: InfoMap, r: Rest, v: NodeID, k: nat)
    requires Poppable(m, r, v, k)
    ensures v !in Elems(r.SS) && k <= |r.SS| && v in m
  {}
}
