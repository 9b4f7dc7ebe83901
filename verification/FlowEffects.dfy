/** What processing a node of the value-flow graph does to the sets, and that it is within the discipline. */
module FlowEffects {
  import opened DfPoints
  import opened DfPtData
  import opened IncPtData
  import opened IncRefines

  /** A node of the graph; a location is the id of its node. */
  datatype SvfgNode =
    | Addr(dst: Key, obj: Key)
    | Copy(dst: Key, src: Key)
    | Load(dst: Key, ptr: Key)
    | Store(ptr: Key, value: Key)
    | Mssa                             // passes on what comes in

  /** Between definitions and uses of pointers, or carrying what a set of objects may hold. */
  datatype SvfgEdge = Direct(dst: LocId) | Indirect(dst: LocId, vars: set<Key>)

  type Nodes = map<LocId, SvfgNode>
  type OutEdges = map<LocId, seq<SvfgEdge>>

  function Outs(outs: OutEdges, l: LocId): seq<SvfgEdge> { if l in outs then outs[l] else [] }

  predicate IsStore(nodes: Nodes, l: LocId) { l in nodes && nodes[l].Store? }

  predicate Carries(e: SvfgEdge, dst: LocId, v: Key) { e.Indirect? && e.dst == dst && v in e.vars }

  /** The net is that of the graph: its edges are what the indirect edges out of stores carry, and those start at
      stores and at nodes that pass on. */
  ghost predicate NetOf(nodes: Nodes, outs: OutEdges, net: Net) {
    && (forall l: LocId :: l in net.stores <==> IsStore(nodes, l))
    && (forall l: LocId :: l in net.loads <==> l in nodes && nodes[l].Load?)
    && (forall l: LocId :: l in net.loads ==> net.loads[l] == nodes[l].dst)
    && (forall e: Edge :: e in net.edges ==> IsStore(nodes, e.src) && e.dstVar == e.srcVar && Carried(outs, e))
    && (forall l: LocId, i: nat, v: Key {:trigger Outs(outs, l)[i], Edge(l, v, Outs(outs, l)[i].dst, v)} ::
          IsStore(nodes, l) && i < |Outs(outs, l)| && Outs(outs, l)[i].Indirect? && v in Outs(outs, l)[i].vars ==>
            Edge(l, v, Outs(outs, l)[i].dst, v) in net.edges)
    && (forall l: LocId, i: nat {:trigger Outs(outs, l)[i]} ::
          i < |Outs(outs, l)| && Outs(outs, l)[i].Indirect? ==> l in nodes && (nodes[l].Store? || nodes[l].Mssa?))
  }

  ghost predicate Carried(outs: OutEdges, e: Edge) {
    exists i: nat :: i < |Outs(outs, e.src)| && Carries(Outs(outs, e.src)[i], e.dst, e.srcVar)
  }

  ghost predicate QuietBut(x: Inc, loc: LocId) {
    forall l: LocId {:trigger FlaggedOut(x, l)} :: l != loc ==> FlaggedOut(x, l) == {}
  }

  /** No OUT set is flagged. */
  ghost predicate Quiet(x: Inc) { forall l: LocId {:trigger FlaggedOut(x, l)} :: FlaggedOut(x, l) == {} }

  // ------------------------------------------------------------------ what processing a node does to the sets

  /** All that the objects in `os` may hold on entry to a location. */
  ghost function Loaded(s: Df, loc: LocId, os: set<Key>): set<Key> {
    set p: Key, o: Key | p in os && o in In(s, loc, p) :: o
  }

  ghost predicate LoadEffect(s: Df, t: Df, loc: LocId, dst: Key, os: set<Key>, changed: bool) {
    && SameIn(s, t) && SameOut(s, t)
    && (forall v: Key {:trigger Top(t, v)} :: Top(t, v) == Top(s, v) + if v == dst then Loaded(s, loc, os) else {})
    && (changed <==> !(Loaded(s, loc, os) <= Top(s, dst)))
  }

  /** The value goes to each object in `os`, and what an object may hold on entry passes through unless it is
      `killed`. */
  ghost function StoreAdds(s: Df, loc: LocId, os: set<Key>, value: set<Key>, through: bool, killed: set<Key>,
                           v: Key): set<Key> {
    (if v in os then value else {}) + if through && v !in killed then In(s, loc, v) else {}
  }

  ghost predicate StoreEffect(s: Df, t: Df, loc: LocId, os: set<Key>, value: set<Key>, through: bool, killed: set<Key>,
                              changed: bool) {
    && SameIn(s, t) && SameTop(s, t)
    && (forall l: LocId, v: Key {:trigger Out(t, l, v)} ::
          Out(t, l, v) == Out(s, l, v) + if l == loc then StoreAdds(s, loc, os, value, through, killed, v) else {})
    && (changed <==> exists v: Key :: !(StoreAdds(s, loc, os, value, through, killed, v) <= Out(s, loc, v)))
  }

  /** What a node has to pass on. */
  function Source(nodes: Nodes, s: Df, src: LocId, v: Key): set<Key> {
    if IsStore(nodes, src) then Out(s, src, v) else In(s, src, v)
  }

  ghost function PairsOf(e: SvfgEdge): set<(LocId, Key)> {
    if e.Indirect? then set v: Key | v in e.vars :: (e.dst, v) else {}
  }

  ghost function Pairs(es: seq<SvfgEdge>): set<(LocId, Key)> {
    if es == [] then {} else Pairs(es[..|es| - 1]) + PairsOf(es[|es| - 1])
  }

  ghost predicate PropEffect(nodes: Nodes, s: Df, t: Df, src: LocId, to: set<(LocId, Key)>) {
    && SameOut(s, t) && SameTop(s, t)
    && forall l: LocId, v: Key {:trigger In(t, l, v)} ::
        In(t, l, v) == In(s, l, v) + if (l, v) in to then Source(nodes, s, src, v) else {}
  }

  /** Processing a node, in terms of the sets alone. */
  ghost predicate NodeEffect(node: SvfgNode, inert: set<Key>, strongable: set<Key>, s: Df, t: Df, loc: LocId,
                             changed: bool) {
    match node
    case Addr(dst, obj) => PlainStep(s, AddPts(dst, obj), t, changed)
    case Copy(dst, src) => PlainStep(s, UnionPts(dst, src), t, changed)
    case Load(dst, ptr) => LoadEffect(s, t, loc, dst, Top(s, ptr) - inert, changed)
    case Store(ptr, value) =>
      var os := Top(s, ptr);
      if os == {} then SameSets(s, t) && !changed
      else StoreEffect(s, t, loc, os - inert, Top(s, value), true, Killed(os, strongable), changed)
    case Mssa => SameSets(s, t) && changed
  }

  /** The object that a store through a pointer to `os` overwrites for sure. */
  ghost function Killed(os: set<Key>, strongable: set<Key>): set<Key> { if |os| == 1 then os * strongable else {} }

  // What processing a node means, object by object.

  /** An address or copy gives its variable the object, or what the other variable has; a load what the objects that
      its pointer points to may hold on entry, but for those that are never dereferenced. */
  lemma DefinitionMeans(node: SvfgNode, inert: set<Key>, strongable: set<Key>, s: Df, t: Df, loc: LocId, changed: bool)
    requires NodeEffect(node, inert, strongable, s, t, loc, changed) && (node.Addr? || node.Copy? || node.Load?)
    ensures SameIn(s, t) && SameOut(s, t)
    ensures forall v: Key, o: Key {:trigger o in Top(t, v)} ::
        o in Top(t, v) <==>
          || o in Top(s, v)
          || (v == node.dst && node.Addr? && o == node.obj)
          || (v == node.dst && node.Copy? && o in Top(s, node.src))
          || (v == node.dst && node.Load? &&
              exists p: Key :: p in Top(s, node.ptr) && p !in inert && o in In(s, loc, p))
    ensures changed <==> !(Top(t, node.dst) <= Top(s, node.dst))
  {
    hide In, Out, Top;
    match node {
      case Addr(dst, obj) => TopMeans(s, AddPts(dst, obj), t, changed);
      case Copy(dst, src) => TopMeans(s, UnionPts(dst, src), t, changed);
      case Load(_, _) =>
    }
    hide Adds;
  }

  /** A store through a pointer that points somewhere gives the objects pointed to, but for those that are never
      dereferenced, what the value has; and each object keeps what it may hold on entry, unless the pointer points to it
      alone and it stands for one memory cell. Through a pointer that points nowhere nothing is stored. */
  lemma StoreMeans(node: SvfgNode, inert: set<Key>, strongable: set<Key>, s: Df, t: Df, loc: LocId, changed: bool)
    requires NodeEffect(node, inert, strongable, s, t, loc, changed) && node.Store?
    ensures SameIn(s, t) && SameTop(s, t)
    ensures forall l: LocId, v: Key, o: Key {:trigger o in Out(t, l, v)} ::
        o in Out(t, l, v) <==>
          || o in Out(s, l, v)
          || (l == loc && v in Top(s, node.ptr) && v !in inert && o in Top(s, node.value))
          || (l == loc && Top(s, node.ptr) != {} && o in In(s, loc, v) &&
              !(Top(s, node.ptr) == {v} && v in strongable))
    ensures changed <==> exists v: Key :: !(Out(t, loc, v) <= Out(s, loc, v))
  {
    hide In, Out, Top;
    var os := Top(s, node.ptr);
    if os != {} {
      assert forall v: Key ::
          Out(t, loc, v) == Out(s, loc, v) + StoreAdds(s, loc, os - inert, Top(s, node.value), true,
                                                       Killed(os, strongable), v);
      forall v: Key ensures v in Killed(os, strongable) <==> os == {v} && v in strongable {
        OneKilled(os, strongable, v);
      }
      hide Killed;
    }
  }

  lemma OneKilled(os: set<Key>, strongable: set<Key>, v: Key)
    ensures v in Killed(os, strongable) <==> os == {v} && v in strongable
  {
    if v in os { assert os == {v} + (os - {v}); }
  }

  lemma LoadNothing(s: Df, t: Df, loc: LocId, dst: Key)
    requires SameSets(s, t)
    ensures LoadEffect(s, t, loc, dst, {}, false)
  {
    hide In, Out, Top;
  }

  lemma LoadedMore(s: Df, loc: LocId, os: set<Key>, o: Key)
    ensures Loaded(s, loc, os + {o}) == Loaded(s, loc, os) + In(s, loc, o)
  {
    hide In;
  }

  lemma LoadAdds(t: Df, loc: LocId, o: Key, dst: Key)
    ensures Adds(TlvPts(loc, o, dst), t) <==> !(In(t, loc, o) <= Top(t, dst))
  {
    hide In, Out, Top;
    assert AddTop(TlvPts(loc, o, dst), t, dst) == In(t, loc, o);
  }

  lemma LoadOneMore(s: Df, t: Df, u: Df, loc: LocId, dst: Key, os: set<Key>, o: Key, changed: bool, grew: bool)
    requires LoadEffect(s, t, loc, dst, os, changed) && PlainStep(t, TlvPts(loc, o, dst), u, grew)
    ensures LoadEffect(s, u, loc, dst, os + {o}, changed || grew)
  {
    hide In, Out, Top, Loaded;
    var op := TlvPts(loc, o, dst);
    LoadedMore(s, loc, os, o);
    assert In(t, loc, o) == In(s, loc, o);
    LoadAdds(t, loc, o, dst);
    hide Adds;
    forall l: LocId, v: Key ensures In(u, l, v) == In(s, l, v) && Out(u, l, v) == Out(s, l, v) {
      assert In(u, l, v) == In(t, l, v) + AddIn(op, t, l, v) && Out(u, l, v) == Out(t, l, v) + AddOut(op, t, l, v);
    }
    forall v: Key ensures Top(u, v) == Top(s, v) + if v == dst then Loaded(s, loc, os + {o}) else {} {
      assert Top(u, v) == Top(t, v) + AddTop(op, t, v);
    }
    assert Top(t, dst) == Top(s, dst) + Loaded(s, loc, os);
  }

  lemma StoreNothing(s: Df, t: Df, loc: LocId, value: set<Key>)
    requires SameSets(s, t)
    ensures StoreEffect(s, t, loc, {}, value, false, {}, false)
  {
    hide In, Out, Top;
  }

  lemma StoreOneMore(s: Df, t: Df, u: Df, loc: LocId, os: set<Key>, src: Key, o: Key, changed: bool, grew: bool)
    requires StoreEffect(s, t, loc, os, Top(s, src), false, {}, changed) && PlainStep(t, AtvPts(src, loc, o), u, grew)
    requires o !in os
    ensures StoreEffect(s, u, loc, os + {o}, Top(s, src), false, {}, changed || grew)
  {
    hide In, Out, Top;
    var op, value := AtvPts(src, loc, o), Top(s, src);
    assert Top(t, src) == value;
    assert Out(t, loc, o) == Out(s, loc, o) + StoreAdds(s, loc, os, value, false, {}, o);
    assert Adds(op, t) <==> !(value <= Out(t, loc, o)) by { assert AddOut(op, t, loc, o) == value; }
    forall l: LocId, v: Key
      ensures In(u, l, v) == In(s, l, v)
    {
      assert In(u, l, v) == In(t, l, v) + AddIn(op, t, l, v);
    }
    forall v: Key ensures Top(u, v) == Top(s, v) { assert Top(u, v) == Top(t, v) + AddTop(op, t, v); }
    forall l: LocId, v: Key
      ensures Out(u, l, v) == Out(s, l, v) + if l == loc then StoreAdds(s, loc, os + {o}, value, false, {}, v) else {}
    {
      assert Out(u, l, v) == Out(t, l, v) + AddOut(op, t, l, v);
    }
    forall v: Key
      ensures StoreAdds(s, loc, os + {o}, value, false, {}, v) ==
          if v == o then value else StoreAdds(s, loc, os, value, false, {}, v)
    {}
  }

  lemma StoreAndPass(s: Df, t: Df, u: Df, loc: LocId, os: set<Key>, value: set<Key>, x: Key, strong: bool,
                     changed: bool,
                     grew: bool)
    requires StoreEffect(s, t, loc, os, value, false, {}, changed)
    requires PlainStep(t, AllOutFromIn(loc, x, strong), u, grew)
    ensures StoreEffect(s, u, loc, os, value, true, if strong then {x} else {}, changed || grew)
  {
    hide In, Out, Top;
    var op, k := AllOutFromIn(loc, x, strong), if strong then {x} else {};
    forall l: LocId, v: Key
      ensures In(u, l, v) == In(s, l, v)
    {
      assert In(u, l, v) == In(t, l, v) + AddIn(op, t, l, v);
    }
    forall v: Key ensures Top(u, v) == Top(s, v) { assert Top(u, v) == Top(t, v) + AddTop(op, t, v); }
    forall l: LocId, v: Key
      ensures Out(u, l, v) == Out(s, l, v) + if l == loc then StoreAdds(s, loc, os, value, true, k, v) else {}
    {
      assert Out(u, l, v) == Out(t, l, v) + AddOut(op, t, l, v);
      assert In(t, l, v) == In(s, l, v);
    }
    PassChanges(s, t, loc, os, value, x, strong, changed, grew);
  }

  lemma PassChanges(s: Df, t: Df, loc: LocId, os: set<Key>, value: set<Key>, x: Key, strong: bool, changed: bool,
                    grew: bool)
    requires StoreEffect(s, t, loc, os, value, false, {}, changed) && (grew <==> Adds(AllOutFromIn(loc, x, strong), t))
    ensures changed || grew <==>
      exists v: Key :: !(StoreAdds(s, loc, os, value, true, if strong then {x} else {}, v) <= Out(s, loc, v))
  {
    hide In, Out, Top;
    var op, k := AllOutFromIn(loc, x, strong), if strong then {x} else {};
    forall v: Key
      ensures StoreAdds(s, loc, os, value, true, k, v) ==
              StoreAdds(s, loc, os, value, false, {}, v) + AddOut(op, t, loc, v)
      ensures Out(t, loc, v) == Out(s, loc, v) + StoreAdds(s, loc, os, value, false, {}, v)
    {
      assert In(t, loc, v) == In(s, loc, v);
    }
    if changed {
      var v: Key :| !(StoreAdds(s, loc, os, value, false, {}, v) <= Out(s, loc, v));
      assert !(StoreAdds(s, loc, os, value, true, k, v) <= Out(s, loc, v));
    } else if grew {
      var v: Key :| !(AddOut(op, t, loc, v) <= Out(t, loc, v));
      assert !(StoreAdds(s, loc, os, value, true, k, v) <= Out(s, loc, v));
    } else {
      assert forall v: Key :: AddOut(op, t, loc, v) <= Out(t, loc, v);
    }
  }

  function PropOp(nodes: Nodes, src: LocId, v: Key, dst: LocId): Op {
    if IsStore(nodes, src) then InFromOut(Edge(src, v, dst, v)) else InFromIn(Edge(src, v, dst, v))
  }

  lemma PropNothing(nodes: Nodes, s: Df, src: LocId)
    ensures PropEffect(nodes, s, s, src, {})
  {}

  lemma PropOneMore(nodes: Nodes, s: Df, t: Df, u: Df, src: LocId, to: set<(LocId, Key)>, v: Key, dst: LocId,
                    grew: bool)
    requires PropEffect(nodes, s, t, src, to) && PlainStep(t, PropOp(nodes, src, v, dst), u, grew)
    ensures PropEffect(nodes, s, u, src, to + {(dst, v)})
  {
    hide In, Out, Top, Adds;
    var op := PropOp(nodes, src, v, dst);
    assert Source(nodes, t, src, v) == Source(nodes, s, src, v);
    forall l: LocId, w: Key
      ensures Out(u, l, w) == Out(s, l, w)
    {
      assert Out(u, l, w) == Out(t, l, w) + AddOut(op, t, l, w);
    }
    forall w: Key ensures Top(u, w) == Top(s, w) { assert Top(u, w) == Top(t, w) + AddTop(op, t, w); }
    forall l: LocId, w: Key
      ensures In(u, l, w) == In(s, l, w) + if (l, w) in to + {(dst, v)} then Source(nodes, s, src, w) else {}
    {
      assert In(u, l, w) == In(t, l, w) + AddIn(op, t, l, w);
    }
  }

  /** Some IN set of the location has grown. */
  ghost predicate GrewAt(s: Df, t: Df, l: LocId) { exists v: Key :: !(In(t, l, v) <= In(s, l, v)) }

  /** IN sets have grown at one location at most, and none has shrunk. */
  ghost predicate GrewOnlyAt(s: Df, t: Df, dst: LocId) {
    forall l: LocId, v: Key {:trigger In(t, l, v)} ::
      In(s, l, v) <= In(t, l, v) && (l != dst ==> In(t, l, v) == In(s, l, v))
  }

  lemma PropGrows(nodes: Nodes, s: Df, t: Df, src: LocId, v: Key, dst: LocId, grew: bool)
    requires PlainStep(s, PropOp(nodes, src, v, dst), t, grew)
    ensures GrewOnlyAt(s, t, dst) && (grew <==> GrewAt(s, t, dst))
  {
    hide In, Out, Top;
    var op := PropOp(nodes, src, v, dst);
    forall l: LocId, w: Key
      ensures In(t, l, w) == In(s, l, w) + if l == dst && w == v then Source(nodes, s, src, v) else {}
    {
      assert In(t, l, w) == In(s, l, w) + AddIn(op, s, l, w);
    }
    assert AddIn(op, s, dst, v) == Source(nodes, s, src, v);
    if GrewAt(s, t, dst) { assert Adds(op, s); }
    if Adds(op, s) { assert !(In(t, dst, v) <= In(s, dst, v)); }
  }

  lemma GrewOnlyAtTwice(s: Df, t: Df, u: Df, dst: LocId, a: bool, b: bool)
    requires GrewOnlyAt(s, t, dst) && (a <==> GrewAt(s, t, dst)) && GrewOnlyAt(t, u, dst) && (b <==> GrewAt(t, u, dst))
    ensures GrewOnlyAt(s, u, dst) && (a || b <==> GrewAt(s, u, dst))
  {
    hide In, Out, Top;
    forall l: LocId, v: Key ensures In(s, l, v) <= In(u, l, v) && (l != dst ==> In(u, l, v) == In(s, l, v)) {
      assert In(s, l, v) <= In(t, l, v) <= In(u, l, v);
    }
    if a {
      var v: Key :| !(In(t, dst, v) <= In(s, dst, v));
      assert In(t, dst, v) <= In(u, dst, v);
    }
    if b {
      var v: Key :| !(In(u, dst, v) <= In(t, dst, v));
      assert In(s, dst, v) <= In(t, dst, v);
    }
    if GrewAt(s, u, dst) {
      var v: Key :| !(In(u, dst, v) <= In(s, dst, v));
      assert !(In(u, dst, v) <= In(t, dst, v)) || !(In(t, dst, v) <= In(s, dst, v));
    }
  }

  lemma GrewNowhere(s: Df, dst: LocId)
    ensures GrewOnlyAt(s, s, dst) && !GrewAt(s, s, dst)
  {}

  /** Exactly the targets of direct edges, and those with a grown IN set, are to be processed. */
  ghost predicate WorkIs(es: seq<SvfgEdge>, s: Df, t: Df, work: set<LocId>) {
    && (forall l: LocId :: l in work <==> DirectTo(es, l) || GrewAt(s, t, l))
    && forall l: LocId, v: Key {:trigger In(t, l, v)} :: In(s, l, v) <= In(t, l, v)
  }

  /** The k-th edge is direct, or brings something that is not there and that no edge before it has brought. */
  ghost predicate Wakes(nodes: Nodes, s: Df, src: LocId, es: seq<SvfgEdge>, k: nat)
    requires k < |es|
  {
    var dst := es[k].dst;
    es[k].Direct? || exists v: Key ::
      v in es[k].vars && (dst, v) !in Pairs(es[..k]) && !(Source(nodes, s, src, v) <= In(s, dst, v))
  }

  /** The nodes that the edges wake, in the order of the edges. */
  ghost function Woken(nodes: Nodes, s: Df, src: LocId, es: seq<SvfgEdge>): seq<LocId> {
    if es == [] then []
    else
      var most := Woken(nodes, s, src, es[..|es| - 1]);
      if Wakes(nodes, s, src, es, |es| - 1) then most + [es[|es| - 1].dst] else most
  }

  lemma WakesIff(nodes: Nodes, s: Df, t: Df, u: Df, src: LocId, es: seq<SvfgEdge>, k: nat)
    requires k < |es| && PropEffect(nodes, s, t, src, Pairs(es[..k]))
    requires PropEffect(nodes, s, u, src, Pairs(es[..k + 1]))
    ensures Wakes(nodes, s, src, es, k) <==> es[k].Direct? || GrewAt(t, u, es[k].dst)
  {
    assert es[..k + 1][..k] == es[..k];
    hide In, Out, Top, Source, Pairs;
    var dst := es[k].dst;
    if es[k].Indirect? {
      forall v: Key
        ensures !(In(u, dst, v) <= In(t, dst, v)) <==>
          v in es[k].vars && (dst, v) !in Pairs(es[..k]) && !(Source(nodes, s, src, v) <= In(s, dst, v))
      {
        PairsNext(es, k);
        assert (dst, v) in Pairs(es[..k + 1]) <==> (dst, v) in Pairs(es[..k]) || v in es[k].vars;
      }
    }
  }

  lemma PairsNext(es: seq<SvfgEdge>, k: nat)
    requires k < |es|
    ensures Pairs(es[..k + 1]) == Pairs(es[..k]) + PairsOf(es[k])
  {
    assert es[..k + 1][..k] == es[..k];
  }

  lemma WokenNext(nodes: Nodes, s: Df, src: LocId, es: seq<SvfgEdge>, k: nat)
    requires k < |es|
    ensures Woken(nodes, s, src, es[..k + 1]) ==
        Woken(nodes, s, src, es[..k]) + if Wakes(nodes, s, src, es, k) then [es[k].dst] else []
  {
    assert es[..k + 1][..k] == es[..k];
    assert Wakes(nodes, s, src, es[..k + 1], k) <==> Wakes(nodes, s, src, es, k);
  }

  ghost predicate DirectTo(es: seq<SvfgEdge>, l: LocId) { exists i: nat :: i < |es| && es[i] == Direct(l) }

  lemma WorkNone(s: Df)
    ensures WorkIs([], s, s, {})
  {}

  lemma WorkOneMore(es: seq<SvfgEdge>, s: Df, t: Df, u: Df, work: set<LocId>, e: SvfgEdge, changed: bool)
    requires WorkIs(es, s, t, work) && GrewOnlyAt(t, u, e.dst) && (changed <==> e.Direct? || GrewAt(t, u, e.dst))
    ensures WorkIs(es + [e], s, u, if changed then work + {e.dst} else work)
  {
    hide In, Out, Top;
    var es' := es + [e];
    forall l: LocId, v: Key ensures In(s, l, v) <= In(u, l, v) { assert In(s, l, v) <= In(t, l, v) <= In(u, l, v); }
    forall l: LocId
      ensures DirectTo(es', l) <==> DirectTo(es, l) || e == Direct(l)
      ensures GrewAt(s, u, l) <==> GrewAt(s, t, l) || (l == e.dst && GrewAt(t, u, l))
    {
      if DirectTo(es, l) {
        var i: nat :| i < |es| && es[i] == Direct(l);
        assert es'[i] == Direct(l);
      }
      if e == Direct(l) { assert es'[|es|] == Direct(l); }
      GrewEither(s, t, u, l);
      if l != e.dst { assert forall v: Key :: In(u, l, v) == In(t, l, v); }
    }
  }

  lemma GrewEither(s: Df, t: Df, u: Df, l: LocId)
    requires forall v: Key {:trigger In(t, l, v)} :: In(s, l, v) <= In(t, l, v)
    requires forall v: Key {:trigger In(u, l, v)} :: In(t, l, v) <= In(u, l, v)
    ensures GrewAt(s, u, l) <==> GrewAt(s, t, l) || GrewAt(t, u, l)
  {
    hide In;
    if GrewAt(s, t, l) {
      var v: Key :| !(In(t, l, v) <= In(s, l, v));
      assert In(t, l, v) <= In(u, l, v);
    }
    if GrewAt(t, u, l) {
      var v: Key :| !(In(u, l, v) <= In(t, l, v));
      assert In(s, l, v) <= In(t, l, v);
    }
    if GrewAt(s, u, l) {
      var v: Key :| !(In(u, l, v) <= In(s, l, v));
      assert !(In(u, l, v) <= In(t, l, v)) || !(In(t, l, v) <= In(s, l, v));
    }
  }

  /** Whatever a store has in OUT has arrived at the ends of its edges. */
  lemma PropDelivers(nodes: Nodes, outs: OutEdges, net: Net, s: Df, t: Df, src: LocId)
    requires NetOf(nodes, outs, net) && IsStore(nodes, src) && PropEffect(nodes, s, t, src, Pairs(Outs(outs, src)))
    ensures PassedOn(net, t, src)
  {
    hide In, Out, Top;
    forall e: Edge | e in net.edges && e.src == src ensures Out(t, src, e.srcVar) <= In(t, e.dst, e.dstVar) {
      assert Carried(outs, e);
      var i: nat :| i < |Outs(outs, src)| && Carries(Outs(outs, src)[i], e.dst, e.srcVar);
      PairsHas(Outs(outs, src), i, e.dst, e.srcVar);
      assert Out(t, src, e.srcVar) == Out(s, src, e.srcVar);
    }
  }

  lemma {:induction false} PairsHas(es: seq<SvfgEdge>, i: nat, dst: LocId, v: Key)
    requires i < |es| && Carries(es[i], dst, v)
    ensures (dst, v) in Pairs(es)
  {
    if i < |es| - 1 { PairsHas(es[..|es| - 1], i, dst, v); }
  }

  // ------------------------------------------------------------------ that everything called is allowed

  /** What an allowed operation that adds no edge keeps and does. */
  lemma Disciplined(net: Net, x: Inc, op: Op, y: Inc, changed: bool)
    requires NothingLost(net, x) && Allowed(net, x.df, op) && IncStep(x, op, y, changed) && !op.AllInFromOut?
    ensures NothingLost(net, y) && PlainStep(x.df, op, y.df, changed)
  {
    IncStepIsPlain(net, x, op, y, changed);
    StepKeeps(net, x, op, y, changed);
  }

  lemma InsKeepOutFlags(x: Inc, op: Op, y: Inc, changed: bool)
    requires IncStep(x, op, y, changed)
    requires !op.OutFromIn? && !op.AllOutFromIn? && !op.AtvPts? && !op.ClearOut?
    ensures SameOutFlags(x, y)
  {
    hide FlaggedOut, FlaggedIn, PlainStep, SameSets;
  }

  lemma OutsFlagOnlyHere(x: Inc, op: Op, y: Inc, changed: bool)
    requires IncStep(x, op, y, changed) && (op.AtvPts? || op.AllOutFromIn?) && QuietBut(x, op.loc)
    ensures QuietBut(y, op.loc) && (!changed && Quiet(x) ==> Quiet(y))
  {
    hide FlaggedOut, FlaggedIn, PlainStep, SameSets;
  }
}
