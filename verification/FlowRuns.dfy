/** Whole runs of the flow-sensitive analysis: what is left to do, and why it ends with nothing left. */
module FlowRuns {
  import opened DfPoints
  import opened FlowEffects
  import O = Orders

  /** The graph, and the objects that are never dereferenced, and those that stand for one memory cell. */
  datatype Graph = Graph(nodes: Nodes, outs: OutEdges, inert: set<Key>, strongable: set<Key>)

  predicate Defines(node: SvfgNode, x: Key) { (node.Addr? || node.Copy? || node.Load?) && node.dst == x }

  predicate Reads(node: SvfgNode, x: Key) {
    match node
    case Copy(_, src) => x == src
    case Load(_, ptr) => x == ptr
    case Store(ptr, value) => x == ptr || x == value
    case _ => false
  }

  predicate Definer(node: SvfgNode) { node.Addr? || node.Copy? || node.Load? }

  /** Definitions have edges to all uses; only stores and nodes that pass on have edges that carry objects, and the
      latter have no others. */
  ghost predicate Wired(g: Graph) {
    && (forall l: LocId, i: nat {:trigger Outs(g.outs, l)[i]} ::
          i < |Outs(g.outs, l)| ==> l in g.nodes && Outs(g.outs, l)[i].dst in g.nodes)
    && (forall l: LocId, k: LocId, x: Key {:trigger Defines(g.nodes[l], x), Reads(g.nodes[k], x)} ::
          l in g.nodes && k in g.nodes && Defines(g.nodes[l], x) && Reads(g.nodes[k], x) ==>
            DirectTo(Outs(g.outs, l), k))
    && (forall l: LocId, i: nat {:trigger Outs(g.outs, l)[i]} :: i < |Outs(g.outs, l)| ==>
          if Outs(g.outs, l)[i].Indirect? then !Definer(g.nodes[l]) else !g.nodes[l].Mssa?)
  }

  // ------------------------------------------------------------------ nothing left to do

  /** Processing the node changes nothing. */
  ghost predicate Stable(g: Graph, s: Df, l: LocId) {
    l in g.nodes && NodeEffect(g.nodes[l], g.inert, g.strongable, s, s, l, g.nodes[l].Mssa?)
  }

  /** What the node has is at the ends of its edges. */
  ghost predicate Delivered(g: Graph, s: Df, l: LocId) {
    forall k: LocId, v: Key {:trigger (k, v) in Pairs(Outs(g.outs, l))} ::
      (k, v) in Pairs(Outs(g.outs, l)) ==> Source(g.nodes, s, l, v) <= In(s, k, v)
  }

  ghost predicate Settled(g: Graph, s: Df, l: LocId) { Stable(g, s, l) && Delivered(g, s, l) }

  /** Every node is to be processed or settled, and stores have always delivered. */
  ghost predicate OnTrack(g: Graph, s: Df, todo: set<LocId>) {
    forall l: LocId {:trigger Settled(g, s, l)} {:trigger Delivered(g, s, l)} :: l in g.nodes ==>
      (l in todo || Settled(g, s, l)) && (g.nodes[l].Store? ==> Delivered(g, s, l))
  }

  /** Processing a node, as the class does it. */
  ghost predicate Turn(g: Graph, s: Df, mid: Df, t: Df, n: LocId, changed: bool, work: set<LocId>) {
    && n in g.nodes && NodeEffect(g.nodes[n], g.inert, g.strongable, s, mid, n, changed)
    && if changed then PropEffect(g.nodes, mid, t, n, Pairs(Outs(g.outs, n))) && WorkIs(Outs(g.outs, n), mid, t, work)
       else SameSets(mid, t) && work == {}
  }

  // ------------------------------------------------------------------ what a turn does

  /** What a definition adds to its variable. */
  ghost function DefAdds(g: Graph, s: Df, l: LocId): set<Key>
    requires l in g.nodes && Definer(g.nodes[l])
  {
    match g.nodes[l]
    case Addr(_, obj) => {obj}
    case Copy(_, src) => Top(s, src)
    case Load(_, ptr) => Loaded(s, l, Top(s, ptr) - g.inert)
  }

  function DefOp(node: SvfgNode): Op
    requires node.Addr? || node.Copy?
  {
    if node.Addr? then AddPts(node.dst, node.obj) else UnionPts(node.dst, node.src)
  }

  lemma DefEffect(g: Graph, s: Df, t: Df, l: LocId, changed: bool)
    requires l in g.nodes && Definer(g.nodes[l])
    requires NodeEffect(g.nodes[l], g.inert, g.strongable, s, t, l, changed)
    ensures SameIn(s, t) && SameOut(s, t) && (changed <==> !(DefAdds(g, s, l) <= Top(s, g.nodes[l].dst)))
    ensures forall v: Key {:trigger Top(t, v)} ::
              Top(t, v) == Top(s, v) + if v == g.nodes[l].dst then DefAdds(g, s, l) else {}
  {
    hide In, Out, Top, Loaded;
    if !g.nodes[l].Load? {
      var op := DefOp(g.nodes[l]);
      assert PlainStep(s, op, t, changed);
      forall k: LocId, v: Key ensures In(t, k, v) == In(s, k, v) && Out(t, k, v) == Out(s, k, v) {
        assert In(t, k, v) == In(s, k, v) + AddIn(op, s, k, v) && Out(t, k, v) == Out(s, k, v) + AddOut(op, s, k, v);
      }
      assert AddTop(op, s, g.nodes[l].dst) == DefAdds(g, s, l);
    }
  }

  lemma DefStableIff(g: Graph, s: Df, l: LocId)
    requires l in g.nodes && Definer(g.nodes[l])
    ensures Stable(g, s, l) <==> DefAdds(g, s, l) <= Top(s, g.nodes[l].dst)
  {
    if Stable(g, s, l) { DefEffect(g, s, s, l, false); }
    hide In, Out, Top, Loaded;
    if !g.nodes[l].Load? {
      var op := DefOp(g.nodes[l]);
      assert AddTop(op, s, g.nodes[l].dst) == DefAdds(g, s, l);
    }
  }

  /** All sets have grown, those of variables only where they are defined, those of OUT only at the node. */
  ghost predicate GrownBy(g: Graph, s: Df, t: Df, n: LocId, work: set<LocId>) {
    && (forall v: Key {:trigger Top(t, v)} ::
          Top(s, v) <= Top(t, v) && ((n in g.nodes && Defines(g.nodes[n], v)) || Top(t, v) == Top(s, v)))
    && (forall l: LocId, v: Key {:trigger Out(t, l, v)} ::
          Out(s, l, v) <= Out(t, l, v) && (l == n || Out(t, l, v) == Out(s, l, v)))
    && (forall l: LocId, v: Key {:trigger In(t, l, v)} ::
          In(s, l, v) <= In(t, l, v) && (l in work || In(t, l, v) == In(s, l, v)))
  }

  lemma EffectGrows(g: Graph, s: Df, mid: Df, n: LocId, changed: bool)
    requires n in g.nodes && NodeEffect(g.nodes[n], g.inert, g.strongable, s, mid, n, changed)
    ensures GrownBy(g, s, mid, n, {}) && (g.nodes[n].Mssa? ==> changed)
    ensures !changed || g.nodes[n].Mssa? ==> SameSets(s, mid)
  {
    if Definer(g.nodes[n]) {
      DefEffect(g, s, mid, n, changed);
    }
    hide In, Out, Top, Loaded, StoreAdds, PlainStep;
    hide Killed;
  }

  lemma TurnGrows(g: Graph, s: Df, mid: Df, t: Df, n: LocId, changed: bool, work: set<LocId>)
    requires Turn(g, s, mid, t, n, changed, work)
    ensures GrownBy(g, s, t, n, work) && (!changed ==> SameSets(s, t))
    ensures forall l: LocId, v: Key {:trigger Out(t, l, v)} :: Out(t, l, v) == Out(mid, l, v)
    ensures forall v: Key {:trigger Top(t, v)} :: Top(t, v) == Top(mid, v)
  {
    EffectGrows(g, s, mid, n, changed);
    hide In, Out, Top, NodeEffect, Source, Pairs, DirectTo;
    forall l: LocId, v: Key ensures In(s, l, v) <= In(t, l, v) && (l in work || In(t, l, v) == In(s, l, v)) {
      assert In(mid, l, v) == In(s, l, v);
      assert In(mid, l, v) <= In(t, l, v);
      if l !in work && changed { assert !GrewAt(mid, t, l); }
    }
    forall l: LocId, v: Key ensures Out(t, l, v) == Out(mid, l, v) {}
    forall v: Key ensures Top(t, v) == Top(mid, v) {}
  }

  // ------------------------------------------------------------------ what is settled stays so

  lemma LoadedSame(s: Df, t: Df, l: LocId, os: set<Key>)
    requires forall v: Key {:trigger In(t, l, v)} :: In(t, l, v) == In(s, l, v)
    ensures Loaded(t, l, os) == Loaded(s, l, os)
  {
    hide In;
    forall o: Key ensures o in Loaded(t, l, os) <==> o in Loaded(s, l, os) {
      if p: Key :| p in os && o in In(t, l, p) { assert o in In(s, l, p); }
      if p: Key :| p in os && o in In(s, l, p) { assert o in In(t, l, p); }
    }
  }

  lemma DefAddsSame(g: Graph, s: Df, t: Df, l: LocId)
    requires l in g.nodes && Definer(g.nodes[l])
    requires forall x: Key :: Reads(g.nodes[l], x) ==> Top(t, x) == Top(s, x)
    requires forall v: Key {:trigger In(t, l, v)} :: In(t, l, v) == In(s, l, v)
    ensures DefAdds(g, t, l) == DefAdds(g, s, l)
  {
    hide In, Top, Loaded;
    match g.nodes[l] {
      case Load(_, ptr) =>
        assert Reads(g.nodes[l], ptr);
        LoadedSame(s, t, l, Top(s, ptr) - g.inert);
      case Copy(_, src) => assert Reads(g.nodes[l], src);
      case Addr(_, _) =>
    }
  }

  lemma StoreAddsSame(g: Graph, s: Df, t: Df, l: LocId)
    requires IsStore(g.nodes, l)
    requires forall x: Key :: Reads(g.nodes[l], x) ==> Top(t, x) == Top(s, x)
    requires forall v: Key {:trigger In(t, l, v)} :: In(t, l, v) == In(s, l, v)
    ensures Top(t, g.nodes[l].ptr) == Top(s, g.nodes[l].ptr)
    ensures forall v: Key {:trigger StoreAt(g, t, l, v)} :: StoreAt(g, t, l, v) == StoreAt(g, s, l, v)
  {
    hide In, Top, Killed;
    assert Reads(g.nodes[l], g.nodes[l].ptr) && Reads(g.nodes[l], g.nodes[l].value);
  }

  /** What a store whose pointer points somewhere adds to an OUT set. */
  ghost function StoreAt(g: Graph, s: Df, l: LocId, v: Key): set<Key>
    requires IsStore(g.nodes, l)
  {
    var os := Top(s, g.nodes[l].ptr);
    StoreAdds(s, l, os - g.inert, Top(s, g.nodes[l].value), true, Killed(os, g.strongable), v)
  }

  lemma StoreStableIff(g: Graph, s: Df, l: LocId)
    requires IsStore(g.nodes, l)
    ensures Stable(g, s, l) <==>
        || Top(s, g.nodes[l].ptr) == {}
        || forall v: Key {:trigger StoreAt(g, s, l, v)} :: StoreAt(g, s, l, v) <= Out(s, l, v)
  {
    hide In, Out, Top, Killed, StoreAdds;
    var os := Top(s, g.nodes[l].ptr);
    if os != {} {
      if Stable(g, s, l) {
        forall v: Key ensures StoreAt(g, s, l, v) <= Out(s, l, v) {
          assert Out(s, l, v) == Out(s, l, v) + StoreAt(g, s, l, v);
        }
      }
      if forall v: Key {:trigger StoreAt(g, s, l, v)} :: StoreAt(g, s, l, v) <= Out(s, l, v) {
        forall k: LocId, v: Key
          ensures Out(s, k, v) == Out(s, k, v) + if k == l then StoreAt(g, s, l, v) else {}
        {}
        assert StoreEffect(s, s, l, os - g.inert, Top(s, g.nodes[l].value), true, Killed(os, g.strongable), false) by {
          assert !exists v: Key :: !(StoreAt(g, s, l, v) <= Out(s, l, v));
        }
      }
    }
  }

  lemma StableStays(g: Graph, s: Df, t: Df, l: LocId)
    requires Stable(g, s, l)
    requires forall x: Key :: Reads(g.nodes[l], x) ==> Top(t, x) == Top(s, x)
    requires forall v: Key {:trigger In(t, l, v)} :: In(t, l, v) == In(s, l, v)
    requires forall v: Key {:trigger Out(t, l, v)} :: Out(s, l, v) <= Out(t, l, v)
    requires forall v: Key {:trigger Top(t, v)} :: Top(s, v) <= Top(t, v)
    ensures Stable(g, t, l)
  {
    hide In, Out, Top, NodeEffect, StoreAt;
    if Definer(g.nodes[l]) {
      DefStableIff(g, s, l);
      DefAddsSame(g, s, t, l);
      DefStableIff(g, t, l);
    } else if g.nodes[l].Store? {
      StoreStableIff(g, s, l);
      StoreAddsSame(g, s, t, l);
      StoreStableIff(g, t, l);
    } else {
      MssaStable(g, t, l);
    }
  }

  lemma MssaStable(g: Graph, s: Df, l: LocId)
    requires l in g.nodes && g.nodes[l].Mssa?
    ensures Stable(g, s, l)
  {}

  lemma DeliveredStays(g: Graph, s: Df, t: Df, l: LocId)
    requires Delivered(g, s, l)
    requires forall v: Key {:trigger Source(g.nodes, t, l, v)} :: Source(g.nodes, t, l, v) == Source(g.nodes, s, l, v)
    requires forall k: LocId, v: Key {:trigger In(t, k, v)} :: In(s, k, v) <= In(t, k, v)
    ensures Delivered(g, t, l)
  {
    hide In, Source, Pairs;
  }

  // ------------------------------------------------------------------ the node itself

  lemma StoreEffectIs(g: Graph, s: Df, mid: Df, n: LocId, changed: bool)
    requires IsStore(g.nodes, n) && NodeEffect(g.nodes[n], g.inert, g.strongable, s, mid, n, changed)
    requires Top(s, g.nodes[n].ptr) != {}
    ensures forall v: Key {:trigger Out(mid, n, v)} :: Out(mid, n, v) == Out(s, n, v) + StoreAt(g, s, n, v)
    ensures changed <==> exists v: Key :: !(StoreAt(g, s, n, v) <= Out(s, n, v))
  {
    hide In, Out, Top, Killed, StoreAdds;
    var os, value := Top(s, g.nodes[n].ptr), Top(s, g.nodes[n].value);
    assert StoreEffect(s, mid, n, os - g.inert, value, true, Killed(os, g.strongable), changed);
    forall v: Key ensures Out(mid, n, v) == Out(s, n, v) + StoreAt(g, s, n, v) {}
    assert (exists v: Key :: !(StoreAt(g, s, n, v) <= Out(s, n, v))) <==>
        exists v: Key :: !(StoreAdds(s, n, os - g.inert, value, true, Killed(os, g.strongable), v) <= Out(s, n, v)) by {
      forall v: Key
        ensures StoreAt(g, s, n, v) == StoreAdds(s, n, os - g.inert, value, true, Killed(os, g.strongable), v)
      {}
    }
  }

  lemma SelfStable(g: Graph, s: Df, mid: Df, t: Df, n: LocId, changed: bool, work: set<LocId>)
    requires Turn(g, s, mid, t, n, changed, work) && n !in work
    requires forall x: Key :: Reads(g.nodes[n], x) ==> Top(t, x) == Top(s, x)
    ensures Stable(g, t, n)
  {
    TurnGrows(g, s, mid, t, n, changed, work);
    hide In, Out, Top, NodeEffect, StoreAt, SameSets, PropEffect, WorkIs;
    if Definer(g.nodes[n]) {
      DefEffect(g, s, mid, n, changed);
      DefAddsSame(g, s, t, n);
      DefStableIff(g, t, n);
    } else if g.nodes[n].Store? {
      StoreAddsSame(g, s, t, n);
      StoreStableIff(g, t, n);
      if Top(s, g.nodes[n].ptr) != {} {
        StoreEffectIs(g, s, mid, n, changed);
        forall v: Key ensures StoreAt(g, t, n, v) <= Out(t, n, v) {
          assert Out(t, n, v) == Out(mid, n, v);
        }
      }
    } else {
      MssaStable(g, t, n);
    }
  }

  lemma {:induction false} PairsCarried(es: seq<SvfgEdge>, dst: LocId, v: Key)
    requires (dst, v) in Pairs(es)
    ensures exists i: nat :: i < |es| && Carries(es[i], dst, v)
  {
    if (dst, v) in Pairs(es[..|es| - 1]) {
      PairsCarried(es[..|es| - 1], dst, v);
      var i: nat :| i < |es| - 1 && Carries(es[..|es| - 1][i], dst, v);
      assert Carries(es[i], dst, v);
    } else {
      assert Carries(es[|es| - 1], dst, v);
    }
  }

  /** Propagation brings, along each edge that carries objects, what a store has on exit or another node on entry. */
  lemma PropMeans(nodes: Nodes, s: Df, t: Df, src: LocId, es: seq<SvfgEdge>)
    requires PropEffect(nodes, s, t, src, Pairs(es))
    ensures SameOut(s, t) && SameTop(s, t)
    ensures forall l: LocId, v: Key, o: Key {:trigger o in In(t, l, v)} ::
        o in In(t, l, v) <==>
          || o in In(s, l, v)
          || ((exists i: nat :: i < |es| && es[i].Indirect? && es[i].dst == l && v in es[i].vars) &&
              o in if src in nodes && nodes[src].Store? then Out(s, src, v) else In(s, src, v))
  {
    hide In, Out, Top, Pairs;
    forall l: LocId, v: Key
      ensures (l, v) in Pairs(es) <==>
        exists i: nat :: i < |es| && es[i].Indirect? && es[i].dst == l && v in es[i].vars
    {
      if (l, v) in Pairs(es) { PairsCarried(es, l, v); }
      if i: nat :| i < |es| && es[i].Indirect? && es[i].dst == l && v in es[i].vars { PairsHas(es, i, l, v); }
    }
  }

  lemma NothingCarried(g: Graph, s: Df, l: LocId)
    requires Wired(g) && l in g.nodes && Definer(g.nodes[l])
    ensures Delivered(g, s, l)
  {
    hide In, Source, Pairs, DirectTo;
    forall k: LocId, v: Key ensures (k, v) !in Pairs(Outs(g.outs, l)) {
      if (k, v) in Pairs(Outs(g.outs, l)) { PairsCarried(Outs(g.outs, l), k, v); }
    }
  }

  lemma SelfDelivered(g: Graph, s: Df, mid: Df, t: Df, n: LocId, changed: bool, work: set<LocId>)
    requires Wired(g) && Turn(g, s, mid, t, n, changed, work)
    requires g.nodes[n].Store? ==> Delivered(g, s, n)
    requires n !in work || g.nodes[n].Store?
    ensures Delivered(g, t, n)
  {
    TurnGrows(g, s, mid, t, n, changed, work);
    EffectGrows(g, s, mid, n, changed);
    hide In, Out, Top, NodeEffect, Pairs, WorkIs, Wired;
    if Definer(g.nodes[n]) {
      NothingCarried(g, t, n);
    } else if !changed {
      SameSource(g, s, t, n);
      hide Source;
      DeliveredStays(g, s, t, n);
    } else {
      forall v: Key ensures Source(g.nodes, t, n, v) == Source(g.nodes, mid, n, v) {
        if !g.nodes[n].Store? { assert In(t, n, v) == In(s, n, v) == In(mid, n, v); }
      }
      hide Source;
      forall k: LocId, v: Key | (k, v) in Pairs(Outs(g.outs, n)) ensures Source(g.nodes, t, n, v) <= In(t, k, v) {
        assert In(t, k, v) == In(mid, k, v) + Source(g.nodes, mid, n, v);
      }
    }
  }

  lemma SameSource(g: Graph, s: Df, t: Df, l: LocId)
    requires SameSets(s, t)
    ensures forall v: Key {:trigger Source(g.nodes, t, l, v)} :: Source(g.nodes, t, l, v) == Source(g.nodes, s, l, v)
  {
    hide In, Out, Top;
  }

  // ------------------------------------------------------------------ every turn keeps on track

  /** A variable that changes is read only by nodes that are to be processed. */
  lemma ReadersQueued(g: Graph, s: Df, mid: Df, t: Df, n: LocId, changed: bool, work: set<LocId>, l: LocId, x: Key)
    requires Wired(g) && Turn(g, s, mid, t, n, changed, work) && l in g.nodes && l !in work && Reads(g.nodes[l], x)
    ensures Top(t, x) == Top(s, x)
  {
    TurnGrows(g, s, mid, t, n, changed, work);
    hide In, Out, Top, NodeEffect, PropEffect, DirectTo;
    assert Defines(g.nodes[n], x) ==> DirectTo(Outs(g.outs, n), l);
    assert changed && DirectTo(Outs(g.outs, n), l) ==> l in work;
  }

  lemma OthersSettled(g: Graph, s: Df, mid: Df, t: Df, n: LocId, changed: bool, work: set<LocId>, l: LocId)
    requires Wired(g) && Turn(g, s, mid, t, n, changed, work) && l in g.nodes && l != n
    ensures Delivered(g, s, l) && g.nodes[l].Store? ==> Delivered(g, t, l)
    ensures Settled(g, s, l) && l !in work ==> Settled(g, t, l)
  {
    TurnGrows(g, s, mid, t, n, changed, work);
    hide In, Out, Top, NodeEffect, PropEffect, WorkIs, Turn, Wired, SameSets;
    if Delivered(g, s, l) && (g.nodes[l].Store? || l !in work) {
      forall v: Key ensures Source(g.nodes, t, l, v) == Source(g.nodes, s, l, v) {}
      hide Source;
      DeliveredStays(g, s, t, l);
    }
    if Settled(g, s, l) && l !in work {
      forall x: Key | Reads(g.nodes[l], x) ensures Top(t, x) == Top(s, x) {
        ReadersQueued(g, s, mid, t, n, changed, work, l, x);
      }
      StableStays(g, s, t, l);
    }
  }

  /** Processing a node leaves every node to be processed or settled. */
  lemma TurnOnTrack(g: Graph, s: Df, mid: Df, t: Df, n: LocId, changed: bool, work: set<LocId>, todo: set<LocId>)
    requires Wired(g) && OnTrack(g, s, todo) && Turn(g, s, mid, t, n, changed, work)
    ensures OnTrack(g, t, (todo - {n}) + work)
  {
    hide Stable, Delivered, Wired, NodeEffect, PropEffect, WorkIs, SameSets;
    forall l: LocId | l in g.nodes
      ensures l in (todo - {n}) + work || Settled(g, t, l)
      ensures g.nodes[l].Store? ==> Delivered(g, t, l)
    {
      if l != n {
        OthersSettled(g, s, mid, t, n, changed, work, l);
      } else {
        if n !in work {
          forall x: Key | Reads(g.nodes[n], x) ensures Top(t, x) == Top(s, x) {
            ReadersQueued(g, s, mid, t, n, changed, work, n, x);
          }
          SelfStable(g, s, mid, t, n, changed, work);
        }
        if n !in work || g.nodes[n].Store? { SelfDelivered(g, s, mid, t, n, changed, work); }
      }
    }
  }

  // ------------------------------------------------------------------ why it ends

  /** Everything is about finitely many variables and objects. */
  ghost predicate About(g: Graph, keys: set<Key>) {
    && (forall l: LocId {:trigger g.nodes[l]} :: l in g.nodes ==> NodeAbout(g.nodes[l], keys))
    && (forall l: LocId, i: nat {:trigger Outs(g.outs, l)[i]} ::
          i < |Outs(g.outs, l)| && Outs(g.outs, l)[i].Indirect? ==> Outs(g.outs, l)[i].vars <= keys)
  }

  predicate NodeAbout(node: SvfgNode, keys: set<Key>) {
    match node
    case Addr(dst, obj) => dst in keys && obj in keys
    case Copy(dst, _) => dst in keys
    case Load(dst, _) => dst in keys
    case _ => true
  }

  ghost predicate Bounded(g: Graph, keys: set<Key>, s: Df) {
    && (forall v: Key, o: Key {:trigger o in Top(s, v)} :: o in Top(s, v) ==> v in keys && o in keys)
    && (forall l: LocId, v: Key, o: Key {:trigger o in In(s, l, v)} ::
          o in In(s, l, v) ==> l in g.nodes && v in keys && o in keys)
    && (forall l: LocId, v: Key, o: Key {:trigger o in Out(s, l, v)} ::
          o in Out(s, l, v) ==> l in g.nodes && v in keys && o in keys)
  }

  ghost function MissingTop(keys: set<Key>, s: Df): set<(Key, Key)> {
    set v, o | v in keys && o in keys && o !in Top(s, v) :: (v, o)
  }

  ghost function MissingIn(g: Graph, keys: set<Key>, s: Df): set<(LocId, Key, Key)> {
    set l, v, o | l in g.nodes.Keys && v in keys && o in keys && o !in In(s, l, v) :: (l, v, o)
  }

  ghost function MissingOut(g: Graph, keys: set<Key>, s: Df): set<(LocId, Key, Key)> {
    set l, v, o | l in g.nodes.Keys && v in keys && o in keys && o !in Out(s, l, v) :: (l, v, o)
  }

  ghost predicate SameMissing(g: Graph, keys: set<Key>, s: Df, t: Df) {
    && MissingTop(keys, t) == MissingTop(keys, s) && MissingIn(g, keys, t) == MissingIn(g, keys, s)
    && MissingOut(g, keys, t) == MissingOut(g, keys, s)
  }

  lemma EffectBounded(g: Graph, keys: set<Key>, s: Df, mid: Df, n: LocId, changed: bool)
    requires About(g, keys) && Bounded(g, keys, s)
    requires n in g.nodes && NodeEffect(g.nodes[n], g.inert, g.strongable, s, mid, n, changed)
    ensures Bounded(g, keys, mid)
  {
    hide In, Out, Top;
    if Definer(g.nodes[n]) {
      DefEffect(g, s, mid, n, changed);
      hide PlainStep;
      forall v: Key, o: Key | o in Top(mid, v) ensures v in keys && o in keys {
        if o !in Top(s, v) { DefAddsBounded(g, keys, s, n, o); }
      }
      assert NodeAbout(g.nodes[n], keys);
    }
    hide PlainStep, Killed;
  }

  lemma DefAddsBounded(g: Graph, keys: set<Key>, s: Df, n: LocId, o: Key)
    requires About(g, keys) && Bounded(g, keys, s) && n in g.nodes && Definer(g.nodes[n]) && o in DefAdds(g, s, n)
    ensures o in keys
  {
    hide In, Out, Top;
    assert NodeAbout(g.nodes[n], keys);
  }

  lemma TurnBounded(g: Graph, keys: set<Key>, s: Df, mid: Df, t: Df, n: LocId, changed: bool, work: set<LocId>)
    requires Wired(g) && About(g, keys) && Bounded(g, keys, s) && Turn(g, s, mid, t, n, changed, work)
    ensures Bounded(g, keys, t) && work <= g.nodes.Keys
  {
    hide In, Out, Top, About, GrownBy, Turn, Wired, SameSets, Bounded;
    MidBounded(g, keys, s, mid, t, n, changed, work);
    TurnGrows(g, s, mid, t, n, changed, work);
    forall l: LocId, v: Key, o: Key {:trigger o in In(t, l, v)} | o in In(t, l, v)
      ensures l in g.nodes && v in keys && o in keys
    {
      InBounded(g, keys, s, mid, t, n, changed, work, l, v, o);
    }
    BoundedFrom(g, keys, mid, t);
    forall l | l in work ensures l in g.nodes { TargetsThere(g, s, mid, t, n, changed, work, l); }
  }

  lemma BoundedFrom(g: Graph, keys: set<Key>, s: Df, t: Df)
    requires Bounded(g, keys, s)
    requires forall l: LocId, v: Key {:trigger Out(t, l, v)} :: Out(t, l, v) == Out(s, l, v)
    requires forall v: Key {:trigger Top(t, v)} :: Top(t, v) == Top(s, v)
    requires forall l: LocId, v: Key, o: Key {:trigger o in In(t, l, v)} ::
        o in In(t, l, v) ==> l in g.nodes && v in keys && o in keys
    ensures Bounded(g, keys, t)
  {
    hide In, Out, Top;
  }

  lemma MidBounded(g: Graph, keys: set<Key>, s: Df, mid: Df, t: Df, n: LocId, changed: bool, work: set<LocId>)
    requires About(g, keys) && Bounded(g, keys, s) && Turn(g, s, mid, t, n, changed, work)
    ensures Bounded(g, keys, mid)
  {
    hide About, Bounded, NodeEffect, PropEffect, WorkIs, SameSets;
    EffectBounded(g, keys, s, mid, n, changed);
  }

  lemma InBounded(g: Graph, keys: set<Key>, s: Df, mid: Df, t: Df, n: LocId, changed: bool, work: set<LocId>, l: LocId,
                  v: Key, o: Key)
    requires Wired(g) && About(g, keys) && Bounded(g, keys, mid) && Turn(g, s, mid, t, n, changed, work)
    requires o in In(t, l, v)
    ensures l in g.nodes && v in keys && o in keys
  {
    hide In, Out, Top, NodeEffect, Pairs, About, WorkIs;
    if o !in In(mid, l, v) {
      assert changed;
      assert In(t, l, v) ==
          In(mid, l, v) + if (l, v) in Pairs(Outs(g.outs, n)) then Source(g.nodes, mid, n, v) else {};
      PairsCarried(Outs(g.outs, n), l, v);
      var i: nat :| i < |Outs(g.outs, n)| && Carries(Outs(g.outs, n)[i], l, v);
      EdgeAbout(g, keys, n, i);
    }
  }

  lemma EdgeAbout(g: Graph, keys: set<Key>, n: LocId, i: nat)
    requires About(g, keys) && i < |Outs(g.outs, n)| && Outs(g.outs, n)[i].Indirect?
    ensures Outs(g.outs, n)[i].vars <= keys
  {}

  lemma TargetsThere(g: Graph, s: Df, mid: Df, t: Df, n: LocId, changed: bool, work: set<LocId>, l: LocId)
    requires Wired(g) && Turn(g, s, mid, t, n, changed, work) && l in work
    ensures l in g.nodes
  {
    hide In, Out, Top, NodeEffect, Pairs, Source;
    if DirectTo(Outs(g.outs, n), l) {
      var i: nat :| i < |Outs(g.outs, n)| && Outs(g.outs, n)[i] == Direct(l);
    } else {
      assert GrewAt(mid, t, l);
      var v: Key :| !(In(t, l, v) <= In(mid, l, v));
      assert (l, v) in Pairs(Outs(g.outs, n));
      PairsCarried(Outs(g.outs, n), l, v);
      var i: nat :| i < |Outs(g.outs, n)| && Carries(Outs(g.outs, n)[i], l, v);
    }
  }

  lemma ChangedIsNew(g: Graph, s: Df, mid: Df, n: LocId)
    requires n in g.nodes && NodeEffect(g.nodes[n], g.inert, g.strongable, s, mid, n, true) && !g.nodes[n].Mssa?
    ensures !SameTop(s, mid) || !SameOut(s, mid)
  {
    hide In, Out, Top, StoreAt, SameTop, SameOut;
    if Definer(g.nodes[n]) {
      DefEffect(g, s, mid, n, true);
      NotSameTop(s, mid, g.nodes[n].dst);
    } else {
      StoreEffectIs(g, s, mid, n, true) by { assert Top(s, g.nodes[n].ptr) != {}; }
      var v: Key :| !(StoreAt(g, s, n, v) <= Out(s, n, v));
      NotSameOut(s, mid, n, v);
    }
  }

  lemma NotSameTop(s: Df, t: Df, v: Key)
    requires Top(t, v) != Top(s, v)
    ensures !SameTop(s, t)
  {}

  lemma NotSameOut(s: Df, t: Df, l: LocId, v: Key)
    requires Out(t, l, v) != Out(s, l, v)
    ensures !SameOut(s, t)
  {}

  /** A turn that queues something has added something. */
  lemma WorkIsNew(g: Graph, s: Df, mid: Df, t: Df, n: LocId, changed: bool, work: set<LocId>, l: LocId)
    requires Wired(g) && Turn(g, s, mid, t, n, changed, work) && l in work
    ensures !SameSets(s, t)
  {
    TurnGrows(g, s, mid, t, n, changed, work);
    EffectGrows(g, s, mid, n, changed);
    hide In, Out, Top, Pairs, Source, NodeEffect, PropEffect;
    if GrewAt(mid, t, l) {
      var v: Key :| !(In(t, l, v) <= In(mid, l, v));
      assert In(mid, l, v) == In(s, l, v);
    } else {
      var i: nat :| i < |Outs(g.outs, n)| && Outs(g.outs, n)[i] == Direct(l);
      assert !g.nodes[n].Mssa?;
      ChangedIsNew(g, s, mid, n);
      if !SameTop(s, mid) {
        var v: Key :| Top(mid, v) != Top(s, v);
        assert Top(t, v) == Top(mid, v);
      } else {
        var k: LocId, v: Key :| Out(mid, k, v) != Out(s, k, v);
        assert Out(t, k, v) == Out(mid, k, v);
      }
    }
  }

  /** Each turn takes from what is missing, or from what is to be processed. */
  lemma TurnMeasure(g: Graph, keys: set<Key>, s: Df, mid: Df, t: Df, n: LocId, changed: bool, work: set<LocId>)
    requires Wired(g) && Turn(g, s, mid, t, n, changed, work) && Bounded(g, keys, t)
    ensures MissingTop(keys, t) <= MissingTop(keys, s) && MissingIn(g, keys, t) <= MissingIn(g, keys, s)
    ensures MissingOut(g, keys, t) <= MissingOut(g, keys, s)
    ensures SameMissing(g, keys, s, t) ==> work == {}
  {
    TurnGrows(g, s, mid, t, n, changed, work);
    NothingMissedIsSame(g, keys, s, t, n, work);
    if l :| l in work { WorkIsNew(g, s, mid, t, n, changed, work, l); }
    hide Top, In, Out, Turn, Wired, Bounded, SameSets;
    forall v: Key, o: Key | (v, o) in MissingTop(keys, t) ensures (v, o) in MissingTop(keys, s) {
      assert Top(s, v) <= Top(t, v);
    }
    forall l: LocId, v: Key, o: Key | (l, v, o) in MissingIn(g, keys, t) ensures (l, v, o) in MissingIn(g, keys, s) {
      assert In(s, l, v) <= In(t, l, v);
    }
    forall l: LocId, v: Key, o: Key | (l, v, o) in MissingOut(g, keys, t) ensures (l, v, o) in MissingOut(g, keys, s) {
      assert Out(s, l, v) <= Out(t, l, v);
    }
  }

  lemma NothingMissedIsSame(g: Graph, keys: set<Key>, s: Df, t: Df, n: LocId, work: set<LocId>)
    requires GrownBy(g, s, t, n, work) && Bounded(g, keys, t)
    ensures SameMissing(g, keys, s, t) ==> SameSets(s, t)
  {
    hide Top, In, Out;
    if SameMissing(g, keys, s, t) {
      forall v: Key ensures Top(t, v) == Top(s, v) {
        forall o: Key | o in Top(t, v) ensures o in Top(s, v) { assert (v, o) !in MissingTop(keys, t); }
        assert Top(s, v) <= Top(t, v);
      }
      forall l: LocId, v: Key ensures In(t, l, v) == In(s, l, v) {
        forall o: Key | o in In(t, l, v) ensures o in In(s, l, v) { assert (l, v, o) !in MissingIn(g, keys, t); }
        assert In(s, l, v) <= In(t, l, v);
      }
      forall l: LocId, v: Key ensures Out(t, l, v) == Out(s, l, v) {
        forall o: Key | o in Out(t, l, v) ensures o in Out(s, l, v) { assert (l, v, o) !in MissingOut(g, keys, t); }
        assert Out(s, l, v) <= Out(t, l, v);
      }
    }
  }

  // ------------------------------------------------------------------ a bound from above

  ghost predicate BelowSets(s: Df, m: Df) {
    && (forall v: Key {:trigger Top(s, v)} :: Top(s, v) <= Top(m, v))
    && (forall l: LocId, v: Key {:trigger In(s, l, v)} :: In(s, l, v) <= In(m, l, v))
    && (forall l: LocId, v: Key {:trigger Out(s, l, v)} :: Out(s, l, v) <= Out(m, l, v))
  }

  ghost predicate AllSettled(g: Graph, m: Df) {
    forall l: LocId {:trigger Settled(g, m, l)} :: l in g.nodes ==> Settled(g, m, l)
  }

  lemma LoadedBelow(s: Df, m: Df, l: LocId, os: set<Key>, qs: set<Key>)
    requires BelowSets(s, m) && os <= qs
    ensures Loaded(s, l, os) <= Loaded(m, l, qs)
  {
    hide In, Out, Top;
    forall o: Key | o in Loaded(s, l, os) ensures o in Loaded(m, l, qs) {
      var p: Key :| p in os && o in In(s, l, p);
      assert In(s, l, p) <= In(m, l, p);
    }
  }

  /** The same graph where no store overwrites anything for sure. */
  function Weak(g: Graph): Graph { Graph(g.nodes, g.outs, g.inert, {}) }

  lemma EffectBelow(g: Graph, s: Df, mid: Df, n: LocId, changed: bool, m: Df)
    requires BelowSets(s, m) && n in g.nodes && Stable(Weak(g), m, n)
    requires NodeEffect(g.nodes[n], g.inert, g.strongable, s, mid, n, changed)
    ensures BelowSets(mid, m)
  {
    EffectGrows(g, s, mid, n, changed);
    hide In, Out, Top, NodeEffect, Stable, StoreAt;
    if Definer(g.nodes[n]) {
      DefEffect(g, s, mid, n, changed);
      DefStableIff(Weak(g), m, n);
      DefAddsBelow(g, s, m, n);
    } else if g.nodes[n].Store? {
      StoreStableIff(Weak(g), m, n);
      assert Top(s, g.nodes[n].ptr) <= Top(m, g.nodes[n].ptr);
      if Top(s, g.nodes[n].ptr) != {} {
        StoreEffectIs(g, s, mid, n, changed);
        forall v: Key ensures Out(mid, n, v) <= Out(m, n, v) {
          StoreAtBelow(g, s, m, n, v);
          assert StoreAt(Weak(g), m, n, v) <= Out(m, n, v);
        }
      } else {
        StoreThroughNothing(g, s, mid, n, changed);
      }
    }
    forall l: LocId, v: Key ensures Out(mid, l, v) <= Out(m, l, v) {
      if l != n || !g.nodes[n].Store? { assert Out(mid, l, v) == Out(s, l, v); }
    }
    forall v: Key ensures Top(mid, v) <= Top(m, v) {
      if !Defines(g.nodes[n], v) { assert Top(mid, v) == Top(s, v); }
    }
    forall l: LocId, v: Key ensures In(mid, l, v) <= In(m, l, v) { assert In(mid, l, v) == In(s, l, v); }
  }

  lemma StoreThroughNothing(g: Graph, s: Df, mid: Df, n: LocId, changed: bool)
    requires IsStore(g.nodes, n) && NodeEffect(g.nodes[n], g.inert, g.strongable, s, mid, n, changed)
    requires Top(s, g.nodes[n].ptr) == {}
    ensures forall v: Key {:trigger Out(mid, n, v)} :: Out(mid, n, v) == Out(s, n, v)
  {}

  lemma DefAddsBelow(g: Graph, s: Df, m: Df, n: LocId)
    requires BelowSets(s, m) && n in g.nodes && Definer(g.nodes[n])
    ensures DefAdds(g, s, n) <= DefAdds(Weak(g), m, n)
  {
    hide In, Out, Top, Loaded;
    match g.nodes[n] {
      case Load(_, ptr) =>
        assert Top(s, ptr) <= Top(m, ptr);
        LoadedBelow(s, m, n, Top(s, ptr) - g.inert, Top(m, ptr) - g.inert);
      case Copy(_, src) => assert Top(s, src) <= Top(m, src);
      case Addr(_, _) =>
    }
  }

  lemma StoreAtBelow(g: Graph, s: Df, m: Df, n: LocId, v: Key)
    requires BelowSets(s, m) && IsStore(g.nodes, n)
    ensures StoreAt(g, s, n, v) <= StoreAt(Weak(g), m, n, v)
  {
    assert Top(s, g.nodes[n].ptr) <= Top(m, g.nodes[n].ptr) && Top(s, g.nodes[n].value) <= Top(m, g.nodes[n].value);
    assert In(s, n, v) <= In(m, n, v);
    hide In, Out, Top;
  }

  /** Processing stays below whatever is settled everywhere when nothing is overwritten for sure: strong updates
      only take away from what weak ones add. */
  lemma TurnBelow(g: Graph, s: Df, mid: Df, t: Df, n: LocId, changed: bool, work: set<LocId>, m: Df)
    requires BelowSets(s, m) && AllSettled(Weak(g), m) && Turn(g, s, mid, t, n, changed, work)
    ensures BelowSets(t, m)
  {
    assert Settled(Weak(g), m, n);
    EffectBelow(g, s, mid, n, changed, m);
    TurnGrows(g, s, mid, t, n, changed, work);
    hide Top, NodeEffect, Stable, WorkIs, Pairs, AllSettled;
    forall v: Key ensures Source(g.nodes, mid, n, v) <= Source(g.nodes, m, n, v) { hide In, Out; }
    hide In, Out, Source;
    forall l: LocId, v: Key ensures In(t, l, v) <= In(m, l, v) {
      assert In(mid, l, v) <= In(m, l, v);
      if changed && (l, v) in Pairs(Outs(g.outs, n)) {
        assert Source(g.nodes, mid, n, v) <= Source(g.nodes, m, n, v) <= In(m, l, v);
      }
    }
    forall l: LocId, v: Key ensures Out(t, l, v) <= Out(m, l, v) { assert Out(t, l, v) == Out(mid, l, v); }
    forall v: Key ensures Top(t, v) <= Top(m, v) { assert Top(t, v) == Top(mid, v); }
  }

  // ------------------------------------------------------------------ the start

  ghost predicate NoSets(s: Df) {
    && (forall v: Key {:trigger Top(s, v)} :: Top(s, v) == {})
    && (forall l: LocId, v: Key {:trigger In(s, l, v)} :: In(s, l, v) == {})
    && (forall l: LocId, v: Key {:trigger Out(s, l, v)} :: Out(s, l, v) == {})
  }

  lemma StartsOnTrack(g: Graph, keys: set<Key>, s: Df, m: Df)
    requires NoSets(s)
    ensures OnTrack(g, s, g.nodes.Keys) && Bounded(g, keys, s) && BelowSets(s, m)
  {
    hide In, Out, Top, Stable, Pairs;
    forall l: LocId ensures Delivered(g, s, l) {}
  }

  // ------------------------------------------------------------------ about a run

  /** Whatever is settled everywhere when nothing is overwritten for sure, and above the start, is above this. */
  ghost predicate StaysBelow(g: Graph, s0: Df, s: Df) {
    forall m: Df {:trigger BelowSets(s, m)} ::
      AllSettled(Weak(g), m) && BelowSets(s0, m) ==> BelowSets(s, m)
  }

  ghost predicate Running(g: Graph, keys: set<Key>, s0: Df, s: Df, todo: set<LocId>) {
    OnTrack(g, s, todo) && Bounded(g, keys, s) && BelowSets(s0, s) && StaysBelow(g, s0, s)
  }

  lemma RunStarts(g: Graph, keys: set<Key>, s: Df, todo: set<LocId>)
    requires OnTrack(g, s, g.nodes.Keys) && Bounded(g, keys, s) && g.nodes.Keys <= todo
    ensures Running(g, keys, s, s, todo)
  {
    hide Top, In, Out, Settled, Delivered, Bounded;
  }

  lemma RunTurn(g: Graph, keys: set<Key>, s0: Df, s: Df, mid: Df, t: Df, n: LocId, changed: bool, work: set<LocId>,
                todo: set<LocId>, rest: set<LocId>)
    requires Wired(g) && About(g, keys) && Running(g, keys, s0, s, todo) && Turn(g, s, mid, t, n, changed, work)
    requires (todo - {n}) + work <= rest
    ensures Running(g, keys, s0, t, rest) && work <= g.nodes.Keys
  {
    TurnOnTrack(g, s, mid, t, n, changed, work, todo);
    TurnBounded(g, keys, s, mid, t, n, changed, work);
    TurnGrows(g, s, mid, t, n, changed, work);
    hide Top, In, Out, Settled, Delivered, Bounded, Turn, Wired, About, AllSettled;
    assert BelowSets(s0, t) by { BelowTwice(s0, s, t, g, n, work); }
    hide GrownBy;
    forall m: Df | AllSettled(Weak(g), m) && BelowSets(s0, m) ensures BelowSets(t, m) {
      assert BelowSets(s, m);
      TurnBelow(g, s, mid, t, n, changed, work, m);
    }
  }

  lemma BelowTwice(s0: Df, s: Df, t: Df, g: Graph, n: LocId, work: set<LocId>)
    requires BelowSets(s0, s) && GrownBy(g, s, t, n, work)
    ensures BelowSets(s0, t)
  {
    hide Top, In, Out;
    forall v: Key ensures Top(s0, v) <= Top(t, v) { assert Top(s0, v) <= Top(s, v) <= Top(t, v); }
    forall l: LocId, v: Key ensures In(s0, l, v) <= In(t, l, v) { assert In(s0, l, v) <= In(s, l, v) <= In(t, l, v); }
    forall l: LocId, v: Key ensures Out(s0, l, v) <= Out(t, l, v) {
      assert Out(s0, l, v) <= Out(s, l, v) <= Out(t, l, v);
    }
  }

  lemma RunEnds(g: Graph, keys: set<Key>, s0: Df, s: Df)
    requires Running(g, keys, s0, s, {})
    ensures AllSettled(g, s) && BelowSets(s0, s)
    ensures forall m: Df {:trigger BelowSets(s, m)} ::
        AllSettled(Graph(g.nodes, g.outs, g.inert, {}), m) && BelowSets(s0, m) ==> BelowSets(s, m)
  {
    hide Top, In, Out, Settled, Bounded;
    assert Weak(g) == Graph(g.nodes, g.outs, g.inert, {});
  }

  // ------------------------------------------------------------------ a run, turn by turn

  /** A turn, the nodes it queues in the order in which it does, and the list of queued nodes after it. */
  datatype TurnRecord = TurnRecord(node: LocId, before: Df, mid: Df, after: Df, changed: bool, work: seq<LocId>,
                                   queue: seq<LocId>)

  /** Nodes that are queued already are not queued again. */
  function Queued(q: seq<LocId>, work: seq<LocId>): seq<LocId> {
    if work == [] then q
    else
      var r, l := Queued(q, work[..|work| - 1]), work[|work| - 1];
      if l in r then r else r + [l]
  }

  ghost predicate Took(g: Graph, r: TurnRecord, q: seq<LocId>) {
    && Turn(g, r.before, r.mid, r.after, r.node, r.changed, O.Elements(r.work))
    && r.work == (if r.changed then Woken(g.nodes, r.mid, r.node, Outs(g.outs, r.node)) else [])
    && r.queue == Queued(q, r.work)
  }

  /** The i-th turn is that of the i-th node from the top of the stack, and when the stack is empty that of the first
      node of the list. */
  ghost predicate RunStep(g: Graph, stack: seq<LocId>, list: seq<LocId>, s: Df, rs: seq<TurnRecord>, i: nat)
    requires i < |rs|
  {
    var q := if i == 0 then list else rs[i - 1].queue;
    && rs[i].before == (if i == 0 then s else rs[i - 1].after)
    && if i < |stack| then rs[i].node == stack[|stack| - 1 - i] && Took(g, rs[i], q)
       else q != [] && rs[i].node == q[0] && Took(g, rs[i], q[1..])
  }

  /** From the sets s, the stack and the list, these turns lead to the sets t and what is queued then. */
  ghost predicate IsRun(g: Graph, stack: seq<LocId>, list: seq<LocId>, s: Df, rs: seq<TurnRecord>, t: Df,
                        queue: seq<LocId>) {
    && (forall i: nat :: i < |rs| ==> RunStep(g, stack, list, s, rs, i))
    && (t == if rs == [] then s else rs[|rs| - 1].after)
    && (queue == if rs == [] then list else rs[|rs| - 1].queue)
  }

  lemma OneMoreTurn(g: Graph, stack: seq<LocId>, list: seq<LocId>, s: Df, rs: seq<TurnRecord>, t: Df,
                    queue: seq<LocId>, r: TurnRecord)
    requires IsRun(g, stack, list, s, rs, t, queue) && r.before == t
    requires if |rs| < |stack| then r.node == stack[|stack| - 1 - |rs|] && Took(g, r, queue)
             else queue != [] && r.node == queue[0] && Took(g, r, queue[1..])
    ensures IsRun(g, stack, list, s, rs + [r], r.after, r.queue)
  {
    hide Took;
    var all := rs + [r];
    forall i: nat | i < |all| ensures RunStep(g, stack, list, s, all, i) {
      if i < |rs| { assert RunStep(g, stack, list, s, rs, i); }
    }
  }
}
