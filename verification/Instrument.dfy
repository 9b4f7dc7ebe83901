/**
 Instrumenting a store: its block is split before it, and a check is put between the two halves
 that calls `call_kill` if the store is about to change what is in memory.
 */
module Instrument {
  import opened Ir

  const KILL_REASON: Val := -100
  const KILL_FLAG: Val := 1

  // ------------------------------------------------------------------ the rewrite

  /** Control used to come from block b and now comes from block nova. */
  function RenameIncoming(phi: Phi, b: BlockId, nova: BlockId): Phi {
    if b in phi.incoming then phi.(incoming := (phi.incoming - {b})[nova := phi.incoming[b]]) else phi
  }

  function RenamePhis(phis: seq<Phi>, b: BlockId, nova: BlockId): (r: seq<Phi>)
    ensures |r| == |phis| && forall i :: 0 <= i < |r| ==> r[i] == RenameIncoming(phis[i], b, nova)
  {
    if phis == [] then []
    else RenamePhis(phis[..|phis| - 1], b, nova) + [RenameIncoming(phis[|phis| - 1], b, nova)]
  }

  /** `splitBasicBlock`: the instructions of b from the k-th on move to a new block, and the phi nodes
      of its successors follow. */
  function Split(p: Program, b: BlockId, k: nat): Program
    requires b in p.blocks && k <= |p.blocks[b].instrs|
  {
    var nova, body := p.nextBlock, p.blocks[b];
    var moved := map x | x in p.blocks ::
      if x in Successors(body.term) then p.blocks[x].(phis := RenamePhis(p.blocks[x].phis, b, nova)) else p.blocks[x];
    p.(blocks := moved[b := Body(moved[b].phis, body.instrs[..k], Br(nova))]
                      [nova := Body([], body.instrs[k..], body.term)],
       nextBlock := nova + 1)
  }

  /** The whole of `instrumentStoreInstruction` for the store at index k of block b. */
  function Instrumented(p: Program, b: BlockId, k: nat): Program
    requires b in p.blocks && k < |p.blocks[b].instrs| && p.blocks[b].instrs[k].Store?
  {
    var s := p.blocks[b].instrs[k];
    var q := Split(p, b, k);
    var nova, printer, indVal, cmp := p.nextBlock, p.nextBlock + 1, p.nextReg, p.nextReg + 1;
    var check := [Load(indVal, s.ptr), CmpNe(cmp, Reg(indVal), s.value)];
    q.(blocks := q.blocks[b := Body(q.blocks[b].phis, q.blocks[b].instrs + check, CondBr(Reg(cmp), printer, nova))]
                         [printer := Body([], [CallKill(KILL_REASON, KILL_FLAG)], Br(nova))],
       nextBlock := printer + 1, nextReg := cmp + 1)
  }

  // ------------------------------------------------------------------ what it does to events

  function Kills(n: nat): seq<Event> {
    if n == 0 then [] else Kills(n - 1) + [Killed(KILL_REASON, KILL_FLAG)]
  }

  /** A store that changes memory is preceded by as many kill events as its instruction is in `ids`. */
  function Announced(ids: multiset<InstrId>, e: Event): seq<Event> {
    if e.Stored? && e.was != e.now then KilledFirst(ids[e.id], e) else [e]
  }

  function KilledFirst(n: nat, e: Event): seq<Event> { Kills(n) + [e] }

  function Annotate(ids: multiset<InstrId>, trace: seq<Event>): seq<Event> {
    if trace == [] then [] else Annotate(ids, trace[..|trace| - 1]) + Announced(ids, trace[|trace| - 1])
  }

  lemma AnnotateAppend(ids: multiset<InstrId>, trace: seq<Event>, e: Event)
    ensures Annotate(ids, trace + [e]) == Annotate(ids, trace) + Announced(ids, e)
  {
    assert (trace + [e])[..|trace|] == trace;
  }

  lemma {:induction false} AnnotateConcat(ids: multiset<InstrId>, a: seq<Event>, b: seq<Event>)
    ensures Annotate(ids, a + b) == Annotate(ids, a) + Annotate(ids, b)
  {
    hide Announced;
    if b == [] {
      assert a + b == a;
    } else {
      var c, e := b[..|b| - 1], b[|b| - 1];
      assert a + b == (a + c) + [e] && b == c + [e];
      AnnotateAppend(ids, a + c, e);
      AnnotateAppend(ids, c, e);
      AnnotateConcat(ids, a, c);
      hide Annotate;
      assert (Annotate(ids, a) + Annotate(ids, c)) + Announced(ids, e)
          == Annotate(ids, a) + (Annotate(ids, c) + Announced(ids, e));
    }
  }

  lemma {:induction false} KillsAdd(m: nat, n: nat)
    ensures Kills(m) + Kills(n) == Kills(m + n)
  {
    if n != 0 { KillsAdd(m, n - 1); }
  }

  lemma {:induction false} AnnotateKills(ids: multiset<InstrId>, n: nat)
    ensures Annotate(ids, Kills(n)) == Kills(n)
  {
    if n != 0 {
      AnnotateAppend(ids, Kills(n - 1), Killed(KILL_REASON, KILL_FLAG));
      AnnotateKills(ids, n - 1);
    }
  }

  lemma KilledFirstTwice(more: multiset<InstrId>, n: nat, e: Event)
    requires e.Stored? && e.was != e.now
    ensures Annotate(more, KilledFirst(n, e)) == KilledFirst(n + more[e.id], e)
  {
    hide Kills;
    var m := more[e.id];
    AnnotateConcat(more, Kills(n), [e]);
    AnnotateKills(more, n);
    AnnotateAppend(more, [], e);
    KillsAdd(n, m);
    assert Annotate(more, [e]) == Kills(m) + [e] by { assert [] + [e] == [e]; }
    hide Annotate;
    assert Kills(n) + (Kills(m) + [e]) == (Kills(n) + Kills(m)) + [e];
  }

  lemma AnnouncedTwice(more: multiset<InstrId>, ids: multiset<InstrId>, e: Event)
    ensures Annotate(more, Announced(ids, e)) == Announced(ids + more, e)
  {
    if e.Stored? && e.was != e.now {
      KilledFirstTwice(more, ids[e.id], e);
    } else {
      AnnotateAppend(more, [], e);
      assert [] + [e] == [e];
    }
    hide KilledFirst;
  }

  /** Instrumenting twice adds up. */
  lemma {:induction false} AnnotateTwice(more: multiset<InstrId>, ids: multiset<InstrId>, trace: seq<Event>)
    ensures Annotate(more, Annotate(ids, trace)) == Annotate(ids + more, trace)
  {
    if trace != [] {
      var t, e := trace[..|trace| - 1], trace[|trace| - 1];
      AnnotateConcat(more, Annotate(ids, t), Announced(ids, e));
      AnnotateTwice(more, ids, t);
      AnnouncedTwice(more, ids, e);
    }
  }

  lemma {:induction false} AnnotateNone(trace: seq<Event>)
    ensures Annotate(multiset{}, trace) == trace
  {
    if trace != [] {
      AnnotateNone(trace[..|trace| - 1]);
      assert trace == trace[..|trace| - 1] + [trace[|trace| - 1]];
      assert Kills(0) == [];
    }
  }
}
