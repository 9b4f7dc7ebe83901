/** Instrumenting stores keeps the meaning of whole programs; rewrites that do so compose. */
module Preservation {
  import opened Ir
  import opened Instrument
  import opened Simulation

  // ------------------------------------------------------------------ whole runs

  function Start(block: BlockId, regs: Regs, mem: Mem): State {
    Running([Frame(block, 0, regs, 0)], mem, 0, [])
  }

  /** The same outcome so far, with the value-changing stores of `ids` announced by kill events. */
  ghost predicate Matches(ids: multiset<InstrId>, s: State, t: State) {
    && s.Running? == t.Running? && s.Done? == t.Done? && t.mem == s.mem
    && (s.Done? ==> t.result == s.result) && t.trace == Annotate(ids, s.trace)
  }

  /** q gets from any start to a state that matches the one p reaches in n steps, in at least n steps. */
  ghost predicate Keeps(p: Program, q: Program, ids: multiset<InstrId>, env: Env, start: State, n: nat) {
    exists m :: m >= n && Matches(ids, Run(p, env, start, n), Run(q, env, start, m))
  }

  ghost predicate Preserves(p: Program, q: Program, ids: multiset<InstrId>) {
    && p.nextBlock <= q.nextBlock
    && forall env: Env, block: BlockId, regs: Regs, mem: Mem, n: nat
         {:trigger Keeps(p, q, ids, env, Start(block, regs, mem), n)} ::
         block < p.nextBlock ==> Keeps(p, q, ids, env, Start(block, regs, mem), n)
  }

  lemma {:induction false} RunSimulates(p: Program, q: Program, env: Env, b: BlockId, k: nat, id: InstrId,
                                        s: State, t: State, n: nat) returns (m: nat)
    requires Ok(p) && StoreAt(p, b, k, id) && Layout(p, q, b, k) && StateRel(p, b, k, id, s, t)
    ensures m >= n && StateRel(p, b, k, id, Run(p, env, s, n), Run(q, env, t, m))
    decreases n
  {
    hide Ok, Layout, StateRel;
    if n == 0 {
      m := 0;
    } else {
      var i := StepSimulates(p, q, env, b, k, id, s, t);
      var j := RunSimulates(p, q, env, b, k, id, Step(p, env, s), Run(q, env, t, i), n - 1);
      RunAdd(q, env, t, i, j);
      m := i + j;
    }
  }

  lemma InstrumentedPreserves(p: Program, b: BlockId, k: nat, id: InstrId)
    requires Ok(p) && StoreAt(p, b, k, id)
    ensures Preserves(p, Instrumented(p, b, k), multiset{id})
  {
    var q := Instrumented(p, b, k);
    InstrumentedLayout(p, b, k, id);
    assert q.nextBlock == p.nextBlock + 2;
    hide Ok, Layout, StoreAt, Instrumented;
    forall env: Env, block: BlockId, regs: Regs, mem: Mem, n: nat | block < p.nextBlock
      ensures Keeps(p, q, multiset{id}, env, Start(block, regs, mem), n)
    {
      var s := Start(block, regs, mem);
      StartRel(p, b, k, id, block, regs, mem);
      var m := RunSimulates(p, q, env, b, k, id, s, s, n);
      SameKind(p, b, k, id, Run(p, env, s, n), Run(q, env, s, m));
      hide StateRel;
      assert Matches(multiset{id}, Run(p, env, s, n), Run(q, env, s, m));
    }
  }

  lemma StartRel(p: Program, b: BlockId, k: nat, id: InstrId, block: BlockId, regs: Regs, mem: Mem)
    requires block < p.nextBlock
    ensures StateRel(p, b, k, id, Start(block, regs, mem), Start(block, regs, mem))
  {}

  lemma PreservesRefl(p: Program)
    ensures Preserves(p, p, multiset{})
  {
    forall env: Env, block: BlockId, regs: Regs, mem: Mem, n: nat | block < p.nextBlock
      ensures Keeps(p, p, multiset{}, env, Start(block, regs, mem), n)
    {
      var s := Run(p, env, Start(block, regs, mem), n);
      AnnotateNone(s.trace);
      assert Matches(multiset{}, s, s);
    }
  }

  lemma PreservesTrans(p: Program, q: Program, r: Program, ids: multiset<InstrId>, more: multiset<InstrId>)
    requires Preserves(p, q, ids) && Preserves(q, r, more)
    ensures Preserves(p, r, ids + more)
  {
    forall env: Env, block: BlockId, regs: Regs, mem: Mem, n: nat | block < p.nextBlock
      ensures Keeps(p, r, ids + more, env, Start(block, regs, mem), n)
    {
      var s := Start(block, regs, mem);
      assert Keeps(p, q, ids, env, s, n);
      var m :| m >= n && Matches(ids, Run(p, env, s, n), Run(q, env, s, m));
      assert Keeps(q, r, more, env, s, m);
      var l :| l >= m && Matches(more, Run(q, env, s, m), Run(r, env, s, l));
      AnnotateTwice(more, ids, Run(p, env, s, n).trace);
      assert Matches(ids + more, Run(p, env, s, n), Run(r, env, s, l));
    }
  }

  /** What the original program ends in, the instrumented one ends in too. */
  lemma OutcomeKept(p: Program, q: Program, ids: multiset<InstrId>, env: Env, block: BlockId, regs: Regs, mem: Mem,
                    n: nat)
    requires Preserves(p, q, ids) && block < p.nextBlock
    ensures exists m: nat ::
        Matches(ids, Run(p, env, Start(block, regs, mem), n), Run(q, env, Start(block, regs, mem), m))
  {
    hide Matches, Run;
    assert Keeps(p, q, ids, env, Start(block, regs, mem), n);
  }

  /** If the instrumented program halts, so has the original, with the same outcome. */
  lemma OutcomeReflected(p: Program, q: Program, ids: multiset<InstrId>, env: Env, block: BlockId, regs: Regs, mem: Mem,
                         m: nat)
    requires Preserves(p, q, ids) && block < p.nextBlock && !Run(q, env, Start(block, regs, mem), m).Running?
    ensures Matches(ids, Run(p, env, Start(block, regs, mem), m), Run(q, env, Start(block, regs, mem), m))
  {
    hide Matches, Run, Start;
    var s := Start(block, regs, mem);
    assert Keeps(p, q, ids, env, s, m);
    var l :| l >= m && Matches(ids, Run(p, env, s, m), Run(q, env, s, l));
    RunAdd(q, env, s, m, l - m);
    RunHalted(q, env, Run(q, env, s, m), l - m);
  }
}
