/** The instrumented program simulates the original one, step by step. */
module Simulation {
  import opened Ir
  import opened Instrument

  /** What the blocks of the instrumented program q look like, seen from the original p. */
  ghost predicate Layout(p: Program, q: Program, b: BlockId, k: nat) {
    && b in p.blocks && k < |p.blocks[b].instrs| && p.blocks[b].instrs[k].Store?
    && q.funcs == p.funcs && q.nextBlock == p.nextBlock + 2 && q.nextReg == p.nextReg + 2
    && q.blocks.Keys == p.blocks.Keys + {p.nextBlock, p.nextBlock + 1}
    && (forall x {:trigger q.blocks[x]} :: x in p.blocks ==>
          && q.blocks[x].phis == (if x in Successors(p.blocks[b].term)
                                  then RenamePhis(p.blocks[x].phis, b, p.nextBlock) else p.blocks[x].phis)
          && (x != b ==> q.blocks[x].instrs == p.blocks[x].instrs && q.blocks[x].term == p.blocks[x].term))
    && CheckBlock(p, b, k, q.blocks[b])
    && q.blocks[p.nextBlock] == Body([], p.blocks[b].instrs[k..], p.blocks[b].term)
    && q.blocks[p.nextBlock + 1] == Body([], [CallKill(KILL_REASON, KILL_FLAG)], Br(p.nextBlock))
  }

  ghost predicate CheckBlock(p: Program, b: BlockId, k: nat, body: Body)
    requires b in p.blocks && k < |p.blocks[b].instrs| && p.blocks[b].instrs[k].Store?
  {
    var s := p.blocks[b].instrs[k];
    && body.instrs == p.blocks[b].instrs[..k] + [Load(p.nextReg, s.ptr), CmpNe(p.nextReg + 1, Reg(p.nextReg), s.value)]
    && body.term == CondBr(Reg(p.nextReg + 1), p.nextBlock + 1, p.nextBlock)
  }

  lemma InstrumentedLayout(p: Program, b: BlockId, k: nat, id: InstrId)
    requires Ok(p) && StoreAt(p, b, k, id)
    ensures Layout(p, Instrumented(p, b, k), b, k)
  {
    hide BodyOk, UniqueStores;
  }

  // ------------------------------------------------------------------ related registers

  ghost predicate SameRegs(r: Regs, s: Regs, n: Reg) {
    forall x :: 0 <= x < n ==> Read(r, x) == Read(s, x)
  }

  lemma AssignSame(r: Regs, s: Regs, n: Reg, d: Reg, v: Val)
    requires SameRegs(r, s, n)
    ensures SameRegs(r[d := v], s[d := v], n)
  {
    var r', s' := r[d := v], s[d := v];
    forall x | 0 <= x < n ensures Read(r', x) == Read(s', x) {
      assert Read(r, x) == Read(s, x);
    }
  }

  lemma {:induction false} EvalSame(env: Env, r: Regs, s: Regs, n: Reg, o: Operand)
    requires SameRegs(r, s, n) && OperandOk(o, n)
    ensures Eval(env, r, o) == Eval(env, s, o)
  {
    match o
    case Cast(_, base) => EvalSame(env, r, s, n, base);
    case Expr(_, base) => EvalSame(env, r, s, n, base);
    case _ =>
  }

  lemma {:induction false} EvalAllSame(env: Env, r: Regs, s: Regs, n: Reg, os: seq<Operand>)
    requires SameRegs(r, s, n) && OperandsOk(os, n)
    ensures EvalAll(env, r, os) == EvalAll(env, s, os)
  {
    if os != [] {
      EvalAllSame(env, r, s, n, os[..|os| - 1]);
      EvalSame(env, r, s, n, os[|os| - 1]);
    }
  }

  lemma {:induction false} PhisSame(env: Env, p: Program, phis: seq<Phi>, from: BlockId, r: Regs, s: Regs)
    requires SameRegs(r, s, p.nextReg) && forall i :: 0 <= i < |phis| ==> PhiOk(phis[i], p)
    ensures SameRegs(EvalPhis(env, phis, from, r), EvalPhis(env, phis, from, s), p.nextReg)
  {
    if phis != [] {
      var phi := phis[|phis| - 1];
      PhisSame(env, p, phis[..|phis| - 1], from, r, s);
      if from in phi.incoming { EvalSame(env, r, s, p.nextReg, phi.incoming[from]); }
      var v := if from in phi.incoming then Eval(env, r, phi.incoming[from]) else 0;
      AssignSame(EvalPhis(env, phis[..|phis| - 1], from, r), EvalPhis(env, phis[..|phis| - 1], from, s),
                 p.nextReg, phi.dst, v);
      hide SameRegs;
    }
  }

  /** Renamed phi nodes read, coming from the block's second half, what they used to read coming from b. */
  lemma {:induction false} RenamedPhisSame(env: Env, p: Program, phis: seq<Phi>, b: BlockId, from: BlockId, to: BlockId,
                                           r: Regs, s: Regs)
    requires SameRegs(r, s, p.nextReg) && forall i :: 0 <= i < |phis| ==> PhiOk(phis[i], p)
    requires from < p.nextBlock && to == if from == b then p.nextBlock else from
    ensures SameRegs(EvalPhis(env, phis, from, r), EvalPhis(env, RenamePhis(phis, b, p.nextBlock), to, s), p.nextReg)
  {
    if phis != [] {
      var phi := phis[|phis| - 1];
      var q := RenamePhis(phis, b, p.nextBlock);
      RenamedPhisSame(env, p, phis[..|phis| - 1], b, from, to, r, s);
      assert q[..|q| - 1] == RenamePhis(phis[..|phis| - 1], b, p.nextBlock);
      assert q[|q| - 1] == RenameIncoming(phi, b, p.nextBlock);
      if from in phi.incoming { EvalSame(env, r, s, p.nextReg, phi.incoming[from]); }
      var v := if from in phi.incoming then Eval(env, r, phi.incoming[from]) else 0;
      AssignSame(EvalPhis(env, phis[..|phis| - 1], from, r), EvalPhis(env, q[..|q| - 1], to, s), p.nextReg, phi.dst, v);
      hide SameRegs;
    }
  }

  // ------------------------------------------------------------------ related states

  /** The second half of block b is block nova; elsewhere nothing has moved. */
  ghost predicate FrameRel(p: Program, b: BlockId, k: nat, f: Frame, h: Frame) {
    && f.block < p.nextBlock && h.ret == f.ret && SameRegs(f.regs, h.regs, p.nextReg)
    && h.block == (if f.block == b && f.idx > k then p.nextBlock else f.block)
    && h.idx == (if f.block == b && f.idx > k then f.idx - k else f.idx)
  }

  ghost predicate FramesRel(p: Program, b: BlockId, k: nat, fs: seq<Frame>, hs: seq<Frame>) {
    |fs| == |hs| && forall i :: 0 <= i < |fs| ==> FrameRel(p, b, k, fs[i], hs[i])
  }

  ghost predicate StateRel(p: Program, b: BlockId, k: nat, id: InstrId, s: State, t: State) {
    && t.mem == s.mem && t.trace == Annotate(multiset{id}, s.trace)
    && match s
       case Running(frames, _, calls, _) => t.Running? && FramesRel(p, b, k, frames, t.frames) && t.calls == calls
       case Done(result, _, _) => t.Done? && t.result == result
       case Trapped(_, _) => t.Trapped?
  }

  lemma FramesPush(p: Program, b: BlockId, k: nat, fs: seq<Frame>, hs: seq<Frame>, f: Frame, h: Frame)
    requires FramesRel(p, b, k, fs, hs) && FrameRel(p, b, k, f, h)
    ensures FramesRel(p, b, k, fs + [f], hs + [h])
  {
    hide FrameRel;
  }

  lemma FramesPop(p: Program, b: BlockId, k: nat, fs: seq<Frame>, hs: seq<Frame>)
    requires FramesRel(p, b, k, fs, hs) && fs != []
    ensures FramesRel(p, b, k, fs[..|fs| - 1], hs[..|hs| - 1]) && FrameRel(p, b, k, fs[|fs| - 1], hs[|hs| - 1])
  {
    hide FrameRel;
  }

  lemma TopRel(p: Program, b: BlockId, k: nat, id: InstrId, s: State, t: State)
    requires StateRel(p, b, k, id, s, t) && s.Running? && s.frames != []
    ensures t.Running? && |t.frames| == |s.frames| && FrameRel(p, b, k, Top(s), Top(t))
    ensures SameRegs(Top(s).regs, Top(t).regs, p.nextReg) && t.mem == s.mem && t.calls == s.calls
    ensures FramesRel(p, b, k, s.frames, t.frames)
  {}

  /** Replacing the top activations by related ones keeps states related. */
  lemma SetTopRel(p: Program, b: BlockId, k: nat, id: InstrId, s: State, t: State, f: Frame, h: Frame)
    requires StateRel(p, b, k, id, s, t) && s.Running? && s.frames != [] && FrameRel(p, b, k, f, h)
    ensures t.Running? && t.frames != [] && StateRel(p, b, k, id, SetTop(s, f), SetTop(t, h))
  {
    hide FrameRel, FramesRel;
    TopRel(p, b, k, id, s, t);
    FramesPop(p, b, k, s.frames, t.frames);
    FramesPush(p, b, k, s.frames[..|s.frames| - 1], t.frames[..|t.frames| - 1], f, h);
  }

  // ------------------------------------------------------------------ one step of the original

  /** The activation after an instruction that is not the instrumented store. */
  lemma AdvanceRel(p: Program, b: BlockId, k: nat, f: Frame, h: Frame, r: Regs, s: Regs)
    requires FrameRel(p, b, k, f, h) && !(f.block == b && f.idx == k) && SameRegs(r, s, p.nextReg)
    ensures FrameRel(p, b, k, f.(idx := f.idx + 1, regs := r), h.(idx := h.idx + 1, regs := s))
  {}

  lemma AssignRel(p: Program, b: BlockId, k: nat, id: InstrId, s: State, t: State, dst: Reg, v: Val)
    requires StateRel(p, b, k, id, s, t) && s.Running? && s.frames != []
    requires !(Top(s).block == b && Top(s).idx == k)
    ensures t.Running? && t.frames != [] && StateRel(p, b, k, id, Assign(s, dst, v), Assign(t, dst, v))
  {
    hide StateRel, FrameRel, FramesRel;
    TopRel(p, b, k, id, s, t);
    AssignSame(Top(s).regs, Top(t).regs, p.nextReg, dst, v);
    AdvanceRel(p, b, k, Top(s), Top(t), Top(s).regs[dst := v], Top(t).regs[dst := v]);
    SetTopRel(p, b, k, id, s, t, Top(s).(idx := Top(s).idx + 1, regs := Top(s).regs[dst := v]),
              Top(t).(idx := Top(t).idx + 1, regs := Top(t).regs[dst := v]));
  }

  function Next(s: State): (t: State)
    requires s.Running? && s.frames != []
    ensures t.Running? && |t.frames| == |s.frames|
  {
    SetTop(s, Top(s).(idx := Top(s).idx + 1))
  }

  lemma NextRel(p: Program, b: BlockId, k: nat, id: InstrId, s: State, t: State)
    requires StateRel(p, b, k, id, s, t) && s.Running? && s.frames != []
    requires !(Top(s).block == b && Top(s).idx == k)
    ensures t.Running? && t.frames != [] && StateRel(p, b, k, id, Next(s), Next(t))
  {
    hide StateRel, FrameRel, FramesRel;
    TopRel(p, b, k, id, s, t);
    AdvanceRel(p, b, k, Top(s), Top(t), Top(s).regs, Top(t).regs);
    SetTopRel(p, b, k, id, s, t, Top(s).(idx := Top(s).idx + 1), Top(t).(idx := Top(t).idx + 1));
  }

  /** Related activations stay so when both programs record the same event. */
  lemma EmitRel(p: Program, b: BlockId, k: nat, id: InstrId, s: State, t: State, mem: Mem, calls: nat, e: Event)
    requires StateRel(p, b, k, id, s, t) && s.Running? && t.Running? && (e.Stored? ==> e.id != id)
    ensures StateRel(p, b, k, id, Emit(s, mem, calls, e), Emit(t, mem, calls, e))
  {
    hide FramesRel;
    AnnotateAppend(multiset{id}, s.trace, e);
    assert Announced(multiset{id}, e) == [e] by {
      if e.Stored? { assert multiset{id}[e.id] == 0; assert Kills(0) + [e] == [e]; }
    }
  }

  lemma StoreRel(p: Program, q: Program, env: Env, b: BlockId, k: nat, id: InstrId, s: State, t: State, i: Instr)
    requires StateRel(p, b, k, id, s, t) && s.Running? && s.frames != []
    requires !(Top(s).block == b && Top(s).idx == k) && i.Store? && InstrOk(i, p.nextReg) && i.id != id
    ensures t.Running? && t.frames != [] && StateRel(p, b, k, id, Exec(p, env, s, i), Exec(q, env, t, i))
  {
    hide FrameRel, FramesRel;
    TopRel(p, b, k, id, s, t);
    EvalSame(env, Top(s).regs, Top(t).regs, p.nextReg, i.ptr);
    EvalSame(env, Top(s).regs, Top(t).regs, p.nextReg, i.value);
    var a, v := Eval(env, Top(s).regs, i.ptr), Eval(env, Top(s).regs, i.value);
    if a in s.mem {
      hide StateRel;
      NextRel(p, b, k, id, s, t);
      EmitRel(p, b, k, id, Next(s), Next(t), s.mem[a := v], s.calls, Stored(i.id, a, s.mem[a], v));
    }
  }

  lemma LoadRel(p: Program, q: Program, env: Env, b: BlockId, k: nat, id: InstrId, s: State, t: State, i: Instr)
    requires StateRel(p, b, k, id, s, t) && s.Running? && s.frames != []
    requires !(Top(s).block == b && Top(s).idx == k) && i.Load? && InstrOk(i, p.nextReg)
    ensures t.Running? && t.frames != [] && StateRel(p, b, k, id, Exec(p, env, s, i), Exec(q, env, t, i))
  {
    hide FrameRel, FramesRel;
    TopRel(p, b, k, id, s, t);
    EvalSame(env, Top(s).regs, Top(t).regs, p.nextReg, i.ptr);
    var a := Eval(env, Top(s).regs, i.ptr);
    if a in s.mem { AssignRel(p, b, k, id, s, t, i.dst, s.mem[a]); }
  }

  lemma CallDefinedRel(p: Program, q: Program, env: Env, b: BlockId, k: nat, id: InstrId, s: State, t: State, i: Instr)
    requires q.funcs == p.funcs && StateRel(p, b, k, id, s, t) && s.Running? && s.frames != []
    requires !(Top(s).block == b && Top(s).idx == k) && i.Call? && InstrOk(i, p.nextReg)
    requires i.callee in p.funcs && p.funcs[i.callee].entry < p.nextBlock
    ensures t.Running? && t.frames != [] && StateRel(p, b, k, id, Exec(p, env, s, i), Exec(q, env, t, i))
  {
    hide FramesRel;
    TopRel(p, b, k, id, s, t);
    EvalAllSame(env, Top(s).regs, Top(t).regs, p.nextReg, i.args);
    var vs, fn := EvalAll(env, Top(s).regs, i.args), p.funcs[i.callee];
    var frame := Frame(fn.entry, 0, Bind(fn.params, vs), i.dst);
    assert FrameRel(p, b, k, frame, frame);
    hide FrameRel;
    NextRel(p, b, k, id, s, t);
    TopRel(p, b, k, id, Next(s), Next(t));
    FramesPush(p, b, k, Next(s).frames, Next(t).frames, frame, frame);
  }

  lemma CallExternalRel(p: Program, q: Program, env: Env, b: BlockId, k: nat, id: InstrId, s: State, t: State, i: Instr)
    requires q.funcs == p.funcs && StateRel(p, b, k, id, s, t) && s.Running? && s.frames != []
    requires !(Top(s).block == b && Top(s).idx == k) && i.Call? && InstrOk(i, p.nextReg) && i.callee !in p.funcs
    ensures t.Running? && t.frames != [] && StateRel(p, b, k, id, Exec(p, env, s, i), Exec(q, env, t, i))
  {
    hide StateRel, FrameRel, FramesRel;
    TopRel(p, b, k, id, s, t);
    EvalAllSame(env, Top(s).regs, Top(t).regs, p.nextReg, i.args);
    var vs := EvalAll(env, Top(s).regs, i.args);
    var (v, m) := env.ext(s.calls, i.callee, vs, s.mem);
    AssignRel(p, b, k, id, s, t, i.dst, v);
    EmitRel(p, b, k, id, Assign(s, i.dst, v), Assign(t, i.dst, v), m, s.calls + 1, Called(i.callee, vs, v));
  }

  /** An instruction other than the instrumented store does the same in both programs. */
  lemma ExecRel(p: Program, q: Program, env: Env, b: BlockId, k: nat, id: InstrId, s: State, t: State, i: Instr)
    requires q.funcs == p.funcs && StateRel(p, b, k, id, s, t) && s.Running? && s.frames != []
    requires !(Top(s).block == b && Top(s).idx == k) && InstrOk(i, p.nextReg) && (i.Store? ==> i.id != id)
    requires forall f :: f in p.funcs ==> p.funcs[f].entry < p.nextBlock
    ensures t.Running? && t.frames != [] && StateRel(p, b, k, id, Exec(p, env, s, i), Exec(q, env, t, i))
  {
    hide StateRel, FrameRel, FramesRel, SameRegs;
    TopRel(p, b, k, id, s, t);
    var r, r', n := Top(s).regs, Top(t).regs, p.nextReg;
    match i {
      case Store(_, _, _) => StoreRel(p, q, env, b, k, id, s, t, i);
      case Load(_, _) => LoadRel(p, q, env, b, k, id, s, t, i);
      case CmpNe(dst, left, right) =>
        EvalSame(env, r, r', n, left);
        EvalSame(env, r, r', n, right);
        AssignRel(p, b, k, id, s, t, dst, if Eval(env, r, left) != Eval(env, r, right) then 1 else 0);
      case Compute(dst, name, args) =>
        EvalAllSame(env, r, r', n, args);
        AssignRel(p, b, k, id, s, t, dst, env.ops(name, EvalAll(env, r, args)));
      case Call(_, callee, _) =>
        if callee in p.funcs {
          CallDefinedRel(p, q, env, b, k, id, s, t, i);
        } else {
          CallExternalRel(p, q, env, b, k, id, s, t, i);
        }
      case CallKill(x, y) =>
        NextRel(p, b, k, id, s, t);
        EmitRel(p, b, k, id, Next(s), Next(t), s.mem, s.calls, Killed(x, y));
    }
  }

  // ------------------------------------------------------------------ leaving a block

  function PhisOf(p: Program, target: BlockId): seq<Phi> { if target in p.blocks then p.blocks[target].phis else [] }

  lemma TargetPhisSame(p: Program, q: Program, env: Env, b: BlockId, k: nat, f: Frame, h: Frame, target: BlockId)
    requires Layout(p, q, b, k) && forall x :: x in p.blocks ==> BodyOk(p.blocks[x], p)
    requires target < p.nextBlock && f.block < p.nextBlock && SameRegs(f.regs, h.regs, p.nextReg)
    requires f.block == b ==> target in Successors(p.blocks[b].term)
    requires h.block == if f.block == b then p.nextBlock else f.block
    ensures SameRegs(EvalPhis(env, PhisOf(p, target), f.block, f.regs),
                     EvalPhis(env, PhisOf(q, target), h.block, h.regs), p.nextReg)
  {
    hide SameRegs, CheckBlock, PhiOk, EvalPhis, RenamePhis;
    if target in p.blocks {
      assert BodyOk(p.blocks[target], p);
      hide BodyOk;
      if target in Successors(p.blocks[b].term) {
        RenamedPhisSame(env, p, PhisOf(p, target), b, f.block, h.block, f.regs, h.regs);
      } else {
        PhisSame(env, p, PhisOf(p, target), f.block, f.regs, h.regs);
      }
    } else {
      PhisNone(env, f);
      PhisNone(env, h);
    }
  }

  lemma PhisNone(env: Env, f: Frame)
    ensures EvalPhis(env, [], f.block, f.regs) == f.regs
  {}

  lemma JumpRel(p: Program, q: Program, env: Env, b: BlockId, k: nat, id: InstrId, s: State, t: State, target: BlockId)
    requires Layout(p, q, b, k) && StateRel(p, b, k, id, s, t) && s.Running? && s.frames != [] && t.Running?
    requires t.frames != []
    requires forall x :: x in p.blocks ==> BodyOk(p.blocks[x], p)
    requires target < p.nextBlock && (Top(s).block == b ==> target in Successors(p.blocks[b].term))
    requires Top(t).block == if Top(s).block == b then p.nextBlock else Top(s).block
    ensures StateRel(p, b, k, id, Jump(p, env, s, target), Jump(q, env, t, target))
  {
    hide StateRel, FramesRel, Layout, BodyOk, SameRegs, EvalPhis;
    TopRel(p, b, k, id, s, t);
    var f, h := Top(s), Top(t);
    TargetPhisSame(p, q, env, b, k, f, h, target);
    SetTopRel(p, b, k, id, s, t,
              f.(block := target, idx := 0, regs := EvalPhis(env, PhisOf(p, target), f.block, f.regs)),
              h.(block := target, idx := 0, regs := EvalPhis(env, PhisOf(q, target), h.block, h.regs)));
  }

  lemma RetRel(p: Program, q: Program, env: Env, b: BlockId, k: nat, id: InstrId, s: State, t: State, o: Operand)
    requires StateRel(p, b, k, id, s, t) && s.Running? && s.frames != [] && OperandOk(o, p.nextReg)
    ensures t.Running? && t.frames != [] && StateRel(p, b, k, id, Finish(p, env, s, Ret(o)), Finish(q, env, t, Ret(o)))
  {
    TopRel(p, b, k, id, s, t);
    EvalSame(env, Top(s).regs, Top(t).regs, p.nextReg, o);
    var v := Eval(env, Top(s).regs, o);
    if |s.frames| > 1 {
      FramesPop(p, b, k, s.frames, t.frames);
      hide FramesRel;
      var s1, t1 := s.(frames := s.frames[..|s.frames| - 1]), t.(frames := t.frames[..|t.frames| - 1]);
      assert StateRel(p, b, k, id, s1, t1);
      var ret := Top(s).ret;
      hide StateRel;
      TopRel(p, b, k, id, s1, t1);
      AssignSame(Top(s1).regs, Top(t1).regs, p.nextReg, ret, v);
      SetTopRel(p, b, k, id, s1, t1, Top(s1).(regs := Top(s1).regs[ret := v]),
        Top(t1).(regs := Top(t1).regs[ret := v]));
    }
  }

  lemma FinishRel(p: Program, q: Program, env: Env, b: BlockId, k: nat, id: InstrId, s: State, t: State)
    requires Layout(p, q, b, k) && StateRel(p, b, k, id, s, t) && s.Running? && s.frames != [] && t.Running?
    requires t.frames != []
    requires forall x :: x in p.blocks ==> BodyOk(p.blocks[x], p)
    requires Top(s).block in p.blocks && Top(s).idx >= |p.blocks[Top(s).block].instrs|
    ensures var term := p.blocks[Top(s).block].term;
      StateRel(p, b, k, id, Finish(p, env, s, term), Finish(q, env, t, term))
  {
    hide StateRel, FramesRel, Layout, BodyOk;
    TopRel(p, b, k, id, s, t);
    var f, h, term := Top(s), Top(t), p.blocks[Top(s).block].term;
    StoreInside(p, q, b, k);
    assert h.block == if f.block == b then p.nextBlock else f.block;
    BlockTermOk(p, f.block);
    hide FrameRel;
    match term {
      case Br(target) =>
        assert target in Successors(term);
        JumpRel(p, q, env, b, k, id, s, t, target);
      case CondBr(cond, yes, no) =>
        EvalSame(env, f.regs, h.regs, p.nextReg, cond);
        assert yes in Successors(term) && no in Successors(term);
        JumpRel(p, q, env, b, k, id, s, t, if Eval(env, f.regs, cond) != 0 then yes else no);
      case Ret(result) => RetRel(p, q, env, b, k, id, s, t, result);
      case Unreachable => StuckRel(p, b, k, id, s, t);
    }
  }

  lemma StoreInside(p: Program, q: Program, b: BlockId, k: nat)
    requires Layout(p, q, b, k)
    ensures b in p.blocks && k < |p.blocks[b].instrs| && p.blocks[b].instrs[k].Store? && q.funcs == p.funcs
  {}

  lemma BlockTermOk(p: Program, x: BlockId)
    requires x in p.blocks && forall y :: y in p.blocks ==> BodyOk(p.blocks[y], p)
    ensures TermOk(p.blocks[x].term, p)
  {}

  lemma StuckRel(p: Program, b: BlockId, k: nat, id: InstrId, s: State, t: State)
    requires StateRel(p, b, k, id, s, t)
    ensures StateRel(p, b, k, id, Trapped(s.mem, s.trace), Trapped(t.mem, t.trace))
  {}

  // ------------------------------------------------------------------ the instrumented store

  lemma SetTopTwice(s: State, f: Frame, g: Frame)
    requires s.Running? && s.frames != []
    ensures Top(SetTop(s, f)) == f && SetTop(SetTop(s, f), g) == SetTop(s, g)
  {}

  /** The registers after the check: the old value and whether the store changes it. */
  function CheckedRegs(p: Program, env: Env, b: BlockId, k: nat, h: Frame, was: Val): Regs
    requires b in p.blocks && k < |p.blocks[b].instrs| && p.blocks[b].instrs[k].Store?
  {
    var r := h.regs[p.nextReg := was];
    r[p.nextReg + 1 := if was != Eval(env, r, p.blocks[b].instrs[k].value) then 1 else 0]
  }

  lemma LoadStep(p: Program, q: Program, env: Env, b: BlockId, k: nat, t: State, a: Addr)
    requires Layout(p, q, b, k) && t.Running? && t.frames != [] && Top(t).block == b && Top(t).idx == k
    requires a == Eval(env, Top(t).regs, p.blocks[b].instrs[k].ptr) && a in t.mem
    ensures Step(q, env, t) == SetTop(t, Top(t).(idx := k + 1, regs := Top(t).regs[p.nextReg := t.mem[a]]))
  {
    assert q.blocks[b].instrs[k] == Load(p.nextReg, p.blocks[b].instrs[k].ptr);
    hide Eval, RenamePhis;
  }

  lemma CompareStep(p: Program, q: Program, env: Env, b: BlockId, k: nat, t: State)
    requires Layout(p, q, b, k) && t.Running? && t.frames != [] && Top(t).block == b && Top(t).idx == k + 1
    ensures var h, value := Top(t), p.blocks[b].instrs[k].value;
      var v := if Read(h.regs, p.nextReg) != Eval(env, h.regs, value) then 1 else 0;
      Step(q, env, t) == SetTop(t, h.(idx := k + 2, regs := h.regs[p.nextReg + 1 := v]))
  {
    assert q.blocks[b].instrs[k + 1] == CmpNe(p.nextReg + 1, Reg(p.nextReg), p.blocks[b].instrs[k].value);
    hide RenamePhis;
  }

  lemma BranchStep(p: Program, q: Program, env: Env, b: BlockId, k: nat, t: State)
    requires Layout(p, q, b, k) && t.Running? && t.frames != [] && Top(t).block == b && Top(t).idx == k + 2
    ensures var h := Top(t);
      var target := if Read(h.regs, p.nextReg + 1) != 0 then p.nextBlock + 1 else p.nextBlock;
      Step(q, env, t) == SetTop(t, Frame(target, 0, h.regs, h.ret))
  {
    var h := Top(t);
    assert |q.blocks[b].instrs| == k + 2;
    var target := if Read(h.regs, p.nextReg + 1) != 0 then p.nextBlock + 1 else p.nextBlock;
    assert EvalPhis(env, [], b, h.regs) == h.regs && q.blocks[target].phis == [];
    hide RenamePhis;
  }

  /** Three steps from the point of the store to the block that the check selects. */
  lemma CheckRuns(p: Program, q: Program, env: Env, b: BlockId, k: nat, t: State, a: Addr)
    requires Layout(p, q, b, k) && t.Running? && t.frames != [] && Top(t).block == b && Top(t).idx == k
    requires a == Eval(env, Top(t).regs, p.blocks[b].instrs[k].ptr) && a in t.mem
    ensures var regs := CheckedRegs(p, env, b, k, Top(t), t.mem[a]);
      Run(q, env, t, 3) == SetTop(t, Frame(if Read(regs, p.nextReg + 1) != 0 then p.nextBlock + 1 else p.nextBlock,
                                           0, regs, Top(t).ret))
  {
    hide Step, Eval, Annotate, RenamePhis, CheckBlock;
    StoreInside(p, q, b, k);
    hide Layout;
    var h, regs := Top(t), CheckedRegs(p, env, b, k, Top(t), t.mem[a]);
    var target := if Read(regs, p.nextReg + 1) != 0 then p.nextBlock + 1 else p.nextBlock;
    var h1, h2, h3 := Frame(b, k + 1, h.regs[p.nextReg := t.mem[a]], h.ret), Frame(b, k + 2, regs, h.ret),
                      Frame(target, 0, regs, h.ret);
    SetTopTwice(t, h1, h2);
    SetTopTwice(t, h2, h3);
    LoadStep(p, q, env, b, k, t, a);
    CompareStep(p, q, env, b, k, SetTop(t, h1));
    BranchStep(p, q, env, b, k, SetTop(t, h2));
    hide *;
    RunThree(q, env, t);
  }

  lemma RunThree(q: Program, env: Env, t: State)
    ensures Run(q, env, t, 3) == Step(q, env, Step(q, env, Step(q, env, t)))
  {
    hide Step;
    var t1 := Step(q, env, t);
    var t2 := Step(q, env, t1);
    assert Run(q, env, t, 3) == Run(q, env, t1, 2) == Run(q, env, t2, 1) == Run(q, env, Step(q, env, t2), 0);
  }

  /** Two steps from the printing block, which records a kill event, to the second half of the block. */
  lemma KillRuns(p: Program, q: Program, env: Env, b: BlockId, k: nat, t: State)
    requires Layout(p, q, b, k) && t.Running? && t.frames != [] && Top(t).block == p.nextBlock + 1 && Top(t).idx == 0
    ensures Run(q, env, t, 2) ==
      Emit(SetTop(t, Top(t).(block := p.nextBlock)), t.mem, t.calls, Killed(KILL_REASON, KILL_FLAG))
  {
    var h := Top(t);
    var t1 := Step(q, env, t);
    assert t1 == Emit(SetTop(t, h.(idx := 1)), t.mem, t.calls, Killed(KILL_REASON, KILL_FLAG));
    assert EvalPhis(env, [], p.nextBlock + 1, h.regs) == h.regs && q.blocks[p.nextBlock].phis == [];
    SetTopTwice(t, h.(idx := 1), h.(block := p.nextBlock));
    assert Run(q, env, t, 2) == Run(q, env, t1, 1) == Run(q, env, Step(q, env, t1), 0);
  }

  /** The store itself, at the head of the second half. */
  lemma SecondHalfStores(p: Program, q: Program, env: Env, b: BlockId, k: nat, t: State, a: Addr, v: Val)
    requires Layout(p, q, b, k) && t.Running? && t.frames != [] && Top(t).block == p.nextBlock && Top(t).idx == 0
    requires var st := p.blocks[b].instrs[k];
      a == Eval(env, Top(t).regs, st.ptr) && v == Eval(env, Top(t).regs, st.value) && a in t.mem
    ensures Run(q, env, t, 1) == Emit(Next(t), t.mem[a := v], t.calls, Stored(p.blocks[b].instrs[k].id, a, t.mem[a], v))
  {
    assert q.blocks[p.nextBlock].instrs[0] == p.blocks[b].instrs[k];
    assert Run(q, env, t, 1) == Run(q, env, Step(q, env, t), 0);
  }

  lemma CheckedRegsSame(p: Program, env: Env, b: BlockId, k: nat, f: Frame, h: Frame, was: Val)
    requires b in p.blocks && k < |p.blocks[b].instrs| && p.blocks[b].instrs[k].Store?
    requires SameRegs(f.regs, h.regs, p.nextReg) && InstrOk(p.blocks[b].instrs[k], p.nextReg)
    ensures var r, st := CheckedRegs(p, env, b, k, h, was), p.blocks[b].instrs[k];
      && SameRegs(f.regs, r, p.nextReg)
      && Eval(env, r, st.ptr) == Eval(env, f.regs, st.ptr) && Eval(env, r, st.value) == Eval(env, f.regs, st.value)
      && (Read(r, p.nextReg + 1) != 0 <==> was != Eval(env, f.regs, st.value))
  {
    var r0, st := h.regs[p.nextReg := was], p.blocks[b].instrs[k];
    var r := CheckedRegs(p, env, b, k, h, was);
    assert SameRegs(f.regs, r0, p.nextReg) && SameRegs(f.regs, r, p.nextReg);
    EvalSame(env, f.regs, r0, p.nextReg, st.value);
    EvalSame(env, f.regs, r, p.nextReg, st.value);
    EvalSame(env, f.regs, r, p.nextReg, st.ptr);
  }

  /** Where the original executes the store, the instrumented program checks first, and records a kill
      event exactly if the store is going to change memory. */
  lemma InstrumentedStoreRel(p: Program, q: Program, env: Env, b: BlockId, k: nat, id: InstrId, s: State, t: State)
    returns (n: nat)
    requires Layout(p, q, b, k) && StoreAt(p, b, k, id) && InstrOk(p.blocks[b].instrs[k], p.nextReg)
    requires StateRel(p, b, k, id, s, t) && s.Running? && s.frames != [] && Top(s).block == b && Top(s).idx == k
    ensures n >= 1 && StateRel(p, b, k, id, Exec(p, env, s, p.blocks[b].instrs[k]), Run(q, env, t, n))
  {
    hide FramesRel;
    TopRel(p, b, k, id, s, t);
    var f, h, st := Top(s), Top(t), p.blocks[b].instrs[k];
    EvalSame(env, f.regs, h.regs, p.nextReg, st.ptr);
    var a, v := Eval(env, f.regs, st.ptr), Eval(env, f.regs, st.value);
    if a !in s.mem {
      n := 1;
      CheckTraps(p, q, env, b, k, t);
    } else {
      var was := s.mem[a];
      CheckRuns(p, q, env, b, k, t, a);
      CheckedRegsSame(p, env, b, k, f, h, was);
      var regs := CheckedRegs(p, env, b, k, h, was);
      var second := Frame(p.nextBlock, 0, regs, h.ret);
      assert FrameRel(p, b, k, f.(idx := k + 1), second.(idx := 1));
      hide FrameRel, CheckedRegs, SameRegs, StateRel;
      SetTopRel(p, b, k, id, s, t, f.(idx := k + 1), second.(idx := 1));
      n := StoreAfterCheck(p, q, env, b, k, id, t, regs, a, v);
      StoredRel(p, b, k, id, s, t, f.(idx := k + 1), second.(idx := 1), a, v);
    }
  }

  lemma CheckTraps(p: Program, q: Program, env: Env, b: BlockId, k: nat, t: State)
    requires Layout(p, q, b, k) && t.Running? && t.frames != [] && Top(t).block == b && Top(t).idx == k
    requires Eval(env, Top(t).regs, p.blocks[b].instrs[k].ptr) !in t.mem
    ensures Run(q, env, t, 1) == Trapped(t.mem, t.trace)
  {
    assert q.blocks[b].instrs[k] == Load(p.nextReg, p.blocks[b].instrs[k].ptr);
    assert Run(q, env, t, 1) == Run(q, env, Step(q, env, t), 0);
  }

  /** The state of the instrumented program once the store is done. */
  function AfterStore(t: State, h: Frame, id: InstrId, a: Addr, v: Val): State
    requires t.Running? && t.frames != [] && a in t.mem
  {
    var kills := if t.mem[a] != v then [Killed(KILL_REASON, KILL_FLAG)] else [];
    SetTop(t, h).(mem := t.mem[a := v], calls := t.calls, trace := t.trace + kills + [Stored(id, a, t.mem[a], v)])
  }

  lemma StoreAfterCheck(p: Program, q: Program, env: Env, b: BlockId, k: nat, id: InstrId, t: State,
                        regs: Regs, a: Addr, v: Val) returns (n: nat)
    requires Layout(p, q, b, k) && StoreAt(p, b, k, id) && t.Running? && t.frames != [] && a in t.mem
    requires a == Eval(env, regs, p.blocks[b].instrs[k].ptr) && v == Eval(env, regs, p.blocks[b].instrs[k].value)
    requires Read(regs, p.nextReg + 1) != 0 <==> t.mem[a] != v
    requires Run(q, env, t, 3) ==
      SetTop(t, Frame(if Read(regs, p.nextReg + 1) != 0 then p.nextBlock + 1 else p.nextBlock, 0, regs, Top(t).ret))
    ensures n >= 1 && Run(q, env, t, n) == AfterStore(t, Frame(p.nextBlock, 1, regs, Top(t).ret), id, a, v)
  {
    hide Run, Step, Eval, Read;
    var second := Frame(p.nextBlock, 0, regs, Top(t).ret);
    SetTopTwice(t, second, second.(idx := 1));
    if t.mem[a] == v {
      SecondHalfStores(p, q, env, b, k, SetTop(t, second), a, v);
      RunAdd(q, env, t, 3, 1);
      assert t.trace + [] == t.trace;
      n := 4;
    } else {
      var printer := Frame(p.nextBlock + 1, 0, regs, Top(t).ret);
      SetTopTwice(t, printer, second);
      KillRuns(p, q, env, b, k, SetTop(t, printer));
      var t5 := Emit(SetTop(t, second), t.mem, t.calls, Killed(KILL_REASON, KILL_FLAG));
      RunAdd(q, env, t, 3, 2);
      SecondHalfStores(p, q, env, b, k, t5, a, v);
      RunAdd(q, env, t, 5, 1);
      n := 6;
    }
  }

  lemma StoredRel(p: Program, b: BlockId, k: nat, id: InstrId, s: State, t: State, f: Frame, h: Frame, a: Addr, v: Val)
    requires s.Running? && s.frames != [] && t.Running? && t.frames != [] && a in s.mem
    requires StateRel(p, b, k, id, s, t) && StateRel(p, b, k, id, SetTop(s, f), SetTop(t, h))
    ensures t.mem == s.mem
    ensures StateRel(p, b, k, id, Emit(SetTop(s, f), s.mem[a := v], s.calls, Stored(id, a, s.mem[a], v)),
                     AfterStore(t, h, id, a, v))
  {
    hide FramesRel, Annotate;
    AnnotateStored(id, s.trace, Stored(id, a, s.mem[a], v));
  }

  lemma AnnotateStored(id: InstrId, trace: seq<Event>, e: Event)
    requires e.Stored? && e.id == id
    ensures var kills := if e.was != e.now then [Killed(KILL_REASON, KILL_FLAG)] else [];
      Annotate(multiset{id}, trace + [e]) == Annotate(multiset{id}, trace) + kills + [e]
  {
    AnnotateAppend(multiset{id}, trace, e);
    hide Annotate;
    assert multiset{id}[id] == 1;
    assert Kills(1) == Kills(0) + [Killed(KILL_REASON, KILL_FLAG)] == [Killed(KILL_REASON, KILL_FLAG)];
  }

  // ------------------------------------------------------------------ the simulation

  /** Each step of the original is one or more steps of the instrumented program. */
  lemma StepSimulates(p: Program, q: Program, env: Env, b: BlockId, k: nat, id: InstrId, s: State, t: State)
    returns (n: nat)
    requires Ok(p) && StoreAt(p, b, k, id) && Layout(p, q, b, k) && StateRel(p, b, k, id, s, t)
    ensures n >= 1 && StateRel(p, b, k, id, Step(p, env, s), Run(q, env, t, n))
  {
    hide StateRel, FramesRel, FrameRel, Layout, BodyOk, Exec, Finish;
    n := 1;
    assert Run(q, env, t, 1) == Run(q, env, Step(q, env, t), 0) == Step(q, env, t);
    SameKind(p, b, k, id, s, t);
    if s.Running? {
      if s.frames == [] || Top(s).block !in p.blocks {
        StuckRel(p, b, k, id, s, t);
        MissingBlock(p, q, b, k, id, s, t);
      } else {
        TopRel(p, b, k, id, s, t);
        var body, i := p.blocks[Top(s).block], Top(s).idx;
        SameCode(p, q, b, k, Top(s), Top(t));
        if i >= |body.instrs| {
          FinishRel(p, q, env, b, k, id, s, t);
        } else if Top(s).block == b && i == k {
          BlockInstrOk(p, b, k);
          n := InstrumentedStoreRel(p, q, env, b, k, id, s, t);
        } else {
          BlockInstrOk(p, Top(s).block, i);
          assert body.instrs[i].Store? ==> StoreAt(p, Top(s).block, i, body.instrs[i].id);
          StoreInside(p, q, b, k);
          ExecRel(p, q, env, b, k, id, s, t, body.instrs[i]);
        }
      }
    }
  }

  lemma SameKind(p: Program, b: BlockId, k: nat, id: InstrId, s: State, t: State)
    requires StateRel(p, b, k, id, s, t)
    ensures s.Running? == t.Running? && s.Done? == t.Done? && s.Trapped? == t.Trapped?
    ensures t.mem == s.mem && t.trace == Annotate(multiset{id}, s.trace) && (s.Done? ==> s.result == t.result)
    ensures s.Running? ==> |s.frames| == |t.frames|
  {}

  lemma BlockInstrOk(p: Program, x: BlockId, i: nat)
    requires Ok(p) && x in p.blocks && i < |p.blocks[x].instrs|
    ensures InstrOk(p.blocks[x].instrs[i], p.nextReg) && forall y :: y in p.blocks ==> BodyOk(p.blocks[y], p)
  {}

  lemma MissingBlock(p: Program, q: Program, b: BlockId, k: nat, id: InstrId, s: State, t: State)
    requires Ok(p) && Layout(p, q, b, k) && StateRel(p, b, k, id, s, t) && s.Running? && t.Running?
    requires s.frames != [] ==> Top(s).block !in p.blocks
    ensures t.frames != [] ==> Top(t).block !in q.blocks
  {
    hide BodyOk, UniqueStores, CheckBlock, SameRegs, Annotate, RenamePhis;
    if s.frames != [] { TopRel(p, b, k, id, s, t); }
  }

  /** Away from the instrumented store, related activations are about to execute the same code. */
  lemma SameCode(p: Program, q: Program, b: BlockId, k: nat, f: Frame, h: Frame)
    requires Ok(p) && Layout(p, q, b, k) && FrameRel(p, b, k, f, h) && f.block in p.blocks
    ensures h.block in q.blocks
    ensures !(f.block == b && f.idx == k) ==>
      var body, body' := p.blocks[f.block], q.blocks[h.block];
      && (f.idx < |body.instrs| <==> h.idx < |body'.instrs|)
      && (f.idx < |body.instrs| ==> body'.instrs[h.idx] == body.instrs[f.idx])
      && (f.idx >= |body.instrs| ==> body'.term == body.term)
  {}
}
