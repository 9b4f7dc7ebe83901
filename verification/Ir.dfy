/**
 A small block-structured intermediate language with a small-step semantics: functions, phi nodes,
 loads and stores that may trap, calls to functions that are defined and to ones that are not.
 */
module Ir {
  type Reg = nat
  type BlockId = nat
  type InstrId = nat
  type Val = int
  type Addr = int
  type Mem = map<Addr, Val>
  type Regs = map<Reg, Val>

  datatype Operand =
    | Reg(r: Reg)
    | Const(v: Val)
    | Global(g: nat)
    | Cast(kind: nat, base: Operand)         // a constant expression that is a cast
    | Expr(kind: nat, base: Operand)         // any other constant expression

  datatype Instr =
    | Store(id: InstrId, ptr: Operand, value: Operand)
    | Load(dst: Reg, ptr: Operand)
    | CmpNe(dst: Reg, left: Operand, right: Operand)
    | Compute(dst: Reg, name: nat, args: seq<Operand>)
    | Call(dst: Reg, callee: nat, args: seq<Operand>)
    | CallKill(a: Val, b: Val)

  datatype Phi = Phi(dst: Reg, incoming: map<BlockId, Operand>)

  datatype Term =
    | Br(target: BlockId)
    | CondBr(cond: Operand, yes: BlockId, no: BlockId)
    | Ret(result: Operand)
    | Unreachable

  datatype Body = Body(phis: seq<Phi>, instrs: seq<Instr>, term: Term)

  datatype Func = Func(entry: BlockId, params: seq<Reg>)

  /** All functions of a module with their blocks; ids from the two bounds on are unused. */
  datatype Program = Program(blocks: map<BlockId, Body>, funcs: map<nat, Func>, nextBlock: BlockId, nextReg: Reg)

  /** What the program leaves to its surroundings: where globals are, what operations compute, and what
      the n-th call of a function that is not defined here returns and does to memory. */
  datatype Env = Env(globals: nat -> Addr, fold: (nat, Val) -> Val, ops: (nat, seq<Val>) -> Val,
                     ext: (nat, nat, seq<Val>, Mem) -> (Val, Mem))

  datatype Event =
    | Stored(id: InstrId, addr: Addr, was: Val, now: Val)
    | Called(callee: nat, args: seq<Val>, result: Val)
    | Killed(a: Val, b: Val)

  /** An activation: where it is, its registers, and the caller's register for its result. */
  datatype Frame = Frame(block: BlockId, idx: nat, regs: Regs, ret: Reg)

  datatype State =
    | Running(frames: seq<Frame>, mem: Mem, calls: nat, trace: seq<Event>)
    | Done(result: Val, mem: Mem, trace: seq<Event>)
    | Trapped(mem: Mem, trace: seq<Event>)

  function Read(regs: Regs, r: Reg): Val { if r in regs then regs[r] else 0 }

  function Eval(env: Env, regs: Regs, o: Operand): Val {
    match o
    case Reg(r) => Read(regs, r)
    case Const(v) => v
    case Global(g) => env.globals(g)
    case Cast(kind, base) => env.fold(kind, Eval(env, regs, base))
    case Expr(kind, base) => env.fold(kind, Eval(env, regs, base))
  }

  function EvalAll(env: Env, regs: Regs, os: seq<Operand>): (vs: seq<Val>)
    ensures |vs| == |os|
  {
    if os == [] then [] else EvalAll(env, regs, os[..|os| - 1]) + [Eval(env, regs, os[|os| - 1])]
  }

  function Bind(params: seq<Reg>, args: seq<Val>): Regs {
    if params == [] || args == [] then map[]
    else Bind(params[1..], args[1..])[params[0] := args[0]]
  }

  /** The phi nodes of a block all read the registers as they were when control left block `from`. */
  function EvalPhis(env: Env, phis: seq<Phi>, from: BlockId, regs: Regs): Regs {
    if phis == [] then regs
    else
      var phi := phis[|phis| - 1];
      var v := if from in phi.incoming then Eval(env, regs, phi.incoming[from]) else 0;
      EvalPhis(env, phis[..|phis| - 1], from, regs)[phi.dst := v]
  }

  function Top(s: State): Frame
    requires s.Running? && s.frames != []
  {
    s.frames[|s.frames| - 1]
  }

  function SetTop(s: State, f: Frame): (t: State)
    requires s.Running? && s.frames != []
    ensures t.Running? && |t.frames| == |s.frames|
  {
    s.(frames := s.frames[..|s.frames| - 1] + [f])
  }

  /** Write a register of the running activation and go on to the next instruction. */
  function Assign(s: State, dst: Reg, v: Val): (t: State)
    requires s.Running? && s.frames != []
    ensures t.Running? && |t.frames| == |s.frames|
  {
    var f := Top(s);
    SetTop(s, f.(idx := f.idx + 1, regs := f.regs[dst := v]))
  }

  /** The effects of an instruction on what is outside the activations. */
  function Emit(s: State, mem: Mem, calls: nat, e: Event): State
    requires s.Running?
  {
    s.(mem := mem, calls := calls, trace := s.trace + [e])
  }

  function Jump(p: Program, env: Env, s: State, target: BlockId): (t: State)
    requires s.Running? && s.frames != []
    ensures t.Running? && |t.frames| == |s.frames|
  {
    var f := Top(s);
    var phis := if target in p.blocks then p.blocks[target].phis else [];
    SetTop(s, f.(block := target, idx := 0, regs := EvalPhis(env, phis, f.block, f.regs)))
  }

  function Exec(p: Program, env: Env, s: State, i: Instr): State
    requires s.Running? && s.frames != []
  {
    var f := Top(s);
    match i
    case Store(id, ptr, value) =>
      var a := Eval(env, f.regs, ptr);
      if a !in s.mem then Trapped(s.mem, s.trace)
      else
        var v := Eval(env, f.regs, value);
        Emit(SetTop(s, f.(idx := f.idx + 1)), s.mem[a := v], s.calls, Stored(id, a, s.mem[a], v))
    case Load(dst, ptr) =>
      var a := Eval(env, f.regs, ptr);
      if a !in s.mem then Trapped(s.mem, s.trace) else Assign(s, dst, s.mem[a])
    case CmpNe(dst, left, right) =>
      Assign(s, dst, if Eval(env, f.regs, left) != Eval(env, f.regs, right) then 1 else 0)
    case Compute(dst, name, args) =>
      Assign(s, dst, env.ops(name, EvalAll(env, f.regs, args)))
    case Call(dst, callee, args) =>
      var vs := EvalAll(env, f.regs, args);
      if callee in p.funcs then
        var fn := p.funcs[callee];
        var t := SetTop(s, f.(idx := f.idx + 1));
        t.(frames := t.frames + [Frame(fn.entry, 0, Bind(fn.params, vs), dst)])
      else
        var (v, m) := env.ext(s.calls, callee, vs, s.mem);
        Emit(Assign(s, dst, v), m, s.calls + 1, Called(callee, vs, v))
    case CallKill(a, b) =>
      Emit(SetTop(s, f.(idx := f.idx + 1)), s.mem, s.calls, Killed(a, b))
  }

  function Finish(p: Program, env: Env, s: State, t: Term): State
    requires s.Running? && s.frames != []
  {
    var f := Top(s);
    match t
    case Br(target) => Jump(p, env, s, target)
    case CondBr(cond, yes, no) => Jump(p, env, s, if Eval(env, f.regs, cond) != 0 then yes else no)
    case Ret(result) =>
      var v := Eval(env, f.regs, result);
      if |s.frames| == 1 then Done(v, s.mem, s.trace)
      else
        var t := s.(frames := s.frames[..|s.frames| - 1]);
        SetTop(t, Top(t).(regs := Top(t).regs[f.ret := v]))
    case Unreachable => Trapped(s.mem, s.trace)
  }

  function Step(p: Program, env: Env, s: State): State {
    if !s.Running? then s
    else if s.frames == [] || Top(s).block !in p.blocks then Trapped(s.mem, s.trace)
    else
      var body := p.blocks[Top(s).block];
      if Top(s).idx < |body.instrs| then Exec(p, env, s, body.instrs[Top(s).idx])
      else Finish(p, env, s, body.term)
  }

  function Run(p: Program, env: Env, s: State, n: nat): State
    decreases n
  {
    if n == 0 then s else Run(p, env, Step(p, env, s), n - 1)
  }

  lemma {:induction false} RunAdd(p: Program, env: Env, s: State, m: nat, n: nat)
    ensures Run(p, env, s, m + n) == Run(p, env, Run(p, env, s, m), n)
    decreases m
  {
    if m != 0 { RunAdd(p, env, Step(p, env, s), m - 1, n); }
  }

  lemma {:induction false} RunHalted(p: Program, env: Env, s: State, n: nat)
    requires !s.Running?
    ensures Run(p, env, s, n) == s
    decreases n
  {
    if n != 0 { RunHalted(p, env, s, n - 1); }
  }

  // ------------------------------------------------------------------ well-formed programs

  predicate OperandOk(o: Operand, n: Reg) {
    match o
    case Reg(r) => r < n
    case Const(_) => true
    case Global(_) => true
    case Cast(_, base) => OperandOk(base, n)
    case Expr(_, base) => OperandOk(base, n)
  }

  ghost predicate OperandsOk(os: seq<Operand>, n: Reg) {
    forall i :: 0 <= i < |os| ==> OperandOk(os[i], n)
  }

  ghost predicate InstrOk(i: Instr, n: Reg) {
    match i
    case Store(_, ptr, value) => OperandOk(ptr, n) && OperandOk(value, n)
    case Load(dst, ptr) => dst < n && OperandOk(ptr, n)
    case CmpNe(dst, left, right) => dst < n && OperandOk(left, n) && OperandOk(right, n)
    case Compute(dst, _, args) => dst < n && OperandsOk(args, n)
    case Call(dst, _, args) => dst < n && OperandsOk(args, n)
    case CallKill(_, _) => true
  }

  ghost predicate PhiOk(phi: Phi, p: Program) {
    phi.dst < p.nextReg && forall b :: b in phi.incoming ==> b < p.nextBlock && OperandOk(phi.incoming[b], p.nextReg)
  }

  function Successors(t: Term): set<BlockId> {
    match t
    case Br(target) => {target}
    case CondBr(_, yes, no) => {yes, no}
    case Ret(_) => {}
    case Unreachable => {}
  }

  ghost predicate TermOk(t: Term, p: Program) {
    && (forall b :: b in Successors(t) ==> b < p.nextBlock)
    && match t
       case Br(_) => true
       case CondBr(cond, _, _) => OperandOk(cond, p.nextReg)
       case Ret(result) => OperandOk(result, p.nextReg)
       case Unreachable => true
  }

  ghost predicate BodyOk(b: Body, p: Program) {
    && (forall i :: 0 <= i < |b.phis| ==> PhiOk(b.phis[i], p))
    && (forall i :: 0 <= i < |b.instrs| ==> InstrOk(b.instrs[i], p.nextReg))
    && TermOk(b.term, p)
  }

  ghost predicate StoreAt(p: Program, b: BlockId, k: nat, id: InstrId) {
    b in p.blocks && k < |p.blocks[b].instrs| && p.blocks[b].instrs[k].Store? && p.blocks[b].instrs[k].id == id
  }

  ghost predicate UniqueStores(p: Program) {
    forall b: BlockId, k: nat, c: BlockId, l: nat, id: InstrId ::
      StoreAt(p, b, k, id) && StoreAt(p, c, l, id) ==> b == c && k == l
  }

  /** Ids below the bounds, and one store instruction per store id. */
  ghost predicate Ok(p: Program) {
    && (forall b :: b in p.blocks ==> b < p.nextBlock && BodyOk(p.blocks[b], p))
    && (forall f :: f in p.funcs ==> p.funcs[f].entry < p.nextBlock)
    && UniqueStores(p)
  }
}
