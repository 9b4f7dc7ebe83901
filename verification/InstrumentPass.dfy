/**
 The instrumentation pass: collect the stores that use the watched global or a cast of it, and
 instrument them one after the other in place.
 */
module InstrumentPass {
  import opened Ir
  import opened Instrument
  import opened Simulation
  import opened Preservation
  import opened KillEvents

  // ------------------------------------------------------------------ the rewritten program is a program

  /** Where the instruction at index l of block c of the instrumented program was in the original. */
  function HomeBlock(p: Program, b: BlockId, c: BlockId): BlockId { if c == p.nextBlock then b else c }

  function HomeIndex(p: Program, k: nat, c: BlockId, l: nat): nat { if c == p.nextBlock then k + l else l }

  lemma StoreHome(p: Program, q: Program, b: BlockId, k: nat, c: BlockId, l: nat, id: InstrId)
    requires Layout(p, q, b, k) && p.nextBlock !in p.blocks && p.nextBlock + 1 !in p.blocks && StoreAt(q, c, l, id)
    ensures StoreAt(p, HomeBlock(p, b, c), HomeIndex(p, k, c, l), id) && (c == b ==> l < k)
  {
    if c == b && l < k {
      assert q.blocks[b].instrs[l] == p.blocks[b].instrs[l];
    }
  }

  lemma StoreStays(p: Program, q: Program, b: BlockId, k: nat, c: BlockId, l: nat, id: InstrId)
    requires Layout(p, q, b, k) && p.nextBlock !in p.blocks && StoreAt(p, c, l, id)
    ensures if c == b && l >= k then StoreAt(q, p.nextBlock, l - k, id) else StoreAt(q, c, l, id)
  {}

  lemma InstrMore(i: Instr, n: Reg, m: Reg)
    requires InstrOk(i, n) && n <= m
    ensures InstrOk(i, m)
  {
    match i
    case Store(_, ptr, value) => OperandMore(ptr, n, m); OperandMore(value, n, m);
    case Load(_, ptr) => OperandMore(ptr, n, m);
    case CmpNe(_, left, right) => OperandMore(left, n, m); OperandMore(right, n, m);
    case Compute(_, _, args) => forall j | 0 <= j < |args| ensures OperandOk(args[j], m) { OperandMore(args[j], n, m); }
    case Call(_, _, args) => forall j | 0 <= j < |args| ensures OperandOk(args[j], m) { OperandMore(args[j], n, m); }
    case CallKill(_, _) =>
  }

  lemma {:induction false} OperandMore(o: Operand, n: Reg, m: Reg)
    requires OperandOk(o, n) && n <= m
    ensures OperandOk(o, m)
  {
    match o
    case Cast(_, base) => OperandMore(base, n, m);
    case Expr(_, base) => OperandMore(base, n, m);
    case _ =>
  }

  ghost predicate Grown(p: Program, q: Program) { p.nextBlock <= q.nextBlock && p.nextReg <= q.nextReg }

  lemma TermMore(t: Term, p: Program, q: Program)
    requires TermOk(t, p) && Grown(p, q)
    ensures TermOk(t, q)
  {
    match t
    case CondBr(cond, _, _) => OperandMore(cond, p.nextReg, q.nextReg);
    case Ret(result) => OperandMore(result, p.nextReg, q.nextReg);
    case _ =>
  }

  lemma PhiMore(phi: Phi, p: Program, q: Program)
    requires PhiOk(phi, p) && Grown(p, q)
    ensures PhiOk(phi, q)
  {
    forall c | c in phi.incoming ensures c < q.nextBlock && OperandOk(phi.incoming[c], q.nextReg) {
      OperandMore(phi.incoming[c], p.nextReg, q.nextReg);
    }
  }

  lemma RenamedPhisOk(phis: seq<Phi>, p: Program, q: Program, b: BlockId)
    requires Grown(p, q) && p.nextBlock < q.nextBlock && forall i :: 0 <= i < |phis| ==> PhiOk(phis[i], p)
    ensures forall i :: 0 <= i < |phis| ==> PhiOk(phis[i], q) && PhiOk(RenamePhis(phis, b, p.nextBlock)[i], q)
  {
    forall i | 0 <= i < |phis| ensures PhiOk(phis[i], q) && PhiOk(RenamePhis(phis, b, p.nextBlock)[i], q) {
      PhiMore(phis[i], p, q);
    }
  }

  /** Each block of the instrumented program is made of what the original block was made of. */
  lemma OldBlockOk(p: Program, q: Program, b: BlockId, k: nat, c: BlockId)
    requires Ok(p) && Layout(p, q, b, k) && c in p.blocks && c != b
    ensures BodyOk(q.blocks[c], q)
  {
    assert BodyOk(p.blocks[c], p);
    RenamedPhisOk(p.blocks[c].phis, p, q, b);
    TermMore(p.blocks[c].term, p, q);
    hide TermOk, PhiOk;
    forall i | 0 <= i < |p.blocks[c].instrs| ensures InstrOk(q.blocks[c].instrs[i], q.nextReg) {
      InstrMore(p.blocks[c].instrs[i], p.nextReg, q.nextReg);
    }
  }

  lemma FirstHalfOk(p: Program, q: Program, b: BlockId, k: nat)
    requires Ok(p) && Layout(p, q, b, k)
    ensures BodyOk(q.blocks[b], q)
  {
    var was := p.blocks[b];
    assert BodyOk(was, p);
    RenamedPhisOk(was.phis, p, q, b);
    assert OperandOk(Reg(p.nextReg + 1), q.nextReg);
    hide PhiOk;
    FirstHalfInstrs(p, q, was.instrs, k);
    hide InstrOk, RenamePhis, OperandOk;
    var body := q.blocks[b];
    assert CheckBlock(p, b, k, body);
    assert TermOk(body.term, q);
    assert forall i :: 0 <= i < |body.phis| ==> PhiOk(body.phis[i], q);
  }

  lemma FirstHalfInstrs(p: Program, q: Program, instrs: seq<Instr>, k: nat)
    requires k < |instrs| && instrs[k].Store? && q.nextReg == p.nextReg + 2
    requires forall i :: 0 <= i < |instrs| ==> InstrOk(instrs[i], p.nextReg)
    ensures var s := instrs[k];
      var r := instrs[..k] + [Load(p.nextReg, s.ptr), CmpNe(p.nextReg + 1, Reg(p.nextReg), s.value)];
      forall i :: 0 <= i < |r| ==> InstrOk(r[i], q.nextReg)
  {
    var s := instrs[k];
    InstrMore(s, p.nextReg, q.nextReg);
    assert InstrOk(Load(p.nextReg, s.ptr), q.nextReg);
    assert InstrOk(CmpNe(p.nextReg + 1, Reg(p.nextReg), s.value), q.nextReg);
    forall i | 0 <= i < k ensures InstrOk(instrs[i], q.nextReg) {
      InstrMore(instrs[i], p.nextReg, q.nextReg);
    }
    hide InstrOk;
  }

  lemma SecondHalfOk(p: Program, q: Program, b: BlockId, k: nat)
    requires Ok(p) && Layout(p, q, b, k)
    ensures BodyOk(q.blocks[p.nextBlock], q) && BodyOk(q.blocks[p.nextBlock + 1], q)
  {
    var was := p.blocks[b];
    assert BodyOk(was, p);
    TermMore(was.term, p, q);
    hide PhiOk;
    forall i | 0 <= i < |was.instrs| - k ensures InstrOk(q.blocks[p.nextBlock].instrs[i], q.nextReg) {
      InstrMore(was.instrs[k + i], p.nextReg, q.nextReg);
    }
  }

  lemma BlocksOk(p: Program, q: Program, b: BlockId, k: nat)
    requires Ok(p) && Layout(p, q, b, k)
    ensures forall c :: c in q.blocks ==> c < q.nextBlock && BodyOk(q.blocks[c], q)
  {
    hide BodyOk, CheckBlock, RenamePhis;
    forall c | c in q.blocks ensures c < q.nextBlock && BodyOk(q.blocks[c], q) {
      if c == b {
        FirstHalfOk(p, q, b, k);
      } else if c in p.blocks {
        OldBlockOk(p, q, b, k, c);
      } else {
        SecondHalfOk(p, q, b, k);
      }
    }
  }

  lemma EntriesOk(p: Program, q: Program, b: BlockId, k: nat)
    requires Ok(p) && Layout(p, q, b, k)
    ensures forall f :: f in q.funcs ==> q.funcs[f].entry < q.nextBlock
  {}

  lemma StoresStayUnique(p: Program, q: Program, b: BlockId, k: nat)
    requires Ok(p) && Layout(p, q, b, k)
    ensures UniqueStores(q)
  {
    assert p.nextBlock !in p.blocks && p.nextBlock + 1 !in p.blocks;
    assert UniqueStores(p);
    hide Layout, Ok, StoreAt;
    forall c: BlockId, l: nat, d: BlockId, m: nat, id: InstrId | StoreAt(q, c, l, id) && StoreAt(q, d, m, id)
      ensures c == d && l == m
    {
      StoreHome(p, q, b, k, c, l, id);
      StoreHome(p, q, b, k, d, m, id);
    }
  }

  /** The block ends before its k-th instruction with the check, which goes to the call of `call_kill` or past it to
      the rest of the block. */
  ghost predicate Checked(p: Program, q: Program, b: BlockId, k: nat)
    requires b in p.blocks && k < |p.blocks[b].instrs| && p.blocks[b].instrs[k].Store?
  {
    var store, rest, printer := p.blocks[b].instrs[k], p.nextBlock, p.nextBlock + 1;
    && b in q.blocks && rest in q.blocks && printer in q.blocks
    && q.blocks[b].instrs ==
       p.blocks[b].instrs[..k] + [Load(p.nextReg, store.ptr), CmpNe(p.nextReg + 1, Reg(p.nextReg), store.value)]
    && q.blocks[b].term == CondBr(Reg(p.nextReg + 1), printer, rest)
    && q.blocks[printer] == Body([], [CallKill(-100, 1)], Br(rest))
    && q.blocks[rest] == Body([], p.blocks[b].instrs[k..], p.blocks[b].term)
  }

  lemma InstrumentedChecks(p: Program, b: BlockId, k: nat, id: InstrId)
    requires Ok(p) && StoreAt(p, b, k, id)
    ensures Checked(p, Instrumented(p, b, k), b, k)
  {}

  /** Instrumenting a well-formed program gives a well-formed program with the same stores. */
  lemma InstrumentedOk(p: Program, b: BlockId, k: nat, id: InstrId)
    requires Ok(p) && StoreAt(p, b, k, id)
    ensures Ok(Instrumented(p, b, k))
  {
    hide Instrumented, BodyOk, Layout, UniqueStores;
    var q := Instrumented(p, b, k);
    InstrumentedLayout(p, b, k, id);
    BlocksOk(p, q, b, k);
    StoresStayUnique(p, q, b, k);
    EntriesOk(p, q, b, k);
  }

  ghost predicate HasStore(p: Program, id: InstrId) {
    exists b: BlockId, k: nat :: StoreAt(p, b, k, id)
  }

  lemma StoresKept(p: Program, b: BlockId, k: nat, id: InstrId)
    requires Ok(p) && StoreAt(p, b, k, id)
    ensures forall other: InstrId :: HasStore(p, other) ==> HasStore(Instrumented(p, b, k), other)
  {
    var q := Instrumented(p, b, k);
    InstrumentedLayout(p, b, k, id);
    assert p.nextBlock !in p.blocks;
    hide Instrumented, Layout, Ok, StoreAt;
    forall other: InstrId | HasStore(p, other) ensures HasStore(q, other) {
      var c: BlockId, l: nat :| StoreAt(p, c, l, other);
      StoreStays(p, q, b, k, c, l, other);
    }
  }

  lemma SplitShape(p: Program, b: BlockId, k: nat)
    requires Ok(p) && b in p.blocks && k <= |p.blocks[b].instrs|
    ensures var q := Split(p, b, k);
      && b in q.blocks && b < p.nextBlock && q.nextBlock == p.nextBlock + 1 && q.nextReg == p.nextReg
      && q.nextBlock !in q.blocks && q.funcs == p.funcs
  {}

  // ------------------------------------------------------------------ use lists

  /** What uses a value: an operand slot of a store, a constant expression, or something else. */
  datatype User = StoreUser(id: InstrId) | ConstUser(expr: Operand) | OtherUser

  type Uses = map<Operand, seq<User>>

  function UsesOf(uses: Uses, o: Operand): seq<User> { if o in uses then uses[o] else [] }

  /** In how many of its two operand slots a store has o. */
  function Slots(i: Instr, o: Operand): nat
    requires i.Store?
  {
    (if i.ptr == o then 1 else 0) + if i.value == o then 1 else 0
  }

  /** The use lists say of every operand which slots of which stores and which casts it is in. */
  ghost predicate UsesOk(p: Program, uses: Uses) {
    && (forall b: BlockId, k: nat, id: InstrId, o: Operand {:trigger StoreAt(p, b, k, id), UsesOf(uses, o)} ::
          StoreAt(p, b, k, id) ==> Count(UsesOf(uses, o), StoreUser(id)) == Slots(p.blocks[b].instrs[k], o))
    && (forall o: Operand, id: InstrId :: StoreUser(id) in UsesOf(uses, o) ==> HasStore(p, id))
    && (forall o: Operand, kind: nat, base: Operand :: Count(UsesOf(uses, o), ConstUser(Cast(kind, base))) <= 1)
    && (forall o: Operand, kind: nat, base: Operand :: ConstUser(Cast(kind, base)) in UsesOf(uses, o) ==> base == o)
    && (forall b: BlockId, k: nat, id: InstrId :: StoreAt(p, b, k, id) ==>
          && CastListed(uses, p.blocks[b].instrs[k].ptr) && CastListed(uses, p.blocks[b].instrs[k].value))
  }

  ghost predicate CastListed(uses: Uses, o: Operand) {
    o.Cast? ==> ConstUser(o) in UsesOf(uses, o.base)
  }

  /** The watched global, or a cast applied directly to it. */
  predicate Watched(g: nat, o: Operand) {
    o == Global(g) || (o.Cast? && o.base == Global(g))
  }

  function WatchedSlots(g: nat, i: Instr): nat
    requires i.Store?
  {
    (if Watched(g, i.ptr) then 1 else 0) + if Watched(g, i.value) then 1 else 0
  }

  // ------------------------------------------------------------------ what the two collecting loops compute

  function Count<T(==)>(s: seq<T>, x: T): nat {
    if s == [] then 0 else Count(s[..|s| - 1], x) + if s[|s| - 1] == x then 1 else 0
  }

  lemma {:induction false} CountConcat<T>(a: seq<T>, b: seq<T>, x: T)
    ensures Count(a + b, x) == Count(a, x) + Count(b, x)
  {
    if b == [] {
      assert a + b == a;
    } else {
      assert (a + b)[..|a + b| - 1] == a + b[..|b| - 1];
      CountConcat(a, b[..|b| - 1], x);
    }
  }

  lemma {:induction false} CountMultiset<T>(s: seq<T>, x: T)
    ensures multiset(s)[x] == Count(s, x)
  {
    if s != [] {
      CountMultiset(s[..|s| - 1], x);
      assert s == s[..|s| - 1] + [s[|s| - 1]];
    }
  }

  lemma {:induction false} CountMember<T>(s: seq<T>, x: T)
    ensures x in s <==> Count(s, x) > 0
  {
    if s != [] {
      CountMember(s[..|s| - 1], x);
      assert s == s[..|s| - 1] + [s[|s| - 1]];
    }
  }

  function CastsIn(us: seq<User>): seq<Operand> {
    if us == [] then []
    else
      var u := us[|us| - 1];
      CastsIn(us[..|us| - 1]) + if u.ConstUser? && u.expr.Cast? then [u.expr] else []
  }

  function StoresIn(us: seq<User>): seq<InstrId> {
    if us == [] then []
    else
      var u := us[|us| - 1];
      StoresIn(us[..|us| - 1]) + if u.StoreUser? then [u.id] else []
  }

  function Collected(uses: Uses, first: seq<Operand>): seq<InstrId> {
    if first == [] then [] else Collected(uses, first[..|first| - 1]) + StoresIn(UsesOf(uses, first[|first| - 1]))
  }

  lemma CastsStep(us: seq<User>, i: nat)
    requires i < |us|
    ensures CastsIn(us[..i + 1]) == CastsIn(us[..i]) + if us[i].ConstUser? && us[i].expr.Cast? then [us[i].expr] else []
  {
    assert us[..i + 1][..i] == us[..i];
  }

  lemma StoresStart(us: seq<User>)
    ensures StoresIn(us[..0]) == [] && us[..|us|] == us
  {}

  lemma StoresStep(us: seq<User>, i: nat)
    requires i < |us|
    ensures StoresIn(us[..i + 1]) == StoresIn(us[..i]) + if us[i].StoreUser? then [us[i].id] else []
  {
    assert us[..i + 1][..i] == us[..i];
  }

  lemma CollectedStart(uses: Uses, first: seq<Operand>)
    ensures Collected(uses, first[..0]) == [] && first[..|first|] == first
  {}

  lemma CollectedNext(uses: Uses, first: seq<Operand>, j: nat)
    requires j < |first|
    ensures Collected(uses, first[..j + 1]) == Collected(uses, first[..j]) + StoresIn(UsesOf(uses, first[j]))
  {
    assert first[..j + 1][..j] == first[..j];
  }

  lemma {:induction false} CastsCount(us: seq<User>, o: Operand)
    ensures Count(CastsIn(us), o) == if o.Cast? then Count(us, ConstUser(o)) else 0
  {
    if us != [] {
      var most, u := us[..|us| - 1], us[|us| - 1];
      CastsCount(most, o);
      CountConcat(CastsIn(most), if u.ConstUser? && u.expr.Cast? then [u.expr] else [], o);
    }
  }

  lemma {:induction false} StoresCount(us: seq<User>, id: InstrId)
    ensures Count(StoresIn(us), id) == Count(us, StoreUser(id))
  {
    if us != [] {
      var most, u := us[..|us| - 1], us[|us| - 1];
      StoresCount(most, id);
      CountConcat(StoresIn(most), if u.StoreUser? then [u.id] else [], id);
    }
  }

  lemma {:induction false} CollectedPerOperand(p: Program, uses: Uses, first: seq<Operand>, b: BlockId, k: nat,
                                               id: InstrId)
    requires UsesOk(p, uses) && StoreAt(p, b, k, id)
    ensures var i := p.blocks[b].instrs[k];
      Count(Collected(uses, first), id) == Count(first, i.ptr) + Count(first, i.value)
  {
    if first != [] {
      var most, o, i := first[..|first| - 1], first[|first| - 1], p.blocks[b].instrs[k];
      CollectedPerOperand(p, uses, most, b, k, id);
      StoresCount(UsesOf(uses, o), id);
      assert Count(UsesOf(uses, o), StoreUser(id)) == Slots(i, o);
      hide UsesOk, StoresIn, StoreAt, UsesOf;
      CountConcat(Collected(uses, most), StoresIn(UsesOf(uses, o)), id);
    }
  }

  /** Each store is collected once for each of its slots that has the watched global or a cast of it. */
  lemma CollectedCount(p: Program, uses: Uses, g: nat, b: BlockId, k: nat, id: InstrId)
    requires UsesOk(p, uses) && StoreAt(p, b, k, id)
    ensures var first := [Global(g)] + CastsIn(UsesOf(uses, Global(g)));
      multiset(Collected(uses, first))[id] == WatchedSlots(g, p.blocks[b].instrs[k])
  {
    var first, i := [Global(g)] + CastsIn(UsesOf(uses, Global(g))), p.blocks[b].instrs[k];
    CollectedPerOperand(p, uses, first, b, k, id);
    CountMultiset(Collected(uses, first), id);
    WatchedOnce(p, uses, g, b, k, id, i.ptr);
    WatchedOnce(p, uses, g, b, k, id, i.value);
  }

  lemma WatchedOnce(p: Program, uses: Uses, g: nat, b: BlockId, k: nat, id: InstrId, o: Operand)
    requires UsesOk(p, uses) && StoreAt(p, b, k, id)
    requires o == p.blocks[b].instrs[k].ptr || o == p.blocks[b].instrs[k].value
    ensures Count([Global(g)] + CastsIn(UsesOf(uses, Global(g))), o) == if Watched(g, o) then 1 else 0
  {
    var us := UsesOf(uses, Global(g));
    CastsCount(us, o);
    CountConcat([Global(g)], CastsIn(us), o);
    assert Count([Global(g)], o) == if o == Global(g) then 1 else 0;
    assert CastListed(uses, o);
    if o.Cast? {
      assert Count(us, ConstUser(Cast(o.kind, o.base))) <= 1;
      CountMember(us, ConstUser(o));
    }
  }

  lemma {:induction false} CollectedPresent(p: Program, uses: Uses, first: seq<Operand>)
    requires UsesOk(p, uses)
    ensures forall j :: 0 <= j < |Collected(uses, first)| ==> HasStore(p, Collected(uses, first)[j])
  {
    if first != [] {
      CollectedPresent(p, uses, first[..|first| - 1]);
      StoresPresent(p, uses, first[|first| - 1], UsesOf(uses, first[|first| - 1]));
    }
  }

  lemma {:induction false} StoresPresent(p: Program, uses: Uses, o: Operand, us: seq<User>)
    requires UsesOk(p, uses) && us <= UsesOf(uses, o)
    ensures forall j :: 0 <= j < |StoresIn(us)| ==> HasStore(p, StoresIn(us)[j])
  {
    if us != [] {
      StoresPresent(p, uses, o, us[..|us| - 1]);
      assert us[|us| - 1] in UsesOf(uses, o);
    }
  }

  // ------------------------------------------------------------------ the pass

  ghost predicate OncePerWatchedSlot(p: Program, g: nat, ids: multiset<InstrId>) {
    forall b: BlockId, k: nat, id: InstrId :: StoreAt(p, b, k, id) ==> ids[id] == WatchedSlots(g, p.blocks[b].instrs[k])
  }

  lemma CollectedCounts(p: Program, uses: Uses, g: nat)
    requires UsesOk(p, uses)
    ensures OncePerWatchedSlot(p, g, multiset(Collected(uses, [Global(g)] + CastsIn(UsesOf(uses, Global(g))))))
  {
    hide UsesOk, Collected, CastsIn, UsesOf;
    var first := [Global(g)] + CastsIn(UsesOf(uses, Global(g)));
    forall b: BlockId, k: nat, id: InstrId | StoreAt(p, b, k, id)
      ensures multiset(Collected(uses, first))[id] == WatchedSlots(g, p.blocks[b].instrs[k])
    {
      CollectedCount(p, uses, g, b, k, id);
    }
  }

  /** What the pass makes of program p when it watches global g: q, having instrumented `ids`. */
  ghost predicate Delivered(p: Program, q: Program, g: nat, ids: multiset<InstrId>) {
    Ok(q) && Preserves(p, q, ids) && OncePerWatchedSlot(p, g, ids)
  }

  class CheckInstrumentPass {
    var prog: Program
    const uses: Uses    // the use lists of the module the pass is given

    constructor (p: Program, uses: Uses)
      ensures prog == p && this.uses == uses
    {
      prog := p;
      this.uses := uses;
    }

    method GetGlobalVariableAndCasts(g: nat) returns (start: seq<Operand>)
      ensures start == [Global(g)] + CastsIn(UsesOf(uses, Global(g)))
    {
      start := [Global(g)];
      var us := UsesOf(uses, Global(g));
      var i := 0;
      while i < |us|
        invariant i <= |us| && start == [Global(g)] + CastsIn(us[..i])
      {
        CastsStep(us, i);
        match us[i] {
          case ConstUser(expr) => if expr.Cast? { start := start + [expr]; }
          case _ =>
        }
        i := i + 1;
      }
      assert us[..|us|] == us;
    }

    method FilterUses(first: seq<Operand>) returns (out: seq<InstrId>)
      ensures out == Collected(uses, first)
    {
      hide Collected, StoresIn;
      out := [];
      var j := 0;
      CollectedStart(uses, first);
      while j < |first|
        invariant j <= |first| && out == Collected(uses, first[..j])
      {
        var us := UsesOf(uses, first[j]);
        var i := 0;
        ghost var before := out;
        StoresStart(us);
        while i < |us|
          invariant i <= |us| && out == before + StoresIn(us[..i])
        {
          StoresStep(us, i);
          if us[i].StoreUser? { out := out + [us[i].id]; }
          i := i + 1;
        }
        CollectedNext(uses, first, j);
        j := j + 1;
      }
    }

    /** Split the store's block at the store, make a block for the call, replace the branch between the two
        halves by the check, and fill the new block. */
    method InstrumentStoreInstruction(id: InstrId) returns (ghost b: BlockId, ghost k: nat)
      requires Ok(prog) && HasStore(prog, id)
      modifies this`prog
      ensures StoreAt(old(prog), b, k, id) && prog == Instrumented(old(prog), b, k)
      ensures Checked(old(prog), prog, b, k)
    {
      var orig: BlockId, at: nat :| orig in prog.blocks && at < |prog.blocks[orig].instrs| &&
                                    prog.blocks[orig].instrs[at].Store? && prog.blocks[orig].instrs[at].id == id;
      b, k := orig, at;
      var s := prog.blocks[orig].instrs[at];
      var nova := prog.nextBlock;
      prog := Split(prog, orig, at);
      SplitShape(old(prog), orig, at);
      hide Split;
      var printer := prog.nextBlock;
      prog := prog.(blocks := prog.blocks[printer := Body([], [], Unreachable)], nextBlock := printer + 1);

      InsertCheck(orig, s, printer, nova);
      AppendTo(printer, CallKill(KILL_REASON, KILL_FLAG));
      Terminate(printer, Br(nova));
      assert prog.blocks[printer].instrs == [CallKill(KILL_REASON, KILL_FLAG)];
      assert prog.blocks == Instrumented(old(prog), b, k).blocks;
      InstrumentedChecks(old(prog), b, k, id);
      hide Checked;
    }

    /** Load what the store is about to overwrite, compare, and branch to the new block if it changes. */
    method InsertCheck(orig: BlockId, s: Instr, printer: BlockId, nova: BlockId)
      requires orig in prog.blocks && s.Store?
      modifies this`prog
      ensures var p, body := old(prog), old(prog).blocks[orig];
        var check := [Load(p.nextReg, s.ptr), CmpNe(p.nextReg + 1, Reg(p.nextReg), s.value)];
        var checked := Body(body.phis, body.instrs + check, CondBr(Reg(p.nextReg + 1), printer, nova));
        prog == p.(blocks := p.blocks[orig := checked], nextReg := p.nextReg + 2)
    {
      ghost var body := prog.blocks[orig];
      var indVal := prog.nextReg;
      AppendTo(orig, Load(indVal, s.ptr));
      var cmp := indVal + 1;
      AppendTo(orig, CmpNe(cmp, Reg(indVal), s.value));
      prog := prog.(nextReg := cmp + 1);
      Terminate(orig, CondBr(Reg(cmp), printer, nova));
      assert prog.blocks[orig].instrs == body.instrs + [Load(indVal, s.ptr), CmpNe(cmp, Reg(indVal), s.value)];
    }

    method AppendTo(block: BlockId, i: Instr)
      requires block in prog.blocks
      modifies this`prog
      ensures var body := old(prog).blocks[block];
        prog == old(prog).(blocks := old(prog).blocks[block := body.(instrs := body.instrs + [i])])
    {
      var body := prog.blocks[block];
      prog := prog.(blocks := prog.blocks[block := body.(instrs := body.instrs + [i])]);
    }

    method Terminate(block: BlockId, t: Term)
      requires block in prog.blocks
      modifies this`prog
      ensures prog == old(prog).(blocks := old(prog).blocks[block := old(prog).blocks[block].(term := t)])
    {
      prog := prog.(blocks := prog.blocks[block := prog.blocks[block].(term := t)]);
    }

    method RunOnModule(g: nat) returns (changed: bool, ghost ids: multiset<InstrId>)
      requires Ok(prog) && UsesOk(prog, uses)
      modifies this`prog
      ensures changed && Delivered(old(prog), prog, g, ids)
    {
      hide Ok, Preserves, StoreAt, UsesOk, Collected, CastsIn, Instrumented, OncePerWatchedSlot;
      var start := GetGlobalVariableAndCasts(g);
      var stores := FilterUses(start);
      ids := multiset{};
      ghost var p := prog;
      CollectedPresent(p, uses, start);
      PreservesRefl(p);
      var i := 0;
      while i < |stores|
        invariant i <= |stores| && ids == multiset(stores[..i])
        invariant Ok(prog) && Preserves(p, prog, ids)
        invariant forall j :: 0 <= j < |stores| ==> HasStore(prog, stores[j])
      {
        ghost var q := prog;
        ghost var b, k := InstrumentStoreInstruction(stores[i]);
        InstrumentedOk(q, b, k, stores[i]);
        StoresKept(q, b, k, stores[i]);
        InstrumentedPreserves(q, b, k, stores[i]);
        PreservesTrans(p, q, prog, ids, multiset{stores[i]});
        ids := ids + multiset{stores[i]};
        assert stores[..i + 1] == stores[..i] + [stores[i]];
        i := i + 1;
      }
      assert stores[..|stores|] == stores;
      CollectedCounts(p, uses, g);
      changed := true;
    }
  }

  /** In every run of what the pass delivers, whenever a store changes memory, exactly one kill event comes
      directly before it for each of its slots that has the watched global or a cast of it: none for other stores,
      and two for a store of the global to itself. */
  lemma WatchedStoresAnnounced(p: Program, q: Program, g: nat, ids: multiset<InstrId>, env: Env, block: BlockId,
                               regs: Regs, mem: Mem, m: nat, i: nat, b: BlockId, k: nat)
    requires Delivered(p, q, g, ids) && NoCallKill(p) && block < p.nextBlock
    requires i < |Run(q, env, Start(block, regs, mem), m).trace|
    requires var e := Run(q, env, Start(block, regs, mem), m).trace[i]; e.Stored? && e.was != e.now
    requires StoreAt(p, b, k, Run(q, env, Start(block, regs, mem), m).trace[i].id)
    ensures KillsBefore(Run(q, env, Start(block, regs, mem), m).trace, i) == WatchedSlots(g, p.blocks[b].instrs[k])
    ensures var trace, store := Run(q, env, Start(block, regs, mem), m).trace, p.blocks[b].instrs[k];
      var ptr := store.ptr == Global(g) || (store.ptr.Cast? && store.ptr.base == Global(g));
      var value := store.value == Global(g) || (store.value.Cast? && store.value.base == Global(g));
      var due := if ptr && value then 2 else if ptr || value then 1 else 0;
      && due <= i && (forall j :: i - due <= j < i ==> trace[j].Killed? && trace[j].a == -100 && trace[j].b == 1)
      && (due < i ==> trace[i - due - 1] != Killed(-100, 1))
  {
    hide Run, Preserves, Ok, Start;
    EveryKillIsDue(p, q, ids, env, block, regs, mem, m);
    KillsBeforeAre(Run(q, env, Start(block, regs, mem), m).trace, i);
  }
}
