/** Kill events and the value-changing stores that they announce, in every run of an instrumented program. */
module KillEvents {
  import opened Ir
  import opened Instrument
  import opened Preservation

  // ------------------------------------------------------------------ kill events and changes

  predicate Changes(e: Event) { e.Stored? && e.was != e.now }

  const KILL: Event := Killed(KILL_REASON, KILL_FLAG)

  /** Every value-changing store of an instrumented instruction directly follows a kill event. */
  ghost predicate ChangesAnnounced(ids: multiset<InstrId>, trace: seq<Event>) {
    forall i :: 0 <= i < |trace| && Changes(trace[i]) && trace[i].id in ids ==> i > 0 && trace[i - 1] == KILL
  }

  lemma {:induction false} AnnotatedAnnounces(ids: multiset<InstrId>, trace: seq<Event>)
    ensures ChangesAnnounced(ids, Annotate(ids, trace))
  {
    if trace != [] {
      var t, e := trace[..|trace| - 1], trace[|trace| - 1];
      AnnotatedAnnounces(ids, t);
      KillsAre(ids, e);
    }
  }

  lemma KillsAre(ids: multiset<InstrId>, e: Event)
    ensures var a := Announced(ids, e);
      && |a| > 0 && a[|a| - 1] == e && (forall i :: 0 <= i < |a| - 1 ==> a[i] == KILL)
      && |a| == if Changes(e) then ids[e.id] + 1 else 1
  {
    if Changes(e) { KillsLength(ids[e.id]); }
  }

  lemma {:induction false} KillsLength(n: nat)
    ensures |Kills(n)| == n && forall i :: 0 <= i < n ==> Kills(n)[i] == KILL
  {
    if n != 0 { KillsLength(n - 1); }
  }

  // ------------------------------------------------------------------ runs only append events

  lemma StepAppends(p: Program, env: Env, s: State)
    ensures s.trace <= Step(p, env, s).trace
  {
    hide Eval, EvalAll, EvalPhis, Bind;
  }

  lemma {:induction false} RunAppends(p: Program, env: Env, s: State, n: nat)
    ensures s.trace <= Run(p, env, s, n).trace
    decreases n
  {
    if n != 0 {
      StepAppends(p, env, s);
      RunAppends(p, env, Step(p, env, s), n - 1);
    }
  }

  /** Wherever the instrumented program is, what it has recorded is a prefix of an annotated trace of the original. */
  lemma RunIsPrefix(p: Program, q: Program, ids: multiset<InstrId>, env: Env, block: BlockId, regs: Regs, mem: Mem,
                    m: nat)
    requires Preserves(p, q, ids) && block < p.nextBlock
    ensures Run(q, env, Start(block, regs, mem), m).trace
         <= Annotate(ids, Run(p, env, Start(block, regs, mem), m).trace)
  {
    hide Run, Start, Annotate;
    var s := Start(block, regs, mem);
    assert Keeps(p, q, ids, env, s, m);
    var l :| l >= m && Matches(ids, Run(p, env, s, m), Run(q, env, s, l));
    RunAdd(q, env, s, m, l - m);
    RunAppends(q, env, Run(q, env, s, m), l - m);
  }

  /** In every run of the instrumented program, finished or not. */
  lemma EveryChangeAnnounced(p: Program, q: Program, ids: multiset<InstrId>, env: Env, block: BlockId, regs: Regs,
                             mem: Mem, m: nat)
    requires Preserves(p, q, ids) && block < p.nextBlock
    ensures var trace := Run(q, env, Start(block, regs, mem), m).trace;
      forall i :: 0 <= i < |trace| && trace[i].Stored? && trace[i].was != trace[i].now && trace[i].id in ids ==>
        i > 0 && trace[i - 1].Killed? && trace[i - 1].a == -100 && trace[i - 1].b == 1
  {
    hide Run, Start, Annotate;
    RunIsPrefix(p, q, ids, env, block, regs, mem, m);
    AnnotatedAnnounces(ids, Run(p, env, Start(block, regs, mem), m).trace);
    ghost var trace := Run(q, env, Start(block, regs, mem), m).trace;
    assert ChangesAnnounced(ids, trace);
  }

  // ------------------------------------------------------------------ nothing but kill events is added

  function WithoutKills(trace: seq<Event>): seq<Event> {
    if trace == [] then []
    else WithoutKills(trace[..|trace| - 1]) + if trace[|trace| - 1].Killed? then [] else [trace[|trace| - 1]]
  }

  lemma {:induction false} WithoutKillsConcat(a: seq<Event>, b: seq<Event>)
    ensures WithoutKills(a + b) == WithoutKills(a) + WithoutKills(b)
  {
    if b == [] {
      assert a + b == a;
    } else {
      assert (a + b)[..|a + b| - 1] == a + b[..|b| - 1];
      WithoutKillsConcat(a, b[..|b| - 1]);
    }
  }

  lemma {:induction false} OnlyKills(trace: seq<Event>)
    requires forall i :: 0 <= i < |trace| ==> trace[i].Killed?
    ensures WithoutKills(trace) == []
  {
    if trace != [] { OnlyKills(trace[..|trace| - 1]); }
  }

  lemma {:induction false} AnnotatedErased(ids: multiset<InstrId>, trace: seq<Event>)
    requires NoKilled(trace)
    ensures WithoutKills(Annotate(ids, trace)) == trace
    decreases trace, 0
  {
    if trace != [] { ErasedOneMore(ids, trace[..|trace| - 1], trace[|trace| - 1], trace); }
  }

  lemma {:induction false} ErasedOneMore(ids: multiset<InstrId>, t: seq<Event>, e: Event, trace: seq<Event>)
    requires trace == t + [e] && NoKilled(trace)
    ensures WithoutKills(Annotate(ids, trace)) == trace
    decreases t, 1
  {
    hide Announced, Annotate, WithoutKills;
    assert !e.Killed? by { assert trace[|t|] == e; }
    assert NoKilled(t) by { forall i | 0 <= i < |t| ensures !t[i].Killed? { assert trace[i] == t[i]; } }
    hide NoKilled;
    AnnotatedErased(ids, t);
    AnnouncedErased(ids, e);
    WithoutKillsConcat(Annotate(ids, t), Announced(ids, e));
    AnnotateAppend(ids, t, e);
  }

  lemma AnnouncedErased(ids: multiset<InstrId>, e: Event)
    requires !e.Killed?
    ensures WithoutKills(Announced(ids, e)) == [e]
  {
    hide Announced;
    KillsAre(ids, e);
    var a := Announced(ids, e);
    OnlyKills(a[..|a| - 1]);
  }

  /** Whatever the original program ends in, the instrumented one ends in with the same result and memory, and with
      the same events but for kill events that have come in; if it halts, the original has halted like that. */
  lemma SameButForKills(p: Program, q: Program, ids: multiset<InstrId>, env: Env, block: BlockId, regs: Regs, mem: Mem,
                        n: nat)
    requires Preserves(p, q, ids) && block < p.nextBlock && NoCallKill(p)
    ensures var s := Run(p, env, Running([Frame(block, 0, regs, 0)], mem, 0, []), n);
      exists m: nat :: m >= n &&
        var t := Run(q, env, Running([Frame(block, 0, regs, 0)], mem, 0, []), m);
        && (if s.Running? then t.Running? else if s.Done? then t.Done? && t.result == s.result else t.Trapped?)
        && t.mem == s.mem && WithoutKills(t.trace) == s.trace
    ensures var t := Run(q, env, Running([Frame(block, 0, regs, 0)], mem, 0, []), n);
      var s := Run(p, env, Running([Frame(block, 0, regs, 0)], mem, 0, []), n);
      !t.Running? ==>
        && (if t.Done? then s.Done? && s.result == t.result else s.Trapped?)
        && t.mem == s.mem && WithoutKills(t.trace) == s.trace
  {
    var start := Start(block, regs, mem);
    RunKillsNothing(p, env, start, n);
    hide Run, Annotate, WithoutKills;
    var s := Run(p, env, start, n);
    assert Keeps(p, q, ids, env, start, n);
    var m :| m >= n && Matches(ids, s, Run(q, env, start, m));
    AnnotatedErased(ids, s.trace);
    assert WithoutKills(Run(q, env, start, m).trace) == s.trace;
    if !Run(q, env, start, n).Running? { OutcomeReflected(p, q, ids, env, block, regs, mem, n); }
  }

  // ------------------------------------------------------------------ exactly one kill event per change

  ghost predicate NoKilled(trace: seq<Event>) {
    forall i :: 0 <= i < |trace| ==> !trace[i].Killed?
  }

  ghost predicate NoCallKill(p: Program) {
    forall b, k {:trigger p.blocks[b].instrs[k]} ::
      b in p.blocks && 0 <= k < |p.blocks[b].instrs| ==> !p.blocks[b].instrs[k].CallKill?
  }

  lemma StepKillsNothing(p: Program, env: Env, s: State)
    requires NoCallKill(p) && NoKilled(s.trace)
    ensures NoKilled(Step(p, env, s).trace)
  {
    hide Eval, EvalAll, EvalPhis, Bind;
  }

  lemma {:induction false} RunKillsNothing(p: Program, env: Env, s: State, n: nat)
    requires NoCallKill(p) && NoKilled(s.trace)
    ensures NoKilled(Run(p, env, s, n).trace)
    decreases n
  {
    if n != 0 {
      StepKillsNothing(p, env, s);
      RunKillsNothing(p, env, Step(p, env, s), n - 1);
    }
  }

  /** How many kill events come directly before the i-th event. */
  function KillsBefore(trace: seq<Event>, i: nat): nat
    requires i <= |trace|
  {
    if i == 0 || trace[i - 1] != KILL then 0 else 1 + KillsBefore(trace, i - 1)
  }

  lemma {:induction false} KillsBeforePrefix(t: seq<Event>, u: seq<Event>, i: nat)
    requires t <= u && i <= |t|
    ensures KillsBefore(t, i) == KillsBefore(u, i)
  {
    if i != 0 { KillsBeforePrefix(t, u, i - 1); }
  }

  /** They come one after the other, and another event, if any, before them. */
  lemma {:induction false} KillsBeforeAre(trace: seq<Event>, i: nat)
    requires i <= |trace|
    ensures var n := KillsBefore(trace, i);
      && n <= i && (forall j :: i - n <= j < i ==> trace[j].Killed? && trace[j].a == -100 && trace[j].b == 1)
      && (n < i ==> trace[i - n - 1] != Killed(-100, 1))
  {
    if i != 0 { KillsBeforeAre(trace, i - 1); }
  }

  function KillsDue(ids: multiset<InstrId>, e: Event): nat { if Changes(e) then ids[e.id] else 0 }

  /** Before a value-changing store, as many kill events as its instruction was instrumented times; before any
      other event none. */
  ghost predicate KillsExact(ids: multiset<InstrId>, trace: seq<Event>) {
    forall i :: 0 <= i < |trace| && !trace[i].Killed? ==> KillsBefore(trace, i) == KillsDue(ids, trace[i])
  }

  lemma {:induction false} KillsBeforeIn(a: seq<Event>, b: seq<Event>, j: nat)
    requires a != [] ==> !a[|a| - 1].Killed?
    requires j < |b| && forall i :: 0 <= i < j ==> b[i] == KILL
    ensures KillsBefore(a + b, |a| + j) == j
  {
    if j != 0 {
      KillsBeforeIn(a, b, j - 1);
      assert (a + b)[|a| + j - 1] == b[j - 1];
    } else if a != [] {
      assert (a + b)[|a| - 1] == a[|a| - 1];
    }
  }

  lemma ExactJoin(ids: multiset<InstrId>, a: seq<Event>, b: seq<Event>, e: Event)
    requires KillsExact(ids, a) && (a != [] ==> !a[|a| - 1].Killed?) && !e.Killed?
    requires |b| == KillsDue(ids, e) + 1 && b[|b| - 1] == e && forall i :: 0 <= i < |b| - 1 ==> b[i] == KILL
    ensures KillsExact(ids, a + b)
  {
    hide KillsBefore;
    forall i | 0 <= i < |a + b| && !(a + b)[i].Killed?
      ensures KillsBefore(a + b, i) == KillsDue(ids, (a + b)[i])
    {
      if i < |a| {
        KillsBeforePrefix(a, a + b, i);
      } else {
        assert (a + b)[i] == b[i - |a|];
        KillsBeforeIn(a, b, |b| - 1);
      }
    }
  }

  lemma {:induction false} AnnotatedExact(ids: multiset<InstrId>, trace: seq<Event>)
    requires NoKilled(trace)
    ensures KillsExact(ids, Annotate(ids, trace))
    ensures var a := Annotate(ids, trace); a != [] ==> !a[|a| - 1].Killed?
  {
    if trace != [] {
      var t, e := trace[..|trace| - 1], trace[|trace| - 1];
      AnnotatedExact(ids, t);
      KillsAre(ids, e);
      hide Announced, KillsExact;
      ExactJoin(ids, Annotate(ids, t), Announced(ids, e), e);
    }
  }

  /** In every run, each execution of a store that changes memory has exactly as many kill events directly before
      it as the store was instrumented times (so exactly one if it was collected once), and no other event has any. */
  lemma EveryKillIsDue(p: Program, q: Program, ids: multiset<InstrId>, env: Env, block: BlockId, regs: Regs, mem: Mem,
                       m: nat)
    requires Preserves(p, q, ids) && block < p.nextBlock && NoCallKill(p)
    ensures KillsExact(ids, Run(q, env, Start(block, regs, mem), m).trace)
  {
    var s := Start(block, regs, mem);
    RunKillsNothing(p, env, s, m);
    hide Run, Start, Annotate, KillsBefore;
    RunIsPrefix(p, q, ids, env, block, regs, mem, m);
    AnnotatedExact(ids, Run(p, env, s, m).trace);
    ExactPrefix(ids, Run(q, env, s, m).trace, Annotate(ids, Run(p, env, s, m).trace));
  }

  lemma ExactPrefix(ids: multiset<InstrId>, t: seq<Event>, u: seq<Event>)
    requires KillsExact(ids, u) && t <= u
    ensures KillsExact(ids, t)
  {
    hide KillsBefore;
    forall i | 0 <= i < |t| && !t[i].Killed? ensures KillsBefore(t, i) == KillsDue(ids, t[i]) {
      KillsBeforePrefix(t, u, i);
    }
  }
}
