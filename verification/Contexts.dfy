/** Calling contexts of bounded length, and the unbounded call stacks they stand for. */
module Contexts {
  type CallSite = nat

  /** A bounded context, and whether it is still the whole stack. */
  datatype Cxt = Cxt(stack: seq<CallSite>, concrete: bool)

  /** Entering a callee, and leaving it to where it was entered from. */
  datatype Op = Push(site: CallSite) | Match(site: CallSite)

  // ------------------------------------------------------------------ the bounded context

  function Pushed(limit: nat, c: Cxt, site: CallSite): Cxt {
    if |c.stack| < limit then c.(stack := c.stack + [site])
    else if c.stack != [] then Cxt(c.stack[1..] + [site], false)
    else c
  }

  predicate Matches(c: Cxt, site: CallSite) { c.stack == [] || c.stack[|c.stack| - 1] == site }

  function Popped(c: Cxt, site: CallSite): Cxt {
    if c.stack != [] && Matches(c, site) then c.(stack := c.stack[..|c.stack| - 1]) else c
  }

  function Apply(limit: nat, c: Cxt, op: Op): Cxt {
    if op.Push? then Pushed(limit, c, op.site) else Popped(c, op.site)
  }

  function Run(limit: nat, c: Cxt, ops: seq<Op>): Cxt {
    if ops == [] then c else Apply(limit, Run(limit, c, ops[..|ops| - 1]), ops[|ops| - 1])
  }

  /** No match fails. */
  predicate Accepts(limit: nat, c: Cxt, ops: seq<Op>) {
    ops == [] ||
    (var most, op := ops[..|ops| - 1], ops[|ops| - 1];
     Accepts(limit, c, most) && (op.Match? ==> Matches(Run(limit, c, most), op.site)))
  }

  // ------------------------------------------------------------------ the unbounded stack

  predicate StackMatches(s: seq<CallSite>, site: CallSite) { s == [] || s[|s| - 1] == site }

  function StackApply(s: seq<CallSite>, op: Op): seq<CallSite> {
    if op.Push? then s + [op.site]
    else if s != [] && StackMatches(s, op.site) then s[..|s| - 1]
    else s
  }

  function StackRun(s: seq<CallSite>, ops: seq<Op>): seq<CallSite> {
    if ops == [] then s else StackApply(StackRun(s, ops[..|ops| - 1]), ops[|ops| - 1])
  }

  predicate StackAccepts(s: seq<CallSite>, ops: seq<Op>) {
    ops == [] ||
    (var most, op := ops[..|ops| - 1], ops[|ops| - 1];
     StackAccepts(s, most) && (op.Match? ==> StackMatches(StackRun(s, most), op.site)))
  }

  // ------------------------------------------------------------------ how they relate

  ghost predicate Suffix(a: seq<CallSite>, b: seq<CallSite>) {
    |a| <= |b| && forall i :: 0 <= i < |a| ==> a[i] == b[|b| - |a| + i]
  }

  lemma SuffixStep(limit: nat, c: Cxt, s: seq<CallSite>, op: Op)
    requires Suffix(c.stack, s) && |c.stack| <= limit
    ensures Suffix(Apply(limit, c, op).stack, StackApply(s, op)) && |Apply(limit, c, op).stack| <= limit
    ensures op.Match? && StackMatches(s, op.site) ==> Matches(c, op.site)
  {
    if op.Match? {
      assert c.stack != [] ==> c.stack[|c.stack| - 1] == s[|s| - 1];
    }
  }

  /** After any sequence of pushes and matches, from one stack within the limit, the bounded context is a suffix of
      the unbounded stack, of at most the limit's length. */
  lemma {:induction false} BoundedIsSuffix(limit: nat, c: Cxt, ops: seq<Op>)
    requires |c.stack| <= limit
    ensures Suffix(Run(limit, c, ops).stack, StackRun(c.stack, ops)) && |Run(limit, c, ops).stack| <= limit
  {
    if ops != [] {
      var most := ops[..|ops| - 1];
      BoundedIsSuffix(limit, c, most);
      SuffixStep(limit, Run(limit, c, most), StackRun(c.stack, most), ops[|ops| - 1]);
    }
  }

  /** A push keeps as much as fits, with the site on top; of the rest only the oldest site can go. */
  lemma PushKeepsWhatFits(limit: nat, c: Cxt, ops: seq<Op>, site: CallSite)
    requires |c.stack| <= limit
    ensures var was, now := Run(limit, c, ops).stack, Run(limit, c, ops + [Push(site)]).stack;
      && |now| == (if |was| + 1 < limit then |was| + 1 else limit)
      && Suffix(now, was + [site]) && Suffix(now, StackRun(c.stack, ops) + [site])
    ensures Run(limit, c, ops + [Push(site)]).concrete <==>
        Run(limit, c, ops).concrete && (|Run(limit, c, ops).stack| < limit || limit == 0)
  {
    BoundedIsSuffix(limit, c, ops);
    BoundedIsSuffix(limit, c, ops + [Push(site)]);
    RunOneMore(limit, c, ops, Push(site));
    hide Run, StackRun;
  }

  /** A match takes the top away if it is the site, from the context exactly if from the unbounded stack, unless the
      context is empty: an empty one matches every site and stays empty. */
  lemma MatchTakesTop(limit: nat, c: Cxt, ops: seq<Op>, site: CallSite)
    requires |c.stack| <= limit
    ensures var was, all := Run(limit, c, ops), StackRun(c.stack, ops);
      var now, left := Run(limit, c, ops + [Match(site)]), StackRun(c.stack, ops + [Match(site)]);
      if was.stack == [] then Matches(was, site) && now == was
      else
        && all != [] && (Matches(was, site) <==> all[|all| - 1] == site)
        && (StackMatches(all, site) <==> all[|all| - 1] == site)
        && left == (if all[|all| - 1] == site then all[..|all| - 1] else all)
        && now == if all[|all| - 1] == site then Cxt(was.stack[..|was.stack| - 1], was.concrete) else was
  {
    BoundedIsSuffix(limit, c, ops);
    RunOneMore(limit, c, ops, Match(site));
    hide Run, StackRun, Suffix, Popped, StackApply, Matches, StackMatches;
    MatchOnSuffix(Run(limit, c, ops), StackRun(c.stack, ops), site);
  }

  lemma MatchOnSuffix(was: Cxt, all: seq<CallSite>, site: CallSite)
    requires Suffix(was.stack, all)
    ensures was.stack == [] ==> Matches(was, site) && Popped(was, site) == was
    ensures was.stack != [] ==>
        && all != [] && (Matches(was, site) <==> all[|all| - 1] == site)
        && (StackMatches(all, site) <==> all[|all| - 1] == site)
        && StackApply(all, Match(site)) == (if all[|all| - 1] == site then all[..|all| - 1] else all)
        && Popped(was, site) == if all[|all| - 1] == site then Cxt(was.stack[..|was.stack| - 1], was.concrete) else was
  {
    if was.stack != [] { assert was.stack[|was.stack| - 1] == all[|all| - 1]; }
    hide Suffix;
  }

  lemma RunOneMore(limit: nat, c: Cxt, ops: seq<Op>, op: Op)
    ensures Run(limit, c, ops + [op]) == Apply(limit, Run(limit, c, ops), op)
    ensures StackRun(c.stack, ops + [op]) == StackApply(StackRun(c.stack, ops), op)
  {
    assert (ops + [op])[..|ops|] == ops;
  }

  /** Leaving a callee for where it was entered from always matches and leaves the unbounded stack as it was. So it
      does the bounded context, but for the oldest site when the context was full. */
  lemma PushThenMatch(limit: nat, c: Cxt, ops: seq<Op>, site: CallSite)
    requires |c.stack| <= limit
    ensures var was, all := Run(limit, c, ops).stack, StackRun(c.stack, ops);
      var there := ops + [Push(site)];
      var back := there + [Match(site)];
      && Matches(Run(limit, c, there), site) && StackMatches(StackRun(c.stack, there), site)
      && StackRun(c.stack, back) == all
      && Run(limit, c, back).stack == if |was| < limit || limit == 0 then was else was[1..]
  {
    BoundedIsSuffix(limit, c, ops);
    RunOneMore(limit, c, ops, Push(site));
    RunOneMore(limit, c, ops + [Push(site)], Match(site));
    hide Run, StackRun;
  }

  /** The bounded context accepts every sequence that the unbounded stack accepts. */
  lemma {:induction false} BoundedAcceptsMore(limit: nat, c: Cxt, ops: seq<Op>)
    requires |c.stack| <= limit && StackAccepts(c.stack, ops)
    ensures Accepts(limit, c, ops)
  {
    if ops != [] {
      var most := ops[..|ops| - 1];
      BoundedAcceptsMore(limit, c, most);
      BoundedIsSuffix(limit, c, most);
      SuffixStep(limit, Run(limit, c, most), StackRun(c.stack, most), ops[|ops| - 1]);
    }
  }

  /** The unbounded stack is never longer than the limit. */
  predicate StaysWithin(limit: nat, s: seq<CallSite>, ops: seq<Op>) {
    |StackRun(s, ops)| <= limit && (ops == [] || StaysWithin(limit, s, ops[..|ops| - 1]))
  }

  /** With a limit of at least one, a context is concrete exactly if the stack never outgrew the limit. */
  lemma {:induction false} ConcreteIffWithin(limit: nat, c: Cxt, ops: seq<Op>)
    requires limit >= 1 && |c.stack| <= limit && c.concrete
    ensures Run(limit, c, ops).concrete <==> StaysWithin(limit, c.stack, ops)
    ensures Run(limit, c, ops).concrete ==> Run(limit, c, ops).stack == StackRun(c.stack, ops)
  {
    if ops != [] {
      var most := ops[..|ops| - 1];
      ConcreteIffWithin(limit, c, most);
      BoundedIsSuffix(limit, c, most);
    }
  }

  /** While it is concrete it is the whole stack and accepts nothing more. */
  lemma {:induction false} ConcreteAcceptsSame(limit: nat, c: Cxt, ops: seq<Op>)
    requires limit >= 1 && |c.stack| <= limit && c.concrete && Run(limit, c, ops).concrete
    ensures Accepts(limit, c, ops) <==> StackAccepts(c.stack, ops)
  {
    if ops != [] {
      var most := ops[..|ops| - 1];
      ConcreteIffWithin(limit, c, most);
      assert Run(limit, c, most).concrete;
      ConcreteAcceptsSame(limit, c, most);
    }
  }

  /** With a limit of zero the context stays empty, accepts everything and calls itself concrete all the same. */
  lemma {:induction false} ZeroLimitStaysConcrete(ops: seq<Op>)
    ensures Run(0, Cxt([], true), ops) == Cxt([], true) && Accepts(0, Cxt([], true), ops)
  {
    if ops != [] { ZeroLimitStaysConcrete(ops[..|ops| - 1]); }
  }

  class ContextCond {
    const maximumCxtLen: nat
    var context: seq<CallSite>
    var concreteCxt: bool

    function View(): Cxt reads this { Cxt(context, concreteCxt) }

    constructor (limit: nat)
      ensures maximumCxtLen == limit && View() == Cxt([], true)
    {
      maximumCxtLen := limit;
      context, concreteCxt := [], true;
    }

    method PushContext(ctx: CallSite) returns (fits: bool)
      modifies this
      ensures View() == Pushed(maximumCxtLen, old(View()), ctx) && (fits <==> |old(context)| < maximumCxtLen)
      ensures context == if fits then old(context) + [ctx]
                         else if old(context) == [] then []
                         else old(context)[1..] + [ctx]
    {
      if |context| < maximumCxtLen {
        context := context + [ctx];
        return true;
      }
      if context != [] {
        concreteCxt := false;
        context := context[1..];
        context := context + [ctx];
      }
      return false;
    }

    method MatchContext(ctx: CallSite) returns (matched: bool)
      modifies this
      ensures View() == Popped(old(View()), ctx) && (matched <==> Matches(old(View()), ctx))
    {
      if context == [] { return true; }
      if context[|context| - 1] == ctx {
        context := context[..|context| - 1];
        return true;
      }
      return false;
    }
  }
}
