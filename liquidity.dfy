/** The liquidity-provisioning script: the allowance guard, the deposit step
    `addLiquidity`, and `main`'s fixed four-entry plan over two routers. The
    pure functions say what a run does to the chain; the methods follow the
    script statement by statement and are proved to do exactly that. */
module Liquidity {
  import opened Units
  import opened Ledger

  /** The two router endpoints the script deposits into. */
  datatype Routers = Routers(router0: Address, router1: Address)

  /** The four token contracts `main` works with. */
  datatype Tokens = Tokens(usdc: Address, perivalon: Address, cc01: Address, cc02: Address)

  /** One `addLiquidity(me, a, b, amountA, amountB, isFirst)` call of the plan. */
  datatype Entry = Entry(a: Address, b: Address, amountA: nat, amountB: nat, isFirst: bool)

  /** The result of running a plan: the final chain, how many entries
      completed, and whether all of them did. */
  datatype Run = Run(state: State, completed: nat, ok: bool)

  /** Added to `Date.now()` to form the deposit deadline. */
  const DeadlineOffset: nat := 3600

  /** The router a step deposits into: router0 for the first pair of pools,
      router1 for the second. */
  function RouterFor(routers: Routers, isFirst: bool): (r: Address)
    ensures r == routers.router0 || r == routers.router1
    ensures routers.router0 != routers.router1 ==> (r == routers.router0 <==> isFirst)
  {
    if isFirst then routers.router0 else routers.router1
  }

  /** The calls issued since state `s`. */
  function Issued(s: State, s': State): seq<Call>
    requires |s.trace| <= |s'.trace|
  {
    s'.trace[|s.trace|..]
  }

  lemma IssuedSplit(s: State, s': State, s'': State)
    requires |s.trace| <= |s'.trace| <= |s''.trace|
    requires s'.trace[..|s.trace|] == s.trace && s''.trace[..|s'.trace|] == s'.trace
    ensures Issued(s, s'') == Issued(s, s') + Issued(s', s'')
  {
    var a, b, c := s.trace, s'.trace, s''.trace;
    assert c[|a|..] == c[|a|..|b|] + c[|b|..];
    assert c[|a|..|b|] == b[|a|..];
  }

  /** The approve the guard issues: none when the allowance already covers
      `amount`, otherwise one for exactly `amount`. */
  function ApprovalIfShort(m: Allowances, env: Env, token: Address, spender: Address, amount: nat): seq<Call> {
    if AllowanceOf(m, Key(token, env.signer, spender)) < amount then [Call.Approve(token, spender, amount)] else []
  }

  /** The allowance guard: read the signer's allowance of `token` for
      `spender` and approve exactly `amount` only when it is below. */
  function Guard(s: State, env: Env, token: Address, spender: Address, amount: nat): (o: Outcome)
    ensures o.state.trace == s.trace + ApprovalIfShort(s.allowances, env, token, spender, amount)
    ensures AllowanceOf(s.allowances, Key(token, env.signer, spender)) >= amount ==> o == Outcome(s, true)
    ensures !o.ok ==> o.state.allowances == s.allowances
    ensures o.ok <==> (AllowanceOf(s.allowances, Key(token, env.signer, spender)) >= amount
                      || !env.reverts(s, Call.Approve(token, spender, amount)))
  {
    if AllowanceOf(s.allowances, Key(token, env.signer, spender)) >= amount then Outcome(s, true)
    else Execute(s, env, Call.Approve(token, spender, amount))
  }

  /** What a guard that succeeds leaves behind: the allowance covers the
      amount; when it had to approve, the allowance is exactly the amount and
      no other entry changed; and no allowance anywhere went down. */
  lemma GuardEffect(s: State, env: Env, token: Address, spender: Address, amount: nat)
    ensures var o := Guard(s, env, token, spender, amount);
      var k := Key(token, env.signer, spender);
      && (o.ok ==> AllowanceOf(o.state.allowances, k) >= amount)
      && (o.ok && AllowanceOf(s.allowances, k) < amount ==> Overwrites(s.allowances, o.state.allowances, k, amount))
      && (forall j :: AllowanceOf(o.state.allowances, j) >= AllowanceOf(s.allowances, j))
  {
    ApproveOverwrites(s, env, token, spender, amount);
  }

  /** Both guards of a deposit step, A first. When both succeed the router
      may spend at least the desired amount of each token, whichever the
      tokens are (also when `a` and `b` are the same token). */
  function Guarded(s: State, env: Env, router: Address, e: Entry): (o: Outcome)
    ensures |s.trace| <= |o.state.trace| && o.state.trace[..|s.trace|] == s.trace
    ensures var gA := Guard(s, env, e.a, router, e.amountA);
      && o.state.trace == s.trace + ApprovalIfShort(s.allowances, env, e.a, router, e.amountA)
           + (if gA.ok then ApprovalIfShort(gA.state.allowances, env, e.b, router, e.amountB) else [])
      && (!gA.ok ==> !o.ok && o.state.allowances == s.allowances)
  {
    var g := Guard(s, env, e.a, router, e.amountA);
    if !g.ok then g else Guard(g.state, env, e.b, router, e.amountB)
  }

  /** The guards issue only approvals, each authorising the router. */
  lemma GuardedApprovesRouter(s: State, env: Env, router: Address, e: Entry)
    ensures var o := Guarded(s, env, router, e);
      forall c :: c in Issued(s, o.state) ==> c.Approve? && Target(c) == router
  {
  }

  lemma GuardedIssuesNoDeposit(s: State, env: Env, router: Address, e: Entry)
    ensures var o := Guarded(s, env, router, e);
      Deposits(Issued(s, o.state)) == []
  {
    GuardedApprovesRouter(s, env, router, e);
    DepositsOfApprovals(Issued(s, Guarded(s, env, router, e).state));
  }

  /** At deposit time, i.e. once both guards succeeded, the router may spend at
      least the desired amount of each token, whichever the tokens are (also
      when `a` and `b` are the same token, where B's approve overwrites A's). */
  lemma GuardedCovers(s: State, env: Env, router: Address, e: Entry)
    ensures var o := Guarded(s, env, router, e);
      && (o.ok ==> AllowanceOf(o.state.allowances, Key(e.a, env.signer, router)) >= e.amountA)
      && (o.ok ==> AllowanceOf(o.state.allowances, Key(e.b, env.signer, router)) >= e.amountB)
  {
    var g := Guard(s, env, e.a, router, e.amountA);
    GuardEffect(s, env, e.a, router, e.amountA);
    if g.ok {
      GuardEffect(g.state, env, e.b, router, e.amountB);
    }
  }

  /** The router's `addLiquidity` call of a step: minimum amounts equal to the
      desired ones, the signer as recipient, deadline `now + 3600`. */
  function DepositCall(env: Env, router: Address, e: Entry, now: nat): (c: Call)
    ensures c.AddLiquidity? && Target(c) == router
    ensures c.tokenA == e.a && c.tokenB == e.b
    ensures c.amountAMin == c.amountADesired == e.amountA
    ensures c.amountBMin == c.amountBDesired == e.amountB
    ensures c.to == env.signer && c.deadline == now + 3600
  {
    Call.AddLiquidity(router, e.a, e.b, e.amountA, e.amountB, e.amountA, e.amountB, env.signer, now + DeadlineOffset)
  }

  /** The deposit step `addLiquidity(me, a, b, amountA, amountB, isFirst)` at
      clock reading `now`; it stops at the first reverted transaction. */
  function Deposit(s: State, env: Env, routers: Routers, e: Entry, now: nat): (o: Outcome)
    ensures |s.trace| <= |o.state.trace| && o.state.trace[..|s.trace|] == s.trace
  {
    var router := RouterFor(routers, e.isFirst);
    var g := Guarded(s, env, router, e);
    if !g.ok then g else Execute(g.state, env, DepositCall(env, router, e, now))
  }

  /** Every call of a step (allowance approvals and the deposit) is addressed
      to, or authorises, the one router chosen by `isFirst`. */
  lemma StepUsesOneRouter(s: State, env: Env, routers: Routers, e: Entry, now: nat)
    ensures var o := Deposit(s, env, routers, e, now);
      forall c :: c in Issued(s, o.state) ==>
        Target(c) == if e.isFirst then routers.router0 else routers.router1
  {
    var router := RouterFor(routers, e.isFirst);
    var g := Guarded(s, env, router, e);
    var o := Deposit(s, env, routers, e, now);
    GuardedApprovesRouter(s, env, router, e);
    if g.ok {
      var call := DepositCall(env, router, e, now);
      assert Issued(s, o.state) == Issued(s, g.state) + [call];
      forall c | c in Issued(s, o.state)
        ensures Target(c) == router
      {
        if c !in Issued(s, g.state) {
          assert c == call;
        }
      }
    }
  }

  /** The calls of a step, in this order, whatever its outcome: at most one
      approve of token A (for exactly its amount, only if the allowance read
      just before was short); B's allowance is read, and approved if short,
      only after A's guard succeeded; the deposit is sent only after both
      guards succeeded. A step that succeeds therefore issues A's optional
      approve, B's optional approve, then the deposit with zero slippage, the
      signer as recipient and deadline `now + 3600`. */
  lemma StepCalls(s: State, env: Env, routers: Routers, e: Entry, now: nat)
    ensures var router := RouterFor(routers, e.isFirst);
      var gA := Guard(s, env, e.a, router, e.amountA);
      var g := Guarded(s, env, router, e);
      var o := Deposit(s, env, routers, e, now);
      && Issued(s, o.state) ==
           ApprovalIfShort(s.allowances, env, e.a, router, e.amountA)
           + (if gA.ok then ApprovalIfShort(gA.state.allowances, env, e.b, router, e.amountB) else [])
           + (if g.ok then [DepositCall(env, router, e, now)] else [])
      && (o.ok ==> (Issued(s, o.state) ==
           ApprovalIfShort(s.allowances, env, e.a, router, e.amountA)
           + ApprovalIfShort(gA.state.allowances, env, e.b, router, e.amountB)
           + [Call.AddLiquidity(router, e.a, e.b, e.amountA, e.amountB, e.amountA, e.amountB, env.signer, now + 3600)]))
  {
    var router := RouterFor(routers, e.isFirst);
    var gA := Guard(s, env, e.a, router, e.amountA);
    var g := Guarded(s, env, router, e);
    var o := Deposit(s, env, routers, e, now);
    var a := ApprovalIfShort(s.allowances, env, e.a, router, e.amountA);
    var b := if gA.ok then ApprovalIfShort(gA.state.allowances, env, e.b, router, e.amountB) else [];
    assert Issued(s, g.state) == a + b;
    if g.ok {
      assert o.state.trace == g.state.trace + [DepositCall(env, router, e, now)];
      assert Issued(s, o.state) == a + b + [DepositCall(env, router, e, now)];
    } else {
      assert Issued(s, o.state) == a + b + [];
    }
  }

  /** A reverted transaction fails the step it belongs to, and only a
      reverted transaction does: A's guard fails exactly when its approve was
      needed and reverted, B's guard runs only after A's and fails in the same
      way, and the step fails exactly when a guard failed or the deposit
      reverted. */
  lemma StepFailsOnRevert(s: State, env: Env, routers: Routers, e: Entry, now: nat)
    ensures var router := RouterFor(routers, e.isFirst);
      var gA := Guard(s, env, e.a, router, e.amountA);
      var g := Guarded(s, env, router, e);
      var o := Deposit(s, env, routers, e, now);
      && (gA.ok <==> (AllowanceOf(s.allowances, Key(e.a, env.signer, router)) >= e.amountA
                      || !env.reverts(s, Call.Approve(e.a, router, e.amountA))))
      && (g.ok <==> gA.ok && (AllowanceOf(gA.state.allowances, Key(e.b, env.signer, router)) >= e.amountB
                              || !env.reverts(gA.state, Call.Approve(e.b, router, e.amountB))))
      && (o.ok <==> g.ok && !env.reverts(g.state, DepositCall(env, router, e, now)))
  {
  }

  /** A step issues its deposit call exactly once when both guards
      succeeded, also when the deposit itself then reverts. When a guard's
      approve reverts the step ends there: the router is never called and the
      step's outcome is that of the guards. */
  lemma StepDeposits(s: State, env: Env, routers: Routers, e: Entry, now: nat)
    ensures var g := Guarded(s, env, RouterFor(routers, e.isFirst), e);
      var o := Deposit(s, env, routers, e, now);
      var d := Deposits(Issued(s, o.state));
      var call := DepositCall(env, RouterFor(routers, e.isFirst), e, now);
      && (o.ok ==> d == [call])
      && (g.ok ==> d == [call])
      && (!g.ok ==> o == g && d == [])
  {
    var router := RouterFor(routers, e.isFirst);
    var g := Guarded(s, env, router, e);
    GuardedIssuesNoDeposit(s, env, router, e);
    if g.ok {
      DepositAfterPassedGuards(s, env, routers, e, now);
    }
  }

  lemma DepositAfterPassedGuards(s: State, env: Env, routers: Routers, e: Entry, now: nat)
    requires Guarded(s, env, RouterFor(routers, e.isFirst), e).ok
    requires Deposits(Issued(s, Guarded(s, env, RouterFor(routers, e.isFirst), e).state)) == []
    ensures Deposits(Issued(s, Deposit(s, env, routers, e, now).state))
         == [DepositCall(env, RouterFor(routers, e.isFirst), e, now)]
  {
    var router := RouterFor(routers, e.isFirst);
    var g := Guarded(s, env, router, e);
    var o := Deposit(s, env, routers, e, now);
    var call := DepositCall(env, router, e, now);
    assert Issued(s, o.state) == Issued(s, g.state) + [call];
    DepositsAppend(Issued(s, g.state), [call]);
    assert Deposits([call]) == [call];
  }

  /** What a run needs of one step: one deposit call on success, at most
      that one on failure. */
  lemma StepDepositsAtMostOne(s: State, env: Env, routers: Routers, e: Entry, now: nat)
    ensures var o := Deposit(s, env, routers, e, now);
      var d := Deposits(Issued(s, o.state));
      var call := DepositCall(env, RouterFor(routers, e.isFirst), e, now);
      && (o.ok ==> d == [call])
      && (d == [] || d == [call])
  {
    StepDeposits(s, env, routers, e, now);
  }

  /** A step that reaches the router has passed both guards, so at the moment
      the deposit is sent the router may spend at least amountA of token A and
      at least amountB of token B. */
  lemma DepositOnlyAfterGuards(s: State, env: Env, routers: Routers, e: Entry, now: nat)
    ensures var router := RouterFor(routers, e.isFirst);
      var g := Guarded(s, env, router, e);
      var o := Deposit(s, env, routers, e, now);
      Deposits(Issued(s, o.state)) != [] ==>
        && g.ok
        && AllowanceOf(g.state.allowances, Key(e.a, env.signer, router)) >= e.amountA
        && AllowanceOf(g.state.allowances, Key(e.b, env.signer, router)) >= e.amountB
  {
    var router := RouterFor(routers, e.isFirst);
    GuardedIssuesNoDeposit(s, env, router, e);
    GuardedCovers(s, env, router, e);
  }

  /** Against a network on which nothing reverts, every step succeeds. */
  lemma StepSucceedsWithoutReverts(s: State, env: Env, routers: Routers, e: Entry, now: nat)
    requires forall st, c :: !env.reverts(st, c)
    ensures Deposit(s, env, routers, e, now).ok
  {
  }

  /** First run: neither allowance is set and nothing reverts, so the step
      issues two approvals for exactly the two amounts and then the deposit. */
  lemma FreshStepApprovesBoth(s: State, env: Env, routers: Routers, e: Entry, now: nat)
    requires forall st, c :: !env.reverts(st, c)
    requires e.a != e.b && e.amountA > 0 && e.amountB > 0
    requires AllowanceOf(s.allowances, Key(e.a, env.signer, RouterFor(routers, e.isFirst))) == 0
    requires AllowanceOf(s.allowances, Key(e.b, env.signer, RouterFor(routers, e.isFirst))) == 0
    ensures var router := RouterFor(routers, e.isFirst);
      var o := Deposit(s, env, routers, e, now);
      o.ok && Issued(s, o.state) ==
        [Call.Approve(e.a, router, e.amountA), Call.Approve(e.b, router, e.amountB), DepositCall(env, router, e, now)]
  {
    var router := RouterFor(routers, e.isFirst);
    var g := Guard(s, env, e.a, router, e.amountA);
    assert AllowanceOf(g.state.allowances, Key(e.b, env.signer, router)) == 0;
    StepCalls(s, env, routers, e, now);
  }

  /** Re-run: when both allowances already cover the amounts, the step issues
      no approval and only the deposit call. */
  lemma CoveredStepSkipsApprovals(s: State, env: Env, routers: Routers, e: Entry, now: nat)
    requires AllowanceOf(s.allowances, Key(e.a, env.signer, RouterFor(routers, e.isFirst))) >= e.amountA
    requires AllowanceOf(s.allowances, Key(e.b, env.signer, RouterFor(routers, e.isFirst))) >= e.amountB
    ensures var o := Deposit(s, env, routers, e, now);
      Issued(s, o.state) == [DepositCall(env, RouterFor(routers, e.isFirst), e, now)]
  {
  }

  /** `main`'s plan, in the order the script awaits its entries: USDC and
      then PERIVALON paired with CC01 on router0, then the same two paired
      with CC02 on router1, every amount positive. */
  function Plan(t: Tokens): (p: seq<Entry>)
    ensures |p| == 4
    ensures forall i :: 0 <= i < |p| ==> (p[i].isFirst <==> i < 2)
    ensures forall i :: 0 <= i < |p| ==> p[i].a == (if i % 2 == 0 then t.usdc else t.perivalon)
    ensures forall i :: 0 <= i < |p| ==> p[i].b == (if i < 2 then t.cc01 else t.cc02)
    ensures forall i :: 0 <= i < |p| ==> p[i].amountA > 0 && p[i].amountB > 0
  {
    var usdcAmount := Scale(40000000, UsdcDecimals);
    var cc01Amount := Scale(20000000, DefaultDecimals);
    var pAmount := Scale(5000000, PerivalonDecimals);
    var cc02Amount := Scale(20000000, DefaultDecimals);
    var p2Amount := Scale(4000000, PerivalonDecimals);
    var cc202Amount := Scale(10000000, DefaultDecimals);
    [ Entry(t.usdc, t.cc01, usdcAmount, cc01Amount, true),
      Entry(t.perivalon, t.cc01, pAmount, cc01Amount, true),
      Entry(t.usdc, t.cc02, usdcAmount, cc02Amount, false),
      Entry(t.perivalon, t.cc02, p2Amount, cc202Amount, false) ]
  }

  /** The plan's entries, their routers and their exact base-unit amounts,
      all strictly positive and representable as uint256. */
  lemma PlanEntries(t: Tokens)
    ensures Plan(t) == [
      Entry(t.usdc, t.cc01, 40_000_000_000_000, 20_000_000_000_000_000_000_000_000, true),
      Entry(t.perivalon, t.cc01, 5_000_000_000_000_000, 20_000_000_000_000_000_000_000_000, true),
      Entry(t.usdc, t.cc02, 40_000_000_000_000, 20_000_000_000_000_000_000_000_000, false),
      Entry(t.perivalon, t.cc02, 4_000_000_000_000_000, 10_000_000_000_000_000_000_000_000, false) ]
    ensures forall i :: 0 <= i < |Plan(t)| ==>
      0 < Plan(t)[i].amountA < Uint256Limit && 0 < Plan(t)[i].amountB < Uint256Limit
  {
    ScriptAmounts();
  }

  /** Runs the plan from entry `i` on: each entry starts only after the
      previous one completed, and the first failure ends the run. */
  function RunPlan(s: State, env: Env, routers: Routers, plan: seq<Entry>, clock: nat -> nat, i: nat): (r: Run)
    requires i <= |plan|
    ensures |s.trace| <= |r.state.trace| && r.state.trace[..|s.trace|] == s.trace
    ensures i <= r.completed <= |plan|
    ensures r.ok <==> r.completed == |plan|
    decreases |plan| - i
  {
    if i == |plan| then Run(s, i, true)
    else
      var o := Deposit(s, env, routers, plan[i], clock(i));
      if !o.ok then Run(o.state, i, false)
      else RunPlan(o.state, env, routers, plan, clock, i + 1)
  }

  /** One entry of a run: a failure ends it, a success goes on with the next. */
  lemma RunPlanStep(s: State, env: Env, routers: Routers, plan: seq<Entry>, clock: nat -> nat, i: nat)
    requires i < |plan|
    ensures var o := Deposit(s, env, routers, plan[i], clock(i));
      RunPlan(s, env, routers, plan, clock, i)
        == if o.ok then RunPlan(o.state, env, routers, plan, clock, i + 1) else Run(o.state, i, false)
  {
  }

  /** The deposit calls of entries `i` up to `j`, as each would issue it. */
  function ExpectedDeposits(env: Env, routers: Routers, plan: seq<Entry>, clock: nat -> nat, i: nat, j: nat): (d: seq<Call>)
    requires i <= j <= |plan|
    ensures |d| == j - i
    decreases j - i
  {
    if i == j then []
    else [DepositCall(env, RouterFor(routers, plan[i].isFirst), plan[i], clock(i))]
         + ExpectedDeposits(env, routers, plan, clock, i + 1, j)
  }

  /** The deposits a run issues: those of the completed entries, in plan
      order, or those followed by exactly one more, the failing entry's own
      reverted deposit; a run that completes issues exactly one per entry. */
  lemma {:induction false} RunPlanDeposits(s: State, env: Env, routers: Routers, plan: seq<Entry>, clock: nat -> nat, i: nat)
    requires i <= |plan|
    ensures var r := RunPlan(s, env, routers, plan, clock, i);
      var d := Deposits(Issued(s, r.state));
      var k := r.completed;
      && (|| d == ExpectedDeposits(env, routers, plan, clock, i, k)
          || (k < |plan| && d == ExpectedDeposits(env, routers, plan, clock, i, k)
                               + [DepositCall(env, RouterFor(routers, plan[k].isFirst), plan[k], clock(k))]))
      && (r.ok ==> d == ExpectedDeposits(env, routers, plan, clock, i, |plan|))
    decreases |plan| - i
  {
    var r := RunPlan(s, env, routers, plan, clock, i);
    if i == |plan| {
      assert Issued(s, r.state) == [];
    } else {
      var o := Deposit(s, env, routers, plan[i], clock(i));
      var call := DepositCall(env, RouterFor(routers, plan[i].isFirst), plan[i], clock(i));
      RunPlanFirstDeposit(s, env, routers, plan, clock, i);
      if o.ok {
        RunPlanDeposits(o.state, env, routers, plan, clock, i + 1);
        assert ExpectedDeposits(env, routers, plan, clock, i, r.completed)
            == [call] + ExpectedDeposits(env, routers, plan, clock, i + 1, r.completed);
        if r.completed < |plan| {
          var last := DepositCall(env, RouterFor(routers, plan[r.completed].isFirst), plan[r.completed], clock(r.completed));
          PrependDeposit(call, ExpectedDeposits(env, routers, plan, clock, i + 1, r.completed), last);
        }
      } else {
        assert ExpectedDeposits(env, routers, plan, clock, i, i) == [];
      }
    }
  }

  /** The first entry of a run: its deposit, if any, heads the run's deposits;
      on success the rest is the run from the next entry, on failure the run
      ends with it. */
  lemma RunPlanFirstDeposit(s: State, env: Env, routers: Routers, plan: seq<Entry>, clock: nat -> nat, i: nat)
    requires i < |plan|
    ensures var o := Deposit(s, env, routers, plan[i], clock(i));
      var r := RunPlan(s, env, routers, plan, clock, i);
      var call := DepositCall(env, RouterFor(routers, plan[i].isFirst), plan[i], clock(i));
      && (o.ok ==> r == RunPlan(o.state, env, routers, plan, clock, i + 1)
                   && Deposits(Issued(s, r.state)) == [call] + Deposits(Issued(o.state, r.state)))
      && (!o.ok ==> r == Run(o.state, i, false)
                    && (Deposits(Issued(s, r.state)) == [] || Deposits(Issued(s, r.state)) == [call]))
  {
    var o := Deposit(s, env, routers, plan[i], clock(i));
    var r := RunPlan(s, env, routers, plan, clock, i);
    StepDepositsAtMostOne(s, env, routers, plan[i], clock(i));
    if o.ok {
      IssuedSplit(s, o.state, r.state);
      DepositsAppend(Issued(s, o.state), Issued(o.state, r.state));
    }
  }

  lemma PrependDeposit(call: Call, rest: seq<Call>, last: Call)
    ensures [call] + (rest + [last]) == ([call] + rest) + [last]
  {
  }

  /** Against a network on which nothing reverts, the whole plan completes. */
  lemma {:induction false} RunPlanCompletes(s: State, env: Env, routers: Routers, plan: seq<Entry>, clock: nat -> nat, i: nat)
    requires i <= |plan|
    requires forall st, c :: !env.reverts(st, c)
    ensures RunPlan(s, env, routers, plan, clock, i).ok
    decreases |plan| - i
  {
    if i < |plan| {
      var o := Deposit(s, env, routers, plan[i], clock(i));
      StepSucceedsWithoutReverts(s, env, routers, plan[i], clock(i));
      RunPlanCompletes(o.state, env, routers, plan, clock, i + 1);
    }
  }

  /** Entries after the failing one are never started: any plan that agrees
      with `plan` up to and including the failing entry runs identically. */
  lemma {:induction false} RunPlanIgnoresLaterEntries(s: State, env: Env, routers: Routers,
                                                     plan: seq<Entry>, other: seq<Entry>, clock: nat -> nat, i: nat)
    requires i <= |plan| && i <= |other|
    requires var r := RunPlan(s, env, routers, plan, clock, i);
      && !r.ok
      && r.completed < |other|
      && forall j :: i <= j <= r.completed ==> plan[j] == other[j]
    ensures RunPlan(s, env, routers, other, clock, i) == RunPlan(s, env, routers, plan, clock, i)
    decreases |plan| - i
  {
    var o := Deposit(s, env, routers, plan[i], clock(i));
    if o.ok {
      RunPlanIgnoresLaterEntries(o.state, env, routers, plan, other, clock, i + 1);
    }
  }

  /** A failing run equals the run of the plan cut just after the failing
      entry: nothing of a later entry reaches the chain, and (by RunPlan's
      own contract) the calls issued before the run stay in the trace. */
  lemma RunPlanStopsAtFailure(s: State, env: Env, routers: Routers, plan: seq<Entry>, clock: nat -> nat)
    requires !RunPlan(s, env, routers, plan, clock, 0).ok
    ensures var k := RunPlan(s, env, routers, plan, clock, 0).completed;
      k < |plan| && RunPlan(s, env, routers, plan[..k + 1], clock, 0) == RunPlan(s, env, routers, plan, clock, 0)
  {
    RunPlanIgnoresLaterEntries(s, env, routers, plan, plan[..RunPlan(s, env, routers, plan, clock, 0).completed + 1], clock, 0);
  }

  /** With nothing reverting, `main` issues exactly four deposits, in this
      order: USDC/CC01 and PERIVALON/CC01 on router0, then USDC/CC02 and
      PERIVALON/CC02 on router1, each with the clock reading of its entry. */
  lemma MainDepositOrder(s: State, env: Env, routers: Routers, t: Tokens, clock: nat -> nat)
    requires forall st, c :: !env.reverts(st, c)
    ensures var r := RunPlan(s, env, routers, Plan(t), clock, 0);
      var r0, r1, me := routers.router0, routers.router1, env.signer;
      var usdc, cc01, cc02 := 40_000_000_000_000, 20_000_000_000_000_000_000_000_000, 20_000_000_000_000_000_000_000_000;
      var p, p2, cc202 := 5_000_000_000_000_000, 4_000_000_000_000_000, 10_000_000_000_000_000_000_000_000;
      && r.ok
      && Deposits(Issued(s, r.state)) == [
        Call.AddLiquidity(r0, t.usdc, t.cc01, usdc, cc01, usdc, cc01, me, clock(0) + 3600),
        Call.AddLiquidity(r0, t.perivalon, t.cc01, p, cc01, p, cc01, me, clock(1) + 3600),
        Call.AddLiquidity(r1, t.usdc, t.cc02, usdc, cc02, usdc, cc02, me, clock(2) + 3600),
        Call.AddLiquidity(r1, t.perivalon, t.cc02, p2, cc202, p2, cc202, me, clock(3) + 3600) ]
  {
    RunPlanCompletes(s, env, routers, Plan(t), clock, 0);
    RunPlanDeposits(s, env, routers, Plan(t), clock, 0);
    PlanDeposits(env, routers, t, clock);
  }

  /** The deposit calls of `main`'s four entries, written out. */
  lemma PlanDeposits(env: Env, routers: Routers, t: Tokens, clock: nat -> nat)
    ensures var r0, r1, me := routers.router0, routers.router1, env.signer;
      var usdc, cc01, cc02 := 40_000_000_000_000, 20_000_000_000_000_000_000_000_000, 20_000_000_000_000_000_000_000_000;
      var p, p2, cc202 := 5_000_000_000_000_000, 4_000_000_000_000_000, 10_000_000_000_000_000_000_000_000;
      ExpectedDeposits(env, routers, Plan(t), clock, 0, |Plan(t)|) == [
        Call.AddLiquidity(r0, t.usdc, t.cc01, usdc, cc01, usdc, cc01, me, clock(0) + 3600),
        Call.AddLiquidity(r0, t.perivalon, t.cc01, p, cc01, p, cc01, me, clock(1) + 3600),
        Call.AddLiquidity(r1, t.usdc, t.cc02, usdc, cc02, usdc, cc02, me, clock(2) + 3600),
        Call.AddLiquidity(r1, t.perivalon, t.cc02, p2, cc202, p2, cc202, me, clock(3) + 3600) ]
  {
    var plan := Plan(t);
    PlanEntries(t);
    assert ExpectedDeposits(env, routers, plan, clock, 4, 4) == [];
  }

  /** `addLiquidity(me, a, b, amountA, amountB, isFirst)`, with `me` the
      chain's signer and `now` the reading of `Date.now()`. */
  method AddLiquidity(chain: Chain, a: Address, b: Address, amountA: nat, amountB: nat,
                      isFirst: bool, routers: Routers, now: nat) returns (ok: bool)
    modifies chain
    ensures Outcome(chain.Snapshot(), ok)
         == Deposit(old(chain.Snapshot()), chain.env, routers, Entry(a, b, amountA, amountB, isFirst), now)
  {
    ghost var s := chain.Snapshot();
    ghost var e := Entry(a, b, amountA, amountB, isFirst);
    var me := chain.env.signer;
    var routerAddress := RouterFor(routers, isFirst);
    var aAllowance := chain.Allowance(a, me, routerAddress);
    if aAllowance < amountA {
      ok := chain.Approve(a, routerAddress, amountA);
      if !ok {
        return;
      }
    }
    ghost var g := chain.Snapshot();
    assert Guard(s, chain.env, a, routerAddress, amountA) == Outcome(g, true);
    var bAllowance := chain.Allowance(b, me, routerAddress);
    if bAllowance < amountB {
      ok := chain.Approve(b, routerAddress, amountB);
      if !ok {
        return;
      }
    }
    assert Guarded(s, chain.env, routerAddress, e) == Outcome(chain.Snapshot(), true);
    ok := chain.AddLiquidity(routerAddress, a, b, amountA, amountB, amountA, amountB, me, now + DeadlineOffset);
  }

  /** `main`: the four entries of the plan, each awaited before the next, the
      first failure ending the run. `clock(i)` is the `Date.now()` reading
      taken by entry `i`. */
  method RunMain(chain: Chain, tokens: Tokens, routers: Routers, clock: nat -> nat) returns (ok: bool)
    modifies chain
    ensures var r := RunPlan(old(chain.Snapshot()), chain.env, routers, Plan(tokens), clock, 0);
      chain.Snapshot() == r.state && ok == r.ok
  {
    ghost var plan := Plan(tokens);
    ghost var env := chain.env;
    ghost var s := chain.Snapshot();

    var usdcAmount := Scale(40000000, UsdcDecimals);
    var cc01Amount := Scale(20000000, DefaultDecimals);
    ok := AddLiquidity(chain, tokens.usdc, tokens.cc01, usdcAmount, cc01Amount, true, routers, clock(0));
    RunPlanStep(s, env, routers, plan, clock, 0);
    if !ok {
      return;
    }

    s := chain.Snapshot();
    var pAmount := Scale(5000000, PerivalonDecimals);
    ok := AddLiquidity(chain, tokens.perivalon, tokens.cc01, pAmount, cc01Amount, true, routers, clock(1));
    RunPlanStep(s, env, routers, plan, clock, 1);
    if !ok {
      return;
    }

    s := chain.Snapshot();
    var cc02Amount := Scale(20000000, DefaultDecimals);
    ok := AddLiquidity(chain, tokens.usdc, tokens.cc02, usdcAmount, cc02Amount, false, routers, clock(2));
    RunPlanStep(s, env, routers, plan, clock, 2);
    if !ok {
      return;
    }

    s := chain.Snapshot();
    var p2Amount := Scale(4000000, PerivalonDecimals);
    var cc202Amount := Scale(10000000, DefaultDecimals);
    ok := AddLiquidity(chain, tokens.perivalon, tokens.cc02, p2Amount, cc202Amount, false, routers, clock(3));
    RunPlanStep(s, env, routers, plan, clock, 3);
  }
}
