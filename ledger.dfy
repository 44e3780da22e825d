/** The chain as the liquidity script sees it: EIP-20 allowances and the
    append-only list of transactions the script's signer has issued. Whether a
    transaction reverts, and what a successful deposit does to allowances, are
    decided by the network and the router and are given as an environment. */
module Ledger {

  type Address = string

  /** An allowance entry: how much of `token` the `spender` may move out of
      `owner`'s balance. */
  datatype Key = Key(token: Address, owner: Address, spender: Address)

  type Allowances = map<Key, nat>

  /** An EIP-20 allowance: entries never set read as zero. */
  function AllowanceOf(m: Allowances, k: Key): nat {
    if k in m then m[k] else 0
  }

  /** The transactions the script issues: `token.approve(spender, amount)` and
      the router's `addLiquidity`. */
  datatype Call =
    | Approve(token: Address, spender: Address, amount: nat)
    | AddLiquidity(router: Address, tokenA: Address, tokenB: Address,
                   amountADesired: nat, amountBDesired: nat,
                   amountAMin: nat, amountBMin: nat,
                   to: Address, deadline: nat)

  /** The contract a call is addressed to, or authorises. */
  function Target(c: Call): Address {
    match c
    case Approve(_, spender, _) => spender
    case AddLiquidity(router, _, _, _, _, _, _, _, _) => router
  }

  /** The deposit calls of a trace, in the order they were issued. */
  function Deposits(t: seq<Call>): (d: seq<Call>)
    ensures |d| <= |t|
    ensures forall i :: 0 <= i < |d| ==> d[i].AddLiquidity?
  {
    if t == [] then [] else (if t[0].AddLiquidity? then [t[0]] else []) + Deposits(t[1..])
  }

  lemma {:induction false} DepositsAppend(x: seq<Call>, y: seq<Call>)
    ensures Deposits(x + y) == Deposits(x) + Deposits(y)
  {
    if x == [] {
      assert x + y == y;
    } else {
      assert (x + y)[1..] == x[1..] + y;
      DepositsAppend(x[1..], y);
    }
  }

  lemma DepositsOfApprovals(t: seq<Call>)
    requires forall i :: 0 <= i < |t| ==> t[i].Approve?
    ensures Deposits(t) == []
  {
    if t != [] {
      DepositsOfApprovals(t[1..]);
    }
  }

  datatype State = State(allowances: Allowances, trace: seq<Call>)

  /** What the script cannot see: the signer's address, which transactions
      revert (judged on the chain as it is when the transaction is sent), and
      how a successful deposit changes allowances (the router's own
      `transferFrom`s, about which nothing is assumed). */
  datatype Env = Env(signer: Address, reverts: (State, Call) -> bool, settle: (Allowances, Call) -> Allowances)

  datatype Outcome = Outcome(state: State, ok: bool)

  /** `m'` is `m` with the single entry `k` overwritten by `v`. */
  ghost predicate Overwrites(m: Allowances, m': Allowances, k: Key, v: nat) {
    && AllowanceOf(m', k) == v
    && forall j :: j != k ==> AllowanceOf(m', j) == AllowanceOf(m, j)
  }

  /** Issuing one transaction from the signer and waiting for it. The call is
      recorded whether or not it reverts, and a revert changes no allowance. */
  function Execute(s: State, env: Env, call: Call): (o: Outcome)
    ensures o.state.trace == s.trace + [call]
    ensures o.ok <==> !env.reverts(s, call)
    ensures !o.ok ==> o.state.allowances == s.allowances
  {
    var trace := s.trace + [call];
    if env.reverts(s, call) then Outcome(State(s.allowances, trace), false)
    else match call
      case Approve(token, spender, amount) =>
        Outcome(State(s.allowances[Key(token, env.signer, spender) := amount], trace), true)
      case AddLiquidity(_, _, _, _, _, _, _, _, _) =>
        Outcome(State(env.settle(s.allowances, call), trace), true)
  }

  /** A successful approve overwrites exactly the signer's allowance for the
      spender with the approved amount (EIP-20 `approve`). */
  lemma ApproveOverwrites(s: State, env: Env, token: Address, spender: Address, amount: nat)
    ensures var o := Execute(s, env, Call.Approve(token, spender, amount));
      o.ok ==> Overwrites(s.allowances, o.state.allowances, Key(token, env.signer, spender), amount)
  {
  }

  /** The chain, seen through the script's signer. */
  class Chain {
    const env: Env
    var allowances: Allowances
    var trace: seq<Call>

    constructor (env: Env, allowances: Allowances)
      ensures this.env == env && this.allowances == allowances && trace == []
    {
      this.env := env;
      this.allowances := allowances;
      trace := [];
    }

    function Snapshot(): State
      reads this
    {
      State(allowances, trace)
    }

    /** `token.allowance(owner, spender)`. */
    function Allowance(token: Address, owner: Address, spender: Address): (r: nat)
      reads this
      ensures Key(token, owner, spender) in allowances ==> r == allowances[Key(token, owner, spender)]
      ensures Key(token, owner, spender) !in allowances ==> r == 0
    {
      AllowanceOf(allowances, Key(token, owner, spender))
    }

    /** `token.approve(spender, amount)` followed by `tx.wait()`. */
    method Approve(token: Address, spender: Address, amount: nat) returns (ok: bool)
      modifies this
      ensures Outcome(Snapshot(), ok) == Execute(old(Snapshot()), env, Call.Approve(token, spender, amount))
    {
      var call := Call.Approve(token, spender, amount);
      ok := !env.reverts(Snapshot(), call);
      trace := trace + [call];
      if ok {
        allowances := allowances[Key(token, env.signer, spender) := amount];
      }
    }

    /** `router.addLiquidity(...)` followed by `tx.wait()`. */
    method AddLiquidity(router: Address, tokenA: Address, tokenB: Address,
                        amountADesired: nat, amountBDesired: nat,
                        amountAMin: nat, amountBMin: nat,
                        to: Address, deadline: nat) returns (ok: bool)
      modifies this
      ensures Outcome(Snapshot(), ok) == Execute(old(Snapshot()), env,
        Call.AddLiquidity(router, tokenA, tokenB, amountADesired, amountBDesired, amountAMin, amountBMin, to, deadline))
    {
      var call := Call.AddLiquidity(router, tokenA, tokenB, amountADesired, amountBDesired, amountAMin, amountBMin, to, deadline);
      ok := !env.reverts(Snapshot(), call);
      trace := trace + [call];
      if ok {
        allowances := env.settle(allowances, call);
      }
    }
  }
}
