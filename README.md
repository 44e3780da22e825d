# Liquidity provisioning script, modelled in Dafny

This project models `scripts/add-liquidity.ts` of the arbitrage-contracts
repository. The script seeds AMM pools by depositing token pairs into two
routers. The model has three parts, one module each:

- `Units` (units.dfy) covers base-unit scaling. `Scale(n, d)` is `n · 10^d`,
  the value `ethers.utils.parseUnits` gives for a whole number. `ParseUnits` is
  the string form of the same thing. Its default precision is 18, as in ethers.
  The script's precisions are 6 for USDC, 9 for PERIVALON and the default 18
  for CC01 and CC02.
- `Ledger` (ledger.dfy) is the chain as the script's signer sees it. It holds
  the EIP-20 allowance map `(token, owner, spender) → nat` and the append-only
  trace of issued calls (`Approve` and `AddLiquidity`). The environment `Env`
  supplies what the script cannot see:
  - the signer's address (`me`);
  - which transactions revert, judged on the chain's state when each one is
    sent, so the same call can succeed once and revert later;
  - how a successful deposit changes allowances. This is the router's own
    `transferFrom`s. It is an arbitrary function, so nothing is assumed about it.

  A transaction is recorded in the trace whether or not it reverts. A reverted
  transaction changes no allowance. A successful approve overwrites exactly one
  entry. The class `Chain` holds this state. Its methods `Approve` and
  `AddLiquidity` are proved to compute `Execute` on that state.
- `Liquidity` (liquidity.dfy) models the script itself. `Guard` is one
  allowance check, plus an approve for exactly the amount when the allowance
  is short. `Guarded` runs the two guards, A then B. `Deposit` is the whole
  `addLiquidity` step. `Plan` is `main`'s four entries, and `RunPlan` runs a
  plan and stops at the first failure. The methods `AddLiquidity` and `RunMain` (for `main`)
  follow the script statement by statement. They are proved to change the
  chain exactly as `Deposit` and `RunPlan` say. The lemmas then state what the
  script promises about those functions.

The two routers and the four token addresses are parameters (`Routers`,
`Tokens`). `Date.now()` becomes a clock: `now` for one step, and
`clock(i)` for entry `i` of the plan.

The script approves exactly the amount it needs, never the maximum. The model
keeps that policy. The script computes the deadline as `Date.now() + 3600`,
where `Date.now()` is in milliseconds. The model keeps the script's arithmetic (`now + 3600`) and
does not convert units.

## Model

| member | source | states |
|---|---|---|
| Units.Pow10 | scripts/add-liquidity.ts:76-77 | 10^d is at least 1, and at least 10 for d > 0. |
| Units.Scale | scripts/add-liquidity.ts:76-99 | A whole-number amount in base units divides exactly by 10^decimals, and dividing gives the whole number back. It is positive if and only if the whole number is. |
| Units.ParseUnits | scripts/add-liquidity.ts:76-99 | A string parses if and only if it is a non-empty run of digits. The result divides exactly by 10^decimals, and the quotient is the number the digits spell. The default precision is 18. |
| Units.ParseUnitsOfDigits | scripts/add-liquidity.ts:76-99 | Parsing the decimal rendering of any n at any precision gives n · 10^decimals (a round trip between the string and number forms). |
| Units.DecimalValueOfDigits | scripts/add-liquidity.ts:76-99 | Reading back the decimal rendering of n gives n. |
| Units.ScriptLiterals | scripts/add-liquidity.ts:76-99 | Each of the five literals "40000000" (6 decimals), "20000000" (default), "5000000" (9), "4000000" (9) and "10000000" (default) parses to that whole number scaled by its precision. |
| Units.ScriptAmounts | scripts/add-liquidity.ts:76-99 | The exact base-unit values: 40000000·10^6, 20000000·10^18, 5000000·10^9, 4000000·10^9 and 10000000·10^18, written out as integers. |
| Ledger.Chain.Allowance | scripts/add-liquidity.ts:28-35 | `allowance(owner, spender)` reads the recorded entry, and an entry never set reads as zero. |
| Ledger.Execute | scripts/add-liquidity.ts:32-33 | A sent and awaited transaction is appended to the trace. It succeeds if and only if the network does not revert it, and a revert leaves every allowance as it was. |
| Ledger.ApproveOverwrites | scripts/add-liquidity.ts:32 | A successful `approve(spender, amount)` sets the signer's allowance for that spender to exactly `amount` and changes no other entry (EIP-20 overwrite). |
| Ledger.Chain.Approve | scripts/add-liquidity.ts:32-33 | The method changes the chain's allowances and trace exactly as `Execute` of that approve does, and returns whether it succeeded. |
| Ledger.Chain.AddLiquidity | scripts/add-liquidity.ts:44-54 | The method changes the chain exactly as `Execute` of that deposit call does, and returns whether it succeeded. |
| Liquidity.RouterFor | scripts/add-liquidity.ts:27 | The step's router is one of the two routers, and when they differ it is router0 exactly when `isFirst` holds. |
| Liquidity.Guard | scripts/add-liquidity.ts:28-34 | The guard adds no call and changes nothing when the allowance is at least the amount. Otherwise it adds exactly one approve, for exactly that amount. It fails if and only if that approve was needed and reverted, and a failed guard changes no allowance. |
| Liquidity.GuardEffect | scripts/add-liquidity.ts:28-34 | After a successful guard the allowance is at least the amount. If the guard approved, the allowance equals the amount and no other entry changed. A guard never lowers any allowance. |
| Liquidity.Guarded | scripts/add-liquidity.ts:28-41 | The two guards only append to the trace: A's optional approve, then B's optional approve only if A's guard succeeded. When A's guard fails, which by Guard's contract is exactly when A's needed approve reverted, B's allowance is never read or approved, the guards fail and no allowance changes. |
| Liquidity.GuardedApprovesRouter | scripts/add-liquidity.ts:27-41 | Every call the two guards issue is an approve naming the step's router. |
| Liquidity.GuardedCovers | scripts/add-liquidity.ts:28-44 | When both guards succeed, that is, at deposit time, the router's allowance is at least amountA on token A and at least amountB on token B. This also holds when A and B are the same token. |
| Liquidity.Deposit | scripts/add-liquidity.ts:19-55 | A deposit step only appends to the trace, so earlier calls stay. |
| Liquidity.DepositCall | scripts/add-liquidity.ts:44-53 | The deposit is an `addLiquidity` to the step's router for tokens (a, b), with minimum amounts equal to the desired amountA and amountB, the signer as recipient and deadline now + 3600. |
| Liquidity.StepUsesOneRouter | scripts/add-liquidity.ts:27-44 | Every call of a step is addressed to, or authorises, router0 when `isFirst` holds and router1 otherwise. |
| Liquidity.StepCalls | scripts/add-liquidity.ts:28-54 | Whatever its outcome, a step issues A's optional approve, then B's optional approve only if A's guard succeeded, then the deposit only if both guards succeeded. With StepFailsOnRevert (a guard fails exactly when its needed approve reverts), the first reverted approve ends the step. A successful step issues A's optional approve, then B's, then one `addLiquidity` with tokens (a, b), desired = minimum = (amountA, amountB), recipient = the signer and deadline = now + 3600. |
| Liquidity.StepFailsOnRevert | scripts/add-liquidity.ts:28-54 | A's guard fails if and only if its approve was needed and reverted; B's guard succeeds if and only if A's did and B's approve was not needed or did not revert; the step succeeds if and only if both guards did and the deposit did not revert. So a revert of any of the step's transactions fails the step. |
| Liquidity.StepDeposits | scripts/add-liquidity.ts:28-54 | A step issues its deposit call exactly once when both guards succeed, also when that deposit then reverts. When a guard fails, which by StepFailsOnRevert is exactly when its needed approve reverted, the step ends with the guards' outcome and issues no deposit. |
| Liquidity.DepositOnlyAfterGuards | scripts/add-liquidity.ts:28-54 | A step that issues a deposit has passed both guards, and on the state the deposit is sent from the router's allowance is at least amountA on token A and at least amountB on token B. |
| Liquidity.StepSucceedsWithoutReverts | scripts/add-liquidity.ts:19-55 | If nothing reverts, every step succeeds. |
| Liquidity.FreshStepApprovesBoth | scripts/add-liquidity.ts:28-53 | With both allowances at zero, distinct tokens and no reverts, a step issues exactly: approve A for amountA, approve B for amountB, then the deposit. |
| Liquidity.CoveredStepSkipsApprovals | scripts/add-liquidity.ts:28-53 | When both allowances already cover the amounts, a step issues no approve, only the deposit call. |
| Liquidity.Plan | scripts/add-liquidity.ts:73-100 | `main` has four entries: the first two on router0 and the last two on router1. Token A alternates USDC, PERIVALON; token B is CC01 for the first two and CC02 for the last two; every amount is positive. |
| Liquidity.PlanDeposits | scripts/add-liquidity.ts:44-53 | The deposit calls of `main`'s four entries, written out: routers, tokens, exact amounts as both desired and minimum, the signer as recipient and clock(i) + 3600 as deadline. |
| Liquidity.PlanEntries | scripts/add-liquidity.ts:73-100 | The plan is USDC/CC01 and PERIVALON/CC01 on router0, then USDC/CC02 and PERIVALON/CC02 on router1, with the exact base-unit amounts. Every amount is positive and below 2^256. |
| Liquidity.RunPlan | scripts/add-liquidity.ts:62-102 | A run only appends to the trace. The number of completed entries lies between the start index and the plan length, and the run succeeds if and only if every entry completed. |
| Liquidity.RunPlanDeposits | scripts/add-liquidity.ts:62-102 | The deposits a run issues are those of the completed entries, in plan order, or those followed by exactly one more, the failing entry's own deposit call. A run that succeeds issues exactly one deposit per entry, in order. |
| Liquidity.RunPlanCompletes | scripts/add-liquidity.ts:62-102 | If nothing reverts, the whole plan completes. |
| Liquidity.RunPlanIgnoresLaterEntries | scripts/add-liquidity.ts:78-109 | If a run fails at entry k, any plan that agrees up to entry k runs identically, so later entries never reach the chain. |
| Liquidity.RunPlanStopsAtFailure | scripts/add-liquidity.ts:106-109 | A failing run equals the run of the plan cut just after the failing entry. |
| Liquidity.MainDepositOrder | scripts/add-liquidity.ts:62-102 | If nothing reverts, `main` issues exactly four deposits in the script's order. Each has its router, tokens, exact amounts as both desired and minimum amounts, the signer as recipient, and clock(i) + 3600 as deadline. |
| Liquidity.AddLiquidity | scripts/add-liquidity.ts:19-55 | The method changes the chain's allowances and trace exactly as `Deposit` says, and returns whether the step succeeded. |
| Liquidity.RunMain | scripts/add-liquidity.ts:62-102 | The method changes the chain exactly as `RunPlan` of the four-entry plan says, and returns whether all four entries completed. |

## Left out

- scripts/deploy.ts and scripts/deploy-mocks.ts only deploy contracts through Hardhat. They are not part of this model.
- The router addresses come from environment variables, with an empty string as the default (scripts/add-liquidity.ts:11-14). The model takes them as parameters. The failure of a call against an empty address is not modelled.
- The ABI and `ethers.Contract` construction are foreign library calls. The token addresses are therefore parameters. As written, the three `"FILLME"` placeholders are the same unset string, not an address. The model takes the tokens as arbitrary, possibly equal addresses, and does not assume they are distinct, except in `FreshStepApprovesBoth`. A call on an unset address failing is not modelled; as written, the first such call is `cc01.allowance` (scripts/add-liquidity.ts:35) in the first entry.
- What the router does inside `addLiquidity`: pricing, reserves, LP shares and the `transferFrom`s that use up allowances. The model uses `Env.settle`, an arbitrary function, and claims nothing about it.
- Asynchrony, `tx.wait()` and block confirmation: each call is atomic and synchronous. Allowance reads never fail in the model. A transaction that is not mined, or is mined after its deadline, counts as a revert through `Env.reverts`.
- Console output and `process.exitCode`: `RunMain` returns `false` where the script would end with exit code 1, and the model sets no exit code itself.
- ParseUnits: does not model fractional strings ("1.5") or signed strings. ethers accepts both, and the model rejects them. Only whole-number literals occur in the script. ethers also rejects a precision above 256 ("invalid decimal size"); the model accepts any precision. The script's precisions are 6, 9 and 18.
- Amounts are unbounded naturals. The ABI encoding error for an amount of 2^256 or more is not modelled. `PlanEntries` proves every planned amount is below that limit.
- `Date.now()` is a parameter. Its reading is in milliseconds, and the router compares the deadline with a block time in seconds. The model keeps the script's `now + 3600` as written and does not model the router's deadline check.
