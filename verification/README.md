# Recurring-buy router: a verified model

The router composes a capped pull of a user's tokens, a swap through a whitelisted venue, and a
delivery to the user's own account, all in one transaction. On the buy side the user's own subscription
sets the amount; on the sell side an on-chain plan amortizes a pot over a horizon. This project models
the on-chain program, the token ledger it runs over, an arbitrary venue, and the arithmetic of the
off-chain keepers, and proves what holds of every call and of every run.

## How it is organised

- `Machine`, `Rounding`: fixed-width integers (`as u64` is reduction modulo 2^64, i64 division truncates
  toward zero, unchecked operations report `Panic`), error codes, and the laws of floor division.
- `Floors`, `Fees`, `Schedule`: the pure arithmetic of the program, and what it means in exact arithmetic.
- `Ledger`: addresses (program-derived and canonical token addresses are injective constructors), token
  balances, transfers, and venues. A venue is *any* list of transfers; each is subject only to the token
  program and to the signer and writable rights the router forwards. Nothing else is assumed of it.
- `Program`: every instruction as a function on values, transactions with rollback, and runs.
- `Accounts`, `Router`: the handlers as the source has them, over mutable accounts, each proved to do exactly
  what `Program` says; `Router.Deployment.Submit` is the transaction.
- `Executions`: what one execution guarantees, when it succeeds, that it cannot panic, and exactly when it can overflow.
- `Refusals`: the rules of every instruction in order, and that it reports the first that does not hold.
- `Exposure`: exactly which accounts an execution can lower besides the transient it spends, the user's other transient
  among them.
- `Runs`, `AdminRuns`: all reachable states: conservation, who can lose what, which accounts an instruction can move, fees,
  whitelist, settings.
- `CrankRuns`, `PlanRuns`: one sell plan. `CrankRuns` reasons about a gate and a pot alone; `PlanRuns` shows that
  every run of the whole deployment projects to such a run.
- `Openings`: plans from the instructions that open and close them, over any number of openings.
- `MockVenue`, `Keeper`, `Rail`, `Agreement`, `DaemonRunway`: the mock venue, the keepers' arithmetic, what a delegation lets
  them pull, and the proof that the transactions the daemon composes pass every check.
- `Turns`, `Dispatch`: the daemon's tick over the whole deployment: one turn for each delegator and mint, what a turn
  leaves alone, and agreement for every slot of a tick.
- `Witnesses`, `TickExamples`: concrete deployments and runs, on which premises are met and unconditional promises fail.

Notation: a plan opened at clock `open` with period P has N = (end - open) / P whole periods and
r = (end - open) mod P seconds over; the interval of a time t is (t - open) / P. The pot is the user's wallet
plus their sell transient, so a pull moves nothing in or out of it.

## Main results

1. **Crank count and terminal state.** With no assumption on the order of clocks, the gate stays on the grid, no
   two sells share an interval, at most N + 1 ever succeed, exactly N + 1 if and only if each of the N intervals saw one
   and so did some later one, and a sell at or after the end is the last. N, the grid and the end are those of the
   instruction that opened the plan; over any number of plans opened and closed, a user is sold for at most as often as
   their openings allow.
2. **Depletion.** Over any run that leaves the pot to the schedule, whatever keepers, venues, admins and other users do,
   and whether or not the user cranks some of the sells, after a sell in interval k a pot that started at w0 still holds
   w with w (N-1) >= w0 (N-k-2); if every sell comes in the first r seconds of its interval, w N >= w0 (N-k-1). An event is
   excluded only if it is able to take from the user's wallet, other than by a pull, or is a buy able to take from their
   sell transient, and it did take from the pot, more than its draw if it is a sell for them; for executions the first two
   conditions are exact.
3. **Exact runway.** N punctual full draws are floor(w0/N) or one more, never decrease, contain exactly w0 mod N
   longer ones, sum to w0 and leave nothing. N punctual ticks of the daemon draw, end to end, the share of what is left as
   far as the delegation then allows: the exact runway if and only if each allowance covers its draw. With the same
   allowance a at each tick they leave max(w0 - N a, 0), so all is paid out if and only if w0 <= N a, and an even share
   rounded down leaves w0 mod N. With sells late or periods skipped, full draws pay the pot out whole if and only if some
   sell found one period left, and each is at least the one before except in one case, given exactly.
4. **Outcome against any venue.** A success empties the input transient, delivers at least the minimum, conserves every
   mint, and debits only the user's buy authority, signers, and the venue's own addresses. A bystander loses nothing over
   any run.
5. **Floors.** Each computed floor is within two units of the exact value if and only if it is not truncated; round
   trips through both floors lose exactly a rounded-up remainder.
6. **Agreement.** The daemon's sell commits if and only if the residue it found is within the program's cap when it lands;
   its buy commits if and only if the wallet covers the pull; either, only if the pool can pay and its fee, where there is one,
   leaves the transient. Over a whole tick of many users, this holds at each slot's turn whatever became of the others: no turn,
   committed or failed, touches another slot's transient or plan or lowers its wallet; and the tick's log says of each attempt
   whether it was skipped, failed or committed, and why. What a tick promises determines it: which delegations it attempts, in
   which order, and what becomes of each. A pull is the largest that the delegation, and for a sell the schedule, lets through; an
   attempt is skipped if and only if there is none, and no residue, or the plan has it wait.
7. **Arithmetic safety.** In every reachable state, while the clock leaves room for one period, no instruction panics, and one
   overflows only if a sell floor with fewer than four decimals leaves 128 bits, or if an execution hands its venue the right to
   debit its own user's destination. `Executions.SellQuoteIff` and `Executions.OverflowIff` make each condition exact.
8. **Refusals and history.** An instruction is accepted, or an execution's checks pass, if and only if each of its rules holds;
   otherwise it reports the first that does not, in the program's order, each rule in exact arithmetic; and so for what an
   execution asks of the movement. Over runs from the first instruction, admin and mints are those
   of the one InitConfig, settings those of the last accepted changes, plans those of their owners' last openings, and the log
   holds one entry for each execution, telling what the ledger shows.

## Where the code and its documents differ

The model follows the code.

- `SPEC_M2_DECUMULATION.md:16` says a schedule cannot run out early. It can: in `Witnesses.RunsOutEarly` the daemon's own tick, one second late,
  sells the whole pot of a two-period plan with a period still to come. `CrankRuns.EarlyIff` says exactly when one crank may: if and only
  if it falls in interval N - 2, after the first r seconds of it. `PlanRuns.ExhaustedEarly` says the same of runs: an undisturbed pot
  that is empty with a period still to come was emptied by such a crank.
- `SPEC_M2_DECUMULATION.md:74` says every due period gets exactly one crank. It gets at most one; a missed period is lost
  (`Witnesses.PeriodSkipped`). `PlanRuns.EveryPeriodSold` says when none is: the count reaches N + 1 if and only if
  each interval before the N-th saw a sell and so did some later one, not necessarily the N-th (`Witnesses.LastCrankLate`).
- The buy-side design document's no-residue invariant asks for both transients to be empty afterwards. The code checks the input side
  only, and one address owns both. With two mints, a buy that does not forward the sell transient as writable leaves it as it was
  (`Exposure.BuyLeavesSellTransient`); otherwise some behaviour of the venue can spend it, outside cap, gate and sell floor, if and
  only if it holds something and another account of its mint was forwarded as writable (`Exposure.SellTransientSpentIff`;
  `Witnesses.BuySpendsSellTransient` is such a buy). Sells and the buy transient mirror this (`Exposure.BuyTransientSpentIff`); where the
  other transient is not exposed, it and the destination together gain at least the minimum (`Exposure.BuyGains`, `Exposure.SellGains`).
- `SPEC_M2_DECUMULATION.md:71` bounds how fast a keeper can drain the pot. A sell its own user signs can take more, if and only if it hands its venue the user's
  wallet (`PlanRuns.WalletSpentIff`; `Witnesses.SelfCrankWithdraws` is such a sell). Other self-cranked sells are bound like any other
  (`PlanRuns.SellPot`; `Witnesses.SelfCranked` is a life made of them). An event that exposes the wallet or, in a buy, the sell
  transient counts as undisturbing only if it leaves the pot whole or, as a sell for the user, costs it at most its draw
  (`PlanRuns.Undisturbed`).
- `SPEC_M2_DECUMULATION.md:16` says missed periods re-amortize. They do, but a draw can be smaller than the one before with nothing else
  happening: a late sell and one on time in the next interval divide by the same number of periods (`Witnesses.DrawsShrink`).
  `PlanRuns.Reamortizes` gives the exact condition; without such a pair draws never decrease (`PlanRuns.DrawsGrow`).
- `SPEC_M2_DECUMULATION.md:15` calls the runway exact. Under a delegation it is so if and only if each period's allowance covers that
  period's draw (`DaemonRunway.RunwayIff`, `DaemonRunway.CoveredRunway`), and the allowance that the repository's own set-up grants,
  the pot divided by the periods (`keeper/native/e2e_sell.mjs:76,108`), does not cover the longer draws. On-time ticks then leave the
  remainder of that division (`DaemonRunway.ConstantRunway`; `Witnesses.SizedAllowanceStrands` ends with a unit of five unsold).
- `SPEC_M2_DECUMULATION.md:68` states the floor without width. `as u64` can truncate it: `Floors.TruncatedFloorIsZero` gives an input whose floor becomes
  zero, and `Floors.NoTruncation` the exact range where that does not happen.
- A fee destination whose token account is the user's own transient makes every fee-bearing swap of the net fail
  (`MockVenue.SelfFeeLeavesResidue`). The daemon composes such transactions all the same; the agreement results say that they fail.

## Model

| member | source | states |
|---|---|---|
| Floors.FloorOutcome | programs/recurring-buy/src/lib.rs:467-515 | the buy floor never overflows, the sell floor never does with four or more decimals and otherwise exactly when the last product leaves 128 bits; the value is the exact floor modulo 2^64 |
| Floors.FloorAccuracy | programs/recurring-buy/src/lib.rs:467-515 | the floor is less than two units below the exact rational value if and only if `as u64` drops nothing |
| Floors.FloorAtMostExact | programs/recurring-buy/src/lib.rs:467-515 | truncated or not, the floor never exceeds the exact rational value |
| Floors.NoTruncation | programs/recurring-buy/src/lib.rs:476-486 | the exact range without truncation, and a simple sufficient bound on the input |
| Floors.TruncatedFloorIsZero | programs/recurring-buy/src/lib.rs:467-487 | a concrete input whose floor truncates to zero |
| Floors.SellFloorCanOverflow | programs/recurring-buy/src/lib.rs:495-515 | with three decimals the sell floor can report Overflow |
| Floors.ScaleFits | programs/recurring-buy/src/lib.rs:473-475 | the checked power of ten succeeds up to 38 decimals and no further |
| Floors.FloorMonotone | programs/recurring-buy/src/lib.rs:467-515 | more input, a price moved the taker's way, or less slippage never lowers a floor |
| Floors.Splitting | programs/recurring-buy/src/lib.rs:467-515 | cutting an order into n pieces never raises the summed floor and lowers it by fewer than 2n units |
| Floors.FloorsNearInverse | programs/recurring-buy/src/lib.rs:579-584 | at zero slippage there and back loses exactly the rounded-up remainder, nothing iff it divides; both orders |
| Floors.RoundTripWithSlippage | programs/recurring-buy/src/lib.rs:467-515 | with slippage b both ways at most a(10000-b)^2/10^8 comes back, with no width assumption |
| Fees.FeeWithinCap | programs/recurring-buy/src/lib.rs:153-162 | under the cap the fee is the exact floor, at most a hundredth, and the net is positive |
| Fees.ConstantRateFees | programs/recurring-buy/src/lib.rs:156-161 | n fees at one rate total at most the fee on the sum, and fewer than n units less |
| Schedule.OpenOutcome | programs/recurring-buy/src/lib.rs:260-274 | a plan opens exactly on an admissible period that ends after one more, else BadParam; it is stored on the owner's own terms, due at once, with N >= 1 |
| Schedule.PeriodsExact | programs/recurring-buy/src/state.rs:91-93 | saturating, truncating division floored at one equals max(1, whole periods left) |
| Machine.TruncatesTowardZero | programs/recurring-buy/src/state.rs:91-93 | i64 division leaves a remainder of the dividend's sign, smaller than the divisor |
| Machine.DivisionFails | programs/recurring-buy/src/lib.rs:437-442 | checked division fails exactly on a zero divisor and on the least i64 over -1 |
| Schedule.PeriodsAtInterval | programs/recurring-buy/src/state.rs:91-93 | N - i periods left within the first r seconds of interval i, N - i - 1 after |
| Schedule.GateJump | programs/recurring-buy/src/lib.rs:437-448 | the gate moves to the least grid point strictly after the clock |
| Schedule.GateSafe | programs/recurring-buy/src/lib.rs:437-448 | the jump cannot overflow while the clock leaves room for one period |
| Schedule.GateOverflows | programs/recurring-buy/src/lib.rs:437-448 | from a due gate the jump overflows exactly when the next grid point leaves 64 bits |
| Schedule.WholePotAllowed | programs/recurring-buy/src/lib.rs:332-340 | one crank may take the whole pot exactly when fewer than two whole periods are left |
| Schedule.RunwayClosedForm | keeper/keeper.ts:179-183 | recomputing pot over periods left gives the runway draws and empties the pot |
| Schedule.RunwayShape | keeper/keeper.ts:179-183 | runway draws never decrease, differ by at most one, and w0 mod N are the longer ones |
| Ledger.VenueFrame | programs/recurring-buy/src/lib.rs:186-228 | a venue debits only forwarded signers and its own addresses, and changes only accounts it was given as writable |
| Ledger.VenueConserves | programs/recurring-buy/src/lib.rs:226-228 | no venue changes a mint's total |
| Ledger.TransferConserves | programs/mock-swap/src/lib.rs:25-51 | a transfer, self-transfers included, keeps every mint's total |
| Ledger.TransferIff | programs/recurring-buy/src/lib.rs:211-224 | a transfer goes through exactly when the token program's conditions hold, and then moves its amount and nothing else |
| Ledger.FirstRefusal | programs/recurring-buy/src/lib.rs:226-228 | a failing venue call fails at its first refused transfer, with the code of that refusal |
| Accounts.TokenBank.Send | programs/recurring-buy/src/lib.rs:211-224 | a transfer by the token program: new balances on success, unchanged on refusal |
| Accounts.TokenBank.RunVenue | programs/recurring-buy/src/lib.rs:190-228 | the forwarded venue call performs its transfers in order and stops at the first refusal |
| Accounts.ConfigAccount.FillWhitelist | programs/recurring-buy/src/lib.rs:105-109 | the loop leaves the list at the front, default keys behind it, the count beside it, and every other field alone |
| Accounts.ConfigAccount.SetWhitelist | programs/recurring-buy/src/lib.rs:102-111 | accepts up to three venues and replaces the whole list |
| Accounts.ConfigAccount.SetParams | programs/recurring-buy/src/lib.rs:69-79 | bounded slippage; sets both parameters only |
| Accounts.ConfigAccount.Init | programs/recurring-buy/src/lib.rs:33-62 | the checks and the whole initial configuration |
| Accounts.PlanAccount.Open | programs/recurring-buy/src/lib.rs:260-274 | the checks and the whole opened plan |
| Accounts.PlanAccount.Advance | programs/recurring-buy/src/lib.rs:435-448 | the checked jump of the gate, and nothing else |
| Router.Deployment.InitConfig | programs/recurring-buy/src/lib.rs:33-62 | the handler does what the instruction function says, failure changes nothing |
| Router.Deployment.SetPause | programs/recurring-buy/src/lib.rs:64-67 | sets the flag under the admin's signature, failure changes nothing |
| Router.Deployment.SetParams | programs/recurring-buy/src/lib.rs:69-79 | the handler with its account constraints, failure changes nothing |
| Router.Deployment.InitFeeConfig | programs/recurring-buy/src/lib.rs:83-90 | creates the fee configuration once, within the cap |
| Router.Deployment.SetFee | programs/recurring-buy/src/lib.rs:94-100 | replaces rate and destination, within the cap |
| Router.Deployment.SetWhitelist | programs/recurring-buy/src/lib.rs:102-111 | the handler with its account constraints, failure changes nothing |
| Router.Deployment.OpenSellPlan | programs/recurring-buy/src/lib.rs:260-274 | creates the signer's plan, once |
| Router.Deployment.CloseSellPlan | programs/recurring-buy/src/lib.rs:278-280 | removes the signer's plan |
| Router.Deployment.Move | programs/recurring-buy/src/lib.rs:184-244 | skim, venue, drain check, delivery check, in that order, with the reported output |
| Router.Deployment.CheckBuy | programs/recurring-buy/src/lib.rs:124-182 | every check before the first transfer, in order, and the split of the input |
| Router.Deployment.CheckSell | programs/recurring-buy/src/lib.rs:292-372 | the same for a sell, with terminal state, clock gate and amortization cap |
| Router.Deployment.ExecuteBuy | programs/recurring-buy/src/lib.rs:119-254 | the handler agrees with the buy function on success, error and new state |
| Router.Deployment.ExecuteSell | programs/recurring-buy/src/lib.rs:287-458 | the handler agrees with the sell function on success, error and new state |
| Router.Deployment.LoadAdmin | programs/recurring-buy/src/lib.rs:604-609 | the admin-only account constraints, and the loaded configuration |
| Router.Deployment.Execute | programs/recurring-buy/src/lib.rs:29-459 | every instruction agrees with its function on success, error and new state |
| Router.Deployment.Submit | programs/recurring-buy/src/lib.rs:3-8 | a transaction commits all its instructions or restores everything |
| Executions.SwapOutcome | programs/recurring-buy/src/lib.rs:209-244 | against any venue: transient empty, destination up by the output, mints conserved, only the spenders debited |
| Executions.BuyOutcome | programs/recurring-buy/src/lib.rs:124-244 | the same for every successful buy, at the user's canonical accounts, through a whitelisted venue |
| Executions.SellOutcome | programs/recurring-buy/src/lib.rs:292-433 | the same for every successful sell |
| Executions.SellAdvancesGate | programs/recurring-buy/src/lib.rs:300-307 | a successful sell was due and not terminal, and moved only its own plan's gate |
| Executions.SellWithinCap | programs/recurring-buy/src/lib.rs:332-340 | the draw times the periods left is at most the pot |
| Executions.StepKeepsInv | programs/recurring-buy/src/lib.rs:39-100 | every instruction keeps bounds on slippage, decimals, fee, whitelist, plans and log |
| Executions.SellQuoteIff | programs/recurring-buy/src/lib.rs:292-372 | in a reachable state a sell's checks pass exactly under conditions stated without machine arithmetic, and report Overflow exactly when only the width of the floor is wrong |
| Executions.BuyQuoteIff | programs/recurring-buy/src/lib.rs:124-182 | the same for a buy |
| Executions.WhitelistedIff | programs/recurring-buy/src/state.rs:47-49 | slicing is safe and membership means a used slot holds the program |
| Executions.SellValue | programs/recurring-buy/src/lib.rs:350-433 | a sell whose floor fits delivers the net at the reference price, less slippage, less under two units |
| Executions.BuyValue | programs/recurring-buy/src/lib.rs:156-244 | the same for a buy |
| Executions.SellArithmeticSafe | programs/recurring-buy/src/lib.rs:287-458 | no panic in a reachable state; overflow only from a floor wider than 128 bits or an exposed destination; the net check never rejects a funded transient |
| Executions.BuyArithmeticSafe | programs/recurring-buy/src/lib.rs:119-254 | no panic at any clock; overflow only with an exposed destination; the net check never rejects a funded transient |
| Executions.OverflowIff | programs/recurring-buy/src/lib.rs:237-243 | some behaviour of the venue underflows the delivered amount if and only if the destination's owner may sign, and it and a third account of its mint are writable |
| Refusals.SellReports | programs/recurring-buy/src/lib.rs:292-372 | in a reachable state a sell's checks pass exactly when every rule holds, else report the first that does not, in the source's order |
| Refusals.BuyReports | programs/recurring-buy/src/lib.rs:124-182 | the same for a buy |
| Refusals.ReportsIff | programs/recurring-buy/src/lib.rs:124-182 | reporting by rules is an if and only if, for success and for each code |
| Refusals.FinishedOrEarly | programs/recurring-buy/src/lib.rs:295-307 | PlanCompleted exactly when the gate is past the end, NotDue exactly when it is not and the clock is before it |
| Refusals.MoveReports | programs/recurring-buy/src/lib.rs:205-244 | a movement is stopped by the skim, else by the venue, else by the first of drained, not lowered, and minimum met |
| Refusals.BuyStops | programs/recurring-buy/src/lib.rs:119-254 | a buy reports its checks, then its movement |
| Refusals.SellStops | programs/recurring-buy/src/lib.rs:287-458 | so does a sell, and then Overflow exactly when the next grid point leaves 64 bits |
| Refusals.InstructionReports | programs/recurring-buy/src/lib.rs:33-280 | every other instruction is accepted exactly when its rules hold, else reports the first that does not |
| Exposure.LoweredIsExposed | programs/recurring-buy/src/lib.rs:186-235 | whoever signs, an instruction lowers only the transient it spends and accounts it exposes |
| Exposure.SellLowersIff | programs/recurring-buy/src/lib.rs:374-425 | some behaviour of a sell's venue succeeds and lowers an account besides the transient if and only if the sell exposes it |
| Exposure.BuyLowersIff | programs/recurring-buy/src/lib.rs:186-235 | the same for a buy |
| Exposure.UnsignedIsUnexposed | programs/recurring-buy/src/lib.rs:190-198 | nothing exposes an account of a key pair that does not sign |
| Exposure.BuyTransientSpentIff | programs/recurring-buy/src/lib.rs:374-425 | some behaviour of a sell's venue succeeds and lowers the user's buy transient if and only if that transient is exposed |
| Exposure.BuyGains | programs/recurring-buy/src/lib.rs:233-244 | with the sell transient unexposed, destination and sell transient together gain at least the minimum |
| Exposure.SellGains | programs/recurring-buy/src/lib.rs:422-433 | with the buy transient unexposed, destination and buy transient together gain at least the minimum |
| Exposure.SellTransientSpentIff | programs/recurring-buy/src/lib.rs:186-235 | some behaviour of a buy's venue succeeds and lowers the user's sell transient if and only if that transient is exposed |
| Exposure.BuyLeavesSellTransient | programs/recurring-buy/src/lib.rs:186-235 | a buy that does not forward the sell transient as writable leaves it exactly as it was |
| Exposure.SpentIsExposed | programs/recurring-buy/src/lib.rs:186-235 | no successful buy lowers a sell transient that is not exposed, whoever signs |
| Exposure.BuyAuthorityForwarded | programs/recurring-buy/src/lib.rs:190-198 | every successful buy forwarded the user's buy authority to its venue, among the accounts it listed |
| Exposure.UnhandedIsKept | programs/recurring-buy/src/lib.rs:186-202 | an account not forwarded as writable keeps its balance through an execution, spent transient and fee account apart |
| Runs.RunTrace | programs/recurring-buy/src/lib.rs:3-8 | every sequence of transactions is a trace of exactly the instructions of those that go through, in order, so results about traces are about runs |
| Runs.ReachableSafe | programs/recurring-buy/src/lib.rs:33-458 | in every reachable state no instruction panics, and only a too wide sell floor or an exposed destination overflows |
| Runs.StepFlows | programs/recurring-buy/src/lib.rs:209-228 | an account shrinks only as the source and grows only as the destination of a transfer the instruction makes |
| Runs.TokensMoved | programs/recurring-buy/src/lib.rs:3-8 | a pull, a transfer or an opened account moves just what it names; administration and plan instructions move no token |
| Runs.SupplyAlong | programs/recurring-buy/src/lib.rs:209-228 | no run creates or destroys a unit of any mint |
| Runs.StepDebitsOnly | programs/recurring-buy/src/lib.rs:186-228 | each instruction debits only the authorities it names; admin instructions debit nobody |
| Runs.StepDebits | programs/recurring-buy/src/lib.rs:186-228 | a non-signing user's wallet shrinks only by their own pull, exactly, and their transients only by executions naming them |
| Runs.Bystander | programs/recurring-buy/src/lib.rs:205-228 | over any run in which a user neither signs nor is named, nothing of theirs shrinks |
| CrankRuns.ServedGate | programs/recurring-buy/src/lib.rs:300-307 | one crank: the gate was within the schedule and moves just past the interval of the clock |
| CrankRuns.AnyTimingBound | programs/recurring-buy/src/lib.rs:332-340 | w (N-1) >= w0 (N-k-2) after a crank in interval k, at any timing |
| CrankRuns.OnTimeBound | programs/recurring-buy/src/lib.rs:332-340 | w N >= w0 (N-k-1) when every crank is on time |
| CrankRuns.FullSchedule | SPEC_M2_DECUMULATION.md:74 | N + 1 cranks if and only if every interval before the N-th got one and so did some later one |
| CrankRuns.EarlyIff | programs/recurring-buy/src/lib.rs:332-340 | one crank may take the whole pot with a period to come if and only if it is late in interval N - 2 |
| CrankRuns.EarlyExhaustion | SPEC_M2_DECUMULATION.md:16 | a pot that is empty with a period to come was emptied by a late crank in interval N - 2 |
| CrankRuns.ExactRunway | SPEC_M2_DECUMULATION.md:15-16 | N on-time full draws: sizes, order, count of longer ones, sum, empty pot |
| CrankRuns.NextDrawIff | SPEC_M2_DECUMULATION.md:16 | of two consecutive full draws the second is no smaller, except exactly where a late crank is followed by one on time in the next interval and the remainder is too small |
| CrankRuns.DrawsNeverDecrease | SPEC_M2_DECUMULATION.md:16 | without such a pair full draws never decrease, however late and however many periods are skipped |
| CrankRuns.PaidOutIff | SPEC_M2_DECUMULATION.md:16 | full draws and what is left make up the starting pot, which is empty if and only if some crank found one period left |
| PlanRuns.LifeIsGateRun | programs/recurring-buy/src/lib.rs:260-307 | whatever else happens, a plan's life is a run of its gate |
| PlanRuns.GateOnGrid | programs/recurring-buy/src/lib.rs:435-448 | the terms never change and the gate stays on the grid |
| PlanRuns.SellMovesGate | SPEC_M2_DECUMULATION.md:72 | each success leaves the gate at the least grid point after its clock |
| PlanRuns.OneSellPerInterval | SPEC_M2_DECUMULATION.md:72 | no two sells share an interval, and they come in grid order, whatever the clock does |
| PlanRuns.CrankCount | SPEC_M2_DECUMULATION.md:74 | at most N + 1 sells ever succeed |
| PlanRuns.EveryPeriodSold | SPEC_M2_DECUMULATION.md:74 | over runs of the deployment, N + 1 sells if and only if every interval before the N-th saw one and so did some later one |
| PlanRuns.TerminalIsAbsorbing | programs/recurring-buy/src/lib.rs:295-303 | a sell at or after the end is the last; every later one fails whatever its inputs, and a well-formed one reports PlanCompleted |
| PlanRuns.SellsLeftDecrease | programs/recurring-buy/src/lib.rs:300-307 | a measure that every success strictly decreases and nothing else changes |
| PlanRuns.PotKept | programs/recurring-buy/src/lib.rs:332-337 | everything but a sell for the user leaves their pot whole, unless it exposes their wallet or, in a buy, their sell transient |
| PlanRuns.SellPot | programs/recurring-buy/src/lib.rs:332-340 | a sell costs the pot at most its draw, within the cap, whoever cranks it, unless it exposes its user's wallet and takes more than its draw |
| PlanRuns.UnsignedLeavesWallet | programs/recurring-buy/src/lib.rs:374-390 | an event the user does not sign never exposes their wallet |
| PlanRuns.WalletSpentIff | programs/recurring-buy/src/lib.rs:374-425 | some behaviour of a sell's venue succeeds and takes from its user's wallet if and only if the sell exposes it |
| PlanRuns.PotDepletion | SPEC_M2_DECUMULATION.md:71 | the any-timing depletion bound over runs of the whole deployment |
| PlanRuns.PotDepletionOnTime | SPEC_M2_DECUMULATION.md:71 | the on-time depletion bound over runs of the whole deployment |
| PlanRuns.ExhaustedEarly | SPEC_M2_DECUMULATION.md:16 | over runs of the deployment, only a late sell in interval N - 2 empties an undisturbed pot with a period to come |
| PlanRuns.PunctualRunway | SPEC_M2_DECUMULATION.md:15-16 | the exact runway over runs of the whole deployment: each draw, their order, sum and the empty pot |
| PlanRuns.Reamortizes | SPEC_M2_DECUMULATION.md:16 | over runs of the deployment, each full draw is at least the one before, except in the exact case above |
| PlanRuns.DrawsGrow | SPEC_M2_DECUMULATION.md:16 | over runs of the deployment without that case full draws never decrease |
| PlanRuns.PaidOut | SPEC_M2_DECUMULATION.md:16 | over runs of the deployment, whatever was skipped, the pot is paid out whole if and only if some sell found one period left |
| Openings.TermsOverRuns | programs/recurring-buy/src/lib.rs:260-280 | in every reachable state a user has a plan exactly when their last opening or closing was an opening, on its end, period and grid |
| Openings.OpenStep | programs/recurring-buy/src/lib.rs:260-274 | opening stores the instruction's own end and period, due at the clock it found, and changes nothing else |
| Openings.OpeningBeginsLife | programs/recurring-buy/src/lib.rs:260-274 | a committed opening begins a life on the instruction's own terms, with N = (end - clock) / period |
| Openings.SellsOfOpening | SPEC_M2_DECUMULATION.md:74 | an opening allows at most N + 1 sells, N from the instruction's arguments |
| Openings.ClosedIsGone | programs/recurring-buy/src/lib.rs:276-280 | after a closing, until the next opening, there is no plan and every sell reports NotInitialized |
| Openings.SellsGranted | SPEC_M2_DECUMULATION.md:74 | over any run, sells for a user and those their plan still has are at most what all their openings allowed |
| AdminRuns.FeesOverRuns | programs/recurring-buy/src/lib.rs:83-100 | over any run and any fee changes, fees are at most a hundredth of inputs per mint, and every net is positive |
| AdminRuns.ConstantRateOverRuns | programs/recurring-buy/src/lib.rs:156-161 | while the rate stays put, n executions pay within n units below the rate on their sum |
| AdminRuns.SellLogged | programs/recurring-buy/src/lib.rs:450-456 | the emitted entry: side, user, venue, whole transient in, destination gain out, floor of the fee |
| AdminRuns.BuyLogged | programs/recurring-buy/src/lib.rs:246-252 | the same for a buy |
| AdminRuns.LogIsHistory | programs/recurring-buy/src/lib.rs:246-252 | over any run the log holds one entry per execution, in order, each telling what the ledger shows |
| AdminRuns.SkimPaysFee | programs/recurring-buy/src/lib.rs:209-224 | the skim moves exactly the fee from the transient to the fee account |
| AdminRuns.FeeReceived | programs/recurring-buy/src/lib.rs:209-224 | the fee account keeps the fee whatever the venue does, unless its owner signs |
| AdminRuns.WhitelistOverRuns | programs/recurring-buy/src/lib.rs:102-111 | after any run a program is whitelisted exactly when it is in the last accepted list |
| AdminRuns.IdentityOverRuns | programs/recurring-buy/src/lib.rs:46-57 | in every reachable state admin, both mints and decimals are those of the one accepted InitConfig |
| AdminRuns.SettingsOverRuns | programs/recurring-buy/src/lib.rs:64-100 | price, slippage, pause flag and fee in force are those of the last accepted instructions |
| AdminRuns.PauseHalts | programs/recurring-buy/src/lib.rs:125 | while paused nobody's execution succeeds |
| AdminRuns.OnlyAdminConfigures | programs/recurring-buy/src/state.rs:22-24 | configuration changes only under the admin's signature, and moves no tokens |
| AdminRuns.OnlyOwnerPlans | programs/recurring-buy/src/state.rs:75 | plans open and close only under their owner's signature, and only sells move their gate |
| Keeper.CapsAgree | keeper/keeper.ts:172-184 | library, daemon and program count periods three ways and agree on the cap |
| Keeper.AmortizedDrawIsMaximal | keeper/keeper.ts:161-184 | with the residue within the cap exactly the pulls up to the computed one are accepted, then and later; otherwise none |
| Rail.AvailableIff | keeper/native/daemon.mjs:123-129 | a pull is at most the available amount if and only if, with what was already pulled in the running period, it stays within one period's |
| Rail.PeriodTotal | keeper/native/daemon.mjs:123-129 | any pulls in one period total at most that period's amount |
| Rail.RunTotal | keeper/native/daemon.mjs:123-129 | over any pulls, at most one period's amount for the first period and one for each begun since, which begin a period apart |
| Rail.BuyPullIsLargest | keeper/native/daemon.mjs:157-178 | a buy is skipped exactly when no pull is allowed, and otherwise pulls the largest allowed, once |
| Rail.DaemonPullIsLargest | keeper/native/daemon.mjs:210-217 | a sell's pull is the largest that both the delegation and the program's cap let through |
| Rail.SellSkippedIff | keeper/native/daemon.mjs:198-218 | a sell is skipped exactly when there is no plan, it is finished or not due, or the transient is empty and no pull is let through |
| Rail.SellPulls | keeper/native/daemon.mjs:220-229 | a composed sell pulls that amount, once, if it is positive, and nothing else |
| Keeper.CrankBuy | keeper/native/daemon.mjs:157-193 | what crankBuy skips or composes |
| Keeper.CrankSell | keeper/native/daemon.mjs:198-244 | what crankSell skips or composes |
| MockVenue.SwapTokens | programs/mock-swap/src/lib.rs:22-53 | the two transfers in order, stopping at the first refusal |
| MockVenue.CallIsSwap | keeper/native/daemon.mjs:141-153 | forwarded with the keepers' account list, the call has exactly the effect of the venue's instruction |
| MockVenue.SwapSucceeds | programs/mock-swap/src/lib.rs:22-53 | a funded mock swap succeeds, drains the transient exactly and delivers the net |
| MockVenue.DryPoolFails | programs/mock-swap/src/lib.rs:22-53 | a pool that cannot pay makes the swap fail |
| MockVenue.SelfFeeLeavesResidue | programs/recurring-buy/src/lib.rs:211-235 | a fee account that is the transient makes the swap fail |
| Agreement.FloorOutIsFloor | keeper/native/daemon.mjs:155 | the daemon's floor equals the program's on both sides at the one-dollar reference |
| Agreement.LegAmounts | keeper/native/daemon.mjs:169-172 | the daemon's fee, net and minimum equal the program's |
| Agreement.DaemonSellAgrees | keeper/native/daemon.mjs:198-245 | the composed sell commits, drains and delivers exactly when the residue is within the cap on landing, the pool can pay, and the fee, if any, leaves the transient; else which error it reports |
| Agreement.FreshResidueFits | keeper/native/daemon.mjs:211-217 | a residue within the cap at composition is within it at any later clock |
| Agreement.DaemonBuyAgrees | keeper/native/daemon.mjs:157-194 | the composed buy commits, drains and delivers exactly when the wallet covers the pull, the pool can pay, and the fee, if any, leaves the transient; else which error it reports |
| DaemonRunway.FreshStart | programs/recurring-buy/src/lib.rs:260-274 | a deployment with a freshly opened plan, whatever its pot and delegation, is a start of the runway |
| DaemonRunway.DaemonRunway | keeper/native/daemon.mjs:198-247 | punctual ticks under any allowances: the wallet holds what draws of a share or the allowance leave, the transient nothing, and those draws less their fees are delivered; ticks with nothing to draw included |
| DaemonRunway.CoveredRunway | SPEC_M2_DECUMULATION.md:15-16 | if each of N allowances covers its draw, N ticks make the exact runway and empty wallet and transient |
| DaemonRunway.ConstantRunway | keeper/native/daemon.mjs:213-218 | with one allowance a for all N ticks max(w0 - N a, 0) is left: nothing if and only if w0 <= N a, and w0 mod N for the even share rounded down |
| DaemonRunway.RunwayIff | SPEC_M2_DECUMULATION.md:15 | the draws are those of the exact runway if and only if every allowance covers its own |
| Witnesses.ExampleRunway | keeper/native/daemon.mjs:198-247 | two ticks allowed two and three sell a pot of five whole, so the runway's premises can be met |
| Witnesses.SizedAllowanceStrands | keeper/native/e2e_sell.mjs:76-108 | the same two on-time ticks under the even share, two each, leave one of five unsold |
| Witnesses.RunsOutEarly | SPEC_M2_DECUMULATION.md:16 | a deployment whose pot the daemon's tick at clock one sells whole, with a period to come |
| Witnesses.EveryCrankServed | SPEC_M2_DECUMULATION.md:74 | a run of a deployment in which a one-period plan takes N + 1 = 2 sells |
| Witnesses.LastCrankLate | SPEC_M2_DECUMULATION.md:74 | a run that takes N + 1 sells with none in interval N |
| Witnesses.PeriodSkipped | SPEC_M2_DECUMULATION.md:74 | a run in which a due period passes without its sell and the gate moves past it |
| Witnesses.DrawsShrink | SPEC_M2_DECUMULATION.md:16 | two full ticks of the daemon, late then on time, that draw five and then two |
| Witnesses.SelfCranked | programs/recurring-buy/src/lib.rs:287-458 | a life whose user signs every sell and which leaves the pot to the schedule |
| Witnesses.SelfCrankWithdraws | programs/recurring-buy/src/lib.rs:374-425 | a sell its user signs, forwarding their wallet, that takes more from the pot than its draw |
| Witnesses.BuySpendsSellTransient | programs/recurring-buy/src/lib.rs:186-235 | a successful buy that empties the user's sell transient of seven |
| Witnesses.OwnerCanOverflow | programs/recurring-buy/src/lib.rs:237-243 | a buy its user signs and forwards, which reports Overflow |
| TickExamples.FirstListedIsPaid | keeper/native/daemon.mjs:254-272 | of two buys that each need the whole pool, the first listed commits and the other fails |
| Dispatch.SelectBest | keeper/native/daemon.mjs:254-261 | one entry per relevant (delegator, mint), none for foreign mints, each the earliest-listed of the latest-expiring; the slots in the order of their first listings |
| Dispatch.BestIsUnique | keeper/native/daemon.mjs:254-261 | the choice is determined by the list |
| Dispatch.KeyOrderIsUnique | keeper/native/daemon.mjs:254-263 | so is the order of the slots |
| Turns.OnlyCommittedMoves | keeper/native/daemon.mjs:263-271 | a crank that is skipped, refused or never lands leaves the chain as it was |
| Turns.TurnConfined | keeper/native/daemon.mjs:157-247 | a turn keeps the deployment and moves only its own user's accounts of its mint, the pools and the fee account, and no other user's plan |
| Turns.DaemonLeavesWallet | keeper/native/daemon.mjs:141-153 | the daemon's sell never exposes its user's wallet, even where the keeper is that user |
| Turns.UncoveredBuyFails | keeper/native/daemon.mjs:157-194 | a composed buy whose pull the wallet does not cover fails on any clock and whoever else signs |
| Turns.NoFeeNoCrank | keeper/native/daemon.mjs:113-121 | without a fee account on chain no crank commits |
| Turns.OtherTurnKeeps | keeper/native/daemon.mjs:263-271 | another slot's turn leaves a user's transient and plan as they were and their wallet no smaller, whatever became of it |
| Dispatch.OtherTurnsKeep | keeper/native/daemon.mjs:263-271 | the same for any number of other slots' turns |
| Dispatch.TickSell | keeper/native/daemon.mjs:249-272 | in a tick of many users each ready sell is skipped with nothing to draw, commits when it lands with its residue within the cap and a pool that can pay, and otherwise fails and changes nothing; what it leaves is there at the end |
| Dispatch.TickBuy | keeper/native/daemon.mjs:249-272 | the same for each buy, by whether the wallet covers what is available and the pool can pay |
| Dispatch.PoolLasts | keeper/native/daemon.mjs:249-272 | over a tick a pool loses at most the demand: what the cranks of its side spend on the chain they find, nothing for those skipped, never landed or uncovered |
| Dispatch.SpendBounds | keeper/native/daemon.mjs:157-222 | a crank spends at most the residue with what its delegation allows, and at most the residue with what its user holds |
| Dispatch.DemandWithinAllowances | keeper/native/daemon.mjs:249-272 | the demand is at most the allowances and residues that can be read when the tick begins |
| Dispatch.FundedTickSell | keeper/native/daemon.mjs:249-272 | with a pool that covers the demand when the tick begins, the pool can pay at the turn of every ready sell that lands |
| Dispatch.FundedTickBuy | keeper/native/daemon.mjs:249-272 | the same for every ready buy that is covered |
| Dispatch.TickSettlesSell | keeper/native/daemon.mjs:249-272 | from what the tick promises: each ready sell is logged skipped, failed or committed, each with the effect that entry means, by what there was to draw, whether it landed, the residue condition and the pool |
| Dispatch.TickSettlesBuy | keeper/native/daemon.mjs:249-272 | the same for each ready buy, by what was available, whether it landed, whether the wallet covers it and the pool |
| Dispatch.TickSkips | keeper/native/daemon.mjs:198-218 | for any deployment and any plan: a sell is logged skipped exactly when its plan has it wait or nothing can be drawn, a buy exactly when its delegation allows no pull; the chain is then unchanged |
| Dispatch.TickIsDetermined | keeper/native/daemon.mjs:249-272 | the promises of a tick leave one log possible |
| Dispatch.FeeReadIsCurrent | keeper/native/daemon.mjs:113-121 | the fee a tick reads is the one the deployment stands under |
| Dispatch.TakeTurn | keeper/native/daemon.mjs:263-270 | one pass of the loop: read, compose, submit, and record the outcome |
| Dispatch.RunTick | keeper/native/daemon.mjs:249-272 | one attempt for each chosen slot, in the order of their first listings, each on the chain the earlier ones left, going on after failures; the chain ends as the turns leave it |

## Left out

- The native subscriptions program is not part of this model: a pull is a transfer of any amount the delegator's wallet holds to their transient, with no period limit, which only makes the results about runs stronger. Only the pull the daemon composes is bounded by what it computes as available.
- Signers and plan owners are key pairs: a plan owned by a program address, a multisig say, cannot exist in the model.
- Solana runtime and Anchor plumbing: address derivation, rent, bumps and deserialization; addresses are injective constructors and missing accounts one error.
- Delegates, freezing, closing, minting and ownership changes of token accounts; a canonical account is owned by its named owner.
- A venue that calls back into the router, or makes calls other than token transfers.
- The live Jupiter route, RPC, signing, logging, byte encoders and raw account decoding of the keepers.
- JavaScript doubles: timestamps are exact integers.
- Rail.RunTotal: the native rail's own program is not part of this model; a pull is charged to the period that the daemon's formula takes it to be in, and a later period is only asked to begin after the recorded one is over.
- Refusals.InstructionReports: where several account constraints fail at once, which of their codes is reported is the framework's choice; the model reports a missing signature, then a missing account, then a wrong admin.
- Dispatch.RunTick: nobody else's transactions land between the tick's own, and a transaction that lands is also confirmed; the clock is read once, and each slot's landing time is given.
- Agreement.DaemonSellAgrees: asks for an existing fee configuration, an existing wallet and, unless it is the user's transient, an existing fee account, none of which the daemon creates; so does Agreement.DaemonBuyAgrees.
- DaemonRunway.DaemonRunway: asks that the fee goes neither to the user, whose wallet it would refill, nor to their buy authority, where every fee-bearing sell fails; that the pool can buy the pot; and that each transaction lands at the clock it was composed at, with nothing else in between.
- Dispatch.TickSell: asks that the fee does not go to the transient of the user it speaks of, where one slot's fee could land in another's residue; so do Dispatch.TickBuy and, for every delegator, the results built on both.
