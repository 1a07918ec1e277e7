// The off-chain side: what a keeper computes on its own and the transactions it composes.
module Keeper {
  import opened Machine
  import opened Ledger
  import opened Schedule
  import opened Program
  import opened MockVenue
  import Floors
  import Rounding

  // ---- Draw arithmetic ----

  /** keeper.ts: the pull that brings the transient up to the schedule's cap. */
  function AmortizedDraw(wallet: nat, endTs: int, periodSecs: int, nowTs: int, residue: nat): (draw: nat)
    requires 0 < periodSecs
  {
    var remaining := Max(endTs - nowTs, 0);
    var periods := Max(remaining / periodSecs, 1);
    Rounding.DivAntitone(wallet + residue, 1, periods);
    var cap := (wallet + residue) / periods;
    if cap > residue then cap - residue else 0
  }

  /** daemon.mjs: the same cap, without clamping the time left first. */
  function DaemonCap(pot: nat, residue: nat, endTs: int, periodSecs: int, now: int): (cap: nat)
    requires 0 < periodSecs
  {
    var periods := Max((endTs - now) / periodSecs, 1);
    Rounding.DivAntitone(pot + residue, 1, periods);
    (pot + residue) / periods
  }

  /** The program's cap. Times are those a clock and an admissible plan can show. */
  function OnChainCap(plan: SellPlan, now: I64, pot: nat): (cap: nat)
    requires 0 < plan.periodSecs && plan.endTs - now <= I64_MAX
    ensures cap <= pot
  {
    PeriodsExact(plan, now);
    Rounding.DivAntitone(pot, 1, RemainingPeriods(plan, now).value);
    pot / RemainingPeriods(plan, now).value
  }

  /** Program, library and daemon count periods three different ways and agree on the cap. */
  lemma CapsAgree(plan: SellPlan, now: I64, wallet: nat, residue: nat)
    requires 0 < plan.periodSecs && plan.endTs - now <= I64_MAX
    ensures var cap := OnChainCap(plan, now, wallet + residue);
            DaemonCap(wallet, residue, plan.endTs, plan.periodSecs, now) == cap
            && AmortizedDraw(wallet, plan.endTs, plan.periodSecs, now, residue) == Max(cap - residue, 0)
  {
    PeriodsExact(plan, now);
    if plan.endTs < now {
      Rounding.DivMono(plan.endTs - now, 0, plan.periodSecs);
      Rounding.DivUnique(0, plan.periodSecs, 0);
    }
  }

  /** The pull is in the wallet, and the program's cap lets the transient through once it is made. */
  predicate Accepts(plan: SellPlan, at: I64, wallet: U64, residue: U64, pull: nat) {
    pull <= wallet && pull + residue < U64_LIMIT && DrawWithinCap(plan, at, wallet - pull, pull + residue).Ok?
  }

  /** The program accepts a pull exactly when it brings the transient to at most the cap. */
  lemma AcceptedIff(plan: SellPlan, at: I64, wallet: U64, residue: U64, pull: nat)
    requires 0 < plan.periodSecs && plan.endTs - at <= I64_MAX && pull <= wallet && pull + residue < U64_LIMIT
    ensures Accepts(plan, at, wallet, residue, pull) <==> pull + residue <= OnChainCap(plan, at, wallet + residue)
  {
    PeriodsExact(plan, at);
  }

  /** The library's pull is feasible and maximal: if the residue is within the cap, exactly the pulls up
      to it are accepted, and they still are at any later clock; otherwise none is. */
  lemma AmortizedDrawIsMaximal(plan: SellPlan, now: I64, later: I64, wallet: U64, residue: U64, pull: nat)
    requires 0 < plan.periodSecs && plan.endTs - now <= I64_MAX && now <= later
    requires pull <= wallet && pull + residue < U64_LIMIT
    ensures AmortizedDraw(wallet, plan.endTs, plan.periodSecs, now, residue) <= wallet
    ensures Accepts(plan, now, wallet, residue, pull) <==>
            residue <= OnChainCap(plan, now, wallet + residue)
            && pull <= AmortizedDraw(wallet, plan.endTs, plan.periodSecs, now, residue)
    ensures Accepts(plan, now, wallet, residue, pull) ==> Accepts(plan, later, wallet, residue, pull)
  {
    CapsAgree(plan, now, wallet, residue);
    AcceptedIff(plan, now, wallet, residue, pull);
    AcceptedIff(plan, later, wallet, residue, pull);
    CapGrows(plan, now, later, wallet + residue);
  }

  /** The cap never shrinks as the clock moves on. */
  lemma CapGrows(plan: SellPlan, now: I64, later: I64, pot: nat)
    requires 0 < plan.periodSecs && plan.endTs - now <= I64_MAX && now <= later
    ensures OnChainCap(plan, now, pot) <= OnChainCap(plan, later, pot)
  {
    PeriodsAntitone(plan, now, later);
    Rounding.DivAntitone(pot, RemainingPeriods(plan, later).value, RemainingPeriods(plan, now).value);
  }

  // ---- The daemon's view ----

  datatype Delegation = Delegation(
    address: Key, delegator: Key, mint: Key, expiryTs: int,
    amountPerPeriod: U64, periodLengthS: nat, currentPeriodStartTs: int, amountPulledInPeriod: U64)

  /** What the native rail lets the keeper pull now. */
  function Available(d: Delegation, now: int): (a: U64)
    ensures a <= d.amountPerPeriod
  {
    if now >= d.currentPeriodStartTs + d.periodLengthS then d.amountPerPeriod
    else if d.amountPerPeriod > d.amountPulledInPeriod then d.amountPerPeriod - d.amountPulledInPeriod
    else 0
  }

  /** The daemon's fixture file. */
  datatype Fixture = Fixture(
    usdcMint: Key, targetMint: Key, mockSwap: Key, poolSeed: nat, poolUsdc: Key, poolTarget: Key, slippageBps: U16)

  /** The fee configuration as read; no destination when the account does not exist. */
  datatype FeeView = FeeView(bps: U16, destination: Option<Key>)

  function FeeOwner(fee: FeeView, keeper: Key): Key {
    if fee.destination.Some? then fee.destination.value else keeper
  }

  /** Amounts are encoded in eight bytes; higher bits, and a sign, are dropped. */
  function Encode(x: int): U64 { x % U64_LIMIT }

  /** The daemon's floor, at the one-dollar reference with six decimals on both sides. */
  function FloorOut(amountIn: int, slippageBps: U16): int {
    TruncDiv(amountIn * (10_000 - slippageBps), 10_000)
  }

  function FeeOn(amountIn: nat, fee: FeeView): (f: nat) {
    Rounding.MulMono(0, amountIn, fee.bps);
    Rounding.LeDiv(0, amountIn * fee.bps, 10_000);
    amountIn * fee.bps / 10_000
  }

  /** What the execute instruction asks of the mock venue, both ways round. */
  function Leg(f: Fixture, side: Floors.Side, keeper: Key, user: Key, fee: FeeView, amountIn: nat): MockSwap {
    var net := amountIn - FeeOn(amountIn, fee);
    var minOut := FloorOut(net, f.slippageBps);
    var (inMint, outMint) := if side.Buy? then (f.usdcMint, f.targetMint) else (f.targetMint, f.usdcMint);
    var (poolIn, poolOut) := if side.Buy? then (f.poolUsdc, f.poolTarget) else (f.poolTarget, f.poolUsdc);
    MockSwap(f.mockSwap, f.poolSeed, user, inMint, outMint, poolIn, poolOut,
             Ata(FeeOwner(fee, keeper), inMint), Encode(FeeOn(amountIn, fee)), Encode(net),
             Encode(minOut))
  }

  datatype Crank = Skip | Send(ixs: seq<Instruction>)

  function Prelude(m: MockSwap): seq<Instruction> {
    [CreateAta(BuyAuthority(m.user), m.inMint), CreateAta(m.user, m.outMint)]
  }

  function BuyInstruction(keeper: Key, m: MockSwap): Instruction {
    ExecuteBuy(BuyArgs(keeper, m.user, m.Transient(), m.Dest(), m.feeAta, m.Call(), m.minOut))
  }

  function SellInstruction(keeper: Key, m: MockSwap): Instruction {
    ExecuteSell(SellArgs(keeper, m.user, m.Transient(), Ata(m.user, m.inMint), m.Dest(), m.feeAta, m.Call(), m.minOut))
  }

  /** crankBuy, from the amount available and the residue it reads. */
  function CrankBuySpec(f: Fixture, keeper: Key, user: Key, fee: FeeView, avail: U64, residue: U64): Crank {
    if avail == 0 then Skip else
      var m := Leg(f, Floors.Buy, keeper, user, fee, avail + residue);
      Send(Prelude(m) + [Pull(user, f.usdcMint, avail)] + [BuyInstruction(keeper, m)])
  }

  function DaemonPull(plan: SellPlan, now: int, pot: U64, residue: U64, avail: U64): nat
    requires 0 < plan.periodSecs
  {
    var cap := DaemonCap(pot, residue, plan.endTs, plan.periodSecs, now);
    var pull := if cap > residue then cap - residue else 0;
    if pull > avail then avail else pull
  }

  /** crankSell, from the plan, balances and availability it reads. */
  function CrankSellSpec(f: Fixture, keeper: Key, user: Key, fee: FeeView, plan: Option<SellPlan>, now: int,
                         pot: U64, residue: U64, avail: U64): Crank
    requires plan.Some? ==> 0 < plan.value.periodSecs
  {
    if plan.None? || plan.value.nextDueTs > plan.value.endTs || now < plan.value.nextDueTs then Skip else
      var pull := DaemonPull(plan.value, now, pot, residue, avail);
      if pull == 0 && residue == 0 then Skip else
        var m := Leg(f, Floors.Sell, keeper, user, fee, pull + residue);
        Send(Prelude(m) + (if pull > 0 then [Pull(user, f.targetMint, Encode(pull))] else [])
             + [SellInstruction(keeper, m)])
  }

  /** crankBuy as the daemon runs it. */
  method CrankBuy(f: Fixture, keeper: Key, del: Delegation, now: int, fee: FeeView, residue: U64) returns (r: Crank)
    ensures r == CrankBuySpec(f, keeper, del.delegator, fee, Available(del, now), residue)
  {
    var user := del.delegator;
    var avail := Available(del, now);
    if avail <= 0 { return Skip; }
    var amountIn := avail + residue;
    var feeAmount := FeeOn(amountIn, fee);
    var net := amountIn - feeAmount;
    var minOut := FloorOut(net, f.slippageBps);
    var feeAta := Ata(FeeOwner(fee, keeper), f.usdcMint);
    var swap := MockSwap(f.mockSwap, f.poolSeed, user, f.usdcMint, f.targetMint, f.poolUsdc, f.poolTarget,
                         feeAta, Encode(feeAmount), Encode(net), Encode(minOut));
    var ixs := Prelude(swap);
    ixs := ixs + [Pull(user, f.usdcMint, avail)];
    ixs := ixs + [BuyInstruction(keeper, swap)];
    r := Send(ixs);
  }

  /** crankSell as the daemon runs it. */
  method CrankSell(f: Fixture, keeper: Key, del: Delegation, now: int, fee: FeeView, plan: Option<SellPlan>,
                   pot: U64, residue: U64) returns (r: Crank)
    requires plan.Some? ==> 0 < plan.value.periodSecs
    ensures r == CrankSellSpec(f, keeper, del.delegator, fee, plan, now, pot, residue, Available(del, now))
  {
    var user := del.delegator;
    if plan.None? { return Skip; }
    if plan.value.nextDueTs > plan.value.endTs { return Skip; }
    if now < plan.value.nextDueTs { return Skip; }
    var cap := DaemonCap(pot, residue, plan.value.endTs, plan.value.periodSecs, now);
    var pull: nat := if cap > residue then cap - residue else 0;
    var avail := Available(del, now);
    if pull > avail { pull := avail; }
    if pull <= 0 && residue <= 0 { return Skip; }
    var amountIn := pull + residue;
    var feeAmount := FeeOn(amountIn, fee);
    var net := amountIn - feeAmount;
    var minOut := FloorOut(net, f.slippageBps);
    var feeAta := Ata(FeeOwner(fee, keeper), f.targetMint);
    var swap := MockSwap(f.mockSwap, f.poolSeed, user, f.targetMint, f.usdcMint, f.poolTarget, f.poolUsdc,
                         feeAta, Encode(feeAmount), Encode(net), Encode(minOut));
    var ixs := Prelude(swap);
    if pull > 0 { ixs := ixs + [Pull(user, f.targetMint, Encode(pull))]; }
    ixs := ixs + [SellInstruction(keeper, swap)];
    r := Send(ixs);
  }
}
