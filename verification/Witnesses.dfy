// Concrete deployments and runs: the premises of the agreement results can be met, and each property that
// the documents promise without a condition fails on a run shown here.
module Witnesses {
  import opened Machine
  import opened Ledger
  import opened Schedule
  import opened Floors
  import opened Program
  import opened Executions
  import opened Exposure
  import opened Runs
  import opened CrankRuns
  import opened PlanRuns
  import opened MockVenue
  import opened Keeper
  import opened Agreement
  import opened Turns
  import opened DaemonRunway
  import Rounding

  const USER: Key := Raw(10)
  const FEE_OWNER: Key := Raw(11)
  const USDC: Key := Raw(20)
  const TARGET: Key := Raw(21)
  const VENUE: Key := Raw(22)
  const FIXTURE: Fixture :=
    Fixture(USDC, TARGET, VENUE, 0, TokenAccount(USDC, Pda(VENUE, 0), 0), TokenAccount(TARGET, Pda(VENUE, 0), 0), 100)
  const FEE: FeeView := FeeView(50, Some(FEE_OWNER))

  // ---- A deployment ----

  /** The user's wallet, their two transients, the fee accounts, and two pools of a thousand. */
  function Book(wallet: U64, toSpend: U64, toSell: U64): Balances {
    map[Ata(USER, TARGET) := wallet]
       [Ata(BuyAuthority(USER), USDC) := toSpend][Ata(BuyAuthority(USER), TARGET) := toSell]
       [Ata(USER, USDC) := 0][Ata(FEE_OWNER, TARGET) := 0][Ata(FEE_OWNER,
           USDC) := 0][FIXTURE.poolUsdc := 1000][FIXTURE.poolTarget := 1000]
  }

  function PlanTo(end: I64): SellPlan { SellPlan(USER, end, 60, 0) }

  /** One plan of sixty-second periods, opened at clock zero. */
  function Example(end: I64, wallet: U64, toSpend: U64, toSell: U64): State {
    State(Book(wallet, toSpend, toSell),
          Some(Config(Raw(9), TARGET, USDC, Padded([VENUE]), 1, DOLLAR, 6, 100, false)),
          Some(FeeConfig(50, FEE_OWNER)), map[USER := PlanTo(end)], [])
  }

  lemma AddedBalance(l: Balances, k: Key, v: U64, mint: Key)
    requires k !in l
    ensures Total(l[k := v], mint) <= Total(l, mint) + v
  {
    var l2 := l[k := v];
    SumSplit(l2, l2.Keys, k, mint);
    assert l2.Keys - {k} == l.Keys;
    SumCongruent(l, l2, l.Keys, mint);
  }

  lemma BookSupply(wallet: U64, toSpend: U64, toSell: U64, mint: Key)
    requires wallet <= 1000 && toSpend <= 1000 && toSell <= 1000
    ensures Total(Book(wallet, toSpend, toSell), mint) <= 5000
  {
    var l0: Balances := map[];
    var l1 := l0[Ata(USER, TARGET) := wallet];
    var l2 := l1[Ata(BuyAuthority(USER), USDC) := toSpend];
    var l3 := l2[Ata(BuyAuthority(USER), TARGET) := toSell];
    var l4 := l3[Ata(USER, USDC) := 0];
    var l5 := l4[Ata(FEE_OWNER, TARGET) := 0];
    var l6 := l5[Ata(FEE_OWNER, USDC) := 0];
    var l7 := l6[FIXTURE.poolUsdc := 1000];
    assert Total(l0, mint) == 0;
    AddedBalance(l0, Ata(USER, TARGET), wallet, mint);
    AddedBalance(l1, Ata(BuyAuthority(USER), USDC), toSpend, mint);
    AddedBalance(l2, Ata(BuyAuthority(USER), TARGET), toSell, mint);
    AddedBalance(l3, Ata(USER, USDC), 0, mint);
    AddedBalance(l4, Ata(FEE_OWNER, TARGET), 0, mint);
    AddedBalance(l5, Ata(FEE_OWNER, USDC), 0, mint);
    AddedBalance(l6, FIXTURE.poolUsdc, 1000, mint);
    AddedBalance(l7, FIXTURE.poolTarget, 1000, mint);
  }

  lemma ExampleDeployed(end: I64, wallet: U64, toSpend: U64, toSell: U64)
    requires 0 <= end && wallet <= 1000 && toSpend <= 1000 && toSell <= 1000
    ensures Deployed(Example(end, wallet, toSpend, toSell), FIXTURE, FEE)
    ensures 60 < end ==> Opened(PlanTo(end), 0)
  {
    forall mint: Key ensures Total(Book(wallet, toSpend, toSell), mint) < U64_LIMIT {
      BookSupply(wallet, toSpend, toSell, mint);
    }
    assert Example(end, wallet, toSpend, toSell).config.value.swapPrograms[0] == VENUE;
  }

  // ---- Two ticks, under two delegations ----

  lemma RunwayStart() returns (s: State)
    ensures AfterTicks(s, FIXTURE, FEE, USER, PlanTo(121), 0, 0, 5, 0) && Periods(PlanTo(121), 0) == 2
    ensures WalletOf(s, FIXTURE, USER) == 5 && Residue(s, FIXTURE, USER) == 0
  {
    s := FiveToSell();
    TwoPeriods();
    FreshStart(s, FIXTURE, FEE, USER, 0);
  }

  lemma FiveToSell() returns (s: State)
    ensures Deployed(s, FIXTURE, FEE) && Ata(USER, TARGET) in s.ledger && Ata(FEE_OWNER, TARGET) in s.ledger
    ensures USER in s.plans && s.plans[USER] == PlanTo(121) && Bal(s.ledger, Ata(USER, USDC)) == 0
    ensures WalletOf(s, FIXTURE, USER) == 5 && Residue(s, FIXTURE, USER) == 0 && 5 <= Bal(s.ledger, FIXTURE.poolUsdc)
  {
    s := Example(121, 5, 0, 0);
    ExampleDeployed(121, 5, 0, 0);
  }

  lemma TwoPeriods()
    ensures Opened(PlanTo(121), 0) && Periods(PlanTo(121), 0) == 2
  {
  }

  lemma RunwayTimes(times: seq<I64>)
    requires times == [0, 60]
    ensures EachOnTime(PlanTo(121), 0, times)
  {
    assert OnTimeIn(PlanTo(121), 0, 0, 0) && OnTimeIn(PlanTo(121), 0, 60, 1);
  }

  lemma FirstTwoThen(a: U64)
    requires 2 <= a <= 3
    ensures LeftBefore(5, 2, [2, a], 2) == 3 - a && Proceeds(5, 2, [2, a], 2, 50) == 2 + a
  {
    var avails: seq<U64> := [2, a];
    assert LeftBefore(5, 2, avails, 1) == 3;
    assert DrawAt(5, 2, avails, 0) == 2 && DrawAt(5, 2, avails, 1) == a;
    assert Proceeds(5, 2, avails, 1, 50) == 2;
  }

  lemma {:induction false} TwoTicks(s: State, keeper: KeyPair, a: U64, times: seq<I64>)
    requires AfterTicks(s, FIXTURE, FEE, USER, PlanTo(121), 0, 0, 5, 0) && Periods(PlanTo(121), 0) == 2
    requires 2 <= a <= 3 && |times| == 2 && EachOnTime(PlanTo(121), 0, times)
    ensures var t := Ticks(s, FIXTURE, FEE, keeper, USER, [2, a], times);
            WalletOf(t, FIXTURE, USER) == 3 - a && Residue(t, FIXTURE, USER) == 0
            && Bal(t.ledger, Ata(USER, USDC)) == 2 + a
  {
    FirstTwoThen(a);
    DaemonRunway.DaemonRunway(s, FIXTURE, FEE, keeper, USER, PlanTo(121), 0, 5, 2, 0, [2, a], times);
  }

  /** There is a deployment in which the daemon's two ticks sell a pot of five, as two and three. */
  lemma {:induction false} ExampleRunway(keeper: KeyPair) returns (s: State, times: seq<I64>)
    ensures WalletOf(s, FIXTURE, USER) == 5 && Residue(s, FIXTURE, USER) == 0 && EachOnTime(PlanTo(121), 0, times)
    ensures |times| == 2
    ensures var t := Ticks(s, FIXTURE, FEE, keeper, USER, [2, 3], times);
            WalletOf(t, FIXTURE, USER) == 0 && Residue(t, FIXTURE, USER) == 0 && Bal(t.ledger, Ata(USER, USDC)) == 5
  {
    s := RunwayStart();
    times := [0, 60];
    RunwayTimes(times);
    TwoTicks(s, keeper, 3, times);
  }

  /** Under a delegation sized to the even share, two a tick, the same two on-time ticks leave a unit behind. */
  lemma {:induction false} SizedAllowanceStrands(keeper: KeyPair) returns (s: State, times: seq<I64>)
    ensures WalletOf(s, FIXTURE, USER) == 5 && Residue(s, FIXTURE, USER) == 0 && EachOnTime(PlanTo(121), 0, times)
    ensures |times| == 2
    ensures var t := Ticks(s, FIXTURE, FEE, keeper, USER, [2, 2], times);
            WalletOf(t, FIXTURE, USER) == 1 && Residue(t, FIXTURE, USER) == 0 && Bal(t.ledger, Ata(USER, USDC)) == 4
  {
    s := RunwayStart();
    times := [0, 60];
    RunwayTimes(times);
    TwoTicks(s, keeper, 2, times);
  }

  // ---- One committed tick ----

  /** The example's user has a due plan, nothing in the transient, and at least `wallet` to sell. */
  ghost predicate Sellable(s: State, now: I64, wallet: nat) {
    Deployed(s, FIXTURE, FEE) && 0 <= now <= 1_000_000
    && Ata(USER, TARGET) in s.ledger && Ata(FEE_OWNER, TARGET) in s.ledger && 10 <= Bal(s.ledger, FIXTURE.poolUsdc)
    && USER in s.plans && s.plans[USER].nextDueTs <= s.plans[USER].endTs && s.plans[USER].nextDueTs <= now
    && s.plans[USER].endTs <= 1_000_000 && s.plans[USER].periodSecs == 60
    && Residue(s, FIXTURE, USER) == 0 && wallet <= WalletOf(s, FIXTURE, USER) <= 10
  }

  /** The tick's whole transaction. */
  function TickIxs(keeper: KeyPair, pull: U64): seq<Instruction> {
    var m := Leg(FIXTURE, Sell, keeper, USER, FEE, pull);
    StageIxs(m, pull) + [SellInstruction(keeper, m)]
  }

  /** It neither closes a plan nor, but for a pull, can reach the user's wallet. */
  ghost predicate Quiet(ix: Instruction) {
    ix.CreateAta? || ix.Pull?
    || (ix.ExecuteSell? && Ata(USER, TARGET) !in WritableKeys(ix.sell.venue.remaining))
  }

  /** Its last instruction is a sell for the user, and none of the others is. */
  lemma TickShape(keeper: KeyPair, pull: U64)
    requires 0 < pull
    ensures var ixs := TickIxs(keeper, pull);
            |ixs| == 4 && ixs[3].ExecuteSell? && ixs[3].sell.user == USER
            && (forall k | 0 <= k < 3 :: !ixs[k].ExecuteSell?) && forall k | 0 <= k < 4 :: Quiet(ixs[k])
  {
  }

  /** The pull such a tick makes, given the whole periods its clock leaves. */
  lemma PullIs(s: State, now: I64, wallet: nat, avail: U64, periods: nat)
    requires Sellable(s, now, wallet) && periods == Max((s.plans[USER].endTs - now) / 60, 1) <= wallet
    ensures 0 <= now && PullNow(s, FIXTURE, USER, now, avail) == Least(WalletOf(s, FIXTURE, USER) / periods, avail)
    ensures 1 <= WalletOf(s, FIXTURE, USER) / periods
  {
    Rounding.LeDiv(1, WalletOf(s, FIXTURE, USER), periods);
  }

  lemma TickRuns(s: State, keeper: KeyPair, now: I64, wallet: nat, avail: U64, pull: U64) returns (t: State)
    requires Sellable(s, now, wallet) && 0 < pull <= 10 && pull == PullNow(s, FIXTURE, USER, now, avail)
    ensures StepAll(s, Env(now, {keeper}), TickIxs(keeper, pull)) == Ok(t)
    ensures SellDone(s, Leg(FIXTURE, Sell, keeper, USER, FEE, pull), pull, now, t)
  {
    LegNet(FIXTURE, keeper, USER, FEE, pull);
    var r := StagedSellOutcome(s, FIXTURE, FEE, keeper, USER, now, now, avail);
    t := r.value;
  }

  lemma {:induction false} TickIsLanding(
      s: State, keeper: KeyPair, now: I64, wallet: nat, avail: U64, pull: U64, t: State)
    requires Sellable(s, now, wallet) && 0 < pull && pull == PullNow(s, FIXTURE, USER, now, avail)
    requires StepAll(s, Env(now, {keeper}), TickIxs(keeper, pull)) == Ok(t)
    ensures t == Tick(s, FIXTURE, FEE, keeper, USER, avail, now) && Deployed(t, FIXTURE, FEE)
  {
    CrankSellComposes(FIXTURE, keeper, USER, FEE, s.plans[USER], now, WalletOf(s, FIXTURE, USER), 0, avail);
    SellCrankComposed(s, FIXTURE, FEE, keeper, USER, avail, now);
    TurnConfined(s, FIXTURE, FEE, keeper, Sell, USER, SellCrank(s, FIXTURE, FEE, keeper, USER, avail, now), Some(now));
  }

  /** It commits, sells the pull, and moves the gate. */
  lemma TickCommits(s: State, keeper: KeyPair, now: I64, wallet: nat, avail: U64, periods: nat)
    returns (pull: U64, t: State)
    requires Sellable(s, now, wallet) && periods == Max((s.plans[USER].endTs - now) / 60, 1) <= wallet && 0 < avail
    ensures pull == Least(WalletOf(s, FIXTURE, USER) / periods, avail) && 0 < pull <= WalletOf(s, FIXTURE, USER)
    ensures StepAll(s, Env(now, {keeper}), TickIxs(keeper, pull)) == Ok(t)
    ensures SellDone(s, Leg(FIXTURE, Sell, keeper, USER, FEE, pull), pull, now, t)
    ensures t == Tick(s, FIXTURE, FEE, keeper, USER, avail, now) && Deployed(t, FIXTURE, FEE)
  {
    PullIs(s, now, wallet, avail, periods);
    pull := PullNow(s, FIXTURE, USER, now, avail);
    t := TickRuns(s, keeper, now, wallet, avail, pull);
    TickIsLanding(s, keeper, now, wallet, avail, pull, t);
  }

  /** What the tick leaves of the example's user. */
  lemma TickLeaves(s: State, keeper: KeyPair, now: I64, wallet: nat, pull: U64, t: State)
    requires Sellable(s, now, wallet) && 0 < pull <= WalletOf(s, FIXTURE, USER)
    requires SellDone(s, Leg(FIXTURE, Sell, keeper, USER, FEE, pull), pull, now, t)
    ensures WalletOf(t, FIXTURE, USER) == WalletOf(s, FIXTURE, USER) - pull && Residue(t, FIXTURE, USER) == 0
    ensures Bal(t.ledger, FIXTURE.poolUsdc) >= Bal(s.ledger, FIXTURE.poolUsdc) - pull
    ensures NextGate(s.plans[USER], now).Ok? && USER in t.plans
    ensures t.plans[USER] == s.plans[USER].(nextDueTs := NextGate(s.plans[USER], now).value)
  {
    LegNet(FIXTURE, keeper, USER, FEE, pull);
  }

  // ---- A schedule that runs out early ----

  /** A two-period plan of sixty seconds, cranked one second after it was opened instead of at once: the daemon's
      own tick sells the whole pot, with a period still to come. */
  lemma RunsOutEarly(keeper: KeyPair) returns (s: State, t: State)
    ensures Opened(PlanOf(s, USER), 0) && PlanOf(s, USER) == SellPlan(USER, 120, 60, 0)
            && Periods(PlanOf(s, USER), 0) == 2
    ensures t == Tick(s, FIXTURE, FEE, keeper, USER, 5, 1)
    ensures Pot(s, USER) == 5 && Pot(t, USER) == 0 && PeriodToCome(PlanOf(t, USER))
  {
    s := Example(120, 5, 0, 0);
    ExampleDeployed(120, 5, 0, 0);
    var pull;
    pull, t := TickCommits(s, keeper, 1, 5, 5, 1);
    TickLeaves(s, keeper, 1, 5, pull, t);
    GateJump(s.plans[USER], 1, 0, 0);
  }

  // ---- A full draw smaller than the one before ----

  /** A four-period plan sold in full one second late in interval 1 and then on time in interval 2: both ticks divide
      by two periods, and the second draws two where the first drew five. */
  lemma DrawsShrink(keeper: KeyPair) returns (s: State, t: State, u: State)
    ensures Opened(PlanOf(s, USER), 0) && PlanOf(s, USER) == PlanTo(240) && Periods(PlanTo(240), 0) == 4
    ensures t == Tick(s, FIXTURE, FEE, keeper, USER, 10, 61) && u == Tick(t, FIXTURE, FEE, keeper, USER, 10, 120)
    ensures Recovers(PlanTo(240), 0, 61, 120)
    ensures PeriodsLeft(PlanTo(240), 0, 61) == PeriodsLeft(PlanTo(240), 0, 120) == 2
    ensures Pot(s, USER) == 10 && Pot(t, USER) == 5 && Pot(u, USER) == 3
  {
    LateThenOnTime();
    s, t := LateTick(keeper);
    u := OnTimeTick(t, keeper);
  }

  lemma LateThenOnTime()
    ensures Periods(PlanTo(240), 0) == 4 && Recovers(PlanTo(240), 0, 61, 120)
    ensures PeriodsLeft(PlanTo(240), 0, 61) == PeriodsLeft(PlanTo(240), 0, 120) == 2
  {
  }

  lemma PotIs(s: State)
    requires Deployed(s, FIXTURE, FEE)
    ensures Pot(s, USER) == WalletOf(s, FIXTURE, USER) + Residue(s, FIXTURE, USER)
  {
  }

  lemma LateTick(keeper: KeyPair) returns (s: State, t: State)
    ensures Opened(PlanOf(s, USER), 0) && PlanOf(s, USER) == PlanTo(240)
    ensures t == Tick(s, FIXTURE, FEE, keeper, USER, 10, 61) && Sellable(t, 120, 5) && WalletOf(t, FIXTURE, USER) == 5
    ensures t.plans[USER].endTs == 240 && Pot(s, USER) == 10 && Pot(t, USER) == 5
  {
    s := LateStart();
    var pull;
    pull, t := TickCommits(s, keeper, 61, 10, 10, 2);
    TickLeaves(s, keeper, 61, 10, pull, t);
    GateJump(s.plans[USER], 61, 0, 0);
    StillSellable(s, keeper, pull, t);
    PotIs(t);
  }

  lemma OnTimeTick(t: State, keeper: KeyPair) returns (u: State)
    requires Sellable(t, 120, 5) && WalletOf(t, FIXTURE, USER) == 5 && t.plans[USER].endTs == 240
    ensures u == Tick(t, FIXTURE, FEE, keeper, USER, 10, 120) && Pot(u, USER) == 3
  {
    var pull;
    pull, u := TickCommits(t, keeper, 120, 5, 10, 2);
    TickLeaves(t, keeper, 120, 5, pull, u);
    PotIs(u);
  }

  lemma LateStart() returns (s: State)
    ensures Sellable(s, 61, 10) && WalletOf(s, FIXTURE, USER) == 10 && 1000 <= Bal(s.ledger, FIXTURE.poolUsdc)
    ensures s.plans[USER] == PlanTo(240) && Opened(PlanTo(240), 0) && Pot(s, USER) == 10
  {
    s := Example(240, 10, 0, 0);
    ExampleDeployed(240, 10, 0, 0);
  }

  lemma StillSellable(s: State, keeper: KeyPair, pull: U64, t: State)
    requires Sellable(s, 61, 10) && pull == 5 && 1000 <= Bal(s.ledger, FIXTURE.poolUsdc)
    requires SellDone(s, Leg(FIXTURE, Sell, keeper, USER, FEE, pull), pull, 61, t) && Deployed(t, FIXTURE, FEE)
    requires WalletOf(t, FIXTURE, USER) == 5 && Residue(t, FIXTURE, USER) == 0 && USER in t.plans
    requires 995 <= Bal(t.ledger, FIXTURE.poolUsdc) && t.plans[USER] == PlanTo(240).(nextDueTs := 120)
    ensures Sellable(t, 120, 5)
  {
  }

  // ---- How many cranks a schedule gets ----

  /** The example after a first tick at clock zero that may pull two. */
  lemma FirstTick(keeper: KeyPair, end: I64) returns (s: State, pull: U64, t: State)
    requires 60 < end <= 181
    ensures USER in s.plans && s.plans[USER] == PlanTo(end) && Opened(PlanTo(end), 0)
    ensures s.config.Some? && s.config.value.targetMint == TARGET && 0 < Pot(s, USER)
    ensures 0 < pull && StepAll(s, Env(0, {keeper}), TickIxs(keeper, pull)) == Ok(t)
    ensures USER in t.plans && t.plans[USER] == PlanTo(end).(nextDueTs := 60)
    ensures forall now: I64 | 60 <= now <= 1_000_000 :: Sellable(t, now, 3)
  {
    s := Example(end, 5, 0, 0);
    ExampleDeployed(end, 5, 0, 0);
    pull, t := TickCommits(s, keeper, 0, 5, 2, end / 60);
    TickLeaves(s, keeper, 0, 5, pull, t);
    GateJump(s.plans[USER], 0, 0, 0);
    FirstLeaves(s, keeper, pull, t);
  }

  lemma FirstLeaves(s: State, keeper: KeyPair, pull: U64, t: State)
    requires SellDone(s, Leg(FIXTURE, Sell, keeper, USER, FEE, pull), pull, 0, t)
    requires s.ledger == Book(5, 0, 0)
    ensures s.ledger.Keys <= t.ledger.Keys
  {
  }

  /** The events of one tick: three that sell nothing, then the sell. */
  ghost predicate OneTick(es: seq<Event>, now: I64) {
    |es| == 4 && SellFor(es[3], USER) && es[3].env.now == now
    && (forall k | 0 <= k < 3 :: !SellFor(es[k], USER)) && forall k | 0 <= k < 4 :: Quiet(es[k].ix)
  }

  lemma {:induction false} TickTrace(
      s: State, keeper: KeyPair, now: I64, pull: U64, t: State)
    returns (ss: seq<State>, es: seq<Event>)
    requires 0 < pull && StepAll(s, Env(now, {keeper}), TickIxs(keeper, pull)) == Ok(t)
    ensures Trace(ss, es) && ss[0] == s && OneTick(es, now) && ss[4] == t
    ensures forall k | 0 <= k < 4 :: es[k].env.signers == {keeper}
  {
    TickShape(keeper, pull);
    ss, es := StepAllTrace(s, Env(now, {keeper}), TickIxs(keeper, pull));
  }

  lemma TwoTicksSellTwice(es: seq<Event>, fs: seq<Event>, now: I64, later: I64)
    requires OneTick(es, now) && OneTick(fs, later)
    ensures forall k | 0 <= k < 8 :: SellFor((es + fs)[k], USER) <==> k == 3 || k == 7
    ensures forall k | 0 <= k < 8 :: Quiet((es + fs)[k].ix)
    ensures (es + fs)[3].env.now == now && (es + fs)[7].env.now == later
  {
  }

  /** A life of the example's plan with a tick at zero and another at `later`, and nothing else. */
  lemma {:induction false} TwoSells(keeper: KeyPair, end: I64, later: I64) returns (ss: seq<State>, es: seq<Event>)
    requires 60 < end <= 181 && 60 <= later <= 1_000_000
    ensures Life(ss, es, USER, 0) && PlanOf(ss[0], USER) == PlanTo(end) && |es| == 8
    ensures forall k | 0 <= k < 8 :: SellFor(es[k], USER) <==> k == 3 || k == 7
    ensures es[3].env.now == 0 && es[7].env.now == later
    ensures ss[0].config.Some? && ss[0].config.value.targetMint == TARGET && 0 < Pot(ss[0], USER)
    ensures forall k | 0 <= k < 8 :: Quiet(es[k].ix) && es[k].env.signers == {keeper}
  {
    var s, first, t := FirstTick(keeper, end);
    var second, u := TickCommits(t, keeper, later, 3, 2, Max((end - later) / 60, 1));
    var ts, fs := TickTrace(s, keeper, 0, first, t);
    var us, gs := TickTrace(t, keeper, later, second, u);
    Joined(ts, fs, us, gs);
    TwoTicksSellTwice(fs, gs, 0, later);
    ss, es := ts + us[1..], fs + gs;
    QuietLife(ss, es, end);
    OneSigner(fs, gs, keeper);
  }

  lemma QuietLife(ss: seq<State>, es: seq<Event>, end: I64)
    requires Trace(ss, es) && |es| == 8 && forall k | 0 <= k < 8 :: Quiet(es[k].ix)
    requires USER in ss[0].plans && ss[0].plans[USER] == PlanTo(end) && Opened(PlanTo(end), 0)
    ensures Life(ss, es, USER, 0)
  {
  }

  lemma OneSigner(fs: seq<Event>, gs: seq<Event>, keeper: KeyPair)
    requires |fs| == 4 && |gs| == 4
    requires forall k | 0 <= k < 4 :: fs[k].env.signers == {keeper} && gs[k].env.signers == {keeper}
    ensures forall k | 0 <= k < 8 :: (fs + gs)[k].env.signers == {keeper}
  {
  }

  lemma {:induction false} CountTwo(es: seq<Event>)
    requires |es| == 8 && forall k | 0 <= k < 8 :: SellFor(es[k], USER) <==> k == 3 || k == 7
    ensures Cranks(Clocks(es, USER), 8) == 2
  {
    var clocks := Clocks(es, USER);
    forall k | 0 <= k < 8 ensures clocks[k].Some? <==> k == 3 || k == 7 {
      assert clocks[k] == ClockOf(es[k], USER);
    }
    assert Cranks(clocks, 1) == 0;
    assert Cranks(clocks, 3) == 0;
    assert Cranks(clocks, 5) == 1;
    assert Cranks(clocks, 7) == 1;
  }

  /** The bound of N + 1 is reached: a one-period plan sold at the start of interval 0 and of interval 1. */
  lemma {:induction false} EveryCrankServed(keeper: KeyPair) returns (ss: seq<State>, es: seq<Event>)
    ensures Life(ss, es, USER, 0) && PlanOf(ss[0], USER) == PlanTo(61) && Periods(PlanTo(61), 0) == 1
    ensures Cranks(Clocks(es, USER), |es|) == 2
  {
    ss, es := TwoSells(keeper, 61, 60);
    CountTwo(es);
  }

  /** It is reached with no sell in interval N too: the last one may come any time later. */
  lemma {:induction false} LastCrankLate(keeper: KeyPair) returns (ss: seq<State>, es: seq<Event>)
    ensures Life(ss, es, USER, 0) && PlanOf(ss[0], USER) == PlanTo(61) && Periods(PlanTo(61), 0) == 1
    ensures Cranks(Clocks(es, USER), |es|) == 2 && !SoldIn(es, |es|, USER, 0, 60, 1)
  {
    ss, es := TwoSells(keeper, 61, 1_000);
    CountTwo(es);
  }

  /** A due period may pass without its crank and is then lost: a three-period plan sold in intervals 0 and 2,
      due throughout interval 1, has no sell there, and its gate has moved past it. */
  lemma {:induction false} PeriodSkipped(keeper: KeyPair) returns (ss: seq<State>, es: seq<Event>)
    ensures Life(ss, es, USER, 0) && PlanOf(ss[0], USER) == PlanTo(181) && Periods(PlanTo(181), 0) == 3
    ensures SoldIn(es, |es|, USER, 0, 60, 0) && !SoldIn(es, |es|, USER, 0, 60, 1) && SoldIn(es, |es|, USER, 0, 60, 2)
    ensures 120 < PlanOf(ss[|es|], USER).nextDueTs && Cranks(Clocks(es, USER), |es|) == 2
  {
    ss, es := TwoSells(keeper, 181, 120);
    CountTwo(es);
    assert SellFor(es[3], USER) && Interval(0, 60, es[3].env.now) == 0;
    assert SellFor(es[7], USER) && Interval(0, 60, es[7].env.now) == 2;
    SellMovesGate(ss, es, USER, 0, 7);
  }

  // ---- A user who cranks for themselves ----

  /** A life of the plan in which its user signs every sell, and which leaves the pot to the schedule: the depletion
      results hold of it. */
  lemma {:induction false} SelfCranked() returns (ss: seq<State>, es: seq<Event>)
    ensures Life(ss, es, USER, 0) && PlanOf(ss[0], USER) == PlanTo(181) && ss[0].config.Some? && 0 < Pot(ss[0], USER)
    ensures |es| == 8 && SellFor(es[3], USER) && SellFor(es[7], USER)
    ensures USER in es[3].env.signers && USER in es[7].env.signers && PotLeftAlone(ss, es, USER)
  {
    ss, es := TwoSells(USER, 181, 120);
    forall i: nat | i < |es| ensures UndisturbedAt(ss, es, USER, i) {
      ConfigPersists(ss, es, i);
      QuietLeavesPot(ss[i], es[i], ss[i + 1]);
    }
  }

  lemma QuietLeavesPot(s: State, e: Event, t: State)
    requires Quiet(e.ix) && s.config.Some? && s.config.value.targetMint == TARGET
    ensures Undisturbed(s, e, t, USER)
  {
  }

  /** The example with two in the sell transient, and the daemon's own sell, signed by the user as well. */
  lemma StagedSell(keeper: KeyPair, env: Env) returns (s: State, a: SellArgs)
    requires env == Env(0, {keeper, USER})
    ensures Deployed(s, FIXTURE, FEE) && SellEffect(s, env, a).Ok? && a.user == USER
    ensures s.ledger == Book(5, 0, 2) && a == SellInstruction(keeper, Leg(FIXTURE, Sell, keeper, USER, FEE, 2)).sell
  {
    s := Example(120, 5, 0, 2);
    ExampleDeployed(120, 5, 0, 2);
    var m := Leg(FIXTURE, Sell, keeper, USER, FEE, 2);
    TwoToSell(s, keeper, m);
    SellExecutes(s, FIXTURE, FEE, m, keeper, 2, env);
    a := SellInstruction(keeper, m).sell;
  }

  lemma TwoToSell(s: State, keeper: KeyPair, m: MockSwap)
    requires s == Example(120, 5, 0, 2) && Deployed(s, FIXTURE, FEE) && m == Leg(FIXTURE, Sell, keeper, USER, FEE, 2)
    ensures Staged(s, FIXTURE, FEE, m, Sell, keeper, 2) && Due(s, m, 0) && WithinCap(s, m, 0)
    ensures Pays(s, m) && m.FeeLeaves()
  {
    LegAmounts(FIXTURE, Sell, keeper, USER, FEE, 2);
  }

  function SellForwarding(a: SellArgs, more: seq<AccountMeta>): SellArgs {
    a.(venue := a.venue.(remaining := a.venue.remaining + more))
  }

  lemma SellForwardingMore(s: State, env: Env, a: SellArgs, more: seq<AccountMeta>)
    requires SellEffect(s, env, a).Ok?
    ensures SellEffect(s, env, SellForwarding(a, more)).Ok?
  {
    SellMoves(s, env, a);
    var b, q := SellForwarding(a, more), SellQuote(s, env, a).value;
    assert SellQuote(s, env, b) == Ok(q);
    var w, v := SellSwap(a, q), SellSwap(b, q);
    assert w.venue.remaining <= v.venue.remaining;
    assert Forwarded(w, env.signers) <= Forwarded(v, env.signers);
    MoreRights(Skim(s.ledger, w).value, w.venue.ops, Forwarded(w, env.signers), WritableKeys(w.venue.remaining),
               w.venue.program, Forwarded(v, env.signers), WritableKeys(v.venue.remaining));
    SellFromQuote(s, env, b);
  }

  /** The same sell with the user's signature and wallet forwarded. */
  function SelfCrank(b: SellArgs): SellArgs {
    SellForwarding(b, [AccountMeta(USER, false), AccountMeta(Ata(USER, TARGET), true)])
  }

  lemma SelfCrankReaches(s: State, keeper: KeyPair, b: SellArgs, env: Env)
    requires Deployed(s, FIXTURE, FEE) && s.ledger == Book(5, 0, 2) && USER in env.signers
    requires b == SellInstruction(keeper, Leg(FIXTURE, Sell, keeper, USER, FEE, 2)).sell
    requires SellEffect(s, env, SelfCrank(b)).Ok? && SelfCrank(b).user == USER
    ensures WalletExposed(s, Event(env, ExecuteSell(SelfCrank(b))), USER)
  {
    HandsOver(keeper, b, SelfCrank(b));
    SellMoves(s, env, SelfCrank(b));
    WalletReached(s, env, SelfCrank(b), SellQuote(s, env, SelfCrank(b)).value);
  }

  lemma SelfCrankGoes(s: State, b: SellArgs, env: Env)
    requires SellEffect(s, env, b).Ok?
    ensures SellEffect(s, env, SelfCrank(b)).Ok? && SelfCrank(b).user == b.user
  {
    SellForwardingMore(s, env, b, [AccountMeta(USER, false), AccountMeta(Ata(USER, TARGET), true)]);
  }

  lemma SelfCranking(s: State, keeper: KeyPair, b: SellArgs, env: Env) returns (a: SellArgs)
    requires Deployed(s, FIXTURE, FEE) && s.ledger == Book(5, 0, 2) && USER in env.signers && b.user == USER
    requires b == SellInstruction(keeper, Leg(FIXTURE, Sell, keeper, USER, FEE, 2)).sell && SellEffect(s, env, b).Ok?
    ensures a.user == USER && SellEffect(s, env, a).Ok? && WalletExposed(s, Event(env, ExecuteSell(a)), USER)
  {
    SelfCrankGoes(s, b, env);
    SelfCrankReaches(s, keeper, b, env);
    a := SelfCrank(b);
  }

  lemma SellReaching(keeper: KeyPair) returns (s: State, a: SellArgs)
    ensures Deployed(s, FIXTURE, FEE) && a.user == USER && SellEffect(s, Env(0, {keeper, USER}), a).Ok?
    ensures WalletExposed(s, Event(Env(0, {keeper, USER}), ExecuteSell(a)), USER)
  {
    var env := Env(0, {keeper, USER});
    var b;
    s, b := StagedSell(keeper, env);
    a := SelfCranking(s, keeper, b, env);
  }

  /** Some behaviour of the venue then takes more from the pot than the draw. */
  lemma SelfCrankWithdraws(keeper: KeyPair) returns (s: State, a: SellArgs)
    ensures Inv(s) && a.user == USER && SellEffect(s, Env(0, {keeper, USER}), a).Ok?
    ensures var t := SellEffect(s, Env(0, {keeper, USER}), a).value; Pot(t, USER) < Pot(s, USER) - Drawn(s, USER)
  {
    var b;
    s, b := SellReaching(keeper);
    a := TakesWallet(s, Env(0, {keeper, USER}), b);
    PotAfter(s, Env(0, {keeper, USER}), a);
  }

  lemma TakesWallet(s: State, env: Env, b: SellArgs) returns (a: SellArgs)
    requires Deployed(s, FIXTURE, FEE) && b.user == USER && SellEffect(s, env, b).Ok?
    requires WalletExposed(s, Event(env, ExecuteSell(b)), USER)
    ensures a.user == USER && SellLowers(s, env, a, Ata(USER, TARGET))
  {
    WalletSpentIff(s, env, b);
    var ops: seq<TransferOp> :| SellLowers(s, env, SellWith(b, ops), Ata(USER, TARGET));
    a := SellWith(b, ops);
  }

  lemma PotAfter(s: State, env: Env, a: SellArgs)
    requires Deployed(s, FIXTURE, FEE) && a.user == USER && SellLowers(s, env, a, Ata(USER, TARGET))
    ensures Pot(SellEffect(s, env, a).value, USER) < Pot(s, USER) - Drawn(s, USER)
  {
    SellMoves(s, env, a);
    SellOutcome(s, env, a);
  }

  lemma HandsOver(keeper: KeyPair, b: SellArgs, c: SellArgs)
    requires b == SellInstruction(keeper, Leg(FIXTURE, Sell, keeper, USER, FEE, 2)).sell
    requires c == SellForwarding(b, [AccountMeta(USER, false), AccountMeta(Ata(USER, TARGET), true)])
    ensures FIXTURE.poolTarget in WritableKeys(c.venue.remaining)
            && Ata(USER, TARGET) in WritableKeys(c.venue.remaining)
    ensures AccountMeta(USER, false) in c.venue.remaining && c.destUsdc == Ata(USER, USDC)
    ensures c.transientTarget == Ata(BuyAuthority(USER), TARGET)
  {
    assert c.venue.remaining[2] == AccountMeta(FIXTURE.poolTarget, true);
    assert c.venue.remaining[7] == AccountMeta(USER, false);
    assert c.venue.remaining[8] == AccountMeta(Ata(USER, TARGET), true);
  }

  lemma WalletReached(s: State, env: Env, c: SellArgs, q: Quote)
    requires Deployed(s, FIXTURE, FEE) && s.ledger == Book(5, 0, 2) && USER in env.signers
             && SellQuote(s, env, c) == Ok(q)
    requires FIXTURE.poolTarget in WritableKeys(c.venue.remaining)
             && Ata(USER, TARGET) in WritableKeys(c.venue.remaining)
    requires AccountMeta(USER, false) in c.venue.remaining && c.destUsdc == Ata(USER, USDC) && c.user == USER
    requires c.transientTarget == Ata(BuyAuthority(USER), TARGET)
    ensures WalletExposed(s, Event(env, ExecuteSell(c)), USER)
  {
    WalletInBook(s.ledger, SellSwap(c, q), env.signers);
  }

  lemma WalletInBook(l: Balances, w: Swap, signers: Signers)
    requires l == Book(5, 0, 2) && USER in signers && AccountMeta(USER, false) in w.venue.remaining
    requires FIXTURE.poolTarget in WritableKeys(w.venue.remaining)
             && Ata(USER, TARGET) in WritableKeys(w.venue.remaining)
    requires w.transient == Ata(BuyAuthority(USER), TARGET)
    ensures AccountExposed(l, w, signers, Ata(USER, TARGET))
  {
    assert Sink(l, Ata(USER, TARGET), FIXTURE.poolTarget, WritableKeys(w.venue.remaining));
    assert USER in Forwarded(w, signers);
  }

  // ---- A buy that reaches the sell transient ----

  /** More forwarded accounts break nothing. */
  function Forwarding(a: BuyArgs, more: seq<AccountMeta>): BuyArgs {
    a.(venue := a.venue.(remaining := a.venue.remaining + more))
  }

  lemma ForwardingMore(s: State, env: Env, a: BuyArgs, more: seq<AccountMeta>)
    requires BuyEffect(s, env, a).Ok?
    ensures BuyEffect(s, env, Forwarding(a, more)).Ok?
  {
    BuyMoves(s, env, a);
    var b, q := Forwarding(a, more), BuyQuote(s, env, a).value;
    assert BuyQuote(s, env, b) == Ok(q);
    var w, v := BuySwap(a, q), BuySwap(b, q);
    assert w.venue.remaining <= v.venue.remaining;
    assert Forwarded(w, env.signers) <= Forwarded(v, env.signers);
    MoreRights(Skim(s.ledger, w).value, w.venue.ops, Forwarded(w, env.signers), WritableKeys(w.venue.remaining),
               w.venue.program, Forwarded(v, env.signers), WritableKeys(v.venue.remaining));
    BuyFromQuote(s, env, b);
  }

  /** The example with a hundred to spend and seven in the sell transient, and the daemon's own buy, which succeeds. */
  lemma StagedBuy(keeper: KeyPair, signers: Signers) returns (s: State, a: BuyArgs)
    requires keeper in signers
    ensures Deployed(s, FIXTURE, FEE) && BuyEffect(s, Env(0, signers), a).Ok? && a.user == USER
    ensures s.ledger == Book(5, 100, 7) && a == BuyInstruction(keeper, Leg(FIXTURE, Buy, keeper, USER, FEE, 100)).buy
  {
    s := Example(120, 5, 100, 7);
    ExampleDeployed(120, 5, 100, 7);
    var m := Leg(FIXTURE, Buy, keeper, USER, FEE, 100);
    LegAmounts(FIXTURE, Buy, keeper, USER, FEE, 100);
    BuyExecutes(s, FIXTURE, FEE, m, keeper, 100, Env(0, signers));
    a := BuyInstruction(keeper, m).buy;
  }

  /** The same buy with the sell transient forwarded as writable. */
  lemma BuyReaching(keeper: KeyPair) returns (s: State, a: BuyArgs)
    ensures Deployed(s, FIXTURE, FEE) && BuyEffect(s, Env(0, {keeper}), a).Ok? && a.user == USER && Drawn(s, USER) == 7
    ensures SellTransientExposed(s, a)
    ensures Sink(s.ledger, SellTransient(s, USER), FIXTURE.poolTarget, WritableKeys(a.venue.remaining))
  {
    var b;
    s, b := StagedBuy(keeper, {keeper});
    var k := Ata(BuyAuthority(USER), TARGET);
    a := Forwarding(b, [AccountMeta(k, true)]);
    ForwardingMore(s, Env(0, {keeper}), b, [AccountMeta(k, true)]);
    ReachesSellTransient(keeper, b, a, k);
    SevenToSell(s, a);
  }

  lemma SevenToSell(s: State, a: BuyArgs)
    requires Deployed(s, FIXTURE, FEE) && s.ledger == Book(5, 100, 7) && a.user == USER
    requires {SellTransient(s, USER), FIXTURE.poolTarget} <= WritableKeys(a.venue.remaining)
    ensures Drawn(s, USER) == 7 && SellTransientExposed(s, a)
    ensures Sink(s.ledger, SellTransient(s, USER), FIXTURE.poolTarget, WritableKeys(a.venue.remaining))
  {
    assert FIXTURE.poolTarget in WritableKeys(a.venue.remaining);
    assert Sink(s.ledger, SellTransient(s, USER), FIXTURE.poolTarget, WritableKeys(a.venue.remaining));
  }

  /** Some behaviour of the venue then makes that buy succeed and empty the sell transient. */
  lemma BuySpendsSellTransient(keeper: KeyPair) returns (s: State, a: BuyArgs)
    ensures Inv(s) && a.user == USER && Drawn(s, USER) == 7
    ensures BuyEffect(s, Env(0, {keeper}), a).Ok? && Drawn(BuyEffect(s, Env(0, {keeper}), a).value, USER) == 0
  {
    var b;
    s, b := BuyReaching(keeper);
    var ops := ExposedCanBeSpent(s, Env(0, {keeper}), b, FIXTURE.poolTarget);
    a := BuyWith(b, ops);
  }

  lemma ReachesSellTransient(keeper: KeyPair, b: BuyArgs, c: BuyArgs, k: Key)
    requires b == BuyInstruction(keeper, Leg(FIXTURE, Buy, keeper, USER, FEE, 100)).buy
    requires c == Forwarding(b, [AccountMeta(k, true)])
    ensures {k, FIXTURE.poolTarget} <= WritableKeys(c.venue.remaining)
  {
    assert c.venue.remaining[3] == AccountMeta(FIXTURE.poolTarget, true);
    assert c.venue.remaining[7] == AccountMeta(k, true);
  }

  // ---- An owner who signs ----

  /** If the user signs and is forwarded, some behaviour of the venue drains the user's own destination,
      and the buy reports Overflow. */
  lemma OwnerCanOverflow(keeper: KeyPair) returns (s: State, a: BuyArgs)
    ensures Inv(s) && a.user == USER && BuyEffect(s, Env(0, {keeper, USER}), a) == Err(Overflow)
  {
    var b, env := *, Env(0, {keeper, USER});
    s, b := StagedBuy(keeper, {keeper, USER});
    var c := Forwarding(b, [AccountMeta(USER, false)]);
    ForwardingMore(s, env, b, [AccountMeta(USER, false)]);
    BuyMoves(s, env, c);
    var q := BuyQuote(s, env, c).value;
    OwnerForwarded(keeper, b, c, s, env, q);
    OverflowIff(s.ledger, BuySwap(c, q), env.signers);
    var ops: seq<TransferOp> :| SkimAndSwap(s.ledger, WithOps(BuySwap(c, q), ops), env.signers) == Err(Overflow);
    a := BuyWith(c, ops);
    BuyQuoteIgnoresOps(s, env, c, ops);
  }

  lemma OwnerForwarded(keeper: KeyPair, b: BuyArgs, c: BuyArgs, s: State, env: Env, q: Quote)
    requires b == BuyInstruction(keeper, Leg(FIXTURE, Buy, keeper, USER, FEE, 100)).buy
    requires c == Forwarding(b, [AccountMeta(USER, false)]) && s.ledger == Book(5, 100, 7) && USER in env.signers
    ensures DestinationExposed(s.ledger, BuySwap(c, q), env.signers)
  {
    var w := BuySwap(c, q);
    assert c.venue.remaining[3] == AccountMeta(FIXTURE.poolTarget, true);
    assert c.venue.remaining[4] == AccountMeta(w.dest, true);
    assert c.venue.remaining[7] == AccountMeta(USER, false);
    assert Sink(s.ledger, w.dest, FIXTURE.poolTarget, WritableKeys(w.venue.remaining));
  }
}
