// The daemon and the program together: what N on-time ticks pay out of a pot, whatever the delegation allows each.
module DaemonRunway {
  import opened Machine
  import opened Ledger
  import opened Schedule
  import opened Fees
  import opened Floors
  import opened Program
  import opened Executions
  import opened CrankRuns
  import opened Keeper
  import opened Agreement
  import opened Runs
  import opened Turns
  import Rounding

  /** One tick for one user whose transaction lands at once. */
  function Tick(s: State, f: Fixture, fee: FeeView, keeper: KeyPair, user: Key, avail: U64, now: I64): State {
    Land(s, keeper, SellCrank(s, f, fee, keeper, user, avail, now), Some(now))
  }

  /** A tick at each of these times, each with what the delegation then allows. */
  function Ticks(s: State, f: Fixture, fee: FeeView, keeper: KeyPair, user: Key, avails: seq<U64>, times: seq<I64>)
    : State
    requires |avails| == |times|
  {
    if times == [] then s else
      var k := |times| - 1;
      Tick(Ticks(s, f, fee, keeper, user, avails[..k], times[..k]), f, fee, keeper, user, avails[k], times[k])
  }

  // ---- Draws under an allowance ----

  /** A share of what is left, as far as the allowance goes. */
  function Pulled(w: nat, left: nat, avail: nat): (draw: nat)
    requires 0 < left
    ensures draw <= w && draw <= avail
  {
    Rounding.DivAntitone(w, 1, left);
    Least(w / left, avail)
  }

  /** The pot before the k-th of n on-time ticks. */
  function LeftBefore(w0: nat, n: nat, avails: seq<U64>, k: nat): nat
    requires k <= n && k <= |avails|
  {
    if k == 0 then w0 else
      var w := LeftBefore(w0, n, avails, k - 1);
      w - Pulled(w, n - (k - 1), avails[k - 1])
  }

  /** What the k-th tick draws; zero where it has nothing to do. */
  function DrawAt(w0: nat, n: nat, avails: seq<U64>, k: nat): (draw: nat)
    requires k < n && k < |avails|
    ensures draw <= LeftBefore(w0, n, avails, k) && draw <= avails[k]
  {
    Pulled(LeftBefore(w0, n, avails, k), n - k, avails[k])
  }

  /** What is left of a draw after the fee. */
  function AfterFee(draw: nat, bps: U16): int { draw - draw * bps / 10_000 }

  /** The proceeds of the first k ticks. */
  function Proceeds(w0: nat, n: nat, avails: seq<U64>, k: nat, bps: U16): int
    requires k <= n && k <= |avails|
  {
    if k == 0 then 0 else Proceeds(w0, n, avails, k - 1, bps) + AfterFee(DrawAt(w0, n, avails, k - 1), bps)
  }

  lemma LeftStep(w0: nat, n: nat, avails: seq<U64>, k: nat)
    requires k < n && k < |avails|
    ensures LeftBefore(w0, n, avails, k + 1) == LeftBefore(w0, n, avails, k) - DrawAt(w0, n, avails, k)
  {
  }

  /** Allowances cover the first m draws of the runway. */
  ghost predicate Covered(w0: nat, n: nat, avails: seq<U64>, m: nat)
    requires m <= n && m <= |avails|
  {
    forall k | 0 <= k < m :: RunwayDraw(w0, n, k) <= avails[k]
  }

  lemma RunwayShare(w0: nat, n: nat, k: nat)
    requires k < n
    ensures 0 <= RunwayDraw(w0, n, k) <= PotBefore(w0, n, k)
    ensures PotBefore(w0, n, k) / (n - k) == RunwayDraw(w0, n, k)
    ensures PotBefore(w0, n, k + 1) == PotBefore(w0, n, k) - RunwayDraw(w0, n, k)
  {
    RunwayClosedForm(w0, n, k);
    PotBeforeStep(w0, n, k);
    Rounding.DivAntitone(PotBefore(w0, n, k), 1, n - k);
  }

  /** Covered draws are the runway's, and so is what they leave. */
  lemma {:induction false} CoveredLeft(w0: nat, n: nat, avails: seq<U64>, m: nat)
    requires m <= n && m <= |avails| && Covered(w0, n, avails, m)
    ensures LeftBefore(w0, n, avails, m) == PotBefore(w0, n, m)
  {
    if m == 0 {
    } else {
      CoveredLeft(w0, n, avails, m - 1);
      LeftStep(w0, n, avails, m - 1);
      CoveredStep(w0, n, avails, m - 1);
    }
  }

  /** With the runway's pot left, a tick draws the runway's share as far as the allowance goes. */
  lemma {:induction false} RunwayDrawAt(w0: nat, n: nat, avails: seq<U64>, k: nat)
    requires k < n && k < |avails| && LeftBefore(w0, n, avails, k) == PotBefore(w0, n, k)
    ensures DrawAt(w0, n, avails, k) == Least(RunwayDraw(w0, n, k), avails[k])
  {
    RunwayShare(w0, n, k);
  }

  lemma CoveredStep(w0: nat, n: nat, avails: seq<U64>, k: nat)
    requires k < n && k < |avails| && LeftBefore(w0, n, avails, k) == PotBefore(w0, n, k)
    requires RunwayDraw(w0, n, k) <= avails[k]
    ensures LeftBefore(w0, n, avails, k) - DrawAt(w0, n, avails, k) == PotBefore(w0, n, k + 1)
  {
    RunwayDrawAt(w0, n, avails, k);
    RunwayShare(w0, n, k);
  }

  /** Whatever each tick is allowed, they draw the exact runway if and only if every allowance covers its draw. */
  lemma RunwayIff(w0: nat, n: nat, avails: seq<U64>)
    requires |avails| <= n
    ensures (forall k | 0 <= k < |avails| :: DrawAt(w0, n, avails, k) == RunwayDraw(w0, n, k))
            <==> Covered(w0, n, avails, |avails|)
  {
    if Covered(w0, n, avails, |avails|) {
      forall k | 0 <= k < |avails| ensures DrawAt(w0, n, avails, k) == RunwayDraw(w0, n, k) {
        CoveredLeft(w0, n, avails, k);
        RunwayDrawAt(w0, n, avails, k);
      }
    }
  }

  /** An allowance within the even share binds at every tick. */
  lemma AllowanceBinds(w0: nat, n: nat, a: nat, k: nat)
    requires k < n && n * a <= w0
    ensures k * a <= w0 && a <= (w0 - k * a) / (n - k) && w0 - k * a - a == w0 - (k + 1) * a
  {
    Rounding.MulDistribute(k, 1, a);
    Rounding.MulMono(k, n, a);
    Rounding.MulDistribute(n - k, k, a);
    Rounding.LeDiv(a, w0 - k * a, n - k);
  }

  lemma {:induction false} BoundDrawAt(w0: nat, n: nat, avails: seq<U64>, a: U64, k: nat)
    requires k < n && k < |avails| && avails[k] == a && k * a <= w0 && LeftBefore(w0, n, avails, k) == w0 - k * a
    requires a <= (w0 - k * a) / (n - k)
    ensures DrawAt(w0, n, avails, k) == a
  {
  }

  /** One above it never does. */
  lemma AllowanceCovers(w0: nat, n: nat, a: nat, k: nat)
    requires k < n && w0 < n * a
    ensures RunwayDraw(w0, n, k) <= a
  {
    Rounding.LeDiv(a, w0, n);
  }

  /** What k ticks that may each pull a leave: whole allowances less while those are the smaller,
    else the runway's pot. */
  function ConstantPot(w0: nat, n: nat, a: nat, k: nat): int
    requires k <= n
  {
    if n * a <= w0 then w0 - k * a else PotBefore(w0, n, k)
  }

  lemma ConstantStep(w0: nat, n: nat, avails: seq<U64>, a: U64, k: nat)
    requires k < n && k < |avails| && avails[k] == a && LeftBefore(w0, n, avails, k) == ConstantPot(w0, n, a, k)
    ensures LeftBefore(w0, n, avails, k) - DrawAt(w0, n, avails, k) == ConstantPot(w0, n, a, k + 1)
  {
    if n * a <= w0 {
      AllowanceBinds(w0, n, a, k);
      BoundDrawAt(w0, n, avails, a, k);
    } else {
      AllowanceCovers(w0, n, a, k);
      RunwayDrawAt(w0, n, avails, k);
      RunwayShare(w0, n, k);
    }
  }

  lemma {:induction false} ConstantLeft(w0: nat, n: nat, avails: seq<U64>, a: U64, k: nat)
    requires k <= n && k <= |avails| && forall i | 0 <= i < |avails| :: avails[i] == a
    ensures LeftBefore(w0, n, avails, k) == ConstantPot(w0, n, a, k)
  {
    if k == 0 {
    } else {
      ConstantLeft(w0, n, avails, a, k - 1);
      ConstantStep(w0, n, avails, a, k - 1);
      LeftStep(w0, n, avails, k - 1);
    }
  }

  /** So n ticks that may each pull a leave what n allowances do not reach: nothing if and only if they cover the
      pot, and the remainder if a is the pot's even share rounded down. */
  lemma {:induction false} ConstantLeftover(w0: nat, n: nat, avails: seq<U64>, a: U64)
    requires 0 < n == |avails| && forall i | 0 <= i < n :: avails[i] == a
    ensures LeftBefore(w0, n, avails, n) == Max(w0 - n * a, 0)
    ensures LeftBefore(w0, n, avails, n) == 0 <==> w0 <= n * a
    ensures a == w0 / n ==> LeftBefore(w0, n, avails, n) == w0 % n
  {
    ConstantLeft(w0, n, avails, a, n);
    RunwayClosedForm(w0, n, n);
    EvenShare(w0, n);
  }

  lemma EvenShare(w0: nat, n: nat)
    requires 0 < n
    ensures n * (w0 / n) <= w0 && w0 - n * (w0 / n) == w0 % n
  {
    Rounding.DivBounds(w0, n);
  }

  // ---- The deployment after some ticks ----

  /** k intervals of the plan have passed, the user's wallet holds w and their transient nothing, and they have been
      paid `usdc` in all. The gate has passed at most the ticked intervals; fewer, if some had nothing to draw. */
  ghost predicate AfterTicks(s: State, f: Fixture, fee: FeeView, user: Key, plan: SellPlan, open: I64,
                             k: nat, w: nat, usdc: int)
  {
    Deployed(s, f, fee) && user.Raw? && fee.destination.value !in {user, BuyAuthority(user)}
    && Ata(user, f.targetMint) in s.ledger && Ata(fee.destination.value, f.targetMint) in s.ledger
    && user in s.plans && s.plans[user] == plan.(nextDueTs := s.plans[user].nextDueTs)
    && OnGrid(s.plans[user], open) && 0 <= GateIndex(s.plans[user], open) <= k
    && WalletOf(s, f, user) == w && Residue(s, f, user) == 0 && w <= s.ledger[f.poolUsdc]
    && Bal(s.ledger, Ata(user, f.usdcMint)) == usdc
  }

  /** A deployment in which the plan was just opened, with nothing in the transient and a pool that can
      buy the pot, has no tick behind it. */
  lemma FreshStart(s: State, f: Fixture, fee: FeeView, user: Key, open: I64)
    requires Deployed(s, f, fee) && user.Raw? && fee.destination.value !in {user, BuyAuthority(user)}
    requires Ata(user, f.targetMint) in s.ledger && Ata(fee.destination.value, f.targetMint) in s.ledger
    requires user in s.plans && Opened(s.plans[user], open) && Residue(s, f, user) == 0
    requires WalletOf(s, f, user) <= s.ledger[f.poolUsdc]
    ensures OnGrid(s.plans[user], open) && 1 <= Periods(s.plans[user], open)
    ensures AfterTicks(s, f, fee, user, s.plans[user], open, 0, WalletOf(s, f, user),
            Bal(s.ledger, Ata(user, f.usdcMint)))
  {
    OpenedOnGrid(s.plans[user], open);
  }

  /** On time in interval k, a plan whose gate has passed at most k grid points is due, with n - k periods left. */
  lemma DueOnTime(plan: SellPlan, open: I64, now: I64, n: nat, k: nat)
    requires OnGrid(plan, open) && 0 <= GateIndex(plan, open) <= k && OnTimeIn(plan, open, now, k) && 0 <= open
    requires n == Periods(plan, open) && k < n
    ensures plan.nextDueTs <= now && plan.nextDueTs <= plan.endTs && 0 <= now
    ensures RemainingPeriods(plan, now) == Ok(n - k)
  {
    var p := plan.periodSecs;
    Rounding.MulMono(GateIndex(plan, open), k, p);
    Rounding.LeDiv(k, now - open, p);
    Rounding.LeDiv(k, plan.endTs - open, p);
    Rounding.MulMono(0, GateIndex(plan, open), p);
    PeriodsSeen(plan, open, now);
  }

  /** The pull the daemon settles on is a share of the pot, as far as the allowance goes. */
  lemma PullIsShare(plan: SellPlan, open: I64, now: I64, n: nat, k: nat, wallet: U64, avail: U64)
    requires OnGrid(plan, open) && 0 <= GateIndex(plan, open) <= k && OnTimeIn(plan, open, now, k) && 0 <= open
    requires n == Periods(plan, open) && k < n
    ensures DaemonPull(plan, now, wallet, 0, avail) == Pulled(wallet, n - k, avail)
    ensures plan.endTs - now <= I64_MAX && 0 <= OnChainCap(plan, now, wallet)
  {
    DueOnTime(plan, open, now, n, k);
    CapsAgree(plan, now, wallet, 0);
  }

  /** After a crank in interval k the gate has passed k + 1 grid points, however many it had passed before. */
  lemma GateAfterCrank(plan: SellPlan, open: I64, now: I64, n: nat, k: nat, after: SellPlan)
    requires OnGrid(plan, open) && 0 <= GateIndex(plan, open) <= k && OnTimeIn(plan, open, now, k) && 0 <= open
    requires n == Periods(plan, open) && k < n
    requires NextGate(plan, now) == Ok(after.nextDueTs) && after == plan.(nextDueTs := after.nextDueTs)
    ensures OnGrid(after, open) && GateIndex(after, open) == k + 1
  {
    DueOnTime(plan, open, now, n, k);
    ServedGate(plan, now, after, open);
  }

  lemma TickIsCommit(
      s: State, f: Fixture, fee: FeeView, keeper: KeyPair, user: Key, avail: U64, now: I64, ixs: seq<Instruction>)
    requires user in s.plans && 0 < s.plans[user].periodSecs
    requires CrankSellSpec(f, keeper, user, fee, Some(s.plans[user]), now, WalletOf(s, f, user),
                           Residue(s, f, user), avail) == Send(ixs)
    ensures Tick(s, f, fee, keeper, user, avail, now) == Commit(s, Tx(Env(now, {keeper}), ixs))
  {
  }

  /** In such a state the daemon's target is in place and its pull is that share. */
  lemma TickReady(s: State, f: Fixture, fee: FeeView, keeper: KeyPair, user: Key, avail: U64, plan: SellPlan, open: I64,
                  n: nat, k: nat, w: nat, usdc: int, now: I64)
    requires AfterTicks(s, f, fee, user, plan, open, k, w, usdc)
    requires n == Periods(plan, open) && k < n && 0 <= open && OnTimeIn(plan, open, now, k)
    ensures SellTarget(s, f, fee, keeper, user, now) && 0 <= now && ResidueWithinCap(s, f, user, now)
    ensures PullNow(s, f, user, now, avail) == Pulled(w, n - k, avail)
    ensures SellLeg(s, f, fee, keeper, user, now, avail) == Leg(f, Sell, keeper, user, fee, Pulled(w, n - k, avail))
    ensures 0 < s.plans[user].periodSecs
  {
    PullIsShare(s.plans[user], open, now, n, k, WalletOf(s, f, user), avail);
    DueOnTime(s.plans[user], open, now, n, k);
  }

  lemma LegNet(f: Fixture, keeper: Key, user: Key, fee: FeeView, draw: U64)
    requires fee.bps <= MAX_FEE_BPS && f.slippageBps <= BPS && 0 < draw
    ensures Leg(f, Sell, keeper, user, fee, draw).net == AfterFee(draw, fee.bps)
    ensures 0 < AfterFee(draw, fee.bps) <= draw
  {
    LegAmounts(f, Sell, keeper, user, fee, draw);
    FeeWithinCap(draw, fee.bps);
    Rounding.MulMono(0, draw, fee.bps);
    Rounding.LeDiv(0, draw * fee.bps, 10_000);
  }

  lemma TickSells(s: State, f: Fixture, fee: FeeView, keeper: KeyPair, user: Key, avail: U64, plan: SellPlan, open: I64,
                  n: nat, k: nat, w: nat, usdc: int, now: I64) returns (t: State)
    requires AfterTicks(s, f, fee, user, plan, open, k, w, usdc)
    requires n == Periods(plan, open) && k < n && 0 <= open && OnTimeIn(plan, open, now, k)
    requires 0 < Pulled(w, n - k, avail) && now <= I64_MAX - MAX_PERIOD_SECS
    ensures t == Tick(s, f, fee, keeper, user, avail, now) && Inv(t)
    ensures var draw := Pulled(w, n - k, avail); SellDone(s, Leg(f, Sell, keeper, user, fee, draw), draw, now, t)
  {
    TickReady(s, f, fee, keeper, user, avail, plan, open, n, k, w, usdc, now);
    var draw := Pulled(w, n - k, avail);
    var m := Leg(f, Sell, keeper, user, fee, draw);
    LegNet(f, keeper, user, fee, draw);
    CrankSellComposes(f, keeper, user, fee, s.plans[user], now, WalletOf(s, f, user), 0, avail);
    var ixs := StageIxs(m, draw) + [SellInstruction(keeper, m)];
    var r := StagedSellOutcome(s, f, fee, keeper, user, now, now, avail);
    TickIsCommit(s, f, fee, keeper, user, avail, now, ixs);
    StepAllKeepsInv(s, Env(now, {keeper}), ixs);
    t := Commit(s, Tx(Env(now, {keeper}), ixs));
  }

  lemma DoneAdvances(s: State, f: Fixture, fee: FeeView, keeper: KeyPair, user: Key, plan: SellPlan, open: I64,
                     n: nat, k: nat, w: nat, usdc: int, now: I64, draw: U64, t: State)
    requires AfterTicks(s, f, fee, user, plan, open, k, w, usdc)
    requires n == Periods(plan, open) && k < n && 0 <= open && OnTimeIn(plan, open, now, k)
    requires 0 < draw <= w && Inv(t) && SellDone(s, Leg(f, Sell, keeper, user, fee, draw), draw, now, t)
    ensures AfterTicks(t, f, fee, user, plan, open, k + 1, w - draw, usdc + AfterFee(draw, fee.bps))
  {
    var m := Leg(f, Sell, keeper, user, fee, draw);
    LegNet(f, keeper, user, fee, draw);
    GateAfterCrank(s.plans[user], open, now, n, k, t.plans[user]);
    assert Wallet(m) == Ata(user, f.targetMint) && m.feeAta != Wallet(m);
    assert Bal(t.ledger, f.poolUsdc) == Bal(s.ledger, f.poolUsdc) - m.net;
  }

  /** With nothing to draw the daemon skips, and the gate stays where it was. */
  lemma TickSkips(s: State, f: Fixture, fee: FeeView, keeper: KeyPair, user: Key, avail: U64, plan: SellPlan, open: I64,
                  n: nat, k: nat, w: nat, usdc: int, now: I64)
    requires AfterTicks(s, f, fee, user, plan, open, k, w, usdc)
    requires n == Periods(plan, open) && k < n && 0 <= open && OnTimeIn(plan, open, now, k)
    requires Pulled(w, n - k, avail) == 0
    ensures Tick(s, f, fee, keeper, user, avail, now) == s
  {
    TickReady(s, f, fee, keeper, user, avail, plan, open, n, k, w, usdc, now);
  }

  /** One on-time tick: it draws a share of the pot as far as the allowance goes, and delivers that less the fee. */
  lemma TickAdvances(s: State, f: Fixture, fee: FeeView, keeper: KeyPair, user: Key, avail: U64, plan: SellPlan,
                     open: I64, n: nat, k: nat, w: nat, usdc: int, now: I64)
    requires AfterTicks(s, f, fee, user, plan, open, k, w, usdc)
    requires n == Periods(plan, open) && k < n && 0 <= open && OnTimeIn(plan, open, now, k)
    requires now <= I64_MAX - MAX_PERIOD_SECS
    ensures var draw := Pulled(w, n - k, avail);
            AfterTicks(Tick(s, f, fee, keeper, user, avail, now), f, fee, user, plan, open, k + 1, w - draw,
                       usdc + AfterFee(draw, fee.bps))
  {
    var draw := Pulled(w, n - k, avail);
    if draw == 0 {
      TickSkips(s, f, fee, keeper, user, avail, plan, open, n, k, w, usdc, now);
    } else {
      var t := TickSells(s, f, fee, keeper, user, avail, plan, open, n, k, w, usdc, now);
      DoneAdvances(s, f, fee, keeper, user, plan, open, n, k, w, usdc, now, draw, t);
    }
  }

  /** Each tick falls on time in its interval. */
  ghost predicate EachOnTime(plan: SellPlan, open: I64, times: seq<I64>) {
    forall k | 0 <= k < |times| :: OnTimeIn(plan, open, times[k], k) && times[k] <= I64_MAX - MAX_PERIOD_SECS
  }

  lemma RunwayStep(
      s: State, f: Fixture, fee: FeeView, keeper: KeyPair, user: Key, plan: SellPlan, open: I64, w0: nat, n: nat,
      usdc0: int, avails: seq<U64>, k: nat, now: I64)
    requires k < n && k < |avails|
    requires AfterTicks(s, f, fee, user, plan, open, k, LeftBefore(w0, n, avails, k),
                        usdc0 + Proceeds(w0, n, avails, k, fee.bps))
    requires n == Periods(plan, open) && 0 <= open && OnTimeIn(plan, open, now, k) && now <= I64_MAX - MAX_PERIOD_SECS
    ensures AfterTicks(Tick(s, f, fee, keeper, user, avails[k], now), f, fee, user, plan, open, k + 1,
                       LeftBefore(w0, n, avails, k + 1), usdc0 + Proceeds(w0, n, avails, k + 1, fee.bps))
  {
    var w, usdc := LeftBefore(w0, n, avails, k), usdc0 + Proceeds(w0, n, avails, k, fee.bps);
    NextLeft(w0, n, avails, k, fee.bps);
    TickAdvances(s, f, fee, keeper, user, avails[k], plan, open, n, k, w, usdc, now);
  }

  lemma NextLeft(w0: nat, n: nat, avails: seq<U64>, k: nat, bps: U16)
    requires k < n && k < |avails|
    ensures var draw := Pulled(LeftBefore(w0, n, avails, k), n - k, avails[k]);
            LeftBefore(w0, n, avails, k + 1) == LeftBefore(w0, n, avails, k) - draw
            && Proceeds(w0, n, avails, k + 1, bps) == Proceeds(w0, n, avails, k, bps) + AfterFee(draw, bps)
  {
  }

  lemma {:induction false} TicksNext(
      s: State, f: Fixture, fee: FeeView, keeper: KeyPair, user: Key, avails: seq<U64>, times: seq<I64>, k: nat)
    requires |avails| == |times| && k < |times|
    ensures Ticks(s, f, fee, keeper, user, avails[..k + 1], times[..k + 1])
            == Tick(Ticks(s, f, fee, keeper, user, avails[..k], times[..k]), f, fee, keeper, user, avails[k], times[k])
  {
    assert avails[..k + 1][..k] == avails[..k] && times[..k + 1][..k] == times[..k];
  }

  /** The deployment after the first k ticks. */
  ghost predicate RunwayAt(
      s: State, f: Fixture, fee: FeeView, keeper: KeyPair, user: Key, plan: SellPlan, open: I64, w0: nat, n: nat,
      usdc0: int, avails: seq<U64>, times: seq<I64>, k: nat)
    requires k <= |avails| == |times| <= n
  {
    AfterTicks(Ticks(s, f, fee, keeper, user, avails[..k], times[..k]), f, fee, user, plan, open, k,
               LeftBefore(w0, n, avails, k), usdc0 + Proceeds(w0, n, avails, k, fee.bps))
  }

  lemma RunwayNext(
      s: State, f: Fixture, fee: FeeView, keeper: KeyPair, user: Key, plan: SellPlan, open: I64, w0: nat, n: nat,
      usdc0: int, avails: seq<U64>, times: seq<I64>, k: nat)
    requires 0 < plan.periodSecs && n == Periods(plan, open) && 0 <= open
    requires k < |avails| == |times| <= n && EachOnTime(plan, open, times)
    requires RunwayAt(s, f, fee, keeper, user, plan, open, w0, n, usdc0, avails, times, k)
    ensures RunwayAt(s, f, fee, keeper, user, plan, open, w0, n, usdc0, avails, times, k + 1)
  {
    TicksNext(s, f, fee, keeper, user, avails, times, k);
    RunwayStep(Ticks(s, f, fee, keeper, user, avails[..k], times[..k]), f, fee, keeper, user, plan, open, w0, n, usdc0,
               avails, k, times[k]);
  }

  lemma {:induction false} RunwayAlong(
      s: State, f: Fixture, fee: FeeView, keeper: KeyPair, user: Key, plan: SellPlan, open: I64, w0: nat, n: nat,
      usdc0: int, avails: seq<U64>, times: seq<I64>, k: nat)
    requires AfterTicks(s, f, fee, user, plan, open, 0, w0, usdc0)
    requires n == Periods(plan, open) && 0 <= open && k <= |avails| == |times| <= n && EachOnTime(plan, open, times)
    ensures RunwayAt(s, f, fee, keeper, user, plan, open, w0, n, usdc0, avails, times, k)
  {
    if k == 0 {
    } else {
      RunwayAlong(s, f, fee, keeper, user, plan, open, w0, n, usdc0, avails, times, k - 1);
      RunwayNext(s, f, fee, keeper, user, plan, open, w0, n, usdc0, avails, times, k - 1);
    }
  }

  /** Ticks of the daemon, one within the first r seconds of each interval of a freshly opened plan, over any pot and
      whatever the delegation allows each: the wallet holds what such draws leave, the transient nothing, and
      exactly the draws less their fees were delivered. */
  lemma {:induction false} DaemonRunway(
      s: State, f: Fixture, fee: FeeView, keeper: KeyPair, user: Key, plan: SellPlan, open: I64, w0: nat, n: nat,
      usdc0: int, avails: seq<U64>, times: seq<I64>)
    requires AfterTicks(s, f, fee, user, plan, open, 0, w0, usdc0)
    requires n == Periods(plan, open) && 0 <= open && |avails| == |times| <= n && EachOnTime(plan, open, times)
    ensures AfterTicks(Ticks(s, f, fee, keeper, user, avails, times), f, fee, user, plan, open, |times|,
                       LeftBefore(w0, n, avails, |times|), usdc0 + Proceeds(w0, n, avails, |times|, fee.bps))
  {
    RunwayAlong(s, f, fee, keeper, user, plan, open, w0, n, usdc0, avails, times, |times|);
    assert avails[..|times|] == avails && times[..|times|] == times;
  }

  /** If each of N allowances covers its draw of the runway, N ticks pay out the whole pot, as the exact runway. */
  lemma {:induction false} CoveredRunway(
      s: State, f: Fixture, fee: FeeView, keeper: KeyPair, user: Key, plan: SellPlan, open: I64, w0: nat, n: nat,
      usdc0: int, avails: seq<U64>, times: seq<I64>)
    requires AfterTicks(s, f, fee, user, plan, open, 0, w0, usdc0)
    requires 0 < n == Periods(plan, open) && 0 <= open && |avails| == |times| == n && EachOnTime(plan, open, times)
    requires Covered(w0, n, avails, n)
    ensures var t := Ticks(s, f, fee, keeper, user, avails, times);
            WalletOf(t, f, user) == 0 && Residue(t, f, user) == 0
            && Bal(t.ledger, Ata(user, f.usdcMint)) == usdc0 + Proceeds(w0, n, avails, n, fee.bps)
    ensures forall k | 0 <= k < n :: DrawAt(w0, n, avails, k) == RunwayDraw(w0, n, k)
  {
    DaemonRunway(s, f, fee, keeper, user, plan, open, w0, n, usdc0, avails, times);
    CoveredLeft(w0, n, avails, n);
    RunwayClosedForm(w0, n, n);
    RunwayIff(w0, n, avails);
  }

  /** Under one allowance a for every tick, N ticks leave exactly what N allowances do not reach: the pot is paid out
      if and only if w0 <= N a, and an allowance of the even share rounded down leaves the remainder. */
  lemma {:induction false} ConstantRunway(
      s: State, f: Fixture, fee: FeeView, keeper: KeyPair, user: Key, plan: SellPlan, open: I64, w0: nat, n: nat,
      usdc0: int, avails: seq<U64>, a: U64, times: seq<I64>)
    requires AfterTicks(s, f, fee, user, plan, open, 0, w0, usdc0)
    requires 0 < n == Periods(plan, open) && 0 <= open && |avails| == |times| == n && EachOnTime(plan, open, times)
    requires forall i | 0 <= i < n :: avails[i] == a
    ensures var t := Ticks(s, f, fee, keeper, user, avails, times);
            WalletOf(t, f, user) == Max(w0 - n * a, 0) && Residue(t, f, user) == 0
            && (WalletOf(t, f, user) == 0 <==> w0 <= n * a)
            && (a == w0 / n ==> WalletOf(t, f, user) == w0 % n)
  {
    DaemonRunway(s, f, fee, keeper, user, plan, open, w0, n, usdc0, avails, times);
    ConstantLeftover(w0, n, avails, a);
  }
}
