// What a recurring delegation lets its keeper pull, and that the daemon's pulls stay within it and use all of it.
module Rail {
  import opened Machine
  import opened Ledger
  import opened Schedule
  import opened Program
  import opened Keeper
  import Rounding

  // ---- One pull ----

  /** The clock is in the period the delegation has on record. */
  predicate Running(d: Delegation, now: int) { now < d.currentPeriodStartTs + d.periodLengthS }

  /** What has been pulled in the period the clock is in: nothing, once the recorded one is over. */
  function PulledSoFar(d: Delegation, now: int): U64 { if Running(d, now) then d.amountPulledInPeriod else 0 }

  /** A pull, together with what was pulled before it in the same period, stays within one period's amount. */
  predicate Allows(d: Delegation, now: int, amount: nat) { PulledSoFar(d, now) + amount <= d.amountPerPeriod }

  /** What the daemon takes to be available is exactly the largest pull that is allowed. */
  lemma AvailableIff(d: Delegation, now: int, amount: nat)
    requires 0 < amount
    ensures amount <= Available(d, now) <==> Allows(d, now, amount)
  {
  }

  // ---- Many pulls ----

  datatype RailPull = RailPull(now: int, amount: nat)

  /** An allowed pull and the record after it: in the recorded period it adds to what was pulled; after it, a later
      period begins and is charged with this pull alone. */
  ghost predicate Charged(d: Delegation, p: RailPull, e: Delegation) {
    Allows(d, p.now, p.amount)
    && e == d.(currentPeriodStartTs := e.currentPeriodStartTs, amountPulledInPeriod := PulledSoFar(d, p.now) + p.amount)
    && if Running(d, p.now) then e.currentPeriodStartTs == d.currentPeriodStartTs
       else d.currentPeriodStartTs + d.periodLengthS <= e.currentPeriodStartTs <= p.now
  }

  /** One delegation through any number of pulls. */
  ghost predicate RailRun(ds: seq<Delegation>, ps: seq<RailPull>) {
    |ds| == |ps| + 1 && forall i | 0 <= i < |ps| :: Charged(ds[i], ps[i], ds[i + 1])
  }

  function TotalPulled(ps: seq<RailPull>): nat {
    if ps == [] then 0 else TotalPulled(ps[..|ps| - 1]) + ps[|ps| - 1].amount
  }

  /** Every pull from the i-th on comes before the end of the period on record after the i-th. */
  ghost predicate OnePeriod(ds: seq<Delegation>, ps: seq<RailPull>, i: nat, j: nat)
    requires |ds| == |ps| + 1 && i < j <= |ps|
  {
    forall k | i < k < j :: Running(ds[i + 1], ps[k].now)
  }

  lemma {:induction false} PeriodCharged(ds: seq<Delegation>, ps: seq<RailPull>, i: nat, j: nat)
    requires RailRun(ds, ps) && i < j <= |ps| && OnePeriod(ds, ps, i, j)
    ensures ds[j].currentPeriodStartTs == ds[i + 1].currentPeriodStartTs
    ensures ds[j].amountPerPeriod == ds[i].amountPerPeriod && ds[j].periodLengthS == ds[i].periodLengthS
    ensures TotalPulled(ps[i..j]) <= ds[j].amountPulledInPeriod
    decreases j
  {
    assert Charged(ds[j - 1], ps[j - 1], ds[j]);
    assert ps[i..j][..j - i - 1] == ps[i..j - 1];
    if j == i + 1 {
      assert ps[i..i] == [];
    } else {
      PeriodCharged(ds, ps, i, j - 1);
    }
  }

  /** Over any pulls that fall in one period their total is within the amount agreed for it. */
  lemma PeriodTotal(ds: seq<Delegation>, ps: seq<RailPull>, i: nat, j: nat)
    requires RailRun(ds, ps) && i < j <= |ps| && OnePeriod(ds, ps, i, j)
    ensures TotalPulled(ps[i..j]) <= ds[0].amountPerPeriod
  {
    PeriodCharged(ds, ps, i, j);
    TermsKept(ds, ps, j);
    assert Charged(ds[j - 1], ps[j - 1], ds[j]);
    TermsKept(ds, ps, j - 1);
  }

  lemma {:induction false} TermsKept(ds: seq<Delegation>, ps: seq<RailPull>, i: nat)
    requires RailRun(ds, ps) && i <= |ps|
    ensures ds[i].amountPerPeriod == ds[0].amountPerPeriod && ds[i].periodLengthS == ds[0].periodLengthS
    ensures ds[0].currentPeriodStartTs <= ds[i].currentPeriodStartTs
  {
    if i == 0 {
    } else {
      TermsKept(ds, ps, i - 1);
      assert Charged(ds[i - 1], ps[i - 1], ds[i]);
    }
  }

  /** Periods begun by the first i pulls. */
  function Rolls(ds: seq<Delegation>, ps: seq<RailPull>, i: nat): nat
    requires |ds| == |ps| + 1 && i <= |ps|
  {
    if i == 0 then 0 else Rolls(ds, ps, i - 1) + if Running(ds[i - 1], ps[i - 1].now) then 0 else 1
  }

  lemma {:induction false} RollsCharged(ds: seq<Delegation>, ps: seq<RailPull>, i: nat)
    requires RailRun(ds, ps) && 0 < i <= |ps|
    ensures TotalPulled(ps[..i]) <= Rolls(ds, ps, i) * ds[0].amountPerPeriod + ds[i].amountPulledInPeriod
    ensures ds[i].amountPulledInPeriod <= ds[0].amountPerPeriod
  {
    assert ps[..i][..i - 1] == ps[..i - 1];
    assert Charged(ds[i - 1], ps[i - 1], ds[i]);
    TermsKept(ds, ps, i - 1);
    Rounding.MulDistribute(Rolls(ds, ps, i - 1), 1, ds[0].amountPerPeriod);
    if i == 1 {
    } else {
      RollsCharged(ds, ps, i - 1);
    }
  }

  /** Over a whole run: at most one period's amount for the period on record at the start, and one for each begun
      since; and those begin at least a period apart. */
  lemma {:induction false} RunTotal(ds: seq<Delegation>, ps: seq<RailPull>, i: nat)
    requires RailRun(ds, ps) && i <= |ps|
    ensures TotalPulled(ps[..i]) <= (Rolls(ds, ps, i) + 1) * ds[0].amountPerPeriod
    ensures Rolls(ds, ps, i) * ds[0].periodLengthS <= ds[i].currentPeriodStartTs - ds[0].currentPeriodStartTs
  {
    if i == 0 {
    } else {
      RollsCharged(ds, ps, i);
      Rounding.MulDistribute(Rolls(ds, ps, i), 1, ds[0].amountPerPeriod);
      RunTotal(ds, ps, i - 1);
      TermsKept(ds, ps, i - 1);
      assert Charged(ds[i - 1], ps[i - 1], ds[i]);
      Rounding.MulDistribute(Rolls(ds, ps, i - 1), 1, ds[0].periodLengthS);
    }
  }

  // ---- The daemon's pulls ----

  /** No pull at all is allowed now. */
  ghost predicate Exhausted(d: Delegation, now: int) { forall amount: nat | 0 < amount :: !Allows(d, now, amount) }

  /** The daemon skips a buy exactly when no pull is allowed; otherwise its one pull is the largest allowed. */
  lemma BuyPullIsLargest(
      f: Fixture, keeper: Key, fee: FeeView, d: Delegation, now: int, residue: U64)
    ensures var c := CrankBuySpec(f, keeper, d.delegator, fee, Available(d, now), residue);
            (c.Skip? <==> Exhausted(d, now))
            && (c.Send? ==>
                  |c.ixs| == 4 && c.ixs[2] == Pull(d.delegator, f.usdcMint, Available(d, now))
                  && (forall i | 0 <= i < 4 :: c.ixs[i].Pull? ==> i == 2)
                  && Allows(d, now, Available(d, now)) && !Allows(d, now, Available(d, now) + 1))
  {
    AvailableIff(d, now, Available(d, now) + 1);
    if 0 < Available(d, now) { AvailableIff(d, now, Available(d, now)); }
    forall amount: nat | 0 < amount ensures amount <= Available(d, now) <==> Allows(d, now, amount) {
      AvailableIff(d, now, amount);
    }
  }

  /** Delegation and schedule both let this pull through. */
  ghost predicate Drawable(d: Delegation, plan: SellPlan, now: I64, pot: U64, residue: U64, pull: nat) {
    0 < pull && Allows(d, now, pull) && Accepts(plan, now, pot, residue, pull)
  }

  /** Times are those that a clock and an admissible plan can show. */
  predicate Clockable(plan: SellPlan, now: I64) { 0 < plan.periodSecs && plan.endTs - now <= I64_MAX }

  /** The daemon's pull is the largest that both let through, where the residue leaves room for any. */
  lemma DaemonPullIsLargest(d: Delegation, plan: SellPlan, now: I64, pot: U64, residue: U64, pull: nat)
    requires Clockable(plan, now) && pull <= pot && pull + residue < U64_LIMIT
    ensures Drawable(d, plan, now, pot, residue, pull) <==>
            residue <= OnChainCap(plan, now, pot + residue)
            && 0 < pull <= DaemonPull(plan, now, pot, residue, Available(d, now))
    ensures var largest := DaemonPull(plan, now, pot, residue, Available(d, now));
            largest <= pot && largest < U64_LIMIT && (0 < largest ==> Allows(d, now, largest))
  {
    CapsAgree(plan, now, pot, residue);
    AcceptedIff(plan, now, pot, residue, pull);
    if 0 < pull { AvailableIff(d, now, pull); }
    var largest := DaemonPull(plan, now, pot, residue, Available(d, now));
    if 0 < largest { AvailableIff(d, now, largest); }
  }

  /** The plan keeps the daemon from selling: it does not exist, is finished, or is not due. */
  predicate Waits(plan: Option<SellPlan>, now: int) {
    plan.None? || plan.value.endTs < plan.value.nextDueTs || now < plan.value.nextDueTs
  }

  /** The daemon skips a sell exactly when its plan makes it wait, or when the transient is empty and no pull is let
      through; otherwise its pull, if any, is the largest that is. */
  lemma SellSkippedIff(f: Fixture, keeper: Key, fee: FeeView, d: Delegation,
                                          plan: Option<SellPlan>, now: I64, pot: U64, residue: U64)
    requires plan.Some? ==> Clockable(plan.value, now)
    ensures var c := CrankSellSpec(f, keeper, d.delegator, fee, plan, now, pot, residue, Available(d, now));
            c.Skip? <==>
            Waits(plan, now)
            || (residue == 0 && forall pull: nat :: !Drawable(d, plan.value, now, pot, residue, pull))
  {
    if !Waits(plan, now) {
      var largest := DaemonPull(plan.value, now, pot, residue, Available(d, now));
      DaemonPullIsLargest(d, plan.value, now, pot, residue, 0);
      if residue == 0 {
        DaemonPullIsLargest(d, plan.value, now, pot, 0, largest);
        forall pull: nat | Drawable(d, plan.value, now, pot, 0, pull) ensures pull <= largest {
          DaemonPullIsLargest(d, plan.value, now, pot, 0, pull);
        }
      }
    }
  }

  /** What a composed sell pulls. */
  lemma SellPulls(f: Fixture, keeper: Key, fee: FeeView, d: Delegation,
                                     plan: SellPlan, now: I64, pot: U64, residue: U64)
    requires Clockable(plan, now)
    requires CrankSellSpec(f, keeper, d.delegator, fee, Some(plan), now, pot, residue, Available(d, now)).Send?
    ensures var ixs := CrankSellSpec(f, keeper, d.delegator, fee, Some(plan), now, pot, residue, Available(d, now)).ixs;
            var pull := DaemonPull(plan, now, pot, residue, Available(d, now));
            (0 < pull ==> |ixs| == 4 && ixs[2] == Pull(d.delegator, f.targetMint, pull) && Allows(d, now, pull))
            && forall i | 0 <= i < |ixs| && ixs[i].Pull? :: i == 2 && 0 < pull
  {
    DaemonPullIsLargest(d, plan, now, pot, residue, 0);
  }
}
