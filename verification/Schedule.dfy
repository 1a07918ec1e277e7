// The sell plan's clock gate and amortization arithmetic.
module Schedule {
  import opened Machine
  import opened Ledger
  import Rounding

  const MIN_PERIOD_SECS: int := 60
  const MAX_PERIOD_SECS: int := 366 * 86_400

  datatype SellPlan = SellPlan(user: Key, endTs: I64, periodSecs: I64, nextDueTs: I64)

  function OpenPlan(user: Key, now: I64, endTs: I64, periodSecs: I64): Result<SellPlan> {
    if !(MIN_PERIOD_SECS <= periodSecs <= MAX_PERIOD_SECS) then Err(BadParam) else
    :- Need(endTs > SaturatingI64(now + periodSecs), BadParam);
    Ok(SellPlan(user, endTs, periodSecs, now))
  }

  function RemainingPeriods(plan: SellPlan, now: I64): (r: Result<I64>)
    ensures r.Ok? ==> 1 <= r.value
  {
    var q :- DivI64(SaturatingI64(plan.endTs - now), plan.periodSecs, Panic);
    Ok(Max(q, 1))
  }

  /** Where a successful sell at `now` moves the gate. */
  function NextGate(plan: SellPlan, now: I64): Result<I64> {
    var late :- ToI64(now - plan.nextDueTs, Overflow);
    var q :- DivI64(late, plan.periodSecs, Overflow);
    var k :- ToI64(q + 1, Overflow);
    var jump :- ToI64(k * plan.periodSecs, Overflow);
    ToI64(plan.nextDueTs + jump, Overflow)
  }

  /** Which period of the grid open, open + period, ... a time falls in. */
  function Interval(open: int, period: int, t: int): int
    requires period > 0
  { (t - open) / period }

  // ---- The clock gate ----

  /** The terms a plan can be opened on: a period of a minute to 366 days, and at least one whole period and a
      second more before the end. */
  predicate Openable(now: int, endTs: int, periodSecs: int) {
    60 <= periodSecs <= 31_622_400 && endTs > now + periodSecs
  }

  /** Opening succeeds exactly on such terms, and stores them as they were given, due at once. */
  lemma OpenOutcome(user: Key, now: I64, endTs: I64, periodSecs: I64)
    ensures OpenPlan(user, now, endTs, periodSecs)
            == if Openable(now, endTs, periodSecs) then Ok(SellPlan(user, endTs, periodSecs, now)) else Err(BadParam)
    ensures Openable(now, endTs, periodSecs) ==> 1 <= Interval(now, periodSecs, endTs)
  {
    if Openable(now, endTs, periodSecs) {
      Rounding.LeDiv(1, endTs - now, periodSecs);
    }
  }

  /** Truncating, saturating division still gives the number of whole periods left, at least one. */
  lemma PeriodsExact(plan: SellPlan, now: I64)
    requires 0 < plan.periodSecs && plan.endTs - now <= I64_MAX
    ensures RemainingPeriods(plan, now) == Ok(Max((plan.endTs - now) / plan.periodSecs, 1))
  {
    var left := plan.endTs - now;
    if left < 0 {
      Rounding.LeDiv(0, left, plan.periodSecs);
      var sat := SaturatingI64(left);
      Rounding.DivAntitone(Abs(sat), 1, plan.periodSecs);
    } else {
      Rounding.DivAntitone(left, 1, plan.periodSecs);
    }
  }

  /** Later cranks see no more periods, so the cap never shrinks with time. */
  lemma PeriodsAntitone(plan: SellPlan, now: I64, later: I64)
    requires 0 < plan.periodSecs && plan.endTs - now <= I64_MAX && now <= later
    ensures RemainingPeriods(plan, now).Ok? && RemainingPeriods(plan, later).Ok?
    ensures RemainingPeriods(plan, later).value <= RemainingPeriods(plan, now).value
  {
    PeriodsExact(plan, now);
    PeriodsExact(plan, later);
    Rounding.DivMono(plan.endTs - later, plan.endTs - now, plan.periodSecs);
  }

  /** With n whole periods and r seconds between opening and end, a time at offset at most r
      into interval i has n-i whole periods left, and a later one n-i-1. */
  lemma PeriodsAtInterval(open: int, end: int, period: int, now: int)
    requires period > 0
    ensures var n, r := Interval(open, period, end), (end - open) % period;
            var i, offset := Interval(open, period, now), (now - open) % period;
            (end - now) / period == if offset <= r then n - i else n - i - 1
  {
    var n, r := Interval(open, period, end), (end - open) % period;
    var i, offset := Interval(open, period, now), (now - open) % period;
    assert end - now == (n - i) * period + r - offset by {
      assert end - open == n * period + r;
      assert now - open == i * period + offset;
      Rounding.MulDistribute(n, -i, period);
    }
    Rounding.DivShift(r - offset, period, n - i);
    Rounding.DivUnique(r - offset, period, if offset <= r then 0 else -1);
  }

  /** A successful sell moves an on-grid gate to the least grid point strictly after `now`. */
  lemma GateJump(plan: SellPlan, now: I64, open: int, g: int)
    requires 0 < plan.periodSecs && plan.nextDueTs == open + g * plan.periodSecs && plan.nextDueTs <= now
    requires NextGate(plan, now).Ok?
    ensures var i, next := Interval(open, plan.periodSecs, now), NextGate(plan, now).value;
            g <= i && next == open + (i + 1) * plan.periodSecs
            && now < next && next - plan.periodSecs <= now
  {
    var p := plan.periodSecs;
    Rounding.DivShift(now - plan.nextDueTs, p, g);
    Rounding.DivBounds(now - open, p);
    Rounding.LeDiv(0, now - plan.nextDueTs, p);
    var i := Interval(open, p, now);
    assert (i - g + 1) * p + g * p == (i + 1) * p by { Rounding.MulDistribute(i - g + 1, g, p); }
    assert (i + 1) * p == i * p + p by { Rounding.MulDistribute(i, 1, p); }
  }

  /** The jump cannot overflow while the clock is non-negative and leaves room for one period. */
  lemma GateSafe(plan: SellPlan, now: I64)
    requires 0 < plan.periodSecs && 0 <= plan.nextDueTs <= now <= I64_MAX - plan.periodSecs
    ensures NextGate(plan, now).Ok? && plan.nextDueTs < NextGate(plan, now).value <= now + plan.periodSecs
  {
    var late := now - plan.nextDueTs;
    Rounding.DivAntitone(late, 1, plan.periodSecs);
    Rounding.DivBounds(late, plan.periodSecs);
    var q := late / plan.periodSecs;
    Rounding.MulDistribute(q, 1, plan.periodSecs);
    Rounding.MulMono(0, q, plan.periodSecs);
  }

  /** And it overflows only beyond that: from a due gate exactly when the next grid point leaves 64 bits. */
  lemma GateOverflows(plan: SellPlan, now: I64)
    requires 0 < plan.periodSecs && 0 <= plan.nextDueTs <= now
    ensures var next := plan.nextDueTs + ((now - plan.nextDueTs) / plan.periodSecs + 1) * plan.periodSecs;
            NextGate(plan, now) == if next <= I64_MAX then Ok(next) else Err(Overflow)
  {
    var p, late := plan.periodSecs, now - plan.nextDueTs;
    Rounding.DivAntitone(late, 1, p);
    Rounding.LeDiv(0, late, p);
    Rounding.MulMono(0, late / p + 1, p);
  }

  // ---- Depletion ----

  /** A draw, taken once for every period left, stays within the pot. */
  ghost predicate DrawFits(plan: SellPlan, now: I64, draw: nat, pot: nat) {
    RemainingPeriods(plan, now).Ok? && draw * RemainingPeriods(plan, now).value <= pot
  }

  /** A draw over q or more periods leaves (q-1)/q of the pot. */
  lemma DrawLeaves(before: nat, after: nat, q: int, periods: int, draw: nat)
    requires 1 <= q <= periods && draw * periods <= before && before - draw <= after
    ensures before * (q - 1) <= after * q
  {
    Rounding.MulMono(q, periods, draw);
    Rounding.MulMono(before - draw, after, q);
    Rounding.MulDistribute(before - draw, draw, q);
    Rounding.MulDistribute(q, -1, before);
  }

  /** (q-1)/q of a q/m share is a (q-1)/m share. */
  lemma ShareLeaves(m: int, w0: nat, before: nat, after: nat, q: int)
    requires 0 <= m && 1 <= q && w0 * q <= before * m && before * (q - 1) <= after * q
    ensures (w0 * (q - 1)) * q <= (after * m) * q
  {
    Rounding.MulMono(w0 * q, before * m, q - 1);
    Rounding.MulMono(before * (q - 1), after * q, m);
    Swap(w0, q, q - 1);
    Swap(before, m, q - 1);
    Swap(after, q, m);
  }

  lemma Swap(a: int, b: int, c: int)
    ensures (a * b) * c == (a * c) * b
  {
  }

  /** A crank in interval i with at least max(1, m-i) periods left keeps the fraction
      (m-i-1)/m of the pot, whatever earlier cranks left at gate index g <= i. */
  lemma DepletionStep(m: int, w0: nat, before: nat, after: nat, g: int, i: int, periods: int, draw: nat)
    requires 0 <= m && g <= i
    requires before * m >= w0 * (m - g)
    requires m - i <= periods && 1 <= periods && draw * periods <= before && before - draw <= after
    ensures after * m >= w0 * (m - i - 1)
  {
    var q := m - i;
    if q <= 1 {
      Rounding.MulMono(0, after, m);
      Rounding.MulMono(q - 1, 0, w0);
    } else {
      DrawLeaves(before, after, q, periods, draw);
      Rounding.MulMono(q, m - g, w0);
      ShareLeaves(m, w0, before, after, q);
      Rounding.MulCancel(w0 * (q - 1), after * m, q);
    }
  }

  /** The whole pot may go in one crank exactly when fewer than two whole periods are left. */
  lemma WholePotAllowed(plan: SellPlan, now: I64, pot: nat)
    requires 0 < plan.periodSecs && plan.endTs - now <= I64_MAX && 0 < pot
    ensures RemainingPeriods(plan, now).Ok?
    ensures pot / RemainingPeriods(plan, now).value == pot <==> plan.endTs - now < 2 * plan.periodSecs
  {
    PeriodsExact(plan, now);
    var r := RemainingPeriods(plan, now).value;
    Rounding.LeDiv(2, plan.endTs - now, plan.periodSecs);
    Rounding.LeDiv(pot, pot, r);
    if 2 <= r { Rounding.MulMono(2, r, pot); }
  }

  // ---- The exact runway ----

  /** The pot before the k-th of n on-time cranks that each draw the full cap. */
  function PotBefore(w0: nat, n: nat, k: nat): nat
    requires k <= n
  {
    if k == 0 then w0 else
      var w := PotBefore(w0, n, k - 1);
      Rounding.DivAntitone(w, 1, n - (k - 1));
      w - w / (n - (k - 1))
  }

  /** The k-th draw: the short draws come first, then w0 % n draws that are one unit longer. */
  function RunwayDraw(w0: nat, n: nat, k: nat): nat
    requires k < n
  {
    Rounding.LeDiv(0, w0, n);
    w0 / n + if k < n - w0 % n then 0 else 1
  }

  /** What the first k of those draws leave: short draws from the top while they last,
      then whole long draws for the periods still to come. */
  function PotLeft(w0: nat, n: nat, k: nat): int
    requires k <= n && 0 < n
  {
    if k <= n - w0 % n then w0 - k * (w0 / n) else (n - k) * (w0 / n + 1)
  }

  /** Recomputing pot / periods-left each time gives those draws and empties the pot. */
  lemma {:induction false} RunwayClosedForm(w0: nat, n: nat, k: nat)
    requires 0 < n && k <= n
    ensures PotBefore(w0, n, k) == PotLeft(w0, n, k)
    ensures k < n ==> PotBefore(w0, n, k) / (n - k) == RunwayDraw(w0, n, k)
    ensures k == n ==> PotBefore(w0, n, k) == 0
    decreases k
  {
    if k == 0 {
    } else {
      RunwayClosedForm(w0, n, k - 1);
      PotLeftStep(w0, n, k - 1);
    }
    if k < n { PotLeftDraw(w0, n, k); }
    if k == n { PotLeftAll(w0, n); }
  }

  lemma PotLeftDraw(w0: nat, n: nat, k: nat)
    requires k < n
    ensures PotLeft(w0, n, k) / (n - k) == RunwayDraw(w0, n, k)
  {
    var q, m, left := w0 / n, w0 % n, n - k;
    if k < n - m {
      PotSplit(w0, n, k);
      Rounding.DivUnique(q * left + m, left, q);
    } else {
      PotLong(w0, n, k);
      Rounding.DivUnique((q + 1) * left, left, q + 1);
    }
  }

  lemma PotSplit(w0: nat, n: nat, k: nat)
    requires k <= n && 0 < n
    ensures w0 - k * (w0 / n) == (w0 / n) * (n - k) + w0 % n
  {
    var q := w0 / n;
    assert w0 == n * q + w0 % n;
    Rounding.MulDistribute(k, n - k, q);
  }

  /** From the first long draw on, only long draws are left. */
  lemma PotLong(w0: nat, n: nat, k: nat)
    requires 0 < n && n - w0 % n <= k <= n
    ensures PotLeft(w0, n, k) == (w0 / n + 1) * (n - k)
  {
    if k == n - w0 % n {
      PotSplit(w0, n, k);
      Rounding.MulDistribute(w0 / n, 1, n - k);
    }
  }

  lemma PotLeftStep(w0: nat, n: nat, k: nat)
    requires k < n
    ensures PotLeft(w0, n, k + 1) == PotLeft(w0, n, k) - RunwayDraw(w0, n, k)
  {
    var q := w0 / n;
    if k < n - w0 % n {
      Rounding.MulDistribute(k, 1, q);
    } else {
      PotLong(w0, n, k);
      Rounding.MulDistribute(n - k - 1, 1, q + 1);
    }
  }

  lemma PotLeftAll(w0: nat, n: nat)
    requires 0 < n
    ensures PotLeft(w0, n, n) == 0
  {
    PotSplit(w0, n, n);
  }

  /** How many of the first k draws are longer than floor(w0 / n). */
  function LongDraws(w0: nat, n: nat, k: nat): nat
    requires k <= n
  {
    if k == 0 then 0 else LongDraws(w0, n, k - 1) + if RunwayDraw(w0, n, k - 1) == w0 / n + 1 then 1 else 0
  }

  /** The draws never decrease and differ by at most one, and exactly w0 % n of them are the longer ones. */
  lemma {:induction false} RunwayShape(w0: nat, n: nat)
    requires 0 < n
    ensures forall j, k :: 0 <= j <= k < n ==>
              w0 / n <= RunwayDraw(w0, n, j) <= RunwayDraw(w0, n, k) <= w0 / n + 1
    ensures LongDraws(w0, n, n) == w0 % n
  {
    LongDrawsCount(w0, n, n);
  }

  lemma {:induction false} LongDrawsCount(w0: nat, n: nat, k: nat)
    requires 0 < n && k <= n
    ensures LongDraws(w0, n, k) == Max(0, k - (n - w0 % n))
    decreases k
  {
    if k == 0 {
    } else {
      LongDrawsCount(w0, n, k - 1);
    }
  }
}
