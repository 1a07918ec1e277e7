// Runs of one sell plan, seen from the plan alone: which cranks a gate lets through,
// how fast they can drain a pot, and what an on-time run pays.
module CrankRuns {
  import opened Machine
  import opened Schedule
  import Rounding

  /** The plan is as open_sell_plan leaves it at clock `open`. */
  ghost predicate Opened(plan: SellPlan, open: I64) {
    plan.nextDueTs == open && Openable(open, plan.endTs, plan.periodSecs)
  }

  /** A successful crank at `now`: due, before the terminal state, and the gate moved on. */
  ghost predicate Serves(before: SellPlan, now: I64, after: SellPlan) {
    before.nextDueTs <= before.endTs && before.nextDueTs <= now
    && NextGate(before, now) == Ok(after.nextDueTs) && after == before.(nextDueTs := after.nextDueTs)
  }

  /** The plan before and after each event of a run, and the clock of each crank in it.
      The clocks may come in any order. */
  ghost predicate GateRun(plans: seq<SellPlan>, clocks: seq<Option<I64>>, open: I64) {
    |plans| == |clocks| + 1 && Opened(plans[0], open)
    && forall i | 0 <= i < |clocks| :: MoveAt(plans, clocks, i)
  }

  ghost predicate MoveAt(plans: seq<SellPlan>, clocks: seq<Option<I64>>, i: nat)
    requires |plans| == |clocks| + 1 && i < |clocks|
  {
    match clocks[i]
    case None => plans[i + 1] == plans[i]
    case Some(now) => Serves(plans[i], now, plans[i + 1])
  }

  /** Cranks among the first i events. */
  function Cranks(clocks: seq<Option<I64>>, i: nat): nat
    requires i <= |clocks|
  {
    if i == 0 then 0 else Cranks(clocks, i - 1) + if clocks[i - 1].Some? then 1 else 0
  }

  /** Whole periods from opening to end. */
  function Periods(plan: SellPlan, open: int): int
    requires 0 < plan.periodSecs
  { Interval(open, plan.periodSecs, plan.endTs) }

  /** Grid points the gate has passed. */
  function GateIndex(plan: SellPlan, open: int): int
    requires 0 < plan.periodSecs
  { Interval(open, plan.periodSecs, plan.nextDueTs) }

  ghost predicate OnGrid(plan: SellPlan, open: int) {
    0 < plan.periodSecs && plan.nextDueTs == open + GateIndex(plan, open) * plan.periodSecs
  }

  lemma OpenedOnGrid(plan: SellPlan, open: I64)
    requires Opened(plan, open)
    ensures OnGrid(plan, open) && GateIndex(plan, open) == 0 && 1 <= Periods(plan, open)
  {
    OpenOutcome(plan.user, open, plan.endTs, plan.periodSecs);
    Rounding.DivUnique(0, plan.periodSecs, 0);
  }

  lemma OnGridAt(plan: SellPlan, open: int, g: int)
    requires 0 < plan.periodSecs && plan.nextDueTs == open + g * plan.periodSecs
    ensures OnGrid(plan, open) && GateIndex(plan, open) == g
  {
    Rounding.DivUnique(g * plan.periodSecs, plan.periodSecs, g);
  }

  lemma IndexBelowPeriods(plan: SellPlan, open: int)
    requires 0 < plan.periodSecs && plan.nextDueTs <= plan.endTs
    ensures GateIndex(plan, open) <= Periods(plan, open)
  {
    Rounding.DivMono(plan.nextDueTs - open, plan.endTs - open, plan.periodSecs);
  }

  /** One crank: the gate had passed at most all whole periods and nothing beyond the interval of
      `now`; it moves to the least grid point strictly after `now`. */
  lemma ServedGate(before: SellPlan, now: I64, after: SellPlan, open: int)
    requires OnGrid(before, open) && Serves(before, now, after)
    ensures OnGrid(after, open)
    ensures GateIndex(before, open) <= Interval(open, before.periodSecs, now)
    ensures GateIndex(before, open) <= Periods(before, open)
    ensures GateIndex(after, open) == Interval(open, before.periodSecs, now) + 1
    ensures after.nextDueTs - after.periodSecs <= now < after.nextDueTs
  {
    GateJump(before, now, open, GateIndex(before, open));
    OnGridAt(after, open, Interval(open, before.periodSecs, now) + 1);
    IndexBelowPeriods(before, open);
  }

  /** The schedule never changes, the gate stays on the grid, and it has passed
      at least one grid point per crank. */
  lemma {:induction false} GateAlong(plans: seq<SellPlan>, clocks: seq<Option<I64>>, open: I64, i: nat)
    requires GateRun(plans, clocks, open) && i <= |clocks|
    ensures plans[i].endTs == plans[0].endTs && plans[i].periodSecs == plans[0].periodSecs
    ensures OnGrid(plans[i], open) && OnGrid(plans[0], open)
    ensures Cranks(clocks, i) <= GateIndex(plans[i], open)
    ensures Cranks(clocks, i) <= Periods(plans[0], open) + 1
  {
    OpenedOnGrid(plans[0], open);
    if i == 0 {
    } else {
      GateAlong(plans, clocks, open, i - 1);
      assert MoveAt(plans, clocks, i - 1);
      if clocks[i - 1].Some? {
        ServedGate(plans[i - 1], clocks[i - 1].value, plans[i], open);
      }
    }
  }

  lemma {:induction false} GateMonotone(plans: seq<SellPlan>, clocks: seq<Option<I64>>, open: I64, i: nat, j: nat)
    requires GateRun(plans, clocks, open) && i <= j <= |clocks|
    ensures OnGrid(plans[i], open) && OnGrid(plans[j], open)
    ensures GateIndex(plans[i], open) <= GateIndex(plans[j], open) && plans[i].nextDueTs <= plans[j].nextDueTs
    decreases j
  {
    GateAlong(plans, clocks, open, i);
    if i == j {
    } else {
      GateMonotone(plans, clocks, open, i, j - 1);
      GateAlong(plans, clocks, open, j - 1);
      assert MoveAt(plans, clocks, j - 1);
      if clocks[j - 1].Some? {
        ServedGate(plans[j - 1], clocks[j - 1].value, plans[j], open);
      }
    }
  }

  /** Two cranks of one plan never share a grid interval, and come in grid order. */
  lemma IntervalsIncrease(plans: seq<SellPlan>, clocks: seq<Option<I64>>, open: I64, i: nat, j: nat)
    requires GateRun(plans, clocks, open) && i < j < |clocks| && clocks[i].Some? && clocks[j].Some?
    ensures 0 < plans[0].periodSecs
    ensures Interval(open, plans[0].periodSecs, clocks[i].value) < Interval(open, plans[0].periodSecs, clocks[j].value)
  {
    GateAlong(plans, clocks, open, i);
    GateAlong(plans, clocks, open, j);
    GateMonotone(plans, clocks, open, i + 1, j);
    assert MoveAt(plans, clocks, i) && MoveAt(plans, clocks, j);
    ServedGate(plans[i], clocks[i].value, plans[i + 1], open);
    ServedGate(plans[j], clocks[j].value, plans[j + 1], open);
  }

  /** After a crank at or past the end the gate is past the end for good. */
  lemma TerminalStays(plans: seq<SellPlan>, clocks: seq<Option<I64>>, open: I64, i: nat, j: nat)
    requires GateRun(plans, clocks, open) && i < j <= |clocks|
    requires clocks[i].Some? && plans[0].endTs <= clocks[i].value
    ensures plans[j].endTs < plans[j].nextDueTs
    ensures j < |clocks| ==> clocks[j].None?
  {
    GateAlong(plans, clocks, open, i);
    GateAlong(plans, clocks, open, j);
    GateMonotone(plans, clocks, open, i + 1, j);
    assert MoveAt(plans, clocks, i);
    ServedGate(plans[i], clocks[i].value, plans[i + 1], open);
    if j < |clocks| { assert MoveAt(plans, clocks, j); }
  }

  /** Cranks the schedule still has room for; positive exactly while it is not complete. */
  function CranksLeft(plan: SellPlan): int
    requires 0 < plan.periodSecs
  { (plan.endTs - plan.nextDueTs) / plan.periodSecs + 1 }

  lemma CranksLeftDecreases(before: SellPlan, now: I64, after: SellPlan, open: int)
    requires OnGrid(before, open) && Serves(before, now, after)
    ensures 0 < after.periodSecs && 1 <= CranksLeft(before) && CranksLeft(after) < CranksLeft(before)
  {
    ServedGate(before, now, after, open);
    var p := before.periodSecs;
    Rounding.MulMono(GateIndex(before, open) + 1, GateIndex(after, open), p);
    Rounding.MulDistribute(GateIndex(before, open), 1, p);
    Rounding.DivMono(after.endTs - after.nextDueTs, before.endTs - before.nextDueTs - p, p);
    Rounding.DivShift(before.endTs - before.nextDueTs, p, -1);
    Rounding.LeDiv(0, before.endTs - before.nextDueTs, p);
  }

  // ---- How fast a pot can drain ----

  /** The pot alongside the run: a crank draws within its cap and costs the pot at most the draw;
      between cranks the pot may only grow. */
  ghost predicate PotRun(plans: seq<SellPlan>, clocks: seq<Option<I64>>, pots: seq<nat>, draws: seq<nat>) {
    |plans| == |clocks| + 1 && |pots| == |clocks| + 1 && |draws| == |clocks|
    && forall i | 0 <= i < |clocks| :: PotAt(plans, clocks, pots, draws, i)
  }

  ghost predicate PotAt(plans: seq<SellPlan>, clocks: seq<Option<I64>>, pots: seq<nat>, draws: seq<nat>, i: nat)
    requires |plans| == |clocks| + 1 && |pots| == |clocks| + 1 && |draws| == |clocks| && i < |clocks|
  {
    match clocks[i]
    case None => pots[i] <= pots[i + 1]
    case Some(now) =>
      DrawFits(plans[i], now, draws[i], pots[i]) && pots[i] - draws[i] <= pots[i + 1]
  }

  /** Every crank sees at least m - i periods left in interval i. */
  ghost predicate AtLeastLeft(plans: seq<SellPlan>, clocks: seq<Option<I64>>, open: I64, m: int) {
    |plans| == |clocks| + 1 &&
    forall i | 0 <= i < |clocks| && clocks[i].Some? :: LeftAt(plans[i], clocks[i].value, open, m)
  }

  ghost predicate LeftAt(plan: SellPlan, now: I64, open: I64, m: int) {
    0 < plan.periodSecs && RemainingPeriods(plan, now).Ok?
    && m - Interval(open, plan.periodSecs, now) <= RemainingPeriods(plan, now).value
  }

  /** A pot of w keeps at least left/m of w0. */
  ghost predicate Keeps(w: nat, w0: nat, left: int, m: int) { w * m >= w0 * left }

  lemma DepletionStepAt(
      before: SellPlan, now: I64, after: SellPlan, open: I64, m: nat, w0: nat, w: nat, w': nat, draw: nat)
    requires OnGrid(before, open) && Serves(before, now, after) && LeftAt(before, now, open, m)
    requires DrawFits(before, now, draw, w) && w - draw <= w'
    requires Keeps(w, w0, m - GateIndex(before, open), m)
    ensures OnGrid(after, open) && Keeps(w', w0, m - GateIndex(after, open), m)
  {
    ServedGate(before, now, after, open);
    DepletionStep(m, w0, w, w', GateIndex(before, open), Interval(open, before.periodSecs, now),
                  RemainingPeriods(before, now).value, draw);
  }

  /** With m - i periods left in every interval i, a gate at grid index g leaves (m-g)/m of the pot. */
  lemma {:induction false} Depletion(plans: seq<SellPlan>, clocks: seq<Option<I64>>, pots: seq<nat>, draws: seq<nat>,
                                     open: I64, m: nat, i: nat)
    requires GateRun(plans, clocks, open) && PotRun(plans, clocks, pots, draws)
    requires AtLeastLeft(plans, clocks, open, m) && i <= |clocks|
    ensures OnGrid(plans[i], open) && Keeps(pots[i], pots[0], m - GateIndex(plans[i], open), m)
  {
    GateAlong(plans, clocks, open, i);
    if i == 0 {
      OpenedOnGrid(plans[0], open);
    } else {
      Depletion(plans, clocks, pots, draws, open, m, i - 1);
      assert MoveAt(plans, clocks, i - 1) && PotAt(plans, clocks, pots, draws, i - 1);
      if clocks[i - 1].Some? {
        DepletionStepAt(plans[i - 1], clocks[i - 1].value, plans[i], open, m, pots[0], pots[i - 1], pots[i],
                        draws[i - 1]);
      } else {
        Rounding.MulMono(pots[i - 1], pots[i], m);
      }
    }
  }

  /** The clock falls within the first r seconds of its interval, r being what the horizon
      has beyond whole periods. */
  ghost predicate OnTime(plan: SellPlan, open: I64, now: I64) {
    0 < plan.periodSecs && (now - open) % plan.periodSecs <= (plan.endTs - open) % plan.periodSecs
  }

  /** Any crank leaves at least one period fewer than the whole periods after its interval;
      an on-time one leaves all of them. */
  lemma PeriodsSeen(plan: SellPlan, open: I64, now: I64)
    requires 0 < plan.periodSecs && 0 <= now
    ensures LeftAt(plan, now, open, Periods(plan, open) - 1)
    ensures OnTime(plan, open, now) ==>
              LeftAt(plan, now, open, Periods(plan, open))
              && RemainingPeriods(plan, now) == Ok(Max(Periods(plan, open) - Interval(open, plan.periodSecs, now), 1))
  {
    PeriodsExact(plan, now);
    PeriodsAtInterval(open, plan.endTs, plan.periodSecs, now);
  }

  lemma CrankClock(plans: seq<SellPlan>, clocks: seq<Option<I64>>, open: I64, i: nat)
    requires GateRun(plans, clocks, open) && i < |clocks| && clocks[i].Some?
    ensures open <= clocks[i].value
    ensures OnGrid(plans[0], open) && OnGrid(plans[i + 1], open)
    ensures plans[i].endTs == plans[0].endTs && plans[i].periodSecs == plans[0].periodSecs
    ensures GateIndex(plans[i + 1], open) == Interval(open, plans[0].periodSecs, clocks[i].value) + 1
    ensures Serves(plans[i], clocks[i].value, plans[i + 1])
  {
    GateMonotone(plans, clocks, open, 0, i);
    GateAlong(plans, clocks, open, i);
    assert MoveAt(plans, clocks, i);
    ServedGate(plans[i], clocks[i].value, plans[i + 1], open);
  }

  /** However late or irregular the cranks, after one in interval i a pot that started at w0
      holds w with w * (N-1) >= w0 * (N-i-2). */
  lemma AnyTimingBound(
      plans: seq<SellPlan>, clocks: seq<Option<I64>>, pots: seq<nat>, draws: seq<nat>, open: I64, i: nat)
    requires GateRun(plans, clocks, open) && PotRun(plans, clocks, pots, draws) && 0 <= open
    requires i < |clocks| && clocks[i].Some?
    ensures 0 < plans[0].periodSecs
    ensures var n, k := Periods(plans[0], open), Interval(open, plans[0].periodSecs, clocks[i].value);
            Keeps(pots[i + 1], pots[0], n - k - 2, n - 1)
  {
    OpenedOnGrid(plans[0], open);
    forall j | 0 <= j < |clocks| && clocks[j].Some?
      ensures LeftAt(plans[j], clocks[j].value, open, Periods(plans[0], open) - 1)
    {
      CrankClock(plans, clocks, open, j);
      PeriodsSeen(plans[j], open, clocks[j].value);
    }
    CrankClock(plans, clocks, open, i);
    Depletion(plans, clocks, pots, draws, open, Periods(plans[0], open) - 1, i + 1);
  }

  /** If every crank is on time the bound sharpens to w * N >= w0 * (N-i-1). */
  lemma OnTimeBound(plans: seq<SellPlan>, clocks: seq<Option<I64>>, pots: seq<nat>, draws: seq<nat>, open: I64, i: nat)
    requires GateRun(plans, clocks, open) && PotRun(plans, clocks, pots, draws) && 0 <= open
    requires i < |clocks| && clocks[i].Some?
    requires forall j | 0 <= j < |clocks| && clocks[j].Some? :: OnTime(plans[0], open, clocks[j].value)
    ensures 0 < plans[0].periodSecs
    ensures var n, k := Periods(plans[0], open), Interval(open, plans[0].periodSecs, clocks[i].value);
            Keeps(pots[i + 1], pots[0], n - k - 1, n)
  {
    OpenedOnGrid(plans[0], open);
    forall j | 0 <= j < |clocks| && clocks[j].Some?
      ensures LeftAt(plans[j], clocks[j].value, open, Periods(plans[0], open))
    {
      CrankClock(plans, clocks, open, j);
      PeriodsSeen(plans[j], open, clocks[j].value);
    }
    CrankClock(plans, clocks, open, i);
    Depletion(plans, clocks, pots, draws, open, Periods(plans[0], open), i + 1);
  }

  // ---- When every period got its crank ----

  /** One of the first i events is a crank in interval k. */
  ghost predicate CrankedIn(clocks: seq<Option<I64>>, i: nat, open: I64, period: int, k: int)
    requires 0 < period && i <= |clocks|
  {
    exists j :: 0 <= j < i && clocks[j].Some? && Interval(open, period, clocks[j].value) == k
  }

  /** One of the first i events is a crank in interval n or a later one. */
  ghost predicate CrankedFrom(clocks: seq<Option<I64>>, i: nat, open: I64, period: int, n: int)
    requires 0 < period && i <= |clocks|
  {
    exists j :: 0 <= j < i && clocks[j].Some? && n <= Interval(open, period, clocks[j].value)
  }

  function Least(a: int, b: int): int { if a <= b then a else b }

  /** A crank falls below the gate it leaves, and below every later one. */
  lemma CrankBelowGate(plans: seq<SellPlan>, clocks: seq<Option<I64>>, open: I64, j: nat, i: nat)
    requires GateRun(plans, clocks, open) && j < i <= |clocks| && clocks[j].Some?
    ensures OnGrid(plans[i], open) && OnGrid(plans[0], open)
    ensures 0 <= Interval(open, plans[0].periodSecs, clocks[j].value) < GateIndex(plans[i], open)
  {
    CrankClock(plans, clocks, open, j);
    GateMonotone(plans, clocks, open, j + 1, i);
    GateAlong(plans, clocks, open, i);
    Rounding.LeDiv(0, clocks[j].value - open, plans[0].periodSecs);
  }

  ghost predicate AllCranked(clocks: seq<Option<I64>>, i: nat, open: I64, period: int, bound: int)
    requires 0 < period && i <= |clocks|
  {
    forall k: int :: 0 <= k < bound ==> CrankedIn(clocks, i, open, period, k)
  }

  /** A gate at grid index g of a schedule of n periods has seen as many cranks as it can exactly when none
      of the periods it has passed went without one. */
  ghost predicate FullAt(clocks: seq<Option<I64>>, i: nat, open: I64, period: int, n: int, g: int)
    requires 0 < period && i <= |clocks|
  {
    Cranks(clocks, i) <= Least(g, n + 1)
    && (Cranks(clocks, i) == Least(g, n + 1) <==> AllCranked(clocks, i, open, period, Least(g, n)))
    && (n < g <==> CrankedFrom(clocks, i, open, period, n))
  }

  lemma {:induction false} FullSoFar(plans: seq<SellPlan>, clocks: seq<Option<I64>>, open: I64, i: nat)
    requires GateRun(plans, clocks, open) && i <= |clocks|
    ensures OnGrid(plans[0], open) && OnGrid(plans[i], open)
    ensures FullAt(clocks, i, open, plans[0].periodSecs, Periods(plans[0], open), GateIndex(plans[i], open))
  {
    OpenedOnGrid(plans[0], open);
    if i == 0 {
      assert !CrankedFrom(clocks, i, open, plans[0].periodSecs, Periods(plans[0], open));
    } else {
      FullSoFar(plans, clocks, open, i - 1);
      FullNext(plans, clocks, open, i - 1);
    }
  }

  lemma FullNext(plans: seq<SellPlan>, clocks: seq<Option<I64>>, open: I64, i: nat)
    requires GateRun(plans, clocks, open) && i < |clocks| && OnGrid(plans[0], open) && OnGrid(plans[i], open)
    requires FullAt(clocks, i, open, plans[0].periodSecs, Periods(plans[0], open), GateIndex(plans[i], open))
    ensures OnGrid(plans[i + 1], open)
    ensures FullAt(clocks, i + 1, open, plans[0].periodSecs, Periods(plans[0], open), GateIndex(plans[i + 1], open))
  {
    var p, n, g := plans[0].periodSecs, Periods(plans[0], open), GateIndex(plans[i], open);
    assert MoveAt(plans, clocks, i);
    if clocks[i].Some? {
      CrankClock(plans, clocks, open, i);
      ServedGate(plans[i], clocks[i].value, plans[i + 1], open);
      CranksBelowGate(plans, clocks, open, i);
      FullStep(clocks, i, i + 1, open, p, n, g, Interval(open, p, clocks[i].value));
    } else {
      FullSame(clocks, i, i + 1, open, p, n, g);
    }
  }

  lemma CranksBelowGate(plans: seq<SellPlan>, clocks: seq<Option<I64>>, open: I64, i: nat)
    requires GateRun(plans, clocks, open) && i <= |clocks|
    ensures OnGrid(plans[0], open) && OnGrid(plans[i], open)
    ensures forall k: int :: CrankedIn(clocks, i, open, plans[0].periodSecs, k) ==> 0 <= k < GateIndex(plans[i], open)
  {
    GateAlong(plans, clocks, open, i);
    forall k: int | CrankedIn(clocks, i, open, plans[0].periodSecs, k) ensures 0 <= k < GateIndex(plans[i], open) {
      var j :| 0 <= j < i && clocks[j].Some? && Interval(open, plans[0].periodSecs, clocks[j].value) == k;
      CrankBelowGate(plans, clocks, open, j, i);
    }
  }

  /** What one more event adds. */
  lemma OneMore(clocks: seq<Option<I64>>, i: nat, next: nat, open: I64, period: int, k: int)
    requires 0 < period && i < |clocks| && next == i + 1
    ensures CrankedIn(clocks, next, open, period, k) <==>
            CrankedIn(clocks, i, open, period, k)
            || (clocks[i].Some? && Interval(open, period, clocks[i].value) == k)
    ensures CrankedFrom(clocks, next, open, period, k) <==>
            CrankedFrom(clocks, i, open, period, k)
            || (clocks[i].Some? && k <= Interval(open, period, clocks[i].value))
  {
    if CrankedIn(clocks, i, open, period, k) {
      var j :| 0 <= j < i && clocks[j].Some? && Interval(open, period, clocks[j].value) == k;
      assert 0 <= j < next;
    }
    if CrankedFrom(clocks, i, open, period, k) {
      var j :| 0 <= j < i && clocks[j].Some? && k <= Interval(open, period, clocks[j].value);
      assert 0 <= j < next;
    }
  }

  lemma FullSame(clocks: seq<Option<I64>>, i: nat, next: nat, open: I64, period: int, n: int, g: int)
    requires 0 < period && i < |clocks| && next == i + 1 && clocks[i].None? && FullAt(clocks, i, open, period, n, g)
    ensures FullAt(clocks, next, open, period, n, g)
  {
    OneMore(clocks, i, next, open, period, n);
    forall k: int ensures CrankedIn(clocks, next, open, period, k) <==> CrankedIn(clocks, i, open, period, k) {
      OneMore(clocks, i, next, open, period, k);
    }
  }

  /** One crank, in interval k: it keeps pace only if the gate was at k, or had passed all n periods. */
  lemma FullStep(clocks: seq<Option<I64>>, i: nat, next: nat, open: I64, period: int, n: int, g: int, k: int)
    requires 0 < period && i < |clocks| && next == i + 1
    requires clocks[i].Some? && Interval(open, period, clocks[i].value) == k
    requires 0 <= g <= n && g <= k && FullAt(clocks, i, open, period, n, g)
    requires forall m: int :: CrankedIn(clocks, i, open, period, m) ==> 0 <= m < g
    ensures FullAt(clocks, next, open, period, n, k + 1)
  {
    OneMore(clocks, i, next, open, period, n);
    forall m: int
      ensures CrankedIn(clocks, next, open, period, m) <==> CrankedIn(clocks, i, open, period, m) || m == k
    {
      OneMore(clocks, i, next, open, period, m);
    }
    assert Cranks(clocks, next) == Cranks(clocks, i) + 1;
    assert CrankedIn(clocks, next, open, period, g) <==> g == k;
    if AllCranked(clocks, next, open, period, Least(k + 1, n)) {
      assert AllCranked(clocks, i, open, period, Least(g, n));
      assert g == Least(k, n);
    } else if Cranks(clocks, next) == Least(k + 1, n + 1) {
      assert false;
    }
  }

  /** A schedule of N periods gets all N + 1 of its cranks exactly when every one of its N intervals got one,
      and so did some later one; otherwise the missed ones are lost. */
  lemma {:induction false} FullSchedule(plans: seq<SellPlan>, clocks: seq<Option<I64>>, open: I64)
    requires GateRun(plans, clocks, open)
    ensures OnGrid(plans[0], open)
    ensures var n, p := Periods(plans[0], open), plans[0].periodSecs;
            Cranks(clocks, |clocks|) == n + 1 <==>
            AllCranked(clocks, |clocks|, open, p, n) && CrankedFrom(clocks, |clocks|, open, p, n)
  {
    FullSoFar(plans, clocks, open, |clocks|);
    OpenedOnGrid(plans[0], open);
  }

  // ---- Running out early ----

  /** One crank of a due, on-grid plan may take the whole pot with a period still to come if and only if
      it falls in interval N - 2, after the first r seconds of it. */
  lemma EarlyIff(plan: SellPlan, now: I64, pot: nat, open: I64)
    requires OnGrid(plan, open) && plan.nextDueTs <= now && plan.nextDueTs <= plan.endTs && 0 <= now && 0 < pot
    requires NextGate(plan, now).Ok?
    ensures RemainingPeriods(plan, now).Ok?
    ensures pot / RemainingPeriods(plan, now).value == pot && NextGate(plan, now).value + plan.periodSecs <= plan.endTs
            <==> Interval(open, plan.periodSecs, now) == Periods(plan, open) - 2 && !OnTime(plan, open, now)
  {
    var p, n, i := plan.periodSecs, Periods(plan, open), Interval(open, plan.periodSecs, now);
    GateJump(plan, now, open, GateIndex(plan, open));
    WholePotAllowed(plan, now, pot);
    PeriodsAtInterval(open, plan.endTs, p, now);
    Rounding.LeDiv(i + 2, plan.endTs - open, p);
    Rounding.LeDiv(2, plan.endTs - now, p);
    Rounding.MulDistribute(i + 1, 1, p);
  }

  /** A crank that emptied the pot with a period still to come. */
  ghost predicate EmptiesEarly(plans: seq<SellPlan>, clocks: seq<Option<I64>>, pots: seq<nat>, i: nat)
    requires |plans| == |clocks| + 1 && |pots| == |clocks| + 1 && i < |clocks|
  {
    clocks[i].Some? && 0 < pots[i] && pots[i + 1] == 0
    && plans[i + 1].nextDueTs + plans[i + 1].periodSecs <= plans[i + 1].endTs
  }

  lemma EarlyIsLate(
    plans: seq<SellPlan>, clocks: seq<Option<I64>>, pots: seq<nat>, draws: seq<nat>, open: I64, i: nat)
    requires GateRun(plans, clocks, open) && PotRun(plans, clocks, pots, draws) && 0 <= open && i < |clocks|
    requires EmptiesEarly(plans, clocks, pots, i)
    ensures OnGrid(plans[0], open)
    ensures Interval(open, plans[0].periodSecs, clocks[i].value) == Periods(plans[0], open) - 2
    ensures !OnTime(plans[0], open, clocks[i].value)
  {
    CrankClock(plans, clocks, open, i);
    GateAlong(plans, clocks, open, i);
    assert PotAt(plans, clocks, pots, draws, i);
    var periods := RemainingPeriods(plans[i], clocks[i].value).value;
    if 2 <= periods { Rounding.MulMono(2, periods, draws[i]); }
    assert periods == 1;
    Rounding.DivUnique(pots[i], 1, pots[i]);
    EarlyIff(plans[i], clocks[i].value, pots[i], open);
  }

  /** A pot that started with something and is empty with a period still to come was emptied by a late
      crank in interval N - 2. */
  lemma {:induction false} EarlyExhaustion(
    plans: seq<SellPlan>, clocks: seq<Option<I64>>, pots: seq<nat>, draws: seq<nat>, open: I64, j: nat) returns (i: nat)
    requires GateRun(plans, clocks, open) && PotRun(plans, clocks, pots, draws) && 0 <= open && j <= |clocks|
    requires 0 < pots[0] && pots[j] == 0 && plans[j].nextDueTs + plans[j].periodSecs <= plans[j].endTs
    ensures i < j && EmptiesEarly(plans, clocks, pots, i) && OnGrid(plans[0], open)
    ensures Interval(open, plans[0].periodSecs, clocks[i].value) == Periods(plans[0], open) - 2
    ensures !OnTime(plans[0], open, clocks[i].value)
  {
    GateAlong(plans, clocks, open, j);
    if j == 0 {
      assert false;
    } else {
      GateAlong(plans, clocks, open, j - 1);
      if pots[j - 1] == 0 {
        GateMonotone(plans, clocks, open, j - 1, j);
        i := EarlyExhaustion(plans, clocks, pots, draws, open, j - 1);
      } else {
        i := j - 1;
        assert MoveAt(plans, clocks, i) && PotAt(plans, clocks, pots, draws, i);
        EarlyIsLate(plans, clocks, pots, draws, open, i);
      }
    }
  }

  // ---- The exact runway ----

  /** The k-th crank falls on time in the k-th interval, draws its full cap,
      and nothing else moves the pot. */
  ghost predicate RunwayRun(
      plans: seq<SellPlan>, clocks: seq<Option<I64>>, pots: seq<nat>, draws: seq<nat>, open: I64)
  {
    |plans| == |clocks| + 1 && |pots| == |clocks| + 1 && |draws| == |clocks|
    && forall i | 0 <= i < |clocks| :: RunwayAt(plans, clocks, pots, draws, open, i)
  }

  ghost predicate RunwayAt(
      plans: seq<SellPlan>, clocks: seq<Option<I64>>, pots: seq<nat>, draws: seq<nat>, open: I64, i: nat)
    requires |plans| == |clocks| + 1 && |pots| == |clocks| + 1 && |draws| == |clocks| && i < |clocks|
  {
    match clocks[i]
    case None => pots[i + 1] == pots[i]
    case Some(now) =>
      OnTimeIn(plans[i], open, now, Cranks(clocks, i))
      && FullDraw(plans[i], now, draws[i], pots[i]) && pots[i + 1] + draws[i] == pots[i]
  }

  ghost predicate OnTimeIn(plan: SellPlan, open: I64, now: I64, k: int) {
    OnTime(plan, open, now) && Interval(open, plan.periodSecs, now) == k
  }

  ghost predicate FullDraw(plan: SellPlan, now: I64, draw: nat, pot: nat) {
    RemainingPeriods(plan, now).Ok? && draw == pot / RemainingPeriods(plan, now).value
  }

  function TotalDrawn(clocks: seq<Option<I64>>, draws: seq<nat>, i: nat): nat
    requires |draws| == |clocks| && i <= |clocks|
  {
    if i == 0 then 0 else TotalDrawn(clocks, draws, i - 1) + if clocks[i - 1].Some? then draws[i - 1] else 0
  }

  /** Before each event the pot is what so many on-time full draws leave of the starting pot. */
  lemma {:induction false} RunwayAlong(plans: seq<SellPlan>, clocks: seq<Option<I64>>, pots: seq<nat>, draws: seq<nat>,
                                       open: I64, n: nat, i: nat)
    requires GateRun(plans, clocks, open) && RunwayRun(plans, clocks, pots, draws, open) && 0 <= open && i <= |clocks|
    requires OnGrid(plans[0], open) && n == Periods(plans[0], open) && Cranks(clocks, i) <= n
    ensures pots[i] == PotBefore(pots[0], n, Cranks(clocks, i))
    ensures TotalDrawn(clocks, draws, i) + pots[i] == pots[0]
  {
    if i == 0 {
    } else {
      RunwayAlong(plans, clocks, pots, draws, open, n, i - 1);
      PotMove(plans, clocks, pots, draws, open, i - 1);
      if clocks[i - 1].Some? {
        FullDrawAt(plans, clocks, pots, draws, open, i - 1);
        PotBeforeStep(pots[0], n, Cranks(clocks, i - 1));
      }
    }
  }

  lemma {:induction false} DrawAlong(
      plans: seq<SellPlan>, clocks: seq<Option<I64>>, pots: seq<nat>, draws: seq<nat>, open: I64, i: nat)
    requires GateRun(plans, clocks, open) && RunwayRun(plans, clocks, pots, draws, open) && 0 <= open
    requires i < |clocks| && clocks[i].Some?
    requires OnGrid(plans[0], open) && Cranks(clocks, i) < Periods(plans[0], open)
    ensures draws[i] == RunwayDraw(pots[0], Periods(plans[0], open), Cranks(clocks, i))
  {
    RunwayAlong(plans, clocks, pots, draws, open, Periods(plans[0], open), i);
    FullDrawAt(plans, clocks, pots, draws, open, i);
    RunwayClosedForm(pots[0], Periods(plans[0], open), Cranks(clocks, i));
  }

  lemma PotMove(plans: seq<SellPlan>, clocks: seq<Option<I64>>, pots: seq<nat>, draws: seq<nat>, open: I64, i: nat)
    requires RunwayRun(plans, clocks, pots, draws, open) && i < |clocks|
    ensures if clocks[i].Some? then pots[i + 1] + draws[i] == pots[i] else pots[i + 1] == pots[i]
  {
    assert RunwayAt(plans, clocks, pots, draws, open, i);
  }

  lemma PotBeforeStep(w0: nat, n: nat, k: nat)
    requires k < n
    ensures PotBefore(w0, n, k + 1) == PotBefore(w0, n, k) - PotBefore(w0, n, k) / (n - k)
  {
  }

  lemma {:induction false} FullDrawAt(
      plans: seq<SellPlan>, clocks: seq<Option<I64>>, pots: seq<nat>, draws: seq<nat>, open: I64, i: nat)
    requires GateRun(plans, clocks, open) && RunwayRun(plans, clocks, pots, draws, open) && 0 <= open
    requires i < |clocks| && clocks[i].Some?
    requires OnGrid(plans[0], open) && Cranks(clocks, i) < Periods(plans[0], open)
    ensures draws[i] == pots[i] / (Periods(plans[0], open) - Cranks(clocks, i))
  {
    assert RunwayAt(plans, clocks, pots, draws, open, i);
    CrankClock(plans, clocks, open, i);
    PeriodsSeen(plans[i], open, clocks[i].value);
  }

  /** N on-time cranks drawing their full cap pay floor(w0/N) or one more each, the longer draws last
      and w0 % N of them, sum to the starting pot, and leave it empty. */
  lemma {:induction false} ExactRunway(
      plans: seq<SellPlan>, clocks: seq<Option<I64>>, pots: seq<nat>, draws: seq<nat>, open: I64)
    requires GateRun(plans, clocks, open) && RunwayRun(plans, clocks, pots, draws, open) && 0 <= open
    requires OnGrid(plans[0], open) && Cranks(clocks, |clocks|) == Periods(plans[0], open)
    ensures var w0, n := pots[0], Periods(plans[0], open);
            0 < n
            && pots[|clocks|] == 0 && TotalDrawn(clocks, draws, |clocks|) == w0
            && LongDraws(w0, n, n) == w0 % n
            && (forall i | 0 <= i < |clocks| && clocks[i].Some? ::
                  Cranks(clocks, i) < n && draws[i] == RunwayDraw(w0, n, Cranks(clocks, i))
                  && w0 / n <= draws[i] <= w0 / n + 1)
            && (forall i, j | 0 <= i <= j < |clocks| && clocks[i].Some? && clocks[j].Some? :: draws[i] <= draws[j])
  {
    OpenedOnGrid(plans[0], open);
    var w0, n := pots[0], Periods(plans[0], open);
    RunwayAlong(plans, clocks, pots, draws, open, n, |clocks|);
    RunwayClosedForm(w0, n, n);
    RunwayShape(w0, n);
    forall i | 0 <= i < |clocks| && clocks[i].Some?
      ensures Cranks(clocks, i) < n && draws[i] == RunwayDraw(w0, n, Cranks(clocks, i))
    {
      CranksMonotone(clocks, i + 1, |clocks|);
      DrawAlong(plans, clocks, pots, draws, open, i);
    }
    forall i, j | 0 <= i <= j < |clocks| && clocks[i].Some? && clocks[j].Some? ensures draws[i] <= draws[j] {
      CranksMonotone(clocks, i, j);
    }
  }

  lemma {:induction false} CranksMonotone(clocks: seq<Option<I64>>, i: nat, j: nat)
    requires i <= j <= |clocks|
    ensures Cranks(clocks, i) <= Cranks(clocks, j)
    decreases j
  {
    if i == j {
    } else {
      CranksMonotone(clocks, i, j - 1);
    }
  }

  // ---- Full draws at any time ----

  /** Every crank draws its full cap, which is positive, and nothing else moves the pot. The cranks may be late
      or irregular, and periods may be skipped. */
  ghost predicate FullDrawRun(plans: seq<SellPlan>, clocks: seq<Option<I64>>, pots: seq<nat>, draws: seq<nat>) {
    |plans| == |clocks| + 1 && |pots| == |clocks| + 1 && |draws| == |clocks|
    && forall i | 0 <= i < |clocks| :: FullDrawMove(plans, clocks, pots, draws, i)
  }

  ghost predicate FullDrawMove(
      plans: seq<SellPlan>, clocks: seq<Option<I64>>, pots: seq<nat>, draws: seq<nat>, i: nat)
    requires |plans| == |clocks| + 1 && |pots| == |clocks| + 1 && |draws| == |clocks| && i < |clocks|
  {
    match clocks[i]
    case None => pots[i + 1] == pots[i]
    case Some(now) =>
      FullDraw(plans[i], now, draws[i], pots[i]) && 0 < draws[i] && pots[i + 1] + draws[i] == pots[i]
  }

  /** Whole periods a crank at `now` divides by: those after its interval, one fewer if it is late, at least one. */
  function PeriodsLeft(plan: SellPlan, open: int, now: int): (p: int)
    requires 0 < plan.periodSecs
    ensures 1 <= p
  {
    var n, k := Periods(plan, open), Interval(open, plan.periodSecs, now);
    Max(if (now - open) % plan.periodSecs <= (plan.endTs - open) % plan.periodSecs then n - k else n - k - 1, 1)
  }

  /** A late crank, then one on time in the very next interval: they divide by the same number of periods. */
  ghost predicate Recovers(plan: SellPlan, open: I64, now: I64, later: I64) {
    0 < plan.periodSecs && !OnTime(plan, open, now) && OnTime(plan, open, later)
    && Interval(open, plan.periodSecs, later) == Interval(open, plan.periodSecs, now) + 1
  }

  /** A full draw in terms of the plan's first state. */
  lemma FullDrawIs(
      plans: seq<SellPlan>, clocks: seq<Option<I64>>, pots: seq<nat>, draws: seq<nat>, open: I64, i: nat)
    requires GateRun(plans, clocks, open) && FullDrawRun(plans, clocks, pots, draws) && 0 <= open
    requires i < |clocks| && clocks[i].Some?
    ensures OnGrid(plans[0], open)
    ensures var p := PeriodsLeft(plans[0], open, clocks[i].value);
            draws[i] == pots[i] / p && 0 < draws[i] && pots[i + 1] + draws[i] == pots[i]
  {
    assert FullDrawMove(plans, clocks, pots, draws, i);
    CrankClock(plans, clocks, open, i);
    PeriodsExact(plans[i], clocks[i].value);
    PeriodsAtInterval(open, plans[0].endTs, plans[0].periodSecs, clocks[i].value);
  }

  /** Of two cranks in increasing intervals the later sees no more periods, and sees as many only if
      there is one left or it recovers. */
  lemma PeriodsShrink(plan: SellPlan, open: I64, now: I64, later: I64)
    requires 0 < plan.periodSecs && Interval(open, plan.periodSecs, now) < Interval(open, plan.periodSecs, later)
    ensures PeriodsLeft(plan, open, later) <= PeriodsLeft(plan, open, now)
    ensures 2 <= PeriodsLeft(plan, open, now) ==>
              (PeriodsLeft(plan, open, later) == PeriodsLeft(plan, open, now) <==> Recovers(plan, open, now, later))
  {
  }

  /** Redividing what a full draw of w over p left, over at most p periods. */
  lemma RedivideIff(w: nat, p: int, q: int)
    requires 1 <= q <= p && 2 <= p
    ensures 0 <= w / p <= w
    ensures w / p <= (w - w / p) / q <==> q < p || w / p <= w % p
  {
    var d := w / p;
    Rounding.DivAntitone(w, 1, p);
    Rounding.LeDiv(d, w - d, q);
    Rounding.DivBounds(w, p);
    assert w == d * p + w % p;
    if q < p {
      Rounding.MulMono(q, p - 1, d);
      Rounding.MulDistribute(p, -1, d);
    }
  }

  /** No crank between two events leaves the pot as it was. */
  lemma {:induction false} PotBetween(
      plans: seq<SellPlan>, clocks: seq<Option<I64>>, pots: seq<nat>, draws: seq<nat>, i: nat, j: nat)
    requires FullDrawRun(plans, clocks, pots, draws) && i <= j <= |clocks|
    requires forall k | i <= k < j :: clocks[k].None?
    ensures pots[j] == pots[i]
    decreases j
  {
    if i == j {
    } else {
      PotBetween(plans, clocks, pots, draws, i, j - 1);
      assert FullDrawMove(plans, clocks, pots, draws, j - 1);
    }
  }

  /** The schedule re-amortizes: of two consecutive full draws the second is no smaller, however late and however many
      periods apart, except where it recovers and the remainder of the first did not cover one draw more. */
  lemma NextDrawIff(
      plans: seq<SellPlan>, clocks: seq<Option<I64>>, pots: seq<nat>, draws: seq<nat>, open: I64, i: nat, j: nat)
    requires GateRun(plans, clocks, open) && FullDrawRun(plans, clocks, pots, draws) && 0 <= open
    requires i < j < |clocks| && clocks[i].Some? && clocks[j].Some? && forall k | i < k < j :: clocks[k].None?
    ensures OnGrid(plans[0], open)
    ensures draws[i] <= draws[j] <==>
            !Recovers(plans[0], open, clocks[i].value, clocks[j].value)
            || draws[i] <= pots[i] % PeriodsLeft(plans[0], open, clocks[i].value)
  {
    FullDrawIs(plans, clocks, pots, draws, open, i);
    FullDrawIs(plans, clocks, pots, draws, open, j);
    PotBetween(plans, clocks, pots, draws, i + 1, j);
    IntervalsIncrease(plans, clocks, open, i, j);
    var p, q := PeriodsLeft(plans[0], open, clocks[i].value), PeriodsLeft(plans[0], open, clocks[j].value);
    PeriodsShrink(plans[0], open, clocks[i].value, clocks[j].value);
    Rounding.DivUnique(pots[i], 1, pots[i]);
    EmptyDraw(q);
    assert 2 <= p;
    RedivideIff(pots[i], p, q);
  }

  lemma EmptyDraw(q: int)
    requires 1 <= q
    ensures 0 / q == 0
  {
    Rounding.DivUnique(0, q, 0);
  }

  /** The last crank before j. */
  lemma {:induction false} LastCrankBefore(clocks: seq<Option<I64>>, i: nat, j: nat) returns (k: nat)
    requires i < j <= |clocks| && clocks[i].Some?
    ensures i <= k < j && clocks[k].Some? && forall m | k < m < j :: clocks[m].None?
    decreases j
  {
    if clocks[j - 1].Some? {
      k := j - 1;
    } else {
      k := LastCrankBefore(clocks, i, j - 1);
    }
  }

  /** No late crank is followed by one on time in the next interval. */
  ghost predicate NeverRecovers(plans: seq<SellPlan>, clocks: seq<Option<I64>>, open: I64)
    requires |plans| == |clocks| + 1
  {
    forall i, j | 0 <= i < j < |clocks| && clocks[i].Some? && clocks[j].Some? ::
      !Recovers(plans[0], open, clocks[i].value, clocks[j].value)
  }

  /** Then full draws never decrease over the whole run. */
  lemma {:induction false} DrawsNeverDecrease(
      plans: seq<SellPlan>, clocks: seq<Option<I64>>, pots: seq<nat>, draws: seq<nat>, open: I64, i: nat, j: nat)
    requires GateRun(plans, clocks, open) && FullDrawRun(plans, clocks, pots, draws) && 0 <= open
    requires NeverRecovers(plans, clocks, open) && i <= j < |clocks| && clocks[i].Some? && clocks[j].Some?
    ensures draws[i] <= draws[j]
    decreases j
  {
    if i == j {
    } else {
      var k := LastCrankBefore(clocks, i, j);
      DrawsNeverDecrease(plans, clocks, pots, draws, open, i, k);
      NextDrawIff(plans, clocks, pots, draws, open, k, j);
    }
  }

  /** One of the first j events is a crank that found one period left. */
  ghost predicate ClosedBy(plans: seq<SellPlan>, clocks: seq<Option<I64>>, open: I64, j: nat)
    requires |plans| == |clocks| + 1 && j <= |clocks| && 0 < plans[0].periodSecs
  {
    exists i :: 0 <= i < j && clocks[i].Some? && PeriodsLeft(plans[0], open, clocks[i].value) == 1
  }

  /** Whatever was skipped, what was drawn and what is left are the starting pot, and the pot is empty exactly when
      some crank found one period left. */
  lemma {:induction false} PaidOutIff(
      plans: seq<SellPlan>, clocks: seq<Option<I64>>, pots: seq<nat>, draws: seq<nat>, open: I64, j: nat)
    requires GateRun(plans, clocks, open) && FullDrawRun(plans, clocks, pots, draws) && 0 <= open
    requires j <= |clocks| && 0 < pots[0]
    ensures OnGrid(plans[0], open)
    ensures TotalDrawn(clocks, draws, j) + pots[j] == pots[0]
    ensures pots[j] == 0 <==> ClosedBy(plans, clocks, open, j)
  {
    OpenedOnGrid(plans[0], open);
    if j == 0 {
    } else {
      PaidOutIff(plans, clocks, pots, draws, open, j - 1);
      if clocks[j - 1].Some? {
        FullDrawIs(plans, clocks, pots, draws, open, j - 1);
        WholeDrawIff(pots[j - 1], PeriodsLeft(plans[0], open, clocks[j - 1].value));
      } else {
        PotBetween(plans, clocks, pots, draws, j - 1, j);
      }
      ClosedByNext(plans, clocks, open, j - 1, j);
    }
  }

  lemma WholeDrawIff(w: nat, p: int)
    requires 1 <= p && 0 < w
    ensures w / p == w <==> p == 1
  {
    Rounding.LeDiv(w, w, p);
    if 2 <= p { Rounding.MulMono(2, p, w); }
  }

  lemma ClosedByNext(plans: seq<SellPlan>, clocks: seq<Option<I64>>, open: I64, j: nat, next: nat)
    requires |plans| == |clocks| + 1 && j < |clocks| && next == j + 1 && 0 < plans[0].periodSecs
    ensures ClosedBy(plans, clocks, open, next) <==>
            ClosedBy(plans, clocks, open, j)
            || (clocks[j].Some? && PeriodsLeft(plans[0], open, clocks[j].value) == 1)
  {
    if ClosedBy(plans, clocks, open, j) {
      var i :| 0 <= i < j && clocks[i].Some? && PeriodsLeft(plans[0], open, clocks[i].value) == 1;
      assert 0 <= i < next;
    }
  }
}
