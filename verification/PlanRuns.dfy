// The life of one user's sell plan inside a run of the whole deployment: every run projects to a
// run of the plan alone, and what CrankRuns proves there holds of the deployment.
module PlanRuns {
  import opened Machine
  import opened Ledger
  import opened Schedule
  import opened Program
  import opened Executions
  import opened Runs
  import opened CrankRuns
  import opened Exposure
  import opened Refusals

  predicate SellFor(e: Event, user: Key) { e.ix.ExecuteSell? && e.ix.sell.user == user }

  predicate BuyFor(e: Event, user: Key) { e.ix.ExecuteBuy? && e.ix.buy.user == user }

  /** A run that starts right after the user's plan was opened at clock `open` and never closes it. */
  ghost predicate Life(ss: seq<State>, es: seq<Event>, user: Key, open: I64) {
    Trace(ss, es) && user in ss[0].plans && Opened(ss[0].plans[user], open)
    && forall i | 0 <= i < |es| :: es[i].ix != CloseSellPlan(user)
  }

  // ---- Projections ----

  function PlanOf(s: State, user: Key): SellPlan {
    if user in s.plans then s.plans[user] else SellPlan(user, 0, 0, 0)
  }

  function Plans(ss: seq<State>, user: Key): (plans: seq<SellPlan>)
    ensures |plans| == |ss| && forall i | 0 <= i < |ss| :: plans[i] == PlanOf(ss[i], user)
  {
    if ss == [] then [] else Plans(ss[..|ss| - 1], user) + [PlanOf(ss[|ss| - 1], user)]
  }

  /** The clock of a sell for the user, and None for every other event. */
  function ClockOf(e: Event, user: Key): Option<I64> { if SellFor(e, user) then Some(e.env.now) else None }

  function Clocks(es: seq<Event>, user: Key): (clocks: seq<Option<I64>>)
    ensures |clocks| == |es| && forall i | 0 <= i < |es| :: clocks[i] == ClockOf(es[i], user)
  {
    if es == [] then [] else Clocks(es[..|es| - 1], user) + [ClockOf(es[|es| - 1], user)]
  }

  function Pots(ss: seq<State>, user: Key): (pots: seq<nat>)
    ensures |pots| == |ss| && forall i | 0 <= i < |ss| :: pots[i] == Pot(ss[i], user)
  {
    if ss == [] then [] else Pots(ss[..|ss| - 1], user) + [Pot(ss[|ss| - 1], user)]
  }

  /** What a sell at each event would draw. */
  function Draws(ss: seq<State>, user: Key): (draws: seq<nat>)
    ensures |draws| == |ss| && forall i | 0 <= i < |ss| :: draws[i] == Drawn(ss[i], user)
  {
    if ss == [] then [] else Draws(ss[..|ss| - 1], user) + [Drawn(ss[|ss| - 1], user)]
  }

  // ---- The gate ----

  lemma PlanStep(s: State, e: Event, t: State, user: Key)
    requires StepsTo(s, e, t) && user in s.plans && e.ix != CloseSellPlan(user)
    ensures user in t.plans
    ensures if SellFor(e, user) then Serves(s.plans[user], e.env.now, t.plans[user]) else t.plans[user] == s.plans[user]
  {
    if e.ix.ExecuteSell? { SellAdvancesGate(s, e.env, e.ix.sell); }
  }

  lemma {:induction false} PlanPersists(ss: seq<State>, es: seq<Event>, user: Key, open: I64, i: nat)
    requires Life(ss, es, user, open) && i <= |es|
    ensures user in ss[i].plans
  {
    if i == 0 {
    } else {
      PlanPersists(ss, es, user, open, i - 1);
      assert StepAt(ss, es, i - 1);
      PlanStep(ss[i - 1], es[i - 1], ss[i], user);
    }
  }

  /** Every life of a plan is a run of its gate, whatever else happens around it. */
  lemma {:induction false} LifeIsGateRun(ss: seq<State>, es: seq<Event>, user: Key, open: I64)
    requires Life(ss, es, user, open)
    ensures GateRun(Plans(ss, user), Clocks(es, user), open)
    ensures OnGrid(Plans(ss, user)[0], open)
  {
    OpenedOnGrid(ss[0].plans[user], open);
    forall i: nat | i < |es| ensures MoveAt(Plans(ss, user), Clocks(es, user), i) {
      PlanPersists(ss, es, user, open, i);
      assert StepAt(ss, es, i);
      PlanStep(ss[i], es[i], ss[i + 1], user);
    }
  }

  /** Throughout its life a plan keeps its terms, and its gate stays on the grid. */
  lemma GateOnGrid(ss: seq<State>, es: seq<Event>, user: Key, open: I64, i: nat)
    requires Life(ss, es, user, open) && i <= |es|
    ensures user in ss[i].plans && OnGrid(ss[i].plans[user], open)
    ensures ss[i].plans[user].endTs == ss[0].plans[user].endTs
            && ss[i].plans[user].periodSecs == ss[0].plans[user].periodSecs
  {
    PlanPersists(ss, es, user, open, i);
    LifeIsGateRun(ss, es, user, open);
    GateAlong(Plans(ss, user), Clocks(es, user), open, i);
  }

  /** Each success leaves the gate at the least grid point strictly after its clock. */
  lemma SellMovesGate(ss: seq<State>, es: seq<Event>, user: Key, open: I64, i: nat)
    requires Life(ss, es, user, open) && i < |es| && SellFor(es[i], user)
    ensures user in ss[i + 1].plans && OnGrid(ss[i + 1].plans[user], open)
    ensures es[i].env.now < ss[i + 1].plans[user].nextDueTs <= es[i].env.now + ss[i + 1].plans[user].periodSecs
  {
    GateOnGrid(ss, es, user, open, i);
    GateOnGrid(ss, es, user, open, i + 1);
    assert StepAt(ss, es, i);
    PlanStep(ss[i], es[i], ss[i + 1], user);
    ServedGate(ss[i].plans[user], es[i].env.now, ss[i + 1].plans[user], open);
  }

  /** No two sells of one plan fall in the same period of the grid, and they come in grid order,
      even if the clock runs backwards between them. */
  lemma OneSellPerInterval(ss: seq<State>, es: seq<Event>, user: Key, open: I64, i: nat, j: nat)
    requires Life(ss, es, user, open) && i < j < |es| && SellFor(es[i], user) && SellFor(es[j], user)
    ensures var p := PlanOf(ss[0], user).periodSecs;
            0 < p && Interval(open, p, es[i].env.now) < Interval(open, p, es[j].env.now)
  {
    LifeIsGateRun(ss, es, user, open);
    IntervalsIncrease(Plans(ss, user), Clocks(es, user), open, i, j);
  }

  /** At most N + 1 sells ever succeed under one plan of N whole periods. */
  lemma {:induction false} CrankCount(ss: seq<State>, es: seq<Event>, user: Key, open: I64)
    requires Life(ss, es, user, open)
    ensures 0 < PlanOf(ss[0], user).periodSecs
    ensures Cranks(Clocks(es, user), |es|) <= Periods(PlanOf(ss[0], user), open) + 1
  {
    LifeIsGateRun(ss, es, user, open);
    GateAlong(Plans(ss, user), Clocks(es, user), open, |es|);
  }

  /** One of the first i events is a sell for the user in interval k of their plan's grid. */
  ghost predicate SoldIn(es: seq<Event>, i: nat, user: Key, open: I64, period: int, k: int)
    requires 0 < period && i <= |es|
  {
    exists j :: 0 <= j < i && SellFor(es[j], user) && Interval(open, period, es[j].env.now) == k
  }

  /** One of them is a sell for the user in interval n or a later one. */
  ghost predicate SoldFrom(es: seq<Event>, i: nat, user: Key, open: I64, period: int, n: int)
    requires 0 < period && i <= |es|
  {
    exists j :: 0 <= j < i && SellFor(es[j], user) && n <= Interval(open, period, es[j].env.now)
  }

  lemma {:induction false} SoldIsCranked(es: seq<Event>, user: Key, open: I64, period: int, k: int)
    requires 0 < period
    ensures SoldIn(es, |es|, user, open, period, k) <==> CrankedIn(Clocks(es, user), |es|, open, period, k)
    ensures SoldFrom(es, |es|, user, open, period, k) <==> CrankedFrom(Clocks(es, user), |es|, open, period, k)
  {
    var clocks := Clocks(es, user);
    forall j | 0 <= j < |es|
      ensures SellFor(es[j], user) <==> clocks[j].Some?
      ensures SellFor(es[j], user) ==> clocks[j].value == es[j].env.now
    {
    }
    if SoldIn(es, |es|, user, open, period, k) {
      var j :| 0 <= j < |es| && SellFor(es[j], user) && Interval(open, period, es[j].env.now) == k;
      assert clocks[j].Some? && Interval(open, period, clocks[j].value) == k;
    }
    if SoldFrom(es, |es|, user, open, period, k) {
      var j :| 0 <= j < |es| && SellFor(es[j], user) && k <= Interval(open, period, es[j].env.now);
      assert clocks[j].Some? && k <= Interval(open, period, clocks[j].value);
    }
  }

  /** The bound is met exactly when every one of the N intervals saw a sell, and so did a later one:
      a period that goes by without its sell is lost, not made up. */
  lemma {:induction false} EveryPeriodSold(ss: seq<State>, es: seq<Event>, user: Key, open: I64)
    requires Life(ss, es, user, open)
    ensures 0 < PlanOf(ss[0], user).periodSecs
    ensures var n, p := Periods(PlanOf(ss[0], user), open), PlanOf(ss[0], user).periodSecs;
            Cranks(Clocks(es, user), |es|) == n + 1 <==>
            (forall k: int :: 0 <= k < n ==> SoldIn(es, |es|, user, open, p, k)) && SoldFrom(es, |es|, user, open, p, n)
  {
    LifeIsGateRun(ss, es, user, open);
    FullSchedule(Plans(ss, user), Clocks(es, user), open);
    var n, p := Periods(PlanOf(ss[0], user), open), PlanOf(ss[0], user).periodSecs;
    forall k: int ensures SoldIn(es, |es|, user, open, p, k) <==> CrankedIn(Clocks(es, user), |es|, open, p, k) {
      SoldIsCranked(es, user, open, p, k);
    }
    SoldIsCranked(es, user, open, p, n);
  }

  /** A sell served at or after the end is the plan's last: from then on every execute_sell for this
      user fails, whatever its clock, signers, accounts and venue; and one that is signed, with its accounts
      in place and the deployment unpaused, is told that the plan is completed. */
  lemma TerminalIsAbsorbing(ss: seq<State>, es: seq<Event>, user: Key, open: I64, i: nat, j: nat, env: Env, a: SellArgs)
    requires Life(ss, es, user, open) && i < j <= |es|
    requires SellFor(es[i], user) && PlanOf(ss[0], user).endTs <= es[i].env.now && a.user == user
    ensures SellEffect(ss[j], env, a).Err?
    ensures a.keeper in env.signers && SellInPlace(ss[j], a) && !ss[j].config.value.paused ==>
              SellEffect(ss[j], env, a) == Err(PlanCompleted)
    ensures j < |es| ==> !SellFor(es[j], user)
  {
    LifeIsGateRun(ss, es, user, open);
    TerminalStays(Plans(ss, user), Clocks(es, user), open, i, j);
    PlanPersists(ss, es, user, open, j);
    if SellEffect(ss[j], env, a).Ok? { SellAdvancesGate(ss[j], env, a); }
  }

  /** Every success uses up at least one of the sells the schedule has left; nothing else does. */
  lemma SellsLeftDecrease(ss: seq<State>, es: seq<Event>, user: Key, open: I64, i: nat)
    requires Life(ss, es, user, open) && i < |es|
    ensures 0 < PlanOf(ss[i], user).periodSecs && 0 < PlanOf(ss[i + 1], user).periodSecs
    ensures var before, after := CranksLeft(PlanOf(ss[i], user)), CranksLeft(PlanOf(ss[i + 1], user));
            if SellFor(es[i], user) then 1 <= before && after < before else after == before
  {
    GateOnGrid(ss, es, user, open, i);
    GateOnGrid(ss, es, user, open, i + 1);
    assert StepAt(ss, es, i);
    PlanStep(ss[i], es[i], ss[i + 1], user);
    if SellFor(es[i], user) {
      CranksLeftDecreases(ss[i].plans[user], es[i].env.now, ss[i + 1].plans[user], open);
    }
  }

  // ---- The pot ----

  /** The event is able to lower the user's wallet, other than by their own pull: an execution that handed its venue
      the rights to it, or an ordinary transfer out of it. */
  ghost predicate WalletExposed(s: State, e: Event, user: Key) {
    s.config.Some? && !e.ix.Pull? && Exposes(s, e.env, e.ix, Ata(user, s.config.value.targetMint))
  }

  /** The event leaves the user's pot to the schedule, whoever signs it: either it is able to lower neither their
      wallet nor, if it is a buy for them, their sell transient; or it took from the pot at most the draw of a sell
      for them, and otherwise nothing (a top-up, say). */
  ghost predicate Undisturbed(s: State, e: Event, t: State, user: Key) {
    (!WalletExposed(s, e, user) && (BuyFor(e, user) ==> !SellTransientExposed(s, e.ix.buy)))
    || TookAtMostDraw(s, e, t, user)
  }

  ghost predicate TookAtMostDraw(s: State, e: Event, t: State, user: Key) {
    if SellFor(e, user) then Pot(s, user) - Drawn(s, user) <= Pot(t, user) else Pot(s, user) <= Pot(t, user)
  }

  /** What the user does not sign never exposes their wallet; what they sign may well not either. */
  lemma UnsignedLeavesWallet(s: State, e: Event, t: State, user: Key)
    requires StepsTo(s, e, t) && user.Raw? && user !in e.env.signers
    ensures !WalletExposed(s, e, user)
  {
    if s.config.Some? && !e.ix.Pull? {
      UnsignedIsUnexposed(s, e.env, e.ix, t, Ata(user, s.config.value.targetMint));
    }
  }

  ghost predicate PotLeftAlone(ss: seq<State>, es: seq<Event>, user: Key) {
    |ss| == |es| + 1 && forall i | 0 <= i < |es| :: UndisturbedAt(ss, es, user, i)
  }

  ghost predicate UndisturbedAt(ss: seq<State>, es: seq<Event>, user: Key, i: nat)
    requires |ss| == |es| + 1 && i < |es|
  {
    Undisturbed(ss[i], es[i], ss[i + 1], user)
  }

  /** An event that does not expose the wallet leaves it whole, pulls apart. */
  lemma WalletKept(s: State, e: Event, t: State, user: Key)
    requires StepsTo(s, e, t) && s.config.Some? && !e.ix.Pull? && !WalletExposed(s, e, user) && user.Raw?
    ensures Bal(s.ledger, Ata(user, s.config.value.targetMint)) <= Bal(t.ledger, Ata(user, s.config.value.targetMint))
  {
    var wallet := Ata(user, s.config.value.targetMint);
    NotSpent(s, e, t, user);
    if Bal(t.ledger, wallet) < Bal(s.ledger, wallet) { LoweredIsExposed(s, e.env, e.ix, t, wallet); }
  }

  /** An execution spends a transient: never a wallet, and only its own user's. */
  lemma NotSpent(s: State, e: Event, t: State, user: Key)
    requires StepsTo(s, e, t) && s.config.Some? && user.Raw?
    ensures !SpentBy(e.ix, Ata(user, s.config.value.targetMint))
    ensures SpentBy(e.ix, SellTransient(s, user)) ==> SellFor(e, user) || BuyFor(e, user)
  {
    match e.ix
    case ExecuteBuy(a) =>
      BuyMoves(s, e.env, a);
      BuyGuards(s, e.env, a);
    case ExecuteSell(a) =>
      SellMoves(s, e.env, a);
      SellGuards(s, e.env, a);
    case _ =>
  }

  /** Nothing but an execution for the user can lower their sell transient, whoever signs. */
  lemma SellTransientKept(s: State, e: Event, t: State, user: Key)
    requires StepsTo(s, e, t) && s.config.Some? && user.Raw? && !SellFor(e, user) && !BuyFor(e, user)
    ensures Bal(s.ledger, SellTransient(s, user)) <= Bal(t.ledger, SellTransient(s, user))
  {
    NotSpent(s, e, t, user);
    if Bal(t.ledger, SellTransient(s, user)) < Bal(s.ledger, SellTransient(s, user)) {
      LoweredIsExposed(s, e.env, e.ix, t, SellTransient(s, user));
      OthersCannotSign(s, e, t, user);
    }
  }

  lemma OthersCannotSign(s: State, e: Event, t: State, user: Key)
    requires StepsTo(s, e, t) && s.config.Some? && user.Raw? && !SellFor(e, user) && !BuyFor(e, user)
    ensures !Exposes(s, e.env, e.ix, SellTransient(s, user))
  {
  }

  /** A pull only moves the pot from the wallet to the transient, or leaves it alone. */
  lemma PullKeepsPot(s: State, e: Event, t: State, user: Key)
    requires StepsTo(s, e, t) && e.ix.Pull? && user.Raw? && s.config.Some?
    ensures t.config == s.config && Pot(t, user) == Pot(s, user)
  {
    TransferFrame(s.ledger, PullOp(e.ix.delegator, e.ix.mint, e.ix.amount));
  }

  /** A buy that could not reach the sell transient leaves it whole. */
  lemma BuyKeepsDrawn(s: State, e: Event, t: State, user: Key)
    requires StepsTo(s, e, t) && BuyFor(e, user) && s.config.Some? && !SellTransientExposed(s, e.ix.buy)
    ensures t.config == s.config && Drawn(s, user) <= Drawn(t, user)
  {
    BuyMoves(s, e.env, e.ix.buy);
    if Drawn(t, user) < Drawn(s, user) { SpentIsExposed(s, e.env, e.ix.buy); }
  }

  /** Any event that leaves the pot to the schedule keeps it, unless it is a sell for the user. */
  lemma PotKept(s: State, e: Event, t: State, user: Key)
    requires StepsTo(s, e, t) && user.Raw? && s.config.Some? && Undisturbed(s, e, t, user) && !SellFor(e, user)
    ensures Pot(s, user) <= Pot(t, user)
  {
    if Pot(s, user) <= Pot(t, user) {
    } else {
      StepKeepsMints(s, e, t);
      if e.ix.Pull? {
        PullKeepsPot(s, e, t, user);
      } else {
        WalletKept(s, e, t, user);
        if BuyFor(e, user) {
          BuyKeepsDrawn(s, e, t, user);
        } else {
          SellTransientKept(s, e, t, user);
        }
      }
    }
  }

  /** An undisturbing sell for the user, whoever cranks it, costs their pot at most what it drew, within the cap. */
  lemma SellPot(s: State, e: Event, t: State, user: Key)
    requires StepsTo(s, e, t) && user.Raw? && SellFor(e, user) && Undisturbed(s, e, t, user)
    ensures CapHeld(s, user, e.env.now) && Pot(s, user) - Drawn(s, user) <= Pot(t, user)
  {
    SellWithinCap(s, e.env, e.ix.sell);
    StepKeepsMints(s, e, t);
    if !WalletExposed(s, e, user) { WalletKept(s, e, t, user); }
  }

  /** Where some behaviour of its venue makes a sell succeed, there is one that makes it succeed and takes from its
      user's wallet besides, if and only if the sell exposes the wallet. */
  lemma WalletSpentIff(s: State, env: Env, a: SellArgs)
    requires SupplyFits(s.ledger) && SellEffect(s, env, a).Ok?
    ensures s.config.Some?
    ensures (exists ops: seq<TransferOp> ::
               SellLowers(s, env, SellWith(a, ops), Ata(a.user, s.config.value.targetMint)))
            <==> WalletExposed(s, Event(env, ExecuteSell(a)), a.user)
  {
    SellMoves(s, env, a);
    SellGuards(s, env, a);
    SellLowersIff(s, env, a, Ata(a.user, s.config.value.targetMint));
  }

  lemma {:induction false} ConfigPersists(ss: seq<State>, es: seq<Event>, i: nat)
    requires Trace(ss, es) && i <= |es| && ss[0].config.Some?
    ensures ss[i].config.Some? && SameMints(ss[0].config.value, ss[i].config.value)
  {
    if i == 0 {
    } else {
      ConfigPersists(ss, es, i - 1);
      assert StepAt(ss, es, i - 1);
      StepKeepsMints(ss[i - 1], es[i - 1], ss[i]);
    }
  }

  /** The user's pot in such a run follows the draining discipline, step by step. */
  lemma {:induction false} LifeIsPotRun(ss: seq<State>, es: seq<Event>, user: Key, open: I64)
    requires Life(ss, es, user, open) && user.Raw? && ss[0].config.Some? && PotLeftAlone(ss, es, user)
    ensures PotRun(Plans(ss, user), Clocks(es, user), Pots(ss, user), Draws(ss[..|es|], user))
  {
    forall i: nat | i < |es|
      ensures PotAt(Plans(ss, user), Clocks(es, user), Pots(ss, user), Draws(ss[..|es|], user), i)
    {
      PotStepAt(ss, es, user, open, i);
    }
  }

  lemma PotStepAt(ss: seq<State>, es: seq<Event>, user: Key, open: I64, i: nat)
    requires Life(ss, es, user, open) && user.Raw? && ss[0].config.Some? && PotLeftAlone(ss, es, user) && i < |es|
    ensures if SellFor(es[i], user)
            then DrawFits(PlanOf(ss[i], user), es[i].env.now, Drawn(ss[i], user), Pot(ss[i], user))
                 && Pot(ss[i], user) - Drawn(ss[i], user) <= Pot(ss[i + 1], user)
            else Pot(ss[i], user) <= Pot(ss[i + 1], user)
  {
    ConfigPersists(ss, es, i);
    PlanPersists(ss, es, user, open, i);
    assert StepAt(ss, es, i) && UndisturbedAt(ss, es, user, i);
    if SellFor(es[i], user) {
      SellPot(ss[i], es[i], ss[i + 1], user);
    } else {
      PotKept(ss[i], es[i], ss[i + 1], user);
    }
  }

  /** Whatever keepers, venues, admins and other users do, and however late or irregular the cranks:
      after a sell in grid interval k, a pot that started at w0 holds w with w * (N-1) >= w0 * (N-k-2). */
  lemma PotDepletion(ss: seq<State>, es: seq<Event>, user: Key, open: I64, i: nat)
    requires Life(ss, es, user, open) && user.Raw? && ss[0].config.Some? && PotLeftAlone(ss, es, user)
    requires 0 <= open && i < |es| && SellFor(es[i], user)
    ensures 0 < PlanOf(ss[0], user).periodSecs
    ensures var n, k := Periods(PlanOf(ss[0], user), open),
                        Interval(open, PlanOf(ss[0], user).periodSecs, es[i].env.now);
            Keeps(Pot(ss[i + 1], user), Pot(ss[0], user), n - k - 2, n - 1)
  {
    LifeIsGateRun(ss, es, user, open);
    LifeIsPotRun(ss, es, user, open);
    AnyTimingBound(Plans(ss, user), Clocks(es, user), Pots(ss, user), Draws(ss[..|es|], user), open, i);
  }

  /** If every sell comes within the first r seconds of its interval, w * N >= w0 * (N-k-1). */
  lemma PotDepletionOnTime(ss: seq<State>, es: seq<Event>, user: Key, open: I64, i: nat)
    requires Life(ss, es, user, open) && user.Raw? && ss[0].config.Some? && PotLeftAlone(ss, es, user)
    requires 0 <= open && i < |es| && SellFor(es[i], user)
    requires forall j | 0 <= j < |es| && SellFor(es[j], user) :: OnTime(PlanOf(ss[0], user), open, es[j].env.now)
    ensures 0 < PlanOf(ss[0], user).periodSecs
    ensures var n, k := Periods(PlanOf(ss[0], user), open),
                        Interval(open, PlanOf(ss[0], user).periodSecs, es[i].env.now);
            Keeps(Pot(ss[i + 1], user), Pot(ss[0], user), n - k - 1, n)
  {
    LifeIsGateRun(ss, es, user, open);
    LifeIsPotRun(ss, es, user, open);
    OnTimeBound(Plans(ss, user), Clocks(es, user), Pots(ss, user), Draws(ss[..|es|], user), open, i);
  }

  /** A sell that took all that was left with a period still to come. */
  ghost predicate EmptiedEarly(ss: seq<State>, es: seq<Event>, user: Key, i: nat)
    requires |ss| == |es| + 1 && i < |es|
  {
    SellFor(es[i], user) && 0 < Pot(ss[i], user) && Pot(ss[i + 1], user) == 0
    && PeriodToCome(PlanOf(ss[i + 1], user))
  }

  predicate PeriodToCome(plan: SellPlan) { plan.nextDueTs + plan.periodSecs <= plan.endTs }

  /** The sell came in interval N - 2, after the first r seconds of it. */
  ghost predicate LateNextToLast(plan: SellPlan, open: I64, now: I64) {
    0 < plan.periodSecs && Interval(open, plan.periodSecs, now) == Periods(plan, open) - 2 && !OnTime(plan, open, now)
  }

  /** A schedule left to itself runs out with a period still to come only through a late sell in interval
      N - 2: if the pot started with something and is empty before then, one such sell emptied it. */
  lemma ExhaustedEarly(ss: seq<State>, es: seq<Event>, user: Key, open: I64, j: nat) returns (i: nat)
    requires Life(ss, es, user, open) && user.Raw? && ss[0].config.Some? && PotLeftAlone(ss, es, user)
    requires 0 <= open && j <= |es| && 0 < Pot(ss[0], user) && Pot(ss[j], user) == 0
             && PeriodToCome(PlanOf(ss[j], user))
    ensures i < j && EmptiedEarly(ss, es, user, i)
    ensures LateNextToLast(PlanOf(ss[0], user), open, es[i].env.now)
  {
    LifeIsGateRun(ss, es, user, open);
    LifeIsPotRun(ss, es, user, open);
    i := EarlyExhaustion(Plans(ss, user), Clocks(es, user), Pots(ss, user), Draws(ss[..|es|], user), open, j);
  }

  /** The k-th sell is on time in interval k and draws its full cap; nothing else moves the pot. */
  ghost predicate Punctual(ss: seq<State>, es: seq<Event>, user: Key, open: I64) {
    |ss| == |es| + 1
    && RunwayRun(Plans(ss, user), Clocks(es, user), Pots(ss, user), Draws(ss[..|es|], user), open)
  }

  /** In a punctual life of N sells the k-th draw is the k-th of the runway: floor(w0/N) or one more, never
      decreasing, with w0 % N of the N longer ones; the draws sum to the starting pot, and the pot ends empty. */
  lemma {:induction false} PunctualRunway(ss: seq<State>, es: seq<Event>, user: Key, open: I64)
    requires Life(ss, es, user, open) && Punctual(ss, es, user, open) && 0 <= open
    requires 0 < PlanOf(ss[0], user).periodSecs
    requires Cranks(Clocks(es, user), |es|) == Periods(PlanOf(ss[0], user), open)
    ensures var w0, n := Pot(ss[0], user), Periods(PlanOf(ss[0], user), open);
            0 < n && Pot(ss[|es|], user) == 0
            && TotalDrawn(Clocks(es, user), Draws(ss[..|es|], user), |es|) == w0
            && LongDraws(w0, n, n) == w0 % n
    ensures forall i | 0 <= i < |es| && SellFor(es[i], user) ::
              var w0, n := Pot(ss[0], user), Periods(PlanOf(ss[0], user), open);
              0 < n && Cranks(Clocks(es, user), i) < n
              && Drawn(ss[i], user) == RunwayDraw(w0, n, Cranks(Clocks(es, user), i))
              && w0 / n <= Drawn(ss[i], user) <= w0 / n + 1
    ensures forall i, j | 0 <= i <= j < |es| && SellFor(es[i], user) && SellFor(es[j], user) ::
              Drawn(ss[i], user) <= Drawn(ss[j], user)
  {
    LifeIsGateRun(ss, es, user, open);
    var clocks, draws := Clocks(es, user), Draws(ss[..|es|], user);
    ExactRunway(Plans(ss, user), clocks, Pots(ss, user), draws, open);
    forall i | 0 <= i < |es| && SellFor(es[i], user)
      ensures clocks[i].Some? && draws[i] == Drawn(ss[i], user)
    {
    }
  }

  // ---- Full draws at any time ----

  /** Every sell draws its full cap and nothing else moves the pot; sells may be late and periods skipped. */
  ghost predicate FullDrawLife(ss: seq<State>, es: seq<Event>, user: Key, open: I64) {
    Life(ss, es, user, open) && FullDrawRun(Plans(ss, user), Clocks(es, user), Pots(ss, user), Draws(ss[..|es|], user))
  }

  /** Two sells for the user with none between them. */
  ghost predicate Consecutive(es: seq<Event>, user: Key, i: nat, j: nat) {
    i < j < |es| && SellFor(es[i], user) && SellFor(es[j], user) && forall k | i < k < j :: !SellFor(es[k], user)
  }

  /** Missed periods re-amortize: each sell draws at least as much as the one before, except where a late one is
      followed by one on time in the very next interval and the remainder did not cover one draw more. */
  lemma Reamortizes(ss: seq<State>, es: seq<Event>, user: Key, open: I64, i: nat, j: nat)
    requires FullDrawLife(ss, es, user, open) && 0 <= open && Consecutive(es, user, i, j)
    ensures 0 < PlanOf(ss[0], user).periodSecs
    ensures Drawn(ss[i], user) <= Drawn(ss[j], user) <==>
            !Recovers(PlanOf(ss[0], user), open, es[i].env.now, es[j].env.now)
            || Drawn(ss[i], user) <= Pot(ss[i], user) % PeriodsLeft(PlanOf(ss[0], user), open, es[i].env.now)
  {
    LifeIsGateRun(ss, es, user, open);
    NextDrawIff(Plans(ss, user), Clocks(es, user), Pots(ss, user), Draws(ss[..|es|], user), open, i, j);
  }

  /** Without such a recovery full draws never decrease over the whole life. */
  lemma DrawsGrow(ss: seq<State>, es: seq<Event>, user: Key, open: I64, i: nat, j: nat)
    requires FullDrawLife(ss, es, user, open) && 0 <= open
    requires i <= j < |es| && SellFor(es[i], user) && SellFor(es[j], user)
    requires forall k, m | 0 <= k < m < |es| && SellFor(es[k], user) && SellFor(es[m], user) ::
               !Recovers(PlanOf(ss[0], user), open, es[k].env.now, es[m].env.now)
    ensures Drawn(ss[i], user) <= Drawn(ss[j], user)
  {
    var plans, clocks := Plans(ss, user), Clocks(es, user);
    LifeIsGateRun(ss, es, user, open);
    forall k, m | 0 <= k < m < |clocks| && clocks[k].Some? && clocks[m].Some?
      ensures !Recovers(plans[0], open, clocks[k].value, clocks[m].value)
    {
      assert SellFor(es[k], user) && SellFor(es[m], user);
    }
    DrawsNeverDecrease(plans, clocks, Pots(ss, user), Draws(ss[..|es|], user), open, i, j);
  }

  /** One of the first j events is a sell for the user that found one period left. */
  ghost predicate SoldOut(ss: seq<State>, es: seq<Event>, user: Key, open: I64, j: nat)
    requires |ss| == |es| + 1 && j <= |es| && 0 < PlanOf(ss[0], user).periodSecs
  {
    exists i :: 0 <= i < j && SellFor(es[i], user) && PeriodsLeft(PlanOf(ss[0], user), open, es[i].env.now) == 1
  }

  /** Whatever was skipped, nothing is stranded and nothing is paid twice: what was drawn and what is left are the
      starting pot, and the pot is empty exactly when some sell found one period left. */
  lemma {:induction false} PaidOut(ss: seq<State>, es: seq<Event>, user: Key, open: I64, j: nat)
    requires FullDrawLife(ss, es, user, open) && 0 <= open && j <= |es| && 0 < Pot(ss[0], user)
    ensures 0 < PlanOf(ss[0], user).periodSecs
    ensures TotalDrawn(Clocks(es, user), Draws(ss[..|es|], user), j) + Pot(ss[j], user) == Pot(ss[0], user)
    ensures Pot(ss[j], user) == 0 <==> SoldOut(ss, es, user, open, j)
  {
    LifeIsGateRun(ss, es, user, open);
    PaidOutIff(Plans(ss, user), Clocks(es, user), Pots(ss, user), Draws(ss[..|es|], user), open, j);
    SoldOutIsClosed(ss, es, user, open, j);
  }

  lemma {:induction false} SoldOutIsClosed(ss: seq<State>, es: seq<Event>, user: Key, open: I64, j: nat)
    requires |ss| == |es| + 1 && j <= |es| && 0 < PlanOf(ss[0], user).periodSecs
    ensures SoldOut(ss, es, user, open, j) <==> ClosedBy(Plans(ss, user), Clocks(es, user), open, j)
  {
    var clocks := Clocks(es, user);
    assert forall i | 0 <= i < |es| :: clocks[i] == ClockOf(es[i], user);
    if SoldOut(ss, es, user, open, j) {
      var i :| 0 <= i < j && SellFor(es[i], user) && PeriodsLeft(PlanOf(ss[0], user), open, es[i].env.now) == 1;
      assert clocks[i].Some? && PeriodsLeft(Plans(ss, user)[0], open, clocks[i].value) == 1;
    }
  }
}
