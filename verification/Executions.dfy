// What a successful execution guarantees against any venue, and when an execution succeeds.
module Executions {
  import opened Machine
  import opened Ledger
  import opened Schedule
  import opened Fees
  import opened Floors
  import opened Program
  import Rounding

  // ---- Against an arbitrary venue ----

  /** The only authorities an execution for `user` can debit: the user's own buy authority,
      the transaction's signers, and addresses the venue itself signs for. */
  ghost function Spenders(user: Key, signers: Signers, venue: Key): iset<Key> {
    MaySigners(signers + {BuyAuthority(user)}, venue)
  }

  /** The shared movement: the transient ends empty, the destination gains the reported output,
      every mint's total is kept, and only the spenders can have been debited. */
  lemma SwapOutcome(l: Balances, w: Swap, signers: Signers)
    requires w.transient in l && w.dest in l && SkimAndSwap(l, w, signers).Ok?
    ensures var d := SkimAndSwap(l, w, signers).value;
            d.ledger.Keys == l.Keys
            && d.ledger[w.transient] == 0
            && d.ledger[w.dest] == l[w.dest] + d.out && w.minOut <= d.out
            && OnlyDebits(l, d.ledger, Spenders(w.user, signers, w.venue.program))
            && Touches(l, d.ledger, {w.transient, w.feeAta} + WritableKeys(w.venue.remaining))
            && forall m: Key :: Total(d.ledger, m) == Total(l, m)
  {
    var skimmed := Skim(l, w).value;
    var done := RunVenue(skimmed, w, signers).value;
    var forwarded := ForwardedSigners(w.venue.remaining, signers, BuyAuthority(w.user));
    var writable := WritableKeys(w.venue.remaining);
    VenueFrame(skimmed, w.venue.ops, forwarded, writable, w.venue.program);
    var skim := TransferOp(w.transient, w.feeAta, BuyAuthority(w.user), w.fee);
    if w.fee > 0 { TransferFrame(l, skim); }
    forall m: Key ensures Total(done, m) == Total(l, m) {
      if w.fee > 0 { TransferConserves(l, skim, m); }
      VenueConserves(skimmed, w.venue.ops, forwarded, writable, w.venue.program, m);
    }
  }

  /** What the checks of a buy establish before anything moves. */
  lemma BuyGuards(s: State, env: Env, a: BuyArgs)
    requires BuyQuote(s, env, a).Ok?
    ensures s.config.Some? && s.feeConfig.Some?
    ensures var cfg := s.config.value;
            a.transientUsdc == Ata(BuyAuthority(a.user), cfg.usdcMint) && a.transientUsdc in s.ledger
            && a.destAta == Ata(a.user, cfg.targetMint) && a.destAta in s.ledger
            && 0 < s.ledger[a.transientUsdc]
            && a.venue.program in cfg.swapPrograms
    ensures InputFloor(Buy, s.config.value, s.feeConfig.value, s.ledger[a.transientUsdc], s.config.value.usdcMint,
                       a.feeAta, a.minOut) == BuyQuote(s, env, a)
  {
  }

  /** A buy moves money and logs it, and changes nothing else. */
  lemma BuyMoves(s: State, env: Env, a: BuyArgs)
    requires BuyEffect(s, env, a).Ok?
    ensures BuyQuote(s, env, a).Ok?
    ensures SkimAndSwap(s.ledger, BuySwap(a, BuyQuote(s, env, a).value), env.signers).Ok?
    ensures var t := BuyEffect(s, env, a).value;
            t == s.(ledger := t.ledger, log := t.log)
            && t.ledger == SkimAndSwap(s.ledger, BuySwap(a, BuyQuote(s, env, a).value), env.signers).value.ledger
  {
  }

  /** Every successful buy, whatever the venue did. */
  lemma BuyOutcome(s: State, env: Env, a: BuyArgs)
    requires BuyEffect(s, env, a).Ok?
    ensures s.config.Some? && s.feeConfig.Some?
    ensures var t, cfg := BuyEffect(s, env, a).value, s.config.value;
            var transient, dest := Ata(BuyAuthority(a.user), cfg.usdcMint), Ata(a.user, cfg.targetMint);
            transient in s.ledger && dest in s.ledger && t.ledger.Keys == s.ledger.Keys
            && 0 < s.ledger[transient] && t.ledger[transient] == 0
            && s.ledger[dest] + a.minOut <= t.ledger[dest]
            && OnlyDebits(s.ledger, t.ledger, Spenders(a.user, env.signers, a.venue.program))
            && (forall m: Key :: Total(t.ledger, m) == Total(s.ledger, m))
            && a.venue.program in cfg.swapPrograms
  {
    BuyMoves(s, env, a);
    BuyGuards(s, env, a);
    SwapOutcome(s.ledger, BuySwap(a, BuyQuote(s, env, a).value), env.signers);
  }

  /** What the checks of a sell establish before anything moves. */
  lemma SellGuards(s: State, env: Env, a: SellArgs)
    requires SellQuote(s, env, a).Ok?
    ensures s.config.Some? && s.feeConfig.Some? && a.user in s.plans
    ensures var cfg, plan := s.config.value, s.plans[a.user];
            a.transientTarget == Ata(BuyAuthority(a.user), cfg.targetMint) && a.transientTarget in s.ledger
            && a.userTargetAta == Ata(a.user, cfg.targetMint) && a.userTargetAta in s.ledger
            && a.destUsdc == Ata(a.user, cfg.usdcMint) && a.destUsdc in s.ledger
            && 0 < s.ledger[a.transientTarget]
            && a.venue.program in cfg.swapPrograms
            && plan.nextDueTs <= plan.endTs && plan.nextDueTs <= env.now
    ensures DrawWithinCap(s.plans[a.user], env.now, s.ledger[a.userTargetAta], s.ledger[a.transientTarget]).Ok?
    ensures SellQuote(s, env, a).value.amountIn == s.ledger[a.transientTarget]
  {
  }

  /** The cap bounds the draw, taken once for each period left, by the whole pot. */
  lemma CapBoundsDraw(plan: SellPlan, now: I64, wallet: U64, amountIn: U64)
    requires DrawWithinCap(plan, now, wallet, amountIn).Ok?
    ensures DrawFits(plan, now, amountIn, wallet + amountIn)
  {
    Rounding.LeDiv(amountIn, wallet + amountIn, RemainingPeriods(plan, now).value);
  }

  /** A successful sell served a due, unfinished plan, and moved that plan's gate and no other. */
  lemma SellAdvancesGate(s: State, env: Env, a: SellArgs)
    requires SellEffect(s, env, a).Ok?
    ensures a.user in s.plans
    ensures var t, plan := SellEffect(s, env, a).value, s.plans[a.user];
            plan.nextDueTs <= plan.endTs && plan.nextDueTs <= env.now
            && NextGate(plan, env.now).Ok?
            && t.plans == s.plans[a.user := plan.(nextDueTs := NextGate(plan, env.now).value)]
            && t.config == s.config && t.feeConfig == s.feeConfig
  {
    SellGuards(s, env, a);
  }

  /** What a sell for this user would draw, and the pot it is drawn from: wallet plus transient,
      so a pull moves nothing in or out of it. */
  function Drawn(s: State, user: Key): U64 {
    if s.config.Some? then Bal(s.ledger, Ata(BuyAuthority(user), s.config.value.targetMint)) else 0
  }

  function Pot(s: State, user: Key): nat {
    if s.config.Some? then Bal(s.ledger, Ata(user, s.config.value.targetMint)) + Drawn(s, user) else 0
  }

  ghost predicate CapHeld(s: State, user: Key, now: I64) {
    user in s.plans && DrawFits(s.plans[user], now, Drawn(s, user), Pot(s, user))
  }

  lemma SellWithinCap(s: State, env: Env, a: SellArgs)
    requires SellQuote(s, env, a).Ok?
    ensures CapHeld(s, a.user, env.now) && 0 < Drawn(s, a.user)
  {
    SellGuards(s, env, a);
    CapBoundsDraw(s.plans[a.user], env.now, s.ledger[a.userTargetAta], s.ledger[a.transientTarget]);
  }

  /** A sell moves money, its plan's gate and the log, and changes nothing else. */
  lemma SellMoves(s: State, env: Env, a: SellArgs)
    requires SellEffect(s, env, a).Ok?
    ensures SellQuote(s, env, a).Ok? && a.user in s.plans && NextGate(s.plans[a.user], env.now).Ok?
    ensures SkimAndSwap(s.ledger, SellSwap(a, SellQuote(s, env, a).value), env.signers).Ok?
    ensures var t := SellEffect(s, env, a).value;
            t == s.(ledger := t.ledger, log := t.log, plans := t.plans)
            && t.ledger == SkimAndSwap(s.ledger, SellSwap(a, SellQuote(s, env, a).value), env.signers).value.ledger
  {
  }

  /** Every successful sell, whatever the venue did. */
  lemma SellOutcome(s: State, env: Env, a: SellArgs)
    requires SellEffect(s, env, a).Ok?
    ensures s.config.Some? && s.feeConfig.Some?
    ensures var t, cfg := SellEffect(s, env, a).value, s.config.value;
            var transient, dest := Ata(BuyAuthority(a.user), cfg.targetMint), Ata(a.user, cfg.usdcMint);
            transient in s.ledger && dest in s.ledger && t.ledger.Keys == s.ledger.Keys
            && 0 < s.ledger[transient] && t.ledger[transient] == 0
            && s.ledger[dest] + a.minOut <= t.ledger[dest]
            && OnlyDebits(s.ledger, t.ledger, Spenders(a.user, env.signers, a.venue.program))
            && (forall m: Key :: Total(t.ledger, m) == Total(s.ledger, m))
            && a.venue.program in cfg.swapPrograms
  {
    SellGuards(s, env, a);
    SwapOutcome(s.ledger, SellSwap(a, SellQuote(s, env, a).value), env.signers);
  }

  // ---- The run invariant ----

  ghost predicate ConfigOk(cfg: Config) {
    cfg.maxSlippageBps <= BPS && cfg.targetDecimals <= MAX_DECIMALS
    && |cfg.swapPrograms| == MAX_SWAP_PROGRAMS && cfg.swapProgramCount <= MAX_SWAP_PROGRAMS
  }

  ghost predicate PlanOk(user: Key, plan: SellPlan) {
    plan.user == user && user.Raw? && MIN_PERIOD_SECS <= plan.periodSecs <= MAX_PERIOD_SECS
    && 0 <= plan.nextDueTs && 0 <= plan.endTs
  }

  ghost predicate EntryOk(e: Executed) {
    0 < e.amountIn && e.fee < e.amountIn && 100 * e.fee <= e.amountIn
  }

  ghost predicate Inv(s: State) {
    (s.config.Some? ==> ConfigOk(s.config.value))
    && (s.feeConfig.Some? ==> s.feeConfig.value.feeBps <= MAX_FEE_BPS)
    && (forall u <- s.plans :: PlanOk(u, s.plans[u]))
    && (forall i | 0 <= i < |s.log| :: EntryOk(s.log[i]))
  }

  lemma GenesisInv(l: Balances)
    ensures Inv(Genesis(l))
  {
  }

  lemma AppendedEntryOk(log: seq<Executed>, e: Executed)
    requires (forall i | 0 <= i < |log| :: EntryOk(log[i])) && EntryOk(e)
    ensures forall i | 0 <= i < |log + [e]| :: EntryOk((log + [e])[i])
  {
  }

  lemma QuoteFees(side: Side, cfg: Config, fc: FeeConfig, amountIn: U64, mint: Key, feeAta: Key, minOut: U64)
    requires fc.feeBps <= MAX_FEE_BPS && InputFloor(side, cfg, fc, amountIn, mint, feeAta, minOut).Ok?
    ensures var q := InputFloor(side, cfg, fc, amountIn, mint, feeAta, minOut).value;
            q.amountIn == amountIn && q.fee + q.net == amountIn && 0 < q.net
            && q.fee == amountIn * fc.feeBps / 10_000 && 100 * q.fee <= amountIn
  {
    FeeWithinCap(amountIn, fc.feeBps);
  }

  lemma BuyKeepsInv(s: State, env: Env, a: BuyArgs)
    requires Inv(s) && BuyEffect(s, env, a).Ok?
    ensures Inv(BuyEffect(s, env, a).value)
  {
    var t, q := BuyEffect(s, env, a).value, BuyQuote(s, env, a).value;
    QuoteFees(Buy, s.config.value, s.feeConfig.value, s.ledger[a.transientUsdc], s.config.value.usdcMint, a.feeAta,
              a.minOut);
    AppendedEntryOk(s.log, t.log[|s.log|]);
  }

  lemma SellKeepsInv(s: State, env: Env, a: SellArgs)
    requires Inv(s) && SellEffect(s, env, a).Ok?
    ensures Inv(SellEffect(s, env, a).value)
  {
    var t := SellEffect(s, env, a).value;
    SellAdvancesGate(s, env, a);
    var plan := s.plans[a.user];
    assert PlanOk(a.user, plan);
    GateJump(plan, env.now, plan.nextDueTs, 0);
    assert PlanOk(a.user, t.plans[a.user]);
    QuoteFees(Sell, s.config.value, s.feeConfig.value, s.ledger[a.transientTarget], s.config.value.targetMint,
              a.feeAta, a.minOut);
    AppendedEntryOk(s.log, t.log[|s.log|]);
  }

  /** Every instruction keeps the invariant; the clock matters only when a plan is opened. */
  lemma StepKeepsInv(s: State, env: Env, ix: Instruction)
    requires Inv(s) && 0 <= env.now && Step(s, env, ix).Ok?
    ensures Inv(Step(s, env, ix).value)
  {
    match ix
    case ExecuteBuy(a) => BuyKeepsInv(s, env, a);
    case ExecuteSell(a) => SellKeepsInv(s, env, a);
    case OpenSellPlan(user, endTs, periodSecs) => OpenOutcome(user, env.now, endTs, periodSecs);
    case _ =>
  }

  // ---- Success, in exact arithmetic ----

  /** The venue is on the whitelist, stated on the stored array. */
  ghost predicate Listed(cfg: Config, program: Key) {
    exists i :: 0 <= i < cfg.swapProgramCount && i < |cfg.swapPrograms| && cfg.swapPrograms[i] == program
  }

  ghost function NetOf(amountIn: U64, feeBps: U16): (n: nat)
    requires feeBps <= MAX_FEE_BPS
    ensures n <= amountIn
  {
    FeeWithinCap(amountIn, feeBps);
    amountIn - amountIn * feeBps / 10_000
  }

  /** The conditions both sides share before the floor is computed. */
  ghost predicate Payable(s: State, amountIn: U64, inputMint: Key, feeAta: Key, venue: Key)
    requires s.config.Some? && s.feeConfig.Some?
  {
    var cfg, fc := s.config.value, s.feeConfig.value;
    0 < amountIn && !cfg.paused && Listed(cfg, venue) && feeAta == Ata(fc.destination, inputMint)
    && 0 < cfg.priceRefMicros
  }

  /** The last product of the floor stays within 128 bits; buying, or with four decimals, it always does. */
  ghost predicate FloorComputes(side: Side, s: State, amountIn: U64)
    requires Inv(s) && s.config.Some? && s.feeConfig.Some?
  {
    CutWithin(side, s.config.value, NetOf(amountIn, s.feeConfig.value.feeBps))
  }

  ghost predicate CutWithin(side: Side, cfg: Config, net: nat) {
    0 < cfg.priceRefMicros
    && Ideal(side, net, cfg.priceRefMicros, cfg.targetDecimals) * (BPS - cfg.maxSlippageBps) < U128_LIMIT
  }

  ghost predicate FloorMet(side: Side, s: State, amountIn: U64, minOut: U64)
    requires Inv(s) && s.config.Some? && s.feeConfig.Some?
  {
    var cfg, net := s.config.value, NetOf(amountIn, s.feeConfig.value.feeBps);
    0 < cfg.priceRefMicros
    && Exact(side, net, cfg.priceRefMicros, cfg.targetDecimals, cfg.maxSlippageBps) % U64_LIMIT <= minOut
  }

  /** The amortization cap without division: the draw, taken once per period left, stays within the pot. */
  ghost predicate DrawAllowed(plan: SellPlan, now: int, wallet: int, amountIn: int)
    requires 0 < plan.periodSecs
  {
    amountIn * Max((plan.endTs - now) / plan.periodSecs, 1) <= wallet + amountIn
  }

  /** Everything a sell is asked before its floor is computed. */
  ghost predicate SellEligible(s: State, env: Env, a: SellArgs) {
    a.keeper in env.signers
    && s.config.Some? && s.feeConfig.Some? && a.user in s.plans
    && a.transientTarget in s.ledger && a.userTargetAta in s.ledger && a.destUsdc in s.ledger && a.feeAta in s.ledger
    && (var cfg, plan := s.config.value, s.plans[a.user];
        a.destUsdc == Ata(a.user, cfg.usdcMint)
        && a.transientTarget == Ata(BuyAuthority(a.user), cfg.targetMint)
        && a.userTargetAta == Ata(a.user, cfg.targetMint)
        && plan.nextDueTs <= plan.endTs && plan.nextDueTs <= env.now
        && 0 < plan.periodSecs
        && DrawAllowed(plan, env.now, s.ledger[a.userTargetAta], s.ledger[a.transientTarget])
        && Payable(s, s.ledger[a.transientTarget], cfg.targetMint, a.feeAta, a.venue.program))
  }

  ghost predicate SellAllowed(s: State, env: Env, a: SellArgs)
    requires Inv(s)
  {
    SellEligible(s, env, a)
    && FloorComputes(Sell, s, s.ledger[a.transientTarget]) && FloorMet(Sell, s, s.ledger[a.transientTarget], a.minOut)
  }

  ghost predicate BuyAllowed(s: State, env: Env, a: BuyArgs)
    requires Inv(s)
  {
    a.keeper in env.signers
    && s.config.Some? && s.feeConfig.Some?
    && a.transientUsdc in s.ledger && a.destAta in s.ledger && a.feeAta in s.ledger
    && (var cfg := s.config.value;
        a.destAta == Ata(a.user, cfg.targetMint)
        && a.transientUsdc == Ata(BuyAuthority(a.user), cfg.usdcMint)
        && Payable(s, s.ledger[a.transientUsdc], cfg.usdcMint, a.feeAta, a.venue.program)
        && FloorMet(Buy, s, s.ledger[a.transientUsdc], a.minOut))
  }

  lemma WhitelistedIff(cfg: Config, program: Key)
    requires ConfigOk(cfg)
    ensures IsWhitelisted(cfg, program) == Ok(Listed(cfg, program))
  {
    if program in cfg.swapPrograms[..cfg.swapProgramCount] {
      var i :| 0 <= i < cfg.swapProgramCount && cfg.swapPrograms[..cfg.swapProgramCount][i] == program;
      assert cfg.swapPrograms[i] == program;
    }
    if Listed(cfg, program) {
      var i :| 0 <= i < cfg.swapProgramCount && i < |cfg.swapPrograms| && cfg.swapPrograms[i] == program;
      assert cfg.swapPrograms[..cfg.swapProgramCount][i] == program;
    }
  }

  lemma InputFloorIff(side: Side, s: State, amountIn: U64, inputMint: Key, feeAta: Key, minOut: U64)
    requires Inv(s) && s.config.Some? && s.feeConfig.Some? && 0 < amountIn
    ensures var cfg, fc := s.config.value, s.feeConfig.value;
            var r := InputFloor(side, cfg, fc, amountIn, inputMint, feeAta, minOut);
            var net := NetOf(amountIn, fc.feeBps);
            var priced := feeAta == Ata(fc.destination, inputMint) && 0 < cfg.priceRefMicros;
            (r.Ok? <==> priced && FloorComputes(side, s, amountIn) && FloorMet(side, s, amountIn, minOut))
            && (r.Ok? ==> r.value == Quote(amountIn, amountIn - net, net) && 0 < net)
            && (r == Err(Overflow) <==> priced && !FloorComputes(side, s, amountIn))
            && (r.Err? ==> r.error in {BadFeeAccount, FloorNotConfigured, MinOutTooLow, Overflow})
            && (side.Buy? || 4 <= cfg.targetDecimals ==> r != Err(Overflow))
  {
    var cfg, fc := s.config.value, s.feeConfig.value;
    FeeWithinCap(amountIn, fc.feeBps);
    var net := FeeSplit(amountIn, fc.feeBps).value.net;
    if 0 < cfg.priceRefMicros {
      FloorOutcome(side, net, cfg.priceRefMicros, cfg.targetDecimals, cfg.maxSlippageBps);
    }
  }

  lemma DrawIff(plan: SellPlan, now: I64, wallet: U64, amountIn: U64)
    requires 0 < plan.periodSecs && plan.endTs - now <= I64_MAX
    ensures DrawWithinCap(plan, now, wallet, amountIn) ==
            if DrawAllowed(plan, now, wallet, amountIn) then Ok(()) else Err(OverdrawSchedule)
  {
    PeriodsExact(plan, now);
    Rounding.LeDiv(amountIn, wallet + amountIn, RemainingPeriods(plan, now).value);
  }

  /** In a reachable state the checks of a sell pass exactly when the exact conditions hold, and then the
      quote splits the whole transient into fee and net; they report Overflow exactly when everything
      before the floor was in order and the floor leaves 128 bits. */
  lemma SellQuoteIff(s: State, env: Env, a: SellArgs)
    requires Inv(s) && 0 <= env.now
    ensures SellQuote(s, env, a).Ok? <==> SellAllowed(s, env, a)
    ensures SellQuote(s, env, a) == Err(Overflow) <==>
            SellEligible(s, env, a) && !FloorComputes(Sell, s, s.ledger[a.transientTarget])
    ensures SellQuote(s, env, a).Ok? ==>
              var net := NetOf(s.ledger[a.transientTarget], s.feeConfig.value.feeBps);
              SellQuote(s, env, a).value == Quote(s.ledger[a.transientTarget], s.ledger[a.transientTarget] - net, net)
              && 0 < net
  {
    if s.config.Some? { WhitelistedIff(s.config.value, a.venue.program); }
    if s.config.Some? && s.feeConfig.Some? && a.user in s.plans
       && a.transientTarget in s.ledger && a.userTargetAta in s.ledger
    {
      assert PlanOk(a.user, s.plans[a.user]);
      DrawIff(s.plans[a.user], env.now, s.ledger[a.userTargetAta], s.ledger[a.transientTarget]);
      if 0 < s.ledger[a.transientTarget] {
        InputFloorIff(Sell, s, s.ledger[a.transientTarget], s.config.value.targetMint, a.feeAta, a.minOut);
      }
    }
  }

  lemma BuyQuoteIff(s: State, env: Env, a: BuyArgs)
    requires Inv(s)
    ensures BuyQuote(s, env, a).Ok? <==> BuyAllowed(s, env, a)
    ensures BuyQuote(s, env, a) != Err(Overflow)
    ensures BuyQuote(s, env, a).Ok? ==>
              var net := NetOf(s.ledger[a.transientUsdc], s.feeConfig.value.feeBps);
              BuyQuote(s, env, a).value == Quote(s.ledger[a.transientUsdc], s.ledger[a.transientUsdc] - net, net)
              && 0 < net
  {
    if s.config.Some? { WhitelistedIff(s.config.value, a.venue.program); }
    if s.config.Some? && s.feeConfig.Some? && a.transientUsdc in s.ledger {
      if 0 < s.ledger[a.transientUsdc] {
        InputFloorIff(Buy, s, s.ledger[a.transientUsdc], s.config.value.usdcMint, a.feeAta, a.minOut);
      }
    }
  }

  // ---- Value delivered ----

  /** The tolerated value of an input, as the numerator of a fraction over Unit. */
  ghost function Worth(side: Side, cfg: Config, net: nat): int {
    net * Num(side, cfg.priceRefMicros, cfg.targetDecimals) * (BPS - cfg.maxSlippageBps)
  }

  ghost function Unit(side: Side, cfg: Config): int {
    Den(side, cfg.priceRefMicros, cfg.targetDecimals) * BPS
  }

  /** `out` is worth the net input at the reference price, less the slippage band, less under two units;
      claimed whenever the floor fits in 64 bits. */
  ghost predicate ValueDelivered(side: Side, cfg: Config, net: nat, out: int) {
    Fits(side, net, cfg.priceRefMicros, cfg.targetDecimals, cfg.maxSlippageBps) ==>
      Worth(side, cfg, net) < (out + 2) * Unit(side, cfg)
  }

  lemma FloorPaid(side: Side, cfg: Config, fc: FeeConfig, amountIn: U64, mint: Key, feeAta: Key, minOut: U64, out: U64)
    requires fc.feeBps <= MAX_FEE_BPS
    requires InputFloor(side, cfg, fc, amountIn, mint, feeAta, minOut).Ok? && minOut <= out
    ensures ValueDelivered(side, cfg, NetOf(amountIn, fc.feeBps), out)
  {
    FeeWithinCap(amountIn, fc.feeBps);
    var net := NetOf(amountIn, fc.feeBps);
    if Fits(side, net, cfg.priceRefMicros, cfg.targetDecimals, cfg.maxSlippageBps) {
      FitsFloor(side, net, cfg.priceRefMicros, cfg.targetDecimals, cfg.maxSlippageBps);
      ExactAccuracy(side, net, cfg.priceRefMicros, cfg.targetDecimals, cfg.maxSlippageBps);
      Pow10Positive(cfg.targetDecimals);
      Rounding.MulMono(Exact(side, net, cfg.priceRefMicros, cfg.targetDecimals, cfg.maxSlippageBps) + 2,
                       out + 2, Unit(side, cfg));
    }
  }

  ghost predicate SellDelivered(s: State, t: State, user: Key) {
    s.config.Some? && s.feeConfig.Some? && s.feeConfig.value.feeBps <= MAX_FEE_BPS
    && (var cfg, dest := s.config.value, Ata(user, s.config.value.usdcMint);
        ValueDelivered(Sell, cfg, NetOf(Drawn(s, user), s.feeConfig.value.feeBps),
                       Bal(t.ledger, dest) - Bal(s.ledger, dest)))
  }

  ghost predicate BuyDelivered(s: State, t: State, user: Key) {
    s.config.Some? && s.feeConfig.Some? && s.feeConfig.value.feeBps <= MAX_FEE_BPS
    && (var cfg, dest := s.config.value, Ata(user, s.config.value.targetMint);
        var input := Bal(s.ledger, Ata(BuyAuthority(user), cfg.usdcMint));
        ValueDelivered(Buy, cfg, NetOf(input, s.feeConfig.value.feeBps), Bal(t.ledger, dest) - Bal(s.ledger, dest)))
  }

  lemma SwapPays(l: Balances, w: Swap, signers: Signers)
    requires w.transient in l && w.dest in l && SkimAndSwap(l, w, signers).Ok?
    ensures var d := SkimAndSwap(l, w, signers).value;
            d.ledger.Keys == l.Keys && d.ledger[w.dest] - l[w.dest] == d.out && w.minOut <= d.out
  {
  }

  lemma SwapDelivers(
      side: Side, cfg: Config, fc: FeeConfig, amountIn: U64, mint: Key, l: Balances, w: Swap, signers: Signers)
    requires fc.feeBps <= MAX_FEE_BPS
    requires InputFloor(side, cfg, fc, amountIn, mint, w.feeAta, w.minOut).Ok?
    requires w.transient in l && w.dest in l && SkimAndSwap(l, w, signers).Ok?
    ensures var after := SkimAndSwap(l, w, signers).value.ledger;
            after.Keys == l.Keys && ValueDelivered(side, cfg, NetOf(amountIn, fc.feeBps), after[w.dest] - l[w.dest])
  {
    SwapPays(l, w, signers);
    FloorPaid(side, cfg, fc, amountIn, mint, w.feeAta, w.minOut, SkimAndSwap(l, w, signers).value.out);
  }

  /** A successful sell, taken apart: what was quoted, and what the movement delivered. */
  lemma SellParts(s: State, env: Env, a: SellArgs, t: State) returns (q: Quote, d: Delivery)
    requires SellEffect(s, env, a) == Ok(t)
    ensures s.config.Some? && s.feeConfig.Some? && a.transientTarget in s.ledger && a.destUsdc in s.ledger
    ensures InputFloor(Sell, s.config.value, s.feeConfig.value, s.ledger[a.transientTarget], s.config.value.targetMint,
                       a.feeAta, a.minOut) == Ok(q)
    ensures SkimAndSwap(s.ledger, SellSwap(a, q), env.signers) == Ok(d) && t.ledger == d.ledger
    ensures a.destUsdc == Ata(a.user, s.config.value.usdcMint) && s.ledger[a.transientTarget] == Drawn(s, a.user)
    ensures t.log == s.log
            + [Executed(Sell, a.user, s.config.value.targetMint, q.amountIn, d.out, q.fee, a.venue.program)]
  {
    q := SellQuote(s, env, a).value;
    d := SkimAndSwap(s.ledger, SellSwap(a, q), env.signers).value;
  }

  /** Any successful sell from a reachable state delivers the value of its net input. */
  lemma SellValue(s: State, env: Env, a: SellArgs, t: State)
    requires Inv(s) && SellEffect(s, env, a) == Ok(t)
    ensures SellDelivered(s, t, a.user)
  {
    var q, d := SellParts(s, env, a, t);
    SellDelivers(s, env, a, t, q, d);
  }

  lemma SellDelivers(s: State, env: Env, a: SellArgs, t: State, q: Quote, d: Delivery)
    requires s.config.Some? && s.feeConfig.Some? && s.feeConfig.value.feeBps <= MAX_FEE_BPS
    requires a.transientTarget in s.ledger && a.destUsdc in s.ledger
    requires InputFloor(Sell, s.config.value, s.feeConfig.value, s.ledger[a.transientTarget], s.config.value.targetMint,
                        a.feeAta, a.minOut) == Ok(q)
    requires SkimAndSwap(s.ledger, SellSwap(a, q), env.signers) == Ok(d) && t.ledger == d.ledger
    requires a.destUsdc == Ata(a.user, s.config.value.usdcMint) && s.ledger[a.transientTarget] == Drawn(s, a.user)
    ensures SellDelivered(s, t, a.user)
  {
    SwapDelivers(Sell, s.config.value, s.feeConfig.value, s.ledger[a.transientTarget], s.config.value.targetMint,
                 s.ledger, SellSwap(a, q), env.signers);
  }

  lemma BuyDelivers(s: State, env: Env, a: BuyArgs, t: State, q: Quote, d: Delivery)
    requires s.config.Some? && s.feeConfig.Some? && s.feeConfig.value.feeBps <= MAX_FEE_BPS
    requires a.transientUsdc in s.ledger && a.destAta in s.ledger
    requires InputFloor(Buy, s.config.value, s.feeConfig.value, s.ledger[a.transientUsdc], s.config.value.usdcMint,
                        a.feeAta, a.minOut) == Ok(q)
    requires SkimAndSwap(s.ledger, BuySwap(a, q), env.signers) == Ok(d) && t.ledger == d.ledger
    requires a.destAta == Ata(a.user, s.config.value.targetMint)
    requires a.transientUsdc == Ata(BuyAuthority(a.user), s.config.value.usdcMint)
    ensures BuyDelivered(s, t, a.user)
  {
    SwapDelivers(Buy, s.config.value, s.feeConfig.value, s.ledger[a.transientUsdc], s.config.value.usdcMint,
                 s.ledger, BuySwap(a, q), env.signers);
  }

  /** The buy side of the same bound. */
  lemma BuyValue(s: State, env: Env, a: BuyArgs, t: State)
    requires Inv(s) && BuyEffect(s, env, a) == Ok(t)
    ensures BuyDelivered(s, t, a.user)
  {
    BuyMoves(s, env, a);
    BuyGuards(s, env, a);
    var q := BuyQuote(s, env, a).value;
    BuyDelivers(s, env, a, t, q, SkimAndSwap(s.ledger, BuySwap(a, q), env.signers).value);
  }

  // ---- Arithmetic safety ----

  lemma {:induction false} VenueErrors(
      l: Balances, ops: seq<TransferOp>, signers: set<Key>, writable: set<Key>, program: Key)
    requires RunOps(l, ops, signers, writable, program).Err?
    ensures RunOps(l, ops, signers, writable, program).error in {Privilege, TokenError}
    decreases |ops|
  {
    if Privileged(ops[0], signers, writable, program) && Transfer(l, ops[0]).Ok? {
      VenueErrors(Transfer(l, ops[0]).value, ops[1..], signers, writable, program);
    }
  }

  /** What an execution forwards to its venue. */
  function Forwarded(w: Swap, signers: Signers): set<Key> {
    ForwardedSigners(w.venue.remaining, signers, BuyAuthority(w.user))
  }

  /** The venue was handed the rights to debit k into an account other than the transient. */
  ghost predicate AccountExposed(l: Balances, w: Swap, signers: Signers, k: Key) {
    k in l && k.TokenAccount? && 0 < l[k]
    && MaySign(k.authority, Forwarded(w, signers), w.venue.program) && k in WritableKeys(w.venue.remaining)
    && exists to: Key :: Sink(l, k, to, WritableKeys(w.venue.remaining)) && to != w.transient
  }

  ghost predicate DestinationExposed(l: Balances, w: Swap, signers: Signers) {
    AccountExposed(l, w, signers, w.dest)
  }

  lemma SkimRaises(l: Balances, w: Swap, k: Key)
    requires Skim(l, w).Ok? && k in l && k != w.transient
    ensures l[k] <= Skim(l, w).value[k]
  {
  }

  /** If the transient is drained, any other account can have shrunk only if it was exposed. */
  lemma ShrunkIsExposed(l: Balances, w: Swap, signers: Signers, k: Key)
    requires w.transient in l && w.transient.TokenAccount? && k in l && k != w.transient
    requires Skim(l, w).Ok? && RunVenue(Skim(l, w).value, w, signers).Ok?
    requires RunVenue(Skim(l, w).value, w, signers).value[w.transient] == 0
    requires RunVenue(Skim(l, w).value, w, signers).value[k] < l[k]
    ensures AccountExposed(l, w, signers, k)
  {
    var skimmed, forwarded, writable := Skim(l, w).value, Forwarded(w, signers), WritableKeys(w.venue.remaining);
    SkimRaises(l, w, k);
    LoweredIsDebitable(skimmed, w.venue.ops, k, forwarded, writable, w.venue.program);
    if forall to: Key :: Sink(skimmed, k, to, writable) ==> to == w.transient {
      var to :| Sink(skimmed, k, to, writable);
      PairClosed(skimmed, w.venue.ops, k, w.transient, forwarded, writable, w.venue.program);
    } else {
      var to :| Sink(skimmed, k, to, writable) && to != w.transient;
      assert Sink(l, k, to, writable);
    }
  }

  /** How the shared movement can fail; the delivered amount underflows only for an exposed destination. */
  lemma SwapErrors(l: Balances, w: Swap, signers: Signers)
    requires w.transient in l && w.transient.TokenAccount? && w.dest in l && w.dest.TokenAccount?
             && w.dest != w.transient
    requires SkimAndSwap(l, w, signers).Err?
    ensures SkimAndSwap(l, w, signers).error
            in {TokenError, Privilege, TransientNotDrained, SlippageExceeded, Overflow}
    ensures SkimAndSwap(l, w, signers).error == Overflow ==> DestinationExposed(l, w, signers)
  {
    if Skim(l, w).Ok? {
      var skimmed := Skim(l, w).value;
      if RunVenue(skimmed, w, signers).Err? {
        VenueErrors(skimmed, w.venue.ops, Forwarded(w, signers), WritableKeys(w.venue.remaining), w.venue.program);
      } else if SkimAndSwap(l, w, signers).error == Overflow {
        ShrunkIsExposed(l, w, signers, w.dest);
      }
    }
  }

  lemma SellQuoteErrors(s: State, env: Env, a: SellArgs)
    requires Inv(s) && 0 <= env.now && SellQuote(s, env, a).Err?
    ensures SellQuote(s, env, a).error != Panic
    ensures SellQuote(s, env, a).error == NothingPulled ==>
              a.transientTarget in s.ledger && s.ledger[a.transientTarget] == 0
  {
    if s.config.Some? { WhitelistedIff(s.config.value, a.venue.program); }
    if s.config.Some? && s.feeConfig.Some? && a.user in s.plans
       && a.transientTarget in s.ledger && a.userTargetAta in s.ledger
    {
      assert PlanOk(a.user, s.plans[a.user]);
      DrawIff(s.plans[a.user], env.now, s.ledger[a.userTargetAta], s.ledger[a.transientTarget]);
      if 0 < s.ledger[a.transientTarget] {
        InputFloorIff(Sell, s, s.ledger[a.transientTarget], s.config.value.targetMint, a.feeAta, a.minOut);
      }
    }
  }

  lemma BuyQuoteErrors(s: State, env: Env, a: BuyArgs)
    requires Inv(s) && BuyQuote(s, env, a).Err?
    ensures BuyQuote(s, env, a).error !in {Panic, Overflow}
    ensures BuyQuote(s, env, a).error == NothingPulled ==>
              a.transientUsdc in s.ledger && s.ledger[a.transientUsdc] == 0
  {
    if s.config.Some? { WhitelistedIff(s.config.value, a.venue.program); }
    if s.config.Some? && s.feeConfig.Some? && a.transientUsdc in s.ledger && 0 < s.ledger[a.transientUsdc] {
      InputFloorIff(Buy, s, s.ledger[a.transientUsdc], s.config.value.usdcMint, a.feeAta, a.minOut);
    }
  }

  /** A sell whose checks are in order up to a floor that leaves 128 bits; it has fewer than four decimals. */
  ghost predicate FloorTooWide(s: State, env: Env, a: SellArgs)
    requires Inv(s)
  {
    SellEligible(s, env, a) && s.config.value.targetDecimals < 4
    && !FloorComputes(Sell, s, s.ledger[a.transientTarget])
  }

  /** Their quote having passed, this execution's venue could debit the user's own destination. */
  ghost predicate SellExposed(s: State, env: Env, a: SellArgs) {
    SellQuote(s, env, a).Ok? && DestinationExposed(s.ledger, SellSwap(a, SellQuote(s, env, a).value), env.signers)
  }

  ghost predicate BuyExposed(s: State, env: Env, a: BuyArgs) {
    BuyQuote(s, env, a).Ok? && DestinationExposed(s.ledger, BuySwap(a, BuyQuote(s, env, a).value), env.signers)
  }

  /** From the run invariant, with a clock that leaves room for one period: a sell never panics; it overflows
      only in a floor that leaves 128 bits, or with an exposed destination; and its net-input check never
      rejects a transient that holds anything. */
  lemma SellArithmeticSafe(s: State, env: Env, a: SellArgs)
    requires Inv(s) && 0 <= env.now <= I64_MAX - MAX_PERIOD_SECS && SellEffect(s, env, a).Err?
    ensures SellEffect(s, env, a).error != Panic
    ensures SellEffect(s, env, a).error == Overflow ==> FloorTooWide(s, env, a) || SellExposed(s, env, a)
    ensures SellEffect(s, env, a).error == NothingPulled ==>
              a.transientTarget in s.ledger && s.ledger[a.transientTarget] == 0
  {
    if SellQuote(s, env, a).Err? {
      SellQuoteErrors(s, env, a);
      SellQuoteIff(s, env, a);
      if SellQuote(s, env, a).error == Overflow {
        WideFloor(s.config.value, NetOf(s.ledger[a.transientTarget], s.feeConfig.value.feeBps));
      }
    } else {
      SellGuards(s, env, a);
      assert PlanOk(a.user, s.plans[a.user]);
      GateSafe(s.plans[a.user], env.now);
      if SkimAndSwap(s.ledger, SellSwap(a, SellQuote(s, env, a).value), env.signers).Err? {
        SwapErrors(s.ledger, SellSwap(a, SellQuote(s, env, a).value), env.signers);
      }
    }
  }

  lemma WideFloor(cfg: Config, net: U64)
    requires ConfigOk(cfg) && 0 < cfg.priceRefMicros && !CutWithin(Sell, cfg, net)
    ensures cfg.targetDecimals < 4
  {
    if 4 <= cfg.targetDecimals {
      CutFits(Sell, net, cfg.priceRefMicros, cfg.targetDecimals, cfg.maxSlippageBps);
    }
  }

  /** The buy side needs no bound on the clock or the decimals. */
  lemma BuyArithmeticSafe(s: State, env: Env, a: BuyArgs)
    requires Inv(s) && BuyEffect(s, env, a).Err?
    ensures BuyEffect(s, env, a).error != Panic
    ensures BuyEffect(s, env, a).error == Overflow ==> BuyExposed(s, env, a)
    ensures BuyEffect(s, env, a).error == NothingPulled ==>
              a.transientUsdc in s.ledger && s.ledger[a.transientUsdc] == 0
  {
    if BuyQuote(s, env, a).Err? {
      BuyQuoteErrors(s, env, a);
    } else {
      BuyGuards(s, env, a);
      SwapErrors(s.ledger, BuySwap(a, BuyQuote(s, env, a).value), env.signers);
    }
  }

  /** Every other instruction is safe from any reachable state. */
  lemma AdminArithmeticSafe(s: State, env: Env, ix: Instruction)
    requires Inv(s) && !ix.ExecuteBuy? && !ix.ExecuteSell? && Step(s, env, ix).Err?
    ensures Step(s, env, ix).error !in {Panic, Overflow}
  {
  }

  /** Where some behaviour of the venue succeeds, another one underflows exactly when the destination is exposed. */
  lemma OverflowIff(l: Balances, w: Swap, signers: Signers)
    requires w.transient in l && w.transient.TokenAccount? && w.dest in l && w.dest.TokenAccount?
             && w.dest != w.transient
    requires SupplyFits(l) && SkimAndSwap(l, w, signers).Ok?
    ensures (exists ops: seq<TransferOp> :: SkimAndSwap(l, WithOps(w, ops), signers) == Err(Overflow))
            <==> DestinationExposed(l, w, signers)
  {
    if ops: seq<TransferOp> :| SkimAndSwap(l, WithOps(w, ops), signers) == Err(Overflow) {
      SwapErrors(l, WithOps(w, ops), signers);
    }
    if DestinationExposed(l, w, signers) {
      var to :| Sink(l, w.dest, to, WritableKeys(w.venue.remaining)) && to != w.transient;
      DestinationEmptied(l, w, signers, to);
    }
  }

  /** The same execution with another behaviour of its venue. */
  function WithOps(w: Swap, ops: seq<TransferOp>): Swap { w.(venue := w.venue.(ops := ops)) }

  lemma SkimFits(l: Balances, w: Swap)
    requires SupplyFits(l) && Skim(l, w).Ok?
    ensures SupplyFits(Skim(l, w).value)
  {
    if w.fee > 0 {
      forall m: Key ensures Total(Skim(l, w).value, m) < U64_LIMIT {
        TransferConserves(l, TransferOp(w.transient, w.feeAta, BuyAuthority(w.user), w.fee), m);
      }
    }
  }

  /** After the transfers it made, the venue could also have emptied any account it may debit. */
  lemma {:induction false} VenueWithDrain(
      l: Balances, w: Swap, signers: Signers, k: Key, to: Key)
    returns (ops: seq<TransferOp>)
    requires SupplyFits(l) && RunVenue(l, w, signers).Ok? && k in l && k in WritableKeys(w.venue.remaining)
    requires Sink(l, k, to, WritableKeys(w.venue.remaining))
    requires MaySign(k.authority, Forwarded(w, signers), w.venue.program)
    ensures |ops| == |w.venue.ops| + 1 && ops[..|w.venue.ops|] == w.venue.ops
    ensures var done := RunVenue(l, w, signers).value;
            done[k] + done[to] < U64_LIMIT
            && RunVenue(l, WithOps(w, ops), signers) == Ok(done[k := 0][to := done[to] + done[k]])
  {
    DrainToo(l, w.venue.ops, k, to, Forwarded(w, signers), WritableKeys(w.venue.remaining), w.venue.program);
    ops := w.venue.ops + [DrainOp(k, to, RunVenue(l, w, signers).value[k])];
  }

  lemma DestinationEmptied(l: Balances, w: Swap, signers: Signers, to: Key)
    requires w.transient in l && w.dest in l && w.dest != w.transient
    requires SupplyFits(l) && SkimAndSwap(l, w, signers).Ok? && DestinationExposed(l, w, signers)
    requires Sink(l, w.dest, to, WritableKeys(w.venue.remaining)) && to != w.transient
    ensures exists ops: seq<TransferOp> :: SkimAndSwap(l, WithOps(w, ops), signers) == Err(Overflow)
  {
    SkimFits(l, w);
    assert Sink(Skim(l, w).value, w.dest, to, WritableKeys(w.venue.remaining));
    var ops := VenueWithDrain(Skim(l, w).value, w, signers, w.dest, to);
    Underflows(l, WithOps(w, ops), signers);
  }

  /** The same for an execution as a whole: it would have gone through with k emptied as well. */
  lemma {:induction false} DrainedToo(
      l: Balances, w: Swap, signers: Signers, k: Key, to: Key)
    returns (ops: seq<TransferOp>)
    requires w.transient in l && w.dest in l && SupplyFits(l) && SkimAndSwap(l, w, signers).Ok?
    requires k !in {w.transient, w.dest} && AccountExposed(l, w, signers, k)
    requires Sink(l, k, to, WritableKeys(w.venue.remaining)) && to != w.transient
    ensures |ops| == |w.venue.ops| + 1 && ops[..|w.venue.ops|] == w.venue.ops
    ensures SkimAndSwap(l, WithOps(w, ops), signers).Ok?
    ensures var after := SkimAndSwap(l, WithOps(w, ops), signers).value.ledger; after.Keys == l.Keys && after[k] == 0
  {
    SkimFits(l, w);
    assert Sink(Skim(l, w).value, k, to, WritableKeys(w.venue.remaining));
    ops := VenueWithDrain(Skim(l, w).value, w, signers, k, to);
  }

  ghost predicate Shrinks(l: Balances, w: Swap, signers: Signers, k: Key)
    requires w.transient in l && w.dest in l && k in l
  {
    SkimAndSwap(l, w, signers).Ok? && Bal(SkimAndSwap(l, w, signers).value.ledger, k) < l[k]
  }

  /** Where some behaviour of the venue succeeds, one succeeds and lowers k, other than the transient, if and only
      if k is exposed; the destination never is lowered. */
  lemma ShrinksIff(l: Balances, w: Swap, signers: Signers, k: Key)
    requires w.transient in l && w.transient.TokenAccount? && w.dest in l && k in l && k != w.transient
    requires SupplyFits(l) && SkimAndSwap(l, w, signers).Ok?
    ensures (exists ops: seq<TransferOp> :: Shrinks(l, WithOps(w, ops), signers, k))
            <==> k != w.dest && AccountExposed(l, w, signers, k)
  {
    if ops: seq<TransferOp> :| Shrinks(l, WithOps(w, ops), signers, k) {
      ShrunkIsExposed(l, WithOps(w, ops), signers, k);
    }
    if k != w.dest && AccountExposed(l, w, signers, k) {
      var to :| Sink(l, k, to, WritableKeys(w.venue.remaining)) && to != w.transient;
      var ops := DrainedToo(l, w, signers, k, to);
      assert Shrinks(l, WithOps(w, ops), signers, k);
    }
  }

  lemma Underflows(l: Balances, w: Swap, signers: Signers)
    requires w.transient in l && w.dest in l && Skim(l, w).Ok? && RunVenue(Skim(l, w).value, w, signers).Ok?
    requires RunVenue(Skim(l, w).value, w, signers).value[w.transient] == 0
    requires RunVenue(Skim(l, w).value, w, signers).value[w.dest] < l[w.dest]
    ensures SkimAndSwap(l, w, signers) == Err(Overflow)
  {
  }
}
