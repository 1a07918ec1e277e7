// What every instruction is refused for, and with which code: each check has its own exact condition, and the code
// reported is that of the first check, in a fixed order, that fails.
module Refusals {
  import opened Machine
  import opened Ledger
  import opened Schedule
  import opened Fees
  import opened Floors
  import opened Program
  import opened Executions

  /** One check: what it asks, and the code reported where that does not hold. */
  datatype Rule = Rule(holds: bool, code: Error)

  ghost predicate FailsFirstAt(rules: seq<Rule>, k: nat) {
    k < |rules| && !rules[k].holds && forall j | 0 <= j < k :: rules[j].holds
  }

  /** Success if every rule holds; otherwise the code of the first that does not. */
  ghost predicate Reports<T>(r: Result<T>, rules: seq<Rule>) {
    if r.Ok? then forall rule <- rules :: rule.holds
    else exists k: nat :: FailsFirstAt(rules, k) && r == Err(rules[k].code)
  }

  /** The rules decide success and the code between them. */
  lemma ReportsIff<T>(r: Result<T>, rules: seq<Rule>)
    requires Reports(r, rules)
    ensures r.Ok? <==> forall rule <- rules :: rule.holds
    ensures forall k: nat :: FailsFirstAt(rules, k) ==> r == Err(rules[k].code)
  {
    forall k: nat | FailsFirstAt(rules, k) ensures r == Err(rules[k].code) {
      assert rules[k] in rules;
      var m: nat :| FailsFirstAt(rules, m) && r == Err(rules[m].code);
    }
  }

  lemma FailsAt<T>(r: Result<T>, rules: seq<Rule>, k: nat)
    requires FailsFirstAt(rules, k) && r == Err(rules[k].code)
    ensures Reports(r, rules)
  {
  }

  // ---- Sells ----

  predicate SellInPlace(s: State, a: SellArgs) {
    s.config.Some? && s.feeConfig.Some? && a.user in s.plans
    && a.transientTarget in s.ledger && a.userTargetAta in s.ledger && a.destUsdc in s.ledger && a.feeAta in s.ledger
  }

  /** Everything a sell is asked before its first transfer, in order. */
  ghost function SellRules(s: State, env: Env, a: SellArgs): seq<Rule>
    requires Inv(s)
  {
    [Rule(a.keeper in env.signers, MissingSigner), Rule(SellInPlace(s, a), NotInitialized)]
    + if !SellInPlace(s, a) then [] else
        SellBindings(s, env, a)
        + (SellTerms(s, env, a)
           + PriceRules(Sell, s, s.ledger[a.transientTarget], s.config.value.targetMint, a.feeAta, a.minOut))
  }

  /** Its plan, its accounts, and something to sell. */
  ghost function SellBindings(s: State, env: Env, a: SellArgs): seq<Rule>
    requires SellInPlace(s, a)
  {
    var cfg, plan := s.config.value, s.plans[a.user];
    [Rule(!cfg.paused, Paused),
     Rule(plan.nextDueTs <= plan.endTs, PlanCompleted),
     Rule(plan.nextDueTs <= env.now, NotDue),
     Rule(a.destUsdc == Ata(a.user, cfg.usdcMint), DestinationNotOwner),
     Rule(a.transientTarget == Ata(BuyAuthority(a.user), cfg.targetMint), BadTransient),
     Rule(a.userTargetAta == Ata(a.user, cfg.targetMint), BadPotAccount),
     Rule(0 < s.ledger[a.transientTarget], NothingPulled)]
  }

  /** The cap and the venue. */
  ghost function SellTerms(s: State, env: Env, a: SellArgs): seq<Rule>
    requires SellInPlace(s, a)
  {
    var plan, amountIn := s.plans[a.user], s.ledger[a.transientTarget];
    [Rule(DrawAllowedTo(plan, env.now, s.ledger[a.userTargetAta], amountIn), OverdrawSchedule),
     Rule(Listed(s.config.value, a.venue.program), VenueNotWhitelisted)]
  }

  ghost predicate DrawAllowedTo(plan: SellPlan, now: int, wallet: int, amountIn: int) {
    0 < plan.periodSecs && DrawAllowed(plan, now, wallet, amountIn)
  }

  /** What the net input is asked, on either side; a buy's floor always computes. */
  ghost function PriceRules(side: Side, s: State, amountIn: U64, inputMint: Key, feeAta: Key, minOut: U64): seq<Rule>
    requires Inv(s) && s.config.Some? && s.feeConfig.Some?
  {
    [Rule(feeAta == Ata(s.feeConfig.value.destination, inputMint), BadFeeAccount),
     Rule(0 < s.config.value.priceRefMicros, FloorNotConfigured),
     Rule(FloorComputes(side, s, amountIn), Overflow),
     Rule(FloorMet(side, s, amountIn, minOut), MinOutTooLow)]
  }

  lemma PriceReports(side: Side, s: State, amountIn: U64, inputMint: Key, feeAta: Key, minOut: U64)
    requires Inv(s) && s.config.Some? && s.feeConfig.Some? && 0 < amountIn
    ensures Reports(InputFloor(side, s.config.value, s.feeConfig.value, amountIn, inputMint, feeAta, minOut),
                    PriceRules(side, s, amountIn, inputMint, feeAta, minOut))
  {
    var cfg, fc := s.config.value, s.feeConfig.value;
    var r, rules := InputFloor(side, cfg, fc, amountIn, inputMint, feeAta, minOut),
                    PriceRules(side, s, amountIn, inputMint, feeAta, minOut);
    FeeWithinCap(amountIn, fc.feeBps);
    var net := FeeSplit(amountIn, fc.feeBps).value.net;
    if 0 < cfg.priceRefMicros {
      FloorOutcome(side, net, cfg.priceRefMicros, cfg.targetDecimals, cfg.maxSlippageBps);
    }
    if !rules[0].holds { FailsAt(r, rules, 0); }
    else if !rules[1].holds { FailsAt(r, rules, 1); }
    else if !rules[2].holds { FailsAt(r, rules, 2); }
    else if !rules[3].holds { FailsAt(r, rules, 3); }
  }

  /** Rules that all hold, followed by others, report what the others do. */
  lemma ReportsAfter<T>(r: Result<T>, first: seq<Rule>, rest: seq<Rule>)
    requires (forall rule <- first :: rule.holds) && Reports(r, rest)
    ensures Reports(r, first + rest)
  {
    if r.Err? {
      var k: nat :| FailsFirstAt(rest, k) && r == Err(rest[k].code);
      assert FailsFirstAt(first + rest, |first| + k);
    }
  }

  /** A failure among the first rules is the one reported. */
  lemma ReportsWithin<T>(r: Result<T>, first: seq<Rule>, rest: seq<Rule>, k: nat)
    requires FailsFirstAt(first, k) && r == Err(first[k].code)
    ensures Reports(r, first + rest)
  {
    assert FailsFirstAt(first + rest, k);
  }

  /** The first unmet rule decides within its own group. */
  lemma SellUnbound(s: State, env: Env, a: SellArgs)
    requires a.keeper in env.signers && SellInPlace(s, a)
    requires !forall rule <- SellBindings(s, env, a) :: rule.holds
    ensures Reports(SellQuote(s, env, a), SellBindings(s, env, a))
  {
    var r, rules := SellQuote(s, env, a), SellBindings(s, env, a);
    var k := if !rules[0].holds then 0 else if !rules[1].holds then 1 else if !rules[2].holds then 2
             else if !rules[3].holds then 3 else if !rules[4].holds then 4 else if !rules[5].holds then 5 else 6;
    assert FailsFirstAt(rules, k);
  }

  lemma SellOffTerms(s: State, env: Env, a: SellArgs)
    requires Inv(s) && 0 <= env.now && a.keeper in env.signers && SellInPlace(s, a)
    requires forall rule <- SellBindings(s, env, a) :: rule.holds
    requires !forall rule <- SellTerms(s, env, a) :: rule.holds
    ensures Reports(SellQuote(s, env, a), SellTerms(s, env, a))
  {
    var rules, plan := SellTerms(s, env, a), s.plans[a.user];
    BindingsHold(s, env, a);
    assert PlanOk(a.user, plan);
    WhitelistedIff(s.config.value, a.venue.program);
    DrawIff(plan, env.now, s.ledger[a.userTargetAta], s.ledger[a.transientTarget]);
    FailsAt(SellQuote(s, env, a), rules, if rules[0].holds then 1 else 0);
  }

  lemma BindingsHold(s: State, env: Env, a: SellArgs)
    requires SellInPlace(s, a) && forall rule <- SellBindings(s, env, a) :: rule.holds
    ensures !s.config.value.paused && s.plans[a.user].nextDueTs <= s.plans[a.user].endTs
            && s.plans[a.user].nextDueTs <= env.now && a.destUsdc == Ata(a.user, s.config.value.usdcMint)
            && a.transientTarget == Ata(BuyAuthority(a.user), s.config.value.targetMint)
            && a.userTargetAta == Ata(a.user, s.config.value.targetMint) && 0 < s.ledger[a.transientTarget]
  {
    var rules := SellBindings(s, env, a);
    assert forall k | 0 <= k < 7 :: rules[k] in rules;
  }

  lemma SellOnTerms(s: State, env: Env, a: SellArgs)
    requires Inv(s) && 0 <= env.now && a.keeper in env.signers && SellInPlace(s, a)
    requires forall rule <- SellBindings(s, env, a) :: rule.holds
    requires forall rule <- SellTerms(s, env, a) :: rule.holds
    ensures 0 < s.ledger[a.transientTarget]
    ensures SellQuote(s, env, a)
            == InputFloor(Sell, s.config.value, s.feeConfig.value, s.ledger[a.transientTarget],
                          s.config.value.targetMint, a.feeAta, a.minOut)
  {
    var rules, plan := SellTerms(s, env, a), s.plans[a.user];
    BindingsHold(s, env, a);
    assert PlanOk(a.user, plan);
    WhitelistedIff(s.config.value, a.venue.program);
    DrawIff(plan, env.now, s.ledger[a.userTargetAta], s.ledger[a.transientTarget]);
    assert rules[0] in rules && rules[1] in rules;
  }

  /** Groups of rules: the first group that is not met decides. */
  lemma ReportsTwo<T>(r: Result<T>, first: seq<Rule>, rest: seq<Rule>)
    requires if forall rule <- first :: rule.holds then Reports(r, rest) else r.Err? && Reports(r, first)
    ensures Reports(r, first + rest)
  {
    if forall rule <- first :: rule.holds {
      ReportsAfter(r, first, rest);
    } else {
      var k: nat :| FailsFirstAt(first, k) && r == Err(first[k].code);
      ReportsWithin(r, first, rest, k);
    }
  }

  /** In a reachable state the checks of a sell report the first rule that does not hold, and pass if all do. */
  lemma SellReports(s: State, env: Env, a: SellArgs)
    requires Inv(s) && 0 <= env.now
    ensures Reports(SellQuote(s, env, a), SellRules(s, env, a))
  {
    var r := SellQuote(s, env, a);
    if !SellInPlace(s, a) || a.keeper !in env.signers {
      FailsAt(r, SellRules(s, env, a), if a.keeper in env.signers then 1 else 0);
    } else {
      var bindings, terms := SellBindings(s, env, a), SellTerms(s, env, a);
      var amountIn := s.ledger[a.transientTarget];
      var prices := PriceRules(Sell, s, amountIn, s.config.value.targetMint, a.feeAta, a.minOut);
      if !forall rule <- bindings :: rule.holds {
        SellUnbound(s, env, a);
      } else {
        if !forall rule <- terms :: rule.holds {
          SellOffTerms(s, env, a);
        } else {
          SellOnTerms(s, env, a);
          PriceReports(Sell, s, amountIn, s.config.value.targetMint, a.feeAta, a.minOut);
        }
        ReportsTwo(r, terms, prices);
      }
      ReportsTwo(r, bindings, terms + prices);
      ReportsAfter(r, SellRules(s, env, a)[..2], bindings + (terms + prices));
    }
  }

  /** Signed, in place and unpaused, a sell is told that its plan is completed exactly when the gate is past the end,
      and that it is not due exactly when the gate is not, and the clock is before it. */
  lemma FinishedOrEarly(s: State, env: Env, a: SellArgs)
    requires a.keeper in env.signers && SellInPlace(s, a) && !s.config.value.paused
    ensures SellQuote(s, env, a) == Err(PlanCompleted) <==> s.plans[a.user].endTs < s.plans[a.user].nextDueTs
    ensures SellQuote(s, env, a) == Err(NotDue) <==>
            env.now < s.plans[a.user].nextDueTs <= s.plans[a.user].endTs
  {
  }

  // ---- Buys ----

  predicate BuyInPlace(s: State, a: BuyArgs) {
    s.config.Some? && s.feeConfig.Some?
    && a.transientUsdc in s.ledger && a.destAta in s.ledger && a.feeAta in s.ledger
    && a.transientUsdc.TokenAccount? && a.destAta.TokenAccount?
  }

  /** The same for a buy. */
  ghost function BuyRules(s: State, env: Env, a: BuyArgs): seq<Rule>
    requires Inv(s)
  {
    [Rule(a.keeper in env.signers, MissingSigner), Rule(BuyInPlace(s, a), NotInitialized)]
    + if !BuyInPlace(s, a) then [] else
        BuyBindings(s, a)
        + PriceRules(Buy, s, s.ledger[a.transientUsdc], s.config.value.usdcMint, a.feeAta, a.minOut)
  }

  ghost function BuyBindings(s: State, a: BuyArgs): seq<Rule>
    requires BuyInPlace(s, a)
  {
    var cfg := s.config.value;
    [Rule(!cfg.paused, Paused),
     Rule(a.destAta.mint == cfg.targetMint, WrongTargetMint),
     Rule(a.destAta == Ata(a.user, cfg.targetMint), DestinationNotOwner),
     Rule(a.transientUsdc == Ata(BuyAuthority(a.user), cfg.usdcMint), BadTransient),
     Rule(0 < s.ledger[a.transientUsdc], NothingPulled),
     Rule(Listed(cfg, a.venue.program), VenueNotWhitelisted)]
  }

  lemma BuyUnbound(s: State, env: Env, a: BuyArgs)
    requires Inv(s) && a.keeper in env.signers && BuyInPlace(s, a)
    requires !forall rule <- BuyBindings(s, a) :: rule.holds
    ensures Reports(BuyQuote(s, env, a), BuyBindings(s, a))
  {
    var rules := BuyBindings(s, a);
    WhitelistedIff(s.config.value, a.venue.program);
    var k := if !rules[0].holds then 0 else if !rules[1].holds then 1 else if !rules[2].holds then 2
             else if !rules[3].holds then 3 else if !rules[4].holds then 4 else 5;
    assert FailsFirstAt(rules, k);
  }

  lemma BuyBound(s: State, env: Env, a: BuyArgs)
    requires Inv(s) && a.keeper in env.signers && BuyInPlace(s, a)
    requires forall rule <- BuyBindings(s, a) :: rule.holds
    ensures 0 < s.ledger[a.transientUsdc]
    ensures BuyQuote(s, env, a)
            == InputFloor(Buy, s.config.value, s.feeConfig.value, s.ledger[a.transientUsdc], s.config.value.usdcMint,
                          a.feeAta, a.minOut)
  {
    var rules := BuyBindings(s, a);
    WhitelistedIff(s.config.value, a.venue.program);
    assert forall k | 0 <= k < 6 :: rules[k] in rules;
  }

  /** In a reachable state so do the checks of a buy. */
  lemma BuyReports(s: State, env: Env, a: BuyArgs)
    requires Inv(s)
    ensures Reports(BuyQuote(s, env, a), BuyRules(s, env, a))
  {
    var r := BuyQuote(s, env, a);
    if !BuyInPlace(s, a) || a.keeper !in env.signers {
      FailsAt(r, BuyRules(s, env, a), if a.keeper in env.signers then 1 else 0);
    } else {
      var bindings, amountIn := BuyBindings(s, a), s.ledger[a.transientUsdc];
      var prices := PriceRules(Buy, s, amountIn, s.config.value.usdcMint, a.feeAta, a.minOut);
      if !forall rule <- bindings :: rule.holds {
        BuyUnbound(s, env, a);
      } else {
        BuyBound(s, env, a);
        PriceReports(Buy, s, amountIn, s.config.value.usdcMint, a.feeAta, a.minOut);
      }
      ReportsTwo(r, bindings, prices);
      ReportsAfter(r, BuyRules(s, env, a)[..2], bindings + prices);
    }
  }

  // ---- The movement ----

  /** What an execution asks of what its venue left. */
  ghost function MoveRules(l: Balances, w: Swap, left: Balances): seq<Rule> {
    [Rule(Bal(left, w.transient) == 0, TransientNotDrained),
     Rule(Bal(l, w.dest) <= Bal(left, w.dest), Overflow),
     Rule(Bal(l, w.dest) + w.minOut <= Bal(left, w.dest), SlippageExceeded)]
  }

  /** The skim fails only if there is a fee and its transfer is refused; else the venue may refuse; else the outcome is
      judged, in order, on what the venue left. */
  lemma MoveReports(l: Balances, w: Swap, signers: Signers)
    requires w.transient in l && w.dest in l
    ensures Skim(l, w).Err? <==>
            0 < w.fee && !Transferable(l, TransferOp(w.transient, w.feeAta, BuyAuthority(w.user), w.fee))
    ensures Skim(l, w).Err? ==> SkimAndSwap(l, w, signers) == Err(TokenError)
    ensures Skim(l, w).Ok? && RunVenue(Skim(l, w).value, w, signers).Err? ==>
              SkimAndSwap(l, w, signers) == Err(RunVenue(Skim(l, w).value, w, signers).error)
    ensures Skim(l, w).Ok? && RunVenue(Skim(l, w).value, w, signers).Ok? ==>
              Reports(SkimAndSwap(l, w, signers), MoveRules(l, w, RunVenue(Skim(l, w).value, w, signers).value))
  {
    TransferIff(l, TransferOp(w.transient, w.feeAta, BuyAuthority(w.user), w.fee));
    if Skim(l, w).Ok? && RunVenue(Skim(l, w).value, w, signers).Ok? {
      var r, rules := SkimAndSwap(l, w, signers), MoveRules(l, w, RunVenue(Skim(l, w).value, w, signers).value);
      if r.Err? { FailsAt(r, rules, if !rules[0].holds then 0 else if !rules[1].holds then 1 else 2); }
    }
  }

  /** A buy reports its checks first, then its movement. */
  lemma BuyStops(s: State, env: Env, a: BuyArgs)
    ensures BuyQuote(s, env, a).Err? ==> BuyEffect(s, env, a) == Err(BuyQuote(s, env, a).error)
    ensures BuyQuote(s, env, a).Ok? ==>
              var moved := SkimAndSwap(s.ledger, BuySwap(a, BuyQuote(s, env, a).value), env.signers);
              if moved.Err? then BuyEffect(s, env, a) == Err(moved.error) else BuyEffect(s, env, a).Ok?
  {
  }

  /** The first point of the grid through the gate that lies after `now`. */
  function NextDue(plan: SellPlan, now: int): int {
    if 0 < plan.periodSecs then plan.nextDueTs + ((now - plan.nextDueTs) / plan.periodSecs + 1) * plan.periodSecs
    else plan.nextDueTs
  }

  lemma QuotedGate(s: State, env: Env, a: SellArgs)
    requires Inv(s) && SellQuote(s, env, a).Ok?
    ensures var next := NextDue(s.plans[a.user], env.now);
            NextGate(s.plans[a.user], env.now) == if next <= I64_MAX then Ok(next) else Err(Overflow)
  {
    SellGuards(s, env, a);
    assert PlanOk(a.user, s.plans[a.user]);
    GateOverflows(s.plans[a.user], env.now);
  }

  /** So does a sell, and last it overflows if the next grid point leaves 64 bits. */
  lemma SellStops(s: State, env: Env, a: SellArgs)
    requires Inv(s)
    ensures SellQuote(s, env, a).Err? ==> SellEffect(s, env, a) == Err(SellQuote(s, env, a).error)
    ensures SellQuote(s, env, a).Ok? ==>
              var moved := SkimAndSwap(s.ledger, SellSwap(a, SellQuote(s, env, a).value), env.signers);
              if moved.Err? then SellEffect(s, env, a) == Err(moved.error)
              else if I64_MAX < NextDue(s.plans[a.user], env.now) then SellEffect(s, env, a) == Err(Overflow)
              else SellEffect(s, env, a).Ok?
  {
    if SellQuote(s, env, a).Ok? { QuotedGate(s, env, a); }
  }

  // ---- Every other instruction ----

  /** What every admin instruction is asked. */
  function AdminRules(s: State, env: Env, admin: Key, loaded: bool): seq<Rule> {
    [Rule(admin in env.signers, MissingSigner), Rule(s.config.Some? && loaded, NotInitialized),
     Rule(s.config.Some? && s.config.value.admin == admin, WrongAdmin)]
  }

  /** What an instruction other than an execution is asked, in order. */
  function Rules(s: State, env: Env, ix: Instruction): seq<Rule> {
    match ix
    case InitConfig(admin, targetMint, usdcMint, venues, _, slippage) =>
      [Rule(admin in env.signers, MissingSigner), Rule(s.config.None?, AlreadyInUse),
       Rule(|venues| <= 3, TooManyVenues),
       Rule(slippage <= 10_000 && targetMint.decimals <= 12 && usdcMint.decimals == 6, BadParam)]
    case SetPause(admin, _) => AdminRules(s, env, admin, true)
    case SetParams(admin, _, slippage) => AdminRules(s, env, admin, true) + [Rule(slippage <= 10_000, BadParam)]
    case InitFeeConfig(admin, feeBps, _) =>
      AdminRules(s, env, admin, true) + [Rule(s.feeConfig.None?, AlreadyInUse), Rule(feeBps <= 100, FeeTooHigh)]
    case SetFee(admin, feeBps, _) =>
      AdminRules(s, env, admin, s.feeConfig.Some?) + [Rule(feeBps <= 100, FeeTooHigh)]
    case SetWhitelist(admin, venues) => AdminRules(s, env, admin, true) + [Rule(|venues| <= 3, TooManyVenues)]
    case OpenSellPlan(user, endTs, periodSecs) =>
      [Rule(user in env.signers, MissingSigner), Rule(user !in s.plans, AlreadyInUse),
       Rule(Openable(env.now, endTs, periodSecs), BadParam)]
    case CloseSellPlan(user) =>
      [Rule(user in env.signers, MissingSigner), Rule(user in s.plans, NotInitialized)]
    case Pull(delegator, mint, amount) =>
      [Rule(delegator.Raw?, Privilege),
       Rule(Transferable(s.ledger, TransferOp(Ata(delegator, mint), Ata(BuyAuthority(delegator), mint), delegator,
                                              amount)), TokenError)]
    case TokenTransfer(op) =>
      [Rule(op.authority in env.signers, MissingSigner), Rule(Transferable(s.ledger, op), TokenError)]
    case _ => []
  }

  /** The first rule that does not hold, of at most five. */
  function FirstOf(rules: seq<Rule>): (k: nat)
    requires |rules| <= 5
    ensures k <= |rules| && forall j | 0 <= j < k :: rules[j].holds
    ensures k < |rules| ==> !rules[k].holds
  {
    if |rules| == 0 || !rules[0].holds then 0 else if |rules| == 1 || !rules[1].holds then 1
    else if |rules| == 2 || !rules[2].holds then 2 else if |rules| == 3 || !rules[3].holds then 3
    else if |rules| == 4 || !rules[4].holds then 4 else 5
  }

  lemma AdminReports(s: State, env: Env, ix: Instruction)
    requires ix.SetPause? || ix.SetParams? || ix.InitFeeConfig? || ix.SetFee? || ix.SetWhitelist?
    ensures var k := FirstOf(Rules(s, env, ix));
            if k < |Rules(s, env, ix)| then Step(s, env, ix) == Err(Rules(s, env, ix)[k].code)
            else Step(s, env, ix).Ok?
  {
  }

  lemma PlainReports(s: State, env: Env, ix: Instruction)
    requires ix.InitConfig? || ix.OpenSellPlan? || ix.CloseSellPlan? || ix.Pull? || ix.TokenTransfer? || ix.CreateAta?
    ensures var k := FirstOf(Rules(s, env, ix));
            if k < |Rules(s, env, ix)| then Step(s, env, ix) == Err(Rules(s, env, ix)[k].code)
            else Step(s, env, ix).Ok?
  {
    match ix
    case OpenSellPlan(user, endTs, periodSecs) => OpenOutcome(user, env.now, endTs, periodSecs);
    case Pull(delegator, mint, amount) => TransferIff(s.ledger, PullOp(delegator, mint, amount));
    case TokenTransfer(op) => TransferIff(s.ledger, op);
    case _ =>
  }

  /** Every administration, plan and token instruction reports the first of its rules that does not hold, and is
      accepted if all do. */
  lemma InstructionReports(s: State, env: Env, ix: Instruction)
    requires !ix.ExecuteBuy? && !ix.ExecuteSell?
    ensures Reports(Step(s, env, ix), Rules(s, env, ix))
  {
    if ix.SetPause? || ix.SetParams? || ix.InitFeeConfig? || ix.SetFee? || ix.SetWhitelist? {
      AdminReports(s, env, ix);
    } else {
      PlainReports(s, env, ix);
    }
    var k := FirstOf(Rules(s, env, ix));
    if k < |Rules(s, env, ix)| { FailsAt(Step(s, env, ix), Rules(s, env, ix), k); }
  }
}
