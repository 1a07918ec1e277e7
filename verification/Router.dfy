// The program's handlers over mutable accounts, and the transaction that runs them.
module Router {
  import opened Machine
  import opened Ledger
  import opened Schedule
  import opened Fees
  import opened Floors
  import opened Program
  import opened Accounts

  class Deployment {
    const bank: TokenBank
    var config: Option<Config>
    var feeConfig: Option<FeeConfig>
    var plans: map<Key, SellPlan>
    var log: seq<Executed>

    constructor (l: Balances)
      ensures Now() == Genesis(l) == State(l, None, None, map[], []) && fresh(bank)
    {
      bank := new TokenBank(l);
      config, feeConfig, plans, log := None, None, map[], [];
    }

    /** Everything on chain, as a value. */
    function Now(): State
      reads this, bank
    {
      State(bank.balances, config, feeConfig, plans, log)
    }

    /** The admin constraint; on success the config account is loaded. */
    method LoadAdmin(env: Env, admin: Key) returns (r: Result<()>, cfg: ConfigAccount?)
      ensures Agrees(r, AdminConfig(Now(), env, admin))
      ensures r.Ok? ==> cfg != null && fresh(cfg) && fresh(cfg.swapPrograms)
                        && cfg.Data() == AdminConfig(Now(), env, admin).value
    {
      cfg := null;
      if admin !in env.signers { return Err(MissingSigner), null; }
      if config.None? { return Err(NotInitialized), null; }
      if config.value.admin != admin { return Err(WrongAdmin), null; }
      cfg := new ConfigAccount.Load(config.value);
      r := Ok(());
    }

    method InitConfig(env: Env, admin: Key, target: Mint, usdc: Mint, venues: seq<Key>, price: U64, slippage: U16)
      returns (r: Result<()>)
      modifies this
      ensures var spec := Step(old(Now()), env, Instruction.InitConfig(admin, target, usdc, venues, price, slippage));
              Agrees(r, spec) && Now() == if r.Ok? then spec.value else old(Now())
    {
      if admin !in env.signers { return Err(MissingSigner); }
      :- Need(config.None?, AlreadyInUse);
      var cfg := new ConfigAccount.Load(Config(DEFAULT_KEY, DEFAULT_KEY, DEFAULT_KEY, [], 0, 0, 0, 0, false));
      var done := cfg.Init(admin, target, usdc, venues, price, slippage);
      if done.Err? { return done; }
      config := Some(cfg.Data());
      return Ok(());
    }

    method SetPause(env: Env, admin: Key, paused: bool) returns (r: Result<()>)
      modifies this
      ensures var spec := Step(old(Now()), env, Instruction.SetPause(admin, paused));
              Agrees(r, spec) && Now() == if r.Ok? then spec.value else old(Now())
    {
      var cfg;
      r, cfg := LoadAdmin(env, admin);
      if r.Ok? {
        cfg.paused := paused;
        config := Some(cfg.Data());
      }
    }

    method SetParams(env: Env, admin: Key, price: U64, slippage: U16) returns (r: Result<()>)
      modifies this
      ensures var spec := Step(old(Now()), env, Instruction.SetParams(admin, price, slippage));
              Agrees(r, spec) && Now() == if r.Ok? then spec.value else old(Now())
    {
      var cfg;
      r, cfg := LoadAdmin(env, admin);
      if r.Ok? {
        r := cfg.SetParams(price, slippage);
        if r.Ok? { config := Some(cfg.Data()); }
      }
    }

    method SetWhitelist(env: Env, admin: Key, venues: seq<Key>) returns (r: Result<()>)
      modifies this
      ensures var spec := Step(old(Now()), env, Instruction.SetWhitelist(admin, venues));
              Agrees(r, spec) && Now() == if r.Ok? then spec.value else old(Now())
    {
      var cfg;
      r, cfg := LoadAdmin(env, admin);
      if r.Ok? {
        r := cfg.SetWhitelist(venues);
        if r.Ok? { config := Some(cfg.Data()); }
      }
    }

    method InitFeeConfig(env: Env, admin: Key, feeBps: U16, destination: Key) returns (r: Result<()>)
      modifies this
      ensures var spec := Step(old(Now()), env, Instruction.InitFeeConfig(admin, feeBps, destination));
              Agrees(r, spec) && Now() == if r.Ok? then spec.value else old(Now())
    {
      var _ :- AdminConfig(Now(), env, admin);
      :- Need(feeConfig.None?, AlreadyInUse);
      :- Need(feeBps <= MAX_FEE_BPS, FeeTooHigh);
      feeConfig := Some(FeeConfig(feeBps, destination));
      return Ok(());
    }

    method SetFee(env: Env, admin: Key, feeBps: U16, destination: Key) returns (r: Result<()>)
      modifies this
      ensures var spec := Step(old(Now()), env, Instruction.SetFee(admin, feeBps, destination));
              Agrees(r, spec) && Now() == if r.Ok? then spec.value else old(Now())
    {
      if admin !in env.signers { return Err(MissingSigner); }
      :- Need(feeConfig.Some?, NotInitialized);
      var _ :- AdminConfig(Now(), env, admin);
      :- Need(feeBps <= MAX_FEE_BPS, FeeTooHigh);
      feeConfig := Some(feeConfig.value.(feeBps := feeBps));
      feeConfig := Some(feeConfig.value.(destination := destination));
      return Ok(());
    }

    method OpenSellPlan(env: Env, user: Key, endTs: I64, periodSecs: I64) returns (r: Result<()>)
      modifies this
      ensures var spec := Step(old(Now()), env, Instruction.OpenSellPlan(user, endTs, periodSecs));
              Agrees(r, spec) && Now() == if r.Ok? then spec.value else old(Now())
    {
      if user !in env.signers { return Err(MissingSigner); }
      :- Need(user !in plans, AlreadyInUse);
      var plan := new PlanAccount.Load(SellPlan(DEFAULT_KEY, 0, 0, 0));
      var done := plan.Open(user, env.now, endTs, periodSecs);
      if done.Err? { return done; }
      plans := plans[user := plan.Data()];
      return Ok(());
    }

    method CloseSellPlan(env: Env, user: Key) returns (r: Result<()>)
      modifies this
      ensures var spec := Step(old(Now()), env, Instruction.CloseSellPlan(user));
              Agrees(r, spec) && Now() == if r.Ok? then spec.value else old(Now())
    {
      if user !in env.signers { return Err(MissingSigner); }
      :- Need(user in plans, NotInitialized);
      plans := plans - {user};
      return Ok(());
    }

    /** Skim the fee, run the venue, then check the outcome; a failure may leave the balances
        half moved, for the transaction to discard. */
    method Move(w: Swap, signers: Signers) returns (r: Result<()>, out: U64)
      requires w.transient in bank.balances && w.dest in bank.balances
      modifies bank
      ensures var spec := SkimAndSwap(old(bank.balances), w, signers);
              Agrees(r, spec) && (r.Ok? ==> bank.balances == spec.value.ledger && out == spec.value.out)
    {
      out := 0;
      var destBefore := bank.balances[w.dest];
      if w.fee > 0 {
        r := bank.Send(TransferOp(w.transient, w.feeAta, BuyAuthority(w.user), w.fee));
        if r.Err? { return; }
      }
      r := bank.RunVenue(w.venue, signers, BuyAuthority(w.user));
      if r.Err? { return; }
      if bank.balances[w.transient] != 0 { return Err(TransientNotDrained), 0; }
      if bank.balances[w.dest] < destBefore { return Err(Overflow), 0; }
      out := bank.balances[w.dest] - destBefore;
      if out < w.minOut { return Err(SlippageExceeded), out; }
    }

    /** Every check of execute_buy before the first transfer. */
    method CheckBuy(env: Env, a: BuyArgs) returns (r: Result<Quote>)
      ensures r == BuyQuote(Now(), env, a)
    {
      var l := bank.balances;
      :- Need(a.keeper in env.signers, MissingSigner);
      :- Need(config.Some? && feeConfig.Some?, NotInitialized);
      :- Need(a.transientUsdc in l && a.destAta in l && a.feeAta in l, NotInitialized);
      :- Need(a.transientUsdc.TokenAccount? && a.destAta.TokenAccount?, NotInitialized);
      var cfg := config.value;
      :- Need(!cfg.paused, Paused);
      :- Need(a.destAta.mint == cfg.targetMint, WrongTargetMint);
      :- Need(a.destAta == Ata(a.user, cfg.targetMint), DestinationNotOwner);
      :- Need(a.transientUsdc.mint == cfg.usdcMint, BadTransient);
      :- Need(a.transientUsdc == Ata(BuyAuthority(a.user), cfg.usdcMint), BadTransient);
      var amountIn := l[a.transientUsdc];
      :- Need(amountIn > 0, NothingPulled);
      var listed :- IsWhitelisted(cfg, a.venue.program);
      :- Need(listed, VenueNotWhitelisted);
      var split :- FeeSplit(amountIn, feeConfig.value.feeBps);
      :- Need(split.net > 0, NothingPulled);
      :- Need(a.feeAta == Ata(feeConfig.value.destination, cfg.usdcMint), BadFeeAccount);
      :- Need(cfg.priceRefMicros > 0, FloorNotConfigured);
      var floor :- PriceFloor(split.net, cfg.priceRefMicros, cfg.targetDecimals, cfg.maxSlippageBps);
      :- Need(a.minOut >= floor, MinOutTooLow);
      return Ok(Quote(amountIn, split.fee, split.net));
    }

    method ExecuteBuy(env: Env, a: BuyArgs) returns (r: Result<()>)
      modifies this, bank
      ensures Agrees(r, BuyEffect(old(Now()), env, a))
      ensures r.Ok? ==> Now() == BuyEffect(old(Now()), env, a).value
    {
      var quoted := CheckBuy(env, a);
      if quoted.Err? { return Err(quoted.error); }
      var q := quoted.value;
      var out;
      r, out := Move(BuySwap(a, q), env.signers);
      if r.Err? { return; }
      log := log + [Executed(Buy, a.user, config.value.usdcMint, q.amountIn, out, q.fee, a.venue.program)];
    }

    /** Every check of execute_sell before the first transfer. */
    method CheckSell(env: Env, a: SellArgs) returns (r: Result<Quote>)
      ensures r == SellQuote(Now(), env, a)
    {
      var l := bank.balances;
      :- Need(a.keeper in env.signers, MissingSigner);
      :- Need(config.Some? && feeConfig.Some? && a.user in plans, NotInitialized);
      :- Need(a.transientTarget in l && a.userTargetAta in l && a.destUsdc in l && a.feeAta in l, NotInitialized);
      var cfg, plan := config.value, plans[a.user];
      :- Need(!cfg.paused, Paused);
      :- Need(plan.nextDueTs <= plan.endTs, PlanCompleted);
      :- Need(env.now >= plan.nextDueTs, NotDue);
      :- Need(a.destUsdc == Ata(a.user, cfg.usdcMint), DestinationNotOwner);
      :- Need(a.transientTarget == Ata(BuyAuthority(a.user), cfg.targetMint), BadTransient);
      :- Need(a.userTargetAta == Ata(a.user, cfg.targetMint), BadPotAccount);
      var amountIn := l[a.transientTarget];
      :- Need(amountIn > 0, NothingPulled);
      var wallet: int := l[a.userTargetAta];
      var totalPot: int := wallet + amountIn;
      var periods :- RemainingPeriods(plan, env.now);
      var cap := totalPot / periods;
      :- Need(amountIn <= cap, OverdrawSchedule);
      var listed :- IsWhitelisted(cfg, a.venue.program);
      :- Need(listed, VenueNotWhitelisted);
      var split :- FeeSplit(amountIn, feeConfig.value.feeBps);
      :- Need(split.net > 0, NothingPulled);
      :- Need(a.feeAta == Ata(feeConfig.value.destination, cfg.targetMint), BadFeeAccount);
      :- Need(cfg.priceRefMicros > 0, FloorNotConfigured);
      var floor :- SellFloor(split.net, cfg.priceRefMicros, cfg.targetDecimals, cfg.maxSlippageBps);
      :- Need(a.minOut >= floor, MinOutTooLow);
      return Ok(Quote(amountIn, split.fee, split.net));
    }

    method ExecuteSell(env: Env, a: SellArgs) returns (r: Result<()>)
      modifies this, bank
      ensures Agrees(r, SellEffect(old(Now()), env, a))
      ensures r.Ok? ==> Now() == SellEffect(old(Now()), env, a).value
    {
      var quoted := CheckSell(env, a);
      if quoted.Err? { return Err(quoted.error); }
      var q := quoted.value;
      var out;
      r, out := Move(SellSwap(a, q), env.signers);
      if r.Err? { return; }
      var plan := new PlanAccount.Load(plans[a.user]);
      r := plan.Advance(env.now);
      if r.Err? { return; }
      plans := plans[a.user := plan.Data()];
      log := log + [Executed(Sell, a.user, config.value.targetMint, q.amountIn, out, q.fee, a.venue.program)];
    }

    method Execute(env: Env, ix: Instruction) returns (r: Result<()>)
      modifies this, bank
      ensures Agrees(r, Step(old(Now()), env, ix))
      ensures r.Ok? ==> Now() == Step(old(Now()), env, ix).value
    {
      match ix
      case InitConfig(admin, target, usdc, venues, price, slippage) =>
        r := InitConfig(env, admin, target, usdc, venues, price, slippage);
      case SetPause(admin, paused) => r := SetPause(env, admin, paused);
      case SetParams(admin, price, slippage) => r := SetParams(env, admin, price, slippage);
      case InitFeeConfig(admin, feeBps, destination) => r := InitFeeConfig(env, admin, feeBps, destination);
      case SetFee(admin, feeBps, destination) => r := SetFee(env, admin, feeBps, destination);
      case SetWhitelist(admin, venues) => r := SetWhitelist(env, admin, venues);
      case OpenSellPlan(user, endTs, periodSecs) => r := OpenSellPlan(env, user, endTs, periodSecs);
      case CloseSellPlan(user) => r := CloseSellPlan(env, user);
      case ExecuteBuy(a) => r := ExecuteBuy(env, a);
      case ExecuteSell(a) => r := ExecuteSell(env, a);
      case CreateAta(owner, mint) =>
        if Ata(owner, mint) !in bank.balances { bank.balances := bank.balances[Ata(owner, mint) := 0]; }
        r := Ok(());
      case Pull(delegator, mint, amount) =>
        if !delegator.Raw? { return Err(Privilege); }
        r := bank.Send(PullOp(delegator, mint, amount));
      case TokenTransfer(op) =>
        if op.authority !in env.signers { return Err(MissingSigner); }
        r := bank.Send(op);
    }

    /** A transaction: run its instructions in order; if one fails, restore everything. */
    method Submit(tx: Tx) returns (r: Result<()>)
      modifies this, bank
      ensures Agrees(r, StepAll(old(Now()), tx.env, tx.ixs))
      ensures Now() == Commit(old(Now()), tx)
    {
      var saved := Now();
      ghost var spec := StepAll(saved, tx.env, tx.ixs);
      assert tx.ixs[0..] == tx.ixs;
      for i := 0 to |tx.ixs|
        invariant StepAll(Now(), tx.env, tx.ixs[i..]) == spec
      {
        assert tx.ixs[i..][0] == tx.ixs[i] && tx.ixs[i..][1..] == tx.ixs[i + 1..];
        r := Execute(tx.env, tx.ixs[i]);
        if r.Err? {
          bank.balances := saved.ledger;
          config, feeConfig, plans, log := saved.config, saved.feeConfig, saved.plans, saved.log;
          return;
        }
      }
      r := Ok(());
    }
  }
}
