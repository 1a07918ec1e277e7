// The router's accounts and instructions as functions on values. Router.dfy holds the
// handlers themselves, which are proved against these functions.
module Program {
  import opened Machine
  import opened Ledger
  import opened Schedule
  import opened Fees
  import opened Floors

  const MAX_SWAP_PROGRAMS: nat := 3

  datatype Config = Config(
    admin: Key,
    targetMint: Key,
    usdcMint: Key,
    swapPrograms: seq<Key>,
    swapProgramCount: U8,
    priceRefMicros: U64,
    targetDecimals: U8,
    maxSlippageBps: U16,
    paused: bool)

  datatype FeeConfig = FeeConfig(feeBps: U16, destination: Key)

  /** What a successful execution emits. */
  datatype Executed = Executed(
    side: Side, user: Key, mint: Key, amountIn: U64, amountOut: U64, fee: U64, venue: Key)

  datatype State = State(
    ledger: Balances,
    config: Option<Config>,
    feeConfig: Option<FeeConfig>,
    plans: map<Key, SellPlan>,
    log: seq<Executed>)

  /** What a transaction gives every instruction: the clock and who signed. */
  datatype Env = Env(now: I64, signers: Signers)

  datatype Mint = Mint(key: Key, decimals: U8)

  datatype BuyArgs = BuyArgs(
    keeper: Key, user: Key, transientUsdc: Key, destAta: Key, feeAta: Key, venue: VenueCall, minOut: U64)

  datatype SellArgs = SellArgs(
    keeper: Key, user: Key, transientTarget: Key, userTargetAta: Key, destUsdc: Key, feeAta: Key,
    venue: VenueCall, minOut: U64)

  datatype Instruction =
    | InitConfig(admin: Key, targetMint: Mint, usdcMint: Mint, venues: seq<Key>, price: U64, slippage: U16)
    | SetPause(admin: Key, paused: bool)
    | SetParams(admin: Key, price: U64, slippage: U16)
    | InitFeeConfig(admin: Key, feeBps: U16, destination: Key)
    | SetFee(admin: Key, feeBps: U16, destination: Key)
    | SetWhitelist(admin: Key, venues: seq<Key>)
    | OpenSellPlan(user: Key, endTs: I64, periodSecs: I64)
    | CloseSellPlan(user: Key)
    | ExecuteBuy(buy: BuyArgs)
    | ExecuteSell(sell: SellArgs)
    | CreateAta(owner: Key, mint: Key)                        // associated-token program, idempotent
    | Pull(delegator: Key, mint: Key, amount: U64)            // native subscription: wallet to transient
    | TokenTransfer(op: TransferOp)                           // an ordinary transfer by a signer

  // ---- Whitelist ----

  /** The fixed-size whitelist: the given programs, then default keys. */
  function Padded(venues: seq<Key>): (s: seq<Key>)
    requires |venues| <= MAX_SWAP_PROGRAMS
    ensures |s| == MAX_SWAP_PROGRAMS
  {
    venues + [DEFAULT_KEY, DEFAULT_KEY, DEFAULT_KEY][|venues|..]
  }

  /** Membership in the used part of the whitelist; slicing past the end panics. */
  function IsWhitelisted(cfg: Config, program: Key): Result<bool> {
    if cfg.swapProgramCount > |cfg.swapPrograms| then Err(Panic) else
    Ok(program in cfg.swapPrograms[..cfg.swapProgramCount])
  }

  // ---- Administration ----

  function NewConfig(admin: Key, targetMint: Mint, usdcMint: Mint, venues: seq<Key>, price: U64, slippage: U16)
    : Result<Config>
  {
    if |venues| > MAX_SWAP_PROGRAMS then Err(TooManyVenues) else
    :- Need(slippage <= BPS, BadParam);
    :- Need(targetMint.decimals <= MAX_DECIMALS, BadParam);
    :- Need(usdcMint.decimals == 6, BadParam);
    Ok(Config(admin, targetMint.key, usdcMint.key, Padded(venues), |venues|, price,
              targetMint.decimals, slippage, false))
  }

  function WithParams(cfg: Config, price: U64, slippage: U16): Result<Config> {
    if slippage > BPS then Err(BadParam) else
    Ok(cfg.(priceRefMicros := price, maxSlippageBps := slippage))
  }

  function WithWhitelist(cfg: Config, venues: seq<Key>): Result<Config> {
    if |venues| > MAX_SWAP_PROGRAMS then Err(TooManyVenues) else
    Ok(cfg.(swapPrograms := Padded(venues), swapProgramCount := |venues|))
  }

  function NewFee(feeBps: U16, destination: Key): Result<FeeConfig> {
    if feeBps > MAX_FEE_BPS then Err(FeeTooHigh) else
    Ok(FeeConfig(feeBps, destination))
  }

  /** The admin-only account constraints: the signer is the config's admin. */
  function AdminConfig(s: State, env: Env, admin: Key): Result<Config> {
    if admin !in env.signers then Err(MissingSigner) else
    :- Need(s.config.Some?, NotInitialized);
    :- Need(s.config.value.admin == admin, WrongAdmin);
    Ok(s.config.value)
  }

  // ---- Executions ----

  /** What every check before the first transfer settles. */
  datatype Quote = Quote(amountIn: U64, fee: U64, net: U64)

  function InputFloor(
      side: Side, cfg: Config, feeCfg: FeeConfig, amountIn: U64, inputMint: Key, feeAta: Key, minOut: U64)
    : Result<Quote>
  {
    var split :- FeeSplit(amountIn, feeCfg.feeBps);
    :- Need(split.net > 0, NothingPulled);
    :- Need(feeAta == Ata(feeCfg.destination, inputMint), BadFeeAccount);
    :- Need(cfg.priceRefMicros > 0, FloorNotConfigured);
    var floor :- Floor(side, split.net, cfg.priceRefMicros, cfg.targetDecimals, cfg.maxSlippageBps);
    :- Need(minOut >= floor, MinOutTooLow);
    Ok(Quote(amountIn, split.fee, split.net))
  }

  function BuyQuote(s: State, env: Env, a: BuyArgs): (r: Result<Quote>)
    ensures r.Ok? ==> s.config.Some? && a.transientUsdc in s.ledger && a.destAta in s.ledger
  {
    if a.keeper !in env.signers then Err(MissingSigner) else
    :- Need(s.config.Some? && s.feeConfig.Some?, NotInitialized);
    :- Need(a.transientUsdc in s.ledger && a.destAta in s.ledger && a.feeAta in s.ledger, NotInitialized);
    :- Need(a.transientUsdc.TokenAccount? && a.destAta.TokenAccount?, NotInitialized);
    var cfg := s.config.value;
    :- Need(!cfg.paused, Paused);
    :- Need(a.destAta.mint == cfg.targetMint, WrongTargetMint);
    :- Need(a.destAta == Ata(a.user, cfg.targetMint), DestinationNotOwner);
    :- Need(a.transientUsdc == Ata(BuyAuthority(a.user), cfg.usdcMint), BadTransient);
    var amountIn := s.ledger[a.transientUsdc];
    :- Need(amountIn > 0, NothingPulled);
    var listed :- IsWhitelisted(cfg, a.venue.program);
    :- Need(listed, VenueNotWhitelisted);
    InputFloor(Buy, cfg, s.feeConfig.value, amountIn, cfg.usdcMint, a.feeAta, a.minOut)
  }

  /** The amortization cap: the pot is the wallet plus what was pulled out of it. */
  function DrawWithinCap(plan: SellPlan, now: I64, wallet: U64, amountIn: U64): Result<()> {
    var periods :- RemainingPeriods(plan, now);
    var cap :- CheckedDiv(wallet + amountIn, periods);
    :- Need(amountIn <= cap, OverdrawSchedule);
    Ok(())
  }

  function SellQuote(s: State, env: Env, a: SellArgs): (r: Result<Quote>)
    ensures r.Ok? ==> s.config.Some? && a.user in s.plans && a.transientTarget in s.ledger && a.destUsdc in s.ledger
  {
    if a.keeper !in env.signers then Err(MissingSigner) else
    :- Need(s.config.Some? && s.feeConfig.Some? && a.user in s.plans, NotInitialized);
    :- Need(a.transientTarget in s.ledger && a.userTargetAta in s.ledger && a.destUsdc in s.ledger
            && a.feeAta in s.ledger, NotInitialized);
    var cfg, plan := s.config.value, s.plans[a.user];
    :- Need(!cfg.paused, Paused);
    :- Need(plan.nextDueTs <= plan.endTs, PlanCompleted);
    :- Need(env.now >= plan.nextDueTs, NotDue);
    :- Need(a.destUsdc == Ata(a.user, cfg.usdcMint), DestinationNotOwner);
    :- Need(a.transientTarget == Ata(BuyAuthority(a.user), cfg.targetMint), BadTransient);
    :- Need(a.userTargetAta == Ata(a.user, cfg.targetMint), BadPotAccount);
    var amountIn := s.ledger[a.transientTarget];
    :- Need(amountIn > 0, NothingPulled);
    var _ :- DrawWithinCap(plan, env.now, s.ledger[a.userTargetAta], amountIn);
    var listed :- IsWhitelisted(cfg, a.venue.program);
    :- Need(listed, VenueNotWhitelisted);
    InputFloor(Sell, cfg, s.feeConfig.value, amountIn, cfg.targetMint, a.feeAta, a.minOut)
  }

  /** The movement both executions share: the accounts and amounts, once the checks have passed. */
  datatype Swap = Swap(user: Key, transient: Key, feeAta: Key, dest: Key, fee: U64, venue: VenueCall, minOut: U64)

  datatype Delivery = Delivery(ledger: Balances, out: U64)

  function Skim(l: Balances, w: Swap): (r: Result<Balances>)
    ensures r.Ok? ==> r.value.Keys == l.Keys
  {
    if w.fee > 0 then Transfer(l, TransferOp(w.transient, w.feeAta, BuyAuthority(w.user), w.fee)) else Ok(l)
  }

  function RunVenue(l: Balances, w: Swap, signers: Signers): (r: Result<Balances>)
    ensures r.Ok? ==> r.value.Keys == l.Keys
  {
    RunOps(l, w.venue.ops, ForwardedSigners(w.venue.remaining, signers, BuyAuthority(w.user)),
           WritableKeys(w.venue.remaining), w.venue.program)
  }

  /** Skim the fee, run the venue, then judge only the outcome. */
  function SkimAndSwap(l: Balances, w: Swap, signers: Signers): Result<Delivery>
    requires w.transient in l && w.dest in l
  {
    var skimmed :- Skim(l, w);
    var done :- RunVenue(skimmed, w, signers);
    :- Need(done[w.transient] == 0, TransientNotDrained);
    :- Need(done[w.dest] >= l[w.dest], Overflow);
    :- Need(done[w.dest] - l[w.dest] >= w.minOut, SlippageExceeded);
    Ok(Delivery(done, done[w.dest] - l[w.dest]))
  }

  function BuySwap(a: BuyArgs, q: Quote): Swap {
    Swap(a.user, a.transientUsdc, a.feeAta, a.destAta, q.fee, a.venue, a.minOut)
  }

  function SellSwap(a: SellArgs, q: Quote): Swap {
    Swap(a.user, a.transientTarget, a.feeAta, a.destUsdc, q.fee, a.venue, a.minOut)
  }

  function BuyEffect(s: State, env: Env, a: BuyArgs): Result<State> {
    var q :- BuyQuote(s, env, a);
    var d :- SkimAndSwap(s.ledger, BuySwap(a, q), env.signers);
    Ok(s.(ledger := d.ledger,
          log := s.log + [Executed(Buy, a.user, s.config.value.usdcMint, q.amountIn, d.out, q.fee, a.venue.program)]))
  }

  function SellEffect(s: State, env: Env, a: SellArgs): Result<State> {
    var q :- SellQuote(s, env, a);
    var d :- SkimAndSwap(s.ledger, SellSwap(a, q), env.signers);
    var gate :- NextGate(s.plans[a.user], env.now);
    Ok(s.(ledger := d.ledger,
          plans := s.plans[a.user := s.plans[a.user].(nextDueTs := gate)],
          log := s.log + [Executed(Sell, a.user, s.config.value.targetMint, q.amountIn, d.out, q.fee,
                                   a.venue.program)]))
  }

  // ---- One instruction, one transaction ----

  /** The native pull moves part of the delegator's wallet into their transient for that mint. */
  function PullOp(delegator: Key, mint: Key, amount: U64): TransferOp {
    TransferOp(Ata(delegator, mint), Ata(BuyAuthority(delegator), mint), delegator, amount)
  }

  function Step(s: State, env: Env, ix: Instruction): Result<State> {
    match ix
    case InitConfig(admin, targetMint, usdcMint, venues, price, slippage) =>
      :- Need(admin in env.signers, MissingSigner);
      :- Need(s.config.None?, AlreadyInUse);
      var cfg :- NewConfig(admin, targetMint, usdcMint, venues, price, slippage);
      Ok(s.(config := Some(cfg)))
    case SetPause(admin, paused) =>
      var cfg :- AdminConfig(s, env, admin);
      Ok(s.(config := Some(cfg.(paused := paused))))
    case SetParams(admin, price, slippage) =>
      var cfg :- AdminConfig(s, env, admin);
      var next :- WithParams(cfg, price, slippage);
      Ok(s.(config := Some(next)))
    case InitFeeConfig(admin, feeBps, destination) =>
      var _ :- AdminConfig(s, env, admin);
      :- Need(s.feeConfig.None?, AlreadyInUse);
      var fc :- NewFee(feeBps, destination);
      Ok(s.(feeConfig := Some(fc)))
    case SetFee(admin, feeBps, destination) =>
      :- Need(admin in env.signers, MissingSigner);
      :- Need(s.feeConfig.Some?, NotInitialized);
      var _ :- AdminConfig(s, env, admin);
      var fc :- NewFee(feeBps, destination);
      Ok(s.(feeConfig := Some(fc)))
    case SetWhitelist(admin, venues) =>
      var cfg :- AdminConfig(s, env, admin);
      var next :- WithWhitelist(cfg, venues);
      Ok(s.(config := Some(next)))
    case OpenSellPlan(user, endTs, periodSecs) =>
      :- Need(user in env.signers, MissingSigner);
      :- Need(user !in s.plans, AlreadyInUse);
      var plan :- OpenPlan(user, env.now, endTs, periodSecs);
      Ok(s.(plans := s.plans[user := plan]))
    case CloseSellPlan(user) =>
      :- Need(user in env.signers, MissingSigner);
      :- Need(user in s.plans, NotInitialized);
      Ok(s.(plans := s.plans - {user}))
    case ExecuteBuy(a) => BuyEffect(s, env, a)
    case ExecuteSell(a) => SellEffect(s, env, a)
    case CreateAta(owner, mint) =>
      Ok(if Ata(owner, mint) in s.ledger then s else s.(ledger := s.ledger[Ata(owner, mint) := 0]))
    case Pull(delegator, mint, amount) =>
      :- Need(delegator.Raw?, Privilege);   // only a key pair can have signed a delegation
      var l :- Transfer(s.ledger, PullOp(delegator, mint, amount));
      Ok(s.(ledger := l))
    case TokenTransfer(op) =>
      :- Need(op.authority in env.signers, MissingSigner);
      var l :- Transfer(s.ledger, op);
      Ok(s.(ledger := l))
  }

  datatype Tx = Tx(env: Env, ixs: seq<Instruction>)

  function StepAll(s: State, env: Env, ixs: seq<Instruction>): Result<State>
    decreases |ixs|
  {
    if ixs == [] then Ok(s) else
    var next :- Step(s, env, ixs[0]);
    StepAll(next, env, ixs[1..])
  }

  /** A transaction commits all of its instructions or none of them. */
  function Commit(s: State, tx: Tx): State {
    var r := StepAll(s, tx.env, tx.ixs);
    if r.Ok? then r.value else s
  }

  function Run(s: State, txs: seq<Tx>): State
    decreases |txs|
  {
    if txs == [] then s else Run(Commit(s, txs[0]), txs[1..])
  }

  /** A deployment before any instruction: only token balances. */
  function Genesis(l: Balances): State { State(l, None, None, map[], []) }
}
