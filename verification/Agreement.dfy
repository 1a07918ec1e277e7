// The daemon's transactions against the program's checks: which of them go through, and what they do.
module Agreement {
  import opened Machine
  import opened Ledger
  import opened Schedule
  import opened Fees
  import opened Floors
  import opened Program
  import opened Executions
  import opened MockVenue
  import opened Keeper
  import Rounding

  // ---- Amounts ----

  const DOLLAR: U64 := 1_000_000

  /** The daemon's one-line floor is the program's floor, on either side, at the one-dollar reference. */
  lemma FloorOutIsFloor(side: Side, net: U64, slippage: U16)
    requires slippage <= BPS
    ensures Sane(DOLLAR, 6, slippage) && 0 <= FloorOut(net, slippage) <= net
    ensures FloorOut(net, slippage) == Exact(side, net, DOLLAR, 6, slippage)
    ensures Floor(side, net, DOLLAR, 6, slippage) == Ok(FloorOut(net, slippage))
  {
    Pow10Values();
    Rounding.DivUnique(net * 1_000_000, 1_000_000, net);
    Rounding.MulMono(0, net, BPS - slippage);
    Rounding.MulMono(BPS - slippage, BPS, net);
    Rounding.DivMono(net * (BPS - slippage), net * BPS, BPS);
    Rounding.DivUnique(net * BPS, BPS, net);
    Rounding.LeDiv(0, net * (BPS - slippage), BPS);
    FitsFloor(side, net, DOLLAR, 6, slippage);
  }

  lemma FeeOnIs(amountIn: U64, fee: FeeView)
    requires fee.bps <= MAX_FEE_BPS && 0 < amountIn
    ensures FeeOn(amountIn, fee) + NetOf(amountIn, fee.bps) == amountIn && 0 < NetOf(amountIn, fee.bps)
  {
    FeeWithinCap(amountIn, fee.bps);
  }

  /** The daemon splits an amount exactly as the program will. */
  lemma LegAmounts(f: Fixture, side: Side, keeper: Key, user: Key, fee: FeeView, amountIn: U64)
    requires fee.bps <= MAX_FEE_BPS && f.slippageBps <= BPS && 0 < amountIn
    ensures var m := Leg(f, side, keeper, user, fee, amountIn);
            m.net == NetOf(amountIn, fee.bps) && m.fee + m.net == amountIn && 0 < m.net
            && Sane(DOLLAR, 6, f.slippageBps)
            && m.minOut == Exact(side, m.net, DOLLAR, 6, f.slippageBps) && m.minOut <= m.net
  {
    var net := NetOf(amountIn, fee.bps);
    FeeOnIs(amountIn, fee);
    LegFields(f, side, keeper, user, fee, amountIn);
    FloorOutIsFloor(side, net, f.slippageBps);
    EncodeSmall(amountIn - net);
    EncodeSmall(net);
    EncodeSmall(FloorOut(net, f.slippageBps));
  }

  lemma LegFields(f: Fixture, side: Side, keeper: Key, user: Key, fee: FeeView, amountIn: nat)
    ensures var m, net := Leg(f, side, keeper, user, fee, amountIn), amountIn - FeeOn(amountIn, fee);
            m.fee == Encode(FeeOn(amountIn, fee)) && m.net == Encode(net)
            && m.minOut == Encode(FloorOut(net, f.slippageBps))
  {
  }

  lemma EncodeSmall(x: U64)
    ensures Encode(x) == x
  {
  }

  /** Beyond eight bytes an amount is encoded as another one, a whole number of laps away. */
  lemma EncodeWraps(x: int)
    ensures Encode(x) == Encode(x + U64_LIMIT)
  {
  }

  // ---- The deployment the daemon runs against ----

  /** Unpaused, mock venue whitelisted, one-dollar reference with six decimals, the daemon's slippage and
      fee view current, pools in place, two different mints. */
  ghost predicate Deployed(s: State, f: Fixture, fee: FeeView) {
    Inv(s) && SupplyFits(s.ledger) && s.config.Some?
    && fee.destination.Some? && s.feeConfig == Some(FeeConfig(fee.bps, fee.destination.value))
    && (var cfg := s.config.value;
        cfg.targetMint == f.targetMint && cfg.usdcMint == f.usdcMint && f.targetMint != f.usdcMint
        && !cfg.paused && cfg.priceRefMicros == DOLLAR && cfg.targetDecimals == 6
        && cfg.maxSlippageBps == f.slippageBps && Listed(cfg, f.mockSwap))
    && PoolReady(s.ledger, f.poolUsdc, f.usdcMint, f) && PoolReady(s.ledger, f.poolTarget, f.targetMint, f)
  }

  ghost predicate PoolReady(l: Balances, pool: Key, mint: Key, f: Fixture) {
    pool in l && pool.TokenAccount? && pool.mint == mint && pool.authority == Pda(f.mockSwap, f.poolSeed)
  }

  /** The accounts of one execution are in place and its input is in the transient. */
  ghost predicate Staged(s: State, f: Fixture, fee: FeeView, m: MockSwap, side: Side, keeper: Key, amountIn: U64) {
    Deployed(s, f, fee) && keeper.Raw? && m.user.Raw? && m == Leg(f, side, keeper, m.user, fee, amountIn)
    && m.Transient() in s.ledger && m.Dest() in s.ledger && m.feeAta in s.ledger
    && 0 < amountIn && s.ledger[m.Transient()] == amountIn && m.poolOut in s.ledger
  }

  lemma StagedReady(s: State, f: Fixture, fee: FeeView, m: MockSwap, side: Side, keeper: Key, amountIn: U64)
    requires Staged(s, f, fee, m, side, keeper, amountIn)
    ensures m.Placed(s.ledger) && m.net == NetOf(amountIn, fee.bps)
    ensures Payable(s, amountIn, m.inMint, m.feeAta, m.program)
    ensures FloorComputes(side, s, amountIn) && FloorMet(side, s, amountIn, m.minOut)
  {
    LegAmounts(f, side, keeper, m.user, fee, amountIn);
    CutFits(side, m.net, DOLLAR, 6, f.slippageBps);
  }

  // ---- Execution, once staged ----

  function SellArgsOf(keeper: Key, m: MockSwap): SellArgs { SellInstruction(keeper, m).sell }

  /** The plan is due and its user's wallet exists. */
  ghost predicate Due(s: State, m: MockSwap, now: I64) {
    m.user in s.plans && Ata(m.user, m.inMint) in s.ledger
    && s.plans[m.user].nextDueTs <= s.plans[m.user].endTs && s.plans[m.user].nextDueTs <= now
  }

  ghost predicate WithinCap(s: State, m: MockSwap, now: I64) {
    m.user in s.plans && 0 < s.plans[m.user].periodSecs
    && DrawAllowed(s.plans[m.user], now, Bal(s.ledger, Ata(m.user, m.inMint)), Bal(s.ledger, m.Transient()))
  }

  lemma SellQuoted(s: State, f: Fixture, fee: FeeView, m: MockSwap, keeper: Key, amountIn: U64, env: Env)
    requires Staged(s, f, fee, m, Sell, keeper, amountIn) && Due(s, m, env.now) && keeper in env.signers
    requires 0 <= env.now
    ensures SellQuote(s, env, SellArgsOf(keeper, m)) ==
            if WithinCap(s, m, env.now) then Ok(Quote(amountIn, m.fee, m.net)) else Err(OverdrawSchedule)
  {
    StagedReady(s, f, fee, m, Sell, keeper, amountIn);
    var a, plan := SellArgsOf(keeper, m), s.plans[m.user];
    assert PlanOk(m.user, plan);
    DrawIff(plan, env.now, s.ledger[a.userTargetAta], amountIn);
    if WithinCap(s, m, env.now) {
      SellQuoteIff(s, env, a);
      LegAmounts(f, Sell, keeper, m.user, fee, amountIn);
    }
  }

  /** What a served crank leaves: balances moved by the swap, the gate one interval on, a log entry. */
  ghost predicate Served(s: State, m: MockSwap, now: I64, t: State) {
    Swapped(m, s.ledger, t.ledger) && m.user in s.plans
    && NextGate(s.plans[m.user], now).Ok?
    && t == s.(ledger := t.ledger, log := t.log,
               plans := s.plans[m.user := s.plans[m.user].(nextDueTs := NextGate(s.plans[m.user], now).value)])
  }

  /** From the quote on, a sell is the shared movement and the gate. */
  lemma SellFromQuote(s: State, env: Env, a: SellArgs)
    requires SellQuote(s, env, a).Ok?
    requires SkimAndSwap(s.ledger, SellSwap(a, SellQuote(s, env, a).value), env.signers).Ok?
    requires NextGate(s.plans[a.user], env.now).Ok?
    ensures SellEffect(s, env, a).Ok?
    ensures var t := SellEffect(s, env, a).value;
            t == s.(ledger := SkimAndSwap(s.ledger, SellSwap(a, SellQuote(s, env, a).value), env.signers).value.ledger,
                    log := t.log,
                    plans := s.plans[a.user := s.plans[a.user].(nextDueTs := NextGate(s.plans[a.user], env.now).value)])
  {
  }

  lemma GateReady(s: State, user: Key, now: I64)
    requires Inv(s) && user in s.plans && s.plans[user].nextDueTs <= now && 0 <= now <= I64_MAX - MAX_PERIOD_SECS
    ensures NextGate(s.plans[user], now).Ok?
  {
    assert PlanOk(user, s.plans[user]);
    GateSafe(s.plans[user], now);
  }

  /** A sell whose checks pass fails all the same if its movement does. */
  lemma SellStuck(s: State, env: Env, a: SellArgs, e: Error)
    requires SellQuote(s, env, a).Ok?
    requires SkimAndSwap(s.ledger, SellSwap(a, SellQuote(s, env, a).value), env.signers) == Err(e)
    ensures SellEffect(s, env, a) == Err(e)
  {
  }

  /** The pool can pay the net. */
  predicate Pays(s: State, m: MockSwap) { m.net <= Bal(s.ledger, m.poolOut) }

  lemma SellExecutes(s: State, f: Fixture, fee: FeeView, m: MockSwap, keeper: Key, amountIn: U64, env: Env)
    requires Staged(s, f, fee, m, Sell, keeper, amountIn) && Due(s, m, env.now) && keeper in env.signers
    requires 0 <= env.now <= I64_MAX - MAX_PERIOD_SECS
    ensures var r := SellEffect(s, env, SellArgsOf(keeper, m));
            if !WithinCap(s, m, env.now) then r == Err(OverdrawSchedule)
            else if !Pays(s, m) then r == Err(TokenError)
            else if !m.FeeLeaves() then r == Err(TransientNotDrained)
            else r.Ok? && Served(s, m, env.now, r.value)
  {
    SellQuoted(s, f, fee, m, keeper, amountIn, env);
    if WithinCap(s, m, env.now) {
      StagedReady(s, f, fee, m, Sell, keeper, amountIn);
      assert SellSwap(SellArgsOf(keeper, m), Quote(amountIn, m.fee, m.net)) == m.AsSwap();
      if !Pays(s, m) {
        DryPoolFails(m, s.ledger, env.signers);
        SellStuck(s, env, SellArgsOf(keeper, m), TokenError);
      } else if m.FeeLeaves() {
        SwapSucceeds(m, s.ledger, env.signers);
        GateReady(s, m.user, env.now);
        SellFromQuote(s, env, SellArgsOf(keeper, m));
      } else {
        SelfFeeLeavesResidue(m, s.ledger, env.signers);
        SellStuck(s, env, SellArgsOf(keeper, m), TransientNotDrained);
      }
    }
  }

  ghost predicate Bought(s: State, m: MockSwap, t: State) {
    Swapped(m, s.ledger, t.ledger) && t == s.(ledger := t.ledger, log := t.log)
  }

  lemma BuyQuoted(s: State, f: Fixture, fee: FeeView, m: MockSwap, keeper: Key, amountIn: U64, env: Env)
    requires Staged(s, f, fee, m, Buy, keeper, amountIn) && keeper in env.signers
    ensures BuyQuote(s, env, BuyInstruction(keeper, m).buy) == Ok(Quote(amountIn, m.fee, m.net))
  {
    StagedReady(s, f, fee, m, Buy, keeper, amountIn);
    BuyQuoteIff(s, env, BuyInstruction(keeper, m).buy);
    LegAmounts(f, Buy, keeper, m.user, fee, amountIn);
  }

  lemma BuyExecutes(s: State, f: Fixture, fee: FeeView, m: MockSwap, keeper: Key, amountIn: U64, env: Env)
    requires Staged(s, f, fee, m, Buy, keeper, amountIn) && keeper in env.signers
    ensures var r := BuyEffect(s, env, BuyInstruction(keeper, m).buy);
            if !Pays(s, m) then r == Err(TokenError)
            else if !m.FeeLeaves() then r == Err(TransientNotDrained)
            else r.Ok? && Bought(s, m, r.value)
  {
    BuyQuoted(s, f, fee, m, keeper, amountIn, env);
    StagedReady(s, f, fee, m, Buy, keeper, amountIn);
    assert BuySwap(BuyInstruction(keeper, m).buy, Quote(amountIn, m.fee, m.net)) == m.AsSwap();
    if !Pays(s, m) {
      DryPoolFails(m, s.ledger, env.signers);
    } else if m.FeeLeaves() {
      SwapSucceeds(m, s.ledger, env.signers);
    } else {
      SelfFeeLeavesResidue(m, s.ledger, env.signers);
    }
  }

  // ---- Staging: the instructions before the execution ----

  function OpenAta(s: State, k: Key): State {
    if k in s.ledger then s else s.(ledger := s.ledger[k := 0])
  }

  function AfterPrelude(s: State, m: MockSwap): State { OpenAta(OpenAta(s, m.Transient()), m.Dest()) }

  lemma OpenAtaKeeps(s: State, f: Fixture, fee: FeeView, k: Key)
    requires Deployed(s, f, fee)
    ensures Deployed(OpenAta(s, k), f, fee) && k in OpenAta(s, k).ledger && s.ledger.Keys <= OpenAta(s, k).ledger.Keys
    ensures forall j: Key :: Bal(OpenAta(s, k).ledger, j) == Bal(s.ledger, j)
  {
    if k !in s.ledger {
      var l := s.ledger[k := 0];
      forall mint: Key ensures Total(l, mint) < U64_LIMIT { OpeningConserves(s.ledger, k, mint); }
    }
  }

  lemma {:induction false} StepAllAppend(s: State, env: Env, first: seq<Instruction>, rest: seq<Instruction>)
    ensures StepAll(s, env, first + rest) ==
            var r := StepAll(s, env, first); if r.Ok? then StepAll(r.value, env, rest) else r
    decreases |first|
  {
    if first == [] {
      assert first + rest == rest;
    } else {
      assert (first + rest)[1..] == first[1..] + rest;
      var r := Step(s, env, first[0]);
      if r.Ok? { StepAllAppend(r.value, env, first[1..], rest); }
    }
  }

  lemma {:induction false} StepAllOne(s: State, env: Env, ix: Instruction)
    ensures StepAll(s, env, [ix]) == Step(s, env, ix)
  {
    assert [ix][1..] == [];
  }

  lemma {:induction false} PreludeRuns(s: State, env: Env, m: MockSwap, rest: seq<Instruction>)
    ensures StepAll(s, env, Prelude(m) + rest) == StepAll(AfterPrelude(s, m), env, rest)
  {
    var a, b := CreateAta(BuyAuthority(m.user), m.inMint), CreateAta(m.user, m.outMint);
    assert Prelude(m) == [a] + [b];
    StepAllAppend(s, env, Prelude(m), rest);
    StepAllAppend(s, env, [a], [b]);
    StepAllOne(s, env, a);
    StepAllOne(OpenAta(s, m.Transient()), env, b);
  }

  /** The state after `amount` has been pulled into an existing transient. */
  function AfterPull(s: State, user: Key, mint: Key, amount: U64): State {
    var r := Transfer(s.ledger, PullOp(user, mint, amount));
    if r.Ok? then s.(ledger := r.value) else s
  }

  lemma PullRuns(s: State, f: Fixture, fee: FeeView, env: Env, user: Key, mint: Key, amount: U64)
    requires Deployed(s, f, fee) && user.Raw?
    requires Ata(user, mint) in s.ledger && Ata(BuyAuthority(user), mint) in s.ledger
             && amount <= s.ledger[Ata(user, mint)]
    ensures Step(s, env, Pull(user, mint, amount)) == Ok(AfterPull(s, user, mint, amount))
    ensures Deployed(AfterPull(s, user, mint, amount), f, fee)
    ensures var l, l2 := s.ledger, AfterPull(s, user, mint, amount).ledger;
            l2.Keys == l.Keys
            && l2[Ata(user, mint)] == l[Ata(user, mint)] - amount
            && l2[Ata(BuyAuthority(user), mint)] == l[Ata(BuyAuthority(user), mint)] + amount
            && forall k <- l :: k !in {Ata(user, mint), Ata(BuyAuthority(user), mint)} ==> l2[k] == l[k]
  {
    TransferSucceeds(s.ledger, PullOp(user, mint, amount));
  }

  /** What the execution will find: both accounts open and the pull, if any, made. */
  function Stage(s: State, m: MockSwap, pull: U64): State {
    var ready := AfterPrelude(s, m);
    if pull > 0 then AfterPull(ready, m.user, m.inMint, pull) else ready
  }

  function Wallet(m: MockSwap): Key { Ata(m.user, m.inMint) }

  function StageIxs(m: MockSwap, pull: U64): seq<Instruction> {
    Prelude(m) + if pull > 0 then [Pull(m.user, m.inMint, pull)] else []
  }

  /** Staging keeps the deployment, opens the accounts, and moves just the pull. */
  ghost predicate StageKept(s: State, m: MockSwap, pull: U64, t: State) {
    t == s.(ledger := t.ledger) && s.ledger.Keys <= t.ledger.Keys
    && m.Transient() in t.ledger && m.Dest() in t.ledger
    && Bal(t.ledger, m.Transient()) == Bal(s.ledger, m.Transient()) + pull
    && Bal(t.ledger, Wallet(m)) == Bal(s.ledger, Wallet(m)) - pull
    && forall k: Key :: k !in {m.Transient(), Wallet(m)} ==> Bal(t.ledger, k) == Bal(s.ledger, k)
  }

  /** The prelude opens what is missing and moves nothing. */
  lemma PreludeKeeps(s: State, f: Fixture, fee: FeeView, m: MockSwap)
    requires Deployed(s, f, fee)
    ensures var t := AfterPrelude(s, m);
            Deployed(t, f, fee) && t == s.(ledger := t.ledger) && s.ledger.Keys <= t.ledger.Keys
            && m.Transient() in t.ledger && m.Dest() in t.ledger
            && forall k: Key :: Bal(t.ledger, k) == Bal(s.ledger, k)
  {
    OpenAtaKeeps(s, f, fee, m.Transient());
    OpenAtaKeeps(OpenAta(s, m.Transient()), f, fee, m.Dest());
  }

  lemma StageKeeps(s: State, f: Fixture, fee: FeeView, env: Env, m: MockSwap, pull: U64)
    requires Deployed(s, f, fee) && m.user.Raw? && Wallet(m) in s.ledger && pull <= s.ledger[Wallet(m)]
    ensures Deployed(Stage(s, m, pull), f, fee) && StageKept(s, m, pull, Stage(s, m, pull))
    ensures pull > 0 ==> Step(AfterPrelude(s, m), env, Pull(m.user, m.inMint, pull)) == Ok(Stage(s, m, pull))
  {
    PreludeKeeps(s, f, fee, m);
    var ready := AfterPrelude(s, m);
    if pull > 0 {
      assert ready.ledger[Wallet(m)] == Bal(ready.ledger, Wallet(m)) == s.ledger[Wallet(m)];
      PullRuns(ready, f, fee, env, m.user, m.inMint, pull);
    }
  }

  lemma {:induction false} StageRuns(s: State, f: Fixture, fee: FeeView, env: Env, m: MockSwap, pull: U64)
    requires Deployed(s, f, fee) && m.user.Raw? && Wallet(m) in s.ledger && pull <= s.ledger[Wallet(m)]
    ensures StepAll(s, env, StageIxs(m, pull)) == Ok(Stage(s, m, pull))
  {
    StageKeeps(s, f, fee, env, m, pull);
    PreludeRuns(s, env, m, if pull > 0 then [Pull(m.user, m.inMint, pull)] else []);
    if pull > 0 {
      StepAllOne(AfterPrelude(s, m), env, Pull(m.user, m.inMint, pull));
    }
  }

  lemma {:induction false} StagedThen(s: State, env: Env, first: seq<Instruction>, t: State, last: Instruction)
    requires StepAll(s, env, first) == Ok(t)
    ensures StepAll(s, env, first + [last]) == Step(t, env, last)
  {
    StepAllAppend(s, env, first, [last]);
    StepAllOne(t, env, last);
  }

  /** The money moved by a committed crank, pull included: the transient is empty, the net was delivered
      and came out of the pool, the wallet gave the pull, and only the fee and the input pool otherwise moved. */
  ghost predicate MoneyMoved(s: State, m: MockSwap, pull: U64, t: State) {
    s.ledger.Keys <= t.ledger.Keys && SupplyFits(t.ledger)
    && Bal(t.ledger, m.Transient()) == 0
    && Bal(t.ledger, m.Dest()) == Bal(s.ledger, m.Dest()) + m.net
    && Bal(t.ledger, m.poolOut) == Bal(s.ledger, m.poolOut) - m.net
    && (m.feeAta != Wallet(m) ==> Bal(t.ledger, Wallet(m)) == Bal(s.ledger, Wallet(m)) - pull)
    && forall k: Key :: k !in {m.Transient(), Wallet(m), m.feeAta, m.poolIn, m.poolOut, m.Dest()} ==>
         Bal(t.ledger, k) == Bal(s.ledger, k)
  }

  lemma MoneyOf(s: State, m: MockSwap, pull: U64, staged: State, t: State)
    requires StageKept(s, m, pull, staged) && Swapped(m, staged.ledger, t.ledger)
    requires m.user.Raw? && m.inMint != m.outMint && m.poolOut.TokenAccount? && m.poolOut.authority == m.PoolAuthority()
    requires m.poolIn.TokenAccount? && m.poolIn.authority == m.PoolAuthority() && m.poolIn in s.ledger
    requires Wallet(m) in s.ledger
    ensures MoneyMoved(s, m, pull, t)
  {
    forall k: Key | k !in {m.Transient(), Wallet(m), m.feeAta, m.poolIn, m.poolOut, m.Dest()}
      ensures Bal(t.ledger, k) == Bal(s.ledger, k)
    {
      assert Bal(staged.ledger, k) == Bal(s.ledger, k);
    }
    assert m.poolOut !in {m.Transient(), Wallet(m)};
    assert m.Dest() !in {m.Transient(), Wallet(m)};
  }

  // ---- The daemon's sell ----

  /** The fee account exists, or is the user's transient, which the daemon opens. */
  predicate FeeAccountReady(s: State, mint: Key, fee: FeeView, user: Key) {
    fee.destination.Some?
    && (fee.destination.value == BuyAuthority(user) || Ata(fee.destination.value, mint) in s.ledger)
  }

  /** The user, their plan and their accounts, as the daemon found them. */
  ghost predicate SellTarget(s: State, f: Fixture, fee: FeeView, keeper: Key, user: Key, now: I64) {
    Deployed(s, f, fee) && keeper.Raw? && user.Raw?
    && Ata(user, f.targetMint) in s.ledger && FeeAccountReady(s, f.targetMint, fee, user)
    && user in s.plans && s.plans[user].nextDueTs <= s.plans[user].endTs && s.plans[user].nextDueTs <= now
  }

  function Residue(s: State, f: Fixture, user: Key): U64 { Bal(s.ledger, Ata(BuyAuthority(user), f.targetMint)) }

  function WalletOf(s: State, f: Fixture, user: Key): U64 { Bal(s.ledger, Ata(user, f.targetMint)) }

  ghost function PullNow(s: State, f: Fixture, user: Key, now: I64, avail: U64): (pull: U64)
    requires Inv(s) && user in s.plans && 0 <= now
    ensures pull <= WalletOf(s, f, user) && pull <= avail
  {
    assert PlanOk(user, s.plans[user]);
    CapsAgree(s.plans[user], now, WalletOf(s, f, user), Residue(s, f, user));
    DaemonPull(s.plans[user], now, WalletOf(s, f, user), Residue(s, f, user), avail)
  }

  ghost function SellLeg(s: State, f: Fixture, fee: FeeView, keeper: Key, user: Key, now: I64, avail: U64): MockSwap
    requires Inv(s) && user in s.plans && 0 <= now
  {
    Leg(f, Sell, keeper, user, fee, PullNow(s, f, user, now, avail) + Residue(s, f, user))
  }

  /** What crankSell composes, in terms of the pull it settles on. */
  lemma CrankSellComposes(f: Fixture, keeper: Key, user: Key, fee: FeeView, plan: SellPlan, now: int,
                          pot: U64, residue: U64, avail: U64)
    requires 0 < plan.periodSecs && plan.nextDueTs <= plan.endTs && plan.nextDueTs <= now
    requires 0 < DaemonPull(plan, now, pot, residue, avail) + residue
    ensures DaemonPull(plan, now, pot, residue, avail) <= avail
    ensures var pull := DaemonPull(plan, now, pot, residue, avail);
            var m := Leg(f, Sell, keeper, user, fee, pull + residue);
            CrankSellSpec(f, keeper, user, fee, Some(plan), now, pot, residue, avail)
            == Send(StageIxs(m, pull) + [SellInstruction(keeper, m)])
  {
    var pull := DaemonPull(plan, now, pot, residue, avail);
    assert Encode(pull) == pull;
  }

  /** The amount that will be in the transient fits, because a mint's supply does. */
  lemma SellAmountFits(s: State, f: Fixture, user: Key, pull: nat)
    requires SupplyFits(s.ledger) && user.Raw? && Ata(user, f.targetMint) in s.ledger
    requires pull <= WalletOf(s, f, user)
    ensures pull + Residue(s, f, user) < U64_LIMIT
  {
    var w, t := Ata(user, f.targetMint), Ata(BuyAuthority(user), f.targetMint);
    if t in s.ledger { PairWithinTotal(s.ledger, w, t, f.targetMint); }
  }

  /** The program's cap lets the daemon's amount through exactly when the residue alone is within it. */
  lemma DaemonPullAllowedIff(plan: SellPlan, now: I64, at: I64, wallet: U64, residue: U64, avail: U64)
    requires 0 < plan.periodSecs && plan.endTs - now <= I64_MAX && now <= at
    ensures var pull := DaemonPull(plan, now, wallet, residue, avail);
            DrawAllowed(plan, at, wallet - pull, pull + residue) <==> residue <= OnChainCap(plan, at, wallet + residue)
  {
    var pull := DaemonPull(plan, now, wallet, residue, avail);
    CapsAgree(plan, now, wallet, residue);
    CapGrows(plan, now, at, wallet + residue);
    PeriodsExact(plan, at);
    Rounding.LeDiv(pull + residue, wallet + residue, RemainingPeriods(plan, at).value);
    assert pull + residue <= OnChainCap(plan, at, wallet + residue) <==>
           residue <= OnChainCap(plan, at, wallet + residue);
  }

  /** The residue the daemon found is within the program's cap at this clock. */
  ghost predicate ResidueWithinCap(s: State, f: Fixture, user: Key, at: I64) {
    user in s.plans && 0 < s.plans[user].periodSecs && s.plans[user].endTs - at <= I64_MAX
    && Residue(s, f, user) <= OnChainCap(s.plans[user], at, WalletOf(s, f, user) + Residue(s, f, user))
  }

  /** What a committed daemon sell leaves. */
  ghost predicate SellDone(s: State, m: MockSwap, pull: U64, at: I64, t: State) {
    MoneyMoved(s, m, pull, t) && m.user in s.plans
    && NextGate(s.plans[m.user], at).Ok?
    && t.plans == s.plans[m.user := s.plans[m.user].(nextDueTs := NextGate(s.plans[m.user], at).value)]
    && t.config == s.config && t.feeConfig == s.feeConfig
  }

  /** What becomes of a daemon sell whose residue is, or is not, within the cap. */
  ghost predicate SellAgrees(s: State, m: MockSwap, pull: U64, at: I64, within: bool, r: Result<State>) {
    if !within then r == Err(OverdrawSchedule)
    else if !Pays(s, m) then r == Err(TokenError)
    else if !m.FeeLeaves() then r == Err(TransientNotDrained)
    else r.Ok? && SellDone(s, m, pull, at, r.value)
  }

  /** The accounts the movement is judged by. */
  ghost predicate Wired(l: Balances, m: MockSwap) {
    m.user.Raw? && m.inMint != m.outMint && m.poolOut.TokenAccount? && m.poolOut.authority == m.PoolAuthority()
    && m.poolIn.TokenAccount? && m.poolIn.authority == m.PoolAuthority() && m.poolIn in l
    && Wallet(m) in l
  }

  lemma SellConclusion(s: State, m: MockSwap, pull: U64, staged: State, at: I64, t: State)
    requires Wired(s.ledger, m) && StageKept(s, m, pull, staged) && Served(staged, m, at, t)
    ensures SellDone(s, m, pull, at, t)
  {
    MoneyOf(s, m, pull, staged, t);
  }

  /** The composed transaction, given what staging and execution do. */
  lemma {:induction false} FinishSell(
      s: State, staged: State, m: MockSwap, keeper: Key, pull: U64, env: Env, r: Result<State>)
    requires StepAll(s, env, StageIxs(m, pull)) == Ok(staged) && Step(staged, env, SellInstruction(keeper, m)) == r
    requires Wired(s.ledger, m) && StageKept(s, m, pull, staged)
    requires r.Ok? ==> Served(staged, m, env.now, r.value)
    ensures StepAll(s, env, StageIxs(m, pull) + [SellInstruction(keeper, m)]) == r
    ensures r.Ok? ==> SellDone(s, m, pull, env.now, r.value)
  {
    StagedThen(s, env, StageIxs(m, pull), staged, SellInstruction(keeper, m));
    if r.Ok? { SellConclusion(s, m, pull, staged, env.now, r.value); }
  }

  lemma PoolKept(s: State, m: MockSwap, pull: U64, staged: State)
    requires Wired(s.ledger, m) && StageKept(s, m, pull, staged)
    ensures Pays(staged, m) <==> Pays(s, m)
  {
    assert m.poolOut !in {m.Transient(), Wallet(m)};
  }

  lemma RunStagedSell(
      s: State, staged: State, f: Fixture, fee: FeeView, m: MockSwap, keeper: Key, amountIn: U64, pull: U64, env: Env)
    returns (r: Result<State>)
    requires StepAll(s, env, StageIxs(m, pull)) == Ok(staged) && Wired(s.ledger, m) && StageKept(s, m, pull, staged)
    requires Staged(staged, f, fee, m, Sell, keeper, amountIn) && Due(staged, m, env.now) && keeper in env.signers
    requires 0 <= env.now <= I64_MAX - MAX_PERIOD_SECS
    ensures StepAll(s, env, StageIxs(m, pull) + [SellInstruction(keeper, m)]) == r
    ensures SellAgrees(s, m, pull, env.now, WithinCap(staged, m, env.now), r)
  {
    SellExecutes(staged, f, fee, m, keeper, amountIn, env);
    PoolKept(s, m, pull, staged);
    r := SellEffect(staged, env, SellArgsOf(keeper, m));
    StepIsSell(staged, env, SellInstruction(keeper, m));
    FinishSell(s, staged, m, keeper, pull, env, r);
  }

  lemma StepIsSell(s: State, env: Env, ix: Instruction)
    requires ix.ExecuteSell?
    ensures Step(s, env, ix) == SellEffect(s, env, ix.sell)
  {
  }

  lemma StagedSellOutcome(s: State, f: Fixture, fee: FeeView, keeper: Key, user: Key, now: I64, at: I64, avail: U64)
    returns (r: Result<State>)
    requires SellTarget(s, f, fee, keeper, user, now) && 0 <= now <= at <= I64_MAX - MAX_PERIOD_SECS
    requires 0 < PullNow(s, f, user, now, avail) + Residue(s, f, user)
    ensures var m, pull := SellLeg(s, f, fee, keeper, user, now, avail), PullNow(s, f, user, now, avail);
            r == StepAll(s, Env(at, {keeper}), StageIxs(m, pull) + [SellInstruction(keeper, m)])
            && SellAgrees(s, m, pull, at, ResidueWithinCap(s, f, user, at), r)
  {
    var m, pull := SellLeg(s, f, fee, keeper, user, now, avail), PullNow(s, f, user, now, avail);
    SellAmountFits(s, f, user, pull);
    var staged := StageLeg(s, f, fee, Sell, keeper, Env(at, {keeper}), pull + Residue(s, f, user), pull, m);
    StagedDue(s, f, fee, keeper, user, now, at, avail, m, staged);
    r := RunStagedSell(s, staged, f, fee, m, keeper, pull + Residue(s, f, user), pull, Env(at, {keeper}));
  }

  /** The daemon's sell transaction, executed at any later clock on the balances it read: it commits exactly when
      the residue it found is within the program's cap then, the pool can pay, and its fee, if any,
          leaves the transient; it then
      drains the transient and delivers the net. Otherwise it fails, and with which error is given. */
  lemma {:induction false} DaemonSellAgrees(
      s: State, f: Fixture, fee: FeeView, keeper: Key, user: Key, now: I64, at: I64, avail: U64)
    requires SellTarget(s, f, fee, keeper, user, now) && 0 <= now <= at <= I64_MAX - MAX_PERIOD_SECS
    requires 0 < PullNow(s, f, user, now, avail) + Residue(s, f, user)
    ensures 0 < s.plans[user].periodSecs
    ensures var m, pull := SellLeg(s, f, fee, keeper, user, now, avail), PullNow(s, f, user, now, avail);
            var crank := CrankSellSpec(f, keeper, user, fee, Some(s.plans[user]), now,
                                       WalletOf(s, f, user), Residue(s, f, user), avail);
            crank.Send?
            && SellAgrees(s, m, pull, at, ResidueWithinCap(s, f, user, at), StepAll(s, Env(at, {keeper}), crank.ixs))
  {
    assert PlanOk(user, s.plans[user]);
    CrankSellComposes(f, keeper, user, fee, s.plans[user], now, WalletOf(s, f, user), Residue(s, f, user), avail);
    var r := StagedSellOutcome(s, f, fee, keeper, user, now, at, avail);
  }

  /** A residue within the cap when the daemon looked is within it whenever the transaction lands. */
  lemma FreshResidueFits(s: State, f: Fixture, user: Key, now: I64, at: I64)
    requires ResidueWithinCap(s, f, user, now) && now <= at
    ensures ResidueWithinCap(s, f, user, at)
  {
    CapGrows(s.plans[user], now, at, WalletOf(s, f, user) + Residue(s, f, user));
  }

  lemma LegWired(s: State, f: Fixture, fee: FeeView, side: Side, keeper: Key, user: Key, amountIn: nat)
    requires Deployed(s, f, fee) && user.Raw?
    ensures var m := Leg(f, side, keeper, user, fee, amountIn);
            Wallet(m) in s.ledger ==> Wired(s.ledger, m)
  {
  }

  lemma StagedFrom(
      s: State, staged: State, f: Fixture, fee: FeeView, m: MockSwap, side: Side, keeper: Key, amountIn: U64,
      pull: U64)
    requires Deployed(s, f, fee) && Deployed(staged, f, fee) && StageKept(s, m, pull, staged)
    requires keeper.Raw? && m.user.Raw? && m == Leg(f, side, keeper, m.user, fee, amountIn)
    requires FeeAccountReady(s, m.inMint, fee, m.user) && Wired(s.ledger, m)
    requires 0 < amountIn && amountIn == Bal(s.ledger, m.Transient()) + pull
    requires m.poolOut in s.ledger
    ensures Staged(staged, f, fee, m, side, keeper, amountIn)
  {
  }

  /** Staging, on either side, leaves the accounts of the execution in place. */
  lemma StageLeg(
      s: State, f: Fixture, fee: FeeView, side: Side, keeper: Key, env: Env, amountIn: U64, pull: U64, m: MockSwap)
    returns (staged: State)
    requires Deployed(s, f, fee) && keeper.Raw? && m.user.Raw? && m == Leg(f, side, keeper, m.user, fee, amountIn)
    requires FeeAccountReady(s, m.inMint, fee, m.user) && Wallet(m) in s.ledger
    requires pull <= s.ledger[Wallet(m)] && 0 < amountIn && amountIn == Bal(s.ledger, m.Transient()) + pull
    requires m.poolOut in s.ledger
    ensures StepAll(s, env, StageIxs(m, pull)) == Ok(staged) && Wired(s.ledger, m) && StageKept(s, m, pull, staged)
    ensures Staged(staged, f, fee, m, side, keeper, amountIn)
  {
    staged := Stage(s, m, pull);
    LegWired(s, f, fee, side, keeper, m.user, amountIn);
    StageKeeps(s, f, fee, env, m, pull);
    StageRuns(s, f, fee, env, m, pull);
    StagedFrom(s, staged, f, fee, m, side, keeper, amountIn, pull);
  }

  /** Once staged, the plan is still due, and the cap check comes down to the residue. */
  lemma StagedDue(
      s: State, f: Fixture, fee: FeeView, keeper: Key, user: Key, now: I64, at: I64, avail: U64, m: MockSwap,
      staged: State)
    requires SellTarget(s, f, fee, keeper, user, now) && 0 <= now <= at
    requires m.user == user && m.inMint == f.targetMint
    requires StageKept(s, m, PullNow(s, f, user, now, avail), staged)
    ensures Due(staged, m, at)
    ensures WithinCap(staged, m, at) <==> ResidueWithinCap(s, f, user, at)
  {
    assert PlanOk(user, s.plans[user]);
    DaemonPullAllowedIff(s.plans[user], now, at, WalletOf(s, f, user), Residue(s, f, user), avail);
  }

  // ---- The daemon's buy ----

  ghost predicate BuyTarget(s: State, f: Fixture, fee: FeeView, keeper: Key, user: Key) {
    Deployed(s, f, fee) && keeper.Raw? && user.Raw?
    && Ata(user, f.usdcMint) in s.ledger && FeeAccountReady(s, f.usdcMint, fee, user)
  }

  function BuyResidue(s: State, f: Fixture, user: Key): U64 { Bal(s.ledger, Ata(BuyAuthority(user), f.usdcMint)) }

  function BuyLeg(s: State, f: Fixture, fee: FeeView, keeper: Key, user: Key, avail: U64): MockSwap {
    Leg(f, Buy, keeper, user, fee, avail + BuyResidue(s, f, user))
  }

  ghost predicate BuyDone(s: State, m: MockSwap, pull: U64, t: State) {
    MoneyMoved(s, m, pull, t) && t.plans == s.plans && t.config == s.config && t.feeConfig == s.feeConfig
  }

  lemma {:induction false} FinishBuy(
      s: State, staged: State, m: MockSwap, keeper: Key, pull: U64, env: Env, r: Result<State>)
    requires StepAll(s, env, StageIxs(m, pull)) == Ok(staged) && Step(staged, env, BuyInstruction(keeper, m)) == r
    requires Wired(s.ledger, m) && StageKept(s, m, pull, staged)
    requires r.Ok? ==> Bought(staged, m, r.value)
    ensures StepAll(s, env, StageIxs(m, pull) + [BuyInstruction(keeper, m)]) == r
    ensures r.Ok? ==> BuyDone(s, m, pull, r.value)
  {
    StagedThen(s, env, StageIxs(m, pull), staged, BuyInstruction(keeper, m));
    if r.Ok? { MoneyOf(s, m, pull, staged, r.value); }
  }

  /** What becomes of a daemon buy whose pull the wallet covers, or does not. */
  ghost predicate BuyAgrees(s: State, m: MockSwap, pull: U64, covered: bool, r: Result<State>) {
    if !covered || !Pays(s, m) then r == Err(TokenError)
    else if !m.FeeLeaves() then r == Err(TransientNotDrained)
    else r.Ok? && BuyDone(s, m, pull, r.value)
  }

  lemma BuyAmountFits(s: State, f: Fixture, user: Key, avail: U64)
    requires SupplyFits(s.ledger) && user.Raw? && Ata(user, f.usdcMint) in s.ledger
             && avail <= s.ledger[Ata(user, f.usdcMint)]
    ensures avail + BuyResidue(s, f, user) < U64_LIMIT
  {
    var wallet, transient := Ata(user, f.usdcMint), Ata(BuyAuthority(user), f.usdcMint);
    if transient in s.ledger { PairWithinTotal(s.ledger, wallet, transient, f.usdcMint); }
  }

  lemma {:induction false} FirstFails(s: State, env: Env, first: Instruction, rest: seq<Instruction>)
    requires Step(s, env, first).Err?
    ensures StepAll(s, env, [first] + rest) == Step(s, env, first)
  {
    assert ([first] + rest)[0] == first;
  }

  lemma ShortPull(s: State, env: Env, user: Key, mint: Key, amount: U64)
    requires user.Raw? && Bal(s.ledger, Ata(user, mint)) < amount
    ensures Step(s, env, Pull(user, mint, amount)) == Err(TokenError)
  {
  }

  lemma {:induction false} UncoveredPullFails(
      s: State, f: Fixture, fee: FeeView, env: Env, m: MockSwap, avail: U64, last: Instruction)
    requires Deployed(s, f, fee) && m.user.Raw? && Bal(s.ledger, Wallet(m)) < avail
    ensures StepAll(s, env, StageIxs(m, avail) + [last]) == Err(TokenError)
  {
    PreludeKeeps(s, f, fee, m);
    var pull := Pull(m.user, m.inMint, avail);
    assert StageIxs(m, avail) + [last] == Prelude(m) + ([pull] + [last]);
    PreludeRuns(s, env, m, [pull] + [last]);
    assert Bal(AfterPrelude(s, m).ledger, Wallet(m)) == Bal(s.ledger, Wallet(m));
    ShortPull(AfterPrelude(s, m), env, m.user, m.inMint, avail);
    FirstFails(AfterPrelude(s, m), env, pull, [last]);
  }

  lemma StepIsBuy(s: State, env: Env, ix: Instruction)
    requires ix.ExecuteBuy?
    ensures Step(s, env, ix) == BuyEffect(s, env, ix.buy)
  {
  }

  lemma RunStagedBuy(
      s: State, staged: State, f: Fixture, fee: FeeView, m: MockSwap, keeper: Key, amountIn: U64, pull: U64, env: Env)
    returns (r: Result<State>)
    requires StepAll(s, env, StageIxs(m, pull)) == Ok(staged) && Wired(s.ledger, m) && StageKept(s, m, pull, staged)
    requires Staged(staged, f, fee, m, Buy, keeper, amountIn) && keeper in env.signers
    ensures StepAll(s, env, StageIxs(m, pull) + [BuyInstruction(keeper, m)]) == r
    ensures BuyAgrees(s, m, pull, true, r)
  {
    BuyExecutes(staged, f, fee, m, keeper, amountIn, env);
    PoolKept(s, m, pull, staged);
    r := BuyEffect(staged, env, BuyInstruction(keeper, m).buy);
    StepIsBuy(staged, env, BuyInstruction(keeper, m));
    FinishBuy(s, staged, m, keeper, pull, env, r);
  }

  lemma CoveredBuy(s: State, f: Fixture, fee: FeeView, keeper: Key, user: Key, at: I64, avail: U64, m: MockSwap)
    returns (r: Result<State>)
    requires BuyTarget(s, f, fee, keeper, user) && 0 < avail <= s.ledger[Ata(user, f.usdcMint)]
    requires m == BuyLeg(s, f, fee, keeper, user, avail)
    ensures StepAll(s, Env(at, {keeper}), StageIxs(m, avail) + [BuyInstruction(keeper, m)]) == r
    ensures BuyAgrees(s, m, avail, true, r)
  {
    var env := Env(at, {keeper});
    BuyAmountFits(s, f, user, avail);
    var staged := StageLeg(s, f, fee, Buy, keeper, env, avail + BuyResidue(s, f, user), avail, m);
    r := RunStagedBuy(s, staged, f, fee, m, keeper, avail + BuyResidue(s, f, user), avail, env);
  }

  lemma {:induction false} StagedBuyOutcome(
      s: State, f: Fixture, fee: FeeView, keeper: Key, user: Key, at: I64, avail: U64)
    requires BuyTarget(s, f, fee, keeper, user) && 0 < avail
    ensures var m := BuyLeg(s, f, fee, keeper, user, avail);
            var r := StepAll(s, Env(at, {keeper}), StageIxs(m, avail) + [BuyInstruction(keeper, m)]);
            BuyAgrees(s, m, avail, avail <= s.ledger[Ata(user, f.usdcMint)], r)
  {
    if avail <= s.ledger[Ata(user, f.usdcMint)] {
      var r := CoveredBuy(s, f, fee, keeper, user, at, avail, BuyLeg(s, f, fee, keeper, user, avail));
    } else {
      var m := BuyLeg(s, f, fee, keeper, user, avail);
      UncoveredPullFails(s, f, fee, Env(at, {keeper}), m, avail, BuyInstruction(keeper, m));
    }
  }

  /** What crankBuy composes. */
  lemma CrankBuyComposes(f: Fixture, keeper: Key, user: Key, fee: FeeView, avail: U64, residue: U64)
    requires 0 < avail
    ensures var m := Leg(f, Buy, keeper, user, fee, avail + residue);
            CrankBuySpec(f, keeper, user, fee, avail, residue) == Send(StageIxs(m, avail) + [BuyInstruction(keeper, m)])
  {
  }

  /** The daemon's buy transaction commits exactly when the wallet covers the available amount, the pool can pay,
      and its fee, if
      any, leaves the transient; it then drains the pull and any residue, and delivers the net one for one. */
  lemma {:induction false} DaemonBuyAgrees(
      s: State, f: Fixture, fee: FeeView, keeper: Key, user: Key, at: I64, avail: U64)
    requires BuyTarget(s, f, fee, keeper, user) && 0 < avail
    ensures var m := BuyLeg(s, f, fee, keeper, user, avail);
            var crank := CrankBuySpec(f, keeper, user, fee, avail, BuyResidue(s, f, user));
            crank.Send?
            && BuyAgrees(s, m, avail, avail <= s.ledger[Ata(user, f.usdcMint)],
                         StepAll(s, Env(at, {keeper}), crank.ixs))
  {
    CrankBuyComposes(f, keeper, user, fee, avail, BuyResidue(s, f, user));
    StagedBuyOutcome(s, f, fee, keeper, user, at, avail);
  }
}
