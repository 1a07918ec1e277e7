// What the admin can reach over whole runs: fees and the whitelist.
module AdminRuns {
  import opened Machine
  import opened Ledger
  import opened Fees
  import Floors
  import opened Program
  import opened Executions
  import opened Runs

  // ---- Fees ----

  /** Gross inputs of the executions that spent this mint, in order. */
  function Inputs(log: seq<Executed>, mint: Key): seq<U64> {
    if log == [] then [] else
      var last := log[|log| - 1];
      Inputs(log[..|log| - 1], mint) + if last.mint == mint then [last.amountIn] else []
  }

  function FeesTaken(log: seq<Executed>, mint: Key): nat {
    if log == [] then 0 else
      var last := log[|log| - 1];
      FeesTaken(log[..|log| - 1], mint) + if last.mint == mint then last.fee else 0
  }

  lemma {:induction false} HundredthOfInputs(log: seq<Executed>, mint: Key)
    requires forall i | 0 <= i < |log| :: EntryOk(log[i])
    ensures 100 * FeesTaken(log, mint) <= Sum(Inputs(log, mint))
    decreases |log|
  {
    if log == [] {
    } else {
      var front, last := log[..|log| - 1], log[|log| - 1];
      HundredthOfInputs(front, mint);
      assert EntryOk(last);
      SumAppend(Inputs(front, mint), last.amountIn);
      assert Inputs(front, mint) + [] == Inputs(front, mint);
    }
  }

  lemma {:induction false} SumAppend(amounts: seq<U64>, x: U64)
    ensures Sum(amounts + [x]) == Sum(amounts) + x
  {
    assert (amounts + [x])[..|amounts|] == amounts;
  }

  /** Over any run from a deployment's first instruction, and any schedule of fee changes,
      the fees taken in a mint never exceed a hundredth of what was put in, and every execution
      had something left to swap. */
  lemma {:induction false} FeesOverRuns(ss: seq<State>, es: seq<Event>, l: Balances, i: nat, mint: Key)
    requires Trace(ss, es) && ss[0] == Genesis(l) && ClocksNonNegative(es) && i <= |es|
    ensures 100 * FeesTaken(ss[i].log, mint) <= Sum(Inputs(ss[i].log, mint))
    ensures forall j | 0 <= j < |ss[i].log| :: ss[i].log[j].fee < ss[i].log[j].amountIn
  {
    GenesisInv(l);
    InvAlong(ss, es, i);
    HundredthOfInputs(ss[i].log, mint);
    forall j | 0 <= j < |ss[i].log| ensures ss[i].log[j].fee < ss[i].log[j].amountIn {
      assert EntryOk(ss[i].log[j]);
    }
  }

  /** The entry charges exactly the given rate. */
  ghost predicate ChargedAt(e: Executed, feeBps: U16) {
    FeeSplit(e.amountIn, feeBps).Ok? && e.fee == FeeSplit(e.amountIn, feeBps).value.fee
  }

  ghost predicate Logged(s: State, t: State) {
    t.log == s.log
    || (s.feeConfig.Some? && |t.log| == |s.log| + 1 && t.log[..|s.log|] == s.log
        && ChargedAt(t.log[|s.log|], s.feeConfig.value.feeBps))
  }

  lemma QuoteCharged(side: Floors.Side, cfg: Config, fc: FeeConfig, amountIn: U64, mint: Key, feeAta: Key, minOut: U64)
    requires InputFloor(side, cfg, fc, amountIn, mint, feeAta, minOut).Ok?
    ensures var q := InputFloor(side, cfg, fc, amountIn, mint, feeAta, minOut).value;
            ChargedAt(Executed(side, feeAta, mint, q.amountIn, 0, q.fee, feeAta), fc.feeBps)
  {
  }

  lemma SellLogs(s: State, env: Env, a: SellArgs)
    requires SellEffect(s, env, a).Ok?
    ensures Logged(s, SellEffect(s, env, a).value)
  {
    var cfg := s.config.value;
    QuoteCharged(Floors.Sell, cfg, s.feeConfig.value, s.ledger[a.transientTarget], cfg.targetMint, a.feeAta, a.minOut);
  }

  lemma BuyLogs(s: State, env: Env, a: BuyArgs)
    requires BuyEffect(s, env, a).Ok?
    ensures Logged(s, BuyEffect(s, env, a).value)
  {
    var cfg := s.config.value;
    QuoteCharged(Floors.Buy, cfg, s.feeConfig.value, s.ledger[a.transientUsdc], cfg.usdcMint, a.feeAta, a.minOut);
  }

  predicate FeeChange(e: Event) { e.ix.InitFeeConfig? || e.ix.SetFee? }

  /** An instruction logs at most one execution, charged at the rate in force,
      and only the fee instructions change that rate. */
  lemma LogStep(s: State, e: Event, t: State)
    requires StepsTo(s, e, t)
    ensures Logged(s, t)
    ensures !FeeChange(e) ==> t.feeConfig == s.feeConfig
  {
    match e.ix
    case ExecuteBuy(a) => BuyLogs(s, e.env, a);
    case ExecuteSell(a) => SellLogs(s, e.env, a); SellAdvancesGate(s, e.env, a);
    case _ =>
  }

  lemma LogStepAt(ss: seq<State>, es: seq<Event>, i: nat)
    requires Trace(ss, es) && i < |es|
    ensures Logged(ss[i], ss[i + 1])
    ensures !FeeChange(es[i]) ==> ss[i + 1].feeConfig == ss[i].feeConfig
  {
    assert StepAt(ss, es, i);
    LogStep(ss[i], es[i], ss[i + 1]);
  }

  ghost predicate ChargedFrom(log: seq<Executed>, from: nat, feeBps: U16) {
    from <= |log| && forall i | from <= i < |log| :: ChargedAt(log[i], feeBps)
  }

  lemma {:induction false} RateAlong(ss: seq<State>, es: seq<Event>, i: nat)
    requires Trace(ss, es) && i <= |es| && ss[0].feeConfig.Some?
    requires forall j | 0 <= j < |es| :: !FeeChange(es[j])
    ensures ss[i].feeConfig == ss[0].feeConfig
    ensures ChargedFrom(ss[i].log, |ss[0].log|, ss[0].feeConfig.value.feeBps)
  {
    if i == 0 {
    } else {
      RateAlong(ss, es, i - 1);
      LogStepAt(ss, es, i - 1);
      LoggedExtends(ss[i - 1], ss[i], |ss[0].log|, ss[0].feeConfig.value.feeBps);
    }
  }

  lemma LoggedExtends(s: State, t: State, from: nat, feeBps: U16)
    requires Logged(s, t) && ChargedFrom(s.log, from, feeBps) && s.feeConfig.Some? && s.feeConfig.value.feeBps == feeBps
    ensures ChargedFrom(t.log, from, feeBps)
  {
    forall j | from <= j < |t.log| ensures ChargedAt(t.log[j], feeBps) {
      if j < |s.log| {
        assert t.log[..|s.log|][j] == t.log[j];
        assert ChargedAt(s.log[j], feeBps);
      }
    }
  }

  lemma {:induction false} ChargedSums(log: seq<Executed>, mint: Key, feeBps: U16)
    requires forall i | 0 <= i < |log| :: ChargedAt(log[i], feeBps)
    ensures FeesTaken(log, mint) == SumOfFees(Inputs(log, mint), feeBps)
    decreases |log|
  {
    if log == [] {
    } else {
      var front, last := log[..|log| - 1], log[|log| - 1];
      ChargedSums(front, mint, feeBps);
      assert ChargedAt(last, feeBps);
      var ins := Inputs(front, mint);
      assert ins + [] == ins;
      assert (ins + [last.amountIn])[..|ins|] == ins;
    }
  }

  /** While the rate stays put, n new executions in a mint pay at most the rate on their sum,
      and fewer than n units less than it. */
  lemma {:induction false} ConstantRateOverRuns(ss: seq<State>, es: seq<Event>, i: nat, mint: Key)
    requires Trace(ss, es) && i <= |es| && Inv(ss[0]) && ss[0].feeConfig.Some?
    requires forall j | 0 <= j < |es| :: !FeeChange(es[j])
    ensures |ss[0].log| <= |ss[i].log|
    ensures var added, rate := ss[i].log[|ss[0].log|..], ss[0].feeConfig.value.feeBps;
            var ins := Inputs(added, mint);
            FeesTaken(added, mint) <= Sum(ins) * rate / 10_000
            && (ins != [] ==> Sum(ins) * rate / 10_000 < FeesTaken(added, mint) + |ins|)
  {
    RateAlong(ss, es, i);
    var added, rate := ss[i].log[|ss[0].log|..], ss[0].feeConfig.value.feeBps;
    forall j | 0 <= j < |added| ensures ChargedAt(added[j], rate) {
      assert added[j] == ss[i].log[|ss[0].log| + j];
    }
    ChargedSums(added, mint, rate);
    if Inputs(added, mint) != [] { ConstantRateFees(Inputs(added, mint), rate); }
  }

  // ---- The log tells what the ledger shows ----

  /** A sell logs its side, user and venue, the whole transient as its input, the destination's gain as its output,
      and the floor of the fee rate on the input. */
  lemma SellLogged(s: State, env: Env, a: SellArgs, t: State)
    requires Inv(s) && SellEffect(s, env, a) == Ok(t)
    ensures s.config.Some? && s.feeConfig.Some? && t.log != [] && t.log[..|t.log| - 1] == s.log
    ensures var e, dest := t.log[|t.log| - 1], Ata(a.user, s.config.value.usdcMint);
            e.side == Floors.Sell && e.user == a.user && e.venue == a.venue.program
            && e.mint == s.config.value.targetMint && e.amountIn == Drawn(s, a.user)
            && e.amountOut == Bal(t.ledger, dest) - Bal(s.ledger, dest)
            && e.fee == e.amountIn * s.feeConfig.value.feeBps / 10_000
  {
    var q, d := SellParts(s, env, a, t);
    SellEntry(s, env, a, q, d);
  }

  lemma SellEntry(s: State, env: Env, a: SellArgs, q: Quote, d: Delivery)
    requires s.config.Some? && s.feeConfig.Some? && s.feeConfig.value.feeBps <= MAX_FEE_BPS
    requires a.transientTarget in s.ledger && a.destUsdc in s.ledger
    requires InputFloor(Floors.Sell, s.config.value, s.feeConfig.value, s.ledger[a.transientTarget],
                        s.config.value.targetMint, a.feeAta, a.minOut) == Ok(q)
    requires SkimAndSwap(s.ledger, SellSwap(a, q), env.signers) == Ok(d)
    ensures q.amountIn == s.ledger[a.transientTarget] && q.fee == q.amountIn * s.feeConfig.value.feeBps / 10_000
    ensures a.destUsdc in d.ledger && d.out == d.ledger[a.destUsdc] - s.ledger[a.destUsdc]
  {
    SwapOutcome(s.ledger, SellSwap(a, q), env.signers);
    QuoteFees(Floors.Sell, s.config.value, s.feeConfig.value, s.ledger[a.transientTarget], s.config.value.targetMint,
              a.feeAta, a.minOut);
  }

  lemma BuyLogged(s: State, env: Env, a: BuyArgs, t: State)
    requires Inv(s) && BuyEffect(s, env, a) == Ok(t)
    ensures s.config.Some? && s.feeConfig.Some? && t.log != [] && t.log[..|t.log| - 1] == s.log
    ensures var e, cfg := t.log[|t.log| - 1], s.config.value;
            var transient, dest := Ata(BuyAuthority(a.user), cfg.usdcMint), Ata(a.user, cfg.targetMint);
            e.side == Floors.Buy && e.user == a.user && e.venue == a.venue.program
            && e.mint == cfg.usdcMint && e.amountIn == Bal(s.ledger, transient)
            && e.amountOut == Bal(t.ledger, dest) - Bal(s.ledger, dest)
            && e.fee == e.amountIn * s.feeConfig.value.feeBps / 10_000
  {
    BuyMoves(s, env, a);
    BuyGuards(s, env, a);
    SwapOutcome(s.ledger, BuySwap(a, BuyQuote(s, env, a).value), env.signers);
    QuoteFees(Floors.Buy, s.config.value, s.feeConfig.value, s.ledger[a.transientUsdc], s.config.value.usdcMint,
              a.feeAta, a.minOut);
  }

  predicate Execution(e: Event) { e.ix.ExecuteBuy? || e.ix.ExecuteSell? }

  function ExecutionsIn(es: seq<Event>, i: nat): nat
    requires i <= |es|
  {
    if i == 0 then 0 else ExecutionsIn(es, i - 1) + if Execution(es[i - 1]) then 1 else 0
  }

  /** The entry tells what the ledger shows of this execution. */
  ghost predicate Tells(entry: Executed, s: State, e: Event, t: State) {
    s.config.Some? && s.feeConfig.Some? && Execution(e)
    && (var cfg := s.config.value;
        var (side, user, venue) := if e.ix.ExecuteBuy? then (Floors.Buy, e.ix.buy.user, e.ix.buy.venue.program)
                                   else (Floors.Sell, e.ix.sell.user, e.ix.sell.venue.program);
        var (paid, got) := if side.Buy? then (cfg.usdcMint, cfg.targetMint) else (cfg.targetMint, cfg.usdcMint);
        entry.side == side && entry.user == user && entry.venue == venue && entry.mint == paid
        && entry.amountIn == Bal(s.ledger, Ata(BuyAuthority(user), paid))
        && entry.amountOut == Bal(t.ledger, Ata(user, got)) - Bal(s.ledger, Ata(user, got))
        && entry.fee == entry.amountIn * s.feeConfig.value.feeBps / 10_000)
  }

  /** Only executions log, one entry each. */
  lemma LogGrows(s: State, e: Event, t: State)
    requires Inv(s) && StepsTo(s, e, t)
    ensures if Execution(e) then |t.log| == |s.log| + 1 && t.log[..|s.log|] == s.log && Tells(t.log[|s.log|], s, e, t)
            else t.log == s.log
  {
    match e.ix
    case ExecuteBuy(a) => BuyLogged(s, e.env, a, t);
    case ExecuteSell(a) => SellLogged(s, e.env, a, t);
    case _ =>
  }

  /** The log of a deployment is its history: one entry for each execution since its first instruction, in order, each
      telling what the ledger shows. */
  lemma {:induction false} LogIsHistory(ss: seq<State>, es: seq<Event>, l: Balances, i: nat, j: nat)
    requires Trace(ss, es) && ss[0] == Genesis(l) && ClocksNonNegative(es) && i <= |es|
    ensures |ss[i].log| == ExecutionsIn(es, i)
    ensures j < i && Execution(es[j]) ==>
              ExecutionsIn(es, j) < |ss[i].log| && Tells(ss[i].log[ExecutionsIn(es, j)], ss[j], es[j], ss[j + 1])
    decreases i
  {
    if i == 0 {
    } else {
      LogIsHistory(ss, es, l, i - 1, j);
      GenesisInv(l);
      InvAlong(ss, es, i - 1);
      LogGrowsAt(ss, es, i - 1);
      if j < i - 1 && Execution(es[j]) && Execution(es[i - 1]) {
        assert ss[i].log[..|ss[i - 1].log|][ExecutionsIn(es, j)] == ss[i - 1].log[ExecutionsIn(es, j)];
      }
    }
  }

  lemma LogGrowsAt(ss: seq<State>, es: seq<Event>, i: nat)
    requires Trace(ss, es) && i < |es| && Inv(ss[i])
    ensures if Execution(es[i])
            then |ss[i + 1].log| == |ss[i].log| + 1 && ss[i + 1].log[..|ss[i].log|] == ss[i].log
                 && Tells(ss[i + 1].log[|ss[i].log|], ss[i], es[i], ss[i + 1])
            else ss[i + 1].log == ss[i].log
  {
    assert StepAt(ss, es, i);
    LogGrows(ss[i], es[i], ss[i + 1]);
  }

  // ---- The fee reaches its destination ----

  /** The skim moves exactly the fee from the transient to the fee account. */
  lemma SkimPaysFee(l: Balances, w: Swap)
    requires Skim(l, w).Ok? && w.transient in l && w.feeAta in l && w.transient != w.feeAta
    ensures Skim(l, w).value == l[w.transient := l[w.transient] - w.fee][w.feeAta := l[w.feeAta] + w.fee]
  {
    if w.fee == 0 {
      assert l == l[w.transient := l[w.transient]][w.feeAta := l[w.feeAta]];
    }
  }

  /** Unless the fee's owner signs, or the venue signs for them, the fee account ends a success with
      at least the fee more than it had. */
  lemma FeeReceived(l: Balances, w: Swap, signers: Signers)
    requires w.transient in l && w.dest in l && w.feeAta in l && w.feeAta.TokenAccount? && w.transient != w.feeAta
    requires !MaySign(w.feeAta.authority, signers + {BuyAuthority(w.user)}, w.venue.program)
    requires SkimAndSwap(l, w, signers).Ok?
    ensures SkimAndSwap(l, w, signers).value.ledger.Keys == l.Keys
    ensures l[w.feeAta] + w.fee <= SkimAndSwap(l, w, signers).value.ledger[w.feeAta]
  {
    SkimPaysFee(l, w);
    var skimmed := Skim(l, w).value;
    VenueFrame(skimmed, w.venue.ops, ForwardedSigners(w.venue.remaining, signers, BuyAuthority(w.user)),
               WritableKeys(w.venue.remaining), w.venue.program);
  }

  // ---- The whitelist ----

  /** The list in the last accepted init_config or set_whitelist among the first i events. */
  function LastVenues(es: seq<Event>, i: nat): Option<seq<Key>>
    requires i <= |es|
  {
    if i == 0 then None else
      match es[i - 1].ix
      case InitConfig(_, _, _, venues, _, _) => Some(venues)
      case SetWhitelist(_, venues) => Some(venues)
      case _ => LastVenues(es, i - 1)
  }

  /** The stored array holds this list and says how much of it is in use. */
  ghost predicate Stores(cfg: Config, venues: seq<Key>) {
    |venues| <= MAX_SWAP_PROGRAMS && cfg.swapPrograms == Padded(venues) && cfg.swapProgramCount == |venues|
  }

  lemma WhitelistStep(s: State, e: Event, t: State)
    requires StepsTo(s, e, t)
    ensures match e.ix
            case InitConfig(_, _, _, venues, _, _) => s.config.None? && t.config.Some? && Stores(t.config.value, venues)
            case SetWhitelist(_, venues) => s.config.Some? && t.config.Some? && Stores(t.config.value, venues)
            case _ => if s.config.None? then t.config.None? else
                t.config.Some? && t.config.value.swapPrograms == s.config.value.swapPrograms
                && t.config.value.swapProgramCount == s.config.value.swapProgramCount
  {
    match e.ix
    case ExecuteSell(a) => SellAdvancesGate(s, e.env, a);
    case _ =>
  }

  lemma StoredIff(cfg: Config, venues: seq<Key>, program: Key)
    requires Stores(cfg, venues)
    ensures IsWhitelisted(cfg, program) == Ok(program in venues)
  {
    assert cfg.swapPrograms[..cfg.swapProgramCount] == venues;
  }

  lemma {:induction false} VenuesAlong(ss: seq<State>, es: seq<Event>, l: Balances, i: nat)
    requires Trace(ss, es) && ss[0] == Genesis(l) && i <= |es|
    ensures ss[i].config.Some? <==> LastVenues(es, i).Some?
    ensures ss[i].config.Some? ==> Stores(ss[i].config.value, LastVenues(es, i).value)
  {
    if i == 0 {
    } else {
      VenuesAlong(ss, es, l, i - 1);
      assert StepAt(ss, es, i - 1);
      WhitelistStep(ss[i - 1], es[i - 1], ss[i]);
    }
  }

  /** After any run, a program is whitelisted exactly when it is in the last accepted list: no entry of
      an earlier, longer list survives, and the padding admits nobody. */
  lemma {:induction false} WhitelistOverRuns(ss: seq<State>, es: seq<Event>, l: Balances, i: nat, program: Key)
    requires Trace(ss, es) && ss[0] == Genesis(l) && i <= |es| && ss[i].config.Some?
    ensures LastVenues(es, i).Some?
    ensures IsWhitelisted(ss[i].config.value, program) == Ok(program in LastVenues(es, i).value)
  {
    VenuesAlong(ss, es, l, i);
    StoredIff(ss[i].config.value, LastVenues(es, i).value, program);
  }

  // ---- Who may change what ----

  /** Once initialized, configuration and fee change only under the admin's signature, and such a
      change moves no tokens and touches no plan. */
  lemma OnlyAdminConfigures(s: State, e: Event, t: State)
    requires StepsTo(s, e, t) && s.config.Some? && (t.config != s.config || t.feeConfig != s.feeConfig)
    ensures s.config.value.admin in e.env.signers
    ensures t.ledger == s.ledger && t.plans == s.plans && t.log == s.log
  {
    match e.ix
    case ExecuteSell(a) => SellAdvancesGate(s, e.env, a);
    case _ =>
  }

  /** A plan appears or disappears only under its owner's signature, and apart from that only
      a sell naming its owner changes it, and then only its gate. */
  lemma OnlyOwnerPlans(s: State, e: Event, t: State, user: Key)
    requires StepsTo(s, e, t)
    ensures (user in s.plans) != (user in t.plans) ==> user in e.env.signers
    ensures user in s.plans && user in t.plans && s.plans[user] != t.plans[user] ==>
              e.ix.ExecuteSell? && e.ix.sell.user == user
              && t.plans[user] == s.plans[user].(nextDueTs := t.plans[user].nextDueTs)
  {
    match e.ix
    case ExecuteSell(a) => SellAdvancesGate(s, e.env, a);
    case _ =>
  }

  // ---- What the first instruction settles for good ----

  datatype Identity = Identity(admin: Key, targetMint: Mint, usdcMint: Mint)

  /** As the instruction that created the configuration gave it. */
  function IdentityAfter(es: seq<Event>, i: nat): Option<Identity>
    requires i <= |es|
  {
    if i == 0 then None else
      match es[i - 1].ix
      case InitConfig(admin, targetMint, usdcMint, _, _, _) => Some(Identity(admin, targetMint, usdcMint))
      case _ => IdentityAfter(es, i - 1)
  }

  predicate Identifies(config: Option<Config>, id: Option<Identity>) {
    (config.Some? <==> id.Some?)
    && (config.Some? ==>
          config.value.admin == id.value.admin
          && config.value.targetMint == id.value.targetMint.key && config.value.usdcMint == id.value.usdcMint.key
          && config.value.targetDecimals == id.value.targetMint.decimals <= 12 && id.value.usdcMint.decimals == 6)
  }

  lemma IdentityStep(s: State, e: Event, t: State, id: Option<Identity>)
    requires StepsTo(s, e, t) && Identifies(s.config, id)
    ensures e.ix.InitConfig? ==>
              s.config.None? && Identifies(t.config, Some(Identity(e.ix.admin, e.ix.targetMint, e.ix.usdcMint)))
    ensures !e.ix.InitConfig? ==> Identifies(t.config, id)
  {
    match e.ix
    case ExecuteBuy(a) => BuyMoves(s, e.env, a);
    case ExecuteSell(a) => SellAdvancesGate(s, e.env, a);
    case _ =>
  }

  /** In every state a deployment can reach, its admin, its mints and their decimals are those its one InitConfig
      gave; there never is a second. */
  lemma {:induction false} IdentityOverRuns(ss: seq<State>, es: seq<Event>, l: Balances, i: nat)
    requires Trace(ss, es) && ss[0] == Genesis(l) && i <= |es|
    ensures Identifies(ss[i].config, IdentityAfter(es, i))
    ensures forall j, k | 0 <= j < k < i :: !(es[j].ix.InitConfig? && es[k].ix.InitConfig?)
  {
    if i == 0 {
    } else {
      IdentityOverRuns(ss, es, l, i - 1);
      assert StepAt(ss, es, i - 1);
      IdentityStep(ss[i - 1], es[i - 1], ss[i], IdentityAfter(es, i - 1));
      forall j | 0 <= j < i - 1 && es[j].ix.InitConfig? ensures IdentityAfter(es, i - 1).Some? {
        GivenBefore(es, i - 1, j);
      }
    }
  }

  lemma {:induction false} GivenBefore(es: seq<Event>, i: nat, j: nat)
    requires j < i <= |es| && es[j].ix.InitConfig?
    ensures IdentityAfter(es, i).Some?
  {
    if j == i - 1 {
    } else {
      GivenBefore(es, i - 1, j);
    }
  }

  // ---- The settings in force ----

  datatype Settings = Settings(price: U64, slippage: U16, paused: bool)

  /** Price, slippage and pause flag after the first i events, read off the events alone. */
  function SettingsAfter(es: seq<Event>, i: nat): Settings
    requires i <= |es|
  {
    if i == 0 then Settings(0, 0, false) else
      var before := SettingsAfter(es, i - 1);
      match es[i - 1].ix
      case InitConfig(_, _, _, _, price, slippage) => Settings(price, slippage, false)
      case SetParams(_, price, slippage) => before.(price := price, slippage := slippage)
      case SetPause(_, paused) => before.(paused := paused)
      case _ => before
  }

  function FeeAfter(es: seq<Event>, i: nat): Option<FeeConfig>
    requires i <= |es|
  {
    if i == 0 then None else
      match es[i - 1].ix
      case InitFeeConfig(_, feeBps, destination) => Some(FeeConfig(feeBps, destination))
      case SetFee(_, feeBps, destination) => Some(FeeConfig(feeBps, destination))
      case _ => FeeAfter(es, i - 1)
  }

  ghost predicate InForce(s: State, settings: Settings, fee: Option<FeeConfig>) {
    s.feeConfig == fee
    && (s.config.Some? ==>
          s.config.value.priceRefMicros == settings.price && s.config.value.maxSlippageBps == settings.slippage
          && s.config.value.paused == settings.paused)
  }

  lemma {:induction false} SettingsOverRuns(ss: seq<State>, es: seq<Event>, l: Balances, i: nat)
    requires Trace(ss, es) && ss[0] == Genesis(l) && i <= |es|
    ensures InForce(ss[i], SettingsAfter(es, i), FeeAfter(es, i))
  {
    if i == 0 {
    } else {
      SettingsOverRuns(ss, es, l, i - 1);
      SettingsAt(ss, es, i - 1);
    }
  }

  lemma SettingsAt(ss: seq<State>, es: seq<Event>, i: nat)
    requires Trace(ss, es) && i < |es| && InForce(ss[i], SettingsAfter(es, i), FeeAfter(es, i))
    ensures InForce(ss[i + 1], SettingsAfter(es, i + 1), FeeAfter(es, i + 1))
  {
    assert StepAt(ss, es, i);
    SettingsStep(ss[i], es[i], ss[i + 1]);
  }

  lemma SettingsStep(s: State, e: Event, t: State)
    requires StepsTo(s, e, t)
    ensures match e.ix
            case InitConfig(_, _, _, _, price, slippage) =>
              s.config.None? && t.feeConfig == s.feeConfig && InForce(t, Settings(price, slippage, false), t.feeConfig)
            case SetParams(_, price, slippage) =>
              s.config.Some? && InForce(t, Settings(price, slippage, s.config.value.paused), s.feeConfig)
            case SetPause(_, paused) =>
              s.config.Some?
              && InForce(t, Settings(s.config.value.priceRefMicros, s.config.value.maxSlippageBps, paused), s.feeConfig)
            case InitFeeConfig(_, feeBps, destination) =>
              t.config == s.config && t.feeConfig == Some(FeeConfig(feeBps, destination))
            case SetFee(_, feeBps, destination) =>
              t.config == s.config && t.feeConfig == Some(FeeConfig(feeBps, destination))
            case SetWhitelist(_, venues) =>
              s.config.Some? && t.feeConfig == s.feeConfig
              && InForce(t, Settings(s.config.value.priceRefMicros, s.config.value.maxSlippageBps,
                                     s.config.value.paused), s.feeConfig)
            case _ => t.config == s.config && t.feeConfig == s.feeConfig
  {
    match e.ix
    case ExecuteSell(a) => SellAdvancesGate(s, e.env, a);
    case _ =>
  }

  /** While the last pause instruction said paused, nobody's execution succeeds. */
  lemma {:induction false} PauseHalts(ss: seq<State>, es: seq<Event>, l: Balances, i: nat)
    requires Trace(ss, es) && ss[0] == Genesis(l) && i < |es| && SettingsAfter(es, i).paused
    ensures !es[i].ix.ExecuteBuy? && !es[i].ix.ExecuteSell?
  {
    SettingsOverRuns(ss, es, l, i);
    assert StepAt(ss, es, i);
  }
}
