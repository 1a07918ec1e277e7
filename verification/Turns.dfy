// One turn of the daemon: read the chain, compose a crank for one delegation, submit it; and what a turn
// leaves alone.
module Turns {
  import opened Machine
  import opened Ledger
  import opened Schedule
  import opened Floors
  import opened Program
  import opened Executions
  import opened Exposure
  import opened Runs
  import opened Keeper
  import opened Agreement
  import Rounding
  import opened MockVenue

  type KeyPair = k: Key | k.Raw? witness Raw(0)

  /** The plan as the daemon reads it. No reachable state has one without a positive period. */
  function ReadPlan(s: State, user: Key): Option<SellPlan> {
    if user in s.plans && 0 < s.plans[user].periodSecs then Some(s.plans[user]) else None
  }

  function SellCrank(s: State, f: Fixture, fee: FeeView, keeper: KeyPair, user: Key, avail: U64, now: int): Crank {
    CrankSellSpec(f, keeper, user, fee, ReadPlan(s, user), now, WalletOf(s, f, user), Residue(s, f, user), avail)
  }

  function BuyCrank(s: State, f: Fixture, fee: FeeView, keeper: KeyPair, user: Key, avail: U64): Crank {
    CrankBuySpec(f, keeper, user, fee, avail, BuyResidue(s, f, user))
  }

  /** What the crank does to the chain if its transaction lands at this clock; it may never land. */
  function Land(s: State, keeper: KeyPair, crank: Crank, at: Option<I64>): State {
    if crank.Send? && at.Some? then Commit(s, Tx(Env(at.value, {keeper}), crank.ixs)) else s
  }

  datatype Outcome = Skipped | Committed | Failed

  function OutcomeOf(s: State, keeper: KeyPair, crank: Crank, at: Option<I64>): Outcome {
    if crank.Skip? then Skipped
    else if at.Some? && StepAll(s, Env(at.value, {keeper}), crank.ixs).Ok? then Committed
    else Failed
  }

  /** A crank that was skipped or failed leaves the chain as it was. */
  lemma {:induction false} OnlyCommittedMoves(s: State, keeper: KeyPair, crank: Crank, at: Option<I64>)
    ensures OutcomeOf(s, keeper, crank, at) != Committed ==> Land(s, keeper, crank, at) == s
    ensures OutcomeOf(s, keeper, crank, at) == Committed ==>
              crank.Send? && at.Some?
              && StepAll(s, Env(at.value, {keeper}), crank.ixs) == Ok(Land(s, keeper, crank, at))
  {
  }

  // ---- What a turn can move ----

  function InMint(f: Fixture, side: Side): Key { if side.Buy? then f.usdcMint else f.targetMint }

  function OutMint(f: Fixture, side: Side): Key { InMint(f, side.Other()) }

  /** A turn for this user takes only from their wallet and transient of its mint, and from the paying pool. */
  function TurnSources(f: Fixture, side: Side, user: Key): set<Key> {
    {Ata(user, InMint(f, side)), Ata(BuyAuthority(user), InMint(f, side)),
     if side.Buy? then f.poolTarget else f.poolUsdc}
  }

  /** It adds only to that transient, the fee account, the receiving pool, and the user's wallet of the other mint. */
  function TurnSinks(f: Fixture, fee: FeeView, keeper: Key, side: Side, user: Key): set<Key> {
    {Ata(BuyAuthority(user), InMint(f, side)), Ata(FeeOwner(fee, keeper), InMint(f, side)),
     if side.Buy? then f.poolUsdc else f.poolTarget, Ata(user, OutMint(f, side))}
  }

  predicate Composed(ix: Instruction, f: Fixture, fee: FeeView, keeper: Key, side: Side, user: Key) {
    Sources(ix) <= TurnSources(f, side, user) && Sinks(ix) <= TurnSinks(f, fee, keeper, side, user)
    && match ix
       case CreateAta(_, _) => true
       case Pull(_, _, _) => true
       case ExecuteBuy(a) => side.Buy?
       case ExecuteSell(a) => side.Sell? && a.user == user
       case _ => false
  }

  /** Every instruction of a crank for this user and side is one of those. */
  ghost predicate CrankFor(crank: Crank, f: Fixture, fee: FeeView, keeper: Key, side: Side, user: Key) {
    crank.Send? ==> forall ix <- crank.ixs :: Composed(ix, f, fee, keeper, side, user)
  }

  lemma SellCrankComposed(s: State, f: Fixture, fee: FeeView, keeper: KeyPair, user: Key, avail: U64, now: int)
    ensures CrankFor(SellCrank(s, f, fee, keeper, user, avail, now), f, fee, keeper, Sell, user)
  {
  }

  lemma BuyCrankComposed(s: State, f: Fixture, fee: FeeView, keeper: KeyPair, user: Key, avail: U64)
    ensures CrankFor(BuyCrank(s, f, fee, keeper, user, avail), f, fee, keeper, Buy, user)
  {
  }

  lemma FlowsTransitive(a: Balances, b: Balances, c: Balances, sources: set<Key>, sinks: set<Key>)
    requires Flows(a, b, sources, sinks) && Flows(b, c, sources, sinks)
    ensures Flows(a, c, sources, sinks)
  {
    forall k: Key
      ensures (k in sources || Bal(a, k) <= Bal(c, k)) && (k in sinks || Bal(c, k) <= Bal(a, k))
    {
      assert k in sources || Bal(a, k) <= Bal(b, k);
      assert k in sinks || Bal(b, k) <= Bal(a, k);
    }
  }

  /** The instructions of a crank change no configuration, no supply, and no plan but the one they sell under. */
  lemma ComposedStep(
      s: State, env: Env, ix: Instruction, t: State, f: Fixture, fee: FeeView, keeper: Key, side: Side, user: Key)
    requires Step(s, env, ix) == Ok(t) && 0 <= env.now && Composed(ix, f, fee, keeper, side, user)
    requires Deployed(s, f, fee)
    ensures Deployed(t, f, fee)
            && Flows(s.ledger, t.ledger, TurnSources(f, side, user), TurnSinks(f, fee, keeper, side, user))
    ensures SamePlans(s, t, side, user)
  {
    var e := Event(env, ix);
    StepFlows(s, e, t);
    StepKeepsInv(s, env, ix);
    ComposedSettings(s, env, ix, t, f, fee, keeper, side, user);
    forall mint: Key ensures Total(t.ledger, mint) < U64_LIMIT { StepConserves(s, e, t, mint); }
  }

  /** Only a sell changes a plan, and only its own user's. */
  ghost predicate SamePlans(s: State, t: State, side: Side, user: Key) {
    s.plans.Keys == t.plans.Keys && forall u <- s.plans :: (side.Sell? && u == user) || t.plans[u] == s.plans[u]
  }

  lemma ComposedSettings(
    s: State, env: Env, ix: Instruction, t: State, f: Fixture, fee: FeeView, keeper: Key, side: Side, user: Key)
    requires Step(s, env, ix) == Ok(t) && Composed(ix, f, fee, keeper, side, user)
    ensures t.config == s.config && t.feeConfig == s.feeConfig && SamePlans(s, t, side, user)
  {
    match ix
    case ExecuteSell(a) => SellAdvancesGate(s, env, a);
    case ExecuteBuy(a) => BuyMoves(s, env, a);
    case _ =>
  }

  lemma {:induction false} ComposedRun(
    s: State, env: Env, ixs: seq<Instruction>, t: State, f: Fixture, fee: FeeView, keeper: Key, side: Side, user: Key)
    requires StepAll(s, env, ixs) == Ok(t) && 0 <= env.now && Deployed(s, f, fee)
    requires forall ix <- ixs :: Composed(ix, f, fee, keeper, side, user)
    ensures Deployed(t, f, fee)
            && Flows(s.ledger, t.ledger, TurnSources(f, side, user), TurnSinks(f, fee, keeper, side, user))
    ensures SamePlans(s, t, side, user)
    decreases |ixs|
  {
    if ixs == [] {
    } else {
      var next := Step(s, env, ixs[0]).value;
      ComposedStep(s, env, ixs[0], next, f, fee, keeper, side, user);
      ComposedRun(next, env, ixs[1..], t, f, fee, keeper, side, user);
      FlowsTransitive(s.ledger, next.ledger, t.ledger, TurnSources(f, side, user),
                      TurnSinks(f, fee, keeper, side, user));
    }
  }

  /** A turn keeps the deployment, moves only the accounts of its own user and mint, the pools and the fee
      account, and changes no other user's plan; a buy changes none. */
  lemma TurnConfined(
      s: State, f: Fixture, fee: FeeView, keeper: KeyPair, side: Side, user: Key, crank: Crank, at: Option<I64>)
    requires Deployed(s, f, fee) && CrankFor(crank, f, fee, keeper, side, user) && (at.Some? ==> 0 <= at.value)
    ensures var t := Land(s, keeper, crank, at);
            Deployed(t, f, fee) && SamePlans(s, t, side, user)
            && Flows(s.ledger, t.ledger, TurnSources(f, side, user), TurnSinks(f, fee, keeper, side, user))
  {
    OnlyCommittedMoves(s, keeper, crank, at);
    if OutcomeOf(s, keeper, crank, at) == Committed {
      ComposedRun(s, Env(at.value, {keeper}), crank.ixs, Land(s, keeper, crank, at), f, fee, keeper, side, user);
    }
  }

  /** What one user's crank in one mint starts from is still there: the transient exactly, the wallet at least,
      and for a sell the plan. */
  ghost predicate StillThere(s: State, t: State, f: Fixture, user: Key, side: Side) {
    s.ledger.Keys <= t.ledger.Keys
    && Bal(t.ledger, Ata(BuyAuthority(user), InMint(f, side)))
       == Bal(s.ledger, Ata(BuyAuthority(user), InMint(f, side)))
    && Bal(s.ledger, Ata(user, InMint(f, side))) <= Bal(t.ledger, Ata(user, InMint(f, side)))
    && (side.Sell? ==> (user in s.plans <==> user in t.plans))
    && (side.Sell? && user in s.plans ==> t.plans[user] == s.plans[user])
  }

  /** Another slot's turn, of another user or of the same user's other mint, leaves that alone, whether it
      commits, fails or never lands. */
  lemma OtherTurnKeeps(s: State, f: Fixture, fee: FeeView, keeper: KeyPair, side: Side, user: KeyPair, crank: Crank,
                       at: Option<I64>, other: KeyPair, otherSide: Side)
    requires Deployed(s, f, fee) && CrankFor(crank, f, fee, keeper, side, user) && (at.Some? ==> 0 <= at.value)
    requires user != other || side != otherSide
    requires fee.destination.value != BuyAuthority(other)
    ensures var t := Land(s, keeper, crank, at); Deployed(t, f, fee) && StillThere(s, t, f, other, otherSide)
  {
    TurnConfined(s, f, fee, keeper, side, user, crank, at);
    var transient, wallet := Ata(BuyAuthority(other), InMint(f, otherSide)), Ata(other, InMint(f, otherSide));
    assert transient !in TurnSources(f, side, user) && transient !in TurnSinks(f, fee, keeper, side, user);
    assert wallet !in TurnSources(f, side, user);
  }

  // ---- The user's own crank ----

  /** The daemon's sell never exposes its user's wallet, even where the keeper who signs it is that user. */
  lemma DaemonLeavesWallet(s: State, f: Fixture, fee: FeeView, keeper: KeyPair, user: Key, amountIn: nat, env: Env)
    requires Deployed(s, f, fee) && user.Raw?
    ensures var m := Leg(f, Sell, keeper, user, fee, amountIn);
            !Exposes(s, env, SellInstruction(keeper, m), Wallet(m)) && Wallet(m) == Ata(user, f.targetMint)
  {
    var m := Leg(f, Sell, keeper, user, fee, amountIn);
    NotHanded(m);
  }

  lemma NotHanded(m: MockSwap)
    requires m.user.Raw? && m.inMint != m.outMint
    requires m.poolIn.TokenAccount? && m.poolIn.authority.Pda? && m.poolOut.TokenAccount? && m.poolOut.authority.Pda?
    ensures Wallet(m) !in WritableKeys(m.Call().remaining)
  {
  }

  // ---- What a turn takes from the pools ----

  function PayingPool(f: Fixture, side: Side): Key { if side.Buy? then f.poolTarget else f.poolUsdc }

  /** What one composed instruction takes from an account that neither the user nor the router signs for. */
  function IxOutflow(ix: Instruction, k: Key): nat {
    match ix
    case ExecuteBuy(a) => Outflow(a.venue.ops, k)
    case ExecuteSell(a) => Outflow(a.venue.ops, k)
    case _ => 0
  }

  function IxsOutflow(ixs: seq<Instruction>, k: Key): nat {
    if ixs == [] then 0 else IxOutflow(ixs[0], k) + IxsOutflow(ixs[1..], k)
  }

  lemma StepOutflow(s: State, env: Env, ix: Instruction, t: State, k: Key)
    requires Step(s, env, ix) == Ok(t) && !ix.TokenTransfer? && k.TokenAccount? && k.authority.Pda?
    ensures Bal(s.ledger, k) <= Bal(t.ledger, k) as int + IxOutflow(ix, k)
  {
    match ix
    case ExecuteBuy(a) =>
      BuyMoves(s, env, a);
      BuyGuards(s, env, a);
      SwapOutflow(s.ledger, BuySwap(a, BuyQuote(s, env, a).value), env.signers, k);
    case ExecuteSell(a) =>
      SellGuards(s, env, a);
      var q, d := SellParts(s, env, a, t);
      SwapOutflow(s.ledger, SellSwap(a, q), env.signers, k);
    case _ =>
  }

  lemma {:induction false} SwapOutflow(l: Balances, w: Swap, signers: Signers, k: Key)
    requires w.transient in l && w.dest in l && SkimAndSwap(l, w, signers).Ok? && k != w.transient
    ensures Bal(l, k) <= Bal(SkimAndSwap(l, w, signers).value.ledger, k) as int + Outflow(w.venue.ops, k)
  {
    OutflowBounds(Skim(l, w).value, w.venue.ops, Forwarded(w, signers), WritableKeys(w.venue.remaining),
                  w.venue.program, k);
  }

  lemma {:induction false} RunOutflow(s: State, env: Env, ixs: seq<Instruction>, t: State, k: Key)
    requires StepAll(s, env, ixs) == Ok(t) && k.TokenAccount? && k.authority.Pda?
    requires forall ix <- ixs :: !ix.TokenTransfer?
    ensures Bal(s.ledger, k) <= Bal(t.ledger, k) as int + IxsOutflow(ixs, k)
    decreases |ixs|
  {
    if ixs == [] {
    } else {
      var next := Step(s, env, ixs[0]).value;
      StepOutflow(s, env, ixs[0], next, k);
      RunOutflow(next, env, ixs[1..], t, k);
    }
  }

  lemma {:induction false} IxsOutflowAppend(xs: seq<Instruction>, ys: seq<Instruction>, k: Key)
    ensures IxsOutflow(xs + ys, k) == IxsOutflow(xs, k) + IxsOutflow(ys, k)
    decreases |xs|
  {
    if xs == [] {
      assert xs + ys == ys;
    } else {
      assert (xs + ys)[1..] == xs[1..] + ys;
      IxsOutflowAppend(xs[1..], ys, k);
    }
  }

  lemma NetAtMost(f: Fixture, side: Side, keeper: Key, user: Key, fee: FeeView, amountIn: nat)
    requires fee.bps <= 10_000
    ensures Leg(f, side, keeper, user, fee, amountIn).net <= amountIn
  {
    LegFields(f, side, keeper, user, fee, amountIn);
    Rounding.MulMono(fee.bps, 10_000, amountIn);
    Rounding.DivMono(amountIn * fee.bps, amountIn * 10_000, 10_000);
    Rounding.DivUnique(amountIn * 10_000, 10_000, amountIn);
    EncodeAtMost(amountIn - FeeOn(amountIn, fee));
  }

  lemma EncodeAtMost(x: nat)
    ensures Encode(x) <= x
  {
  }

  /** Of a crank's instructions only the execution takes from the pool, and it takes the net. */
  lemma {:induction false} CrankOutflow(m: MockSwap, pulls: seq<Instruction>, last: Instruction)
    requires |pulls| <= 1 && forall ix <- pulls :: ix.Pull?
    requires last.ExecuteBuy? || last.ExecuteSell?
    requires (if last.ExecuteBuy? then last.buy.venue else last.sell.venue) == m.Call()
    requires m.poolOut != m.Transient()
    ensures IxsOutflow(Prelude(m) + pulls + [last], m.poolOut) == m.net
  {
    var k, ops := m.poolOut, m.Call().ops;
    IxsOutflowAppend(Prelude(m) + pulls, [last], k);
    IxsOutflowAppend(Prelude(m), pulls, k);
    assert ops[1..] == [ops[1]] && ops[1..][1..] == [];
    assert Outflow(ops[1..], k) == m.net;
    assert [last][1..] == [];
    assert IxsOutflow([last], k) == m.net;
    assert pulls == [] || (pulls[0] in pulls && pulls[1..] == []);
    assert IxsOutflow(pulls, k) == 0;
    assert Prelude(m)[1..] == [Prelude(m)[1]] && Prelude(m)[1..][1..] == [];
    assert IxsOutflow(Prelude(m)[1..], k) == 0;
  }

  lemma SellCrankOutflow(s: State, f: Fixture, fee: FeeView, keeper: KeyPair, user: Key, avail: U64, now: int)
    requires Deployed(s, f, fee) && SellCrank(s, f, fee, keeper, user, avail, now).Send?
    ensures ReadPlan(s, user).Some?
    ensures IxsOutflow(SellCrank(s, f, fee, keeper, user, avail, now).ixs, f.poolUsdc)
            <= DaemonPull(ReadPlan(s, user).value, now, WalletOf(s, f, user), Residue(s, f, user), avail)
               + Residue(s, f, user)
  {
    var plan := ReadPlan(s, user).value;
    var pull := DaemonPull(plan, now, WalletOf(s, f, user), Residue(s, f, user), avail);
    var m := Leg(f, Sell, keeper, user, fee, pull + Residue(s, f, user));
    NetAtMost(f, Sell, keeper, user, fee, pull + Residue(s, f, user));
    CrankOutflow(m, if pull > 0 then [Pull(user, f.targetMint, Encode(pull))] else [], SellInstruction(keeper, m));
  }

  lemma BuyCrankOutflow(s: State, f: Fixture, fee: FeeView, keeper: KeyPair, user: Key, avail: U64)
    requires Deployed(s, f, fee) && BuyCrank(s, f, fee, keeper, user, avail).Send?
    ensures IxsOutflow(BuyCrank(s, f, fee, keeper, user, avail).ixs, f.poolTarget) <= avail + BuyResidue(s, f, user)
  {
    var m := Leg(f, Buy, keeper, user, fee, avail + BuyResidue(s, f, user));
    NetAtMost(f, Buy, keeper, user, fee, avail + BuyResidue(s, f, user));
    CrankOutflow(m, [Pull(user, f.usdcMint, avail)], BuyInstruction(keeper, m));
  }

  /** A buy that the wallet does not cover is refused. */
  lemma {:induction false} UncoveredBuyFails(
      s: State, f: Fixture, fee: FeeView, keeper: KeyPair, user: Key, avail: U64, env: Env)
    requires Deployed(s, f, fee) && user.Raw? && BuyCrank(s, f, fee, keeper, user, avail).Send?
    requires Bal(s.ledger, Ata(user, f.usdcMint)) < avail
    ensures StepAll(s, env, BuyCrank(s, f, fee, keeper, user, avail).ixs).Err?
  {
    var m := Leg(f, Buy, keeper, user, fee, avail + BuyResidue(s, f, user));
    CrankBuyComposes(f, keeper, user, fee, avail, BuyResidue(s, f, user));
    UncoveredPullFails(s, f, fee, env, m, avail, BuyInstruction(keeper, m));
  }

  /** Landing a crank takes at most its own outflow from a pool. */
  lemma LandOutflow(s: State, f: Fixture, fee: FeeView, keeper: KeyPair, side: Side, user: Key, crank: Crank,
                    at: Option<I64>, bound: nat)
    requires Deployed(s, f, fee) && CrankFor(crank, f, fee, keeper, side, user)
    requires crank.Send? ==> IxsOutflow(crank.ixs, PayingPool(f, side)) <= bound
    ensures Bal(s.ledger, PayingPool(f, side))
            <= Bal(Land(s, keeper, crank, at).ledger, PayingPool(f, side)) as int + bound
  {
    OnlyCommittedMoves(s, keeper, crank, at);
    if OutcomeOf(s, keeper, crank, at) == Committed {
      RunOutflow(s, Env(at.value, {keeper}), crank.ixs, Land(s, keeper, crank, at), PayingPool(f, side));
    }
  }

  // ---- Without a fee configuration ----

  lemma {:induction false} StagingKeepsFee(s: State, env: Env, ixs: seq<Instruction>, t: State)
    requires StepAll(s, env, ixs) == Ok(t) && forall ix <- ixs :: ix.CreateAta? || ix.Pull?
    ensures t.feeConfig == s.feeConfig
    decreases |ixs|
  {
    if ixs == [] {
    } else {
      assert ixs[0] in ixs;
      StagingKeepsFee(Step(s, env, ixs[0]).value, env, ixs[1..], t);
    }
  }

  /** Where no fee account exists yet, the daemon reads a rate of zero and still composes its cranks; all of them
      fail, because executions ask for that account. */
  lemma {:induction false} NoFeeConfigFails(s: State, env: Env, m: MockSwap, pulls: seq<Instruction>, last: Instruction)
    requires s.feeConfig.None? && (forall ix <- pulls :: ix.Pull?) && (last.ExecuteBuy? || last.ExecuteSell?)
    ensures StepAll(s, env, Prelude(m) + pulls + [last]).Err?
  {
    StepAllAppend(s, env, Prelude(m) + pulls, [last]);
    var staged := StepAll(s, env, Prelude(m) + pulls);
    if staged.Ok? {
      StagingKeepsFee(s, env, Prelude(m) + pulls, staged.value);
      StepAllOne(staged.value, env, last);
    }
  }

  lemma {:induction false} NoFeeNoSell(
      s: State, f: Fixture, fee: FeeView, keeper: KeyPair, user: Key, avail: U64, now: int, env: Env)
    requires s.feeConfig.None? && SellCrank(s, f, fee, keeper, user, avail, now).Send?
    ensures StepAll(s, env, SellCrank(s, f, fee, keeper, user, avail, now).ixs).Err?
  {
    var plan, residue := ReadPlan(s, user).value, Residue(s, f, user);
    var pull := DaemonPull(plan, now, WalletOf(s, f, user), residue, avail);
    var m := Leg(f, Sell, keeper, user, fee, pull + residue);
    var pulls := if pull > 0 then [Pull(user, f.targetMint, Encode(pull))] else [];
    NoFeeConfigFails(s, env, m, pulls, SellInstruction(keeper, m));
  }

  lemma {:induction false} NoFeeNoBuy(
      s: State, f: Fixture, fee: FeeView, keeper: KeyPair, user: Key, avail: U64, env: Env)
    requires s.feeConfig.None? && BuyCrank(s, f, fee, keeper, user, avail).Send?
    ensures StepAll(s, env, BuyCrank(s, f, fee, keeper, user, avail).ixs).Err?
  {
    var m := BuyLeg(s, f, fee, keeper, user, avail);
    NoFeeConfigFails(s, env, m, [Pull(user, f.usdcMint, avail)], BuyInstruction(keeper, m));
  }

  /** So no crank commits on such a chain. */
  lemma NoFeeNoCrank(
      s: State, f: Fixture, fee: FeeView, keeper: KeyPair, user: Key, avail: U64, now: int, at: Option<I64>)
    requires s.feeConfig.None?
    ensures OutcomeOf(s, keeper, SellCrank(s, f, fee, keeper, user, avail, now), at) != Committed
    ensures OutcomeOf(s, keeper, BuyCrank(s, f, fee, keeper, user, avail), at) != Committed
  {
    if at.Some? {
      var env, sell := Env(at.value, {keeper}), SellCrank(s, f, fee, keeper, user, avail, now);
      if sell.Send? { NoFeeNoSell(s, f, fee, keeper, user, avail, now, env); }
      if BuyCrank(s, f, fee, keeper, user, avail).Send? { NoFeeNoBuy(s, f, fee, keeper, user, avail, env); }
    }
  }
}
