// Whole runs: every reachable state, over any interleaving of users, keepers, venues and admins.
module Runs {
  import opened Machine
  import opened Ledger
  import Schedule
  import opened Program
  import opened Executions

  /** One committed instruction with its clock and signers. */
  datatype Event = Event(env: Env, ix: Instruction)

  ghost predicate StepsTo(s: State, e: Event, t: State) {
    Step(s, e.env, e.ix) == Ok(t)
  }

  /** States and the committed instructions between them. Clocks are not assumed to be ordered. */
  ghost predicate Trace(ss: seq<State>, es: seq<Event>) {
    |ss| == |es| + 1 && forall i | 0 <= i < |es| :: StepAt(ss, es, i)
  }

  ghost predicate StepAt(ss: seq<State>, es: seq<Event>, i: nat)
    requires |ss| == |es| + 1 && i < |es|
  {
    StepsTo(ss[i], es[i], ss[i + 1])
  }

  ghost predicate ClocksNonNegative(es: seq<Event>) {
    forall i | 0 <= i < |es| :: 0 <= es[i].env.now
  }

  // ---- Transactions give traces ----

  lemma Joined(ss: seq<State>, es: seq<Event>, ts: seq<State>, fs: seq<Event>)
    requires Trace(ss, es) && Trace(ts, fs) && ss[|es|] == ts[0]
    ensures Trace(ss + ts[1..], es + fs)
    ensures (ss + ts[1..])[0] == ss[0] && (ss + ts[1..])[|es + fs|] == ts[|fs|]
  {
    forall i: nat | i < |es + fs| ensures StepAt(ss + ts[1..], es + fs, i) {
      if i < |es| { assert StepAt(ss, es, i); }
      else { assert StepAt(ts, fs, i - |es|); }
    }
  }

  lemma SingleStep(s: State, e: Event)
    requires Step(s, e.env, e.ix).Ok?
    ensures Trace([s, Step(s, e.env, e.ix).value], [e])
  {
    var ss, es := [s, Step(s, e.env, e.ix).value], [e];
    forall i: nat | i < |es| ensures StepAt(ss, es, i) { assert i == 0; }
  }

  /** A committed transaction's instructions, one event each, in order. */
  lemma {:induction false} StepAllTrace(s: State, env: Env, ixs: seq<Instruction>)
    returns (ss: seq<State>, es: seq<Event>)
    requires StepAll(s, env, ixs).Ok?
    ensures Trace(ss, es) && ss[0] == s && ss[|es|] == StepAll(s, env, ixs).value
    ensures |es| == |ixs| && forall i | 0 <= i < |es| :: es[i] == Event(env, ixs[i])
    decreases |ixs|
  {
    if ixs == [] {
      ss, es := [s], [];
    } else {
      var e := Event(env, ixs[0]);
      var next := Step(s, env, ixs[0]).value;
      var ts, fs := StepAllTrace(next, env, ixs[1..]);
      SingleStep(s, e);
      Joined([s, next], [e], ts, fs);
      ss, es := [s, next] + ts[1..], [e] + fs;
    }
  }

  /** The event comes from one of the transactions. */
  ghost predicate Submitted(e: Event, txs: seq<Tx>) {
    exists tx <- txs :: e.env == tx.env && e.ix in tx.ixs
  }

  function EventsOf(env: Env, ixs: seq<Instruction>): (es: seq<Event>)
    ensures |es| == |ixs| && forall i | 0 <= i < |es| :: es[i] == Event(env, ixs[i])
  {
    if ixs == [] then [] else EventsOf(env, ixs[..|ixs| - 1]) + [Event(env, ixs[|ixs| - 1])]
  }

  /** All instructions of the transactions that go through, each tried on what the ones before left, in order. */
  function Happened(s: State, txs: seq<Tx>): seq<Event>
    decreases |txs|
  {
    if txs == [] then [] else
      (if StepAll(s, txs[0].env, txs[0].ixs).Ok? then EventsOf(txs[0].env, txs[0].ixs) else [])
      + Happened(Commit(s, txs[0]), txs[1..])
  }

  /** Any sequence of transactions, each committing wholly or changing nothing, is a trace of exactly the
      instructions of those that go through: what holds of every trace holds of every run. */
  lemma {:induction false} RunTrace(s: State, txs: seq<Tx>) returns (ss: seq<State>, es: seq<Event>)
    ensures Trace(ss, es) && ss[0] == s && ss[|es|] == Run(s, txs)
    ensures es == Happened(s, txs) && forall e <- es :: Submitted(e, txs)
    decreases |txs|
  {
    if txs == [] {
      ss, es := [s], [];
    } else {
      var tx := txs[0];
      ss, es := RunTrace(Commit(s, tx), txs[1..]);
      SubmittedLater(es, txs);
      if StepAll(s, tx.env, tx.ixs).Ok? {
        var us, gs := StepAllTrace(s, tx.env, tx.ixs);
        assert gs == EventsOf(tx.env, tx.ixs);
        assert forall e <- gs :: Submitted(e, txs);
        Joined(us, gs, ss, es);
        ss, es := us + ss[1..], gs + es;
      }
    }
  }

  lemma SubmittedLater(es: seq<Event>, txs: seq<Tx>)
    requires txs != [] && forall e <- es :: Submitted(e, txs[1..])
    ensures forall e <- es :: Submitted(e, txs)
  {
    forall e <- es ensures Submitted(e, txs) {
      assert Submitted(e, txs[1..]);
      var tx :| tx in txs[1..] && e.env == tx.env && e.ix in tx.ixs;
      assert tx in txs;
    }
  }

  // ---- Invariant, supply and identity over runs ----

  lemma {:induction false} InvAlong(ss: seq<State>, es: seq<Event>, i: nat)
    requires Trace(ss, es) && Inv(ss[0]) && ClocksNonNegative(es) && i <= |es|
    ensures Inv(ss[i])
  {
    if i == 0 {
    } else {
      InvAlong(ss, es, i - 1);
      InvAt(ss, es, i - 1);
    }
  }

  lemma InvAt(ss: seq<State>, es: seq<Event>, i: nat)
    requires Trace(ss, es) && i < |es| && 0 <= es[i].env.now && Inv(ss[i])
    ensures Inv(ss[i + 1])
  {
    assert StepAt(ss, es, i);
    StepKeepsInv(ss[i], es[i].env, es[i].ix);
  }

  lemma {:induction false} StepAllKeepsInv(s: State, env: Env, ixs: seq<Instruction>)
    requires Inv(s) && 0 <= env.now && StepAll(s, env, ixs).Ok?
    ensures Inv(StepAll(s, env, ixs).value)
    decreases |ixs|
  {
    if ixs == [] {
    } else {
      StepKeepsInv(s, env, ixs[0]);
      StepAllKeepsInv(Step(s, env, ixs[0]).value, env, ixs[1..]);
    }
  }

  /** The only two ways an instruction can report Overflow in a reachable state: the floor of a sell
      leaves 128 bits, or an execution handed its venue the user's own signature and destination. */
  ghost predicate MayOverflow(s: State, env: Env, ix: Instruction)
    requires Inv(s)
  {
    match ix
    case ExecuteSell(a) => FloorTooWide(s, env, a) || SellExposed(s, env, a)
    case ExecuteBuy(a) => BuyExposed(s, env, a)
    case _ => false
  }

  /** In any state a deployment can reach, with a clock that leaves room for one period, no instruction
      panics, and none overflows except in those two ways. */
  lemma ReachableSafe(ss: seq<State>, es: seq<Event>, l: Balances, i: nat, env: Env, ix: Instruction)
    requires Trace(ss, es) && ss[0] == Genesis(l) && ClocksNonNegative(es) && i <= |es|
    requires 0 <= env.now <= I64_MAX - Schedule.MAX_PERIOD_SECS
    ensures Inv(ss[i])
    ensures Step(ss[i], env, ix).Ok? || Step(ss[i], env, ix).error != Panic
    ensures Step(ss[i], env, ix) == Err(Overflow) ==> MayOverflow(ss[i], env, ix)
  {
    GenesisInv(l);
    InvAlong(ss, es, i);
    if Step(ss[i], env, ix).Err? {
      if ix.ExecuteBuy? {
        BuyArithmeticSafe(ss[i], env, ix.buy);
      } else if ix.ExecuteSell? {
        SellArithmeticSafe(ss[i], env, ix.sell);
      } else {
        AdminArithmeticSafe(ss[i], env, ix);
      }
    }
  }

  lemma StepConserves(s: State, e: Event, t: State, mint: Key)
    requires StepsTo(s, e, t)
    ensures Total(t.ledger, mint) == Total(s.ledger, mint)
  {
    match e.ix
    case ExecuteBuy(a) => BuyOutcome(s, e.env, a);
    case ExecuteSell(a) => SellOutcome(s, e.env, a);
    case CreateAta(owner, m) => if Ata(owner, m) !in s.ledger { OpeningConserves(s.ledger, Ata(owner, m), mint); }
    case Pull(delegator, m, amount) => TransferConserves(s.ledger, PullOp(delegator, m, amount), mint);
    case TokenTransfer(op) => TransferConserves(s.ledger, op, mint);
    case _ =>
  }

  /** No run creates or destroys a unit of any mint. */
  lemma {:induction false} SupplyAlong(ss: seq<State>, es: seq<Event>, i: nat, mint: Key)
    requires Trace(ss, es) && i <= |es|
    ensures Total(ss[i].ledger, mint) == Total(ss[0].ledger, mint)
  {
    if i == 0 {
    } else {
      SupplyAlong(ss, es, i - 1, mint);
      assert StepAt(ss, es, i - 1);
      StepConserves(ss[i - 1], es[i - 1], ss[i], mint);
    }
  }

  /** So a deployment keeps the supply it started with. */
  lemma SupplyOfDeployment(ss: seq<State>, es: seq<Event>, l: Balances, i: nat, mint: Key)
    requires Trace(ss, es) && ss[0] == Genesis(l) && i <= |es|
    ensures Total(ss[i].ledger, mint) == Total(l, mint)
  {
    SupplyAlong(ss, es, i, mint);
  }

  /** Once configured, a deployment never changes its mints or its admin. */
  lemma StepKeepsMints(s: State, e: Event, t: State)
    requires StepsTo(s, e, t) && s.config.Some?
    ensures t.config.Some? && SameMints(s.config.value, t.config.value)
  {
    match e.ix
    case ExecuteSell(a) => SellAdvancesGate(s, e.env, a);
    case _ =>
  }

  predicate SameMints(c: Config, d: Config) {
    c.targetMint == d.targetMint && c.usdcMint == d.usdcMint && c.admin == d.admin
  }

  // ---- Which accounts an instruction can move ----

  /** The accounts a venue's transfers take from. */
  function OpSources(ops: seq<TransferOp>): set<Key> { set op <- ops :: op.from }

  function OpSinks(ops: seq<TransferOp>): set<Key> { set op <- ops :: op.to }

  /** The accounts an instruction takes from: those its transfers name as their source. */
  function Sources(ix: Instruction): set<Key> {
    match ix
    case ExecuteBuy(a) => {a.transientUsdc} + OpSources(a.venue.ops)
    case ExecuteSell(a) => {a.transientTarget} + OpSources(a.venue.ops)
    case Pull(delegator, mint, _) => {Ata(delegator, mint)}
    case TokenTransfer(op) => {op.from}
    case _ => {}
  }

  function Sinks(ix: Instruction): set<Key> {
    match ix
    case ExecuteBuy(a) => {a.feeAta} + OpSinks(a.venue.ops)
    case ExecuteSell(a) => {a.feeAta} + OpSinks(a.venue.ops)
    case Pull(delegator, mint, _) => {Ata(BuyAuthority(delegator), mint)}
    case TokenTransfer(op) => {op.to}
    case _ => {}
  }

  /** An account shrinks only as a source, and grows only as a sink. */
  ghost predicate Flows(l1: Balances, l2: Balances, sources: set<Key>, sinks: set<Key>) {
    l1.Keys <= l2.Keys
    && forall k: Key :: (k in sources || Bal(l1, k) <= Bal(l2, k)) && (k in sinks || Bal(l2, k) <= Bal(l1, k))
  }

  lemma {:induction false} VenueFlows(
    l: Balances, ops: seq<TransferOp>, signers: set<Key>, writable: set<Key>, program: Key)
    requires RunOps(l, ops, signers, writable, program).Ok?
    ensures Flows(l, RunOps(l, ops, signers, writable, program).value, OpSources(ops), OpSinks(ops))
    decreases |ops|
  {
    if ops == [] {
    } else {
      VenueFlows(Transfer(l, ops[0]).value, ops[1..], signers, writable, program);
      assert ops[0].from in OpSources(ops) && ops[0].to in OpSinks(ops);
      assert OpSources(ops[1..]) <= OpSources(ops) && OpSinks(ops[1..]) <= OpSinks(ops);
    }
  }

  lemma SwapFlows(l: Balances, w: Swap, signers: Signers)
    requires w.transient in l && w.dest in l && SkimAndSwap(l, w, signers).Ok?
    ensures Flows(l, SkimAndSwap(l, w, signers).value.ledger,
                  {w.transient} + OpSources(w.venue.ops), {w.feeAta} + OpSinks(w.venue.ops))
  {
    var skimmed := Skim(l, w).value;
    assert Flows(l, skimmed, {w.transient}, {w.feeAta});
    VenueFlows(skimmed, w.venue.ops, Forwarded(w, signers), WritableKeys(w.venue.remaining), w.venue.program);
  }

  lemma SellFlows(s: State, env: Env, a: SellArgs)
    requires SellEffect(s, env, a).Ok?
    ensures Flows(s.ledger, SellEffect(s, env, a).value.ledger, Sources(ExecuteSell(a)), Sinks(ExecuteSell(a)))
  {
    var q, d := SellParts(s, env, a, SellEffect(s, env, a).value);
    SwapFlows(s.ledger, SellSwap(a, q), env.signers);
  }

  lemma BuyFlows(s: State, env: Env, a: BuyArgs)
    requires BuyEffect(s, env, a).Ok?
    ensures Flows(s.ledger, BuyEffect(s, env, a).value.ledger, Sources(ExecuteBuy(a)), Sinks(ExecuteBuy(a)))
  {
    BuyMoves(s, env, a);
    SwapFlows(s.ledger, BuySwap(a, BuyQuote(s, env, a).value), env.signers);
  }

  /** Whoever signs and whatever the venue does, no account shrinks or grows that no transfer names. */
  lemma StepFlows(s: State, e: Event, t: State)
    requires StepsTo(s, e, t)
    ensures Flows(s.ledger, t.ledger, Sources(e.ix), Sinks(e.ix))
  {
    match e.ix
    case ExecuteBuy(a) => BuyFlows(s, e.env, a);
    case ExecuteSell(a) => SellFlows(s, e.env, a);
    case _ =>
  }

  /** A transfer moved its amount from one account to the other, and nothing else. */
  ghost predicate Moved(l1: Balances, l2: Balances, op: TransferOp) {
    l2.Keys == l1.Keys
    && forall k: Key ::
         Bal(l2, k) == Bal(l1, k) + (if k == op.to then op.amount else 0) - (if k == op.from then op.amount else 0)
  }

  /** Every instruction but an execution moves just what it names: a pull, from the delegator's wallet to their
      transient; a transfer, as it says; opening an account moves nothing, and the rest touch no token. */
  lemma TokensMoved(s: State, e: Event, t: State)
    requires StepsTo(s, e, t) && !e.ix.ExecuteBuy? && !e.ix.ExecuteSell?
    ensures match e.ix
            case Pull(user, mint, amount) =>
              t == s.(ledger := t.ledger)
              && Moved(s.ledger, t.ledger, TransferOp(Ata(user, mint), Ata(BuyAuthority(user), mint), user, amount))
            case TokenTransfer(op) => t == s.(ledger := t.ledger) && Moved(s.ledger, t.ledger, op)
            case CreateAta(owner, mint) =>
              t == s.(ledger := t.ledger) && t.ledger.Keys == s.ledger.Keys + {Ata(owner, mint)}
              && forall k: Key :: Bal(t.ledger, k) == Bal(s.ledger, k)
            case _ => t.ledger == s.ledger
  {
    match e.ix
    case Pull(user, mint, amount) => TransferIff(s.ledger, PullOp(user, mint, amount));
    case TokenTransfer(op) => TransferIff(s.ledger, op);
    case _ =>
  }

  // ---- One user's money against everybody else ----

  /** The event acts for the user: their pull, or an execution naming them. */
  predicate For(e: Event, user: Key) {
    match e.ix
    case Pull(delegator, _, _) => delegator == user
    case ExecuteBuy(a) => a.user == user
    case ExecuteSell(a) => a.user == user
    case _ => false
  }

  /** The authorities whose accounts an instruction may debit. */
  ghost function MayDebit(e: Event): iset<Key> {
    match e.ix
    case ExecuteBuy(a) => Spenders(a.user, e.env.signers, a.venue.program)
    case ExecuteSell(a) => Spenders(a.user, e.env.signers, a.venue.program)
    case Pull(delegator, _, _) => iset{delegator}
    case TokenTransfer(op) => iset{op.authority}
    case _ => iset{}
  }

  /** No instruction debits any other authority's accounts, whatever the venue does. */
  lemma StepDebitsOnly(s: State, e: Event, t: State)
    requires StepsTo(s, e, t)
    ensures OnlyDebits(s.ledger, t.ledger, MayDebit(e))
  {
    match e.ix
    case ExecuteBuy(a) => BuyOutcome(s, e.env, a);
    case ExecuteSell(a) => SellOutcome(s, e.env, a);
    case Pull(delegator, m, amount) => TransferFrame(s.ledger, PullOp(delegator, m, amount));
    case TokenTransfer(op) => TransferFrame(s.ledger, op);
    case _ =>
  }

  /** A pull takes exactly its amount from one account of its delegator. */
  lemma PullDebits(s: State, e: Event, t: State, k: Key)
    requires StepsTo(s, e, t) && e.ix.Pull? && k in s.ledger && k in t.ledger && t.ledger[k] < s.ledger[k]
    ensures k == Ata(e.ix.delegator, e.ix.mint) && s.ledger[k] - t.ledger[k] == e.ix.amount
  {
  }

  /** Who can lose what: unless the user signs, their own accounts are debited only by their own pull,
      by exactly its amount, and their transients only by an execution that names them. */
  lemma StepDebits(s: State, e: Event, t: State, user: Key, k: Key)
    requires StepsTo(s, e, t) && user.Raw? && user !in e.env.signers && k.TokenAccount? && k in s.ledger
    ensures k in t.ledger
    ensures k.authority == user && t.ledger[k] < s.ledger[k] ==>
              k == Ata(user, k.mint) && e.ix == Pull(user, k.mint, s.ledger[k] - t.ledger[k])
    ensures k.authority == BuyAuthority(user) && t.ledger[k] < s.ledger[k] ==>
              (e.ix.ExecuteBuy? || e.ix.ExecuteSell?) && For(e, user)
  {
    StepDebitsOnly(s, e, t);
    if t.ledger[k] < s.ledger[k] && k.authority in {user, BuyAuthority(user)} {
      assert k.authority in MayDebit(e);
      if e.ix.Pull? { PullDebits(s, e, t, k); }
      if e.ix.TokenTransfer? { SignedTransfer(s, e, t); }
    }
  }

  lemma SignedTransfer(s: State, e: Event, t: State)
    requires StepsTo(s, e, t) && e.ix.TokenTransfer?
    ensures e.ix.op.authority in e.env.signers && e.ix.op.authority.Raw?
  {
  }

  /** Over any run in which a user neither signs nor is named, nothing of theirs ever shrinks:
      no wallet, no transient, and not their plan. */
  lemma {:induction false} Bystander(ss: seq<State>, es: seq<Event>, i: nat, user: Key, k: Key)
    requires Trace(ss, es) && i <= |es| && user.Raw?
    requires forall j | 0 <= j < |es| :: user !in es[j].env.signers && !For(es[j], user)
    requires k.TokenAccount? && k.authority in {user, BuyAuthority(user)} && k in ss[0].ledger
    ensures k in ss[i].ledger && ss[0].ledger[k] <= ss[i].ledger[k]
    ensures user in ss[0].plans <==> user in ss[i].plans
    ensures user in ss[0].plans ==> ss[i].plans[user] == ss[0].plans[user]
  {
    if i == 0 {
    } else {
      Bystander(ss, es, i - 1, user, k);
      BystanderAt(ss, es, i - 1, user, k);
    }
  }

  lemma BystanderAt(ss: seq<State>, es: seq<Event>, i: nat, user: Key, k: Key)
    requires Trace(ss, es) && i < |es| && user.Raw? && user !in es[i].env.signers && !For(es[i], user)
    requires k.TokenAccount? && k.authority in {user, BuyAuthority(user)} && k in ss[i].ledger
    ensures k in ss[i + 1].ledger && ss[i].ledger[k] <= ss[i + 1].ledger[k]
    ensures user in ss[i].plans <==> user in ss[i + 1].plans
    ensures user in ss[i].plans ==> ss[i + 1].plans[user] == ss[i].plans[user]
  {
    assert StepAt(ss, es, i);
    StepDebits(ss[i], es[i], ss[i + 1], user, k);
    StepPlans(ss[i], es[i], ss[i + 1], user);
  }

  lemma StepPlans(s: State, e: Event, t: State, user: Key)
    requires StepsTo(s, e, t) && user !in e.env.signers && !For(e, user)
    ensures user in s.plans <==> user in t.plans
    ensures user in s.plans ==> t.plans[user] == s.plans[user]
  {
    if e.ix.ExecuteSell? { SellAdvancesGate(s, e.env, e.ix.sell); }
  }
}
