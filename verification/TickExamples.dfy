// A concrete tick: two users' buys against a pool that can pay one of them.
module TickExamples {
  import opened Machine
  import opened Ledger
  import opened Floors
  import opened Program
  import opened Keeper
  import opened Agreement
  import opened Turns
  import opened Dispatch
  import opened Witnesses

  const FIRST: KeyPair := Raw(30)
  const SECOND: KeyPair := Raw(31)

  /** Five in each wallet, and five in the pool that pays. */
  function TwoWallets(): Balances {
    map[Ata(FIRST, USDC) := 5][Ata(SECOND, USDC) := 5][Ata(FEE_OWNER, USDC) := 0]
       [FIXTURE.poolUsdc := 0][FIXTURE.poolTarget := 5]
  }

  function TwoBuyers(): State { Example(0, 0, 0, 0).(ledger := TwoWallets(), plans := map[]) }

  function FiveADay(user: Key): Delegation { Delegation(user, user, USDC, 1_000_000, 5, 86_400, 0, 0) }

  function BothDelegate(): seq<Delegation> { [FiveADay(FIRST), FiveADay(SECOND)] }

  function BothLand(keeper: KeyPair): Round {
    Round(FIXTURE, FEE, keeper, 0, map[Slot(FIRST, USDC) := 0, Slot(SECOND, USDC) := 0])
  }

  lemma TwoBuyersDeployed()
    ensures Deployed(TwoBuyers(), FIXTURE, FEE)
  {
    forall mint: Key ensures Total(TwoWallets(), mint) < U64_LIMIT {
      var l0: Balances := map[];
      var l1 := l0[Ata(FIRST, USDC) := 5];
      var l2 := l1[Ata(SECOND, USDC) := 5];
      var l3 := l2[Ata(FEE_OWNER, USDC) := 0];
      var l4 := l3[FIXTURE.poolUsdc := 0];
      assert Total(l0, mint) == 0;
      AddedBalance(l0, Ata(FIRST, USDC), 5, mint);
      AddedBalance(l1, Ata(SECOND, USDC), 5, mint);
      AddedBalance(l2, Ata(FEE_OWNER, USDC), 0, mint);
      AddedBalance(l3, FIXTURE.poolUsdc, 0, mint);
      AddedBalance(l4, FIXTURE.poolTarget, 5, mint);
    }
    assert TwoBuyers().config.value.swapPrograms[0] == VENUE;
  }

  /** The slots are attempted in the order of the list. */
  lemma {:induction false} SlotsInOrder(keeper: KeyPair, log: seq<Attempt>)
    requires Ticked(log, BothDelegate(), TwoBuyers(), BothLand(keeper))
    ensures AttemptedSlots(log) == [Slot(FIRST, USDC), Slot(SECOND, USDC)]
  {
    var dels, order := BothDelegate(), [Slot(FIRST, USDC), Slot(SECOND, USDC)];
    assert dels[0].mint == dels[1].mint == USDC;
    assert FirstFor(dels, order[0], 0) && FirstFor(dels, order[1], 1);
    TickedOrder(log, dels, TwoBuyers(), BothLand(keeper));
    var slots := Slots(AttemptedSlots(log));
    forall slot: Slot ensures slot in slots <==> slot in order {
      assert slot in slots <==> Filled(dels, 2, FIXTURE, slot);
    }
    forall slot | slot in slots ensures exists a: nat :: FirstFor(dels, slot, a) {
      assert slot == order[0] || slot == order[1];
    }
    KeyOrderIsUnique(AttemptedSlots(log), order, dels, slots);
  }

  lemma BothAttempted(keeper: KeyPair, log: seq<Attempt>)
    requires Ticked(log, BothDelegate(), TwoBuyers(), BothLand(keeper))
    ensures |log| == 2 && log[0].del == FiveADay(FIRST) && log[1].del == FiveADay(SECOND)
  {
    SlotsInOrder(keeper, log);
    AttemptIsTurn(log, BothDelegate(), TwoBuyers(), BothLand(keeper), 0);
    AttemptIsTurn(log, BothDelegate(), TwoBuyers(), BothLand(keeper), 1);
  }

  lemma FiveToSpend(user: KeyPair, residue: U64, keeper: KeyPair)
    requires residue == 0
    ensures Available(FiveADay(user), 0) == 5
    ensures var m := Leg(FIXTURE, Buy, keeper, user, FEE, 5 + residue); m.net == 5 && m.FeeLeaves()
  {
  }

  /** With five in the wallet, nothing in the transient and five in the pool, the crank commits and empties it. */
  lemma BuySettles(t: State, r: Round, user: KeyPair, after: State, pool: U64)
    requires Deployed(t, FIXTURE, FEE) && r.f == FIXTURE && r.fee == FEE && r.now == 0 && pool in {0, 5}
    requires BuyResidue(t, FIXTURE, user) == 0 && 5 <= Bal(t.ledger, Ata(user, USDC))
    requires Bal(t.ledger, FIXTURE.poolTarget) == pool && Landing(r, FiveADay(user)).Some?
    requires BuySettled(t, r, FiveADay(user), after)
    ensures TurnOutcome(t, r, FiveADay(user)) == if pool == 5 then Committed else Failed
    ensures Bal(after.ledger, FIXTURE.poolTarget) == 0
  {
    FiveToSpend(user, 0, r.keeper);
  }

  lemma {:induction false} Settled(keeper: KeyPair, log: seq<Attempt>, i: nat, user: KeyPair)
    requires Ticked(log, BothDelegate(), TwoBuyers(), BothLand(keeper)) && user in {FIRST, SECOND}
    requires i < |log| && log[i].del == FiveADay(user) && BuyTarget(TwoBuyers(), FIXTURE, FEE, keeper, user)
    ensures Landing(BothLand(keeper), FiveADay(user)).Some?
    ensures var s, r, ds := TwoBuyers(), BothLand(keeper), Attempted(log);
            BuySettled(Before(s, r, ds, i), r, FiveADay(user), Before(s, r, ds, i + 1))
            && log[i].outcome == TurnOutcome(Before(s, r, ds, i), r, FiveADay(user))
  {
    TickSettlesBuy(log, BothDelegate(), TwoBuyers(), BothLand(keeper), i);
  }

  /** The same of an attempt in the log of a tick. */
  lemma {:induction false} BuySettledAt(keeper: KeyPair, log: seq<Attempt>, i: nat, user: KeyPair, pool: U64)
    requires Ticked(log, BothDelegate(), TwoBuyers(), BothLand(keeper)) && user in {FIRST, SECOND}
    requires i < |log| && log[i].del == FiveADay(user) && pool in {0, 5}
    requires BuyTarget(TwoBuyers(), FIXTURE, FEE, keeper, user)
    requires var t := Before(TwoBuyers(), BothLand(keeper), Attempted(log), i);
             Bal(t.ledger, FIXTURE.poolTarget) == pool && Finds(t, user)
    ensures log[i].outcome == if pool == 5 then Committed else Failed
    ensures Bal(Before(TwoBuyers(), BothLand(keeper), Attempted(log), i + 1).ledger, FIXTURE.poolTarget) == 0
  {
    var s, r, ds := TwoBuyers(), BothLand(keeper), Attempted(log);
    Settled(keeper, log, i, user);
    BuySettles(Before(s, r, ds, i), r, user, Before(s, r, ds, i + 1), pool);
  }

  ghost predicate Finds(t: State, user: KeyPair) {
    Deployed(t, FIXTURE, FEE) && BuyResidue(t, FIXTURE, user) == 0 && 5 <= Bal(t.ledger, Ata(user, USDC))
  }

  lemma BuyersReady(keeper: KeyPair)
    ensures var s := TwoBuyers();
            BuyTarget(s, FIXTURE, FEE, keeper, FIRST) && BuyTarget(s, FIXTURE, FEE, keeper, SECOND)
            && Finds(s, FIRST) && Finds(s, SECOND) && Bal(s.ledger, FIXTURE.poolTarget) == 5
  {
    TwoBuyersDeployed();
  }

  lemma {:induction false} SecondFinds(keeper: KeyPair, log: seq<Attempt>)
    requires Ticked(log, BothDelegate(), TwoBuyers(), BothLand(keeper)) && Finds(TwoBuyers(), SECOND)
    requires |log| == 2 && log[1].del == FiveADay(SECOND)
    ensures Finds(Before(TwoBuyers(), BothLand(keeper), Attempted(log), 1), SECOND)
  {
    var s, r, ds := TwoBuyers(), BothLand(keeper), Attempted(log);
    AttemptsApart(log, BothDelegate(), s, r);
    FoundAtTurn(s, r, ds, 1);
  }

  lemma {:induction false} AtStart(keeper: KeyPair, log: seq<Attempt>)
    requires log != []
    ensures Before(TwoBuyers(), BothLand(keeper), Attempted(log), 0) == TwoBuyers()
  {
    assert Attempted(log)[..0] == [];
  }

  /** Of two buys that each ask for all that the pool holds, the one listed first is paid and the other fails: the
      order of a tick is visible on the chain. */
  lemma FirstListedIsPaid(keeper: KeyPair, log: seq<Attempt>)
    requires Ticked(log, BothDelegate(), TwoBuyers(), BothLand(keeper))
    ensures log == [Attempt(FiveADay(FIRST), Committed), Attempt(FiveADay(SECOND), Failed)]
  {
    BothAttempted(keeper, log);
    BuyersReady(keeper);
    AtStart(keeper, log);
    BuySettledAt(keeper, log, 0, FIRST, 5);
    SecondFinds(keeper, log);
    BuySettledAt(keeper, log, 1, SECOND, 0);
  }
}
