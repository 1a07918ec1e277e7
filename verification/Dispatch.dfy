// One tick of the daemon over the whole deployment: choose a delegation for each (delegator, mint), then crank
// each choice once, whatever becomes of the others.
module Dispatch {
  import opened Machine
  import opened Ledger
  import opened Schedule
  import opened Floors
  import opened Program
  import opened Executions
  import opened Runs
  import opened Keeper
  import opened Agreement
  import opened Turns
  import opened Router
  import opened Rail
  import Rounding

  /** What the daemon groups by. */
  datatype Slot = Slot(delegator: Key, mint: Key)

  function SlotOf(d: Delegation): Slot { Slot(d.delegator, d.mint) }

  predicate Relevant(d: Delegation, f: Fixture) { d.mint == f.usdcMint || d.mint == f.targetMint }

  /** Among the first n delegations, the i-th is the slot's choice: none expires later,
      and none listed before it expires as late. */
  ghost predicate IsBest(dels: seq<Delegation>, n: nat, slot: Slot, i: nat)
    requires n <= |dels|
  {
    i < n && SlotOf(dels[i]) == slot
    && forall j | 0 <= j < n && SlotOf(dels[j]) == slot ::
         dels[j].expiryTs <= dels[i].expiryTs && (j < i ==> dels[j].expiryTs < dels[i].expiryTs)
  }

  /** There is at most one choice. */
  lemma BestIsUnique(dels: seq<Delegation>, slot: Slot, i: nat, j: nat)
    requires IsBest(dels, |dels|, slot, i) && IsBest(dels, |dels|, slot, j)
    ensures i == j
  {
    assert SlotOf(dels[i]) == SlotOf(dels[j]) == slot;
  }

  /** A slot has an entry exactly when some relevant delegation among the first n fills it. */
  ghost predicate Covers(dels: seq<Delegation>, n: nat, f: Fixture, slots: set<Slot>)
    requires n <= |dels|
  {
    forall slot: Slot :: slot in slots <==> Filled(dels, n, f, slot)
  }

  ghost predicate Filled(dels: seq<Delegation>, n: nat, f: Fixture, slot: Slot)
    requires n <= |dels|
  {
    exists i :: 0 <= i < n && SlotOf(dels[i]) == slot && slot.mint in {f.usdcMint, f.targetMint}
  }

  ghost predicate Chosen(dels: seq<Delegation>, n: nat, slot: Slot, d: Delegation)
    requires n <= |dels|
  {
    exists i: nat :: IsBest(dels, n, slot, i) && dels[i] == d
  }

  /** The a-th delegation is the first listed for its slot. */
  ghost predicate FirstFor(dels: seq<Delegation>, slot: Slot, a: nat) {
    a < |dels| && SlotOf(dels[a]) == slot && forall b | 0 <= b < a :: SlotOf(dels[b]) != slot
  }

  /** Of any two slots, the one with the earlier first listing comes first. */
  ghost predicate ListingOrder(order: seq<Slot>, dels: seq<Delegation>) {
    forall i, j, a: nat, b: nat | 0 <= i < j < |order| && FirstFor(dels, order[i], a) && FirstFor(dels, order[j], b) ::
      a < b
  }

  /** The map's keys in insertion order: every key once, by first listing. */
  ghost predicate KeyOrder(order: seq<Slot>, dels: seq<Delegation>, slots: set<Slot>) {
    (forall slot :: slot in order <==> slot in slots)
    && (forall i, j | 0 <= i < j < |order| :: order[i] != order[j])
    && ListingOrder(order, dels)
  }

  lemma SlotListed(dels: seq<Delegation>, n: nat, f: Fixture, slot: Slot) returns (a: nat)
    requires n <= |dels| && Filled(dels, n, f, slot)
    ensures a < n && FirstFor(dels, slot, a)
  {
    var i :| 0 <= i < n && SlotOf(dels[i]) == slot && Relevant(dels[i], f);
    a := 0;
    while SlotOf(dels[a]) != slot
      invariant 0 <= a <= i && forall b | 0 <= b < a :: SlotOf(dels[b]) != slot
      decreases i - a
    {
      a := a + 1;
    }
  }

  /** A slot first listed now comes after all those listed before. */
  lemma ListedLast(order: seq<Slot>, dels: seq<Delegation>, n: nat, f: Fixture, slots: set<Slot>)
    requires n < |dels| && KeyOrder(order, dels, slots) && Covers(dels, n, f, slots)
    requires SlotOf(dels[n]) !in slots && Relevant(dels[n], f)
    ensures KeyOrder(order + [SlotOf(dels[n])], dels, slots + {SlotOf(dels[n])})
  {
    var next := order + [SlotOf(dels[n])];
    forall i, j, a: nat, b: nat | 0 <= i < j < |next| && FirstFor(dels, next[i], a) && FirstFor(dels, next[j], b)
      ensures a < b
    {
      if j == |order| {
        assert next[i] in slots && !Filled(dels, n, f, next[j]);
        var first := SlotListed(dels, n, f, next[i]);
        assert a == first;
        assert slots !! {next[j]} && SlotOf(dels[n]).mint in {f.usdcMint, f.targetMint};
      }
    }
  }

  ghost predicate AllListed(dels: seq<Delegation>, slots: set<Slot>) {
    forall slot <- slots :: exists a: nat :: FirstFor(dels, slot, a)
  }

  lemma BeforeLast(order: seq<Slot>, dels: seq<Delegation>, slot: Slot, a: nat, b: nat)
    requires ListingOrder(order, dels) && slot in order && slot != order[|order| - 1]
    requires FirstFor(dels, slot, a) && FirstFor(dels, order[|order| - 1], b)
    ensures a < b
  {
    var i :| 0 <= i < |order| && order[i] == slot;
    assert FirstFor(dels, order[i], a) && FirstFor(dels, order[|order| - 1], b);
  }

  /** Two orders of the same slots end in the same slot. */
  lemma SameLast(order: seq<Slot>, other: seq<Slot>, dels: seq<Delegation>, slots: set<Slot>)
    requires KeyOrder(order, dels, slots) && KeyOrder(other, dels, slots) && AllListed(dels, slots) && order != []
    ensures other != [] && order[|order| - 1] == other[|other| - 1]
  {
    assert order[|order| - 1] in slots;
    var last, end := order[|order| - 1], other[|other| - 1];
    if last != end {
      assert last in other && end in order;
      var a: nat :| FirstFor(dels, last, a);
      var b: nat :| FirstFor(dels, end, b);
      BeforeLast(order, dels, end, b, a);
      BeforeLast(other, dels, last, a, b);
    }
  }

  lemma FrontOrder(order: seq<Slot>, dels: seq<Delegation>, slots: set<Slot>)
    requires KeyOrder(order, dels, slots) && order != []
    ensures KeyOrder(order[..|order| - 1], dels, slots - {order[|order| - 1]})
  {
    var front, last := order[..|order| - 1], order[|order| - 1];
    assert order == front + [last];
  }

  /** There is only one such order. */
  lemma {:induction false} KeyOrderIsUnique(
      order: seq<Slot>, other: seq<Slot>, dels: seq<Delegation>, slots: set<Slot>)
    requires KeyOrder(order, dels, slots) && KeyOrder(other, dels, slots) && AllListed(dels, slots)
    ensures order == other
    decreases |order|
  {
    if order == [] && other == [] {
    } else if order == [] {
      SameLast(other, order, dels, slots);
    } else {
      var n, m := |order| - 1, |other| - 1;
      SameLast(order, other, dels, slots);
      FrontOrder(order, dels, slots);
      FrontOrder(other, dels, slots);
      KeyOrderIsUnique(order[..n], other[..m], dels, slots - {order[n]});
      assert order == order[..n] + [order[n]] && other == other[..m] + [other[m]];
    }
  }

  lemma FilledStep(dels: seq<Delegation>, n: nat, f: Fixture, slot: Slot)
    requires n < |dels|
    ensures Filled(dels, n + 1, f, slot)
            <==> Filled(dels, n, f, slot) || (SlotOf(dels[n]) == slot && Relevant(dels[n], f))
  {
  }

  /** Another slot's choice is not disturbed; this slot's is kept or replaced. */
  lemma ChoiceStep(dels: seq<Delegation>, n: nat, slot: Slot, d: Delegation)
    requires n < |dels| && Chosen(dels, n, slot, d)
    ensures SlotOf(dels[n]) != slot || dels[n].expiryTs <= d.expiryTs ==> Chosen(dels, n + 1, slot, d)
    ensures SlotOf(dels[n]) == slot && dels[n].expiryTs > d.expiryTs ==> Chosen(dels, n + 1, slot, dels[n])
  {
    var i: nat :| IsBest(dels, n, slot, i) && dels[i] == d;
    if SlotOf(dels[n]) != slot || dels[n].expiryTs <= d.expiryTs {
      assert IsBest(dels, n + 1, slot, i);
    } else {
      assert IsBest(dels, n + 1, slot, n);
    }
  }

  lemma FirstChoice(dels: seq<Delegation>, n: nat, f: Fixture, slot: Slot)
    requires n < |dels| && SlotOf(dels[n]) == slot && Relevant(dels[n], f) && !Filled(dels, n, f, slot)
    ensures Chosen(dels, n + 1, slot, dels[n])
  {
    assert slot.mint in {f.usdcMint, f.targetMint};
    assert forall j | 0 <= j < n :: SlotOf(dels[j]) != slot;
    assert IsBest(dels, n + 1, slot, n);
  }

  /** The map after one more delegation. */
  function Updated(best: map<Slot, Delegation>, d: Delegation, f: Fixture): map<Slot, Delegation> {
    if Relevant(d, f) && (SlotOf(d) in best ==> d.expiryTs > best[SlotOf(d)].expiryTs) then best[SlotOf(d) := d]
      else best
  }

  ghost predicate AllChosen(dels: seq<Delegation>, n: nat, best: map<Slot, Delegation>)
    requires n <= |dels|
  {
    forall slot <- best :: Chosen(dels, n, slot, best[slot])
  }

  lemma CoversStep(dels: seq<Delegation>, n: nat, f: Fixture, best: map<Slot, Delegation>)
    requires n < |dels| && Covers(dels, n, f, best.Keys)
    ensures Covers(dels, n + 1, f, Updated(best, dels[n], f).Keys)
  {
    forall slot: Slot ensures slot in Updated(best, dels[n], f) <==> Filled(dels, n + 1, f, slot) {
      FilledStep(dels, n, f, slot);
    }
  }

  lemma ChosenStep(dels: seq<Delegation>, n: nat, f: Fixture, best: map<Slot, Delegation>)
    requires n < |dels| && Covers(dels, n, f, best.Keys) && AllChosen(dels, n, best)
    ensures AllChosen(dels, n + 1, Updated(best, dels[n], f))
  {
    var next := Updated(best, dels[n], f);
    forall slot | slot in next ensures Chosen(dels, n + 1, slot, next[slot]) {
      if slot in best {
        IrrelevantElsewhere(dels, n, f, slot);
        ChoiceStep(dels, n, slot, best[slot]);
      } else {
        FirstChoice(dels, n, f, slot);
      }
    }
  }

  /** A foreign-mint delegation never shares a slot with a relevant one. */
  lemma IrrelevantElsewhere(dels: seq<Delegation>, n: nat, f: Fixture, slot: Slot)
    requires n < |dels| && Filled(dels, n, f, slot)
    ensures Relevant(dels[n], f) || SlotOf(dels[n]) != slot
  {
  }

  /** The map after the first n delegations, with its keys in insertion order. */
  datatype Selection = Selection(order: seq<Slot>, best: map<Slot, Delegation>)

  function WithNext(sel: Selection, d: Delegation, f: Fixture): Selection {
    Selection(if Relevant(d, f) && SlotOf(d) !in sel.best then sel.order + [SlotOf(d)] else sel.order,
              Updated(sel.best, d, f))
  }

  function Select(dels: seq<Delegation>, n: nat, f: Fixture): Selection
    requires n <= |dels|
  {
    if n == 0 then Selection([], map[]) else WithNext(Select(dels, n - 1, f), dels[n - 1], f)
  }

  lemma OrderStep(dels: seq<Delegation>, n: nat, f: Fixture, sel: Selection)
    requires n < |dels| && Covers(dels, n, f, sel.best.Keys) && KeyOrder(sel.order, dels, sel.best.Keys)
    ensures KeyOrder(WithNext(sel, dels[n], f).order, dels, WithNext(sel, dels[n], f).best.Keys)
  {
    var d, next := dels[n], Updated(sel.best, dels[n], f);
    if Relevant(d, f) && SlotOf(d) !in sel.best {
      ListedLast(sel.order, dels, n, f, sel.best.Keys);
      assert next.Keys == sel.best.Keys + {SlotOf(d)};
    } else {
      assert next.Keys == sel.best.Keys;
    }
  }

  lemma {:induction false} Selected(dels: seq<Delegation>, n: nat, f: Fixture)
    requires n <= |dels|
    ensures KeyOrder(Select(dels, n, f).order, dels, Select(dels, n, f).best.Keys)
    ensures Covers(dels, n, f, Select(dels, n, f).best.Keys) && AllChosen(dels, n, Select(dels, n, f).best)
  {
    if n == 0 {
    } else {
      Selected(dels, n - 1, f);
      CoversStep(dels, n - 1, f, Select(dels, n - 1, f).best);
      ChosenStep(dels, n - 1, f, Select(dels, n - 1, f).best);
      OrderStep(dels, n - 1, f, Select(dels, n - 1, f));
    }
  }

  /** The selection loop: one entry per relevant slot, none for foreign mints, and each entry the
      earliest-listed of that slot's latest-expiring delegations; the slots come in the order in which each
      was first listed, whichever of its delegations was chosen. */
  method SelectBest(dels: seq<Delegation>, f: Fixture) returns (order: seq<Slot>, best: map<Slot, Delegation>)
    ensures KeyOrder(order, dels, best.Keys)
    ensures Covers(dels, |dels|, f, best.Keys)
    ensures forall slot <- best :: Chosen(dels, |dels|, slot, best[slot])
  {
    order, best := [], map[];
    for n := 0 to |dels|
      invariant Selection(order, best) == Select(dels, n, f)
    {
      var d := dels[n];
      if Relevant(d, f) {
        var slot := SlotOf(d);
        if slot !in best {
          order := order + [slot];
          best := best[slot := d];
        } else if d.expiryTs > best[slot].expiryTs {
          best := best[slot := d];
        }
      }
    }
    Selected(dels, |dels|, f);
  }

  // ---- The chain through a tick ----

  /** What a tick fixes when it starts, and the clocks at which its transactions land, slot by slot;
      a slot that is absent never lands. */
  datatype Round = Round(f: Fixture, fee: FeeView, keeper: KeyPair, now: I64, landed: map<Slot, I64>)

  function SideOf(d: Delegation, f: Fixture): Side { if d.mint == f.usdcMint then Buy else Sell }

  /** The crank the daemon composes for a chosen delegation, from the chain as it is at its turn. */
  function TurnCrank(s: State, r: Round, d: Delegation): Crank {
    match SideOf(d, r.f)
    case Buy => BuyCrank(s, r.f, r.fee, r.keeper, d.delegator, Available(d, r.now))
    case Sell => SellCrank(s, r.f, r.fee, r.keeper, d.delegator, Available(d, r.now), r.now)
  }

  function Landing(r: Round, d: Delegation): Option<I64> {
    if SlotOf(d) in r.landed then Some(r.landed[SlotOf(d)]) else None
  }

  function Turn(s: State, r: Round, d: Delegation): State { Land(s, r.keeper, TurnCrank(s, r, d), Landing(r, d)) }

  /** What becomes of a delegation's crank on this chain. */
  function TurnOutcome(s: State, r: Round, d: Delegation): Outcome {
    OutcomeOf(s, r.keeper, TurnCrank(s, r, d), Landing(r, d))
  }

  /** The chain after the turns of these delegations, in order. */
  function After(s: State, r: Round, ds: seq<Delegation>): State {
    if ds == [] then s else Turn(After(s, r, ds[..|ds| - 1]), r, ds[|ds| - 1])
  }

  /** The chain just before the i-th delegation's turn. */
  function Before(s: State, r: Round, ds: seq<Delegation>, i: nat): State
    requires i <= |ds|
  {
    After(s, r, ds[..i])
  }

  /** Clocks never show a negative time. */
  predicate Clocked(r: Round) { forall slot <- r.landed :: 0 <= r.landed[slot] }

  /** Delegations of key pairs, none of them for this slot. */
  predicate Others(ds: seq<Delegation>, f: Fixture, slot: Slot) {
    forall d <- ds :: Relevant(d, f) && d.delegator.Raw? && SlotOf(d) != slot
  }

  function SlotFor(f: Fixture, user: Key, side: Side): Slot { Slot(user, InMint(f, side)) }

  lemma TurnComposed(s: State, r: Round, d: Delegation)
    ensures CrankFor(TurnCrank(s, r, d), r.f, r.fee, r.keeper, SideOf(d, r.f), d.delegator)
  {
    SellCrankComposed(s, r.f, r.fee, r.keeper, d.delegator, Available(d, r.now), r.now);
    BuyCrankComposed(s, r.f, r.fee, r.keeper, d.delegator, Available(d, r.now));
  }

  /** However many other slots had their turn, and whatever became of them, one slot's crank finds what it
      would have found at the start of the tick: transient and plan exactly, wallet at least. */
  lemma {:induction false} OtherTurnsKeep(s: State, r: Round, ds: seq<Delegation>, user: KeyPair, side: Side)
    requires Deployed(s, r.f, r.fee) && Clocked(r) && r.fee.destination.value != BuyAuthority(user)
    requires Others(ds, r.f, SlotFor(r.f, user, side))
    ensures Deployed(After(s, r, ds), r.f, r.fee) && StillThere(s, After(s, r, ds), r.f, user, side)
    decreases |ds|
  {
    if ds == [] {
    } else {
      var front, d := ds[..|ds| - 1], ds[|ds| - 1];
      OtherTurnsKeep(s, r, front, user, side);
      assert d in ds;
      TurnComposed(After(s, r, front), r, d);
      OtherTurnKeeps(After(s, r, front), r.f, r.fee, r.keeper, SideOf(d, r.f), d.delegator,
                     TurnCrank(After(s, r, front), r, d), Landing(r, d), user, side);
    }
  }

  lemma {:induction false} AfterAppend(s: State, r: Round, ds: seq<Delegation>, es: seq<Delegation>)
    ensures After(s, r, ds + es) == After(After(s, r, ds), r, es)
    decreases |es|
  {
    if es == [] {
      assert ds + es == ds;
    } else {
      assert (ds + es)[..|ds + es| - 1] == ds + es[..|es| - 1];
      AfterAppend(s, r, ds, es[..|es| - 1]);
    }
  }

  lemma {:induction false} AfterSplit(s: State, r: Round, ds: seq<Delegation>, i: nat)
    requires i <= |ds|
    ensures After(s, r, ds) == After(Before(s, r, ds, i), r, ds[i..])
  {
    AfterAppend(s, r, ds[..i], ds[i..]);
    assert ds[..i] + ds[i..] == ds;
  }

  /** One delegation for each slot, all for relevant mints and from key pairs. */
  predicate OnePerSlot(ds: seq<Delegation>, f: Fixture) {
    (forall d <- ds :: Relevant(d, f) && d.delegator.Raw?)
    && forall i, j | 0 <= i < j < |ds| :: SlotOf(ds[i]) != SlotOf(ds[j])
  }

  lemma SlotIsFor(d: Delegation, f: Fixture)
    requires Relevant(d, f)
    ensures SlotOf(d) == SlotFor(f, d.delegator, SideOf(d, f))
  {
  }

  lemma BeforeNext(s: State, r: Round, ds: seq<Delegation>, i: nat)
    requires i < |ds|
    ensures Before(s, r, ds, i + 1) == Turn(Before(s, r, ds, i), r, ds[i])
  {
    assert ds[..i + 1][..i] == ds[..i];
  }

  /** At its turn a slot finds its own money and plan as they were when the tick began. */
  lemma FoundAtTurn(s: State, r: Round, ds: seq<Delegation>, i: nat)
    requires Deployed(s, r.f, r.fee) && Clocked(r) && OnePerSlot(ds, r.f) && i < |ds|
    requires r.fee.destination.value != BuyAuthority(ds[i].delegator)
    ensures Deployed(Before(s, r, ds, i), r.f, r.fee)
    ensures StillThere(s, Before(s, r, ds, i), r.f, ds[i].delegator, SideOf(ds[i], r.f))
  {
    OthersLater(ds, r.f, i);
    OtherTurnsKeep(s, r, ds[..i], ds[i].delegator, SideOf(ds[i], r.f));
  }

  lemma TurnKeepsDeployment(s: State, r: Round, d: Delegation)
    requires Deployed(s, r.f, r.fee) && Clocked(r)
    ensures Deployed(Turn(s, r, d), r.f, r.fee)
  {
    TurnComposed(s, r, d);
    TurnConfined(s, r.f, r.fee, r.keeper, SideOf(d, r.f), d.delegator, TurnCrank(s, r, d), Landing(r, d));
  }

  lemma OthersLater(ds: seq<Delegation>, f: Fixture, i: nat)
    requires OnePerSlot(ds, f) && i < |ds|
    ensures Others(ds[..i], f, SlotFor(f, ds[i].delegator, SideOf(ds[i], f)))
    ensures Others(ds[i + 1..], f, SlotFor(f, ds[i].delegator, SideOf(ds[i], f)))
  {
    SlotIsFor(ds[i], f);
  }

  /** And what its turn leaves there is still there when the tick ends. */
  lemma {:induction false} LeftAtEnd(s: State, r: Round, ds: seq<Delegation>, i: nat)
    requires Deployed(s, r.f, r.fee) && Clocked(r) && OnePerSlot(ds, r.f) && i < |ds|
    requires r.fee.destination.value != BuyAuthority(ds[i].delegator)
    ensures StillThere(Before(s, r, ds, i + 1), After(s, r, ds), r.f, ds[i].delegator, SideOf(ds[i], r.f))
  {
    FoundAtTurn(s, r, ds, i);
    TurnKeepsDeployment(Before(s, r, ds, i), r, ds[i]);
    BeforeNext(s, r, ds, i);
    OthersLater(ds, r.f, i);
    OtherTurnsKeep(Before(s, r, ds, i + 1), r, ds[i + 1..], ds[i].delegator, SideOf(ds[i], r.f));
    AfterSplit(s, r, ds, i + 1);
  }

  // ---- Agreement, over a whole tick ----

  /** A larger wallet over the same residue only widens the cap. */
  lemma CapWidens(s: State, t: State, f: Fixture, user: Key, at: I64)
    requires ResidueWithinCap(s, f, user, at) && StillThere(s, t, f, user, Sell)
    ensures ResidueWithinCap(t, f, user, at)
  {
    PeriodsExact(s.plans[user], at);
    Rounding.DivMono(WalletOf(s, f, user) + Residue(s, f, user), WalletOf(t, f, user) + Residue(t, f, user),
                     RemainingPeriods(s.plans[user], at).value);
  }

  /** Whatever lands, lands no earlier than the tick's clock, with room for one period. */
  predicate LandsInTime(r: Round, d: Delegation) {
    Landing(r, d).Some? ==> r.now <= Landing(r, d).value <= I64_MAX - MAX_PERIOD_SECS
  }

  /** What becomes of a ready user's sell: with nothing to draw it is skipped; if it never lands, or lands with its
      residue over the cap, a pool that cannot pay, or a fee that stays in the transient, it fails and changes
      nothing; otherwise it commits, drains and delivers. */
  ghost predicate SellSettled(t: State, r: Round, d: Delegation, after: State)
    requires Inv(t) && d.delegator in t.plans && 0 <= r.now
  {
    var user, avail := d.delegator, Available(d, r.now);
    var m, pull := SellLeg(t, r.f, r.fee, r.keeper, user, r.now, avail), PullNow(t, r.f, user, r.now, avail);
    if pull + Residue(t, r.f, user) == 0 then after == t && TurnOutcome(t, r, d) == Skipped
    else if Landing(r, d).Some? && ResidueWithinCap(t, r.f, user, Landing(r, d).value) && Pays(t, m)
            && m.FeeLeaves()
    then SellDone(t, m, pull, Landing(r, d).value, after) && TurnOutcome(t, r, d) == Committed
    else after == t && TurnOutcome(t, r, d) == Failed
  }

  /** The crank of a due plan: skipped exactly when there is nothing to draw. */
  lemma SellCranks(t: State, r: Round, d: Delegation)
    requires SellTarget(t, r.f, r.fee, r.keeper, d.delegator, r.now) && SideOf(d, r.f).Sell? && 0 <= r.now
    ensures var user, avail := d.delegator, Available(d, r.now);
            0 < t.plans[user].periodSecs
            && TurnCrank(t, r, d) == CrankSellSpec(r.f, r.keeper, user, r.fee, Some(t.plans[user]), r.now,
                                                   WalletOf(t, r.f, user), Residue(t, r.f, user), avail)
            && (TurnCrank(t, r, d).Skip? <==> PullNow(t, r.f, user, r.now, avail) + Residue(t, r.f, user) == 0)
  {
    assert PlanOk(d.delegator, t.plans[d.delegator]);
  }

  /** Nothing for a sell's turn to do: no plan, a finished one, one not yet due, or an empty transient and no pull
      that delegation and schedule both let through. */
  ghost predicate SellIdle(t: State, r: Round, d: Delegation)
    requires Inv(t) && 0 <= r.now
  {
    var user := d.delegator;
    user !in t.plans || Waits(Some(t.plans[user]), r.now)
    || (Residue(t, r.f, user) == 0
        && forall pull: nat :: !Drawable(d, t.plans[user], r.now, WalletOf(t, r.f, user), 0, pull))
  }

  /** A sell's turn is skipped, whatever the deployment, exactly when there is nothing for it to do, and then leaves
      the chain as it was. */
  lemma SellTurnSkippedIff(t: State, r: Round, d: Delegation)
    requires Inv(t) && SideOf(d, r.f).Sell? && 0 <= r.now
    ensures TurnOutcome(t, r, d) == Skipped <==> SellIdle(t, r, d)
    ensures TurnOutcome(t, r, d) == Skipped ==> Turn(t, r, d) == t
  {
    var user := d.delegator;
    if user in t.plans {
      assert PlanOk(user, t.plans[user]);
      SellSkippedIff(r.f, r.keeper, r.fee, d, Some(t.plans[user]), r.now, WalletOf(t, r.f, user),
                     Residue(t, r.f, user));
    }
  }

  /** A buy's turn is skipped exactly when its delegation allows no pull. */
  lemma BuyTurnSkippedIff(t: State, r: Round, d: Delegation)
    requires SideOf(d, r.f).Buy?
    ensures TurnOutcome(t, r, d) == Skipped <==> Exhausted(d, r.now)
    ensures TurnOutcome(t, r, d) == Skipped ==> Turn(t, r, d) == t
  {
    BuyPullIsLargest(r.f, r.keeper, r.fee, d, r.now, BuyResidue(t, r.f, d.delegator));
  }

  lemma SellTurn(t: State, r: Round, d: Delegation)
    requires SellTarget(t, r.f, r.fee, r.keeper, d.delegator, r.now) && SideOf(d, r.f).Sell?
    requires 0 <= r.now && LandsInTime(r, d)
    ensures SellSettled(t, r, d, Turn(t, r, d))
  {
    var user, avail := d.delegator, Available(d, r.now);
    SellCranks(t, r, d);
    if 0 < PullNow(t, r.f, user, r.now, avail) + Residue(t, r.f, user) && Landing(r, d).Some? {
      DaemonSellAgrees(t, r.f, r.fee, r.keeper, user, r.now, Landing(r, d).value, avail);
    }
  }

  lemma SellTargetKept(s: State, t: State, r: Round, user: Key)
    requires SellTarget(s, r.f, r.fee, r.keeper, user, r.now)
    requires Deployed(t, r.f, r.fee) && StillThere(s, t, r.f, user, Sell)
    ensures SellTarget(t, r.f, r.fee, r.keeper, user, r.now)
  {
  }

  /** In a tick over any list of delegations, each sell whose user was ready when the tick began is settled at its turn:
      it commits exactly when it lands with its residue within the cap, and otherwise changes nothing. Nothing the
      other slots do, or fail to do, can push the residue over the cap. */
  lemma {:induction false} TickSell(s: State, r: Round, ds: seq<Delegation>, i: nat)
    requires Clocked(r) && OnePerSlot(ds, r.f) && i < |ds| && SideOf(ds[i], r.f).Sell? && LandsInTime(r, ds[i])
    requires SellTarget(s, r.f, r.fee, r.keeper, ds[i].delegator, r.now) && 0 <= r.now
    requires r.fee.destination.value != BuyAuthority(ds[i].delegator)
    ensures SellTarget(Before(s, r, ds, i), r.f, r.fee, r.keeper, ds[i].delegator, r.now)
    ensures StillThere(s, Before(s, r, ds, i), r.f, ds[i].delegator, Sell)
    ensures forall at: I64 :: ResidueWithinCap(s, r.f, ds[i].delegator, at)
                              ==> ResidueWithinCap(Before(s, r, ds, i), r.f, ds[i].delegator, at)
    ensures SellSettled(Before(s, r, ds, i), r, ds[i], Before(s, r, ds, i + 1))
    ensures StillThere(Before(s, r, ds, i + 1), After(s, r, ds), r.f, ds[i].delegator, Sell)
  {
    FoundAtTurn(s, r, ds, i);
    SellTargetKept(s, Before(s, r, ds, i), r, ds[i].delegator);
    forall at: I64 | ResidueWithinCap(s, r.f, ds[i].delegator, at)
      ensures ResidueWithinCap(Before(s, r, ds, i), r.f, ds[i].delegator, at)
    {
      CapWidens(s, Before(s, r, ds, i), r.f, ds[i].delegator, at);
    }
    SellTurn(Before(s, r, ds, i), r, ds[i]);
    BeforeNext(s, r, ds, i);
    LeftAtEnd(s, r, ds, i);
  }

  /** What becomes of a ready user's buy, likewise, by whether the wallet covers what is available and the pool can
      pay. */
  ghost predicate BuySettled(t: State, r: Round, d: Delegation, after: State) {
    var user, avail := d.delegator, Available(d, r.now);
    var m := BuyLeg(t, r.f, r.fee, r.keeper, user, avail);
    if avail == 0 then after == t && TurnOutcome(t, r, d) == Skipped
    else if Landing(r, d).Some? && avail <= Bal(t.ledger, Ata(user, r.f.usdcMint)) && Pays(t, m) && m.FeeLeaves()
    then BuyDone(t, m, avail, after) && TurnOutcome(t, r, d) == Committed
    else after == t && TurnOutcome(t, r, d) == Failed
  }

  lemma BuyTurn(t: State, r: Round, d: Delegation)
    requires BuyTarget(t, r.f, r.fee, r.keeper, d.delegator) && SideOf(d, r.f).Buy?
    ensures BuySettled(t, r, d, Turn(t, r, d))
  {
    var user, avail := d.delegator, Available(d, r.now);
    if 0 < avail && Landing(r, d).Some? {
      DaemonBuyAgrees(t, r.f, r.fee, r.keeper, user, Landing(r, d).value, avail);
    }
  }

  /** The same for a buy: it commits exactly when it lands and the wallet covers the pull at its turn. */
  lemma {:induction false} TickBuy(s: State, r: Round, ds: seq<Delegation>, i: nat)
    requires Clocked(r) && OnePerSlot(ds, r.f) && i < |ds| && SideOf(ds[i], r.f).Buy?
    requires BuyTarget(s, r.f, r.fee, r.keeper, ds[i].delegator)
    requires r.fee.destination.value != BuyAuthority(ds[i].delegator)
    ensures BuyTarget(Before(s, r, ds, i), r.f, r.fee, r.keeper, ds[i].delegator)
    ensures StillThere(s, Before(s, r, ds, i), r.f, ds[i].delegator, Buy)
    ensures BuySettled(Before(s, r, ds, i), r, ds[i], Before(s, r, ds, i + 1))
    ensures StillThere(Before(s, r, ds, i + 1), After(s, r, ds), r.f, ds[i].delegator, Buy)
  {
    FoundAtTurn(s, r, ds, i);
    BuyTurn(Before(s, r, ds, i), r, ds[i]);
    BeforeNext(s, r, ds, i);
    LeftAtEnd(s, r, ds, i);
  }

  // ---- Sharing the pools ----

  /** What a delegation's crank spends, if it commits, on the chain it finds: nothing if it is skipped, never lands, or
      is a buy that the wallet does not cover. */
  function TurnSpend(t: State, r: Round, d: Delegation): nat {
    var user, avail := d.delegator, Available(d, r.now);
    if TurnCrank(t, r, d).Skip? || Landing(r, d).None? then 0 else
      match SideOf(d, r.f)
      case Buy =>
        if avail <= Bal(t.ledger, Ata(user, r.f.usdcMint)) then avail + BuyResidue(t, r.f, user) else 0
      case Sell =>
        var plan := ReadPlan(t, user);
        if plan.None? then 0 else
          DaemonPull(plan.value, r.now, WalletOf(t, r.f, user), Residue(t, r.f, user), avail) + Residue(t, r.f, user)
  }

  /** The same over all the turns of one side, each on the chain it finds. */
  function Demand(s: State, r: Round, ds: seq<Delegation>, side: Side): nat {
    if ds == [] then 0 else
      var front, d := ds[..|ds| - 1], ds[|ds| - 1];
      Demand(s, r, front, side) + if SideOf(d, r.f) == side then TurnSpend(After(s, r, front), r, d) else 0
  }

  /** No turn takes more from a pool than its crank spends, and only its own side's turns take any. */
  lemma TurnOutflow(s: State, r: Round, d: Delegation, side: Side)
    requires Deployed(s, r.f, r.fee) && Clocked(r) && d.delegator.Raw?
    ensures Bal(s.ledger, PayingPool(r.f, side))
            <= Bal(Turn(s, r, d).ledger, PayingPool(r.f, side)) as int
               + if SideOf(d, r.f) == side then TurnSpend(s, r, d) else 0
  {
    TurnComposed(s, r, d);
    if SideOf(d, r.f) != side {
      TurnConfined(s, r.f, r.fee, r.keeper, SideOf(d, r.f), d.delegator, TurnCrank(s, r, d), Landing(r, d));
      assert PayingPool(r.f, side) !in TurnSources(r.f, SideOf(d, r.f), d.delegator);
    } else if TurnCrank(s, r, d).Send? && Landing(r, d).Some? {
      if side.Sell? { SellOutflow(s, r, d); } else { BuyOutflow(s, r, d); }
    }
  }

  lemma SellOutflow(s: State, r: Round, d: Delegation)
    requires Deployed(s, r.f, r.fee) && SideOf(d, r.f).Sell? && TurnCrank(s, r, d).Send? && Landing(r, d).Some?
    ensures Bal(s.ledger, r.f.poolUsdc) <= Bal(Turn(s, r, d).ledger, r.f.poolUsdc) as int + TurnSpend(s, r, d)
  {
    TurnComposed(s, r, d);
    SellCrankOutflow(s, r.f, r.fee, r.keeper, d.delegator, Available(d, r.now), r.now);
    LandOutflow(s, r.f, r.fee, r.keeper, Sell, d.delegator, TurnCrank(s, r, d), Landing(r, d), TurnSpend(s, r, d));
  }

  lemma BuyOutflow(s: State, r: Round, d: Delegation)
    requires Deployed(s, r.f, r.fee) && d.delegator.Raw?
    requires SideOf(d, r.f).Buy? && TurnCrank(s, r, d).Send? && Landing(r, d).Some?
    ensures Bal(s.ledger, r.f.poolTarget) <= Bal(Turn(s, r, d).ledger, r.f.poolTarget) as int + TurnSpend(s, r, d)
  {
    var user, avail := d.delegator, Available(d, r.now);
    if avail <= Bal(s.ledger, Ata(user, r.f.usdcMint)) {
      TurnComposed(s, r, d);
      BuyCrankOutflow(s, r.f, r.fee, r.keeper, user, avail);
      LandOutflow(s, r.f, r.fee, r.keeper, Buy, user, TurnCrank(s, r, d), Landing(r, d), TurnSpend(s, r, d));
    } else {
      UncoveredBuyFails(s, r.f, r.fee, r.keeper, user, avail, Env(Landing(r, d).value, {r.keeper}));
    }
  }

  lemma {:induction false} BeforeDeployed(s: State, r: Round, ds: seq<Delegation>, i: nat)
    requires Deployed(s, r.f, r.fee) && Clocked(r) && i <= |ds|
    ensures Deployed(Before(s, r, ds, i), r.f, r.fee)
  {
    if i == 0 {
    } else {
      BeforeDeployed(s, r, ds, i - 1);
      TurnKeepsDeployment(Before(s, r, ds, i - 1), r, ds[i - 1]);
      BeforeNext(s, r, ds, i - 1);
    }
  }

  lemma {:induction false} DemandNext(s: State, r: Round, ds: seq<Delegation>, side: Side, i: nat)
    requires i < |ds|
    ensures Demand(s, r, ds[..i + 1], side)
            == Demand(s, r, ds[..i], side)
               + if SideOf(ds[i], r.f) == side then TurnSpend(Before(s, r, ds, i), r, ds[i]) else 0
  {
    assert ds[..i + 1][..i] == ds[..i];
  }

  /** Over all the turns of a tick a pool loses at most what its side's turns spend. */
  lemma {:induction false} PoolLasts(s: State, r: Round, ds: seq<Delegation>, side: Side, i: nat)
    requires Deployed(s, r.f, r.fee) && Clocked(r) && i <= |ds| && forall d <- ds :: d.delegator.Raw?
    ensures Bal(s.ledger, PayingPool(r.f, side))
            <= Bal(Before(s, r, ds, i).ledger, PayingPool(r.f, side)) as int + Demand(s, r, ds[..i], side)
  {
    if i == 0 {
    } else {
      PoolLasts(s, r, ds, side, i - 1);
      BeforeDeployed(s, r, ds, i - 1);
      TurnOutflow(Before(s, r, ds, i - 1), r, ds[i - 1], side);
      BeforeNext(s, r, ds, i - 1);
      DemandNext(s, r, ds, side, i - 1);
    }
  }

  lemma {:induction false} DemandGrows(s: State, r: Round, ds: seq<Delegation>, side: Side, i: nat)
    requires i <= |ds|
    ensures Demand(s, r, ds[..i], side) <= Demand(s, r, ds, side)
    decreases |ds|
  {
    if i == |ds| {
      assert ds[..i] == ds;
    } else {
      assert ds[..|ds| - 1][..i] == ds[..i];
      DemandGrows(s, r, ds[..|ds| - 1], side, i);
    }
  }

  /** So if the pools can meet the whole demand when the tick begins, they can pay at every turn. */
  lemma {:induction false} PoolPaysAtTurn(s: State, r: Round, ds: seq<Delegation>, i: nat)
    requires Deployed(s, r.f, r.fee) && Clocked(r) && i < |ds| && forall d <- ds :: d.delegator.Raw?
    requires Demand(s, r, ds, SideOf(ds[i], r.f)) <= Bal(s.ledger, PayingPool(r.f, SideOf(ds[i], r.f)))
    ensures TurnSpend(Before(s, r, ds, i), r, ds[i])
            <= Bal(Before(s, r, ds, i).ledger, PayingPool(r.f, SideOf(ds[i], r.f)))
  {
    PoolLasts(s, r, ds, SideOf(ds[i], r.f), i);
    DemandGrows(s, r, ds, SideOf(ds[i], r.f), i + 1);
    DemandNext(s, r, ds, SideOf(ds[i], r.f), i);
  }

  /** The fee does not go to the transient of any of these. */
  predicate FeeElsewhere(ds: seq<Delegation>, fee: FeeView) {
    fee.destination.Some? && forall d <- ds :: fee.destination.value != BuyAuthority(d.delegator)
  }

  /** What the delegations of one side allow, with what their transients hold. */
  function Allowances(s: State, r: Round, ds: seq<Delegation>, side: Side): nat {
    if ds == [] then 0 else
      var d := ds[|ds| - 1];
      Allowances(s, r, ds[..|ds| - 1], side)
      + if SideOf(d, r.f) == side
        then Available(d, r.now) + Bal(s.ledger, Ata(BuyAuthority(d.delegator), InMint(r.f, side))) else 0
  }

  /** A crank spends at most what its delegation allows and what its transient holds; and at most what its user has. */
  lemma SpendBounds(t: State, r: Round, d: Delegation)
    requires Deployed(t, r.f, r.fee) && 0 <= r.now
    ensures var mint := InMint(r.f, SideOf(d, r.f));
            var residue, wallet := Bal(t.ledger, Ata(BuyAuthority(d.delegator), mint)),
                Bal(t.ledger, Ata(d.delegator, mint));
            TurnSpend(t, r, d) <= Available(d, r.now) + residue && TurnSpend(t, r, d) <= wallet + residue
  {
    if SideOf(d, r.f).Sell? && ReadPlan(t, d.delegator).Some? {
      assert PlanOk(d.delegator, t.plans[d.delegator]);
      CapsAgree(t.plans[d.delegator], r.now, WalletOf(t, r.f, d.delegator), Residue(t, r.f, d.delegator));
    }
  }

  /** The demand is at most the allowances and residues that can be read when the tick begins. */
  lemma {:induction false} DemandWithinAllowances(s: State, r: Round, ds: seq<Delegation>, side: Side, i: nat)
    requires Deployed(s, r.f, r.fee) && Clocked(r) && OnePerSlot(ds, r.f) && FeeElsewhere(ds, r.fee) && 0 <= r.now
    requires i <= |ds|
    ensures Demand(s, r, ds[..i], side) <= Allowances(s, r, ds[..i], side)
  {
    if i == 0 {
    } else {
      DemandWithinAllowances(s, r, ds, side, i - 1);
      DemandNext(s, r, ds, side, i - 1);
      FoundAtTurn(s, r, ds, i - 1);
      SpendBounds(Before(s, r, ds, i - 1), r, ds[i - 1]);
      assert ds[..i][..i - 1] == ds[..i - 1];
    }
  }

  /** Where something is drawn and lands, the pool needs at most what the turn spends. */
  lemma SellAffordable(t: State, r: Round, d: Delegation)
    requires SellTarget(t, r.f, r.fee, r.keeper, d.delegator, r.now) && SideOf(d, r.f).Sell? && 0 <= r.now
    requires Landing(r, d).Some?
    ensures SellLeg(t, r.f, r.fee, r.keeper, d.delegator, r.now, Available(d, r.now)).net <= TurnSpend(t, r, d)
  {
    SellCranks(t, r, d);
    NetAtMost(r.f, Sell, r.keeper, d.delegator, r.fee,
              PullNow(t, r.f, d.delegator, r.now, Available(d, r.now)) + Residue(t, r.f, d.delegator));
  }

  lemma BuyAffordable(t: State, r: Round, d: Delegation)
    requires BuyTarget(t, r.f, r.fee, r.keeper, d.delegator) && SideOf(d, r.f).Buy? && Landing(r, d).Some?
    requires 0 < Available(d, r.now) <= Bal(t.ledger, Ata(d.delegator, r.f.usdcMint))
    ensures BuyLeg(t, r.f, r.fee, r.keeper, d.delegator, Available(d, r.now)).net <= TurnSpend(t, r, d)
  {
    NetAtMost(r.f, Buy, r.keeper, d.delegator, r.fee, Available(d, r.now) + BuyResidue(t, r.f, d.delegator));
  }

  /** With pools that can meet the demand when the tick begins, the pool never is what a ready user's sell that lands
      fails for, whatever became of the other slots. */
  lemma {:induction false} FundedTickSell(s: State, r: Round, ds: seq<Delegation>, i: nat)
    requires Clocked(r) && OnePerSlot(ds, r.f) && i < |ds| && SideOf(ds[i], r.f).Sell? && Landing(r, ds[i]).Some?
    requires SellTarget(s, r.f, r.fee, r.keeper, ds[i].delegator, r.now) && 0 <= r.now
    requires r.fee.destination.value != BuyAuthority(ds[i].delegator)
    requires Demand(s, r, ds, Sell) <= Bal(s.ledger, r.f.poolUsdc)
    ensures SellTarget(Before(s, r, ds, i), r.f, r.fee, r.keeper, ds[i].delegator, r.now)
    ensures var t, user := Before(s, r, ds, i), ds[i].delegator;
            Pays(t, SellLeg(t, r.f, r.fee, r.keeper, user, r.now, Available(ds[i], r.now)))
  {
    var t := Before(s, r, ds, i);
    FoundAtTurn(s, r, ds, i);
    SellTargetKept(s, t, r, ds[i].delegator);
    PoolPaysAtTurn(s, r, ds, i);
    SellAffordable(t, r, ds[i]);
  }

  /** Nor a ready user's buy that lands and is covered. */
  lemma {:induction false} FundedTickBuy(s: State, r: Round, ds: seq<Delegation>, i: nat)
    requires Clocked(r) && OnePerSlot(ds, r.f) && i < |ds| && SideOf(ds[i], r.f).Buy? && Landing(r, ds[i]).Some?
    requires BuyTarget(s, r.f, r.fee, r.keeper, ds[i].delegator)
    requires r.fee.destination.value != BuyAuthority(ds[i].delegator)
    requires Demand(s, r, ds, Buy) <= Bal(s.ledger, r.f.poolTarget)
    ensures var t, user, avail := Before(s, r, ds, i), ds[i].delegator, Available(ds[i], r.now);
            0 < avail <= Bal(t.ledger, Ata(user, r.f.usdcMint)) ==>
              Pays(t, BuyLeg(t, r.f, r.fee, r.keeper, user, avail))
  {
    var t, avail := Before(s, r, ds, i), Available(ds[i], r.now);
    TickBuy(s, r, ds, i);
    if 0 < avail <= Bal(t.ledger, Ata(ds[i].delegator, r.f.usdcMint)) {
      PoolPaysAtTurn(s, r, ds, i);
      BuyAffordable(t, r, ds[i]);
    }
  }

  // ---- The tick itself ----

  datatype Attempt = Attempt(del: Delegation, outcome: Outcome)

  function Attempted(log: seq<Attempt>): (ds: seq<Delegation>)
    ensures |ds| == |log|
    ensures forall i | 0 <= i < |log| :: ds[i] == log[i].del
  {
    if log == [] then [] else Attempted(log[..|log| - 1]) + [log[|log| - 1].del]
  }

  /** The fee configuration as the daemon reads it; a missing account reads as no fee. */
  function ReadFee(fc: Option<FeeConfig>): FeeView {
    match fc
    case None => FeeView(0, None)
    case Some(c) => FeeView(c.feeBps, Some(c.destination))
  }

  /** Every attempt is of its slot's chosen delegation, and records what became of it on the chain it found. */
  ghost predicate Attempts(log: seq<Attempt>, dels: seq<Delegation>, s: State, r: Round) {
    forall i | 0 <= i < |log| :: AttemptAt(log, dels, s, r, i)
  }

  ghost predicate AttemptAt(log: seq<Attempt>, dels: seq<Delegation>, s: State, r: Round, i: nat)
    requires i < |log|
  {
    Chosen(dels, |dels|, SlotOf(log[i].del), log[i].del)
    && log[i].outcome == TurnOutcome(Before(s, r, Attempted(log), i), r, log[i].del)
  }

  /** The first slots in order have had their turns, and the chain is as those left it. */
  ghost predicate SoFar(log: seq<Attempt>, order: seq<Slot>, dels: seq<Delegation>, s: State, r: Round, now: State) {
    |log| <= |order| && (forall k | 0 <= k < |log| :: SlotOf(log[k].del) == order[k])
    && now == After(s, r, Attempted(log)) && Attempts(log, dels, s, r)
  }

  lemma {:induction false} AttemptedAppend(log: seq<Attempt>, next: Attempt)
    ensures Attempted(log + [next]) == Attempted(log) + [next.del]
    ensures Attempted(log + [next])[..|log|] == Attempted(log)
  {
    assert (log + [next])[..|log|] == log;
  }

  lemma AttemptKept(
      log: seq<Attempt>, next: Attempt, dels: seq<Delegation>, s: State, r: Round, i: nat)
    requires i < |log| && AttemptAt(log, dels, s, r, i)
    ensures AttemptAt(log + [next], dels, s, r, i)
  {
    AttemptedAppend(log, next);
    assert Attempted(log + [next])[..i] == Attempted(log)[..i];
  }

  lemma {:induction false} AttemptAdded(
      log: seq<Attempt>, next: Attempt, dels: seq<Delegation>, s: State, r: Round)
    requires Chosen(dels, |dels|, SlotOf(next.del), next.del)
    requires next.outcome == TurnOutcome(After(s, r, Attempted(log)), r, next.del)
    ensures AttemptAt(log + [next], dels, s, r, |log|)
  {
    AttemptedAppend(log, next);
  }

  lemma {:induction false} ChainGrows(log: seq<Attempt>, next: Attempt, s: State, r: Round)
    ensures After(s, r, Attempted(log + [next])) == Turn(After(s, r, Attempted(log)), r, next.del)
  {
    AttemptedAppend(log, next);
  }

  lemma {:induction false} AttemptsMore(
      log: seq<Attempt>, next: Attempt, dels: seq<Delegation>, s: State, r: Round)
    requires Attempts(log, dels, s, r) && Chosen(dels, |dels|, SlotOf(next.del), next.del)
    requires next.outcome == TurnOutcome(After(s, r, Attempted(log)), r, next.del)
    ensures Attempts(log + [next], dels, s, r)
  {
    AttemptAdded(log, next, dels, s, r);
    forall i: nat | i < |log + [next]| ensures AttemptAt(log + [next], dels, s, r, i) {
      if i < |log| {
        assert AttemptAt(log, dels, s, r, i);
        AttemptKept(log, next, dels, s, r, i);
      }
    }
  }

  /** One more attempt, made on the chain the earlier ones left. */
  lemma {:induction false} AttemptsGrow(
      log: seq<Attempt>, next: Attempt, order: seq<Slot>, dels: seq<Delegation>, s: State, r: Round)
    requires SoFar(log, order, dels, s, r, After(s, r, Attempted(log))) && |log| < |order|
    requires Chosen(dels, |dels|, order[|log|], next.del)
    requires next.outcome == TurnOutcome(After(s, r, Attempted(log)), r, next.del)
    ensures SoFar(log + [next], order, dels, s, r, Turn(After(s, r, Attempted(log)), r, next.del))
  {
    ChainGrows(log, next, s, r);
    AttemptsMore(log, next, dels, s, r);
  }

  /** The fee the tick reads is the one under which the deployment stands. */
  lemma FeeReadIsCurrent(s: State, f: Fixture, fee: FeeView)
    requires Deployed(s, f, fee)
    ensures ReadFee(s.feeConfig) == fee
  {
  }

  /** The slots attempted, in order. */
  function AttemptedSlots(log: seq<Attempt>): (order: seq<Slot>)
    ensures |order| == |log| && forall i | 0 <= i < |log| :: order[i] == SlotOf(log[i].del)
  {
    if log == [] then [] else AttemptedSlots(log[..|log| - 1]) + [SlotOf(log[|log| - 1].del)]
  }

  /** What a tick promises of its log: attempts as above, of distinct slots, one for each slot that a relevant
      delegation fills, in the order of their first listings, under the fee configuration it read. */
  ghost predicate Ticked(log: seq<Attempt>, dels: seq<Delegation>, s: State, r: Round) {
    r.fee == ReadFee(s.feeConfig) && Attempts(log, dels, s, r)
    && (forall i, j | 0 <= i < j < |log| :: SlotOf(log[i].del) != SlotOf(log[j].del))
    && ListingOrder(AttemptedSlots(log), dels)
    && forall slot: Slot :: slot in AttemptedSlots(log) <==> Filled(dels, |dels|, r.f, slot)
  }

  ghost function Slots(order: seq<Slot>): set<Slot> { set slot <- order }

  lemma {:induction false} TickedOrder(log: seq<Attempt>, dels: seq<Delegation>, s: State, r: Round)
    requires Ticked(log, dels, s, r)
    ensures KeyOrder(AttemptedSlots(log), dels, Slots(AttemptedSlots(log)))
    ensures Covers(dels, |dels|, r.f, Slots(AttemptedSlots(log)))
  {
  }

  lemma SameAttempt(log: seq<Attempt>, other: seq<Attempt>, dels: seq<Delegation>, s: State, r: Round, i: nat)
    requires Attempts(log, dels, s, r) && Attempts(other, dels, s, r) && i < |log| && i < |other|
    requires log[..i] == other[..i] && SlotOf(log[i].del) == SlotOf(other[i].del)
    ensures log[i] == other[i]
  {
    assert AttemptAt(log, dels, s, r, i) && AttemptAt(other, dels, s, r, i);
    var slot := SlotOf(log[i].del);
    var j: nat :| IsBest(dels, |dels|, slot, j) && dels[j] == log[i].del;
    var k: nat :| IsBest(dels, |dels|, slot, k) && dels[k] == other[i].del;
    BestIsUnique(dels, slot, j, k);
    forall m | 0 <= m < i ensures Attempted(log)[m] == Attempted(other)[m] {
      assert log[..i][m] == other[..i][m];
    }
    assert Attempted(log)[..i] == Attempted(other)[..i];
  }

  lemma {:induction false} SameAttempts(
      log: seq<Attempt>, other: seq<Attempt>, dels: seq<Delegation>, s: State, r: Round, i: nat)
    requires Attempts(log, dels, s, r) && Attempts(other, dels, s, r) && i <= |log| && |other| == |log|
    requires AttemptedSlots(log) == AttemptedSlots(other)
    ensures log[..i] == other[..i]
  {
    if i == 0 {
    } else {
      SameAttempts(log, other, dels, s, r, i - 1);
      assert AttemptedSlots(log)[i - 1] == AttemptedSlots(other)[i - 1];
      SameAttempt(log, other, dels, s, r, i - 1);
      assert log[..i] == log[..i - 1] + [log[i - 1]] && other[..i] == other[..i - 1] + [other[i - 1]];
    }
  }

  /** Those promises leave nothing open: which delegations are attempted, in which order, and what becomes of each,
      follow from the list, the chain and the clocks. */
  lemma TickIsDetermined(
      log: seq<Attempt>, other: seq<Attempt>, dels: seq<Delegation>, s: State, r: Round)
    requires Ticked(log, dels, s, r) && Ticked(other, dels, s, r)
    ensures log == other
  {
    var order, again := AttemptedSlots(log), AttemptedSlots(other);
    TickedOrder(log, dels, s, r);
    TickedOrder(other, dels, s, r);
    forall slot ensures slot in Slots(order) <==> slot in Slots(again) {
      assert slot in order <==> Filled(dels, |dels|, r.f, slot);
      assert slot in again <==> Filled(dels, |dels|, r.f, slot);
    }
    assert Slots(order) == Slots(again);
    forall slot | slot in Slots(order) ensures exists a: nat :: FirstFor(dels, slot, a) {
      var a := SlotListed(dels, |dels|, r.f, slot);
    }
    KeyOrderIsUnique(order, again, dels, Slots(order));
    SameAttempts(log, other, dels, s, r, |log|);
    assert log[..|log|] == log && other[..|other|] == other;
  }

  /** The tick: read the fee and the delegations; then for each chosen slot read the chain, compose, submit, and
      go on whatever happened. Every slot is attempted once, and the chain ends as its turns leave it. */
  method RunTick(
      chain: Deployment, keeper: KeyPair, dels: seq<Delegation>, f: Fixture, now: I64, landed: map<Slot, I64>)
    returns (log: seq<Attempt>)
    requires Inv(chain.Now()) && forall slot <- landed :: 0 <= landed[slot]
    modifies chain, chain.bank
    ensures var r := Round(f, ReadFee(old(chain.feeConfig)), keeper, now, landed);
            chain.Now() == After(old(chain.Now()), r, Attempted(log)) && Ticked(log, dels, old(chain.Now()), r)
    ensures Inv(chain.Now())
  {
    var r := Round(f, ReadFee(chain.feeConfig), keeper, now, landed);
    var order, best := SelectBest(dels, f);
    log := [];
    for n := 0 to |order|
      invariant |log| == n && Inv(chain.Now())
      invariant SoFar(log, order, dels, old(chain.Now()), r, chain.Now())
    {
      assert order[n] in order;
      var d := best[order[n]];
      var outcome := TakeTurn(chain, r, d);
      AttemptsGrow(log, Attempt(d, outcome), order, dels, old(chain.Now()), r);
      log := log + [Attempt(d, outcome)];
    }
    assert AttemptedSlots(log) == order;
  }

  /** One pass of the loop body: crankBuy or crankSell on the chain as it is, then the submission. A transaction
      that is refused, or never lands, is recorded as failed. */
  method TakeTurn(chain: Deployment, r: Round, d: Delegation) returns (outcome: Outcome)
    requires Inv(chain.Now()) && Clocked(r)
    modifies chain, chain.bank
    ensures Inv(chain.Now()) && chain.Now() == Turn(old(chain.Now()), r, d)
    ensures outcome == TurnOutcome(old(chain.Now()), r, d)
  {
    var user, l, f := d.delegator, chain.bank.balances, r.f;
    var crank;
    if d.mint == f.usdcMint {
      crank := CrankBuy(f, r.keeper, d, r.now, r.fee, Bal(l, Ata(BuyAuthority(user), f.usdcMint)));
    } else {
      crank := CrankSell(f, r.keeper, d, r.now, r.fee, ReadPlan(chain.Now(), user), Bal(l, Ata(user, f.targetMint)),
                         Bal(l, Ata(BuyAuthority(user), f.targetMint)));
    }
    assert crank == TurnCrank(chain.Now(), r, d);
    if crank.Skip? { return Skipped; }
    if SlotOf(d) !in r.landed { return Failed; }
    var tx := Tx(Env(r.landed[SlotOf(d)], {r.keeper}), crank.ixs);
    if StepAll(chain.Now(), tx.env, tx.ixs).Ok? { StepAllKeepsInv(chain.Now(), tx.env, tx.ixs); }
    var sent := chain.Submit(tx);
    outcome := if sent.Ok? then Committed else Failed;
  }

  // ---- From the log to the outcomes ----

  /** Where key pairs delegate, the attempts of a tick are one for each slot. */
  lemma {:induction false} AttemptedOnce(log: seq<Attempt>, dels: seq<Delegation>, s: State, r: Round)
    requires Ticked(log, dels, s, r) && forall d <- dels :: d.delegator.Raw?
    ensures OnePerSlot(Attempted(log), r.f)
  {
    forall d <- Attempted(log) ensures Relevant(d, r.f) && d.delegator.Raw? {
      var i :| 0 <= i < |log| && log[i].del == d;
      assert AttemptAt(log, dels, s, r, i) && AttemptedSlots(log)[i] == SlotOf(d);
      assert Filled(dels, |dels|, r.f, SlotOf(d));
    }
  }

  lemma {:induction false} AttemptIsTurn(log: seq<Attempt>, dels: seq<Delegation>, s: State, r: Round, i: nat)
    requires Ticked(log, dels, s, r) && i < |log|
    ensures Attempted(log)[i] == log[i].del && log[i].del in dels
    ensures log[i].outcome == TurnOutcome(Before(s, r, Attempted(log), i), r, log[i].del)
  {
    assert AttemptAt(log, dels, s, r, i);
  }

  /** The fee does not go to any of the delegators' transients. */
  predicate FeeApart(dels: seq<Delegation>, fee: FeeView) {
    fee.destination.Some? && forall d <- dels :: d.delegator.Raw? && fee.destination.value != BuyAuthority(d.delegator)
  }

  lemma {:induction false} AttemptsApart(log: seq<Attempt>, dels: seq<Delegation>, s: State, r: Round)
    requires Ticked(log, dels, s, r) && FeeApart(dels, r.fee)
    ensures OnePerSlot(Attempted(log), r.f) && FeeElsewhere(Attempted(log), r.fee)
  {
    AttemptedOnce(log, dels, s, r);
    forall d <- Attempted(log) ensures r.fee.destination.value != BuyAuthority(d.delegator) {
      var i :| 0 <= i < |log| && log[i].del == d;
      AttemptIsTurn(log, dels, s, r, i);
    }
  }

  /** From what the tick promises to what became of each sell: the attempt for a ready user is settled, and the log
      says how. */
  lemma {:induction false} TickSettlesSell(log: seq<Attempt>, dels: seq<Delegation>, s: State, r: Round, i: nat)
    requires Ticked(log, dels, s, r) && FeeApart(dels, r.fee) && Clocked(r) && i < |log|
    requires SideOf(log[i].del, r.f).Sell? && LandsInTime(r, log[i].del) && 0 <= r.now
    requires SellTarget(s, r.f, r.fee, r.keeper, log[i].del.delegator, r.now)
    ensures SellTarget(Before(s, r, Attempted(log), i), r.f, r.fee, r.keeper, log[i].del.delegator, r.now)
    ensures SellSettled(Before(s, r, Attempted(log), i), r, log[i].del, Before(s, r, Attempted(log), i + 1))
    ensures log[i].outcome == TurnOutcome(Before(s, r, Attempted(log), i), r, log[i].del)
  {
    AttemptsApart(log, dels, s, r);
    AttemptIsTurn(log, dels, s, r, i);
    TickSell(s, r, Attempted(log), i);
  }

  /** The same for each buy. */
  lemma {:induction false} TickSettlesBuy(log: seq<Attempt>, dels: seq<Delegation>, s: State, r: Round, i: nat)
    requires Ticked(log, dels, s, r) && FeeApart(dels, r.fee) && Clocked(r) && i < |log|
    requires SideOf(log[i].del, r.f).Buy? && BuyTarget(s, r.f, r.fee, r.keeper, log[i].del.delegator)
    ensures BuySettled(Before(s, r, Attempted(log), i), r, log[i].del, Before(s, r, Attempted(log), i + 1))
    ensures log[i].outcome == TurnOutcome(Before(s, r, Attempted(log), i), r, log[i].del)
  {
    AttemptsApart(log, dels, s, r);
    AttemptIsTurn(log, dels, s, r, i);
    TickBuy(s, r, Attempted(log), i);
  }

  /** The log says Skipped of a sell exactly when there was nothing to do on the chain it found, and of a buy exactly
      when the delegation allowed no pull; the chain was then left as it was. */
  lemma {:induction false} TickSkips(log: seq<Attempt>, dels: seq<Delegation>, s: State, r: Round, i: nat)
    requires Ticked(log, dels, s, r) && Inv(s) && Clocked(r) && 0 <= r.now && i < |log|
    ensures Inv(Before(s, r, Attempted(log), i))
    ensures log[i].outcome == Skipped <==>
            if SideOf(log[i].del, r.f).Sell? then SellIdle(Before(s, r, Attempted(log), i), r, log[i].del)
            else Exhausted(log[i].del, r.now)
    ensures log[i].outcome == Skipped ==>
              Before(s, r, Attempted(log), i + 1) == Before(s, r, Attempted(log), i)
  {
    InvBefore(s, r, Attempted(log), i);
    AttemptIsTurn(log, dels, s, r, i);
    BeforeNext(s, r, Attempted(log), i);
    if SideOf(log[i].del, r.f).Sell? {
      SellTurnSkippedIff(Before(s, r, Attempted(log), i), r, log[i].del);
    } else {
      BuyTurnSkippedIff(Before(s, r, Attempted(log), i), r, log[i].del);
    }
  }

  lemma {:induction false} InvBefore(s: State, r: Round, ds: seq<Delegation>, i: nat)
    requires Inv(s) && Clocked(r) && i <= |ds|
    ensures Inv(Before(s, r, ds, i))
  {
    if i == 0 {
    } else {
      InvBefore(s, r, ds, i - 1);
      BeforeNext(s, r, ds, i - 1);
      TurnKeepsInv(Before(s, r, ds, i - 1), r, ds[i - 1]);
    }
  }

  lemma TurnKeepsInv(s: State, r: Round, d: Delegation)
    requires Inv(s) && Clocked(r)
    ensures Inv(Turn(s, r, d))
  {
    var crank, at := TurnCrank(s, r, d), Landing(r, d);
    OnlyCommittedMoves(s, r.keeper, crank, at);
    if TurnOutcome(s, r, d) == Committed { StepAllKeepsInv(s, Env(at.value, {r.keeper}), crank.ixs); }
  }
}
