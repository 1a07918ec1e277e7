// What an execution can take besides the transient it spends: an account shrinks only if the venue was handed the
// rights to it. One address owns both of a user's transients, and an execution checks only the one it spends.
module Exposure {
  import opened Machine
  import opened Ledger
  import opened Program
  import opened Executions
  import Floors

  // ---- Any account ----

  /** The instruction is able to lower k: an execution that handed its venue the rights to it, and is not judged by it;
      or a transfer or pull out of it. */
  ghost predicate Exposes(s: State, env: Env, ix: Instruction, k: Key) {
    match ix
    case ExecuteBuy(a) => BuyQuote(s, env, a).Ok? && SwapExposes(s, env, BuySwap(a, BuyQuote(s, env, a).value), k)
    case ExecuteSell(a) => SellQuote(s, env, a).Ok? && SwapExposes(s, env, SellSwap(a, SellQuote(s, env, a).value), k)
    case Pull(delegator, mint, amount) => k == Ata(delegator, mint)
    case TokenTransfer(op) => k == op.from
    case _ => false
  }

  ghost predicate SwapExposes(s: State, env: Env, w: Swap, k: Key) {
    k != w.dest && AccountExposed(s.ledger, w, env.signers, k)
  }

  /** The transient an execution spends. */
  predicate SpentBy(ix: Instruction, k: Key) {
    match ix
    case ExecuteBuy(a) => k == a.transientUsdc
    case ExecuteSell(a) => k == a.transientTarget
    case _ => false
  }

  /** Whoever signs and whatever the venue does, no account shrinks that the instruction neither spends nor exposes. */
  lemma LoweredIsExposed(s: State, env: Env, ix: Instruction, t: State, k: Key)
    requires Step(s, env, ix) == Ok(t) && Bal(t.ledger, k) < Bal(s.ledger, k)
    ensures SpentBy(ix, k) || Exposes(s, env, ix, k)
  {
    match ix
    case ExecuteBuy(a) =>
      BuyMoves(s, env, a);
      BuyGuards(s, env, a);
      SwapLowers(s, env, BuySwap(a, BuyQuote(s, env, a).value), k);
    case ExecuteSell(a) =>
      SellMoves(s, env, a);
      SellGuards(s, env, a);
      SwapLowers(s, env, SellSwap(a, SellQuote(s, env, a).value), k);
    case _ =>
  }

  lemma SwapLowers(s: State, env: Env, w: Swap, k: Key)
    requires w.transient in s.ledger && w.transient.TokenAccount? && w.dest in s.ledger
    requires SkimAndSwap(s.ledger, w, env.signers).Ok?
    requires Bal(SkimAndSwap(s.ledger, w, env.signers).value.ledger, k) < Bal(s.ledger, k)
    ensures k == w.transient || SwapExposes(s, env, w, k)
  {
    if k != w.transient { ShrunkIsExposed(s.ledger, w, env.signers, k); }
  }

  /** The same execution with another behaviour of its venue. */
  function BuyWith(a: BuyArgs, ops: seq<TransferOp>): BuyArgs { a.(venue := a.venue.(ops := ops)) }

  function SellWith(a: SellArgs, ops: seq<TransferOp>): SellArgs { a.(venue := a.venue.(ops := ops)) }

  lemma BuyQuoteIgnoresOps(s: State, env: Env, a: BuyArgs, ops: seq<TransferOp>)
    ensures BuyQuote(s, env, BuyWith(a, ops)) == BuyQuote(s, env, a)
  {
  }

  lemma SellQuoteIgnoresOps(s: State, env: Env, a: SellArgs, ops: seq<TransferOp>)
    ensures SellQuote(s, env, SellWith(a, ops)) == SellQuote(s, env, a)
  {
  }

  /** Once quoted, a buy succeeds if its movement does, and moves just that. */
  lemma BuyFromQuote(s: State, env: Env, a: BuyArgs)
    requires BuyQuote(s, env, a).Ok?
    requires SkimAndSwap(s.ledger, BuySwap(a, BuyQuote(s, env, a).value), env.signers).Ok?
    ensures BuyEffect(s, env, a).Ok? && BuyEffect(s, env, a).value.config == s.config
    ensures BuyEffect(s, env, a).value.ledger
            == SkimAndSwap(s.ledger, BuySwap(a, BuyQuote(s, env, a).value), env.signers).value.ledger
  {
  }

  ghost predicate BuyLowers(s: State, env: Env, a: BuyArgs, k: Key) {
    BuyEffect(s, env, a).Ok? && Bal(BuyEffect(s, env, a).value.ledger, k) < Bal(s.ledger, k)
  }

  ghost predicate SellLowers(s: State, env: Env, a: SellArgs, k: Key) {
    SellEffect(s, env, a).Ok? && Bal(SellEffect(s, env, a).value.ledger, k) < Bal(s.ledger, k)
  }

  lemma BuyLowersIsShrinks(s: State, env: Env, a: BuyArgs, ops: seq<TransferOp>, k: Key)
    requires BuyEffect(s, env, a).Ok? && k in s.ledger
    ensures var w := BuySwap(a, BuyQuote(s, env, a).value);
            w.transient in s.ledger && w.dest in s.ledger
            && (BuyLowers(s, env, BuyWith(a, ops), k) <==> Shrinks(s.ledger, WithOps(w, ops), env.signers, k))
  {
    BuyMoves(s, env, a);
    BuyGuards(s, env, a);
    BuyQuoteIgnoresOps(s, env, a, ops);
    if BuyEffect(s, env, BuyWith(a, ops)).Ok? { BuyMoves(s, env, BuyWith(a, ops)); }
  }

  lemma SellLowersIsShrinks(s: State, env: Env, a: SellArgs, ops: seq<TransferOp>, k: Key)
    requires SellEffect(s, env, a).Ok? && k in s.ledger
    ensures var w := SellSwap(a, SellQuote(s, env, a).value);
            w.transient in s.ledger && w.dest in s.ledger
            && (SellLowers(s, env, SellWith(a, ops), k) <==> Shrinks(s.ledger, WithOps(w, ops), env.signers, k))
  {
    SellMoves(s, env, a);
    SellGuards(s, env, a);
    SellQuoteIgnoresOps(s, env, a, ops);
    if SellEffect(s, env, SellWith(a, ops)).Ok? { SellMoves(s, env, SellWith(a, ops)); }
  }

  /** The movement of a successful execution, and what it exposes. */
  lemma BuySwapOf(s: State, env: Env, a: BuyArgs) returns (w: Swap)
    requires BuyEffect(s, env, a).Ok?
    ensures BuyQuote(s, env, a).Ok? && w == BuySwap(a, BuyQuote(s, env, a).value)
    ensures w.transient in s.ledger && w.transient.TokenAccount? && w.dest in s.ledger && w.transient == a.transientUsdc
    ensures SkimAndSwap(s.ledger, w, env.signers).Ok?
    ensures forall k: Key :: Exposes(s, env, ExecuteBuy(a), k) <==> SwapExposes(s, env, w, k)
  {
    BuyMoves(s, env, a);
    BuyGuards(s, env, a);
    w := BuySwap(a, BuyQuote(s, env, a).value);
  }

  lemma SellSwapOf(s: State, env: Env, a: SellArgs) returns (w: Swap)
    requires SellEffect(s, env, a).Ok?
    ensures SellQuote(s, env, a).Ok? && w == SellSwap(a, SellQuote(s, env, a).value)
    ensures w.transient in s.ledger && w.transient.TokenAccount? && w.dest in s.ledger
    ensures w.transient == a.transientTarget && SkimAndSwap(s.ledger, w, env.signers).Ok?
    ensures forall k: Key :: Exposes(s, env, ExecuteSell(a), k) <==> SwapExposes(s, env, w, k)
  {
    SellMoves(s, env, a);
    SellGuards(s, env, a);
    w := SellSwap(a, SellQuote(s, env, a).value);
  }

  /** Where some behaviour of its venue makes a sell succeed, there is one that makes it succeed and lowers an account
      other than the transient if and only if the sell exposes that account. */
  lemma SellLowersIff(s: State, env: Env, a: SellArgs, k: Key)
    requires SupplyFits(s.ledger) && SellEffect(s, env, a).Ok? && k != a.transientTarget
    ensures (exists ops: seq<TransferOp> :: SellLowers(s, env, SellWith(a, ops), k))
            <==> Exposes(s, env, ExecuteSell(a), k)
  {
    var w := SellSwapOf(s, env, a);
    if k in s.ledger {
      ShrinksIff(s.ledger, w, env.signers, k);
      forall ops: seq<TransferOp>
        ensures SellLowers(s, env, SellWith(a, ops), k) <==> Shrinks(s.ledger, WithOps(w, ops), env.signers, k)
      {
        SellLowersIsShrinks(s, env, a, ops, k);
      }
    }
  }

  lemma BuyLowersIff(s: State, env: Env, a: BuyArgs, k: Key)
    requires SupplyFits(s.ledger) && BuyEffect(s, env, a).Ok? && k != a.transientUsdc
    ensures (exists ops: seq<TransferOp> :: BuyLowers(s, env, BuyWith(a, ops), k))
            <==> Exposes(s, env, ExecuteBuy(a), k)
  {
    var w := BuySwapOf(s, env, a);
    if k in s.ledger {
      ShrinksIff(s.ledger, w, env.signers, k);
      forall ops: seq<TransferOp>
        ensures BuyLowers(s, env, BuyWith(a, ops), k) <==> Shrinks(s.ledger, WithOps(w, ops), env.signers, k)
      {
        BuyLowersIsShrinks(s, env, a, ops, k);
      }
    }
  }

  /** No instruction exposes an account of a key pair that does not sign it, except to that key pair's own pull. */
  lemma UnsignedIsUnexposed(s: State, env: Env, ix: Instruction, t: State, k: Key)
    requires Step(s, env, ix) == Ok(t) && !ix.Pull?
    requires k.TokenAccount? && k.authority.Raw? && k.authority !in env.signers
    ensures !Exposes(s, env, ix, k)
  {
  }

  // ---- The other transient ----

  /** The account a sell for this user would draw from. */
  function SellTransient(s: State, user: Key): Key
    requires s.config.Some?
  {
    Ata(BuyAuthority(user), s.config.value.targetMint)
  }

  /** The account a buy for this user would spend. */
  function BuyTransient(s: State, user: Key): Key
    requires s.config.Some?
  {
    Ata(BuyAuthority(user), s.config.value.usdcMint)
  }

  /** k holds something, and the venue was handed it as writable with somewhere to put it. */
  ghost predicate HandedOver(l: Balances, k: Key, venue: VenueCall) {
    0 < Bal(l, k) && k in WritableKeys(venue.remaining)
    && exists to: Key :: Sink(l, k, to, WritableKeys(venue.remaining))
  }

  /** The buy was handed the user's sell transient; or the deployment's two mints are one, and the two transients
      with them. */
  ghost predicate SellTransientExposed(s: State, a: BuyArgs) {
    s.config.Some?
    && if s.config.value.targetMint == s.config.value.usdcMint then 0 < Drawn(s, a.user)
       else HandedOver(s.ledger, SellTransient(s, a.user), a.venue)
  }

  /** The sell was handed the user's buy transient, likewise. */
  ghost predicate BuyTransientExposed(s: State, a: SellArgs) {
    s.config.Some?
    && if s.config.value.targetMint == s.config.value.usdcMint then 0 < Bal(s.ledger, BuyTransient(s, a.user))
       else HandedOver(s.ledger, BuyTransient(s, a.user), a.venue)
  }

  /** A successful movement was handed the transient's authority: nothing else could have emptied it. */
  lemma AuthorityForwarded(l: Balances, w: Swap, signers: Signers)
    requires w.transient in l && w.dest in l && w.transient.TokenAccount? && SkimAndSwap(l, w, signers).Ok?
    requires w.fee < l[w.transient]
    ensures MaySign(w.transient.authority, Forwarded(w, signers), w.venue.program)
  {
    LoweredIsDebitable(Skim(l, w).value, w.venue.ops, w.transient, Forwarded(w, signers),
                       WritableKeys(w.venue.remaining), w.venue.program);
  }

  /** So another account of that authority, in another mint, is exposed exactly when it is handed over. */
  lemma ExposedIffHandedOver(l: Balances, w: Swap, signers: Signers, k: Key)
    requires w.transient in l && w.dest in l && w.transient.TokenAccount? && SkimAndSwap(l, w, signers).Ok?
    requires w.fee < l[w.transient]
    requires k.TokenAccount? && k.authority == w.transient.authority && k.mint != w.transient.mint
    ensures AccountExposed(l, w, signers, k) <==> HandedOver(l, k, w.venue)
  {
    AuthorityForwarded(l, w, signers);
  }

  lemma BuyNetLeft(s: State, env: Env, a: BuyArgs)
    requires Inv(s) && BuyQuote(s, env, a).Ok?
    ensures a.transientUsdc in s.ledger && BuyQuote(s, env, a).value.fee < s.ledger[a.transientUsdc]
  {
    BuyGuards(s, env, a);
    BuyQuoteIff(s, env, a);
  }

  lemma SellNetLeft(s: State, env: Env, a: SellArgs)
    requires Inv(s) && SellQuote(s, env, a).Ok?
    ensures a.transientTarget in s.ledger && SellQuote(s, env, a).value.fee < s.ledger[a.transientTarget]
  {
    SellGuards(s, env, a);
    QuoteFees(Floors.Sell, s.config.value, s.feeConfig.value, s.ledger[a.transientTarget], s.config.value.targetMint,
              a.feeAta, a.minOut);
  }

  /** The venue was handed this account, in any role. */
  predicate Handed(venue: VenueCall, k: Key) {
    AccountMeta(k, true) in venue.remaining || AccountMeta(k, false) in venue.remaining
  }

  /** A successful buy handed its venue the buy authority, and the transient as writable. */
  lemma BuyAuthorityForwarded(s: State, env: Env, a: BuyArgs)
    requires Inv(s) && BuyEffect(s, env, a).Ok?
    ensures BuyAuthority(a.user) in Forwarded(BuySwap(a, BuyQuote(s, env, a).value), env.signers)
    ensures Handed(a.venue, BuyAuthority(a.user))
  {
    BuyMoves(s, env, a);
    BuyGuards(s, env, a);
    BuyNetLeft(s, env, a);
    AuthorityForwarded(s.ledger, BuySwap(a, BuyQuote(s, env, a).value), env.signers);
  }

  ghost predicate Spends(s: State, env: Env, a: BuyArgs) {
    BuyEffect(s, env, a).Ok? && Drawn(BuyEffect(s, env, a).value, a.user) < Drawn(s, a.user)
  }

  /** A successful buy lowers the sell transient only if it was exposed; otherwise, whatever the venue
      did and whoever signed, it is left as it was or grew. */
  lemma SpentIsExposed(s: State, env: Env, a: BuyArgs)
    requires Spends(s, env, a)
    ensures SellTransientExposed(s, a)
  {
    BuyMoves(s, env, a);
    BuyGuards(s, env, a);
    if s.config.value.targetMint != s.config.value.usdcMint {
      SwapLowers(s, env, BuySwap(a, BuyQuote(s, env, a).value), SellTransient(s, a.user));
    }
  }

  /** A successful sell lowers the buy transient only if it was exposed. */
  lemma SellSpentIsExposed(s: State, env: Env, a: SellArgs)
    requires SellEffect(s, env, a).Ok? && s.config.Some? && SellLowers(s, env, a, BuyTransient(s, a.user))
    ensures BuyTransientExposed(s, a)
  {
    SellMoves(s, env, a);
    SellGuards(s, env, a);
    if s.config.value.targetMint != s.config.value.usdcMint {
      SwapLowers(s, env, SellSwap(a, SellQuote(s, env, a).value), BuyTransient(s, a.user));
    }
  }

  /** Whatever a buy's venue did, it could also have emptied an exposed sell transient, and the buy would have gone
      through all the same. */
  lemma {:induction false} ExposedCanBeSpent(s: State, env: Env, a: BuyArgs, to: Key) returns (ops: seq<TransferOp>)
    requires Inv(s) && SupplyFits(s.ledger) && BuyEffect(s, env, a).Ok? && SellTransientExposed(s, a)
    requires s.config.value.targetMint != s.config.value.usdcMint
    requires Sink(s.ledger, SellTransient(s, a.user), to, WritableKeys(a.venue.remaining))
    ensures |ops| == |a.venue.ops| + 1 && ops[..|a.venue.ops|] == a.venue.ops
    ensures BuyEffect(s, env, BuyWith(a, ops)).Ok? && Drawn(BuyEffect(s, env, BuyWith(a, ops)).value, a.user) == 0
  {
    BuyMoves(s, env, a);
    BuyGuards(s, env, a);
    BuyNetLeft(s, env, a);
    var w := BuySwap(a, BuyQuote(s, env, a).value);
    ExposedIffHandedOver(s.ledger, w, env.signers, SellTransient(s, a.user));
    ops := DrainedToo(s.ledger, w, env.signers, SellTransient(s, a.user), to);
    BuyQuoteIgnoresOps(s, env, a, ops);
    BuyFromQuote(s, env, BuyWith(a, ops));
  }

  /** Where some behaviour of the venue makes a buy succeed, there is one that makes it succeed and lowers what a
      sell would draw if and only if the sell transient is exposed. */
  lemma SellTransientSpentIff(s: State, env: Env, a: BuyArgs)
    requires Inv(s) && SupplyFits(s.ledger) && BuyEffect(s, env, a).Ok?
    ensures (exists ops: seq<TransferOp> :: Spends(s, env, BuyWith(a, ops))) <==> SellTransientExposed(s, a)
  {
    if ops: seq<TransferOp> :| Spends(s, env, BuyWith(a, ops)) {
      SpentIsExposed(s, env, BuyWith(a, ops));
    }
    if SellTransientExposed(s, a) {
      BuyMoves(s, env, a);
      BuyGuards(s, env, a);
      if s.config.value.targetMint == s.config.value.usdcMint {
        BuyOutcome(s, env, a);
        assert BuyWith(a, a.venue.ops) == a;
        assert Spends(s, env, BuyWith(a, a.venue.ops));
      } else {
        BuyNetLeft(s, env, a);
        ExposedIffHandedOver(s.ledger, BuySwap(a, BuyQuote(s, env, a).value), env.signers, SellTransient(s, a.user));
        BuyLowersIff(s, env, a, SellTransient(s, a.user));
        var ops: seq<TransferOp> :| BuyLowers(s, env, BuyWith(a, ops), SellTransient(s, a.user));
        BuyMoves(s, env, BuyWith(a, ops));
        assert Spends(s, env, BuyWith(a, ops));
      }
    }
  }

  /** The mirror image: a sell's venue can spend what a buy would if and only if the buy transient is exposed. */
  lemma BuyTransientSpentIff(s: State, env: Env, a: SellArgs)
    requires Inv(s) && SupplyFits(s.ledger) && SellEffect(s, env, a).Ok?
    ensures s.config.Some?
    ensures (exists ops: seq<TransferOp> :: SellLowers(s, env, SellWith(a, ops), BuyTransient(s, a.user)))
            <==> BuyTransientExposed(s, a)
  {
    SellMoves(s, env, a);
    SellGuards(s, env, a);
    if s.config.value.targetMint == s.config.value.usdcMint {
      SellOutcome(s, env, a);
      assert SellWith(a, a.venue.ops) == a;
      assert SellLowers(s, env, SellWith(a, a.venue.ops), BuyTransient(s, a.user));
    } else {
      SellNetLeft(s, env, a);
      ExposedIffHandedOver(s.ledger, SellSwap(a, SellQuote(s, env, a).value), env.signers, BuyTransient(s, a.user));
      SellLowersIff(s, env, a, BuyTransient(s, a.user));
    }
  }

  /** With two different mints, a buy that does not hand its venue the sell transient as writable leaves it
      exactly as it was. */
  lemma BuyLeavesSellTransient(s: State, env: Env, a: BuyArgs)
    requires BuyEffect(s, env, a).Ok? && s.config.Some? && s.config.value.targetMint != s.config.value.usdcMint
    requires SellTransient(s, a.user) !in WritableKeys(a.venue.remaining)
    ensures Drawn(BuyEffect(s, env, a).value, a.user) == Drawn(s, a.user)
  {
    BuyMoves(s, env, a);
    BuyGuards(s, env, a);
    SwapOutcome(s.ledger, BuySwap(a, BuyQuote(s, env, a).value), env.signers);
  }

  // ---- What the user gains ----

  /** Unless the other transient is exposed, the minimum is paid from outside: the destination and the other
      transient together gain at least that much. */
  lemma BuyGains(s: State, env: Env, a: BuyArgs)
    requires BuyEffect(s, env, a).Ok? && s.config.Some? && !SellTransientExposed(s, a)
    ensures var l, l2 := s.ledger, BuyEffect(s, env, a).value.ledger;
            var dest, other := Ata(a.user, s.config.value.targetMint), SellTransient(s, a.user);
            Bal(l, dest) as int + Bal(l, other) + a.minOut <= Bal(l2, dest) as int + Bal(l2, other)
  {
    BuyMoves(s, env, a);
    BuyOutcome(s, env, a);
    if Drawn(BuyEffect(s, env, a).value, a.user) < Drawn(s, a.user) { SpentIsExposed(s, env, a); }
  }

  lemma SellGains(s: State, env: Env, a: SellArgs)
    requires SellEffect(s, env, a).Ok? && s.config.Some? && !BuyTransientExposed(s, a)
    ensures var l, l2 := s.ledger, SellEffect(s, env, a).value.ledger;
            var dest, other := Ata(a.user, s.config.value.usdcMint), BuyTransient(s, a.user);
            Bal(l, dest) as int + Bal(l, other) + a.minOut <= Bal(l2, dest) as int + Bal(l2, other)
  {
    SellMoves(s, env, a);
    SellOutcome(s, env, a);
    if SellLowers(s, env, a, BuyTransient(s, a.user)) { SellSpentIsExposed(s, env, a); }
  }

  // ---- What a venue was handed ----

  /** Whatever an execution does to an account besides the skim, its venue was handed that account as writable. */
  lemma ChangedIsHanded(l: Balances, w: Swap, signers: Signers, k: Key)
    requires w.transient in l && w.dest in l && SkimAndSwap(l, w, signers).Ok?
    requires k !in {w.transient, w.feeAta} && Bal(SkimAndSwap(l, w, signers).value.ledger, k) != Bal(l, k)
    ensures AccountMeta(k, true) in w.venue.remaining
  {
    SwapOutcome(l, w, signers);
    assert k in WritableKeys(w.venue.remaining);
  }

  /** Over a buy or a sell: an account that its venue was not handed as writable keeps its balance, the spent
      transient and the fee account apart. */
  lemma UnhandedIsKept(s: State, env: Env, ix: Instruction, t: State, k: Key)
    requires Step(s, env, ix) == Ok(t) && (ix.ExecuteBuy? || ix.ExecuteSell?) && !SpentBy(ix, k)
    requires k != if ix.ExecuteBuy? then ix.buy.feeAta else ix.sell.feeAta
    requires AccountMeta(k, true) !in (if ix.ExecuteBuy? then ix.buy.venue else ix.sell.venue).remaining
    ensures Bal(t.ledger, k) == Bal(s.ledger, k)
  {
    if ix.ExecuteBuy? {
      var w := BuySwapOf(s, env, ix.buy);
      BuyMoves(s, env, ix.buy);
      if Bal(t.ledger, k) != Bal(s.ledger, k) { ChangedIsHanded(s.ledger, w, env.signers, k); }
    } else {
      var w := SellSwapOf(s, env, ix.sell);
      SellMoves(s, env, ix.sell);
      if Bal(t.ledger, k) != Bal(s.ledger, k) { ChangedIsHanded(s.ledger, w, env.signers, k); }
    }
  }
}
