// The concrete venue: take amountIn into a pool, pay out of another pool.
module MockVenue {
  import opened Machine
  import opened Ledger
  import opened Program
  import opened Accounts

  const TOKEN_PROGRAM: Key := Raw(1)

  /** The venue instruction the keepers build: its accounts in order, and the two transfers it makes. */
  function SwapCall(program: Key, source: Key, sourceAuthority: Key, poolIn: Key, poolOut: Key, dest: Key,
                    poolAuthority: Key, amountIn: U64, out: U64): VenueCall
  {
    VenueCall(program,
      [AccountMeta(source, true), AccountMeta(sourceAuthority, false), AccountMeta(poolIn, true),
       AccountMeta(poolOut, true), AccountMeta(dest, true), AccountMeta(poolAuthority, false),
       AccountMeta(TOKEN_PROGRAM, false)],
      [TransferOp(source, poolIn, sourceAuthority, amountIn), TransferOp(poolOut, dest, poolAuthority, out)])
  }

  /** What the venue's swap does to the balances: both transfers, or the first refusal. */
  function SwapEffect(l: Balances, c: VenueCall): Result<Balances>
    requires |c.ops| == 2
  {
    var taken :- Transfer(l, c.ops[0]);
    Transfer(taken, c.ops[1])
  }

  /** The venue's instruction: pull the input from the source, then pay the output from the pool. */
  method SwapTokens(bank: TokenBank, program: Key, source: Key, sourceAuthority: Key, poolIn: Key, poolOut: Key,
                    dest: Key, poolAuthority: Key, amountIn: U64, out: U64) returns (r: Result<()>)
    modifies bank
    ensures var c := SwapCall(program, source, sourceAuthority, poolIn, poolOut, dest, poolAuthority, amountIn, out);
            Agrees(r, SwapEffect(old(bank.balances), c))
            && (r.Ok? ==> bank.balances == SwapEffect(old(bank.balances), c).value)
  {
    r := bank.Send(TransferOp(source, poolIn, sourceAuthority, amountIn));
    if r.Err? { return; }
    r := bank.Send(TransferOp(poolOut, dest, poolAuthority, out));
  }

  /** An execution through the mock venue: skim `fee`, swap `net` one for one. */
  datatype MockSwap = MockSwap(
    program: Key, seed: nat, user: Key, inMint: Key, outMint: Key,
    poolIn: Key, poolOut: Key, feeAta: Key, fee: U64, net: U64, minOut: U64)
  {
    function Transient(): Key { Ata(BuyAuthority(user), inMint) }
    function Dest(): Key { Ata(user, outMint) }
    function PoolAuthority(): Key { Pda(program, seed) }

    function Call(): VenueCall {
      SwapCall(program, Transient(), BuyAuthority(user), poolIn, poolOut, Dest(), PoolAuthority(), net, net)
    }

    function AsSwap(): Swap { Swap(user, Transient(), feeAta, Dest(), fee, Call(), minOut) }

    /** The fee, if any, leaves the transient. */
    predicate FeeLeaves() { fee == 0 || feeAta != Transient() }

    /** Everything exists, the pool can pay, and the fee leaves the transient. */
    ghost predicate Ready(l: Balances) { Funded(l) && FeeLeaves() }

    ghost predicate Funded(l: Balances) { Placed(l) && net <= l[poolOut] }

    /** Everything exists and the input is in the transient; the two mints differ. */
    ghost predicate Placed(l: Balances) {
      SupplyFits(l) && user.Raw? && inMint != outMint
      && Transient() in l && Dest() in l && feeAta in l && poolIn in l && poolOut in l
      && feeAta.TokenAccount? && feeAta.mint == inMint
      && poolIn.TokenAccount? && poolIn.mint == inMint && poolIn.authority == PoolAuthority()
      && poolOut.TokenAccount? && poolOut.mint == outMint && poolOut.authority == PoolAuthority()
      && fee + net == l[Transient()] && minOut <= net
    }
  }

  /** The venue's second half, after the input has reached the pool. */
  lemma PayOut(m: MockSwap, l: Balances, signers: Signers)
    requires SupplyFits(l) && m.Dest() in l && m.poolOut in l && m.user.Raw?
    requires m.poolOut.TokenAccount? && m.poolOut.mint == m.outMint && m.poolOut.authority == m.PoolAuthority()
    requires m.net <= l[m.poolOut]
    ensures Transfer(l, m.Call().ops[1]).Ok? && SupplyFits(Transfer(l, m.Call().ops[1]).value)
    ensures l[m.Dest()] + m.net < U64_LIMIT
    ensures Transfer(l, m.Call().ops[1]).value
            == l[m.poolOut := l[m.poolOut] - m.net][m.Dest() := l[m.Dest()] + m.net]
  {
    TransferSucceeds(l, m.Call().ops[1]);
    PairWithinTotal(l, m.poolOut, m.Dest(), m.outMint);
  }

  lemma Privileges(m: MockSwap, signers: Signers)
    ensures var c := m.Call();
            var forwarded, writable := ForwardedSigners(c.remaining, signers, BuyAuthority(m.user)),
                                       WritableKeys(c.remaining);
            Privileged(c.ops[0], forwarded, writable, m.program) && Privileged(c.ops[1], forwarded, writable, m.program)
  {
    var c := m.Call();
    assert c.remaining[0] in c.remaining && c.remaining[1] in c.remaining && c.remaining[2] in c.remaining;
    assert c.remaining[3] in c.remaining && c.remaining[4] in c.remaining;
  }

  /** Forwarded by the router, the venue call has exactly the effect of the venue's instruction. */
  lemma {:induction false} CallIsSwap(m: MockSwap, l: Balances, signers: Signers)
    ensures var c := m.Call();
            RunOps(l, c.ops, ForwardedSigners(c.remaining, signers, BuyAuthority(m.user)), WritableKeys(c.remaining),
                   m.program)
            == SwapEffect(l, c)
  {
    Privileges(m, signers);
    var c := m.Call();
    var forwarded, writable := ForwardedSigners(c.remaining, signers, BuyAuthority(m.user)), WritableKeys(c.remaining);
    assert c.ops[1..] == [c.ops[1]];
    if Transfer(l, c.ops[0]).Ok? { LastOp(Transfer(l, c.ops[0]).value, c.ops[1], forwarded, writable, m.program); }
  }

  lemma {:induction false} LastOp(l: Balances, op: TransferOp, signers: set<Key>, writable: set<Key>, program: Key)
    requires Privileged(op, signers, writable, program)
    ensures RunOps(l, [op], signers, writable, program) == Transfer(l, op)
  {
    assert [op][1..] == [];
  }

  /** What changed, at most, and what the output side still holds. */
  ghost predicate InputTaken(m: MockSwap, l: Balances, after: Balances) {
    SupplyFits(after) && after.Keys == l.Keys && m.Transient() in after && after[m.Transient()] == 0
    && (forall k <- l :: k !in {m.Transient(), m.feeAta, m.poolIn} ==> after[k] == l[k])
  }

  lemma SkimReady(m: MockSwap, l: Balances)
    requires m.Placed(l) && m.FeeLeaves()
    ensures Skim(l, m.AsSwap()).Ok? && SupplyFits(Skim(l, m.AsSwap()).value)
    ensures var l1 := Skim(l, m.AsSwap()).value;
            l1.Keys == l.Keys && l1[m.Transient()] == m.net
            && (forall k <- l :: k !in {m.Transient(), m.feeAta} ==> l1[k] == l[k])
  {
    if m.fee > 0 {
      TransferSucceeds(l, TransferOp(m.Transient(), m.feeAta, BuyAuthority(m.user), m.fee));
    }
  }

  /** The fee and the venue's first half together empty the transient. */
  lemma TakeIn(m: MockSwap, l: Balances)
    requires m.Placed(l) && m.FeeLeaves()
    ensures Skim(l, m.AsSwap()).Ok?
    ensures Transfer(Skim(l, m.AsSwap()).value, m.Call().ops[0]).Ok?
    ensures InputTaken(m, l, Transfer(Skim(l, m.AsSwap()).value, m.Call().ops[0]).value)
  {
    SkimReady(m, l);
    TransferSucceeds(Skim(l, m.AsSwap()).value, m.Call().ops[0]);
  }

  /** A ready swap drained the transient, paid the net input out, and touched nothing else of note. */
  ghost predicate Swapped(m: MockSwap, l: Balances, after: Balances) {
    SupplyFits(after) && after.Keys == l.Keys
    && m.Transient() in l && m.Dest() in l && m.poolOut in l
    && after[m.Transient()] == 0 && after[m.Dest()] == l[m.Dest()] + m.net
    && after[m.poolOut] == l[m.poolOut] - m.net
    && (forall k <- l :: k !in {m.Transient(), m.feeAta, m.poolIn, m.poolOut, m.Dest()} ==> after[k] == l[k])
  }

  lemma SwapMoves(m: MockSwap, l: Balances, signers: Signers)
    requires m.Ready(l)
    ensures Skim(l, m.AsSwap()).Ok? && RunVenue(Skim(l, m.AsSwap()).value, m.AsSwap(), signers).Ok?
    ensures Swapped(m, l, RunVenue(Skim(l, m.AsSwap()).value, m.AsSwap(), signers).value)
  {
    TakeIn(m, l);
    var c, l1 := m.Call(), Skim(l, m.AsSwap()).value;
    var l2 := Transfer(l1, c.ops[0]).value;
    PayOut(m, l2, signers);
    CallIsSwap(m, l1, signers);
  }

  /** Ready swaps succeed, drain the transient exactly, and deliver the net input. */
  lemma SwapSucceeds(m: MockSwap, l: Balances, signers: Signers)
    requires m.Ready(l)
    ensures SkimAndSwap(l, m.AsSwap(), signers).Ok?
    ensures SkimAndSwap(l, m.AsSwap(), signers).value.out == m.net
    ensures Swapped(m, l, SkimAndSwap(l, m.AsSwap(), signers).value.ledger)
  {
    SwapMoves(m, l, signers);
  }

  /** A fee destination whose account is the transient itself keeps the fee there: the swap of the net
      then never drains it, and the execution fails. */
  lemma SelfFeeLeavesResidue(m: MockSwap, l: Balances, signers: Signers)
    requires m.Funded(l) && 0 < m.fee && m.feeAta == m.Transient()
    ensures SkimAndSwap(l, m.AsSwap(), signers) == Err(TransientNotDrained)
  {
    var skim := TransferOp(m.Transient(), m.feeAta, BuyAuthority(m.user), m.fee);
    TransferSucceeds(l, skim);
    TransferSucceeds(l, m.Call().ops[0]);
    var taken := Transfer(l, m.Call().ops[0]).value;
    assert taken[m.Transient()] == m.fee && taken[m.poolOut] == l[m.poolOut];
    PayOut(m, taken, signers);
    CallIsSwap(m, l, signers);
  }

  /** A pool that cannot pay makes the swap fail, whatever its fee. */
  lemma DryPoolFails(m: MockSwap, l: Balances, signers: Signers)
    requires m.Placed(l) && l[m.poolOut] < m.net
    ensures SkimAndSwap(l, m.AsSwap(), signers) == Err(TokenError)
  {
    if m.FeeLeaves() {
      TakeIn(m, l);
      Unpaid(m, l, Skim(l, m.AsSwap()).value, signers);
    } else {
      TransferSucceeds(l, TransferOp(m.Transient(), m.feeAta, BuyAuthority(m.user), m.fee));
      TransferSucceeds(l, m.Call().ops[0]);
      Unpaid(m, l, l, signers);
    }
  }

  lemma Unpaid(m: MockSwap, l: Balances, skimmed: Balances, signers: Signers)
    requires m.Placed(l) && l[m.poolOut] < m.net && Skim(l, m.AsSwap()) == Ok(skimmed)
    requires Transfer(skimmed, m.Call().ops[0]).Ok?
    requires Bal(Transfer(skimmed, m.Call().ops[0]).value, m.poolOut) == l[m.poolOut]
    ensures SkimAndSwap(l, m.AsSwap(), signers) == Err(TokenError)
  {
    CallIsSwap(m, skimmed, signers);
    TransferIff(Transfer(skimmed, m.Call().ops[0]).value, m.Call().ops[1]);
  }
}
