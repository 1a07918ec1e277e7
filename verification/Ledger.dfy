// Addresses, token accounts, and the transfers the token program lets a venue make.
module Ledger {
  import opened Machine

  /** Addresses. Program-derived and canonical token-account addresses are injective by construction;
      only Raw addresses are key pairs that can sign a transaction. */
  datatype Key =
    | Raw(id: nat)
    | BuyAuthority(user: Key)                                    // the router's per-user signing address
    | Pda(program: Key, seed: nat)                               // an address another program signs for
    | TokenAccount(mint: Key, authority: Key, index: nat)        // index 0 is the canonical account

  const DEFAULT_KEY: Key := Raw(0)

  function Ata(owner: Key, mint: Key): Key { TokenAccount(mint, owner, 0) }

  type Signers = s: set<Key> | forall k <- s :: k.Raw? witness {}

  /** Token balances. A key that is absent is an account that does not exist. */
  type Balances = map<Key, U64>

  function Bal(l: Balances, k: Key): U64 { if k in l then l[k] else 0 }

  datatype TransferOp = TransferOp(from: Key, to: Key, authority: Key, amount: U64)

  /** The token program's transfer. A transfer to the same account checks and then does nothing. */
  function Transfer(l: Balances, op: TransferOp): (r: Result<Balances>)
    ensures r.Ok? ==> r.value.Keys == l.Keys
  {
    if !(op.from in l && op.from.TokenAccount? && op.to in l && op.to.TokenAccount?) then Err(TokenError) else
    :- Need(op.from.authority == op.authority && op.from.mint == op.to.mint, TokenError);
    :- Need(op.amount <= l[op.from], TokenError);
    if op.from == op.to then Ok(l) else
    :- Need(l[op.to] + op.amount < U64_LIMIT, TokenError);
    Ok(l[op.from := l[op.from] - op.amount][op.to := l[op.to] + op.amount])
  }

  /** What the token program asks of a transfer. */
  predicate Transferable(l: Balances, op: TransferOp) {
    op.from in l && op.to in l && op.from.TokenAccount? && op.to.TokenAccount?
    && op.from.authority == op.authority && op.from.mint == op.to.mint && op.amount <= l[op.from]
    && (op.from == op.to || l[op.to] + op.amount < U64_LIMIT)
  }

  /** A transfer goes through exactly when all of that holds; it then takes the amount from one account, adds it to the
      other, and leaves every other account alone. */
  lemma TransferIff(l: Balances, op: TransferOp)
    ensures Transfer(l, op).Ok? <==> Transferable(l, op)
    ensures Transfer(l, op).Err? ==> Transfer(l, op) == Err(TokenError)
    ensures Transfer(l, op).Ok? ==>
              forall k: Key ::
                Bal(Transfer(l, op).value, k)
                == Bal(l, k) + (if k == op.to then op.amount else 0) - (if k == op.from then op.amount else 0)
  {
  }

  // ---- Venues ----

  datatype AccountMeta = AccountMeta(key: Key, isWritable: bool)

  /** A venue call: the program, the accounts forwarded to it, and the transfers it then performs.
      Nothing is assumed about the transfers; the list stands for whatever the venue chooses to do. */
  datatype VenueCall = VenueCall(program: Key, remaining: seq<AccountMeta>, ops: seq<TransferOp>)

  /** Forwarded accounts keep their transaction signature; the buy authority is forced to sign. */
  function ForwardedSigners(remaining: seq<AccountMeta>, signers: Signers, buyAuthority: Key): set<Key> {
    set m <- remaining | m.key in signers || m.key == buyAuthority :: m.key
  }

  function WritableKeys(remaining: seq<AccountMeta>): set<Key> {
    set m <- remaining | m.isWritable :: m.key
  }

  predicate MaySign(k: Key, signers: set<Key>, program: Key) {
    k in signers || (k.Pda? && k.program == program)
  }

  predicate Privileged(op: TransferOp, signers: set<Key>, writable: set<Key>, program: Key) {
    MaySign(op.authority, signers, program) && op.from in writable && op.to in writable
  }

  /** A venue's transfers in order; the first refused one fails the call, and with it the transaction. */
  function RunOps(l: Balances, ops: seq<TransferOp>, signers: set<Key>, writable: set<Key>, program: Key)
    : (r: Result<Balances>)
    ensures r.Ok? ==> r.value.Keys == l.Keys
  {
    if ops == [] then Ok(l) else
    :- Need(Privileged(ops[0], signers, writable, program), Privilege);
    var next :- Transfer(l, ops[0]);
    RunOps(next, ops[1..], signers, writable, program)
  }

  /** A venue call fails at its first refused transfer: one it has no rights to make, or one that the token program
      refuses on what the earlier ones left. */
  lemma {:induction false} FirstRefusal(
      l: Balances, ops: seq<TransferOp>, signers: set<Key>, writable: set<Key>, program: Key) returns (k: nat)
    requires RunOps(l, ops, signers, writable, program).Err?
    ensures k < |ops| && RunOps(l, ops[..k], signers, writable, program).Ok?
    ensures var before := RunOps(l, ops[..k], signers, writable, program).value;
            !Privileged(ops[k], signers, writable, program) || !Transferable(before, ops[k])
    ensures RunOps(l, ops, signers, writable, program)
            == Err(if Privileged(ops[k], signers, writable, program) then TokenError else Privilege)
    decreases |ops|
  {
    if Privileged(ops[0], signers, writable, program) && Transfer(l, ops[0]).Ok? {
      k := FirstRefusal(Transfer(l, ops[0]).value, ops[1..], signers, writable, program);
      assert ops[..k + 1][0] == ops[0] && ops[..k + 1][1..] == ops[1..][..k];
      k := k + 1;
    } else {
      k := 0;
      TransferIff(l, ops[0]);
    }
  }

  // ---- What transfers cannot do ----

  /** No account in l2 holds less than in l1, unless one of the given authorities owns it. */
  ghost predicate OnlyDebits(l1: Balances, l2: Balances, allowed: iset<Key>) {
    l1.Keys <= l2.Keys &&
    forall k <- l1 :: (k.TokenAccount? && k.authority in allowed) || l1[k] <= l2[k]
  }

  ghost predicate Touches(l1: Balances, l2: Balances, touched: set<Key>) {
    l1.Keys == l2.Keys && forall k <- l1 :: k in touched || l1[k] == l2[k]
  }

  lemma TransferFrame(l: Balances, op: TransferOp)
    requires Transfer(l, op).Ok?
    ensures OnlyDebits(l, Transfer(l, op).value, iset{op.authority})
    ensures Touches(l, Transfer(l, op).value, {op.from, op.to})
  {
  }

  ghost function MaySigners(signers: set<Key>, program: Key): iset<Key> {
    iset k: Key | MaySign(k, signers, program)
  }

  /** Whatever a venue does, it debits only signers it was given and its own addresses,
      and it changes only accounts it was handed as writable. */
  lemma {:induction false} VenueFrame(
      l: Balances, ops: seq<TransferOp>, signers: set<Key>, writable: set<Key>, program: Key)
    requires RunOps(l, ops, signers, writable, program).Ok?
    ensures OnlyDebits(l, RunOps(l, ops, signers, writable, program).value, MaySigners(signers, program))
    ensures Touches(l, RunOps(l, ops, signers, writable, program).value, writable)
    decreases |ops|
  {
    if ops == [] {
    } else {
      var next := Transfer(l, ops[0]).value;
      TransferFrame(l, ops[0]);
      VenueFrame(next, ops[1..], signers, writable, program);
    }
  }

  // ---- What transfers can do ----

  /** Another account of k's mint that the venue may write. */
  predicate Sink(l: Balances, k: Key, to: Key, writable: set<Key>) {
    k.TokenAccount? && to in l && to.TokenAccount? && to.mint == k.mint && to != k && to in writable
  }

  /** The venue has the rights to debit k: its owner may sign, it is writable and holds something,
      and there is somewhere to put it. */
  ghost predicate Debitable(l: Balances, k: Key, signers: set<Key>, writable: set<Key>, program: Key) {
    k in l && k.TokenAccount? && 0 < l[k] && MaySign(k.authority, signers, program) && k in writable
    && exists to: Key :: Sink(l, k, to, writable)
  }

  /** Only a debitable account can end a venue call with less than it had. */
  lemma {:induction false} LoweredIsDebitable(
    l: Balances, ops: seq<TransferOp>, k: Key, signers: set<Key>, writable: set<Key>, program: Key)
    requires RunOps(l, ops, signers, writable, program).Ok? && k in l
    requires RunOps(l, ops, signers, writable, program).value[k] < l[k]
    ensures Debitable(l, k, signers, writable, program)
    decreases |ops|
  {
    if ops == [] {
    } else {
      var next := Transfer(l, ops[0]).value;
      if next[k] < l[k] {
        assert Sink(l, k, ops[0].to, writable);
      } else {
        LoweredIsDebitable(next, ops[1..], k, signers, writable, program);
        var to :| Sink(next, k, to, writable);
        assert Sink(l, k, to, writable);
      }
    }
  }

  lemma {:induction false} RunOpsAppend(
    l: Balances, ops: seq<TransferOp>, op: TransferOp, signers: set<Key>, writable: set<Key>, program: Key)
    requires RunOps(l, ops, signers, writable, program).Ok? && Privileged(op, signers, writable, program)
    ensures RunOps(l, ops + [op], signers, writable, program)
            == Transfer(RunOps(l, ops, signers, writable, program).value, op)
    decreases |ops|
  {
    if ops == [] {
      assert ops + [op] == [op] && [op][1..] == [];
    } else {
      assert (ops + [op])[1..] == ops[1..] + [op];
      RunOpsAppend(Transfer(l, ops[0]).value, ops[1..], op, signers, writable, program);
    }
  }

  /** Accounts a and b are all a venue may write of their mint: then it cannot change what they hold together. */
  lemma {:induction false} PairClosed(
    l: Balances, ops: seq<TransferOp>, a: Key, b: Key, signers: set<Key>, writable: set<Key>, program: Key)
    requires RunOps(l, ops, signers, writable, program).Ok? && a in l && b in l && a != b
    requires a.TokenAccount? && b.TokenAccount? && a.mint == b.mint
    requires forall to: Key :: Sink(l, a, to, writable) ==> to == b
    ensures var l2 := RunOps(l, ops, signers, writable, program).value;
            Held(l2, a, a.mint) + Held(l2, b, a.mint) == Held(l, a, a.mint) + Held(l, b, a.mint)
    decreases |ops|
  {
    if ops == [] {
    } else {
      var op := ops[0];
      var next := Transfer(l, op).value;
      assert Sink(l, a, op.from, writable) || op.from == a || op.from.mint != a.mint;
      assert Sink(l, a, op.to, writable) || op.to == a || op.to.mint != a.mint;
      forall to: Key | Sink(next, a, to, writable) ensures to == b { assert Sink(l, a, to, writable); }
      PairClosed(next, ops[1..], a, b, signers, writable, program);
    }
  }

  /** Wider rights change nothing about a call that went through. */
  lemma {:induction false} MoreRights(
    l: Balances, ops: seq<TransferOp>, signers: set<Key>, writable: set<Key>, program: Key,
    moreSigners: set<Key>, moreWritable: set<Key>)
    requires RunOps(l, ops, signers, writable, program).Ok? && signers <= moreSigners && writable <= moreWritable
    ensures RunOps(l, ops, moreSigners, moreWritable, program) == RunOps(l, ops, signers, writable, program)
    decreases |ops|
  {
    if ops == [] {
    } else {
      MoreRights(Transfer(l, ops[0]).value, ops[1..], signers, writable, program, moreSigners, moreWritable);
    }
  }

  /** What transfers take out of k, before anything comes back. */
  function Outflow(ops: seq<TransferOp>, k: Key): nat {
    if ops == [] then 0 else (if ops[0].from == k then ops[0].amount else 0) + Outflow(ops[1..], k)
  }

  lemma {:induction false} OutflowBounds(
      l: Balances, ops: seq<TransferOp>, signers: set<Key>, writable: set<Key>, program: Key, k: Key)
    requires RunOps(l, ops, signers, writable, program).Ok?
    ensures Bal(l, k) <= Bal(RunOps(l, ops, signers, writable, program).value, k) as int + Outflow(ops, k)
    decreases |ops|
  {
    if ops == [] {
    } else {
      OutflowBounds(Transfer(l, ops[0]).value, ops[1..], signers, writable, program, k);
    }
  }

  // ---- Supply ----

  function Held(l: Balances, k: Key, mint: Key): nat {
    if k in l && k.TokenAccount? && k.mint == mint then l[k] else 0
  }

  ghost function SumOver(l: Balances, ks: set<Key>, mint: Key): nat {
    if ks == {} then 0 else
      var k :| k in ks;
      Held(l, k, mint) + SumOver(l, ks - {k}, mint)
  }

  /** The sum of a mint's balances. */
  ghost function Total(l: Balances, mint: Key): nat { SumOver(l, l.Keys, mint) }

  lemma {:induction false} SumSplit(l: Balances, ks: set<Key>, k: Key, mint: Key)
    requires k in ks
    ensures SumOver(l, ks, mint) == Held(l, k, mint) + SumOver(l, ks - {k}, mint)
    decreases |ks|
  {
    var j :| j in ks && SumOver(l, ks, mint) == Held(l, j, mint) + SumOver(l, ks - {j}, mint);
    if j == k {
    } else {
      SumSplit(l, ks - {j}, k, mint);
      SumSplit(l, ks - {k}, j, mint);
      assert ks - {j} - {k} == ks - {k} - {j};
    }
  }

  lemma {:induction false} SumCongruent(l1: Balances, l2: Balances, ks: set<Key>, mint: Key)
    requires forall k <- ks :: Held(l1, k, mint) == Held(l2, k, mint)
    ensures SumOver(l1, ks, mint) == SumOver(l2, ks, mint)
    decreases |ks|
  {
    if ks == {} {
    } else {
      var k :| k in ks;
      SumSplit(l1, ks, k, mint);
      SumSplit(l2, ks, k, mint);
      SumCongruent(l1, l2, ks - {k}, mint);
    }
  }

  /** Two accounts of a mint together hold at most its total. */
  lemma PairWithinTotal(l: Balances, a: Key, b: Key, mint: Key)
    requires a in l && b in l && a != b
    ensures Held(l, a, mint) + Held(l, b, mint) <= Total(l, mint)
  {
    SumSplit(l, l.Keys, a, mint);
    SumSplit(l, l.Keys - {a}, b, mint);
  }

  lemma TransferConserves(l: Balances, op: TransferOp, mint: Key)
    requires Transfer(l, op).Ok?
    ensures Total(Transfer(l, op).value, mint) == Total(l, mint)
  {
    var l2 := Transfer(l, op).value;
    if op.from != op.to {
      var rest := l.Keys - {op.from} - {op.to};
      assert l2.Keys == l.Keys;
      SumSplit(l, l.Keys, op.from, mint);
      SumSplit(l, l.Keys - {op.from}, op.to, mint);
      SumSplit(l2, l.Keys, op.from, mint);
      SumSplit(l2, l.Keys - {op.from}, op.to, mint);
      SumCongruent(l, l2, rest, mint);
    }
  }

  lemma {:induction false} VenueConserves(
      l: Balances, ops: seq<TransferOp>, signers: set<Key>, writable: set<Key>, program: Key, mint: Key)
    requires RunOps(l, ops, signers, writable, program).Ok?
    ensures Total(RunOps(l, ops, signers, writable, program).value, mint) == Total(l, mint)
    decreases |ops|
  {
    if ops == [] {
    } else {
      TransferConserves(l, ops[0], mint);
      VenueConserves(Transfer(l, ops[0]).value, ops[1..], signers, writable, program, mint);
    }
  }

  /** Opening an empty account changes no total. */
  lemma OpeningConserves(l: Balances, k: Key, mint: Key)
    requires k !in l
    ensures Total(l[k := 0], mint) == Total(l, mint)
  {
    var l2 := l[k := 0];
    SumSplit(l2, l2.Keys, k, mint);
    assert l2.Keys - {k} == l.Keys;
    SumCongruent(l, l2, l.Keys, mint);
  }

  /** The token program keeps every mint's supply in a u64. */
  ghost predicate SupplyFits(l: Balances) { forall m: Key :: Total(l, m) < U64_LIMIT }

  /** Under that bound a well-formed, funded transfer always goes through. */
  lemma TransferSucceeds(l: Balances, op: TransferOp)
    requires SupplyFits(l)
    requires op.from in l && op.from.TokenAccount? && op.to in l && op.to.TokenAccount?
    requires op.from.authority == op.authority && op.from.mint == op.to.mint && op.amount <= l[op.from]
    ensures Transfer(l, op).Ok? && SupplyFits(Transfer(l, op).value)
    ensures var l2 := Transfer(l, op).value;
            if op.from == op.to then l2 == l
            else l2 == l[op.from := l[op.from] - op.amount][op.to := l[op.to] + op.amount]
  {
    if op.from != op.to {
      PairWithinTotal(l, op.from, op.to, op.from.mint);
    }
    forall m: Key ensures Total(Transfer(l, op).value, m) < U64_LIMIT {
      TransferConserves(l, op, m);
    }
  }

  /** The transfer that empties k into a sink. */
  function DrainOp(k: Key, to: Key, amount: U64): TransferOp
    requires k.TokenAccount?
  {
    TransferOp(k, to, k.authority, amount)
  }

  /** After any call that went through, a venue with the rights to debit k could also have emptied it. */
  lemma {:induction false} DrainToo(
    l: Balances, ops: seq<TransferOp>, k: Key, to: Key, signers: set<Key>, writable: set<Key>, program: Key)
    requires SupplyFits(l) && RunOps(l, ops, signers, writable, program).Ok?
    requires k in l && k in writable && Sink(l, k, to, writable) && MaySign(k.authority, signers, program)
    ensures var l2 := RunOps(l, ops, signers, writable, program).value;
            l2[k] + l2[to] < U64_LIMIT
            && RunOps(l, ops + [DrainOp(k, to, l2[k])], signers, writable, program)
               == Ok(l2[k := 0][to := l2[to] + l2[k]])
  {
    var l2 := RunOps(l, ops, signers, writable, program).value;
    forall m: Key ensures Total(l2, m) < U64_LIMIT { VenueConserves(l, ops, signers, writable, program, m); }
    RunOpsAppend(l, ops, DrainOp(k, to, l2[k]), signers, writable, program);
    TransferSucceeds(l2, DrainOp(k, to, l2[k]));
    PairWithinTotal(l2, k, to, k.mint);
  }
}
