// The accounts the program updates in place: loaded by an instruction, changed, and stored back.
module Accounts {
  import opened Machine
  import opened Ledger
  import opened Schedule
  import Floors
  import opened Program

  /** The outcome of a handler agrees with its specification: same success, same error. */
  predicate Agrees<T>(r: Result<()>, spec: Result<T>) {
    if spec.Ok? then r.Ok? else r == Err(spec.error)
  }

  /** Token balances under the token program. */
  class TokenBank {
    var balances: Balances

    constructor (l: Balances)
      ensures balances == l
    {
      balances := l;
    }

    method Send(op: TransferOp) returns (r: Result<()>)
      modifies this
      ensures Agrees(r, Transfer(old(balances), op))
      ensures balances == if r.Ok? then Transfer(old(balances), op).value else old(balances)
    {
      if op.from !in balances || op.to !in balances { return Err(TokenError); }
      :- Need(op.from.TokenAccount? && op.to.TokenAccount?, TokenError);
      :- Need(op.from.authority == op.authority && op.from.mint == op.to.mint, TokenError);
      :- Need(op.amount <= balances[op.from], TokenError);
      if op.from != op.to {
        if balances[op.to] + op.amount >= U64_LIMIT { return Err(TokenError); }
        balances := balances[op.from := balances[op.from] - op.amount];
        balances := balances[op.to := balances[op.to] + op.amount];
      }
      return Ok(());
    }

    /** A venue's transfers, one after the other; the first refusal stops the call. */
    method RunVenue(venue: VenueCall, signers: Signers, buyAuthority: Key) returns (r: Result<()>)
      modifies this
      ensures var spec := RunOps(old(balances), venue.ops, ForwardedSigners(venue.remaining, signers, buyAuthority),
                                 WritableKeys(venue.remaining), venue.program);
              Agrees(r, spec) && (r.Ok? ==> balances == spec.value)
    {
      var forwarded, writable := ForwardedSigners(venue.remaining, signers, buyAuthority),
                                 WritableKeys(venue.remaining);
      ghost var spec := RunOps(balances, venue.ops, forwarded, writable, venue.program);
      assert venue.ops[0..] == venue.ops;
      for i := 0 to |venue.ops|
        invariant RunOps(balances, venue.ops[i..], forwarded, writable, venue.program) == spec
      {
        assert venue.ops[i..][0] == venue.ops[i] && venue.ops[i..][1..] == venue.ops[i + 1..];
        :- Need(Privileged(venue.ops[i], forwarded, writable, venue.program), Privilege);
        var sent := Send(venue.ops[i]);
        if sent.Err? { return sent; }
      }
      return Ok(());
    }
  }

  class ConfigAccount {
    var admin: Key
    var targetMint: Key
    var usdcMint: Key
    var swapPrograms: array<Key>
    var swapProgramCount: U8
    var priceRefMicros: U64
    var targetDecimals: U8
    var maxSlippageBps: U16
    var paused: bool

    constructor Load(c: Config)
      ensures Data() == c && fresh(swapPrograms)
    {
      admin, targetMint, usdcMint := c.admin, c.targetMint, c.usdcMint;
      swapPrograms := new Key[|c.swapPrograms|](i requires 0 <= i < |c.swapPrograms| => c.swapPrograms[i]);
      swapProgramCount, priceRefMicros := c.swapProgramCount, c.priceRefMicros;
      targetDecimals, maxSlippageBps, paused := c.targetDecimals, c.maxSlippageBps, c.paused;
      new;
      assert swapPrograms[..] == c.swapPrograms;
    }

    /** The stored bytes. */
    function Data(): Config
      reads this, swapPrograms
    {
      Config(admin, targetMint, usdcMint, swapPrograms[..], swapProgramCount, priceRefMicros,
             targetDecimals, maxSlippageBps, paused)
    }

    /** Clear the array, copy the list over its front, and record how much is in use. */
    method FillWhitelist(venues: seq<Key>)
      requires |venues| <= MAX_SWAP_PROGRAMS
      modifies this
      ensures Data() == old(Data()).(swapPrograms := Padded(venues), swapProgramCount := |venues|)
      ensures fresh(swapPrograms)
    {
      swapPrograms := new Key[MAX_SWAP_PROGRAMS](_ => DEFAULT_KEY);
      for i := 0 to |venues|
        invariant fresh(swapPrograms) && swapPrograms.Length == MAX_SWAP_PROGRAMS
        invariant swapPrograms[..i] == venues[..i]
        invariant forall j | i <= j < MAX_SWAP_PROGRAMS :: swapPrograms[j] == DEFAULT_KEY
        invariant admin == old(admin) && targetMint == old(targetMint) && usdcMint == old(usdcMint)
        invariant swapProgramCount == old(swapProgramCount) && priceRefMicros == old(priceRefMicros)
        invariant targetDecimals == old(targetDecimals) && maxSlippageBps == old(maxSlippageBps)
                  && paused == old(paused)
      {
        swapPrograms[i] := venues[i];
      }
      assert swapPrograms[..] == Padded(venues);
      swapProgramCount := |venues|;
    }

    method SetWhitelist(venues: seq<Key>) returns (r: Result<()>)
      modifies this
      ensures Agrees(r, WithWhitelist(old(Data()), venues))
      ensures Data() == if r.Ok? then WithWhitelist(old(Data()), venues).value else old(Data())
    {
      if |venues| > MAX_SWAP_PROGRAMS { return Err(TooManyVenues); }
      FillWhitelist(venues);
      return Ok(());
    }

    method SetParams(price: U64, slippage: U16) returns (r: Result<()>)
      modifies this
      ensures Agrees(r, WithParams(old(Data()), price, slippage))
      ensures Data() == if r.Ok? then WithParams(old(Data()), price, slippage).value else old(Data())
    {
      if slippage > Floors.BPS { return Err(BadParam); }
      priceRefMicros := price;
      maxSlippageBps := slippage;
      return Ok(());
    }

    method Init(
        newAdmin: Key, target: Mint, usdc: Mint, venues: seq<Key>, price: U64, slippage: U16)
      returns (r: Result<()>)
      modifies this
      ensures Agrees(r, NewConfig(newAdmin, target, usdc, venues, price, slippage))
      ensures r.Ok? ==> Data() == NewConfig(newAdmin, target, usdc, venues, price, slippage).value
    {
      if |venues| > MAX_SWAP_PROGRAMS { return Err(TooManyVenues); }
      :- Need(slippage <= Floors.BPS, BadParam);
      :- Need(target.decimals <= Floors.MAX_DECIMALS, BadParam);
      :- Need(usdc.decimals == 6, BadParam);
      admin := newAdmin;
      targetMint := target.key;
      usdcMint := usdc.key;
      FillWhitelist(venues);
      priceRefMicros := price;
      targetDecimals := target.decimals;
      maxSlippageBps := slippage;
      paused := false;
      return Ok(());
    }
  }

  class PlanAccount {
    var user: Key
    var endTs: I64
    var periodSecs: I64
    var nextDueTs: I64

    constructor Load(p: SellPlan)
      ensures Data() == p
    {
      user, endTs, periodSecs, nextDueTs := p.user, p.endTs, p.periodSecs, p.nextDueTs;
    }

    function Data(): SellPlan
      reads this
    {
      SellPlan(user, endTs, periodSecs, nextDueTs)
    }

    method Open(owner: Key, now: I64, end: I64, period: I64) returns (r: Result<()>)
      modifies this
      ensures Agrees(r, OpenPlan(owner, now, end, period))
      ensures r.Ok? ==> Data() == OpenPlan(owner, now, end, period).value
    {
      if !(MIN_PERIOD_SECS <= period <= MAX_PERIOD_SECS) { return Err(BadParam); }
      :- Need(end > SaturatingI64(now + period), BadParam);
      user := owner;
      endTs := end;
      periodSecs := period;
      nextDueTs := now;
      return Ok(());
    }

    /** Jump the gate past `now` on the grid. */
    method Advance(now: I64) returns (r: Result<()>)
      modifies this
      ensures Agrees(r, NextGate(old(Data()), now))
      ensures Data() == if r.Ok? then old(Data()).(nextDueTs := NextGate(old(Data()), now).value) else old(Data())
    {
      var late :- ToI64(now - nextDueTs, Overflow);
      var q: int :- DivI64(late, periodSecs, Overflow);
      var k: int :- ToI64(q + 1, Overflow);
      var jump: int :- ToI64(k * periodSecs, Overflow);
      var next :- ToI64(nextDueTs + jump, Overflow);
      nextDueTs := next;
      return Ok(());
    }
  }
}
