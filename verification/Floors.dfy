// The two price-sanity floors in checked u128 arithmetic, and what they mean in exact arithmetic.
module Floors {
  import opened Machine
  import Rounding

  const BPS: int := 10_000
  const MAX_DECIMALS: int := 12

  function PriceFloor(amountIn: U64, price: U64, decimals: U8, slippage: U16): Result<U64> {
    var scale :- CheckedPow10(decimals);
    var gross :- CheckedMul(amountIn, scale);
    var ideal :- CheckedDiv(gross, price);
    :- Need(slippage <= BPS, Panic);
    var cut :- CheckedMul(ideal, BPS - slippage);
    var floor :- CheckedDiv(cut, BPS);
    Ok(TruncateU64(floor))
  }

  function SellFloor(amountIn: U64, price: U64, decimals: U8, slippage: U16): Result<U64> {
    var scale :- CheckedPow10(decimals);
    var gross :- CheckedMul(amountIn, price);
    var ideal :- CheckedDiv(gross, scale);
    :- Need(slippage <= BPS, Panic);
    var cut :- CheckedMul(ideal, BPS - slippage);
    var floor :- CheckedDiv(cut, BPS);
    Ok(TruncateU64(floor))
  }

  datatype Side = Buy | Sell {
    function Other(): Side { if Buy? then Sell else Buy }
  }

  function Floor(side: Side, a: U64, price: U64, decimals: U8, slippage: U16): Result<U64> {
    match side
    case Buy => PriceFloor(a, price, decimals, slippage)
    case Sell => SellFloor(a, price, decimals, slippage)
  }

  // ---- Exact arithmetic: one input unit is worth Num/Den output units at the reference price ----

  function Num(side: Side, price: U64, decimals: U8): nat {
    if side.Buy? then Pow10(decimals) else price
  }

  function Den(side: Side, price: U64, decimals: U8): nat {
    Num(side.Other(), price, decimals)
  }

  /** Parameters that init_config, set_params and the price check let through. */
  predicate Sane(price: U64, decimals: U8, slippage: U16) {
    0 < price && decimals <= MAX_DECIMALS && slippage <= BPS
  }

  function Ideal(side: Side, a: nat, price: U64, decimals: U8): (q: nat)
    requires 0 < price
  {
    Pow10Positive(decimals);
    Rounding.MulMono(0, a, Num(side, price, decimals));
    Rounding.LeDiv(0, a * Num(side, price, decimals), Den(side, price, decimals));
    a * Num(side, price, decimals) / Den(side, price, decimals)
  }

  /** The two nested floors without any width. */
  function Exact(side: Side, a: nat, price: U64, decimals: U8, slippage: U16): (f: nat)
    requires Sane(price, decimals, slippage)
  {
    Rounding.MulMono(0, Ideal(side, a, price, decimals), BPS - slippage);
    Rounding.LeDiv(0, Ideal(side, a, price, decimals) * (BPS - slippage), BPS);
    Ideal(side, a, price, decimals) * (BPS - slippage) / BPS
  }

  predicate Fits(side: Side, a: nat, price: U64, decimals: U8, slippage: U16) {
    Sane(price, decimals, slippage) && Exact(side, a, price, decimals, slippage) < U64_LIMIT
  }

  lemma {:induction false} Pow10Positive(n: nat)
    ensures 0 < Pow10(n)
  {
    if n == 0 {
    } else {
      Pow10Positive(n - 1);
    }
  }

  lemma {:induction false} Pow10Monotone(m: nat, n: nat)
    requires m <= n
    ensures 0 < Pow10(m) <= Pow10(n)
    decreases n
  {
    Pow10Positive(m);
    if m == n {
    } else {
      Pow10Monotone(m, n - 1);
    }
  }

  lemma Pow10Values()
    ensures Pow10(4) == 10_000 && Pow10(6) == 1_000_000 && Pow10(12) == 1_000_000_000_000
  {
    assert Pow10(3) == 1_000;
    assert Pow10(5) == 100_000;
    assert Pow10(8) == 100_000_000;
    assert Pow10(10) == 10_000_000_000;
  }

  /** A power of ten fits in 128 bits up to the thirty-eighth. */
  lemma ScaleFits(decimals: U8)
    ensures CheckedPow10(decimals).Ok? <==> decimals <= 38
  {
    Pow10Values();
    assert Pow10(14) == 100 * Pow10(12) && Pow10(16) == 100 * Pow10(14);
    assert Pow10(18) == 100 * Pow10(16) && Pow10(20) == 100 * Pow10(18);
    assert Pow10(22) == 100 * Pow10(20) && Pow10(24) == 100 * Pow10(22);
    assert Pow10(26) == 100 * Pow10(24) && Pow10(28) == 100 * Pow10(26);
    assert Pow10(30) == 100 * Pow10(28) && Pow10(32) == 100 * Pow10(30);
    assert Pow10(34) == 100 * Pow10(32) && Pow10(36) == 100 * Pow10(34);
    assert Pow10(38) == 100 * Pow10(36) && Pow10(39) == 10 * Pow10(38);
    if decimals <= 38 { Pow10Monotone(decimals, 38); } else { Pow10Monotone(39, decimals); }
  }

  lemma IdealAtMostGross(side: Side, a: U64, price: U64, decimals: U8)
    requires 0 < price && decimals <= MAX_DECIMALS
    ensures 0 < Num(side, price, decimals) && 0 < Den(side, price, decimals)
    ensures 0 <= a * Num(side, price, decimals) < U128_LIMIT
    ensures Ideal(side, a, price, decimals) <= a * Num(side, price, decimals)
    ensures side.Buy? ==> a * Num(side, price, decimals) <= U64_LIMIT * 1_000_000_000_000
  {
    Pow10Values();
    Pow10Monotone(decimals, 12);
    var n := Num(side, price, decimals);
    Rounding.MulMono(0, a, n);
    Rounding.MulMono(a, U64_LIMIT - 1, n);
    assert n * (U64_LIMIT - 1) < U128_LIMIT;
    Rounding.DivAntitone(a * n, 1, Den(side, price, decimals));
  }

  /** Buying, or with at least four decimals, the last product stays within 128 bits. */
  lemma CutFits(side: Side, a: U64, price: U64, decimals: U8, slippage: U16)
    requires Sane(price, decimals, slippage) && (side.Buy? || 4 <= decimals)
    ensures Ideal(side, a, price, decimals) * (BPS - slippage) < U128_LIMIT
  {
    IdealAtMostGross(side, a, price, decimals);
    var q := Ideal(side, a, price, decimals);
    Rounding.MulMono(BPS - slippage, BPS, q);
    if side.Sell? {
      Pow10Values();
      Pow10Monotone(4, decimals);
      Rounding.DivBounds(a * price, Pow10(decimals));
      Rounding.MulMono(BPS, Pow10(decimals), q);
    }
  }

  /** When each floor succeeds, and its value: the exact floor modulo 2^64. */
  lemma FloorOutcome(side: Side, a: U64, price: U64, decimals: U8, slippage: U16)
    requires Sane(price, decimals, slippage)
    ensures side.Buy? || 4 <= decimals ==> Floor(side, a, price, decimals, slippage).Ok?
    ensures Floor(side, a, price, decimals, slippage).Ok? <==>
            Ideal(side, a, price, decimals) * (BPS - slippage) < U128_LIMIT
    ensures Floor(side, a, price, decimals, slippage) ==
            if Ideal(side, a, price, decimals) * (BPS - slippage) < U128_LIMIT
            then Ok(Exact(side, a, price, decimals, slippage) % U64_LIMIT) else Err(Overflow)
  {
    Pow10Values();
    Pow10Monotone(decimals, 12);
    IdealAtMostGross(side, a, price, decimals);
    if side.Buy? || 4 <= decimals { CutFits(side, a, price, decimals, slippage); }
  }

  /** An exact floor below 2^64 is computed as it stands. */
  lemma FitsFloor(side: Side, a: U64, price: U64, decimals: U8, slippage: U16)
    requires Fits(side, a, price, decimals, slippage)
    ensures Floor(side, a, price, decimals, slippage) == Ok(Exact(side, a, price, decimals, slippage))
  {
    FloorOutcome(side, a, price, decimals, slippage);
    SmallQuotient(Ideal(side, a, price, decimals) * (BPS - slippage));
  }

  lemma SmallQuotient(x: nat)
    requires x / BPS < U64_LIMIT
    ensures x < U128_LIMIT && (x / BPS) % U64_LIMIT == x / BPS
  {
    Rounding.DivBounds(x, BPS);
  }

  /** The range in which `as u64` drops nothing, exactly and by a simple sufficient bound. */
  lemma NoTruncation(side: Side, a: nat, price: U64, decimals: U8, slippage: U16)
    requires Sane(price, decimals, slippage)
    ensures Fits(side, a, price, decimals, slippage) <==>
            Ideal(side, a, price, decimals) * (BPS - slippage) < U64_LIMIT * BPS
    ensures a * Num(side, price, decimals) < U64_LIMIT * Den(side, price, decimals) ==>
            Fits(side, a, price, decimals, slippage)
  {
    Pow10Positive(decimals);
    var q := Ideal(side, a, price, decimals);
    Rounding.LeDiv(U64_LIMIT, q * (BPS - slippage), BPS);
    Rounding.LeDiv(U64_LIMIT, a * Num(side, price, decimals), Den(side, price, decimals));
    Rounding.MulMono(BPS - slippage, BPS, q);
  }

  /** Both nested roundings together cost less than two output units. */
  lemma ExactAccuracy(side: Side, a: nat, price: U64, decimals: U8, slippage: U16)
    requires Sane(price, decimals, slippage)
    ensures Exact(side, a, price, decimals, slippage) * (Den(side, price, decimals) * BPS)
            <= a * Num(side, price, decimals) * (BPS - slippage)
            < (Exact(side, a, price, decimals, slippage) + 2) * (Den(side, price, decimals) * BPS)
  {
    Pow10Positive(decimals);
    var n, d, t := Num(side, price, decimals), Den(side, price, decimals), BPS - slippage;
    NestedAccuracy(a * n, d, t);
  }

  lemma NestedAccuracy(x: int, d: int, t: int)
    requires 0 < d && 0 <= t <= BPS
    ensures ((x / d) * t / BPS) * (d * BPS) <= x * t < ((x / d) * t / BPS + 2) * (d * BPS)
  {
    var q := x / d;
    var f := q * t / BPS;
    Rounding.DivBounds(x, d);
    Rounding.DivBounds(q * t, BPS);
    calc {
      f * (d * BPS);
      (f * BPS) * d;
      <= { Rounding.MulMono(f * BPS, q * t, d); }
      (q * t) * d;
      (q * d) * t;
      <= { Rounding.MulMono(q * d, x, t); }
      x * t;
    }
    calc {
      x * t;
      <= { Rounding.MulMono(x, q * d + d, t); }
      (q * d + d) * t;
      (q * t + t) * d;
      <= { Rounding.MulMono(q * t + t, f * BPS + BPS - 1 + BPS, d); }
      (f * BPS + BPS - 1 + BPS) * d;
      (f + 2) * (d * BPS) - d;
    }
  }

  /** The machine's floor never exceeds the exact rational value, truncated or not. */
  lemma FloorAtMostExact(side: Side, a: U64, price: U64, decimals: U8, slippage: U16)
    requires Sane(price, decimals, slippage)
    requires Floor(side, a, price, decimals, slippage).Ok?
    ensures var f := Floor(side, a, price, decimals, slippage).value;
            f <= Exact(side, a, price, decimals, slippage)
            && f * (Den(side, price, decimals) * BPS) <= a * Num(side, price, decimals) * (BPS - slippage)
  {
    FloorOutcome(side, a, price, decimals, slippage);
    ExactAccuracy(side, a, price, decimals, slippage);
    Pow10Positive(decimals);
    WrappedBelow(Exact(side, a, price, decimals, slippage), Den(side, price, decimals) * BPS);
  }

  lemma WrappedBelow(e: nat, d: int)
    requires 0 < d
    ensures e % U64_LIMIT <= e && (e % U64_LIMIT) * d <= e * d
  {
    Rounding.MulMono(e % U64_LIMIT, e, d);
  }

  /** The computed floor is within two units of the exact value exactly when it is not truncated. */
  lemma FloorAccuracy(side: Side, a: U64, price: U64, decimals: U8, slippage: U16)
    requires Sane(price, decimals, slippage)
    requires Floor(side, a, price, decimals, slippage).Ok?
    ensures var f := Floor(side, a, price, decimals, slippage).value;
            a * Num(side, price, decimals) * (BPS - slippage) < (f + 2) * (Den(side, price, decimals) * BPS)
            <==> Fits(side, a, price, decimals, slippage)
  {
    FloorOutcome(side, a, price, decimals, slippage);
    ExactAccuracy(side, a, price, decimals, slippage);
    Pow10Positive(decimals);
    WrappedFloor(Exact(side, a, price, decimals, slippage), Den(side, price, decimals) * BPS,
                 a * Num(side, price, decimals) * (BPS - slippage));
  }

  lemma WrappedFloor(e: nat, d: int, x: int)
    requires 0 < d && e * d <= x < (e + 2) * d
    ensures x < (e % U64_LIMIT + 2) * d <==> e < U64_LIMIT
  {
    var f := e % U64_LIMIT;
    if U64_LIMIT <= e {
      assert f + 2 <= e;
      Rounding.MulMono(f + 2, e, d);
    } else {
      assert f == e;
    }
  }

  /** The truncation is real: 2^52 units of input at price 1 and 12 decimals have floor zero. */
  lemma TruncatedFloorIsZero()
    ensures Exact(Buy, 0x10_0000_0000_0000, 1, 12, 0) == 0x10_0000_0000_0000 * 1_000_000_000_000
    ensures PriceFloor(0x10_0000_0000_0000, 1, 12, 0) == Ok(0)
  {
    Pow10Values();
    FloorOutcome(Buy, 0x10_0000_0000_0000, 1, 12, 0);
    var e := Exact(Buy, 0x10_0000_0000_0000, 1, 12, 0);
    assert e == 0x10_0000_0000_0000 * 1_000_000_000_000 == 244_140_625 * U64_LIMIT;
  }

  /** Below four decimals the sell floor can overflow. */
  lemma SellFloorCanOverflow()
    ensures SellFloor(U64_LIMIT - 1, U64_LIMIT - 1, 3, 0) == Err(Overflow)
  {
    Pow10Values();
    assert Pow10(3) == 1_000;
    FloorOutcome(Sell, U64_LIMIT - 1, U64_LIMIT - 1, 3, 0);
  }

  // ---- Order ----

  lemma IdealMonotone(side: Side, a: nat, b: nat, p: U64, q: U64, decimals: U8)
    requires 0 < p && 0 < q && a <= b && (if side.Buy? then q <= p else p <= q)
    ensures Ideal(side, a, p, decimals) <= Ideal(side, b, q, decimals)
  {
    Pow10Positive(decimals);
    var n, n' := Num(side, p, decimals), Num(side, q, decimals);
    Rounding.MulMono(a, b, n);
    Rounding.MulMono(n, n', b);
    Rounding.MulMono(0, b, n');
    Rounding.DivMono(a * n, b * n', Den(side, p, decimals));
    Rounding.DivAntitone(b * n', Den(side, q, decimals), Den(side, p, decimals));
  }

  lemma CutMonotone(i: nat, j: nat, s: nat, t: nat)
    requires i <= j && t <= s <= BPS
    ensures i * (BPS - s) / BPS <= j * (BPS - t) / BPS
  {
    Rounding.MulMono(i, j, BPS - s);
    Rounding.MulMono(BPS - s, BPS - t, j);
    Rounding.DivMono(i * (BPS - s), j * (BPS - t), BPS);
  }

  /** More input, a price moved in the taker's favour, or less slippage never lowers a floor. */
  lemma FloorMonotone(side: Side, a: nat, b: nat, p: U64, q: U64, decimals: U8, s: U16, t: U16)
    requires Sane(p, decimals, s) && Sane(q, decimals, t)
    requires a <= b && t <= s && (if side.Buy? then q <= p else p <= q)
    ensures Exact(side, a, p, decimals, s) <= Exact(side, b, q, decimals, t)
    ensures a < U64_LIMIT && b < U64_LIMIT && Fits(side, b, q, decimals, t) ==>
              Floor(side, a, p, decimals, s).Ok? && Floor(side, b, q, decimals, t).Ok?
              && Floor(side, a, p, decimals, s).value <= Floor(side, b, q, decimals, t).value
  {
    IdealMonotone(side, a, b, p, q, decimals);
    CutMonotone(Ideal(side, a, p, decimals), Ideal(side, b, q, decimals), s, t);
    if a < U64_LIMIT && b < U64_LIMIT && Fits(side, b, q, decimals, t) {
      FitsFloor(side, a, p, decimals, s);
      FitsFloor(side, b, q, decimals, t);
    }
  }

  // ---- Splitting an order ----

  function SumFloors(side: Side, pieces: seq<U64>, price: U64, decimals: U8, slippage: U16): nat {
    if pieces == [] then 0 else
      var last := Floor(side, pieces[|pieces| - 1], price, decimals, slippage);
      SumFloors(side, pieces[..|pieces| - 1], price, decimals, slippage) + if last.Ok? then last.value else 0
  }

  lemma ExactSuperadditive(side: Side, a: nat, b: nat, price: U64, decimals: U8, slippage: U16)
    requires Sane(price, decimals, slippage)
    ensures Exact(side, a, price, decimals, slippage) + Exact(side, b, price, decimals, slippage)
            <= Exact(side, a + b, price, decimals, slippage)
  {
    Pow10Positive(decimals);
    var n, d, t := Num(side, price, decimals), Den(side, price, decimals), BPS - slippage;
    var i, j := Ideal(side, a, price, decimals), Ideal(side, b, price, decimals);
    Rounding.MulDistribute(a, b, n);
    Rounding.DivSuperadditive(a * n, b * n, d);
    Rounding.MulMono(i + j, Ideal(side, a + b, price, decimals), t);
    Rounding.MulDistribute(i, j, t);
    Rounding.DivSuperadditive(i * t, j * t, BPS);
    Rounding.DivMono((i + j) * t, Ideal(side, a + b, price, decimals) * t, BPS);
  }

  /** Cutting an order whose floor fits into n pieces never raises the summed floor,
      and lowers it by fewer than 2n units. */
  lemma {:induction false} Splitting(side: Side, pieces: seq<U64>, price: U64, decimals: U8, slippage: U16)
    requires pieces != []
    requires Fits(side, Sum(pieces), price, decimals, slippage)
    ensures SumFloors(side, pieces, price, decimals, slippage)
            <= Exact(side, Sum(pieces), price, decimals, slippage)
            < SumFloors(side, pieces, price, decimals, slippage) + 2 * |pieces|
  {
    SplittingBounds(side, pieces, price, decimals, slippage);
    ExactAccuracy(side, Sum(pieces), price, decimals, slippage);
    Pow10Positive(decimals);
    Rounding.MulCancelStrict(Exact(side, Sum(pieces), price, decimals, slippage),
                             SumFloors(side, pieces, price, decimals, slippage) + 2 * |pieces|,
                             Den(side, price, decimals) * BPS);
  }

  lemma {:induction false} SplittingBounds(side: Side, pieces: seq<U64>, price: U64, decimals: U8, slippage: U16)
    requires Fits(side, Sum(pieces), price, decimals, slippage)
    ensures SumFloors(side, pieces, price, decimals, slippage)
            <= Exact(side, Sum(pieces), price, decimals, slippage)
    ensures Sum(pieces) * Num(side, price, decimals) * (BPS - slippage)
            <= (SumFloors(side, pieces, price, decimals, slippage) + 2 * |pieces|) * (Den(side, price, decimals) * BPS)
    ensures pieces != [] ==>
              Sum(pieces) * Num(side, price, decimals) * (BPS - slippage)
              < (SumFloors(side, pieces, price, decimals, slippage) + 2 * |pieces|) * (Den(side, price, decimals) * BPS)
  {
    if pieces == [] {
    } else {
      var front, last := pieces[..|pieces| - 1], pieces[|pieces| - 1];
      var n, d, t := Num(side, price, decimals), Den(side, price, decimals), BPS - slippage;
      ExactSuperadditive(side, Sum(front), last, price, decimals, slippage);
      SplittingBounds(side, front, price, decimals, slippage);
      FitsFloor(side, last, price, decimals, slippage);
      ExactAccuracy(side, last, price, decimals, slippage);
      AddWorths(Sum(front), last, n, t, SumFloors(side, front, price, decimals, slippage) + 2 * |front|,
                Exact(side, last, price, decimals, slippage) + 2, d * BPS);
    }
  }

  /** Bounds on the worth of two amounts add up. */
  lemma AddWorths(a: int, b: int, n: int, t: int, u: int, v: int, unit: int)
    requires a * n * t <= u * unit && b * n * t < v * unit
    ensures (a + b) * n * t < (u + v) * unit
  {
    Rounding.MulDistribute(a, b, n);
    Rounding.MulDistribute(a * n, b * n, t);
    Rounding.MulDistribute(u, v, unit);
  }

  // ---- Round trips ----

  function CeilDiv(x: int, d: int): int
    requires d != 0
  { (x + d - 1) / d }

  lemma CeilDivBounds(x: nat, d: nat)
    requires 0 < d
    ensures x <= CeilDiv(x, d) * d < x + d && 0 <= CeilDiv(x, d)
    ensures CeilDiv(x, d) == 0 <==> x == 0
  {
    Rounding.DivBounds(x + d - 1, d);
    Rounding.LeDiv(1, x + d - 1, d);
    Rounding.LeDiv(0, x + d - 1, d);
  }

  /** Converting there and back through floors loses exactly the rounded-up remainder. */
  lemma RoundTripExact(a: nat, n: nat, d: nat)
    requires 0 < n && 0 < d
    ensures (a * n / d) * d / n == a - CeilDiv(a * n % d, n)
    ensures 0 <= CeilDiv(a * n % d, n) <= CeilDiv(d - 1, n)
    ensures CeilDiv(a * n % d, n) == 0 <==> a * n % d == 0
  {
    Rounding.MulMono(0, a, n);
    BackFrom(a * n, a, n, d);
  }

  lemma BackFrom(x: nat, a: nat, n: nat, d: nat)
    requires 0 < n && 0 < d && x == a * n
    ensures (x / d) * d / n == a - CeilDiv(x % d, n)
    ensures 0 <= CeilDiv(x % d, n) <= CeilDiv(d - 1, n)
    ensures CeilDiv(x % d, n) == 0 <==> x % d == 0
  {
    var rem := x % d;
    var c := CeilDiv(rem, n);
    CeilDivBounds(rem, n);
    Rounding.DivMono(rem + n - 1, d - 1 + n - 1, n);
    Rounding.MulDistribute(a, -c, n);
    BackQuotient(x - rem, n, a - c);
    assert x == (x / d) * d + rem;
  }

  lemma BackQuotient(y: int, n: int, q: int)
    requires 0 < n && q * n <= y < q * n + n
    ensures y / n == q
  {
    Rounding.DivUnique(y, n, q);
  }

  /** At zero slippage a buy floor sold back (or the other way round) loses exactly the rounded-up
      remainder of the conversion: nothing when it divides, and never more than
      the rounded-up ratio of the divisor. */
  lemma FloorsNearInverse(side: Side, a: U64, price: U64, decimals: U8)
    requires Fits(side, a, price, decimals, 0)
    ensures Floor(side, a, price, decimals, 0).Ok?
    ensures var n, d := Num(side, price, decimals), Den(side, price, decimals);
            var back := Floor(side.Other(), Floor(side, a, price, decimals, 0).value, price, decimals, 0);
            0 < n && 0 < d
            && back == Ok(a - CeilDiv(a * n % d, n))
            && a - CeilDiv(d - 1, n) <= back.value <= a
            && (back.value == a <==> a * n % d == 0)
  {
    Pow10Positive(decimals);
    var n, d := Num(side, price, decimals), Den(side, price, decimals);
    FitsFloor(side, a, price, decimals, 0);
    IdealIsExact(side, a, price, decimals);
    var y := Exact(side, a, price, decimals, 0);
    RoundTripExact(a, n, d);
    IdealIsExact(side.Other(), y, price, decimals);
    FitsFloor(side.Other(), y, price, decimals, 0);
  }

  lemma IdealIsExact(side: Side, a: nat, price: U64, decimals: U8)
    requires Sane(price, decimals, 0)
    ensures Exact(side, a, price, decimals, 0) == Ideal(side, a, price, decimals)
  {
    var q := Ideal(side, a, price, decimals);
    Rounding.DivUnique(q * BPS, BPS, q);
  }

  /** With slippage b applied both ways, the way back returns at most a*(10000-b)^2/10^8;
      this needs no assumption that anything fits in 64 bits. */
  lemma RoundTripWithSlippage(side: Side, a: U64, price: U64, decimals: U8, slippage: U16)
    requires Sane(price, decimals, slippage)
    requires Floor(side, a, price, decimals, slippage).Ok?
    ensures var back := Floor(side.Other(), Floor(side, a, price, decimals, slippage).value, price, decimals, slippage);
            back.Ok? && back.value * (BPS * BPS) <= a * ((BPS - slippage) * (BPS - slippage))
  {
    Pow10Positive(decimals);
    var n, d, t := Num(side, price, decimals), Den(side, price, decimals), BPS - slippage;
    var y := Floor(side, a, price, decimals, slippage).value;
    FloorAtMostExact(side, a, price, decimals, slippage);
    WayBackFits(a, y, n, d, t);
    FloorOutcome(side.Other(), y, price, decimals, slippage);
    var z := Floor(side.Other(), y, price, decimals, slippage).value;
    FloorAtMostExact(side.Other(), y, price, decimals, slippage);
    assert n * (z * (BPS * BPS)) <= n * (a * (t * t)) by {
      Rounding.MulMono(z * (n * BPS), y * d * t, BPS);
      Rounding.MulMono(y * (d * BPS), a * n * t, t);
      assert z * (n * BPS) * BPS == n * (z * (BPS * BPS)) by { Reassociate(z, n, BPS); }
      assert y * d * t * BPS == y * (d * BPS) * t by { Regroup(y, d, t, BPS); }
      assert a * n * t * t == n * (a * (t * t)) by { Regroup2(a, n, t); }
    }
    Rounding.MulCancel(z * (BPS * BPS), a * (t * t), n);
  }

  lemma WayBackFits(a: nat, y: nat, n: nat, d: nat, t: nat)
    requires 0 < n && 0 < d && t <= BPS && a < U64_LIMIT
    requires y * (d * BPS) <= a * n * t
    ensures (y * d / n) * t < U128_LIMIT
  {
    Rounding.MulMono(t, BPS, a * n);
    assert y * (d * BPS) == y * d * BPS;
    Rounding.MulCancel(y * d, a * n, BPS);
    Rounding.DivMono(y * d, a * n, n);
    Rounding.DivUnique(a * n, n, a);
    Rounding.LeDiv(0, y * d, n);
    Rounding.MulMono(t, BPS, y * d / n);
  }

  lemma Reassociate(z: int, n: int, b: int)
    ensures z * (n * b) * b == n * (z * (b * b))
  {
  }

  lemma Regroup(y: int, d: int, t: int, b: int)
    ensures y * d * t * b == y * (d * b) * t
  {
  }

  lemma Regroup2(a: int, n: int, t: int)
    ensures a * n * t * t == n * (a * (t * t))
  {
  }
}
