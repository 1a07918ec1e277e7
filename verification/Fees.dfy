// The execution fee: basis points of the gross input, skimmed before the swap.
module Fees {
  import opened Machine
  import Rounding

  const MAX_FEE_BPS: int := 100

  datatype Split = Split(fee: U64, net: U64)

  /** The fee in u128, cast to u64, and what is left of the input. */
  function FeeSplit(amountIn: U64, feeBps: U16): Result<Split> {
    var scaled :- CheckedMul(amountIn, feeBps);
    var whole :- CheckedDiv(scaled, 10_000);
    var fee := TruncateU64(whole);
    :- Need(fee <= amountIn, Overflow);
    Ok(Split(fee, amountIn - fee))
  }

  /** Under the compiled-in cap the fee is the exact floor, at most a hundredth of the input,
      and something is always left to swap. */
  lemma FeeWithinCap(amountIn: U64, feeBps: U16)
    requires feeBps <= MAX_FEE_BPS
    ensures FeeSplit(amountIn, feeBps).Ok?
    ensures var s := FeeSplit(amountIn, feeBps).value;
            s.fee == amountIn * feeBps / 10_000 && s.fee + s.net == amountIn
            && 100 * s.fee <= amountIn && (0 < amountIn ==> 0 < s.net)
  {
    Rounding.MulMono(feeBps, MAX_FEE_BPS, amountIn);
    Rounding.MulMono(0, feeBps, amountIn);
    Rounding.DivMono(amountIn * feeBps, amountIn * 100, 10_000);
    Rounding.LeDiv(0, amountIn * feeBps, 10_000);
  }

  // ---- Sums over executions at one rate ----

  function SumOfFees(amounts: seq<U64>, feeBps: U16): nat {
    if amounts == [] then 0 else
      var last := FeeSplit(amounts[|amounts| - 1], feeBps);
      SumOfFees(amounts[..|amounts| - 1], feeBps) + if last.Ok? then last.value.fee else 0
  }

  lemma {:induction false} FeeSumBounds(amounts: seq<U64>, feeBps: U16)
    requires feeBps <= MAX_FEE_BPS
    ensures 10_000 * SumOfFees(amounts, feeBps) <= Sum(amounts) * feeBps
            <= 10_000 * SumOfFees(amounts, feeBps) + 9_999 * |amounts|
    decreases |amounts|
  {
    if amounts == [] {
    } else {
      var front, last := amounts[..|amounts| - 1], amounts[|amounts| - 1];
      FeeSumBounds(front, feeBps);
      FeeWithinCap(last, feeBps);
      Rounding.DivBounds(last * feeBps, 10_000);
      Rounding.MulDistribute(Sum(front), last, feeBps);
    }
  }

  /** n executions at one rate pay at most the fee on their sum, and fewer than n units less than it. */
  lemma {:induction false} ConstantRateFees(amounts: seq<U64>, feeBps: U16)
    requires feeBps <= MAX_FEE_BPS && amounts != []
    ensures SumOfFees(amounts, feeBps) <= Sum(amounts) * feeBps / 10_000
            < SumOfFees(amounts, feeBps) + |amounts|
  {
    FeeSumBounds(amounts, feeBps);
  }
}
