// Fixed-width integers, error codes and checked arithmetic, as the on-chain program uses them.
module Machine {
  import Rounding

  const U64_LIMIT: int := 0x1_0000_0000_0000_0000
  const U128_LIMIT: int := 0x1_0000_0000_0000_0000_0000_0000_0000_0000
  const I64_MAX: int := 0x7FFF_FFFF_FFFF_FFFF
  const I64_MIN: int := -0x8000_0000_0000_0000

  type U8 = x: int | 0 <= x < 0x100
  type U16 = x: int | 0 <= x < 0x1_0000
  type U64 = x: int | 0 <= x < U64_LIMIT
  type U128 = x: int | 0 <= x < U128_LIMIT
  type I64 = x: int | I64_MIN <= x <= I64_MAX

  /** The program's own codes, followed by what the runtime and other programs report. */
  datatype Error =
    | Paused
    | DestinationNotOwner
    | WrongTargetMint
    | BadTransient
    | NothingPulled
    | VenueNotWhitelisted
    | FloorNotConfigured
    | MinOutTooLow
    | TransientNotDrained
    | SlippageExceeded
    | TooManyVenues
    | Overflow
    | BadParam
    | NotDue
    | OverdrawSchedule
    | PlanCompleted
    | BadPotAccount
    | BadFeeAccount
    | FeeTooHigh
    | Panic             // an unchecked operation that aborts under overflow-checks
    | MissingSigner     // account constraint: a required key did not sign
    | WrongAdmin        // account constraint: has_one = admin
    | NotInitialized    // account constraint: the account does not exist
    | AlreadyInUse      // account constraint: init of an existing account
    | TokenError        // the token program refused a transfer
    | Privilege         // a callee asked for a signer or writable right it was not given

  datatype Result<+T> = Ok(value: T) | Err(error: Error) {
    predicate IsFailure() { Err? }
    function PropagateFailure<U>(): Result<U>
      requires Err?
    { Err(error) }
    function Extract(): T
      requires Ok?
    { value }
  }

  datatype Option<+T> = None | Some(value: T)

  datatype Check = Pass | Fail(error: Error) {
    predicate IsFailure() { Fail? }
    function PropagateFailure<U>(): Result<U>
      requires Fail?
    { Err(error) }
  }

  function Need(condition: bool, error: Error): Check {
    if condition then Pass else Fail(error)
  }

  function Sum(amounts: seq<U64>): nat {
    if amounts == [] then 0 else Sum(amounts[..|amounts| - 1]) + amounts[|amounts| - 1]
  }

  function Max(a: int, b: int): int { if a >= b then a else b }

  // ---- u128 ----

  function CheckedMul(a: U128, b: U128): Result<U128>
  {
    Rounding.MulMono(0, a, b);
    if a * b < U128_LIMIT then Ok(a * b) else Err(Overflow)
  }

  function CheckedDiv(a: U128, b: U128): Result<U128>
  {
    if b == 0 then Err(Overflow) else
    Rounding.DivAntitone(a, 1, b);
    Ok(a / b)
  }

  /** The cast `as u64`: keeps the low 64 bits. */
  function TruncateU64(x: U128): U64 { x % U64_LIMIT }

  function Pow10(n: nat): nat { if n == 0 then 1 else 10 * Pow10(n - 1) }

  function CheckedPow10(n: U8): Result<U128> {
    if Pow10(n) < U128_LIMIT then Ok(Pow10(n)) else Err(Overflow)
  }

  // ---- i64 ----

  function ToI64(x: int, e: Error): Result<I64> {
    if I64_MIN <= x <= I64_MAX then Ok(x) else Err(e)
  }

  function SaturatingI64(x: int): I64 {
    if x < I64_MIN then I64_MIN else if x > I64_MAX then I64_MAX else x
  }

  function Abs(x: int): nat { if x < 0 then -x else x }

  /** Integer division that truncates toward zero. */
  function TruncDiv(a: int, b: int): int
    requires b != 0
  {
    if (a < 0) == (b < 0) then Abs(a) / Abs(b) else -(Abs(a) / Abs(b))
  }

  /** i64 division: a zero divisor and i64::MIN / -1 report `e`. */
  function DivI64(a: I64, b: I64, e: Error): Result<I64> {
    if b == 0 then Err(e) else ToI64(TruncDiv(a, b), e)
  }

  /** Saturation gives the nearest i64. */
  lemma SaturatesNearest(x: int, y: I64)
    ensures Abs(x - SaturatingI64(x)) <= Abs(x - y)
  {
  }

  /** The quotient is rounded toward zero: what it leaves has the dividend's sign and is less than the divisor. */
  lemma TruncatesTowardZero(a: int, b: int)
    requires b != 0
    ensures Abs(a - TruncDiv(a, b) * b) < Abs(b)
    ensures 0 <= a ==> 0 <= a - TruncDiv(a, b) * b
    ensures a <= 0 ==> a - TruncDiv(a, b) * b <= 0
  {
    Rounding.DivBounds(Abs(a), Abs(b));
    var q := Abs(a) / Abs(b);
    assert TruncDiv(a, b) * b == if a < 0 then -(q * Abs(b)) else q * Abs(b);
  }

  /** It leaves i64 only for i64::MIN over -1; a zero divisor is reported too. */
  lemma DivisionFails(a: I64, b: I64, e: Error)
    ensures DivI64(a, b, e) == if b == 0 || (a == I64_MIN && b == -1) then Err(e) else Ok(TruncDiv(a, b))
  {
    if b != 0 {
      Rounding.DivAntitone(Abs(a), 1, Abs(b));
      if b == -1 || b == 1 {
        Rounding.DivUnique(Abs(a), 1, Abs(a));
      } else {
        Rounding.DivAntitone(Abs(a), 2, Abs(b));
      }
    }
  }
}
