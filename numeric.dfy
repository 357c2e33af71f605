/** Numeric helpers shared by the model: the optional and failing results the
    JavaScript code expresses with `undefined` and `throw`, its rounding
    functions on exact reals, integer powers, and the transcendental functions
    the calculator uses, which the model takes as parameters. */
module Numeric {

  datatype Option<T> = None | Some(value: T)

  /** The error kinds the calculator reports. `NotANumber` stands for a result
      the JavaScript code computes as NaN (a 0/0 division). */
  datatype Error =
    | MissingInput(what: string)
    | InvalidInput(what: string)
    | UnsupportedMode
    | UnsupportedScoreVersion
    | NotANumber

  datatype Result<T> = Ok(value: T) | Err(error: Error)

  function Min(a: real, b: real): real { if a <= b then a else b }
  function Max(a: real, b: real): real { if a >= b then a else b }
  function Abs(a: real): real { if a >= 0.0 then a else -a }
  function MaxInt(a: int, b: int): int { if a >= b then a else b }
  function MinInt(a: int, b: int): int { if a <= b then a else b }

  lemma MulMono(q: real, a: real, b: real)
    requires q >= 0.0 && a <= b
    ensures q * a <= q * b
  {
  }

  lemma MulPositive(a: real, b: real)
    requires a > 0.0 && b > 0.0
    ensures a * b > 0.0
  {
  }

  /** `Math.ceil`. */
  function Ceil(x: real): (r: int)
    ensures x <= r as real < x + 1.0
  {
    -((-x).Floor)
  }

  /** `Math.round`: halves round towards positive infinity. */
  function Round(x: real): (r: int)
    ensures x - 0.5 < r as real <= x + 0.5
  {
    (x + 0.5).Floor
  }

  /** `Math.pow` with a non-negative integer exponent. */
  function Pow(b: real, n: nat): real
  {
    if n == 0 then 1.0 else b * Pow(b, n - 1)
  }

  lemma {:induction false} PowPositive(b: real, n: nat)
    requires b > 0.0
    ensures Pow(b, n) > 0.0
  {
    if n > 0 {
      PowPositive(b, n - 1);
    }
  }

  lemma {:induction false} PowAtMostOne(b: real, n: nat)
    requires 0.0 < b <= 1.0
    ensures 0.0 < Pow(b, n) <= 1.0
  {
    if n > 0 {
      PowAtMostOne(b, n - 1);
      assert b * Pow(b, n - 1) <= 1.0 * Pow(b, n - 1);
    }
  }

  /** The non-integer powers, square root and decimal logarithm, which the
      model does not compute. */
  datatype Transcendentals = Transcendentals(
    pow: (real, real) -> real,
    sqrt: real -> real,
    log10: real -> real)

  /** The only facts the model assumes of them: a power of a positive base is
      positive, a power of a non-negative base is non-negative, a positive
      power of 0 is 0, a non-negative power of a base in (0, 1] is at most 1,
      a square root of a non-negative number is non-negative, that of 0
      being 0, and the decimal logarithm of a number of at least 1 is
      non-negative. */
  ghost predicate Sane(m: Transcendentals)
  {
    && (forall b: real, e: real :: b > 0.0 ==> m.pow(b, e) > 0.0)
    && (forall b: real, e: real :: b >= 0.0 ==> m.pow(b, e) >= 0.0)
    && (forall e: real :: e > 0.0 ==> m.pow(0.0, e) == 0.0)
    && (forall b: real, e: real :: 0.0 < b <= 1.0 && e >= 0.0 ==> m.pow(b, e) <= 1.0)
    && (forall x: real :: x >= 0.0 ==> m.sqrt(x) >= 0.0)
    && m.sqrt(0.0) == 0.0
    && (forall x: real :: x >= 1.0 ==> m.log10(x) >= 0.0)
  }
}
