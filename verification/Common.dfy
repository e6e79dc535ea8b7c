/** Shared vocabulary: optional values, results, real-valued sums and 64-bit bounds. */
module Common {

  datatype Option<+T> = None | Some(value: T)

  datatype Result<+T, +E> = Ok(value: T) | Err(error: E)

  /** A decimal as it is serialised: equal values with different scales differ. */
  datatype Amount = Amount(value: real, scale: nat)

  const U64_RANGE: nat := 0x1_0000_0000_0000_0000
  const I64_MAX: nat := 0x7FFF_FFFF_FFFF_FFFF

  /** Basis points in one whole, as a count and as a decimal. */
  const BPS_RANGE: nat := 10000
  const BPS_DENOMINATOR: real := BPS_RANGE as real

  function Min(a: real, b: real): real {
    if a <= b then a else b
  }

  function Abs(a: real): real {
    if a < 0.0 then -a else a
  }

  /** Products and quotients by name, so that a proof about structure can `hide` the nonlinear
      arithmetic and leave it to the small lemmas that need it. */
  function Times(a: real, b: real): real { a * b }

  function Over(a: real, b: real): real
    requires b != 0.0
  {
    a / b
  }

  lemma TimesDistributes(a: real, x: real, y: real)
    ensures Times(a, x + y) == Times(a, x) + Times(a, y)
    ensures Times(a, x - y) == Times(a, x) - Times(a, y)
    ensures Times(x + y, a) == Times(x, a) + Times(y, a)
    ensures Times(x - y, a) == Times(x, a) - Times(y, a)
    ensures Times(a, x) == Times(x, a)
    ensures Times(a, 0.0) == 0.0 && Times(0.0, a) == 0.0 && Times(a, 1.0) == a
  {
  }

  lemma TimesSign(a: real, b: real)
    ensures a >= 0.0 && b >= 0.0 ==> Times(a, b) >= 0.0
    ensures a > 0.0 && b > 0.0 ==> Times(a, b) > 0.0
    ensures a >= 0.0 && b <= 0.0 ==> Times(a, b) <= 0.0
    ensures a <= 0.0 && b <= 0.0 ==> Times(a, b) >= 0.0
    ensures a > 0.0 && b < 0.0 ==> Times(a, b) < 0.0
    ensures Times(a, b) == Times(b, a)
  {
  }

  lemma OverTimes(a: real, b: real)
    requires b != 0.0
    ensures Times(Over(a, b), b) == a
  {
  }

  /** Dividing by a positive number keeps the order. */
  lemma OverBounds(a: real, b: real, x: real)
    requires b > 0.0
    ensures Over(a, b) <= x <==> a <= Times(x, b)
    ensures Over(a, b) >= x <==> a >= Times(x, b)
    ensures a >= 0.0 ==> Over(a, b) >= 0.0
    ensures a > 0.0 <==> Over(a, b) > 0.0
    ensures Over(-a, b) == -Over(a, b)
  {
    hide Times, Over;
    var q := Over(a, b);
    OverTimes(a, b);
    TimesDistributes(b, q, x);
    TimesSign(b, q - x);
    TimesSign(b, q);
    OverNegated(a, b);
  }

  lemma OverNegated(a: real, b: real)
    requires b != 0.0
    ensures Over(-a, b) == -Over(a, b)
  {
  }

  function Sum(xs: seq<real>): real {
    if xs == [] then 0.0 else xs[0] + Sum(xs[1..])
  }

  lemma {:induction false} SumConcat(xs: seq<real>, ys: seq<real>)
    ensures Sum(xs + ys) == Sum(xs) + Sum(ys)
  {
    if xs == [] {
      assert xs + ys == ys;
    } else {
      assert (xs + ys)[1..] == xs[1..] + ys;
      SumConcat(xs[1..], ys);
    }
  }

  /** The total of a sequence of non-negative numbers dominates each of them. */
  lemma {:induction false} SumNonNegative(xs: seq<real>)
    requires forall i | 0 <= i < |xs| :: xs[i] >= 0.0
    ensures Sum(xs) >= 0.0
  {
    if xs != [] {
      SumNonNegative(xs[1..]);
    }
  }
}
