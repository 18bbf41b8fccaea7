/** Whole-number rounding as the widgets use it (`Math.floor`, `Math.ceil`,
    `Math.round`), on exact reals. */
module Numeric {

  /** True when x has no fractional part. */
  predicate IsWhole(x: real) {
    x == x.Floor as real
  }

  /** `Math.floor`: the greatest integer not above x. */
  function Floor(x: real): (r: int)
    ensures r as real <= x < r as real + 1.0
  {
    x.Floor
  }

  /** `Math.ceil`: the least integer not below x. */
  function Ceil(x: real): (r: int)
    ensures r as real - 1.0 < x <= r as real
  {
    -((-x).Floor)
  }

  /** `Math.round`: the nearest integer, a half rounded toward +infinity. */
  function Round(x: real): (r: int)
    ensures x - 0.5 < r as real <= x + 0.5
  {
    Floor(x + 0.5)
  }

  /** `Math.round(x * 10) / 10`: x rounded half-up to one decimal place. */
  function RoundTenth(x: real): (r: real)
    ensures x - 0.05 < r <= x + 0.05
    ensures IsWhole(r * 10.0)
  {
    var n := Round(x * 10.0);
    assert n as real / 10.0 * 10.0 == n as real;
    n as real / 10.0
  }

  /** An integer is the floor of every real in [n, n+1). */
  lemma FloorOfInterval(x: real, n: int)
    requires n as real <= x < n as real + 1.0
    ensures Floor(x) == n
  {
  }

  /** Rounding to one decimal place never reverses the order of two values. */
  lemma RoundTenthMonotone(x: real, y: real)
    requires x <= y
    ensures RoundTenth(x) <= RoundTenth(y)
  {
    assert Round(x * 10.0) <= Round(y * 10.0) by {
      var a, b := x * 10.0 + 0.5, y * 10.0 + 0.5;
      assert a <= b;
      assert Floor(a) as real <= a <= b < Floor(b) as real + 1.0;
    }
  }

  /** A whole number is its own rounding to one decimal place. */
  lemma RoundTenthOfWhole(x: real)
    requires IsWhole(x)
    ensures RoundTenth(x) == x
  {
    var n := x.Floor;
    assert x * 10.0 == (10 * n) as real;
    FloorOfInterval(x * 10.0 + 0.5, 10 * n);
  }
}
