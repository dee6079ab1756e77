/** Python's `round`: to the nearest multiple of a decimal unit, ties to the even one. */
module Rounding {

  function RoundInt(x: real): (n: int) {
    var low := x.Floor;
    var rest := x - low as real;
    if rest < 0.5 then low
    else if rest > 0.5 then low + 1
    else if low % 2 == 0 then low
    else low + 1
  }

  /** `round(x, d)` for `scale` = 10^d. */
  function RoundTo(x: real, scale: real): real
    requires scale > 0.0
  {
    RoundInt(x * scale) as real / scale
  }

  /** `x` is a multiple of the unit 1 / scale. */
  ghost predicate OnGrid(x: real, scale: real) {
    x * scale == (x * scale).Floor as real
  }

  lemma RoundIntNear(x: real)
    ensures x - 0.5 <= RoundInt(x) as real <= x + 0.5
  {
  }

  lemma RoundIntMonotone(x: real, y: real)
    requires x <= y
    ensures RoundInt(x) <= RoundInt(y)
  {
  }

  /** `n` is nearest to `x`, and even if another whole number is as near. */
  predicate NearestEven(x: real, n: int) {
    -0.5 <= x - n as real <= 0.5 && (x - n as real == 0.5 || x - n as real == -0.5 ==> n % 2 == 0)
  }

  /** Rounding to a whole number: the nearest, the even one of two. */
  lemma RoundIntExactly(x: real, n: int)
    ensures n == RoundInt(x) <==> NearestEven(x, n)
  {
    OddThenEven(x.Floor);
    if NearestEven(x, n) {
      assert n == x.Floor || n == x.Floor + 1;
    }
  }

  lemma OddThenEven(n: int)
    ensures n % 2 == 0 <==> (n + 1) % 2 != 0
  {
  }

  /** Rounding to a decimal unit 1 / scale: the multiple of it that is nearest. */
  lemma RoundToExactly(x: real, scale: real, n: int, p: real)
    requires scale > 0.0 && p == x * scale
    ensures RoundTo(x, scale) * scale == n as real <==> NearestEven(p, n)
  {
    RoundIntExactly(p, n);
    RoundNear(x, scale);
    hide RoundTo, RoundInt, NearestEven;
  }

  lemma RoundIntFixes(n: int)
    ensures RoundInt(n as real) == n
  {
  }

  /** Ties go to the even side from both directions: reflecting in an even point commutes with rounding. */
  lemma RoundIntReflects(x: real, even: int)
    requires even % 2 == 0
    ensures RoundInt(even as real - x) == even - RoundInt(x)
  {
    var low := x.Floor;
    var rest := x - low as real;
    if rest > 0.0 {
      assert (even as real - x).Floor == even - low - 1;
    } else {
      assert (even as real - x).Floor == even - low;
    }
  }

  lemma Divide(n: real, scale: real)
    requires scale > 0.0
    ensures (n / scale) * scale == n
  {
  }

  lemma Scaled(x: real, y: real, scale: real, p: real, q: real)
    requires scale > 0.0 && p == x * scale && q == y * scale
    ensures x <= y <==> p <= q
  {
    assert (y - x) * scale == q - p;
    if x < y { assert (y - x) * scale > 0.0; }
    if x > y { assert (x - y) * scale > 0.0; }
  }

  lemma RoundMonotone(x: real, y: real, scale: real)
    requires scale > 0.0 && x <= y
    ensures RoundTo(x, scale) <= RoundTo(y, scale)
  {
    var p, q := x * scale, y * scale;
    Scaled(x, y, scale, p, q);
    RoundIntMonotone(p, q);
    var m, n := RoundInt(p) as real, RoundInt(q) as real;
    Divide(m, scale);
    Divide(n, scale);
    Scaled(m / scale, n / scale, scale, m, n);
  }

  /** Rounding moves a number by at most half a unit, and onto the grid. */
  lemma RoundNear(x: real, scale: real)
    requires scale > 0.0
    ensures x * scale - 0.5 <= RoundTo(x, scale) * scale <= x * scale + 0.5
    ensures RoundTo(x, scale) * scale == RoundInt(x * scale) as real
    ensures OnGrid(RoundTo(x, scale), scale)
  {
    RoundIntNear(x * scale);
    var n := RoundInt(x * scale) as real;
    Divide(n, scale);
    assert RoundTo(x, scale) == n / scale;
    hide RoundTo, RoundInt;
    OnGridIf(RoundTo(x, scale), scale, RoundInt(x * scale));
  }

  lemma OnGridIf(y: real, scale: real, n: int)
    requires y * scale == n as real
    ensures OnGrid(y, scale)
  {
  }

  /** Exactly the numbers on the grid are left alone. */
  lemma RoundFixes(x: real, scale: real)
    requires scale > 0.0
    ensures RoundTo(x, scale) == x <==> OnGrid(x, scale)
  {
    RoundNear(x, scale);
    if OnGrid(x, scale) {
      RoundIntFixes((x * scale).Floor);
      var p, y := x * scale, RoundTo(x, scale);
      Scaled(x, y, scale, p, p);
      Scaled(y, x, scale, p, p);
    }
  }
}
