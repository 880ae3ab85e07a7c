/**
 * The `Math` functions and number formatting the charts use, on real numbers:
 * `Math.abs`, `Math.ceil`, `Math.min`/`Math.max` over a spread list, and
 * `parseFloat(x.toFixed(2))`.
 */
module Numeric {

  function Abs(x: real): (r: real)
    ensures r >= 0.0 && (r == x || r == -x)
  {
    if x < 0.0 then -x else x
  }

  /** `Math.ceil`: the least integer not below `x`. */
  function Ceil(x: real): (r: int)
    ensures x <= r as real < x + 1.0
  {
    -((-x).Floor)
  }

  /** `x` is a whole number of hundredths. */
  predicate IsHundredths(x: real) {
    (x * 100.0).Floor as real == x * 100.0
  }

  lemma NegateHundredths(x: real)
    requires IsHundredths(x)
    ensures IsHundredths(-x)
  {
    var k := (x * 100.0).Floor;
    assert (-x) * 100.0 == (-k) as real;
  }

  /** Rounding of a magnitude: the multiple of 0.01 nearest to `y`, the larger one on a tie. */
  function RoundMagnitude(y: real): (r: real)
    requires y >= 0.0
    ensures r >= 0.0 && IsHundredths(r)
    ensures -0.005 < r - y <= 0.005
  {
    var n := (y * 100.0 + 0.5).Floor;
    assert n as real <= y * 100.0 + 0.5 < n as real + 1.0;
    var r := n as real / 100.0;
    assert r * 100.0 == n as real;
    r
  }

  /**
   * `parseFloat(x.toFixed(2))`: the nearest multiple of 0.01; `toFixed` works on the
   * magnitude and takes the larger candidate on a tie, so a tie rounds away from zero.
   */
  function RoundHundredths(x: real): (r: real)
    ensures IsHundredths(r)
    ensures -0.005 <= r - x <= 0.005
    ensures x >= 0.0 ==> r >= 0.0
    ensures x <= 0.0 ==> r <= 0.0
  {
    if x < 0.0 then
      var m := RoundMagnitude(-x);
      NegateHundredths(m);
      -m
    else RoundMagnitude(x)
  }

  /** Rounding is symmetric about zero. */
  lemma RoundHundredthsOdd(x: real)
    ensures RoundHundredths(-x) == -RoundHundredths(x)
  {
  }

  /** A value that already is a whole number of hundredths is left as it is. */
  lemma RoundHundredthsOfHundredths(x: real)
    requires IsHundredths(x)
    ensures RoundHundredths(x) == x
  {
    var n := (x * 100.0).Floor;
    if x < 0.0 {
      assert ((-x) * 100.0 + 0.5).Floor == -n;
    } else {
      assert (x * 100.0 + 0.5).Floor == n;
    }
  }

  /** Rounding twice is rounding once, so re-formatting a rounded value shows it unchanged. */
  lemma RoundHundredthsIdempotent(x: real)
    ensures RoundHundredths(RoundHundredths(x)) == RoundHundredths(x)
  {
    RoundHundredthsOfHundredths(RoundHundredths(x));
  }

  /** `Math.min(...xs)` for a non-empty list. */
  function Min(xs: seq<real>): (r: real)
    requires |xs| > 0
    ensures r in xs
    ensures forall x :: x in xs ==> r <= x
    decreases |xs|
  {
    if |xs| == 1 then xs[0]
    else
      var m := Min(xs[1..]);
      assert xs == [xs[0]] + xs[1..];
      if xs[0] <= m then xs[0] else m
  }

  /** `Math.max(...xs)` for a non-empty list. */
  function Max(xs: seq<real>): (r: real)
    requires |xs| > 0
    ensures r in xs
    ensures forall x :: x in xs ==> x <= r
    decreases |xs|
  {
    if |xs| == 1 then xs[0]
    else
      var m := Max(xs[1..]);
      assert xs == [xs[0]] + xs[1..];
      if xs[0] >= m then xs[0] else m
  }
}
