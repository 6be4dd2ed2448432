/** JavaScript's `Math.round` and the two-decimal rounding `Math.round(x * 100) / 100`
    used by the data viewer, stated over exact reals. */
module Rounding {

  /** `Math.round`: the nearest integer, a half rounded toward +infinity.
      The two bounds pin the result down uniquely. */
  function Round(x: real): (n: int)
    ensures x - 0.5 < n as real <= x + 0.5
  {
    (x + 0.5).Floor
  }

  /** A value on the 0.01 grid: a whole number of hundredths. */
  predicate OnGrid(x: real) {
    (x * 100.0).Floor as real == x * 100.0
  }

  /** `Math.round(x * 100) / 100`: the nearest hundredth, a half hundredth rounded up. */
  function Round2(x: real): real {
    Round(x * 100.0) as real / 100.0
  }

  /** `Round2` moves its argument by at most half a hundredth and lands on the grid. */
  lemma Round2Bounds(x: real)
    ensures x - 0.005 < Round2(x) <= x + 0.005
    ensures OnGrid(Round2(x))
  {
    var n := Round(x * 100.0);
    assert (n as real / 100.0) * 100.0 == n as real;
  }

  /** Rounding an integer-valued real gives that integer back. */
  lemma RoundOfInteger(k: int)
    ensures Round(k as real) == k
  {
  }

  /** A value already on the grid is left alone by `Round2`. */
  lemma Round2OfGrid(x: real)
    requires OnGrid(x)
    ensures Round2(x) == x
  {
    var k := (x * 100.0).Floor;
    RoundOfInteger(k);
    assert Round(x * 100.0) == k;
  }

  /** Re-rounding an already rounded value changes nothing. */
  lemma Round2Idempotent(x: real)
    ensures Round2(Round2(x)) == Round2(x)
  {
    Round2Bounds(x);
    Round2OfGrid(Round2(x));
  }

  /** Hundredths add up to hundredths. */
  lemma OnGridAdd(x: real, y: real)
    requires OnGrid(x) && OnGrid(y)
    ensures OnGrid(x + y)
  {
    var a, b := (x * 100.0).Floor, (y * 100.0).Floor;
    assert (x + y) * 100.0 == (a + b) as real;
  }
}
