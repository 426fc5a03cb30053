/**
 * `_alignToStep`, shared verbatim by the dual-handle range slider and the
 * step slider: a value is moved to the nearest grid point
 * `minimum + k * step` (Python's `round`, which sends an exact half to the
 * even neighbour) and then clamped into `[minimum, maximum]`.
 */
module StepAlignment {

  function Abs(x: int): nat { if x < 0 then -x else x }

  /** Python's `max(lo, min(x, hi))`. */
  function Clamp(x: int, lo: int, hi: int): (r: int)
    ensures lo <= hi ==> lo <= r <= hi
    ensures lo <= x <= hi ==> r == x
  {
    var m := if x < hi then x else hi;
    if lo < m then m else lo
  }

  /**
   * Python's `round(n / d)` for a positive divisor, computed exactly: the
   * quotient rounded to the nearest integer, an exact half to the even one.
   * Dafny's `/` and `%` on a positive divisor are floor division and the
   * non-negative remainder, as in Python.
   */
  function RoundHalfEven(n: int, d: int): int
    requires d > 0
  {
    var q, r := n / d, n % d;
    if 2 * r < d then q
    else if 2 * r > d then q + 1
    else if q % 2 == 0 then q
    else q + 1
  }

  /** The source's `_alignToStep(value)` for the given range and step. */
  function Align(value: int, minimum: int, maximum: int, step: int): (r: int)
    ensures step <= 1 ==> r == value
    ensures step > 1 && minimum <= maximum ==> minimum <= r <= maximum
  {
    if step <= 1 then value
    else Clamp(minimum + RoundHalfEven(value - minimum, step) * step, minimum, maximum)
  }

  lemma DivModFacts(n: int, d: int)
    requires d > 0
    ensures n == (n / d) * d + n % d && 0 <= n % d < d
  {
  }

  /** Multiplying by a positive factor keeps order. */
  lemma MulMonotone(a: int, b: int, d: int)
    requires d > 0 && a <= b
    ensures a * d <= b * d
  {
    assert b * d - a * d == (b - a) * d;
  }

  /** Floor division by a positive divisor is monotone. */
  lemma DivMonotone(a: int, b: int, d: int)
    requires d > 0 && a <= b
    ensures a / d <= b / d
  {
    DivModFacts(a, d);
    DivModFacts(b, d);
    if a / d > b / d {
      MulMonotone(b / d + 1, a / d, d);
      assert false;
    }
  }

  /** An exact multiple divides back to its factor with no remainder. */
  lemma {:induction false} DivExact(k: int, d: int)
    requires d > 0
    ensures (k * d) / d == k && (k * d) % d == 0
  {
    var n := k * d;
    DivModFacts(n, d);
    var q, r := n / d, n % d;
    if q < k {
      MulMonotone(q + 1, k, d);
      assert false;
    } else if q > k {
      MulMonotone(k + 1, q, d);
      assert false;
    }
  }

  /** Rounding an exact multiple gives back its factor. */
  lemma RoundExact(k: int, d: int)
    requires d > 0
    ensures RoundHalfEven(k * d, d) == k
  {
    DivExact(k, d);
  }

  /** `round` is monotone. */
  lemma RoundMonotone(a: int, b: int, d: int)
    requires d > 0 && a <= b
    ensures RoundHalfEven(a, d) <= RoundHalfEven(b, d)
  {
    DivMonotone(a, b, d);
    DivModFacts(a, d);
    DivModFacts(b, d);
  }

  /**
   * The reference meaning of Python's `round(n / d)`: the result `q` is a
   * nearest integer to `n / d` (no multiple `k * d` is closer to `n` than
   * `q * d`), it is off by at most half a step, and an exact half goes to
   * the even integer.
   */
  lemma RoundIsNearest(n: int, d: int, k: int)
    requires d > 0
    ensures 2 * Abs(RoundHalfEven(n, d) * d - n) <= d
    ensures Abs(k * d - n) >= Abs(RoundHalfEven(n, d) * d - n)
    ensures 2 * Abs(RoundHalfEven(n, d) * d - n) == d ==> RoundHalfEven(n, d) % 2 == 0
  {
    DivModFacts(n, d);
    var q, r := n / d, n % d;
    assert q * d - n == -r;
    assert (q + 1) * d - n == d - r;
    if k <= q {
      MulMonotone(k, q, d);
      assert k * d - n <= -r;
    } else {
      MulMonotone(q + 1, k, d);
      assert k * d - n >= d - r;
    }
  }

  /** `_alignToStep` is monotone, so aligning two ordered values keeps their order. */
  lemma AlignMonotone(a: int, b: int, minimum: int, maximum: int, step: int)
    requires a <= b
    ensures Align(a, minimum, maximum, step) <= Align(b, minimum, maximum, step)
  {
    if step > 1 {
      RoundMonotone(a - minimum, b - minimum, step);
      MulMonotone(RoundHalfEven(a - minimum, step), RoundHalfEven(b - minimum, step), step);
    }
  }

  /**
   * For a step above 1 the aligned value is a grid point counted from the
   * minimum, or the maximum itself (where the nearest grid point lies
   * beyond it).
   */
  lemma AlignOnGrid(value: int, minimum: int, maximum: int, step: int)
    requires step > 1 && minimum <= maximum
    ensures var r := Align(value, minimum, maximum, step);
            r == maximum || (r - minimum) % step == 0
  {
    var k := RoundHalfEven(value - minimum, step);
    DivExact(k, step);
    DivExact(0, step);
  }

  /**
   * Inside `[minimum, maximum]` aligning twice is aligning once, so a value
   * the sliders already aligned is left alone by a further alignment.
   */
  lemma AlignIdempotent(value: int, minimum: int, maximum: int, step: int)
    requires minimum <= value <= maximum
    ensures var x := Align(value, minimum, maximum, step);
            Align(x, minimum, maximum, step) == x
  {
    if step > 1 {
      var q := RoundHalfEven(value - minimum, step);
      var g := minimum + q * step;
      RoundMonotone(0, value - minimum, step);
      assert RoundHalfEven(0, step) == 0;
      assert q >= 0;
      MulMonotone(0, q, step);
      if g <= maximum {
        RoundExact(q, step);
      } else {
        RoundMonotone(value - minimum, maximum - minimum, step);
        MulMonotone(q, RoundHalfEven(maximum - minimum, step), step);
      }
    }
  }

  /**
   * Outside the range one alignment does not settle the value: with range
   * [0, 10] and step 4, 13 aligns to 10 but 10 aligns to 8.
   */
  lemma AlignNotIdempotentOutside()
    ensures Align(13, 0, 10, 4) == 10 && Align(10, 0, 10, 4) == 8
  {
    assert RoundHalfEven(13, 4) == 3;
    assert RoundHalfEven(10, 4) == 2;
  }
}
