/** Decimal rounding as the store and the handlers apply it to final scores.

    PostgreSQL's ROUND(numeric, d) and JavaScript's Number.prototype.toFixed(d)
    (read on the exact value) both pick the nearest multiple of 10^-d and send a
    tie away from zero. Scores are modelled as exact reals, so the only
    approximation left is this explicit rounding step. The sources round to two
    decimals (SQL ROUND(..., 2)) and to one (toFixed(1)). */
module Numeric {

  function Min(a: real, b: real): real { if a <= b then a else b }

  function Max(a: nat, b: nat): nat { if a >= b then a else b }

  /** The integer nearest to y; a tie goes away from zero. The three clauses
      determine the result uniquely. */
  function HalfAway(y: real): (n: int)
    ensures y - 0.5 <= n as real <= y + 0.5
    ensures n as real - y == 0.5 ==> y > 0.0
    ensures y - n as real == 0.5 ==> y < 0.0
    ensures y >= 0.0 ==> n >= 0
    ensures y <= 0.0 ==> n <= 0
  {
    if y >= 0.0 then (y + 0.5).Floor else -((-y + 0.5).Floor)
  }

  /** ROUND(x, 2). */
  function Round2(x: real): (r: real)
    ensures x - 0.005 <= r <= x + 0.005
    ensures (r * 100.0).Floor as real == r * 100.0
    ensures x >= 0.0 ==> r >= 0.0
  {
    HalfAway(x * 100.0) as real / 100.0
  }

  /** toFixed(1), read back as a number. */
  function Round1(x: real): (r: real)
    ensures x - 0.05 <= r <= x + 0.05
    ensures (r * 10.0).Floor as real == r * 10.0
    ensures x >= 0.0 ==> r >= 0.0
  {
    HalfAway(x * 10.0) as real / 10.0
  }

  /** A value that already has at most two decimals is left unchanged. */
  lemma Round2OnGrid(n: int)
    ensures Round2(n as real / 100.0) == n as real / 100.0
  {
    assert HalfAway(n as real) == n;
  }

  /** A value that already has at most one decimal is left unchanged. */
  lemma Round1OnGrid(n: int)
    ensures Round1(n as real / 10.0) == n as real / 10.0
  {
    assert HalfAway(n as real) == n;
  }

  /** Rounding to the nearest integer never reverses the order of two values. */
  lemma HalfAwayMonotone(x: real, y: real)
    requires x <= y
    ensures HalfAway(x) <= HalfAway(y)
  {
    if x < 0.0 && y < 0.0 {
      assert (-y + 0.5).Floor <= (-x + 0.5).Floor;
    }
  }

  /** ROUND(_, 2) never reverses the order of two scores. */
  lemma Round2Monotone(x: real, y: real)
    requires x <= y
    ensures Round2(x) <= Round2(y)
  {
    HalfAwayMonotone(x * 100.0, y * 100.0);
  }

  /** toFixed(1) never reverses the order of two scores. */
  lemma Round1Monotone(x: real, y: real)
    requires x <= y
    ensures Round1(x) <= Round1(y)
  {
    HalfAwayMonotone(x * 10.0, y * 10.0);
  }
}
