/** Roundup as defined in Appendix A of the CVSS v3.1 specification: round a
    score up to one decimal place, after first rounding it to five decimal
    places so that a representation error in the sixth place cannot push the
    result up by a whole tenth. */
module Rounding {

  /** C's round(): the nearest integer, halves rounded away from zero. */
  function RoundHalfAway(y: real): (n: int)
    ensures y >= 0.0 ==> y - 0.5 < n as real <= y + 0.5
    ensures y < 0.0 ==> y - 0.5 <= n as real < y + 0.5
  {
    if y >= 0.0 then (y + 0.5).Floor else -((-y + 0.5).Floor)
  }

  /** The input scaled to 100000ths and rounded to an integer. */
  function Scaled(x: real): int {
    RoundHalfAway(x * 100000.0)
  }

  /** The result of Roundup counted in tenths: the least number of tenths
      that is not below the input rounded to five decimal places. */
  function Tenths(x: real): (t: int)
    ensures (t - 1) * 10000 < Scaled(x) <= t * 10000
  {
    var n := Scaled(x);
    if n % 10000 == 0 then n / 10000 else n / 10000 + 1
  }

  /** roundUp1 as the calculator computes it: when the scaled input is a
      whole number of tenths it is scaled back down, otherwise the next tenth
      above is taken. The result is always a whole number of tenths. */
  function RoundUp1(x: real): (r: real)
    ensures r == Tenths(x) as real / 10.0
  {
    var n := Scaled(x);
    if n % 10000 == 0 then n as real / 100000.0 else (n / 10000 + 1) as real / 10.0
  }

  /** A whole number of tenths is left unchanged. */
  lemma ExactTenths(t: int)
    ensures Tenths(t as real / 10.0) == t
    ensures RoundUp1(t as real / 10.0) == t as real / 10.0
  {
    assert (t as real / 10.0) * 100000.0 == (t * 10000) as real;
  }

  lemma RoundUp1Idempotent(x: real)
    ensures RoundUp1(RoundUp1(x)) == RoundUp1(x)
  {
    ExactTenths(Tenths(x));
  }

  /** C's round() never reverses the order of its inputs. */
  lemma RoundHalfAwayMonotone(y: real, z: real)
    requires y <= z
    ensures RoundHalfAway(y) <= RoundHalfAway(z)
  {
  }

  lemma RoundUp1Monotone(x: real, y: real)
    requires x <= y
    ensures RoundUp1(x) <= RoundUp1(y)
  {
    RoundHalfAwayMonotone(x * 100000.0, y * 100000.0);
    var s, t := Tenths(x), Tenths(y);
    assert (s - 1) * 10000 < t * 10000;
  }

  /** The two examples of the implementation note: six decimal places of
      accuracy are considered. */
  lemma SixthDecimal()
    ensures RoundUp1(0.000001) == 0.0
    ensures RoundUp1(0.000009) == 0.1
  {
  }

  /** Scores in [0, 10] stay in [0, 10]. */
  lemma RoundUp1Range(x: real)
    requires 0.0 <= x <= 10.0
    ensures 0 <= Tenths(x) <= 100
    ensures 0.0 <= RoundUp1(x) <= 10.0
  {
  }

  /** A positive input rounds to at least the input itself, less the half
      100000th lost to the first rounding. */
  lemma RoundUp1NotBelow(x: real)
    ensures RoundUp1(x) >= x - 0.000005
  {
  }
}
