/** Scores and the decimal width of a score (src/score.rs). */
module Scores {

  /** Bounds of the crate's 64-bit signed `Score`. */
  const I64Min: int := -0x8000_0000_0000_0000
  const I64Max: int := 0x7fff_ffff_ffff_ffff

  /** `Ord::max` on scores. */
  function Max(a: int, b: int): (r: int)
    ensures r >= a && r >= b
    ensures r == a || r == b
  {
    if a >= b then a else b
  }

  /** Ten to the power `k`. */
  function Pow10(k: nat): (p: nat)
    ensures p >= 1
  {
    if k == 0 then 1 else 10 * Pow10(k - 1)
  }

  /** Powers of ten grow strictly. */
  lemma {:induction false} Pow10Increasing(a: nat, b: nat)
    requires a < b
    ensures Pow10(a) < Pow10(b)
    decreases b
  {
    if a < b - 1 {
      Pow10Increasing(a, b - 1);
    }
  }

  /** `n.ilog10()`: the floor of the base-ten logarithm of a positive number. */
  function ILog10(n: nat): (r: nat)
    requires n > 0
    ensures Pow10(r) <= n < Pow10(r + 1)
  {
    if n < 10 then 0 else 1 + ILog10(n / 10)
  }

  /** The bound that pins `ILog10` down is satisfied by one exponent only. */
  lemma ILog10Unique(n: nat, d: nat)
    requires n > 0
    requires Pow10(d) <= n < Pow10(d + 1)
    ensures d == ILog10(n)
  {
    var r := ILog10(n);
    if d < r {
      Pow10Increasing(d + 1, r);
      assert false;
    } else if r < d {
      Pow10Increasing(r + 1, d);
      assert false;
    }
  }

  /**
   * `score_digit_count`: how many characters a score needs in decimal, counting
   * the minus sign. `i64::MIN` is excluded because `-score` overflows for it.
   */
  function ScoreDigitCount(score: int): (d: nat)
    requires I64Min < score <= I64Max
    ensures d >= 1
    ensures score == 0 ==> d == 1
    ensures score > 0 ==> Pow10(d - 1) <= score < Pow10(d)
    ensures score < 0 ==> d >= 2 && Pow10(d - 2) <= -score < Pow10(d - 1)
  {
    if score > 0 then ILog10(score) + 1
    else if score < 0 then ILog10(-score) + 2
    else 1
  }

  /** A negative score needs one character more than its magnitude. */
  lemma DigitCountNegative(score: int)
    requires I64Min < score < 0
    ensures ScoreDigitCount(score) == ScoreDigitCount(-score) + 1
  {
  }

  /** The digit count of a positive score is the unique `d` with 10^(d-1) <= score < 10^d. */
  lemma DigitCountUnique(score: int, d: nat)
    requires 0 < score <= I64Max && d >= 1
    requires Pow10(d - 1) <= score < Pow10(d)
    ensures ScoreDigitCount(score) == d
  {
    ILog10Unique(score, d - 1);
  }

  /** No 64-bit score needs more than twenty characters. */
  lemma DigitCountAtMost20(score: int)
    requires I64Min < score <= I64Max
    ensures ScoreDigitCount(score) <= 20
  {
    var d := ScoreDigitCount(score);
    assert Pow10(5) == 100_000;
    assert Pow10(10) == 10_000_000_000;
    assert Pow10(15) == 1_000_000_000_000_000;
    assert Pow10(19) == 10_000_000_000_000_000_000;
    if score > 0 && d > 19 {
      if d - 1 > 19 {
        Pow10Increasing(19, d - 1);
      }
      assert false;
    } else if score < 0 && d > 20 {
      if d - 2 > 19 {
        Pow10Increasing(19, d - 2);
      }
      assert false;
    }
  }
}
