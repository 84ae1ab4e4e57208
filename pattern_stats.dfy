/**
 * Aggregated statistics of one pattern (LeetCodeTracker/PatternStats.swift).
 * A datatype value is immutable once built, as the Swift struct's `let`
 * fields are. The solve rate is an exact rational here; the app computes
 * it in binary floating point.
 */
module PatternStatistics {
  import opened Patterns

  datatype PatternStats = PatternStats(pattern: Pattern, total: int, solved: int)

  /** `solveRate`: solved / total, and 0 when there is nothing to divide by. */
  function SolveRate(s: PatternStats): real {
    if s.total == 0 then 0.0 else s.solved as real / s.total as real
  }

  /** No division by zero: an empty pattern has rate 0, any other is solved/total. */
  lemma SolveRateDefinition(s: PatternStats)
    ensures s.total == 0 ==> SolveRate(s) == 0.0
    ensures s.total != 0 ==> SolveRate(s) * s.total as real == s.solved as real
  {
  }

  /** With 0 <= solved <= total the rate is a fraction between 0 and 1. */
  lemma SolveRateBounds(s: PatternStats)
    requires 0 <= s.solved <= s.total
    ensures 0.0 <= SolveRate(s) <= 1.0
  {
    if s.total != 0 {
      QuotientComparison(s.solved as real, s.total as real, 0.0);
      QuotientComparison(s.solved as real, s.total as real, 1.0);
    }
  }

  /** Comparing a quotient with a constant is comparing the numerator with a multiple. */
  lemma QuotientComparison(a: real, t: real, c: real)
    requires t > 0.0
    ensures a / t < c <==> a < c * t
    ensures a / t > c <==> a > c * t
  {
    var r := a / t;
    assert r * t == a;
    if r < c {
      assert (c - r) * t > 0.0;
    }
    if r > c {
      assert (r - c) * t > 0.0;
    }
  }

  /**
   * For a pattern with at least one problem the two thresholds used to
   * classify patterns are cross-multiplications in whole numbers:
   * rate < 0.6 iff 5 * solved < 3 * total, and rate > 0.8 iff
   * 5 * solved > 4 * total.
   */
  lemma ThresholdsByCrossMultiplication(s: PatternStats)
    requires s.total > 0
    ensures SolveRate(s) < 0.6 <==> 5 * s.solved < 3 * s.total
    ensures SolveRate(s) > 0.8 <==> 5 * s.solved > 4 * s.total
  {
    QuotientComparison(s.solved as real, s.total as real, 0.6);
    QuotientComparison(s.solved as real, s.total as real, 0.8);
    assert 5 * s.solved < 3 * s.total <==> s.solved as real < 0.6 * s.total as real;
    assert 5 * s.solved > 4 * s.total <==> s.solved as real > 0.8 * s.total as real;
  }
}
