/**
 * The counters of the statistics screen (LeetCodeTracker/StatsView.swift):
 * totals, the overall solve rate and the per-difficulty breakdown.
 */
module Stats {
  import opened Collections
  import opened Problems

  /** `totalCount`. */
  function TotalCount(problems: seq<Problem>): nat {
    |problems|
  }

  /** `solvedCount`: the problems marked solved. */
  function SolvedCount(problems: seq<Problem>): (n: nat)
    ensures n <= TotalCount(problems)
  {
    |Filter(problems, (p: Problem) => p.isSolved)|
  }

  /** `unsolvedCount`, computed as the difference of the two counters. */
  function UnsolvedCount(problems: seq<Problem>): int {
    TotalCount(problems) - SolvedCount(problems)
  }

  /**
   * The difference equals the number of problems not marked solved, so
   * solved plus unsolved is the total.
   */
  lemma UnsolvedCountCountsUnsolved(problems: seq<Problem>)
    ensures UnsolvedCount(problems) == |Filter(problems, (p: Problem) => !p.isSolved)|
    ensures SolvedCount(problems) + UnsolvedCount(problems) == TotalCount(problems)
  {
    FilterSplitCount(problems, (p: Problem) => p.isSolved, (p: Problem) => !p.isSolved);
  }

  /** `solveRate`: 0 for an empty list, else solved over total. */
  function OverallSolveRate(problems: seq<Problem>): real {
    if TotalCount(problems) == 0 then 0.0
    else SolvedCount(problems) as real / TotalCount(problems) as real
  }

  /** The rate is 0 for an empty list and a fraction between 0 and 1 otherwise. */
  lemma OverallSolveRateSpec(problems: seq<Problem>)
    ensures TotalCount(problems) == 0 ==> OverallSolveRate(problems) == 0.0
    ensures 0.0 <= OverallSolveRate(problems) <= 1.0
  {
    var part, whole := SolvedCount(problems), TotalCount(problems);
    if whole > 0 {
      FractionOfWhole(part, whole);
      assert OverallSolveRate(problems) == part as real / whole as real;
    }
  }

  lemma FractionOfWhole(part: nat, whole: nat)
    requires 0 < whole && part <= whole
    ensures 0.0 <= part as real / whole as real <= 1.0
  {
    var t := whole as real;
    var r := part as real / t;
    assert r * t == part as real;
  }

  /** The problems of one difficulty. */
  function DifficultyCount(problems: seq<Problem>, d: Difficulty): nat {
    |Filter(problems, (p: Problem) => p.difficulty == d)|
  }

  /** `easyCount`, `mediumCount`, `hardCount`. */
  function EasyCount(problems: seq<Problem>): nat {
    DifficultyCount(problems, Easy)
  }

  function MediumCount(problems: seq<Problem>): nat {
    DifficultyCount(problems, Medium)
  }

  function HardCount(problems: seq<Problem>): nat {
    DifficultyCount(problems, Hard)
  }

  /** Each problem has exactly one difficulty, so the three counts sum to the total. */
  lemma {:induction false} DifficultyCountsSum(problems: seq<Problem>)
    ensures EasyCount(problems) + MediumCount(problems) + HardCount(problems) == TotalCount(problems)
  {
    if problems != [] {
      DifficultyCountsSum(problems[1..]);
    }
  }

  /** `maxDifficultyCount`: the largest of the three counts. */
  function MaxDifficultyCount(problems: seq<Problem>): (m: nat)
    ensures m >= EasyCount(problems) && m >= MediumCount(problems) && m >= HardCount(problems)
    ensures m == EasyCount(problems) || m == MediumCount(problems) || m == HardCount(problems)
  {
    var e, md, h := EasyCount(problems), MediumCount(problems), HardCount(problems);
    if e >= md && e >= h then e else if md >= h then md else h
  }

  /**
   * The difficulty bars, which divide by `maxDifficultyCount`, are drawn
   * only for a non-empty list, and there the divisor is positive.
   */
  lemma MaxDifficultyCountPositive(problems: seq<Problem>)
    requires |problems| > 0
    ensures MaxDifficultyCount(problems) > 0
  {
    DifficultyCountsSum(problems);
  }
}
