/**
 * The view model that owns the problem list and derives the analytics and
 * daily recommendations from it
 * (LeetCodeTracker/ProblemListViewModel.swift).
 *
 * Scores are counted in half points: a score of 13 is the app's 6.5.
 */
module ViewModel {
  import opened Wrappers
  import opened Collections
  import opened Patterns
  import opened PatternStatistics
  import opened Problems

  // ---------------------------------------------------------------------
  // Solved days and the streak

  /** `solvedDays`: the day of every recorded solve date. */
  function SolvedDays(problems: seq<Problem>): (days: set<int>)
    ensures |days| <= |problems|
  {
    if problems == [] then {}
    else
      var rest := SolvedDays(problems[1..]);
      match problems[0].dateSolved
      case Some(d) => {DayOf(d)} + rest
      case None => rest
  }

  /**
   * A day is a solved day exactly when some problem carries a solve date on
   * that day, whether or not the problem is currently marked solved.
   */
  lemma {:induction false} SolvedDaysMembers(problems: seq<Problem>, day: int)
    ensures day in SolvedDays(problems) <==>
      exists i :: 0 <= i < |problems| && problems[i].dateSolved.Some? && DayOf(problems[i].dateSolved.value) == day
  {
    if problems != [] {
      SolvedDaysMembers(problems[1..], day);
      if exists i :: 0 <= i < |problems| && problems[i].dateSolved.Some? && DayOf(problems[i].dateSolved.value) == day {
        var i :| 0 <= i < |problems| && problems[i].dateSolved.Some? && DayOf(problems[i].dateSolved.value) == day;
        if i > 0 {
          assert problems[1..][i - 1] == problems[i];
        }
      }
      if exists i :: 0 <= i < |problems[1..]| && problems[1..][i].dateSolved.Some? && DayOf(problems[1..][i].dateSolved.value) == day {
        var i :| 0 <= i < |problems[1..]| && problems[1..][i].dateSolved.Some? && DayOf(problems[1..][i].dateSolved.value) == day;
        assert problems[i + 1] == problems[1..][i];
      }
    }
  }

  /** The `n` days walked back from `today`: today, the day before, ... */
  ghost function DaysBack(today: int, n: nat): (days: set<int>)
    ensures |days| == n
    ensures forall d :: d in days ==> today - n < d <= today
  {
    if n == 0 then {}
    else
      var earlier := DaysBack(today, n - 1);
      assert today - (n - 1) !in earlier;
      earlier + {today - (n - 1)}
  }

  lemma {:induction false} SubsetSize<T>(a: set<T>, b: set<T>)
    requires a <= b
    ensures |a| <= |b|
  {
    if a != {} {
      var x :| x in a;
      SubsetSize(a - {x}, b - {x});
    }
  }

  // ---------------------------------------------------------------------
  // Pattern statistics

  /** The statistics of one pattern over the whole list. */
  function StatsFor(problems: seq<Problem>, pattern: Pattern): (s: PatternStats)
    ensures s.pattern == pattern
    ensures 0 <= s.solved <= s.total <= |problems|
  {
    var tagged := Filter(problems, (p: Problem) => pattern in p.patterns);
    PatternStats(pattern, |tagged|, |Filter(tagged, (p: Problem) => p.isSolved)|)
  }

  /** `patternStats`: one entry per case of `Pattern.allCases`, in order. */
  function AllPatternStats(problems: seq<Problem>): seq<PatternStats> {
    StatsOver(problems, AllCases)
  }

  /** `patterns.map { ... }`: the statistics of each pattern of `patterns`, in order. */
  function StatsOver(problems: seq<Problem>, patterns: seq<Pattern>): (r: seq<PatternStats>)
    ensures |r| == |patterns|
    ensures forall i :: 0 <= i < |r| ==> r[i] == StatsFor(problems, patterns[i])
  {
    if patterns == [] then [] else [StatsFor(problems, patterns[0])] + StatsOver(problems, patterns[1..])
  }

  /**
   * There is exactly one entry per pattern, in `allCases` order, counting
   * the problems tagged with it and the solved ones among them.
   */
  lemma AllPatternStatsShape(problems: seq<Problem>)
    ensures |AllPatternStats(problems)| == CaseCount
    ensures forall i :: 0 <= i < CaseCount ==> AllPatternStats(problems)[i].pattern == AllCases[i]
    ensures forall p :: AllPatternStats(problems)[Ordinal(p)] == StatsFor(problems, p)
    ensures forall s :: s in AllPatternStats(problems) ==> s == StatsFor(problems, s.pattern) && 0 <= s.solved <= s.total
  {
    var stats := AllPatternStats(problems);
    AllCasesEnumerates();
    forall p ensures stats[Ordinal(p)] == StatsFor(problems, p) {
      assert AllCases[Ordinal(p)] == p;
    }
    forall s | s in stats ensures s == StatsFor(problems, s.pattern) && 0 <= s.solved <= s.total {
      var i :| 0 <= i < |stats| && stats[i] == s;
    }
  }

  /** The statistics of every pattern appear in `patternStats`. */
  lemma StatsListed(problems: seq<Problem>, pattern: Pattern)
    ensures StatsFor(problems, pattern) in AllPatternStats(problems)
  {
    AllPatternStatsShape(problems);
    assert AllPatternStats(problems)[Ordinal(pattern)] == StatsFor(problems, pattern);
  }

  /**
   * Adding a problem adds one to the total of each pattern it is tagged
   * with, and one to the solved count too when it is solved.
   */
  lemma StatsForAppend(problems: seq<Problem>, p: Problem, pattern: Pattern)
    ensures StatsFor(problems + [p], pattern).total ==
      StatsFor(problems, pattern).total + (if pattern in p.patterns then 1 else 0)
    ensures StatsFor(problems + [p], pattern).solved ==
      StatsFor(problems, pattern).solved + (if pattern in p.patterns && p.isSolved then 1 else 0)
  {
    var tag := (q: Problem) => pattern in q.patterns;
    var solved := (q: Problem) => q.isSolved;
    FilterAppend(problems, [p], tag);
    FilterAppend(Filter(problems, tag), Filter([p], tag), solved);
  }

  // ---------------------------------------------------------------------
  // Weak and strong patterns

  /** Enough data (three problems) and a solve rate under 60%. */
  predicate IsWeak(s: PatternStats) {
    s.total >= 3 && SolveRate(s) < 0.6
  }

  /** Enough data (three problems) and a solve rate over 80%. */
  predicate IsStrong(s: PatternStats) {
    s.total >= 3 && SolveRate(s) > 0.8
  }

  /** The comparator of both rankings: ascending solve rate. */
  predicate RateBefore(a: PatternStats, b: PatternStats) {
    SolveRate(a) < SolveRate(b)
  }

  function WeakPatterns(problems: seq<Problem>): seq<PatternStats> {
    SortBy(Filter(AllPatternStats(problems), IsWeak), RateBefore)
  }

  function StrongPatterns(problems: seq<Problem>): seq<PatternStats> {
    SortBy(Filter(AllPatternStats(problems), IsStrong), RateBefore)
  }

  /** `Set(stats.map { $0.pattern })`. */
  function PatternsOf(stats: seq<PatternStats>): set<Pattern> {
    if stats == [] then {} else {stats[0].pattern} + PatternsOf(stats[1..])
  }

  lemma {:induction false} PatternsOfMembers(stats: seq<PatternStats>, pattern: Pattern)
    ensures pattern in PatternsOf(stats) <==> exists s :: s in stats && s.pattern == pattern
  {
    if stats != [] {
      PatternsOfMembers(stats[1..], pattern);
      if exists s :: s in stats && s.pattern == pattern {
        var s :| s in stats && s.pattern == pattern;
        if s != stats[0] {
          assert s in stats[1..];
        }
      }
    }
  }

  /** `weakPatternsSet`. */
  function WeakSet(problems: seq<Problem>): set<Pattern> {
    PatternsOf(WeakPatterns(problems))
  }

  /** `strongPatternsSet`. */
  function StrongSet(problems: seq<Problem>): set<Pattern> {
    PatternsOf(StrongPatterns(problems))
  }

  lemma RateBeforeStrictWeak(s: seq<PatternStats>)
    ensures StrictWeakOn(RateBefore, s)
  {
  }

  /**
   * `weakPatterns` is a rearrangement of exactly the weak entries of
   * `patternStats`, weakest first.
   */
  lemma WeakPatternsSpec(problems: seq<Problem>)
    ensures multiset(WeakPatterns(problems)) == multiset(Filter(AllPatternStats(problems), IsWeak))
    ensures forall s :: s in WeakPatterns(problems) <==>
      s in AllPatternStats(problems) && s.total >= 3 && SolveRate(s) < 0.6
    ensures forall i, j :: 0 <= i < j < |WeakPatterns(problems)| ==>
      SolveRate(WeakPatterns(problems)[i]) <= SolveRate(WeakPatterns(problems)[j])
  {
    var f := Filter(AllPatternStats(problems), IsWeak);
    RateBeforeStrictWeak(f);
    SortBySorted(f, RateBefore);
    forall s ensures s in WeakPatterns(problems) <==> s in f {
      assert s in WeakPatterns(problems) <==> s in multiset(WeakPatterns(problems));
    }
  }

  /**
   * `strongPatterns` is a rearrangement of exactly the strong entries of
   * `patternStats`, least strong first.
   */
  lemma StrongPatternsSpec(problems: seq<Problem>)
    ensures multiset(StrongPatterns(problems)) == multiset(Filter(AllPatternStats(problems), IsStrong))
    ensures forall s :: s in StrongPatterns(problems) <==>
      s in AllPatternStats(problems) && s.total >= 3 && SolveRate(s) > 0.8
    ensures forall i, j :: 0 <= i < j < |StrongPatterns(problems)| ==>
      SolveRate(StrongPatterns(problems)[i]) <= SolveRate(StrongPatterns(problems)[j])
  {
    var f := Filter(AllPatternStats(problems), IsStrong);
    RateBeforeStrictWeak(f);
    SortBySorted(f, RateBefore);
    forall s ensures s in StrongPatterns(problems) <==> s in f {
      assert s in StrongPatterns(problems) <==> s in multiset(StrongPatterns(problems));
    }
  }

  /** A pattern is in `weakPatternsSet` exactly when its statistics are weak. */
  lemma WeakSetMembers(problems: seq<Problem>, pattern: Pattern)
    ensures pattern in WeakSet(problems) <==> IsWeak(StatsFor(problems, pattern))
  {
    var s := StatsFor(problems, pattern);
    WeakPatternsSpec(problems);
    PatternsOfMembers(WeakPatterns(problems), pattern);
    if pattern in WeakSet(problems) {
      var w :| w in WeakPatterns(problems) && w.pattern == pattern;
      AllPatternStatsShape(problems);
      assert w == s;
    }
    if IsWeak(s) {
      StatsListed(problems, pattern);
      assert s in WeakPatterns(problems);
    }
  }

  /** A pattern is in `strongPatternsSet` exactly when its statistics are strong. */
  lemma StrongSetMembers(problems: seq<Problem>, pattern: Pattern)
    ensures pattern in StrongSet(problems) <==> IsStrong(StatsFor(problems, pattern))
  {
    var s := StatsFor(problems, pattern);
    StrongPatternsSpec(problems);
    PatternsOfMembers(StrongPatterns(problems), pattern);
    if pattern in StrongSet(problems) {
      var w :| w in StrongPatterns(problems) && w.pattern == pattern;
      AllPatternStatsShape(problems);
      assert w == s;
    }
    if IsStrong(s) {
      StatsListed(problems, pattern);
      assert s in StrongPatterns(problems);
    }
  }

  /**
   * A pattern is weak exactly when at least three problems carry it and
   * fewer than 3/5 of them are solved; strong exactly when at least three
   * carry it and more than 4/5 are solved. No pattern is both.
   */
  lemma WeakStrongSetsSpec(problems: seq<Problem>, pattern: Pattern)
    ensures pattern in WeakSet(problems) <==>
      StatsFor(problems, pattern).total >= 3 && 5 * StatsFor(problems, pattern).solved < 3 * StatsFor(problems, pattern).total
    ensures pattern in StrongSet(problems) <==>
      StatsFor(problems, pattern).total >= 3 && 5 * StatsFor(problems, pattern).solved > 4 * StatsFor(problems, pattern).total
    ensures !(pattern in WeakSet(problems) && pattern in StrongSet(problems))
  {
    var s := StatsFor(problems, pattern);
    WeakSetMembers(problems, pattern);
    StrongSetMembers(problems, pattern);
    if s.total > 0 {
      ThresholdsByCrossMultiplication(s);
    }
  }

  // ---------------------------------------------------------------------
  // Review score

  /** Some tag of `p` belongs to `tags`. */
  predicate HasTagIn(p: Problem, tags: set<Pattern>) {
    exists q :: q in p.patterns && q in tags
  }

  /** Weak tags dominate: +3 if any tag is weak, else +0 if any is strong, else +1. */
  function PatternTerm(p: Problem, weak: set<Pattern>, strong: set<Pattern>): int {
    if HasTagIn(p, weak) then 6
    else if HasTagIn(p, strong) then 0
    else 2
  }

  /** +0.5 / +1 / +1.5 for easy / medium / hard. */
  function DifficultyTerm(d: Difficulty): int {
    match d
    case Easy => 1
    case Medium => 2
    case Hard => 3
  }

  /**
   * +2 for an unsolved problem; a solved one earns +1.5 after two weeks,
   * +1 after one, and nothing when recent or undated.
   */
  function StatusTerm(p: Problem, now: Date): int {
    if !p.isSolved then 4
    else match p.dateSolved
      case None => 0
      case Some(d) =>
        var days := DaysBetween(d, now);
        if days >= 14 then 3 else if days >= 7 then 2 else 0
  }

  /** `reviewScore(for:)`, in half points. */
  function Score(p: Problem, weak: set<Pattern>, strong: set<Pattern>, now: Date): (score: int)
    ensures 1 <= score <= 13
  {
    PatternTerm(p, weak, strong) + DifficultyTerm(p.difficulty) + StatusTerm(p, now)
  }

  /**
   * The top score 6.5 is reached exactly by unsolved hard problems with a
   * weak tag.
   */
  lemma ScoreMaximum(p: Problem, weak: set<Pattern>, strong: set<Pattern>, now: Date)
    ensures Score(p, weak, strong, now) == 13 <==>
      HasTagIn(p, weak) && p.difficulty == Hard && !p.isSolved
  {
  }

  /**
   * The lowest score 0.5 is reached exactly by easy problems with a strong
   * and no weak tag that were solved recently or carry no date.
   */
  lemma ScoreMinimum(p: Problem, weak: set<Pattern>, strong: set<Pattern>, now: Date)
    ensures Score(p, weak, strong, now) == 1 <==>
      && !HasTagIn(p, weak)
      && HasTagIn(p, strong)
      && p.difficulty == Easy
      && p.isSolved
      && (p.dateSolved.None? || DaysBetween(p.dateSolved.value, now) < 7)
  {
  }

  /** The comparator of the ranking: higher score first. */
  function ByScoreDescending(weak: set<Pattern>, strong: set<Pattern>, now: Date): (Problem, Problem) -> bool {
    (a: Problem, b: Problem) => Score(a, weak, strong, now) > Score(b, weak, strong, now)
  }

  /** Ranking by descending score is a strict weak order. */
  lemma ScoreOrderStrictWeak(s: seq<Problem>, weak: set<Pattern>, strong: set<Pattern>, now: Date)
    ensures StrictWeakOn(ByScoreDescending(weak, strong, now), s)
  {
    var less := ByScoreDescending(weak, strong, now);
    assert forall a, b :: less(a, b) <==> Score(a, weak, strong, now) > Score(b, weak, strong, now);
  }

  /** The review score of a problem within its list. */
  function ScoreIn(problems: seq<Problem>, p: Problem, now: Date): int {
    Score(p, WeakSet(problems), StrongSet(problems), now)
  }

  /** The `n` best-scored problems, ties in list order. */
  function TopByScore(problems: seq<Problem>, weak: set<Pattern>, strong: set<Pattern>, now: Date, n: nat): seq<Problem> {
    Prefix(SortBy(problems, ByScoreDescending(weak, strong, now)), n)
  }

  /** `todaysRecommendations`: the five best-scored problems. */
  function TodaysRecommendations(problems: seq<Problem>, now: Date): seq<Problem> {
    TopByScore(problems, WeakSet(problems), StrongSet(problems), now, 5)
  }

  /** The top `n` are min(n, |problems|) problems taken from the list. */
  lemma TopByScoreTaken(problems: seq<Problem>, weak: set<Pattern>, strong: set<Pattern>, now: Date, n: nat)
    ensures |TopByScore(problems, weak, strong, now, n)| == Min(n, |problems|)
    ensures multiset(TopByScore(problems, weak, strong, now, n)) <= multiset(problems)
  {
    var sorted := SortBy(problems, ByScoreDescending(weak, strong, now));
    var r := TopByScore(problems, weak, strong, now, n);
    assert sorted == r + sorted[|r|..];
    assert multiset(sorted) == multiset(r) + multiset(sorted[|r|..]);
  }

  /** The top `n` come in non-increasing score. */
  lemma TopByScoreOrdered(problems: seq<Problem>, weak: set<Pattern>, strong: set<Pattern>, now: Date, n: nat)
    ensures forall i, j :: 0 <= i < j < |TopByScore(problems, weak, strong, now, n)| ==>
      Score(TopByScore(problems, weak, strong, now, n)[i], weak, strong, now) >=
      Score(TopByScore(problems, weak, strong, now, n)[j], weak, strong, now)
  {
    var less := ByScoreDescending(weak, strong, now);
    var sorted := SortBy(problems, less);
    var r := TopByScore(problems, weak, strong, now, n);
    ScoreOrderStrictWeak(problems, weak, strong, now);
    SortBySorted(problems, less);
    forall i, j | 0 <= i < j < |r|
      ensures Score(r[i], weak, strong, now) >= Score(r[j], weak, strong, now)
    {
      assert !less(sorted[j], sorted[i]);
    }
  }

  /** Every problem left out of the top `n` scores no higher than the last one taken. */
  lemma TopByScoreLeftOut(problems: seq<Problem>, weak: set<Pattern>, strong: set<Pattern>, now: Date, n: nat)
    ensures forall p :: p in multiset(problems) - multiset(TopByScore(problems, weak, strong, now, n)) && n > 0 ==>
      Score(p, weak, strong, now) <=
      Score(TopByScore(problems, weak, strong, now, n)[|TopByScore(problems, weak, strong, now, n)| - 1], weak, strong, now)
  {
    var less := ByScoreDescending(weak, strong, now);
    var sorted := SortBy(problems, less);
    var r := TopByScore(problems, weak, strong, now, n);
    if n > 0 && |problems| > 0 {
      ScoreOrderStrictWeak(problems, weak, strong, now);
      SortBySorted(problems, less);
      SortedRestNotBefore(sorted, less, |r|);
      assert r == sorted[..|r|];
    }
  }

  /** The problems whose review score is `v`. */
  function HasScore(weak: set<Pattern>, strong: set<Pattern>, now: Date, v: int): Problem -> bool {
    (p: Problem) => Score(p, weak, strong, now) == v
  }

  /**
   * Ties go by list order: of the problems with any one score, those taken
   * are the first ones in the list, so a left-out problem scoring the same
   * as a taken one comes later in the list.
   */
  lemma TopByScoreTiesInListOrder(problems: seq<Problem>, weak: set<Pattern>, strong: set<Pattern>, now: Date, n: nat, v: int)
    ensures Filter(TopByScore(problems, weak, strong, now, n), HasScore(weak, strong, now, v)) <=
            Filter(problems, HasScore(weak, strong, now, v))
  {
    var less := ByScoreDescending(weak, strong, now);
    var tied := HasScore(weak, strong, now, v);
    var sorted := SortBy(problems, less);
    var r := TopByScore(problems, weak, strong, now, n);
    assert forall a, b :: tied(a) && tied(b) ==> !less(a, b);
    SortByStable(problems, less, tied);
    FilterPrefix(sorted, |r|, tied);
  }

  /**
   * The recommendations are min(5, n) problems taken from the list, in
   * non-increasing review score, and every problem left out scores no
   * higher than the last one recommended; among equal scores the earlier
   * problems of the list are recommended.
   */
  lemma TodaysRecommendationsSpec(problems: seq<Problem>, now: Date)
    ensures |TodaysRecommendations(problems, now)| == Min(5, |problems|)
    ensures multiset(TodaysRecommendations(problems, now)) <= multiset(problems)
    ensures forall i, j :: 0 <= i < j < |TodaysRecommendations(problems, now)| ==>
      ScoreIn(problems, TodaysRecommendations(problems, now)[i], now) >= ScoreIn(problems, TodaysRecommendations(problems, now)[j], now)
    ensures forall p :: p in multiset(problems) - multiset(TodaysRecommendations(problems, now)) && |problems| > 0 ==>
      ScoreIn(problems, p, now) <= ScoreIn(problems, TodaysRecommendations(problems, now)[|TodaysRecommendations(problems, now)| - 1], now)
    ensures forall v :: Filter(TodaysRecommendations(problems, now), HasScore(WeakSet(problems), StrongSet(problems), now, v)) <=
                        Filter(problems, HasScore(WeakSet(problems), StrongSet(problems), now, v))
  {
    var weak, strong := WeakSet(problems), StrongSet(problems);
    TopByScoreTaken(problems, weak, strong, now, 5);
    TopByScoreOrdered(problems, weak, strong, now, 5);
    TopByScoreLeftOut(problems, weak, strong, now, 5);
    forall v ensures Filter(TodaysRecommendations(problems, now), HasScore(weak, strong, now, v)) <=
                     Filter(problems, HasScore(weak, strong, now, v)) {
      TopByScoreTiesInListOrder(problems, weak, strong, now, 5, v);
    }
  }

  /**
   * `reviewScore(for:)`'s accumulation: the pattern, difficulty and status
   * weights of `p` added up one after the other.
   */
  method AccumulateScore(p: Problem, weak: set<Pattern>, strong: set<Pattern>, now: Date) returns (score: int)
    ensures score == Score(p, weak, strong, now)
  {
    score := 0;

    if HasTagIn(p, weak) {
      score := score + 6;
    } else if HasTagIn(p, strong) {
      score := score + 0;
    } else {
      score := score + 2;
    }

    if p.difficulty == Easy {
      score := score + 1;
    } else if p.difficulty == Medium {
      score := score + 2;
    } else {
      score := score + 3;
    }

    if !p.isSolved {
      score := score + 4;
    } else if p.dateSolved.Some? {
      var daysSinceSolved := DaysBetween(p.dateSolved.value, now);
      if daysSinceSolved >= 14 {
        score := score + 3;
      } else if daysSinceSolved >= 7 {
        score := score + 2;
      }
    }
  }

  // ---------------------------------------------------------------------
  // The view model object

  /**
   * The loop of `currentStreak`: step back one day at a time from `today`
   * while the day is in `days`, counting the steps.
   */
  method WalkBack(days: set<int>, today: int) returns (streak: nat)
    ensures forall d :: today - streak < d <= today ==> d in days
    ensures today - streak !in days
    ensures streak <= |days|
  {
    streak := 0;
    var currentDay := today;
    while currentDay in days
      invariant currentDay == today - streak
      invariant forall d :: today - streak < d <= today ==> d in days
      invariant DaysBack(today, streak) <= days
      invariant streak <= |days|
      decreases |days| - streak
    {
      assert DaysBack(today, streak + 1) == DaysBack(today, streak) + {currentDay};
      SubsetSize(DaysBack(today, streak + 1), days);
      streak := streak + 1;
      currentDay := currentDay - 1;
    }
  }

  /**
   * Holds the list; `persisted` is what the store last saved. Every
   * assignment to `problems` is followed by a save of the whole list.
   */
  class ProblemListViewModel {
    var problems: seq<Problem>
    ghost var persisted: seq<Problem>

    /** The saved snapshot is the list in memory. */
    ghost predicate Valid()
      reads this
    {
      persisted == problems
    }

    /**
     * `init()`: loads what the store decodes, or the empty list when nothing
     * is stored or the stored data cannot be decoded, and saves it back.
     */
    constructor (stored: Option<seq<Problem>>)
      ensures Valid()
      ensures problems == stored.GetOr([])
    {
      problems := stored.GetOr([]);
      persisted := problems;
    }

    /** Assignment to `problems`; its `didSet` saves the new list. */
    method SetProblems(newProblems: seq<Problem>)
      modifies this
      ensures Valid()
      ensures problems == newProblems
    {
      problems := newProblems;
      persisted := problems;
    }

    /** `loadProblems()`. */
    method LoadProblems(stored: Option<seq<Problem>>)
      modifies this
      ensures Valid()
      ensures problems == stored.GetOr([])
    {
      SetProblems(stored.GetOr([]));
    }

    /** `problems.append(_:)`. */
    method Append(p: Problem)
      modifies this
      ensures Valid()
      ensures problems == old(problems) + [p]
    {
      SetProblems(problems + [p]);
    }

    /** `problems.remove(at:)`, returning the removed problem. */
    method RemoveAt(index: nat) returns (removed: Problem)
      requires index < |problems|
      modifies this
      ensures Valid()
      ensures removed == old(problems)[index]
      ensures problems == old(problems)[..index] + old(problems)[index + 1..]
    {
      removed := problems[index];
      SetProblems(problems[..index] + problems[index + 1..]);
    }

    /** A write through the binding `$problems[index]`. */
    method Replace(index: nat, p: Problem)
      requires index < |problems|
      modifies this
      ensures Valid()
      ensures problems == old(problems)[index := p]
    {
      SetProblems(problems[index := p]);
    }

    /**
     * `currentStreak`: the number of consecutive solved days ending today;
     * 0 when nothing was solved today.
     */
    method CurrentStreak(now: Date) returns (streak: nat)
      ensures forall d :: DayOf(now) - streak < d <= DayOf(now) ==> d in SolvedDays(problems)
      ensures DayOf(now) - streak !in SolvedDays(problems)
      ensures streak == 0 <==> DayOf(now) !in SolvedDays(problems)
      ensures streak <= |SolvedDays(problems)|
    {
      streak := WalkBack(SolvedDays(problems), DayOf(now));
    }

    /** `reviewScore(for:)`, against the current weak and strong patterns. */
    method ReviewScore(p: Problem, now: Date) returns (score: int)
      ensures score == ScoreIn(problems, p, now)
    {
      var weak := WeakSet(problems);
      var strong := StrongSet(problems);
      score := AccumulateScore(p, weak, strong, now);
    }
  }
}
