/**
 * The problem record and its two enumerations
 * (LeetCodeTracker/ProblemListView.swift:6-47), with the notions of time,
 * title order and solved state that the list and the analytics share.
 */
module Problems {
  import opened Wrappers
  import opened Patterns

  /** An instant, in seconds. */
  type Date = int

  /** `UUID`: an opaque identifier. */
  type Uuid = nat

  const SecondsPerDay: int := 86400

  datatype Difficulty = Easy | Medium | Hard

  /** The solved-state filter of the list. */
  datatype ProblemFilter = All | Solved | Unsolved

  datatype Problem = Problem(
    id: Uuid,
    title: string,
    difficulty: Difficulty,
    isSolved: bool,
    dateSolved: Option<Date>,
    notes: string,
    patterns: seq<Pattern>)

  /**
   * The day an instant falls in, numbered from the reference instant, with
   * days of fixed length: `startOfDay(for:)` up to a fixed factor.
   */
  function DayOf(t: Date): (day: int)
    ensures day * SecondsPerDay <= t < (day + 1) * SecondsPerDay
  {
    t / SecondsPerDay
  }

  /**
   * Whole days elapsed from `from` to `to`, truncated toward zero
   * (negative when `from` is later), as `dateComponents([.day], ...)`.
   */
  function DaysBetween(from: Date, to: Date): (n: int)
    ensures from <= to ==> 0 <= n && n * SecondsPerDay <= to - from < (n + 1) * SecondsPerDay
    ensures to < from ==> n <= 0 && -n * SecondsPerDay <= from - to < (-n + 1) * SecondsPerDay
  {
    if from <= to then (to - from) / SecondsPerDay else -((from - to) / SecondsPerDay)
  }

  /** `isSolved` and the presence of `dateSolved` agree. */
  predicate SolvedStateConsistent(p: Problem) {
    p.isSolved <==> p.dateSolved.Some?
  }

  /**
   * The problem the add form saves: the defaults of the record are
   * unsolved, no date.
   */
  function NewProblem(id: Uuid, title: string, difficulty: Difficulty, notes: string, patterns: seq<Pattern>): (p: Problem)
    ensures p.id == id && p.title == title && p.difficulty == difficulty
    ensures p.notes == notes && p.patterns == patterns
    ensures !p.isSolved && p.dateSolved == None
    ensures SolvedStateConsistent(p)
  {
    Problem(id, title, difficulty, false, None, notes, patterns)
  }

  /**
   * The solved toggle and the `onChange` that follows it: the date becomes
   * `now` when the toggle turns on and is cleared when it turns off.
   */
  function WithSolved(p: Problem, on: bool, now: Date): (q: Problem)
    ensures q.isSolved == on && SolvedStateConsistent(q)
    ensures on ==> q.dateSolved == Some(now)
    ensures q == p.(isSolved := q.isSolved, dateSolved := q.dateSolved)
  {
    p.(isSolved := on, dateSolved := if on then Some(now) else None)
  }

  /** String `<` on titles: lexicographic order of characters. */
  predicate TitleLess(a: string, b: string) {
    if |a| == 0 then |b| > 0
    else if |b| == 0 then false
    else if a[0] != b[0] then a[0] < b[0]
    else TitleLess(a[1..], b[1..])
  }

  lemma {:induction false} TitleLessAsymmetric(a: string, b: string)
    ensures TitleLess(a, b) ==> !TitleLess(b, a)
  {
    if |a| > 0 && |b| > 0 && a[0] == b[0] {
      TitleLessAsymmetric(a[1..], b[1..]);
    }
  }

  lemma {:induction false} TitleLessTransitive(a: string, b: string, c: string)
    requires TitleLess(a, b) && TitleLess(b, c)
    ensures TitleLess(a, c)
  {
    if |a| > 0 && |b| > 0 && |c| > 0 && a[0] == b[0] && b[0] == c[0] {
      TitleLessTransitive(a[1..], b[1..], c[1..]);
    }
  }

  lemma {:induction false} TitleLessTotal(a: string, b: string)
    ensures a == b || TitleLess(a, b) || TitleLess(b, a)
  {
    if |a| > 0 && |b| > 0 && a[0] == b[0] {
      TitleLessTotal(a[1..], b[1..]);
      if a[1..] == b[1..] {
        assert a == [a[0]] + a[1..] && b == [b[0]] + b[1..];
      }
    }
  }
}
