/**
 * The problem list screen (LeetCodeTracker/ProblemListView.swift): the
 * filter-and-sort pipeline, the mapping of displayed rows back to list
 * positions, swipe-to-delete and the solved toggle.
 */
module ProblemList {
  import opened Wrappers
  import opened Collections
  import opened Patterns
  import opened Problems
  import opened ViewModel

  /** The screen's filter state: status, search text, difficulty, pattern. */
  datatype FilterConfig = FilterConfig(
    status: ProblemFilter,
    searchText: string,
    difficulty: Option<Difficulty>,
    pattern: Option<Pattern>)

  /** No filter set: every problem is shown. */
  const NoFilters: FilterConfig := FilterConfig(All, [], None, None)

  // ---------------------------------------------------------------------
  // Title search

  /** Case folding, restricted to ASCII letters. */
  function FoldCase(c: char): char {
    if 'A' <= c <= 'Z' then (c as int + 32) as char else c
  }

  function FoldAll(s: string): (r: string)
    ensures |r| == |s|
    ensures forall i :: 0 <= i < |s| ==> r[i] == FoldCase(s[i])
  {
    if s == [] then [] else [FoldCase(s[0])] + FoldAll(s[1..])
  }

  /** `title.localizedCaseInsensitiveContains(query)`, ASCII case folding only. */
  predicate ContainsIgnoringCase(title: string, query: string)
    decreases |title|
  {
    (|query| <= |title| && FoldAll(title[..|query|]) == FoldAll(query))
    || (|title| > 0 && ContainsIgnoringCase(title[1..], query))
  }

  /** The query occurs in the title at position `i`, ignoring case. */
  predicate OccursAt(title: string, query: string, i: int) {
    0 <= i && i + |query| <= |title| && FoldAll(title[i..i + |query|]) == FoldAll(query)
  }

  /** The query occurs in the title at some position, ignoring case. */
  lemma {:induction false} ContainsIgnoringCaseSpec(title: string, query: string)
    ensures ContainsIgnoringCase(title, query) <==> exists i :: OccursAt(title, query, i)
  {
    if |query| <= |title| && FoldAll(title[..|query|]) == FoldAll(query) {
      assert title[0..0 + |query|] == title[..|query|];
      assert OccursAt(title, query, 0);
    }
    if |title| > 0 {
      ContainsIgnoringCaseSpec(title[1..], query);
      if exists i :: OccursAt(title, query, i) {
        var i :| OccursAt(title, query, i);
        if i > 0 {
          assert title[1..][i - 1..i - 1 + |query|] == title[i..i + |query|];
          assert OccursAt(title[1..], query, i - 1);
        } else {
          assert title[..|query|] == title[i..i + |query|];
        }
      }
      if exists i :: OccursAt(title[1..], query, i) {
        var i :| OccursAt(title[1..], query, i);
        assert title[1..][i..i + |query|] == title[i + 1..i + 1 + |query|];
        assert OccursAt(title, query, i + 1);
      }
    } else if exists i :: OccursAt(title, query, i) {
      var i :| OccursAt(title, query, i);
      assert title[..|query|] == title[i..i + |query|];
    }
  }

  // ---------------------------------------------------------------------
  // The four filters

  predicate MatchesStatus(p: Problem, status: ProblemFilter) {
    match status
    case All => true
    case Solved => p.isSolved
    case Unsolved => !p.isSolved
  }

  /** An empty search text matches every title. */
  predicate MatchesSearch(p: Problem, searchText: string) {
    searchText == [] || ContainsIgnoringCase(p.title, searchText)
  }

  predicate MatchesDifficulty(p: Problem, difficulty: Option<Difficulty>) {
    difficulty.None? || p.difficulty == difficulty.value
  }

  predicate MatchesPattern(p: Problem, pattern: Option<Pattern>) {
    pattern.None? || pattern.value in p.patterns
  }

  /** A problem is shown when it passes all four filters. */
  predicate Passes(p: Problem, cfg: FilterConfig) {
    && MatchesStatus(p, cfg.status)
    && MatchesSearch(p, cfg.searchText)
    && MatchesDifficulty(p, cfg.difficulty)
    && MatchesPattern(p, cfg.pattern)
  }

  /** The status step: `.all` keeps everything, the others filter on `isSolved`. */
  function ByStatus(problems: seq<Problem>, status: ProblemFilter): (r: seq<Problem>)
    ensures forall p :: multiset(r)[p] == if MatchesStatus(p, status) then multiset(problems)[p] else 0
  {
    match status
    case All => problems
    case Solved => Filter(problems, (p: Problem) => p.isSolved)
    case Unsolved => Filter(problems, (p: Problem) => !p.isSolved)
  }

  /** The search step, skipped when the text is empty. */
  function BySearch(problems: seq<Problem>, searchText: string): (r: seq<Problem>)
    ensures forall p :: multiset(r)[p] == if MatchesSearch(p, searchText) then multiset(problems)[p] else 0
  {
    if searchText == [] then problems
    else Filter(problems, (p: Problem) => ContainsIgnoringCase(p.title, searchText))
  }

  /** The difficulty step, skipped when no difficulty is selected. */
  function ByDifficulty(problems: seq<Problem>, difficulty: Option<Difficulty>): (r: seq<Problem>)
    ensures forall p :: multiset(r)[p] == if MatchesDifficulty(p, difficulty) then multiset(problems)[p] else 0
  {
    if difficulty.None? then problems
    else Filter(problems, (p: Problem) => p.difficulty == difficulty.value)
  }

  /** The pattern step, skipped when no pattern is selected. */
  function ByPattern(problems: seq<Problem>, pattern: Option<Pattern>): (r: seq<Problem>)
    ensures forall p :: multiset(r)[p] == if MatchesPattern(p, pattern) then multiset(problems)[p] else 0
  {
    if pattern.None? then problems
    else Filter(problems, (p: Problem) => pattern.value in p.patterns)
  }

  /** The filter chain of `filteredAndSortedProblems`, in its order. */
  function Filtered(problems: seq<Problem>, cfg: FilterConfig): (r: seq<Problem>)
    ensures forall p :: multiset(r)[p] == if Passes(p, cfg) then multiset(problems)[p] else 0
  {
    ByPattern(ByDifficulty(BySearch(ByStatus(problems, cfg.status), cfg.searchText), cfg.difficulty), cfg.pattern)
  }

  // ---------------------------------------------------------------------
  // The order of the list

  /**
   * The comparator: unsolved before solved; between two dated problems the
   * later date first; otherwise ascending title.
   */
  predicate Before(a: Problem, b: Problem) {
    if a.isSolved != b.isSolved then !a.isSolved
    else if a.dateSolved.Some? && b.dateSolved.Some? then a.dateSolved.value > b.dateSolved.value
    else TitleLess(a.title, b.title)
  }

  /**
   * `filteredAndSortedProblems`: every problem that passes the four
   * filters, as many times as it occurs, and nothing else.
   */
  function FilteredAndSorted(problems: seq<Problem>, cfg: FilterConfig): (shown: seq<Problem>)
    ensures forall p :: multiset(shown)[p] == if Passes(p, cfg) then multiset(problems)[p] else 0
  {
    SortBy(Filtered(problems, cfg), Before)
  }

  /** Every displayed problem is in the list. */
  lemma ShownComeFromList(problems: seq<Problem>, cfg: FilterConfig)
    ensures forall p :: p in FilteredAndSorted(problems, cfg) ==> p in problems && Passes(p, cfg)
  {
    var shown := FilteredAndSorted(problems, cfg);
    forall p | p in shown ensures p in problems && Passes(p, cfg) {
      assert p in multiset(shown);
    }
  }

  /** With no filter set the pipeline shows every problem, only reordered. */
  lemma NoFiltersKeepEverything(problems: seq<Problem>)
    ensures Filtered(problems, NoFilters) == problems
    ensures multiset(FilteredAndSorted(problems, NoFilters)) == multiset(problems)
  {
  }

  /**
   * Under the same other filters, no problem is shown both in the
   * `.solved` view and in the `.unsolved` view.
   */
  lemma SolvedAndUnsolvedViewsDisjoint(problems: seq<Problem>, searchText: string, difficulty: Option<Difficulty>, pattern: Option<Pattern>)
    ensures forall p ::
              multiset(FilteredAndSorted(problems, FilterConfig(Solved, searchText, difficulty, pattern)))[p] == 0 ||
              multiset(FilteredAndSorted(problems, FilterConfig(Unsolved, searchText, difficulty, pattern)))[p] == 0
  {
    var solved := FilterConfig(Solved, searchText, difficulty, pattern);
    var unsolved := FilterConfig(Unsolved, searchText, difficulty, pattern);
    forall p ensures multiset(FilteredAndSorted(problems, solved))[p] == 0 || multiset(FilteredAndSorted(problems, unsolved))[p] == 0 {
      if p.isSolved {
        assert !Passes(p, unsolved);
      } else {
        assert !Passes(p, solved);
      }
    }
  }

  /**
   * Under the same other filters, the `.solved` and `.unsolved` views
   * together hold each problem of the `.all` view as often as it does.
   */
  lemma SolvedAndUnsolvedViewsCoverAll(problems: seq<Problem>, searchText: string, difficulty: Option<Difficulty>, pattern: Option<Pattern>)
    ensures forall p ::
              multiset(FilteredAndSorted(problems, FilterConfig(Solved, searchText, difficulty, pattern)))[p]
              + multiset(FilteredAndSorted(problems, FilterConfig(Unsolved, searchText, difficulty, pattern)))[p]
              == multiset(FilteredAndSorted(problems, FilterConfig(All, searchText, difficulty, pattern)))[p]
  {
  }

  lemma BeforeNegativelyTransitive(a: Problem, b: Problem, c: Problem)
    requires SolvedStateConsistent(a) && SolvedStateConsistent(b) && SolvedStateConsistent(c)
    requires !Before(a, b) && !Before(b, c)
    ensures !Before(a, c)
  {
    if a.isSolved == b.isSolved == c.isSolved && !a.isSolved {
      TitleLessTotal(a.title, b.title);
      TitleLessTotal(b.title, c.title);
      if TitleLess(a.title, c.title) {
        if TitleLess(b.title, a.title) {
          TitleLessTransitive(b.title, a.title, c.title);
        }
        if TitleLess(c.title, b.title) {
          TitleLessTransitive(a.title, c.title, b.title);
        }
        TitleLessAsymmetric(a.title, c.title);
      }
    }
  }

  /**
   * When solved state and date agree on every problem, the comparator is a
   * strict weak order on them, so the sort is well defined.
   */
  lemma BeforeStrictWeak(s: seq<Problem>)
    requires forall p :: p in s ==> SolvedStateConsistent(p)
    ensures StrictWeakOn(Before, s)
  {
    forall a, b | a in s && b in s && Before(a, b)
      ensures !Before(b, a)
    {
      TitleLessAsymmetric(a.title, b.title);
    }
    forall a, b, c | a in s && b in s && c in s && !Before(a, b) && !Before(b, c)
      ensures !Before(a, c)
    {
      BeforeNegativelyTransitive(a, b, c);
    }
  }

  /** No solved problem precedes an unsolved one. */
  ghost predicate UnsolvedFirst(s: seq<Problem>) {
    forall i, j :: 0 <= i < j < |s| ==> !(s[i].isSolved && !s[j].isSolved)
  }

  lemma {:induction false} InsertKeepsUnsolvedFirst(x: Problem, s: seq<Problem>)
    requires UnsolvedFirst(s)
    ensures UnsolvedFirst(Insert(x, s, Before))
  {
    if s != [] && Before(s[0], x) {
      InsertKeepsUnsolvedFirst(x, s[1..]);
      var r := Insert(x, s[1..], Before);
      if s[0].isSolved {
        forall y | y in r ensures y.isSolved {
          assert y in multiset(r);
          if y != x {
            var k :| 0 <= k < |s[1..]| && s[1..][k] == y;
            assert s[k + 1] == y;
          }
        }
      }
    } else if s != [] && x.isSolved {
      assert s[0].isSolved;
    }
  }

  lemma {:induction false} SortKeepsUnsolvedFirst(s: seq<Problem>)
    ensures UnsolvedFirst(SortBy(s, Before))
  {
    if s != [] {
      SortKeepsUnsolvedFirst(s[1..]);
      InsertKeepsUnsolvedFirst(s[0], SortBy(s[1..], Before));
    }
  }

  /**
   * The order of the displayed list: every unsolved problem precedes every
   * solved one, whatever the data. When solved state and date agree, solved
   * problems come latest date first and unsolved ones in ascending title.
   */
  lemma DisplayedOrder(problems: seq<Problem>, cfg: FilterConfig)
    ensures forall i, j :: 0 <= i < j < |FilteredAndSorted(problems, cfg)| ==>
      !(FilteredAndSorted(problems, cfg)[i].isSolved && !FilteredAndSorted(problems, cfg)[j].isSolved)
    ensures (forall p :: p in problems ==> SolvedStateConsistent(p)) ==>
      forall i, j :: 0 <= i < j < |FilteredAndSorted(problems, cfg)| ==>
        var a, b := FilteredAndSorted(problems, cfg)[i], FilteredAndSorted(problems, cfg)[j];
        && (a.dateSolved.Some? && b.dateSolved.Some? ==> a.dateSolved.value >= b.dateSolved.value)
        && (!a.isSolved && !b.isSolved ==> !TitleLess(b.title, a.title))
  {
    SortKeepsUnsolvedFirst(Filtered(problems, cfg));
    if forall p :: p in problems ==> SolvedStateConsistent(p) {
      ShownSorted(problems, cfg);
      var r := FilteredAndSorted(problems, cfg);
      forall i, j | 0 <= i < j < |r|
        ensures r[i].dateSolved.Some? && r[j].dateSolved.Some? ==> r[i].dateSolved.value >= r[j].dateSolved.value
        ensures !r[i].isSolved && !r[j].isSolved ==> !TitleLess(r[j].title, r[i].title)
      {
        assert multiset(r)[r[i]] > 0 && multiset(r)[r[j]] > 0;
        assert r[i] in multiset(problems) && r[j] in multiset(problems);
        assert r[i] in problems && r[j] in problems;
        assert !Before(r[j], r[i]);
      }
    }
  }

  /** When solved state and date agree on every problem, the display is sorted by the comparator. */
  lemma ShownSorted(problems: seq<Problem>, cfg: FilterConfig)
    requires forall p :: p in problems ==> SolvedStateConsistent(p)
    ensures Sorted(FilteredAndSorted(problems, cfg), Before)
  {
    var f := Filtered(problems, cfg);
    forall p | p in f ensures SolvedStateConsistent(p) {
      assert multiset(f)[p] > 0;
      assert p in multiset(problems);
    }
    BeforeStrictWeak(f);
    SortBySorted(f, Before);
  }

  /** Equal solve dates are tied both ways; the title does not break the tie. */
  lemma EqualDatesAreTied(a: Problem, b: Problem)
    requires a.isSolved == b.isSolved
    requires a.dateSolved.Some? && a.dateSolved == b.dateSolved
    requires a.title != b.title
    ensures !Before(a, b) && !Before(b, a)
  {
  }

  /**
   * When a problem is marked solved without a date, the comparator is not
   * even transitive: three solved problems can each precede the next in a
   * cycle.
   */
  lemma MalformedProblemsBreakTheOrder()
    ensures
      var a := Problem(0, "a", Easy, true, Some(1), "", []);
      var b := Problem(1, "b", Easy, true, None, "", []);
      var c := Problem(2, "c", Easy, true, Some(2), "", []);
      Before(a, b) && Before(b, c) && Before(c, a) && !SolvedStateConsistent(b)
  {
    assert TitleLess("a", "b") && TitleLess("b", "c");
  }

  // ---------------------------------------------------------------------
  // Rows and list positions

  /** The solved problems dated `d`. */
  function SolvedAt(d: Date): Problem -> bool {
    (p: Problem) => p.isSolved && p.dateSolved == Some(d)
  }

  /**
   * Solved problems with the same date are not reordered by title: the
   * display keeps them in the order of the list.
   */
  lemma EqualDatesKeepListOrder(problems: seq<Problem>, cfg: FilterConfig, d: Date)
    ensures Filter(FilteredAndSorted(problems, cfg), SolvedAt(d)) == Filter(Filtered(problems, cfg), SolvedAt(d))
  {
    var tied := SolvedAt(d);
    assert forall a, b :: tied(a) && tied(b) ==> !Before(a, b);
    SortByStable(Filtered(problems, cfg), Before, tied);
  }

  /** `firstIndex(where: { $0.id == id })`. */
  function FirstIndexById(s: seq<Problem>, id: Uuid): (r: Option<nat>)
    ensures r.Some? ==> r.value < |s| && s[r.value].id == id
    ensures r.Some? ==> forall j :: 0 <= j < r.value ==> s[j].id != id
    ensures r.None? ==> forall j :: 0 <= j < |s| ==> s[j].id != id
  {
    if s == [] then None
    else if s[0].id == id then Some(0)
    else match FirstIndexById(s[1..], id)
      case Some(k) => Some(k + 1)
      case None => None
  }

  /** `rows.compactMap { row in problems.firstIndex(where: ...) }`. */
  function IndicesOf(problems: seq<Problem>, rows: seq<Problem>): (r: seq<nat>)
    ensures |r| <= |rows|
    ensures forall k :: 0 <= k < |r| ==> r[k] < |problems|
  {
    if rows == [] then []
    else match FirstIndexById(problems, rows[0].id)
      case Some(k) => [k] + IndicesOf(problems, rows[1..])
      case None => IndicesOf(problems, rows[1..])
  }

  /** `filteredSortedIndices`. */
  function FilteredSortedIndices(problems: seq<Problem>, cfg: FilterConfig): seq<nat> {
    IndicesOf(problems, FilteredAndSorted(problems, cfg))
  }

  /** No two problems share an id. */
  predicate UniqueIds(s: seq<Problem>) {
    forall i, j :: 0 <= i < j < |s| ==> s[i].id != s[j].id
  }

  /**
   * When ids are unique and every row comes from the list, each row maps to
   * the position of that very problem.
   */
  lemma {:induction false} IndicesOfSpec(problems: seq<Problem>, rows: seq<Problem>)
    requires UniqueIds(problems)
    requires forall r :: r in rows ==> r in problems
    ensures |IndicesOf(problems, rows)| == |rows|
    ensures forall k :: 0 <= k < |rows| ==> problems[IndicesOf(problems, rows)[k]] == rows[k]
  {
    if rows != [] {
      IndicesOfSpec(problems, rows[1..]);
      assert rows[0] in problems;
      var i :| 0 <= i < |problems| && problems[i] == rows[0];
      var first := FirstIndexById(problems, rows[0].id);
      assert first.Some?;
      assert first.value == i;
    }
  }

  /** Rows that are the list itself map to positions 0, 1, 2, ... */
  lemma IndicesOfList(problems: seq<Problem>)
    requires UniqueIds(problems)
    ensures |IndicesOf(problems, problems)| == |problems|
    ensures forall k :: 0 <= k < |problems| ==> IndicesOf(problems, problems)[k] == k
  {
    IndicesOfSpec(problems, problems);
    forall k | 0 <= k < |problems| ensures IndicesOf(problems, problems)[k] == k {
      var i := IndicesOf(problems, problems)[k];
      assert problems[i].id == problems[k].id;
    }
  }

  /** Each displayed row maps to the list position of the problem it shows. */
  lemma FilteredSortedIndicesSpec(problems: seq<Problem>, cfg: FilterConfig)
    requires UniqueIds(problems)
    ensures |FilteredSortedIndices(problems, cfg)| == |FilteredAndSorted(problems, cfg)|
    ensures forall k :: 0 <= k < |FilteredAndSorted(problems, cfg)| ==>
      problems[FilteredSortedIndices(problems, cfg)[k]] == FilteredAndSorted(problems, cfg)[k]
  {
    var rows := FilteredAndSorted(problems, cfg);
    ShownComeFromList(problems, cfg);
    forall r | r in rows ensures r in problems {
      assert r in multiset(rows);
    }
    IndicesOfSpec(problems, rows);
  }

  // ---------------------------------------------------------------------
  // Deleting rows

  /**
   * One pass of the `onDelete` loop: map the row through the indices as
   * they are now and remove that position; `None` when the row is past
   * the end of the indices, where the subscript traps.
   */
  function DeleteRow(problems: seq<Problem>, cfg: FilterConfig, row: nat): Option<seq<Problem>> {
    var indices := FilteredSortedIndices(problems, cfg);
    if row < |indices| then
      var k := indices[row];
      Some(problems[..k] + problems[k + 1..])
    else None
  }

  /** The `onDelete` loop as written: the indices are recomputed after each removal. */
  function DeleteRowsAsWritten(problems: seq<Problem>, cfg: FilterConfig, rows: seq<nat>): Option<seq<Problem>> {
    if rows == [] then Some(problems)
    else match DeleteRow(problems, cfg, rows[0])
      case None => None
      case Some(next) => DeleteRowsAsWritten(next, cfg, rows[1..])
  }

  /** One pass of the delete loop, as a step function on the list. */
  function RowStep(cfg: FilterConfig): (seq<Problem>, nat) -> Option<seq<Problem>> {
    (problems: seq<Problem>, row: nat) => DeleteRow(problems, cfg, row)
  }

  /** The delete loop as written is the rows applied one after the other by `RowStep`. */
  lemma {:induction false} DeleteRowsAsApplied(problems: seq<Problem>, cfg: FilterConfig, rows: seq<nat>)
    ensures DeleteRowsAsWritten(problems, cfg, rows) == ApplyInTurn(problems, rows, RowStep(cfg))
  {
    if rows != [] {
      assert RowStep(cfg)(problems, rows[0]) == DeleteRow(problems, cfg, rows[0]);
      match DeleteRow(problems, cfg, rows[0])
      case None =>
      case Some(next) =>
        DeleteRowsThen(problems, cfg, rows, next);
        DeleteRowsAsApplied(next, cfg, rows[1..]);
    }
  }

  /** The rows deleted so far, followed by one more row: that row is resolved against what they left. */
  lemma DeleteRowsSnoc(problems: seq<Problem>, cfg: FilterConfig, done: seq<nat>, row: nat, left: seq<Problem>)
    requires DeleteRowsAsWritten(problems, cfg, done) == Some(left)
    ensures DeleteRowsAsWritten(problems, cfg, done + [row]) == DeleteRow(left, cfg, row)
  {
    DeleteRowsAsApplied(problems, cfg, done);
    DeleteRowsAsApplied(problems, cfg, done + [row]);
    ApplyInTurnSnoc(problems, done, row, RowStep(cfg), left);
    assert RowStep(cfg)(left, row) == DeleteRow(left, cfg, row);
  }

  /** The first `i + 1` rows: row `rows[i]` resolved against what the first `i` left. */
  lemma DeleteRowsPrefixStep(problems: seq<Problem>, cfg: FilterConfig, rows: seq<nat>, i: nat, left: seq<Problem>)
    requires i < |rows| && DeleteRowsAsWritten(problems, cfg, rows[..i]) == Some(left)
    ensures DeleteRowsAsWritten(problems, cfg, rows[..i + 1]) == DeleteRow(left, cfg, rows[i])
  {
    DeleteRowsSnoc(problems, cfg, rows[..i], rows[i], left);
    PrefixSnoc(rows, i);
  }

  lemma PrefixSnoc<T>(s: seq<T>, i: nat)
    requires i < |s|
    ensures s[..i] + [s[i]] == s[..i + 1]
  {
  }

  /** One step of the delete loop: resolve row `rows[i]`, then go on with the rows after it. */
  lemma DeleteRowsStep(problems: seq<Problem>, cfg: FilterConfig, rows: seq<nat>, i: nat)
    requires i < |rows|
    ensures DeleteRowsAsWritten(problems, cfg, rows[i..]) ==
      if rows[i] < |FilteredSortedIndices(problems, cfg)| then
        var k := FilteredSortedIndices(problems, cfg)[rows[i]];
        DeleteRowsAsWritten(problems[..k] + problems[k + 1..], cfg, rows[i + 1..])
      else None
  {
    assert rows[i..][0] == rows[i] && rows[i..][1..] == rows[i + 1..];
  }

  /**
   * Deleting one displayed row removes exactly the problem shown in it and
   * keeps the others in their order.
   */
  lemma DeleteRowRemovesThatProblem(problems: seq<Problem>, cfg: FilterConfig, row: nat)
    requires UniqueIds(problems)
    requires row < |FilteredAndSorted(problems, cfg)|
    ensures DeleteRow(problems, cfg, row).Some?
    ensures exists k :: 0 <= k < |problems| && problems[k] == FilteredAndSorted(problems, cfg)[row] &&
                        DeleteRow(problems, cfg, row).value == problems[..k] + problems[k + 1..]
    ensures multiset(DeleteRow(problems, cfg, row).value) ==
      multiset(problems) - multiset{FilteredAndSorted(problems, cfg)[row]}
  {
    FilteredSortedIndicesSpec(problems, cfg);
    var k := FilteredSortedIndices(problems, cfg)[row];
    assert problems[k] == FilteredAndSorted(problems, cfg)[row];
    RemovingPosition(problems, k);
  }

  lemma RemovingPosition(s: seq<Problem>, k: nat)
    requires k < |s|
    ensures multiset(s[..k] + s[k + 1..]) == multiset(s) - multiset{s[k]}
  {
    assert s == s[..k] + [s[k]] + s[k + 1..];
  }

  /**
   * Unsolved, undated problems with distinct ids, already in ascending
   * title order: with no filter, the screen shows them as they are listed.
   */
  predicate ListedInOrder(s: seq<Problem>) {
    && UniqueIds(s)
    && (forall i :: 0 <= i < |s| ==> !s[i].isSolved && s[i].dateSolved.None?)
    && (forall i :: 0 < i < |s| ==> TitleLess(s[i - 1].title, s[i].title))
  }

  /** Such problems are displayed as they are listed. */
  lemma DisplayedAsListed(s: seq<Problem>)
    requires ListedInOrder(s)
    ensures FilteredAndSorted(s, NoFilters) == s
  {
    forall i | 0 < i < |s| ensures !Before(s[i], s[i - 1]) {
      TitleLessAsymmetric(s[i - 1].title, s[i].title);
    }
    SortByKeepsOrdered(s, Before);
  }

  /** ... so row `k` maps back to position `k`, and deleting it removes the `k`-th problem. */
  lemma ListedRow(s: seq<Problem>, k: nat)
    requires ListedInOrder(s) && k < |s|
    ensures DeleteRow(s, NoFilters, k) == Some(s[..k] + s[k + 1..])
  {
    DisplayedAsListed(s);
    IndicesOfList(s);
  }

  /** ... and a row past the last problem is past the end of the indices. */
  lemma ListedRowPastEnd(s: seq<Problem>, k: nat)
    requires ListedInOrder(s) && |s| <= k
    ensures DeleteRow(s, NoFilters, k) == None
  {
    DisplayedAsListed(s);
    IndicesOfList(s);
  }

  /**
   * Deleting the displayed rows 0 and 1 of three or more problems listed in
   * order (say "a", "b", "c") removes the first and the third: after the
   * first removal the rows are renumbered and row 1 shows the third.
   */
  lemma MultiRowDeleteRemovesWrongProblem(s: seq<Problem>)
    requires ListedInOrder(s) && 3 <= |s|
    ensures FilteredAndSorted(s, NoFilters) == s
    ensures DeleteRowsAsWritten(s, NoFilters, [0, 1]) == Some([s[1]] + s[3..])
  {
    DisplayedAsListed(s);
    FirstRowOfListed(s);
    DeleteRowsThen(s, NoFilters, [0, 1], s[1..]);
    assert [0, 1][1..] == [1];
    SecondRowOfListed(s[1..]);
    DropSecondOfTail(s);
  }

  lemma DropSecondOfTail<T>(s: seq<T>)
    requires 3 <= |s|
    ensures s[1..][..1] + s[1..][2..] == [s[1]] + s[3..]
  {
    assert s[1..][..1] == [s[1]];
    assert s[1..][2..] == s[3..];
  }

  /** A first row that resolves leaves the rest of the rows to the list it leaves behind. */
  lemma DeleteRowsThen(problems: seq<Problem>, cfg: FilterConfig, rows: seq<nat>, next: seq<Problem>)
    requires rows != [] && DeleteRow(problems, cfg, rows[0]) == Some(next)
    ensures DeleteRowsAsWritten(problems, cfg, rows) == DeleteRowsAsWritten(next, cfg, rows[1..])
  {
  }

  /** Dropping the first problem keeps the rest listed in order. */
  lemma ListedTail(s: seq<Problem>)
    requires ListedInOrder(s) && s != []
    ensures ListedInOrder(s[1..])
  {
    forall i, j | 0 <= i < j < |s[1..]| ensures s[1..][i].id != s[1..][j].id {
      assert s[1..][i] == s[i + 1] && s[1..][j] == s[j + 1];
    }
  }

  /** Deleting row 0 of problems listed in order removes the first; the rest stay listed in order. */
  lemma FirstRowOfListed(s: seq<Problem>)
    requires ListedInOrder(s) && s != []
    ensures DeleteRow(s, NoFilters, 0) == Some(s[1..])
    ensures ListedInOrder(s[1..])
  {
    FirstRowRemoved(s);
    ListedTail(s);
  }

  lemma FirstRowRemoved(s: seq<Problem>)
    requires ListedInOrder(s) && s != []
    ensures DeleteRow(s, NoFilters, 0) == Some(s[1..])
  {
    ListedRow(s, 0);
    DropHead(s);
  }

  lemma DropHead<T>(s: seq<T>)
    requires s != []
    ensures s[..0] + s[0 + 1..] == s[1..]
  {
  }

  /** Deleting only row 1 of two or more problems listed in order removes the second. */
  lemma SecondRowOfListed(s: seq<Problem>)
    requires ListedInOrder(s) && 2 <= |s|
    ensures DeleteRowsAsWritten(s, NoFilters, [1]) == Some(s[..1] + s[2..])
  {
    ListedRow(s, 1);
    DeleteOneRow(s, NoFilters, 1, s[..1] + s[2..]);
  }

  /** Deleting a single row that resolves is that one removal. */
  lemma DeleteOneRow(problems: seq<Problem>, cfg: FilterConfig, row: nat, next: seq<Problem>)
    requires DeleteRow(problems, cfg, row) == Some(next)
    ensures DeleteRowsAsWritten(problems, cfg, [row]) == Some(next)
  {
    DeleteRowsThen(problems, cfg, [row], next);
    assert [row][1..] == [];
  }

  /**
   * With exactly two problems displayed (say "a", "b"), deleting rows 0
   * and 1 traps: after the first removal there is no row 1.
   */
  lemma MultiRowDeleteTraps(s: seq<Problem>)
    requires ListedInOrder(s) && |s| == 2
    ensures DeleteRowsAsWritten(s, NoFilters, [0, 1]) == None
  {
    FirstRowOfListed(s);
    ListedRowPastEnd(s[1..], 1);
    assert [0, 1][1..] == [1];
  }

  /** The problem is shown in one of the selected rows. */
  predicate ShownInRows(p: Problem, displayed: seq<Problem>, rows: seq<nat>) {
    exists k :: k in rows && k < |displayed| && displayed[k].id == p.id
  }

  /**
   * Removes every problem whose id is shown in one of the selected rows of
   * `displayed`; the others stay, as often as they occur and in their order.
   */
  function RemoveShown(problems: seq<Problem>, displayed: seq<Problem>, rows: seq<nat>): (r: seq<Problem>)
    ensures forall p :: multiset(r)[p] == if ShownInRows(p, displayed, rows) then 0 else multiset(problems)[p]
    ensures forall k :: k in rows && k < |displayed| ==> displayed[k] !in r
  {
    if problems == [] then []
    else
      assert problems == [problems[0]] + problems[1..];
      var rest := RemoveShown(problems[1..], displayed, rows);
      if ShownInRows(problems[0], displayed, rows) then rest else [problems[0]] + rest
  }

  /**
   * Deleting several rows with the rows resolved against one snapshot of the
   * displayed list: the ids are read first, then the problems removed.
   */
  function DeleteRowsBySnapshot(problems: seq<Problem>, cfg: FilterConfig, rows: seq<nat>): seq<Problem> {
    RemoveShown(problems, FilteredAndSorted(problems, cfg), rows)
  }

  /** Deleting rows 0 and 1 of problems listed in order, by snapshot, removes the first two. */
  lemma MultiRowDeleteBySnapshot(s: seq<Problem>)
    requires ListedInOrder(s) && 2 <= |s|
    ensures DeleteRowsBySnapshot(s, NoFilters, [0, 1]) == s[2..]
  {
    DisplayedAsListed(s);
    RemoveFirstTwoShown(s);
  }

  /** With the list itself displayed, the problems in rows 0 and 1 go and the rest stay. */
  lemma RemoveFirstTwoShown(s: seq<Problem>)
    requires 2 <= |s| && UniqueIds(s)
    ensures RemoveShown(s, s, [0, 1]) == s[2..]
  {
    forall i | 0 <= i < |s[2..]| ensures !ShownInRows(s[2..][i], s, [0, 1]) {
      assert s[2..][i] == s[i + 2];
    }
    RemoveShownNone(s[2..], s, [0, 1]);
    assert ShownInRows(s[0], s, [0, 1]) && ShownInRows(s[1], s, [0, 1]);
    assert s[1..][1..] == s[2..];
  }

  /** When no problem is shown in the selected rows, nothing is removed. */
  lemma {:induction false} RemoveShownNone(s: seq<Problem>, displayed: seq<Problem>, rows: seq<nat>)
    requires forall i :: 0 <= i < |s| ==> !ShownInRows(s[i], displayed, rows)
    ensures RemoveShown(s, displayed, rows) == s
  {
    if s != [] {
      RemoveShownNone(s[1..], displayed, rows);
      assert !ShownInRows(s[0], displayed, rows);
    }
  }

  /** When exactly the problem at position `k` is shown, only that position goes. */
  lemma {:induction false} RemoveShownOne(s: seq<Problem>, displayed: seq<Problem>, rows: seq<nat>, k: nat)
    requires k < |s| && ShownInRows(s[k], displayed, rows)
    requires forall i :: 0 <= i < |s| && i != k ==> !ShownInRows(s[i], displayed, rows)
    ensures RemoveShown(s, displayed, rows) == s[..k] + s[k + 1..]
  {
    if k == 0 {
      RemoveShownNone(s[1..], displayed, rows);
    } else {
      assert !ShownInRows(s[0], displayed, rows);
      RemoveShownOne(s[1..], displayed, rows, k - 1);
      SpliceAfterHead(s, k);
    }
  }

  lemma SpliceAfterHead<T>(s: seq<T>, k: nat)
    requires 0 < k < |s|
    ensures [s[0]] + (s[1..][..k - 1] + s[1..][k..]) == s[..k] + s[k + 1..]
  {
    assert s[1..][..k - 1] == s[1..k];
    assert s[1..][k..] == s[k + 1..];
    assert s[..k] == [s[0]] + s[1..k];
  }

  /** The delete by snapshot of one row removes only the position holding the shown problem. */
  lemma SnapshotOfOneRow(problems: seq<Problem>, shown: seq<Problem>, row: nat, k: nat)
    requires UniqueIds(problems)
    requires row < |shown| && k < |problems| && problems[k] == shown[row]
    ensures RemoveShown(problems, shown, [row]) == problems[..k] + problems[k + 1..]
  {
    assert ShownInRows(problems[k], shown, [row]);
    forall i | 0 <= i < |problems| && i != k ensures !ShownInRows(problems[i], shown, [row]) {
      assert problems[i].id != problems[k].id;
    }
    RemoveShownOne(problems, shown, [row], k);
  }

  /**
   * For one row, the usual swipe, the delete as written and the delete by
   * snapshot remove the same problem.
   */
  lemma SingleRowDeletesAgree(problems: seq<Problem>, cfg: FilterConfig, row: nat)
    requires UniqueIds(problems)
    requires row < |FilteredAndSorted(problems, cfg)|
    ensures DeleteRowsAsWritten(problems, cfg, [row]) == Some(DeleteRowsBySnapshot(problems, cfg, [row]))
  {
    DeleteRowRemovesThatProblem(problems, cfg, row);
    var k :| 0 <= k < |problems| && problems[k] == FilteredAndSorted(problems, cfg)[row] &&
             DeleteRow(problems, cfg, row).value == problems[..k] + problems[k + 1..];
    SnapshotOfOneRow(problems, FilteredAndSorted(problems, cfg), row, k);
    OneRowAsWritten(problems, cfg, row);
  }

  lemma OneRowAsWritten(problems: seq<Problem>, cfg: FilterConfig, row: nat)
    ensures DeleteRowsAsWritten(problems, cfg, [row]) == DeleteRow(problems, cfg, row)
  {
    assert [row][1..] == [];
  }

  // ---------------------------------------------------------------------
  // The screen

  /**
   * The list screen: owns the view model and the filter state that the
   * filter sheet and the search bar edit.
   */
  class ProblemListScreen {
    const viewModel: ProblemListViewModel
    var selectedFilter: ProblemFilter
    var searchText: string
    var selectedDifficulty: Option<Difficulty>
    var selectedPattern: Option<Pattern>

    function Config(): FilterConfig
      reads this
    {
      FilterConfig(selectedFilter, searchText, selectedDifficulty, selectedPattern)
    }

    /** A fresh screen: no filter set, the view model loaded from the store. */
    constructor (stored: Option<seq<Problem>>)
      ensures fresh(viewModel) && viewModel.Valid()
      ensures viewModel.problems == stored.GetOr([])
      ensures Config() == NoFilters
    {
      viewModel := new ProblemListViewModel(stored);
      selectedFilter := All;
      searchText := [];
      selectedDifficulty := None;
      selectedPattern := None;
    }

    /** The add sheet's `onSave`: append the new problem. */
    method OnSave(p: Problem)
      modifies viewModel
      ensures viewModel.Valid()
      ensures viewModel.problems == old(viewModel.problems) + [p]
    {
      viewModel.Append(p);
    }

    /**
     * The solved toggle of row `index` followed by its `onChange`: the flag
     * flips, then the date is set to `now` or cleared; each write saves.
     */
    method ToggleSolved(index: nat, now: Date)
      requires index < |viewModel.problems|
      modifies viewModel
      ensures viewModel.Valid()
      ensures viewModel.problems == old(viewModel.problems)[index :=
        WithSolved(old(viewModel.problems)[index], !old(viewModel.problems)[index].isSolved, now)]
      ensures SolvedStateConsistent(viewModel.problems[index])
    {
      var p := viewModel.problems[index];
      var newValue := !p.isSolved;
      viewModel.Replace(index, p.(isSolved := newValue));
      var q := viewModel.problems[index];
      viewModel.Replace(index, q.(dateSolved := if newValue then Some(now) else None));
    }

    /**
     * `onDelete`: for each row in ascending order, map it through the
     * indices recomputed from the current list and remove that position.
     * `completed` is false where the subscript would trap: `trapAt` is then
     * the row that traps, and the list left behind, already saved, is the
     * one the rows before it produced.
     */
    method OnDelete(rows: seq<nat>) returns (completed: bool, trapAt: nat)
      requires viewModel.Valid()
      modifies viewModel
      ensures viewModel.Valid()
      ensures DeleteRowsAsWritten(old(viewModel.problems), Config(), rows) ==
        if completed then Some(viewModel.problems) else None
      ensures !completed ==>
        && trapAt < |rows|
        && DeleteRowsAsWritten(old(viewModel.problems), Config(), rows[..trapAt]) == Some(viewModel.problems)
        && rows[trapAt] >= |FilteredSortedIndices(viewModel.problems, Config())|
    {
      var cfg := Config();
      var i := 0;
      trapAt := 0;
      while i < |rows|
        invariant 0 <= i <= |rows|
        invariant viewModel.Valid()
        invariant DeleteRowsAsWritten(old(viewModel.problems), cfg, rows) ==
          DeleteRowsAsWritten(viewModel.problems, cfg, rows[i..])
        invariant DeleteRowsAsWritten(old(viewModel.problems), cfg, rows[..i]) == Some(viewModel.problems)
      {
        DeleteRowsStep(viewModel.problems, cfg, rows, i);
        var indices := FilteredSortedIndices(viewModel.problems, cfg);
        if rows[i] >= |indices| {
          return false, i;
        }
        ghost var before := viewModel.problems;
        var removed := viewModel.RemoveAt(indices[rows[i]]);
        DeleteRowsPrefixStep(old(viewModel.problems), cfg, rows, i, before);
        i := i + 1;
      }
      completed := true;
    }

    /**
     * The delete as intended: the ids of the selected rows are read from
     * the displayed list first, then those problems are removed at once.
     */
    method OnDeleteBySnapshot(rows: seq<nat>)
      modifies viewModel
      ensures viewModel.Valid()
      ensures viewModel.problems == DeleteRowsBySnapshot(old(viewModel.problems), Config(), rows)
    {
      viewModel.SetProblems(DeleteRowsBySnapshot(viewModel.problems, Config(), rows));
    }
  }
}
