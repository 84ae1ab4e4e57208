/**
 * The filter sheet (LeetCodeTracker/FilterSheetView.swift): single-select
 * pills for difficulty and pattern, the status picker and Clear, all
 * writing to the list screen's filter state. At most one difficulty and
 * one pattern are selected because each is held in one optional value.
 */
module FilterSheet {
  import opened Wrappers
  import opened Patterns
  import opened Problems
  import opened ProblemList

  /** A tap on a pattern pill: the selected pattern is cleared, any other selected. */
  function TappedPattern(selected: Option<Pattern>, pattern: Pattern): Option<Pattern> {
    if selected == Some(pattern) then None else Some(pattern)
  }

  /** A tap on a difficulty pill: the selected difficulty is cleared, any other selected. */
  function TappedDifficulty(selected: Option<Difficulty>, value: Difficulty): Option<Difficulty> {
    if selected == Some(value) then None else Some(value)
  }

  /**
   * After a tap the tapped pill is selected exactly when it was not, and
   * no other pill is selected.
   */
  lemma TappedPatternSelectsOnlyIt(selected: Option<Pattern>, pattern: Pattern)
    ensures TappedPattern(selected, pattern) == Some(pattern) <==> selected != Some(pattern)
    ensures forall q :: q != pattern ==> TappedPattern(selected, pattern) != Some(q)
  {
  }

  lemma TappedDifficultySelectsOnlyIt(selected: Option<Difficulty>, value: Difficulty)
    ensures TappedDifficulty(selected, value) == Some(value) <==> selected != Some(value)
    ensures forall d :: d != value ==> TappedDifficulty(selected, value) != Some(d)
  {
  }

  /**
   * Two taps on the same pill restore the selection when nothing or that
   * pill was selected; when another pill was selected they clear it.
   */
  lemma TapPatternTwice(selected: Option<Pattern>, pattern: Pattern)
    ensures selected == None || selected == Some(pattern) ==>
              TappedPattern(TappedPattern(selected, pattern), pattern) == selected
    ensures selected.Some? && selected != Some(pattern) ==>
              TappedPattern(TappedPattern(selected, pattern), pattern) == None
  {
  }

  lemma TapDifficultyTwice(selected: Option<Difficulty>, value: Difficulty)
    ensures selected == None || selected == Some(value) ==>
              TappedDifficulty(TappedDifficulty(selected, value), value) == selected
    ensures selected.Some? && selected != Some(value) ==>
              TappedDifficulty(TappedDifficulty(selected, value), value) == None
  {
  }

  /** Clear: status back to `.all`, no difficulty, no pattern; the search text stays. */
  function Cleared(cfg: FilterConfig): FilterConfig {
    cfg.(status := All, difficulty := None, pattern := None)
  }

  /**
   * After Clear only the search text filters; with an empty search the
   * list shows every problem.
   */
  lemma ClearedKeepsOnlySearch(problems: seq<Problem>, cfg: FilterConfig)
    ensures forall p :: Passes(p, Cleared(cfg)) <==> MatchesSearch(p, cfg.searchText)
    ensures cfg.searchText == [] ==> Filtered(problems, Cleared(cfg)) == problems
    ensures cfg.searchText == [] ==> multiset(FilteredAndSorted(problems, Cleared(cfg))) == multiset(problems)
  {
    if cfg.searchText == [] {
      assert Cleared(cfg) == NoFilters;
      NoFiltersKeepEverything(problems);
    }
  }

  /** The sheet, holding bindings to the list screen's filter state. */
  class FilterSheetView {
    const screen: ProblemListScreen

    constructor (screen: ProblemListScreen)
      ensures this.screen == screen
    {
      this.screen := screen;
    }

    /** The segmented status picker. */
    method SelectStatus(status: ProblemFilter)
      modifies screen
      ensures screen.Config() == old(screen.Config()).(status := status)
    {
      screen.selectedFilter := status;
    }

    method TapDifficulty(value: Difficulty)
      modifies screen
      ensures screen.Config() == old(screen.Config()).(difficulty := TappedDifficulty(old(screen.selectedDifficulty), value))
    {
      var isSelected := screen.selectedDifficulty == Some(value);
      screen.selectedDifficulty := if isSelected then None else Some(value);
    }

    method TapPattern(pattern: Pattern)
      modifies screen
      ensures screen.Config() == old(screen.Config()).(pattern := TappedPattern(old(screen.selectedPattern), pattern))
    {
      if screen.selectedPattern == Some(pattern) {
        screen.selectedPattern := None;
      } else {
        screen.selectedPattern := Some(pattern);
      }
    }

    method Clear()
      modifies screen
      ensures screen.Config() == Cleared(old(screen.Config()))
    {
      screen.selectedFilter := All;
      screen.selectedDifficulty := None;
      screen.selectedPattern := None;
    }
  }
}
