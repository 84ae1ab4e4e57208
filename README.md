# LeetCodeTracker — a verified model of the tracker's core

LeetCodeTracker is an iOS app that records coding-practice problems. Each problem has a title, a difficulty, a solved flag, the date it was solved, notes and a list of algorithmic pattern tags. From these the app derives:

- per-pattern statistics, and the weak and strong patterns;
- the current solving streak;
- a review score for each problem, and the five problems recommended for today;
- overall counters for the statistics screen;
- a filtered and sorted list of problems for the main screen.

The Dafny project models this core:

- `wrappers.dfy`: `Option`.
- `collections.dfy`: order-preserving `Filter`, and the stable sort `SortBy` that stands for Swift's `sorted(by:)`. It is proved to be a permutation, and to be sorted whenever the comparator is a strict weak order on its input.
- `pattern.dfy`: the twenty `Pattern` cases, their raw values, `allCases` and the raw-value codec.
- `pattern_stats.dfy`: `PatternStats` and its solve rate.
- `problem.dfy`: `Problem`, `Difficulty`, `ProblemFilter`, dates as whole seconds, and the solved toggle.
- `view_model.dfy`:
  - the analytics: solved days, pattern statistics, weak and strong patterns, review score and today's recommendations;
  - the class `ProblemListViewModel`, which holds the list and persists it on every change;
  - the streak loop.
- `problem_list.dfy`: the filter chain, the display order, the row-to-index mapping, the delete handler, and the class `ProblemListScreen`.
- `stats.dfy`: the counters of the statistics screen.
- `pattern_selection.dfy`: the pattern toggle shared by the add and edit forms.
- `add_problem.dfy`: the add form with its `canSave` trimming rule.
- `edit_problem.dfy`: the edit sheet.
- `filter_sheet.dfy`: the filter sheet.

Modelling choices:

- **Dates.** A date is a whole number of seconds. A calendar day is the second count divided by 86400, and the number of days between two dates is truncated toward zero, as `dateComponents(.day)` does.
- **Review score.** Review scores are kept in half-units, so 0.5, 1.0 and 1.5 become 1, 2 and 3, and the score range is 1..13.
- **Solve rate.** Solve rates are exact rationals. The thresholds `< 0.6` and `> 0.8` are proved equal to integer cross-multiplications.
- **Persistence.** The view model carries a ghost `persisted` copy of the list. `Valid()` says this copy equals `problems`: the `didSet` save has run after every change.

Two points on how the code behaves:

- **Deletion.** The `onDelete` handler maps each selected display row to an index into the full list, using indices recomputed after every removal, and removes by index. The model follows that code (see Findings).
- **Solved state.** Nothing checks that stored data has `dateSolved` present exactly when `isSolved` is true; only the solved toggle keeps the two in step. The model names the condition `SolvedStateConsistent`. The sort-order proofs assume it, and `MalformedProblemsBreakTheOrder` shows what goes wrong without it.

## Model

| member | source | states |
|---|---|---|
| Patterns.AllCasesEnumerates | LeetCodeTracker/Pattern.swift:6-36 | `allCases` lists all twenty cases in declaration order, each exactly once, and the ordinal of a case is its position |
| Patterns.DecodeEncode | LeetCodeTracker/Pattern.swift:9-36 | decoding the raw value of any case gives back that case |
| Patterns.EncodeDecode | LeetCodeTracker/Pattern.swift:9-36 | a string that decodes to a case is exactly that case's raw value |
| Patterns.RawValueInjective | LeetCodeTracker/Pattern.swift:6-39 | distinct cases have distinct raw values, so two patterns have equal `id` exactly when they are the same case |
| PatternStatistics.SolveRateDefinition | LeetCodeTracker/PatternStats.swift:18-20 | the rate is 0 when total is 0, and otherwise rate times total equals solved |
| PatternStatistics.SolveRateBounds | LeetCodeTracker/PatternStats.swift:16-20 | when 0 ≤ solved ≤ total, the rate lies between 0 and 1 |
| PatternStatistics.ThresholdsByCrossMultiplication | LeetCodeTracker/PatternStats.swift:18-20 | for a non-empty pattern, rate < 0.6 iff 5·solved < 3·total, and rate > 0.8 iff 5·solved > 4·total |
| Problems.DayOf | LeetCodeTracker/ProblemListViewModel.swift:19-23 | a date falls inside the 86400-second day whose number is returned |
| Problems.DaysBetween | LeetCodeTracker/ProblemListViewModel.swift:122-123 | the number of whole days from `from` to `to`, truncated toward zero: non-negative and rounded down for a later `to`, minus the whole days elapsed for an earlier one |
| Problems.NewProblem | LeetCodeTracker/ProblemListView.swift:39-47 | a new problem keeps the given fields, starts unsolved with no date, and is consistent |
| Problems.WithSolved | LeetCodeTracker/ProblemListView.swift:231-236 | toggling sets the flag, sets the date to now when turned on and clears it when turned off, leaves the other fields alone, and yields a consistent problem |
| Problems.TitleLessAsymmetric | LeetCodeTracker/ProblemListView.swift:201 | title `<` is asymmetric |
| Problems.TitleLessTransitive | LeetCodeTracker/ProblemListView.swift:201 | title `<` is transitive |
| Problems.TitleLessTotal | LeetCodeTracker/ProblemListView.swift:201 | any two distinct titles are ordered one way or the other |
| Collections.Filter | LeetCodeTracker/ProblemListViewModel.swift:52-59 | `filter` keeps exactly the elements satisfying the predicate, each as often as in the input |
| Collections.FilterAppend | LeetCodeTracker/ProblemListViewModel.swift:52-54 | filtering a concatenation is the concatenation of the filtered parts |
| Collections.FilterSplitCount | LeetCodeTracker/StatsView.swift:14-21 | the elements that pass a predicate and those that pass its negation together number the whole input |
| Collections.SortBy | LeetCodeTracker/ProblemListView.swift:192-202 | `sorted(by:)` returns a permutation of its input |
| Collections.SortBySorted | LeetCodeTracker/ProblemListView.swift:192-202 | with a strict weak order on the input, no later element sorts before an earlier one |
| Collections.SortByKeepsOrdered | LeetCodeTracker/ProblemListView.swift:192-202 | a list already in order comes back unchanged |
| Collections.SortByStable | LeetCodeTracker/ProblemListViewModel.swift:139 | the sort is stable: elements of a class the comparator does not order among themselves come out in their input order |
| Collections.Prefix | LeetCodeTracker/ProblemListViewModel.swift:140 | `prefix(n)` is the first min(n, length) elements |
| ViewModel.SolvedDays | LeetCodeTracker/ProblemListViewModel.swift:18-25 | there are no more solved days than problems |
| ViewModel.SolvedDaysMembers | LeetCodeTracker/ProblemListViewModel.swift:18-25 | a day is a solved day iff some problem has a solve date on that day, whatever its solved flag |
| ViewModel.WalkBack | LeetCodeTracker/ProblemListViewModel.swift:33-43 | the `while` loop stops after counting exactly the run of days in the set that ends at the start day: all counted days are in the set, the next one back is not, and the count never exceeds the size of the set |
| ViewModel.ProblemListViewModel.CurrentStreak | LeetCodeTracker/ProblemListViewModel.swift:29-44 | every one of the `streak` days ending today is a solved day and the day before them is not; the streak is 0 iff today is not a solved day; it never exceeds the number of solved days |
| ViewModel.StatsFor | LeetCodeTracker/ProblemListViewModel.swift:48-66 | the statistics of a pattern name that pattern and satisfy 0 ≤ solved ≤ total ≤ number of problems |
| ViewModel.AllPatternStatsShape | LeetCodeTracker/ProblemListViewModel.swift:48-67 | one entry per pattern in `allCases` order, each the statistics of its own pattern |
| ViewModel.StatsForAppend | LeetCodeTracker/ProblemListViewModel.swift:52-64 | adding a problem raises a pattern's total by one iff the problem carries the tag, and its solved count by one iff it is also solved |
| ViewModel.PatternsOfMembers | LeetCodeTracker/ProblemListViewModel.swift:86-93 | the pattern set of a list of statistics holds exactly the patterns named in it |
| ViewModel.RateBeforeStrictWeak | LeetCodeTracker/ProblemListViewModel.swift:74 | ordering by solve rate is a strict weak order |
| ViewModel.WeakPatternsSpec | LeetCodeTracker/ProblemListViewModel.swift:71-75 | the weak patterns are exactly the statistics with total ≥ 3 and rate < 0.6, each once, in non-decreasing rate |
| ViewModel.StrongPatternsSpec | LeetCodeTracker/ProblemListViewModel.swift:79-83 | the strong patterns are exactly the statistics with total ≥ 3 and rate > 0.8, each once, in non-decreasing rate |
| ViewModel.WeakStrongSetsSpec | LeetCodeTracker/ProblemListViewModel.swift:71-93 | a pattern is weak iff total ≥ 3 and 5·solved < 3·total, strong iff total ≥ 3 and 5·solved > 4·total, and never both |
| ViewModel.Score | LeetCodeTracker/ProblemListViewModel.swift:97-133 | every review score lies between 0.5 and 6.5 |
| ViewModel.ScoreMaximum | LeetCodeTracker/ProblemListViewModel.swift:97-133 | the score is 6.5 iff the problem has a weak tag, is Hard and is unsolved |
| ViewModel.ScoreMinimum | LeetCodeTracker/ProblemListViewModel.swift:97-133 | the score is 0.5 iff the problem has no weak tag but a strong one, is Easy, and is solved with no date or solved fewer than 7 days ago |
| ViewModel.AccumulateScore | LeetCodeTracker/ProblemListViewModel.swift:97-133 | the step-by-step accumulation in `reviewScore` yields the specified score |
| ViewModel.ProblemListViewModel.ReviewScore | LeetCodeTracker/ProblemListViewModel.swift:97-133 | the score uses the weak and strong sets of the current list |
| ViewModel.ScoreOrderStrictWeak | LeetCodeTracker/ProblemListViewModel.swift:139 | ordering by descending score is a strict weak order |
| ViewModel.TopByScoreTaken | LeetCodeTracker/ProblemListViewModel.swift:136-142 | the top n holds min(n, count) problems, all taken from the list |
| ViewModel.TopByScoreOrdered | LeetCodeTracker/ProblemListViewModel.swift:136-142 | the top n come in non-increasing score |
| ViewModel.TopByScoreLeftOut | LeetCodeTracker/ProblemListViewModel.swift:136-142 | every problem left out scores no higher than the last one taken |
| ViewModel.TopByScoreTiesInListOrder | LeetCodeTracker/ProblemListViewModel.swift:137-141 | among problems with the same score, the ones taken are the first ones of the list: a left-out problem that ties with a taken one comes later in the list |
| ViewModel.TodaysRecommendationsSpec | LeetCodeTracker/ProblemListViewModel.swift:136-142 | today's recommendations are min(5, count) of the problems, in non-increasing score; no problem left out scores above the last one recommended; among equal scores the earlier problems of the list are recommended |
| ViewModel.ProblemListViewModel.constructor | LeetCodeTracker/ProblemListViewModel.swift:145-152 | the list starts as the stored list, or empty when nothing is stored, and is persisted |
| ViewModel.ProblemListViewModel.SetProblems | LeetCodeTracker/ProblemListViewModel.swift:10-14 | assigning the list persists it |
| ViewModel.ProblemListViewModel.LoadProblems | LeetCodeTracker/ProblemListViewModel.swift:150-152 | loading replaces the list with the stored one (empty when absent) and persists it |
| ViewModel.ProblemListViewModel.Append | LeetCodeTracker/ProblemListView.swift:138-140 | appending adds the problem at the end and persists the list |
| ViewModel.ProblemListViewModel.RemoveAt | LeetCodeTracker/ProblemListView.swift:284 | `remove(at:)` returns the element at that index, closes the gap, and persists the list |
| ViewModel.ProblemListViewModel.Replace | LeetCodeTracker/ProblemListView.swift:226 | writing through the row binding replaces that one element and persists the list |
| ProblemList.FoldAll | LeetCodeTracker/ProblemListView.swift:177-179 | case folding keeps the length and folds each character |
| ProblemList.ContainsIgnoringCaseSpec | LeetCodeTracker/ProblemListView.swift:177-179 | the title contains the query, ignoring case, iff the folded query occurs at some position of the folded title |
| ProblemList.ByStatus | LeetCodeTracker/ProblemListView.swift:167-174 | the status filter keeps exactly the problems of the chosen status (all of them for All), each as often as listed |
| ProblemList.BySearch | LeetCodeTracker/ProblemListView.swift:176-179 | the search filter keeps exactly the matching titles, and everything when the text is empty |
| ProblemList.ByDifficulty | LeetCodeTracker/ProblemListView.swift:181-184 | the difficulty filter keeps exactly that difficulty, or everything when none is selected |
| ProblemList.ByPattern | LeetCodeTracker/ProblemListView.swift:186-189 | the pattern filter keeps exactly the problems carrying the tag, or everything when none is selected |
| ProblemList.Filtered | LeetCodeTracker/ProblemListView.swift:163-189 | the chain of four filters keeps exactly the problems passing all of them |
| ProblemList.FilteredAndSorted | LeetCodeTracker/ProblemListView.swift:163-203 | the displayed list holds exactly the problems passing the filters, each as often as in the full list |
| ProblemList.ShownComeFromList | LeetCodeTracker/ProblemListView.swift:163-203 | every displayed problem is in the list and passes the filters |
| ProblemList.NoFiltersKeepEverything | LeetCodeTracker/ProblemListView.swift:163-189 | with no filters set, the filter chain returns the list itself and the display is a permutation of it |
| ProblemList.SolvedAndUnsolvedViewsDisjoint | LeetCodeTracker/ProblemListView.swift:167-174 | no problem appears both in the Solved view and in the Unsolved view |
| ProblemList.SolvedAndUnsolvedViewsCoverAll | LeetCodeTracker/ProblemListView.swift:167-174 | the Solved and Unsolved views together show each problem as often as the All view does |
| ProblemList.BeforeNegativelyTransitive | LeetCodeTracker/ProblemListView.swift:192-202 | for consistent problems, "not before" is transitive |
| ProblemList.BeforeStrictWeak | LeetCodeTracker/ProblemListView.swift:192-202 | for consistent problems, the display comparator is a strict weak order |
| ProblemList.InsertKeepsUnsolvedFirst | LeetCodeTracker/ProblemListView.swift:193-195 | inserting into a list with the unsolved first keeps the unsolved first |
| ProblemList.SortKeepsUnsolvedFirst | LeetCodeTracker/ProblemListView.swift:193-195 | after the sort, every unsolved problem comes before every solved one, whatever the data |
| ProblemList.DisplayedOrder | LeetCodeTracker/ProblemListView.swift:192-202 | the display shows unsolved before solved; for consistent problems, dated rows go in non-increasing date and unsolved rows in non-decreasing title |
| ProblemList.EqualDatesAreTied | LeetCodeTracker/ProblemListView.swift:197-199 | two solved problems with the same date are tied whatever their titles |
| ProblemList.EqualDatesKeepListOrder | LeetCodeTracker/ProblemListView.swift:191-202 | solved problems with the same date are shown in the order of the list, not by title |
| ProblemList.MalformedProblemsBreakTheOrder | LeetCodeTracker/ProblemListView.swift:192-202 | three problems, one marked solved without a date, on which the comparator is cyclic (a before b before c before a) |
| ProblemList.FirstIndexById | LeetCodeTracker/ProblemListView.swift:208 | `firstIndex(where:)` finds the first position with that id, or none when no problem has it |
| ProblemList.IndicesOf | LeetCodeTracker/ProblemListView.swift:206-210 | `compactMap` yields at most one index per row, each a valid index |
| ProblemList.IndicesOfSpec | LeetCodeTracker/ProblemListView.swift:206-210 | with unique ids, each displayed row maps to a position holding exactly that problem |
| ProblemList.IndicesOfList | LeetCodeTracker/ProblemListView.swift:206-210 | with unique ids, mapping the list onto itself gives the identity positions |
| ProblemList.FilteredSortedIndicesSpec | LeetCodeTracker/ProblemListView.swift:206-210 | with unique ids, there is one index per displayed row, and it points at the displayed problem |
| ProblemList.DeleteRowRemovesThatProblem | LeetCodeTracker/ProblemListView.swift:283-284 | deleting one displayed row removes exactly the problem shown there and keeps the rest in order |
| ProblemList.SingleRowDeletesAgree | LeetCodeTracker/ProblemListView.swift:281-286 | for a single row, the delete as written and the delete by snapshot give the same list |
| ProblemList.DisplayedAsListed | LeetCodeTracker/ProblemListView.swift:192-202 | unsolved, undated problems with ascending titles are displayed as listed |
| ProblemList.MultiRowDeleteRemovesWrongProblem | LeetCodeTracker/ProblemListView.swift:281-286 | selecting rows 0 and 1 of "a", "b", "c" removes "a" and "c" and keeps "b" |
| ProblemList.MultiRowDeleteTraps | LeetCodeTracker/ProblemListView.swift:281-286 | selecting both rows of "a", "b" reaches an index past the end |
| ProblemList.RemoveShown | LeetCodeTracker/ProblemListView.swift:281-286 | removing by snapshot drops exactly the problems whose id is shown in a selected row and keeps the others as often as listed |
| ProblemList.MultiRowDeleteBySnapshot | LeetCodeTracker/ProblemListView.swift:281-286 | selecting rows 0 and 1 of "a", "b", "c" removes "a" and "b" |
| ProblemList.ProblemListScreen.constructor | LeetCodeTracker/ProblemListView.swift:52-60 | the screen starts with the stored list, persisted, and no filters |
| ProblemList.ProblemListScreen.OnSave | LeetCodeTracker/ProblemListView.swift:135-141 | saving from the add sheet appends the new problem and persists the list |
| ProblemList.ProblemListScreen.ToggleSolved | LeetCodeTracker/ProblemListView.swift:231-236 | toggling a row flips that problem's flag and sets or clears its date, and nothing else changes |
| ProblemList.ProblemListScreen.OnDelete | LeetCodeTracker/ProblemListView.swift:281-286 | the handler ends with the list the as-written delete computes; when it traps, it names the trapping row, whose number is past the recomputed indices, and the saved list is the one the rows before it left |
| ProblemList.ProblemListScreen.OnDeleteBySnapshot | LeetCodeTracker/ProblemListView.swift:281-286 | the corrected handler removes exactly the problems shown in the selected rows |
| Stats.SolvedCount | LeetCodeTracker/StatsView.swift:14-16 | there are no more solved problems than problems |
| Stats.UnsolvedCountCountsUnsolved | LeetCodeTracker/StatsView.swift:14-21 | total minus solved is exactly the number of unsolved problems |
| Stats.OverallSolveRateSpec | LeetCodeTracker/StatsView.swift:24-27 | the overall rate is 0 for an empty list and always lies between 0 and 1 |
| Stats.DifficultyCountsSum | LeetCodeTracker/StatsView.swift:30-40 | the Easy, Medium and Hard counts sum to the total |
| Stats.MaxDifficultyCount | LeetCodeTracker/StatsView.swift:43-45 | the maximum is at least each count and equal to one of them |
| Stats.MaxDifficultyCountPositive | LeetCodeTracker/StatsView.swift:65-71 | when the list is non-empty, which is when the bars are drawn, the maximum is positive, so the bar width division is defined |
| PatternSelection.ToggledSpec | LeetCodeTracker/AddProblemView.swift:86-90 | tapping a selected pattern removes every copy of it; tapping an unselected one appends it |
| PatternSelection.ToggledMembership | LeetCodeTracker/AddProblemView.swift:86-90 | a tap flips only that pattern's membership and keeps the selection free of duplicates |
| PatternSelection.FilterKeepsNoDuplicates | LeetCodeTracker/AddProblemView.swift:87 | removing elements keeps a list without duplicates free of them |
| PatternSelection.ToggleTwiceRestoresUnselected | LeetCodeTracker/AddProblemView.swift:86-90 | two taps on an unselected pattern restore the selection |
| AddProblem.TrimLeading | LeetCodeTracker/AddProblemView.swift:24 | leading trimming drops exactly the longest whitespace-or-newline prefix |
| AddProblem.TrimTrailing | LeetCodeTracker/AddProblemView.swift:24 | trailing trimming drops exactly the longest whitespace-or-newline suffix |
| AddProblem.CanSaveSpec | LeetCodeTracker/AddProblemView.swift:23-25 | Save is enabled iff the title has a character that is not whitespace or newline |
| AddProblem.AddProblemForm.constructor | LeetCodeTracker/AddProblemView.swift:9-12 | the form starts empty, with Easy and no patterns |
| AddProblem.AddProblemForm.TogglePattern | LeetCodeTracker/AddProblemView.swift:86-90 | a pattern tap changes only the selection, by the toggle |
| AddProblem.AddProblemForm.Save | LeetCodeTracker/AddProblemView.swift:123-146 | a problem is produced iff Save is enabled; it carries the form's untrimmed title, difficulty, notes and patterns, and starts unsolved with no date |
| EditProblem.EditProblemSheet.constructor | LeetCodeTracker/ProblemListView.swift:145-149 | the sheet is bound to one valid index of the view model |
| EditProblem.EditProblemSheet.TogglePattern | LeetCodeTracker/EditProblemView.swift:79-84 | a pattern tap in the edit sheet toggles that tag on the bound problem only, and persists the list |
| EditProblem.OpenEditSheet | LeetCodeTracker/ProblemListView.swift:145-149 | no sheet opens iff no problem has the tapped id; otherwise the sheet is bound to the first problem with that id |
| FilterSheet.TappedPatternSelectsOnlyIt | LeetCodeTracker/FilterSheetView.swift:66-70 | a tap selects that pattern iff it was not selected, and never selects another |
| FilterSheet.TappedDifficultySelectsOnlyIt | LeetCodeTracker/FilterSheetView.swift:114-130 | a tap selects that difficulty iff it was not selected, and never selects another |
| FilterSheet.TapPatternTwice | LeetCodeTracker/FilterSheetView.swift:66-70 | two taps restore the selection when it was empty or that pattern, and clear it when another pattern was selected |
| FilterSheet.TapDifficultyTwice | LeetCodeTracker/FilterSheetView.swift:114-130 | two taps restore the selection when it was empty or that difficulty, and clear it when another was selected |
| FilterSheet.ClearedKeepsOnlySearch | LeetCodeTracker/FilterSheetView.swift:90-94 | after Clear only the search text filters; with empty search text, everything is shown |
| FilterSheet.FilterSheetView.constructor | LeetCodeTracker/ProblemListView.swift:152-157 | the sheet is bound to the screen's filter state |
| FilterSheet.FilterSheetView.SelectStatus | LeetCodeTracker/FilterSheetView.swift:38-42 | picking a status changes only the status filter |
| FilterSheet.FilterSheetView.TapDifficulty | LeetCodeTracker/FilterSheetView.swift:127-130 | a difficulty tap changes only the difficulty filter, by the tap rule |
| FilterSheet.FilterSheetView.TapPattern | LeetCodeTracker/FilterSheetView.swift:66-70 | a pattern tap changes only the pattern filter, by the tap rule |
| FilterSheet.FilterSheetView.Clear | LeetCodeTracker/FilterSheetView.swift:90-94 | Clear resets status, difficulty and pattern and keeps the search text |

## Left out

- Persistence: `ProblemStore`, JSON encoding and UserDefaults are not modelled. What was stored is a parameter of type `Option<seq<Problem>>`, where `None` means nothing stored or undecodable. Saving is modelled by the ghost `persisted` field.
- Calendar: time zones, daylight saving and `Calendar.current` are not modelled. A day is a fixed 86400 seconds counted from the epoch, and `calendar.date(byAdding:)` never fails.
- Clock: `Date()` is not modelled. "Now" is a parameter of every operation that reads it.
- Floating point: `Double` scores and rates are modelled exactly, as half-units and rationals. Rounding in `Double(solved) / Double(total)` is not modelled.
- Display arithmetic: the percentage display `Int(rate * 100)` and the bar geometry of the statistics screen are not modelled. Only their positive divisor is (`Stats.MaxDifficultyCountPositive`).
- ProblemList.ContainsIgnoringCaseSpec: `localizedCaseInsensitiveContains` is modelled with ASCII case folding only. Locale rules, Unicode case mapping and diacritic handling are not modelled.
- Problems.TitleLessTotal: Swift `String <` compares Unicode canonical forms; the model compares code points lexicographically.
- Presentation: SwiftUI rendering, layout, colours, labels and the reactive update mechanism are not modelled. This covers `Theme`, `PatternPill`, `TodayRecommendationsView`, the app entry point and the colour and label switches.
- Form text fields: the edit sheet's title, difficulty and notes fields are plain writes through the binding to the list (`ViewModel.ProblemListViewModel.Replace` with a changed field). The add form's title, difficulty and notes are its own local state, the fields of `AddProblem.AddProblemForm`, set by plain assignment. Neither has members of its own.
- EditProblem.EditProblemSheet.TogglePattern: requires its bound index to still be valid. The effect of a list that shrinks under an open sheet (a stale index) is not modelled.
- ProblemList.ProblemListScreen.OnDelete: a runtime trap (an index out of range) ends the handler with `completed == false`. The app would crash there; the model stops with the list, already saved, that the rows before the trapping one left.
- ProblemList.SortKeepsUnsolvedFirst: on problems whose `isSolved` and `dateSolved` disagree the comparator is not a strict weak order, and Swift's `sorted(by:)` promises nothing for such a comparator. The model's stable insertion sort gives one possible outcome there, not necessarily Swift's; the same holds for `ProblemList.DisplayedOrder` and every other statement about the sort on such data.
- Collections.SortByStable: the model's sort is stable, as Swift's `sorted(by:)` is in current releases; the tie orders stated for recommendations and equal-date rows rest on that.
- ViewModel.TopByScoreLeftOut: the "left out scores no higher" clause is stated only when at least one problem is taken (n > 0).
- ViewModel.TodaysRecommendationsSpec: the same clause is stated only for a non-empty list.
- Stats.OverallSolveRateSpec: states the bounds and the empty case only; rate times total equals solved follows from the definition's division.

## Findings

| source | as written | input that shows it | evidently intended | confidence | as-written member | corrected member |
|---|---|---|---|---|---|---|
| LeetCodeTracker/ProblemListView.swift:281-286 | each selected row is mapped through `filteredSortedIndices`, recomputed from the list after every removal | no filters; three unsolved, undated problems "a", "b", "c"; rows {0, 1} selected: "a" and "c" are removed and "b" stays. With two problems "a", "b" and rows {0, 1}, the second lookup is past the end and traps | remove exactly the problems shown in the selected rows when the delete was issued | medium (swipe deletes one row at a time, where both agree; the faulty case needs a multi-row selection); not executed | ProblemList.MultiRowDeleteRemovesWrongProblem, ProblemList.MultiRowDeleteTraps | ProblemList.MultiRowDeleteBySnapshot, ProblemList.ProblemListScreen.OnDeleteBySnapshot |
