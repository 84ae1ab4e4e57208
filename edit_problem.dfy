/**
 * The edit sheet (LeetCodeTracker/EditProblemView.swift), bound to one
 * position of the view model's list, and how the list screen opens it.
 */
module EditProblem {
  import opened Wrappers
  import opened Patterns
  import opened Problems
  import opened ViewModel
  import opened ProblemList
  import opened PatternSelection

  /** An edit sheet writing through the binding `$viewModel.problems[index]`. */
  class EditProblemSheet {
    const viewModel: ProblemListViewModel
    const index: nat

    constructor (viewModel: ProblemListViewModel, index: nat)
      requires index < |viewModel.problems|
      ensures this.viewModel == viewModel && this.index == index
    {
      this.viewModel := viewModel;
      this.index := index;
    }

    /**
     * A tap on a pattern pill: the bound problem's patterns are toggled in
     * place and saved; its other fields and every other problem stay.
     */
    method TogglePattern(pattern: Pattern)
      requires index < |viewModel.problems|
      modifies viewModel
      ensures viewModel.Valid()
      ensures viewModel.problems == old(viewModel.problems)[index :=
                old(viewModel.problems)[index].(patterns := Toggled(old(viewModel.problems)[index].patterns, pattern))]
    {
      var p := viewModel.problems[index];
      if pattern in p.patterns {
        viewModel.Replace(index, p.(patterns := RemoveAll(p.patterns, pattern)));
      } else {
        viewModel.Replace(index, p.(patterns := p.patterns + [pattern]));
      }
    }
  }

  /**
   * `.sheet(item:)`: the sheet opens on the first position holding the
   * tapped problem's id, and not at all when no problem has that id.
   */
  method OpenEditSheet(viewModel: ProblemListViewModel, tapped: Problem) returns (sheet: Option<EditProblemSheet>)
    ensures sheet.None? <==> forall i :: 0 <= i < |viewModel.problems| ==> viewModel.problems[i].id != tapped.id
    ensures sheet.Some? ==>
              && sheet.value.viewModel == viewModel
              && sheet.value.index < |viewModel.problems|
              && viewModel.problems[sheet.value.index].id == tapped.id
              && forall i :: 0 <= i < sheet.value.index ==> viewModel.problems[i].id != tapped.id
  {
    match FirstIndexById(viewModel.problems, tapped.id)
    case None =>
      sheet := None;
    case Some(i) =>
      var s := new EditProblemSheet(viewModel, i);
      sheet := Some(s);
  }
}
