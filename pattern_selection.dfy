/**
 * The multi-select pattern toggle shared by the add form
 * (LeetCodeTracker/AddProblemView.swift) and the edit form
 * (LeetCodeTracker/EditProblemView.swift): a selected pattern is removed
 * with every copy of it, an unselected one is appended.
 */
module PatternSelection {
  import opened Collections
  import opened Patterns

  /** `removeAll { $0 == pattern }`. */
  function RemoveAll(selected: seq<Pattern>, pattern: Pattern): seq<Pattern> {
    Filter(selected, (q: Pattern) => q != pattern)
  }

  /** The list after one tap on the pill of `pattern`. */
  function Toggled(selected: seq<Pattern>, pattern: Pattern): seq<Pattern> {
    if pattern in selected then RemoveAll(selected, pattern) else selected + [pattern]
  }

  /** No pattern is listed twice. */
  predicate NoDuplicates(selected: seq<Pattern>) {
    forall i, j :: 0 <= i < j < |selected| ==> selected[i] != selected[j]
  }

  /** Filtering keeps the survivors in their order, so it adds no duplicates. */
  lemma {:induction false} FilterKeepsNoDuplicates(s: seq<Pattern>, keep: Pattern -> bool)
    requires NoDuplicates(s)
    ensures NoDuplicates(Filter(s, keep))
  {
    if s != [] {
      FilterKeepsNoDuplicates(s[1..], keep);
      var rest := Filter(s[1..], keep);
      if keep(s[0]) {
        assert s[0] !in rest;
        forall i, j | 0 <= i < j < |[s[0]] + rest| ensures ([s[0]] + rest)[i] != ([s[0]] + rest)[j] {
          if i == 0 {
            assert ([s[0]] + rest)[j] == rest[j - 1];
          }
        }
      }
    }
  }

  /**
   * A selected pattern is removed with all its copies, keeping the others
   * in their order; an unselected one is appended at the end.
   */
  lemma ToggledSpec(selected: seq<Pattern>, pattern: Pattern)
    ensures pattern in selected ==> pattern !in Toggled(selected, pattern)
    ensures pattern in selected ==> |Toggled(selected, pattern)| < |selected|
    ensures pattern !in selected ==> Toggled(selected, pattern) == selected + [pattern]
  {
    if pattern in selected {
      var copies := Filter(selected, (q: Pattern) => q == pattern);
      FilterSplitCount(selected, (q: Pattern) => q != pattern, (q: Pattern) => q == pattern);
      assert pattern in copies;
    }
  }

  /**
   * A tap flips the membership of that pattern, leaves every other
   * pattern's membership as it was, and adds no duplicates.
   */
  lemma ToggledMembership(selected: seq<Pattern>, pattern: Pattern)
    ensures pattern in Toggled(selected, pattern) <==> pattern !in selected
    ensures forall q :: q != pattern ==> (q in Toggled(selected, pattern) <==> q in selected)
    ensures NoDuplicates(selected) ==> NoDuplicates(Toggled(selected, pattern))
  {
    if NoDuplicates(selected) {
      if pattern in selected {
        FilterKeepsNoDuplicates(selected, (q: Pattern) => q != pattern);
      } else {
        var r := selected + [pattern];
        forall i, j | 0 <= i < j < |r| ensures r[i] != r[j] {
          if j == |selected| {
            assert r[i] in selected;
          }
        }
      }
    }
  }

  /** Two taps on an unselected pattern leave the selection as it was. */
  lemma ToggleTwiceRestoresUnselected(selected: seq<Pattern>, pattern: Pattern)
    requires pattern !in selected
    ensures Toggled(Toggled(selected, pattern), pattern) == selected
  {
    var keep := (q: Pattern) => q != pattern;
    var once := selected + [pattern];
    assert Toggled(selected, pattern) == once;
    assert pattern in once;
    assert Toggled(once, pattern) == Filter(once, keep);
    FilterAppend(selected, [pattern], keep);
    FilterKeepsAll(selected, keep);
    assert Filter([pattern], keep) == [];
  }
}
