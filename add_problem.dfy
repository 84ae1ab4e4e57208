/**
 * The add-problem form (LeetCodeTracker/AddProblemView.swift): its state,
 * the Save rule and the problem it hands back.
 */
module AddProblem {
  import opened Wrappers
  import opened Patterns
  import opened Problems
  import opened PatternSelection

  /**
   * Membership in `.whitespacesAndNewlines`: tab, the line and paragraph
   * separators U+000A to U+000D, U+0085, U+2028 and U+2029, and the space
   * separators (general category Zs).
   */
  predicate IsWhitespaceOrNewline(c: char) {
    var n := c as int;
    || n == 0x09 || 0x0A <= n <= 0x0D || n == 0x20 || n == 0x85 || n == 0xA0
    || n == 0x1680 || 0x2000 <= n <= 0x200A || n == 0x2028 || n == 0x2029
    || n == 0x202F || n == 0x205F || n == 0x3000
  }

  /** Drops the leading whitespace and newlines. */
  function TrimLeading(s: string): (r: string)
    ensures |r| <= |s| && r == s[|s| - |r|..]
    ensures r == [] || !IsWhitespaceOrNewline(r[0])
    ensures forall i :: 0 <= i < |s| - |r| ==> IsWhitespaceOrNewline(s[i])
  {
    if s != [] && IsWhitespaceOrNewline(s[0]) then TrimLeading(s[1..]) else s
  }

  /** Drops the trailing whitespace and newlines. */
  function TrimTrailing(s: string): (r: string)
    ensures |r| <= |s| && r == s[..|r|]
    ensures r == [] || !IsWhitespaceOrNewline(r[|r| - 1])
    ensures forall i :: |r| <= i < |s| ==> IsWhitespaceOrNewline(s[i])
  {
    if s != [] && IsWhitespaceOrNewline(s[|s| - 1]) then TrimTrailing(s[..|s| - 1]) else s
  }

  /** `trimmingCharacters(in: .whitespacesAndNewlines)`. */
  function Trim(s: string): string {
    TrimTrailing(TrimLeading(s))
  }

  /** `canSave`: the trimmed title is not empty. */
  predicate CanSave(title: string) {
    Trim(title) != []
  }

  /** The Save button is enabled exactly when the title holds a visible character. */
  lemma CanSaveSpec(title: string)
    ensures CanSave(title) <==> exists i :: 0 <= i < |title| && !IsWhitespaceOrNewline(title[i])
  {
    var lead := TrimLeading(title);
    if exists i :: 0 <= i < |title| && !IsWhitespaceOrNewline(title[i]) {
      var i :| 0 <= i < |title| && !IsWhitespaceOrNewline(title[i]);
      assert lead != [] by {
        assert i >= |title| - |lead|;
      }
      assert !IsWhitespaceOrNewline(lead[0]);
    }
  }

  /** The form's local state. */
  class AddProblemForm {
    var title: string
    var notes: string
    var selectedDifficulty: Difficulty
    var selectedPatterns: seq<Pattern>

    /** An empty form: no title, no notes, Easy, no patterns. */
    constructor ()
      ensures title == [] && notes == []
      ensures selectedDifficulty == Easy && selectedPatterns == []
    {
      title := [];
      notes := [];
      selectedDifficulty := Easy;
      selectedPatterns := [];
    }

    /**
     * A tap on a pattern pill: a selected pattern is removed with all its
     * copies, an unselected one is appended; the rest of the form stays.
     */
    method TogglePattern(pattern: Pattern)
      modifies this
      ensures selectedPatterns == Toggled(old(selectedPatterns), pattern)
      ensures title == old(title) && notes == old(notes) && selectedDifficulty == old(selectedDifficulty)
    {
      if pattern in selectedPatterns {
        selectedPatterns := RemoveAll(selectedPatterns, pattern);
      } else {
        selectedPatterns := selectedPatterns + [pattern];
      }
    }

    /**
     * The Save button: disabled, so nothing is saved, unless `CanSave`;
     * otherwise a new unsolved, undated problem with the form's title (as
     * typed, untrimmed), difficulty, notes and patterns.
     */
    method Save(id: Uuid) returns (saved: Option<Problem>)
      ensures saved.Some? <==> CanSave(title)
      ensures saved.Some? ==>
                && saved.value.id == id && saved.value.title == title
                && saved.value.difficulty == selectedDifficulty && saved.value.notes == notes
                && saved.value.patterns == selectedPatterns
                && !saved.value.isSolved && saved.value.dateSolved.None?
    {
      if CanSave(title) {
        var p := NewProblem(id, title, selectedDifficulty, notes, selectedPatterns);
        saved := Some(p);
      } else {
        saved := None;
      }
    }
  }
}
