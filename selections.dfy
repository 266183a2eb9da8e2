/** The multi-select toggle the tool pages share (src/pages/tools/ColoristPage.tsx
    and the last case of the toggles in src/pages/tools/DiagnosisPage.tsx): a
    click removes a selected value, or appends an unselected one. */
module Selections {
  import Seqs

  /** The selection `item => item !== value`. */
  function Without(value: string): string -> bool {
    (x: string) => x != value
  }

  /** `selected.includes(value) ? selected.filter(r => r !== value) : [...selected, value]`. */
  function Toggle(selected: seq<string>, value: string): seq<string> {
    if value in selected then Seqs.Filter(selected, Without(value)) else selected + [value]
  }

  /** A selected value is removed, every occurrence of it, and every other
      value keeps its count; an unselected value is appended at the end. */
  lemma ToggleContents(selected: seq<string>, value: string)
    ensures value in selected ==>
      && value !in Toggle(selected, value)
      && forall x :: x != value ==> multiset(Toggle(selected, value))[x] == multiset(selected)[x]
    ensures value !in selected ==> Toggle(selected, value) == selected + [value]
  {
    if value in selected {
      forall x ensures multiset(Toggle(selected, value))[x] == if x != value then multiset(selected)[x] else 0 {
        Seqs.FilterCount(selected, Without(value), x);
      }
    }
  }

  /** Toggling keeps a selection free of repeats. */
  lemma ToggleDistinct(selected: seq<string>, value: string)
    requires Seqs.Distinct(selected)
    ensures Seqs.Distinct(Toggle(selected, value))
  {
    var r := Toggle(selected, value);
    forall x ensures multiset(r)[x] <= 1 {
      if value in selected {
        Seqs.FilterCount(selected, Without(value), x);
      } else {
        assert multiset(r) == multiset(selected) + multiset{value};
      }
    }
  }

  /** Toggling an unselected value twice gives the selection back. */
  lemma ToggleTwice(selected: seq<string>, value: string)
    requires value !in selected
    ensures Toggle(Toggle(selected, value), value) == selected
  {
    Seqs.FilterConcat(selected, [value], Without(value));
    Seqs.FilterAll(selected, Without(value));
    assert Seqs.Filter([value], Without(value)) == [];
  }

  /** Toggling a selected value twice in a repeat-free selection moves it to the end. */
  lemma ToggleTwiceSelected(selected: seq<string>, value: string)
    requires value in selected && Seqs.Distinct(selected)
    ensures Toggle(Toggle(selected, value), value) == Seqs.Filter(selected, Without(value)) + [value]
    ensures multiset(Toggle(Toggle(selected, value), value)) == multiset(selected)
  {
    ToggleContents(selected, value);
    var once := Toggle(selected, value);
    var twice := once + [value];
    forall x ensures multiset(twice)[x] == multiset(selected)[x] {
      if x == value {
        assert multiset(selected)[x] == 1 by {
          assert multiset(selected)[x] > 0;
        }
      }
    }
    assert multiset(twice) == multiset(selected);
  }
}
