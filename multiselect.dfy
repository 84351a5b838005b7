/** The selection list of a multi-select question (`handleMultiSelect`): clicking a chosen
    option removes it, clicking another adds it while fewer than two are chosen. A button
    shows as selected exactly when its value is in the list. */
module MultiSelect {
  import opened Collections

  /** At most this many options can be chosen at once. */
  const MaxSelections := 2

  /** What the list always satisfies: short enough and without repeats. */
  predicate WellFormed(s: seq<string>)
  {
    |s| <= MaxSelections && NoDup(s)
  }

  /** The list after one click on the option `value`: a chosen value has its first
      occurrence removed, an unchosen one is appended unless the list is full. */
  function Toggled(s: seq<string>, value: string): seq<string>
  {
    if value in s then
      var index := IndexOf(s, value);
      s[..index] + s[index + 1..]
    else if |s| < MaxSelections then s + [value]
    else s
  }

  class Selection {
    /** `userAnswers[questionId]` for the question. */
    var values: seq<string>

    predicate Valid()
      reads this
    {
      WellFormed(values)
    }

    /** `userAnswers[questionId] = []` on the first click. */
    constructor ()
      ensures Valid() && values == []
    {
      values := [];
    }

    /** One click on the option `value`. */
    method Toggle(value: string)
      requires Valid()
      modifies this
      ensures Valid()
      ensures values == Toggled(old(values), value)
    {
      ToggledWellFormed(values, value);
      if value in values {
        var index := IndexOf(values, value);
        if index > -1 {
          values := values[..index] + values[index + 1..];
        }
      } else if |values| < MaxSelections {
        values := values + [value];
      }
    }
  }

  // ----- properties -----

  /** A click keeps the list short and free of repeats. */
  lemma ToggledWellFormed(s: seq<string>, value: string)
    requires WellFormed(s)
    ensures WellFormed(Toggled(s, value))
  {
    if value in s {
      RemoveAtNoDup(s, IndexOf(s, value));
    } else if |s| < MaxSelections {
      assert forall k :: 0 <= k < |s| ==> (s + [value])[k] == s[k];
    }
  }

  /** Clicking an unchosen option when two are chosen changes nothing. */
  lemma FullIgnoresNewValue(s: seq<string>, value: string)
    requires |s| >= MaxSelections && value !in s
    ensures Toggled(s, value) == s
  {
  }

  /** Deselecting removes exactly one occurrence of the value and keeps the other entries
      in their order: those before it stay put, those after it move up by one. */
  lemma DeselectRemovesOne(s: seq<string>, value: string)
    requires value in s
    ensures |Toggled(s, value)| == |s| - 1
    ensures multiset(Toggled(s, value)) == multiset(s) - multiset{value}
    ensures var i := IndexOf(s, value);
            (forall k :: 0 <= k < i ==> Toggled(s, value)[k] == s[k])
            && (forall k :: i <= k < |s| - 1 ==> Toggled(s, value)[k] == s[k + 1])
  {
    var i := IndexOf(s, value);
    assert Toggled(s, value) == s[..i] + s[i + 1..];
    RemoveAtMultiset(s, i);
    RemoveAtShifts(s, i, Toggled(s, value));
  }

  /** A click flips whether the clicked option is chosen, unless the list is full, and
      leaves every other option as it was. */
  lemma ToggleFlips(s: seq<string>, value: string)
    requires WellFormed(s)
    ensures value in Toggled(s, value) <==> value !in s && |s| < MaxSelections
    ensures forall w :: w != value ==> (w in Toggled(s, value) <==> w in s)
  {
    if value in s {
      var i := IndexOf(s, value);
      RemoveAtNoDup(s, i);
      assert s == s[..i] + [value] + s[i + 1..];
    }
  }

  /** Selecting an option and clicking it again gives back the list it started from. */
  lemma SelectThenDeselect(s: seq<string>, value: string)
    requires value !in s && |s| < MaxSelections
    ensures Toggled(Toggled(s, value), value) == s
  {
    var t := s + [value];
    IndexOfConcat(s, [value], value);
    assert t[..|s|] == s;
  }
}
