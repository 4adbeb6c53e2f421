// The multi-select toggle three pages share: OnboardingFlow's
// `toggleLanguage` / `toggleGoal`, Explore's `toggleTopic` and Settings'
// `toggleLanguage` all replace the selection with "remove the id if it is
// there, otherwise append it".

module Selection {

  import opened Common

  /** `prev.includes(x) ? prev.filter(y => y !== x) : [...prev, x]`. */
  function Toggle<T(==,!new)>(selected: seq<T>, x: T): (r: seq<T>)
    ensures x in r <==> x !in selected
    ensures forall y :: y != x ==> (y in r <==> y in selected)
    ensures x !in selected ==> r == selected + [x]
    ensures x in selected ==> r == Filter(selected, y => y != x) && |r| < |selected|
  {
    if x in selected then
      FilterFullIff(selected, y => y != x);
      Filter(selected, y => y != x)
    else selected + [x]
  }

  /** Toggling the same id twice restores whether every id is selected. */
  lemma ToggleTwiceMembership<T(!new)>(selected: seq<T>, x: T, y: T)
    ensures y in Toggle(Toggle(selected, x), x) <==> y in selected
  {
  }

  /** When the id was not selected, toggling it twice restores the very same list. */
  lemma ToggleTwiceRestores<T(!new)>(selected: seq<T>, x: T)
    requires x !in selected
    ensures Toggle(Toggle(selected, x), x) == selected
  {
    var p := (y: T) => y != x;
    FilterAppend(selected, [x], p);
    FilterKeepsAll(selected, p);
    assert Filter([x], p) == [];
  }

  /** A duplicate-free selection stays duplicate-free, so it reads as a set. */
  lemma ToggleKeepsNoDups<T(!new)>(selected: seq<T>, x: T)
    requires NoDups(selected)
    ensures NoDups(Toggle(selected, x))
  {
    if x in selected {
      FilterKeepsNoDups(selected, y => y != x);
    } else {
      var r := selected + [x];
      forall i, j | 0 <= i < j < |r| ensures r[i] != r[j] {
        if j == |selected| {
          assert r[i] == selected[i];
        }
      }
    }
  }
}
