/** The selected special-occurrence kinds: a list toggled one value at a
    time. */
module SpecialFilters {
  import opened Seqs

  class SpecialFilterContext {
    var selectedEspeciais: seq<string>

    constructor()
      ensures selectedEspeciais == []
    {
      selectedEspeciais := [];
    }

    /** `toggleEspecial`: an absent value is appended, a present one removed;
        a list without duplicates keeps none. */
    method ToggleEspecial(especial: string)
      modifies this
      ensures selectedEspeciais == Toggle(old(selectedEspeciais), especial)
      ensures especial in selectedEspeciais <==> especial !in old(selectedEspeciais)
      ensures NoDup(old(selectedEspeciais)) ==> NoDup(selectedEspeciais)
    {
      if especial in selectedEspeciais {
        TogglePresent(selectedEspeciais, especial);
      } else {
        ToggleAbsent(selectedEspeciais, especial);
      }
      ToggleNoDupIf(selectedEspeciais, especial);
      selectedEspeciais := Toggle(selectedEspeciais, especial);
    }

    method ClearEspeciais()
      modifies this
      ensures selectedEspeciais == []
    {
      selectedEspeciais := [];
    }
  }

  lemma ToggleNoDupIf(xs: seq<string>, x: string)
    ensures NoDup(xs) ==> NoDup(Toggle(xs, x))
  {
    if NoDup(xs) { ToggleNoDup(xs, x); }
  }

  /** The selection after the given toggles, starting from the empty one. */
  function Toggled(toggles: seq<string>): seq<string>
  {
    if toggles == [] then [] else Toggle(Toggled(toggles[..|toggles| - 1]), toggles[|toggles| - 1])
  }

  /** How often `x` was toggled. */
  function Occurrences(toggles: seq<string>, x: string): nat
  {
    if toggles == [] then 0
    else Occurrences(toggles[..|toggles| - 1], x) + (if toggles[|toggles| - 1] == x then 1 else 0)
  }

  /** After a toggle of `x`, `x` is selected exactly when it was not, and
      every other value is as it was. */
  lemma ToggleMembership(xs: seq<string>, x: string, y: string)
    ensures y in Toggle(xs, x) <==> if y == x then x !in xs else y in xs
  {
    if x in xs { TogglePresent(xs, x); } else { ToggleAbsent(xs, x); }
  }

  /** Every sequence of toggles from the empty selection leaves a list
      without duplicates. */
  lemma {:induction false} ToggledNoDup(toggles: seq<string>)
    ensures NoDup(Toggled(toggles))
  {
    if toggles != [] {
      ToggledNoDup(toggles[..|toggles| - 1]);
      ToggleNoDup(Toggled(toggles[..|toggles| - 1]), toggles[|toggles| - 1]);
    }
  }

  /** A value is selected exactly when it was toggled an odd number of
      times. */
  lemma {:induction false} ToggledParity(toggles: seq<string>, x: string)
    ensures x in Toggled(toggles) <==> Occurrences(toggles, x) % 2 == 1
  {
    if toggles != [] {
      var init, t := toggles[..|toggles| - 1], toggles[|toggles| - 1];
      var sel := Toggled(init);
      assert Toggled(toggles) == Toggle(sel, t);
      var n := Occurrences(init, x);
      assert Occurrences(toggles, x) == n + (if t == x then 1 else 0);
      ToggledParity(init, x);
      ToggleMembership(sel, t, x);
      if t == x {
        assert (n + 1) % 2 == 1 <==> n % 2 != 1;
      }
    }
  }
}
