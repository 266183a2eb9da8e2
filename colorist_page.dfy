/** The unwanted-tone part of the colorist page (src/pages/tools/ColoristPage.tsx):
    a multi-select of reflections and the button that asks the AI tools
    store for corrections. */
module ColoristPage {
  import opened Wrappers
  import opened Types
  import Seqs
  import Strings
  import Selections
  import AITools

  /** The reflections the page offers, as written on its buttons. */
  const Offered: seq<string> := ["Amarelo", "Laranja", "Vermelho", "Verde", "Azul", "Violeta"]

  /** The first four offered reflections have a fixed correction, since the
      store compares them in lower case; blue and violet get the advice to
      see a professional. */
  lemma OfferedKnown()
    ensures forall i :: 0 <= i < 4 ==> AITools.KnownReflection(Strings.ToLower(Offered[i]))
    ensures forall i :: 4 <= i < |Offered| ==> !AITools.KnownReflection(Strings.ToLower(Offered[i]))
  {
    assert Strings.ToLower("Amarelo") == "amarelo";
    assert Strings.ToLower("Laranja") == "laranja";
    assert Strings.ToLower("Vermelho") == "vermelho";
    assert Strings.ToLower("Verde") == "verde";
    assert Strings.ToLower("Azul")[0] == 'a' && Strings.ToLower("Azul")[1] == 'z';
    assert Strings.ToLower("Violeta")[0] == 'v' && |Strings.ToLower("Violeta")| == 7;
  }

  class ToneCorrectionForm {
    const store: AITools.AIToolsStore
    var selectedReflections: seq<string>

    /** A reflection is selected at most once. */
    ghost predicate Valid()
      reads this, store
    {
      store.Valid() && Seqs.Distinct(selectedReflections)
    }

    constructor (store: AITools.AIToolsStore)
      requires store.Valid()
      ensures this.store == store && selectedReflections == []
      ensures Valid()
    {
      this.store := store;
      selectedReflections := [];
    }

    /** `handleReflectionChange`. */
    method ToggleReflection(value: string)
      requires Valid()
      modifies this`selectedReflections
      ensures selectedReflections == Selections.Toggle(old(selectedReflections), value)
      ensures Valid()
    {
      Selections.ToggleDistinct(selectedReflections, value);
      selectedReflections := Selections.Toggle(selectedReflections, value);
    }

    /** "Obter Correções" is disabled while nothing is selected. */
    function SubmitDisabled(): (r: bool)
      reads this`selectedReflections
      ensures r <==> selectedReflections == []
    {
      |selectedReflections| == 0
    }

    /** `onToneCorrectionSubmit`: with nothing selected no request is made
        and the store is untouched; otherwise the store records the
        correction of the selection, or the failure. */
    method Submit(now: Time, delay: Delay)
      requires Valid()
      modifies store`toneCorrections, store`isLoading, store`error
      ensures selectedReflections == [] ==>
        store.toneCorrections == old(store.toneCorrections) && store.error == old(store.error)
        && store.isLoading == old(store.isLoading)
      ensures selectedReflections != [] && delay.Resolves? ==>
        store.toneCorrections == old(store.toneCorrections)
          + [AITools.CorrectionFor(IdOf(|old(store.toneCorrections)| + 1), selectedReflections, now)]
        && store.error == None
      ensures selectedReflections != [] ==> !store.isLoading
      ensures selectedReflections != [] && !delay.Resolves? ==>
        store.toneCorrections == old(store.toneCorrections)
        && store.error == Some(RejectionMessage(delay, "Erro ao corrigir tons indesejados"))
      ensures Valid()
    {
      if |selectedReflections| == 0 {
        return;
      }
      var _ := store.CorrectUnwantedTones(selectedReflections, now, delay);
    }
  }
}
