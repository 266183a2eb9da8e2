/** The three-step hair diagnosis wizard (src/pages/tools/DiagnosisPage.tsx):
    step 1 collects the chemical processes and heat tools with an exclusive
    "none" option, step 2 the hair condition, step 3 shows the result. */
module DiagnosisPage {
  import opened Wrappers
  import opened Types
  import Seqs
  import Selections
  import Diagnosis

  /** The option that excludes every other one. */
  const Nenhum := "nenhum"

  /** `handleChemicalToggle` and `handleHeatToolsToggle`: choosing 'nenhum'
      selects it alone, choosing anything while 'nenhum' is selected replaces
      it, and otherwise the plain toggle applies. */
  function ExclusiveToggle(selected: seq<string>, value: string): seq<string> {
    if value == Nenhum then [Nenhum]
    else if Nenhum in selected then [value]
    else Selections.Toggle(selected, value)
  }

  /** The shape every reachable selection has: 'nenhum' only on its own, and
      no value twice. */
  ghost predicate WellFormed(selected: seq<string>) {
    && (Nenhum in selected ==> selected == [Nenhum])
    && Seqs.Distinct(selected)
  }

  /** The three cases of the toggle, stated by their effect. */
  lemma ExclusiveToggleCases(selected: seq<string>, value: string)
    ensures value == Nenhum ==> ExclusiveToggle(selected, value) == [Nenhum]
    ensures value != Nenhum && Nenhum in selected ==> ExclusiveToggle(selected, value) == [value]
    ensures value != Nenhum && Nenhum !in selected && value in selected ==>
      && value !in ExclusiveToggle(selected, value)
      && forall x :: x != value ==> multiset(ExclusiveToggle(selected, value))[x] == multiset(selected)[x]
    ensures value != Nenhum && Nenhum !in selected && value !in selected ==>
      ExclusiveToggle(selected, value) == selected + [value]
  {
    Selections.ToggleContents(selected, value);
  }

  /** Toggling keeps a selection well formed. */
  lemma ExclusiveToggleWellFormed(selected: seq<string>, value: string)
    requires WellFormed(selected)
    ensures WellFormed(ExclusiveToggle(selected, value))
  {
    var r := ExclusiveToggle(selected, value);
    if value == Nenhum || Nenhum in selected {
      assert forall x :: multiset(r)[x] == if x == r[0] then 1 else 0;
    } else {
      Selections.ToggleDistinct(selected, value);
      Selections.ToggleContents(selected, value);
    }
  }

  /** The selection after a run of clicks, starting from `start`. */
  function ToggleAll(start: seq<string>, clicks: seq<string>): seq<string>
    decreases |clicks|
  {
    if clicks == [] then start else ToggleAll(ExclusiveToggle(start, clicks[0]), clicks[1..])
  }

  /** Every selection the page can reach from the empty one is well formed. */
  lemma {:induction false} ReachableWellFormed(start: seq<string>, clicks: seq<string>)
    requires WellFormed(start)
    ensures WellFormed(ToggleAll(start, clicks))
    decreases |clicks|
  {
    if clicks != [] {
      ExclusiveToggleWellFormed(start, clicks[0]);
      ReachableWellFormed(ExclusiveToggle(start, clicks[0]), clicks[1..]);
    }
  }

  /** The step 2 form; the scalp condition is asked but not used by the analysis. */
  datatype Step2Form = Step2Form(breakage: string, elasticity: string, porosity: string,
                                 density: string, scalpCondition: string)

  /** The answers `onSubmitStep2` sends: both selections and the step 2 form. */
  function AnswersFor(chemical: seq<string>, heatTools: seq<string>, data: Step2Form): (a: Diagnosis.Answers)
    ensures a.chemicalProcesses == Some(chemical) && a.heatTools == Some(heatTools)
    ensures a.breakage == data.breakage && a.elasticity == data.elasticity
    ensures a.porosity == data.porosity && a.density == data.density
  {
    Diagnosis.Answers(Some(chemical), Some(heatTools), data.breakage, data.elasticity, data.porosity, data.density)
  }

  class DiagnosisWizard {
    const store: Diagnosis.DiagnosisStore
    var step: int
    var selectedChemical: seq<string>
    var selectedHeatTools: seq<string>
    var diagnosis: Option<HairDiagnosis>

    /** The page is on one of its three steps, shows a result only when it
        has one, and both selections are well formed. */
    ghost predicate Valid()
      reads this, store`diagnoses
    {
      && store.Valid()
      && 1 <= step <= 3
      && (step == 3 ==> diagnosis.Some?)
      && WellFormed(selectedChemical) && WellFormed(selectedHeatTools)
    }

    constructor (store: Diagnosis.DiagnosisStore)
      requires store.Valid()
      ensures this.store == store
      ensures step == 1 && selectedChemical == [] && selectedHeatTools == [] && diagnosis == None
      ensures Valid()
    {
      this.store := store;
      step := 1;
      selectedChemical, selectedHeatTools := [], [];
      diagnosis := None;
    }

    method ToggleChemical(value: string)
      requires Valid()
      modifies this`selectedChemical
      ensures selectedChemical == ExclusiveToggle(old(selectedChemical), value)
      ensures Valid()
    {
      ExclusiveToggleWellFormed(selectedChemical, value);
      selectedChemical := ExclusiveToggle(selectedChemical, value);
    }

    method ToggleHeatTools(value: string)
      requires Valid()
      modifies this`selectedHeatTools
      ensures selectedHeatTools == ExclusiveToggle(old(selectedHeatTools), value)
      ensures Valid()
    {
      ExclusiveToggleWellFormed(selectedHeatTools, value);
      selectedHeatTools := ExclusiveToggle(selectedHeatTools, value);
    }

    /** The "Próximo" button is disabled while either selection is empty. */
    function NextDisabled(): (r: bool)
      reads this`selectedChemical, this`selectedHeatTools
      ensures !r <==> selectedChemical != [] && selectedHeatTools != []
    {
      |selectedChemical| == 0 || |selectedHeatTools| == 0
    }

    /** Pressing "Próximo", shown on step 1 only: with the button enabled, `onSubmitStep1` moves to step 2. */
    method Next()
      requires Valid() && step == 1
      modifies this`step
      ensures step == if old(NextDisabled()) then old(step) else 2
      ensures Valid()
    {
      if !NextDisabled() {
        step := 2;
      }
    }

    /** "Voltar", shown on step 2 only: back to step 1, keeping the selections. */
    method Back()
      requires Valid() && step == 2
      modifies this`step
      ensures step == 1 && Valid()
    {
      step := 1;
    }

    /** `onSubmitStep2`, the form of step 2: analyse the answers; on success show the diagnosis
        on step 3, on failure stay where the page is (the store keeps the error). */
    method SubmitStep2(data: Step2Form, now: Time, delay: Delay)
      requires Valid() && step == 2
      modifies this`step, this`diagnosis, store
      ensures delay.Resolves? ==>
        && step == 3
        && diagnosis == Some(Diagnosis.Diagnose(IdOf(|old(store.diagnoses)| + 1),
                                                AnswersFor(selectedChemical, selectedHeatTools, data), now))
        && store.currentDiagnosis == diagnosis
        && store.diagnoses == old(store.diagnoses) + [diagnosis.value]
        && store.error == None
      ensures !delay.Resolves? ==>
        && step == old(step) && diagnosis == old(diagnosis)
        && store.diagnoses == old(store.diagnoses)
        && store.currentDiagnosis == old(store.currentDiagnosis)
        && store.error == Some(RejectionMessage(delay, "Erro ao analisar danos"))
      ensures !store.isLoading
      ensures Valid()
    {
      var answers := AnswersFor(selectedChemical, selectedHeatTools, data);
      var result := store.AnalyzeDamage(answers, now, delay);
      if result.Success? {
        diagnosis := Some(result.value);
        step := 3;
      }
    }

    /** "Novo diagnóstico": back to an empty step 1. */
    method Restart()
      requires Valid()
      modifies this`step, this`selectedChemical, this`selectedHeatTools, this`diagnosis
      ensures step == 1 && selectedChemical == [] && selectedHeatTools == [] && diagnosis == None
      ensures Valid()
    {
      step := 1;
      selectedChemical, selectedHeatTools := [], [];
      diagnosis := None;
    }
  }
}
