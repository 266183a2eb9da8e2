/** The hair-diagnosis store (src/store/diagnosisStore.ts): a deterministic
    damage score, the issue and recommendation lists derived from it, the
    product list built from a stored diagnosis, and the lookups. */
module Diagnosis {
  import opened Wrappers
  import opened Types
  import Seqs
  import MockData

  /** The questionnaire answers `analyzeDamage` reads. The two lists may be
      absent (`answers.heatTools?.…`); the text answers are plain strings. */
  datatype Answers = Answers(
    chemicalProcesses: Option<seq<string>>, heatTools: Option<seq<string>>,
    breakage: string, elasticity: string, porosity: string, density: string)

  /** `xs?.includes(v)`: false when the list is absent. */
  predicate Includes(xs: Option<seq<string>>, v: string) {
    xs.Some? && v in xs.value
  }

  /** The points for chemical processes: coloração 1, descoloração 2,
      relaxamento 2, permanente 1. */
  function ChemicalPoints(xs: Option<seq<string>>): nat {
    (if Includes(xs, "coloração") then 1 else 0) + (if Includes(xs, "descoloração") then 2 else 0)
    + (if Includes(xs, "relaxamento") then 2 else 0) + (if Includes(xs, "permanente") then 1 else 0)
  }

  /** The points for heat tools: secador 1, chapinha 2, babyliss 1. */
  function HeatPoints(xs: Option<seq<string>>): nat {
    (if Includes(xs, "secador") then 1 else 0) + (if Includes(xs, "chapinha") then 2 else 0)
    + (if Includes(xs, "babyliss") then 1 else 0)
  }

  function BreakagePoints(breakage: string): nat {
    if breakage == "muito" then 2 else if breakage == "pouco" then 1 else 0
  }

  /** The score before clamping: a base of 1 plus the fixed increments. */
  function RawScore(a: Answers): int {
    1 + ChemicalPoints(a.chemicalProcesses) + HeatPoints(a.heatTools) + BreakagePoints(a.breakage)
    + (if a.elasticity == "baixa" then 1 else 0) + (if a.porosity == "alta" then 1 else 0)
  }

  /** `Math.min(10, Math.max(1, x))`. */
  function Clamp(x: int): int {
    if x > 10 then 10 else if x < 1 then 1 else x
  }

  /** The damage level a diagnosis records. */
  function DamageLevel(a: Answers): int {
    Clamp(RawScore(a))
  }

  /** The unclamped score lies in 1..15, so the level lies in 1..10, and
      the clamp only cuts scores above 10. */
  lemma ScoreBounds(a: Answers)
    ensures 1 <= RawScore(a) <= 15
    ensures 1 <= DamageLevel(a) <= 10
    ensures DamageLevel(a) == if RawScore(a) > 10 then 10 else RawScore(a)
  {
  }

  /** Every option `xs` includes is also included by `ys`. */
  ghost predicate Covers(ys: Option<seq<string>>, xs: Option<seq<string>>) {
    forall v :: Includes(xs, v) ==> Includes(ys, v)
  }

  /** Adding chemical processes or heat tools never lowers the score. */
  lemma ScoreMonotone(a: Answers, b: Answers)
    requires Covers(b.chemicalProcesses, a.chemicalProcesses) && Covers(b.heatTools, a.heatTools)
    requires a.breakage == b.breakage && a.elasticity == b.elasticity && a.porosity == b.porosity
    ensures RawScore(a) <= RawScore(b)
    ensures DamageLevel(a) <= DamageLevel(b)
  {
  }

  const ChemicalDamage := "Danos químicos"
  const HeatDamage := "Danos por calor"
  const Breakage := "Quebra"
  const HighPorosity := "Porosidade alta"
  const LowElasticity := "Elasticidade reduzida"

  /** The issue list for five conditions, in this fixed order. */
  function IssueList(chemical: bool, heat: bool, breakage: bool, porosity: bool, elasticity: bool): seq<string> {
    (if chemical then [ChemicalDamage] else []) + (if heat then [HeatDamage] else [])
    + (if breakage then [Breakage] else []) + (if porosity then [HighPorosity] else [])
    + (if elasticity then [LowElasticity] else [])
  }

  /** The reported issues, each under its condition. */
  function Issues(level: int, a: Answers): seq<string> {
    IssueList(level > 5, a.heatTools.Some? && |a.heatTools.value| > 0,
              a.breakage == "muito" || a.breakage == "pouco", a.porosity == "alta",
              a.elasticity == "baixa")
  }

  lemma DistinctLabels()
    ensures ChemicalDamage != HeatDamage && ChemicalDamage != Breakage && ChemicalDamage != HighPorosity
    ensures ChemicalDamage != LowElasticity && HeatDamage != Breakage && HeatDamage != HighPorosity
    ensures HeatDamage != LowElasticity && Breakage != HighPorosity && Breakage != LowElasticity
    ensures HighPorosity != LowElasticity
  {
    assert ChemicalDamage[6] != HeatDamage[6];
  }

  /** Each label is in the list exactly when its condition holds, and the
      list holds nothing else. */
  lemma IssueListIff(chemical: bool, heat: bool, breakage: bool, porosity: bool, elasticity: bool)
    ensures var r := IssueList(chemical, heat, breakage, porosity, elasticity);
      && (ChemicalDamage in r <==> chemical) && (HeatDamage in r <==> heat)
      && (Breakage in r <==> breakage) && (HighPorosity in r <==> porosity)
      && (LowElasticity in r <==> elasticity)
      && forall i :: 0 <= i < |r| ==> r[i] in [ChemicalDamage, HeatDamage, Breakage, HighPorosity, LowElasticity]
  {
    DistinctLabels();
  }

  /** Each issue is reported exactly when its condition holds, and nothing
      else is reported; note that a heat-tool answer `['nenhum']` still
      counts as heat damage. */
  lemma IssuesIff(level: int, a: Answers)
    ensures ChemicalDamage in Issues(level, a) <==> level > 5
    ensures HeatDamage in Issues(level, a) <==> a.heatTools.Some? && |a.heatTools.value| > 0
    ensures Breakage in Issues(level, a) <==> a.breakage == "muito" || a.breakage == "pouco"
    ensures HighPorosity in Issues(level, a) <==> a.porosity == "alta"
    ensures LowElasticity in Issues(level, a) <==> a.elasticity == "baixa"
    ensures forall i :: 0 <= i < |Issues(level, a)| ==>
      Issues(level, a)[i] in [ChemicalDamage, HeatDamage, Breakage, HighPorosity, LowElasticity]
  {
    IssueListIff(level > 5, a.heatTools.Some? && |a.heatTools.value| > 0,
                 a.breakage == "muito" || a.breakage == "pouco", a.porosity == "alta",
                 a.elasticity == "baixa");
  }

  /** The treatment plan for a damage tier. */
  function TierPlan(level: int): (plan: seq<string>)
    ensures |plan| == if level >= 4 then 3 else 2
  {
    if level >= 7 then
      ["Linha de Reconstrução Profunda De Sírius", "Tratamento intensivo semanal por 2 meses",
       "Evitar processos químicos por 60 dias"]
    else if level >= 4 then
      ["Linha de Nutrição De Sírius", "Tratamento quinzenal por 3 meses",
       "Reduzir uso de ferramentas térmicas"]
    else
      ["Linha de Manutenção De Sírius", "Tratamento mensal para prevenção"]
  }

  const Sealant := "Selante de cutículas De Sírius"
  const ProteinAmpoules := "Ampolas de proteína De Sírius"

  /** The recommendations: the tier plan, then the sealant for high
      porosity, then protein ampoules for low elasticity. */
  function Recommendations(level: int, a: Answers): seq<string> {
    TierPlan(level)
    + (if a.porosity == "alta" then [Sealant] else [])
    + (if a.elasticity == "baixa" then [ProteinAmpoules] else [])
  }

  /** The diagnosis `analyzeDamage` builds for the logged-in user ('1'). */
  function Diagnose(id: Id, a: Answers, now: Time): HairDiagnosis {
    var level := DamageLevel(a);
    HairDiagnosis(id, "1", level, a.porosity, a.elasticity, a.density,
                  Issues(level, a), Recommendations(level, a), now)
  }

  /** The recommendations start with the tier plan (3 entries from level 4
      on, 2 below) and add the sealant exactly for high porosity and the
      protein ampoules exactly for low elasticity. */
  lemma RecommendationsShape(level: int, a: Answers)
    ensures |Recommendations(level, a)| == (if level >= 4 then 3 else 2)
                                           + (if a.porosity == "alta" then 1 else 0)
                                           + (if a.elasticity == "baixa" then 1 else 0)
    ensures Recommendations(level, a)[..|TierPlan(level)|] == TierPlan(level)
    ensures Sealant in Recommendations(level, a) <==> a.porosity == "alta"
    ensures ProteinAmpoules in Recommendations(level, a) <==> a.elasticity == "baixa"
  {
    var t := TierPlan(level);
    forall i | 0 <= i < |t|
      ensures t[i][0] in "LTER"
    {
    }
    assert Sealant[0] == 'S' && ProteinAmpoules[0] == 'A';
  }

  /** A new diagnosis has a level in 1..10, reports chemical damage exactly
      above level 5, and recommends the sealant and the ampoules exactly for
      high porosity and low elasticity. */
  lemma DiagnoseShape(id: Id, a: Answers, now: Time)
    ensures var d := Diagnose(id, a, now);
      && d.id == id && d.userId == "1" && d.createdAt == now
      && 1 <= d.damageLevel <= 10
      && (ChemicalDamage in d.issues <==> d.damageLevel > 5)
      && (Sealant in d.recommendations <==> a.porosity == "alta")
      && (ProteinAmpoules in d.recommendations <==> a.elasticity == "baixa")
  {
    ScoreBounds(a);
    IssuesIff(DamageLevel(a), a);
    RecommendationsShape(DamageLevel(a), a);
  }

  /** The tier of products `recommendProducts` adds first. */
  function ProductTier(level: int): seq<string> {
    if level >= 7 then
      ["Shampoo Reconstrutor De Sírius", "Condicionador Reconstrutor De Sírius",
       "Máscara Reconstrutora De Sírius", "Ampolas de Reconstrução De Sírius (tratamento de choque)"]
    else if level >= 4 then
      ["Shampoo Nutritivo De Sírius", "Condicionador Nutritivo De Sírius", "Máscara Nutritiva De Sírius"]
    else
      ["Shampoo Manutenção De Sírius", "Condicionador Manutenção De Sírius", "Leave-in De Sírius"]
  }

  /** The products `recommendProducts` lists after a stored diagnosis's own
      recommendations: the tier, then one product per matching trait. */
  function ProductPlan(d: HairDiagnosis): seq<string> {
    ProductTier(d.damageLevel) + ProductExtras(d)
  }

  /** One product per matching trait: high porosity, low elasticity, fine density. */
  function ProductExtras(d: HairDiagnosis): seq<string> {
    (if d.porosity == "alta" then ["Sérum Selante De Sírius"] else [])
    + (if d.elasticity == "baixa" then ["Ampolas de Queratina De Sírius"] else [])
    + (if d.density == "fina" then ["Mousse Volumizador De Sírius"] else [])
  }

  /** Each trait product appears exactly when its trait holds. */
  lemma ProductExtrasIff(d: HairDiagnosis)
    ensures |ProductExtras(d)| == (if d.porosity == "alta" then 1 else 0)
                                  + (if d.elasticity == "baixa" then 1 else 0)
                                  + (if d.density == "fina" then 1 else 0)
    ensures "Sérum Selante De Sírius" in ProductExtras(d) <==> d.porosity == "alta"
    ensures "Ampolas de Queratina De Sírius" in ProductExtras(d) <==> d.elasticity == "baixa"
    ensures "Mousse Volumizador De Sírius" in ProductExtras(d) <==> d.density == "fina"
  {
    assert "Sérum Selante De Sírius"[0] == 'S' && "Ampolas de Queratina De Sírius"[0] == 'A';
    assert "Mousse Volumizador De Sírius"[0] == 'M';
  }

  /** The product list is the tier (4 products from level 7 on, 3 below)
      followed by the trait products. */
  lemma ProductPlanShape(d: HairDiagnosis)
    ensures |ProductTier(d.damageLevel)| == if d.damageLevel >= 7 then 4 else 3
    ensures ProductPlan(d)[..|ProductTier(d.damageLevel)|] == ProductTier(d.damageLevel)
    ensures ProductPlan(d)[|ProductTier(d.damageLevel)|..] == ProductExtras(d)
  {
  }

  /** The scoring steps of `analyzeDamage`: increments on a running level,
      then the clamp. */
  method ScoreDamage(answers: Answers) returns (level: int)
    ensures level == DamageLevel(answers)
  {
    var chemical, heat := answers.chemicalProcesses, answers.heatTools;
    level := 1;
    if Includes(chemical, "coloração") { level := level + 1; }
    if Includes(chemical, "descoloração") { level := level + 2; }
    if Includes(chemical, "relaxamento") { level := level + 2; }
    if Includes(chemical, "permanente") { level := level + 1; }
    assert level == 1 + ChemicalPoints(chemical);
    if Includes(heat, "secador") { level := level + 1; }
    if Includes(heat, "chapinha") { level := level + 2; }
    if Includes(heat, "babyliss") { level := level + 1; }
    assert level == 1 + ChemicalPoints(chemical) + HeatPoints(heat);
    if answers.breakage == "muito" { level := level + 2; }
    else if answers.breakage == "pouco" { level := level + 1; }
    if answers.elasticity == "baixa" { level := level + 1; }
    if answers.porosity == "alta" { level := level + 1; }
    level := Clamp(level);
  }

  /** The recommendation pushes of `analyzeDamage`; the two extras are
      chosen by looking the issues up, which agrees with the answers. */
  method PlanRecommendations(level: int, issues: seq<string>, answers: Answers) returns (recommendations: seq<string>)
    requires issues == Issues(level, answers)
    ensures recommendations == Recommendations(level, answers)
  {
    recommendations := [];
    if level >= 7 {
      recommendations := recommendations + ["Linha de Reconstrução Profunda De Sírius"];
      recommendations := recommendations + ["Tratamento intensivo semanal por 2 meses"];
      recommendations := recommendations + ["Evitar processos químicos por 60 dias"];
    } else if level >= 4 {
      recommendations := recommendations + ["Linha de Nutrição De Sírius"];
      recommendations := recommendations + ["Tratamento quinzenal por 3 meses"];
      recommendations := recommendations + ["Reduzir uso de ferramentas térmicas"];
    } else {
      recommendations := recommendations + ["Linha de Manutenção De Sírius"];
      recommendations := recommendations + ["Tratamento mensal para prevenção"];
    }
    assert recommendations == TierPlan(level);
    IssuesIff(level, answers);
    if HighPorosity in issues { recommendations := recommendations + [Sealant]; }
    if LowElasticity in issues { recommendations := recommendations + [ProteinAmpoules]; }
  }

  function DiagnosisId(d: HairDiagnosis): Id {
    d.id
  }

  /** The seed diagnoses are numbered 1 and 2. */
  lemma SeedDiagnosesNumbered()
    ensures Numbered(MockData.Diagnoses, DiagnosisId)
  {
    var ds := MockData.Diagnoses;
    assert |ds| == 2;
    assert ds[0].id == IdOf(1) && ds[1].id == IdOf(2);
    IdOfNumbered(1, 2);
    IdOfNumbered(2, 2);
  }

  class DiagnosisStore {
    var diagnoses: seq<HairDiagnosis>
    var currentDiagnosis: Option<HairDiagnosis>
    var isLoading: bool
    var error: Option<string>

    /** The diagnoses are numbered `1..n`, so the next id is free. */
    ghost predicate Valid()
      reads this`diagnoses
    {
      Numbered(diagnoses, DiagnosisId)
    }

    constructor ()
      ensures diagnoses == MockData.Diagnoses && currentDiagnosis == None
      ensures !isLoading && error == None
      ensures Valid()
    {
      diagnoses := MockData.Diagnoses;
      currentDiagnosis := None;
      isLoading := false;
      error := None;
      SeedDiagnosesNumbered();
    }

    /** `analyzeDamage`: score the answers, derive issues and
        recommendations, and append the diagnosis once the simulated
        processing resolves. */
    method AnalyzeDamage(answers: Answers, now: Time, delay: Delay) returns (r: Result<HairDiagnosis>)
      requires Valid()
      modifies this
      ensures Valid()
      ensures delay.Resolves? ==>
        && r == Success(Diagnose(IdOf(|old(diagnoses)| + 1), answers, now))
        && (forall i :: 0 <= i < |old(diagnoses)| ==> old(diagnoses)[i].id != r.value.id)
        && diagnoses == old(diagnoses) + [r.value]
        && currentDiagnosis == Some(r.value)
        && error == None
      ensures !delay.Resolves? ==>
        && r == Failure(RejectionMessage(delay, "Erro ao analisar danos"))
        && diagnoses == old(diagnoses)
        && currentDiagnosis == old(currentDiagnosis)
        && error == Some(r.error)
      ensures !isLoading
    {
      isLoading, error := true, None;
      var level := ScoreDamage(answers);
      var issues := Issues(level, answers);
      var recommendations := PlanRecommendations(level, issues, answers);

      var diagnosis := HairDiagnosis(IdOf(|diagnoses| + 1), "1", level, answers.porosity,
                                     answers.elasticity, answers.density, issues, recommendations, now);
      if delay.Resolves? {
        FreshId(diagnoses, DiagnosisId);
        NumberedAppend(diagnoses, diagnosis, DiagnosisId);
        diagnoses := diagnoses + [diagnosis];
        currentDiagnosis := Some(diagnosis);
        isLoading := false;
        r := Success(diagnosis);
      } else {
        var message := RejectionMessage(delay, "Erro ao analisar danos");
        error, isLoading := Some(message), false;
        r := Failure(message);
      }
    }

    /** `recommendProducts`: a copy of the stored diagnosis's
        recommendations extended with products; the stored diagnosis is
        left as it was. */
    method RecommendProducts(diagnosisId: Id, delay: Delay) returns (r: Result<seq<string>>)
      modifies this`isLoading, this`error
      ensures diagnoses == old(diagnoses) && currentDiagnosis == old(currentDiagnosis)
      ensures GetDiagnosis(diagnosisId).None? ==>
        r == Failure("Diagnóstico não encontrado") && error == Some(r.error)
      ensures GetDiagnosis(diagnosisId).Some? && delay.Resolves? ==>
        var d := GetDiagnosis(diagnosisId).value;
        r == Success(d.recommendations + ProductPlan(d)) && error == None
      ensures GetDiagnosis(diagnosisId).Some? && !delay.Resolves? ==>
        r == Failure(RejectionMessage(delay, "Erro ao recomendar produtos")) && error == Some(r.error)
      ensures !isLoading
    {
      isLoading, error := true, None;
      var found := GetDiagnosis(diagnosisId);
      if found.None? {
        error, isLoading := Some("Diagnóstico não encontrado"), false;
        return Failure("Diagnóstico não encontrado");
      }
      var d := found.value;
      var recommendations := d.recommendations + ProductPlan(d);
      if delay.Resolves? {
        isLoading := false;
        r := Success(recommendations);
      } else {
        var message := RejectionMessage(delay, "Erro ao recomendar produtos");
        error, isLoading := Some(message), false;
        r := Failure(message);
      }
    }

    /** `getDiagnosis`: the first stored diagnosis with that id. */
    function GetDiagnosis(id: Id): (r: Option<HairDiagnosis>)
      reads this
      ensures r.Some? <==> exists i :: 0 <= i < |diagnoses| && diagnoses[i].id == id
      ensures r.Some? ==> exists i :: 0 <= i < |diagnoses| && diagnoses[i] == r.value && r.value.id == id
                                      && forall j :: 0 <= j < i ==> diagnoses[j].id != id
    {
      Seqs.Find(diagnoses, (d: HairDiagnosis) => d.id == id)
    }

    /** `getUserDiagnoses`: the stored diagnoses of one user. */
    function GetUserDiagnoses(userId: Id): (r: seq<HairDiagnosis>)
      reads this
      ensures forall i :: 0 <= i < |r| ==> r[i].userId == userId && r[i] in diagnoses
      ensures forall i :: 0 <= i < |diagnoses| && diagnoses[i].userId == userId ==> diagnoses[i] in r
    {
      Seqs.Filter(diagnoses, (d: HairDiagnosis) => d.userId == userId)
    }
  }

  /** A user's history holds each of their diagnoses as often as the store does. */
  lemma UserDiagnosesExact(store: DiagnosisStore, userId: Id, d: HairDiagnosis)
    ensures multiset(store.GetUserDiagnoses(userId))[d]
            == if d.userId == userId then multiset(store.diagnoses)[d] else 0
  {
    Seqs.FilterCount(store.diagnoses, (x: HairDiagnosis) => x.userId == userId, d);
  }

  /** A new diagnosis joins the end of its user's history; others' are unchanged. */
  lemma UserDiagnosesAppend(ds: seq<HairDiagnosis>, d: HairDiagnosis, userId: Id)
    ensures Seqs.Filter(ds + [d], (x: HairDiagnosis) => x.userId == userId)
            == Seqs.Filter(ds, (x: HairDiagnosis) => x.userId == userId)
               + (if d.userId == userId then [d] else [])
  {
    Seqs.FilterConcat(ds, [d], (x: HairDiagnosis) => x.userId == userId);
  }
}
