/** The AI tools store (src/store/aiToolsStore.ts): five simulated
    assistants that build a record from their inputs by fixed rules, wait for
    the simulated AI call, and append the record to their history. Every
    record belongs to the logged-in user '1'. */
module AITools {
  import opened Wrappers
  import opened Types
  import Strings
  import MockData

  // Long texts are written as two joined pieces, which lets the verifier
  // see their individual characters; the joined value is the source's text.

  /** The user every record is filed under. */
  const LoggedInUser: Id := "1"

  // ---------------------------------------------------------------------
  // Color formula consultant

  const FormulaNotes := "Aplicar uniformemente e deixar agir por 35-40 minutos. Verificar a cor a cada 10 minutos."
  const StrongOxidant := "Ox 30 vol + De Sírius "
  const MildOxidant := "Ox 20 vol + De Sírius "
  const IntenseAmount := "60ml oxidante + 50g coloração "
  const UsualAmount := "60ml oxidante + 40g coloração "

  /** The formula text: the stronger oxidant when the current colour sorts
      before the desired one as text, then the desired colour. */
  function FormulaText(currentColor: string, desiredColor: string): string {
    (if Strings.Below(currentColor, desiredColor) then StrongOxidant else MildOxidant) + desiredColor
  }

  /** The proportions: more colour for an intense target. */
  function ProportionsText(desiredColor: string): string {
    (if Strings.Contains(desiredColor, "intenso") then IntenseAmount else UsualAmount) + desiredColor
  }

  /** The record `generateColorFormula` builds. */
  function FormulaFor(id: Id, currentColor: string, desiredColor: string, now: Time): ColorFormula {
    ColorFormula(id, LoggedInUser, currentColor, desiredColor,
      FormulaText(currentColor, desiredColor), ProportionsText(desiredColor), FormulaNotes, now)
  }

  /** A text followed by anything still starts with its own prefix. */
  lemma StartsWithConcat(a: string, b: string, p: string)
    requires Strings.StartsWith(a, p)
    ensures Strings.StartsWith(a + b, p)
  {
    assert (a + b)[..|p|] == a[..|p|];
  }

  /** A text that differs from `p` at some position within both does not start with `p`. */
  lemma NotStartsWith(s: string, p: string, i: nat)
    requires i < |p| && i < |s| && s[i] != p[i]
    ensures !Strings.StartsWith(s, p)
  {
  }

  /** The formula names Ox 30 exactly when the current colour is below the
      desired one and Ox 20 otherwise, and ends with the desired colour. */
  lemma FormulaShape(id: Id, currentColor: string, desiredColor: string, now: Time)
    ensures var f := FormulaFor(id, currentColor, desiredColor, now);
      && (Strings.StartsWith(f.formula, "Ox 30 vol") <==> Strings.Below(currentColor, desiredColor))
      && (Strings.StartsWith(f.formula, "Ox 20 vol") <==> !Strings.Below(currentColor, desiredColor))
      && f.formula[|f.formula| - |desiredColor|..] == desiredColor
      && f.userId == LoggedInUser && f.id == id
  {
    var t := FormulaText(currentColor, desiredColor);
    assert StrongOxidant[..9] == "Ox 30 vol" && MildOxidant[..9] == "Ox 20 vol";
    if Strings.Below(currentColor, desiredColor) {
      StartsWithConcat(StrongOxidant, desiredColor, "Ox 30 vol");
      NotStartsWith(t, "Ox 20 vol", 3);
    } else {
      StartsWithConcat(MildOxidant, desiredColor, "Ox 20 vol");
      NotStartsWith(t, "Ox 30 vol", 3);
    }
  }

  /** The proportions ask for 50g exactly for an intense target. */
  lemma ProportionsShape(desiredColor: string)
    ensures Strings.StartsWith(ProportionsText(desiredColor), "60ml oxidante + 50g")
        <==> Strings.Contains(desiredColor, "intenso")
  {
    var t := ProportionsText(desiredColor);
    assert IntenseAmount[..19] == "60ml oxidante + 50g";
    if Strings.Contains(desiredColor, "intenso") {
      StartsWithConcat(IntenseAmount, desiredColor, "60ml oxidante + 50g");
    } else {
      NotStartsWith(t, "60ml oxidante + 50g", 16);
    }
  }

  /** Asking the other way round: for two different colours exactly one of
      the two requests gets the stronger oxidant; for the same colour neither. */
  lemma FormulaSwap(a: string, b: string)
    ensures a == b ==> FormulaText(a, b) == MildOxidant + b
    ensures a != b ==> (FormulaText(a, b) == StrongOxidant + b <==> FormulaText(b, a) == MildOxidant + a)
  {
    Strings.BelowStrictTotal(a, b);
    assert (StrongOxidant + b)[3] != (MildOxidant + b)[3];
    assert (StrongOxidant + a)[3] != (MildOxidant + a)[3];
  }

  // ---------------------------------------------------------------------
  // Tone converter

  /** `parseInt(currentTone) < parseInt(targetTone)`: the conversion lightens. */
  predicate Lightens(currentTone: string, targetTone: string) {
    Strings.NumberBelow(Strings.ParseInt(currentTone), Strings.ParseInt(targetTone))
  }

  /** The target asks for an ash (`.1`) finish. */
  predicate Ash(targetTone: string) {
    Strings.Contains(targetTone, ".1")
  }

  const BleachStep := "Passo 1: Descoloração com Ox 20 vol"
  const BaseStep := "Passo 1: Aplicação de base com Ox 10 vol"
  const TonerStep := "Passo 3: Matização com 0.1 " + "para neutralizar amarelo"
  const HydrationStep := "Passo 3: Hidratação profunda " + "para fixar a cor"
  const BleachPowder := "Pó descolorante De Sírius"
  const BaseColor := "Coloração base De Sírius"
  const Oxidant20 := "Oxidante 20 vol De Sírius"
  const Oxidant10 := "Oxidante 10 vol De Sírius"
  const AshBooster := "Intensificador 0.1 De Sírius"
  const HydrationMask := "Máscara de hidratação De Sírius"

  /** The three steps: bleach or base, the target colour, then toning or hydration. */
  function ConversionSteps(lighten: bool, ash: bool, targetTone: string): seq<string> {
    [ if lighten then BleachStep else BaseStep,
      "Passo 2: Aplicação de " + targetTone + " com Ox 10 vol",
      if ash then TonerStep else HydrationStep ]
  }

  /** The five products. */
  function ConversionProducts(lighten: bool, ash: bool, targetTone: string): seq<string> {
    [ if lighten then BleachPowder else BaseColor,
      if lighten then Oxidant20 else Oxidant10,
      "Coloração " + targetTone + " De Sírius",
      Oxidant10,
      if ash then AshBooster else HydrationMask ]
  }

  /** The record `convertTone` builds. */
  function ConversionFor(id: Id, currentTone: string, targetTone: string, now: Time): ToneConversion {
    var lighten := Lightens(currentTone, targetTone);
    var ash := Ash(targetTone);
    ToneConversion(id, LoggedInUser, currentTone, targetTone,
      ConversionSteps(lighten, ash, targetTone), ConversionProducts(lighten, ash, targetTone), now)
  }

  /** The lists for given decisions: which step and product each decision picks. */
  lemma ListsShape(lighten: bool, ash: bool, targetTone: string)
    ensures var steps := ConversionSteps(lighten, ash, targetTone);
      var products := ConversionProducts(lighten, ash, targetTone);
      && |steps| == 3 && |products| == 5
      && (steps[0] == BleachStep <==> lighten) && (steps[0] == BaseStep <==> !lighten)
      && (products[0] == BleachPowder <==> lighten)
      && (products[1] == Oxidant20 <==> lighten)
      && products[2] == "Coloração " + targetTone + " De Sírius"
      && products[3] == Oxidant10
      && (steps[2] == TonerStep <==> ash)
      && (products[4] == AshBooster <==> ash)
  {
    assert BleachStep[9] != BaseStep[9];
    assert BleachPowder[0] != BaseColor[0];
    assert Oxidant20[9] != Oxidant10[9];
    assert TonerStep[9] != HydrationStep[9];
    assert AshBooster[0] != HydrationMask[0];
  }

  /** Three steps and five products; bleaching and Ox 20 exactly when the
      tone number goes up, the 0.1 toner and intensifier exactly for an ash
      target, and the target colour in step 2 and among the products. */
  lemma ConversionShape(id: Id, currentTone: string, targetTone: string, now: Time)
    ensures var c := ConversionFor(id, currentTone, targetTone, now);
      var lighten := Lightens(currentTone, targetTone);
      && |c.steps| == 3 && |c.products| == 5
      && (c.steps[0] == BleachStep <==> lighten) && (c.steps[0] == BaseStep <==> !lighten)
      && (c.products[0] == BleachPowder <==> lighten)
      && (c.products[1] == Oxidant20 <==> lighten)
      && c.products[2] == "Coloração " + targetTone + " De Sírius"
      && c.products[3] == Oxidant10
      && (c.steps[2] == TonerStep <==> Ash(targetTone))
      && (c.products[4] == AshBooster <==> Ash(targetTone))
  {
    ListsShape(Lightens(currentTone, targetTone), Ash(targetTone), targetTone);
  }

  /** Step 2 applies the target colour itself. */
  lemma ConversionNamesTarget(id: Id, currentTone: string, targetTone: string, now: Time)
    ensures Strings.Contains(ConversionFor(id, currentTone, targetTone, now).steps[1], targetTone)
  {
    Strings.ContainsSuffix("Passo 2: Aplicação de ", targetTone);
    Strings.ContainsExtend("Passo 2: Aplicação de " + targetTone, " com Ox 10 vol", targetTone);
  }

  /** Tone numbers written as a level and a reflection (`7.0`, `9.1`) are
      compared by their levels: the conversion lightens exactly when the
      target level is higher. */
  lemma LightensByLevel(curLevel: string, curRest: string, tgtLevel: string, tgtRest: string)
    requires curLevel != [] && forall i :: 0 <= i < |curLevel| ==> '0' <= curLevel[i] <= '9'
    requires tgtLevel != [] && forall i :: 0 <= i < |tgtLevel| ==> '0' <= tgtLevel[i] <= '9'
    requires curRest == [] || curRest[0] == '.'
    requires tgtRest == [] || tgtRest[0] == '.'
    ensures forall i :: 0 <= i < |curLevel| ==> Strings.DigitValue(curLevel[i], 10).Some?
    ensures forall i :: 0 <= i < |tgtLevel| ==> Strings.DigitValue(tgtLevel[i], 10).Some?
    ensures Lightens(curLevel + curRest, tgtLevel + tgtRest)
        <==> Strings.DigitsValue(curLevel, 10) < Strings.DigitsValue(tgtLevel, 10)
  {
    Strings.ParseIntegerPart(curLevel, curRest);
    Strings.ParseIntegerPart(tgtLevel, tgtRest);
  }

  /** A tone that is no number (`NaN`) never lightens, whatever the target. */
  lemma NaNNeverLightens(currentTone: string, targetTone: string, id: Id, now: Time)
    requires Strings.ParseInt(currentTone).None?
    ensures ConversionFor(id, currentTone, targetTone, now).products[0] == BaseColor
  {
  }

  // ---------------------------------------------------------------------
  // Background tone analyzer

  const LightBlonde := "8.0 (Loiro Claro)"
  const LightBrown := "5.0 (Castanho Claro)"
  const VioletToner := "Para neutralizar o tom amarelado, " + "utilize um matizador com pigmento violeta"
  const HydraLine := "Recomendamos a linha Hydra " + "De Sírius para manutenção"
  const KeepHighlights := "Para manter as mechas, " + "considere retoque a cada 40 dias"
  const InPersonVisit := "Para mudar de cor, " + "considere uma avaliação presencial"
  const WeeklyHydration := "Hidratação semanal com produtos " + "da linha De Sírius"

  /** The three recommendations, from the keywords of the lower-cased description. */
  function AnalysisRecommendations(lower: string): seq<string> {
    [ if Strings.Contains(lower, "amarelado") then VioletToner else HydraLine,
      if Strings.Contains(lower, "mechas") then KeepHighlights else InPersonVisit,
      WeeklyHydration ]
  }

  /** The record `analyzeBackgroundTone` builds; the photo is only stored. */
  function AnalysisFor(id: Id, photoUrl: Option<string>, description: string, now: Time): BackgroundToneAnalysis {
    var lower := Strings.ToLower(description);
    BackgroundToneAnalysis(id, LoggedInUser, photoUrl, description,
      if Strings.Contains(lower, "loiro") then LightBlonde else LightBrown,
      AnalysisRecommendations(lower), now)
  }

  /** A blonde tone exactly when the description mentions 'loiro' in any
      case; the violet toner exactly for 'amarelado', the highlights advice
      exactly for 'mechas', and the weekly hydration always. */
  lemma AnalysisShape(id: Id, photoUrl: Option<string>, description: string, now: Time)
    ensures var a := AnalysisFor(id, photoUrl, description, now);
      var lower := Strings.ToLower(description);
      && (a.identifiedTone == LightBlonde <==> Strings.Contains(lower, "loiro"))
      && (a.identifiedTone == LightBrown <==> !Strings.Contains(lower, "loiro"))
      && |a.recommendations| == 3
      && (a.recommendations[0] == VioletToner <==> Strings.Contains(lower, "amarelado"))
      && (a.recommendations[1] == KeepHighlights <==> Strings.Contains(lower, "mechas"))
      && a.recommendations[2] == WeeklyHydration
      && a.photoUrl == photoUrl && a.description == description
  {
    assert LightBlonde[0] != LightBrown[0];
    assert VioletToner[0] != HydraLine[0];
    assert KeepHighlights[6] != InPersonVisit[6];
  }

  /** The analysis does not depend on letter case: a description and its
      lower-cased form give the same tone and the same recommendations. */
  lemma AnalysisIgnoresCase(id: Id, photoUrl: Option<string>, description: string, now: Time)
    ensures var a := AnalysisFor(id, photoUrl, description, now);
      var b := AnalysisFor(id, photoUrl, Strings.ToLower(description), now);
      a.identifiedTone == b.identifiedTone && a.recommendations == b.recommendations
  {
    Strings.ToLowerIdempotent(description);
  }

  // ---------------------------------------------------------------------
  // Unwanted tone corrector

  const YellowFix := "Utilizar matizador com " + "pigmento violeta De Sírius"
  const OrangeFix := "Aplicar coloração com reflexo " + "azul (x.8) para neutralizar"
  const RedFix := "Utilizar coloração com reflexo " + "verde (x.7) para neutralizar"
  const GreenFix := "Aplicar coloração com reflexo " + "vermelho (x.6) para neutralizar"
  const ConsultPrefix := "Consultar um profissional " + "para avaliar o reflexo "

  /** The four reflections the corrector knows, in lower case. */
  predicate KnownReflection(lower: string) {
    lower == "amarelo" || lower == "laranja" || lower == "vermelho" || lower == "verde"
  }

  /** The solution for one reflection, matched without regard to case. */
  function SolutionFor(reflection: string): string {
    var lower := Strings.ToLower(reflection);
    if lower == "amarelo" then YellowFix
    else if lower == "laranja" then OrangeFix
    else if lower == "vermelho" then RedFix
    else if lower == "verde" then GreenFix
    else ConsultPrefix + reflection
  }

  /** A known reflection gets its fixed solution whatever its case; any
      other one is sent to a professional, and the advice names it as given. */
  lemma SolutionShape(reflection: string)
    ensures KnownReflection(Strings.ToLower(reflection)) <==> !Strings.StartsWith(SolutionFor(reflection), ConsultPrefix)
    ensures KnownReflection(Strings.ToLower(reflection)) ==> SolutionFor(reflection) == SolutionFor(Strings.ToLower(reflection))
    ensures !KnownReflection(Strings.ToLower(reflection)) ==> Strings.Contains(SolutionFor(reflection), reflection)
  {
    var s := SolutionFor(reflection);
    var lower := Strings.ToLower(reflection);
    Strings.ToLowerIdempotent(reflection);
    if KnownReflection(lower) {
      assert YellowFix[0] == 'U' && OrangeFix[0] == 'A' && RedFix[0] == 'U' && GreenFix[0] == 'A';
      NotStartsWith(s, ConsultPrefix, 0);
    } else {
      assert s[..|ConsultPrefix|] == ConsultPrefix;
      Strings.ContainsSuffix(ConsultPrefix, reflection);
    }
  }

  /** The record `correctUnwantedTones` builds: one solution per reflection, in order. */
  function CorrectionFor(id: Id, reflections: seq<string>, now: Time): (r: ToneCorrection)
    ensures |r.solutions| == |reflections| && r.unwantedReflections == reflections
    ensures forall i :: 0 <= i < |reflections| ==> r.solutions[i] == SolutionFor(reflections[i])
  {
    ToneCorrection(id, LoggedInUser, reflections,
      seq(|reflections|, i requires 0 <= i < |reflections| => SolutionFor(reflections[i])), now)
  }

  /** Correcting two lists one after the other gives the solutions of
      correcting them together. */
  lemma CorrectionConcat(id: Id, xs: seq<string>, ys: seq<string>, now: Time)
    ensures CorrectionFor(id, xs + ys, now).solutions
         == CorrectionFor(id, xs, now).solutions + CorrectionFor(id, ys, now).solutions
  {
    var l := CorrectionFor(id, xs + ys, now).solutions;
    var r := CorrectionFor(id, xs, now).solutions + CorrectionFor(id, ys, now).solutions;
    assert |l| == |r|;
    forall i | 0 <= i < |l| ensures l[i] == r[i] {
      if i < |xs| { assert (xs + ys)[i] == xs[i]; } else { assert (xs + ys)[i] == ys[i - |xs|]; }
    }
  }

  // ---------------------------------------------------------------------
  // Neutralization guide

  /** The four fixed neutralization rules. */
  const NeutralizationTips: seq<string> := [
    "Amarelo se neutraliza com violeta (x.2)", "Dourado se neutraliza com cinza/azul (x.1)",
    "Alaranjado se neutraliza com azul (x.8)", "Vermelho se neutraliza com verde (x.7)"]

  const VioletShampoo := "Shampoo Matizador Violeta De Sírius"
  const ResidueShampoo := "Shampoo Anti-Resíduos De Sírius"
  const PlatinumMask := "Máscara Matizadora Platinum De Sírius"
  const HydratingMask := "Máscara Hidratante De Sírius"
  const HeatLeaveIn := "Leave-in Protetor Térmico De Sírius"
  const AshIntensifier := "Intensificador 0.1 (Cinza) De Sírius"
  const GoldIntensifier := "Intensificador 0.3 (Dourado) De Sírius"

  /** A blonde or platinum target, whatever its case. */
  predicate BlondeTarget(targetTone: string) {
    var lower := Strings.ToLower(targetTone);
    Strings.Contains(lower, "loiro") || Strings.Contains(lower, "platinado")
  }

  /** A cool target, whatever its case. */
  predicate CoolTarget(targetTone: string) {
    Strings.Contains(Strings.ToLower(targetTone), "frio")
  }

  /** The record `getNeutralizationGuide` builds. */
  function GuideFor(id: Id, targetTone: string, now: Time): NeutralizationGuide {
    var blonde := BlondeTarget(targetTone);
    NeutralizationGuide(id, LoggedInUser, targetTone, NeutralizationTips,
      [ if blonde then VioletShampoo else ResidueShampoo,
        if blonde then PlatinumMask else HydratingMask,
        HeatLeaveIn,
        if CoolTarget(targetTone) then AshIntensifier else GoldIntensifier ],
      now)
  }

  /** The tips are the seed guide's, whatever the target; toning shampoo and
      mask exactly for a blonde or platinum target, the ash intensifier
      exactly for a cool one. */
  lemma GuideShape(id: Id, targetTone: string, now: Time)
    ensures var g := GuideFor(id, targetTone, now);
      && g.neutralizationTips == MockData.NeutralizationGuides[0].neutralizationTips
      && |g.recommendedProducts| == 4
      && (g.recommendedProducts[0] == VioletShampoo <==> BlondeTarget(targetTone))
      && (g.recommendedProducts[1] == PlatinumMask <==> BlondeTarget(targetTone))
      && g.recommendedProducts[2] == HeatLeaveIn
      && (g.recommendedProducts[3] == AshIntensifier <==> CoolTarget(targetTone))
  {
    assert VioletShampoo[8] != ResidueShampoo[8];
    assert PlatinumMask[9] != HydratingMask[9];
    assert AshIntensifier[17] != GoldIntensifier[17];
  }

  // ---------------------------------------------------------------------
  // The store

  function FormulaId(f: ColorFormula): Id { f.id }
  function ConversionId(c: ToneConversion): Id { c.id }
  function AnalysisId(a: BackgroundToneAnalysis): Id { a.id }
  function CorrectionId(c: ToneCorrection): Id { c.id }
  function GuideId(g: NeutralizationGuide): Id { g.id }

  /** The seed formulas are numbered 1 and 2. */
  lemma SeedFormulasNumbered()
    ensures Numbered(MockData.Formulas, FormulaId)
  {
    assert MockData.Formulas[0].id == IdOf(1) && MockData.Formulas[1].id == IdOf(2);
    IdOfNumbered(1, 2);
    IdOfNumbered(2, 2);
  }

  /** The other seed histories hold one record each, numbered 1. */
  lemma SeedSinglesNumbered()
    ensures Numbered(MockData.ToneConversions, ConversionId)
    ensures Numbered(MockData.ToneAnalyses, AnalysisId)
    ensures Numbered(MockData.ToneCorrections, CorrectionId)
    ensures Numbered(MockData.NeutralizationGuides, GuideId)
  {
    assert MockData.ToneConversions[0].id == IdOf(1);
    assert MockData.ToneAnalyses[0].id == IdOf(1);
    assert MockData.ToneCorrections[0].id == IdOf(1);
    assert MockData.NeutralizationGuides[0].id == IdOf(1);
    IdOfNumbered(1, 1);
  }

  class AIToolsStore {
    var isLoading: bool
    var error: Option<string>
    var colorFormulas: seq<ColorFormula>
    var toneConversions: seq<ToneConversion>
    var backgroundToneAnalyses: seq<BackgroundToneAnalysis>
    var toneCorrections: seq<ToneCorrection>
    var neutralizationGuides: seq<NeutralizationGuide>

    /** Each history is numbered `1..n`, so the next number is unused. */
    ghost predicate Valid()
      reads this
    {
      && Numbered(colorFormulas, FormulaId)
      && Numbered(toneConversions, ConversionId)
      && Numbered(backgroundToneAnalyses, AnalysisId)
      && Numbered(toneCorrections, CorrectionId)
      && Numbered(neutralizationGuides, GuideId)
    }

    constructor ()
      ensures !isLoading && error == None
      ensures colorFormulas == MockData.Formulas && toneConversions == MockData.ToneConversions
      ensures backgroundToneAnalyses == MockData.ToneAnalyses && toneCorrections == MockData.ToneCorrections
      ensures neutralizationGuides == MockData.NeutralizationGuides
      ensures Valid()
    {
      isLoading, error := false, None;
      colorFormulas, toneConversions := MockData.Formulas, MockData.ToneConversions;
      backgroundToneAnalyses, toneCorrections := MockData.ToneAnalyses, MockData.ToneCorrections;
      neutralizationGuides := MockData.NeutralizationGuides;
      SeedFormulasNumbered();
      SeedSinglesNumbered();
    }

    /** `generateColorFormula`: on success the new formula, with a fresh id,
        ends the history; on failure the rejection is returned and recorded. */
    method GenerateColorFormula(currentColor: string, desiredColor: string, now: Time, delay: Delay)
      returns (r: Result<ColorFormula>)
      requires Valid()
      modifies this`colorFormulas, this`isLoading, this`error
      ensures delay.Resolves? ==>
        && r == Success(FormulaFor(IdOf(|old(colorFormulas)| + 1), currentColor, desiredColor, now))
        && colorFormulas == old(colorFormulas) + [r.value] && error == None
        && forall i :: 0 <= i < |old(colorFormulas)| ==> old(colorFormulas)[i].id != r.value.id
      ensures !delay.Resolves? ==>
        && r == Failure(RejectionMessage(delay, "Erro ao gerar fórmula de cor"))
        && colorFormulas == old(colorFormulas) && error == Some(r.error)
      ensures !isLoading && Valid()
    {
      isLoading, error := true, None;
      if delay.Resolves? {
        var formula := FormulaFor(IdOf(|colorFormulas| + 1), currentColor, desiredColor, now);
        FreshId(colorFormulas, FormulaId);
        NumberedAppend(colorFormulas, formula, FormulaId);
        colorFormulas, isLoading := colorFormulas + [formula], false;
        r := Success(formula);
      } else {
        var message := RejectionMessage(delay, "Erro ao gerar fórmula de cor");
        error, isLoading := Some(message), false;
        r := Failure(message);
      }
    }

    /** `convertTone`. */
    method ConvertTone(currentTone: string, targetTone: string, now: Time, delay: Delay)
      returns (r: Result<ToneConversion>)
      requires Valid()
      modifies this`toneConversions, this`isLoading, this`error
      ensures delay.Resolves? ==>
        && r == Success(ConversionFor(IdOf(|old(toneConversions)| + 1), currentTone, targetTone, now))
        && toneConversions == old(toneConversions) + [r.value] && error == None
        && forall i :: 0 <= i < |old(toneConversions)| ==> old(toneConversions)[i].id != r.value.id
      ensures !delay.Resolves? ==>
        && r == Failure(RejectionMessage(delay, "Erro ao converter tom"))
        && toneConversions == old(toneConversions) && error == Some(r.error)
      ensures !isLoading && Valid()
    {
      isLoading, error := true, None;
      if delay.Resolves? {
        var conversion := ConversionFor(IdOf(|toneConversions| + 1), currentTone, targetTone, now);
        FreshId(toneConversions, ConversionId);
        NumberedAppend(toneConversions, conversion, ConversionId);
        toneConversions, isLoading := toneConversions + [conversion], false;
        r := Success(conversion);
      } else {
        var message := RejectionMessage(delay, "Erro ao converter tom");
        error, isLoading := Some(message), false;
        r := Failure(message);
      }
    }

    /** `analyzeBackgroundTone`. */
    method AnalyzeBackgroundTone(photoUrl: Option<string>, description: string, now: Time, delay: Delay)
      returns (r: Result<BackgroundToneAnalysis>)
      requires Valid()
      modifies this`backgroundToneAnalyses, this`isLoading, this`error
      ensures delay.Resolves? ==>
        && r == Success(AnalysisFor(IdOf(|old(backgroundToneAnalyses)| + 1), photoUrl, description, now))
        && backgroundToneAnalyses == old(backgroundToneAnalyses) + [r.value] && error == None
        && forall i :: 0 <= i < |old(backgroundToneAnalyses)| ==> old(backgroundToneAnalyses)[i].id != r.value.id
      ensures !delay.Resolves? ==>
        && r == Failure(RejectionMessage(delay, "Erro ao analisar tom de fundo"))
        && backgroundToneAnalyses == old(backgroundToneAnalyses) && error == Some(r.error)
      ensures !isLoading && Valid()
    {
      isLoading, error := true, None;
      if delay.Resolves? {
        var analysis := AnalysisFor(IdOf(|backgroundToneAnalyses| + 1), photoUrl, description, now);
        FreshId(backgroundToneAnalyses, AnalysisId);
        NumberedAppend(backgroundToneAnalyses, analysis, AnalysisId);
        backgroundToneAnalyses, isLoading := backgroundToneAnalyses + [analysis], false;
        r := Success(analysis);
      } else {
        var message := RejectionMessage(delay, "Erro ao analisar tom de fundo");
        error, isLoading := Some(message), false;
        r := Failure(message);
      }
    }

    /** `correctUnwantedTones`. */
    method CorrectUnwantedTones(reflections: seq<string>, now: Time, delay: Delay)
      returns (r: Result<ToneCorrection>)
      requires Valid()
      modifies this`toneCorrections, this`isLoading, this`error
      ensures delay.Resolves? ==>
        && r == Success(CorrectionFor(IdOf(|old(toneCorrections)| + 1), reflections, now))
        && toneCorrections == old(toneCorrections) + [r.value] && error == None
        && forall i :: 0 <= i < |old(toneCorrections)| ==> old(toneCorrections)[i].id != r.value.id
      ensures !delay.Resolves? ==>
        && r == Failure(RejectionMessage(delay, "Erro ao corrigir tons indesejados"))
        && toneCorrections == old(toneCorrections) && error == Some(r.error)
      ensures !isLoading && Valid()
    {
      isLoading, error := true, None;
      if delay.Resolves? {
        var correction := CorrectionFor(IdOf(|toneCorrections| + 1), reflections, now);
        FreshId(toneCorrections, CorrectionId);
        NumberedAppend(toneCorrections, correction, CorrectionId);
        toneCorrections, isLoading := toneCorrections + [correction], false;
        r := Success(correction);
      } else {
        var message := RejectionMessage(delay, "Erro ao corrigir tons indesejados");
        error, isLoading := Some(message), false;
        r := Failure(message);
      }
    }

    /** `getNeutralizationGuide`. */
    method GetNeutralizationGuide(targetTone: string, now: Time, delay: Delay)
      returns (r: Result<NeutralizationGuide>)
      requires Valid()
      modifies this`neutralizationGuides, this`isLoading, this`error
      ensures delay.Resolves? ==>
        && r == Success(GuideFor(IdOf(|old(neutralizationGuides)| + 1), targetTone, now))
        && neutralizationGuides == old(neutralizationGuides) + [r.value] && error == None
        && forall i :: 0 <= i < |old(neutralizationGuides)| ==> old(neutralizationGuides)[i].id != r.value.id
      ensures !delay.Resolves? ==>
        && r == Failure(RejectionMessage(delay, "Erro ao obter guia de neutralização"))
        && neutralizationGuides == old(neutralizationGuides) && error == Some(r.error)
      ensures !isLoading && Valid()
    {
      isLoading, error := true, None;
      if delay.Resolves? {
        var guide := GuideFor(IdOf(|neutralizationGuides| + 1), targetTone, now);
        FreshId(neutralizationGuides, GuideId);
        NumberedAppend(neutralizationGuides, guide, GuideId);
        neutralizationGuides, isLoading := neutralizationGuides + [guide], false;
        r := Success(guide);
      } else {
        var message := RejectionMessage(delay, "Erro ao obter guia de neutralização");
        error, isLoading := Some(message), false;
        r := Failure(message);
      }
    }
  }
}
