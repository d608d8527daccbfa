/** The calorie target and the carbohydrate/protein/fat split for a goal. */
module Macros {
  import opened Wrappers
  import opened Text
  import opened Rounding

  /** Message of the `ValueError` raised for an unknown goal. */
  const GoalError: string := "Objetivo no válido. Usa: deficit, mantenimiento o superavit"

  const Goals: seq<string> := ["deficit", "mantenimiento", "superavit"]

  /** The `ajustes` table: the calorie adjustment of a normalised goal. */
  function Adjustment(objetivo: string): Option<real>
  {
    if objetivo == "deficit" then Some(0.85)
    else if objetivo == "mantenimiento" then Some(1.0)
    else if objetivo == "superavit" then Some(1.1)
    else None
  }

  /** Shares of the calorie target, in the source's (C, P, G) order. */
  datatype Split = Split(carbohidratos: real, proteinas: real, grasas: real)

  /** The `splits` table. */
  function SplitOf(objetivo: string): Option<Split>
  {
    if objetivo == "deficit" then Some(Split(0.40, 0.30, 0.30))
    else if objetivo == "mantenimiento" then Some(Split(0.50, 0.25, 0.25))
    else if objetivo == "superavit" then Some(Split(0.50, 0.25, 0.25))
    else None
  }

  /** The result dictionary of `calcular_macros`. */
  datatype MacroPlan = MacroPlan(
    caloriasObjetivo: real,
    carbohidratosG: real,
    proteinasG: real,
    grasasG: real,
    porcentajes: Split)

  /** `kcal * fraction`: the calories given to one share. */
  function Share(kcal: real, fraction: real): real
  {
    kcal * fraction
  }

  /** Grams before rounding: 4 kcal per gram of carbohydrate and protein,
      9 kcal per gram of fat. */
  function CarbGrams(kcal: real, s: Split): real { Share(kcal, s.carbohidratos) / 4.0 }
  function ProteinGrams(kcal: real, s: Split): real { Share(kcal, s.proteinas) / 4.0 }
  function FatGrams(kcal: real, s: Split): real { Share(kcal, s.grasas) / 9.0 }

  /** The energy of a plan's macronutrients at 4/4/9 kcal per gram. */
  function EnergyOf(carb: real, protein: real, fat: real): real
  {
    4.0 * carb + 4.0 * protein + 9.0 * fat
  }

  /** Both tables are defined on exactly the three goals. */
  lemma TablesDefinedOnGoals(objetivo: string)
    ensures Adjustment(objetivo).Some? <==> objetivo in Goals
    ensures SplitOf(objetivo).Some? <==> objetivo in Goals
  {
  }

  /** Every split adds up to 1, and maintenance and surplus share theirs. */
  lemma SplitsSumToOne(objetivo: string)
    requires SplitOf(objetivo).Some?
    ensures var s := SplitOf(objetivo).value; s.carbohidratos + s.proteinas + s.grasas == 1.0
    ensures SplitOf("mantenimiento") == SplitOf("superavit")
  {
  }

  /** Before rounding, the grams of a split give back exactly the calories
      they were computed from. */
  lemma ExactGramsKeepEnergy(kcal: real, s: Split)
    requires s.carbohidratos + s.proteinas + s.grasas == 1.0
    ensures EnergyOf(CarbGrams(kcal, s), ProteinGrams(kcal, s), FatGrams(kcal, s)) == kcal
  {
    assert Share(kcal, s.carbohidratos) + Share(kcal, s.proteinas) + Share(kcal, s.grasas)
        == kcal * (s.carbohidratos + s.proteinas + s.grasas);
  }

  /** `calcular_macros`: the goal is lower-cased and stripped; an unknown goal
      raises `ValueError`. Otherwise the target is the expenditure times the
      goal's adjustment, each macro's grams are its share of the target over
      4 or 9 kcal per gram, rounded to one decimal, and the split used is
      returned. */
  function CalcularMacros(tdee: real, objetivo: string): (r: Result<MacroPlan, string>)
    ensures Adjustment(Strip(Lower(objetivo))).None? <==> r.Failure?
    ensures r.Failure? ==> r.error == GoalError
    ensures r.Success? ==>
      var goal := Strip(Lower(objetivo));
      var target := Share(tdee, Adjustment(goal).value);
      var p := r.value;
      && SplitOf(goal).Some?
      && p.porcentajes == SplitOf(goal).value
      && p.porcentajes.carbohidratos + p.porcentajes.proteinas + p.porcentajes.grasas == 1.0
      && -0.005 <= p.caloriasObjetivo - target <= 0.005
      && -0.05 <= p.carbohidratosG - CarbGrams(target, p.porcentajes) <= 0.05
      && -0.05 <= p.proteinasG - ProteinGrams(target, p.porcentajes) <= 0.05
      && -0.05 <= p.grasasG - FatGrams(target, p.porcentajes) <= 0.05
      && -0.85 <= EnergyOf(p.carbohidratosG, p.proteinasG, p.grasasG) - target <= 0.85
  {
    var goal := Strip(Lower(objetivo));
    match Adjustment(goal)
    case None => Failure(GoalError)
    case Some(adj) =>
      var kcal := Share(tdee, adj);
      var s := SplitOf(goal).value;
      SplitsSumToOne(goal);
      ExactGramsKeepEnergy(kcal, s);
      RoundErrorSmall(kcal);
      RoundErrorSmall(CarbGrams(kcal, s));
      RoundErrorSmall(ProteinGrams(kcal, s));
      RoundErrorSmall(FatGrams(kcal, s));
      Success(MacroPlan(
        Round(kcal, 2),
        Round(CarbGrams(kcal, s), 1),
        Round(ProteinGrams(kcal, s), 1),
        Round(FatGrams(kcal, s), 1),
        s))
  }

  /** The goal is matched after lower-casing and stripping. */
  lemma GoalIsNormalised(tdee: real)
    ensures CalcularMacros(tdee, " Deficit ").Success?
  {
    DeficitNormalised(" Deficit ", "deficit");
    assert Adjustment("deficit").Some?;
  }

  lemma DeficitNormalised(x: string, w: string)
    requires x == " Deficit " && w == "deficit"
    ensures Strip(Lower(x)) == w
  {
    LowerCharwise(x, " " + w + " ");
    LetterIsNotSpace(w[0]);
    LetterIsNotSpace(w[|w| - 1]);
    StripOneBlank(w);
  }

  /** A goal outside the table is refused. */
  lemma UnknownGoalRefused(tdee: real)
    ensures CalcularMacros(tdee, "ganar") == Failure(GoalError)
  {
    LowerOfLowercase("ganar");
    StripOfUnpadded("ganar");
  }
}
