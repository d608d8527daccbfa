/** Total daily energy expenditure: the basal rate times an activity factor. */
module Tdee {
  import opened Wrappers
  import opened Text
  import opened Rounding
  import Bmr

  /** Message of the `ValueError` raised for an unknown activity level. */
  const ActivityError: string := "Nivel de actividad no válido. Usa: sedentario, ligero, moderado, activo o muy activo"

  /** The activity levels, from least to most active. */
  const Levels: seq<string> := ["sedentario", "ligero", "moderado", "activo", "muy activo"]

  /** The `factores` table: the factor of a normalised activity level. */
  function Factor(actividad: string): Option<real>
  {
    if actividad == "sedentario" then Some(1.2)
    else if actividad == "ligero" then Some(1.375)
    else if actividad == "moderado" then Some(1.55)
    else if actividad == "activo" then Some(1.725)
    else if actividad == "muy activo" then Some(1.9)
    else None
  }

  /** The table holds a factor for exactly the five levels. */
  lemma FactorDefinedExactlyOnLevels(actividad: string)
    ensures Factor(actividad).Some? <==> actividad in Levels
  {
  }

  /** The expenditure before rounding: basal rate times activity factor. */
  function Expenditure(bmr: real, factor: real): real
  {
    bmr * factor
  }

  /** `calcular_tdee`: the activity is lower-cased and stripped and checked
      before the basal rate is computed; the product is rounded to 2 decimals. */
  function CalcularTdee(sexo: string, peso: real, altura: real, edad: int, actividad: string): (r: Result<real, string>)
    ensures Factor(Strip(Lower(actividad))).None? ==> r == Failure(ActivityError)
    ensures Factor(Strip(Lower(actividad))).Some? ==>
      (r.Success? <==> Bmr.CalcularBmr(sexo, peso, altura, edad).Success?)
    ensures r.Failure? && Factor(Strip(Lower(actividad))).Some? ==> r.error == Bmr.SexError
    ensures r.Success? ==>
      var exact := Expenditure(Bmr.CalcularBmr(sexo, peso, altura, edad).value, Factor(Strip(Lower(actividad))).value);
      -0.005 <= r.value - exact <= 0.005
  {
    match Factor(Strip(Lower(actividad)))
    case None => Failure(ActivityError)
    case Some(f) =>
      match Bmr.CalcularBmr(sexo, peso, altura, edad)
      case Failure(e) => Failure(e)
      case Success(bmr) =>
        RoundErrorSmall(Expenditure(bmr, f));
        Success(Round(Expenditure(bmr, f), 2))
  }

  /** An unknown activity is reported even when the sex is unknown too. */
  lemma ActivityCheckedFirst(peso: real, altura: real, edad: int)
    ensures CalcularTdee("otro", peso, altura, edad, "mucho") == Failure(ActivityError)
  {
    LowerOfLowercase("mucho");
    StripOfUnpadded("mucho");
  }

  /** The factors grow strictly along the ordering of `Levels`. */
  lemma FactorsIncrease(i: nat, j: nat)
    requires i < j < |Levels|
    ensures Factor(Levels[i]).Some? && Factor(Levels[j]).Some?
    ensures Factor(Levels[i]).value < Factor(Levels[j]).value
  {
  }

  /** For a positive basal rate, a more active level never gives a lower
      expenditure (strictly higher before the rounding to 2 decimals). */
  lemma TdeeMonotoneInActivity(sexo: string, peso: real, altura: real, edad: int, i: nat, j: nat)
    requires i < j < |Levels|
    requires Bmr.CalcularBmr(sexo, peso, altura, edad).Success?
    requires Bmr.CalcularBmr(sexo, peso, altura, edad).value > 0.0
    ensures CalcularTdee(sexo, peso, altura, edad, Levels[i]).Success?
    ensures CalcularTdee(sexo, peso, altura, edad, Levels[j]).Success?
    ensures CalcularTdee(sexo, peso, altura, edad, Levels[i]).value
         <= CalcularTdee(sexo, peso, altura, edad, Levels[j]).value
  {
    var bmr := Bmr.CalcularBmr(sexo, peso, altura, edad).value;
    LevelIsCanonical(i);
    LevelIsCanonical(j);
    FactorsIncrease(i, j);
    ExpenditureIncreases(bmr, Factor(Levels[i]).value, Factor(Levels[j]).value);
    RoundMonotone(Expenditure(bmr, Factor(Levels[i]).value), Expenditure(bmr, Factor(Levels[j]).value), 2);
  }

  lemma ExpenditureIncreases(bmr: real, f: real, g: real)
    requires bmr > 0.0 && f < g
    ensures Expenditure(bmr, f) < Expenditure(bmr, g)
  {
  }

  /** Every level is already lower-case and stripped. */
  lemma LevelIsCanonical(i: nat)
    requires i < |Levels|
    ensures Strip(Lower(Levels[i])) == Levels[i]
  {
    var w := Levels[i];
    LevelLetters(i, w);
    CanonicalWord(w);
  }

  lemma LevelLetters(i: nat, w: string)
    requires i < |Levels| && w == Levels[i]
    ensures forall k :: 0 <= k < |w| ==> 'a' <= w[k] <= 'z' || w[k] == ' '
    ensures w != [] ==> w[0] != ' ' && w[|w| - 1] != ' '
  {
  }
}
