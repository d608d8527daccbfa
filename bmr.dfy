/** Basal metabolic rate by the revised Harris–Benedict equation
    (Roza & Shizgal, 1984), one formula per sex. */
module Bmr {
  import opened Wrappers
  import opened Text

  /** Message of the `ValueError` raised for an unknown sex. */
  const SexError: string := "Sexo no válido: usa 'hombre' o 'mujer'"

  function MaleBmr(peso: real, altura: real, edad: int): real
  {
    88.362 + 13.397 * peso + 4.799 * altura - 5.677 * (edad as real)
  }

  function FemaleBmr(peso: real, altura: real, edad: int): real
  {
    447.593 + 9.247 * peso + 3.098 * altura - 4.330 * (edad as real)
  }

  /** `calcular_bmr`: the sex is lower-cased (not stripped) and must then be
      exactly "hombre" or "mujer"; anything else raises `ValueError`. */
  function CalcularBmr(sexo: string, peso: real, altura: real, edad: int): (r: Result<real, string>)
    ensures r.Success? <==> Lower(sexo) == "hombre" || Lower(sexo) == "mujer"
    ensures r.Failure? ==> r.error == SexError
  {
    if Lower(sexo) == "hombre" then Success(MaleBmr(peso, altura, edad))
    else if Lower(sexo) == "mujer" then Success(FemaleBmr(peso, altura, edad))
    else Failure(SexError)
  }

  /** Only the lower-cased sex matters: "Hombre", "HOMBRE" and "hombre" agree. */
  lemma SexIsCaseInsensitive(sexo: string, peso: real, altura: real, edad: int)
    ensures CalcularBmr(sexo, peso, altura, edad) == CalcularBmr(Lower(sexo), peso, altura, edad)
  {
    LowerIdempotent(sexo);
  }

  /** The sex is not stripped: a surrounding blank makes it invalid. */
  lemma SexIsNotStripped(peso: real, altura: real, edad: int)
    ensures CalcularBmr("Hombre", peso, altura, edad) == Success(MaleBmr(peso, altura, edad))
    ensures CalcularBmr("hombre ", peso, altura, edad) == Failure(SexError)
  {
    assert Lower("Hombre") == "hombre";
    assert Lower("hombre ") == "hombre ";
  }

  /** For both sexes the rate grows strictly with weight and with height and
      falls strictly with age. */
  lemma BmrMonotone(sexo: string, peso: real, altura: real, edad: int, peso': real, altura': real, edad': int)
    requires CalcularBmr(sexo, peso, altura, edad).Success?
    requires peso <= peso' && altura <= altura' && edad >= edad'
    requires peso < peso' || altura < altura' || edad > edad'
    ensures CalcularBmr(sexo, peso, altura, edad).value < CalcularBmr(sexo, peso', altura', edad').value
  {
  }
}
