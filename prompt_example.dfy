/** A worked prompt for `POST /plan/` (`generar_plan`): the sentence below is read
    as a 20-year-old man of 75 kg and 173 cm with moderate activity who
    wants to keep his weight. */
module PromptExample {
  import opened Wrappers
  import opened Text
  import opened PlanParser
  import opened Rounding
  import Bmr

  /** The prompt, as a user types it. Long literals are kept as short pieces,
      grouped to the right, so that the verifier reasons about each piece on
      its own. */
  const Prompt := "Tengo 20 años" + (", peso 75 kg" + (", mido 173 cm" + (", soy hombre" + (", tengo"
    + (" actividad" + (" moderada" + (" y quiero" + " mantenimiento")))))))

  /** Its lower-case form. */
  const Lowered := "tengo 20 años" + (", peso 75 kg" + (", mido 173 cm" + (", soy hombre" + (", tengo"
    + (" actividad" + (" moderada" + (" y quiero" + " mantenimiento")))))))

  lemma LowerKeepsChunk(c: string, rest: string)
    requires forall i :: 0 <= i < |c| ==> LowerChar(c[i]) == c[i]
    requires Lower(rest) == rest
    ensures Lower(c + rest) == c + rest
  {
    LowerConcat(c, rest);
  }

  lemma TailLowered(r8: string, r7: string, r6: string, r5: string, r4: string, r3: string, r2: string, r1: string)
    requires r8 == " mantenimiento" && r7 == " y quiero" + r8 && r6 == " moderada" + r7
    requires r5 == " actividad" + r6 && r4 == ", tengo" + r5 && r3 == ", soy hombre" + r4
    requires r2 == ", mido 173 cm" + r3 && r1 == ", peso 75 kg" + r2
    ensures Lower(r1) == r1
  {
    LowerCharwise(r8, r8);
    LowerKeepsChunk(" y quiero", r8);
    LowerKeepsChunk(" moderada", r7);
    LowerKeepsChunk(" actividad", r6);
    LowerKeepsChunk(", tengo", r5);
    LowerKeepsChunk(", soy hombre", r4);
    LowerKeepsChunk(", mido 173 cm", r3);
    LowerKeepsChunk(", peso 75 kg", r2);
  }

  lemma FirstChunkLowered()
    ensures Lower("Tengo 20 años") == "tengo 20 años"
  {
    LowerCharwise("Tengo 20 años", "tengo 20 años");
  }

  lemma HeadLowered(r1: string)
    requires Lower(r1) == r1
    ensures Lower("Tengo 20 años" + r1) == "tengo 20 años" + r1
  {
    LowerConcat("Tengo 20 años", r1);
    FirstChunkLowered();
  }

  /** Lower-casing the prompt changes only its first letter. */
  lemma PromptLowered()
    ensures Lower(Prompt) == Lowered
  {
    var r8 := " mantenimiento";
    var r7 := " y quiero" + r8;
    var r6 := " moderada" + r7;
    var r5 := " actividad" + r6;
    var r4 := ", tengo" + r5;
    var r3 := ", soy hombre" + r4;
    var r2 := ", mido 173 cm" + r3;
    var r1 := ", peso 75 kg" + r2;
    TailLowered(r8, r7, r6, r5, r4, r3, r2, r1);
    HeadLowered(r1);
  }

  /** The age is the "20" before "años"; nothing to its left matches. */
  lemma AgeRead(a: string, rest: string)
    requires a == "tengo 20 años"
    ensures Capture(Age, a + rest) == Some("20")
  {
    var s := a + rest;
    assert DigitRunEnd(a, 8) == 8;
    assert DigitRunEnd(a, 7) == 8;
    assert DigitRunEnd(a, 6) == 8;
    assert SpaceRunEnd(a, 9) == 9;
    assert SpaceRunEnd(a, 8) == 9;
    assert OccursAt(a, "año", 9);
    assert MatchAt(Age, a, 6) == Some(8);
    MatchAtSound(Age, a, 6, 8);
    MatchesExtend(Age, a, rest, 6, 8);
    forall j, k | 0 <= j < 6 ensures !Matches(Age, s, j, k) {
      assert s[j] == a[j];
      NoMatchAtNonDigit(Age, s, j, k);
    }
    LeftmostMatchCaptured(Age, s, 6, 8);
    assert s[6..8] == a[6..8] == "20";
  }

  lemma WeightMatch(b: string, rest: string)
    requires b == ", peso 75 kg"
    ensures Matches(Weight, b + rest, 7, 9)
  {
    assert DigitRunEnd(b, 9) == 9;
    assert DigitRunEnd(b, 8) == 9;
    assert DigitRunEnd(b, 7) == 9;
    assert SpaceRunEnd(b, 10) == 10;
    assert SpaceRunEnd(b, 9) == 10;
    assert OccursAt(b, "kg", 10);
    assert MatchAt(Weight, b, 7) == Some(9);
    MatchAtSound(Weight, b, 7, 9);
    MatchesExtend(Weight, b, rest, 7, 9);
  }

  /** The weight is the "75" before "kg": the "20" before it is followed by
      "años", which is not a weight unit. */
  lemma WeightRead(a: string, b: string, rest: string)
    requires a == "tengo 20 años" && b == ", peso 75 kg"
    ensures Capture(Weight, a + (b + rest)) == Some("75")
  {
    var s := a + (b + rest);
    WeightMatch(b, rest);
    MatchesShift(Weight, a, b + rest, 7, 9);
    NoWeightInAge(a, b, rest);
    NoWeightBeforeNumber(a, b, rest);
    LeftmostMatchCaptured(Weight, s, 20, 22);
    assert s[20..22] == b[7..9] == "75";
  }

  /** "20 a…" is not followed by a weight unit. */
  lemma NoWeightInAge(a: string, b: string, rest: string)
    requires a == "tengo 20 años" && b == ", peso 75 kg"
    ensures forall j, k :: 0 <= j < 13 ==> !Matches(Weight, a + (b + rest), j, k)
  {
    var s := a + (b + rest);
    forall j, k | 0 <= j < 13 ensures !Matches(Weight, s, j, k) {
      if j == 6 || j == 7 {
        assert s[6] == a[6] && s[7] == a[7] && s[8] == a[8] && s[9] == a[9];
        NoMatchBeforeOtherUnit(Weight, s, j, 8, 9, k);
      } else {
        assert s[j] == a[j];
        NoMatchAtNonDigit(Weight, s, j, k);
      }
    }
  }

  /** ", peso " holds no digit. */
  lemma NoWeightBeforeNumber(a: string, b: string, rest: string)
    requires a == "tengo 20 años" && b == ", peso 75 kg"
    ensures forall j, k :: 13 <= j < 20 ==> !Matches(Weight, a + (b + rest), j, k)
  {
    var s := a + (b + rest);
    forall j, k | 13 <= j < 20 ensures !Matches(Weight, s, j, k) {
      assert s[j] == b[j - 13];
      NoMatchAtNonDigit(Weight, s, j, k);
    }
  }

  lemma HeightMatch(c: string, rest: string)
    requires c == ", mido 173 cm"
    ensures Matches(Height, c + rest, 7, 10)
  {
    assert DigitRunEnd(c, 10) == 10;
    assert DigitRunEnd(c, 9) == 10;
    assert DigitRunEnd(c, 8) == 10;
    assert DigitRunEnd(c, 7) == 10;
    assert SpaceRunEnd(c, 11) == 11;
    assert SpaceRunEnd(c, 10) == 11;
    assert OccursAt(c, "cm", 11);
    assert MatchAt(Height, c, 7) == Some(10);
    MatchAtSound(Height, c, 7, 10);
    MatchesExtend(Height, c, rest, 7, 10);
  }

  /** The height is the "173" before "cm": neither "20 a…" nor "75 k…" is
      followed by a height unit. */
  lemma HeightRead(a: string, b: string, c: string, rest: string)
    requires a == "tengo 20 años" && b == ", peso 75 kg" && c == ", mido 173 cm"
    ensures Capture(Height, a + (b + (c + rest))) == Some("173")
  {
    var s := a + (b + (c + rest));
    HeightMatch(c, rest);
    MatchesShift(Height, b, c + rest, 7, 10);
    MatchesShift(Height, a, b + (c + rest), 19, 22);
    NoHeightInAge(a, b, c, rest);
    NoHeightInWeight(a, b, c, rest);
    NoHeightBeforeNumber(a, b, c, rest);
    LeftmostMatchCaptured(Height, s, 32, 35);
    assert s[32..35] == c[7..10] == "173";
  }

  /** "20 a…" is not followed by a height unit. */
  lemma NoHeightInAge(a: string, b: string, c: string, rest: string)
    requires a == "tengo 20 años" && b == ", peso 75 kg" && c == ", mido 173 cm"
    ensures forall j, k :: 0 <= j < 13 ==> !Matches(Height, a + (b + (c + rest)), j, k)
  {
    var s := a + (b + (c + rest));
    forall j, k | 0 <= j < 13 ensures !Matches(Height, s, j, k) {
      if j == 6 || j == 7 {
        assert s[6] == a[6] && s[7] == a[7] && s[8] == a[8] && s[9] == a[9];
        NoMatchBeforeOtherUnit(Height, s, j, 8, 9, k);
      } else {
        assert s[j] == a[j];
        NoMatchAtNonDigit(Height, s, j, k);
      }
    }
  }

  /** "75 k…" is not followed by a height unit. */
  lemma NoHeightInWeight(a: string, b: string, c: string, rest: string)
    requires a == "tengo 20 años" && b == ", peso 75 kg" && c == ", mido 173 cm"
    ensures forall j, k :: 13 <= j < 25 ==> !Matches(Height, a + (b + (c + rest)), j, k)
  {
    var s := a + (b + (c + rest));
    forall j, k | 13 <= j < 25 ensures !Matches(Height, s, j, k) {
      if j == 20 || j == 21 {
        assert s[20] == b[7] && s[21] == b[8] && s[22] == b[9] && s[23] == b[10];
        NoMatchBeforeOtherUnit(Height, s, j, 22, 23, k);
      } else {
        assert s[j] == b[j - 13];
        NoMatchAtNonDigit(Height, s, j, k);
      }
    }
  }

  /** ", mido " holds no digit. */
  lemma NoHeightBeforeNumber(a: string, b: string, c: string, rest: string)
    requires a == "tengo 20 años" && b == ", peso 75 kg" && c == ", mido 173 cm"
    ensures forall j, k :: 25 <= j < 32 ==> !Matches(Height, a + (b + (c + rest)), j, k)
  {
    var s := a + (b + (c + rest));
    forall j, k | 25 <= j < 32 ensures !Matches(Height, s, j, k) {
      assert s[j] == c[j - 25];
      NoMatchAtNonDigit(Height, s, j, k);
    }
  }

  /** A word with no comma and no blank is absent from the lowered prompt as
      soon as it is absent from every piece: it cannot straddle a seam. */
  lemma AbsentFromChunks(w: string, a: string, b: string, c: string, d: string, e1: string, e2: string,
    f1: string, f2: string, g: string)
    requires forall j :: 0 <= j < |w| ==> w[j] != ',' && w[j] != ' '
    requires b != [] && (b[0] == ',' || b[0] == ' ') && c != [] && (c[0] == ',' || c[0] == ' ')
    requires d != [] && (d[0] == ',' || d[0] == ' ') && e1 != [] && (e1[0] == ',' || e1[0] == ' ')
    requires e2 != [] && (e2[0] == ',' || e2[0] == ' ') && f1 != [] && (f1[0] == ',' || f1[0] == ' ')
    requires f2 != [] && (f2[0] == ',' || f2[0] == ' ') && g != [] && (g[0] == ',' || g[0] == ' ')
    requires !Contains(a, w) && !Contains(b, w) && !Contains(c, w) && !Contains(d, w)
    requires !Contains(e1, w) && !Contains(e2, w) && !Contains(f1, w) && !Contains(f2, w) && !Contains(g, w)
    ensures !Contains(a + (b + (c + (d + (e1 + (e2 + (f1 + (f2 + g))))))), w)
  {
    AbsentAcrossJoin(f2, g, w);
    AbsentAcrossJoin(f1, f2 + g, w);
    AbsentAcrossJoin(e2, f1 + (f2 + g), w);
    AbsentAcrossJoin(e1, e2 + (f1 + (f2 + g)), w);
    AbsentAcrossJoin(d, e1 + (e2 + (f1 + (f2 + g))), w);
    AbsentAcrossJoin(c, d + (e1 + (e2 + (f1 + (f2 + g)))), w);
    AbsentAcrossJoin(b, c + (d + (e1 + (e2 + (f1 + (f2 + g))))), w);
    AbsentAcrossJoin(a, b + (c + (d + (e1 + (e2 + (f1 + (f2 + g)))))), w);
  }

  /** "mujer" does not occur, so the sex is "hombre". */
  lemma NoMujer()
    ensures !Contains(Lowered, "mujer")
  {
    var w := "mujer";
    AbsentCharRulesOut("tengo 20 años", w, 2);
    AbsentCharRulesOut(", peso 75 kg", w, 2);
    AbsentCharRulesOut(", mido 173 cm", w, 2);
    AbsentCharRulesOut(", soy hombre", w, 2);
    AbsentCharRulesOut(", tengo", w, 2);
    AbsentCharRulesOut(" actividad", w, 2);
    AbsentCharRulesOut(" moderada", w, 2);
    AbsentCharRulesOut(" y quiero", w, 2);
    AbsentCharRulesOut(" mantenimiento", w, 2);
    AbsentFromChunks(w, "tengo 20 años", ", peso 75 kg", ", mido 173 cm", ", soy hombre", ", tengo",
      " actividad", " moderada", " y quiero", " mantenimiento");
  }

  /** "actividad" spells "activi…", not "activa". */
  lemma ActividadNotActiva()
    ensures !Contains(" actividad", "activa")
  {
    var s, w := " actividad", "activa";
    forall i: nat | i + |w| <= |s|
      ensures !OccursAt(s, w, i)
    {
      if i == 1 {
        MismatchRulesOut(s, w, 1, 5);
      } else {
        MismatchRulesOut(s, w, i, 0);
      }
    }
  }

  lemma ModeradaNotModerado()
    ensures !Contains(" moderada", "moderado")
  {
    var s, w := " moderada", "moderado";
    forall i: nat | i + |w| <= |s|
      ensures !OccursAt(s, w, i)
    {
      if i == 1 {
        MismatchRulesOut(s, w, 1, 7);
      } else {
        MismatchRulesOut(s, w, i, 0);
      }
    }
  }

  lemma NoMuy()
    ensures !Contains(Lowered, "muy")
  {
    var w := "muy";
    AbsentCharRulesOut("tengo 20 años", w, 0);
    AbsentCharRulesOut(", peso 75 kg", w, 0);
    AbsentCharRulesOut(", mido 173 cm", w, 1);
    AbsentCharRulesOut(", soy hombre", w, 1);
    AbsentCharRulesOut(", tengo", w, 0);
    AbsentCharRulesOut(" actividad", w, 0);
    AbsentCharRulesOut(" moderada", w, 1);
    AbsentCharRulesOut(" y quiero", w, 0);
    AbsentCharRulesOut(" mantenimiento", w, 1);
    AbsentFromChunks(w, "tengo 20 años", ", peso 75 kg", ", mido 173 cm", ", soy hombre", ", tengo", " actividad", " moderada", " y quiero", " mantenimiento");
  }

  lemma NoActivo()
    ensures !Contains(Lowered, "activo")
  {
    var w := "activo";
    AbsentCharRulesOut("tengo 20 años", w, 4);
    AbsentCharRulesOut(", peso 75 kg", w, 4);
    AbsentCharRulesOut(", mido 173 cm", w, 4);
    AbsentCharRulesOut(", soy hombre", w, 4);
    AbsentCharRulesOut(", tengo", w, 4);
    AbsentCharRulesOut(" actividad", w, 5);
    AbsentCharRulesOut(" moderada", w, 4);
    AbsentCharRulesOut(" y quiero", w, 4);
    AbsentCharRulesOut(" mantenimiento", w, 4);
    AbsentFromChunks(w, "tengo 20 años", ", peso 75 kg", ", mido 173 cm", ", soy hombre", ", tengo", " actividad", " moderada", " y quiero", " mantenimiento");
  }

  lemma NoActiva()
    ensures !Contains(Lowered, "activa")
  {
    var w := "activa";
    AbsentCharRulesOut("tengo 20 años", w, 4);
    AbsentCharRulesOut(", peso 75 kg", w, 4);
    AbsentCharRulesOut(", mido 173 cm", w, 4);
    AbsentCharRulesOut(", soy hombre", w, 4);
    AbsentCharRulesOut(", tengo", w, 4);
    ActividadNotActiva();
    AbsentCharRulesOut(" moderada", w, 4);
    AbsentCharRulesOut(" y quiero", w, 4);
    AbsentCharRulesOut(" mantenimiento", w, 4);
    AbsentFromChunks(w, "tengo 20 años", ", peso 75 kg", ", mido 173 cm", ", soy hombre", ", tengo", " actividad", " moderada", " y quiero", " mantenimiento");
  }

  lemma NoModerado()
    ensures !Contains(Lowered, "moderado")
  {
    var w := "moderado";
    AbsentCharRulesOut("tengo 20 años", w, 0);
    AbsentCharRulesOut(", peso 75 kg", w, 0);
    AbsentCharRulesOut(", mido 173 cm", w, 4);
    AbsentCharRulesOut(", soy hombre", w, 2);
    AbsentCharRulesOut(", tengo", w, 0);
    AbsentCharRulesOut(" actividad", w, 0);
    ModeradaNotModerado();
    AbsentCharRulesOut(" y quiero", w, 0);
    AbsentCharRulesOut(" mantenimiento", w, 2);
    AbsentFromChunks(w, "tengo 20 años", ", peso 75 kg", ", mido 173 cm", ", soy hombre", ", tengo", " actividad", " moderada", " y quiero", " mantenimiento");
  }

  lemma NoSuperavit()
    ensures !Contains(Lowered, "superavit")
  {
    var w := "superavit";
    AbsentCharRulesOut("tengo 20 años", w, 6);
    AbsentCharRulesOut(", peso 75 kg", w, 6);
    AbsentCharRulesOut(", mido 173 cm", w, 6);
    AbsentCharRulesOut(", soy hombre", w, 6);
    AbsentCharRulesOut(", tengo", w, 6);
    AbsentCharRulesOut(" actividad", w, 1);
    AbsentCharRulesOut(" moderada", w, 6);
    AbsentCharRulesOut(" y quiero", w, 6);
    AbsentCharRulesOut(" mantenimiento", w, 6);
    AbsentFromChunks(w, "tengo 20 años", ", peso 75 kg", ", mido 173 cm", ", soy hombre", ", tengo", " actividad", " moderada", " y quiero", " mantenimiento");
  }

  lemma NoDeficitAccented()
    ensures !Contains(Lowered, "déficit")
  {
    var w := "déficit";
    AbsentCharRulesOut("tengo 20 años", w, 1);
    AbsentCharRulesOut(", peso 75 kg", w, 1);
    AbsentCharRulesOut(", mido 173 cm", w, 1);
    AbsentCharRulesOut(", soy hombre", w, 1);
    AbsentCharRulesOut(", tengo", w, 1);
    AbsentCharRulesOut(" actividad", w, 1);
    AbsentCharRulesOut(" moderada", w, 1);
    AbsentCharRulesOut(" y quiero", w, 1);
    AbsentCharRulesOut(" mantenimiento", w, 1);
    AbsentFromChunks(w, "tengo 20 años", ", peso 75 kg", ", mido 173 cm", ", soy hombre", ", tengo", " actividad", " moderada", " y quiero", " mantenimiento");
  }

  lemma NoDeficit()
    ensures !Contains(Lowered, "deficit")
  {
    var w := "deficit";
    AbsentCharRulesOut("tengo 20 años", w, 2);
    AbsentCharRulesOut(", peso 75 kg", w, 2);
    AbsentCharRulesOut(", mido 173 cm", w, 2);
    AbsentCharRulesOut(", soy hombre", w, 2);
    AbsentCharRulesOut(", tengo", w, 2);
    AbsentCharRulesOut(" actividad", w, 2);
    AbsentCharRulesOut(" moderada", w, 2);
    AbsentCharRulesOut(" y quiero", w, 2);
    AbsentCharRulesOut(" mantenimiento", w, 2);
    AbsentFromChunks(w, "tengo 20 años", ", peso 75 kg", ", mido 173 cm", ", soy hombre", ", tengo", " actividad", " moderada", " y quiero", " mantenimiento");
  }

  lemma HasModerada()
    ensures Contains(Lowered, "moderada")
  {
    var f1, r := " moderada", " y quiero" + " mantenimiento";
    assert OccursAt(f1, "moderada", 1);
    ContainsLeft(f1, r, "moderada");
    var e2 := " actividad";
    ContainsRight(e2, f1 + r, "moderada");
    var e1 := ", tengo";
    ContainsRight(e1, e2 + (f1 + r), "moderada");
    var d := ", soy hombre";
    ContainsRight(d, e1 + (e2 + (f1 + r)), "moderada");
    var c := ", mido 173 cm";
    ContainsRight(c, d + (e1 + (e2 + (f1 + r))), "moderada");
    var b := ", peso 75 kg";
    ContainsRight(b, c + (d + (e1 + (e2 + (f1 + r)))), "moderada");
    var a := "tengo 20 años";
    ContainsRight(a, b + (c + (d + (e1 + (e2 + (f1 + r))))), "moderada");
  }

  /** "actividad" is not an activity pattern and "moderada" is the first one
      present, so the level is "moderado". */
  lemma LevelRead()
    ensures Pick(Variantes, Lowered, "sedentario") == "moderado"
  {
    NoMuy();
    assert "muy activo"[..3] == "muy" && "muy activa"[..3] == "muy";
    AbsentPrefixRulesOut(Lowered, "muy activo", 3);
    AbsentPrefixRulesOut(Lowered, "muy activa", 3);
    NoActivo();
    NoActiva();
    NoModerado();
    HasModerada();
    assert FirstHit(Variantes, Lowered, 0) == Some(5);
  }

  /** No goal before "mantenimiento" occurs, so the goal is "mantenimiento". */
  lemma GoalRead()
    ensures Pick(Objetivos, Lowered, "mantenimiento") == "mantenimiento"
  {
    NoSuperavit();
    NoDeficitAccented();
    NoDeficit();
    var r := FirstHit(Objetivos, Lowered, 0);
    assert r.Some? ==> r.value == 3;
  }

  /** The fields `generar_plan` reads from the prompt. */
  lemma PromptRead()
    ensures Extract(Lower(Prompt))
      == Some(DatosCompleto(20, 75.0, 173.0, "hombre", "moderado", "mantenimiento"))
  {
    PromptLowered();
    NumbersRead();
    NumberValues();
    NoMujer();
    LevelRead();
    GoalRead();
  }

  /** The three searches find "20", "75" and "173". */
  lemma NumbersRead()
    ensures Capture(Age, Lowered) == Some("20")
    ensures Capture(Weight, Lowered) == Some("75")
    ensures Capture(Height, Lowered) == Some("173")
  {
    var a, b, c := "tengo 20 años", ", peso 75 kg", ", mido 173 cm";
    var r3 := ", soy hombre" + (", tengo" + (" actividad" + (" moderada" + (" y quiero" + " mantenimiento"))));
    assert Lowered == a + (b + (c + r3));
    AgeRead(a, b + (c + r3));
    WeightRead(a, b, c + r3);
    HeightRead(a, b, c, r3);
  }

  lemma NumberValues()
    ensures DigitsValue("20") == 20
    ensures IsNumeral(Weight, "75") && ToFloat("75") == 75.0
    ensures IsNumeral(Weight, "173") && ToFloat("173") == 173.0
  {
    WholeValue("75", 75);
    WholeValue("173", 173);
  }

  lemma WholeValue(t: string, n: nat)
    requires (t == "75" && n == 75) || (t == "173" && n == 173)
    ensures IsNumeral(Weight, t) && ToFloat(t) == n as real
  {
    if t == "75" {
      assert DigitsValue("75") == 75;
    } else {
      assert "173"[..2] == "17" && "17"[..1] == "1";
      assert DigitsValue("173") == 173;
    }
    ToFloatOfDigits(t);
  }

  /** The prompt gets a complete answer: the basal rate of a man of 75 kg,
      173 cm and 20 years, rounded to 2 decimals, and an expenditure and a
      split, since every field read is accepted by the calculators. */
  lemma PromptAnswered()
    ensures PlanFor(Prompt)
      == Answer(DatosCompleto(20, 75.0, 173.0, "hombre", "moderado", "mantenimiento"))
    ensures PlanFor(Prompt).bmr == Some(Round(Bmr.MaleBmr(75.0, 173.0, 20), 2))
    ensures PlanFor(Prompt).tdee.Some? && PlanFor(Prompt).porcentajes.Some?
  {
    PromptRead();
    PlanAnsweredIffNumbersFound(Prompt);
    LowerCharwise("hombre", "hombre");
  }
}
