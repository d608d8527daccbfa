/** The two plan endpoints of `main.py`: `calcular_plan`, which takes the
    person's data as fields, and `generar_plan`, which reads age, weight,
    height, sex, activity and goal out of a free-text prompt with regular
    expressions and substring tests and answers with all fields empty when
    anything goes wrong. */
module PlanParser {
  import opened Wrappers
  import opened Text
  import opened Rounding
  import Bmr
  import Tdee
  import Macros

  // ---------------------------------------------------------------------------
  // The three regular expressions
  // ---------------------------------------------------------------------------

  /** The three searched patterns:
      Age    `(\d+)\s*(años|año)`,
      Weight `(\d+(?:[.,]\d+)?)\s*(kg|kilogramos?)`,
      Height `(\d+(?:[.,]\d+)?)\s*(cm|cent[ií]metros?)`. */
  datatype Quantity = Age | Weight | Height

  predicate IsSeparator(c: char)
  {
    c == '.' || c == ','
  }

  /** The unit group matches at `m`. Each alternative is reduced to the
      shortest text it matches, which is all that decides whether a match
      exists (the unit group itself is never read). */
  predicate UnitAt(q: Quantity, s: string, m: nat)
  {
    match q
    case Age => OccursAt(s, "año", m)
    case Weight => OccursAt(s, "kg", m) || OccursAt(s, "kilogramo", m)
    case Height => OccursAt(s, "cm", m) || OccursAt(s, "centimetro", m) || OccursAt(s, "centímetro", m)
  }

  /** Text the number group matches: `\d+`, or for weight and height also
      `\d+[.,]\d+`. */
  predicate IsNumeral(q: Quantity, t: string)
  {
    (|t| > 0 && forall i :: 0 <= i < |t| ==> IsDigit(t[i]))
    || (q != Age && exists p :: (0 < p < |t| - 1 && IsSeparator(t[p])
          && forall i :: 0 <= i < |t| && i != p ==> IsDigit(t[i])))
  }

  /** The pattern matches at `i` with its number group being `s[i..k]`: the
      number, then any whitespace, then the unit. */
  predicate Matches(q: Quantity, s: string, i: nat, k: nat)
  {
    i < k <= |s| && IsNumeral(q, s[i..k])
    && exists m :: k <= m <= |s| && (forall j :: k <= j < m ==> IsSpace(s[j])) && UnitAt(q, s, m)
  }

  /** Where the greedy `\d+` starting at `i` stops. */
  function DigitRunEnd(s: string, i: nat): (j: nat)
    requires i <= |s|
    ensures i <= j <= |s|
    ensures forall x :: i <= x < j ==> IsDigit(s[x])
    ensures j == |s| || !IsDigit(s[j])
    decreases |s| - i
  {
    if i < |s| && IsDigit(s[i]) then DigitRunEnd(s, i + 1) else i
  }

  /** Where the greedy `\s*` starting at `i` stops. */
  function SpaceRunEnd(s: string, i: nat): (j: nat)
    requires i <= |s|
    ensures i <= j <= |s|
    ensures forall x :: i <= x < j ==> IsSpace(s[x])
    ensures j == |s| || !IsSpace(s[j])
    decreases |s| - i
  {
    if i < |s| && IsSpace(s[i]) then SpaceRunEnd(s, i + 1) else i
  }

  /** Where the greedy number group starting at `i` stops: the digit run, and
      for weight and height a separator and a second digit run when one follows. */
  function NumberEnd(q: Quantity, s: string, i: nat): nat
    requires i <= |s|
  {
    var j := DigitRunEnd(s, i);
    if q != Age && i < j && j + 1 < |s| && IsSeparator(s[j]) && IsDigit(s[j + 1]) then DigitRunEnd(s, j + 1) else j
  }

  /** The matcher at one start position: greedy number, greedy whitespace,
      then the unit. Returns the end of the number group. */
  function MatchAt(q: Quantity, s: string, i: nat): Option<nat>
    requires i <= |s|
  {
    var k := NumberEnd(q, s, i);
    if k > i && UnitAt(q, s, SpaceRunEnd(s, k)) then Some(k) else None
  }

  /** A unit starts with a letter: not whitespace, a digit or a separator. */
  lemma UnitStartsWithLetter(q: Quantity, s: string, m: nat)
    requires UnitAt(q, s, m)
    ensures m < |s| && !IsSpace(s[m]) && !IsDigit(s[m]) && !IsSeparator(s[m])
  {
    match q
    case Age => assert s[m] == s[m..m + 3][0];
    case Weight =>
      if OccursAt(s, "kg", m) { assert s[m] == s[m..m + 2][0]; }
      else { assert s[m] == s[m..m + 9][0]; }
    case Height =>
      if OccursAt(s, "cm", m) { assert s[m] == s[m..m + 2][0]; }
      else if OccursAt(s, "centimetro", m) { assert s[m] == s[m..m + 10][0]; }
      else { assert s[m] == s[m..m + 10][0]; }
  }

  /** Reading a slice's characters is reading the string's. */
  lemma SliceDigits(s: string, i: nat, k: nat)
    requires i <= k <= |s|
    ensures (forall x :: 0 <= x < |s[i..k]| ==> IsDigit(s[i..k][x])) <==> (forall x :: i <= x < k ==> IsDigit(s[x]))
  {
    if forall x :: i <= x < k ==> IsDigit(s[x]) {
      forall x | 0 <= x < |s[i..k]| ensures IsDigit(s[i..k][x]) { assert s[i..k][x] == s[i + x]; }
    }
    if forall x :: 0 <= x < |s[i..k]| ==> IsDigit(s[i..k][x]) {
      forall x | i <= x < k ensures IsDigit(s[x]) { assert s[x] == s[i..k][x - i]; }
    }
  }

  /** What `MatchAt` returns is a match. */
  lemma MatchAtSound(q: Quantity, s: string, i: nat, k: nat)
    requires i <= |s| && MatchAt(q, s, i) == Some(k)
    ensures Matches(q, s, i, k)
  {
    var j := DigitRunEnd(s, i);
    if k == j {
      SliceDigits(s, i, k);
    } else {
      var t := s[i..k];
      var p := j - i;
      assert q != Age && 0 < p && j + 1 < k;
      assert t[p] == s[j];
      assert forall x :: 0 <= x < |t| && x != p ==> IsDigit(t[x]) by {
        forall x | 0 <= x < |t| && x != p
          ensures IsDigit(t[x])
        {
          assert t[x] == s[i + x];
        }
      }
    }
    var m := SpaceRunEnd(s, k);
    assert k <= m <= |s| && (forall x :: k <= x < m ==> IsSpace(s[x])) && UnitAt(q, s, m);
  }

  /** A number group followed by neither a digit nor a separator is exactly
      where the greedy number stops. */
  lemma NumberEndOfNumeral(q: Quantity, s: string, i: nat, k: nat)
    requires i < k < |s| && IsNumeral(q, s[i..k])
    requires !IsDigit(s[k]) && !IsSeparator(s[k])
    ensures NumberEnd(q, s, i) == k
  {
    var t := s[i..k];
    if |t| > 0 && forall x :: 0 <= x < |t| ==> IsDigit(t[x]) {
      SliceDigits(s, i, k);
      RunEndsAt(s, i, k);
    } else {
      var p :| 0 < p < |t| - 1 && IsSeparator(t[p]) && forall x :: 0 <= x < |t| && x != p ==> IsDigit(t[x]);
      SeparatorInSlice(s, i, k, p);
      RunEndsAt(s, i, i + p);
      RunEndsAt(s, i + p + 1, k);
    }
  }

  /** A separated number inside `s`, read in the string's own positions. */
  lemma SeparatorInSlice(s: string, i: nat, k: nat, p: nat)
    requires i <= k <= |s| && 0 < p < k - i - 1
    requires IsSeparator(s[i..k][p]) && forall x :: 0 <= x < k - i && x != p ==> IsDigit(s[i..k][x])
    ensures IsSeparator(s[i + p]) && IsDigit(s[i + p + 1])
    ensures forall x :: i <= x < k && x != i + p ==> IsDigit(s[x])
  {
    var t := s[i..k];
    assert t[p] == s[i + p] && t[p + 1] == s[i + p + 1];
    forall x | i <= x < k && x != i + p
      ensures IsDigit(s[x])
    {
      assert s[x] == t[x - i];
    }
  }

  /** The digit run from `i` stops at the first non-digit. */
  lemma RunEndsAt(s: string, i: nat, p: nat)
    requires i <= p < |s| && !IsDigit(s[p]) && forall x :: i <= x < p ==> IsDigit(s[x])
    ensures DigitRunEnd(s, i) == p
    decreases p - i
  {
    if i < p {
      RunEndsAt(s, i + 1, p);
    }
  }

  /** Every match is the one `MatchAt` returns. */
  lemma MatchAtComplete(q: Quantity, s: string, i: nat, k: nat)
    requires Matches(q, s, i, k)
    ensures MatchAt(q, s, i) == Some(k)
  {
    var m :| k <= m <= |s| && (forall x :: k <= x < m ==> IsSpace(s[x])) && UnitAt(q, s, m);
    UnitStartsWithLetter(q, s, m);
    assert !IsDigit(s[k]) && !IsSeparator(s[k]) by {
      if k < m { assert IsSpace(s[k]); }
    }
    NumberEndOfNumeral(q, s, i, k);
    assert SpaceRunEnd(s, k) == m;
  }

  /** Backtracking finds nothing the greedy matcher misses: at every start
      position there is at most one match, and `MatchAt` returns exactly it. */
  lemma MatchAtIsTheMatch(q: Quantity, s: string, i: nat, k: nat)
    requires i <= |s|
    ensures MatchAt(q, s, i) == Some(k) <==> Matches(q, s, i, k)
  {
    if MatchAt(q, s, i) == Some(k) { MatchAtSound(q, s, i, k); }
    if Matches(q, s, i, k) { MatchAtComplete(q, s, i, k); }
  }

  /** No match starts at `i`. */
  lemma NoMatchAt(q: Quantity, s: string, i: nat)
    requires i <= |s| && MatchAt(q, s, i).None?
    ensures forall k :: !Matches(q, s, i, k)
  {
    forall k ensures !Matches(q, s, i, k) {
      MatchAtIsTheMatch(q, s, i, k);
    }
  }

  /** `re.search` from position `from`: the leftmost start position with a
      match, and the end of its number group. */
  function Search(q: Quantity, s: string, from: nat): (r: Option<(nat, nat)>)
    requires from <= |s|
    ensures r.Some? ==> from <= r.value.0 && Matches(q, s, r.value.0, r.value.1)
    ensures r.Some? ==> forall i, k :: from <= i < r.value.0 ==> !Matches(q, s, i, k)
    ensures r.None? ==> forall i, k :: from <= i <= |s| ==> !Matches(q, s, i, k)
    decreases |s| - from
  {
    match MatchAt(q, s, from)
    case Some(k) =>
      MatchAtIsTheMatch(q, s, from, k);
      Some((from, k))
    case None =>
      NoMatchAt(q, s, from);
      if from == |s| then None
      else
        var r := Search(q, s, from + 1);
        NoMatchFrom(q, s, from, if r.Some? then r.value.0 else |s| + 1);
        r
  }

  /** No match at `from` and none after it up to `to`: none from `from`. */
  lemma NoMatchFrom(q: Quantity, s: string, from: nat, to: nat)
    requires forall k :: !Matches(q, s, from, k)
    requires forall i, k :: from + 1 <= i < to ==> !Matches(q, s, i, k)
    ensures forall i, k :: from <= i < to ==> !Matches(q, s, i, k)
  {
  }

  /** `re.search(pattern, s).group(1)`, or `None` when the search fails (the
      source then raises `AttributeError` on `None.group`). */
  function Capture(q: Quantity, s: string): (r: Option<string>)
    ensures r.Some? ==> IsNumeral(q, r.value) && Contains(s, r.value)
    ensures r.None? <==> forall i, k :: 0 <= i <= |s| ==> !Matches(q, s, i, k)
  {
    match Search(q, s, 0)
    case Some((i, k)) =>
      assert OccursAt(s, s[i..k], i);
      Some(s[i..k])
    case None => None
  }

  /** A unit stays a unit when text is appended. */
  lemma UnitAtExtend(q: Quantity, a: string, b: string, m: nat)
    requires UnitAt(q, a, m)
    ensures UnitAt(q, a + b, m)
  {
    match q
    case Age => OccursAtExtend(a, b, "año", m);
    case Weight =>
      if OccursAt(a, "kg", m) { OccursAtExtend(a, b, "kg", m); }
      else { OccursAtExtend(a, b, "kilogramo", m); }
    case Height =>
      if OccursAt(a, "cm", m) { OccursAtExtend(a, b, "cm", m); }
      else if OccursAt(a, "centimetro", m) { OccursAtExtend(a, b, "centimetro", m); }
      else { OccursAtExtend(a, b, "centímetro", m); }
  }

  /** A unit moves right by the length of prepended text. */
  lemma UnitAtShift(q: Quantity, a: string, b: string, m: nat)
    requires UnitAt(q, b, m)
    ensures UnitAt(q, a + b, |a| + m)
  {
    match q
    case Age => OccursAtShift(a, b, "año", m);
    case Weight =>
      if OccursAt(b, "kg", m) { OccursAtShift(a, b, "kg", m); }
      else { OccursAtShift(a, b, "kilogramo", m); }
    case Height =>
      if OccursAt(b, "cm", m) { OccursAtShift(a, b, "cm", m); }
      else if OccursAt(b, "centimetro", m) { OccursAtShift(a, b, "centimetro", m); }
      else { OccursAtShift(a, b, "centímetro", m); }
  }

  /** The pattern matches locally: appending text keeps a match. */
  lemma MatchesExtend(q: Quantity, a: string, b: string, i: nat, k: nat)
    requires Matches(q, a, i, k)
    ensures Matches(q, a + b, i, k)
  {
    var m :| k <= m <= |a| && (forall j :: k <= j < m ==> IsSpace(a[j])) && UnitAt(q, a, m);
    assert (a + b)[i..k] == a[i..k];
    UnitAtExtend(q, a, b, m);
    assert forall j :: k <= j < m ==> IsSpace((a + b)[j]);
  }

  /** ... and prepending text moves it. */
  lemma MatchesShift(q: Quantity, a: string, b: string, i: nat, k: nat)
    requires Matches(q, b, i, k)
    ensures Matches(q, a + b, |a| + i, |a| + k)
  {
    var m :| k <= m <= |b| && (forall j :: k <= j < m ==> IsSpace(b[j])) && UnitAt(q, b, m);
    assert (a + b)[|a| + i..|a| + k] == b[i..k];
    UnitAtShift(q, a, b, m);
    assert forall j :: |a| + k <= j < |a| + m ==> IsSpace((a + b)[j]) by {
      forall j | |a| + k <= j < |a| + m ensures IsSpace((a + b)[j]) {
        assert (a + b)[j] == b[j - |a|];
      }
    }
  }

  /** The letter every spelling of the unit begins with. */
  function UnitInitial(q: Quantity): char
  {
    match q
    case Age => 'a'
    case Weight => 'k'
    case Height => 'c'
  }

  lemma UnitBeginsWithInitial(q: Quantity, s: string, m: nat)
    ensures UnitAt(q, s, m) ==> m < |s| && s[m] == UnitInitial(q)
  {
    match q
    case Age =>
      if m + 3 <= |s| { assert s[m..m + 3][0] == s[m]; }
    case Weight =>
      if m + 2 <= |s| { assert s[m..m + 2][0] == s[m]; }
      if m + 9 <= |s| { assert s[m..m + 9][0] == s[m]; }
    case Height =>
      if m + 2 <= |s| { assert s[m..m + 2][0] == s[m]; }
      if m + 10 <= |s| { assert s[m..m + 10][0] == s[m]; }
  }

  /** No match starts on a character that is not a digit. */
  lemma NoMatchAtNonDigit(q: Quantity, s: string, j: nat, k: nat)
    requires j < |s| && !IsDigit(s[j])
    ensures !Matches(q, s, j, k)
  {
    if j < k <= |s| {
      assert s[j..k][0] == s[j];
    }
  }

  /** No match starts at a run of digits followed (after blanks) by a letter
      that begins no spelling of the unit. */
  lemma NoMatchBeforeOtherUnit(q: Quantity, s: string, j: nat, e: nat, f: nat, k: nat)
    requires j < e <= f < |s|
    requires forall x :: j <= x < e ==> IsDigit(s[x])
    requires !IsDigit(s[e]) && !IsSeparator(s[e])
    requires forall x :: e <= x < f ==> IsSpace(s[x])
    requires !IsSpace(s[f]) && s[f] != UnitInitial(q)
    ensures !Matches(q, s, j, k)
  {
    assert DigitRunEnd(s, j) == e;
    assert NumberEnd(q, s, j) == e;
    assert SpaceRunEnd(s, e) == f;
    UnitBeginsWithInitial(q, s, f);
    assert MatchAt(q, s, j).None?;
    NoMatchAt(q, s, j);
  }

  /** A match with none to its left is the one `re.search` returns. */
  lemma LeftmostMatchCaptured(q: Quantity, s: string, i: nat, k: nat)
    requires Matches(q, s, i, k)
    requires forall j, k' :: 0 <= j < i ==> !Matches(q, s, j, k')
    ensures Capture(q, s) == Some(s[i..k])
  {
    var r := Search(q, s, 0);
    assert r.Some?;
    var (i', k') := r.value;
    assert i' == i;
    MatchAtIsTheMatch(q, s, i, k);
    MatchAtIsTheMatch(q, s, i, k');
  }

  // ---------------------------------------------------------------------------
  // Numbers
  // ---------------------------------------------------------------------------

  /** Text Python's `float` reads as a plain decimal: digits, optionally a dot
      and more digits. */
  predicate IsDecimal(t: string)
  {
    (|t| > 0 && forall i :: 0 <= i < |t| ==> IsDigit(t[i]))
    || exists p :: 0 < p < |t| - 1 && t[p] == '.' && forall i :: 0 <= i < |t| && i != p ==> IsDigit(t[i])
  }

  lemma DecimalShape(t: string)
    requires IsDecimal(t)
    ensures var p := DigitRunEnd(t, 0);
      p > 0 && (p == |t| || (p < |t| - 1 && t[p] == '.' && forall i :: p < i < |t| ==> IsDigit(t[i])))
  {
    if !(|t| > 0 && forall i :: 0 <= i < |t| ==> IsDigit(t[i])) {
      var p :| 0 < p < |t| - 1 && t[p] == '.' && forall i :: 0 <= i < |t| && i != p ==> IsDigit(t[i]);
      assert DigitRunEnd(t, 0) == p;
    }
  }

  /** The value of the digits before the separator (or of all of them). */
  function IntegerPart(t: string): nat
  {
    var p := DigitRunEnd(t, 0);
    DigitsValue(t[..p])
  }

  /** Python's `float` on a plain decimal, read exactly. */
  function ParseFloat(t: string): (r: real)
    requires IsDecimal(t)
    ensures IntegerPart(t) as real <= r < IntegerPart(t) as real + 1.0
  {
    DecimalShape(t);
    var p := DigitRunEnd(t, 0);
    assert t[..|t|] == t;
    if p == |t| then DigitsValue(t) as real
    else DigitsValue(t[..p]) as real + Fraction(t[p + 1..])
  }

  /** The value of the digits after the decimal point. */
  function Fraction(ds: string): (f: real)
    requires forall i :: 0 <= i < |ds| ==> IsDigit(ds[i])
    ensures 0.0 <= f < 1.0
  {
    DigitsBelowPower(ds);
    DivBelowOne(DigitsValue(ds) as real, Scale(|ds|));
    DigitsValue(ds) as real / Scale(|ds|)
  }

  /** `n` digits hold a value below 10^n. */
  lemma {:induction false} DigitsBelowPower(ds: string)
    requires forall i :: 0 <= i < |ds| ==> IsDigit(ds[i])
    ensures DigitsValue(ds) < Pow10(|ds|)
    decreases |ds|
  {
    if ds != [] {
      DigitsBelowPower(ds[..|ds| - 1]);
      assert Pow10(|ds|) == 10 * Pow10(|ds| - 1);
    }
  }

  /** `_to_float`: commas become dots, then Python's `float`. The result lies
      between the integer part and the next integer. */
  function ToFloat(t: string): (r: real)
    requires IsNumeral(Weight, t)
    ensures IntegerPart(t) as real <= r < IntegerPart(t) as real + 1.0
  {
    CommaToDotKeepsNumber(t);
    ParseFloat(CommaToDot(t))
  }

  lemma CommaToDotKeepsNumber(t: string)
    requires IsNumeral(Weight, t)
    ensures IsDecimal(CommaToDot(t))
    ensures IntegerPart(CommaToDot(t)) == IntegerPart(t)
    ensures DigitRunEnd(CommaToDot(t), 0) == DigitRunEnd(t, 0)
  {
    if |t| > 0 && forall i :: 0 <= i < |t| ==> IsDigit(t[i]) {
      CommaToDotOfDigits(t);
    } else {
      var p :| 0 < p < |t| - 1 && IsSeparator(t[p]) && forall i :: 0 <= i < |t| && i != p ==> IsDigit(t[i]);
      CommaToDotAtSeparator(t, p);
    }
  }

  /** Digits have no comma to replace. */
  lemma CommaToDotOfDigits(t: string)
    requires forall i :: 0 <= i < |t| ==> IsDigit(t[i])
    ensures CommaToDot(t) == t
  {
  }

  /** A number with a separator becomes the same digits around a dot. */
  lemma CommaToDotAtSeparator(t: string, p: nat)
    requires 0 < p < |t| - 1 && IsSeparator(t[p])
    requires forall i :: 0 <= i < |t| && i != p ==> IsDigit(t[i])
    ensures IsDecimal(CommaToDot(t))
    ensures DigitRunEnd(CommaToDot(t), 0) == p == DigitRunEnd(t, 0)
    ensures CommaToDot(t)[..p] == t[..p]
  {
    var u := CommaToDot(t);
    assert u[p] == '.';
    assert forall i :: 0 <= i < |u| && i != p ==> u[i] == t[i] && IsDigit(u[i]);
    RunEndsAt(t, 0, p);
    RunEndsAt(u, 0, p);
    assert u[..p] == t[..p];
    assert 0 < p < |u| - 1 && u[p] == '.' && forall i :: 0 <= i < |u| && i != p ==> IsDigit(u[i]);
  }

  /** A whole number reads as itself. */
  lemma ToFloatOfDigits(t: string)
    requires |t| > 0 && forall i :: 0 <= i < |t| ==> IsDigit(t[i])
    ensures ToFloat(t) == DigitsValue(t) as real
  {
    assert CommaToDot(t) == t;
  }

  /** A comma and a dot as decimal separator read the same: the dotted
      spelling of a number is a number with the same value. */
  lemma SeparatorsAgree(t: string)
    requires IsNumeral(Weight, t)
    ensures IsNumeral(Weight, CommaToDot(t))
    ensures ToFloat(CommaToDot(t)) == ToFloat(t)
  {
    CommaToDotKeepsNumber(t);
    var u := CommaToDot(t);
    DecimalIsNumeral(u);
    CommaToDotIdempotent(t);
  }

  /** A plain decimal is a number the weight and height patterns match. */
  lemma DecimalIsNumeral(u: string)
    requires IsDecimal(u)
    ensures IsNumeral(Weight, u)
  {
    if !(|u| > 0 && forall i :: 0 <= i < |u| ==> IsDigit(u[i])) {
      var p :| 0 < p < |u| - 1 && u[p] == '.' && forall i :: 0 <= i < |u| && i != p ==> IsDigit(u[i]);
      assert IsSeparator(u[p]);
    }
  }

  lemma CommaToDotIdempotent(t: string)
    ensures CommaToDot(CommaToDot(t)) == CommaToDot(t)
  {
    var u := CommaToDot(t);
    assert forall i :: 0 <= i < |u| ==> u[i] != ',';
  }

  // ---------------------------------------------------------------------------
  // Sex, activity and goal
  // ---------------------------------------------------------------------------

  /** `"mujer" if "mujer" in prompt else "hombre"`. */
  function SexOf(prompt: string): (sexo: string)
    ensures sexo == "mujer" <==> Contains(prompt, "mujer")
    ensures sexo == "mujer" || sexo == "hombre"
  {
    if Contains(prompt, "mujer") then "mujer" else "hombre"
  }

  /** The `variantes` dictionary in its insertion order: pattern, level. */
  const Variantes: seq<(string, string)> := [
    ("muy activo", "muy activo"), ("muy activa", "muy activo"),
    ("activo", "activo"), ("activa", "activo"),
    ("moderado", "moderado"), ("moderada", "moderado"),
    ("ligero", "ligero"), ("ligera", "ligero"),
    ("sedentario", "sedentario"), ("sedentaria", "sedentario")]

  /** The goal list, each paired with the goal it becomes once "déficit" is
      replaced by "deficit". */
  const Objetivos: seq<(string, string)> := [
    ("superavit", "superavit"), ("déficit", "deficit"),
    ("deficit", "deficit"), ("mantenimiento", "mantenimiento")]

  /** The first row, at or after `from`, whose pattern occurs in the prompt. */
  function FirstHit(table: seq<(string, string)>, prompt: string, from: nat): (r: Option<nat>)
    requires from <= |table|
    ensures r.Some? ==> from <= r.value < |table| && Contains(prompt, table[r.value].0)
    ensures r.Some? ==> forall j :: from <= j < r.value ==> !Contains(prompt, table[j].0)
    ensures r.None? ==> forall j :: from <= j < |table| ==> !Contains(prompt, table[j].0)
    decreases |table| - from
  {
    if from == |table| then None
    else if Contains(prompt, table[from].0) then Some(from)
    else FirstHit(table, prompt, from + 1)
  }

  /** What the scanning loop leaves in its variable: the value of the first
      row that hits, or the default. */
  function Pick(table: seq<(string, string)>, prompt: string, default: string): string
  {
    match FirstHit(table, prompt, 0)
    case Some(i) => table[i].1
    case None => default
  }

  /** The `for … if patron in prompt: …; break` loop. */
  method ScanTable(table: seq<(string, string)>, prompt: string, default: string) returns (r: string)
    ensures r == Pick(table, prompt, default)
    ensures (forall j :: 0 <= j < |table| ==> !Contains(prompt, table[j].0)) ==> r == default
    ensures forall i :: (0 <= i < |table| && Contains(prompt, table[i].0)
      && (forall j :: 0 <= j < i ==> !Contains(prompt, table[j].0))) ==> r == table[i].1
  {
    r := default;
    var i := 0;
    while i < |table|
      invariant 0 <= i <= |table|
      invariant r == default
      invariant FirstHit(table, prompt, i) == FirstHit(table, prompt, 0)
    {
      if Contains(prompt, table[i].0) {
        r := table[i].1;
        break;
      }
      i := i + 1;
    }
  }

  /** The level each `variantes` row yields, as an index into the levels. */
  lemma VariantLevel(i: nat)
    requires i < |Variantes|
    ensures Variantes[i].1 == Tdee.Levels[4 - i / 2]
  {
  }

  /** Every activity the scan can produce is a level `calcular_tdee` accepts. */
  lemma PickedLevelAccepted(prompt: string)
    ensures Tdee.Factor(Strip(Lower(Pick(Variantes, prompt, "sedentario")))).Some?
  {
    match FirstHit(Variantes, prompt, 0)
    case None =>
      Tdee.LevelIsCanonical(0);
      Tdee.FactorDefinedExactlyOnLevels(Tdee.Levels[0]);
    case Some(i) =>
      VariantLevel(i);
      Tdee.LevelIsCanonical(4 - i / 2);
      Tdee.FactorDefinedExactlyOnLevels(Tdee.Levels[4 - i / 2]);
  }

  /** The goal each row of the goal list yields, as an index into the goals. */
  lemma ObjetivoGoal(i: nat)
    requires i < |Objetivos|
    ensures Objetivos[i].1 == Macros.Goals[if i == 0 then 2 else if i == 3 then 1 else 0]
  {
  }

  /** Every goal is already lower-case and stripped. */
  lemma GoalIsCanonical(j: nat)
    requires j < |Macros.Goals|
    ensures Strip(Lower(Macros.Goals[j])) == Macros.Goals[j]
  {
    var w := Macros.Goals[j];
    GoalLetters(j, w);
    CanonicalWord(w);
  }

  lemma GoalLetters(j: nat, w: string)
    requires j < |Macros.Goals| && w == Macros.Goals[j]
    ensures forall k :: 0 <= k < |w| ==> 'a' <= w[k] <= 'z' || w[k] == ' '
    ensures w != [] ==> w[0] != ' ' && w[|w| - 1] != ' '
  {
  }

  /** Every goal the scan can produce is one `calcular_macros` accepts. */
  lemma PickedGoalAccepted(prompt: string)
    ensures Macros.Adjustment(Strip(Lower(Pick(Objetivos, prompt, "mantenimiento")))).Some?
  {
    match FirstHit(Objetivos, prompt, 0)
    case None =>
      GoalIsCanonical(1);
      Macros.TablesDefinedOnGoals(Macros.Goals[1]);
    case Some(i) =>
      ObjetivoGoal(i);
      var j := if i == 0 then 2 else if i == 3 then 1 else 0;
      GoalIsCanonical(j);
      Macros.TablesDefinedOnGoals(Macros.Goals[j]);
  }

  /** Both sexes the prompt can yield are accepted by `calcular_bmr`. */
  lemma SexAccepted(prompt: string)
    ensures Lower(SexOf(prompt)) in ["hombre", "mujer"]
  {
    if Contains(prompt, "mujer") { LowerOfLowercase("mujer"); }
    else { LowerOfLowercase("hombre"); }
  }

  // ---------------------------------------------------------------------------
  // The endpoints
  // ---------------------------------------------------------------------------

  /** The body of `POST /calcular-macros`. */
  datatype DatosCompleto = DatosCompleto(
    edad: int, peso: real, altura: real, sexo: string, actividad: string, objetivo: string)

  /** `PlanResponse`; `None` is JSON `null`. */
  datatype PlanResponse = PlanResponse(
    bmr: Option<real>,
    tdee: Option<real>,
    caloriasObjetivo: Option<real>,
    proteinas: Option<real>,
    grasas: Option<real>,
    carbohidratos: Option<real>,
    porcentajes: Option<Macros.Split>)

  /** The answer of `generar_plan` when an exception was caught. */
  const EmptyResponse := PlanResponse(None, None, None, None, None, None, None)

  /** The response dictionary both endpoints build: the basal rate, the
      expenditure and the grams rounded to 2 decimals. */
  function Respond(bmr: real, tdee: real, m: Macros.MacroPlan): PlanResponse
  {
    PlanResponse(
      Some(Round(bmr, 2)), Some(Round(tdee, 2)), Some(m.caloriasObjetivo),
      Some(Round(m.proteinasG, 2)), Some(Round(m.grasasG, 2)), Some(Round(m.carbohidratosG, 2)),
      Some(m.porcentajes))
  }

  /** `calcular_plan`: the basal rate is computed first, so an unknown sex is
      reported before an unknown activity, which is reported before an
      unknown goal. A `Failure` is the `ValueError` that reaches the caller. */
  function CalcularPlan(d: DatosCompleto): (r: Result<PlanResponse, string>)
    ensures !(Lower(d.sexo) in ["hombre", "mujer"]) ==> r == Failure(Bmr.SexError)
    ensures Lower(d.sexo) in ["hombre", "mujer"] && Tdee.Factor(Strip(Lower(d.actividad))).None? ==>
      r == Failure(Tdee.ActivityError)
    ensures (Lower(d.sexo) in ["hombre", "mujer"] && Tdee.Factor(Strip(Lower(d.actividad))).Some?
      && Macros.Adjustment(Strip(Lower(d.objetivo))).None?) ==> r == Failure(Macros.GoalError)
    ensures r.Success? <==> (Lower(d.sexo) in ["hombre", "mujer"]
      && Tdee.Factor(Strip(Lower(d.actividad))).Some? && Macros.Adjustment(Strip(Lower(d.objetivo))).Some?)
    ensures r.Success? ==> r.value.bmr.Some? && r.value.porcentajes.Some?
  {
    match Bmr.CalcularBmr(d.sexo, d.peso, d.altura, d.edad)
    case Failure(e) => Failure(e)
    case Success(bmr) =>
      match Tdee.CalcularTdee(d.sexo, d.peso, d.altura, d.edad, d.actividad)
      case Failure(e) => Failure(e)
      case Success(tdee) =>
        match Macros.CalcularMacros(tdee, d.objetivo)
        case Failure(e) => Failure(e)
        case Success(m) => Success(Respond(bmr, tdee, m))
  }

  /** The fields `generar_plan` reads from a lower-cased prompt, or `None` when
      one of the three searches fails. */
  function Extract(p: string): Option<DatosCompleto>
  {
    match (Capture(Age, p), Capture(Weight, p), Capture(Height, p))
    case (Some(a), Some(w), Some(h)) =>
      Some(DatosCompleto(DigitsValue(a), ToFloat(w), ToFloat(h), SexOf(p),
        Pick(Variantes, p, "sedentario"), Pick(Objetivos, p, "mantenimiento")))
    case _ => None
  }

  /** What `generar_plan` answers: the computation of `calcular_plan` on the
      extracted fields, and the all-`None` response for any exception. */
  function PlanFor(prompt: string): PlanResponse
  {
    match Extract(Lower(prompt))
    case None => EmptyResponse
    case Some(d) => Answer(d)
  }

  /** The `try` body's answer, with any exception turned into the empty response. */
  function Answer(d: DatosCompleto): PlanResponse
  {
    match CalcularPlan(d)
    case Success(v) => v
    case Failure(_) => EmptyResponse
  }

  /** `generar_plan`: read the fields, then answer. */
  method GenerarPlan(prompt: string) returns (r: PlanResponse)
    ensures r == PlanFor(prompt)
  {
    var d := ReadFields(Lower(prompt));
    if d.None? {
      return EmptyResponse;
    }
    r := Answer(d.value);
  }

  /** The three searches and the two scanning loops of `generar_plan`. */
  method ReadFields(p: string) returns (d: Option<DatosCompleto>)
    ensures d == Extract(p)
  {
    var age, weight, height := Capture(Age, p), Capture(Weight, p), Capture(Height, p);
    if age.None? || weight.None? || height.None? {
      return None;
    }
    var edad := DigitsValue(age.value);
    var peso := ToFloat(weight.value);
    var altura := ToFloat(height.value);
    var sexo := SexOf(p);
    var actividad := ScanTable(Variantes, p, "sedentario");
    var objetivo := ScanTable(Objetivos, p, "mantenimiento");
    d := Some(DatosCompleto(edad, peso, altura, sexo, actividad, objetivo));
  }

  /** Once the three numbers are found nothing else can fail: the sex,
      activity and goal the prompt yields are always accepted. So the answer
      is empty exactly when one of the searches fails, and complete otherwise. */
  lemma PlanAnsweredIffNumbersFound(prompt: string)
    ensures PlanFor(prompt) == EmptyResponse <==> Extract(Lower(prompt)).None?
    ensures Extract(Lower(prompt)).Some? ==>
      PlanFor(prompt) == CalcularPlan(Extract(Lower(prompt)).value).value
      && PlanFor(prompt).bmr.Some? && PlanFor(prompt).tdee.Some? && PlanFor(prompt).porcentajes.Some?
  {
    var p := Lower(prompt);
    if Extract(p).Some? {
      ExtractedAccepted(p);
    }
  }

  /** The fields read from a prompt always pass the three calculators. */
  lemma ExtractedAccepted(p: string)
    requires Extract(p).Some?
    ensures CalcularPlan(Extract(p).value).Success?
    ensures CalcularPlan(Extract(p).value).value.tdee.Some?
  {
    var d := Extract(p).value;
    assert d.sexo == SexOf(p);
    assert d.actividad == Pick(Variantes, p, "sedentario");
    assert d.objetivo == Pick(Objetivos, p, "mantenimiento");
    SexAccepted(p);
    PickedLevelAccepted(p);
    PickedGoalAccepted(p);
    PlanHasExpenditure(d);
  }

  /** A successful plan carries an expenditure. */
  lemma PlanHasExpenditure(d: DatosCompleto)
    requires CalcularPlan(d).Success?
    ensures CalcularPlan(d).value.tdee.Some?
  {
    var tdee := Tdee.CalcularTdee(d.sexo, d.peso, d.altura, d.edad, d.actividad);
    assert tdee.Success?;
  }

  /** Upper case in the prompt changes nothing. */
  lemma PlanIgnoresCase(prompt: string)
    ensures PlanFor(prompt) == PlanFor(Lower(prompt))
  {
    LowerIdempotent(prompt);
  }

  /** Rounding again to 2 decimals leaves the expenditure and the grams as
      the calculators returned them. */
  lemma ResponseKeepsCalculatorValues(d: DatosCompleto)
    requires CalcularPlan(d).Success?
    ensures CalcularPlan(d).value.tdee
      == Some(Tdee.CalcularTdee(d.sexo, d.peso, d.altura, d.edad, d.actividad).value)
    ensures var m := Macros.CalcularMacros(Tdee.CalcularTdee(d.sexo, d.peso, d.altura, d.edad, d.actividad).value, d.objetivo).value;
      CalcularPlan(d).value.proteinas == Some(m.proteinasG)
      && CalcularPlan(d).value.grasas == Some(m.grasasG)
      && CalcularPlan(d).value.carbohidratos == Some(m.carbohidratosG)
  {
    var bmr := Bmr.CalcularBmr(d.sexo, d.peso, d.altura, d.edad).value;
    var f := Tdee.Factor(Strip(Lower(d.actividad))).value;
    RoundTwice(Tdee.Expenditure(bmr, f), 2, 2);
    var tdee := Tdee.CalcularTdee(d.sexo, d.peso, d.altura, d.edad, d.actividad).value;
    var goal := Strip(Lower(d.objetivo));
    var kcal := Macros.Share(tdee, Macros.Adjustment(goal).value);
    var s := Macros.SplitOf(goal).value;
    RoundTwice(Macros.CarbGrams(kcal, s), 1, 2);
    RoundTwice(Macros.ProteinGrams(kcal, s), 1, 2);
    RoundTwice(Macros.FatGrams(kcal, s), 1, 2);
  }

  // ---------------------------------------------------------------------------
  // Worked prompts
  // ---------------------------------------------------------------------------

  /** The age is the number right before "año". */
  lemma AgeBeforeAnos()
    ensures Capture(Age, "30 años") == Some("30")
  {
    assert DigitRunEnd("30 años", 0) == 2;
    assert SpaceRunEnd("30 años", 2) == 3;
    assert OccursAt("30 años", "año", 3);
    assert MatchAt(Age, "30 años", 0) == Some(2);
    assert "30 años"[0..2] == "30";
  }

  /** A weight written with a decimal comma is found whole, whatever follows
      it. */
  lemma DecimalCommaWeight(a: string, rest: string)
    requires a == "peso 60,5 kg"
    ensures Capture(Weight, a + rest) == Some("60,5")
  {
    var s := a + rest;
    CommaWeightMatch(a, rest);
    NoWeightBefore(a, rest);
    LeftmostMatchCaptured(Weight, s, 5, 9);
    assert s[5..9] == a[5..9] == "60,5";
  }

  lemma CommaWeightMatch(a: string, rest: string)
    requires a == "peso 60,5 kg"
    ensures Matches(Weight, a + rest, 5, 9)
  {
    CommaWeightAt();
    MatchAtSound(Weight, a, 5, 9);
    MatchesExtend(Weight, a, rest, 5, 9);
  }

  lemma CommaWeightAt()
    ensures MatchAt(Weight, "peso 60,5 kg", 5) == Some(9)
  {
    var s := "peso 60,5 kg";
    assert DigitRunEnd(s, 5) == 7;
    assert DigitRunEnd(s, 8) == 9;
    assert SpaceRunEnd(s, 9) == 10;
    assert OccursAt(s, "kg", 10);
  }

  lemma NoWeightBefore(a: string, rest: string)
    requires a == "peso 60,5 kg"
    ensures forall j, k :: 0 <= j < 5 ==> !Matches(Weight, a + rest, j, k)
  {
    var s := a + rest;
    forall j, k | 0 <= j < 5
      ensures !Matches(Weight, s, j, k)
    {
      assert s[j] == a[j];
      NoMatchAtNonDigit(Weight, s, j, k);
    }
  }

  /** ... and reads as the decimal it spells. */
  lemma DecimalCommaValue()
    ensures ToFloat("60,5") == 60.5
  {
    assert CommaToDot("60,5") == "60.5";
    assert DigitRunEnd("60.5", 0) == 2;
    assert "60.5"[..2] == "60";
    assert "60.5"[3..] == "5";
    assert DigitsValue("60") == 60;
    assert DigitsValue("5") == 5;
    assert Scale(1) == 10.0;
  }

  /** Activity words are found as substrings, so "inactivo" reads as "activo". */
  lemma InactivoReadsAsActivo()
    ensures Pick(Variantes, "soy inactivo", "sedentario") == "activo"
  {
    assert OccursAt("soy inactivo", "activo", 6);
    AbsentCharRulesOut("soy inactivo", "muy activo", 0);
    AbsentCharRulesOut("soy inactivo", "muy activa", 0);
  }

  /** The feminine form maps to the same level. */
  lemma FeminineActivity()
    ensures Pick(Variantes, "muy activa", "sedentario") == "muy activo"
  {
    assert OccursAt("muy activa", "muy activa", 0);
    AbsentCharRulesOut("muy activa", "muy activo", 9);
  }

  /** Only "déficit" has an accented spelling in the goal list: "superávit"
      matches nothing and the goal stays "mantenimiento". */
  lemma AccentedSuperavitIgnored()
    ensures Pick(Objetivos, "superávit", "mantenimiento") == "mantenimiento"
  {
    AbsentCharRulesOut("superávit", "superavit", 5);
    AbsentCharRulesOut("superávit", "déficit", 0);
    AbsentCharRulesOut("superávit", "deficit", 0);
    AbsentCharRulesOut("superávit", "mantenimiento", 0);
  }
}
