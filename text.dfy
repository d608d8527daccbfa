/** The Python string primitives the backend relies on: `str.lower`,
    `str.strip`, `str.isspace` (which is also what `\s` matches in `re`),
    ASCII digits, `in` on strings and `str.replace` of one character. */
module Text {

  /** Python's `str.isspace`, which is also the set `\s` matches in a `re`
      pattern over `str`. */
  predicate IsSpace(c: char)
  {
    var n := c as int;
    (9 <= n <= 13) || (0x1C <= n <= 0x20) || n == 0x85 || n == 0xA0 || n == 0x1680
    || (0x2000 <= n <= 0x200A) || n == 0x2028 || n == 0x2029 || n == 0x202F
    || n == 0x205F || n == 0x3000
  }

  predicate IsDigit(c: char)
  {
    '0' <= c <= '9'
  }

  function DigitValue(c: char): (d: nat)
    requires IsDigit(c)
    ensures d < 10
  {
    (c as int) - ('0' as int)
  }

  /** `str.lower` on ASCII and on the Latin-1 capitals (which covers Á, É, Í,
      Ó, Ú, Ñ and Ü); other characters are left as they are. */
  function LowerChar(c: char): char
  {
    if 'A' <= c <= 'Z' || ('À' <= c <= 'Þ' && c != '×') then
      ((c as int) + 32) as char
    else
      c
  }

  function Lower(s: string): (r: string)
    ensures |r| == |s|
    ensures forall i :: 0 <= i < |s| ==> r[i] == LowerChar(s[i])
  {
    if s == [] then [] else [LowerChar(s[0])] + Lower(s[1..])
  }

  /** Lower-casing twice is lower-casing once. */
  lemma LowerIdempotent(s: string)
    ensures Lower(Lower(s)) == Lower(s)
  {
    assert forall i :: 0 <= i < |s| ==> LowerChar(LowerChar(s[i])) == LowerChar(s[i]);
  }

  /** `str.lstrip()` with no argument. */
  function StripLeft(s: string): (r: string)
    ensures |r| <= |s| && r == s[|s| - |r|..]
    ensures r == [] || !IsSpace(r[0])
    ensures forall i :: 0 <= i < |s| - |r| ==> IsSpace(s[i])
  {
    if s != [] && IsSpace(s[0]) then StripLeft(s[1..]) else s
  }

  /** `str.rstrip()` with no argument. */
  function StripRight(s: string): (r: string)
    ensures |r| <= |s| && r == s[..|r|]
    ensures r == [] || !IsSpace(r[|r| - 1])
    ensures forall i :: |r| <= i < |s| ==> IsSpace(s[i])
  {
    if s != [] && IsSpace(s[|s| - 1]) then StripRight(s[..|s| - 1]) else s
  }

  /** `str.strip()` with no argument. */
  function Strip(s: string): (r: string)
    ensures r == [] || (!IsSpace(r[0]) && !IsSpace(r[|r| - 1]))
  {
    StripRight(StripLeft(s))
  }

  /** Stripping twice is stripping once. */
  lemma StripIdempotent(s: string)
    ensures Strip(Strip(s)) == Strip(s)
  {
    var t := Strip(s);
    assert StripLeft(t) == t;
  }

  /** `w` occurs in `s` starting at index `i`. */
  predicate OccursAt(s: string, w: string, i: nat)
  {
    i + |w| <= |s| && s[i..i + |w|] == w
  }

  /** Python's `w in s` for strings. */
  predicate Contains(s: string, w: string)
  {
    exists i: nat :: i + |w| <= |s| && OccursAt(s, w, i)
  }

  /** Python's `s.replace(",", ".")`. */
  function CommaToDot(s: string): (r: string)
    ensures |r| == |s|
    ensures forall i :: 0 <= i < |s| ==> r[i] == (if s[i] == ',' then '.' else s[i])
  {
    if s == [] then [] else [if s[0] == ',' then '.' else s[0]] + CommaToDot(s[1..])
  }

  /** The value of a run of decimal digits, as `int()` reads it (leading zeros allowed). */
  function DigitsValue(ds: string): (n: nat)
    requires forall i :: 0 <= i < |ds| ==> IsDigit(ds[i])
  {
    if ds == [] then 0 else 10 * DigitsValue(ds[..|ds| - 1]) + DigitValue(ds[|ds| - 1])
  }

  /** A string without capitals is its own lower-case form. */
  lemma LowerOfLowercase(s: string)
    requires forall i :: 0 <= i < |s| ==> 'a' <= s[i] <= 'z' || s[i] == ' '
    ensures Lower(s) == s
  {
  }

  /** A string that neither starts nor ends with whitespace is its own strip. */
  lemma StripOfUnpadded(s: string)
    requires s != [] ==> !IsSpace(s[0]) && !IsSpace(s[|s| - 1])
    ensures Strip(s) == s
  {
    assert StripLeft(s) == s;
  }

  /** A word of lower-case letters and inner spaces survives `lower().strip()`. */
  lemma CanonicalWord(l: string)
    requires forall k :: 0 <= k < |l| ==> 'a' <= l[k] <= 'z' || l[k] == ' '
    requires l != [] ==> l[0] != ' ' && l[|l| - 1] != ' '
    ensures Strip(Lower(l)) == l
  {
    LowerOfLowercase(l);
    assert Lower(l) == l;
    if l != [] {
      LetterIsNotSpace(l[0]);
      LetterIsNotSpace(l[|l| - 1]);
    }
    StripOfUnpadded(l);
  }

  /** Stripping brings in no character the text did not hold. */
  lemma StripKeepsAbsent(t: string, ch: char)
    requires forall i :: 0 <= i < |t| ==> t[i] != ch
    ensures forall i :: 0 <= i < |Strip(t)| ==> Strip(t)[i] != ch
  {
    var l := StripLeft(t);
    var r := StripRight(l);
    forall i | 0 <= i < |r|
      ensures r[i] != ch
    {
      assert r[i] == l[i] == t[|t| - |l| + i];
    }
  }

  /** One blank on each side of an unpadded word is stripped away. */
  lemma StripOneBlank(w: string)
    requires w != [] && !IsSpace(w[0]) && !IsSpace(w[|w| - 1])
    ensures Strip(" " + w + " ") == w
  {
    var s := " " + w + " ";
    assert s[1..] == w + " ";
    assert StripLeft(w + " ") == w + " ";
    assert (w + " ")[..|w|] == w;
    assert StripRight(w + " ") == StripRight(w);
  }

  lemma LetterIsNotSpace(c: char)
    requires 'a' <= c <= 'z'
    ensures !IsSpace(c)
  {
  }

  /** A word holding a character the text lacks does not occur in it. */
  lemma AbsentCharRulesOut(s: string, w: string, j: nat)
    requires j < |w| && forall i :: 0 <= i < |s| ==> s[i] != w[j]
    ensures !Contains(s, w)
  {
    forall i: nat | i + |w| <= |s|
      ensures !OccursAt(s, w, i)
    {
      assert s[i..i + |w|][j] == s[i + j];
    }
  }

  // ---------------------------------------------------------------------------
  // Occurrences in concatenations
  // ---------------------------------------------------------------------------

  /** An occurrence stays where it is when text is appended. */
  lemma OccursAtExtend(a: string, b: string, w: string, m: nat)
    requires OccursAt(a, w, m)
    ensures OccursAt(a + b, w, m)
  {
    assert (a + b)[m..m + |w|] == a[m..m + |w|];
  }

  /** An occurrence moves right by the length of prepended text. */
  lemma OccursAtShift(a: string, b: string, w: string, m: nat)
    requires OccursAt(b, w, m)
    ensures OccursAt(a + b, w, |a| + m)
  {
    assert (a + b)[|a| + m..|a| + m + |w|] == b[m..m + |w|];
  }

  lemma ContainsLeft(a: string, b: string, w: string)
    requires Contains(a, w)
    ensures Contains(a + b, w)
  {
    var i: nat :| i + |w| <= |a| && OccursAt(a, w, i);
    OccursAtExtend(a, b, w, i);
  }

  lemma ContainsRight(a: string, b: string, w: string)
    requires Contains(b, w)
    ensures Contains(a + b, w)
  {
    var i: nat :| i + |w| <= |b| && OccursAt(b, w, i);
    OccursAtShift(a, b, w, i);
  }

  /** A word absent from two strings is absent from their concatenation when
      it cannot straddle the seam, because it never contains the first
      character of the second string. */
  lemma AbsentAcrossJoin(a: string, b: string, w: string)
    requires b != [] && forall j :: 0 <= j < |w| ==> w[j] != b[0]
    requires !Contains(a, w) && !Contains(b, w)
    ensures !Contains(a + b, w)
  {
    var s := a + b;
    forall i: nat | i + |w| <= |s|
      ensures !OccursAt(s, w, i)
    {
      if i + |w| <= |a| {
        assert s[i..i + |w|] == a[i..i + |w|];
        assert !OccursAt(a, w, i);
      } else if i >= |a| {
        assert s[i..i + |w|] == b[i - |a|..i - |a| + |w|];
        assert !OccursAt(b, w, i - |a|);
      } else {
        assert s[i..i + |w|][|a| - i] == b[0];
      }
    }
  }

  /** A word whose prefix is absent is absent. */
  lemma AbsentPrefixRulesOut(s: string, w: string, k: nat)
    requires k <= |w| && !Contains(s, w[..k])
    ensures !Contains(s, w)
  {
    forall i: nat | i + |w| <= |s|
      ensures !OccursAt(s, w, i)
    {
      assert s[i..i + k] == s[i..i + |w|][..k];
      assert !OccursAt(s, w[..k], i);
    }
  }

  /** One differing character rules out an occurrence at `i`. */
  lemma MismatchRulesOut(s: string, w: string, i: nat, j: nat)
    requires i + |w| <= |s| && j < |w| && s[i + j] != w[j]
    ensures !OccursAt(s, w, i)
  {
    assert s[i..i + |w|][j] == s[i + j];
  }

  lemma LowerConcat(a: string, b: string)
    ensures Lower(a + b) == Lower(a) + Lower(b)
  {
  }

  /** Lower-casing, character by character. */
  lemma LowerCharwise(x: string, y: string)
    requires |x| == |y| && forall i :: 0 <= i < |x| ==> LowerChar(x[i]) == y[i]
    ensures Lower(x) == y
  {
  }
}
