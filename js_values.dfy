/** The JavaScript values the front end reads from `fetch(...).json()` and
    the coercions it applies to them: truthiness, `||`, `??`, property access
    with and without optional chaining, the unary `+` / `Number(...)`
    conversion, `Number.isFinite`, and the `*`, `/` and `Math.max` the
    per-gram calculator uses. */
module JsValues {
  import Text
  import Rounding

  /** A value `JSON.parse` can produce, plus `undefined`, which is what
      reading a property that is not there yields. JSON numbers are finite,
      so `JNum` holds a real. An object is a map: with a repeated key
      `JSON.parse` keeps the last one. */
  datatype Json =
    | JNull
    | JUndefined
    | JBool(b: bool)
    | JNum(r: real)
    | JStr(s: string)
    | JArr(items: seq<Json>)
    | JObj(fields: map<string, Json>)

  /** A JavaScript number as arithmetic can leave it: finite, NaN or an
      infinity. Signed zero is not distinguished from zero. */
  datatype JsNum = Fin(r: real) | NaN | PosInf | NegInf

  /** `v == null`: true exactly for `null` and `undefined`. */
  predicate Nullish(v: Json)
  {
    v.JNull? || v.JUndefined?
  }

  /** JavaScript truthiness: `false`, `0`, `""`, `null` and `undefined` are
      falsy; every array and object is truthy. */
  predicate Truthy(v: Json)
  {
    match v
    case JNull => false
    case JUndefined => false
    case JBool(b) => b
    case JNum(r) => r != 0.0
    case JStr(s) => s != ""
    case JArr(_) => true
    case JObj(_) => true
  }

  /** Truthiness of a number: zero and NaN are falsy. */
  predicate NumTruthy(n: JsNum)
  {
    match n
    case Fin(r) => r != 0.0
    case NaN => false
    case PosInf => true
    case NegInf => true
  }

  /** `v.key` on a value that is neither `null` nor `undefined` (on those the
      access throws a `TypeError`). Only objects carry the keys read here;
      on any other value the read gives `undefined`. */
  function Prop(v: Json, key: string): (r: Json)
    requires !Nullish(v)
    ensures !v.JObj? ==> r == JUndefined
    ensures v.JObj? && key !in v.fields ==> r == JUndefined
  {
    if v.JObj? && key in v.fields then v.fields[key] else JUndefined
  }

  /** `v?.key`: `undefined` on `null` and `undefined`, otherwise `v.key`. */
  function OptProp(v: Json, key: string): (r: Json)
    ensures Nullish(v) ==> r == JUndefined
    ensures !Nullish(v) ==> r == Prop(v, key)
  {
    if Nullish(v) then JUndefined else Prop(v, key)
  }

  /** `a || b`. */
  function Or(a: Json, b: Json): (r: Json)
    ensures Truthy(a) ==> r == a
    ensures !Truthy(a) ==> r == b
  {
    if Truthy(a) then a else b
  }

  /** `a ?? b`. */
  function Coalesce(a: Json, b: Json): (r: Json)
    ensures !Nullish(a) ==> r == a
    ensures Nullish(a) ==> r == b
  {
    if Nullish(a) then b else a
  }

  /** `vs[0] || vs[1] || ... || last`: the first truthy operand, or `last`
      (truthy or not) when none of the others is. */
  function OrChain(vs: seq<Json>, last: Json): (r: Json)
    ensures forall i :: 0 <= i < |vs| && Truthy(vs[i]) && (forall j :: 0 <= j < i ==> !Truthy(vs[j])) ==> r == vs[i]
    ensures (forall i :: 0 <= i < |vs| ==> !Truthy(vs[i])) ==> r == last
    ensures Truthy(r) || r == last
  {
    if vs == [] then last
    else if Truthy(vs[0]) then vs[0]
    else
      var rest := OrChain(vs[1..], last);
      OrChainShift(vs, last, rest);
      rest
  }

  /** A falsy first operand passes the answer of the rest of the chain through. */
  lemma OrChainShift(vs: seq<Json>, last: Json, rest: Json)
    requires vs != [] && !Truthy(vs[0])
    requires forall i :: 0 <= i < |vs[1..]| && Truthy(vs[1..][i]) && (forall j :: 0 <= j < i ==> !Truthy(vs[1..][j])) ==> rest == vs[1..][i]
    requires (forall i :: 0 <= i < |vs[1..]| ==> !Truthy(vs[1..][i])) ==> rest == last
    ensures forall i :: 0 <= i < |vs| && Truthy(vs[i]) && (forall j :: 0 <= j < i ==> !Truthy(vs[j])) ==> rest == vs[i]
    ensures (forall i :: 0 <= i < |vs| ==> !Truthy(vs[i])) ==> rest == last
  {
    var tail := vs[1..];
    forall i | 0 <= i < |vs| && Truthy(vs[i]) && (forall j :: 0 <= j < i ==> !Truthy(vs[j]))
      ensures rest == vs[i]
    {
      forall j | 0 <= j < i - 1
        ensures !Truthy(tail[j])
      {
        assert tail[j] == vs[j + 1];
      }
      assert tail[i - 1] == vs[i];
    }
    if forall i :: 0 <= i < |vs| ==> !Truthy(vs[i]) {
      forall i | 0 <= i < |tail|
        ensures !Truthy(tail[i])
      {
        assert tail[i] == vs[i + 1];
      }
    }
  }

  /** The characters `String.prototype.trim` removes: the ECMAScript white
      space and line terminators. */
  predicate IsJsSpace(c: char)
  {
    var n := c as int;
    (9 <= n <= 13) || n == 0x20 || n == 0xA0 || n == 0x1680 || (0x2000 <= n <= 0x200A)
    || n == 0x2028 || n == 0x2029 || n == 0x202F || n == 0x205F || n == 0x3000 || n == 0xFEFF
  }

  function TrimStart(s: string): (r: string)
    ensures |r| <= |s| && r == s[|s| - |r|..]
    ensures r == [] || !IsJsSpace(r[0])
    ensures forall i :: 0 <= i < |s| - |r| ==> IsJsSpace(s[i])
  {
    if s != [] && IsJsSpace(s[0]) then TrimStart(s[1..]) else s
  }

  function TrimEnd(s: string): (r: string)
    ensures |r| <= |s| && r == s[..|r|]
    ensures r == [] || !IsJsSpace(r[|r| - 1])
    ensures forall i :: |r| <= i < |s| ==> IsJsSpace(s[i])
  {
    if s != [] && IsJsSpace(s[|s| - 1]) then TrimEnd(s[..|s| - 1]) else s
  }

  /** `s.trim()`. */
  function Trim(s: string): (r: string)
    ensures r == [] || (!IsJsSpace(r[0]) && !IsJsSpace(r[|r| - 1]))
  {
    TrimEnd(TrimStart(s))
  }

  /** A string trims to nothing exactly when every character of it is white space. */
  lemma TrimEmptyIff(s: string)
    ensures Trim(s) == [] <==> forall i :: 0 <= i < |s| ==> IsJsSpace(s[i])
  {
  }

  /** A string that neither starts nor ends with white space is its own trim. */
  lemma TrimOfUnpadded(t: string)
    requires t != [] ==> !IsJsSpace(t[0]) && !IsJsSpace(t[|t| - 1])
    ensures Trim(t) == t
  {
    assert TrimStart(t) == t;
  }

  predicate AllDigits(s: string)
  {
    forall i :: 0 <= i < |s| ==> Text.IsDigit(s[i])
  }

  /** The position of the first `.`, or `|t|` when there is none. */
  function DotIndex(t: string): (k: nat)
    ensures k <= |t|
    ensures k < |t| ==> t[k] == '.'
    ensures forall i :: 0 <= i < k ==> t[i] != '.'
  {
    if t == [] then 0
    else if t[0] == '.' then 0
    else 1 + DotIndex(t[1..])
  }

  /** The value of the digits `whole`, a point, and the digits `frac`. */
  function DecimalValue(whole: string, frac: string): (x: real)
    requires AllDigits(whole) && AllDigits(frac)
    ensures x >= 0.0
  {
    Text.DigitsValue(whole) as real + Text.DigitsValue(frac) as real / Rounding.Pow10(|frac|) as real
  }

  /** The unsigned decimal literal `ddd`, `ddd.`, `.ddd` or `ddd.ddd`, with at
      least one digit; anything else reads as NaN. */
  function UnsignedDecimal(t: string): (n: JsNum)
    ensures n.Fin? || n.NaN?
    ensures n.Fin? ==> n.r >= 0.0
  {
    var k := DotIndex(t);
    var whole := t[..k];
    var frac := if k < |t| then t[k + 1..] else "";
    if AllDigits(whole) && AllDigits(frac) && |whole| + |frac| > 0 then
      Fin(DecimalValue(whole, frac))
    else
      NaN
  }

  function Negate(n: JsNum): (m: JsNum)
  {
    match n
    case Fin(r) => Fin(-r)
    case NaN => NaN
    case PosInf => NegInf
    case NegInf => PosInf
  }

  /** `Number(s)` for a string: white space around the literal is ignored,
      an empty or all-blank string is 0, `Infinity` may carry a sign, and a
      decimal literal may carry a sign. */
  function StringToNumber(s: string): (n: JsNum)
    ensures Trim(s) == [] ==> n == Fin(0.0)
  {
    var t := Trim(s);
    if t == [] then Fin(0.0)
    else if t == "Infinity" || t == "+Infinity" then PosInf
    else if t == "-Infinity" then NegInf
    else if t[0] == '-' then Negate(UnsignedDecimal(t[1..]))
    else if t[0] == '+' then UnsignedDecimal(t[1..])
    else UnsignedDecimal(t)
  }

  /** A trimmed string that starts with a digit is read as an unsigned decimal. */
  lemma LeadingDigitIsUnsigned(t: string)
    requires t != [] && Text.IsDigit(t[0]) && Trim(t) == t
    ensures StringToNumber(t) == UnsignedDecimal(t)
  {
    assert t != "Infinity" && t != "+Infinity" && t != "-Infinity" by {
      assert t[0] != 'I' && t[0] != '+' && t[0] != '-';
    }
  }

  /** A run of digits reads as its decimal value. */
  lemma IntegerLiteral(whole: string)
    requires AllDigits(whole) && whole != []
    ensures StringToNumber(whole) == Fin(Text.DigitsValue(whole) as real)
  {
    TrimOfUnpadded(whole);
    LeadingDigitIsUnsigned(whole);
    DotIndexOfDigits(whole, []);
    assert whole + [] == whole;
    assert whole[..|whole|] == whole;
  }

  /** Digits, a point and digits read as the decimal number they spell. */
  lemma DecimalLiteral(whole: string, frac: string)
    requires AllDigits(whole) && AllDigits(frac) && whole != []
    ensures StringToNumber(whole + "." + frac)
         == Fin(DecimalValue(whole, frac))
  {
    var t := whole + "." + frac;
    var k := |whole|;
    assert t[k] == '.';
    assert t[..k] == whole;
    assert t[k + 1..] == frac;
    DecimalLiteralAt(t, k);
  }

  /** A trimmed string of digits with a point at `k` reads as the decimal number it spells. */
  lemma DecimalLiteralAt(t: string, k: nat)
    requires 0 < k < |t| && t[k] == '.'
    requires AllDigits(t[..k]) && AllDigits(t[k + 1..])
    ensures StringToNumber(t)
         == Fin(DecimalValue(t[..k], t[k + 1..]))
  {
    DecimalEnds(t, k);
    TrimOfUnpadded(t);
    LeadingDigitIsUnsigned(t);
    DotAt(t, k);
    UnsignedAtDot(t, k);
  }

  /** The first point of such a literal is the one at `k`. */
  lemma DotAt(t: string, k: nat)
    requires k < |t| && t[k] == '.' && AllDigits(t[..k])
    ensures DotIndex(t) == k
  {
    DotIndexOfDigits(t[..k], t[k..]);
    assert t[..k] + t[k..] == t;
  }

  /** Such a literal starts with a digit and ends with a digit or the point. */
  lemma DecimalEnds(t: string, k: nat)
    requires 0 < k < |t| && t[k] == '.'
    requires AllDigits(t[..k]) && AllDigits(t[k + 1..])
    ensures Text.IsDigit(t[0]) && !IsJsSpace(t[0]) && !IsJsSpace(t[|t| - 1])
  {
    assert t[0] == t[..k][0];
    var last := |t| - 1;
    if k < last {
      assert t[last] == t[k + 1..][last - k - 1];
      assert Text.IsDigit(t[last]);
    }
  }

  /** With its point at `k`, an unsigned decimal splits there into whole and fraction. */
  lemma UnsignedAtDot(t: string, k: nat)
    requires DotIndex(t) == k < |t|
    requires AllDigits(t[..k]) && AllDigits(t[k + 1..]) && k > 0
    ensures UnsignedDecimal(t)
         == Fin(DecimalValue(t[..k], t[k + 1..]))
  {
  }

  /** In digits followed by `rest`, the first `.` is at the start of `rest`, if anywhere there. */
  lemma {:induction false} DotIndexOfDigits(whole: string, rest: string)
    requires AllDigits(whole)
    requires rest == [] || rest[0] == '.'
    ensures DotIndex(whole + rest) == |whole|
  {
    if whole != [] {
      assert (whole + rest)[1..] == whole[1..] + rest;
      DotIndexOfDigits(whole[1..], rest);
    }
  }

  /** `Number(v)`, which is also the unary `+v`. */
  function ToNumber(v: Json): (n: JsNum)
  {
    match v
    case JNull => Fin(0.0)
    case JUndefined => NaN
    case JBool(b) => Fin(if b then 1.0 else 0.0)
    case JNum(r) => Fin(r)
    case JStr(s) => StringToNumber(s)
    case JArr(items) =>
      if |items| == 0 then Fin(0.0)
      else if |items| == 1 then ElementToNumber(items[0])
      else NaN
    case JObj(_) => NaN
  }

  /** `Number([x])`, which reads `String(x)`: `null` and `undefined` print
      as the empty string, booleans and objects as words that are not
      numbers, and an inner array as its own elements. */
  function ElementToNumber(x: Json): (n: JsNum)
  {
    match x
    case JNull => Fin(0.0)
    case JUndefined => Fin(0.0)
    case JBool(_) => NaN
    case JNum(r) => Fin(r)
    case JStr(s) => StringToNumber(s)
    case JArr(inner) =>
      if |inner| == 0 then Fin(0.0)
      else if |inner| == 1 then ElementToNumber(inner[0])
      else NaN
    case JObj(_) => NaN
  }

  /** `Number.isFinite(n)`. */
  predicate IsFinite(n: JsNum)
  {
    n.Fin?
  }

  /** `a * b` in IEEE arithmetic, rounding aside: NaN spreads, an infinity
      times zero is NaN, and signs multiply. */
  function Mul(a: JsNum, b: JsNum): (c: JsNum)
    ensures a.Fin? && b.Fin? ==> c == Fin(a.r * b.r)
    ensures c.NaN? <==> a.NaN? || b.NaN? || (a.Fin? && a.r == 0.0 && !b.Fin?) || (b.Fin? && b.r == 0.0 && !a.Fin?)
    ensures c.Fin? <==> a.Fin? && b.Fin?
  {
    if a.NaN? || b.NaN? then NaN
    else if a.Fin? && b.Fin? then Fin(a.r * b.r)
    else if a.Fin? then
      if a.r == 0.0 then NaN else if a.r > 0.0 then b else Negate(b)
    else if b.Fin? then
      if b.r == 0.0 then NaN else if b.r > 0.0 then a else Negate(a)
    else if a.PosInf? then b
    else Negate(b)
  }

  /** Multiplication of JavaScript numbers is commutative, special values included. */
  lemma MulCommutes(a: JsNum, b: JsNum)
    ensures Mul(a, b) == Mul(b, a)
  {
  }

  /** `a / d` for a positive finite divisor. */
  function DivBy(a: JsNum, d: real): (c: JsNum)
    requires d > 0.0
    ensures a.Fin? ==> c == Fin(a.r / d)
    ensures !a.Fin? ==> c == a
  {
    if a.Fin? then Fin(a.r / d) else a
  }

  /** `Math.max(0, x)`: NaN stays NaN, negative values become 0. */
  function MaxZero(x: JsNum): (m: JsNum)
    ensures x.NaN? <==> m.NaN?
    ensures m.Fin? ==> m.r >= 0.0 && (x.Fin? ==> (m.r == x.r || (x.r < 0.0 && m.r == 0.0)))
    ensures x.NegInf? ==> m == Fin(0.0)
    ensures x.PosInf? <==> m.PosInf?
  {
    match x
    case Fin(r) => Fin(if r < 0.0 then 0.0 else r)
    case NaN => NaN
    case PosInf => PosInf
    case NegInf => Fin(0.0)
  }

  /** `n || 0` on a number: NaN and zero become 0, every other number stays. */
  function NumOrZero(n: JsNum): (m: JsNum)
    ensures !m.NaN?
    ensures NumTruthy(n) ==> m == n
    ensures !NumTruthy(n) ==> m == Fin(0.0)
  {
    if NumTruthy(n) then n else Fin(0.0)
  }
}
