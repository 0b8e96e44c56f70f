/** JavaScript values as the storefront receives them (what `JSON.parse` yields)
    and the built-in coercions its code applies to them: truthiness, `??`,
    `String(...)`, `Number(...)`, `String.prototype.trim` and decimal rendering
    of integers. */
module Js {

  datatype Option<+T> = None | Some(value: T)

  /** The outcome of an awaited call that may throw. */
  datatype Outcome<+T> = Returned(value: T) | Threw

  /** A JSON value. `undefined` (a missing property) is `None` of an `Option<Json>`. */
  datatype Json =
    | JNull
    | JBool(b: bool)
    | JNum(n: real)
    | JStr(s: string)
    | JArr(items: seq<Json>)
    | JObj(fields: map<string, Json>)

  /** Property read `v.key` on a value that is not null: only plain objects
      carry the keys this code reads; arrays, strings, numbers and booleans
      give undefined. */
  function Get(v: Json, key: string): (r: Option<Json>)
    ensures r.Some? <==> v.JObj? && key in v.fields
    ensures r.Some? ==> r.value == v.fields[key]
  {
    if v.JObj? && key in v.fields then Some(v.fields[key]) else None
  }

  /** Optional chaining `v?.key` where `v` may be undefined or null. */
  function GetOpt(v: Option<Json>, key: string): (r: Option<Json>)
    ensures v.None? ==> r.None?
    ensures v.Some? ==> r == Get(v.value, key)
  {
    if v.Some? then Get(v.value, key) else None
  }

  /** `v == null`: undefined or null. */
  predicate Nullish(v: Option<Json>) {
    v.None? || v.value.JNull?
  }

  /** `a ?? b` */
  function Coalesce(a: Option<Json>, b: Option<Json>): (r: Option<Json>)
    ensures !Nullish(a) ==> r == a
    ensures Nullish(a) ==> r == b
  {
    if Nullish(a) then b else a
  }

  /** `Boolean(v)`. JSON has no NaN, so a number is falsy exactly when it is 0. */
  predicate Truthy(v: Option<Json>) {
    match v
    case None => false
    case Some(j) =>
      match j
      case JNull => false
      case JBool(b) => b
      case JNum(n) => n != 0.0
      case JStr(s) => s != ""
      case JArr(_) => true
      case JObj(_) => true
  }

  /** `Array.isArray(v)` */
  predicate IsArray(v: Option<Json>) {
    v.Some? && v.value.JArr?
  }

  // ---------------------------------------------------------------------
  // Decimal digits

  predicate IsDigit(c: char) {
    '0' <= c <= '9'
  }

  predicate AllDigits(s: string) {
    forall i :: 0 <= i < |s| ==> IsDigit(s[i])
  }

  function DigitChar(d: nat): (c: char)
    requires d < 10
    ensures IsDigit(c) && c as int - '0' as int == d
  {
    "0123456789"[d]
  }

  function DigitValue(c: char): (d: nat)
    requires IsDigit(c)
    ensures d < 10
  {
    c as int - '0' as int
  }

  /** The value of a string of decimal digits, most significant first. */
  function DigitsValue(s: string): nat
    requires AllDigits(s)
  {
    if s == [] then 0 else DigitsValue(s[..|s| - 1]) * 10 + DigitValue(s[|s| - 1])
  }

  /** Decimal rendering of a natural number, without leading zeros. */
  function NatToString(n: nat): (r: string)
    ensures r != [] && AllDigits(r)
    ensures |r| > 1 ==> r[0] != '0'
  {
    if n < 10 then [DigitChar(n)] else NatToString(n / 10) + [DigitChar(n % 10)]
  }

  /** `String(i)` / `i.toString()` for an integer (below 1e21, where JavaScript
      switches to exponent notation). */
  function IntToString(i: int): (r: string)
    ensures r != []
    ensures i >= 0 ==> AllDigits(r)
    ensures i < 0 ==> r[0] == '-' && AllDigits(r[1..])
  {
    if i < 0 then "-" + NatToString(-i) else NatToString(i)
  }

  lemma {:induction false} DigitsValueOfNatToString(n: nat)
    ensures DigitsValue(NatToString(n)) == n
  {
    if n >= 10 {
      var s := NatToString(n / 10);
      var t := s + [DigitChar(n % 10)];
      assert t[..|t| - 1] == s;
      DigitsValueOfNatToString(n / 10);
    }
  }

  /** Six-digit numbers render as exactly six digits, the first not zero. */
  lemma {:induction false} SixDigitRendering(n: nat)
    requires 100000 <= n <= 999999
    ensures |NatToString(n)| == 6 && AllDigits(NatToString(n)) && NatToString(n)[0] != '0'
  {
    var a := n / 10;
    var b := a / 10;
    var c := b / 10;
    var d := c / 10;
    var e := d / 10;
    assert 1 <= e < 10;
    assert |NatToString(e)| == 1;
    assert |NatToString(d)| == 2;
    assert |NatToString(c)| == 3;
    assert |NatToString(b)| == 4;
    assert |NatToString(a)| == 5;
  }

  // ---------------------------------------------------------------------
  // String.prototype.trim

  /** ECMAScript WhiteSpace and LineTerminator code points. */
  predicate IsSpace(c: char) {
    c == '\t' || c == '\n' || c == '\U{000B}' || c == '\U{000C}' || c == '\r' || c == ' '
    || c == '\U{00A0}' || c == '\U{1680}' || ('\U{2000}' <= c <= '\U{200A}')
    || c == '\U{2028}' || c == '\U{2029}' || c == '\U{202F}' || c == '\U{205F}'
    || c == '\U{3000}' || c == '\U{FEFF}'
  }

  function TrimStart(s: string): (r: string)
    ensures |r| <= |s| && s[|s| - |r|..] == r
    ensures forall k :: 0 <= k < |s| - |r| ==> IsSpace(s[k])
    ensures r == [] || !IsSpace(r[0])
  {
    if s != [] && IsSpace(s[0]) then TrimStart(s[1..]) else s
  }

  function TrimEnd(s: string): (r: string)
    ensures |r| <= |s| && s[..|r|] == r
    ensures forall k :: |r| <= k < |s| ==> IsSpace(s[k])
    ensures r == [] || !IsSpace(r[|r| - 1])
  {
    if s != [] && IsSpace(s[|s| - 1]) then TrimEnd(s[..|s| - 1]) else s
  }

  /** `s.trim()`: the longest infix of `s` that neither starts nor ends with white space. */
  function Trim(s: string): (r: string)
    ensures |r| <= |s|
    ensures r == [] || (!IsSpace(r[0]) && !IsSpace(r[|r| - 1]))
    ensures exists a :: 0 <= a <= |s| - |r| && s[a..][..|r|] == r
                        && (forall k :: 0 <= k < a ==> IsSpace(s[k]))
                        && (forall k :: a + |r| <= k < |s| ==> IsSpace(s[k]))
  {
    var t := TrimStart(s);
    var r := TrimEnd(t);
    var a := |s| - |t|;
    assert r == t[..|r|] && t == s[a..];
    assert s[a..][..|r|] == r;
    assert forall k :: a + |r| <= k < |s| ==> s[k] == t[k - a];
    r
  }

  /** A string trims to nothing exactly when it is all white space. */
  lemma {:induction false} TrimEmptyIffBlank(s: string)
    ensures Trim(s) == [] <==> forall k :: 0 <= k < |s| ==> IsSpace(s[k])
  {
    var t := TrimStart(s);
    if Trim(s) == [] {
      forall k | 0 <= k < |s|
        ensures IsSpace(s[k])
      {
        if k >= |s| - |t| {
          assert s[k] == t[k - (|s| - |t|)];
        }
      }
    } else {
      var r := Trim(s);
      assert !IsSpace(r[0]);
      assert t[0] == r[0];
      assert s[|s| - |t|] == t[0];
    }
  }

  lemma {:induction false} TrimOfUnpadded(s: string)
    requires s == [] || (!IsSpace(s[0]) && !IsSpace(s[|s| - 1]))
    ensures Trim(s) == s
  {
  }

  /** Trimming twice trims nothing more. */
  lemma {:induction false} TrimIdempotent(s: string)
    ensures Trim(Trim(s)) == Trim(s)
  {
    TrimOfUnpadded(Trim(s));
  }

  // ---------------------------------------------------------------------
  // Number(...)

  /** The value of the digits after a decimal point: `5` is 0.5, `25` is 0.25. */
  function FractionValue(f: string): (r: real)
    requires AllDigits(f)
    ensures 0.0 <= r < 1.0
  {
    if f == [] then 0.0 else (DigitValue(f[0]) as real + FractionValue(f[1..])) / 10.0
  }

  /** The index of the first element of `s` satisfying `p`, or `|s|`. */
  function IndexWhere(s: string, p: char -> bool): (k: nat)
    ensures k <= |s|
    ensures k < |s| ==> p(s[k])
    ensures forall i :: 0 <= i < k ==> !p(s[i])
  {
    if s == [] then 0 else if p(s[0]) then 0 else 1 + IndexWhere(s[1..], p)
  }

  predicate IsDecimalPoint(c: char) {
    c == '.'
  }

  predicate IsExponentMark(c: char) {
    c == 'e' || c == 'E'
  }

  /** Digits with an optional decimal point: `12`, `12.`, `12.5`, `.5`. */
  function ParseMantissa(m: string): Option<real> {
    var k := IndexWhere(m, IsDecimalPoint);
    var whole := m[..k];
    var frac := if k < |m| then m[k + 1..] else "";
    if AllDigits(whole) && AllDigits(frac) && |whole| + |frac| > 0 then
      Some(DigitsValue(whole) as real + FractionValue(frac))
    else
      None
  }

  /** An exponent part after `e`/`E`: optional sign, then at least one digit. */
  function ParseExponent(x: string): Option<int> {
    var sign := if x != [] && (x[0] == '+' || x[0] == '-') then 1 else 0;
    var digits := x[sign..];
    if digits != [] && AllDigits(digits) then
      Some(if sign == 1 && x[0] == '-' then -(DigitsValue(digits) as int) else DigitsValue(digits))
    else
      None
  }

  /** `m` times ten to the power `e`. */
  function Scale(m: real, e: int): real
    decreases if e >= 0 then e else -e
  {
    if e == 0 then m else if e > 0 then Scale(m * 10.0, e - 1) else Scale(m / 10.0, e + 1)
  }

  /** An unsigned decimal literal: mantissa, then an optional exponent part. */
  function ParseUnsigned(u: string): Option<real> {
    var e := IndexWhere(u, IsExponentMark);
    var m := ParseMantissa(u[..e]);
    if m.None? then None
    else if e == |u| then m
    else match ParseExponent(u[e + 1..])
      case None => None
      case Some(x) => Some(Scale(m.value, x))
  }

  /** `Number(s)` for a string: white space is trimmed, the empty string is 0,
      a signed decimal literal is its value, anything else is NaN (`None`). */
  function StringToNumber(s: string): (r: Option<real>)
    ensures Trim(s) == "" ==> r == Some(0.0)
  {
    var t := Trim(s);
    if t == "" then Some(0.0)
    else if t[0] == '-' then
      match ParseUnsigned(t[1..])
      case None => None
      case Some(v) => Some(-v)
    else if t[0] == '+' then ParseUnsigned(t[1..])
    else ParseUnsigned(t)
  }

  /** `Number(v)`; `None` stands for NaN. Arrays and objects convert through
      their string form, as `ToPrimitive` does. */
  function ToNumber(v: Option<Json>): (r: Option<real>)
    ensures v.None? ==> r.None?
    ensures v == Some(JNull) ==> r == Some(0.0)
    ensures forall n :: v == Some(JNum(n)) ==> r == Some(n)
  {
    match v
    case None => None
    case Some(j) =>
      match j
      case JNull => Some(0.0)
      case JBool(b) => Some(if b then 1.0 else 0.0)
      case JNum(n) => Some(n)
      case JStr(s) => StringToNumber(s)
      case JArr(_) => StringToNumber(JsString(j))
      case JObj(_) => StringToNumber(JsString(j))
  }

  /** `Number(v) || 0`: the coerced number, or 0 when that is NaN or 0. */
  function NumberOrZero(v: Option<Json>): (r: real)
    ensures r != 0.0 ==> ToNumber(v) == Some(r)
    ensures ToNumber(v).None? ==> r == 0.0
    ensures ToNumber(v).Some? ==> r == ToNumber(v).value
  {
    var n := ToNumber(v);
    if n.Some? && n.value != 0.0 then n.value else 0.0
  }

  /** A plain run of digits parses as its value. */
  lemma {:induction false} ParseUnsignedDigits(d: string)
    requires d != [] && AllDigits(d)
    ensures ParseUnsigned(d) == Some(DigitsValue(d) as real)
  {
    assert IndexWhere(d, IsDecimalPoint) == |d|;
    assert d[..|d|] == d;
    assert ParseMantissa(d) == Some(DigitsValue(d) as real);
    assert IndexWhere(d, IsExponentMark) == |d|;
  }

  lemma {:induction false} IndexWhereAbsent(s: string, p: char -> bool)
    requires forall i :: 0 <= i < |s| ==> !p(s[i])
    ensures IndexWhere(s, p) == |s|
  {
  }

  lemma {:induction false} IndexWhereFirst(s: string, p: char -> bool, k: nat)
    requires k < |s| && p(s[k]) && forall i :: 0 <= i < k ==> !p(s[i])
    ensures IndexWhere(s, p) == k
  {
  }

  /** Digits, a decimal point at `k` and digits form a mantissa worth the
      whole part plus the fraction. */
  lemma {:induction false} ParseMantissaDecimal(m: string, k: nat)
    requires k < |m| && m[k] == '.' && AllDigits(m[..k]) && AllDigits(m[k + 1..]) && |m| > 1
    ensures ParseMantissa(m)
            == Some(DigitsValue(m[..k]) as real + FractionValue(m[k + 1..]))
  {
    forall i | 0 <= i < k
      ensures !IsDecimalPoint(m[i])
    {
      assert m[i] == m[..k][i];
    }
    IndexWhereFirst(m, IsDecimalPoint, k);
  }

  /** A decimal literal without exponent parses as whole part plus fraction. */
  lemma {:induction false} ParseUnsignedDecimal(u: string, k: nat)
    requires k < |u| && u[k] == '.' && AllDigits(u[..k]) && AllDigits(u[k + 1..]) && |u| > 1
    ensures ParseUnsigned(u)
            == Some(DigitsValue(u[..k]) as real + FractionValue(u[k + 1..]))
  {
    forall i | 0 <= i < |u|
      ensures !IsExponentMark(u[i])
    {
      if i < k { assert u[i] == u[..k][i]; }
      else if i > k { assert u[i] == u[k + 1..][i - k - 1]; }
    }
    IndexWhereAbsent(u, IsExponentMark);
    assert u[..|u|] == u;
    ParseMantissaDecimal(u, k);
  }

  /** A literal that starts with neither a digit nor a decimal point does not parse. */
  lemma {:induction false} ParseUnsignedNonDigitLed(u: string)
    requires u != [] && !IsDigit(u[0]) && !IsDecimalPoint(u[0])
    ensures ParseUnsigned(u) == None
  {
    var e := IndexWhere(u, IsExponentMark);
    var m := u[..e];
    if m != [] {
      assert m[0] == u[0];
      var k := IndexWhere(m, IsDecimalPoint);
      assert k > 0;
      assert m[..k][0] == u[0];
    }
    assert ParseMantissa(m) == None;
  }

  /** `Number(s)` of an unpadded, unsigned string is its unsigned parse. */
  lemma {:induction false} NumberOfUnsignedText(s: string)
    requires s != [] && !IsSpace(s[0]) && !IsSpace(s[|s| - 1]) && s[0] != '-' && s[0] != '+'
    ensures ToNumber(Some(JStr(s))) == ParseUnsigned(s)
  {
    TrimOfUnpadded(s);
  }

  /** `Number(String(n))` of a natural number gives back `n`. */
  lemma {:induction false} NumberOfNatString(n: nat)
    ensures ToNumber(Some(JStr(NatToString(n)))) == Some(n as real)
  {
    NatToStringParsesBack(n);
  }

  /** A run of digits converts to its value. */
  lemma {:induction false} DigitsParse(d: string)
    requires d != [] && AllDigits(d)
    ensures StringToNumber(d) == Some(DigitsValue(d) as real)
  {
    ParseUnsignedDigits(d);
    TrimOfUnpadded(d);
  }

  lemma {:induction false} NatToStringParsesBack(n: nat)
    ensures StringToNumber(NatToString(n)) == Some(n as real)
  {
    DigitsValueOfNatToString(n);
    DigitsParse(NatToString(n));
  }

  // ---------------------------------------------------------------------
  // String(...)

  /** Up to `fuel` digits of the decimal expansion of a fraction in [0, 1). */
  function FractionDigits(f: real, fuel: nat): (r: string)
    requires 0.0 <= f < 1.0
    ensures AllDigits(r) && |r| <= fuel
    decreases fuel
  {
    if fuel == 0 || f == 0.0 then ""
    else
      var d := (f * 10.0).Floor;
      [DigitChar(d)] + FractionDigits(f * 10.0 - d as real, fuel - 1)
  }

  /** `String(n)` for a number: integers in full, other values as their
      decimal expansion cut after 20 fractional digits. */
  function NumberToString(n: real): (r: string)
    ensures r != []
    ensures n == n.Floor as real ==> r == IntToString(n.Floor)
  {
    if n == n.Floor as real then IntToString(n.Floor)
    else
      var x := if n < 0.0 then -n else n;
      var digits := IntToString(x.Floor) + "." + FractionDigits(x - x.Floor as real, 20);
      if n < 0.0 then "-" + digits else digits
  }

  /** `String(v)` for a JSON value. An array joins its elements with commas,
      null elements rendering as the empty string. */
  function JsString(v: Json): (r: string)
    decreases v, 1, 0
  {
    match v
    case JNull => "null"
    case JBool(b) => if b then "true" else "false"
    case JNum(n) => NumberToString(n)
    case JStr(s) => s
    case JArr(items) => JoinFrom(v, 0)
    case JObj(_) => "[object Object]"
  }

  function JoinFrom(arr: Json, i: nat): string
    requires arr.JArr? && i <= |arr.items|
    decreases arr, 0, |arr.items| - i
  {
    if i == |arr.items| then ""
    else
      var e := arr.items[i];
      var piece := if e.JNull? then "" else JsString(e);
      if i + 1 == |arr.items| then piece else piece + "," + JoinFrom(arr, i + 1)
  }

  /** ASCII upper case to lower case, everything else unchanged. */
  function AsciiLower(s: string): (r: string)
    ensures |r| == |s|
    ensures forall i :: 0 <= i < |s| ==> r[i] == (if 'A' <= s[i] <= 'Z' then (s[i] as int + 32) as char else s[i])
  {
    seq(|s|, i requires 0 <= i < |s| => if 'A' <= s[i] <= 'Z' then (s[i] as int + 32) as char else s[i])
  }
}
