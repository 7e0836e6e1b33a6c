/**
 * JSON values as the settings code sees them after `json.load`, and the handful of Python
 * built-ins the options apply to them: `str()`, `bool()`, `float()`, `round()`,
 * `str.strip()`, `str.lower()` and the `in` operator.
 *
 * Python floats are modelled as exact reals: binary rounding, infinities and NaN are not
 * part of this model.
 */
module PyJson {
  import opened Wrappers

  /** A JSON value. Python keeps `int` and `float` apart, and so does the model. */
  datatype Json =
    | JNull
    | JBool(b: bool)
    | JInt(i: int)
    | JFloat(f: real)
    | JStr(s: string)
    | JArr(items: seq<Json>)
    | JObj(entries: map<string, Json>)

  /** What `_to_json` returns: a JSON value, or the Ellipsis sentinel meaning "nothing to save". */
  datatype JsonOrAbsent = Absent | Present(json: Json)

  /** A keybind's key (`str | None`) as a JSON value. */
  function KeyJson(key: Option<string>): (j: Json)
    ensures j.JNull? <==> key.None?
  {
    match key
    case None => JNull
    case Some(k) => JStr(k)
  }

  // ---------------------------------------------------------------------------------------
  // bool(v)

  /** Python truthiness of a JSON value. */
  predicate Truthy(v: Json) {
    match v
    case JNull => false
    case JBool(b) => b
    case JInt(i) => i != 0
    case JFloat(f) => f != 0.0
    case JStr(s) => s != ""
    case JArr(items) => items != []
    case JObj(entries) => |entries| != 0
  }

  // ---------------------------------------------------------------------------------------
  // str.strip() and str.lower()

  /** The characters Python's `str.isspace()` accepts, which `strip()` and `float()` remove. */
  predicate IsSpace(c: char) {
    var n := c as int;
    (9 <= n <= 13) || (28 <= n <= 32) || n == 0x85 || n == 0xA0 || n == 0x1680
    || (0x2000 <= n <= 0x200A) || n == 0x2028 || n == 0x2029 || n == 0x202F
    || n == 0x205F || n == 0x3000
  }

  function StripLeft(s: string): (r: string)
    ensures r == [] || !IsSpace(r[0])
  {
    if s != [] && IsSpace(s[0]) then StripLeft(s[1..]) else s
  }

  function StripRight(s: string): string {
    if s != [] && IsSpace(s[|s| - 1]) then StripRight(s[..|s| - 1]) else s
  }

  /** `s.strip()`: `s` without leading and trailing whitespace. */
  function Strip(s: string): (r: string)
    ensures r == [] || (!IsSpace(r[0]) && !IsSpace(r[|r| - 1]))
  {
    StripRightKeepsFirst(StripLeft(s));
    StripRight(StripLeft(s))
  }

  lemma {:induction false} StripRightKeepsFirst(s: string)
    requires s == [] || !IsSpace(s[0])
    ensures var r := StripRight(s); r == [] || (!IsSpace(r[0]) && !IsSpace(r[|r| - 1]))
  {
    if s != [] && IsSpace(s[|s| - 1]) {
      StripRightKeepsFirst(s[..|s| - 1]);
    }
  }

  function LowerChar(c: char): char {
    if 'A' <= c <= 'Z' then (c as int + 32) as char else c
  }

  /**
   * `s.lower()` on ASCII letters. No other character lower-cases into one of the ASCII letters
   * of "false", so the one comparison the options make is decided as Python decides it.
   */
  function AsciiLower(s: string): (r: string)
    ensures |r| == |s|
  {
    if s == [] then [] else [LowerChar(s[0])] + AsciiLower(s[1..])
  }

  /** The boolean option's coercion: a string reading "false" in any case and spacing is false. */
  predicate BoolCoerce(v: Json) {
    if v.JStr? && AsciiLower(Strip(v.s)) == "false" then false else Truthy(v)
  }

  // ---------------------------------------------------------------------------------------
  // str(v)

  function DigitChar(d: nat): char
    requires d < 10
  {
    ('0' as int + d) as char
  }

  function NatToString(n: nat): (r: string)
    ensures |r| > 0
    decreases n
  {
    if n < 10 then [DigitChar(n)] else NatToString(n / 10) + [DigitChar(n % 10)]
  }

  /** `str(i)` for an int. */
  function IntToString(i: int): string {
    if i < 0 then "-" + NatToString(-i) else NatToString(i)
  }

  /** Up to `n` decimal digits of a fraction in [0, 1), stopping when nothing is left. */
  function FractionDigits(f: real, n: nat): string
    requires 0.0 <= f < 1.0
    decreases n
  {
    if n == 0 || f == 0.0 then ""
    else
      var d := (f * 10.0).Floor;
      [DigitChar(d)] + FractionDigits(f * 10.0 - d as real, n - 1)
  }

  function TrimTrailingZeros(s: string): string {
    if s != [] && s[|s| - 1] == '0' then TrimTrailingZeros(s[..|s| - 1]) else s
  }

  /** `str(f)` for a float in positional notation: "8.0", "7.6", "-0.25". */
  function FloatRepr(f: real): string {
    if f < 0.0 then "-" + NonNegativeFloatRepr(-f) else NonNegativeFloatRepr(f)
  }

  function NonNegativeFloatRepr(f: real): string
    requires f >= 0.0
  {
    var whole := f.Floor;
    var digits := TrimTrailingZeros(FractionDigits(f - whole as real, 17));
    NatToString(whole) + "." + (if digits == "" then "0" else digits)
  }

  /** `str(v)`. Lists and dicts are rendered as fixed placeholders. */
  function PyStr(v: Json): string {
    match v
    case JNull => "None"
    case JBool(b) => if b then "True" else "False"
    case JInt(i) => IntToString(i)
    case JFloat(f) => FloatRepr(f)
    case JStr(s) => s
    case JArr(_) => "[...]"
    case JObj(_) => "{...}"
  }

  // ---------------------------------------------------------------------------------------
  // float(v)

  /** The outcome of `float(v)`: a number, or the exception it raises. */
  datatype FloatConversion = Converted(value: real) | ValueError | TypeError | OverflowError

  /**
   * The code points of the zeros of the Unicode decimal digits (general category Nd, Unicode
   * 15.0), in the Basic Multilingual Plane and above it. Each starts a run of ten digits, zero
   * to nine; `float()` reads all of them.
   */
  const BmpDecimalZeros: seq<int> := [
    0x30, 0x660, 0x6F0, 0x7C0, 0x966, 0x9E6, 0xA66, 0xAE6, 0xB66, 0xBE6, 0xC66, 0xCE6, 0xD66,
    0xDE6, 0xE50, 0xED0, 0xF20, 0x1040, 0x1090, 0x17E0, 0x1810, 0x1946, 0x19D0, 0x1A80, 0x1A90,
    0x1B50, 0x1BB0, 0x1C40, 0x1C50, 0xA620, 0xA8D0, 0xA900, 0xA9D0, 0xA9F0, 0xAA50, 0xABF0, 0xFF10]

  const AstralDecimalZeros: seq<int> := [
    0x104A0, 0x10D30, 0x11066, 0x110F0, 0x11136, 0x111D0, 0x112F0, 0x11450, 0x114D0, 0x11650,
    0x116C0, 0x11730, 0x118E0, 0x11950, 0x11C50, 0x11D50, 0x11DA0, 0x11F50, 0x16A60, 0x16AC0,
    0x16B50, 0x1D7CE, 0x1D7D8, 0x1D7E2, 0x1D7EC, 0x1D7F6, 0x1E140, 0x1E2F0, 0x1E4F0, 0x1E950,
    0x1FBF0]

  const DecimalZeros: seq<int> := BmpDecimalZeros + AstralDecimalZeros

  /** The value of `c` as a decimal digit, searching the runs from the `i`-th on. */
  function DigitFrom(c: char, i: nat): (d: Option<nat>)
    ensures d.Some? ==> d.value < 10
    decreases |DecimalZeros| - i
  {
    if i >= |DecimalZeros| then None
    else if DecimalZeros[i] <= c as int < DecimalZeros[i] + 10 then Some(c as int - DecimalZeros[i])
    else DigitFrom(c, i + 1)
  }

  /** The value of a decimal digit, ASCII or not, as `float()` reads it. */
  function DigitValue(c: char): (d: Option<nat>)
    ensures d.Some? ==> d.value < 10
    ensures '0' <= c <= '9' ==> d == Some(c as int - '0' as int)
  {
    assert DecimalZeros[0] == 0x30;
    DigitFrom(c, 0)
  }

  predicate IsDigit(c: char) {
    DigitValue(c).Some?
  }

  predicate AllDigits(s: string) {
    forall i :: 0 <= i < |s| ==> IsDigit(s[i])
  }

  function DigitsValue(s: string): nat
    requires AllDigits(s)
  {
    if s == [] then 0
    else DigitsValue(s[..|s| - 1]) * 10 + DigitValue(s[|s| - 1]).value
  }

  function Pow10(n: nat): (p: nat)
    ensures p >= 1
  {
    if n == 0 then 1 else 10 * Pow10(n - 1)
  }

  function Scale10(x: real, e: int): real {
    if e >= 0 then x * Pow10(e) as real else x / Pow10(-e) as real
  }

  /** The index of the first occurrence of `c` in `s`, or `|s|`. */
  function IndexOf(s: string, c: char): (k: nat)
    ensures k <= |s|
    ensures k < |s| ==> s[k] == c
    ensures forall i :: 0 <= i < k ==> s[i] != c
  {
    if s == [] then 0 else if s[0] == c then 0 else 1 + IndexOf(s[1..], c)
  }

  /** "ddd", "ddd.", "ddd.ddd" or ".ddd", with at least one digit. */
  function ParseMantissa(m: string): Option<real> {
    var p := IndexOf(m, '.');
    var whole := m[..p];
    var frac := if p < |m| then m[p + 1..] else [];
    if AllDigits(whole) && AllDigits(frac) && |whole| + |frac| > 0 then
      Some(DigitsValue(whole) as real + DigitsValue(frac) as real / Pow10(|frac|) as real)
    else None
  }

  /** An exponent: an optional sign and at least one digit. */
  function ParseExponent(e: string): Option<int> {
    var negative := e != [] && e[0] == '-';
    var digits := if e != [] && (e[0] == '-' || e[0] == '+') then e[1..] else e;
    if digits != [] && AllDigits(digits) then
      var magnitude: int := DigitsValue(digits);
      Some(if negative then -magnitude else magnitude)
    else None
  }

  function ParseUnsigned(t: string): Option<real> {
    var e := if IndexOf(t, 'e') < IndexOf(t, 'E') then IndexOf(t, 'e') else IndexOf(t, 'E');
    match ParseMantissa(t[..e])
    case None => None
    case Some(m) =>
      if e == |t| then Some(m)
      else
        match ParseExponent(t[e + 1..])
        case None => None
        case Some(x) => Some(Scale10(m, x))
  }

  /** `float(s)` on a string, in decimal notation with an optional exponent. */
  function ParseFloat(s: string): Option<real> {
    var t := Strip(s);
    if t != [] && (t[0] == '+' || t[0] == '-') then
      match ParseUnsigned(t[1..])
      case None => None
      case Some(x) => Some(if t[0] == '-' then -x else x)
    else ParseUnsigned(t)
  }

  /** `float("7.6")` is 7.6. */
  lemma ParseFloatExample()
    ensures ParseFloat("7.6") == Some(7.6)
    ensures ToFloat(JStr("7.6")) == Converted(7.6)
  {
    assert StripLeft("7.6") == "7.6" && StripRight("7.6") == "7.6";
    assert IndexOf("7.6", 'e') == 3 && IndexOf("7.6", 'E') == 3 && IndexOf("7.6", '.') == 1;
    assert DigitsValue("7") == 7 && DigitsValue("6") == 6;
    assert ParseMantissa("7.6") == Some(7.6);
    assert "7.6"[..3] == "7.6";
  }

  /** `float()` reads other decimal digits too: "٧.٦", in Arabic-Indic digits, is 7.6. */
  lemma ParseFloatArabicIndic()
    ensures ParseFloat("\U{667}.\U{666}") == Some(7.6)
  {
    var t := "\U{667}.\U{666}";
    assert StripLeft(t) == t && StripRight(t) == t;
    assert IndexOf(t, 'e') == 3 && IndexOf(t, 'E') == 3 && IndexOf(t, '.') == 1;
    assert DecimalZeros[0] == 0x30 && DecimalZeros[1] == 0x660;
    assert DigitFrom(t[0], 1) == Some(7) && DigitFrom(t[2], 1) == Some(6);
    assert DigitsValue(t[..1]) == 7 && DigitsValue(t[2..]) == 6;
    assert t[..3] == t;
  }

  /**
   * 2^1024 - 2^970: the least integer that rounds to a double above the largest finite one,
   * so that `float(i)` raises OverflowError exactly when `abs(i)` is at least this.
   */
  const FloatOverflowBound: nat := 0xFFFFFFFFFFFFFC00_0000000000000000_0000000000000000_0000000000000000_0000000000000000_0000000000000000_0000000000000000_0000000000000000_0000000000000000_0000000000000000_0000000000000000_0000000000000000_0000000000000000_0000000000000000_0000000000000000_0000000000000000

  /**
   * `float(v)`: booleans and numbers convert, strings are parsed, None and containers are a
   * TypeError, and an int too large for a double is an OverflowError.
   */
  function ToFloat(v: Json): (r: FloatConversion)
    ensures r.TypeError? <==> (v.JNull? || v.JArr? || v.JObj?)
    ensures r.ValueError? <==> v.JStr? && ParseFloat(v.s).None?
    ensures r.OverflowError? <==> v.JInt? && (v.i >= FloatOverflowBound || -v.i >= FloatOverflowBound)
    ensures r.Converted? && v.JInt? ==> r.value == v.i as real
  {
    match v
    case JNull => TypeError
    case JBool(b) => Converted(if b then 1.0 else 0.0)
    case JInt(i) =>
      if i >= FloatOverflowBound || -i >= FloatOverflowBound then OverflowError else Converted(i as real)
    case JFloat(f) => Converted(f)
    case JStr(s) =>
      (match ParseFloat(s)
       case Some(x) => Converted(x)
       case None => ValueError)
    case JArr(_) => TypeError
    case JObj(_) => TypeError
  }

  // ---------------------------------------------------------------------------------------
  // round(x)

  /** Python's `round(x)`: the nearest integer, ties going to the even neighbour. */
  function RoundHalfEven(x: real): (n: int)
    ensures -0.5 <= n as real - x <= 0.5
    ensures (n as real - x == 0.5 || n as real - x == -0.5) ==> n % 2 == 0
  {
    var down := x.Floor;
    var rest := x - down as real;
    if rest < 0.5 then down
    else if rest > 0.5 then down + 1
    else if down % 2 == 0 then down
    else down + 1
  }

  /** The two properties in RoundHalfEven's contract pin its result down. */
  lemma RoundHalfEvenUnique(x: real, n: int)
    requires -0.5 <= n as real - x <= 0.5
    requires (n as real - x == 0.5 || n as real - x == -0.5) ==> n % 2 == 0
    ensures n == RoundHalfEven(x)
  {
  }

  // ---------------------------------------------------------------------------------------
  // key in container

  predicate IsPrefix(k: string, s: string) {
    |k| <= |s| && s[..|k|] == k
  }

  predicate IsSubstring(k: string, s: string) {
    IsPrefix(k, s) || (s != [] && IsSubstring(k, s[1..]))
  }

  /**
   * `key in container` for a string key: membership of a dict's keys or a list's elements,
   * substring of a string, and a TypeError (`None`) for anything that is not a container.
   */
  function Contains(container: Json, key: string): (r: Option<bool>)
    ensures r.None? <==> !(container.JObj? || container.JArr? || container.JStr?)
    ensures container.JObj? ==> r == Some(key in container.entries)
  {
    match container
    case JObj(entries) => Some(key in entries)
    case JArr(items) => Some(JStr(key) in items)
    case JStr(s) => Some(IsSubstring(key, s))
    case _ => None
  }

  /** What `name in doc` followed by `doc[name]` gives: the value, nothing, or an exception. */
  datatype Section = NoSection | SectionOf(json: Json) | LookupRaises

  function Lookup(doc: Json, name: string): (s: Section)
    ensures doc.JObj? ==>
      s == if name in doc.entries then SectionOf(doc.entries[name]) else NoSection
    ensures !doc.JObj? ==> (s.LookupRaises? <==> Contains(doc, name) != Some(false))
    ensures !doc.JObj? ==> !s.SectionOf?
  {
    match Contains(doc, name)
    case None => LookupRaises
    case Some(found) =>
      if !found then NoSection
      else if doc.JObj? then SectionOf(doc.entries[name])
      else LookupRaises
  }
}
