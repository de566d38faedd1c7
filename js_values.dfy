/**
 * The slice of JavaScript value semantics that the prediction API client
 * relies on: decoded JSON values, the truthiness test behind `||`, the
 * nullishness test behind `??`, property reads, string conversion (used by
 * template literals and by `new Error(x)`) and `Error.prototype.toString`.
 */
module JsValues {

  datatype Option<+T> = None | Some(value: T)

  /**
   * A value as the client sees it after `response.json()`, plus `Undefined`
   * for a property the decoded object does not have. A number is kept as the
   * decimal it was written as in the JSON text: `Num(91, 2)` is 0.91.
   */
  datatype JsValue =
    | Undefined
    | Null
    | Bool(b: bool)
    | Num(digits: int, scale: nat)
    | Str(s: string)
    | Arr(elems: seq<JsValue>)
    | Obj(fields: map<string, JsValue>)

  /** The number 0. */
  const Zero: JsValue := Num(0, 0)

  /** ToBoolean: undefined, null, false, 0 and "" are falsy; arrays and objects, even empty ones, are truthy. */
  predicate Truthy(v: JsValue) {
    match v
    case Undefined => false
    case Null => false
    case Bool(b) => b
    case Num(d, _) => d != 0
    case Str(s) => s != ""
    case Arr(_) => true
    case Obj(_) => true
  }

  /** The values that `??` and `?.` treat as missing. */
  predicate Nullish(v: JsValue) {
    v.Undefined? || v.Null?
  }

  /** `a || b`: the left operand unless it is falsy. */
  function Or(a: JsValue, b: JsValue): JsValue {
    if Truthy(a) then a else b
  }

  /** `a ?? b`: the left operand unless it is nullish. */
  function Coalesce(a: JsValue, b: JsValue): JsValue {
    if Nullish(a) then b else a
  }

  /** For distinct operands, the two operators differ exactly when the left one is falsy but not nullish (0, "", false). */
  lemma OrCoalesceDiffer(a: JsValue, b: JsValue)
    requires a != b
    ensures Or(a, b) != Coalesce(a, b) <==> !Truthy(a) && !Nullish(a)
  {
  }

  /**
   * `v.key` on a value that is not null or undefined. Only objects carry the
   * keys the client reads; on a string, number, boolean or array those keys
   * are not defined, so the read yields undefined.
   */
  function Prop(v: JsValue, key: string): JsValue {
    match v
    case Obj(m) => if key in m then m[key] else Undefined
    case _ => Undefined
  }

  /** An exception object: its `name` and `message` properties. */
  datatype JsError = JsError(name: string, message: string)

  /** What a `try` block produces: a value, or the exception it threw. */
  datatype Completion<+T> = Normal(value: T) | Throw(error: JsError)

  /** The TypeError an engine throws for `v.key` when `v` is null or undefined (V8's wording). */
  function NullReadError(v: JsValue, key: string): JsError
    requires Nullish(v)
  {
    JsError("TypeError", "Cannot read properties of " + (if v.Null? then "null" else "undefined")
      + " (reading '" + key + "')")
  }

  /** `v.key`, including the TypeError thrown when `v` is null or undefined. */
  function Read(v: JsValue, key: string): Completion<JsValue> {
    if Nullish(v) then Throw(NullReadError(v, key)) else Normal(Prop(v, key))
  }

  // ---------------------------------------------------------------------------
  // Decimal rendering of numbers
  // ---------------------------------------------------------------------------

  predicate IsDigit(c: char) {
    '0' <= c <= '9'
  }

  predicate AllDigits(s: string) {
    forall i :: 0 <= i < |s| ==> IsDigit(s[i])
  }

  function DigitChar(d: nat): (c: char)
    requires d < 10
    ensures IsDigit(c) && c as int - '0' as int == d
  {
    (d + '0' as int) as char
  }

  /** The shortest decimal numeral of `n`, as `${n}` prints a non-negative integer. */
  function NatToDecimal(n: nat): (r: string)
    ensures |r| >= 1 && AllDigits(r)
    ensures |r| > 1 ==> r[0] != '0'
  {
    if n < 10 then [DigitChar(n)] else NatToDecimal(n / 10) + [DigitChar(n % 10)]
  }

  /** The value a string of decimal digits denotes (the inverse of NatToDecimal). */
  function DecimalValue(s: string): nat
    requires AllDigits(s)
  {
    if s == [] then 0 else DecimalValue(s[..|s| - 1]) * 10 + (s[|s| - 1] as int - '0' as int)
  }

  /** Rendering a status code and reading it back gives the same number. */
  lemma {:induction false} DecimalRoundTrip(n: nat)
    ensures DecimalValue(NatToDecimal(n)) == n
  {
    if n >= 10 {
      var r := NatToDecimal(n);
      assert r[..|r| - 1] == NatToDecimal(n / 10);
      DecimalRoundTrip(n / 10);
    }
  }

  /** Distinct numbers render as distinct numerals. */
  lemma DecimalInjective(m: nat, n: nat)
    requires NatToDecimal(m) == NatToDecimal(n)
    ensures m == n
  {
    DecimalRoundTrip(m);
    DecimalRoundTrip(n);
  }

  /** `n` zero digits. */
  function Zeros(n: nat): (r: string)
    ensures |r| == n && AllDigits(r)
  {
    if n == 0 then "" else Zeros(n - 1) + "0"
  }

  /** Leading zeros do not change the value a numeral denotes. */
  lemma {:induction false} LeadingZerosValue(k: nat, x: string)
    requires AllDigits(x)
    ensures AllDigits(Zeros(k) + x) && DecimalValue(Zeros(k) + x) == DecimalValue(x)
    decreases |x|
  {
    var y := Zeros(k) + x;
    assert AllDigits(y) by {
      forall i | 0 <= i < |y| ensures IsDigit(y[i]) {
        if i < k { assert y[i] == Zeros(k)[i]; } else { assert y[i] == x[i - k]; }
      }
    }
    if x == [] {
      assert y == Zeros(k);
      ZerosValue(k);
    } else {
      var init := x[..|x| - 1];
      assert y[..|y| - 1] == Zeros(k) + init;
      LeadingZerosValue(k, init);
    }
  }

  lemma {:induction false} ZerosValue(k: nat)
    ensures DecimalValue(Zeros(k)) == 0
  {
    if k > 0 {
      assert Zeros(k)[..k - 1] == Zeros(k - 1);
      ZerosValue(k - 1);
    }
  }

  function PadLeft(s: string, width: nat): (r: string)
    ensures |r| == if |s| >= width then |s| else width
    decreases width - |s|
  {
    if |s| >= width then s else PadLeft("0" + s, width)
  }

  /** Padding only prepends zeros. */
  lemma {:induction false} PadLeftZeros(s: string, width: nat)
    ensures PadLeft(s, width) == Zeros(|PadLeft(s, width)| - |s|) + s
    decreases width - |s|
  {
    if |s| < width {
      var r := PadLeft("0" + s, width);
      PadLeftZeros("0" + s, width);
      assert Zeros(|r| - |s|) + s == Zeros(|r| - |s| - 1) + ("0" + s);
    }
  }

  function TrimTrailingZeros(s: string): (r: string)
    ensures |r| <= |s|
    ensures r != [] ==> r[|r| - 1] != '0'
  {
    if s != [] && s[|s| - 1] == '0' then TrimTrailingZeros(s[..|s| - 1]) else s
  }

  /** Trimming removes only zeros. */
  lemma {:induction false} TrimmedZeros(s: string)
    ensures s == TrimTrailingZeros(s) + Zeros(|s| - |TrimTrailingZeros(s)|)
  {
    if s != [] && s[|s| - 1] == '0' {
      TrimmedZeros(s[..|s| - 1]);
      assert s == s[..|s| - 1] + "0";
    }
  }

  /** The magnitude's numeral, padded with leading zeros to at least `scale` + 1 digits. */
  function Numeral(digits: int, scale: nat): string {
    PadLeft(NatToDecimal(if digits < 0 then -digits else digits), scale + 1)
  }

  /** The digits before the decimal point. */
  function WholePart(digits: int, scale: nat): string {
    var n := Numeral(digits, scale);
    n[..|n| - scale]
  }

  /** The digits after the decimal point, without trailing zeros. */
  function FractionPart(digits: int, scale: nat): string {
    var n := Numeral(digits, scale);
    TrimTrailingZeros(n[|n| - scale..])
  }

  /**
   * Number::toString for the decimal digits * 10^-scale: the integer part,
   * then, when the fraction is not zero, a point and the fraction.
   */
  function NumberToString(digits: int, scale: nat): string {
    var sign := if digits < 0 then "-" else "";
    var whole := WholePart(digits, scale);
    var fraction := FractionPart(digits, scale);
    if fraction == "" then sign + whole else sign + whole + "." + fraction
  }

  /**
   * The text of digits * 10^-scale is canonical and denotes that number: the
   * integer part is non-empty with no leading zero, the fraction has at most
   * `scale` digits and no trailing zero, and the digits of both, with the
   * point moved `scale` places to the right, read back as the magnitude.
   * The printed text is an optional "-" (exactly for a negative number), the
   * integer part, and, when the fraction is not empty, a point and the
   * fraction; it never ends with a point.
   */
  lemma NumberTextDenotes(digits: int, scale: nat)
    ensures var t := NumberToString(digits, scale);
      && |t| >= 1
      && (t[0] == '-' <==> digits < 0)
      && ('.' in t <==> FractionPart(digits, scale) != [])
      && t[|t| - 1] != '.'
    ensures var t, s := NumberToString(digits, scale), if digits < 0 then 1 else 0;
      var w, f := WholePart(digits, scale), FractionPart(digits, scale);
      && |t| >= s + |w| && t[s..s + |w|] == w
      && (f == [] ==> |t| == s + |w|)
      && (f != [] ==> |t| == s + |w| + 1 + |f| && t[s + |w|] == '.' && t[s + |w| + 1..] == f)
    ensures var w := WholePart(digits, scale);
      && |w| >= 1 && AllDigits(w) && (|w| > 1 ==> w[0] != '0')
    ensures var f := FractionPart(digits, scale);
      && |f| <= scale && AllDigits(f) && (f != [] ==> f[|f| - 1] != '0')
    ensures var w, f := WholePart(digits, scale), FractionPart(digits, scale);
      && |f| <= scale
      && AllDigits(w + f + Zeros(scale - |f|))
      && DecimalValue(w + f + Zeros(scale - |f|)) == if digits < 0 then -digits else digits
  {
    WholePartCanonical(digits, scale);
    FractionPartCanonical(digits, scale);
    PartsDenote(digits, scale);
    NumberTextShape(digits, scale);
  }

  lemma NumberTextShape(digits: int, scale: nat)
    ensures var t := NumberToString(digits, scale);
      && |t| >= 1
      && (t[0] == '-' <==> digits < 0)
      && ('.' in t <==> FractionPart(digits, scale) != [])
      && t[|t| - 1] != '.'
    ensures var t, s := NumberToString(digits, scale), if digits < 0 then 1 else 0;
      var w, f := WholePart(digits, scale), FractionPart(digits, scale);
      && |t| >= s + |w| && t[s..s + |w|] == w
      && (f == [] ==> |t| == s + |w|)
      && (f != [] ==> |t| == s + |w| + 1 + |f| && t[s + |w|] == '.' && t[s + |w| + 1..] == f)
  {
    WholePartCanonical(digits, scale);
    FractionPartCanonical(digits, scale);
    var sign := if digits < 0 then "-" else "";
    var w, f := WholePart(digits, scale), FractionPart(digits, scale);
    var t := NumberToString(digits, scale);
    assert IsDigit(w[0]);
    assert '.' !in w && '.' !in f;
    if f == [] {
      assert t == sign + w;
      assert t[|t| - 1] == w[|w| - 1];
    } else {
      assert t == sign + w + "." + f;
      assert t[|sign| + |w|] == '.';
      assert t[|t| - 1] == f[|f| - 1];
    }
  }

  lemma WholePartCanonical(digits: int, scale: nat)
    ensures var w := WholePart(digits, scale);
      && |w| >= 1 && AllDigits(w) && (|w| > 1 ==> w[0] != '0')
  {
    var n := Numeral(digits, scale);
    NumeralDenotes(digits, scale);
    SplitNumeralDigits(n, scale);
    assert WholePart(digits, scale) == n[..|n| - scale];
  }

  lemma FractionPartCanonical(digits: int, scale: nat)
    ensures var f := FractionPart(digits, scale);
      && |f| <= scale && AllDigits(f) && (f != [] ==> f[|f| - 1] != '0')
  {
    var n := Numeral(digits, scale);
    NumeralDenotes(digits, scale);
    SplitNumeralDigits(n, scale);
    assert FractionPart(digits, scale) == TrimTrailingZeros(n[|n| - scale..]);
  }

  lemma PartsDenote(digits: int, scale: nat)
    ensures var w, f := WholePart(digits, scale), FractionPart(digits, scale);
      && |f| <= scale
      && AllDigits(w + f + Zeros(scale - |f|))
      && DecimalValue(w + f + Zeros(scale - |f|)) == if digits < 0 then -digits else digits
  {
    var n := Numeral(digits, scale);
    NumeralDenotes(digits, scale);
    SplitNumeral(n, scale);
    assert WholePart(digits, scale) + FractionPart(digits, scale) + Zeros(scale - |FractionPart(digits, scale)|) == n;
  }

  /** Splitting a numeral `scale` digits from the end and trimming the fraction loses only trailing zeros. */
  lemma SplitNumeral(n: string, scale: nat)
    requires |n| >= scale + 1
    ensures var w, f := n[..|n| - scale], TrimTrailingZeros(n[|n| - scale..]);
      |f| <= scale && w + f + Zeros(scale - |f|) == n
  {
    TrimmedZeros(n[|n| - scale..]);
    assert n == n[..|n| - scale] + n[|n| - scale..];
  }

  /** Both parts of a split numeral are digit strings. */
  lemma SplitNumeralDigits(n: string, scale: nat)
    requires |n| >= scale + 1 && AllDigits(n)
    ensures AllDigits(n[..|n| - scale]) && AllDigits(TrimTrailingZeros(n[|n| - scale..]))
  {
    var raw := n[|n| - scale..];
    var f := TrimTrailingZeros(raw);
    TrimmedZeros(raw);
    DigitsSlice(n, 0, |n| - scale);
    assert n[..|n| - scale] == n[0..|n| - scale];
    DigitsSlice(n, |n| - scale, |n|);
    assert raw == n[|n| - scale..|n|];
    DigitsSlice(raw, 0, |f|);
    assert f == raw[0..|f|];
  }

  lemma DigitsSlice(s: string, i: nat, j: nat)
    requires AllDigits(s) && i <= j <= |s|
    ensures AllDigits(s[i..j])
  {
    assert forall k :: 0 <= k < j - i ==> s[i..j][k] == s[i + k];
  }

  /** The padded numeral has room for the fraction, denotes the magnitude and has no superfluous leading zero. */
  lemma NumeralDenotes(digits: int, scale: nat)
    ensures var n := Numeral(digits, scale);
      && |n| >= scale + 1 && AllDigits(n)
      && DecimalValue(n) == (if digits < 0 then -digits else digits)
      && (|n| > scale + 1 ==> n[0] != '0')
  {
    var m: nat := if digits < 0 then -digits else digits;
    var numeral := NatToDecimal(m);
    var n := Numeral(digits, scale);
    assert n == PadLeft(numeral, scale + 1);
    PadLeftZeros(numeral, scale + 1);
    assert n == Zeros(|n| - |numeral|) + numeral;
    LeadingZerosValue(|n| - |numeral|, numeral);
    DecimalRoundTrip(m);
    if |n| > scale + 1 {
      assert |n| == |numeral| && n == numeral;
    }
  }

  /** ToString: how `${v}` and `new Error(v)` turn a value into text. */
  function ToJsString(v: JsValue): string
    decreases v, 1
  {
    match v
    case Undefined => "undefined"
    case Null => "null"
    case Bool(b) => if b then "true" else "false"
    case Num(d, s) => NumberToString(d, s)
    case Str(s) => s
    case Arr(es) => JoinElems(es)
    case Obj(_) => "[object Object]"
  }

  /** Array.prototype.join(","): null and undefined elements print as nothing. */
  function JoinElems(es: seq<JsValue>): string
    decreases es, 0
  {
    if es == [] then ""
    else
      var head := if Nullish(es[0]) then "" else ToJsString(es[0]);
      if |es| == 1 then head else head + "," + JoinElems(es[1..])
  }

  /** `new Error(x)`: the message is ToString(x), or empty when `x` is undefined. */
  function ConstructError(x: JsValue): JsError {
    JsError("Error", if x.Undefined? then "" else ToJsString(x))
  }

  /** `new Error(msg)` for a string message. */
  function NewError(msg: string): JsError {
    ConstructError(Str(msg))
  }

  /** `${e}` for an exception object: Error.prototype.toString (section 20.5.3.4 of ECMA-262). */
  function ErrorToString(e: JsError): string {
    if e.name == "" then e.message
    else if e.message == "" then e.name
    else e.name + ": " + e.message
  }

  /** An Error built from a non-empty message prints as "Error: " and the message; an empty one prints as "Error". */
  lemma NewErrorString(msg: string)
    ensures msg != "" ==> ErrorToString(NewError(msg)) == "Error: " + msg
    ensures msg == "" ==> ErrorToString(NewError(msg)) == "Error"
  {
  }
}
