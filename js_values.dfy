/**
 * The JavaScript value coercions the components rely on: truthiness (`x || d`,
 * `!!x`, `Boolean(x)`), `Number(x)` and `String(x)`.
 *
 * Numbers are restricted to integers plus NaN; `Number` of a string accepts an
 * optional sign followed by decimal digits, and the empty string.
 */
module JsValues {

  /** A JavaScript number: an integer or NaN. */
  datatype JsNumber = Int(value: int) | NaN

  /** A property value as it can arrive in a props object. */
  datatype JsValue = Undefined | Null | Bool(b: bool) | Num(n: JsNumber) | Str(s: string)

  /** JavaScript truthiness: undefined, null, false, 0, NaN and "" are falsy. */
  function Truthy(v: JsValue): (r: bool)
    ensures !r <==> v in {Undefined, Null, Bool(false), Num(Int(0)), Num(NaN), Str("")}
  {
    match v
    case Undefined => false
    case Null => false
    case Bool(b) => b
    case Num(n) => n.Int? && n.value != 0
    case Str(s) => s != ""
  }

  predicate IsDigit(c: char) {
    '0' <= c <= '9'
  }

  predicate IsDigits(s: string) {
    forall i | 0 <= i < |s| :: IsDigit(s[i])
  }

  function DigitChar(d: nat): (c: char)
    requires d < 10
    ensures IsDigit(c) && c as int - '0' as int == d
  {
    ('0' as int + d) as char
  }

  /** The value of a string of decimal digits, most significant first. */
  function DigitsValue(s: string): nat
    requires IsDigits(s)
  {
    if s == [] then 0 else DigitsValue(s[..|s| - 1]) * 10 + (s[|s| - 1] as int - '0' as int)
  }

  /** The shortest decimal spelling of a natural number. */
  function NatDigits(n: nat): (r: string)
    ensures r != [] && IsDigits(r)
    ensures n > 0 ==> r[0] != '0'
  {
    if n < 10 then [DigitChar(n)] else NatDigits(n / 10) + [DigitChar(n % 10)]
  }

  /** `String(n)` for an integer number. */
  function IntString(n: int): (r: string)
    ensures r != []
  {
    if n < 0 then "-" + NatDigits(-n) else NatDigits(n)
  }

  /** `Number(s)` for a string. */
  function ParseNumber(s: string): (r: JsNumber)
    ensures s == "" ==> r == Int(0)
    ensures r.Int? && s != "" ==> exists i | 0 <= i < |s| :: IsDigit(s[i])
    ensures s != "" && IsDigits(s) ==> r == Int(DigitsValue(s))
    ensures |s| > 1 && s[0] == '-' && IsDigits(s[1..]) ==> r == Int(-(DigitsValue(s[1..]) as int))
    ensures |s| > 1 && s[0] == '+' && IsDigits(s[1..]) ==> r == Int(DigitsValue(s[1..]))
    ensures !IsDigits(s) && !(|s| > 1 && (s[0] == '-' || s[0] == '+') && IsDigits(s[1..])) ==> r == NaN
  {
    if s == "" then Int(0)
    else if s[0] == '-' && |s| > 1 && IsDigits(s[1..]) then Int(-(DigitsValue(s[1..]) as int))
    else if s[0] == '+' && |s| > 1 && IsDigits(s[1..]) then Int(DigitsValue(s[1..]))
    else if IsDigits(s) then Int(DigitsValue(s))
    else NaN
  }

  /** `Number(v)`. */
  function ToNumber(v: JsValue): (r: JsNumber)
    ensures v.Undefined? ==> r == NaN
    ensures v.Num? ==> r == v.n
    ensures v.Null? ==> r == Int(0)
    ensures v.Bool? ==> r == Int(if v.b then 1 else 0)
    ensures v.Str? ==> r == ParseNumber(v.s)
  {
    match v
    case Undefined => NaN
    case Null => Int(0)
    case Bool(b) => Int(if b then 1 else 0)
    case Num(n) => n
    case Str(s) => ParseNumber(s)
  }

  /** `String(v)`. */
  function ToStr(v: JsValue): (r: string)
    ensures v.Str? ==> r == v.s
    ensures v == Undefined ==> r == "undefined"
    ensures v == Null ==> r == "null"
    ensures v.Bool? ==> r == (if v.b then "true" else "false")
    ensures v == Num(NaN) ==> r == "NaN"
    ensures v.Num? && v.n.Int? ==> r == IntString(v.n.value)
    ensures r == "" <==> v == Str("")
  {
    match v
    case Undefined => "undefined"
    case Null => "null"
    case Bool(b) => if b then "true" else "false"
    case Num(n) => if n.NaN? then "NaN" else IntString(n.value)
    case Str(s) => s
  }

  /** Reading back the digits of a natural number gives the number. */
  lemma {:induction false} NatDigitsRoundTrip(n: nat)
    ensures DigitsValue(NatDigits(n)) == n
  {
    if n >= 10 {
      var r := NatDigits(n);
      NatDigitsRoundTrip(n / 10);
      assert r[..|r| - 1] == NatDigits(n / 10);
      assert r[|r| - 1] == DigitChar(n % 10);
    }
  }

  /** `Number(String(n)) == n` for every integer. */
  lemma NumberOfStringRoundTrip(n: int)
    ensures ParseNumber(IntString(n)) == Int(n)
    ensures ToNumber(Str(ToStr(Num(Int(n))))) == Int(n)
  {
    if n < 0 {
      var r := IntString(n);
      assert r[1..] == NatDigits(-n);
      NatDigitsRoundTrip(-n);
    } else {
      NatDigitsRoundTrip(n);
      var r := NatDigits(n);
      assert r[0] != '-' && r[0] != '+' by { assert IsDigit(r[0]); }
    }
  }

  /** `Number(String(x))` is `x` for every number, NaN included. */
  lemma NumberOfStringOfNumber(x: JsNumber)
    ensures ToNumber(Str(ToStr(Num(x)))) == x
  {
    if x.Int? {
      NumberOfStringRoundTrip(x.value);
    }
  }

  /** `String(x || '')` is the empty string exactly for a falsy `x`, and `String(x)` otherwise. */
  lemma StringOrEmpty(v: JsValue)
    ensures ToStr(if Truthy(v) then v else Str("")) == "" <==> !Truthy(v)
    ensures Truthy(v) ==> ToStr(if Truthy(v) then v else Str("")) == ToStr(v)
  {
  }
}
