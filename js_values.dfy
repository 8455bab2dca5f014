/**
 * The JavaScript values the handlers inspect: parsed JSON bodies and stored
 * items, with the parts of JavaScript's implicit coercions that the
 * transaction checks rely on (`x < 0`, `x > 0`, `0 + x`, truthiness).
 */
module JsValues {
  import opened Wrappers

  /** A value produced by JSON.parse, plus NaN, which arithmetic can produce. Numbers are integers. */
  datatype Json =
    | JNull
    | JBool(b: bool)
    | JNum(n: int)
    | JStr(s: string)
    | JArr(elems: seq<Json>)
    | JObj(fields: map<string, Json>)
    | JNaN

  /** A JSON object: a request body or an item of a table. */
  type Item = map<string, Json>

  /** `item.name`, with `None` for `undefined`. */
  function Get(item: Item, name: string): Option<Json>
  {
    if name in item then Some(item[name]) else None
  }

  /** JavaScript's ToBoolean: `undefined`, null, false, 0, "" and NaN are falsy. */
  predicate Truthy(v: Option<Json>)
  {
    match v
    case None => false
    case Some(JNull) => false
    case Some(JBool(b)) => b
    case Some(JNum(n)) => n != 0
    case Some(JStr(s)) => s != ""
    case Some(JArr(_)) => true
    case Some(JObj(_)) => true
    case Some(JNaN) => false
  }

  // ----- decimal strings -----

  predicate IsDigit(c: char) { '0' <= c <= '9' }

  predicate AllDigits(s: string) { forall i :: 0 <= i < |s| ==> IsDigit(s[i]) }

  function DigitChar(d: nat): (c: char)
    requires d < 10
    ensures IsDigit(c) && c as int - '0' as int == d
  {
    ('0' as int + d) as char
  }

  /** The value of a non-empty run of decimal digits. */
  function DigitsValue(s: string): nat
    requires AllDigits(s)
  {
    if s == [] then 0
    else DigitsValue(s[..|s| - 1]) * 10 + (s[|s| - 1] as int - '0' as int)
  }

  /** The shortest decimal numeral of k. */
  function NatToString(k: nat): (s: string)
    ensures |s| > 0 && AllDigits(s)
  {
    if k < 10 then [DigitChar(k)] else NatToString(k / 10) + [DigitChar(k % 10)]
  }

  /** Number.prototype.toString for an integer. */
  function IntToString(n: int): (s: string)
    ensures |s| > 0
  {
    if n < 0 then "-" + NatToString(-n) else NatToString(n)
  }

  /**
   * StringToNumber for the literals the model covers: the empty string is 0,
   * an optionally signed run of decimal digits is its value, anything else is NaN (None).
   */
  function StringToNumber(s: string): Option<int>
  {
    if s == "" then Some(0)
    else if s[0] == '-' && |s| > 1 && AllDigits(s[1..]) then Some(-(DigitsValue(s[1..]) as int))
    else if s[0] == '+' && |s| > 1 && AllDigits(s[1..]) then Some(DigitsValue(s[1..]))
    else if AllDigits(s) then Some(DigitsValue(s))
    else None
  }

  lemma {:induction false} NatToStringRoundTrip(k: nat)
    ensures DigitsValue(NatToString(k)) == k
  {
    if k >= 10 {
      var s := NatToString(k);
      assert s[..|s| - 1] == NatToString(k / 10);
      NatToStringRoundTrip(k / 10);
    }
  }

  /** Reading back the numeral of an integer gives the integer. */
  lemma IntToStringRoundTrip(n: int)
    ensures StringToNumber(IntToString(n)) == Some(n)
  {
    if n < 0 {
      var s := IntToString(n);
      assert s[1..] == NatToString(-n);
      NatToStringRoundTrip(-n);
    } else {
      NatToStringRoundTrip(n);
    }
  }

  // ----- ToString and ToNumber -----

  /** Array.prototype.join(",") over already converted elements. */
  function JoinWithCommas(parts: seq<string>): string
  {
    if parts == [] then ""
    else if |parts| == 1 then parts[0]
    else JoinWithCommas(parts[..|parts| - 1]) + "," + parts[|parts| - 1]
  }

  /** JavaScript's ToString applied to a value (objects through their default toString). */
  function JsToString(v: Json): string
  {
    match v
    case JNull => "null"
    case JBool(b) => if b then "true" else "false"
    case JNum(n) => IntToString(n)
    case JStr(s) => s
    case JArr(a) =>
      JoinWithCommas(seq(|a|, i requires 0 <= i < |a| => if a[i] == JNull then "" else JsToString(a[i])))
    case JObj(_) => "[object Object]"
    case JNaN => "NaN"
  }

  /** JavaScript's ToNumber; `None` is NaN. Arrays and objects go through their string form. */
  function ToNumber(v: Option<Json>): Option<int>
  {
    match v
    case None => None
    case Some(JNull) => Some(0)
    case Some(JBool(b)) => Some(if b then 1 else 0)
    case Some(JNum(n)) => Some(n)
    case Some(JStr(s)) => StringToNumber(s)
    case Some(JArr(_)) => StringToNumber(JsToString(v.value))
    case Some(JObj(_)) => None
    case Some(JNaN) => None
  }

  /** `v < 0`: false whenever v converts to NaN. */
  predicate LessThanZero(v: Option<Json>)
    ensures LessThanZero(v) ==> v.Some? && !v.value.JNaN? && !v.value.JObj? && !v.value.JNull? && !v.value.JBool?
    ensures v.Some? && v.value.JNum? ==> (LessThanZero(v) <==> v.value.n < 0)
    ensures !(LessThanZero(v) && GreaterThanZero(v))
  {
    var x := ToNumber(v); x.Some? && x.value < 0
  }

  /** `v > 0`: false whenever v converts to NaN. */
  predicate GreaterThanZero(v: Option<Json>)
    ensures GreaterThanZero(v) ==> v.Some? && !v.value.JNaN? && !v.value.JObj? && !v.value.JNull?
    ensures v.Some? && v.value.JNum? ==> (GreaterThanZero(v) <==> v.value.n > 0)
    ensures v == Some(JBool(true)) ==> GreaterThanZero(v)
  {
    var x := ToNumber(v); x.Some? && x.value > 0
  }

  /**
   * `n + v` for a number n: string concatenation when v is, or converts to, a
   * string (strings, arrays, objects), numeric addition otherwise.
   */
  function AddToNumber(n: int, v: Option<Json>): (r: Json)
    ensures r.JNum? || r.JStr? || r == JNaN
    ensures r.JStr? <==> v.Some? && (v.value.JStr? || v.value.JArr? || v.value.JObj?)
    ensures r.JNum? <==> v.Some? && (v.value.JNull? || v.value.JBool? || v.value.JNum?)
    ensures r.JNum? ==> ToNumber(v).Some? && r.n == n + ToNumber(v).value
    ensures (r == JNaN) <==> (v == None || v == Some(JNaN))
  {
    match v
    case None => JNaN
    case Some(JNull) => JNum(n)
    case Some(JBool(b)) => JNum(n + if b then 1 else 0)
    case Some(JNum(m)) => JNum(n + m)
    case Some(JStr(s)) => JStr(IntToString(n) + s)
    case Some(JArr(_)) => JStr(IntToString(n) + JsToString(v.value))
    case Some(JObj(_)) => JStr(IntToString(n) + "[object Object]")
    case Some(JNaN) => JNaN
  }

  /** A missing property is neither negative nor positive, and adding it gives NaN. */
  lemma UndefinedIsUnsigned(n: int)
    ensures !LessThanZero(None) && !GreaterThanZero(None)
    ensures AddToNumber(n, None) == JNaN
  {
  }

  /** A numeric string compares with 0 like the number it spells. */
  lemma NumericStringSign(n: int)
    ensures LessThanZero(Some(JStr(IntToString(n)))) <==> n < 0
    ensures GreaterThanZero(Some(JStr(IntToString(n)))) <==> n > 0
  {
    IntToStringRoundTrip(n);
  }

  /** Adding a number to a number is integer addition; adding a string concatenates. */
  lemma AddToNumberMeaning(n: int, v: Option<Json>)
    ensures v.Some? && v.value.JNum? ==> AddToNumber(n, v) == JNum(n + v.value.n)
    ensures v.Some? && v.value.JStr? ==> AddToNumber(n, v) == JStr(IntToString(n) + v.value.s)
  {
  }
}
