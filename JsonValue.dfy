/**
 * The JavaScript values that `JSON.parse` produces, with the few run-time
 * operations the core applies to them: truthiness, reading a property,
 * `typeof x === 'number'`, multiplication by 1,000,000 and conversion to a
 * string. Numbers are exact reals (no rounding to doubles); `JNaN` is the one
 * non-finite number the core can produce (from `undefined * 1000000`).
 */
module JsonValue {
  import opened Wrappers
  import opened JsText

  datatype Json =
    | JNull
    | JBool(b: bool)
    | JNum(n: real)
    | JNaN
    | JStr(s: string)
    | JArr(items: seq<Json>)
    | JObj(fields: map<string, Json>)

  /** ECMAScript ToBoolean of a present value. */
  predicate Truthy(v: Json)
  {
    match v
    case JNull => false
    case JBool(b) => b
    case JNum(n) => n != 0.0
    case JNaN => false
    case JStr(s) => s != ""
    case JArr(_) => true
    case JObj(_) => true
  }

  /** ToBoolean where `None` is `undefined`. */
  predicate IsTruthy(o: Option<Json>)
  {
    o.Some? && Truthy(o.value)
  }

  /** `null` or `undefined`. */
  predicate IsNullish(o: Option<Json>)
  {
    o.None? || o.value.JNull?
  }

  /** `typeof o === 'number'`. */
  predicate IsNumber(o: Option<Json>)
  {
    o.Some? && (o.value.JNum? || o.value.JNaN?)
  }

  /**
   * `v[key]` for a value that is neither null nor undefined. Only objects own
   * named properties; an array or a string answers the index key "0". None of
   * the other keys the core reads is an Array or String prototype property.
   */
  function Member(v: Json, key: string): (r: Option<Json>)
    ensures v.JObj? ==> r == (if key in v.fields then Some(v.fields[key]) else None)
    ensures r.Some? ==> v.JObj? || key == "0"
  {
    match v
    case JObj(m) => if key in m then Some(m[key]) else None
    case JArr(items) => if key == "0" && |items| > 0 then Some(items[0]) else None
    case JStr(s) => if key == "0" && |s| > 0 then Some(JStr([s[0]])) else None
    case _ => None
  }

  /** What a property read evaluates to: a value (possibly `undefined`) or a thrown TypeError. */
  datatype ReadOutcome = Value(value: Option<Json>) | TypeError(message: string)

  /** The message V8 gives the TypeError of reading `key` from null or undefined. */
  function ReadErrorMessage(base: Option<Json>, key: string): string
  {
    "Cannot read properties of " + (if base.None? then "undefined" else "null") + " (reading '" + key + "')"
  }

  /** `base.key`: throws when `base` is null or undefined. */
  function Read(base: Option<Json>, key: string): (r: ReadOutcome)
    ensures r.TypeError? <==> IsNullish(base)
  {
    if IsNullish(base) then TypeError(ReadErrorMessage(base, key)) else Value(Member(base.value, key))
  }

  /** `base?.key`: undefined when `base` is null or undefined. */
  function ReadOptional(base: Option<Json>, key: string): (r: Option<Json>)
    ensures IsNullish(base) ==> r.None?
  {
    if IsNullish(base) then None else Member(base.value, key)
  }

  /** `v[key] = value` on an object; other values are returned unchanged. */
  function SetMember(v: Json, key: string, value: Json): (r: Json)
    ensures v.JObj? ==> r == JObj(v.fields[key := value])
    ensures !v.JObj? ==> r == v
  {
    if v.JObj? then JObj(v.fields[key := value]) else v
  }

  /** A string of ASCII decimal digits and its value. */
  predicate IsDigits(s: string)
  {
    s != [] && forall i :: 0 <= i < |s| ==> '0' <= s[i] <= '9'
  }

  function DigitsValue(s: string): (r: nat)
    requires IsDigits(s)
    ensures |s| == 1 ==> r == (s[0] as int) - ('0' as int)
  {
    var d := (s[|s| - 1] as int) - ('0' as int);
    if |s| == 1 then d else 10 * DigitsValue(s[..|s| - 1]) + d
  }

  function Pow10(k: nat): (r: nat)
    ensures r >= 1
  {
    if k == 0 then 1 else 10 * Pow10(k - 1)
  }

  /**
   * An unsigned decimal literal `D`, `D.`, `.D` or `D.D` (D a run of digits)
   * and its value; exponents, hexadecimal and `Infinity` are not covered.
   */
  function DecimalValue(t: string): (r: Option<real>)
    ensures IsDigits(t) ==> r == Some(DigitsValue(t) as real)
    ensures r.Some? ==> r.value >= 0.0
  {
    if IsDigits(t) then Some(DigitsValue(t) as real)
    else
      var dot := IndexOf(t, ".");
      if dot < 0 then None
      else
        var whole := t[..dot];
        var frac := t[dot + 1..];
        if (whole == [] || IsDigits(whole)) && (frac == [] || IsDigits(frac)) && (whole != [] || frac != []) then
          var w := if whole == [] then 0 else DigitsValue(whole);
          var f := if frac == [] then 0 else DigitsValue(frac);
          Some(w as real + (f as real) / (Pow10(|frac|) as real))
        else None
  }

  /**
   * ToNumber of a string, for the forms the model covers: blank gives 0, an
   * optionally signed decimal literal its value, anything else NaN.
   */
  function StringToNumber(s: string): (r: Json)
    ensures r.JNum? || r.JNaN?
    ensures Trim(s) == "" ==> r == JNum(0.0)
  {
    var t := Trim(s);
    if t == "" then JNum(0.0)
    else
      var sign := if t[0] == '-' then -1.0 else 1.0;
      var body := if t[0] == '-' || t[0] == '+' then t[1..] else t;
      var v := DecimalValue(body);
      if v.Some? then JNum(sign * v.value) else JNaN
  }

  /** A string of digits, white space around it aside, converts to its decimal value. */
  lemma DigitStringToNumber(s: string)
    requires IsDigits(Trim(s))
    ensures StringToNumber(s) == JNum(DigitsValue(Trim(s)) as real)
  {
    DigitsHaveNoSign(Trim(s));
  }

  /** A run of digits is not blank, carries no sign and reads as its value. */
  lemma DigitsHaveNoSign(t: string)
    requires IsDigits(t)
    ensures t != "" && t[0] != '-' && t[0] != '+'
    ensures DecimalValue(t) == Some(DigitsValue(t) as real)
  {
    assert '0' <= t[0] <= '9';
  }

  /**
   * ToNumber of a value. An array converts through its joined text: the empty
   * array is 0, one element converts as its own text, two or more join with a
   * comma and are NaN.
   */
  function ToNumber(v: Json): (r: Json)
    ensures r.JNum? || r.JNaN?
    ensures v.JNum? ==> r == v
  {
    match v
    case JNull => JNum(0.0)
    case JBool(b) => JNum(if b then 1.0 else 0.0)
    case JNum(_) => v
    case JNaN => JNaN
    case JStr(s) => StringToNumber(s)
    case JArr(items) => ArrayToNumber(items)
    case JObj(_) => JNaN
  }

  function ArrayToNumber(items: seq<Json>): (r: Json)
    ensures r.JNum? || r.JNaN?
    decreases items
  {
    if items == [] then JNum(0.0)
    else if |items| >= 2 then JNaN
    else
      match items[0]
      case JNull => JNum(0.0)
      case JBool(_) => JNaN
      case JNum(n) => JNum(n)
      case JNaN => JNaN
      case JStr(s) => StringToNumber(s)
      case JArr(inner) => ArrayToNumber(inner)
      case JObj(_) => JNaN
  }

  /** `o * 1000000`: ToNumber of the operand, then the product. */
  function TimesMillion(o: Option<Json>): (r: Json)
    ensures r.JNum? || r.JNaN?
    ensures o.Some? && o.value.JNum? ==> r == JNum(o.value.n * 1000000.0)
    ensures o.None? || o == Some(JNaN) ==> r == JNaN
    ensures o == Some(JNull) ==> r == JNum(0.0)
  {
    if o.None? then JNaN
    else
      var x := ToNumber(o.value);
      if x.JNum? then JNum(x.n * 1000000.0) else JNaN
  }

  /**
   * `String(o)`, the conversion `JSON.parse` applies to its argument. An integral
   * number is written in decimal; the engine's shortest round-trip text of any
   * other number is the parameter `fractionText`.
   */
  function ToJsString(o: Option<Json>, fractionText: real -> string): (r: string)
    ensures o.Some? && o.value.JStr? ==> r == o.value.s
    ensures o.None? ==> r == "undefined"
  {
    match o
    case None => "undefined"
    case Some(v) => ValueToString(v, fractionText)
  }

  function NumberToString(n: real, fractionText: real -> string): (r: string)
    ensures n == n.Floor as real ==> r == IntToString(n.Floor)
  {
    if n == n.Floor as real then IntToString(n.Floor) else fractionText(n)
  }

  function ValueToString(v: Json, fractionText: real -> string): string
  {
    match v
    case JNull => "null"
    case JBool(b) => if b then "true" else "false"
    case JNum(n) => NumberToString(n, fractionText)
    case JNaN => "NaN"
    case JStr(s) => s
    case JArr(items) => JoinElements(items, fractionText)
    case JObj(_) => "[object Object]"
  }

  /** `Array.prototype.join(',')`: null elements become empty text. */
  function JoinElements(items: seq<Json>, fractionText: real -> string): string
    decreases items
  {
    if items == [] then ""
    else
      var first := if items[0].JNull? then "" else ValueToString(items[0], fractionText);
      if |items| == 1 then first else first + "," + JoinElements(items[1..], fractionText)
  }
}
