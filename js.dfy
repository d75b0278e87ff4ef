/**
 * The JavaScript values that reach the modelled code from outside: parsed
 * request bodies, values read back from storage, and thrown errors.
 * Numbers keep only what the code distinguishes: a finite value, NaN and the
 * two infinities.
 */
module Js {
  import opened Wrappers
  import opened Text

  datatype Num = Finite(value: real) | NaN | PosInfinity | NegInfinity

  datatype JsValue =
    | Undefined
    | Null
    | Bool(b: bool)
    | Number(n: Num)
    | Str(s: string)
    | Array(elems: seq<JsValue>)
    | Object(props: map<string, JsValue>)

  /** Boolean coercion, as `!v` and `v || w` apply it. */
  predicate Truthy(v: JsValue) {
    match v
    case Undefined => false
    case Null => false
    case Bool(b) => b
    case Number(n) => n.PosInfinity? || n.NegInfinity? || (n.Finite? && n.value != 0.0)
    case Str(s) => s != ""
    case Array(_) => true
    case Object(_) => true
  }

  /**
   * `v.key`: None when the read itself throws a TypeError (the value is null or
   * undefined); an absent own property reads as undefined. Properties inherited
   * from prototypes are not modelled.
   */
  function Property(v: JsValue, key: string): (r: Option<JsValue>)
    ensures r.None? <==> v.Undefined? || v.Null?
  {
    match v
    case Undefined => None
    case Null => None
    case Object(props) => Some(if key in props then props[key] else Undefined)
    case _ => Some(Undefined)
  }

  /**
   * The guard `!v || typeof v !== "string"` the routes use on a request field
   * lets exactly the non-empty strings through.
   */
  predicate TruthyString(v: JsValue) {
    Truthy(v) && v.Str?
  }

  lemma TruthyStringIff(v: JsValue)
    ensures TruthyString(v) <==> v.Str? && v.s != ""
  {
  }

  /** `v?.key`: never throws; null and undefined give undefined. */
  function OptionalProperty(v: JsValue, key: string): JsValue {
    match Property(v, key)
    case None => Undefined
    case Some(w) => w
  }

  /** `typeof v === "string" ? v.trim() : ""`. */
  function TrimmedStringOrEmpty(v: JsValue): string {
    if v.Str? then Trim(v.s) else ""
  }

  function Negate(n: Num): Num {
    match n
    case Finite(r) => Finite(-r)
    case NaN => NaN
    case PosInfinity => NegInfinity
    case NegInfinity => PosInfinity
  }

  function Pow10(k: nat): (r: nat)
    ensures r >= 1
  {
    if k == 0 then 1 else 10 * Pow10(k - 1)
  }

  function LeadingDigits(s: string): (n: nat)
    ensures n <= |s| && forall i :: 0 <= i < n ==> IsDigit(s[i])
    ensures n == |s| || !IsDigit(s[n])
  {
    if s != [] && IsDigit(s[0]) then 1 + LeadingDigits(s[1..]) else 0
  }

  /** An unsigned decimal literal: digits, optionally a point and more digits, at least one digit. */
  function UnsignedDecimal(t: string): Num {
    if t == "Infinity" then PosInfinity
    else
      var k := LeadingDigits(t);
      var whole := DigitsValue(t[..k]) as real;
      if k == |t| then (if k > 0 then Finite(whole) else NaN)
      else if t[k] != '.' then NaN
      else
        var frac := t[k + 1..];
        var m := LeadingDigits(frac);
        if m != |frac| || k + m == 0 then NaN
        else Finite(whole + DigitsValue(frac) as real / Pow10(m) as real)
  }

  /** StringToNumber: surrounding whitespace ignored, the empty string is 0. */
  function StringToNumber(s: string): Num {
    var t := Trim(s);
    if t == "" then Finite(0.0)
    else if t[0] == '-' then Negate(UnsignedDecimal(t[1..]))
    else if t[0] == '+' then UnsignedDecimal(t[1..])
    else UnsignedDecimal(t)
  }

  /**
   * `Number(v)`. A blank string reads as 0, and an array converts through its
   * string form: no element or a null or undefined one reads as the empty
   * string, a single number or string reads as that element.
   */
  function ToNumber(v: JsValue): (r: Num)
    ensures v.Str? && Trim(v.s) == "" ==> r == Finite(0.0)
    ensures v.Array? && (v.elems == [] || (|v.elems| == 1 && (v.elems[0].Null? || v.elems[0].Undefined?))) ==>
      r == StringToNumber("")
    ensures v.Array? && |v.elems| == 1 && v.elems[0].Number? ==> r == v.elems[0].n
    ensures v.Array? && |v.elems| == 1 && v.elems[0].Str? ==> r == StringToNumber(v.elems[0].s)
    ensures v.Array? && |v.elems| > 1 ==> r == NaN
  {
    match v
    case Undefined => NaN
    case Null => Finite(0.0)
    case Bool(b) => Finite(if b then 1.0 else 0.0)
    case Number(n) => n
    case Str(s) => StringToNumber(s)
    case Array(elems) =>
      if |elems| == 0 then Finite(0.0)
      else if |elems| > 1 then NaN
      else (match elems[0]
            case Number(n) => n
            case Str(s) => StringToNumber(s)
            case Null => Finite(0.0)
            case Undefined => Finite(0.0)
            case _ => NaN)
    case Object(_) => NaN
  }

  /** Number.isInteger for a number value. */
  predicate IsInteger(n: Num) {
    n.Finite? && n.value.Floor as real == n.value
  }

  /** A thrown value: an Error object with its message, or anything else. */
  datatype Thrown = ErrorValue(message: string) | NonError

  /** `err.message || fallback`. */
  function MessageOr(err: Thrown, fallback: string): (r: string)
    ensures fallback != "" ==> r != ""
    ensures err.ErrorValue? && err.message != "" ==> r == err.message
  {
    if err.ErrorValue? then OrElse(err.message, fallback) else fallback
  }

  /** `err instanceof Error ? err.message : fallback`. */
  function ErrorMessageOr(err: Thrown, fallback: string): string {
    if err.ErrorValue? then err.message else fallback
  }
}
