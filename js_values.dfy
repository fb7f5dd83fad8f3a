/**
 * Dynamic JavaScript values as they arrive from JSON responses and sit in
 * React form state, with the coercions the frontend relies on: truthiness,
 * `??`, property access, `String(v)` and `Number(v)`.
 */
module JsValues {
  import opened JsText

  /** A JavaScript number. Only integral values and NaN are modelled. */
  datatype Number = NaN | Int(value: int)

  datatype JsValue =
    | Undefined
    | Null
    | Bool(b: bool)
    | Num(n: Number)
    | Str(s: string)
    | Arr(items: seq<JsValue>)
    | Obj(fields: map<string, JsValue>)

  /** JavaScript truthiness (`if (v)`, `v || w`, `!v`). */
  predicate Truthy(v: JsValue)
    ensures !Truthy(v) <==>
              (v == Undefined || v == Null || v == Bool(false) || v == Num(NaN) || v == Num(Int(0)) || v == Str(""))
  {
    match v
    case Undefined => false
    case Null => false
    case Bool(b) => b
    case Num(n) => n.Int? && n.value != 0
    case Str(s) => s != ""
    case Arr(_) => true
    case Obj(_) => true
  }

  predicate IsNullish(v: JsValue) { v.Undefined? || v.Null? }

  /** `v ?? fallback` */
  function Coalesce(v: JsValue, fallback: JsValue): (r: JsValue)
    ensures !IsNullish(v) ==> r == v
    ensures IsNullish(v) ==> r == fallback
  {
    if IsNullish(v) then fallback else v
  }

  /** `v[key]` for a property of a parsed JSON value; `undefined` when absent. */
  function Member(v: JsValue, key: string): (r: JsValue)
    ensures !v.Obj? ==> r == Undefined
    ensures v.Obj? && key !in v.fields ==> r == Undefined
    ensures v.Obj? && key in v.fields ==> r == v.fields[key]
  {
    if v.Obj? && key in v.fields then v.fields[key] else Undefined
  }

  function IntString(i: int): string {
    if i < 0 then "-" + DecimalString(-i) else DecimalString(i)
  }

  /** What `String(v)` gives for a plain object. */
  const ObjectText: string := "[object Object]"

  /** `String(v)`; an array is joined with "," and its null or undefined elements print as "". */
  function ToJsString(v: JsValue): (r: string)
    ensures v.Str? ==> r == v.s
    ensures v.Arr? && |v.items| == 0 ==> r == ""
    ensures v.Arr? && |v.items| == 1 && v.items[0].Str? ==> r == v.items[0].s
    decreases v
  {
    match v
    case Undefined => "undefined"
    case Null => "null"
    case Bool(b) => if b then "true" else "false"
    case Num(n) => if n.NaN? then "NaN" else IntString(n.value)
    case Str(s) => s
    case Arr(xs) =>
      Join(seq(|xs|, i requires 0 <= i < |xs| =>
             if IsNullish(xs[i]) then "" else ToJsString(xs[i])), ",")
    case Obj(_) => ObjectText
  }

  /** `String(v).trim() === ""` */
  predicate StringIsBlank(v: JsValue) {
    Trim(ToJsString(v)) == ""
  }

  /**
   * `Number(s)` for a string. Covers the empty string and optionally signed
   * decimal integers; every other spelling is treated as NaN.
   */
  function StringToNumber(s: string): (r: Number)
    ensures AllSpace(s) ==> r == Int(0)
    ensures var t := Trim(s); r.Int? && t != "" ==> IsDigit(t[|t| - 1])
    ensures var t := Trim(s); r.Int? && r.value < 0 ==> t != "" && t[0] == '-'
  {
    TrimEmptyIffAllSpace(s);
    var t := Trim(s);
    if t == "" then Int(0)
    else if AllDigits(t) then Int(DigitsValue(t))
    else if |t| > 1 && t[0] == '-' && AllDigits(t[1..]) then Int(0 - (DigitsValue(t[1..]) as int))
    else if |t| > 1 && t[0] == '+' && AllDigits(t[1..]) then Int(DigitsValue(t[1..]))
    else NaN
  }

  /** `Number(v)`: objects and arrays go through `String(v)` first. */
  function ToNumber(v: JsValue): (r: Number)
    ensures v.Str? ==> r == StringToNumber(v.s)
    ensures v.Arr? && |v.items| == 0 ==> r == Int(0)
    ensures v.Obj? ==> r == NaN
  {
    match v
    case Undefined => NaN
    case Null => Int(0)
    case Bool(b) => Int(if b then 1 else 0)
    case Num(n) => n
    case Str(s) => StringToNumber(s)
    case Arr(items) =>
      assert StringToNumber("") == Int(0);
      StringToNumber(ToJsString(v))
    case Obj(_) =>
      ObjectTextIsNaN();
      StringToNumber(ObjectText)
  }

  /** `Number(String(i))` gives `i` back for every integer. */
  lemma NumberStringRoundTrip(i: int)
    ensures StringToNumber(IntString(i)) == Int(i)
  {
    var n: nat := if i < 0 then -i else i;
    var d := DecimalString(n);
    DecimalRoundTrip(n);
    var t := IntString(i);
    if i < 0 {
      assert t == "-" + d && t[0] == '-' && t[1..] == d;
      assert !AllDigits(t);
    } else {
      assert t == d;
    }
    assert !IsSpace(t[0]) && !IsSpace(t[|t| - 1]);
    TrimOfUnpadded(t);
  }

  /** `Number("[object Object]")` is NaN. */
  lemma ObjectTextIsNaN()
    ensures StringToNumber(ObjectText) == NaN
  {
    var t := ObjectText;
    assert t[0] == '[' && t[|t| - 1] == ']';
    TrimOfUnpadded(t);
  }

  /** A string value is blank exactly when it is all white space. */
  lemma StrBlankIffSpaces(s: string)
    ensures StringIsBlank(Str(s)) <==> AllSpace(s)
  {
    TrimEmptyIffAllSpace(s);
  }

  /** Numbers, booleans and objects are never blank as strings; `null` and `undefined` neither. */
  lemma NonStringsNotBlank(v: JsValue)
    requires v.Num? || v.Bool? || v.Obj? || v.Undefined? || v.Null?
    ensures !StringIsBlank(v)
  {
    var s := ToJsString(v);
    assert s != [] && !IsSpace(s[0]);
    TrimEmptyIffAllSpace(s);
  }
}
