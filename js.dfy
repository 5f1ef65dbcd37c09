/**
 * The slice of JavaScript semantics the application relies on: parsed JSON
 * values, `undefined`, truthiness, `||` defaults, property access (`.`, `?.`,
 * `[i]`) and the conversion of a value inside a template literal.
 */
module Js {
  import opened Wrappers
  import Text
  import Decimal

  /** A thrown JavaScript error; the application only ever reads its `message`. */
  datatype JsError = JsError(message: string)

  /** Reading a property of `undefined` or `null` throws a TypeError. */
  const PropertyOfNothing := JsError("Cannot read properties of undefined")

  /** A JSON value as `JSON.parse` produces it (numbers are whole numbers here). */
  datatype Json =
    | JNull
    | JBool(b: bool)
    | JNum(n: int)
    | JStr(s: string)
    | JArr(items: seq<Json>)
    | JObj(fields: map<string, Json>)

  /** A JavaScript value: `undefined` or a JSON value. */
  datatype Val = Undefined | Def(json: Json)

  /** Truthiness of an optional string field: `undefined`, `null` and `''` are falsy. */
  predicate Truthy(o: Option<string>)
  {
    o.Some? && o.value != ""
  }

  /** `o || d` where o is an optional string. */
  function Or(o: Option<string>, d: string): (r: string)
    ensures Truthy(o) ==> r == o.value
    ensures !Truthy(o) ==> r == d
    ensures d != "" ==> r != ""
  {
    if Truthy(o) then o.value else d
  }

  /** Truthiness of any value. */
  predicate TruthyVal(v: Val)
  {
    match v
    case Undefined => false
    case Def(JNull) => false
    case Def(JBool(b)) => b
    case Def(JNum(n)) => n != 0
    case Def(JStr(s)) => s != ""
    case Def(_) => true
  }

  /** `v.key`: a missing property is `undefined`; a property of `undefined` or `null` throws. */
  function Member(v: Val, key: string): (r: Result<Val, JsError>)
    ensures r.Err? <==> v == Undefined || v == Def(JNull)
    ensures v.Def? && v.json.JObj? && key in v.json.fields ==> r == Ok(Def(v.json.fields[key]))
  {
    match v
    case Undefined => Err(PropertyOfNothing)
    case Def(JNull) => Err(PropertyOfNothing)
    case Def(JObj(m)) => Ok(if key in m then Def(m[key]) else Undefined)
    case Def(_) => Ok(Undefined)
  }

  /** `v?.key`: `undefined` instead of a TypeError when v is `undefined` or `null`. */
  function OptionalMember(v: Val, key: string): (r: Result<Val, JsError>)
    ensures r.Ok?
    ensures v != Undefined && v != Def(JNull) ==> r == Member(v, key)
  {
    if v == Undefined || v == Def(JNull) then Ok(Undefined) else Member(v, key)
  }

  /**
   * `v[i]` for a whole number i: an array element, one character of a string,
   * or the property an object has under the decimal name of i.
   */
  function Index(v: Val, i: nat): (r: Result<Val, JsError>)
    ensures r.Err? <==> v == Undefined || v == Def(JNull)
    ensures v.Def? && v.json.JArr? ==>
      r == Ok(if i < |v.json.items| then Def(v.json.items[i]) else Undefined)
    ensures v.Def? && v.json.JObj? ==> r == Member(v, Decimal.IntToDecimal(i))
    ensures v.Def? && (v.json.JBool? || v.json.JNum?) ==> r == Ok(Undefined)
  {
    match v
    case Undefined => Err(PropertyOfNothing)
    case Def(JNull) => Err(PropertyOfNothing)
    case Def(JArr(items)) => Ok(if i < |items| then Def(items[i]) else Undefined)
    case Def(JStr(s)) => Ok(if i < |s| then Def(JStr([s[i]])) else Undefined)
    case Def(JObj(m)) =>
      var name := Decimal.IntToDecimal(i);
      Ok(if name in m then Def(m[name]) else Undefined)
    case Def(_) => Ok(Undefined)
  }

  /** `String(v)`, the text a template literal writes for v. */
  function ToJsString(v: Val): string
  {
    match v
    case Undefined => "undefined"
    case Def(j) => ShowJson(j)
  }

  function ShowJson(j: Json): string
  {
    match j
    case JNull => "null"
    case JBool(b) => if b then "true" else "false"
    case JNum(n) => Decimal.IntToDecimal(n)
    case JStr(s) => s
    case JArr(items) => ShowItems(items)
    case JObj(_) => "[object Object]"
  }

  /** `items.join(',')`, which writes `null` elements as empty text. */
  function ShowItems(items: seq<Json>): string
  {
    if items == [] then ""
    else
      var head := if items[0] == JNull then "" else ShowJson(items[0]);
      if |items| == 1 then head else head + "," + ShowItems(items[1..])
  }

  /** `String(v) || d`: the text of a truthy value, or d. */
  function TextOr(v: Val, d: string): (r: string)
    ensures TruthyVal(v) && v.Def? && v.json.JStr? ==> r == v.json.s
    ensures !TruthyVal(v) ==> r == d
  {
    if TruthyVal(v) then ToJsString(v) else d
  }
}
