/** The few JavaScript value rules the components rely on: optional
    properties, truthiness, template-literal interpolation and the untyped JSON
    values that flow through the registration call. */
module Js {

  /** An object-valued state cell or argument that may be `null` (`None`). */
  datatype Option<+T> = None | Some(value: T)

  /** A property read from a loosely typed object that should hold a string:
      absent (`undefined`), explicitly `null`, or a string. */
  datatype StringProp = Undefined | Null | Str(text: string)

  /** Such a property is truthy exactly when it holds a non-empty string. */
  predicate Truthy(p: StringProp)
  {
    p.Str? && p.text != ""
  }

  /** `${p}` inside a template literal: `undefined` and `null` are rendered as
      the words "undefined" and "null". */
  function Interpolate(p: StringProp): string
  {
    match p
    case Str(s) => s
    case Undefined => "undefined"
    case Null => "null"
  }

  /** A JSON value as returned by `res.json()`. Numbers are kept integral. */
  datatype Json =
    | JNull
    | JBool(b: bool)
    | JNumber(n: int)
    | JString(s: string)
    | JArray(items: seq<Json>)
    | JObject(fields: map<string, Json>)

  /** JavaScript truthiness of a parsed JSON value: `null`, `false`, `0` and the
      empty string are falsy; every array and object, empty ones included, is truthy. */
  predicate JsonTruthy(j: Json)
  {
    match j
    case JNull => false
    case JBool(b) => b
    case JNumber(n) => n != 0
    case JString(s) => s != ""
    case JArray(_) => true
    case JObject(_) => true
  }

  /** The falsy JSON values are exactly `null`, `false`, `0` and `""`. */
  lemma FalsyJson(j: Json)
    ensures !JsonTruthy(j) <==> j == JNull || j == JBool(false) || j == JNumber(0) || j == JString("")
  {
  }
}
