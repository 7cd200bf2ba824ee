/**
 * The part of JavaScript's value semantics the route handlers rely on: parsed JSON
 * values, truthiness, and object destructuring (which throws on null and undefined).
 * Numbers are modelled as integers; NaN and -0 are not represented.
 */
module JsValue {
  import opened Wrappers

  datatype Json =
    | Undefined
    | Null
    | Bool(b: bool)
    | Num(n: int)
    | Str(s: string)
    | Arr(items: seq<Json>)
    | Obj(fields: map<string, Json>)

  /** JavaScript's `!!v`: false, 0, "", null and undefined are falsy, everything else is truthy. */
  predicate Truthy(v: Json)
  {
    match v
    case Undefined => false
    case Null => false
    case Bool(b) => b
    case Num(n) => n != 0
    case Str(s) => s != ""
    case Arr(_) => true
    case Obj(_) => true
  }

  /**
   * Reading `key` while destructuring `v`: a TypeError for null and undefined, the
   * property's value for an object that has it, and undefined for anything else.
   */
  function Property(v: Json, key: string): (r: Outcome<Json>)
    ensures r.Throws? <==> v.Undefined? || v.Null?
    ensures r.Returns? && r.value != Undefined ==> v.Obj? && key in v.fields && v.fields[key] == r.value
    ensures v.Obj? && key in v.fields ==> r == Returns(v.fields[key])
    ensures (v.Obj? && key !in v.fields) || !(v.Obj? || v.Undefined? || v.Null?) ==> r == Returns(Undefined)
  {
    match v
    case Undefined => Throws
    case Null => Throws
    case Obj(fields) => Returns(if key in fields then fields[key] else Undefined)
    case _ => Returns(Undefined)
  }

  /** A destructuring default `{key = d}`: `d` replaces undefined only, never null or other falsy values. */
  function WithDefault(v: Json, d: Json): (r: Json)
    ensures v.Undefined? ==> r == d
    ensures !v.Undefined? ==> r == v
  {
    if v.Undefined? then d else v
  }

  /** The body of an HTTP request: either text that is not JSON, or a parsed JSON value. */
  datatype RequestBody = Malformed | Parsed(value: Json)
}
