/**
 * JSON values as `JSON.parse` yields them and `res.json` sends them, together with the
 * few pieces of JavaScript semantics that the controller applies to such values:
 * truthiness, property access, `.length`, `< 5` and `=== 0`.
 *
 * `undefined` is not a JSON value; a property that is not there is `None`.
 */
module Json {
  import opened Wrappers

  datatype Json =
    | JNull
    | JBool(b: bool)
    | JNum(n: real)
    | JStr(s: string)
    | JArr(elems: seq<Json>)
    | JObj(members: map<string, Json>)

  /**
   * JavaScript truthiness. `undefined`, `null`, `false`, `0` and `""` are falsy; every
   * array and every object is truthy, empty or not. (JSON has no `NaN`.)
   */
  predicate Truthy(v: Option<Json>)
  {
    match v
    case None => false
    case Some(JNull) => false
    case Some(JBool(b)) => b
    case Some(JNum(n)) => n != 0.0
    case Some(JStr(s)) => s != []
    case Some(_) => true
  }

  /** The five falsy values a JSON property can have, counting `undefined`. */
  const FalsyValues: set<Option<Json>> :=
    {None, Some(JNull), Some(JBool(false)), Some(JNum(0.0)), Some(JStr(""))}

  /** Truthiness is exactly "not one of the five falsy values". */
  lemma TruthyIffNotFalsy(v: Option<Json>)
    ensures Truthy(v) <==> v !in FalsyValues
  {
  }

  /**
   * `v[key]` on a value that is neither `null` nor `undefined`: an object's own member, the
   * `length` of a string or an array, and `undefined` otherwise. Index keys of strings and
   * arrays (`"0"`, `"1"`, …) are not modelled, since the controller reads none.
   */
  function Member(v: Json, key: string): (r: Option<Json>)
    ensures v.JObj? ==> (r.Some? <==> key in v.members)
    ensures v.JObj? && key in v.members ==> r == Some(v.members[key])
    ensures v.JStr? ==> (r.Some? <==> key == "length") && (r.Some? ==> r.value == JNum(|v.s| as real))
    ensures v.JArr? ==> (r.Some? <==> key == "length") && (r.Some? ==> r.value == JNum(|v.elems| as real))
    ensures v.JNull? || v.JBool? || v.JNum? ==> r.None?
  {
    match v
    case JObj(members) => if key in members then Some(members[key]) else None
    case JStr(s) => if key == "length" then Some(JNum(|s| as real)) else None
    case JArr(elems) => if key == "length" then Some(JNum(|elems| as real)) else None
    case _ => None
  }

  /** The `TypeError` message JavaScript gives for `null[key]`. */
  function NullAccessMessage(key: string): string
  {
    "Cannot read properties of null (reading '" + key + "')"
  }

  /** `v[key]` on any JSON value: reading a property of `null` throws a `TypeError`. */
  function Read(v: Json, key: string): (r: Result<Option<Json>>)
    ensures r.Err? <==> v == JNull
    ensures r.Err? ==> r.message == NullAccessMessage(key)
    ensures r.Ok? ==> r.value == Member(v, key)
  {
    if v == JNull then Err(NullAccessMessage(key)) else Ok(Member(v, key))
  }

  /**
   * Converting `v` to a string or a number throws. A parsed object's own members are never
   * callable, so an object with its own `toString` member has no usable `toString` and its
   * `valueOf` gives back the object itself: `ToPrimitive` throws a `TypeError`. An object
   * without one converts to `"[object Object]"`. An array converts through `join`, which
   * converts each element.
   */
  predicate ConversionThrows(v: Json)
  {
    match v
    case JObj(members) => "toString" in members
    case JArr(elems) => exists k :: 0 <= k < |elems| && ConversionThrows(elems[k])
    case _ => false
  }

  /** The `TypeError` message JavaScript gives when `ToPrimitive` finds no usable method. */
  const ConversionMessage := "Cannot convert object to primitive value"

  /**
   * `v < bound` for a number `bound`. `v` is first converted to a primitive, which throws as
   * `ConversionThrows` says. Then `ToNumber` applies: `undefined` becomes `NaN` (so the
   * comparison is false), `null` becomes 0 and a Boolean 0 or 1. An object that converts
   * becomes `"[object Object]"`, which is `NaN`. A string, and an array that converts, are
   * taken as `NaN` as well.
   */
  function LessThan(v: Option<Json>, bound: real): (r: Result<bool>)
    ensures r.Err? <==> v.Some? && ConversionThrows(v.value)
    ensures r.Err? ==> r.message == ConversionMessage
    ensures v.None? ==> r == Ok(false)
    ensures v.Some? && v.value.JNum? ==> r == Ok(v.value.n < bound)
  {
    match v
    case Some(JNull) => Ok(0.0 < bound)
    case Some(JBool(b)) => Ok((if b then 1.0 else 0.0) < bound)
    case Some(JNum(n)) => Ok(n < bound)
    case Some(x) => if ConversionThrows(x) then Err(ConversionMessage) else Ok(false)
    case None => Ok(false)
  }

  /** An object with its own `toString` member cannot be converted, whatever that member holds. */
  lemma OwnToStringThrows(members: map<string, Json>, x: Json)
    ensures ConversionThrows(JObj(members["toString" := x]))
    ensures LessThan(Some(JObj(members["toString" := x])), 5.0) == Err(ConversionMessage)
  {
  }

  /** `v || fallback`: the value itself when truthy, otherwise the fallback. */
  function Or(v: Option<Json>, fallback: Json): (r: Json)
    ensures Truthy(v) ==> Some(r) == v
    ensures !Truthy(v) ==> r == fallback
  {
    if Truthy(v) then v.value else fallback
  }
}
