/**
 * The slice of ArduinoJson and of the framework's StatefulService that the
 * firmware's read/update functions rely on.
 *
 * A JSON object is a map from key to a small variant. `root[k] | d` yields the
 * value stored under `k` when it is present and convertible to the type of `d`
 * (for `int` and `long`: an integer inside the 32-bit range of the ESP8266
 * toolchain, where `long` is also 32 bits wide), and `d` otherwise.
 */
module ArduinoJson {

  datatype Json =
    | JNull
    | JBool(b: bool)
    | JInt(i: int)
    | JString(s: string)
    | JArray(items: seq<Json>)
    | JObject(fields: map<string, Json>)

  type JsonObject = map<string, Json>

  const INT_MIN: int := -0x8000_0000
  const INT_MAX: int := 0x7fff_ffff

  predicate IsInt(x: int) { INT_MIN <= x <= INT_MAX }

  /** `root[key] | d` where `d` is an `int` (or a `long`: same width here). */
  function IntOr(root: JsonObject, key: string, d: int): (r: int)
    ensures key !in root ==> r == d
    ensures r == d || (key in root && root[key] == JInt(r) && IsInt(r))
    ensures key in root && root[key].JInt? && IsInt(root[key].i) ==> r == root[key].i
  {
    if key in root && root[key].JInt? && IsInt(root[key].i) then root[key].i else d
  }

  /** `root[key] | d` where `d` is a `bool`. */
  function BoolOr(root: JsonObject, key: string, d: bool): (r: bool)
    ensures key !in root ==> r == d
    ensures r == d || (key in root && root[key] == JBool(r))
    ensures key in root && root[key].JBool? ==> r == root[key].b
  {
    if key in root && root[key].JBool? then root[key].b else d
  }

  /** `root[key] | d` where `d` is a string literal. */
  function StringOr(root: JsonObject, key: string, d: string): (r: string)
    ensures key !in root ==> r == d
    ensures r == d || (key in root && root[key] == JString(r))
    ensures key in root && root[key].JString? ==> r == root[key].s
  {
    if key in root && root[key].JString? then root[key].s else d
  }

  /** The implicit conversion `long x = root[key]`: the integer, or 0 when there is none. */
  function LongValue(root: JsonObject, key: string): (r: int)
    ensures key !in root ==> r == 0
    ensures IsInt(r)
    ensures key in root && root[key].JInt? && IsInt(root[key].i) ==> r == root[key].i
  {
    IntOr(root, key, 0)
  }

  /** `JsonArray a = root[key]`: the elements, or a null array (size 0) when `key` holds no array. */
  function ArrayItems(root: JsonObject, key: string): (r: seq<Json>)
    ensures key in root && root[key].JArray? ==> r == root[key].items
    ensures !(key in root && root[key].JArray?) ==> r == []
  {
    if key in root && root[key].JArray? then root[key].items else []
  }

  /** `JsonObject o = element`: the members, or a null object (no members) when `v` is no object. */
  function ObjectOf(v: Json): (r: JsonObject)
    ensures v.JObject? ==> r == v.fields
    ensures !v.JObject? ==> r == map[]
  {
    if v.JObject? then v.fields else map[]
  }
}

/** The result type of the framework's StatefulService update functions. */
module StateUpdate {

  datatype StateUpdateResult = Changed | Unchanged | Error

  /** What a `static StateUpdateResult update(JsonObject&, T&)` leaves behind: the new value and the verdict. */
  datatype Updated<T> = Updated(value: T, result: StateUpdateResult)

  /** The verdict for a complete update: CHANGED exactly when some assignment changed a value. */
  function Verdict(changed: bool): StateUpdateResult
  {
    if changed then Changed else Unchanged
  }

  /**
   * updateStateValue: assign `newValue` and set CHANGED when it differs from
   * the value held; a verdict already CHANGED is never reset.
   */
  method UpdateStateValue<T(==)>(existing: T, newValue: T, result: StateUpdateResult)
    returns (existing': T, result': StateUpdateResult)
    ensures existing' == newValue
    ensures result'.Changed? == (result.Changed? || newValue != existing)
    ensures !result'.Changed? ==> result' == result
  {
    existing', result' := existing, result;
    if newValue != existing {
      existing' := newValue;
      result' := Changed;
    }
  }
}
