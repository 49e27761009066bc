/**
 * An abstract JSON value standing in for org.json's JSONObject / JSONArray,
 * with the accessors the application uses. The `get*` accessors throw in
 * org.json when the key is missing or holds the wrong kind of value; here
 * they return None. The `opt*` accessors never throw: they fall back.
 * Text-level parsing and printing are not modelled.
 */
module Json {
  import opened Wrappers

  /** A signed 32-bit integer, Kotlin's `Int`. */
  newtype Int32 = x: int | -0x8000_0000 <= x < 0x8000_0000

  datatype Json =
    | JNull
    | JBool(b: bool)
    | JInt(i: int)                      // an integral number (Kotlin Long or Int)
    | JNum(r: real)                     // a fractional number (Kotlin Float or Double)
    | JStr(s: string)
    | JArr(items: seq<Json>)
    | JObj(fields: map<string, Json>)

  type Fields = map<string, Json>

  /** JSONObject.getString */
  function GetString(o: Fields, key: string): Option<string> {
    if key in o && o[key].JStr? then Some(o[key].s) else None
  }

  /** JSONObject.getLong */
  function GetLong(o: Fields, key: string): Option<int> {
    if key in o && o[key].JInt? then Some(o[key].i) else None
  }

  /** JSONObject.getJSONArray */
  function GetArray(o: Fields, key: string): Option<seq<Json>> {
    if key in o && o[key].JArr? then Some(o[key].items) else None
  }

  /** JSONObject.getJSONObject */
  function GetObject(o: Fields, key: string): Option<Fields> {
    if key in o && o[key].JObj? then Some(o[key].fields) else None
  }

  /** JSONArray.getJSONObject(i): fails when i is out of range or the element is not an object */
  function ElementObject(a: seq<Json>, i: nat): Option<Fields> {
    if i < |a| && a[i].JObj? then Some(a[i].fields) else None
  }

  /** JSONObject.optString(key, fallback) */
  function OptString(o: Fields, key: string, fallback: string): string {
    if key in o && o[key].JStr? then o[key].s else fallback
  }

  /** JSONObject.optLong(key, fallback) */
  function OptLong(o: Fields, key: string, fallback: int): int {
    if key in o && o[key].JInt? then o[key].i else fallback
  }

  /** JSONObject.optInt(key, fallback): a long is narrowed to 32 bits, wrapping around */
  function OptInt(o: Fields, key: string, fallback: Int32): Int32 {
    if key in o && o[key].JInt? then WrapInt32(o[key].i) else fallback
  }

  /** JSONObject.optDouble(key, fallback) */
  function OptDouble(o: Fields, key: string, fallback: real): real {
    if key in o && o[key].JNum? then o[key].r
    else if key in o && o[key].JInt? then o[key].i as real
    else fallback
  }

  /** JSONObject.optJSONArray */
  function OptArray(o: Fields, key: string): Option<seq<Json>> {
    GetArray(o, key)
  }

  /** JSONObject.optJSONObject */
  function OptObject(o: Fields, key: string): Option<Fields> {
    GetObject(o, key)
  }

  /** The two's-complement narrowing of a long to an int (Java's `(int)` cast). */
  function WrapInt32(x: int): (r: Int32)
    ensures -0x8000_0000 <= x < 0x8000_0000 ==> r as int == x
    ensures (r as int - x) % 0x1_0000_0000 == 0
  {
    ((x + 0x8000_0000) % 0x1_0000_0000 - 0x8000_0000) as Int32
  }
}
