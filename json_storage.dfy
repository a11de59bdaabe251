/**
 * Browser storage and JSON as the configuration and document code uses
 * them: a string slot per key whose text either is what `JSON.stringify`
 * produced for some value (and parses back to it) or is any other text
 * (and makes `JSON.parse` throw).
 */
module Storage {
  import opened Js

  /** A JSON value; JSON text never holds `undefined`. */
  datatype Json =
    | JNull
    | JBool(b: bool)
    | JNum(n: int)
    | JStr(s: string)
    | JArr(items: seq<Json>)
    | JObj(fields: map<string, Json>)

  /** The text in a storage slot. */
  datatype Stored = Serialized(value: Json) | Unparsable(text: string)

  /** `JSON.parse(text)` */
  function Parse(text: Stored): (r: Result<Json>)
    ensures r.Ok? <==> text.Serialized?
    ensures r.Ok? ==> r.value == text.value
  {
    match text
    case Serialized(v) => Ok(v)
    case Unparsable(_) => Thrown
  }

  /** `JSON.stringify(value)` */
  function Stringify(value: Json): (r: Stored)
    ensures Parse(r) == Ok(value)
  {
    Serialized(value)
  }

  /** Truthiness of the stored text: only the empty string is falsy (JSON text never is empty). */
  predicate TextTruthy(text: Stored)
  {
    text.Serialized? || text.text != ""
  }

  /** JavaScript truthiness of a parsed value. */
  predicate JsonTruthy(v: Json)
  {
    match v
    case JNull => false
    case JBool(b) => b
    case JNum(n) => n != 0
    case JStr(s) => s != ""
    case JArr(_) => true
    case JObj(_) => true
  }

  /**
   * `v[key]` for a non-index key: the field of an object, `undefined`
   * (None) for any other value, and a TypeError for `null`.
   */
  function Prop(v: Json, key: string): (r: Result<Option<Json>>)
    ensures r.Thrown? <==> v.JNull?
    ensures v.JObj? && key in v.fields ==> r == Ok(Some(v.fields[key]))
    ensures !v.JNull? && !(v.JObj? && key in v.fields) ==> r == Ok(None)
  {
    match v
    case JNull => Thrown
    case JObj(fields) => Ok(if key in fields then Some(fields[key]) else None)
    case _ => Ok(None)
  }

  /** `v ?? fallback`: both `undefined` and `null` give the fallback. */
  function Coalesce(v: Option<Json>, fallback: Json): (r: Json)
    ensures v.None? || v == Some(JNull) ==> r == fallback
    ensures v.Some? && v != Some(JNull) ==> r == v.value
  {
    match v
    case None => fallback
    case Some(x) => if x.JNull? then fallback else x
  }

  /** `localStorage`: one text slot per key. */
  class LocalStorage {
    var items: map<string, Stored>

    constructor ()
      ensures items == map[]
    {
      items := map[];
    }

    /** `setItem(key, text)` */
    method SetItem(key: string, text: Stored)
      modifies this
      ensures items == old(items)[key := text]
    {
      items := items[key := text];
    }
  }

  /** `localStorage.getItem(key)`: `null` (None) for a key never set. */
  function GetItem(items: map<string, Stored>, key: string): (r: Option<Stored>)
    ensures r.Some? <==> key in items
    ensures r.Some? ==> r.value == items[key]
  {
    if key in items then Some(items[key]) else None
  }
}
