/**
 * The JSON configuration document shared by the modules. The parson
 * library is replaced by a map from key to value; only the accessors the
 * modules call are modelled, with parson's answers for a missing key or a
 * value of the wrong type:
 *  - `json_object_dotget_number` gives 0,
 *  - `json_object_dotget_boolean` gives -1, which C++ turns into `true`
 *    when it is stored in a `bool`,
 *  - `json_object_dotget_object` gives NULL, and a `json_object_dotset_*`
 *    on NULL changes nothing.
 */
module JsonConfig {

  datatype Value =
    | Number(n: real)
    | Boolean(b: bool)
    | Str(s: string)
    | Object(fields: map<string, Value>)

  type JsonObject = map<string, Value>

  /** `json_object_dotget_number` */
  function GetNumber(o: JsonObject, key: string): real {
    if key in o && o[key].Number? then o[key].n else 0.0
  }

  /** `json_object_dotget_boolean`: 1 for true, 0 for false, -1 when absent. */
  function GetBoolean(o: JsonObject, key: string): int {
    if key in o && o[key].Boolean? then (if o[key].b then 1 else 0) else -1
  }

  /** The C++ conversion of an `int` to `bool`. */
  function CppBool(i: int): bool { i != 0 }

  /** A boolean setting as the modules read it: `bool x = json_object_dotget_boolean(o, key)`. */
  function ReadBool(o: JsonObject, key: string): (r: bool)
    ensures key in o && o[key].Boolean? ==> r == o[key].b
    ensures !(key in o && o[key].Boolean?) ==> r
  {
    CppBool(GetBoolean(o, key))
  }

  /** Conversion of a `double` to `int`: truncation toward zero. */
  function Truncate(x: real): (r: int)
    ensures x >= 0.0 ==> r as real <= x < r as real + 1.0
    ensures x < 0.0 ==> r as real - 1.0 < x <= r as real
  {
    if x >= 0.0 then x.Floor else -((-x).Floor)
  }

  lemma TruncateInt(n: int)
    ensures Truncate(n as real) == n
  {
  }

  /** Whether `json_object_dotget_object(doc, key)` gives a non-NULL object. */
  predicate HasObject(doc: JsonObject, key: string) {
    key in doc && doc[key].Object?
  }

  /**
   * `json_object_dotset_value(json_object_dotget_object(doc, section), key, v)`:
   * the value is stored under `key` of the `section` sub-object when that
   * sub-object exists, and the document is left as it was otherwise.
   */
  function SetInSection(doc: JsonObject, section: string, key: string, v: Value): (r: JsonObject)
    ensures HasObject(doc, section) ==>
      HasObject(r, section) && r[section].fields == doc[section].fields[key := v]
    ensures !HasObject(doc, section) ==> r == doc
    ensures r.Keys == doc.Keys
    ensures forall k :: k in doc && k != section ==> r[k] == doc[k]
  {
    if HasObject(doc, section) then doc[section := Object(doc[section].fields[key := v])] else doc
  }
}
