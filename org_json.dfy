/** The subset of org.json that the client relies on: JSON values, JSONObject as
    a map from keys to values, `put` (which removes the key when the value is
    null) and the strict typed getters, which throw a JSONException when the key
    is missing or holds a value of another kind. Text parsing and serialisation
    are not modelled here: callers receive them as parameters. */
module OrgJson {
  import opened Wrappers
  import opened JavaLang

  datatype Json =
    | JNull
    | JBool(boolean: bool)
    | JInt(number: int)
    | JString(str: string)
    | JArray(elems: seq<Json>)
    | JObject(fields: map<string, Json>)

  /** A JSONObject: its keys and their values. */
  type Object = map<string, Json>

  /** The order in which `keySet()` hands out the keys: every key once. */
  ghost predicate Enumerates(order: seq<string>, keys: set<string>) {
    && (forall i, j :: 0 <= i < j < |order| ==> order[i] != order[j])
    && (forall k :: k in keys <==> k in order)
  }

  /** `object.put(key, value)`: a null value removes the key. */
  function Put(o: Object, key: string, value: Option<Json>): Object {
    match value
    case Some(v) => o[key := v]
    case None => o - {key}
  }

  /** `object.put(key, s)` for a String argument that may be null. */
  function PutString(o: Object, key: string, s: Option<string>): Object {
    Put(o, key, if s.Some? then Some(JString(s.value)) else None)
  }

  /** The entry for `key` is present exactly when the value is non-null, and
      then holds it. */
  predicate Carries(d: Object, key: string, value: Option<string>) {
    (key in d <==> value.Some?) && (value.Some? ==> d[key] == JString(value.value))
  }

  /** The same for an array value. */
  predicate CarriesArray(d: Object, key: string, value: Option<seq<Json>>) {
    (key in d <==> value.Some?) && (value.Some? ==> d[key] == JArray(value.value))
  }

  // The messages of org.json's JSONException (their exact wording varies
  // between releases of the library).

  function NotFound(key: string): string {
    "JSONObject[\"" + key + "\"] not found."
  }

  function NotA(key: string, kind: string): string {
    "JSONObject[\"" + key + "\"] is not a " + kind + "."
  }

  function ElementNotA(index: int, kind: string): string {
    "JSONArray[" + DecimalString(index) + "] is not a " + kind + "."
  }

  /** `object.getString(key)`. */
  function GetString(o: Object, key: string): (r: Result<string, Error>)
    ensures r.Success? <==> key in o && o[key].JString?
    ensures r.Success? ==> o[key] == JString(r.value)
    ensures r.Failure? ==> r.error.JsonException?
  {
    if key !in o then Failure(JsonException(NotFound(key)))
    else if o[key].JString? then Success(o[key].str)
    else Failure(JsonException(NotA(key, "string")))
  }

  /** `object.getJSONArray(key)`. */
  function GetJsonArray(o: Object, key: string): (r: Result<seq<Json>, Error>)
    ensures r.Success? <==> key in o && o[key].JArray?
    ensures r.Success? ==> o[key] == JArray(r.value)
    ensures r.Failure? ==> r.error.JsonException?
  {
    if key !in o then Failure(JsonException(NotFound(key)))
    else if o[key].JArray? then Success(o[key].elems)
    else Failure(JsonException(NotA(key, "JSONArray")))
  }

  /** `object.getJSONObject(key)`. */
  function GetJsonObject(o: Object, key: string): (r: Result<Object, Error>)
    ensures r.Success? <==> key in o && o[key].JObject?
    ensures r.Success? ==> o[key] == JObject(r.value)
    ensures r.Failure? ==> r.error.JsonException?
  {
    if key !in o then Failure(JsonException(NotFound(key)))
    else if o[key].JObject? then Success(o[key].fields)
    else Failure(JsonException(NotA(key, "JSONObject")))
  }

  /** `object.getInt(key)` on an integer value. */
  function GetInt(o: Object, key: string): (r: Result<int, Error>)
    ensures r.Success? <==> key in o && o[key].JInt?
    ensures r.Success? ==> o[key] == JInt(r.value)
    ensures r.Failure? ==> r.error.JsonException?
  {
    if key !in o then Failure(JsonException(NotFound(key)))
    else if o[key].JInt? then Success(o[key].number)
    else Failure(JsonException(NotA(key, "int")))
  }

  /** `array.getString(i)`. */
  function ElementString(a: seq<Json>, i: nat): (r: Result<string, Error>)
    requires i < |a|
    ensures r.Success? <==> a[i].JString?
    ensures r.Success? ==> a[i] == JString(r.value)
    ensures r.Failure? ==> r.error.JsonException?
  {
    if a[i].JString? then Success(a[i].str) else Failure(JsonException(ElementNotA(i, "string")))
  }

  /** `array.getJSONObject(i)`. */
  function ElementObject(a: seq<Json>, i: nat): (r: Result<Object, Error>)
    requires i < |a|
    ensures r.Success? <==> a[i].JObject?
    ensures r.Success? ==> a[i] == JObject(r.value)
    ensures r.Failure? ==> r.error.JsonException?
  {
    if a[i].JObject? then Success(a[i].fields) else Failure(JsonException(ElementNotA(i, "JSONObject")))
  }
}
