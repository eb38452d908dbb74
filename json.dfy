/**
 * The parsed JSON document the Google parser reads, and the org.json
 * accessors it calls (`has`, `getString`, `getDouble`, `getJSONObject`,
 * `getJSONArray`, and the indexed reads of a JSONArray).
 *
 * Decoding the downloaded bytes into this tree happens before the model
 * starts; a text that is not JSON at all arrives as `Malformed`.
 */
module Json {
  import opened Wrappers
  import opened Throwables

  datatype Json =
    | JObject(fields: map<string, Json>)
    | JArray(items: seq<Json>)
    | JString(text: string)
    | JNumber(number: real)
    | JBool(truth: bool)
    | JNull

  /** The members of a JSONObject. `has(key)` is `key in o`. */
  type JsonObject = map<string, Json>

  /** The downloaded response after decoding: a JSON value, or text that is not JSON. */
  datatype Document = Parsed(root: Json) | Malformed(reason: string)

  /** The JSONException for a key that is absent. */
  function MissingKey(key: string): Throwable {
    JsonException("No value for " + key)
  }

  /** The JSONException for a value of the wrong kind. */
  function Mismatch(at: string, kind: string): Throwable {
    JsonException("Value at " + at + " cannot be converted to " + kind)
  }

  /** `new JSONObject(text)`: only a document whose root is an object is accepted. */
  function ObjectOf(d: Document): (r: Result<JsonObject>)
    ensures r.Success? <==> d.Parsed? && d.root.JObject?
    ensures r.Success? ==> r.value == d.root.fields
    ensures r.Failure? ==> r.error.JsonException?
  {
    match d
    case Malformed(reason) => Failure(JsonException(reason))
    case Parsed(JObject(fields)) => Success(fields)
    case Parsed(_) => Failure(Mismatch("document root", "JSONObject"))
  }

  /** `getString(key)`. */
  function GetString(o: JsonObject, key: string): (r: Result<string>)
    ensures r.Success? <==> key in o && o[key].JString?
    ensures r.Success? ==> r.value == o[key].text
    ensures r.Failure? ==> r.error.JsonException?
  {
    if key !in o then Failure(MissingKey(key))
    else if o[key].JString? then Success(o[key].text)
    else Failure(Mismatch(key, "String"))
  }

  /** `getDouble(key)`. */
  function GetDouble(o: JsonObject, key: string): (r: Result<real>)
    ensures r.Success? <==> key in o && o[key].JNumber?
    ensures r.Success? ==> r.value == o[key].number
    ensures r.Failure? ==> r.error.JsonException?
  {
    if key !in o then Failure(MissingKey(key))
    else if o[key].JNumber? then Success(o[key].number)
    else Failure(Mismatch(key, "double"))
  }

  /** `getJSONObject(key)`. */
  function GetObject(o: JsonObject, key: string): (r: Result<JsonObject>)
    ensures r.Success? <==> key in o && o[key].JObject?
    ensures r.Success? ==> r.value == o[key].fields
    ensures r.Failure? ==> r.error.JsonException?
  {
    if key !in o then Failure(MissingKey(key))
    else if o[key].JObject? then Success(o[key].fields)
    else Failure(Mismatch(key, "JSONObject"))
  }

  /** `getJSONArray(key)`. */
  function GetArray(o: JsonObject, key: string): (r: Result<seq<Json>>)
    ensures r.Success? <==> key in o && o[key].JArray?
    ensures r.Success? ==> r.value == o[key].items
    ensures r.Failure? ==> r.error.JsonException?
  {
    if key !in o then Failure(MissingKey(key))
    else if o[key].JArray? then Success(o[key].items)
    else Failure(Mismatch(key, "JSONArray"))
  }

  /** `array.getJSONObject(i)` for an index below `length()`. */
  function ObjectAt(items: seq<Json>, i: nat): (r: Result<JsonObject>)
    requires i < |items|
    ensures r.Success? <==> items[i].JObject?
    ensures r.Success? ==> r.value == items[i].fields
    ensures r.Failure? ==> r.error.JsonException?
  {
    if items[i].JObject? then Success(items[i].fields)
    else Failure(Mismatch("array element", "JSONObject"))
  }

  /** `array.getString(i)` for an index below `length()`. */
  function StringAt(items: seq<Json>, i: nat): (r: Result<string>)
    requires i < |items|
    ensures r.Success? <==> items[i].JString?
    ensures r.Success? ==> r.value == items[i].text
    ensures r.Failure? ==> r.error.JsonException?
  {
    if items[i].JString? then Success(items[i].text)
    else Failure(Mismatch("array element", "String"))
  }
}
