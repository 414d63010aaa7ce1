/** The small part of org.json that getGeminiResponse touches: JSON values,
    `opt`/`optString`, and the typed getters that throw JSONException. */
module Json {
  import opened Wrappers
  import opened JavaLang

  /** A JSON value. A number keeps the text Java would print for it. */
  datatype Json =
    | JNull
    | JBool(b: bool)
    | JNumber(repr: string)
    | JString(s: string)
    | JArray(items: seq<Json>)
    | JObject(members: map<string, Json>)

  /** One step of a path into a JSON document: a member name or an array index. */
  datatype Step = Key(name: string) | Index(i: nat)

  /** The value a path leads to, if every step finds an object member or an
      array element of the right kind. */
  function Lookup(v: Json, path: seq<Step>): Option<Json>
  {
    if path == [] then Some(v)
    else match path[0]
      case Key(k) =>
        if v.JObject? && k in v.members then Lookup(v.members[k], path[1..]) else None
      case Index(i) =>
        if v.JArray? && i < |v.items| then Lookup(v.items[i], path[1..]) else None
  }

  /** `obj.optString(key, default)`: the default when the member is missing
      or JSON null, the string itself for a string, and `toString()` of any
      other value. The rendering of arrays and objects is org.json's and is
      taken as the parameter `render`. */
  function OptString(members: map<string, Json>, key: string, default: string,
                     render: Json -> string): (r: string)
    ensures key !in members ==> r == default
    ensures key in members && members[key].JNull? ==> r == default
    ensures key in members && members[key].JString? ==> r == members[key].s
    ensures key in members && members[key].JBool? ==> r == (if members[key].b then "true" else "false")
    ensures key in members && members[key].JNumber? ==> r == members[key].repr
    ensures key in members && (members[key].JArray? || members[key].JObject?) ==> r == render(members[key])
  {
    if key !in members then default
    else match members[key]
      case JNull => default
      case JString(s) => s
      case JBool(b) => if b then "true" else "false"
      case JNumber(repr) => repr
      case other => render(other)
  }

  /** `obj.getJSONArray(key)` */
  function GetArray(members: map<string, Json>, key: string): (r: Result<seq<Json>, Exception>)
    ensures r.Success? <==> key in members && members[key].JArray?
    ensures r.Success? ==> r.value == members[key].items
    ensures r.Failure? ==> r.error.JSONException?
  {
    if key !in members then Failure(JSONException("JSONObject[\"" + key + "\"] not found."))
    else if !members[key].JArray? then Failure(JSONException("JSONObject[\"" + key + "\"] is not a JSONArray."))
    else Success(members[key].items)
  }

  /** `obj.getJSONObject(key)` */
  function GetObject(members: map<string, Json>, key: string): (r: Result<map<string, Json>, Exception>)
    ensures r.Success? <==> key in members && members[key].JObject?
    ensures r.Success? ==> r.value == members[key].members
    ensures r.Failure? ==> r.error.JSONException?
  {
    if key !in members then Failure(JSONException("JSONObject[\"" + key + "\"] not found."))
    else if !members[key].JObject? then Failure(JSONException("JSONObject[\"" + key + "\"] is not a JSONObject."))
    else Success(members[key].members)
  }

  /** `array.getJSONObject(0)` */
  function GetFirstObject(items: seq<Json>): (r: Result<map<string, Json>, Exception>)
    ensures r.Success? <==> |items| > 0 && items[0].JObject?
    ensures r.Success? ==> r.value == items[0].members
    ensures r.Failure? ==> r.error.JSONException?
  {
    if |items| == 0 then Failure(JSONException("JSONArray[0] not found."))
    else if !items[0].JObject? then Failure(JSONException("JSONArray[0] is not a JSONObject."))
    else Success(items[0].members)
  }
}
