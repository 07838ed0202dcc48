/** Parsed JSON documents, as the org.json library hands them to the app, and
    the three typed accessors the app calls on them. The text parser itself
    is not part of this model: it is a parameter of the operations that need it. */
module JsonValues {
  import opened Wrappers

  datatype Json =
    | JObject(members: map<string, Json>)
    | JArray(elements: seq<Json>)
    | JString(text: string)
    | JOther          // numbers, booleans and JSON null

  /** JSONObject.getJSONObject(key): the member must be present and be an object,
      otherwise a JSONException (None) is raised. */
  function GetObject(obj: map<string, Json>, key: string): Option<map<string, Json>>
  {
    if key in obj && obj[key].JObject? then Some(obj[key].members) else None
  }

  /** JSONObject.getJSONArray(key): the member must be present and be an array. */
  function GetArray(obj: map<string, Json>, key: string): Option<seq<Json>>
  {
    if key in obj && obj[key].JArray? then Some(obj[key].elements) else None
  }

  /** JSONObject.getString(key): the member must be present and hold a string. */
  function GetString(obj: map<string, Json>, key: string): Option<string>
  {
    if key in obj && obj[key].JString? then Some(obj[key].text) else None
  }
}
