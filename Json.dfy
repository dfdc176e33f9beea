/** The JSON trees the persistence layer reads and writes, and the
    org.json accessors it calls on them. Only the value kinds the
    documents use are modelled: objects, arrays, strings and integers. */
module Json {
  import opened Results

  datatype Json =
    | JObject(fields: map<string, Json>)
    | JArray(items: seq<Json>)
    | JString(str: string)
    | JInt(num: int)

  /** The cast `(JSONObject) obj` applied to an array element. */
  function AsObject(j: Json): (r: Result<map<string, Json>>)
    ensures r.Ok? <==> j.JObject?
    ensures r.Ok? ==> JObject(r.value) == j
  {
    if j.JObject? then Ok(j.fields) else Err(WrongType("JSONObject"))
  }

  /** `JSONObject.getString(key)`. */
  function GetString(o: map<string, Json>, key: string): (r: Result<string>)
    ensures r.Ok? <==> key in o && o[key].JString?
    ensures r.Ok? ==> o[key] == JString(r.value)
    ensures key !in o ==> r == Err(MissingField(key))
  {
    if key !in o then Err(MissingField(key))
    else if o[key].JString? then Ok(o[key].str)
    else Err(WrongType(key))
  }

  /** `JSONObject.getInt(key)`. */
  function GetInt(o: map<string, Json>, key: string): (r: Result<int>)
    ensures r.Ok? <==> key in o && o[key].JInt?
    ensures r.Ok? ==> o[key] == JInt(r.value)
    ensures key !in o ==> r == Err(MissingField(key))
  {
    if key !in o then Err(MissingField(key))
    else if o[key].JInt? then Ok(o[key].num)
    else Err(WrongType(key))
  }

  /** `JSONObject.getJSONArray(key)`. */
  function GetArray(o: map<string, Json>, key: string): (r: Result<seq<Json>>)
    ensures r.Ok? <==> key in o && o[key].JArray?
    ensures r.Ok? ==> o[key] == JArray(r.value)
    ensures key !in o ==> r == Err(MissingField(key))
  {
    if key !in o then Err(MissingField(key))
    else if o[key].JArray? then Ok(o[key].items)
    else Err(WrongType(key))
  }
}
