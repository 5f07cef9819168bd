/** The slice of org.json the request handlers use: a JSON value and the
    throwing getters getJSONObject, getJSONArray, getInt and getString,
    with a thrown JSONException modelled as None. */
module Json {
  import opened Common

  datatype Json =
    | JNull
    | JBool(b: bool)
    | JNumber(n: int)
    | JText(s: string)
    | JArray(items: seq<Json>)
    | JObject(fields: map<string, Json>)

  /** `obj.getJSONObject(key)`: the member, which must itself be an object. */
  function GetObject(obj: Json, key: string): (r: Option<Json>)
    ensures r.Some? ==> r.value.JObject?
  {
    if obj.JObject? && key in obj.fields && obj.fields[key].JObject? then Some(obj.fields[key]) else None
  }

  /** `obj.getJSONArray(key)`: the member's elements. */
  function GetArray(obj: Json, key: string): (r: Option<seq<Json>>)
    ensures r.Some? <==> obj.JObject? && key in obj.fields && obj.fields[key].JArray?
  {
    if obj.JObject? && key in obj.fields && obj.fields[key].JArray? then Some(obj.fields[key].items) else None
  }

  /** `getInt`: a number as is, or text that Integer.parseInt accepts. */
  function AsInt(v: Json): (r: Option<int>)
    ensures v.JNumber? ==> r == Some(v.n)
    ensures v.JText? ==> r == ParseInt(v.s, 10)
    ensures !v.JNumber? && !v.JText? ==> r.None?
  {
    match v
    case JNumber(n) => Some(n)
    case JText(s) => ParseInt(s, 10)
    case _ => None
  }

  /** getInt reads back what it is given: a 32-bit int as a number, or as
      the decimal text String.valueOf writes for it. */
  lemma AsIntReadsInt(n: int)
    requires IsInt32(n)
    ensures AsInt(JNumber(n)) == Some(n)
    ensures AsInt(JText(DecString(n))) == Some(n)
  {
    ParseIntOfDecString(n);
  }

  /** `obj.getInt(key)`. */
  function GetInt(obj: Json, key: string): Option<int> {
    if obj.JObject? && key in obj.fields then AsInt(obj.fields[key]) else None
  }

  /** `obj.getString(key)`: the member must be text. */
  function GetString(obj: Json, key: string): (r: Option<string>)
    ensures r.Some? <==> obj.JObject? && key in obj.fields && obj.fields[key].JText?
  {
    if obj.JObject? && key in obj.fields && obj.fields[key].JText? then Some(obj.fields[key].s) else None
  }
}
