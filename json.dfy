/** The JSON values a status file may hold, and the one edit the poller makes
    to each of them before sending: setting its `project` field. */
module JsonValues {
  import opened Wrappers

  /** A JSON value. Numbers keep their literal text: the tool never computes
      with them, it only forwards them. */
  datatype Json =
    | JNull
    | JBool(b: bool)
    | JNumber(literal: string)
    | JString(text: string)
    | JArray(items: seq<Json>)
    | JObject(fields: map<string, Json>)

  /** The parsed status payloads the poller can tag: an object, or `null`,
      which indexing by a key turns into an empty object first. */
  type Payload = v: Json | v.JObject? || v.JNull? witness JNull

  const ProjectKey: string := "project"

  /** `value["project"] = Value::String(repo)`: the result is an object whose
      `project` field is the repo name and whose other fields are exactly those
      of the payload, with their values unchanged. */
  function WithProject(v: Payload, repo: string): (r: Json)
    ensures r.JObject? && ProjectKey in r.fields && r.fields[ProjectKey] == JString(repo)
    ensures forall f :: f != ProjectKey ==> (f in r.fields <==> v.JObject? && f in v.fields)
    ensures forall f :: f != ProjectKey && f in r.fields ==> v.JObject? && r.fields[f] == v.fields[f]
  {
    if v.JObject? then JObject(v.fields[ProjectKey := JString(repo)])
    else JObject(map[ProjectKey := JString(repo)])
  }

  /** The `project` tag of a value, when it is an object carrying a string there. */
  function ProjectOf(v: Json): Option<string>
  {
    if v.JObject? && ProjectKey in v.fields && v.fields[ProjectKey].JString?
    then Some(v.fields[ProjectKey].text)
    else None
  }
}
