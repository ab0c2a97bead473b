/**
 * The JSON values that Python's `json.loads` produces and `json.dumps`
 * consumes, and that the browser receives from `resp.json()`. Numbers are
 * integers only (see README, "Left out").
 */
module Json {

  datatype Json =
    | JNull
    | JBool(b: bool)
    | JInt(n: int)
    | JString(s: string)
    | JArray(items: seq<Json>)
    | JObject(fields: map<string, Json>)
}
