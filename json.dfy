/** The JSON documents the agent decodes and publishes, before serialisation. */
module Json {

  datatype Value =
    | JNull
    | JBool(b: bool)
    | JNum(n: real)
    | JStr(s: string)
    | JArray(items: seq<Value>)
    | JObject(fields: map<string, Value>)

  /** A JSON object: what `json.dumps` is given and `json.loads` returns for `{...}`. */
  type Object = map<string, Value>
}
