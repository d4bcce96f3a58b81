/**
 * A decoded JSON value, as produced by Python's json.loads or the browser's
 * response.json(). Numbers are kept as integers: nothing in the modelled code
 * does arithmetic on a decoded number.
 */
module Json {

  datatype Json =
    | JNull
    | JBool(b: bool)
    | JNumber(n: int)
    | JString(s: string)
    | JArray(items: seq<Json>)
    | JObject(fields: map<string, Json>)
}
