/**
 * A JSON document after parsing, the form `JSONDecoder` reads before it
 * fills a `Decodable` value. Turning bytes into this form is not modelled.
 */
module JsonModel {

  datatype Json =
    | Null
    | Bool(b: bool)
    | Number(n: real)
    | Str(s: string)
    | Array(items: seq<Json>)
    | Object(fields: map<string, Json>)
}
