/** JSON documents as encoding/json decodes them into `any`. */
module JsonValue {
  datatype Json =
    | Null
    | Bool(value: bool)
    | Number(number: real)
    | Str(text: string)
    | Arr(items: seq<Json>)
    | Obj(fields: map<string, Json>)
}
