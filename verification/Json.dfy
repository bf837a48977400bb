/** Parsed JSON values, with the accessors the settings code uses. */
module Json {
  import opened Lists

  const U64_MAX: nat := 0xFFFF_FFFF_FFFF_FFFF

  datatype Json =
    | Null
    | Bool(flag: bool)
    | Number(value: int)
    | Float(real)
    | Str(text: string)
    | Arr(items: seq<Json>)
    | Obj(fields: map<string, Json>)

  /** A field of an object; nothing for anything that is not an object. */
  function Get(j: Json, key: string): Option<Json> {
    if j.Obj? && key in j.fields then Some(j.fields[key]) else None
  }

  function AsU64(j: Json): Option<nat> {
    if j.Number? && 0 <= j.value <= U64_MAX then Some(j.value) else None
  }

  /** The string at a field, if there is one. */
  function GetString(j: Json, key: string): Option<string> {
    match Get(j, key)
    case Some(Str(text)) => Some(text)
    case _ => None
  }
}
