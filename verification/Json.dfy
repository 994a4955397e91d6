/** JSON values. `JTime(at)` is the ISO 8601 text of the instant `at`. */
module Json {
  import opened Models

  datatype Json =
    | JNull
    | JBool(b: bool)
    | JInt(n: int)
    | JStr(s: string)
    | JTime(at: int)
    | JArr(items: seq<Json>)
    | JObj(members: map<string, Json>)

  /** `data.get(key)` */
  function Get(data: Json, key: string): Json {
    if data.JObj? && key in data.members then data.members[key] else JNull
  }

  function IntOf(value: Json): Option<int> {
    if value.JInt? then Some(value.n) else None
  }

  function StrOf(value: Json): Option<string> {
    if value.JStr? then Some(value.s) else None
  }

  function TimeOf(value: Json): Option<int> {
    if value.JTime? then Some(value.at) else None
  }

  function OptInt(value: Option<int>): Json {
    if value.Some? then JInt(value.value) else JNull
  }

  function OptStr(value: Option<string>): Json {
    if value.Some? then JStr(value.value) else JNull
  }

  function OptTime(value: Option<int>): Json {
    if value.Some? then JTime(value.value) else JNull
  }
}
