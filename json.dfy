/** The raw payload the platform sends, as Python's JSON decoder hands it to
    `from_dict`: the value shapes the parsers distinguish, Python's truthiness
    of them, and the typed readings of `dict.get(key, default)`. */
module Json {
  import opened Wrappers

  /** A decoded JSON value. Floating-point numbers are not modelled. */
  datatype Json =
    | JNull
    | JBool(b: bool)
    | JInt(i: int)
    | JStr(s: string)
    | JList(items: seq<Json>)
    | JObj(fields: map<string, Json>)

  /** Python's `bool(value)`: null, false, 0 and empty containers are falsy. */
  predicate Truthy(j: Json) {
    match j
    case JNull => false
    case JBool(b) => b
    case JInt(i) => i != 0
    case JStr(s) => s != ""
    case JList(items) => items != []
    case JObj(fields) => fields != map[]
  }

  /** `data.get(key, d)` read as an int. A value of another JSON type is read
      as the default. */
  function IntOr(data: map<string, Json>, key: string, d: int): (r: int)
    ensures key !in data ==> r == d
    ensures key in data && data[key].JInt? ==> r == data[key].i
  {
    if key in data && data[key].JInt? then data[key].i else d
  }

  /** `data.get(key, d)` read as a string. */
  function StrOr(data: map<string, Json>, key: string, d: string): (r: string)
    ensures key !in data ==> r == d
    ensures key in data && data[key].JStr? ==> r == data[key].s
  {
    if key in data && data[key].JStr? then data[key].s else d
  }

  /** `data.get(key, d)` read as a bool. */
  function BoolOr(data: map<string, Json>, key: string, d: bool): (r: bool)
    ensures key !in data ==> r == d
    ensures key in data && data[key].JBool? ==> r == data[key].b
  {
    if key in data && data[key].JBool? then data[key].b else d
  }

  /** `data.get(key)` for an `Optional[int]` field: None when absent or null. */
  function OptInt(data: map<string, Json>, key: string): (r: Option<int>)
    ensures r.Some? <==> key in data && data[key].JInt?
    ensures r.Some? ==> r.value == data[key].i
  {
    if key in data && data[key].JInt? then Some(data[key].i) else None
  }

  /** `data.get(key)` for an `Optional[str]` field. An empty string is kept. */
  function OptStr(data: map<string, Json>, key: string): (r: Option<string>)
    ensures r.Some? <==> key in data && data[key].JStr?
    ensures r.Some? ==> r.value == data[key].s
  {
    if key in data && data[key].JStr? then Some(data[key].s) else None
  }

  /** `data.get(key)` for a field kept as an uninterpreted value. */
  function OptValue(data: map<string, Json>, key: string): (r: Option<Json>)
    ensures r.Some? <==> key in data && data[key] != JNull
    ensures r.Some? ==> r.value == data[key]
  {
    if key in data && data[key] != JNull then Some(data[key]) else None
  }

  /** `data.get(key, {})` followed by `.get` calls on the result: an absent key
      gives the empty dict, an object gives its fields, and anything else
      (null included) raises because it has no `get` attribute. */
  function ObjectOrEmpty(data: map<string, Json>, key: string): (r: Result<map<string, Json>>)
    ensures key !in data ==> r == Ok(map[])
    ensures key in data ==> (r.Ok? <==> data[key].JObj?)
    ensures key in data && data[key].JObj? ==> r == Ok(data[key].fields)
  {
    if key !in data then Ok(map[])
    else if data[key].JObj? then Ok(data[key].fields)
    else Err("AttributeError: '" + key + "' value has no attribute 'get'")
  }

  /** `v = data.get(key); if v: X.from_dict(v)`: a missing or falsy value gives
      None, a non-empty object gives its fields, and any other truthy value
      raises inside `from_dict`. */
  function TruthyObject(data: map<string, Json>, key: string): (r: Result<Option<map<string, Json>>>)
    ensures r == Ok(None) <==> key !in data || !Truthy(data[key])
    ensures r.Err? <==> key in data && Truthy(data[key]) && !data[key].JObj?
    ensures r.Ok? && r.value.Some? ==> data[key] == JObj(r.value.value)
  {
    if key !in data || !Truthy(data[key]) then Ok(None)
    else if data[key].JObj? then Ok(Some(data[key].fields))
    else Err("AttributeError: '" + key + "' value has no attribute 'get'")
  }
}
