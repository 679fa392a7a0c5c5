/** JSON values as `json.loads` produces them: the stored representation of every record. */
module Json {
  import opened Wrappers

  datatype Json =
    | Null
    | Bool(b: bool)
    | Int(i: int)
    | Str(s: string)
    | Arr(items: seq<Json>)
    | Obj(fields: map<string, Json>)

  /** `{}` */
  const EmptyObj: Json := Obj(map[])

  /** `d[key]` on a dict, or None when `d` is not a dict or lacks the key. */
  function Field(d: Json, key: string): (r: Option<Json>)
    ensures r.Some? <==> d.Obj? && key in d.fields
    ensures r.Some? ==> r.value == d.fields[key]
  {
    if d.Obj? && key in d.fields then Some(d.fields[key]) else None
  }

  /** `d.get(key)` on a dict: the value, or Python's None (JSON null) when absent. */
  function GetOrNull(d: Json, key: string): (r: Json)
    requires d.Obj?
    ensures key !in d.fields ==> r == Null
    ensures key in d.fields ==> r == d.fields[key]
  {
    if key in d.fields then d.fields[key] else Null
  }

  /** `d.setdefault(key, {})` or `d.get(key, {})` on a dict whose entry, if present, is a dict. */
  function DictOrEmpty(d: Json, key: string): (r: Json)
    requires d.Obj? && (key in d.fields ==> d.fields[key].Obj?)
    ensures r.Obj?
    ensures key in d.fields ==> r == d.fields[key]
    ensures key !in d.fields ==> r == EmptyObj
  {
    if key in d.fields then d.fields[key] else EmptyObj
  }

  /** `d[key] = v` on a dict. */
  function SetField(d: Json, key: string, v: Json): (r: Json)
    requires d.Obj?
    ensures r.Obj? && r.fields == d.fields[key := v]
  {
    Obj(d.fields[key := v])
  }

  /** `del d[key]` on a dict. */
  function DelField(d: Json, key: string): (r: Json)
    requires d.Obj?
    ensures r.Obj? && r.fields == d.fields - {key}
  {
    Obj(d.fields - {key})
  }
}
