/** JSON values; an object is the map of its fields, so two objects that differ only in key order are equal. */
module Json {
  import opened Common

  datatype Value = Null | Bool(b: bool) | Num(n: int) | Str(s: string) | Arr(items: seq<Value>) | Obj(fields: map<string, Value>)

  /** A step from a value into one of its parts. */
  datatype Part = Item(i: nat) | Field(k: string)

  function Inside(v: Value, p: Part): Option<Value> {
    if p.Item? && v.Arr? && p.i < |v.items| then Some(v.items[p.i])
    else if p.Field? && v.Obj? && p.k in v.fields then Some(v.fields[p.k])
    else None
  }

  /** What stands at a position of a value. */
  function At(v: Value, path: seq<Part>): Option<Value>
    decreases |path|
  {
    if path == [] then Some(v)
    else if Inside(v, path[0]).None? then None
    else At(Inside(v, path[0]).value, path[1..])
  }
}
