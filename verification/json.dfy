/**
 A JSON value as `json.loads` hands it back for one line of the annotation
 file. Only the distinction between an object (a Python `dict`) and every
 other kind of value matters to the annotation store; the other kinds are
 kept so that a record's unrelated fields can be carried through a rewrite
 unchanged.
 */
module Json {

  datatype Value =
    | Null
    | Bool(b: bool)
    | Num(literal: string)   // a number as loaded, named by a literal for it
    | Str(s: string)
    | Arr(items: seq<Value>)
    | Obj(fields: map<string, Value>)

  /** An object with the single member `key: v`. */
  function Singleton(key: string, v: Value): (o: Value)
    ensures o.Obj? && o.fields.Keys == {key} && o.fields[key] == v
  {
    Obj(map[key := v])
  }
}
