/**
 * The JavaScript values the converter and the store handle: strings, numbers
 * (integers only), booleans, null, plain objects and arrays. A hole in a
 * sparse array (an index that was never written) is `None`.
 */
module JsonValue {
  import opened Wrappers

  datatype Value =
    | Str(s: string)
    | Num(n: int)
    | Bool(b: bool)
    | Null
    | Obj(fields: map<string, Value>)
    | Arr(slots: seq<Option<Value>>)

  /** JavaScript truthiness: "", 0, false and null are falsy; every object and array is truthy. */
  predicate Truthy(v: Value) {
    match v
    case Str(s) => s != ""
    case Num(n) => n != 0
    case Bool(b) => b
    case Null => false
    case Obj(_) => true
    case Arr(_) => true
  }

  /** isJsonObject: `typeof val === 'object'`, not an array and not null. */
  predicate IsJsonObject(v: Value)
    ensures IsJsonObject(v) <==> v.Obj?
  {
    !v.Str? && !v.Num? && !v.Bool? && !v.Arr? && v != Null
  }

  /** Property read `o[k]`: `None` stands for `undefined`. */
  function Get(fields: map<string, Value>, k: string): (r: Option<Value>)
    ensures r.Some? <==> k in fields
    ensures r.Some? ==> r.value == fields[k]
  {
    if k in fields then Some(fields[k]) else None
  }
}
