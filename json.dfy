/**
 * JSON values as the Python and JavaScript code handles them, with each language's notion
 * of a "truthy" value.
 */
module Json {
  import opened Wrappers

  datatype Value = Null | Bool(b: bool) | Num(n: real) | Str(s: string) | Arr(items: seq<Value>) | Obj(fields: map<string, Value>)

  /** Python truthiness: None, False, 0, "", [] and {} are false. */
  predicate PyTruthy(v: Value) {
    match v
    case Null => false
    case Bool(b) => b
    case Num(n) => n != 0.0
    case Str(s) => s != ""
    case Arr(items) => items != []
    case Obj(fields) => fields != map[]
  }

  /** JavaScript truthiness: null, undefined, false, 0 and "" are false; every array and object is true. */
  predicate JsTruthy(v: Option<Value>) {
    match v
    case None => false
    case Some(Null) => false
    case Some(Bool(b)) => b
    case Some(Num(n)) => n != 0.0
    case Some(Str(s)) => s != ""
    case Some(_) => true
  }

  /** `d.get(k)` on an object. */
  function Field(fields: map<string, Value>, k: string): Option<Value> {
    if k in fields then Some(fields[k]) else None
  }
}
