/** The JavaScript values the startup code looks at, and how `if (v)` judges them. */
module JsValues {

  /** A configuration or module value. Numbers are integers here; objects are known by identity. */
  datatype Value =
    | Undefined
    | Null
    | Bool(b: bool)
    | Num(n: int)
    | Str(s: string)
    | Func(id: nat)
    | Arr(items: seq<Value>)
    | Obj(id: nat)

  /** JavaScript truthiness: undefined, null, false, 0 and "" are falsy, everything else truthy. */
  predicate Truthy(v: Value) {
    match v
    case Undefined => false
    case Null => false
    case Bool(b) => b
    case Num(n) => n != 0
    case Str(s) => s != ""
    case _ => true
  }
}
