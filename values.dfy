/**
 * The few JavaScript values the extension inspects or stores: what a tree
 * expression can evaluate to, what a render-context entry can hold, and the
 * parts of `typeof` and of the `++`/`--` operators the emitted code relies on.
 */
module JsValues {
  import opened TreeWalk

  /** A JavaScript value, reduced to the shapes this extension can tell apart. */
  datatype Value =
    | Undefined
    | Null
    | Bool(b: bool)
    | Num(n: int)
    | NaN
    | Str(s: string)
    | Func
    | Obj(node: Node)        // a plain object used as a tree node
    | Arr(elems: seq<Value>) // an array

  /** JavaScript `typeof`; note that `typeof null` is "object". */
  function TypeOf(v: Value): (t: string)
    ensures t == "object" <==> v.Null? || v.Obj? || v.Arr?
    ensures t in {"undefined", "boolean", "number", "string", "function", "object"}
  {
    match v
    case Undefined => "undefined"
    case Null => "object"
    case Bool(_) => "boolean"
    case Num(_) => "number"
    case NaN => "number"
    case Str(_) => "string"
    case Func => "function"
    case Obj(_) => "object"
    case Arr(_) => "object"
  }

  /** `_ctx[k]`: a key that is not present reads as `undefined`. */
  function Get(ctx: map<string, Value>, k: string): (v: Value)
    ensures k in ctx ==> v == ctx[k]
    ensures k !in ctx ==> v.Undefined?
  {
    if k in ctx then ctx[k] else Undefined
  }

  /** The numeric conversion `++` and `--` apply to their operand. */
  function ToNumber(v: Value): (r: Value)
    ensures r.Num? || r.NaN?
    ensures v.Num? ==> r == v
    ensures v.Undefined? || v.NaN? || v.Func? || v.Obj? ==> r.NaN?
    ensures v.Null? ==> r == Num(0)
    ensures v.Bool? ==> r == Num(if v.b then 1 else 0)
  {
    match v
    case Undefined => NaN
    case Null => Num(0)
    case Bool(b) => Num(if b then 1 else 0)
    case Num(n) => v
    case NaN => NaN
    case Str(s) => if s == "" then Num(0) else NaN
    case Func => NaN
    case Obj(_) => NaN
    case Arr(es) => if es == [] then Num(0) else NaN
  }

  /** The value `x++` stores into `x`. */
  function Increment(v: Value): (r: Value)
    ensures r.Num? || r.NaN?
    ensures v.Num? ==> r == Num(v.n + 1)
    ensures v.Undefined? ==> r.NaN?
  {
    match ToNumber(v)
    case Num(n) => Num(n + 1)
    case _ => NaN
  }

  /** The value `x--` stores into `x`. */
  function Decrement(v: Value): (r: Value)
    ensures r.Num? || r.NaN?
    ensures v.Num? ==> r == Num(v.n - 1)
    ensures v.Undefined? ==> r.NaN?
  {
    match ToNumber(v)
    case Num(n) => Num(n - 1)
    case _ => NaN
  }
}
