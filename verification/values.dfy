/**
 * The Python values that flow through the request pipeline: decoded JSON,
 * keyword arguments, stored cache entries and handler responses.
 */
module Values {

  /**
   * The runtime type of a value, as `type(v)` reports it. A `bool` carries
   * its own tag here: it is not treated as an `int`.
   */
  datatype Tag = NoneType | BoolType | IntType | FloatType | StrType | ListType | TupleType | SetType | DictType

  /** A Python value. A dict keeps its entries in insertion order. */
  datatype Value =
    | VNone
    | VBool(b: bool)
    | VInt(i: int)
    | VFloat(f: real)
    | VStr(s: string)
    | VList(items: seq<Value>)
    | VTuple(items: seq<Value>)
    | VSet(items: seq<Value>)
    | VDict(entries: seq<(Value, Value)>)

  function TagOf(v: Value): Tag {
    match v
    case VNone => NoneType
    case VBool(_) => BoolType
    case VInt(_) => IntType
    case VFloat(_) => FloatType
    case VStr(_) => StrType
    case VList(_) => ListType
    case VTuple(_) => TupleType
    case VSet(_) => SetType
    case VDict(_) => DictType
  }

  /** Python truthiness: `None`, `False`, zero and empty containers are false. */
  predicate Truthy(v: Value) {
    match v
    case VNone => false
    case VBool(b) => b
    case VInt(i) => i != 0
    case VFloat(f) => f != 0.0
    case VStr(s) => |s| > 0
    case VList(items) => |items| > 0
    case VTuple(items) => |items| > 0
    case VSet(items) => |items| > 0
    case VDict(entries) => |entries| > 0
  }

  /** `x or y` for a value `x`. */
  function Or(x: Value, y: Value): Value {
    if Truthy(x) then x else y
  }

  /** The exceptions the pipeline can raise, by Python class. */
  datatype Exc = TypeError | ValueError | ConnectionError

  /** A computation that either returns normally or raises. */
  datatype Flow<+T> = Normal(value: T) | Raised(exc: Exc)
}
