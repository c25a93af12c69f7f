/**
 * The environment a request is served in: configuration constants, the
 * clock, hash functions, JSON decoding and the text forms of floats, all
 * supplied from outside, plus the two Python conversions the pipeline
 * applies to values (`str(v)` and `float(v)`).
 */
module Runtime {
  import opened Results
  import opened Values
  import opened Text
  import Dates

  /**
   * Everything the core takes from outside. The hash functions, the float
   * text forms and `json.loads` are black boxes; `hour` is the current
   * local time formatted `YYYYMMDDHH`; `today` and `maxAge` drive the
   * birthday check.
   */
  datatype Env = Env(
    md5: string -> string,
    sha512: string -> string,
    floatText: real -> string,
    containerText: Value -> string,
    parseFloat: string -> Option<real>,
    jsonLoads: string -> Option<Value>,
    hour: string,
    today: Dates.Date,
    maxAge: int,
    salt: string,
    adminSalt: string,
    adminLogin: string)

  /** `str(v)`. Integers are written in decimal; floats and containers by the environment. */
  function PyStr(env: Env, v: Value): (s: string)
    ensures v.VStr? ==> s == v.s
    ensures v.VInt? ==> s == DecimalText(v.i)
    ensures v == VNone ==> s == "None"
  {
    match v
    case VNone => "None"
    case VBool(b) => if b then "True" else "False"
    case VInt(i) => DecimalText(i)
    case VFloat(f) => env.floatText(f)
    case VStr(s) => s
    case _ => env.containerText(v)
  }

  /**
   * `float(v)`: numbers convert exactly, text is parsed (raising
   * `ValueError` when it is not a float literal), anything else raises
   * `TypeError`.
   */
  function ToFloat(env: Env, v: Value): (r: Flow<real>)
    ensures v.VFloat? ==> r == Normal(v.f)
    ensures v.VInt? ==> r == Normal(v.i as real)
    ensures r.Raised? ==> (r.exc == ValueError <==> v.VStr?)
    ensures r.Raised? <==> !(v.VBool? || v.VInt? || v.VFloat?) && !(v.VStr? && env.parseFloat(v.s).Some?)
  {
    match v
    case VBool(b) => Normal(if b then 1.0 else 0.0)
    case VInt(i) => Normal(i as real)
    case VFloat(f) => Normal(f)
    case VStr(s) =>
      (match env.parseFloat(s)
       case Some(f) => Normal(f)
       case None => Raised(ValueError))
    case _ => Raised(TypeError)
  }

  /** `json.loads(r)`: text is decoded (raising `ValueError` when malformed); other values raise `TypeError`. */
  function JsonLoads(env: Env, v: Value): (r: Flow<Value>)
    ensures v.VStr? && env.jsonLoads(v.s).Some? ==> r == Normal(env.jsonLoads(v.s).value)
    ensures r.Raised? ==> (r.exc == ValueError <==> v.VStr?)
    ensures r.Raised? <==> !(v.VStr? && env.jsonLoads(v.s).Some?)
  {
    match v
    case VStr(s) =>
      (match env.jsonLoads(s)
       case Some(x) => Normal(x)
       case None => Raised(ValueError))
    case _ => Raised(TypeError)
  }
}
