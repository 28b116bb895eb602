/**
 * The dynamically typed values that flow through the converter: what
 * `json.load` yields for a STAR record and what the .mdoc `parse_value`
 * helpers yield for a header. Python's truth test and `float(...)` on such a
 * value are written out here; the string conversions `int(str)` and
 * `float(str)` belong to the interpreter and are passed in as parameters.
 */
module PyValues {
  import opened Wrappers
  import Text

  datatype Value =
    | VNone
    | VBool(b: bool)
    | VInt(i: int)
    | VFloat(f: real)
    | VStr(s: string)
    | VList(items: seq<Value>)

  /** Python's truth value: None, False, 0, 0.0, "" and [] are false. */
  predicate Truthy(v: Value) {
    match v
    case VNone => false
    case VBool(b) => b
    case VInt(i) => i != 0
    case VFloat(f) => f != 0.0
    case VStr(s) => s != []
    case VList(items) => items != []
  }

  /** `dict.get(key)`: the value under key, or None. */
  function Get(m: map<string, Value>, key: string): (v: Value)
    ensures key !in m ==> v == VNone
  {
    if key in m then m[key] else VNone
  }

  /** `m[key]`: the value under key; a KeyError naming the key when it is missing. */
  function Lookup(m: map<string, Value>, key: string): (r: Result<Value>)
    ensures r.Ok? <==> key in m
    ensures r.Ok? ==> r.value == m[key]
    ensures r.Err? ==> r.error == KeyError(key)
  {
    if key in m then Ok(m[key]) else Err(KeyError(key))
  }

  /**
   * `float(v)`. Numbers convert exactly; a string is handed to the
   * interpreter's own parser; None and lists raise TypeError.
   */
  function ToFloat(v: Value, parseFloat: string -> Option<real>): (r: Result<real>)
    ensures v.VInt? ==> r == Ok(v.i as real)
    ensures v.VFloat? ==> r == Ok(v.f)
    ensures (v.VNone? || v.VList?) ==> r == Err(TypeError)
    ensures v.VStr? ==> (r.Ok? <==> parseFloat(v.s).Some?)
  {
    match v
    case VNone => Err(TypeError)
    case VBool(b) => Ok(if b then 1.0 else 0.0)
    case VInt(i) => Ok(i as real)
    case VFloat(f) => Ok(f)
    case VStr(s) =>
      (match parseFloat(s)
       case Some(x) => Ok(x)
       case None => Err(ValueError(InvalidLiteral(s))))
    case VList(_) => Err(TypeError)
  }

  /**
   * `int(v)`. A float is truncated toward zero; a bool counts as 0 or 1; a
   * string is handed to the interpreter's own parser; None and lists raise
   * TypeError.
   */
  function ToInt(v: Value, parseInt: string -> Option<int>): (r: Result<int>)
    ensures v.VInt? ==> r == Ok(v.i)
    ensures v.VFloat? ==> r.Ok? && (if v.f >= 0.0 then 0 <= r.value && r.value as real <= v.f < r.value as real + 1.0
                                    else r.value <= 0 && r.value as real - 1.0 < v.f <= r.value as real)
    ensures (v.VNone? || v.VList?) ==> r == Err(TypeError)
    ensures v.VStr? ==> (r.Ok? <==> parseInt(v.s).Some?) && (r.Ok? ==> parseInt(v.s) == Some(r.value))
  {
    match v
    case VNone => Err(TypeError)
    case VBool(b) => Ok(if b then 1 else 0)
    case VInt(i) => Ok(i)
    case VFloat(f) => Ok(if f >= 0.0 then f.Floor else -((-f).Floor))
    case VStr(s) =>
      (match parseInt(s)
       case Some(n) => Ok(n)
       case None => Err(ValueError(InvalidLiteral(s))))
    case VList(_) => Err(TypeError)
  }

  /**
   * `int(s)` if it succeeds, else `float(s)` if it succeeds, else the string
   * itself: the conversion both .mdoc `parse_value` revisions apply to a
   * single token. Never a list and never None.
   */
  function ParseScalar(s: string, parseInt: string -> Option<int>, parseFloat: string -> Option<real>): (r: Value)
    ensures r.VInt? <==> parseInt(s).Some?
    ensures r.VFloat? <==> parseInt(s).None? && parseFloat(s).Some?
    ensures r.VStr? ==> r.s == s
    ensures r.VInt? || r.VFloat? || r.VStr?
  {
    match parseInt(s)
    case Some(i) => VInt(i)
    case None =>
      match parseFloat(s)
      case Some(f) => VFloat(f)
      case None => VStr(s)
  }

  /** `v.split()`: only strings have the method; anything else raises AttributeError. */
  function SplitValue(v: Value): (r: Result<seq<string>>)
    ensures r.Ok? <==> v.VStr?
  {
    if v.VStr? then Ok(Text.Words(v.s)) else Err(AttributeError("split"))
  }
}
