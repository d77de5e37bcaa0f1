/**
  JSON-shaped Python values, as produced by `json.loads` or
  `request.get_json`, and the handful of Python operations the two handlers
  apply to them: truthiness (`if not x`), subscripting (`d["k"]`),
  `d.get(k, default)`, `len(x)` and the membership test `k in x`. Each
  operation that Python may raise on is total here and returns the exception
  it would raise, with its type name and its `str()` text.
*/
module PyValues {

  datatype Option<+T> = None | Some(value: T) {
    function GetOr(default: T): T {
      match this
      case Some(v) => v
      case None => default
    }
  }

  /** A JSON value as Python holds it after decoding (floats without NaN or infinities). */
  datatype Value =
    | Null
    | Bool(b: bool)
    | Int(i: int)
    | Float(f: real)
    | Str(s: string)
    | Arr(items: seq<Value>)
    | Obj(fields: map<string, Value>)

  /** A raised Python exception: `type(e).__name__` and `str(e)`. */
  datatype Exc = Exc(typeName: string, message: string)

  /** Either a value or the exception raised while computing it. */
  datatype Result<+T> = Ok(value: T) | Raise(exc: Exc) {
    predicate IsFailure() {
      Raise?
    }

    function PropagateFailure<U>(): Result<U>
      requires Raise?
    {
      Raise(exc)
    }

    function Extract(): T
      requires Ok?
    {
      value
    }
  }

  /** `type(v).__name__` */
  function TypeName(v: Value): string {
    match v
    case Null => "NoneType"
    case Bool(_) => "bool"
    case Int(_) => "int"
    case Float(_) => "float"
    case Str(_) => "str"
    case Arr(_) => "list"
    case Obj(_) => "dict"
  }

  /** Python's truth value `bool(v)`: None, False, zero and empty containers are false. */
  predicate Truthy(v: Value) {
    match v
    case Null => false
    case Bool(b) => b
    case Int(i) => i != 0
    case Float(f) => f != 0.0
    case Str(s) => s != []
    case Arr(a) => a != []
    case Obj(m) => m != map[]
  }

  predicate IsPrefix(p: string, s: string) {
    |p| <= |s| && s[..|p|] == p
  }

  /** Python's `p in s` on two strings: `p` occurs somewhere in `s`. */
  predicate IsSubstring(p: string, s: string)
    decreases |s|
  {
    IsPrefix(p, s) || (s != [] && IsSubstring(p, s[1..]))
  }

  predicate EndsWith(s: string, suffix: string) {
    |suffix| <= |s| && s[|s| - |suffix|..] == suffix
  }

  /**
    `v[key]` with a string key (the keys used are plain identifiers, so
    `str(KeyError(key))` is the key between single quotes).
  */
  function GetItem(v: Value, key: string): (r: Result<Value>)
    ensures r.Ok? <==> v.Obj? && key in v.fields
    ensures r.Ok? ==> r.value == v.fields[key]
    ensures v.Obj? && key !in v.fields ==> r.exc.typeName == "KeyError"
    ensures !v.Obj? ==> r.exc.typeName == "TypeError"
  {
    match v
    case Obj(m) =>
      if key in m then Ok(m[key]) else Raise(Exc("KeyError", "'" + key + "'"))
    case Arr(_) => Raise(Exc("TypeError", "list indices must be integers or slices, not str"))
    case Str(_) => Raise(Exc("TypeError", "string indices must be integers, not 'str'"))
    case _ => Raise(Exc("TypeError", "'" + TypeName(v) + "' object is not subscriptable"))
  }

  /** `v.get(key, default)`: only a dict has a `get` attribute. */
  function Get(v: Value, key: string, default: Value): (r: Result<Value>)
    ensures r.Ok? <==> v.Obj?
    ensures v.Obj? ==> r.value == if key in v.fields then v.fields[key] else default
    ensures !v.Obj? ==> r.exc.typeName == "AttributeError"
  {
    match v
    case Obj(m) => Ok(if key in m then m[key] else default)
    case _ => Raise(Exc("AttributeError", "'" + TypeName(v) + "' object has no attribute 'get'"))
  }

  /** `len(v)`: strings, lists and dicts have a length, scalars raise. */
  function Len(v: Value): (r: Result<nat>)
    ensures r.Ok? <==> v.Str? || v.Arr? || v.Obj?
    ensures v.Arr? ==> r == Ok(|v.items|)
  {
    match v
    case Str(s) => Ok(|s|)
    case Arr(a) => Ok(|a|)
    case Obj(m) => Ok(|m|)
    case _ => Raise(Exc("TypeError", "object of type '" + TypeName(v) + "' has no len()"))
  }

  /**
    `key in v` for a string `key`: a key test on a dict, an element test on a
    list, a substring test on a string; any other value raises.
  */
  function Contains(v: Value, key: string): (r: Result<bool>)
    ensures v.Obj? ==> r == Ok(key in v.fields)
    ensures v.Arr? ==> r == Ok(Str(key) in v.items)
    ensures r.Raise? <==> !(v.Obj? || v.Arr? || v.Str?)
  {
    match v
    case Obj(m) => Ok(key in m)
    case Arr(a) => Ok(Str(key) in a)
    case Str(s) => Ok(IsSubstring(key, s))
    case _ => Raise(Exc("TypeError", "argument of type '" + TypeName(v) + "' is not iterable"))
  }
}
