/**
 * The Python operations the extractors apply to parsed JSON values: `dict.get`,
 * subscription, iteration, `len`, `in` and truthiness, each with the exception
 * Python raises when the value has the wrong shape.
 */
module PyOps {
  import opened Wrappers
  import opened JsonTree
  import Text

  /** The exceptions the extractors can raise, with what `str(e)` gives. */
  datatype PyExc =
    | KeyError(keyRepr: string)
    | IndexError(msg: string)
    | AttributeError(msg: string)
    | TypeError(msg: string)
    | ValueError(msg: string)
    | JsonDecodeError(msg: string)
    | HttpError(msg: string)
  {
    /** `str(e)`: a KeyError shows the key's repr, every other kind its message. */
    function Message(): string
    {
      match this
      case KeyError(k) => k
      case IndexError(m) => m
      case AttributeError(m) => m
      case TypeError(m) => m
      case ValueError(m) => m
      case JsonDecodeError(m) => m
      case HttpError(m) => m
    }
  }

  /** Python's name for the type a JSON value decodes to. */
  function TypeName(j: Json): string
  {
    match j
    case JNull => "NoneType"
    case JBool(_) => "bool"
    case JNum(n) => if n.Floor as real == n then "int" else "float"
    case JStr(_) => "str"
    case JArr(_) => "list"
    case JObj(_) => "dict"
  }

  function Quoted(s: string): string
  {
    "'" + s + "'"
  }

  function NoAttribute(j: Json, name: string): PyExc
  {
    AttributeError(Quoted(TypeName(j)) + " object has no attribute " + Quoted(name))
  }

  /** Python truthiness of a decoded JSON value. */
  predicate Truthy(j: Json)
  {
    match j
    case JNull => false
    case JBool(b) => b
    case JNum(n) => n != 0.0
    case JStr(s) => |s| > 0
    case JArr(items) => |items| > 0
    case JObj(fields) => |fields| > 0
  }

  /** `d.get(key, default)` for a string key. */
  function Get(d: Json, key: string, default: Json): (r: Result<Json, PyExc>)
    ensures r.Success? <==> d.JObj?
    ensures r.Success? ==> r.value == Lookup(d.fields, key).GetOr(default)
  {
    if d.JObj? then Success(Lookup(d.fields, key).GetOr(default))
    else Failure(NoAttribute(d, "get"))
  }

  /** `d.get(key, default)` for a key that is itself a decoded JSON value. */
  function GetByValue(d: Json, key: Json, default: Json): (r: Result<Json, PyExc>)
    ensures r.Success? <==> d.JObj? && !key.JArr? && !key.JObj?
    ensures r.Success? && key.JStr? ==> r.value == Lookup(d.fields, key.s).GetOr(default)
    ensures r.Success? && !key.JStr? ==> r.value == default
  {
    if !d.JObj? then Failure(NoAttribute(d, "get"))
    else if key.JArr? || key.JObj? then Failure(TypeError("unhashable type: " + Quoted(TypeName(key))))
    else if key.JStr? then Success(Lookup(d.fields, key.s).GetOr(default))
    else Success(default)
  }

  /** `d[key]` for a string key. */
  function Sub(d: Json, key: string): (r: Result<Json, PyExc>)
    ensures r.Success? <==> d.JObj? && Lookup(d.fields, key).Some?
    ensures r.Success? ==> Lookup(d.fields, key) == Some(r.value)
  {
    match d
    case JObj(fields) =>
      (match Lookup(fields, key)
       case Some(v) => Success(v)
       case None => Failure(KeyError(Quoted(key))))
    case JArr(_) => Failure(TypeError("list indices must be integers or slices, not str"))
    case JStr(_) => Failure(TypeError("string indices must be integers, not 'str'"))
    case _ => Failure(TypeError(Quoted(TypeName(d)) + " object is not subscriptable"))
  }

  /** `d[i]` for a non-negative integer index. */
  function At(d: Json, i: nat): (r: Result<Json, PyExc>)
    ensures r.Success? <==> (d.JArr? && i < |d.items|) || (d.JStr? && i < |d.s|)
    ensures r.Success? && d.JArr? ==> r.value == d.items[i]
    ensures r.Success? && d.JStr? ==> r.value == JStr([d.s[i]])
  {
    match d
    case JArr(items) => if i < |items| then Success(items[i]) else Failure(IndexError("list index out of range"))
    case JStr(s) => if i < |s| then Success(JStr([s[i]])) else Failure(IndexError("string index out of range"))
    case JObj(_) => Failure(KeyError(Text.NatToString(i)))
    case _ => Failure(TypeError(Quoted(TypeName(d)) + " object is not subscriptable"))
  }

  /** `len(d)`. */
  function Len(d: Json): (r: Result<nat, PyExc>)
    ensures r.Success? <==> d.JArr? || d.JStr? || d.JObj?
    ensures r.Success? ==> (r.value > 0 <==> Truthy(d))
  {
    match d
    case JArr(items) => Success(|items|)
    case JStr(s) => Success(|s|)
    case JObj(fields) => Success(|fields|)
    case _ => Failure(TypeError("object of type " + Quoted(TypeName(d)) + " has no len()"))
  }

  /** What `for x in d` visits: list items, dict keys, or string characters. */
  function Iter(d: Json): (r: Result<seq<Json>, PyExc>)
    ensures r.Success? <==> d.JArr? || d.JStr? || d.JObj?
    ensures r.Success? ==> (|r.value| > 0 <==> Truthy(d))
    ensures d.JArr? ==> r == Success(d.items)
  {
    match d
    case JArr(items) => Success(items)
    case JStr(s) => Success(Chars(s))
    case JObj(fields) => Success(KeyStrings(fields))
    case _ => Failure(TypeError(Quoted(TypeName(d)) + " object is not iterable"))
  }

  /** `list(d.values())`. */
  function ValuesOf(d: Json): (r: Result<seq<Json>, PyExc>)
    ensures r.Success? <==> d.JObj?
    ensures r.Success? ==> r.value == Values(d.fields)
  {
    if d.JObj? then Success(Values(d.fields)) else Failure(NoAttribute(d, "values"))
  }

  /** `needle in d` for a string needle. */
  function In(needle: string, d: Json): (r: Result<bool, PyExc>)
    ensures r.Success? <==> d.JArr? || d.JStr? || d.JObj?
    ensures d.JStr? ==> r == Success(Text.Contains(d.s, needle))
  {
    match d
    case JStr(s) => Success(Text.Contains(s, needle))
    case JArr(items) => Success(JStr(needle) in items)
    case JObj(fields) => Success(Lookup(fields, needle).Some?)
    case _ => Failure(TypeError("argument of type " + Quoted(TypeName(d)) + " is not iterable"))
  }
}
