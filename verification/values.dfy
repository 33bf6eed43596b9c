/** The Python values the modelled code passes around: JSON-shaped dicts,
    lists and scalars, the `dict.get(key, default)` idiom, and the text of
    the few built-in exceptions (`str(e)`) that the code can raise and catch.
    Floating-point numbers are not part of this value type. */
module Values {

  import Text

  datatype Option<+T> = None | Some(value: T)

  /** A JSON-shaped Python value. `Dict` keys are strings, as in JSON. */
  datatype Value =
    | Null
    | Bool(b: bool)
    | Int(i: int)
    | Str(s: string)
    | List(items: seq<Value>)
    | Dict(fields: map<string, Value>)

  /** The result of running Python code that may raise: its value, or the
      text `str(e)` of the exception it raised. */
  datatype Outcome<+T> = Ok(value: T) | Raised(message: string)

  const EmptyDict: Value := Dict(map[])

  /** `d.get(key, default)` on a dict. */
  function GetOr(d: map<string, Value>, key: string, default: Value): (v: Value)
    ensures key in d ==> v == d[key]
    ensures key !in d ==> v == default
  {
    if key in d then d[key] else default
  }

  /** `d` maps `key` to `v`. */
  predicate Has(d: map<string, Value>, key: string, v: Value)
  {
    key in d && d[key] == v
  }

  /** `type(v).__name__`. */
  function TypeName(v: Value): string
  {
    match v
    case Null => "NoneType"
    case Bool(_) => "bool"
    case Int(_) => "int"
    case Str(_) => "str"
    case List(_) => "list"
    case Dict(_) => "dict"
  }

  /** `str(KeyError(key))`: the key's repr. */
  function KeyErrorText(key: string): string
  {
    "'" + key + "'"
  }

  /** `str(e)` for the AttributeError raised by `v.attr` on a value that has
      no such attribute. */
  function AttributeErrorText(v: Value, attr: string): string
  {
    "'" + TypeName(v) + "' object has no attribute '" + attr + "'"
  }

  /** `str(e)` for the TypeError raised by `v[key]` with a string key on a
      value that is not a dict (wording of Python 3.11 and later). */
  function SubscriptErrorText(v: Value): string
  {
    match v
    case Str(_) => "string indices must be integers, not 'str'"
    case List(_) => "list indices must be integers or slices, not str"
    case _ => "'" + TypeName(v) + "' object is not subscriptable"
  }

  /** Python's `key in v` with a string `key`: a key test on a dict, an
      element test on a list, a substring test on a string. On any other
      value Python raises TypeError, modelled as `None`. */
  function PyIn(key: string, v: Value): (r: Option<bool>)
    ensures r.None? <==> !(v.Dict? || v.List? || v.Str?)
    ensures v.Dict? ==> r == Some(key in v.fields)
    ensures v.List? ==> r == Some(Str(key) in v.items)
    ensures v.Str? ==> r == Some(Text.Contains(v.s, key))
  {
    match v
    case Dict(f) => Some(key in f)
    case List(items) => Some(Str(key) in items)
    case Str(s) => Some(Text.Contains(s, key))
    case _ => None
  }
}
