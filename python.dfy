/**
  The pieces of Python's runtime that the modelled SDK code relies on: bytes,
  `None`, decoded JSON values, the exceptions the code raises or lets escape,
  and a `Result` that stands for "returned a value or raised".
 */
module Python {

  /** One element of a Python `bytes` object. */
  newtype byte = b: int | 0 <= b < 256

  datatype Option<+T> = None | Some(value: T)

  /**
    A value as `json.loads` (or `yaml.safe_load`) hands it to Python code:
    `None`, `bool`, `int`, `float`, `str`, `list` or `dict` with string keys.
   */
  datatype Json =
    | JNull
    | JBool(b: bool)
    | JInt(i: int)
    | JFloat(f: real)
    | JString(s: string)
    | JList(items: seq<Json>)
    | JDict(fields: map<string, Json>)

  /** The name Python gives the type of a decoded value, as used in its error messages. */
  function TypeName(v: Json): (name: string)
    ensures v.JDict? <==> name == "dict"
  {
    match v
    case JNull => "NoneType"
    case JBool(_) => "bool"
    case JInt(_) => "int"
    case JFloat(_) => "float"
    case JString(_) => "str"
    case JList(_) => "list"
    case JDict(_) => "dict"
  }

  /** The exceptions raised by, or escaping from, the modelled code. */
  datatype Exception =
      /** raised by `hmac.compare_digest` for a `None` or non-ASCII argument */
    | TypeError
      /** `ValueError(message)` */
    | ValueError(message: string)
      /** `json.loads` or `response.json()` on a body that is not JSON */
    | JSONDecodeError
      /** `AttributeError(message)` */
    | AttributeError(message: string)
      /** the bare `Exception` of a failed API call: its status and the value put into its message */
    | ApiRequestFailed(status: int, detail: Json)

  /** The outcome of a Python call: it returned `value`, or it raised `error`. */
  datatype Result<+T> = Ok(value: T) | Raise(error: Exception)

  /** Every character is below 128, as `str.isascii()` tests. */
  predicate IsAscii(s: string) {
    forall i :: 0 <= i < |s| ==> s[i] as int < 128
  }

  /** `d.get(key)`: the value under `key`, or `None`. */
  function Get<V>(d: map<string, V>, key: string): (r: Option<V>)
    ensures r.Some? <==> key in d
    ensures r.Some? ==> r.value == d[key]
  {
    if key in d then Some(d[key]) else None
  }
}
