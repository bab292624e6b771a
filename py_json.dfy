/**
 * JSON values as the Flask handlers see them after `request.get_json()`,
 * with the few pieces of Python behaviour the handlers rely on: truthiness,
 * `dict.get`, `str.strip`, `int(...)`, and the text of the exceptions they
 * raise on a value of the wrong type.
 *
 * JSON numbers are integers here; fractional numbers are not modelled.
 */
module PyJson {
  import opened Wrappers
  import opened Text
  import opened Decimal

  datatype Json =
    | Null
    | Bool(b: bool)
    | Int(i: int)
    | Str(s: string)
    | List(items: seq<Json>)
    | Object(fields: map<string, Json>)

  /** Python's `bool(v)`: `None`, `False`, `0`, `""`, `[]` and `{}` are false. */
  predicate Truthy(v: Json)
  {
    match v
    case Null => false
    case Bool(b) => b
    case Int(i) => i != 0
    case Str(s) => s != ""
    case List(items) => items != []
    case Object(fields) => fields != map[]
  }

  /** `type(v).__name__`, as it appears in Python's error messages. */
  function TypeName(v: Json): string
  {
    match v
    case Null => "NoneType"
    case Bool(_) => "bool"
    case Int(_) => "int"
    case Str(_) => "str"
    case List(_) => "list"
    case Object(_) => "dict"
  }

  /** The text of the `AttributeError` raised by `v.attribute` when `v` has no such attribute. */
  function NoAttribute(v: Json, attribute: string): string
  {
    "'" + TypeName(v) + "' object has no attribute '" + attribute + "'"
  }

  /** `v.get(key, default)`: only a dict has `get`. */
  function Get(v: Json, key: string, default: Json): (r: Result<Json>)
    ensures r.Ok? <==> v.Object?
    ensures v.Object? && key in v.fields ==> r == Ok(v.fields[key])
    ensures v.Object? && key !in v.fields ==> r == Ok(default)
    ensures r.Err? ==> r.error == NoAttribute(v, "get")
  {
    match v
    case Object(fields) => Ok(if key in fields then fields[key] else default)
    case _ => Err(NoAttribute(v, "get"))
  }

  /** `v.strip()`: only a string has `strip`. */
  function StripValue(v: Json): (r: Result<string>)
    ensures r.Ok? <==> v.Str?
    ensures r.Ok? ==> r.value == PyStrip(v.s)
    ensures r.Err? ==> r.error == NoAttribute(v, "strip")
  {
    match v
    case Str(s) => Ok(PyStrip(s))
    case _ => Err(NoAttribute(v, "strip"))
  }

  /**
   * `int(v)`, with `None` standing for the `ValueError` or `TypeError` it
   * raises: a bool converts to 0 or 1, a string is parsed as Python parses
   * it, and `None`, a list or a dict are refused.
   */
  function IntValue(v: Json): (r: Option<int>)
    ensures v.Int? ==> r == Some(v.i)
    ensures v.Bool? ==> r == Some(if v.b then 1 else 0)
    ensures v.Str? ==> r == PyParseInt(v.s)
    ensures v.Null? || v.List? || v.Object? ==> r.None?
  {
    match v
    case Int(i) => Some(i)
    case Bool(b) => Some(if b then 1 else 0)
    case Str(s) => PyParseInt(s)
    case _ => None
  }

  /** An HTTP reply: status code and JSON body. */
  datatype Response = Response(status: int, body: Json)

  /** The `{'success': False, 'error': message}` body every failure path returns. */
  function Failure(status: int, message: string): (r: Response)
    ensures r.status == status
    ensures r.body.Object? && r.body.fields.Keys == {"success", "error"}
    ensures r.body.fields["success"] == Bool(false) && r.body.fields["error"] == Str(message)
  {
    Response(status, Object(map["success" := Bool(false), "error" := Str(message)]))
  }

  /**
   * What a handler did: the outbound call it made, if it got that far, and
   * the reply it returned.
   */
  datatype Exchange<C> = Exchange(call: Option<C>, response: Response)

  /** The text of an exception turned into a 500 reply by a handler's outer `except`. */
  function ServerError(message: string): string
  {
    "Server error: " + message
  }

  // ---------------------------------------------------------------------
  // What every handler that takes a VIN reads from the request body

  const NoDataError := "No data provided"
  const VinRequiredError := "VIN is required"

  /** The `vin` entry of a request body that is a dict, `''` when absent. */
  function VinField(data: Json): Json
    requires data.Object?
  {
    if "vin" in data.fields then data.fields["vin"] else Str("")
  }

  /** A body that gets past `data.get('vin', '').strip()` without raising. */
  predicate HasTextVin(data: Json)
  {
    Truthy(data) && data.Object? && VinField(data).Str?
  }

  /** `data.get('vin', '').strip()` for such a body. */
  function StrippedVin(data: Json): string
    requires HasTextVin(data)
  {
    PyStrip(VinField(data).s)
  }

  /** Python's `int(str(n))` gives back `n` for an integer sent as text. */
  lemma IntValueOfText(n: int)
    ensures IntValue(Str(IntToString(n))) == Some(n)
  {
    PyParseIntOfIntToString(n);
  }
}
