/** The Python values the synchronisation code handles: `None`, JSON bodies returned by the
    platforms' APIs, and dicts read with `.get`. */
module Values {

  datatype Option<+T> = None | Some(value: T)

  /** A parsed JSON value (floats are not modelled). */
  datatype Json =
    | Null
    | Bool(b: bool)
    | Int(i: int)
    | Str(s: string)
    | Arr(items: seq<Json>)
    | Obj(fields: map<string, Json>)

  /** A Python dict decoded from JSON. */
  type Dict = map<string, Json>

  /** `d.get(k)`: an absent key reads as `None`, which is also how JSON null reads. */
  function Get(d: Dict, k: string): Json
  {
    if k in d then d[k] else Null
  }

  /** `d.get(k, default)`. */
  function GetOr(d: Dict, k: string, default: Json): Json
  {
    if k in d then d[k] else default
  }

  /** Python truthiness of a JSON value (`if x:`). */
  predicate Truthy(j: Json)
  {
    match j
    case Null => false
    case Bool(b) => b
    case Int(i) => i != 0
    case Str(s) => s != ""
    case Arr(a) => a != []
    case Obj(m) => m != map[]
  }

  /** The JSON values Python can hash (and so use as dict keys): everything but lists and dicts. */
  predicate Scalar(j: Json)
  {
    !j.Arr? && !j.Obj?
  }

  /** The decimal digits of a natural number, most significant first. */
  function DecimalText(n: nat): (r: string)
    ensures 1 <= |r| && forall k :: 0 <= k < |r| ==> '0' <= r[k] <= '9'
  {
    if n < 10 then [(n + 48) as char] else DecimalText(n / 10) + [(n % 10 + 48) as char]
  }

  /** `str(x)` (and so `f"{x}"`) of a scalar: the text itself, `None`, `True`/`False`, or the
      integer in decimal with a leading `-` when negative. The `repr` of lists and dicts is not
      modelled, so those have no text here. */
  function ScalarText(j: Json): (r: Option<string>)
    ensures r.Some? <==> Scalar(j)
    ensures j.Str? ==> r == Some(j.s)
    ensures j.Null? ==> r == Some("None")
  {
    match j
    case Null => Some("None")
    case Bool(b) => Some(if b then "True" else "False")
    case Int(i) => Some(if i < 0 then "-" + DecimalText(-i) else DecimalText(i))
    case Str(s) => Some(s)
    case _ => None
  }

  /** `None` for Python's `None`, otherwise the string. */
  function OptionToJson(o: Option<string>): Json
  {
    match o
    case None => Null
    case Some(s) => Str(s)
  }

  /** A Python exception as the code catches it: the built-in errors the code can trigger
      itself, and `Raised` for an exception whose text comes from elsewhere (a failed request,
      an explicit `raise Exception(...)`). */
  datatype PyError =
    | AttributeError(typeName: string, attr: string)
    | TypeError
    | IndexError
    | KeyError(key: string)
    | JsonDecodeError
    | Raised(message: string)

  /** A call that either returns a value or raises; `:-` propagates the exception. */
  datatype Result<+T> = Ok(value: T) | Err(error: PyError)
  {
    predicate IsFailure() { Err? }

    function PropagateFailure<U>(): Result<U>
      requires Err?
    {
      Err(error)
    }

    function Extract(): T
      requires Ok?
    {
      value
    }
  }

  /** The name Python reports for the type of a JSON value. */
  function TypeName(j: Json): string
  {
    match j
    case Null => "NoneType"
    case Bool(_) => "bool"
    case Int(_) => "int"
    case Str(_) => "str"
    case Arr(_) => "list"
    case Obj(_) => "dict"
  }

  /** `x.get(k)` on a value of any type: only a dict has `get`. */
  function GetAttr(j: Json, k: string): (r: Result<Json>)
    ensures r.Ok? <==> j.Obj?
    ensures j.Obj? ==> r.value == Get(j.fields, k)
    ensures !j.Obj? ==> r.error == AttributeError(TypeName(j), "get")
  {
    if j.Obj? then Ok(Get(j.fields, k)) else Err(AttributeError(TypeName(j), "get"))
  }

  /** `x.get(k, default)` on a value of any type: only a dict has `get`. */
  function GetAttrOr(j: Json, k: string, default: Json): (r: Result<Json>)
    ensures r.Ok? <==> j.Obj?
    ensures j.Obj? ==> r.value == GetOr(j.fields, k, default)
    ensures !j.Obj? ==> r.error == AttributeError(TypeName(j), "get")
  {
    if j.Obj? then Ok(GetOr(j.fields, k, default)) else Err(AttributeError(TypeName(j), "get"))
  }

  /** The value Python's arithmetic sees in an `int` or a `bool` (a subclass of `int`); no
      other JSON value is a number here. */
  function AsNumber(j: Json): Option<int>
  {
    match j
    case Int(i) => Some(i)
    case Bool(b) => Some(if b then 1 else 0)
    case _ => None
  }

  /** `a + b` on JSON values: lists and strings concatenate, numbers add, and any other pair
      raises `TypeError`. */
  function PyAdd(a: Json, b: Json): (r: Result<Json>)
    ensures a.Arr? ==> (r.Ok? <==> b.Arr?)
    ensures a.Arr? && b.Arr? ==> r == Ok(Arr(a.items + b.items))
    ensures r.Err? ==> r.error == TypeError
  {
    if a.Arr? && b.Arr? then Ok(Arr(a.items + b.items))
    else if a.Str? && b.Str? then Ok(Str(a.s + b.s))
    else if AsNumber(a).Some? && AsNumber(b).Some? then Ok(Int(AsNumber(a).value + AsNumber(b).value))
    else Err(TypeError)
  }

  /** `x[0]`: the first element of a list, the first character of a string; an empty one
      raises `IndexError`, a dict (whose JSON keys are strings) `KeyError`, anything else
      `TypeError`. */
  function Index0(j: Json): (r: Result<Json>)
    ensures r.Ok? <==> (j.Arr? && j.items != []) || (j.Str? && j.s != [])
    ensures j.Arr? && j.items != [] ==> r == Ok(j.items[0])
  {
    match j
    case Arr(items) => if items != [] then Ok(items[0]) else Err(IndexError)
    case Str(s) => if s != [] then Ok(Str([s[0]])) else Err(IndexError)
    case Obj(_) => Err(KeyError("0"))
    case _ => Err(TypeError)
  }
}
