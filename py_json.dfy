/** Values produced by Python's `json` module, and the dict, list and str operations the scripts
    apply to them, including the exceptions those operations raise on a value of the wrong kind. */
module PyJson {

  datatype Option<+T> = None | Some(value: T)

  /** A decoded JSON value. An object keeps its keys in document order, as a Python dict does;
      the decoder gives each key once. */
  datatype Json =
    | Null
    | Bool(b: bool)
    | Num(n: real)
    | Str(s: string)
    | Arr(items: seq<Json>)
    | Obj(fields: seq<(string, Json)>)

  /** The Python exceptions that the extraction code can raise on decoded data. */
  datatype Exc = AttributeError | TypeError | JSONDecodeError

  /** The outcome of running a piece of Python: a value, or an exception on its way out. */
  datatype Py<+T> = Ok(value: T) | Raise(exc: Exc) {
    predicate IsFailure() {
      Raise?
    }

    function PropagateFailure<U>(): Py<U>
      requires Raise?
    {
      Raise(exc)
    }

    function Extract(): T
      requires Ok?
    {
      value
    }
  }

  function Lookup(fields: seq<(string, Json)>, key: string): Option<Json>
    decreases |fields|
  {
    if fields == [] then None
    else if fields[0].0 == key then Some(fields[0].1)
    else Lookup(fields[1..], key)
  }

  /** `v.get(key, default)`; only a dict has `get`. */
  function Get(v: Json, key: string, default: Json): Py<Json> {
    match v
    case Obj(fields) =>
      (match Lookup(fields, key)
       case Some(x) => Ok(x)
       case None => Ok(default))
    case _ => Raise(AttributeError)
  }

  /** What a Python `for` loop visits: a list's items, a dict's keys, a string's characters.
      None, booleans and numbers are not iterable. */
  function Iter(v: Json): Py<seq<Json>> {
    match v
    case Arr(items) => Ok(items)
    case Obj(fields) => Ok(seq(|fields|, i requires 0 <= i < |fields| => Str(fields[i].0)))
    case Str(s) => Ok(seq(|s|, i requires 0 <= i < |s| => Str([s[i]])))
    case _ => Raise(TypeError)
  }

  /** `v.values()`; only a dict has `values`. */
  function Values(v: Json): Py<seq<Json>> {
    match v
    case Obj(fields) => Ok(seq(|fields|, i requires 0 <= i < |fields| => fields[i].1))
    case _ => Raise(AttributeError)
  }

  /** Python truthiness: None, False, zero and empty containers are false. */
  predicate Truthy(v: Json) {
    match v
    case Null => false
    case Bool(b) => b
    case Num(n) => n != 0.0
    case Str(s) => s != []
    case Arr(items) => items != []
    case Obj(fields) => fields != []
  }

  /** `json.loads(v)`, where `parse` is the decoder (None: the text is not valid JSON).
      Anything but a string is refused with a TypeError. */
  function Loads(parse: string -> Option<Json>, v: Json): Py<Json> {
    match v
    case Str(s) =>
      (match parse(s)
       case Some(j) => Ok(j)
       case None => Raise(JSONDecodeError))
    case _ => Raise(TypeError)
  }
}
