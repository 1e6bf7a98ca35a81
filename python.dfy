/**
 * What the pipeline uses of Python's runtime: the values `json.loads` yields,
 * dicts (shared by reference and changed in place), `dict.update`, and the
 * exceptions that can be raised, with the text `str(e)` gives for each.
 */
module Python {
  import opened Wrappers

  /** A JSON value as Python's json module represents it (floats are not modelled). */
  datatype Value =
    | Null
    | Bool(b: bool)
    | Int(i: int)
    | Str(s: string)
    | List(items: seq<Value>)
    | Obj(fields: map<string, Value>)

  /** The entries of a dict whose keys are strings. */
  type Mapping = map<string, Value>

  /** An exception raised somewhere in a request. */
  datatype Error =
    | UnsupportedFormat            // HTTPException(status_code=400, detail="Unsupported file format")
    | KeyError(key: string)
    | TypeError(msg: string)
    | ValueError(msg: string)
    | ExtractionFailed(msg: string) // raised by the PDF reader or the UTF-8 decoder
    | ServiceError(msg: string)    // raised by the chat model's invoke
    | MalformedOutput(msg: string) // raised by json.loads

  /** `str(e)`. */
  function Describe(e: Error): string
  {
    match e
    case UnsupportedFormat => "400: Unsupported file format"
    case KeyError(k) => "'" + k + "'"
    case TypeError(m) => m
    case ValueError(m) => m
    case ExtractionFailed(m) => m
    case ServiceError(m) => m
    case MalformedOutput(m) => m
  }

  /** `d.update(e)` for a dict `e`: the keys of `e` win, every other key of `d` stays. */
  function Update(d: Mapping, e: Mapping): (r: Mapping)
    ensures r.Keys == d.Keys + e.Keys
    ensures forall k :: k in e ==> r[k] == e[k]
    ensures forall k :: k in d && k !in e ==> r[k] == d[k]
  {
    d + e
  }

  /** `d.get(k)`: the value under `k`, `None` when `k` is absent. */
  function Get(d: Mapping, k: string): Value
  {
    if k in d then d[k] else Null
  }

  /** The type name Python puts in a TypeError about `v`. */
  function TypeName(v: Value): string
  {
    match v
    case Null => "NoneType"
    case Bool(_) => "bool"
    case Int(_) => "int"
    case Str(_) => "str"
    case List(_) => "list"
    case Obj(_) => "dict"
  }

  /** Python's ValueError for `d.update(s)` with a non-empty string: its first element is one character. */
  const PairLengthMessage := "dictionary update sequence element #0 has length 1; 2 is required"

  /** The error this model gives `d.update(xs)` for a non-empty list `xs` (a stand-in message). */
  const NotPairMessage := "dictionary update sequence element #0 is not a key/value pair"

  /**
   * `d.update(v)` for a value `v` that `json.loads` produced: an object merges,
   * an empty string or array changes nothing, anything else raises and leaves `d` as it was.
   */
  function Merged(d: Mapping, v: Value): (r: Result<Mapping, Error>)
    ensures v.Obj? ==> r == Success(Update(d, v.fields))
    ensures r.Success? ==> d.Keys <= r.value.Keys
    ensures r.Success? ==> forall k :: k in d && (v.Obj? ==> k !in v.fields) ==> r.value[k] == d[k]
    ensures v == Str("") || v == List([]) ==> r == Success(d)
    ensures v.Str? && v.s != "" ==> r == Failure(ValueError(PairLengthMessage))
    ensures v.List? && v.items != [] ==> r == Failure(ValueError(NotPairMessage))
    ensures (v.Null? || v.Bool? || v.Int?) ==> r == Failure(TypeError("'" + TypeName(v) + "' object is not iterable"))
    ensures r.Success? <==> v.Obj? || v == Str("") || v == List([])
  {
    match v
    case Obj(m) => Success(Update(d, m))
    case Str(s) =>
      if s == "" then Success(d)
      else Failure(ValueError(PairLengthMessage))
    case List(items) =>
      if items == [] then Success(d)
      else Failure(ValueError(NotPairMessage))
    case _ => Failure(TypeError("'" + TypeName(v) + "' object is not iterable"))
  }

  /** The TypeError message of `v[k] = x` for a string key `k` and a `v` that is not a dict. */
  function ItemAssignmentError(v: Value): string
  {
    if v.List? then "list indices must be integers or slices, not str"
    else "'" + TypeName(v) + "' object does not support item assignment"
  }

  /** A Python dict object: callers that hold it see every change made through it. */
  class Dict {
    var items: Mapping

    constructor (m: Mapping)
      ensures items == m
    {
      items := m;
    }

    /** `d.copy()`: a new dict with the same entries. */
    method Copy() returns (c: Dict)
      ensures fresh(c) && c.items == items
    {
      c := new Dict(items);
    }

    /** `del d[k]`; `found` is false where Python raises KeyError. */
    method Delete(k: string) returns (found: bool)
      modifies this
      ensures found == (k in old(items))
      ensures items == old(items) - {k}
    {
      found := k in items;
      items := items - {k};
    }

    /** `d[k] = v`. */
    method Set(k: string, v: Value)
      modifies this
      ensures items == old(items)[k := v]
    {
      items := items[k := v];
    }

    /** `d.update(e)` for a dict `e`. */
    method UpdateWithDict(e: Mapping)
      modifies this
      ensures items == Update(old(items), e)
    {
      items := Update(items, e);
    }

    /** `d.update(v)`: on failure the dict is left as it was. */
    method UpdateWith(v: Value) returns (r: Result<(), Error>)
      modifies this
      ensures r.Success? <==> Merged(old(items), v).Success?
      ensures r.Failure? ==> r.error == Merged(old(items), v).error && items == old(items)
      ensures r.Success? ==> items == Merged(old(items), v).value
    {
      var m := Merged(items, v);
      if m.Success? {
        items := m.value;
        r := Success(());
      } else {
        r := Failure(m.error);
      }
    }
  }
}
