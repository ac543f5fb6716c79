/**
 * The Python values, exceptions and foreign library calls that the e-ride core handles.
 * Library internals that the core only calls (JSON, float parsing and rendering, PostGIS
 * distance, UTF-8, e-mail normalisation, password hashing) are fields of `Host`, so every
 * statement about them is made under an explicit law about the host.
 */
module Py {
  import opened Wrappers

  /** The Python exception classes raised on the modelled paths. */
  datatype Error =
    | ValidationError     // django / DRF ValidationError
    | ValueError          // includes json.JSONDecodeError and failed tuple unpacking
    | TypeError
    | KeyError
    | AttributeError
    | DoesNotExist        // Model.DoesNotExist from objects.get
    | DatabaseError       // a query the database rejects
    | UnicodeDecodeError  // force_str on bytes that are not UTF-8

  /** A Python object, as far as the conversions distinguish objects. Dictionary keys are strings. */
  datatype Value =
    | VNone
    | VBool(b: bool)
    | VNum(x: real)
    | VStr(s: string)
    | VList(items: seq<Value>)
    | VTuple(items: seq<Value>)
    | VDict(entries: map<string, Value>)
    | VObject   // any other object: not a str, list, tuple, dict or number

  /** The answer to `hasattr(obj, name)`, with the attribute's value when present. */
  datatype Attr<+T> = Missing | Present(value: T)

  /** A Python 2-tuple of floats `(fst, snd)`; which component is latitude depends on the caller. */
  datatype Pair = Pair(fst: real, snd: real)

  type Byte = x: int | 0 <= x < 256

  /** The foreign functions the core calls, as total functions. */
  datatype Host = Host(
    jsonLoads: string -> Option<Value>,      // json.loads; None is JSONDecodeError
    jsonDumps: Value -> string,              // json.dumps
    parseFloat: string -> Option<real>,      // float(str); None is ValueError
    showFloat: real -> string,               // f'{x}' for a float
    geoMetres: (Pair, Pair) -> real,         // ST_Distance of two geography points, in metres
    utf8Encode: string -> seq<Byte>,         // force_bytes(s, 'utf-8')
    utf8Decode: seq<Byte> -> Option<string>, // force_str(b); None is a decode error
    normalizeEmail: string -> string,        // BaseUserManager.normalize_email
    makePassword: string -> string           // the hash stored by set_password
  )

  /** `json.loads(json.dumps(v)) == v` for the value `v`. */
  predicate JsonRoundTrips(h: Host, v: Value)
  {
    h.jsonLoads(h.jsonDumps(v)) == Some(v)
  }

  /** `decode(encode(s)) == s` for every string. */
  ghost predicate Utf8RoundTrips(h: Host)
  {
    forall s :: h.utf8Decode(h.utf8Encode(s)) == Some(s)
  }

  /** Python `float(v)`: numbers and booleans convert, strings are parsed, anything else is a TypeError. */
  function Float(h: Host, v: Value): (r: Result<real, Error>)
    ensures v.VNum? ==> r == Ok(v.x)
    ensures v.VBool? ==> r == Ok(if v.b then 1.0 else 0.0)
    ensures v.VStr? ==> (r.Ok? <==> h.parseFloat(v.s).Some?) && (r.Ok? ==> r.value == h.parseFloat(v.s).value)
    ensures !(v.VNum? || v.VBool? || v.VStr?) ==> r == Err(TypeError)
    ensures r.Err? ==> (r.error == ValueError <==> v.VStr?)
    ensures r.Err? ==> r.error in {ValueError, TypeError}
  {
    match v
    case VNum(x) => Ok(x)
    case VBool(b) => Ok(if b then 1.0 else 0.0)
    case VStr(s) => if h.parseFloat(s).Some? then Ok(h.parseFloat(s).value) else Err(ValueError)
    case _ => Err(TypeError)
  }

  /** The elements produced by `iter(v)` for a value that is not a dict, or None when `v` is not iterable. */
  function Elements(v: Value): (r: Option<seq<Value>>)
    requires !v.VDict?
    ensures v.VList? || v.VTuple? ==> r == Some(v.items)
    ensures v.VStr? ==> r.Some? && |r.value| == |v.s|
    ensures v.VStr? ==> forall i :: 0 <= i < |v.s| ==> r.value[i] == VStr([v.s[i]])
    ensures r.None? <==> !(v.VList? || v.VTuple? || v.VStr?)
  {
    match v
    case VList(items) => Some(items)
    case VTuple(items) => Some(items)
    case VStr(s) => Some(seq(|s|, i requires 0 <= i < |s| => VStr([s[i]])))
    case _ => None
  }

  /** The Python object for a tuple of two floats. */
  function TupleOf(p: Pair): Value
  {
    VTuple([VNum(p.fst), VNum(p.snd)])
  }
}
