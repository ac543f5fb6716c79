/**
 * `LocationField` (e_ride/base/fields.py): a model field holding a (lat, lon) pair, stored as the
 * JSON object {"lat": lat, "lon": lon}. Its three conversions are pure branch-and-return code.
 */
module LocationField {
  import opened Wrappers
  import opened Py
  import Strings

  /** The dictionary test `isinstance(d, dict) and 'lat' in d and 'lon' in d`. */
  predicate HasLatLon(v: Value)
  {
    v.VDict? && "lat" in v.entries && "lon" in v.entries
  }

  /** `(float(a), float(b))`, raising the first conversion's exception. */
  function FloatPair(h: Host, a: Value, b: Value): (r: Result<Pair, Error>)
    ensures r.Ok? <==> Float(h, a).Ok? && Float(h, b).Ok?
    ensures r.Ok? ==> r.value == Pair(Float(h, a).value, Float(h, b).value)
    ensures Float(h, a).Err? ==> r == Err(Float(h, a).error)
    ensures Float(h, a).Ok? && Float(h, b).Err? ==> r == Err(Float(h, b).error)
    ensures a.VNum? && b.VNum? ==> r == Ok(Pair(a.x, b.x))
    ensures r.Err? ==> r.error in {ValueError, TypeError}
  {
    var x :- Float(h, a);
    var y :- Float(h, b);
    Ok(Pair(x, y))
  }

  /** `lat, lon = map(float, value.split(','))`: exactly two parts, each a float literal. */
  function CommaPair(h: Host, s: string): (r: Result<Pair, Error>)
    ensures r.Err? ==> r.error == ValueError
    ensures r.Ok? ==> |Strings.Split(s, ',')| == 2
    ensures var parts := Strings.Split(s, ',');
      r.Ok? <==> |parts| == 2 && h.parseFloat(parts[0]).Some? && h.parseFloat(parts[1]).Some?
    ensures var parts := Strings.Split(s, ',');
      r.Ok? ==> r.value == Pair(h.parseFloat(parts[0]).value, h.parseFloat(parts[1]).value)
  {
    var parts := Strings.Split(s, ',');
    if |parts| != 2 then Err(ValueError)
    else FloatPair(h, VStr(parts[0]), VStr(parts[1]))
  }

  /** The JSON object `{'lat': lat, 'lon': lon}` that `get_prep_value` dumps. */
  function LatLonObject(p: Pair): Value
  {
    VDict(map["lat" := VNum(p.fst), "lon" := VNum(p.snd)])
  }

  /** The handler `except (json.JSONDecodeError, ValueError): raise ValidationError`. */
  function CatchValueError<T>(r: Result<T, Error>): (c: Result<T, Error>)
    ensures c.Ok? <==> r.Ok?
    ensures r.Ok? ==> c == r
    ensures r.Err? ==> c.error == (if r.error == ValueError then ValidationError else r.error)
  {
    if r.Err? && r.error == ValueError then Err(ValidationError) else r
  }

  /** The decoded JSON branch of `to_python`: an object with lat and lon, a 2-list, or the comma fallback. */
  function ParsedToPair(h: Host, parsed: Value, s: string): (r: Result<Pair, Error>)
    ensures HasLatLon(parsed) ==> r == FloatPair(h, parsed.entries["lat"], parsed.entries["lon"])
    ensures !HasLatLon(parsed) && parsed.VList? && |parsed.items| == 2 ==>
      r == FloatPair(h, parsed.items[0], parsed.items[1])
    ensures !HasLatLon(parsed) && !(parsed.VList? && |parsed.items| == 2) ==> r == CommaPair(h, s)
    ensures r.Err? ==> r.error in {ValueError, TypeError}
  {
    if HasLatLon(parsed) then FloatPair(h, parsed.entries["lat"], parsed.entries["lon"])
    else if parsed.VList? && |parsed.items| == 2 then FloatPair(h, parsed.items[0], parsed.items[1])
    else CommaPair(h, s)
  }

  /** A successful conversion returned as `Some` point; an exception passes through unchanged. */
  function Lift(p: Result<Pair, Error>): (r: Result<Option<Pair>, Error>)
    ensures r.Ok? <==> p.Ok?
    ensures p.Ok? ==> r.value == Some(p.value)
    ensures p.Err? ==> r.error == p.error
  {
    if p.Ok? then Ok(Some(p.value)) else Err(p.error)
  }

  /** `LocationField.to_python`: normalise any accepted shape to a (lat, lon) tuple of floats. */
  function ToPython(h: Host, v: Value): (r: Result<Option<Pair>, Error>)
    ensures r == Ok(None) <==> v.VNone?
    ensures r.Err? ==> r.error in {ValidationError, ValueError, TypeError}
    ensures v.VStr? && r.Err? ==> r.error in {ValidationError, TypeError}
    ensures ((v.VList? || v.VTuple?) && |v.items| == 2 && v.items[0].VNum? && v.items[1].VNum?)
      ==> r == Ok(Some(Pair(v.items[0].x, v.items[1].x)))
    ensures (HasLatLon(v) && v.entries["lat"].VNum? && v.entries["lon"].VNum?)
      ==> r == Ok(Some(Pair(v.entries["lat"].x, v.entries["lon"].x)))
    ensures (v.VList? || v.VTuple?) && |v.items| == 2 ==>
      r == Lift(FloatPair(h, v.items[0], v.items[1]))
    ensures HasLatLon(v) ==> r == Lift(FloatPair(h, v.entries["lat"], v.entries["lon"]))
    ensures v.VStr? && h.jsonLoads(v.s).Some? ==>
      r == Lift(CatchValueError(ParsedToPair(h, h.jsonLoads(v.s).value, v.s)))
    ensures (!v.VNone? && !v.VStr? && !((v.VList? || v.VTuple?) && |v.items| == 2) && !HasLatLon(v))
      ==> r == Err(ValidationError)
    ensures v.VStr? && h.jsonLoads(v.s).None? ==> r == Err(ValidationError)
  {
    if v.VNone? then Ok(None)
    else if (v.VList? || v.VTuple?) && |v.items| == 2 then
      var p :- FloatPair(h, v.items[0], v.items[1]);
      Ok(Some(p))
    else if v.VStr? then
      match h.jsonLoads(v.s)
      case None => Err(ValidationError)
      case Some(parsed) =>
        var p :- CatchValueError(ParsedToPair(h, parsed, v.s));
        Ok(Some(p))
    else if HasLatLon(v) then
      var p :- FloatPair(h, v.entries["lat"], v.entries["lon"]);
      Ok(Some(p))
    else Err(ValidationError)
  }

  /** `LocationField.get_prep_value`: normalise through `to_python`, then dump `{"lat": lat, "lon": lon}`. */
  function GetPrepValue(h: Host, v: Value): (r: Result<Option<string>, Error>)
    ensures v.VNone? <==> r == Ok(None)
    ensures r.Err? <==> ToPython(h, v).Err?
    ensures r.Err? ==> r.error == ToPython(h, v).error
    ensures r.Ok? && r.value.Some? ==> r.value.value == h.jsonDumps(LatLonObject(ToPython(h, v).value.value))
  {
    if v.VNone? then Ok(None)
    else
      var p :- ToPython(h, v);
      match p
      case None => Err(TypeError)  // unpacking None; to_python never returns None here
      case Some(ll) => Ok(Some(h.jsonDumps(LatLonObject(ll))))
  }

  /** `LocationField.from_db_value`, as written: a JSON object read from a text column comes back as a dict. */
  function FromDbValue(h: Host, v: Value): (r: Result<Value, Error>)
    ensures v.VNone? ==> r == Ok(VNone)
    ensures r.Err? ==> v.VStr? && h.jsonLoads(v.s).None? && r.error == ValueError
    ensures !v.VStr? && !HasLatLon(v) && !(v.VList? && |v.items| == 2) ==> r == Ok(v)
    ensures v.VStr? && h.jsonLoads(v.s).Some? && !h.jsonLoads(v.s).value.VList? ==> r == Ok(h.jsonLoads(v.s).value)
    ensures v.VStr? && h.jsonLoads(v.s).None? ==> (r.Err? <==> CommaPair(h, v.s).Err?)
    ensures v.VStr? && h.jsonLoads(v.s).None? && r.Ok? ==> r.value == TupleOf(CommaPair(h, v.s).value)
  {
    if v.VNone? then Ok(VNone)
    else if v.VStr? then
      match h.jsonLoads(v.s)
      case Some(parsed) => Ok(if parsed.VList? then VTuple(parsed.items) else parsed)
      case None =>
        var p :- CommaPair(h, v.s);
        Ok(TupleOf(p))
    else if HasLatLon(v) then Ok(VTuple([v.entries["lat"], v.entries["lon"]]))
    else if v.VList? && |v.items| == 2 then Ok(VTuple(v.items))
    else Ok(v)
  }

  /** `from_db_value` as its docstring intends: a decoded lat/lon object also becomes a (lat, lon) tuple. */
  function FromDbValueIntended(h: Host, v: Value): (r: Result<Value, Error>)
    ensures r.Err? <==> FromDbValue(h, v).Err?
    ensures FromDbValue(h, v).Ok? && !FromDbValue(h, v).value.VDict? ==> r == FromDbValue(h, v)
  {
    if v.VStr? && h.jsonLoads(v.s).Some? && HasLatLon(h.jsonLoads(v.s).value) then
      var d := h.jsonLoads(v.s).value.entries;
      Ok(VTuple([d["lat"], d["lon"]]))
    else FromDbValue(h, v)
  }

  /** to_python reads back what get_prep_value stores, for any float pair. */
  lemma PrepRoundTrip(h: Host, p: Pair)
    requires JsonRoundTrips(h, LatLonObject(p))
    ensures GetPrepValue(h, TupleOf(p)) == Ok(Some(h.jsonDumps(LatLonObject(p))))
    ensures ToPython(h, VStr(h.jsonDumps(LatLonObject(p)))) == Ok(Some(p))
  {
    var o := LatLonObject(p);
    assert HasLatLon(o) && o.entries["lat"] == VNum(p.fst) && o.entries["lon"] == VNum(p.snd);
  }

  /** get_prep_value is idempotent through to_python: a stored value normalises to the same text. */
  lemma PrepIdempotent(h: Host, v: Value, s: string)
    requires GetPrepValue(h, v) == Ok(Some(s))
    requires JsonRoundTrips(h, LatLonObject(ToPython(h, v).value.value))
    ensures GetPrepValue(h, VStr(s)) == Ok(Some(s))
  {
    PrepRoundTrip(h, ToPython(h, v).value.value);
  }

  /** A decoded JSON object with numeric lat and lon gives (lat, lon); a decoded 2-list keeps its order. */
  lemma ToPythonJson(h: Host, s: string)
    requires h.jsonLoads(s).Some?
    ensures var d := h.jsonLoads(s).value;
      HasLatLon(d) && d.entries["lat"].VNum? && d.entries["lon"].VNum? ==>
        ToPython(h, VStr(s)) == Ok(Some(Pair(d.entries["lat"].x, d.entries["lon"].x)))
    ensures var d := h.jsonLoads(s).value;
      d.VList? && |d.items| == 2 && d.items[0].VNum? && d.items[1].VNum? ==>
        ToPython(h, VStr(s)) == Ok(Some(Pair(d.items[0].x, d.items[1].x)))
  {
  }

  /** A string that json.loads rejects is a ValidationError, so the "lat,lon" text form is never accepted. */
  lemma BareCommaTextRejected(h: Host, a: string, b: string)
    requires h.jsonLoads(a + [','] + b).None?
    ensures ToPython(h, VStr(a + [','] + b)) == Err(ValidationError)
  {
  }

  /** What from_db_value does with the text that get_prep_value stores: the dict, not a tuple. */
  lemma FromDbValueKeepsStoredObject(h: Host, p: Pair)
    requires JsonRoundTrips(h, LatLonObject(p))
    ensures FromDbValue(h, VStr(h.jsonDumps(LatLonObject(p)))) == Ok(LatLonObject(p))
    ensures FromDbValue(h, VStr(h.jsonDumps(LatLonObject(p)))) != Ok(TupleOf(p))
  {
  }

  /** The intended reading turns the stored text back into the (lat, lon) tuple. */
  lemma FromDbValueIntendedRoundTrip(h: Host, p: Pair)
    requires JsonRoundTrips(h, LatLonObject(p))
    ensures FromDbValueIntended(h, VStr(h.jsonDumps(LatLonObject(p)))) == Ok(TupleOf(p))
  {
  }

  /** from_db_value on "a,b" text that is not JSON parses both halves as floats, in order. */
  lemma FromDbValueCommaText(h: Host, a: string, b: string, x: real, y: real)
    requires ',' !in a && ',' !in b
    requires h.jsonLoads(a + [','] + b).None?
    requires h.parseFloat(a) == Some(x) && h.parseFloat(b) == Some(y)
    ensures FromDbValue(h, VStr(a + [','] + b)) == Ok(TupleOf(Pair(x, y)))
  {
    Strings.SplitPair(a, ',', b);
  }

  /** from_db_value on text turns a decoded list into a tuple with the same elements. */
  lemma FromDbValueJsonList(h: Host, s: string)
    requires h.jsonLoads(s).Some? && h.jsonLoads(s).value.VList?
    ensures FromDbValue(h, VStr(s)) == Ok(VTuple(h.jsonLoads(s).value.items))
  {
  }

  /** from_db_value on a lat/lon dict or a 2-list gives the tuple of the same components. */
  lemma FromDbValueStructured(h: Host, v: Value)
    requires HasLatLon(v) || (v.VList? && |v.items| == 2)
    ensures HasLatLon(v) ==> FromDbValue(h, v) == Ok(VTuple([v.entries["lat"], v.entries["lon"]]))
    ensures v.VList? ==> FromDbValue(h, v) == Ok(VTuple(v.items))
  {
  }
}
