/**
 * The ride serializers (e_ride/apps/Rides/serializers.py): `LocationSerializerField`, which reads
 * and writes locations as (lon, lat), and `RideCreateSerializer.create`.
 */
module RideSerializers {
  import opened Wrappers
  import opened Py
  import LocationField
  import LocationMixin
  import Rides

  /** `to_representation`: unpack `lon, lat = value` and give `{'lon': lon, 'lat': lat}`. */
  function ToRepresentation(value: Pair): (r: Value)
    ensures r.VDict? && r.entries.Keys == {"lon", "lat"}
    ensures forall h :: ToInternalValue(h, r) == Ok(value)
  {
    VDict(map["lon" := VNum(value.fst), "lat" := VNum(value.snd)])
  }

  /** `float(data[key])` for a dictionary; KeyError when the key is missing. */
  function FloatAt(h: Host, entries: map<string, Value>, key: string): (r: Result<real, Error>)
    ensures r.Ok? <==> key in entries && Float(h, entries[key]).Ok?
  {
    if key !in entries then Err(KeyError) else Float(h, entries[key])
  }

  /**
   * `to_internal_value`: a dictionary gives `(float(d['lon']), float(d['lat']))`; anything else is
   * iterated and must yield exactly two floats, kept in order. KeyError, TypeError and ValueError
   * all become ValidationError.
   */
  function ToInternalValue(h: Host, data: Value): (r: Result<Pair, Error>)
    ensures r.Err? ==> r.error == ValidationError
    ensures data.VDict? && ("lon" !in data.entries || "lat" !in data.entries) ==> r.Err?
    ensures (data.VList? || data.VTuple?) && |data.items| != 2 ==> r.Err?
    ensures data.VNone? || data.VNum? || data.VBool? || data.VObject? ==> r.Err?
    ensures (data.VDict? && "lon" in data.entries && "lat" in data.entries
      && Float(h, data.entries["lon"]).Ok? && Float(h, data.entries["lat"]).Ok?) ==>
      r == Ok(Pair(Float(h, data.entries["lon"]).value, Float(h, data.entries["lat"]).value))
    ensures (!data.VDict? && Elements(data).Some? && |Elements(data).value| == 2
      && Float(h, Elements(data).value[0]).Ok? && Float(h, Elements(data).value[1]).Ok?) ==>
      r == Ok(Pair(Float(h, Elements(data).value[0]).value, Float(h, Elements(data).value[1]).value))
    ensures r.Ok? && data.VDict? ==>
      Float(h, data.entries["lon"]) == Ok(r.value.fst) && Float(h, data.entries["lat"]) == Ok(r.value.snd)
    ensures r.Ok? && !data.VDict? ==> var items := Elements(data).value;
      |items| == 2 && Float(h, items[0]) == Ok(r.value.fst) && Float(h, items[1]) == Ok(r.value.snd)
  {
    if data.VDict? then
      var lon := FloatAt(h, data.entries, "lon");
      var lat := FloatAt(h, data.entries, "lat");
      if lon.Ok? && lat.Ok? then Ok(Pair(lon.value, lat.value)) else Err(ValidationError)
    else
      match Elements(data)
      case None => Err(ValidationError)
      case Some(items) =>
        if |items| != 2 then Err(ValidationError)
        else
          var pair := LocationField.FloatPair(h, items[0], items[1]);
          if pair.Ok? then pair else Err(ValidationError)
  }

  /** Reading back a representation gives the same pair. */
  lemma RepresentationRoundTrip(h: Host, p: Pair)
    ensures ToInternalValue(h, ToRepresentation(p)) == Ok(p)
  {
  }

  /** A list or tuple of two numbers is read in input order, a dictionary by its keys. */
  lemma InternalValueOrder(h: Host, a: real, b: real)
    ensures ToInternalValue(h, VList([VNum(a), VNum(b)])) == Ok(Pair(a, b))
    ensures ToInternalValue(h, VTuple([VNum(a), VNum(b)])) == Ok(Pair(a, b))
    ensures ToInternalValue(h, VDict(map["lat" := VNum(a), "lon" := VNum(b)])) == Ok(Pair(b, a))
  {
  }

  /**
   * The two location codecs read the same dictionary in opposite orders: this serializer
   * gives (lon, lat), `LocationField.to_python` gives (lat, lon).
   */
  lemma OppositeComponentOrder(h: Host, d: map<string, Value>)
    requires "lat" in d && "lon" in d && d["lat"].VNum? && d["lon"].VNum?
    ensures ToInternalValue(h, VDict(d)) == Ok(Pair(d["lon"].x, d["lat"].x))
    ensures LocationField.ToPython(h, VDict(d)) == Ok(Some(Pair(d["lat"].x, d["lon"].x)))
  {
  }

  /** A non-numeric element is refused. */
  lemma NonNumericRefused(h: Host, a: Value, b: Value)
    requires Float(h, a).Err? || Float(h, b).Err?
    ensures ToInternalValue(h, VList([a, b])) == Err(ValidationError)
    ensures ToInternalValue(h, VDict(map["lon" := a, "lat" := b])) == Err(ValidationError)
  {
  }

  /** The validated input of `RideCreateSerializer`; `status` and `price` are read-only and never part of it. */
  datatype CreateInput = CreateInput(driver: Attr<Rides.Driver?>, pickup: Pair, dropoff: Pair)

  /** `Client.objects.get(user=user)`: the client profile of a user. */
  function ClientOf(clients: seq<Rides.Client>, user: string): (c: Rides.Client?)
    ensures c != null ==> c in clients && c.user == user
    ensures c == null ==> forall k :: 0 <= k < |clients| ==> clients[k].user != user
  {
    if |clients| == 0 then null
    else if clients[0].user == user then clients[0]
    else ClientOf(clients[1..], user)
  }

  /**
   * `RideCreateSerializer.create`: pop the driver (KeyError when absent), find the requester's
   * client profile (DoesNotExist), build the ride, set driver and client, price it once, save.
   */
  method Create(h: Host, data: CreateInput, requester: string, clients: seq<Rides.Client>)
    returns (r: Result<Rides.Ride, Error>)
    ensures data.driver.Missing? ==> r == Err(KeyError)
    ensures data.driver.Present? && ClientOf(clients, requester) == null ==> r == Err(DoesNotExist)
    ensures r.Ok? ==> var ride := r.value;
      && fresh(ride)
      && ride.driver == data.driver.value && ride.client == ClientOf(clients, requester)
      && ride.pickup == Some(data.pickup) && ride.dropoff == Some(data.dropoff)
      && ride.status == Rides.REQUESTED
      && ride.price == Rides.PriceAfter(ride.RideDistance(h), ride.Rate(), 0.0)
    ensures data.driver.Present? && ClientOf(clients, requester) != null ==>
      (r.Err? <==> data.driver.value == null
                   && Rides.Truthy(Some(LocationMixin.Distance(h, Some(data.pickup), Some(data.dropoff)).value)))
    ensures r.Err? && r.error == AttributeError ==> data.driver.Present? && data.driver.value == null
    ensures r.Err? ==> r.error in {KeyError, DoesNotExist, AttributeError}
  {
    if data.driver.Missing? {
      return Err(KeyError);
    }
    var driver := data.driver.value;
    var client := ClientOf(clients, requester);
    if client == null {
      return Err(DoesNotExist);
    }
    var ride := new Rides.Ride(Some(data.pickup), Some(data.dropoff));
    ride.driver := driver;
    ride.client := client;
    var priced := ride.CalculatePrice(h);
    if priced.Err? {
      return Err(priced.error);
    }
    return Ok(ride);
  }
}
