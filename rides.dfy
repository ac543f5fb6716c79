/**
 * The ride entity (e_ride/apps/Rides/models.py): status, nullable driver and client, pickup and
 * dropoff locations, price; its derived distances; `calculate_price`; and the lifecycle that the
 * ride tests assert, which couples the ride's status to its driver's availability.
 */
module Rides {
  import opened Wrappers
  import opened Py
  import LocationMixin

  /** `Ride.RIDE_STATUS`. */
  datatype Status = REQUESTED | ACCEPTED | STARTED | COMPLETED | CANCELLED

  /** `AvailabityChoices` of a driver. */
  datatype Availability = ONLINE | OFFLINE | ENGAGED

  /** A driver profile: its user, location, availability and rate. */
  class Driver {
    const user: string
    var location: Option<Pair>
    var availability: Availability
    var pricePerKm: Option<real>

    constructor (user: string, location: Option<Pair>, availability: Availability, pricePerKm: Option<real>)
      ensures this.user == user && this.location == location
      ensures this.availability == availability && this.pricePerKm == pricePerKm
    {
      this.user := user;
      this.location := location;
      this.availability := availability;
      this.pricePerKm := pricePerKm;
    }
  }

  /** A client profile: its user and location. */
  class Client {
    const user: string
    var location: Option<Pair>

    constructor (user: string, location: Option<Pair>)
      ensures this.user == user && this.location == location
    {
      this.user := user;
      this.location := location;
    }
  }

  /** Python truthiness of an optional float: present and non-zero. */
  predicate Truthy(x: Option<real>)
  {
    x.Some? && x.value != 0.0
  }

  /** The ride's status and its driver's availability, the state the lifecycle changes. */
  datatype Snapshot = Snapshot(status: Status, availability: Availability)

  /** The transitions exercised by the ride tests. */
  datatype Event = Accept | Start | Complete | Cancel

  predicate Terminal(s: Status)
  {
    s == COMPLETED || s == CANCELLED
  }

  /** The status each asserted transition leaves from. */
  function From(e: Event): Status
  {
    match e
    case Accept => REQUESTED
    case Start => ACCEPTED
    case Complete => STARTED
    case Cancel => ACCEPTED
  }

  /**
   * The asserted effect of a transition: accept engages the driver, start keeps it engaged,
   * complete and cancel put it back online.
   */
  function Apply(e: Event, s: Snapshot): (r: Snapshot)
    requires s.status == From(e)
    ensures !Terminal(s.status)
    ensures r.status != s.status
    ensures Terminal(r.status) ==> r.availability == ONLINE
    ensures Coupled(s) ==> Coupled(r)
  {
    match e
    case Accept => Snapshot(ACCEPTED, ENGAGED)
    case Start => Snapshot(STARTED, s.availability)
    case Complete => Snapshot(COMPLETED, ONLINE)
    case Cancel => Snapshot(CANCELLED, ONLINE)
  }

  /** Driver availability agrees with the ride: engaged while accepted or started, online once it ends. */
  predicate Coupled(s: Snapshot)
  {
    && (s.status in {ACCEPTED, STARTED} ==> s.availability == ENGAGED)
    && (Terminal(s.status) ==> s.availability == ONLINE)
  }

  /** Apply events in order; None as soon as an event is not one asserted from the current status. */
  function Run(s: Snapshot, events: seq<Event>): Option<Snapshot>
    decreases |events|
  {
    if |events| == 0 then Some(s)
    else if s.status != From(events[0]) then None
    else Run(Apply(events[0], s), events[1..])
  }

  /** Every run of asserted transitions from a coupled state keeps the coupling. */
  lemma {:induction false} RunKeepsCoupling(s: Snapshot, events: seq<Event>)
    requires Coupled(s)
    requires Run(s, events).Some?
    ensures Coupled(Run(s, events).value)
    decreases |events|
  {
    if |events| > 0 {
      RunKeepsCoupling(Apply(events[0], s), events[1..]);
    }
  }

  /** A finished ride admits no further transition. */
  lemma {:induction false} TerminalIsFinal(s: Snapshot, events: seq<Event>)
    requires Terminal(s.status)
    ensures Run(s, events) == if |events| == 0 then Some(s) else None
  {
    if |events| > 0 {
      assert !Terminal(From(events[0]));
    }
  }

  /** test_full_ride_lifecycle: accept engages the driver, start, complete puts it back online. */
  lemma FullLifecycle(a: Availability)
    ensures Run(Snapshot(REQUESTED, a), [Accept]) == Some(Snapshot(ACCEPTED, ENGAGED))
    ensures Run(Snapshot(REQUESTED, a), [Accept, Start]) == Some(Snapshot(STARTED, ENGAGED))
    ensures Run(Snapshot(REQUESTED, a), [Accept, Start, Complete]) == Some(Snapshot(COMPLETED, ONLINE))
  {
    assert [Accept, Start][1..] == [Start];
    assert [Accept, Start, Complete][1..] == [Start, Complete];
    assert [Start, Complete][1..] == [Complete];
  }

  /** test_client_cancel_ride: cancelling an accepted ride frees the driver. */
  lemma CancelAccepted(a: Availability)
    ensures Run(Snapshot(REQUESTED, a), [Accept, Cancel]) == Some(Snapshot(CANCELLED, ONLINE))
  {
    assert [Accept, Cancel][1..] == [Cancel];
  }

  /** A ride is listed as active when it is requested, accepted or started. */
  predicate Active(s: Status)
  {
    s in {REQUESTED, ACCEPTED, STARTED}
  }

  lemma ActiveIffNotTerminal(s: Status)
    ensures Active(s) <==> !Terminal(s)
  {
  }

  /** What the ride-listing query reads of a ride: its id, client and status. */
  datatype Listing = Listing(id: string, client: Option<string>, status: Status)

  /** `Ride.objects.filter(client=client, status__in=[REQUESTED, ACCEPTED, STARTED])`, in table order. */
  function ActiveRides(rides: seq<Listing>, client: string): (r: seq<Listing>)
    ensures forall x :: x in r <==> x in rides && x.client == Some(client) && Active(x.status)
    ensures |r| <= |rides|
  {
    if |rides| == 0 then []
    else
      var rest := ActiveRides(rides[1..], client);
      if rides[0].client == Some(client) && Active(rides[0].status) then [rides[0]] + rest else rest
  }

  /** `calculate_price`'s outcome: distance × rate when both are truthy, otherwise the price it had. */
  function PriceAfter(distance: Option<real>, rate: Option<real>, price: real): real
  {
    if Truthy(distance) && Truthy(rate) then distance.value * rate.value else price
  }

  /** A positive distance at a positive rate gives a positive price, whatever the ride held before. */
  lemma PositivePrice(distance: real, rate: real, price: real)
    requires distance > 0.0 && rate > 0.0
    ensures PriceAfter(Some(distance), Some(rate), price) > 0.0
  {
  }

  /** The ride record. `driver` and `client` are nulled when the profile is deleted (SET_NULL). */
  class Ride {
    var driver: Driver?
    var client: Client?
    var pickup: Option<Pair>
    var dropoff: Option<Pair>
    var status: Status
    var price: real

    /** `Ride(pickup_location=..., dropoff_location=...)`: status REQUESTED and price 0.00 by default. */
    constructor (pickup: Option<Pair>, dropoff: Option<Pair>)
      ensures this.pickup == pickup && this.dropoff == dropoff
      ensures driver == null && client == null
      ensures status == REQUESTED && price == 0.0
    {
      this.pickup := pickup;
      this.dropoff := dropoff;
      driver := null;
      client := null;
      status := REQUESTED;
      price := 0.0;
    }

    /** `ride_distance`: kilometres from pickup to dropoff, None unless both are set. */
    function RideDistance(h: Host): (r: Option<real>)
      reads this
      ensures r.Some? <==> pickup.Some? && dropoff.Some?
      ensures r.Some? ==> r.value * 1000.0 == h.geoMetres(pickup.value, dropoff.value)
    {
      if pickup.None? || dropoff.None? then None
      else Some(LocationMixin.Distance(h, pickup, dropoff).value)
    }

    /** `driver_to_pickup_distance`: AttributeError without a driver; None unless both locations are set. */
    function DriverToPickupDistance(h: Host): (r: Result<Option<real>, Error>)
      reads this, driver
      ensures driver == null <==> r == Err(AttributeError)
      ensures r.Ok? ==> (r.value.Some? <==> driver.location.Some? && pickup.Some?)
      ensures r.Ok? && r.value.Some? ==> r.value.value * 1000.0 == h.geoMetres(driver.location.value, pickup.value)
    {
      if driver == null then Err(AttributeError)
      else if driver.location.None? || pickup.None? then Ok(None)
      else Ok(Some(LocationMixin.Distance(h, driver.location, pickup).value))
    }

    /**
     * `client_to_driver_distance`: AttributeError without a client, or without a driver once the
     * client's location is set; None unless both locations are set.
     */
    function ClientToDriverDistance(h: Host): (r: Result<Option<real>, Error>)
      reads this, client, driver
      ensures r.Err? <==> client == null || (client.location.Some? && driver == null)
      ensures r.Err? ==> r.error == AttributeError
      ensures r.Ok? ==> (r.value.Some? <==> client.location.Some? && driver.location.Some?)
      ensures r.Ok? && r.value.Some? ==> r.value.value * 1000.0 == h.geoMetres(client.location.value, driver.location.value)
    {
      if client == null then Err(AttributeError)
      else if client.location.None? then Ok(None)
      else if driver == null then Err(AttributeError)
      else if driver.location.None? then Ok(None)
      else Ok(Some(LocationMixin.DistanceTo(h, client.location, Present(driver.location)).value))
    }

    /** `ride_duration`: not implemented, None for every ride. */
    function RideDuration(): (r: Option<real>)
      reads this
      ensures r.None?
    {
      if pickup.None? || dropoff.None? then None else None
    }

    /**
     * `calculate_price`: with a truthy ride distance and driver rate, price becomes their product;
     * otherwise the price stays. A truthy distance with no driver raises AttributeError.
     */
    method CalculatePrice(h: Host) returns (r: Result<(), Error>)
      modifies this`price
      ensures r.Err? <==> Truthy(RideDistance(h)) && driver == null
      ensures r.Err? ==> r.error == AttributeError && price == old(price)
      ensures r.Ok? ==> price == PriceAfter(RideDistance(h), Rate(), old(price))
    {
      var distance := RideDistance(h);
      if !Truthy(distance) {
        return Ok(());
      }
      if driver == null {
        return Err(AttributeError);
      }
      if !Truthy(driver.pricePerKm) {
        return Ok(());
      }
      price := distance.value * driver.pricePerKm.value;
      return Ok(());
    }

    /** `self.driver.price_per_km` when there is a driver. */
    function Rate(): Option<real>
      reads this, driver
    {
      if driver == null then None else driver.pricePerKm
    }

    /** The ride's status with its driver's availability. */
    function State(): Snapshot
      reads this, driver
      requires driver != null
    {
      Snapshot(status, driver.availability)
    }

    /** The driver accepts: ACCEPTED, driver ENGAGED. */
    method DoAccept()
      requires driver != null && status == From(Accept)
      modifies this`status, driver`availability
      ensures State() == Apply(Accept, old(State()))
    {
      status := ACCEPTED;
      driver.availability := ENGAGED;
    }

    /** The driver starts the ride: STARTED. */
    method DoStart()
      requires driver != null && status == From(Start)
      modifies this`status
      ensures State() == Apply(Start, old(State()))
    {
      status := STARTED;
    }

    /** The driver completes the ride: COMPLETED, driver ONLINE again. */
    method DoComplete()
      requires driver != null && status == From(Complete)
      modifies this`status, driver`availability
      ensures State() == Apply(Complete, old(State()))
    {
      status := COMPLETED;
      driver.availability := ONLINE;
    }

    /** The client cancels an accepted ride: CANCELLED, driver ONLINE again. */
    method DoCancel()
      requires driver != null && status == From(Cancel)
      modifies this`status, driver`availability
      ensures State() == Apply(Cancel, old(State()))
    {
      status := CANCELLED;
      driver.availability := ONLINE;
    }
  }
}
