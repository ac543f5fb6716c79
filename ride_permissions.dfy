/**
 * The ride object permissions (e_ride/apps/Rides/permissions.py). A requester is identified by
 * the primary key of its user; Django compares users by primary key.
 */
module RidePermissions {
  import opened Wrappers
  import opened Py
  import Rides

  /** A driver or client profile as the checks read it: the pk of its user. */
  datatype Profile = Profile(user: string)

  /** The object a check receives: whether it has a `driver` and a `client` attribute, each nullable. */
  datatype Target = Target(driver: Attr<Option<Profile>>, client: Attr<Option<Profile>>)

  /** `hasattr(obj, role) and obj.role and obj.role.user == request.user`. */
  predicate Holds(participant: Attr<Option<Profile>>, requester: string)
    ensures Holds(participant, requester) <==> participant == Present(Some(Profile(requester)))
  {
    participant.Present? && participant.value.Some? && participant.value.value.user == requester
  }

  /** `IsRideDriver`. */
  predicate IsRideDriver(obj: Target, requester: string)
    ensures IsRideDriver(obj, requester) <==> obj.driver == Present(Some(Profile(requester)))
  {
    Holds(obj.driver, requester)
  }

  /** `IsRideClient`. */
  predicate IsRideClient(obj: Target, requester: string)
    ensures IsRideClient(obj, requester) <==> obj.client == Present(Some(Profile(requester)))
  {
    Holds(obj.client, requester)
  }

  /** `IsRideParticipant`, which restates both tests. */
  predicate IsRideParticipant(obj: Target, requester: string)
    ensures IsRideParticipant(obj, requester) <==>
      obj.driver == Present(Some(Profile(requester))) || obj.client == Present(Some(Profile(requester)))
  {
    Holds(obj.driver, requester) || Holds(obj.client, requester)
  }

  lemma ParticipantIsDriverOrClient(obj: Target, requester: string)
    ensures IsRideParticipant(obj, requester) <==> IsRideDriver(obj, requester) || IsRideClient(obj, requester)
  {
  }

  /** A ride whose driver and client were both deleted grants no one; neither does an object without them. */
  lemma OrphanDeniesEveryone(obj: Target, requester: string)
    requires (obj.driver.Missing? || obj.driver.value.None?) && (obj.client.Missing? || obj.client.value.None?)
    ensures !IsRideDriver(obj, requester) && !IsRideClient(obj, requester) && !IsRideParticipant(obj, requester)
  {
  }

  /** What the checks see of a ride record. */
  function TargetOf(ride: Rides.Ride): (t: Target)
    reads ride
    ensures t.driver.Present? && t.client.Present?
    ensures t.driver.value.Some? <==> ride.driver != null
    ensures t.client.value.Some? <==> ride.client != null
  {
    Target(Present(if ride.driver == null then None else Some(Profile(ride.driver.user))),
           Present(if ride.client == null then None else Some(Profile(ride.client.user))))
  }

  /** Exactly the users of the ride's driver and client are its participants. */
  lemma RideParticipants(ride: Rides.Ride, requester: string)
    ensures IsRideDriver(TargetOf(ride), requester) <==> ride.driver != null && ride.driver.user == requester
    ensures IsRideClient(TargetOf(ride), requester) <==> ride.client != null && ride.client.user == requester
    ensures IsRideParticipant(TargetOf(ride), requester) <==>
      (ride.driver != null && ride.driver.user == requester) || (ride.client != null && ride.client.user == requester)
  {
  }
}
