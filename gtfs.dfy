/** The decoded GTFS-Realtime messages the polling cycle consumes, and the
    field-resolution rules the cycle applies to them (app/main.py:174-202).
    Protobuf decoding itself is not part of this model: a feed arrives here
    already decoded. */
module Gtfs {
  import opened Wrappers

  /** Trip descriptor of a vehicle or trip update. Protobuf strings read as
      "" when unset, so an empty id means "not given". */
  datatype TripDescriptor = TripDescriptor(routeId: string, tripId: string)

  /** Vehicle position: `timestamp` is the uint64 field, 0 when unset. */
  datatype VehiclePosition = VehiclePosition(trip: Option<TripDescriptor>, timestamp: nat)

  /** One stop-time update; each delay is present only when the feed set it. */
  datatype StopTimeUpdate = StopTimeUpdate(
    stopId: string,
    arrivalDelay: Option<int>,
    departureDelay: Option<int>)

  datatype TripUpdate = TripUpdate(trip: Option<TripDescriptor>, stopTimeUpdates: seq<StopTimeUpdate>)

  /** A feed entity carries at most what the feed put in it: a vehicle
      position, a trip update, or neither. */
  datatype FeedEntity = FeedEntity(
    id: string,
    vehicle: Option<VehiclePosition>,
    tripUpdate: Option<TripUpdate>)

  /** Header timestamp: the uint64 field, 0 when unset. */
  datatype FeedHeader = FeedHeader(timestamp: nat)

  datatype FeedMessage = FeedMessage(header: Option<FeedHeader>, entities: seq<FeedEntity>)

  /** Route of a trip descriptor; an absent descriptor or an unset route id
      both give the empty route id, which is kept as a key of its own. */
  function RouteOf(trip: Option<TripDescriptor>): (r: string)
    ensures trip.Some? ==> r == trip.value.routeId
    ensures trip.None? ==> r == ""
  {
    if trip.Some? && trip.value.routeId != "" then trip.value.routeId else ""
  }

  /** Trip id of a trip update: the descriptor's trip id when it is set,
      otherwise the id of the entity that carries the update. */
  function TripIdOf(trip: Option<TripDescriptor>, entityId: string): (t: string)
    ensures trip.Some? && trip.value.tripId != "" ==> t == trip.value.tripId
    ensures trip.None? || trip.value.tripId == "" ==> t == entityId
  {
    if trip.Some? && trip.value.tripId != "" then trip.value.tripId else entityId
  }

  /** The timestamp recorded for one vehicle sighting: the vehicle's own when
      non-zero, else the feed header's, else 0. */
  function EffectiveTimestamp(v: VehiclePosition, header: Option<FeedHeader>): (t: nat)
    ensures v.timestamp != 0 ==> t == v.timestamp
    ensures v.timestamp == 0 && header.Some? ==> t == header.value.timestamp
    ensures v.timestamp == 0 && header.None? ==> t == 0
  {
    if v.timestamp != 0 then v.timestamp
    else if header.Some? && header.value.timestamp != 0 then header.value.timestamp
    else 0
  }

  /** The delay a stop-time update contributes: the arrival delay takes
      precedence over the departure delay; None when neither is set. */
  function DelayOf(u: StopTimeUpdate): (d: Option<int>)
    ensures d.None? <==> u.arrivalDelay.None? && u.departureDelay.None?
    ensures u.arrivalDelay.Some? ==> d == u.arrivalDelay
    ensures u.arrivalDelay.None? ==> d == u.departureDelay
  {
    if u.arrivalDelay.Some? then u.arrivalDelay
    else if u.departureDelay.Some? then u.departureDelay
    else None
  }
}
