/** Vehicle-position half of one polling cycle (app/main.py:168-181): every
    entity that carries a vehicle adds one timestamp to its route's list and
    one to its route's count. */
module Vehicles {
  import opened Wrappers
  import opened Gtfs
  import Headway

  /** `e` is a vehicle sighting on route `r`. */
  predicate SightedOn(e: FeedEntity, r: string) {
    e.vehicle.Some? && RouteOf(e.vehicle.value.trip) == r
  }

  /** route -> timestamps after the entities `ents` have been processed in
      order, each append going to the end of the route's list. */
  function VehicleTimestamps(ents: seq<FeedEntity>, header: Option<FeedHeader>): map<string, seq<int>>
  {
    if ents == [] then map[]
    else
      var m := VehicleTimestamps(ents[..|ents| - 1], header);
      var e := ents[|ents| - 1];
      if e.vehicle.None? then m
      else
        var r := RouteOf(e.vehicle.value.trip);
        m[r := (if r in m then m[r] else []) + [EffectiveTimestamp(e.vehicle.value, header)]]
  }

  /** route -> number of vehicle sightings after processing `ents`. */
  function VehicleCounts(ents: seq<FeedEntity>): map<string, nat>
  {
    if ents == [] then map[]
    else
      var m := VehicleCounts(ents[..|ents| - 1]);
      var e := ents[|ents| - 1];
      if e.vehicle.None? then m
      else
        var r := RouteOf(e.vehicle.value.trip);
        m[r := (if r in m then m[r] else 0) + 1]
  }

  /** Reference definition: the effective timestamps of the sightings on
      route `r`, in entity order. */
  function RouteTimestamps(ents: seq<FeedEntity>, header: Option<FeedHeader>, r: string): seq<int>
  {
    if ents == [] then []
    else
      (if SightedOn(ents[0], r) then [EffectiveTimestamp(ents[0].vehicle.value, header)] else [])
      + RouteTimestamps(ents[1..], header, r)
  }

  lemma {:induction false} RouteTimestampsAppend(a: seq<FeedEntity>, b: seq<FeedEntity>, header: Option<FeedHeader>, r: string)
    ensures RouteTimestamps(a + b, header, r) == RouteTimestamps(a, header, r) + RouteTimestamps(b, header, r)
  {
    if a != [] {
      assert (a + b)[1..] == a[1..] + b;
      assert (a + b)[0] == a[0];
      RouteTimestampsAppend(a[1..], b, header, r);
    } else {
      assert a + b == b;
    }
  }

  /** A route has a timestamp list exactly when some entity sighted a
      vehicle on it, and the list holds one timestamp per such sighting, in
      entity order. Entities without a vehicle contribute nothing. */
  lemma VehicleTimestampsPerRoute(ents: seq<FeedEntity>, header: Option<FeedHeader>, r: string)
    ensures r in VehicleTimestamps(ents, header) <==> exists i :: 0 <= i < |ents| && SightedOn(ents[i], r)
    ensures r in VehicleTimestamps(ents, header) ==>
      VehicleTimestamps(ents, header)[r] == RouteTimestamps(ents, header, r)
    ensures r !in VehicleTimestamps(ents, header) ==> RouteTimestamps(ents, header, r) == []
  {
    VehicleTimestampsMatchReference(ents, header, r);
    RouteTimestampsNonEmptyIffSighted(ents, header, r);
  }

  /** The fold agrees with the reference definition route by route. */
  lemma {:induction false} VehicleTimestampsMatchReference(ents: seq<FeedEntity>, header: Option<FeedHeader>, r: string)
    ensures r in VehicleTimestamps(ents, header) <==> RouteTimestamps(ents, header, r) != []
    ensures r in VehicleTimestamps(ents, header) ==>
      VehicleTimestamps(ents, header)[r] == RouteTimestamps(ents, header, r)
  {
    if ents != [] {
      var n := |ents| - 1;
      var prefix, e := ents[..n], ents[n];
      assert ents == prefix + [e];
      VehicleTimestampsMatchReference(prefix, header, r);
      RouteTimestampsAppend(prefix, [e], header, r);
      assert RouteTimestamps([e], header, r)
        == if SightedOn(e, r) then [EffectiveTimestamp(e.vehicle.value, header)] else [];
    }
  }

  /** A route's reference list is non-empty exactly when some entity sighted
      a vehicle on it. */
  lemma {:induction false} RouteTimestampsNonEmptyIffSighted(ents: seq<FeedEntity>, header: Option<FeedHeader>, r: string)
    ensures RouteTimestamps(ents, header, r) != [] <==> exists i :: 0 <= i < |ents| && SightedOn(ents[i], r)
  {
    if ents != [] {
      RouteTimestampsNonEmptyIffSighted(ents[1..], header, r);
      if exists i :: 0 <= i < |ents| - 1 && SightedOn(ents[1..][i], r) {
        var i :| 0 <= i < |ents| - 1 && SightedOn(ents[1..][i], r);
        assert SightedOn(ents[i + 1], r);
      }
      if exists i :: 0 <= i < |ents| && SightedOn(ents[i], r) {
        var i :| 0 <= i < |ents| && SightedOn(ents[i], r);
        if i > 0 {
          assert SightedOn(ents[1..][i - 1], r);
        }
      }
    }
  }

  /** Both maps have the same routes, and each route's count is the length
      of its timestamp list. */
  lemma {:induction false} VehicleCountsMatchTimestamps(ents: seq<FeedEntity>, header: Option<FeedHeader>)
    ensures VehicleCounts(ents).Keys == VehicleTimestamps(ents, header).Keys
    ensures forall r :: r in VehicleCounts(ents) ==>
      VehicleCounts(ents)[r] == |VehicleTimestamps(ents, header)[r]|
  {
    if ents != [] {
      VehicleCountsMatchTimestamps(ents[..|ents| - 1], header);
    }
  }

  /** Reordering the feed's entities leaves every route's timestamps the
      same multiset. */
  lemma {:induction false} RouteTimestampsPermutation(a: seq<FeedEntity>, b: seq<FeedEntity>, header: Option<FeedHeader>, r: string)
    requires multiset(a) == multiset(b)
    ensures multiset(RouteTimestamps(a, header, r)) == multiset(RouteTimestamps(b, header, r))
    decreases |a|
  {
    if a == [] {
      assert |b| == |multiset(b)| == 0;
    } else {
      assert a[0] in multiset(b);
      var j :| 0 <= j < |b| && b[j] == a[0];
      var b' := b[..j] + b[j + 1..];
      assert multiset(a[1..]) == multiset(b') by {
        assert a == [a[0]] + a[1..];
        assert multiset(a[1..]) == multiset(a) - multiset{a[0]};
        RemoveAtMultiset(b, j);
      }
      RouteTimestampsPermutation(a[1..], b', header, r);
      RouteTimestampsRemoveAt(b, j, header, r);
      assert a == [a[0]] + a[1..];
      RouteTimestampsAppend([a[0]], a[1..], header, r);
    }
  }

  lemma RemoveAtMultiset<T>(b: seq<T>, j: nat)
    requires j < |b|
    ensures multiset(b[..j] + b[j + 1..]) == multiset(b) - multiset{b[j]}
  {
    assert b == b[..j] + [b[j]] + b[j + 1..];
  }

  /** The timestamps of `b` are those of `b` without its `j`-th entity, plus
      that entity's own contribution. */
  lemma RouteTimestampsRemoveAt(b: seq<FeedEntity>, j: nat, header: Option<FeedHeader>, r: string)
    requires j < |b|
    ensures multiset(RouteTimestamps(b, header, r))
         == multiset(RouteTimestamps([b[j]], header, r)) + multiset(RouteTimestamps(b[..j] + b[j + 1..], header, r))
  {
    assert b == b[..j] + [b[j]] + b[j + 1..];
    var x, y, z := RouteTimestamps(b[..j], header, r), RouteTimestamps([b[j]], header, r), RouteTimestamps(b[j + 1..], header, r);
    RouteTimestampsAppend(b[..j] + [b[j]], b[j + 1..], header, r);
    RouteTimestampsAppend(b[..j], [b[j]], header, r);
    RouteTimestampsAppend(b[..j], b[j + 1..], header, r);
    assert RouteTimestamps(b, header, r) == x + y + z;
    assert RouteTimestamps(b[..j] + b[j + 1..], header, r) == x + z;
  }

  /** A route's headway does not depend on the order of the feed's entities. */
  lemma HeadwayIndependentOfEntityOrder(a: seq<FeedEntity>, b: seq<FeedEntity>, header: Option<FeedHeader>, r: string)
    requires multiset(a) == multiset(b)
    ensures Headway.EstimateHeadway(RouteTimestamps(a, header, r))
         == Headway.EstimateHeadway(RouteTimestamps(b, header, r))
  {
    RouteTimestampsPermutation(a, b, header, r);
    Headway.HeadwayPermutationInvariant(RouteTimestamps(a, header, r), RouteTimestamps(b, header, r));
  }

  /** The vehicle loop of one cycle over an available vehicle-positions feed. */
  method AggregateVehicles(feed: FeedMessage) returns (timestamps: map<string, seq<int>>, counts: map<string, nat>)
    ensures timestamps == VehicleTimestamps(feed.entities, feed.header)
    ensures counts == VehicleCounts(feed.entities)
    ensures counts.Keys == timestamps.Keys
    ensures forall r :: r in counts ==> counts[r] == |timestamps[r]|
    ensures forall r :: r in timestamps ==> timestamps[r] == RouteTimestamps(feed.entities, feed.header, r)
  {
    var ents := feed.entities;
    timestamps, counts := map[], map[];
    var i := 0;
    while i < |ents|
      invariant 0 <= i <= |ents|
      invariant timestamps == VehicleTimestamps(ents[..i], feed.header)
      invariant counts == VehicleCounts(ents[..i])
    {
      var ent := ents[i];
      if ent.vehicle.Some? {
        var vehicle := ent.vehicle.value;
        var routeId := RouteOf(vehicle.trip);
        var ts := EffectiveTimestamp(vehicle, feed.header);
        timestamps := timestamps[routeId := (if routeId in timestamps then timestamps[routeId] else []) + [ts]];
        counts := counts[routeId := (if routeId in counts then counts[routeId] else 0) + 1];
      }
      assert ents[..i + 1][..i] == ents[..i];
      i := i + 1;
    }
    assert ents[..|ents|] == ents;
    VehicleCountsMatchTimestamps(ents, feed.header);
    forall r | r in timestamps
      ensures timestamps[r] == RouteTimestamps(ents, feed.header, r)
    {
      VehicleTimestampsPerRoute(ents, feed.header, r);
    }
  }
}
