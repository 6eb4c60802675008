/** One polling cycle (app/main.py:159-232) with the surrounding `while
    True` and sleep removed: fetch both feeds, aggregate them, set the
    per-route gauges, assemble route_stats and the snapshot's route list.
    The Prometheus metrics are maps held by a `Poller` object and
    overwritten in place, as the gauges and counters are. */
module Cycle {
  import opened Wrappers
  import opened Gtfs
  import Headway
  import opened Vehicles
  import opened OnTime
  import opened Snapshot

  /** The feed `_fetch_feed` hands back: none without an endpoint, otherwise
      whatever the request and decoding produced (None on any failure). */
  function Fetched(url: string, response: Option<FeedMessage>): (feed: Option<FeedMessage>)
    ensures url == "" ==> feed.None?
    ensures url != "" ==> feed == response
  {
    if url == "" then None else response
  }

  /** Cycle accumulators for an optional feed: empty when it is unavailable. */
  function CycleTimestamps(vp: Option<FeedMessage>): map<string, seq<int>> {
    if vp.None? then map[] else VehicleTimestamps(vp.value.entities, vp.value.header)
  }

  function CycleCounts(vp: Option<FeedMessage>): map<string, nat> {
    if vp.None? then map[] else VehicleCounts(vp.value.entities)
  }

  function CycleSamples(tu: Option<FeedMessage>): seq<DelaySample> {
    if tu.None? then [] else FeedSamples(tu.value.entities)
  }

  /** route_stats while the merge loops are under way: the statistics of
      the routes already visited in each of the three loops. */
  function PartialStats(
    counts: map<string, nat>, headways: map<string, real>, ratios: map<string, real>,
    doneCounts: set<string>, doneHeadways: set<string>, doneRatios: set<string>): map<string, RouteStats>
    requires doneCounts <= counts.Keys && doneHeadways <= headways.Keys && doneRatios <= ratios.Keys
  {
    map r | r in doneCounts + doneHeadways + doneRatios ::
      RouteStats(
        if r in doneCounts then Some(counts[r]) else None,
        if r in doneHeadways then Some(headways[r]) else None,
        if r in doneRatios then Some(ratios[r]) else None)
  }

  /** route_stats after all three loops: a route is present when any of the
      accumulators has it, and each statistic only when its own does. */
  function MergeStats(counts: map<string, nat>, timestamps: map<string, seq<int>>, onTime: map<string, OnTimeCount>): (stats: map<string, RouteStats>)
    ensures stats.Keys == counts.Keys + timestamps.Keys + onTime.Keys
    ensures forall r :: r in stats ==>
      && (stats[r].vehicleCount.Some? <==> r in counts)
      && (stats[r].headwaySeconds.Some? <==> r in timestamps)
      && (stats[r].onTimeRatio.Some? <==> r in onTime)
  {
    PartialStats(counts, Headways(timestamps), Ratios(onTime), counts.Keys, timestamps.Keys, onTime.Keys)
  }

  /** route_stats of the cycle that received the feeds `vp` and `tu`. */
  function CycleStats(vp: Option<FeedMessage>, tu: Option<FeedMessage>): map<string, RouteStats> {
    MergeStats(CycleCounts(vp), CycleTimestamps(vp), Tally(CycleSamples(tu)))
  }

  /** What a cycle reports about each route: it is reported exactly when a
      vehicle was sighted on it or a delay sample names it; the vehicle
      count and the headway are present together, the count is that route's
      number of sightings, the headway is never negative, and the on-time
      ratio is a fraction in [0, 1]. */
  lemma CycleStatsProperties(vp: Option<FeedMessage>, tu: Option<FeedMessage>, r: string)
    ensures var stats := CycleStats(vp, tu);
      && (r in stats <==>
          (vp.Some? && exists i :: 0 <= i < |vp.value.entities| && SightedOn(vp.value.entities[i], r))
          || SampleCount(CycleSamples(tu), r) > 0)
      && (r in stats ==>
          && (stats[r].vehicleCount.Some? <==> stats[r].headwaySeconds.Some?)
          && (stats[r].vehicleCount.Some? ==>
                stats[r].vehicleCount.value == |RouteTimestamps(vp.value.entities, vp.value.header, r)|
                && stats[r].vehicleCount.value >= 1
                && stats[r].headwaySeconds.value >= 0.0)
          && (stats[r].onTimeRatio.Some? ==> 0.0 <= stats[r].onTimeRatio.value <= 1.0))
  {
    var stats := CycleStats(vp, tu);
    var samples := CycleSamples(tu);
    TallyCounts(samples, r);
    if vp.Some? {
      var ents, header := vp.value.entities, vp.value.header;
      VehicleCountsMatchTimestamps(ents, header);
      VehicleTimestampsPerRoute(ents, header, r);
      VehicleTimestampsMatchReference(ents, header, r);
    }
    if r in Tally(samples) {
      TallyWellFormed(samples);
      RatioBounds(Tally(samples)[r]);
    }
  }

  /** Each cycle starts from empty accumulators: when neither feed is
      available it reports no routes at all. */
  lemma EmptyCycle()
    ensures CycleStats(None, None) == map[]
    ensures SnapshotRoutes(CycleStats(None, None)) == []
  {
  }

  /** The process-wide metrics the cycle writes, and the endpoints it polls. */
  class Poller {
    const vehiclePositionsUrl: string
    const tripUpdatesUrl: string

    /** ptla_events_ingested_total, by feed type. */
    var eventsIngested: map<string, nat>
    /** ptla_scrape_status, by feed: 1 success, 0 failure. */
    var scrapeStatus: map<string, nat>
    /** ptla_scrape_latency_seconds: the observations made, by feed. */
    var scrapeLatency: map<string, seq<real>>
    /** ptla_vehicle_count_by_route, by route. */
    var vehicleCountGauge: map<string, nat>
    /** ptla_headway_seconds, by route. */
    var headwayGauge: map<string, real>
    /** ptla_arrival_delay_seconds, by (route, trip, stop). */
    var arrivalDelayGauge: map<DelayKey, int>
    /** ptla_on_time_ratio, by route. */
    var onTimeRatioGauge: map<string, real>

    constructor (vehiclePositionsUrl: string, tripUpdatesUrl: string)
      ensures this.vehiclePositionsUrl == vehiclePositionsUrl && this.tripUpdatesUrl == tripUpdatesUrl
      ensures eventsIngested == map[] && scrapeStatus == map[] && scrapeLatency == map[]
      ensures vehicleCountGauge == map[] && headwayGauge == map[]
      ensures arrivalDelayGauge == map[] && onTimeRatioGauge == map[]
    {
      this.vehiclePositionsUrl := vehiclePositionsUrl;
      this.tripUpdatesUrl := tripUpdatesUrl;
      eventsIngested, scrapeStatus, scrapeLatency := map[], map[], map[];
      vehicleCountGauge, headwayGauge := map[], map[];
      arrivalDelayGauge, onTimeRatioGauge := map[], map[];
    }

    /** `_fetch_feed`: `response` is what the request and decoding produced
        (None for any failure) and `elapsed` the measured duration; neither
        is consulted when the endpoint is empty. */
    method FetchFeed(url: string, feedName: string, response: Option<FeedMessage>, elapsed: real)
      returns (feed: Option<FeedMessage>)
      modifies this`scrapeStatus, this`scrapeLatency
      ensures feed == Fetched(url, response)
      ensures scrapeStatus == ScrapeStatusAfter(old(scrapeStatus), url, feedName, response)
      ensures scrapeLatency == ScrapeLatencyAfter(old(scrapeLatency), url, feedName, elapsed)
      ensures url == "" ==> scrapeStatus == old(scrapeStatus)[feedName := 0] && scrapeLatency == old(scrapeLatency)
      ensures url != "" ==>
        && scrapeStatus == old(scrapeStatus)[feedName := if response.Some? then 1 else 0]
        && scrapeLatency == old(scrapeLatency)[feedName :=
             (if feedName in old(scrapeLatency) then old(scrapeLatency)[feedName] else []) + [elapsed]]
    {
      if url == "" {
        scrapeStatus := scrapeStatus[feedName := 0];
        return None;
      }
      scrapeStatus := scrapeStatus[feedName := if response.Some? then 1 else 0];
      scrapeLatency := scrapeLatency[feedName :=
        (if feedName in scrapeLatency then scrapeLatency[feedName] else []) + [elapsed]];
      feed := response;
    }

    /** Adds `n` to the ingestion counter of feed type `kind`. */
    method IncIngested(kind: string, n: nat)
      modifies this`eventsIngested
      ensures eventsIngested == old(eventsIngested)[kind :=
        (if kind in old(eventsIngested) then old(eventsIngested)[kind] else 0) + n]
    {
      eventsIngested := eventsIngested[kind := (if kind in eventsIngested then eventsIngested[kind] else 0) + n];
    }

    /** First half of a cycle: fetch the vehicle-positions feed and, when it
        is available, record it. */
    method IngestVehiclePositions(response: Option<FeedMessage>, elapsed: real)
      returns (timestamps: map<string, seq<int>>, counts: map<string, nat>)
      modifies this`scrapeStatus, this`scrapeLatency, this`eventsIngested
      ensures timestamps == CycleTimestamps(Fetched(vehiclePositionsUrl, response))
      ensures counts == CycleCounts(Fetched(vehiclePositionsUrl, response))
      ensures eventsIngested == Ingested(old(eventsIngested), "vehicle_positions", Fetched(vehiclePositionsUrl, response))
      ensures scrapeStatus == ScrapeStatusAfter(old(scrapeStatus), vehiclePositionsUrl, "vehicle_positions", response)
      ensures scrapeLatency == ScrapeLatencyAfter(old(scrapeLatency), vehiclePositionsUrl, "vehicle_positions", elapsed)
    {
      var vpFeed := FetchFeed(vehiclePositionsUrl, "vehicle_positions", response, elapsed);
      timestamps, counts := map[], map[];
      if vpFeed.Some? {
        timestamps, counts := RecordVehiclePositions(vpFeed.value);
      }
    }

    /** An available vehicle-positions feed: count its entities and
        aggregate its vehicles. */
    method RecordVehiclePositions(feed: FeedMessage)
      returns (timestamps: map<string, seq<int>>, counts: map<string, nat>)
      modifies this`eventsIngested
      ensures timestamps == CycleTimestamps(Some(feed)) && counts == CycleCounts(Some(feed))
      ensures eventsIngested == Ingested(old(eventsIngested), "vehicle_positions", Some(feed))
    {
      IncIngested("vehicle_positions", |feed.entities|);
      timestamps, counts := AggregateVehicles(feed);
    }

    /** Second half: fetch the trip-updates feed and, when it is available,
        record it. */
    method IngestTripUpdates(response: Option<FeedMessage>, elapsed: real)
      returns (onTime: map<string, OnTimeCount>)
      modifies this`scrapeStatus, this`scrapeLatency, this`eventsIngested, this`arrivalDelayGauge
      ensures onTime == Tally(CycleSamples(Fetched(tripUpdatesUrl, response)))
      ensures arrivalDelayGauge == old(arrivalDelayGauge) + DelayTable(CycleSamples(Fetched(tripUpdatesUrl, response)))
      ensures eventsIngested == Ingested(old(eventsIngested), "trip_updates", Fetched(tripUpdatesUrl, response))
      ensures scrapeStatus == ScrapeStatusAfter(old(scrapeStatus), tripUpdatesUrl, "trip_updates", response)
      ensures scrapeLatency == ScrapeLatencyAfter(old(scrapeLatency), tripUpdatesUrl, "trip_updates", elapsed)
    {
      var tuFeed := FetchFeed(tripUpdatesUrl, "trip_updates", response, elapsed);
      onTime := map[];
      if tuFeed.Some? {
        onTime := RecordTripUpdates(tuFeed.value);
      } else {
        assert CycleSamples(tuFeed) == [];
      }
    }

    /** An available trip-updates feed: count its entities, write its delays
        to the delay gauge and tally its routes. */
    method RecordTripUpdates(feed: FeedMessage) returns (onTime: map<string, OnTimeCount>)
      modifies this`eventsIngested, this`arrivalDelayGauge
      ensures onTime == Tally(CycleSamples(Some(feed)))
      ensures arrivalDelayGauge == old(arrivalDelayGauge) + DelayTable(CycleSamples(Some(feed)))
      ensures eventsIngested == Ingested(old(eventsIngested), "trip_updates", Some(feed))
    {
      IncIngested("trip_updates", |feed.entities|);
      var delays;
      delays, onTime := AccumulateTripUpdates(feed);
      arrivalDelayGauge := arrivalDelayGauge + delays;
    }

    /** The vehicle-count loop: sets each route's gauge and its entry. */
    method PublishVehicleCounts(
      counts: map<string, nat>, timestamps: map<string, seq<int>>, onTime: map<string, OnTimeCount>,
      stats0: map<string, RouteStats>)
      returns (stats: map<string, RouteStats>)
      requires stats0 == PartialStats(counts, Headways(timestamps), Ratios(onTime), {}, {}, {})
      modifies this`vehicleCountGauge
      ensures stats == PartialStats(counts, Headways(timestamps), Ratios(onTime), counts.Keys, {}, {})
      ensures vehicleCountGauge == old(vehicleCountGauge) + counts
    {
      stats := stats0;
      var pending := counts.Keys;
      ghost var done: set<string> := {};
      ghost var gauge0 := vehicleCountGauge;
      ghost var headways, ratios := Headways(timestamps), Ratios(onTime);
      while pending != {}
        invariant done == counts.Keys - pending && pending <= counts.Keys
        invariant vehicleCountGauge == gauge0 + Restrict(counts, done)
        invariant stats == PartialStats(counts, headways, ratios, done, {}, {})
        decreases pending
      {
        var routeId :| routeId in pending;
        stats := PublishVehicleCount(counts, headways, ratios, stats, gauge0, done, routeId);
        pending := pending - {routeId};
        done := done + {routeId};
      }
      assert done == counts.Keys;
      RestrictAll(counts);
    }

    /** The headway loop: estimates each route's headway, sets its gauge and
        its entry. */
    method PublishHeadways(
      counts: map<string, nat>, timestamps: map<string, seq<int>>, onTime: map<string, OnTimeCount>,
      stats0: map<string, RouteStats>)
      returns (stats: map<string, RouteStats>)
      requires stats0 == PartialStats(counts, Headways(timestamps), Ratios(onTime), counts.Keys, {}, {})
      modifies this`headwayGauge
      ensures stats == PartialStats(counts, Headways(timestamps), Ratios(onTime), counts.Keys, timestamps.Keys, {})
      ensures headwayGauge == old(headwayGauge) + Headways(timestamps)
    {
      stats := stats0;
      var pending := timestamps.Keys;
      ghost var done: set<string> := {};
      ghost var gauge0 := headwayGauge;
      ghost var headways, ratios := Headways(timestamps), Ratios(onTime);
      while pending != {}
        invariant done == timestamps.Keys - pending && pending <= timestamps.Keys
        invariant done <= headways.Keys
        invariant headwayGauge == gauge0 + Restrict(headways, done)
        invariant stats == PartialStats(counts, headways, ratios, counts.Keys, done, {})
        decreases pending
      {
        var routeId :| routeId in pending;
        stats := PublishHeadway(counts, timestamps, headways, ratios, stats, gauge0, done, routeId);
        pending := pending - {routeId};
        done := done + {routeId};
      }
      assert done == timestamps.Keys;
      RestrictAll(headways);
    }

    /** The on-time loop: computes each tallied route's ratio, sets its gauge
        and its entry. */
    method PublishRatios(
      counts: map<string, nat>, timestamps: map<string, seq<int>>, onTime: map<string, OnTimeCount>,
      stats0: map<string, RouteStats>)
      returns (stats: map<string, RouteStats>)
      requires stats0 == PartialStats(counts, Headways(timestamps), Ratios(onTime), counts.Keys, timestamps.Keys, {})
      modifies this`onTimeRatioGauge
      ensures stats == MergeStats(counts, timestamps, onTime)
      ensures onTimeRatioGauge == old(onTimeRatioGauge) + Ratios(onTime)
    {
      stats := stats0;
      var pending := onTime.Keys;
      ghost var done: set<string> := {};
      ghost var gauge0 := onTimeRatioGauge;
      ghost var headways, ratios := Headways(timestamps), Ratios(onTime);
      while pending != {}
        invariant done == onTime.Keys - pending && pending <= onTime.Keys
        invariant done <= ratios.Keys
        invariant onTimeRatioGauge == gauge0 + Restrict(ratios, done)
        invariant stats == PartialStats(counts, headways, ratios, counts.Keys, timestamps.Keys, done)
        decreases pending
      {
        var routeId :| routeId in pending;
        stats := PublishRatio(counts, timestamps.Keys, onTime, headways, ratios, stats, gauge0, done, routeId);
        pending := pending - {routeId};
        done := done + {routeId};
      }
      assert done == onTime.Keys;
      RestrictAll(ratios);
    }

    /** One pass of the vehicle-count loop, for route `routeId`. */
    method PublishVehicleCount(
      counts: map<string, nat>, ghost headways: map<string, real>, ghost ratios: map<string, real>,
      stats0: map<string, RouteStats>, ghost gauge0: map<string, nat>, ghost done: set<string>, routeId: string)
      returns (stats: map<string, RouteStats>)
      requires done <= counts.Keys && routeId in counts
      requires vehicleCountGauge == gauge0 + Restrict(counts, done)
      requires stats0 == PartialStats(counts, headways, ratios, done, {}, {})
      modifies this`vehicleCountGauge
      ensures vehicleCountGauge == gauge0 + Restrict(counts, done + {routeId})
      ensures stats == PartialStats(counts, headways, ratios, done + {routeId}, {}, {})
    {
      AddVehicleCount(counts, headways, ratios, done, routeId);
      GaugeStep(gauge0, counts, done, routeId);
      vehicleCountGauge := vehicleCountGauge[routeId := counts[routeId]];
      var entry := SetDefault(stats0, routeId);
      stats := stats0[routeId := entry.(vehicleCount := Some(counts[routeId]))];
    }

    /** One pass of the headway loop, for route `routeId`. */
    method PublishHeadway(
      counts: map<string, nat>, timestamps: map<string, seq<int>>,
      ghost headways: map<string, real>, ghost ratios: map<string, real>,
      stats0: map<string, RouteStats>, ghost gauge0: map<string, real>, ghost done: set<string>, routeId: string)
      returns (stats: map<string, RouteStats>)
      requires headways == Headways(timestamps)
      requires done <= timestamps.Keys && routeId in timestamps
      requires headwayGauge == gauge0 + Restrict(headways, done)
      requires stats0 == PartialStats(counts, headways, ratios, counts.Keys, done, {})
      modifies this`headwayGauge
      ensures headwayGauge == gauge0 + Restrict(headways, done + {routeId})
      ensures stats == PartialStats(counts, headways, ratios, counts.Keys, done + {routeId}, {})
    {
      var hw := Headway.EstimateHeadway(timestamps[routeId]);
      HeadwayAt(timestamps, routeId);
      AddHeadway(counts, headways, ratios, done, routeId);
      GaugeStep(gauge0, headways, done, routeId);
      headwayGauge := headwayGauge[routeId := hw];
      var entry := SetDefault(stats0, routeId);
      stats := stats0[routeId := entry.(headwaySeconds := Some(hw))];
    }

    /** One pass of the on-time loop, for route `routeId`. */
    method PublishRatio(
      counts: map<string, nat>, ghost doneHeadways: set<string>, onTime: map<string, OnTimeCount>,
      ghost headways: map<string, real>, ghost ratios: map<string, real>,
      stats0: map<string, RouteStats>, ghost gauge0: map<string, real>, ghost done: set<string>, routeId: string)
      returns (stats: map<string, RouteStats>)
      requires ratios == Ratios(onTime)
      requires doneHeadways <= headways.Keys && done <= onTime.Keys && routeId in onTime
      requires onTimeRatioGauge == gauge0 + Restrict(ratios, done)
      requires stats0 == PartialStats(counts, headways, ratios, counts.Keys, doneHeadways, done)
      modifies this`onTimeRatioGauge
      ensures onTimeRatioGauge == gauge0 + Restrict(ratios, done + {routeId})
      ensures stats == PartialStats(counts, headways, ratios, counts.Keys, doneHeadways, done + {routeId})
    {
      var c := onTime[routeId];
      var ratio := if c.total > 0 then c.ok as real / c.total as real else 0.0;
      RatioAt(onTime, routeId);
      AddRatio(counts, headways, ratios, doneHeadways, done, routeId);
      GaugeStep(gauge0, ratios, done, routeId);
      onTimeRatioGauge := onTimeRatioGauge[routeId := ratio];
      var entry := SetDefault(stats0, routeId);
      stats := stats0[routeId := entry.(onTimeRatio := Some(ratio))];
    }

    /** One cycle. The responses and durations stand for the network fetches
        of the two feeds; `routes` is the route list written to the log. */
    method PollCycle(vpResponse: Option<FeedMessage>, vpElapsed: real, tuResponse: Option<FeedMessage>, tuElapsed: real)
      returns (stats: map<string, RouteStats>, routes: seq<RouteRecord>)
      modifies this
      ensures stats == CycleStats(Fetched(vehiclePositionsUrl, vpResponse), Fetched(tripUpdatesUrl, tuResponse))
      ensures routes == SnapshotRoutes(stats)
      ensures vehicleCountGauge == old(vehicleCountGauge) + CycleCounts(Fetched(vehiclePositionsUrl, vpResponse))
      ensures headwayGauge == old(headwayGauge) + Headways(CycleTimestamps(Fetched(vehiclePositionsUrl, vpResponse)))
      ensures onTimeRatioGauge == old(onTimeRatioGauge) + Ratios(Tally(CycleSamples(Fetched(tripUpdatesUrl, tuResponse))))
      ensures arrivalDelayGauge == old(arrivalDelayGauge) + DelayTable(CycleSamples(Fetched(tripUpdatesUrl, tuResponse)))
      ensures eventsIngested == Ingested(Ingested(old(eventsIngested), "vehicle_positions",
        Fetched(vehiclePositionsUrl, vpResponse)), "trip_updates", Fetched(tripUpdatesUrl, tuResponse))
      ensures scrapeStatus == ScrapeStatusAfter(ScrapeStatusAfter(old(scrapeStatus),
        vehiclePositionsUrl, "vehicle_positions", vpResponse), tripUpdatesUrl, "trip_updates", tuResponse)
      ensures scrapeLatency == ScrapeLatencyAfter(ScrapeLatencyAfter(old(scrapeLatency),
        vehiclePositionsUrl, "vehicle_positions", vpElapsed), tripUpdatesUrl, "trip_updates", tuElapsed)
    {
      var timestamps, counts, onTime := IngestFeeds(vpResponse, vpElapsed, tuResponse, tuElapsed);
      stats := PublishStats(counts, timestamps, onTime);
      routes := SnapshotRoutes(stats);
    }

    /** Both halves of a cycle's ingestion, vehicle positions first. */
    method IngestFeeds(vpResponse: Option<FeedMessage>, vpElapsed: real, tuResponse: Option<FeedMessage>, tuElapsed: real)
      returns (timestamps: map<string, seq<int>>, counts: map<string, nat>, onTime: map<string, OnTimeCount>)
      modifies this`scrapeStatus, this`scrapeLatency, this`eventsIngested, this`arrivalDelayGauge
      ensures timestamps == CycleTimestamps(Fetched(vehiclePositionsUrl, vpResponse))
      ensures counts == CycleCounts(Fetched(vehiclePositionsUrl, vpResponse))
      ensures onTime == Tally(CycleSamples(Fetched(tripUpdatesUrl, tuResponse)))
      ensures arrivalDelayGauge == old(arrivalDelayGauge) + DelayTable(CycleSamples(Fetched(tripUpdatesUrl, tuResponse)))
      ensures eventsIngested == Ingested(Ingested(old(eventsIngested), "vehicle_positions",
        Fetched(vehiclePositionsUrl, vpResponse)), "trip_updates", Fetched(tripUpdatesUrl, tuResponse))
      ensures scrapeStatus == ScrapeStatusAfter(ScrapeStatusAfter(old(scrapeStatus),
        vehiclePositionsUrl, "vehicle_positions", vpResponse), tripUpdatesUrl, "trip_updates", tuResponse)
      ensures scrapeLatency == ScrapeLatencyAfter(ScrapeLatencyAfter(old(scrapeLatency),
        vehiclePositionsUrl, "vehicle_positions", vpElapsed), tripUpdatesUrl, "trip_updates", tuElapsed)
    {
      timestamps, counts := IngestVehiclePositions(vpResponse, vpElapsed);
      onTime := IngestTripUpdates(tuResponse, tuElapsed);
    }

    /** The three gauge loops of a cycle, which also assemble route_stats. */
    method PublishStats(counts: map<string, nat>, timestamps: map<string, seq<int>>, onTime: map<string, OnTimeCount>)
      returns (stats: map<string, RouteStats>)
      modifies this`vehicleCountGauge, this`headwayGauge, this`onTimeRatioGauge
      ensures stats == MergeStats(counts, timestamps, onTime)
      ensures vehicleCountGauge == old(vehicleCountGauge) + counts
      ensures headwayGauge == old(headwayGauge) + Headways(timestamps)
      ensures onTimeRatioGauge == old(onTimeRatioGauge) + Ratios(onTime)
    {
      stats := map[];
      stats := PublishVehicleCounts(counts, timestamps, onTime, stats);
      stats := PublishHeadways(counts, timestamps, onTime, stats);
      stats := PublishRatios(counts, timestamps, onTime, stats);
    }
  }

  /** ptla_scrape_status after one fetch of feed `feedName`. */
  function ScrapeStatusAfter(status: map<string, nat>, url: string, feedName: string, response: Option<FeedMessage>)
    : map<string, nat>
  {
    status[feedName := if url != "" && response.Some? then 1 else 0]
  }

  /** ptla_scrape_latency_seconds after one fetch of feed `feedName`. */
  function ScrapeLatencyAfter(latency: map<string, seq<real>>, url: string, feedName: string, elapsed: real)
    : map<string, seq<real>>
  {
    if url == "" then latency
    else latency[feedName := (if feedName in latency then latency[feedName] else []) + [elapsed]]
  }

  /** A fetch sets its feed's status to 1 exactly when a feed was obtained
      and to 0 for an empty endpoint or a failed fetch. An empty endpoint
      records no latency; any other fetch, successful or not, adds one
      observation to that feed. Other feeds are untouched. */
  lemma ScrapeMetricsAfterFetch(
    status: map<string, nat>, latency: map<string, seq<real>>,
    url: string, feedName: string, response: Option<FeedMessage>, elapsed: real)
    ensures var after := ScrapeStatusAfter(status, url, feedName, response);
      && after.Keys == status.Keys + {feedName}
      && (after[feedName] == 1 <==> Fetched(url, response).Some?)
      && (after[feedName] == 0 <==> Fetched(url, response).None?)
      && forall k :: k in status && k != feedName ==> after[k] == status[k]
    ensures url == "" ==> ScrapeLatencyAfter(latency, url, feedName, elapsed) == latency
    ensures var after := ScrapeLatencyAfter(latency, url, feedName, elapsed);
      url != "" ==>
      && after.Keys == latency.Keys + {feedName}
      && after[feedName] == (if feedName in latency then latency[feedName] else []) + [elapsed]
      && forall k :: k in latency && k != feedName ==> after[k] == latency[k]
  {
  }

  /** The ingestion counters after an available feed of type `kind` added
      its whole entity count, including entities the cycle then skips. */
  function Ingested(counters: map<string, nat>, kind: string, feed: Option<FeedMessage>): (after: map<string, nat>)
    ensures feed.None? ==> after == counters
    ensures feed.Some? ==>
      && after.Keys == counters.Keys + {kind}
      && after[kind] == (if kind in counters then counters[kind] else 0) + |feed.value.entities|
      && forall k :: k in counters && k != kind ==> after[k] == counters[k]
  {
    if feed.None? then counters
    else counters[kind := (if kind in counters then counters[kind] else 0) + |feed.value.entities|]
  }

  /** `route_stats.setdefault(r, {})`: the route's entry, or an entry with
      no statistics yet. */
  function SetDefault(stats: map<string, RouteStats>, r: string): RouteStats {
    if r in stats then stats[r] else RouteStats(None, None, None)
  }

  /** The entries of `m` whose keys are in `keys`. */
  function Restrict<V>(m: map<string, V>, keys: set<string>): map<string, V>
    requires keys <= m.Keys
  {
    map r | r in keys :: m[r]
  }

  /** Writing one more entry of `m` over a gauge that already holds the
      entries for `keys`. */
  lemma GaugeStep<V>(gauge0: map<string, V>, m: map<string, V>, keys: set<string>, r: string)
    requires keys <= m.Keys && r in m
    ensures gauge0 + Restrict(m, keys + {r}) == (gauge0 + Restrict(m, keys))[r := m[r]]
  {
    assert Restrict(m, keys + {r}) == Restrict(m, keys)[r := m[r]];
  }

  lemma RestrictAll<V>(m: map<string, V>)
    ensures Restrict(m, m.Keys) == m
  {
  }

  lemma AddVehicleCount(
    counts: map<string, nat>, headways: map<string, real>, ratios: map<string, real>,
    done: set<string>, r: string)
    requires done <= counts.Keys && r in counts
    ensures var before := PartialStats(counts, headways, ratios, done, {}, {});
      PartialStats(counts, headways, ratios, done + {r}, {}, {})
        == before[r := SetDefault(before, r).(vehicleCount := Some(counts[r]))]
  {
    var before := PartialStats(counts, headways, ratios, done, {}, {});
    var after := PartialStats(counts, headways, ratios, done + {r}, {}, {});
    var expected := before[r := SetDefault(before, r).(vehicleCount := Some(counts[r]))];
    assert after.Keys == expected.Keys;
    forall k | k in after ensures after[k] == expected[k] {
      if k != r {
        assert after[k] == before[k];
      }
    }
  }

  lemma AddHeadway(
    counts: map<string, nat>, headways: map<string, real>, ratios: map<string, real>,
    done: set<string>, r: string)
    requires done <= headways.Keys && r in headways
    ensures var before := PartialStats(counts, headways, ratios, counts.Keys, done, {});
      PartialStats(counts, headways, ratios, counts.Keys, done + {r}, {})
        == before[r := SetDefault(before, r).(headwaySeconds := Some(headways[r]))]
  {
    var before := PartialStats(counts, headways, ratios, counts.Keys, done, {});
    var after := PartialStats(counts, headways, ratios, counts.Keys, done + {r}, {});
    var expected := before[r := SetDefault(before, r).(headwaySeconds := Some(headways[r]))];
    assert after.Keys == expected.Keys;
    forall k | k in after ensures after[k] == expected[k] {
      if k != r {
        assert after[k] == before[k];
      }
    }
  }

  lemma AddRatio(
    counts: map<string, nat>, headways: map<string, real>, ratios: map<string, real>,
    doneHeadways: set<string>, done: set<string>, r: string)
    requires doneHeadways <= headways.Keys && done <= ratios.Keys && r in ratios
    ensures var before := PartialStats(counts, headways, ratios, counts.Keys, doneHeadways, done);
      PartialStats(counts, headways, ratios, counts.Keys, doneHeadways, done + {r})
        == before[r := SetDefault(before, r).(onTimeRatio := Some(ratios[r]))]
  {
    var before := PartialStats(counts, headways, ratios, counts.Keys, doneHeadways, done);
    var after := PartialStats(counts, headways, ratios, counts.Keys, doneHeadways, done + {r});
    var expected := before[r := SetDefault(before, r).(onTimeRatio := Some(ratios[r]))];
    assert after.Keys == expected.Keys;
    forall k | k in after ensures after[k] == expected[k] {
      if k != r {
        assert after[k] == before[k];
      }
    }
  }

  function MapValues<V>(m: map<string, V>, f: V -> real): (r: map<string, real>)
    ensures r.Keys == m.Keys
  {
    map k | k in m :: f(m[k])
  }

  /** Headway of every route with timestamps. */
  function Headways(timestamps: map<string, seq<int>>): (headways: map<string, real>)
    ensures headways.Keys == timestamps.Keys
  {
    MapValues(timestamps, Headway.EstimateHeadway)
  }

  lemma HeadwayAt(timestamps: map<string, seq<int>>, r: string)
    requires r in timestamps
    ensures Headways(timestamps)[r] == Headway.EstimateHeadway(timestamps[r])
  {
  }

  lemma RatioAt(onTime: map<string, OnTimeCount>, r: string)
    requires r in onTime
    ensures Ratios(onTime)[r] == Ratio(onTime[r])
    ensures Ratio(onTime[r]) == (if onTime[r].total > 0 then onTime[r].ok as real / onTime[r].total as real else 0.0)
  {
  }

  /** On-time ratio of every tallied route. */
  function Ratios(onTime: map<string, OnTimeCount>): (ratios: map<string, real>)
    ensures ratios.Keys == onTime.Keys
  {
    MapValues(onTime, Ratio)
  }

}
