# Public Transport Live Arrivals: the polling cycle, modelled in Dafny

This model covers the analytical core of the service in `app/main.py`. One
polling cycle does the following:

- It fetches a GTFS-Realtime vehicle-positions feed and a trip-updates feed.
- It counts the entities of each feed into `ptla_events_ingested_total`.
- It collects each route's vehicle timestamps and vehicle count.
- It records every stop-time delay under its (route, trip, stop) key, and
  tallies per route how many delays were within 60 seconds.
- It writes the per-route gauges (vehicle count, headway, on-time ratio)
  and assembles `route_stats`.
- It logs a snapshot that lists the routes in ascending id order.

The headway estimator is the median of the non-negative gaps between sorted
sighting times.

Modules:

- `Wrappers`: `Option`.
- `Gtfs`: the feed messages the cycle reads, and the field-level rules for
  route id, trip id, effective timestamp and delay.
- `Sorting`: an insertion sort standing in for Python's `sorted`, with
  uniqueness of sorted permutations.
- `Headway`: `_estimate_headway_seconds`, with an independent counting
  characterisation of the median.
- `Vehicles`: the vehicle loop. `AggregateVehicles` is proved against a
  left fold, and the fold is related to a per-route reference definition.
- `OnTime`: the trip-update loops. `AccumulateTripUpdates` and
  `AccumulateStopTimeUpdates` are proved against the fold of the delay
  samples. Per-route reference counts, last-write-wins and the ratio bounds
  are proved as lemmas.
- `Snapshot`: Python's string order, the ascending route list, and the
  snapshot records with their defaults.
- `Cycle`: the metrics as the fields of class `Poller`, and the fetch with
  its empty-endpoint path. It also holds the three gauge loops, each proved
  against a partial `route_stats` invariant, and one whole cycle
  (`PollCycle`) with its complete end state.
- `Scenarios`: the documented examples, worked out on concrete feeds.

The `b >= a` filter at `app/main.py:122` suggests that a decreasing pair of
timestamps is dropped. The code sorts the timestamps first
(`app/main.py:121`), so `[20, 10]` becomes `[10, 20]` and gives a headway of
10.0. On sorted input the filter never discards anything
(`Headway.ForwardGapsOfSorted`), and `Scenarios.DecreasingPairHasHeadway`
proves the 10.0.

## Model

| member | source | states |
|---|---|---|
| Gtfs.RouteOf | app/main.py:174 | the trip's route id when a trip descriptor is present, "" when it is absent |
| Gtfs.TripIdOf | app/main.py:195 | the descriptor's trip id when it is set, otherwise the id of the entity carrying the update |
| Gtfs.EffectiveTimestamp | app/main.py:175-179 | the vehicle's own timestamp when non-zero, else the header timestamp, else 0 |
| Gtfs.DelayOf | app/main.py:198-202 | arrival delay takes precedence over departure delay; no delay exactly when neither is present |
| Sorting.SortAsc | app/main.py:121 | the result is sorted, has the input's length and is a permutation of it |
| Sorting.SortedUnique | app/main.py:121 | two sorted lists with the same elements are equal, so `sorted` has exactly one result |
| Sorting.SortAscPermutationInvariant | app/main.py:121 | sorting two permutations of each other gives the same list |
| Headway.ForwardGaps | app/main.py:122 | every kept difference is non-negative, and there are at most n-1 of them |
| Headway.Median | app/main.py:126-129 | the odd/even rule on a sorted list; that it is the statistical median is `Headway.MedianOfSorted` and `Headway.MedianConditionsUnique` |
| Headway.EstimateHeadway | app/main.py:118-129 | fewer than two timestamps give 0.0; the estimate is never negative |
| Headway.MedianOfGapsNonNegative | app/main.py:125-129 | the median of non-negative gaps is non-negative |
| Headway.ForwardGapsOfSorted | app/main.py:121-122 | on sorted timestamps the `b >= a` filter keeps all n-1 neighbour differences |
| Headway.HeadwayPermutationInvariant | app/main.py:118-121 | the estimate depends only on the multiset of timestamps, not on their order |
| Headway.EstimateIsMedianOfSortedGaps | app/main.py:121-129 | for two or more timestamps the estimate is the odd/even median of the sorted neighbour differences |
| Headway.CountsOfSortAsc | app/main.py:125 | sorting preserves how many elements lie at most, and at least, any threshold |
| Headway.MedianOfSorted | app/main.py:126-129 | the middle element, or the two middle elements, of a sorted list satisfy the counting definition of the median, and the even case is their mean |
| Headway.MedianOfSortedCopy | app/main.py:125-129 | the median of the sorted copy satisfies the counting definition for the unsorted list |
| Headway.HeadwayIsMedianOfGaps | app/main.py:118-129 | for two or more timestamps there are n-1 gaps; the estimate is their statistical median (odd count: the counting median; even count: the mean of the lower and upper medians) |
| Headway.MedianConditionsUnique | app/main.py:125-129 | at most one value satisfies each of the odd, lower and upper median conditions, so the characterisation determines the estimate |
| Vehicles.AggregateVehicles | app/main.py:170-181 | the loop yields the fold of timestamps and counts over the entities; both maps have the same routes; each count is the length of the list; each list is the route's reference timestamps |
| Vehicles.VehicleTimestamps | app/main.py:180 | the loop's timestamp lists after each entity; per route it is the reference list (`Vehicles.VehicleTimestampsPerRoute`) |
| Vehicles.VehicleCounts | app/main.py:181 | the loop's counts after each entity; each is the length of its route's list (`Vehicles.VehicleCountsMatchTimestamps`) |
| Vehicles.VehicleTimestampsPerRoute | app/main.py:170-180 | a route has a list exactly when some entity sighted a vehicle on it; the list holds that route's sightings' timestamps in entity order |
| Vehicles.VehicleTimestampsMatchReference | app/main.py:180 | the appending fold agrees route by route with the front-recursive reference definition |
| Vehicles.RouteTimestampsNonEmptyIffSighted | app/main.py:171-180 | a route's reference list is non-empty exactly when some entity carries a vehicle on that route |
| Vehicles.RouteTimestampsAppend | app/main.py:170-180 | the timestamps of a concatenated entity list are the concatenation of the timestamps |
| Vehicles.VehicleCountsMatchTimestamps | app/main.py:180-181 | counts and timestamp lists have the same routes, and each count equals its list's length |
| Vehicles.RouteTimestampsPermutation | app/main.py:170-180 | reordering the entities reorders each route's timestamps as a multiset and nothing more |
| Vehicles.HeadwayIndependentOfEntityOrder | app/main.py:170-180 | a route's headway does not depend on the order of the feed's entities |
| OnTime.AccumulateStopTimeUpdates | app/main.py:196-213 | the stop-time-update loop extends the delay table and the tally by exactly the samples of this trip update |
| OnTime.AccumulateTripUpdates | app/main.py:190-213 | the trip-update loop yields the delay table and the tally of the feed's samples, and every tallied route has 1 <= total and ok <= total |
| OnTime.UpdateSamples | app/main.py:196-204 | the delay samples of one trip update in order, skipping updates without a delay (`OnTime.StopTimeUpdateStep`, `Scenarios.ArrivalDelayPrecedence`) |
| OnTime.EntitySamples | app/main.py:191-195 | an entity contributes samples only when it carries a trip update, under its route and trip id |
| OnTime.FeedSamples | app/main.py:190-204 | the samples of a feed in the order the cycle meets them (`OnTime.AccumulateTripUpdates`) |
| OnTime.DelayTable | app/main.py:205-207 | the delay per (route, trip, stop) after writing the samples in order; see `OnTime.LastWriteWins` |
| OnTime.Tally | app/main.py:209-213 | the per-route (on-time, total) pair; see `OnTime.TallyCounts` and `OnTime.TallyWellFormed` |
| OnTime.Ratio | app/main.py:228 | ok / total, or 0.0 when nothing was counted; see `OnTime.RatioBounds` |
| OnTime.StopTimeUpdateStep | app/main.py:197-213 | an update without a delay changes nothing; one with a delay writes its key and adds one to its route's total, and one to ok when \|delay\| <= 60 |
| OnTime.TallyCounts | app/main.py:209-213 | a route is tallied exactly when it has a sample; its pair is (on-time samples, all samples) |
| OnTime.OnTimeAtMostTotal | app/main.py:209-213 | on-time samples never exceed samples; they are equal exactly when every sample of the route is on time |
| OnTime.TallyWellFormed | app/main.py:209-213 | every tallied pair has total >= 1 and ok <= total |
| OnTime.RatioBounds | app/main.py:228 | the ratio lies in [0, 1]; it is 1 exactly when all counted samples are on time; it is 0 exactly when none is |
| OnTime.RatioOneIffAllOnTime | app/main.py:209-228 | a route's ratio is 1 exactly when all of its delays are within 60 seconds |
| OnTime.LastWriteWins | app/main.py:205-207 | a key is in the delay table exactly when some sample carries it, and it holds the delay of the last such sample |
| Snapshot.StrLessIrreflexive | app/main.py:145 | no route id sorts before itself |
| Snapshot.StrLessAsymmetric | app/main.py:145 | string order is asymmetric |
| Snapshot.StrLessTransitive | app/main.py:145 | string order is transitive |
| Snapshot.StrLessTotal | app/main.py:145 | any two distinct route ids are ordered |
| Snapshot.LeastExists | app/main.py:145 | every non-empty set of route ids has a least element |
| Snapshot.SortedIds | app/main.py:145 | the route ids in strictly ascending order, each exactly once, and no others |
| Snapshot.LeastFirst | app/main.py:145 | the least id followed by the ordered remaining ids orders the whole set |
| Snapshot.RecordOf | app/main.py:139-144 | one snapshot record with defaults 0 / 0.0 / 0.0; see `Snapshot.SnapshotRoutes` |
| Snapshot.SnapshotRoutes | app/main.py:138-146 | one record per route, following the ascending ids, with each statistic or its default 0 / 0.0 / 0.0 |
| Snapshot.SnapshotListsEachRouteOnce | app/main.py:138-146 | the snapshot lists every route of route_stats exactly once, in strictly ascending order |
| Cycle.Fetched | app/main.py:99-115 | an empty endpoint yields no feed whatever the network would say; otherwise the fetch's outcome |
| Cycle.MergeStats | app/main.py:216-230 | route_stats has exactly the routes of the three accumulators, and each statistic is present exactly when its own accumulator has the route |
| Cycle.PartialStats | app/main.py:216-230 | route_stats after the loops have visited the given routes; the gauge loops keep it as their invariant |
| Cycle.CycleStats | app/main.py:159-230 | route_stats of a cycle that received the two feeds; see `Cycle.CycleStatsProperties` |
| Cycle.SetDefault | app/main.py:220 | `route_stats.setdefault(route_id, {})`: the route's entry or an empty one (also lines 225 and 230) |
| Cycle.CycleStatsProperties | app/main.py:159-230 | a route is reported exactly when a vehicle was sighted on it or a delay sample names it; its count and headway are present together; the count is its number of sightings (>= 1); the headway is >= 0; the ratio is in [0, 1] |
| Cycle.EmptyCycle | app/main.py:159-161 | with neither feed available the cycle reports no routes and logs an empty route list |
| Cycle.Ingested | app/main.py:169 | an available feed adds its whole entity count, including skipped entities, to its type's counter and leaves the others alone |
| Cycle.ScrapeStatusAfter | app/main.py:99-115 | ptla_scrape_status after one fetch; see `Cycle.ScrapeMetricsAfterFetch` |
| Cycle.ScrapeLatencyAfter | app/main.py:103-115 | ptla_scrape_latency_seconds after one fetch; see `Cycle.ScrapeMetricsAfterFetch` |
| Cycle.ScrapeMetricsAfterFetch | app/main.py:99-115 | the feed's status becomes 1 exactly when a feed was obtained and 0 for an empty endpoint or a failed fetch; an empty endpoint records no latency, any other fetch adds one observation; other feeds are untouched |
| Cycle.Headways | app/main.py:222-223 | a headway for exactly the routes with timestamps |
| Cycle.HeadwayAt | app/main.py:223 | each route's headway is the estimate of its timestamps |
| Cycle.Ratios | app/main.py:227-228 | a ratio for exactly the tallied routes |
| Cycle.RatioAt | app/main.py:228 | each route's ratio is ok / total, or 0.0 when total is 0 |
| Cycle.AddVehicleCount | app/main.py:218-220 | one pass of the count loop sets that route's count and keeps everything else in route_stats |
| Cycle.AddHeadway | app/main.py:222-225 | one pass of the headway loop sets that route's headway and keeps everything else |
| Cycle.AddRatio | app/main.py:227-230 | one pass of the ratio loop sets that route's ratio and keeps everything else |
| Cycle.GaugeStep | app/main.py:219 | setting one more route's gauge extends the written gauges by that route |
| Cycle.Poller.constructor | app/main.py:36-84 | every metric starts with no series |
| Cycle.Poller.FetchFeed | app/main.py:99-115 | an empty endpoint sets the feed's status to 0, records no latency and returns nothing; otherwise the status is 1 or 0 by outcome, one latency observation is added, and the outcome is returned |
| Cycle.Poller.IncIngested | app/main.py:169 | adds n to the counter of one feed type and changes no other |
| Cycle.Poller.IngestVehiclePositions | app/main.py:164-181 | the cycle's vehicle timestamps and counts, the ingestion counter, and the feed's scrape status and latency, for the fetched feed (empty accumulators when it is unavailable) |
| Cycle.Poller.RecordVehiclePositions | app/main.py:168-181 | an available feed's entity count is added to the counter, and its vehicles are aggregated |
| Cycle.Poller.IngestTripUpdates | app/main.py:184-213 | the cycle's tally, the delays written over the delay gauge, the ingestion counter, and the feed's scrape status and latency, for the fetched feed |
| Cycle.Poller.RecordTripUpdates | app/main.py:188-213 | an available feed's entity count is added, its delay table overrides the gauge, and its tally is returned |
| Cycle.Poller.IngestFeeds | app/main.py:164-213 | both fetches in order: the accumulators, the delay gauge, both ingestion counters, and both feeds' scrape status and latency |
| Cycle.Poller.PublishVehicleCounts | app/main.py:218-220 | every counted route's gauge is set to its count, and route_stats gains those counts |
| Cycle.Poller.PublishHeadways | app/main.py:222-225 | every route with timestamps gets its headway in the gauge and in route_stats |
| Cycle.Poller.PublishRatios | app/main.py:227-230 | every tallied route gets its ratio in the gauge; route_stats becomes the merged statistics |
| Cycle.Poller.PublishVehicleCount | app/main.py:219-220 | one route's count is written to the gauge and to its entry |
| Cycle.Poller.PublishHeadway | app/main.py:223-225 | one route's estimated headway is written to the gauge and to its entry |
| Cycle.Poller.PublishRatio | app/main.py:228-230 | one route's ratio is written to the gauge and to its entry |
| Cycle.Poller.PublishStats | app/main.py:216-230 | route_stats is the merge of the accumulators, and each gauge is overridden by its per-route values |
| Cycle.Poller.PollCycle | app/main.py:159-232 | route_stats and the logged route list are those of the fetched feeds; the per-route gauges are overridden and the delay gauge is written by this cycle's values; both feeds' scrape status and latency follow their fetches; the ingestion counters grow by both feeds' entity counts |
| Scenarios.HeadwayOfFewerThanTwo | app/main.py:119-120 | `[]` and `[5]` give 0.0 |
| Scenarios.HeadwayOfOrderedPair | app/main.py:118-129 | two ordered timestamps give their distance |
| Scenarios.HeadwayOfPair | app/main.py:121-129 | two timestamps give their distance, in either order |
| Scenarios.MedianOfTwo | app/main.py:125-129 | the median of two gaps is their mean, in either order |
| Scenarios.HeadwayOfOrderedTriple | app/main.py:121-129 | three ordered timestamps give half their span |
| Scenarios.EvenlySpacedExample | app/main.py:118-129 | `[10, 20, 30]` gives 10.0 |
| Scenarios.UnevenGapsExample | app/main.py:118-129 | `[10, 20, 40]` gives 15.0 |
| Scenarios.RepeatedTimestampExample | app/main.py:118-129 | `[10, 10, 20]` gives 5.0: the zero gap is kept |
| Scenarios.UnorderedExample | app/main.py:118-129 | `[30, 10, 20]` gives 10.0 |
| Scenarios.DecreasingPairHasHeadway | app/main.py:121-122 | `[20, 10]` gives 10.0, not 0.0 |
| Scenarios.ArrivalDelayPrecedence | app/main.py:199-202 | with arrival delay 10 and departure delay 500 the recorded delay is 10 |
| Scenarios.OnTimeExample | app/main.py:209-228 | delays 30, -45 and 120 tally as (2, 3), ratio 2/3 |
| Scenarios.SightingStep | app/main.py:174-181 | one more sighting on any route, the empty one included, appends its timestamp and adds one to its route's count |
| Scenarios.BareStep | app/main.py:171-172 | an entity without a vehicle changes neither map |
| Scenarios.IngestionCountsEveryEntity | app/main.py:169-181 | five entities, two without a vehicle: the counter grows by 5, the counts are A: 2, B: 1 |
| Scenarios.TwoSightingsExample | app/main.py:170-181 | two sightings on A at 1000 and 1015 give A: [1000, 1015] and count 2 |
| Scenarios.OneEntityFeed | app/main.py:190 | a one-entity feed's samples are that entity's |
| Scenarios.OneSampleTally | app/main.py:205-213 | one sample tallies as (1 or 0, 1) for its route and is the only entry of the delay table |
| Scenarios.OneDelayExample | app/main.py:190-213 | one update with arrival delay 30 gives one sample under (A, t1, s1), tallied (1, 1), and the delay table (A, t1, s1) = 30 |
| Scenarios.MergeOfOneRoute | app/main.py:216-230 | accumulators holding one route give route_stats with just that route and all three statistics |
| Scenarios.EndToEndExample | app/main.py:159-230 | two sightings 15 s apart and one on-time delay give A: count 2, headway 15.0, ratio 1.0, no other route, and the delay gauge entry (A, t1, s1) = 30 |

## Left out

- The network request, timeout, HTTP status check and protobuf decoding of
  `_fetch_feed` (`app/main.py:103-108`) are not modelled. The outcome is the
  parameter `response` (None for any failure) and the measured duration is
  the parameter `elapsed`. The clock (`now_ts`) is not modelled.
- Protobuf field presence: a message field that is present, or a set
  scalar, is an `Option` or a non-zero value, following the code's own
  branches. Python protobuf returns defaults for unset fields. The truth
  value of an unset sub-message is a library rule and is not modelled.
- `scrape_latency` is a histogram with buckets. The model keeps the list of
  observations per feed; bucketing is a library concern.
- The gauges' constant `agency` and `city` labels are dropped. The gauges
  are keyed by route id, or by (route, trip, stop) for the delay gauge.
- Cycle.Poller.RecordTripUpdates: the delay gauge is set once per sample in
  the source. The model writes the cycle's last-write-wins delay table over
  the gauge in one step. The final state is the same; intermediate states
  are not modelled.
- `vehicle_count` in route_stats is a float in the source (`float(count)`).
  The model keeps it as a natural number of the same value.
- Dictionary iteration order is not modelled. The gauge loops pick routes in
  an arbitrary order, and their proved end state does not depend on it.
- `last_vehicle_positions_fetch`, `last_trip_updates_fetch` and
  `state_lock` (`app/main.py:166-167`, `186-187`) only serve the health
  endpoint, which is not part of this model.
- The endless loop, `time.sleep(POLL_SECONDS)`, the background thread, the
  FastAPI endpoints and the configuration read from the environment are not
  modelled. `PollCycle` models one iteration of the loop body.
- The snapshot's `@timestamp`, `type`, `agency` and `city` fields, the JSON
  encoding, the logger and the swallowed logging exception
  (`app/main.py:133-137`, `148-152`) are not modelled. Only the `routes`
  list is.
- Integer widths: timestamps are unbounded naturals (uint64 in GTFS-RT) and
  delays unbounded integers (int32). No arithmetic here can overflow in
  Python. Headways and ratios are exact reals, not floating point.
