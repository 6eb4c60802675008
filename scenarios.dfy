/** Worked examples of the cycle's rules on small concrete inputs. */
module Scenarios {
  import opened Wrappers
  import opened Gtfs
  import opened Sorting
  import opened Headway
  import opened Vehicles
  import opened OnTime
  import opened Snapshot
  import opened Cycle

  /** A sorted list is its own sorted copy. */
  lemma SortedIsFixed(s: seq<int>)
    requires Sorted(s)
    ensures SortAsc(s) == s
  {
    SortedUnique(SortAsc(s), s);
  }

  lemma OrderedTripleSorted(s: seq<int>)
    requires |s| == 3 && s[0] <= s[1] <= s[2]
    ensures Sorted(s)
  {
  }

  /** An ordered pair is its own sorted copy and has one gap. */
  lemma OrderedPairGaps(s: seq<int>)
    requires |s| == 2 && s[0] <= s[1]
    ensures SortAsc(s) == s
    ensures AdjacentDifferences(s) == [s[1] - s[0]]
  {
    SortedIsFixed(s);
    var g := AdjacentDifferences(s);
    assert |g| == 1 && g[0] == s[1] - s[0];
  }

  /** An ordered triple is its own sorted copy and has two gaps. */
  lemma OrderedTripleGaps(s: seq<int>)
    requires |s| == 3 && s[0] <= s[1] <= s[2]
    ensures SortAsc(s) == s
    ensures AdjacentDifferences(s) == [s[1] - s[0], s[2] - s[1]]
  {
    OrderedTripleSorted(s);
    SortedIsFixed(s);
    var g := AdjacentDifferences(s);
    assert |g| == 2 && g[0] == s[1] - s[0] && g[1] == s[2] - s[1];
  }

  /** Two values in descending order sort to the swapped pair. */
  lemma SwappedPairSorts(g: seq<int>)
    requires |g| == 2 && g[1] < g[0]
    ensures SortAsc(g) == [g[1], g[0]]
  {
    var t := [g[1], g[0]];
    assert g == [g[0], g[1]];
    assert multiset(g) == multiset(t);
    SortedUnique(SortAsc(g), t);
  }

  /** The median of two gaps is their mean, in whichever order they come. */
  lemma MedianOfTwo(g: seq<int>)
    requires |g| == 2
    ensures Median(SortAsc(g)) == (g[0] + g[1]) as real / 2.0
  {
    if g[0] <= g[1] {
      SortedIsFixed(g);
    } else {
      SwappedPairSorts(g);
    }
  }

  /** Fewer than two sightings give no headway. */
  lemma HeadwayOfFewerThanTwo()
    ensures EstimateHeadway([]) == 0.0 && EstimateHeadway([5]) == 0.0
  {
  }

  /** Two sightings in order: the headway is their distance. */
  lemma HeadwayOfOrderedPair(s: seq<int>)
    requires |s| == 2 && s[0] <= s[1]
    ensures EstimateHeadway(s) == (s[1] - s[0]) as real
  {
    EstimateIsMedianOfSortedGaps(s);
    OrderedPairGaps(s);
    SortedUnique(SortAsc([s[1] - s[0]]), [s[1] - s[0]]);
  }

  /** Two sightings: the headway is their distance, in either order. */
  lemma HeadwayOfPair(a: int, b: int)
    ensures EstimateHeadway([a, b]) == (if a <= b then b - a else a - b) as real
  {
    if a <= b {
      HeadwayOfOrderedPair([a, b]);
    } else {
      HeadwayOfOrderedPair([b, a]);
      assert multiset([a, b]) == multiset([b, a]);
      HeadwayPermutationInvariant([a, b], [b, a]);
    }
  }

  /** Three sightings in order: the two gaps always average to half the
      span, whichever of them is larger. */
  lemma HeadwayOfOrderedTriple(s: seq<int>)
    requires |s| == 3 && s[0] <= s[1] <= s[2]
    ensures EstimateHeadway(s) == (s[2] - s[0]) as real / 2.0
  {
    EstimateIsMedianOfSortedGaps(s);
    OrderedTripleGaps(s);
    MedianOfTwo([s[1] - s[0], s[2] - s[1]]);
  }

  /** Evenly spaced sightings: the headway is the common gap. */
  lemma EvenlySpacedExample()
    ensures EstimateHeadway([10, 20, 30]) == 10.0
  {
    HeadwayOfOrderedTriple([10, 20, 30]);
  }

  /** Gaps of 10 and 20: the median of an even count is their mean. */
  lemma UnevenGapsExample()
    ensures EstimateHeadway([10, 20, 40]) == 15.0
  {
    HeadwayOfOrderedTriple([10, 20, 40]);
  }

  /** A repeated timestamp keeps its zero gap. */
  lemma RepeatedTimestampExample()
    ensures EstimateHeadway([10, 10, 20]) == 5.0
  {
    HeadwayOfOrderedTriple([10, 10, 20]);
  }

  /** The same sightings out of order give the same headway. */
  lemma UnorderedExample()
    ensures EstimateHeadway([30, 10, 20]) == 10.0
  {
    EvenlySpacedExample();
    assert multiset([30, 10, 20]) == multiset([10, 20, 30]);
    HeadwayPermutationInvariant([30, 10, 20], [10, 20, 30]);
  }

  /** A decreasing pair is sorted before its gap is taken, so it yields its
      gap rather than no headway. */
  lemma DecreasingPairHasHeadway()
    ensures EstimateHeadway([20, 10]) == 10.0
  {
    HeadwayOfPair(20, 10);
  }

  /** With both delays present the arrival delay is the one recorded. */
  lemma ArrivalDelayPrecedence()
    ensures UpdateSamples("A", "t1", [StopTimeUpdate("s1", Some(10), Some(500))])
         == [DelaySample(DelayKey("A", "t1", "s1"), 10)]
  {
    var us := [StopTimeUpdate("s1", Some(10), Some(500))];
    assert us[..0] == [];
  }

  /** Delays 30, -45 and 120 on one route: two of three are on time. */
  lemma OnTimeExample()
    ensures var samples := [DelaySample(DelayKey("A", "t1", "s1"), 30),
                            DelaySample(DelayKey("A", "t1", "s2"), -45),
                            DelaySample(DelayKey("A", "t1", "s3"), 120)];
      Tally(samples) == map["A" := OnTimeCount(2, 3)]
      && Ratio(Tally(samples)["A"]) == 2.0 / 3.0
  {
    var samples := [DelaySample(DelayKey("A", "t1", "s1"), 30),
                    DelaySample(DelayKey("A", "t1", "s2"), -45),
                    DelaySample(DelayKey("A", "t1", "s3"), 120)];
    assert samples[..2][..1] == samples[..1];
    assert samples[..1][..0] == [];
    assert Tally(samples[..1]) == map["A" := OnTimeCount(1, 1)];
    assert Tally(samples[..2]) == map["A" := OnTimeCount(2, 2)];
  }

  /** A vehicle sighting on `route` at `timestamp`, with no trip id. */
  function Sighting(id: string, route: string, timestamp: nat): FeedEntity {
    FeedEntity(id, Some(VehiclePosition(Some(TripDescriptor(route, "")), timestamp)), None)
  }

  /** An entity that carries neither a vehicle nor a trip update. */
  function Bare(id: string): FeedEntity {
    FeedEntity(id, None, None)
  }

  /** One more sighting appends its timestamp to its route's list and adds
      one to its route's count. */
  lemma SightingStep(ents: seq<FeedEntity>, id: string, route: string, timestamp: nat)
    ensures var m := VehicleTimestamps(ents, None);
      VehicleTimestamps(ents + [Sighting(id, route, timestamp)], None)
        == m[route := (if route in m then m[route] else []) + [timestamp]]
    ensures var c := VehicleCounts(ents);
      VehicleCounts(ents + [Sighting(id, route, timestamp)])
        == c[route := (if route in c then c[route] else 0) + 1]
  {
    assert (ents + [Sighting(id, route, timestamp)])[..|ents|] == ents;
  }

  /** An entity without a vehicle changes neither accumulator. */
  lemma BareStep(ents: seq<FeedEntity>, id: string)
    ensures VehicleTimestamps(ents + [Bare(id)], None) == VehicleTimestamps(ents, None)
    ensures VehicleCounts(ents + [Bare(id)]) == VehicleCounts(ents)
  {
    assert (ents + [Bare(id)])[..|ents|] == ents;
  }

  /** A feed of five entities, two without a vehicle: the ingestion counter
      grows by five, the route counts by three. */
  lemma IngestionCountsEveryEntity()
    ensures var feed := FeedMessage(None, [
        Sighting("1", "A", 100), Bare("2"), Sighting("3", "A", 110), Bare("4"), Sighting("5", "B", 120)]);
      && Ingested(map[], "vehicle_positions", Some(feed))["vehicle_positions"] == 5
      && VehicleCounts(feed.entities) == map["A" := 2, "B" := 1]
  {
    var e1 := [] + [Sighting("1", "A", 100)];
    var e2 := e1 + [Bare("2")];
    var e3 := e2 + [Sighting("3", "A", 110)];
    var e4 := e3 + [Bare("4")];
    var e5 := e4 + [Sighting("5", "B", 120)];
    SightingStep([], "1", "A", 100);
    BareStep(e1, "2");
    SightingStep(e2, "3", "A", 110);
    BareStep(e3, "4");
    SightingStep(e4, "5", "B", 120);
    assert e5 == [Sighting("1", "A", 100), Bare("2"), Sighting("3", "A", 110), Bare("4"), Sighting("5", "B", 120)];
  }

  /** Two sightings on route "A" fifteen seconds apart: two vehicles and a
      15 s headway. */
  lemma TwoSightingsExample()
    ensures var ents := [Sighting("v1", "A", 1000), Sighting("v2", "A", 1015)];
      && VehicleTimestamps(ents, None) == map["A" := [1000, 1015]]
      && VehicleCounts(ents) == map["A" := 2]
  {
    var e1 := [] + [Sighting("v1", "A", 1000)];
    var e2 := e1 + [Sighting("v2", "A", 1015)];
    SightingStep([], "v1", "A", 1000);
    SightingStep(e1, "v2", "A", 1015);
    assert [] + [1000] == [1000] && [1000] + [1015] == [1000, 1015];
    assert e2 == [Sighting("v1", "A", 1000), Sighting("v2", "A", 1015)];
  }

  /** A feed of one entity yields that entity's samples. */
  lemma OneEntityFeed(e: FeedEntity)
    ensures FeedSamples([e]) == EntitySamples(e)
  {
    assert [e][..0] == [];
  }

  /** A single sample counts once, as on time when its delay is, and is the
      only entry of the delay table. */
  lemma OneSampleTally(s: DelaySample)
    ensures Tally([s]) == map[s.key.routeId := OnTimeCount(if IsOnTime(s.delay) then 1 else 0, 1)]
    ensures DelayTable([s]) == map[s.key := s.delay]
  {
    assert [s][..0] == [];
  }

  /** One trip update with arrival delay 30 yields one on-time sample
      recorded under (A, t1, s1). */
  lemma OneDelayExample()
    ensures var ents := [FeedEntity("e1", None,
        Some(TripUpdate(Some(TripDescriptor("A", "t1")), [StopTimeUpdate("s1", Some(30), None)])))];
      && FeedSamples(ents) == [DelaySample(DelayKey("A", "t1", "s1"), 30)]
      && Tally(FeedSamples(ents)) == map["A" := OnTimeCount(1, 1)]
      && DelayTable(FeedSamples(ents)) == map[DelayKey("A", "t1", "s1") := 30]
  {
    var us := [StopTimeUpdate("s1", Some(30), None)];
    assert us[..0] == [];
    var sample := DelaySample(DelayKey("A", "t1", "s1"), 30);
    assert UpdateSamples("A", "t1", us) == [sample];
    OneEntityFeed(FeedEntity("e1", None, Some(TripUpdate(Some(TripDescriptor("A", "t1")), us))));
    OneSampleTally(sample);
  }

  /** A cycle in which every accumulator holds only route `r` reports just
      that route, with all three statistics. */
  lemma MergeOfOneRoute(r: string, n: nat, timestamps: seq<int>, onTime: OnTimeCount)
    ensures MergeStats(map[r := n], map[r := timestamps], map[r := onTime])
      == map[r := RouteStats(Some(n), Some(EstimateHeadway(timestamps)), Some(Ratio(onTime)))]
  {
    HeadwayAt(map[r := timestamps], r);
    RatioAt(map[r := onTime], r);
  }

  /** Two sightings on route "A" fifteen seconds apart and one trip update
      with arrival delay 30: the cycle reports two vehicles, a 15 s headway
      and an on-time ratio of 1 for route "A", and nothing else; the delay
      gauge gets 30 under (A, t1, s1). */
  lemma EndToEndExample()
    ensures var vp := FeedMessage(None, [Sighting("v1", "A", 1000), Sighting("v2", "A", 1015)]);
      var tu := FeedMessage(None, [FeedEntity("e1", None,
        Some(TripUpdate(Some(TripDescriptor("A", "t1")), [StopTimeUpdate("s1", Some(30), None)])))]);
      && CycleStats(Some(vp), Some(tu)) == map["A" := RouteStats(Some(2), Some(15.0), Some(1.0))]
      && DelayTable(CycleSamples(Some(tu))) == map[DelayKey("A", "t1", "s1") := 30]
  {
    TwoSightingsExample();
    OneDelayExample();
    HeadwayOfOrderedPair([1000, 1015]);
    MergeOfOneRoute("A", 2, [1000, 1015], OnTimeCount(1, 1));
  }
}
