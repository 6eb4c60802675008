/** Trip-update half of one polling cycle (app/main.py:188-213): every
    stop-time update that carries a delay is written to the delay table
    under (route, trip, stop), last write winning, and counted towards its
    route's on-time tally. */
module OnTime {
  import opened Wrappers
  import opened Gtfs

  /** Label set of the delay gauge, less the constant agency and city. */
  datatype DelayKey = DelayKey(routeId: string, tripId: string, stopId: string)

  /** One delay-bearing stop-time update. */
  datatype DelaySample = DelaySample(key: DelayKey, delay: int)

  /** The (on-time, total) pair kept per route. */
  datatype OnTimeCount = OnTimeCount(ok: nat, total: nat)

  /** A sample is on time when its delay is within this many seconds. */
  const OnTimeToleranceSeconds: nat := 60

  function Abs(x: int): nat {
    if x < 0 then -x else x
  }

  predicate IsOnTime(delay: int) {
    Abs(delay) <= OnTimeToleranceSeconds
  }

  /** Samples of the stop-time updates `us` of one trip update, in order;
      updates with neither an arrival nor a departure delay give none. */
  function UpdateSamples(route: string, trip: string, us: seq<StopTimeUpdate>): seq<DelaySample>
  {
    if us == [] then []
    else
      var u := us[|us| - 1];
      UpdateSamples(route, trip, us[..|us| - 1]) +
      match DelayOf(u)
      case None => []
      case Some(d) => [DelaySample(DelayKey(route, trip, u.stopId), d)]
  }

  /** Samples of one entity: none unless it carries a trip update. */
  function EntitySamples(e: FeedEntity): seq<DelaySample>
  {
    match e.tripUpdate
    case None => []
    case Some(tu) => UpdateSamples(RouteOf(tu.trip), TripIdOf(tu.trip, e.id), tu.stopTimeUpdates)
  }

  /** Samples of a trip-updates feed, in the order the cycle meets them. */
  function FeedSamples(ents: seq<FeedEntity>): seq<DelaySample>
  {
    if ents == [] then []
    else FeedSamples(ents[..|ents| - 1]) + EntitySamples(ents[|ents| - 1])
  }

  /** Delay per (route, trip, stop) after writing the samples in order. */
  function DelayTable(samples: seq<DelaySample>): map<DelayKey, int>
  {
    if samples == [] then map[]
    else
      var s := samples[|samples| - 1];
      DelayTable(samples[..|samples| - 1])[s.key := s.delay]
  }

  /** Per-route (on-time, total) after counting the samples in order. */
  function Tally(samples: seq<DelaySample>): map<string, OnTimeCount>
  {
    if samples == [] then map[]
    else
      var m := Tally(samples[..|samples| - 1]);
      var s := samples[|samples| - 1];
      var r := s.key.routeId;
      var c := if r in m then m[r] else OnTimeCount(0, 0);
      m[r := OnTimeCount(if IsOnTime(s.delay) then c.ok + 1 else c.ok, c.total + 1)]
  }

  /** On-time ratio of a tally, 0 when nothing was counted. */
  function Ratio(c: OnTimeCount): real
  {
    if c.total > 0 then c.ok as real / c.total as real else 0.0
  }

  /** Reference count: samples of route `r`. */
  function SampleCount(samples: seq<DelaySample>, r: string): nat
  {
    if samples == [] then 0
    else SampleCount(samples[1..], r) + (if samples[0].key.routeId == r then 1 else 0)
  }

  /** Reference count: on-time samples of route `r`. */
  function OnTimeSampleCount(samples: seq<DelaySample>, r: string): nat
  {
    if samples == [] then 0
    else
      OnTimeSampleCount(samples[1..], r)
      + (if samples[0].key.routeId == r && IsOnTime(samples[0].delay) then 1 else 0)
  }

  lemma {:induction false} CountsAppend(samples: seq<DelaySample>, s: DelaySample, r: string)
    ensures SampleCount(samples + [s], r) == SampleCount(samples, r) + (if s.key.routeId == r then 1 else 0)
    ensures OnTimeSampleCount(samples + [s], r)
         == OnTimeSampleCount(samples, r) + (if s.key.routeId == r && IsOnTime(s.delay) then 1 else 0)
  {
    if samples == [] {
      assert [] + [s] == [s];
    } else {
      assert (samples + [s])[1..] == samples[1..] + [s];
      CountsAppend(samples[1..], s, r);
    }
  }

  /** A route is tallied exactly when it has at least one sample; its pair
      is (its on-time samples, all its samples). */
  lemma {:induction false} TallyCounts(samples: seq<DelaySample>, r: string)
    ensures r in Tally(samples) <==> SampleCount(samples, r) > 0
    ensures r in Tally(samples) ==>
      Tally(samples)[r] == OnTimeCount(OnTimeSampleCount(samples, r), SampleCount(samples, r))
  {
    if samples != [] {
      var n := |samples| - 1;
      assert samples == samples[..n] + [samples[n]];
      var prefix, last := samples[..n], samples[n];
      TallyCounts(prefix, r);
      CountsAppend(prefix, last, r);
      OnTimeAtMostTotal(prefix, r);
      if last.key.routeId == r {
        var c := if r in Tally(prefix) then Tally(prefix)[r] else OnTimeCount(0, 0);
        assert c == OnTimeCount(OnTimeSampleCount(prefix, r), SampleCount(prefix, r));
        assert Tally(samples)[r] == OnTimeCount(if IsOnTime(last.delay) then c.ok + 1 else c.ok, c.total + 1);
      } else if r in Tally(prefix) {
        assert Tally(samples)[r] == Tally(prefix)[r];
      }
    }
  }

  lemma {:induction false} OnTimeAtMostTotal(samples: seq<DelaySample>, r: string)
    ensures OnTimeSampleCount(samples, r) <= SampleCount(samples, r)
    ensures OnTimeSampleCount(samples, r) == SampleCount(samples, r) <==>
      forall i :: 0 <= i < |samples| && samples[i].key.routeId == r ==> IsOnTime(samples[i].delay)
  {
    if samples != [] {
      OnTimeAtMostTotal(samples[1..], r);
      assert forall i :: 1 <= i < |samples| ==> samples[i] == samples[1..][i - 1];
    }
  }

  /** Every tallied route has counted at least one sample, and never more
      on-time samples than samples. */
  lemma TallyWellFormed(samples: seq<DelaySample>)
    ensures forall r :: r in Tally(samples) ==>
      1 <= Tally(samples)[r].total && Tally(samples)[r].ok <= Tally(samples)[r].total
  {
    forall r | r in Tally(samples)
      ensures 1 <= Tally(samples)[r].total && Tally(samples)[r].ok <= Tally(samples)[r].total
    {
      TallyCounts(samples, r);
      OnTimeAtMostTotal(samples, r);
    }
  }

  /** The ratio of a well-formed tally is a fraction in [0, 1]; it is 1
      exactly when every counted sample was on time, and 0 exactly when none
      was (or nothing was counted). */
  lemma RatioBounds(c: OnTimeCount)
    requires c.ok <= c.total
    ensures 0.0 <= Ratio(c) <= 1.0
    ensures Ratio(c) == 1.0 <==> c.total > 0 && c.ok == c.total
    ensures Ratio(c) == 0.0 <==> c.ok == 0
  {
    if c.total > 0 {
      var t := c.total as real;
      assert Ratio(c) * t == c.ok as real;
    }
  }

  /** A route's on-time ratio is 1 exactly when all of its delay samples
      are within the tolerance. */
  lemma RatioOneIffAllOnTime(samples: seq<DelaySample>, r: string)
    requires r in Tally(samples)
    ensures Ratio(Tally(samples)[r]) == 1.0 <==>
      forall i :: 0 <= i < |samples| && samples[i].key.routeId == r ==> IsOnTime(samples[i].delay)
  {
    TallyCounts(samples, r);
    OnTimeAtMostTotal(samples, r);
    RatioBounds(Tally(samples)[r]);
  }

  /** Last write wins: a key is in the delay table exactly when some sample
      carries it, and then it holds the delay of the last such sample. */
  lemma {:induction false} LastWriteWins(samples: seq<DelaySample>, k: DelayKey)
    ensures k in DelayTable(samples) <==> exists i :: 0 <= i < |samples| && samples[i].key == k
    ensures k in DelayTable(samples) ==>
      exists i :: 0 <= i < |samples| && samples[i].key == k && DelayTable(samples)[k] == samples[i].delay
        && forall j :: i < j < |samples| ==> samples[j].key != k
  {
    if samples != [] {
      var n := |samples| - 1;
      var prefix := samples[..n];
      LastWriteWins(prefix, k);
      if samples[n].key == k {
        assert samples[n].key == k && DelayTable(samples)[k] == samples[n].delay;
      } else {
        if k in DelayTable(prefix) {
          assert DelayTable(samples)[k] == DelayTable(prefix)[k];
          var i :| 0 <= i < |prefix| && prefix[i].key == k && DelayTable(prefix)[k] == prefix[i].delay
            && forall j :: i < j < |prefix| ==> prefix[j].key != k;
          assert samples[i] == prefix[i];
          assert forall j :: i < j < |samples| ==> samples[j].key != k by {
            forall j | i < j < |samples| ensures samples[j].key != k {
              if j < n { assert samples[j] == prefix[j]; }
            }
          }
        }
        if exists i :: 0 <= i < |samples| && samples[i].key == k {
          var i :| 0 <= i < |samples| && samples[i].key == k;
          assert i < n && prefix[i] == samples[i];
        }
      }
    }
  }

  lemma AppendStep(samples: seq<DelaySample>, s: DelaySample)
    ensures DelayTable(samples + [s]) == DelayTable(samples)[s.key := s.delay]
    ensures var m := Tally(samples);
      var c := if s.key.routeId in m then m[s.key.routeId] else OnTimeCount(0, 0);
      Tally(samples + [s]) == m[s.key.routeId := OnTimeCount(if IsOnTime(s.delay) then c.ok + 1 else c.ok, c.total + 1)]
  {
    assert (samples + [s])[..|samples|] == samples;
  }

  /** What processing stop-time update `j` does to the table and tally of
      everything met before it. */
  lemma StopTimeUpdateStep(route: string, trip: string, us: seq<StopTimeUpdate>, j: nat, done: seq<DelaySample>)
    requires j < |us|
    ensures var before := done + UpdateSamples(route, trip, us[..j]);
      var after := done + UpdateSamples(route, trip, us[..j + 1]);
      match DelayOf(us[j])
      case None => after == before
      case Some(d) =>
        var m := Tally(before);
        var c := if route in m then m[route] else OnTimeCount(0, 0);
        && DelayTable(after) == DelayTable(before)[DelayKey(route, trip, us[j].stopId) := d]
        && Tally(after) == m[route := OnTimeCount(if IsOnTime(d) then c.ok + 1 else c.ok, c.total + 1)]
  {
    assert us[..j + 1][..j] == us[..j];
    var before := done + UpdateSamples(route, trip, us[..j]);
    match DelayOf(us[j])
    case None =>
    case Some(d) =>
      var s := DelaySample(DelayKey(route, trip, us[j].stopId), d);
      assert done + UpdateSamples(route, trip, us[..j + 1]) == before + [s];
      AppendStep(before, s);
  }

  lemma FeedSamplesStep(ents: seq<FeedEntity>, i: nat)
    requires i < |ents|
    ensures FeedSamples(ents[..i + 1]) == FeedSamples(ents[..i]) + EntitySamples(ents[i])
  {
    assert ents[..i + 1][..i] == ents[..i];
  }

  /** The stop-time-update loop for one trip update: continues the delay
      table and the tally of the samples `done` met so far in the cycle. */
  method AccumulateStopTimeUpdates(
    routeId: string, tripId: string, us: seq<StopTimeUpdate>,
    delays0: map<DelayKey, int>, onTime0: map<string, OnTimeCount>, ghost done: seq<DelaySample>)
    returns (delays: map<DelayKey, int>, onTime: map<string, OnTimeCount>)
    requires delays0 == DelayTable(done) && onTime0 == Tally(done)
    ensures delays == DelayTable(done + UpdateSamples(routeId, tripId, us))
    ensures onTime == Tally(done + UpdateSamples(routeId, tripId, us))
  {
    delays, onTime := delays0, onTime0;
    assert done + UpdateSamples(routeId, tripId, us[..0]) == done;
    var j := 0;
    while j < |us|
      invariant 0 <= j <= |us|
      invariant delays == DelayTable(done + UpdateSamples(routeId, tripId, us[..j]))
      invariant onTime == Tally(done + UpdateSamples(routeId, tripId, us[..j]))
    {
      var stu := us[j];
      StopTimeUpdateStep(routeId, tripId, us, j, done);
      var delay: Option<int> := None;
      if stu.arrivalDelay.Some? {
        delay := stu.arrivalDelay;
      } else if stu.departureDelay.Some? {
        delay := stu.departureDelay;
      }
      assert delay == DelayOf(stu);
      if delay.Some? {
        var d := delay.value;
        delays := delays[DelayKey(routeId, tripId, stu.stopId) := d];
        var c := if routeId in onTime then onTime[routeId] else OnTimeCount(0, 0);
        var total := c.total + 1;
        var ok := if Abs(d) <= 60 then c.ok + 1 else c.ok;
        onTime := onTime[routeId := OnTimeCount(ok, total)];
      }
      j := j + 1;
    }
    assert us[..|us|] == us;
  }

  /** The trip-update loop of one cycle over an available trip-updates feed:
      the delay table written to the delay gauge, and the per-route tally. */
  method AccumulateTripUpdates(feed: FeedMessage) returns (delays: map<DelayKey, int>, onTime: map<string, OnTimeCount>)
    ensures delays == DelayTable(FeedSamples(feed.entities))
    ensures onTime == Tally(FeedSamples(feed.entities))
    ensures forall r :: r in onTime ==> 1 <= onTime[r].total && onTime[r].ok <= onTime[r].total
  {
    var ents := feed.entities;
    delays, onTime := map[], map[];
    var i := 0;
    while i < |ents|
      invariant 0 <= i <= |ents|
      invariant delays == DelayTable(FeedSamples(ents[..i]))
      invariant onTime == Tally(FeedSamples(ents[..i]))
    {
      var ent := ents[i];
      FeedSamplesStep(ents, i);
      if ent.tripUpdate.Some? {
        var tu := ent.tripUpdate.value;
        var routeId := RouteOf(tu.trip);
        var tripId := TripIdOf(tu.trip, ent.id);
        delays, onTime := AccumulateStopTimeUpdates(routeId, tripId, tu.stopTimeUpdates, delays, onTime, FeedSamples(ents[..i]));
        assert EntitySamples(ent) == UpdateSamples(routeId, tripId, tu.stopTimeUpdates);
        assert FeedSamples(ents[..i + 1]) == FeedSamples(ents[..i]) + UpdateSamples(routeId, tripId, tu.stopTimeUpdates);
      } else {
        assert EntitySamples(ent) == [];
        assert FeedSamples(ents[..i + 1]) == FeedSamples(ents[..i]);
      }
      i := i + 1;
    }
    assert ents[..|ents|] == ents;
    TallyWellFormed(FeedSamples(ents));
  }
}
