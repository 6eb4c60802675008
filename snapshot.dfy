/** Per-route statistics of one cycle and the route list of the structured
    snapshot (app/main.py:138-146): one record per route, in ascending
    route-id order, with a default for every statistic the route lacks. */
module Snapshot {
  import opened Wrappers

  /** One entry of the cycle's route_stats: each statistic is present only
      when the route appeared in the accumulator that produces it. */
  datatype RouteStats = RouteStats(
    vehicleCount: Option<nat>,
    headwaySeconds: Option<real>,
    onTimeRatio: Option<real>)

  /** One element of the snapshot's `routes` array. */
  datatype RouteRecord = RouteRecord(
    routeId: string,
    vehicleCount: nat,
    onTimeRatio: real,
    headwaySeconds: real)

  /** Python's ordering of `str`: lexicographic by code point, a proper
      prefix before the longer string. */
  predicate StrLess(a: string, b: string) {
    if a == [] then b != []
    else if b == [] then false
    else if a[0] != b[0] then a[0] < b[0]
    else StrLess(a[1..], b[1..])
  }

  lemma {:induction false} StrLessIrreflexive(a: string)
    ensures !StrLess(a, a)
  {
    if a != [] {
      StrLessIrreflexive(a[1..]);
    }
  }

  lemma {:induction false} StrLessAsymmetric(a: string, b: string)
    ensures StrLess(a, b) ==> !StrLess(b, a)
  {
    if a != [] && b != [] && a[0] == b[0] {
      StrLessAsymmetric(a[1..], b[1..]);
    }
  }

  lemma {:induction false} StrLessTransitive(a: string, b: string, c: string)
    requires StrLess(a, b) && StrLess(b, c)
    ensures StrLess(a, c)
  {
    if a != [] && a[0] == b[0] && b[0] == c[0] {
      StrLessTransitive(a[1..], b[1..], c[1..]);
    }
  }

  /** Any two distinct strings are ordered one way or the other. */
  lemma {:induction false} StrLessTotal(a: string, b: string)
    requires a != b
    ensures StrLess(a, b) || StrLess(b, a)
  {
    if a != [] && b != [] && a[0] == b[0] {
      assert a == [a[0]] + a[1..] && b == [b[0]] + b[1..];
      StrLessTotal(a[1..], b[1..]);
    }
  }

  lemma StrLessIsStrictOrder()
    ensures forall a, b :: StrLess(a, b) ==> !StrLess(b, a)
    ensures forall a :: !StrLess(a, a)
  {
    forall a, b ensures StrLess(a, b) ==> !StrLess(b, a) {
      StrLessAsymmetric(a, b);
    }
    forall a ensures !StrLess(a, a) {
      StrLessIrreflexive(a);
    }
  }

  /** Every non-empty finite set of strings has a least element. */
  lemma {:induction false} LeastExists(keys: set<string>)
    requires keys != {}
    ensures exists m :: m in keys && forall k :: k in keys && k != m ==> StrLess(m, k)
  {
    var x :| x in keys;
    if keys != {x} {
      var rest := keys - {x};
      LeastExists(rest);
      var m :| m in rest && forall k :: k in rest && k != m ==> StrLess(m, k);
      if StrLess(m, x) {
        forall k | k in keys && k != m ensures StrLess(m, k) {
          if k == x {
          } else {
            assert k in rest;
          }
        }
      } else {
        StrLessTotal(m, x);
        forall k | k in keys && k != x ensures StrLess(x, k) {
          if k != m {
            assert k in rest;
            StrLessTransitive(x, m, k);
          }
        }
      }
    }
  }

  predicate StrictlyAscending(ids: seq<string>) {
    forall i, j :: 0 <= i < j < |ids| ==> StrLess(ids[i], ids[j])
  }

  /** The keys of a route map in ascending order, each exactly once. */
  function SortedIds(keys: set<string>): (ids: seq<string>)
    ensures StrictlyAscending(ids)
    ensures forall k :: k in keys <==> k in ids
    ensures |ids| == |keys|
    ensures forall i, j :: 0 <= i < |ids| && 0 <= j < |ids| && i != j ==> ids[i] != ids[j]
    decreases keys
  {
    if keys == {} then []
    else
      LeastExists(keys);
      StrLessIsStrictOrder();
      var m :| m in keys && forall k :: k in keys && k != m ==> StrLess(m, k);
      var rest := SortedIds(keys - {m});
      LeastFirst(keys, m, rest);
      [m] + rest
  }

  /** Ids in ascending order, each exactly once, are the ids of `keys`. */
  ghost predicate ListsInOrder(keys: set<string>, ids: seq<string>) {
    && StrictlyAscending(ids)
    && (forall k :: k in keys <==> k in ids)
    && |ids| == |keys|
    && (forall i, j :: 0 <= i < |ids| && 0 <= j < |ids| && i != j ==> ids[i] != ids[j])
  }

  /** Putting the least key in front of the ordered others orders all keys. */
  lemma LeastFirst(keys: set<string>, m: string, rest: seq<string>)
    requires m in keys && forall k :: k in keys && k != m ==> StrLess(m, k)
    requires ListsInOrder(keys - {m}, rest)
    ensures ListsInOrder(keys, [m] + rest)
  {
    var ids := [m] + rest;
    forall i, j | 0 <= i < j < |ids| ensures StrLess(ids[i], ids[j]) {
      if i == 0 {
        assert ids[j] == rest[j - 1] && rest[j - 1] in keys - {m};
      } else {
        assert ids[i] == rest[i - 1] && ids[j] == rest[j - 1];
      }
    }
    forall i, j | 0 <= i < |ids| && 0 <= j < |ids| && i != j ensures ids[i] != ids[j] {
      if i == 0 {
        assert ids[j] == rest[j - 1] && rest[j - 1] in keys - {m};
      } else if j == 0 {
        assert ids[i] == rest[i - 1] && rest[i - 1] in keys - {m};
      } else {
        assert ids[i] == rest[i - 1] && ids[j] == rest[j - 1];
      }
    }
    assert |keys - {m}| == |keys| - 1;
  }

  /** The snapshot record of one route, with 0 / 0.0 / 0.0 for missing
      statistics. */
  function RecordOf(routeId: string, stats: RouteStats): RouteRecord {
    RouteRecord(
      routeId,
      stats.vehicleCount.GetOr(0),
      stats.onTimeRatio.GetOr(0.0),
      stats.headwaySeconds.GetOr(0.0))
  }

  /** The `routes` list of the snapshot: one record per route of `stats`,
      following the ascending route ids, each with its statistics or the
      defaults. */
  function SnapshotRoutes(stats: map<string, RouteStats>): (routes: seq<RouteRecord>)
    ensures |routes| == |stats|
    ensures forall i :: 0 <= i < |routes| ==> routes[i].routeId == SortedIds(stats.Keys)[i]
    ensures forall i :: 0 <= i < |routes| ==>
      var r := routes[i].routeId;
      && r in stats
      && routes[i].vehicleCount == (if stats[r].vehicleCount.Some? then stats[r].vehicleCount.value else 0)
      && routes[i].onTimeRatio == (if stats[r].onTimeRatio.Some? then stats[r].onTimeRatio.value else 0.0)
      && routes[i].headwaySeconds == (if stats[r].headwaySeconds.Some? then stats[r].headwaySeconds.value else 0.0)
  {
    var ids := SortedIds(stats.Keys);
    seq(|ids|, i requires 0 <= i < |ids| => RecordOf(ids[i], stats[ids[i]]))
  }

  /** Each route of the map is listed exactly once, in strictly ascending
      route-id order. */
  lemma SnapshotListsEachRouteOnce(stats: map<string, RouteStats>)
    ensures var routes := SnapshotRoutes(stats);
      && (forall i, j :: 0 <= i < j < |routes| ==> StrLess(routes[i].routeId, routes[j].routeId))
      && (forall r :: r in stats <==> exists i :: 0 <= i < |routes| && routes[i].routeId == r)
      && (forall i, j :: 0 <= i < |routes| && 0 <= j < |routes| && i != j ==> routes[i].routeId != routes[j].routeId)
  {
    var routes := SnapshotRoutes(stats);
    var ids := SortedIds(stats.Keys);
    forall r | r in stats ensures exists i :: 0 <= i < |routes| && routes[i].routeId == r {
      var i :| 0 <= i < |ids| && ids[i] == r;
      assert routes[i].routeId == r;
    }
  }
}
