/** The parsed route records that both source files work on:
    `{name, stops: [{stationID, stationName, distanceToPrev, distanceToNext}]}`. */
module RouteData {
  import opened Wrappers

  /** One stop of a route. `distanceToPrev` may be absent from the record. */
  datatype Stop = Stop(stationID: int, stationName: string, distanceToPrev: Option<int>, distanceToNext: int)

  /** A route; `distance` is the property that `addDistances` writes. */
  datatype Route = Route(name: string, stops: seq<Stop>, distance: Option<int>)

  /** `stop.distanceToPrev || 0`: an absent (or zero) value reads as 0. */
  function PrevDistance(s: Stop): int {
    s.distanceToPrev.GetOr(0)
  }

  /** As with JavaScript's `||`, the distance reads as 0 exactly when it is
      absent or 0, and otherwise is the recorded value. */
  lemma PrevDistanceFalsy(s: Stop)
    ensures PrevDistance(s) == 0 <==> s.distanceToPrev.None? || s.distanceToPrev == Some(0)
    ensures PrevDistance(s) != 0 ==> s.distanceToPrev == Some(PrevDistance(s))
  {
  }

  /** The sum of `distanceToNext` over `stops`, peeled from the end so that it
      follows a loop that walks the stops forwards. */
  function SumToNext(stops: seq<Stop>): int {
    if stops == [] then 0 else SumToNext(stops[..|stops| - 1]) + stops[|stops| - 1].distanceToNext
  }

  /** Summing is additive over concatenation. */
  lemma {:induction false} SumToNextAppend(a: seq<Stop>, b: seq<Stop>)
    ensures SumToNext(a + b) == SumToNext(a) + SumToNext(b)
    decreases |b|
  {
    if b == [] {
      assert a + b == a;
    } else {
      var n := |b| - 1;
      assert (a + b)[..|a + b| - 1] == a + b[..n];
      SumToNextAppend(a, b[..n]);
    }
  }

  /** All stops of all routes, route by route, in order. */
  function AllStops(rs: seq<Route>): seq<Stop> {
    if rs == [] then [] else rs[0].stops + AllStops(rs[1..])
  }

  lemma {:induction false} AllStopsAppend(a: seq<Route>, b: seq<Route>)
    ensures AllStops(a + b) == AllStops(a) + AllStops(b)
    decreases |a|
  {
    if a == [] {
      assert a + b == b;
    } else {
      assert (a + b)[1..] == a[1..] + b;
      AllStopsAppend(a[1..], b);
    }
  }

  /** A stop is among all stops exactly when it is a stop of one of the routes. */
  lemma {:induction false} AllStopsMember(rs: seq<Route>, s: Stop)
    ensures s in AllStops(rs) <==> exists r :: r in rs && s in r.stops
    decreases |rs|
  {
    if rs != [] {
      AllStopsMember(rs[1..], s);
      assert forall r :: r in rs <==> r == rs[0] || r in rs[1..];
    }
  }
}
