/** The route-record queries of app/railway.js over a parsed railway network
    `{networkName, routes}`. A missing network (`null`) is a null reference;
    the route list is an array because `addDistances` and `sortRoutesByName`
    change it in place. */
module Railway {
  import opened Wrappers
  import opened SeqUtil
  import opened RouteData
  import opened Sorting

  /** The parsed network record. */
  class RailwayData {
    const networkName: string
    const routes: array<Route>

    constructor (networkName: string, routes: seq<Route>)
      ensures this.networkName == networkName && this.routes[..] == routes && fresh(this.routes)
    {
      this.networkName := networkName;
      this.routes := new Route[|routes|](i requires 0 <= i < |routes| => routes[i]);
    }
  }

  /** The heap a query over `data` reads. */
  function Frame(data: RailwayData?): set<object> {
    if data == null then {} else {data.routes}
  }

  // ---------------------------------------------------------------------------
  // getNetworkName, getRoutes, getRouteNames, routeNamesToString

  /** `getNetworkName` (app/railway.js:89-98). */
  function GetNetworkName(data: RailwayData?): (r: Option<string>)
    ensures r.None? <==> data == null
    ensures r.Some? ==> r.value == data.networkName
  {
    if data == null then None else Some(data.networkName)
  }

  /** `getRoutes` (app/railway.js:150-159): the routes, or none for no network. */
  function GetRoutes(data: RailwayData?): (r: seq<Route>)
    reads Frame(data)
    ensures data == null ==> r == []
    ensures data != null ==> r == data.routes[..]
  {
    if data == null then [] else data.routes[..]
  }

  /** The names of `rs`, in order; built from the end, as the loop pushes. */
  function RouteNames(rs: seq<Route>): (r: seq<string>)
    ensures |r| == |rs|
    ensures forall i :: 0 <= i < |rs| ==> r[i] == rs[i].name
  {
    if rs == [] then [] else RouteNames(rs[..|rs| - 1]) + [rs[|rs| - 1].name]
  }

  /** `getRouteNames` (app/railway.js:111-131). */
  method GetRouteNames(data: RailwayData?) returns (r: Option<seq<string>>)
    ensures r.None? <==> data == null
    ensures r.Some? ==> |r.value| == data.routes.Length
    ensures r.Some? ==> forall i :: 0 <= i < data.routes.Length ==> r.value[i] == data.routes[i].name
  {
    if data == null {
      return None;
    }
    var routes := GetRoutes(data);
    var routeNames: seq<string> := [];
    var i := 0;
    while i < |routes|
      invariant 0 <= i <= |routes|
      invariant routeNames == RouteNames(routes[..i])
    {
      assert routes[..i + 1][..i] == routes[..i];
      routeNames := routeNames + [routes[i].name];
      i := i + 1;
    }
    assert routes[..i] == routes;
    return Some(routeNames);
  }

  /** The separator `routeNamesToString` joins with. */
  const Sep: string := ",\n"

  /** `Array.prototype.join(",\n")`. */
  function Join(xs: seq<string>): string
    decreases |xs|
  {
    if xs == [] then "" else if |xs| == 1 then xs[0] else xs[0] + Sep + Join(xs[1..])
  }

  /** `x` holds no separator. */
  ghost predicate NoSep(x: string) {
    forall i :: 0 <= i < |x| - 1 ==> !(x[i] == ',' && x[i + 1] == '\n')
  }

  /** The pieces of `s` between the separators, left to right: the inverse of
      `Join` on names that hold no separator. */
  function Split(s: string): (r: seq<string>)
    ensures |r| >= 1
    decreases |s|
  {
    if |s| < 2 then [s]
    else if s[0] == ',' && s[1] == '\n' then [""] + Split(s[2..])
    else
      var t := Split(s[1..]);
      [[s[0]] + t[0]] + t[1..]
  }

  /** `routeNamesToString` (app/railway.js:171-184). */
  function RouteNamesToString(data: RailwayData?): (r: Option<string>)
    reads Frame(data)
    ensures r.None? <==> data == null
  {
    if data == null then None else Some(Join(RouteNames(data.routes[..])))
  }

  lemma {:induction false} SplitPrefix(x: string, t: string)
    requires NoSep(x)
    requires t == [] || (|t| >= 2 && t[0] == ',' && t[1] == '\n')
    ensures Split(x + t) == [x + Split(t)[0]] + Split(t)[1..]
    decreases |x|
  {
    if x == [] {
      assert x + t == t;
    } else if |x + t| < 2 {
      assert t == [] && x + t == x;
    } else {
      var s := x + t;
      assert s[1..] == x[1..] + t;
      assert !(s[0] == ',' && s[1] == '\n') by {
        if |x| >= 2 {
          assert s[0] == x[0] && s[1] == x[1];
        } else {
          assert s[1] == t[0];
        }
      }
      assert NoSep(x[1..]) by {
        forall i | 0 <= i < |x[1..]| - 1
          ensures !(x[1..][i] == ',' && x[1..][i + 1] == '\n')
        {
          assert x[1..][i] == x[i + 1] && x[1..][i + 1] == x[i + 2];
        }
      }
      SplitPrefix(x[1..], t);
      assert [s[0]] + (x[1..] + Split(t)[0]) == x + Split(t)[0];
    }
  }

  /** Splitting the joined names gives the names back, when there is at least
      one and none holds the separator. */
  lemma {:induction false} SplitJoin(xs: seq<string>)
    requires |xs| >= 1 && forall i :: 0 <= i < |xs| ==> NoSep(xs[i])
    ensures Split(Join(xs)) == xs
    decreases |xs|
  {
    if |xs| == 1 {
      SplitPrefix(xs[0], []);
      assert xs[0] + [] == xs[0];
    } else {
      var rest := Join(xs[1..]);
      var t := Sep + rest;
      assert Join(xs) == xs[0] + t;
      SplitPrefix(xs[0], t);
      assert t[2..] == rest;
      SplitJoin(xs[1..]);
      assert t[0] == ',' && t[1] == '\n';
      assert Split(t) == [""] + xs[1..];
      assert xs[0] + "" == xs[0] && xs == [xs[0]] + xs[1..];
    }
  }

  /** `routeNamesToString` loses nothing: splitting its result at the
      separators gives the route names in route order. */
  lemma RouteNamesRoundTrip(data: RailwayData)
    requires data.routes.Length >= 1
    requires forall i :: 0 <= i < data.routes.Length ==> NoSep(data.routes[i].name)
    ensures Split(RouteNamesToString(data).value) == RouteNames(data.routes[..])
  {
    SplitJoin(RouteNames(data.routes[..]));
  }

  // ---------------------------------------------------------------------------
  // getRoute

  /** `getRoute` (app/railway.js:200-224): the loop never breaks, so the last
      route with the name wins. */
  method GetRoute(data: RailwayData?, routeName: string) returns (r: Option<Route>)
    ensures r.None? <==> data == null || forall k :: 0 <= k < data.routes.Length ==> data.routes[k].name != routeName
    ensures r.Some? ==> exists k :: 0 <= k < data.routes.Length && data.routes[k] == r.value &&
                            r.value.name == routeName &&
                            forall m :: k < m < data.routes.Length ==> data.routes[m].name != routeName
  {
    if data == null {
      return None;
    }
    var routes := GetRoutes(data);
    var foundRoute: Option<Route> := None;
    ghost var at := -1;
    var i := 0;
    while i < |routes|
      invariant 0 <= i <= |routes|
      invariant -1 <= at < i
      invariant at == -1 <==> foundRoute.None?
      invariant at == -1 ==> forall k :: 0 <= k < i ==> routes[k].name != routeName
      invariant at >= 0 ==> foundRoute == Some(routes[at]) && routes[at].name == routeName
      invariant forall m :: at < m < i ==> routes[m].name != routeName
    {
      var item := routes[i];
      if item.name == routeName {
        foundRoute := Some(item);
        at := i;
      }
      i := i + 1;
    }
    return foundRoute;
  }

  // ---------------------------------------------------------------------------
  // routeDistance, addDistances

  /** `routeDistance` (app/railway.js:269-283): the sum of `distanceToNext`
      over the stops; 0 for a missing route. */
  method RouteDistance(route: Option<Route>) returns (totalDistance: int)
    ensures route.None? ==> totalDistance == 0
    ensures route.Some? ==> totalDistance == SumToNext(route.value.stops)
  {
    if route.None? {
      return 0;
    }
    var stops := route.value.stops;
    totalDistance := 0;
    var i := 0;
    while i < |stops|
      invariant 0 <= i <= |stops|
      invariant totalDistance == SumToNext(stops[..i])
    {
      assert stops[..i + 1][..i] == stops[..i];
      totalDistance := totalDistance + stops[i].distanceToNext;
      i := i + 1;
    }
    assert stops[..i] == stops;
  }

  /** The routes with `distance` set to their route distance. */
  function WithDistances(rs: seq<Route>): (r: seq<Route>)
    ensures |r| == |rs|
    ensures forall i :: 0 <= i < |rs| ==> r[i].name == rs[i].name && r[i].stops == rs[i].stops
    ensures forall i :: 0 <= i < |rs| ==> r[i].distance == Some(SumToNext(rs[i].stops))
  {
    if rs == [] then [] else WithDistances(rs[..|rs| - 1]) + [rs[|rs| - 1].(distance := Some(SumToNext(rs[|rs| - 1].stops)))]
  }

  /** `addDistances` (app/railway.js:437-452): writes every route's distance and
      nothing else; a missing network is left alone. */
  method AddDistances(data: RailwayData?)
    modifies Frame(data)
    ensures data != null ==> data.routes[..] == WithDistances(old(data.routes[..]))
  {
    if data == null {
      return;
    }
    ghost var before := data.routes[..];
    var i := 0;
    while i < data.routes.Length
      invariant 0 <= i <= data.routes.Length
      invariant data.routes[..i] == WithDistances(before[..i])
      invariant data.routes[i..] == before[i..]
    {
      var distance := RouteDistance(Some(data.routes[i]));
      assert data.routes[i] == before[i];
      assert before[..i + 1][..i] == before[..i];
      data.routes[i] := data.routes[i].(distance := Some(distance));
      assert data.routes[..i + 1] == data.routes[..i] + [data.routes[i]];
      i := i + 1;
      assert data.routes[i..] == before[i..] by {
        assert forall k :: i <= k < data.routes.Length ==> data.routes[k] == before[k];
      }
    }
    assert data.routes[..i] == data.routes[..] && before[..i] == before;
  }

  /** Adding the distances twice gives what adding them once gives. */
  lemma WithDistancesIdempotent(rs: seq<Route>)
    ensures WithDistances(WithDistances(rs)) == WithDistances(rs)
  {
    var once := WithDistances(rs);
    var twice := WithDistances(once);
    assert forall i :: 0 <= i < |rs| ==> twice[i] == once[i];
  }

  // ---------------------------------------------------------------------------
  // totalStations

  /** The distinct station names over all stops of all routes. */
  function StationNames(rs: seq<Route>): set<string> {
    set s | s in AllStops(rs) :: s.stationName
  }

  /** The names of a list of stops. */
  function NamesOf(stops: seq<Stop>): set<string> {
    set s | s in stops :: s.stationName
  }

  /** `totalStations` (app/railway.js:501-526): how many distinct station names
      the stops of all routes carry; 0 for a missing network. */
  method TotalStations(data: RailwayData?) returns (n: nat)
    ensures data == null ==> n == 0
    ensures data != null ==> n == |StationNames(data.routes[..])|
  {
    if data == null {
      return 0;
    }
    var uniqueStations: set<string> := {};
    var routes := data.routes;
    var i := 0;
    while i < routes.Length
      invariant 0 <= i <= routes.Length
      invariant uniqueStations == StationNames(routes[..i])
    {
      uniqueStations := AddStationNames(uniqueStations, routes[i].stops);
      StationNamesPush(routes[..i], routes[i]);
      assert routes[..i + 1] == routes[..i] + [routes[i]];
      i := i + 1;
    }
    assert routes[..i] == routes[..];
    return |uniqueStations|;
  }

  /** The inner loop of `totalStations` (app/railway.js:517-521). */
  method AddStationNames(uniqueStations: set<string>, stops: seq<Stop>) returns (r: set<string>)
    ensures r == uniqueStations + NamesOf(stops)
  {
    r := uniqueStations;
    var j := 0;
    while j < |stops|
      invariant 0 <= j <= |stops|
      invariant r == uniqueStations + NamesOf(stops[..j])
    {
      assert stops[..j + 1] == stops[..j] + [stops[j]];
      r := r + {stops[j].stationName};
      j := j + 1;
    }
    assert stops[..j] == stops;
  }

  lemma StationNamesPush(rs: seq<Route>, r: Route)
    ensures StationNames(rs + [r]) == StationNames(rs) + NamesOf(r.stops)
  {
    AllStopsAppend(rs, [r]);
    assert AllStops([r]) == r.stops + AllStops([]);
    assert AllStops(rs + [r]) == AllStops(rs) + r.stops;
  }

  /** The image of a list under a map has at most as many elements as the list. */
  lemma {:induction false} NamesBound(stops: seq<Stop>)
    ensures |NamesOf(stops)| <= |stops|
    decreases |stops|
  {
    if stops != [] {
      var n := |stops| - 1;
      assert stops == stops[..n] + [stops[n]];
      assert NamesOf(stops) == NamesOf(stops[..n]) + {stops[n].stationName};
      NamesBound(stops[..n]);
    }
  }

  /** There are never more distinct station names than stops. */
  lemma StationCountBound(rs: seq<Route>)
    ensures |StationNames(rs)| <= |AllStops(rs)|
  {
    NamesBound(AllStops(rs));
  }

  /** A name is counted exactly when some stop of some route carries it. */
  lemma StationNamesMember(rs: seq<Route>, x: string)
    ensures x in StationNames(rs) <==> exists r, s :: r in rs && s in r.stops && s.stationName == x
  {
    forall s | true
      ensures s in AllStops(rs) <==> exists r :: r in rs && s in r.stops
    {
      AllStopsMember(rs, s);
    }
  }

  /** Reordering the routes (as `sortRoutesByName` does) and adding their
      distances (as `addDistances` does) leave the station count alone. */
  lemma StationNamesPermutation(a: seq<Route>, b: seq<Route>)
    requires multiset(a) == multiset(b)
    ensures StationNames(a) == StationNames(b)
  {
    forall x | true
      ensures x in StationNames(a) <==> x in StationNames(b)
    {
      StationNamesMember(a, x);
      StationNamesMember(b, x);
      assert forall r :: r in a <==> r in multiset(a);
      assert forall r :: r in b <==> r in multiset(b);
    }
  }

  lemma StationNamesWithDistances(rs: seq<Route>)
    ensures StationNames(WithDistances(rs)) == StationNames(rs)
  {
    var w := WithDistances(rs);
    forall x | true
      ensures x in StationNames(w) <==> x in StationNames(rs)
    {
      StationNamesMember(w, x);
      StationNamesMember(rs, x);
      if x in StationNames(rs) {
        var r, s :| r in rs && s in r.stops && s.stationName == x;
        var i :| 0 <= i < |rs| && rs[i] == r;
        assert w[i] in w && s in w[i].stops;
      }
      if x in StationNames(w) {
        var r, s :| r in w && s in r.stops && s.stationName == x;
        var i :| 0 <= i < |w| && w[i] == r;
        assert rs[i] in rs && s in rs[i].stops;
      }
    }
  }

  // ---------------------------------------------------------------------------
  // calculateDistance

  function Min(a: int, b: int): int { if a <= b then a else b }
  function Max(a: int, b: int): int { if a <= b then b else a }

  /** The indices `calculateDistance` reads lie in `stops` (or it reads none). */
  ghost predicate InRange(stops: seq<Stop>, a: int, b: int) {
    a == b || (0 <= Min(a, b) && Max(a, b) <= |stops|)
  }

  /** The distance between the stops at `a` and `b`: the `distanceToNext` of
      every stop from the lower index up to, not including, the higher one. */
  function RangeDistance(stops: seq<Stop>, a: int, b: int): int
    requires InRange(stops, a, b)
  {
    if a == b then 0 else SumToNext(stops[Min(a, b)..Max(a, b)])
  }

  /** `calculateDistance` (app/railway.js:588-601). */
  method CalculateDistance(stops: seq<Stop>, fromIndex: int, toIndex: int) returns (distance: int)
    requires InRange(stops, fromIndex, toIndex)
    ensures distance == RangeDistance(stops, fromIndex, toIndex)
  {
    distance := 0;
    var startIndex := Min(fromIndex, toIndex);
    var endIndex := Max(fromIndex, toIndex);
    if startIndex == endIndex {
      return;
    }
    var i := startIndex;
    while i < endIndex
      invariant startIndex <= i <= endIndex
      invariant distance == SumToNext(stops[startIndex..i])
    {
      assert stops[startIndex..i + 1][..i - startIndex] == stops[startIndex..i];
      distance := distance + stops[i].distanceToNext;
      i := i + 1;
    }
  }

  /** The distance does not depend on the direction. */
  lemma RangeDistanceSymmetric(stops: seq<Stop>, a: int, b: int)
    requires InRange(stops, a, b)
    ensures RangeDistance(stops, a, b) == RangeDistance(stops, b, a)
  {
  }

  /** Distances add up along the route. */
  lemma RangeDistanceSplit(stops: seq<Stop>, a: int, b: int, c: int)
    requires 0 <= a <= b <= c <= |stops|
    ensures RangeDistance(stops, a, b) + RangeDistance(stops, b, c) == RangeDistance(stops, a, c)
  {
    assert stops[a..c] == stops[a..b] + stops[b..c];
    SumToNextAppend(stops[a..b], stops[b..c]);
    assert stops[a..a] == [] && stops[b..b] == [];
  }

  /** From the first stop to the end is the whole route distance. */
  lemma RangeDistanceWhole(stops: seq<Stop>)
    ensures RangeDistance(stops, 0, |stops|) == SumToNext(stops)
  {
    assert stops[0..|stops|] == stops;
  }

  // ---------------------------------------------------------------------------
  // findRoute

  /** What `findRoute` reports; `Message` renders it. */
  datatype FindOutcome =
    | DataNull
    | NotFound
    | Found(routeName: string, stopsCount: int, distance: int)

  /** Index of the last stop named `name`, or -1. */
  function LastStopIndex(stops: seq<Stop>, name: string): (r: int)
    ensures -1 <= r < |stops|
    ensures r >= 0 ==> stops[r].stationName == name
  {
    LastWhere(stops, (s: Stop) => s.stationName == name)
  }

  /** -1 exactly when no stop has the name; otherwise no later stop has it. */
  lemma LastStopIndexMeaning(stops: seq<Stop>, name: string)
    ensures LastStopIndex(stops, name) == -1 <==> forall m :: 0 <= m < |stops| ==> stops[m].stationName != name
    ensures LastStopIndex(stops, name) >= 0 ==>
              forall m :: LastStopIndex(stops, name) < m < |stops| ==> stops[m].stationName != name
  {
    LastWhereMeaning(stops, (s: Stop) => s.stationName == name);
  }

  /** Both names occur on the route. */
  predicate Connects(route: Route, from: string, to: string) {
    LastStopIndex(route.stops, from) >= 0 && LastStopIndex(route.stops, to) >= 0
  }

  function Abs(x: int): nat { if x < 0 then -x else x }

  /** The report for a route on which both names occur, from the last
      occurrence of each. */
  function Hit(route: Route, from: string, to: string): FindOutcome
    requires Connects(route, from, to)
  {
    var fi := LastStopIndex(route.stops, from);
    var ti := LastStopIndex(route.stops, to);
    Found(route.name, Abs(ti - fi), RangeDistance(route.stops, fi, ti))
  }

  /** Index of the last route on which both names occur, or -1. */
  function LastConnecting(rs: seq<Route>, from: string, to: string): (k: int)
    ensures -1 <= k < |rs|
    ensures k >= 0 ==> Connects(rs[k], from, to)
  {
    LastWhere(rs, (r: Route) => Connects(r, from, to))
  }

  /** The report over the routes: that of the last route carrying both names. */
  function FindIn(rs: seq<Route>, from: string, to: string): (r: FindOutcome)
    ensures r != DataNull
  {
    var k := LastConnecting(rs, from, to);
    if k < 0 then NotFound else Hit(rs[k], from, to)
  }

  /** The report says "not found" exactly when no route carries both names,
      and otherwise is the report for the last route that does. */
  lemma FindInMeaning(rs: seq<Route>, from: string, to: string)
    ensures FindIn(rs, from, to) == NotFound <==> forall k :: 0 <= k < |rs| ==> !Connects(rs[k], from, to)
    ensures FindIn(rs, from, to).Found? ==>
              exists k :: 0 <= k < |rs| && Connects(rs[k], from, to) && FindIn(rs, from, to) == Hit(rs[k], from, to) &&
                          forall m :: k < m < |rs| ==> !Connects(rs[m], from, to)
  {
    LastWhereMeaning(rs, (r: Route) => Connects(r, from, to));
  }

  /** The stop loop of `findRoute` (app/railway.js:553-563): the last index of
      each name, or -1. */
  method LastIndices(stops: seq<Stop>, from: string, to: string) returns (fromIndex: int, toIndex: int)
    ensures fromIndex == LastStopIndex(stops, from) && toIndex == LastStopIndex(stops, to)
  {
    fromIndex, toIndex := -1, -1;
    var j := 0;
    while j < |stops|
      invariant 0 <= j <= |stops|
      invariant fromIndex == LastStopIndex(stops[..j], from) && toIndex == LastStopIndex(stops[..j], to)
    {
      assert stops[..j + 1][..j] == stops[..j];
      if stops[j].stationName == from {
        fromIndex := j;
      }
      if stops[j].stationName == to {
        toIndex := j;
      }
      j := j + 1;
    }
    assert stops[..j] == stops;
  }

  /** `findRoute` (app/railway.js:545-575). */
  method FindRoute(data: RailwayData?, from: string, to: string) returns (outcome: FindOutcome)
    ensures data == null ==> outcome == DataNull
    ensures data != null ==> outcome == FindIn(data.routes[..], from, to)
  {
    if data == null {
      return DataNull;
    }
    outcome := NotFound;
    var i := 0;
    while i < data.routes.Length
      invariant 0 <= i <= data.routes.Length
      invariant outcome == FindIn(data.routes[..i], from, to)
    {
      var route := data.routes[i];
      var fromIndex, toIndex := LastIndices(route.stops, from, to);
      assert data.routes[..i + 1][..i] == data.routes[..i];
      assert LastConnecting(data.routes[..i + 1], from, to) ==
             if Connects(route, from, to) then i else LastConnecting(data.routes[..i], from, to);
      if fromIndex != -1 && toIndex != -1 {
        var distance := CalculateDistance(route.stops, fromIndex, toIndex);
        var stopsCount := Abs(toIndex - fromIndex);
        outcome := Found(route.name, stopsCount, distance);
      }
      i := i + 1;
    }
    assert data.routes[..i] == data.routes[..];
  }

  function DigitChar(d: nat): char
    requires d < 10
  {
    "0123456789"[d]
  }

  function NatToString(n: nat): string
    decreases n
  {
    if n < 10 then [DigitChar(n)] else NatToString(n / 10) + [DigitChar(n % 10)]
  }

  /** A JavaScript integer in a template literal: decimal, with a leading
      minus sign when negative. */
  function IntToString(i: int): string {
    if i < 0 then "-" + NatToString(-i) else NatToString(i)
  }

  /** The string `findRoute` returns. The backslash at the end of line 568
      continues the template literal; the indentation of line 569 (eleven
      spaces) stays in the string. */
  function Message(outcome: FindOutcome, from: string, to: string): (r: string)
    ensures |r| >= 7
    ensures r[..7] == "Found: " <==> outcome.Found?
    ensures r == "Data is null." <==> outcome.DataNull?
  {
    match outcome
    case DataNull =>
      var r := "Data is null.";
      assert r[..7][0] != 'F';
      r
    case NotFound =>
      var head := "Route n";
      var r := head + "ot found in this railway network System from passed two stops.";
      assert r[..7] == head;
      r
    case Found(name, count, distance) =>
      var head := "Found: ";
      var r := head + name + ": " + from + " to " + to + ", " + "           " +
               IntToString(count) + " stops and " + IntToString(distance) + " miles.";
      assert r[..7] == head && r[..7] != "Data is";
      r
  }

  // ---------------------------------------------------------------------------
  // sortRoutesByName

  /** ASCII `toUpperCase` of one character. */
  function UpperChar(c: char): char {
    if 'a' <= c <= 'z' then (c as int - 32) as char else c
  }

  /** ASCII `toUpperCase`: no lower-case letter is left, and every other
      character is kept. */
  function Upper(s: string): (r: string)
    ensures |r| == |s|
    ensures forall i :: 0 <= i < |r| ==> !('a' <= r[i] <= 'z')
    ensures forall i :: 0 <= i < |s| && !('a' <= s[i] <= 'z') ==> r[i] == s[i]
  {
    seq(|s|, i requires 0 <= i < |s| => UpperChar(s[i]))
  }

  /** JavaScript's `<` on strings: lexicographic, a proper prefix first. */
  function LexLess(a: string, b: string): (r: bool)
    ensures r ==> a != b
    ensures |a| < |b| && a == b[..|a|] ==> r
    decreases |a|
  {
    if a == [] then b != []
    else if b == [] then false
    else if a[0] != b[0] then a[0] < b[0]
    else LexLess(a[1..], b[1..])
  }

  lemma {:induction false} LexAsymmetric(a: string, b: string)
    ensures !(LexLess(a, b) && LexLess(b, a))
    decreases |a|
  {
    if a != [] && b != [] && a[0] == b[0] {
      LexAsymmetric(a[1..], b[1..]);
    }
  }

  lemma {:induction false} LexTransitive(a: string, b: string, c: string)
    requires LexLess(a, b) && LexLess(b, c)
    ensures LexLess(a, c)
    decreases |a|
  {
    if a != [] && a[0] == b[0] && b[0] == c[0] {
      LexTransitive(a[1..], b[1..], c[1..]);
    }
  }

  lemma {:induction false} LexTotal(a: string, b: string)
    ensures a == b || LexLess(a, b) || LexLess(b, a)
    decreases |a|
  {
    if a != [] && b != [] && a[0] == b[0] {
      LexTotal(a[1..], b[1..]);
      assert a == [a[0]] + a[1..] && b == [b[0]] + b[1..];
    }
  }

  /** The comparator of app/railway.js:352-368 as written. */
  function NameCompare(a: Route, b: Route, asc: bool): int {
    var nameA := Upper(a.name);
    var nameB := Upper(b.name);
    if asc then
      if LexLess(nameA, nameB) then -1 else if LexLess(nameB, nameA) then 1 else 0
    else
      if LexLess(nameB, nameA) then -1 else if LexLess(nameA, nameB) then 1 else 0
  }

  /** The ascending comparator gives at most 0: the upper-cased names are in
      order. */
  function NameLe(x: Route, y: Route): (r: bool)
    ensures r <==> NameCompare(x, y, true) <= 0
  {
    LexAsymmetric(Upper(x.name), Upper(y.name));
    !LexLess(Upper(y.name), Upper(x.name))
  }

  /** The descending comparator gives at most 0. */
  function NameGe(x: Route, y: Route): (r: bool)
    ensures r <==> NameCompare(x, y, false) <= 0
  {
    LexAsymmetric(Upper(x.name), Upper(y.name));
    !LexLess(Upper(x.name), Upper(y.name))
  }

  /** The order a call sorts by: descending unless `asc` is truthy. */
  function NameOrder(asc: bool): (Route, Route) -> bool {
    if asc then NameLe else NameGe
  }

  lemma NameOrderTotalPreorder(asc: bool)
    ensures TotalPreorder(NameOrder(asc))
  {
    forall x: string, y: string
      ensures !(LexLess(x, y) && LexLess(y, x)) && (x == y || LexLess(x, y) || LexLess(y, x))
    {
      LexAsymmetric(x, y);
      LexTotal(x, y);
    }
    forall x: string, y: string, z: string | LexLess(x, y) && LexLess(y, z)
      ensures LexLess(x, z)
    {
      LexTransitive(x, y, z);
    }
  }

  /** `sortRoutesByName` (app/railway.js:343-372): sorts the network's routes in
      place by upper-cased name, ascending when `asc` is truthy and descending
      otherwise, and returns that same array; nothing for a missing network. */
  method SortRoutesByName(data: RailwayData?, asc: bool) returns (r: Option<array<Route>>)
    modifies Frame(data)
    ensures r.None? <==> data == null
    ensures data != null ==> r == Some(data.routes)
    ensures data != null ==> multiset(data.routes[..]) == multiset(old(data.routes[..]))
    ensures data != null ==> SortedBy(data.routes[..], NameOrder(asc))
  {
    if data == null {
      return None;
    }
    var routes := data.routes;
    NameOrderTotalPreorder(asc);
    SortInPlace(routes, NameOrder(asc));
    return Some(routes);
  }
}
