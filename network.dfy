/** The station graph of app/network.js: `Station`, `Link`, the graph object
    with its `stationArray`, and `network()`, which builds the graph from the
    parsed routes. The builder is tied to `BuildAbs`, a fold over the routes on
    plain values; the lemmas below say what that fold produces. */
module Network {
  import opened Wrappers
  import opened SeqUtil
  import opened RouteData

  /** A node of the graph. Its id and name are fixed when it is created; only
      its list of outgoing links grows. */
  class Station {
    const stationID: int
    const stationName: string
    var links: seq<Link>

    constructor (stationID: int, stationName: string)
      ensures this.stationID == stationID && this.stationName == stationName
      ensures links == []
    {
      this.stationID := stationID;
      this.stationName := stationName;
      links := [];
    }

    /** `Station.prototype.addLink`. */
    method AddLink(link: Link)
      modifies this
      ensures links == old(links) + [link]
    {
      links := links + [link];
    }
  }

  /** A directed, route-labelled edge; `station` refers to a station of the
      graph without owning it. */
  datatype Link = Link(routeName: string, station: Station, distance: int)

  /** The graph object `{stationArray}`. */
  class Graph {
    var stationArray: seq<Station>

    constructor ()
      ensures stationArray == [] && Valid()
    {
      stationArray := [];
    }

    /** No two stations share an id, and every link leads to a station of the graph. */
    ghost predicate Valid()
      reads this, stationArray
    {
      DistinctIds(stationArray) && LinksClosed(stationArray)
    }
  }

  function Ids(ss: seq<Station>): seq<int> {
    seq(|ss|, k requires 0 <= k < |ss| => ss[k].stationID)
  }

  function Names(ss: seq<Station>): seq<string> {
    seq(|ss|, k requires 0 <= k < |ss| => ss[k].stationName)
  }

  ghost predicate DistinctIds(ss: seq<Station>) {
    forall p, q :: 0 <= p < q < |ss| ==> ss[p].stationID != ss[q].stationID
  }

  /** Every link of `s` leads to a station of `ss`. */
  ghost predicate LinksInto(s: Station, ss: seq<Station>)
    reads s
  {
    forall l :: l in s.links ==> l.station in ss
  }

  ghost predicate LinksClosed(ss: seq<Station>)
    reads ss
  {
    forall k :: 0 <= k < |ss| ==> LinksInto(ss[k], ss)
  }

  /** `stationArray.findIndex(station => station.stationID === id)`. */
  function FindIndexById(ss: seq<Station>, id: int): int {
    IndexOf(Ids(ss), id)
  }

  /** `findIndex` gives -1 exactly when no station has the id, and otherwise
      the first station that has it. */
  lemma FindIndexByIdMeaning(ss: seq<Station>, id: int)
    ensures -1 <= FindIndexById(ss, id) < |ss|
    ensures FindIndexById(ss, id) == -1 <==> forall k :: 0 <= k < |ss| ==> ss[k].stationID != id
    ensures 0 <= FindIndexById(ss, id) ==>
              ss[FindIndexById(ss, id)].stationID == id &&
              forall k :: 0 <= k < FindIndexById(ss, id) ==> ss[k].stationID != id
  {
    var r := FindIndexById(ss, id);
    assert forall k :: 0 <= k < |ss| ==> Ids(ss)[k] == ss[k].stationID && Ids(ss)[k] in Ids(ss);
    assert 0 <= r ==> forall k :: 0 <= k < r ==> Ids(ss)[..r][k] == ss[k].stationID;
  }

  /** `stationArray.find(station => station.stationName === name)`: the first
      station with that name, if any. */
  function FindByName(ss: seq<Station>, name: string): (r: Option<Station>)
    ensures r.None? <==> forall k :: 0 <= k < |ss| ==> ss[k].stationName != name
    ensures r.Some? ==> exists k :: 0 <= k < |ss| && ss[k] == r.value && r.value.stationName == name &&
                          forall k' :: 0 <= k' < k ==> ss[k'].stationName != name
  {
    var k := IndexOf(Names(ss), name);
    assert forall k' :: 0 <= k' < |ss| ==> Names(ss)[k'] == ss[k'].stationName;
    assert k >= 0 ==> forall k' :: 0 <= k' < k ==> Names(ss)[..k][k'] == ss[k'].stationName;
    if k < 0 then None else Some(ss[k])
  }

  // ---------------------------------------------------------------------------
  // The graph as a value: stations by id, links by target id.

  datatype ALink = ALink(routeName: string, target: int, distance: int)
  datatype AStation = AStation(id: int, name: string, links: seq<ALink>)

  function AbsLink(l: Link): ALink {
    ALink(l.routeName, l.station.stationID, l.distance)
  }

  function AbsLinks(ls: seq<Link>): seq<ALink> {
    if ls == [] then [] else AbsLinks(ls[..|ls| - 1]) + [AbsLink(ls[|ls| - 1])]
  }

  /** Station `s` holds exactly the station value `v`. */
  ghost predicate StationModels(s: Station, v: AStation)
    reads s
  {
    s.stationID == v.id && s.stationName == v.name && AbsLinks(s.links) == v.links
  }

  /** The stations `ss` hold exactly the graph value `a`, position by position. */
  ghost predicate Models(ss: seq<Station>, a: seq<AStation>)
    reads ss
  {
    |ss| == |a| && forall k :: 0 <= k < |ss| ==> StationModels(ss[k], a[k])
  }

  function AIds(a: seq<AStation>): seq<int> {
    seq(|a|, k requires 0 <= k < |a| => a[k].id)
  }

  ghost predicate ADistinct(a: seq<AStation>) {
    forall p, q :: 0 <= p < q < |a| ==> a[p].id != a[q].id
  }

  function AddLinkAt(a: seq<AStation>, k: nat, l: ALink): seq<AStation>
    requires k < |a|
  {
    a[k := a[k].(links := a[k].links + [l])]
  }

  /** Find the station by id, or create it with this stop's name and append it
      (app/network.js:125-135). Returns the new graph and the station's index. */
  function Visit(a: seq<AStation>, s: Stop): (r: (seq<AStation>, nat))
    ensures |a| <= |r.0| && r.1 < |r.0| && r.0[r.1].id == s.stationID && r.0[..|a|] == a
  {
    var k := IndexOf(AIds(a), s.stationID);
    if k == -1 then (a + [AStation(s.stationID, s.stationName, [])], |a|) else (a, k)
  }

  /** The two links of one neighbouring pair (app/network.js:137-146): the
      current station gets a link to the previous one, then the previous
      station gets a link to the current one, both with the route's name and
      the current stop's distance. */
  function Connect(a: seq<AStation>, rn: string, cur: nat, p: nat, d: int): seq<AStation>
    requires cur < |a| && p < |a|
  {
    AddLinkAt(AddLinkAt(a, cur, ALink(rn, a[p].id, d)), p, ALink(rn, a[cur].id, d))
  }

  /** One stop of the route loop (app/network.js:123-148). */
  function Step(a: seq<AStation>, rn: string, s: Stop, prev: Option<nat>): (r: (seq<AStation>, nat))
    requires prev.Some? ==> prev.value < |a|
    ensures |a| <= |r.0| && r.1 < |r.0| && r.0[r.1].id == s.stationID
  {
    var v := Visit(a, s);
    if prev.None? then v else (Connect(v.0, rn, v.1, prev.value, PrevDistance(s)), v.1)
  }

  /** The stop loop of one route, from the given previous station on. */
  function AddStops(a: seq<AStation>, rn: string, stops: seq<Stop>, prev: Option<nat>): seq<AStation>
    requires prev.Some? ==> prev.value < |a|
    decreases |stops|
  {
    if stops == [] then a
    else
      var r := Step(a, rn, stops[0], prev);
      AddStops(r.0, rn, stops[1..], Some(r.1))
  }

  /** The route loop; `previousStation` starts out unset for every route. */
  function AddRoutes(a: seq<AStation>, rs: seq<Route>): seq<AStation>
    decreases |rs|
  {
    if rs == [] then a else AddRoutes(AddStops(a, rs[0].name, rs[0].stops, None), rs[1..])
  }

  /** The graph that `network()` builds from `routes`, as a value. */
  function BuildAbs(routes: seq<Route>): seq<AStation> {
    AddRoutes([], routes)
  }

  // ---------------------------------------------------------------------------
  // What the fold produces, looked up by station id.

  /** The name of the station with id `x`, if the graph has one. */
  function LookupName(a: seq<AStation>, x: int): Option<string> {
    var k := IndexOf(AIds(a), x);
    if k < 0 then None else Some(a[k].name)
  }

  /** The links of the station with id `x`; none if there is no such station. */
  function LinksById(a: seq<AStation>, x: int): seq<ALink> {
    var k := IndexOf(AIds(a), x);
    if k < 0 then [] else a[k].links
  }

  /** The number of links over all stations. */
  function LinkCount(a: seq<AStation>): nat {
    if a == [] then 0 else LinkCount(a[..|a| - 1]) + |a[|a| - 1].links|
  }

  function StopIds(stops: seq<Stop>): seq<int> {
    seq(|stops|, k requires 0 <= k < |stops| => stops[k].stationID)
  }

  /** The name carried by the first stop with id `x`. */
  function FirstNameOf(stops: seq<Stop>, x: int): Option<string> {
    var k := IndexOf(StopIds(stops), x);
    if k < 0 then None else Some(stops[k].stationName)
  }

  /** The links that the neighbouring stops `p` (earlier) and `s` (later) of
      route `rn` give the station with id `x`. */
  function PairLinks(x: int, rn: string, p: Stop, s: Stop): seq<ALink> {
    var d := PrevDistance(s);
    (if s.stationID == x then [ALink(rn, p.stationID, d)] else []) +
    (if p.stationID == x then [ALink(rn, s.stationID, d)] else [])
  }

  /** The links that the stops of one route give the station with id `x`,
      given the stop before them, if any. */
  function StopLinksOf(x: int, rn: string, prev: Option<Stop>, stops: seq<Stop>): seq<ALink>
    decreases |stops|
  {
    if stops == [] then []
    else (if prev.Some? then PairLinks(x, rn, prev.value, stops[0]) else []) + StopLinksOf(x, rn, Some(stops[0]), stops[1..])
  }

  /** Reference definition of the links of the station with id `x`: for every
      route in order and every neighbouring pair of its stops, a link to the
      earlier stop if `x` is the later one, then a link to the later stop if `x`
      is the earlier one. */
  function LinksOf(x: int, rs: seq<Route>): seq<ALink> {
    if rs == [] then [] else StopLinksOf(x, rs[0].name, None, rs[0].stops) + LinksOf(x, rs[1..])
  }

  /** The number of links a route adds: two per neighbouring pair of stops. */
  function PairCount(stops: seq<Stop>, linked: bool): nat {
    if stops == [] then 0 else if linked then 2 * |stops| else 2 * (|stops| - 1)
  }

  function RoutesPairCount(rs: seq<Route>): nat {
    if rs == [] then 0 else PairCount(rs[0].stops, false) + RoutesPairCount(rs[1..])
  }

  lemma AddLinkAtFacts(a: seq<AStation>, k: nat, l: ALink, x: int)
    requires k < |a|
    ensures AIds(AddLinkAt(a, k, l)) == AIds(a)
    ensures LookupName(AddLinkAt(a, k, l), x) == LookupName(a, x)
    ensures ADistinct(a) ==> ADistinct(AddLinkAt(a, k, l))
    ensures ADistinct(a) ==> LinksById(AddLinkAt(a, k, l), x) == LinksById(a, x) + (if a[k].id == x then [l] else [])
  {
    var b := AddLinkAt(a, k, l);
    assert AIds(b) == AIds(a);
    if ADistinct(a) && a[k].id == x {
      IndexOfDistinct(AIds(a), k);
    }
  }

  lemma {:induction false} LinkCountAddLinkAt(a: seq<AStation>, k: nat, l: ALink)
    requires k < |a|
    ensures LinkCount(AddLinkAt(a, k, l)) == LinkCount(a) + 1
    decreases |a|
  {
    var b := AddLinkAt(a, k, l);
    var n := |a| - 1;
    if k < n {
      assert b[..n] == AddLinkAt(a[..n], k, l);
      LinkCountAddLinkAt(a[..n], k, l);
    } else {
      assert b[..n] == a[..n];
    }
  }

  // Distinct ids.

  lemma VisitDistinct(a: seq<AStation>, s: Stop)
    requires ADistinct(a)
    ensures ADistinct(Visit(a, s).0)
  {
    if IndexOf(AIds(a), s.stationID) == -1 {
      assert forall k :: 0 <= k < |a| ==> AIds(a)[k] == a[k].id;
    }
  }

  lemma StepDistinct(a: seq<AStation>, rn: string, s: Stop, prev: Option<nat>)
    requires prev.Some? ==> prev.value < |a|
    requires ADistinct(a)
    ensures ADistinct(Step(a, rn, s, prev).0)
  {
    var v := Visit(a, s);
    VisitDistinct(a, s);
    if prev.Some? {
      var l1 := ALink(rn, v.0[prev.value].id, PrevDistance(s));
      AddLinkAtFacts(v.0, v.1, l1, 0);
      AddLinkAtFacts(AddLinkAt(v.0, v.1, l1), prev.value, ALink(rn, v.0[v.1].id, PrevDistance(s)), 0);
    }
  }

  lemma {:induction false} AddStopsDistinct(a: seq<AStation>, rn: string, stops: seq<Stop>, prev: Option<nat>)
    requires prev.Some? ==> prev.value < |a|
    requires ADistinct(a)
    ensures ADistinct(AddStops(a, rn, stops, prev))
    decreases |stops|
  {
    if stops != [] {
      var r := Step(a, rn, stops[0], prev);
      StepDistinct(a, rn, stops[0], prev);
      AddStopsDistinct(r.0, rn, stops[1..], Some(r.1));
    }
  }

  lemma {:induction false} AddRoutesDistinct(a: seq<AStation>, rs: seq<Route>)
    requires ADistinct(a)
    ensures ADistinct(AddRoutes(a, rs))
    decreases |rs|
  {
    if rs != [] {
      AddStopsDistinct(a, rs[0].name, rs[0].stops, None);
      AddRoutesDistinct(AddStops(a, rs[0].name, rs[0].stops, None), rs[1..]);
    }
  }

  // Names.

  lemma VisitNames(a: seq<AStation>, s: Stop, x: int)
    ensures LookupName(Visit(a, s).0, x) ==
              if LookupName(a, x).Some? then LookupName(a, x)
              else if x == s.stationID then Some(s.stationName) else None
  {
    var b := Visit(a, s).0;
    if IndexOf(AIds(a), s.stationID) == -1 {
      assert AIds(b) == AIds(a) + [s.stationID];
      IndexOfConcat(AIds(a), [s.stationID], x);
    }
  }

  lemma StepNames(a: seq<AStation>, rn: string, s: Stop, prev: Option<nat>, x: int)
    requires prev.Some? ==> prev.value < |a|
    ensures LookupName(Step(a, rn, s, prev).0, x) ==
              if LookupName(a, x).Some? then LookupName(a, x)
              else if x == s.stationID then Some(s.stationName) else None
  {
    var v := Visit(a, s);
    VisitNames(a, s, x);
    if prev.Some? {
      var l1 := ALink(rn, v.0[prev.value].id, PrevDistance(s));
      AddLinkAtFacts(v.0, v.1, l1, x);
      AddLinkAtFacts(AddLinkAt(v.0, v.1, l1), prev.value, ALink(rn, v.0[v.1].id, PrevDistance(s)), x);
    }
  }

  lemma {:induction false} AddStopsNames(a: seq<AStation>, rn: string, stops: seq<Stop>, prev: Option<nat>, x: int)
    requires prev.Some? ==> prev.value < |a|
    ensures LookupName(AddStops(a, rn, stops, prev), x) ==
              if LookupName(a, x).Some? then LookupName(a, x) else FirstNameOf(stops, x)
    decreases |stops|
  {
    if stops != [] {
      var r := Step(a, rn, stops[0], prev);
      StepNames(a, rn, stops[0], prev, x);
      AddStopsNames(r.0, rn, stops[1..], Some(r.1), x);
      FirstNameOfCons(stops, x);
    }
  }

  lemma FirstNameOfCons(stops: seq<Stop>, x: int)
    requires stops != []
    ensures FirstNameOf(stops, x) ==
              if stops[0].stationID == x then Some(stops[0].stationName) else FirstNameOf(stops[1..], x)
  {
    assert StopIds(stops) == [stops[0].stationID] + StopIds(stops[1..]);
    IndexOfConcat([stops[0].stationID], StopIds(stops[1..]), x);
  }

  lemma {:induction false} FirstNameOfConcat(p: seq<Stop>, q: seq<Stop>, x: int)
    ensures FirstNameOf(p + q, x) == if FirstNameOf(p, x).Some? then FirstNameOf(p, x) else FirstNameOf(q, x)
  {
    assert StopIds(p + q) == StopIds(p) + StopIds(q);
    IndexOfConcat(StopIds(p), StopIds(q), x);
  }

  lemma {:induction false} AddRoutesNames(a: seq<AStation>, rs: seq<Route>, x: int)
    ensures LookupName(AddRoutes(a, rs), x) ==
              if LookupName(a, x).Some? then LookupName(a, x) else FirstNameOf(AllStops(rs), x)
    decreases |rs|
  {
    if rs != [] {
      var b := AddStops(a, rs[0].name, rs[0].stops, None);
      AddStopsNames(a, rs[0].name, rs[0].stops, None, x);
      AddRoutesNames(b, rs[1..], x);
      FirstNameOfConcat(rs[0].stops, AllStops(rs[1..]), x);
    }
  }

  // Link counts.

  lemma VisitCount(a: seq<AStation>, s: Stop)
    ensures LinkCount(Visit(a, s).0) == LinkCount(a)
  {
    var b := Visit(a, s).0;
    if IndexOf(AIds(a), s.stationID) == -1 {
      assert b[..|b| - 1] == a;
    }
  }

  lemma StepCount(a: seq<AStation>, rn: string, s: Stop, prev: Option<nat>)
    requires prev.Some? ==> prev.value < |a|
    ensures LinkCount(Step(a, rn, s, prev).0) == LinkCount(a) + if prev.Some? then 2 else 0
  {
    var v := Visit(a, s);
    VisitCount(a, s);
    if prev.Some? {
      var l1 := ALink(rn, v.0[prev.value].id, PrevDistance(s));
      LinkCountAddLinkAt(v.0, v.1, l1);
      LinkCountAddLinkAt(AddLinkAt(v.0, v.1, l1), prev.value, ALink(rn, v.0[v.1].id, PrevDistance(s)));
    }
  }

  lemma {:induction false} AddStopsCount(a: seq<AStation>, rn: string, stops: seq<Stop>, prev: Option<nat>)
    requires prev.Some? ==> prev.value < |a|
    ensures LinkCount(AddStops(a, rn, stops, prev)) == LinkCount(a) + PairCount(stops, prev.Some?)
    decreases |stops|
  {
    if stops != [] {
      var r := Step(a, rn, stops[0], prev);
      StepCount(a, rn, stops[0], prev);
      AddStopsCount(r.0, rn, stops[1..], Some(r.1));
    }
  }

  lemma {:induction false} AddRoutesCount(a: seq<AStation>, rs: seq<Route>)
    ensures LinkCount(AddRoutes(a, rs)) == LinkCount(a) + RoutesPairCount(rs)
    decreases |rs|
  {
    if rs != [] {
      AddStopsCount(a, rs[0].name, rs[0].stops, None);
      AddRoutesCount(AddStops(a, rs[0].name, rs[0].stops, None), rs[1..]);
    }
  }

  // Links.

  lemma VisitLinks(a: seq<AStation>, s: Stop, x: int)
    ensures LinksById(Visit(a, s).0, x) == LinksById(a, x)
  {
    var b := Visit(a, s).0;
    if IndexOf(AIds(a), s.stationID) == -1 {
      assert AIds(b) == AIds(a) + [s.stationID];
      IndexOfConcat(AIds(a), [s.stationID], x);
    }
  }

  lemma StepLinks(a: seq<AStation>, rn: string, s: Stop, p: nat, ps: Stop, x: int)
    requires p < |a| && a[p].id == ps.stationID && ADistinct(a)
    ensures LinksById(Step(a, rn, s, Some(p)).0, x) == LinksById(a, x) + PairLinks(x, rn, ps, s)
  {
    var v := Visit(a, s);
    VisitLinks(a, s, x);
    VisitDistinct(a, s);
    assert v.0[p] == a[p];
    var d := PrevDistance(s);
    var l1 := ALink(rn, ps.stationID, d);
    var l2 := ALink(rn, s.stationID, d);
    var b := AddLinkAt(v.0, v.1, l1);
    AddLinkAtFacts(v.0, v.1, l1, x);
    assert LinksById(b, x) == LinksById(a, x) + (if s.stationID == x then [l1] else []);
    assert b[p].id == ps.stationID;
    AddLinkAtFacts(b, p, l2, x);
    assert Step(a, rn, s, Some(p)).0 == AddLinkAt(b, p, l2);
  }

  lemma {:induction false} AddStopsLinks(a: seq<AStation>, rn: string, stops: seq<Stop>, prev: Option<nat>, ps: Option<Stop>, x: int)
    requires ADistinct(a) && (prev.Some? <==> ps.Some?)
    requires prev.Some? ==> prev.value < |a| && a[prev.value].id == ps.value.stationID
    ensures LinksById(AddStops(a, rn, stops, prev), x) == LinksById(a, x) + StopLinksOf(x, rn, ps, stops)
    decreases |stops|
  {
    if stops != [] {
      var r := Step(a, rn, stops[0], prev);
      StepDistinct(a, rn, stops[0], prev);
      var here := if ps.Some? then PairLinks(x, rn, ps.value, stops[0]) else [];
      if prev.Some? {
        StepLinks(a, rn, stops[0], prev.value, ps.value, x);
      } else {
        VisitLinks(a, stops[0], x);
      }
      assert LinksById(r.0, x) == LinksById(a, x) + here;
      AddStopsLinks(r.0, rn, stops[1..], Some(r.1), Some(stops[0]), x);
      var rest := StopLinksOf(x, rn, Some(stops[0]), stops[1..]);
      assert StopLinksOf(x, rn, ps, stops) == here + rest;
      assert AddStops(a, rn, stops, prev) == AddStops(r.0, rn, stops[1..], Some(r.1));
      ConcatAssoc(LinksById(a, x), here, rest);
    }
  }

  lemma {:induction false} AddRoutesLinks(a: seq<AStation>, rs: seq<Route>, x: int)
    requires ADistinct(a)
    ensures LinksById(AddRoutes(a, rs), x) == LinksById(a, x) + LinksOf(x, rs)
    decreases |rs|
  {
    if rs != [] {
      var b := AddStops(a, rs[0].name, rs[0].stops, None);
      AddStopsDistinct(a, rs[0].name, rs[0].stops, None);
      AddStopsLinks(a, rs[0].name, rs[0].stops, None, None, x);
      AddRoutesLinks(b, rs[1..], x);
      ConcatAssoc(LinksById(a, x), StopLinksOf(x, rs[0].name, None, rs[0].stops), LinksOf(x, rs[1..]));
    }
  }

  /** The built graph has one station per distinct stop id and no other: the
      station with id `x` exists exactly when some stop has id `x`, and it
      carries the name of the first such stop (a later, different name for
      the same id does not rename it). */
  lemma BuildNames(routes: seq<Route>, x: int)
    ensures LookupName(BuildAbs(routes), x) == FirstNameOf(AllStops(routes), x)
  {
    AddRoutesNames([], routes, x);
  }

  /** No two stations of the built graph share an id. */
  lemma BuildDistinct(routes: seq<Route>)
    ensures ADistinct(BuildAbs(routes))
  {
    AddRoutesDistinct([], routes);
  }

  /** The links of every station are exactly those of the reference definition. */
  lemma BuildLinks(routes: seq<Route>, x: int)
    ensures LinksById(BuildAbs(routes), x) == LinksOf(x, routes)
  {
    AddRoutesLinks([], routes, x);
  }

  /** Two links per neighbouring pair of stops; the first stop of a route adds none. */
  lemma BuildLinkCount(routes: seq<Route>)
    ensures LinkCount(BuildAbs(routes)) == RoutesPairCount(routes)
  {
    AddRoutesCount([], routes);
  }

  /** The lookup-or-create part of one stop (app/network.js:125-135). */
  method FindOrCreate(g: Graph, stop: Stop, ghost a: seq<AStation>) returns (currentStation: Station)
    requires g.Valid() && Models(g.stationArray, a)
    modifies g
    ensures g.Valid() && Models(g.stationArray, Visit(a, stop).0)
    ensures currentStation == g.stationArray[Visit(a, stop).1]
    ensures g.stationArray == old(g.stationArray) || g.stationArray == old(g.stationArray) + [currentStation]
    ensures currentStation in old(g.stationArray) || fresh(currentStation)
  {
    var stationIndex := FindIndexById(g.stationArray, stop.stationID);
    assert Ids(g.stationArray) == AIds(a);
    assert forall k :: 0 <= k < |g.stationArray| ==> Ids(g.stationArray)[k] == g.stationArray[k].stationID;
    if stationIndex == -1 {
      currentStation := new Station(stop.stationID, stop.stationName);
      g.stationArray := g.stationArray + [currentStation];
      assert AbsLinks([]) == [];
    } else {
      currentStation := g.stationArray[stationIndex];
    }
  }

  /** `AbsLinks` of a list grown by one link. */
  lemma AbsLinksPush(ls: seq<Link>, l: Link)
    ensures AbsLinks(ls + [l]) == AbsLinks(ls) + [AbsLink(l)]
  {
    assert (ls + [l])[..|ls|] == ls;
  }

  /** Adding one link to the station at index `c` keeps the graph valid and
      adds the same link to the graph value. */
  method AddLinkTo(g: Graph, station: Station, link: Link, ghost a: seq<AStation>, ghost c: nat)
    requires g.Valid() && Models(g.stationArray, a)
    requires c < |a| && g.stationArray[c] == station && link.station in g.stationArray
    modifies station
    ensures g.Valid() && Models(g.stationArray, AddLinkAt(a, c, AbsLink(link)))
  {
    ghost var ss := g.stationArray;
    AbsLinksPush(station.links, link);
    station.AddLink(link);
    ghost var a1 := AddLinkAt(a, c, AbsLink(link));
    forall k | 0 <= k < |ss|
      ensures StationModels(ss[k], a1[k]) && LinksInto(ss[k], ss)
    {
      if k != c {
        assert ss[k].stationID != ss[c].stationID;
        assert old(StationModels(ss[k], a[k]) && LinksInto(ss[k], ss));
      }
    }
  }

  /** The linking part of one stop (app/network.js:137-146). */
  method LinkStations(g: Graph, currentStation: Station, previousStation: Station, routeName: string, d: int,
                      ghost a: seq<AStation>, ghost c: nat, ghost p: nat)
    requires g.Valid() && Models(g.stationArray, a)
    requires c < |a| && p < |a| && g.stationArray[c] == currentStation && g.stationArray[p] == previousStation
    modifies currentStation, previousStation
    ensures g.Valid() && Models(g.stationArray, Connect(a, routeName, c, p, d))
  {
    var linkFromPreviousToCurrent := Link(routeName, previousStation, d);
    var linkFromCurrentToPrevious := Link(routeName, currentStation, d);
    AddLinkTo(g, currentStation, linkFromPreviousToCurrent, a, c);
    AddLinkTo(g, previousStation, linkFromCurrentToPrevious, AddLinkAt(a, c, ALink(routeName, a[p].id, d)), p);
  }

  /** One pass of the stop loop (app/network.js:123-148); returns the station
      that becomes `previousStation`. */
  method AddStop(g: Graph, routeName: string, stop: Stop, previousStation: Station?,
                 ghost a: seq<AStation>, ghost prev: Option<nat>) returns (currentStation: Station)
    requires g.Valid() && Models(g.stationArray, a)
    requires previousStation == null <==> prev.None?
    requires prev.Some? ==> prev.value < |a| && g.stationArray[prev.value] == previousStation
    modifies g, set s | s in g.stationArray
    ensures g.Valid() && Models(g.stationArray, Step(a, routeName, stop, prev).0)
    ensures currentStation == g.stationArray[Step(a, routeName, stop, prev).1]
    ensures forall s :: s in g.stationArray ==> s in old(g.stationArray) || fresh(s)
  {
    ghost var v := Visit(a, stop);
    currentStation := FindOrCreate(g, stop, a);
    if previousStation != null {
      assert g.stationArray[prev.value] == previousStation;
      LinkStations(g, currentStation, previousStation, routeName, PrevDistance(stop), v.0, v.1, prev.value);
    }
  }

  /** The stop loop for one route (app/network.js:120-149): `previousStation`
      starts out unset, and each stop is found or created and linked to the
      one before it. */
  method AddRoute(g: Graph, route: Route, ghost a: seq<AStation>) returns (ghost a': seq<AStation>)
    requires g.Valid() && Models(g.stationArray, a)
    modifies g, set s | s in g.stationArray
    ensures g.Valid() && Models(g.stationArray, a')
    ensures a' == AddStops(a, route.name, route.stops, None)
    ensures forall s :: s in g.stationArray ==> s in old(g.stationArray) || fresh(s)
  {
    a' := a;
    var previousStation: Station? := null;
    ghost var prev: Option<nat> := None;
    var j := 0;
    assert route.stops[0..] == route.stops;
    while j < |route.stops|
      invariant 0 <= j <= |route.stops|
      invariant forall s :: s in g.stationArray ==> s in old(g.stationArray) || fresh(s)
      invariant g.Valid() && Models(g.stationArray, a')
      invariant previousStation == null <==> prev.None?
      invariant prev.Some? ==> prev.value < |a'| && g.stationArray[prev.value] == previousStation
      invariant AddStops(a', route.name, route.stops[j..], prev) == AddStops(a, route.name, route.stops, None)
    {
      var stop := route.stops[j];
      assert route.stops[j..][1..] == route.stops[j + 1..];
      ghost var r := Step(a', route.name, stop, prev);
      assert AddStops(a', route.name, route.stops[j..], prev) == AddStops(r.0, route.name, route.stops[j + 1..], Some(r.1));
      previousStation := AddStop(g, route.name, stop, previousStation, a', prev);
      a', prev := r.0, Some(r.1);
      j := j + 1;
    }
    assert route.stops[j..] == [];
  }

  /** `network()` (app/network.js:111-153), with the parsed routes as input. */
  method Build(routes: seq<Route>) returns (g: Graph)
    ensures fresh(g) && g.Valid()
    ensures forall s :: s in g.stationArray ==> fresh(s)
    ensures Models(g.stationArray, BuildAbs(routes))
  {
    g := new Graph();
    ghost var a: seq<AStation> := [];
    var i := 0;
    while i < |routes|
      invariant 0 <= i <= |routes|
      invariant fresh(g)
      invariant forall s :: s in g.stationArray ==> fresh(s)
      invariant g.Valid() && Models(g.stationArray, a)
      invariant AddRoutes(a, routes[i..]) == BuildAbs(routes)
    {
      assert routes[i..][0] == routes[i] && routes[i..][1..] == routes[i + 1..];
      a := AddRoute(g, routes[i], a);
      i := i + 1;
    }
  }
}
