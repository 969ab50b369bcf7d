/** The journey search of app/network.js: the `Journey` object with `copy` and
    `incDistance`, the depth-first search `doGetBestRoutes`, and
    `getBestJourney`, which ranks what the search found. The search method is
    tied to `Explore`, a reference definition of the same search on journey
    values; the lemmas below say what every journey it finds looks like. */
module Journeys {
  import opened Wrappers
  import opened SeqUtil
  import opened Network
  import opened Sorting

  /** One entry `{name, distance}` of a journey's `stations`. */
  datatype JStop = JStop(name: string, distance: int)

  /** The five fields of a journey, as a value. */
  datatype JourneyValue = JourneyValue(stations: seq<JStop>, distance: int, text: string, success: bool, changes: int)

  /** What `new Journey()` holds. */
  const EmptyJourney := JourneyValue([], 0, "", false, 0)

  /** The search state `Journey` (app/network.js:83-89). */
  class Journey {
    var stations: seq<JStop>
    var distance: int
    var text: string
    var success: bool
    var changes: int

    function Value(): JourneyValue
      reads this
    {
      JourneyValue(stations, distance, text, success, changes)
    }

    constructor ()
      ensures Value() == EmptyJourney
    {
      stations := [];
      distance := 0;
      text := "";
      success := false;
      changes := 0;
    }

    /** `Journey.prototype.copy`: a new journey holding the same five fields.
        `stations` is a value here, so later pushes and pops on the copy can
        never reach the original. */
    method Copy() returns (r: Journey)
      ensures fresh(r) && r.Value() == Value()
    {
      r := new Journey();
      r.stations := stations;
      r.distance := distance;
      r.text := text;
      r.success := success;
      r.changes := changes;
    }

    /** `Journey.prototype.incDistance`: only a positive amount is added. */
    method IncDistance(amt: int)
      modifies this
      ensures Value() == old(Value()).(distance := if amt > 0 then old(distance) + amt else old(distance))
    {
      if amt > 0 {
        distance := distance + amt;
      }
    }
  }

  /** The values of a list of journeys. */
  function Values(js: seq<Journey>): seq<JourneyValue>
    reads js
  {
    if js == [] then [] else Values(js[..|js| - 1]) + [js[|js| - 1].Value()]
  }

  // ---------------------------------------------------------------------------
  // One hop of the search, on values.

  function EmbarkText(origin: string, routeName: string): string {
    "Embark at " + origin + " on " + routeName + ". \n"
  }

  function ChangeText(origin: string, routeName: string): string {
    "At " + origin + ", change to " + routeName + ". "
  }

  /** The names already on a journey; the cycle guard of app/network.js:199. */
  function JNames(st: seq<JStop>): set<string> {
    set x | x in st :: x.name
  }

  /** The copy that follows `link` from the station named `origin`, when the
      previous hop was on route `routeName` (app/network.js:201-227). */
  function Extend(cur: JourneyValue, origin: string, link: Link, routeName: string): JourneyValue {
    var s0 := if cur.stations == [] then [JStop(origin, 0)] else cur.stations;
    var s1 := s0 + [JStop(link.station.stationName, link.distance)];
    var t1 := if |s1| == 2 then cur.text + EmbarkText(origin, link.routeName) else cur.text;
    var change := link.routeName != routeName && |s1| > 2;
    JourneyValue(s1, cur.distance + link.distance,
                 if change then t1 + ChangeText(origin, link.routeName) else t1,
                 cur.success, if change then cur.changes + 1 else cur.changes)
  }

  /** The rollback after a failed branch (app/network.js:234-237): pop the last
      stop, subtract its distance, restore `text` and `changes`. */
  function RollBack(c: JourneyValue, text: string, changes: int): JourneyValue
    requires c.stations != []
  {
    var failed := c.stations[|c.stations| - 1];
    c.(stations := c.stations[..|c.stations| - 1], changes := changes, text := text,
       distance := c.distance - failed.distance)
  }

  // ---------------------------------------------------------------------------
  // The links the search walks. The search reads `origin.links` of stations of
  // the graph and never changes them, so the reference definition below takes
  // them as a value: `adj[s]` is `s.links`.

  type Adj = map<Station, seq<Link>>

  /** The links of every station of `g`. */
  function LinkMap(g: Graph): Adj
    reads g, g.stationArray
  {
    map s | s in g.stationArray :: s.links
  }

  /** Every link leads to a station that has an entry. */
  ghost predicate Closed(adj: Adj) {
    forall s, l :: s in adj && l in adj[s] ==> l.station in adj
  }

  /** `adj` holds the current links of each of its stations. */
  ghost predicate Holds(adj: Adj)
    reads adj.Keys
  {
    forall s :: s in adj ==> s.links == adj[s]
  }

  lemma LinkMapClosed(g: Graph)
    requires g.Valid()
    ensures Closed(LinkMap(g)) && Holds(LinkMap(g))
  {
    forall s, l | s in LinkMap(g) && l in LinkMap(g)[s]
      ensures l.station in LinkMap(g)
    {
      var k :| 0 <= k < |g.stationArray| && g.stationArray[k] == s;
      assert LinksInto(g.stationArray[k], g.stationArray);
    }
  }

  // ---------------------------------------------------------------------------
  // Termination: every hop adds a station name of the graph not yet on the
  // journey, and no step removes a name the journey had on entry.

  function AdjNames(adj: Adj): set<string> {
    set s | s in adj :: s.stationName
  }

  /** The names of the graph that the journey has not visited yet. */
  function Unvisited(adj: Adj, j: JourneyValue): nat {
    |AdjNames(adj) - JNames(j.stations)|
  }

  /** A subset is no larger, a proper subset strictly smaller. */
  lemma {:induction false} SubsetCard<T>(a: set<T>, b: set<T>)
    requires a <= b
    ensures |a| <= |b|
    ensures a < b ==> |a| < |b|
    decreases |b|
  {
    if a < b {
      var x :| x in b && x !in a;
      SubsetCard(a, b - {x});
    } else {
      assert a == b;
    }
  }

  lemma UnvisitedShrinks(adj: Adj, a: JourneyValue, b: JourneyValue, x: string)
    requires JNames(a.stations) <= JNames(b.stations)
    requires x in AdjNames(adj) && x !in JNames(a.stations) && x in JNames(b.stations)
    ensures Unvisited(adj, b) < Unvisited(adj, a)
  {
    var all := AdjNames(adj);
    assert all - JNames(b.stations) < all - JNames(a.stations) by {
      assert x in all - JNames(a.stations) && x !in all - JNames(b.stations);
    }
    SubsetCard(all - JNames(b.stations), all - JNames(a.stations));
  }

  lemma UnvisitedKeeps(adj: Adj, a: JourneyValue, b: JourneyValue)
    requires JNames(a.stations) <= JNames(b.stations)
    ensures Unvisited(adj, b) <= Unvisited(adj, a)
  {
    var all := AdjNames(adj);
    SubsetCard(all - JNames(b.stations), all - JNames(a.stations));
  }

  /** The names on a prefix are names of the whole list. */
  lemma JNamesPrefix(s: seq<JStop>, n: nat)
    requires n <= |s|
    ensures JNames(s[..n]) <= JNames(s)
  {
    forall x | x in JNames(s[..n])
      ensures x in JNames(s)
    {
      var y :| y in s[..n] && y.name == x;
    }
  }

  /** Following a link whose target is not on the journey adds a fresh
      graph name, and a rollback afterwards keeps every name of `cur`. */
  lemma HopMeasure(adj: Adj, origin: Station, cur: JourneyValue, link: Link, routeName: string)
    requires Closed(adj) && origin in adj && link in adj[origin]
    requires link.station.stationName !in JNames(cur.stations)
    ensures link.station in adj
    ensures Unvisited(adj, Extend(cur, origin.stationName, link, routeName)) < Unvisited(adj, cur)
    ensures JNames(cur.stations) <= JNames(Extend(cur, origin.stationName, link, routeName).stations)
    ensures JNames(cur.stations) <= JNames(RollBack(Extend(cur, origin.stationName, link, routeName), cur.text, cur.changes).stations)
  {
    var c1 := Extend(cur, origin.stationName, link, routeName);
    var s0 := if cur.stations == [] then [JStop(origin.stationName, 0)] else cur.stations;
    assert c1.stations == s0 + [JStop(link.station.stationName, link.distance)];
    assert c1.stations[..|s0|] == s0;
    JNamesPrefix(c1.stations, |s0|);
    assert JNames(cur.stations) <= JNames(s0);
    assert c1.stations[|s0|] in c1.stations;
    UnvisitedShrinks(adj, cur, c1, link.station.stationName);
  }

  // ---------------------------------------------------------------------------
  // The search, as a reference definition on values.

  /** `doGetBestRoutes(graph, origin, destination, j, found, routeName)` on
      values: the final value of the journey passed in (the base case marks it
      successful, nothing else touches it) and the journeys appended to
      `found`, in order (app/network.js:184-243). */
  function Explore(adj: Adj, origin: Station, destination: Station, j: JourneyValue, routeName: string)
    : (r: (JourneyValue, seq<JourneyValue>))
    requires Closed(adj) && origin in adj
    ensures r.0 == if origin.stationName == destination.stationName then j.(success := true) else j
    decreases Unvisited(adj, j), 1, 0
  {
    if origin.stationName == destination.stationName then
      var marked := j.(success := true);
      (marked, [marked])
    else
      (j, ExploreLinks(adj, origin, destination, j, routeName, 0))
  }

  /** The link loop of `doGetBestRoutes` from link `i` on, with `cur` the
      current value of the loop's journey variable. */
  function ExploreLinks(adj: Adj, origin: Station, destination: Station, cur: JourneyValue, routeName: string, i: nat)
    : seq<JourneyValue>
    requires Closed(adj) && origin in adj && i <= |adj[origin]|
    decreases Unvisited(adj, cur), 0, |adj[origin]| - i
  {
    if i == |adj[origin]| then []
    else
      var link := adj[origin][i];
      if link.station.stationName in JNames(cur.stations) then
        ExploreLinks(adj, origin, destination, cur, routeName, i + 1)
      else
        var b := Follow(adj, origin, destination, cur, routeName, link);
        UnvisitedKeeps(adj, cur, b.0);
        b.1 + ExploreLinks(adj, origin, destination, b.0, routeName, i + 1)
  }

  /** One branch of the link loop: copy and extend the journey, search from
      the link's target, and roll back if the branch failed and `origin` has
      other links. The result is the loop's journey afterwards and the
      journeys found in the branch. */
  function Follow(adj: Adj, origin: Station, destination: Station, cur: JourneyValue, routeName: string, link: Link)
    : (r: (JourneyValue, seq<JourneyValue>))
    requires Closed(adj) && origin in adj && link in adj[origin]
    requires link.station.stationName !in JNames(cur.stations)
    ensures JNames(cur.stations) <= JNames(r.0.stations)
    decreases Unvisited(adj, cur), 0, 0
  {
    HopMeasure(adj, origin, cur, link, routeName);
    var c1 := Extend(cur, origin.stationName, link, routeName);
    var e := Explore(adj, link.station, destination, c1, link.routeName);
    var c3 := if !e.0.success && |adj[origin]| > 1 then RollBack(e.0, cur.text, cur.changes) else e.0;
    (c3, e.1)
  }

  // ---------------------------------------------------------------------------
  // The search, on the journey objects.

  /** `doGetBestRoutes` (app/network.js:184-243). `routesFound` is the list the
      caller shares with every level of the recursion; the method returns it
      with the journeys this call pushed appended. `adj` names the links of
      the graph, which the search never changes. */
  method DoGetBestRoutes(g: Graph, origin: Station, destination: Station, currentJourney: Journey,
                         routesFound: seq<Journey>, routeName: string, ghost adj: Adj)
    returns (found: seq<Journey>)
    requires Closed(adj) && Holds(adj) && origin in adj
    requires currentJourney !in routesFound
    modifies currentJourney
    ensures currentJourney.Value() == Explore(adj, origin, destination, old(currentJourney.Value()), routeName).0
    ensures Values(found) == old(Values(routesFound)) + Explore(adj, origin, destination, old(currentJourney.Value()), routeName).1
    ensures if origin.stationName == destination.stationName then found == routesFound + [currentJourney]
            else forall x :: x in found ==> x in routesFound || fresh(x)
    decreases Unvisited(adj, currentJourney.Value()), 3, 0
  {
    if origin.stationName == destination.stationName {
      currentJourney.success := true;
      found := routesFound + [currentJourney];
      return;
    }
    found := LinkLoop(g, origin, destination, currentJourney, routesFound, routeName, adj);
  }

  /** The link loop of `doGetBestRoutes` (app/network.js:198-241). It starts
      from the journey passed in and never changes that object: every branch
      works on a copy. */
  method LinkLoop(g: Graph, origin: Station, destination: Station, currentJourney: Journey,
                  routesFound: seq<Journey>, routeName: string, ghost adj: Adj)
    returns (found: seq<Journey>)
    requires Closed(adj) && Holds(adj) && origin in adj
    ensures Values(found) == old(Values(routesFound)) + ExploreLinks(adj, origin, destination, currentJourney.Value(), routeName, 0)
    ensures forall x :: x in found ==> x in routesFound || fresh(x)
    decreases Unvisited(adj, currentJourney.Value()), 2, 0
  {
    ghost var j0 := currentJourney.Value();
    ghost var total := Values(routesFound) + ExploreLinks(adj, origin, destination, j0, routeName, 0);
    found := routesFound;
    var journey := currentJourney;
    var i: nat := 0;
    while i < |origin.links|
      invariant 0 <= i <= |origin.links| == |adj[origin]|
      invariant JNames(j0.stations) <= JNames(journey.stations)
      invariant forall x :: x in found ==> x in routesFound || fresh(x)
      invariant Values(found) + ExploreLinks(adj, origin, destination, journey.Value(), routeName, i) == total
    {
      UnvisitedKeeps(adj, j0, journey.Value());
      ghost var done := Values(found) + ExploreLinks(adj, origin, destination, journey.Value(), routeName, i);
      journey, found := LinkStep(g, origin, destination, journey, found, routeName, i, adj);
      i := i + 1;
      assert Values(found) + ExploreLinks(adj, origin, destination, journey.Value(), routeName, i) == done;
    }
  }

  /** One turn of the link loop of `doGetBestRoutes` (app/network.js:198-241):
      a link whose target's name is already on the journey is skipped. */
  method LinkStep(g: Graph, origin: Station, destination: Station, cur: Journey,
                  routesFound: seq<Journey>, routeName: string, i: nat, ghost adj: Adj)
    returns (journey: Journey, found: seq<Journey>)
    requires Closed(adj) && Holds(adj) && origin in adj && i < |origin.links|
    ensures journey == cur || fresh(journey)
    ensures JNames(old(cur.Value()).stations) <= JNames(journey.Value().stations)
    ensures Values(found) + ExploreLinks(adj, origin, destination, journey.Value(), routeName, i + 1)
            == old(Values(routesFound)) + ExploreLinks(adj, origin, destination, old(cur.Value()), routeName, i)
    ensures forall x :: x in found ==> x in routesFound || fresh(x)
    decreases Unvisited(adj, cur.Value()), 1, 0
  {
    var link := origin.links[i];
    journey, found := cur, routesFound;
    if link.station.stationName !in JNames(journey.stations) {
      ghost var cv := cur.Value();
      ghost var b := Follow(adj, origin, destination, cv, routeName, link);
      ghost var rest := ExploreLinks(adj, origin, destination, b.0, routeName, i + 1);
      assert ExploreLinks(adj, origin, destination, cv, routeName, i) == b.1 + rest;
      journey, found := Branch(g, origin, destination, cur, routesFound, routeName, link, adj);
      ConcatAssoc(old(Values(routesFound)), b.1, rest);
    }
  }

  /** The body of the link loop of `doGetBestRoutes` for a link that passes
      the guard (app/network.js:199-239). */
  method Branch(g: Graph, origin: Station, destination: Station, cur: Journey,
                routesFound: seq<Journey>, routeName: string, link: Link, ghost adj: Adj)
    returns (journey: Journey, found: seq<Journey>)
    requires Closed(adj) && Holds(adj) && origin in adj && link in origin.links
    requires link.station.stationName !in JNames(cur.stations)
    ensures fresh(journey) && journey.Value() == Follow(adj, origin, destination, old(cur.Value()), routeName, link).0
    ensures Values(found) == old(Values(routesFound)) + Follow(adj, origin, destination, old(cur.Value()), routeName, link).1
    ensures forall x :: x in found ==> x in routesFound || fresh(x)
    decreases Unvisited(adj, cur.Value()), 0, 1
  {
    HopMeasure(adj, origin, cur.Value(), link, routeName);
    var previousText, previousChanges;
    journey, found, previousText, previousChanges := Descend(g, origin, destination, cur, routesFound, routeName, link, adj);
    if !journey.success && |origin.links| > 1 {
      Restore(journey, previousText, previousChanges, found);
    }
  }

  /** The copy, the updates and the recursive call for one link
      (app/network.js:201-230). */
  method Descend(g: Graph, origin: Station, destination: Station, cur: Journey,
                 routesFound: seq<Journey>, routeName: string, link: Link, ghost adj: Adj)
    returns (journey: Journey, found: seq<Journey>, previousText: string, previousChanges: int)
    requires Closed(adj) && Holds(adj) && origin in adj && link in origin.links
    requires link.station.stationName !in JNames(cur.stations)
    ensures link.station in adj
    ensures fresh(journey)
    ensures journey.Value() == Explore(adj, link.station, destination, Extend(old(cur.Value()), origin.stationName, link, routeName), link.routeName).0
    ensures Values(found) == old(Values(routesFound)) + Explore(adj, link.station, destination, Extend(old(cur.Value()), origin.stationName, link, routeName), link.routeName).1
    ensures previousText == old(cur.text) && previousChanges == old(cur.changes)
    ensures forall x :: x in found ==> x in routesFound || fresh(x)
    ensures !journey.success ==> journey !in found
    decreases Unvisited(adj, cur.Value()), 0, 0
  {
    HopMeasure(adj, origin, cur.Value(), link, routeName);
    journey, previousText, previousChanges := Hop(cur, origin.stationName, link, routeName);
    assert journey !in routesFound;
    found := DoGetBestRoutes(g, link.station, destination, journey, routesFound, link.routeName, adj);
  }

  /** The rollback of app/network.js:234-237 on the journey object. */
  method Restore(journey: Journey, previousText: string, previousChanges: int, ghost found: seq<Journey>)
    requires journey.stations != [] && journey !in found
    modifies journey
    ensures journey.Value() == RollBack(old(journey.Value()), previousText, previousChanges)
    ensures Values(found) == old(Values(found))
  {
    var failedStation := journey.stations[|journey.stations| - 1];
    journey.stations := journey.stations[..|journey.stations| - 1];
    journey.changes := previousChanges;
    journey.text := previousText;
    journey.distance := journey.distance - failedStation.distance;
  }

  /** The copy and the updates before the recursive call (app/network.js:201-227),
      with the `text` and `changes` that a rollback restores. */
  method Hop(cur: Journey, origin: string, link: Link, routeName: string)
    returns (journey: Journey, previousText: string, previousChanges: int)
    ensures fresh(journey) && journey.Value() == Extend(cur.Value(), origin, link, routeName)
    ensures previousText == cur.text && previousChanges == cur.changes
  {
    journey := cur.Copy();
    if |journey.stations| == 0 {
      journey.stations := journey.stations + [JStop(origin, 0)];
    }
    journey.stations := journey.stations + [JStop(link.station.stationName, link.distance)];
    journey.distance := journey.distance + link.distance;
    previousText := journey.text;
    previousChanges := journey.changes;
    if |journey.stations| == 2 {
      journey.text := journey.text + EmbarkText(origin, link.routeName);
    }
    if link.routeName != routeName {
      if |journey.stations| > 2 {
        journey.changes := journey.changes + 1;
        journey.text := journey.text + ChangeText(origin, link.routeName);
      }
    }
  }

  // ---------------------------------------------------------------------------
  // What every journey of the search looks like.

  function SumDist(st: seq<JStop>): int {
    if st == [] then 0 else SumDist(st[..|st| - 1]) + st[|st| - 1].distance
  }

  /** The cycle guard's consequence: no name occurs twice, except that the
      first hop from an empty journey is checked against nothing, so the
      second stop may repeat the first one's name. */
  ghost predicate GuardOk(st: seq<JStop>) {
    forall p, q :: 0 <= p < q < |st| && 2 <= q ==> st[p].name != st[q].name
  }

  /** At most one change per hop after the first two stops. */
  ghost predicate ChangesOk(j: JourneyValue) {
    0 <= j.changes && (j.changes == 0 || j.changes <= |j.stations| - 2)
  }

  /** What holds of every journey of a search that started from the station
      named `top` with an empty journey. */
  ghost predicate InSearch(j: JourneyValue, top: string) {
    && j.distance == SumDist(j.stations)
    && GuardOk(j.stations)
    && ChangesOk(j)
    && (j.stations != [] ==> j.stations[0] == JStop(top, 0))
  }

  /** What holds of every journey the search pushes to `routesFound`. */
  ghost predicate FoundOk(f: JourneyValue, top: string, destination: string) {
    && InSearch(f, top)
    && f.success
    && (f.stations == [] ==> top == destination)
    && (f.stations != [] ==> f.stations[|f.stations| - 1].name == destination)
  }

  lemma SumDistPush(st: seq<JStop>, x: JStop)
    ensures SumDist(st + [x]) == SumDist(st) + x.distance
  {
    assert (st + [x])[..|st|] == st;
  }

  /** One hop keeps the journey invariant, ends the journey at the link's
      target, and adds at most one change, only on a route change after the
      first hop. */
  lemma ExtendOk(cur: JourneyValue, origin: string, link: Link, routeName: string, top: string)
    requires InSearch(cur, top) && (cur.stations == [] ==> origin == top)
    requires link.station.stationName !in JNames(cur.stations)
    ensures var c := Extend(cur, origin, link, routeName);
      && InSearch(c, top)
      && c.stations != [] && c.stations[|c.stations| - 1].name == link.station.stationName
      && c.success == cur.success
      && (c.changes == cur.changes || (c.changes == cur.changes + 1 && link.routeName != routeName && |c.stations| > 2))
  {
    var c := Extend(cur, origin, link, routeName);
    var s0 := if cur.stations == [] then [JStop(origin, 0)] else cur.stations;
    var t := JStop(link.station.stationName, link.distance);
    assert c.stations == s0 + [t];
    SumDistPush(s0, t);
    if cur.stations == [] {
      assert SumDist(s0) == SumDist([]) + 0 by { SumDistPush([], JStop(origin, 0)); }
    } else {
      forall p | 0 <= p < |s0|
        ensures s0[p].name != t.name
      {
        assert s0[p] in cur.stations;
      }
    }
  }

  /** A rollback right after a hop restores `stations`, `distance`, `text`
      and `changes` to their values before the hop, except that a journey
      that was empty keeps the origin it gained. */
  lemma RollBackExtend(cur: JourneyValue, origin: string, link: Link, routeName: string)
    ensures RollBack(Extend(cur, origin, link, routeName), cur.text, cur.changes) ==
            if cur.stations == [] then cur.(stations := [JStop(origin, 0)]) else cur
  {
    var s0 := if cur.stations == [] then [JStop(origin, 0)] else cur.stations;
    assert (s0 + [JStop(link.station.stationName, link.distance)])[..|s0|] == s0;
  }

  /** A failed branch from an origin with more than one link leaves the loop's
      journey as it was before the hop (app/network.js:233-238), bar the
      origin stop an empty journey gains. */
  lemma FollowRestores(adj: Adj, origin: Station, destination: Station, cur: JourneyValue, routeName: string,
                       link: Link)
    requires Closed(adj) && origin in adj && link in adj[origin] && link.station in adj
    requires link.station.stationName !in JNames(cur.stations)
    requires |adj[origin]| > 1
    requires !Explore(adj, link.station, destination, Extend(cur, origin.stationName, link, routeName),
                      link.routeName).0.success
    ensures Follow(adj, origin, destination, cur, routeName, link).0 ==
            if cur.stations == [] then cur.(stations := [JStop(origin.stationName, 0)]) else cur
  {
    RollBackExtend(cur, origin.stationName, link, routeName);
  }

  lemma {:induction false} ExploreFound(adj: Adj, origin: Station, destination: Station, j: JourneyValue,
                                        routeName: string, top: string)
    requires Closed(adj) && origin in adj
    requires InSearch(j, top) && (j.stations == [] ==> origin.stationName == top)
    requires j.stations != [] ==> j.stations[|j.stations| - 1].name == origin.stationName
    ensures forall f :: f in Explore(adj, origin, destination, j, routeName).1 ==> FoundOk(f, top, destination.stationName)
    decreases Unvisited(adj, j), 1, 0
  {
    if origin.stationName != destination.stationName {
      ExploreLinksFound(adj, origin, destination, j, routeName, 0, top);
    }
  }

  lemma {:induction false} ExploreLinksFound(adj: Adj, origin: Station, destination: Station, cur: JourneyValue,
                                             routeName: string, i: nat, top: string)
    requires Closed(adj) && origin in adj && i <= |adj[origin]|
    requires InSearch(cur, top) && (cur.stations == [] ==> origin.stationName == top)
    ensures forall f :: f in ExploreLinks(adj, origin, destination, cur, routeName, i) ==> FoundOk(f, top, destination.stationName)
    decreases Unvisited(adj, cur), 0, |adj[origin]| - i
  {
    if i < |adj[origin]| {
      var link := adj[origin][i];
      if link.station.stationName in JNames(cur.stations) {
        ExploreLinksFound(adj, origin, destination, cur, routeName, i + 1, top);
      } else {
        var b := Follow(adj, origin, destination, cur, routeName, link);
        FollowFound(adj, origin, destination, cur, routeName, link, top);
        UnvisitedKeeps(adj, cur, b.0);
        ExploreLinksFound(adj, origin, destination, b.0, routeName, i + 1, top);
      }
    }
  }

  lemma {:induction false} FollowFound(adj: Adj, origin: Station, destination: Station, cur: JourneyValue,
                                       routeName: string, link: Link, top: string)
    requires Closed(adj) && origin in adj && link in adj[origin]
    requires link.station.stationName !in JNames(cur.stations)
    requires InSearch(cur, top) && (cur.stations == [] ==> origin.stationName == top)
    ensures var b := Follow(adj, origin, destination, cur, routeName, link);
      InSearch(b.0, top) && b.0.stations != [] &&
      forall f :: f in b.1 ==> FoundOk(f, top, destination.stationName)
    decreases Unvisited(adj, cur), 0, 0
  {
    HopMeasure(adj, origin, cur, link, routeName);
    ExtendOk(cur, origin.stationName, link, routeName, top);
    var c1 := Extend(cur, origin.stationName, link, routeName);
    ExploreFound(adj, link.station, destination, c1, link.routeName, top);
    var e := Explore(adj, link.station, destination, c1, link.routeName);
    FollowKeeps(cur, origin.stationName, link, routeName, e.0, |adj[origin]| > 1, top);
  }

  /** The journey a hop hands back to the loop: the explored one, or the
      rollback of a failed one. */
  lemma FollowKeeps(cur: JourneyValue, origin: string, link: Link, routeName: string,
                    e: JourneyValue, several: bool, top: string)
    requires InSearch(cur, top) && (cur.stations == [] ==> origin == top)
    requires InSearch(Extend(cur, origin, link, routeName), top)
    requires Extend(cur, origin, link, routeName).stations != []
    requires e == Extend(cur, origin, link, routeName) || e == Extend(cur, origin, link, routeName).(success := true)
    ensures var c3 := if !e.success && several then RollBack(e, cur.text, cur.changes) else e;
      InSearch(c3, top) && c3.stations != []
  {
    if !e.success && several {
      RollBackExtend(cur, origin, link, routeName);
      if cur.stations == [] {
        assert SumDist([JStop(origin, 0)]) == 0 by { SumDistPush([], JStop(origin, 0)); }
      }
    }
  }

  /** Every journey the search finds from an empty journey reached a station
      named like the destination, is marked successful, starts at the origin
      with distance 0 (or is empty, when origin and destination share a name),
      has a distance equal to the sum of its stops' distances, passes no name
      twice (bar the unchecked first hop), and has at most one change per hop
      after the first. */
  lemma SearchFound(adj: Adj, origin: Station, destination: Station, routeName: string)
    requires Closed(adj) && origin in adj
    ensures forall f :: f in Explore(adj, origin, destination, EmptyJourney, routeName).1 ==>
              FoundOk(f, origin.stationName, destination.stationName)
  {
    ExploreFound(adj, origin, destination, EmptyJourney, routeName, origin.stationName);
  }

  // ---------------------------------------------------------------------------
  // Ranking.

  /** The comparator of app/network.js:170-174 as written: negative, zero or
      positive as `a` goes before, alongside or after `b`. */
  function RankCompare(a: JourneyValue, b: JourneyValue): int {
    if a.changes < b.changes then -1
    else if a.changes > b.changes then 1
    else a.distance - b.distance
  }

  /** `a` may go before `b`: fewer changes first, then the shorter distance. */
  function RankLe(x: JourneyValue, y: JourneyValue): (r: bool)
    ensures r <==> RankCompare(x, y) <= 0
  {
    x.changes < y.changes || (x.changes == y.changes && x.distance <= y.distance)
  }

  lemma RankLeTotalPreorder()
    ensures TotalPreorder(RankLe)
  {
  }

  /** `Array.prototype.slice(0, end)` on a list of length `n`: a negative
      `end` counts from the back. */
  function SliceEnd(n: nat, end: int): (r: nat)
    ensures r <= n
    ensures 0 <= end ==> r == if end < n then end else n
    ensures end < 0 ==> r == if n + end < 0 then 0 else n + end
  {
    if end < 0 then (if n + end < 0 then 0 else n + end) else if end < n then end else n
  }

  datatype SearchError =
    | OriginNotFound        // `find(...)` gives undefined and `.links` throws
    | OriginHasNoLinks      // `links[0]` is undefined and `.routeName` throws
    | DestinationNotFound   // `destination.stationName` throws in the search

  /** Line 166 of `getBestJourney`: the search from a fresh empty journey,
      with nothing found yet. */
  method Search(g: Graph, origin: Station, destination: Station, routeName: string)
    returns (found: seq<JourneyValue>)
    requires g.Valid() && origin in g.stationArray
    ensures found == Explore(LinkMap(g), origin, destination, EmptyJourney, routeName).1
    ensures forall f :: f in found ==> FoundOk(f, origin.stationName, destination.stationName)
  {
    ghost var adj := LinkMap(g);
    LinkMapClosed(g);
    var currentJourney := new Journey();
    var possibleJourneys := DoGetBestRoutes(g, origin, destination, currentJourney, [], routeName, adj);
    SearchFound(adj, origin, destination, routeName);
    found := Values(possibleJourneys);
  }

  /** Lines 170-177 of `getBestJourney`: sort by the comparator, then keep
      `slice(0, maxResults)`. */
  method RankAndCut(found: seq<JourneyValue>, maxResults: int) returns (r: seq<JourneyValue>)
    ensures |r| == SliceEnd(|found|, maxResults)
    ensures SortedBy(r, RankLe)
    ensures multiset(r) <= multiset(found)
    ensures forall x, y :: x in multiset(r) && y in multiset(found) - multiset(r) ==> RankLe(x, y)
  {
    var a := new JourneyValue[|found|](k requires 0 <= k < |found| => found[k]);
    assert a[..] == found;
    RankLeTotalPreorder();
    SortInPlace(a, RankLe);
    var e := SliceEnd(a.Length, maxResults);
    r := a[..e];
    PrefixBelowRest(a[..], e, RankLe);
    assert a[..] == r + a[e..];
    SortedPrefix(a[..], e, RankLe);
  }

  /** `getBestJourney` (app/network.js:155-180): search from the first station
      named `origin` to the first station named `destination` with the route
      of the origin's first link as the current route, sort what was found by
      the comparator, and keep the first `maxResults` (JavaScript slice
      semantics). */
  method GetBestJourney(g: Graph, origin: string, destination: string, maxResults: int)
    returns (r: Result<seq<JourneyValue>, SearchError>)
    requires g.Valid()
    ensures FindByName(g.stationArray, origin).None? ==> r == Failure(OriginNotFound)
    ensures FindByName(g.stationArray, origin).Some? && FindByName(g.stationArray, origin).value.links == [] ==>
              r == Failure(OriginHasNoLinks)
    ensures (FindByName(g.stationArray, origin).Some? && FindByName(g.stationArray, origin).value.links != [] &&
             FindByName(g.stationArray, destination).None?) ==> r == Failure(DestinationNotFound)
    ensures r.Success? <==>
              (FindByName(g.stationArray, origin).Some? && FindByName(g.stationArray, origin).value.links != [] &&
               FindByName(g.stationArray, destination).Some?)
    ensures r.Success? ==>
              && FindByName(g.stationArray, origin).Some? && FindByName(g.stationArray, destination).Some?
              && var o := FindByName(g.stationArray, origin).value;
                 var d := FindByName(g.stationArray, destination).value;
                 o.links != [] &&
                 var found := Explore(LinkMap(g), o, d, EmptyJourney, o.links[0].routeName).1;
                 && |r.value| == SliceEnd(|found|, maxResults)
                 && SortedBy(r.value, RankLe)
                 && multiset(r.value) <= multiset(found)
                 && (forall x, y :: x in multiset(r.value) && y in multiset(found) - multiset(r.value) ==> RankLe(x, y))
    ensures r.Success? ==> forall x :: x in r.value ==> FoundOk(x, origin, destination)
  {
    var originObject := FindByName(g.stationArray, origin);
    var destinationObject := FindByName(g.stationArray, destination);
    if originObject.None? {
      return Failure(OriginNotFound);
    }
    if originObject.value.links == [] {
      return Failure(OriginHasNoLinks);
    }
    var initialRouteName := originObject.value.links[0].routeName;
    if destinationObject.None? {
      return Failure(DestinationNotFound);
    }
    var possibleJourneys := Search(g, originObject.value, destinationObject.value, initialRouteName);
    var topNResults := RankAndCut(possibleJourneys, maxResults);
    assert forall x :: x in topNResults ==> x in multiset(possibleJourneys);
    return Success(topNResults);
  }
}
