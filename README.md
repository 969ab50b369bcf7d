# Railway network pathfinder, modelled in Dafny

This project models the two parts of the Node.js railway pathfinder that hold
its logic.

- `app/network.js` builds a station graph from parsed route records. Each
  station has links to its neighbours along every route. It then searches that
  graph depth-first for journeys between two named stations and returns the
  best few, ranked by number of changes and then by distance.
- `app/railway.js` holds small queries and updates over the route records:
  - route names, and the names joined into one string;
  - lookup of a route by name;
  - route distances, and writing them into the records;
  - the number of distinct stations;
  - the distance between two stops, and finding a route that connects two
    stations;
  - sorting the routes by name.

The model keeps the source's form:
- `Station` and `Journey` are classes whose fields change in place.
- The graph is a class holding the station list.
- The builder and the search are methods with loops and recursion.
- `addDistances` and `sortRoutesByName` change one array in place.

Each method is proved against a reference definition on plain values, and the
properties the source promises are proved about that definition.

Files:
- `wrappers.dfy`: `Option` and `Result`.
- `sequtil.dfy`: `findIndex`-style and last-match searches over sequences.
- `routedata.dfy`: the route and stop records, with the distance sums over
  stops.
- `sorting.dfy`: `Array.prototype.sort` with a consistent comparator, as an
  in-place insertion sort.
- `network.dfy`: the graph and `network()`. `BuildAbs` is the builder as a fold
  over values, and the lemmas state what it builds.
- `journeys.dfy`: the journey object, the search `doGetBestRoutes` and
  `getBestJourney`. `Explore`, `ExploreLinks` and `Follow` are the search as a
  reference definition on journey values.
- `railway.dfy`: the queries of `app/railway.js`.

Inputs and outputs are plain values:
- `network()` takes the parsed routes instead of a file name.
- `getBestJourney` returns a `Result`. Its failure cases are the three ways the
  JavaScript throws a `TypeError`:
  - the origin name is unknown;
  - the origin station has no links, so `links[0]` is undefined;
  - the destination name is unknown.
- `findRoute` returns a `FindOutcome`, and `Message` renders it as the
  function's exact string.

## Model

| member | source | states |
|---|---|---|
| SeqUtil.IndexOf | app/network.js:125 | `findIndex` by equality: -1 exactly when the value is absent, otherwise the index of its first occurrence |
| RouteData.PrevDistance | app/network.js:140-142 | `stop.distanceToPrev \|\| 0`: the recorded distance, or 0 when it is absent (defined by cases on the optional value; see `PrevDistanceFalsy`) |
| RouteData.PrevDistanceFalsy | app/network.js:140-142 | the distance reads as 0 exactly when it is absent or 0, and otherwise is the recorded value, as JavaScript's `\|\|` gives |
| Network.Station.constructor | app/network.js:58-63 | a new station has the given id and name and no links |
| Network.Graph.constructor | app/network.js:114-116 | the graph starts with an empty station list, which is valid |
| Network.FindIndexById | app/network.js:125 | `findIndex` by `stationID`, defined as `IndexOf` over the list of ids |
| Network.FindIndexByIdMeaning | app/network.js:125 | -1 exactly when no station has the id; otherwise the index of the first station that has it |
| Network.Station.AddLink | app/network.js:46-48 | appends the link to the station's links and changes nothing else |
| Network.FindByName | app/network.js:158-159 | `find` by name: none exactly when no station has the name, otherwise the first station that has it |
| Network.Visit | app/network.js:125-135 | finding a station or creating it only appends, and the station at the returned index has the stop's id |
| Network.BuildDistinct | app/network.js:125-135 | no two stations of the built graph share a `stationID` |
| Network.BuildNames | app/network.js:125-135 | a station with id `x` exists exactly when some stop has id `x`, and its name is the one on the first such stop (a repeated id keeps the first name) |
| Network.BuildLinks | app/network.js:137-146 | the links of the station with id `x` are, route by route and pair by pair, a link to the earlier stop when `x` is the later one, then a link to the later stop when `x` is the earlier one; each carries the route name and the later stop's `distanceToPrev` (absent or 0 reads as 0) |
| Network.BuildLinkCount | app/network.js:120-148 | the graph has 2·(\|stops\|−1) links per non-empty route, because the first stop of each route adds none |
| Network.AddRoutesDistinct | app/network.js:119-150 | the route loop keeps station ids distinct |
| Network.AddRoutesNames | app/network.js:119-150 | the route loop gives a new id the name of its first stop and never renames a station |
| Network.AddRoutesLinks | app/network.js:119-150 | the route loop appends each station's links from the reference definition, per route |
| Network.AddRoutesCount | app/network.js:119-150 | the route loop adds two links per neighbouring pair of stops |
| Network.AddStopsLinks | app/network.js:123-149 | one route's stop loop appends, to each station, the links its neighbouring pairs give it |
| Network.AddStopsNames | app/network.js:123-149 | one route's stop loop names new stations after their first stop |
| Network.AddStopsCount | app/network.js:123-149 | one route's stop loop adds two links per neighbouring pair (none before the first stop) |
| Network.StepLinks | app/network.js:137-146 | linking a stop to the previous one adds the current-to-previous link, then the previous-to-current link |
| Network.Connect | app/network.js:137-146 | the two `addLink` calls on values: the current station gains a link to the previous one, then the previous station a link to the current one, both with the route name and the given distance. `StepLinks` states what this adds per station |
| Network.Step | app/network.js:123-148 | one stop on values: find or create its station (`Visit`), then, when there is a previous station, `Connect` the pair with `distanceToPrev \|\| 0`; the station reached is at the returned index, which has the stop's id |
| Network.AddStops | app/network.js:123-149 | the stop loop of one route on values: `Step` for each stop in order, each stop's station becoming the next one's previous station. `AddStopsLinks`, `AddStopsNames` and `AddStopsCount` state what it builds |
| Network.AddRoutes | app/network.js:119-150 | the route loop on values: `AddStops` for each route in order, with no previous station at the start of a route. `AddRoutesDistinct`, `AddRoutesNames`, `AddRoutesLinks` and `AddRoutesCount` state what it builds |
| Network.BuildAbs | app/network.js:111-153 | the graph `network()` builds, as a value: `AddRoutes` from an empty station list. `BuildDistinct`, `BuildNames`, `BuildLinks` and `BuildLinkCount` state it over every route list |
| Network.FindOrCreate | app/network.js:125-135 | the graph afterwards is the find-or-create value; the station list grows by at most the returned, newly created station |
| Network.AddLinkTo | app/network.js:144-145 | adding one link keeps every link inside the graph and adds exactly that link to the graph value |
| Network.LinkStations | app/network.js:137-146 | the two links of one pair turn the graph into the one the reference definition gives |
| Network.AddStop | app/network.js:123-148 | one pass of the stop loop produces the reference step's graph, and the returned station is at the step's index |
| Network.AddRoute | app/network.js:120-149 | the stop loop of one route produces the reference fold's graph, and `previousStation` starts unset |
| Network.Build | app/network.js:111-153 | `network()` yields a graph with distinct ids, links only to its own stations, and exactly the stations and links of `BuildAbs` |
| Journeys.Journey.constructor | app/network.js:83-89 | a new journey is empty: no stations, distance 0, empty text, not successful, no changes |
| Journeys.Journey.Copy | app/network.js:92-100 | the copy is a new object equal in all five fields; its `stations` is a value, so pushes and pops on the copy never reach the original |
| Journeys.Journey.IncDistance | app/network.js:103-107 | adds `amt` to `distance` only when it is positive; nothing else changes |
| Journeys.EmbarkText | app/network.js:218 | the text `Embark at <origin> on <route>. ` followed by a newline |
| Journeys.ChangeText | app/network.js:225 | the text `At <origin>, change to <route>. ` |
| Journeys.Extend | app/network.js:201-227 | one hop on a journey value: the origin stop (distance 0) is added first when the journey is empty, then the linked station with the link's distance; the distance grows by the link's distance; the embark text is added when two stops are recorded, and a change (count and text) when the route differs and more than two stops are recorded. Its properties are stated by `ExtendOk` |
| Journeys.RollBack | app/network.js:233-238 | the rollback on a journey value: drop the last stop, subtract its distance, and put back the saved text and changes. `RollBackExtend` states that it undoes `Extend` |
| Journeys.ExploreLinks | app/network.js:198-241 | the link loop on journey values: a link whose target's name is already on the journey is skipped, any other is followed with `Follow`, and the journey the branch leaves is the one the loop continues with. `ExploreLinksFound` states what it finds |
| Journeys.LinkMapClosed | app/network.js:198 | in a valid graph every link the search follows leads to a station of the graph |
| Journeys.HopMeasure | app/network.js:199-211 | a hop past the guard adds a station name not yet on the journey, so the search terminates, and the rollback keeps every earlier name |
| Journeys.Explore | app/network.js:188-195 | the base case marks the caller's own journey successful, and otherwise the caller's journey is untouched |
| Journeys.Follow | app/network.js:199-238 | after a branch, with or without rollback, the loop's journey still has every name it had before |
| Journeys.DoGetBestRoutes | app/network.js:184-243 | the journey passed in and the journeys appended to `routesFound` are those of the reference search; the base case pushes the caller's own object, and everything else pushed is new |
| Journeys.LinkLoop | app/network.js:198-241 | the link loop appends the journeys the reference loop finds and never changes the journey object passed in |
| Journeys.LinkStep | app/network.js:198-241 | one turn either skips a link whose target's name is on the journey or follows it |
| Journeys.Branch | app/network.js:199-239 | a followed link leaves the loop's journey as the reference branch gives it: rolled back only when the branch failed and the origin has more than one link |
| Journeys.Descend | app/network.js:201-230 | the copy, the pushes, the text and change updates and the recursive call; `previousText` and `previousChanges` are the values before the hop |
| Journeys.Restore | app/network.js:233-238 | the rollback pops the last stop, subtracts its distance, restores `text` and `changes`, and leaves the found journeys alone |
| Journeys.Hop | app/network.js:201-227 | the new journey object holds the extended value, and the saved text and changes are those of the journey it copies |
| Journeys.ExtendOk | app/network.js:203-227 | a hop keeps distance equal to the sum of the stops' distances, keeps the first stop as the origin with distance 0, and adds at most one change, only when the route differs and more than two stops are recorded |
| Journeys.RollBackExtend | app/network.js:214-215 | a rollback straight after a hop restores `stations`, `distance`, `text` and `changes` to their values before the hop; a journey that was empty keeps the origin stop it gained |
| Journeys.FollowRestores | app/network.js:229-238 | after a branch whose search failed, from an origin with more than one link, the loop's journey is the one before the hop; an empty journey keeps the origin stop it gained |
| Journeys.FollowKeeps | app/network.js:230-238 | the journey the loop continues with, rolled back or not, still meets the search invariant |
| Journeys.ExploreFound | app/network.js:184-243 | every journey a search call pushes is successful, ends at the destination's name and meets the search invariant |
| Journeys.ExploreLinksFound | app/network.js:198-241 | the same for every journey the link loop pushes |
| Journeys.FollowFound | app/network.js:199-238 | the same for one branch, whose journey afterwards still meets the invariant |
| Journeys.SearchFound | app/network.js:166 | every journey found from an empty journey is successful and ends at a station named like the destination (it is empty only when origin and destination share a name); its first stop is the origin with distance 0, its distance is the sum of its stops' distances, no station name repeats except on the unguarded first hop, and it has at most one change per hop after the first |
| Journeys.RankLeTotalPreorder | app/network.js:170-174 | the comparator (fewer changes first, then the shorter distance) is total and transitive |
| Journeys.RankCompare | app/network.js:170-174 | the ranking comparator as written: -1 for fewer changes, 1 for more, otherwise the distance difference. `RankLe` agrees with it |
| Journeys.RankLe | app/network.js:170-174 | `x` may go before `y` exactly when the comparator as written (`RankCompare`: -1 for fewer changes, 1 for more, else the distance difference) returns at most 0 |
| Journeys.SliceEnd | app/network.js:177 | `slice(0, end)` keeps `min(end, n)` elements for a non-negative `end`, and `max(n + end, 0)` for a negative one |
| Journeys.Search | app/network.js:160-166 | the search from a new, empty journey finds exactly the reference search's journeys, and each of them is as `SearchFound` states |
| Journeys.RankAndCut | app/network.js:170-177 | the result has the slice's length, is sorted by (changes, distance), is a sub-multiset of what was found, and ranks no kept journey after a dropped one |
| Journeys.GetBestJourney | app/network.js:155-180 | fails, in this order, for an unknown origin, an origin without links or an unknown destination, and succeeds exactly when none of these holds; a success holds the best `max_results` found journeys in rank order, each successful and ending at the destination |
| Sorting.SortInPlace | app/network.js:170-174 | the array ends up sorted by the comparator and is a permutation of what it held |
| Sorting.PrefixBelowRest | app/network.js:177 | in a sorted list every element of a prefix is ranked at most every element left out |
| Railway.RailwayData.constructor | app/railway.js:55 | the record holds the network name and the routes array as parsed |
| Railway.GetNetworkName | app/railway.js:89-98 | no name for a missing network, otherwise its `networkName` |
| Railway.GetRoutes | app/railway.js:150-159 | `[]` for a missing network, otherwise its routes |
| Railway.RouteNames | app/railway.js:121-128 | the names, one per route, in route order |
| Railway.GetRouteNames | app/railway.js:111-131 | none for a missing network; otherwise as many names as routes, the i-th being the i-th route's name |
| Railway.RouteNamesToString | app/railway.js:171-184 | none exactly for a missing network |
| Railway.Join | app/railway.js:181 | `join(",\n")`: the elements with the separator between neighbours and none at the ends. `SplitJoin` states its inverse |
| Railway.SplitJoin | app/railway.js:181 | joining with ",\n" loses nothing: splitting at the separators gives the list back, for a non-empty list whose elements hold no separator |
| Railway.RouteNamesRoundTrip | app/railway.js:171-184 | splitting the result of `routeNamesToString` at ",\n" gives the route names in order, when no name holds the separator |
| Railway.GetRoute | app/railway.js:200-224 | none exactly for a missing network or when no route has the name; otherwise a route with that name that no later route shares, i.e. the last match |
| Railway.RouteDistance | app/railway.js:269-283 | 0 for a missing route, otherwise the sum of `distanceToNext` over its stops |
| Railway.WithDistances | app/railway.js:445-451 | keeps every route's name and stops and sets its distance to the sum of its stops' `distanceToNext` |
| Railway.AddDistances | app/railway.js:437-452 | writes every route's distance in place and changes nothing else; a missing network is left alone |
| Railway.WithDistancesIdempotent | app/railway.js:437-452 | adding the distances twice gives what adding them once gives |
| Railway.TotalStations | app/railway.js:501-526 | 0 for a missing network, otherwise the number of distinct station names over all stops of all routes |
| Railway.AddStationNames | app/railway.js:517-521 | the inner loop adds the names of one route's stops to the set |
| Railway.StationCountBound | app/railway.js:501-526 | there are never more distinct station names than stops |
| Railway.StationNamesMember | app/railway.js:515-522 | a name is counted exactly when some stop of some route carries it |
| Railway.StationNamesPermutation | app/railway.js:343-372 | reordering the routes, as sorting by name does, leaves the station count alone |
| Railway.StationNamesWithDistances | app/railway.js:437-452 | adding the distances leaves the station count alone |
| Railway.CalculateDistance | app/railway.js:588-601 | the sum of `distanceToNext` from the lower index up to, but not including, the higher one |
| Railway.RangeDistance | app/railway.js:588-601 | the sum of `distanceToNext` over the stops from the lower index up to, not including, the higher one, and 0 for equal indices. `RangeDistanceSymmetric`, `RangeDistanceSplit` and `RangeDistanceWhole` state its properties |
| Railway.RangeDistanceSymmetric | app/railway.js:591-592 | the distance does not depend on which index comes first |
| Railway.RangeDistanceSplit | app/railway.js:594-597 | distances add up: a to b plus b to c is a to c |
| Railway.RangeDistanceWhole | app/railway.js:588-601 | from the first stop to the end it is the route distance of `routeDistance` |
| Railway.LastStopIndex | app/railway.js:556-563 | -1 or the index of a stop with the name |
| Railway.LastStopIndexMeaning | app/railway.js:556-563 | -1 exactly when no stop has the name; otherwise no later stop has it (the last occurrence) |
| Railway.LastIndices | app/railway.js:553-563 | the stop loop finds the last occurrence of each of the two names, or -1 |
| Railway.Hit | app/railway.js:565-569 | the report for a route that has both names: its name, \|toIndex − fromIndex\| stops and the distance between the last occurrences of the two names |
| Railway.LastConnecting | app/railway.js:551-572 | -1 or the index of a route on which both names occur; being a `LastWhere`, no later route carries both |
| Railway.FindIn | app/railway.js:549-575 | the outer loop's final `result` over the routes: never "Data is null."; `FindInMeaning` states which report it is |
| Railway.FindInMeaning | app/railway.js:549-575 | "not found" exactly when no route carries both names; otherwise the report of the last route that does, with \|toIndex − fromIndex\| stops and the distance between the last occurrences |
| Railway.FindRoute | app/railway.js:545-575 | "Data is null." for a missing network, otherwise the report over the routes in array order |
| Railway.Message | app/railway.js:545-569 | the three strings `findRoute` returns: the `Found: ` prefix exactly for a found route, and "Data is null." exactly for a missing network |
| Railway.IntToString | app/railway.js:568-569 | an integer in a template literal: decimal digits, with a leading minus sign when negative |
| Railway.NameOrderTotalPreorder | app/railway.js:352-369 | both name comparators, on upper-cased names with JavaScript's string order, are total and transitive |
| Railway.Upper | app/railway.js:354-355 | ASCII `toUpperCase`: same length, no lower-case letter left, and every character that is not a lower-case letter kept |
| Railway.LexLess | app/railway.js:360-366 | JavaScript's `<` on strings: it never holds between equal strings, and a proper prefix comes first |
| Railway.NameLe | app/railway.js:352-362 | holds exactly when the ascending comparator as written (`NameCompare` with `asc` true) returns at most 0 |
| Railway.NameGe | app/railway.js:352-368 | holds exactly when the descending comparator as written (`NameCompare` with `asc` false) returns at most 0 |
| Railway.NameCompare | app/railway.js:352-368 | the name comparator as written: on upper-cased names, -1, 1 or 0 by string `<`, in the order `asc` chooses. `NameLe` and `NameGe` agree with it |
| Railway.LexTotal | app/railway.js:360-366 | two different strings are ordered one way or the other |
| Railway.LexTransitive | app/railway.js:360-366 | string order is transitive |
| Railway.LexAsymmetric | app/railway.js:360-366 | no two strings are each before the other |
| Railway.SortRoutesByName | app/railway.js:343-372 | none for a missing network; otherwise the routes array, sorted in place into a permutation of itself, non-decreasing by upper-cased name when `asc` is truthy and non-increasing otherwise |

## Left out

- `readData` (app/railway.js:43-70) and its call in `network()` (app/network.js:112) read a file and parse JSON. The parsed routes are the input instead.
- Both `main` functions, the argument checks, `displayRoutes` and `printNetworkGraph` are console I/O (app/network.js:16-41, 245-286; app/railway.js:610-703).
- The console messages that `addDistances`, `totalStations` and `sortRoutesByName` print for a missing network are I/O. Only the return values are modelled.
- `routeToString` and `routeSummary` (app/railway.js:235-325) are presentation: number formatting and `padEnd`.
- `sortRoutesByLength` (app/railway.js:391-420) is left out. Its comparator never returns 1, because each branch's second test repeats the first, so the order it gives depends on the engine's sort algorithm.
- `findLongestRoute` (app/railway.js:464-486) is left out. It compares numbers with `[]` and with a route object, so its result comes from JavaScript type coercion.
- Numbers are unbounded integers: floats, NaN and non-numeric values are not modelled.
  - `stop.distanceToPrev || 0` reads an absent value or 0 as 0.
  - `max_results` is an integer. The conversion of the `maxTransfers` command-line string is not modelled.
- Journeys.Journey.IncDistance: `amt` is an integer, so the `typeof amt === 'number'` test always holds, and the method is never called by the search.
- Railway.SortRoutesByName: `toUpperCase` is ASCII-only. Strings compare character by character, not by UTF-16 code unit, so characters outside the Basic Multilingual Plane, and case mapping outside ASCII, are not modelled.
- Sorting.SortInPlace: does not state stability (`Array.prototype.sort` keeps elements the comparator ranks equal in their original order). Only sortedness and permutation are stated.
- Journeys.RankAndCut: does not state that journeys of equal rank keep the order in which they were found, so which of several equal-rank journeys survive the `slice` is not fixed by the contract.
- Railway.SortRoutesByName: does not state that routes with equal upper-cased names keep their relative order (`Array.prototype.sort` is stable). Only sortedness and permutation are stated.
- Journeys.GetBestJourney: does not state that journeys of equal rank keep the order in which they were found. Only sortedness, the kept-before-dropped order and the sub-multiset are stated.
- Journeys.GetBestJourney: returns the values of the found journeys, not the journey objects. The result array's aliasing of those objects is not modelled.
- Journeys.GetBestJourney: the `TypeError`s the JavaScript throws are modelled as `SearchError` values.
- Railway.GetRoutes: returns the routes' contents as a value, not the `data.routes` array object itself. No modelled operation writes through the returned array, so that aliasing is not captured.
- Railway.GetRoute: returns the route as a value. Later changes made through the returned object are not modelled.
- Every route record has a `stops` list. So the `!route.stops` test of `routeDistance` (app/railway.js:271) is not modelled, and neither is the `TypeError` that `network()` (app/network.js:123), `totalStations` (app/railway.js:517) and `findRoute` (app/railway.js:556) throw on a route without one.
- Railway.CalculateDistance: requires the indices it reads to lie within the stops. The JavaScript throws a `TypeError` when they do not, and `findRoute` only passes indices it found.
- Railway.Message: renders the `findRoute` string, with integers in decimal. Only what tells the three outcomes apart is proved, not the layout of the found report.
- A missing network is a null reference. `null` and `undefined` are not told apart, and neither are the `=== null` and falsy tests.
