/** How the SQLite server picks a handler: Express tries the routes in the
    order they were registered and runs the first whose method and path
    pattern match; a request no route matches falls through to the 404
    handler. Patterns are compared segment by segment, `:name` segments match
    any non-empty segment, literal segments match without regard to case, and
    one trailing slash is ignored. */
module SqliteRoutes {
  import opened Wrappers
  import opened Text

  datatype Segment = Lit(text: string) | Param
  datatype Route = Route(verb: string, pattern: seq<Segment>)

  /** The routes of api/sqlite-server.js, in registration order. */
  const Routes: seq<Route> := [
    Route("GET", [Lit(""), Lit("api"), Lit("health")]),                          // 0
    Route("GET", [Lit(""), Lit("api"), Lit("hotels")]),                          // 1
    Route("POST", [Lit(""), Lit("api"), Lit("hotels")]),                         // 2
    Route("GET", [Lit(""), Lit("api"), Lit("rooms")]),                           // 3
    Route("POST", [Lit(""), Lit("api"), Lit("rooms")]),                          // 4
    Route("GET", [Lit(""), Lit("api"), Lit("reservations")]),                    // 5: all reservations
    Route("GET", [Lit(""), Lit("api"), Lit("hotels"), Param]),                   // 6
    Route("GET", [Lit(""), Lit("api"), Lit("hotels"), Param, Lit("rooms")]),     // 7
    Route("GET", [Lit(""), Lit("api"), Lit("rooms"), Param]),                    // 8
    Route("PUT", [Lit(""), Lit("api"), Lit("hotels"), Param]),                   // 9
    Route("PUT", [Lit(""), Lit("api"), Lit("rooms"), Param]),                    // 10
    Route("GET", [Lit(""), Lit("api"), Lit("reservations")]),                    // 11: filtered list
    Route("GET", [Lit(""), Lit("api"), Lit("reservations"), Param]),             // 12
    Route("POST", [Lit(""), Lit("api"), Lit("reservations")]),                   // 13
    Route("PUT", [Lit(""), Lit("api"), Lit("reservations"), Param]),             // 14
    Route("PATCH", [Lit(""), Lit("api"), Lit("reservations"), Param, Lit("status")]), // 15
    Route("DELETE", [Lit(""), Lit("api"), Lit("hotels"), Param]),                // 16
    Route("DELETE", [Lit(""), Lit("api"), Lit("rooms"), Param]),                 // 17
    Route("DELETE", [Lit(""), Lit("api"), Lit("reservations"), Param])           // 18
  ]

  const AllReservationsRoute := 5
  const FilteredReservationsRoute := 11

  /** The path without one trailing slash (the root path is kept). */
  function WithoutTrailingSlash(path: string): (r: string)
    ensures |r| <= |path| && r == path[..|r|]
    ensures |path| > 1 && path[|path| - 1] == '/' ==> |r| == |path| - 1
  {
    if |path| > 1 && path[|path| - 1] == '/' then path[..|path| - 1] else path
  }

  predicate SegmentMatches(s: Segment, part: string) {
    match s
    case Lit(t) => Lower(t) == Lower(part)
    case Param => part != ""
  }

  predicate PatternMatches(pattern: seq<Segment>, parts: seq<string>) {
    |pattern| == |parts| && forall i :: 0 <= i < |parts| ==> SegmentMatches(pattern[i], parts[i])
  }

  /** The first route from index `from` on whose method and pattern match the path's segments. */
  function FirstMatch(routes: seq<Route>, verb: string, parts: seq<string>, from: nat): (r: Option<nat>)
    requires from <= |routes|
    ensures r.Some? ==> from <= r.value < |routes| && routes[r.value].verb == verb &&
                        PatternMatches(routes[r.value].pattern, parts)
    ensures r.Some? ==> forall j :: from <= j < r.value ==> !(routes[j].verb == verb && PatternMatches(routes[j].pattern, parts))
    ensures r.None? ==> forall j :: from <= j < |routes| ==> !(routes[j].verb == verb && PatternMatches(routes[j].pattern, parts))
    decreases |routes| - from
  {
    if from == |routes| then None
    else if routes[from].verb == verb && PatternMatches(routes[from].pattern, parts) then Some(from)
    else FirstMatch(routes, verb, parts, from + 1)
  }

  /** The segments Express compares: the path split at '/', one trailing slash ignored. */
  function PathSegments(path: string): (parts: seq<string>)
    ensures |parts| >= 1
  {
    Split(WithoutTrailingSlash(path), '/')
  }

  /** The handler Express runs for a request; None is the catch-all 404. */
  function Dispatch(verb: string, path: string): (r: Option<nat>)
    ensures r.Some? ==> r.value < |Routes| && Routes[r.value].verb == verb &&
                        PatternMatches(Routes[r.value].pattern, PathSegments(path))
    ensures r.Some? ==> forall j :: 0 <= j < r.value ==>
                          !(Routes[j].verb == verb && PatternMatches(Routes[j].pattern, PathSegments(path)))
    ensures r.None? <==> forall j :: 0 <= j < |Routes| ==>
                          !(Routes[j].verb == verb && PatternMatches(Routes[j].pattern, PathSegments(path)))
  {
    FirstMatch(Routes, verb, PathSegments(path), 0)
  }

  /** A route registered after an identical one never runs. */
  lemma {:induction false} DuplicateRouteIsShadowed(routes: seq<Route>, verb: string, parts: seq<string>, i: nat, j: nat)
    requires i < j < |routes| && routes[i] == routes[j]
    ensures FirstMatch(routes, verb, parts, 0) != Some(j)
  {
  }

  /** The filtered reservation list is registered after an identical route,
      so no request ever reaches it. */
  lemma FilteredListIsShadowed(verb: string, path: string)
    ensures Dispatch(verb, path) != Some(FilteredReservationsRoute)
  {
    DuplicateRouteIsShadowed(Routes, verb, PathSegments(path), AllReservationsRoute, FilteredReservationsRoute);
  }

  /** Literal segments of different lengths never match. */
  lemma LengthsDiffer(t: string, part: string)
    requires |t| != |part|
    ensures !SegmentMatches(Lit(t), part)
  {
    assert |Lower(t)| != |Lower(part)|;
  }

  /** A joined path ends with the last character of its last part. */
  lemma {:induction false} JoinEndsWithLastPart(xs: seq<string>, c: char)
    requires xs != [] && xs[|xs| - 1] != ""
    ensures |Join(xs, c)| > 0 && Join(xs, c)[|Join(xs, c)| - 1] == xs[|xs| - 1][|xs[|xs| - 1]| - 1]
  {
    if |xs| > 1 {
      JoinEndsWithLastPart(xs[1..], c);
    }
  }

  /** A path built from segments without slashes, ending in a non-empty one,
      is split back into those segments. */
  lemma {:induction false} PathParts(parts: seq<string>)
    requires parts != [] && parts[|parts| - 1] != "" && NoneContains(parts, '/')
    ensures PathSegments(Join(parts, '/')) == parts
  {
    JoinEndsWithLastPart(parts, '/');
    SplitJoin(parts, '/');
  }

  /** A request for the list goes to the unfiltered handler. */
  lemma {:induction false} ListGoesToUnfilteredHandler(parts: seq<string>)
    requires parts == ["", "api", "reservations"]
    ensures Dispatch("GET", Join(parts, '/')) == Some(AllReservationsRoute)
  {
    PathParts(parts);
    ListSegmentsMatchFirstListRoute(parts);
  }

  lemma {:induction false} ListSegmentsMatchFirstListRoute(parts: seq<string>)
    requires parts == ["", "api", "reservations"]
    ensures FirstMatch(Routes, "GET", parts, 0) == Some(AllReservationsRoute)
  {
    assert PatternMatches(Routes[5].pattern, parts);
    assert FirstMatch(Routes, "GET", parts, 5) == Some(5);
    assert FirstMatch(Routes, "GET", parts, 2) == Some(5) by {
      LengthsDiffer("rooms", "reservations");
      assert !SegmentMatches(Routes[3].pattern[2], parts[2]);
    }
    assert FirstMatch(Routes, "GET", parts, 1) == Some(5) by {
      LengthsDiffer("hotels", "reservations");
      assert !SegmentMatches(Routes[1].pattern[2], parts[2]);
    }
    assert FirstMatch(Routes, "GET", parts, 0) == Some(5) by {
      LengthsDiffer("health", "reservations");
      assert !SegmentMatches(Routes[0].pattern[2], parts[2]);
    }
  }

  /** Every `GET /api/hotels/<id>/rooms` reaches the rooms-of-hotel handler:
      its extra segment keeps `/api/hotels/:id` from matching. */
  lemma {:induction false} HotelRoomsRouteIsReached(parts: seq<string>, id: string)
    requires id != "" && '/' !in id
    requires parts == ["", "api", "hotels", id, "rooms"]
    ensures Dispatch("GET", Join(parts, '/')) == Some(7)
  {
    PathParts(parts);
    HotelRoomsSegmentsMatch(id);
  }

  lemma HotelRoomsSegmentsMatch(id: string)
    requires id != ""
    ensures FirstMatch(Routes, "GET", ["", "api", "hotels", id, "rooms"], 0) == Some(7)
  {
    var parts := ["", "api", "hotels", id, "rooms"];
    assert PatternMatches(Routes[7].pattern, parts);
    assert FirstMatch(Routes, "GET", parts, 7) == Some(7);
    assert FirstMatch(Routes, "GET", parts, 6) == Some(7) by { assert |Routes[6].pattern| != |parts|; }
    assert FirstMatch(Routes, "GET", parts, 4) == Some(7) by { assert |Routes[5].pattern| != |parts|; }
    assert FirstMatch(Routes, "GET", parts, 2) == Some(7) by { assert |Routes[3].pattern| != |parts|; }
    assert FirstMatch(Routes, "GET", parts, 0) == Some(7) by { assert |Routes[1].pattern| != |parts|; }
  }
}
