/**
 * Turning the routing service's answer into what the map displays
 * (the body of `calculateRoute` after the response has been parsed):
 * the coordinate swap, the minute rounding and the `routes[0]` guard.
 */
module RouteConversion {
  import opened Wrappers

  /**
   * A pair of numbers as the component passes them around. Which half is
   * the latitude depends on who produced it: the routing service writes
   * `[lng, lat]`, the map's polyline and the hospital table `[lat, lng]`.
   */
  type Coordinate = (real, real)

  /** The user's position, as the `Location` interface. */
  datatype Location = Location(lat: real, lng: real)

  /** One entry of the service's `routes` array. */
  datatype Route = Route(geometry: seq<Coordinate>, distance: real, duration: real)

  /**
   * The outcome of the request: `Failed` when `fetch` or `response.json()`
   * throws (or reading `routes[0].geometry.coordinates` does), otherwise the
   * parsed body, whose `routes` member may be absent.
   */
  datatype Response = Failed | Received(routes: Option<seq<Route>>)

  /** What a successful answer writes into the component state. */
  datatype RouteUpdate = RouteUpdate(coordinates: seq<Coordinate>, distance: real, minutes: int)

  /** The `[lng, lat]` to `[lat, lng]` conversion applied to a whole geometry. */
  function SwapAll(s: seq<Coordinate>): (r: seq<Coordinate>)
    ensures |r| == |s|
    ensures forall i :: 0 <= i < |s| ==> r[i] == (s[i].1, s[i].0)
  {
    if s == [] then [] else [(s[0].1, s[0].0)] + SwapAll(s[1..])
  }

  /** Converting twice gives back the original geometry. */
  lemma SwapAllInvolutive(s: seq<Coordinate>)
    ensures SwapAll(SwapAll(s)) == s
  {
  }

  /** Converting a concatenation converts each part in place. */
  lemma SwapAllAppend(a: seq<Coordinate>, b: seq<Coordinate>)
    ensures SwapAll(a + b) == SwapAll(a) + SwapAll(b)
  {
  }

  /** `Math.ceil(x)`, with the ceiling expressed through `Floor`. */
  function Ceil(x: real): (n: int)
    ensures x <= n as real < x + 1.0
  {
    -((-x).Floor)
  }

  /** `Math.ceil(duration / 60)`: seconds to whole minutes, rounding up. */
  function MinutesFromSeconds(duration: real): (m: int)
    ensures 60.0 * (m as real) >= duration
    ensures 60.0 * ((m - 1) as real) < duration
  {
    Ceil(duration / 60.0)
  }

  /** The two bounds pin the minute count down: no other integer meets them. */
  lemma MinutesFromSecondsUnique(duration: real, k: int)
    requires 60.0 * (k as real) >= duration && 60.0 * ((k - 1) as real) < duration
    ensures k == MinutesFromSeconds(duration)
  {
  }

  /** Rounding up never loses time and is exact on whole minutes. */
  lemma MinutesFromWholeMinutes(k: int)
    ensures MinutesFromSeconds(60.0 * (k as real)) == k
  {
  }

  /** Fixture: a reply of 600 seconds is shown as 10 minutes (the case k = 10 of `MinutesFromWholeMinutes`). */
  lemma TenMinuteRoute()
    ensures MinutesFromSeconds(600.0) == 10
  {
  }

  /** A longer trip is never shown as taking fewer minutes. */
  lemma MinutesMonotone(shorter: real, longer: real)
    requires shorter <= longer
    ensures MinutesFromSeconds(shorter) <= MinutesFromSeconds(longer)
  {
  }

  /** Whether the guard `data.routes && data.routes.length > 0` lets the conversion run. */
  predicate HasRoute(response: Response)
  {
    response.Received? && response.routes.Some? && |response.routes.value| > 0
  }

  /**
   * The state update a response produces, if any: nothing unless there is a
   * first route; otherwise everything is taken from `routes[0]`.
   */
  function RouteFromResponse(response: Response): (u: Option<RouteUpdate>)
    ensures u.Some? <==> HasRoute(response)
    ensures HasRoute(response) ==>
      var first := response.routes.value[0];
      && |u.value.coordinates| == |first.geometry|
      && (forall i :: 0 <= i < |first.geometry| ==>
            u.value.coordinates[i] == (first.geometry[i].1, first.geometry[i].0))
      && u.value.distance == first.distance
      && 60.0 * (u.value.minutes as real) >= first.duration
      && 60.0 * ((u.value.minutes - 1) as real) < first.duration
  {
    if HasRoute(response) then
      var first := response.routes.value[0];
      Some(RouteUpdate(SwapAll(first.geometry), first.distance, MinutesFromSeconds(first.duration)))
    else
      None
  }

  /** Routes after the first never influence the update. */
  lemma RouteFromResponseUsesFirstOnly(a: seq<Route>, b: seq<Route>)
    requires |a| > 0 && |b| > 0 && a[0] == b[0]
    ensures RouteFromResponse(Received(Some(a))) == RouteFromResponse(Received(Some(b)))
    ensures RouteFromResponse(Received(Some(a))).Some?
  {
  }

  /**
   * The displayed polyline, converted back, is exactly the service's geometry
   * of the first route.
   */
  lemma RouteFromResponseRecoversGeometry(response: Response)
    requires HasRoute(response)
    ensures SwapAll(RouteFromResponse(response).value.coordinates) == response.routes.value[0].geometry
  {
  }

  /** The waypoints the request names, in the service's `[lng, lat]` order. */
  function Waypoints(start: Location, end: Coordinate): (w: seq<Coordinate>)
    ensures |w| == 2
    ensures w[0] == (start.lng, start.lat) && w[1] == (end.1, end.0)
  {
    SwapAll([(start.lat, start.lng), end])
  }

  /** The same swap that reads the answer reads the request back as (user, hospital). */
  lemma WaypointsRoundTrip(start: Location, end: Coordinate)
    ensures SwapAll(Waypoints(start, end)) == [(start.lat, start.lng), end]
  {
  }
}
