# Ambulance-booking map: route and marker logic

This project models the logic inside the map component of an ambulance-booking
web page (`src/app/components/Mapcomponet.tsx`). The page shows the user's
position and a table of hospitals. Each hospital marker is coloured by how many
ambulances it has available. Clicking a hospital selects it and asks a public
routing service for a driving route from the user to it. The answer is turned
into a polyline, a distance and a travel time in minutes.

Files:

- `wrappers.dfy`: `Option`, standing for `null` and for an absent JSON member.
- `hospital_icon.dfy` (module `HospitalIcon`): the three-way marker colour rule.
- `route_conversion.dfy` (module `RouteConversion`): the pure part of route
  handling. It covers the `[lng, lat]` to `[lat, lng]` swap, seconds to minutes
  rounded up (exact `real` arithmetic, ceiling through `Floor`), the guard that
  only a present, non-empty `routes` array is used, and the waypoint order of
  the request.
- `map_component.dfy` (module `MapComponent`): a class `MapState` whose fields
  are the component's state hooks (`userLocation`, `selectedHospital`,
  `routeCoordinates`, `distance`, `estimatedtime`). Its methods are the
  selection handler, the route handler and the geolocation success callback. The network call is replaced by a
  `Response` parameter: `Failed` for anything that throws, or
  `Received(routes)` with `routes` possibly absent.

The code has no fallback route: the `catch` only logs. A failed request only
logs; an answer without routes does nothing; either way the polyline, distance
and time stay as they were. One consequence is visible in `SelectHospital`'s contract:
after a failed request, `selectedHospital` is the new hospital while distance
and time still belong to the previous route.

## Model

| member | source | states |
|---|---|---|
| `HospitalIcon.IconColor` | src/app/components/Mapcomponet.tsx:63-71 | green exactly when at least 4 ambulances are available; orange exactly when 2 or 3 are; red exactly when fewer than 2 are |
| `HospitalIcon.IconColorMonotone` | src/app/components/Mapcomponet.tsx:63-71 | with more ambulances, green stays green, orange never becomes red, and red only comes from a count that was already red |
| `HospitalIcon.IconColorSurjective` | src/app/components/Mapcomponet.tsx:63-71 | each of the three colours is produced by some count |
| `MapComponent.MarkerColor` | src/app/components/Mapcomponet.tsx:34-40 | a hospital's marker is green exactly when it has at least 4 ambulances and red exactly when it has fewer than 2 |
| `RouteConversion.SwapAll` | src/app/components/Mapcomponet.tsx:153-157 | the converted geometry keeps length and order, and element i is input element i with its halves exchanged |
| `RouteConversion.SwapAllInvolutive` | src/app/components/Mapcomponet.tsx:153-157 | converting twice gives back the original geometry |
| `RouteConversion.SwapAllAppend` | src/app/components/Mapcomponet.tsx:153-157 | converting a concatenation equals concatenating the converted parts |
| `RouteConversion.Ceil` | src/app/components/Mapcomponet.tsx:162 | the result is the least integer not below its argument |
| `RouteConversion.MinutesFromSeconds` | src/app/components/Mapcomponet.tsx:162 | minutes m satisfy m·60 ≥ duration and (m−1)·60 < duration |
| `RouteConversion.MinutesFromSecondsUnique` | src/app/components/Mapcomponet.tsx:162 | any integer meeting those two bounds is the computed minute count |
| `RouteConversion.MinutesFromWholeMinutes` | src/app/components/Mapcomponet.tsx:162 | a whole number of minutes in seconds converts back to exactly that number |
| `RouteConversion.TenMinuteRoute` | src/app/components/Mapcomponet.tsx:162 | a 600-second route is shown as 10 minutes |
| `RouteConversion.MinutesMonotone` | src/app/components/Mapcomponet.tsx:162 | a longer duration never gives fewer minutes |
| `RouteConversion.RouteFromResponse` | src/app/components/Mapcomponet.tsx:152-164 | an update exists exactly when the answer parsed and has a non-empty `routes`; then its polyline is the swapped geometry of `routes[0]`, its distance is `routes[0].distance` and its minutes are the rounded-up `routes[0].duration` |
| `RouteConversion.RouteFromResponseUsesFirstOnly` | src/app/components/Mapcomponet.tsx:152-164 | two answers with the same first route give the same update, whatever follows it |
| `RouteConversion.RouteFromResponseRecoversGeometry` | src/app/components/Mapcomponet.tsx:153-159 | swapping the stored polyline back yields the service's geometry of `routes[0]` exactly |
| `RouteConversion.Waypoints` | src/app/components/Mapcomponet.tsx:148 | the request names the user's position then the hospital, each longitude first |
| `RouteConversion.WaypointsRoundTrip` | src/app/components/Mapcomponet.tsx:148 | the swap that reads the answer reads the request back as (user latitude, longitude) and the hospital's coordinates |
| `MapComponent.MapState.constructor` | src/app/components/Mapcomponet.tsx:75-82 | no location, no selection, an empty polyline, no distance and no time |
| `MapComponent.MapState.LocationFound` | src/app/components/Mapcomponet.tsx:128-133 | a position fix sets `userLocation` and changes nothing else |
| `MapComponent.MapState.CalculateRoute` | src/app/components/Mapcomponet.tsx:143-170 | with a first route, polyline, distance and time are all replaced from `routes[0]`; with an error or absent or empty `routes`, all three are unchanged; location and selection are never touched |
| `MapComponent.MapState.SelectHospital` | src/app/components/Mapcomponet.tsx:190-195 | without a user location nothing changes and nothing is requested; otherwise the hospital is selected, a route from the user's location to its coordinates is requested, and the answer is applied as in `CalculateRoute` |

## Left out

- Haversine distance and degree-to-radian conversion (lines 171-188): floating-point trigonometry, and the function is never called.
- The network request and JSON parsing (lines 147-150): replaced by the `Response` parameter. The URL text is not modelled; only the waypoint order (`Waypoints`) is.
- The distance label `(distance/1000).toFixed(2)` (line 161): binary floating-point decimal formatting. The `distance` field holds the metres of `routes[0]`, from which the label is formatted.
- Numbers are exact `real`s and ambulance counts are `int`s. NaN, infinities and rounding of IEEE doubles are not modelled, so a missing `duration` (which gives NaN minutes) is outside the model.
- An answer whose first route lacks a geometry throws before any state is written; the model folds it into `Failed`.
- Browser geolocation (lines 125-141): only its success callback's state change is modelled, by `LocationFound`; the error callback only logs.
- Concurrency: the route request is not awaited by the selection handler, so overlapping requests can complete out of order. The model applies each answer at once, in sequence.
- The Leaflet default-icon patch and the marker's HTML and CSS (lines 26-61): only the colour choice is modelled.
- The hard-coded hospital table (lines 83-123) is fixture data, and all rendering (lines 199-305) is UI.
- `src/app/page.tsx` (a landing page with one navigation button) and `src/app/profile/page.tsx` (a wrapper over a third-party sign-out button) are user interface only.
