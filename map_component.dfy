/**
 * The state of the map component (`Mapcomponent`) and the two handlers
 * that change it: choosing a hospital and applying a route answer.
 */
module MapComponent {
  import opened Wrappers
  import opened RouteConversion
  import opened HospitalIcon

  /** One entry of the hospital table. */
  datatype Hospital = Hospital(
    id: int,
    name: string,
    coordinates: Coordinate,
    contact: string,
    ambulancesAvailable: int)

  /** The marker colour a hospital is drawn with. */
  function MarkerColor(h: Hospital): (c: Color)
    ensures c == Green <==> h.ambulancesAvailable >= 4
    ensures c == Red <==> h.ambulancesAvailable < 2
  {
    IconColor(h.ambulancesAvailable)
  }

  /**
   * The component's state hooks. `distance` holds the metres of the first
   * route, from which the displayed kilometre label is formatted.
   */
  class MapState {
    var userLocation: Option<Location>
    var selectedHospital: Option<Hospital>
    var routeCoordinates: seq<Coordinate>
    var distance: Option<real>
    var estimatedTime: Option<int>

    /** The initial values of the `useState` hooks. */
    constructor ()
      ensures userLocation == None && selectedHospital == None
      ensures routeCoordinates == [] && distance == None && estimatedTime == None
    {
      userLocation := None;
      selectedHospital := None;
      routeCoordinates := [];
      distance := None;
      estimatedTime := None;
    }

    /** The geolocation success callback: record the position, nothing else. */
    method LocationFound(lat: real, lng: real)
      modifies this
      ensures userLocation == Some(Location(lat, lng))
      ensures selectedHospital == old(selectedHospital)
      ensures routeCoordinates == old(routeCoordinates)
      ensures distance == old(distance) && estimatedTime == old(estimatedTime)
    {
      userLocation := Some(Location(lat, lng));
    }

    /**
     * `calculateRoute`: ask for a route from `start` to `end` (returned as the
     * waypoints sent) and apply `response`, the request's outcome. A first
     * route replaces polyline, distance and time together; anything else
     * leaves all three alone, with no fallback.
     */
    method CalculateRoute(start: Location, end: Coordinate, response: Response)
      returns (sent: seq<Coordinate>)
      modifies this
      ensures sent == Waypoints(start, end)
      ensures userLocation == old(userLocation) && selectedHospital == old(selectedHospital)
      ensures HasRoute(response) ==>
        var first := response.routes.value[0];
        && routeCoordinates == SwapAll(first.geometry)
        && distance == Some(first.distance)
        && estimatedTime == Some(MinutesFromSeconds(first.duration))
      ensures !HasRoute(response) ==>
        && routeCoordinates == old(routeCoordinates)
        && distance == old(distance)
        && estimatedTime == old(estimatedTime)
    {
      sent := Waypoints(start, end);
      var update := RouteFromResponse(response);
      match update {
        case Some(u) =>
          routeCoordinates := u.coordinates;
          distance := Some(u.distance);
          estimatedTime := Some(u.minutes);
        case None =>
      }
    }

    /**
     * `handlehospitalselect`: without a user location nothing happens and no
     * route is requested; otherwise the hospital becomes the selection and a
     * route from the user to it is requested and applied.
     */
    method SelectHospital(hospital: Hospital, response: Response)
      returns (sent: Option<seq<Coordinate>>)
      modifies this
      ensures userLocation == old(userLocation)
      ensures old(userLocation) == None ==>
        && sent == None
        && selectedHospital == old(selectedHospital)
        && routeCoordinates == old(routeCoordinates)
        && distance == old(distance)
        && estimatedTime == old(estimatedTime)
      ensures old(userLocation).Some? ==>
        && sent == Some(Waypoints(old(userLocation).value, hospital.coordinates))
        && selectedHospital == Some(hospital)
        && (HasRoute(response) ==>
              var first := response.routes.value[0];
              && routeCoordinates == SwapAll(first.geometry)
              && distance == Some(first.distance)
              && estimatedTime == Some(MinutesFromSeconds(first.duration)))
        && (!HasRoute(response) ==>
              && routeCoordinates == old(routeCoordinates)
              && distance == old(distance)
              && estimatedTime == old(estimatedTime))
    {
      if userLocation == None {
        return None;
      }
      selectedHospital := Some(hospital);
      var waypoints := CalculateRoute(userLocation.value, hospital.coordinates, response);
      sent := Some(waypoints);
    }
  }
}
