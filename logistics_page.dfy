/**
 * The Logistics page: trips joined with vehicles and drivers into route
 * cards, and the search over them.
 */
module LogisticsPage {
  import opened Wrappers
  import opened Records
  import opened Text
  import opened Seqs

  const NO_VEHICLE: string := "N/A"
  const UNKNOWN_DRIVER: string := "Unknown"
  const ORIGIN: string := "Warehouse A"
  const DESTINATION: string := "Warehouse B"
  const ETA: string := "2h 15m"
  const IN_TRANSIT: string := "In Transit"

  /** `vehicleId` holds the plate shown on the card, not a numeric id. */
  datatype Route = Route(id: int, vehicleId: string, driverName: string, origin: string,
                         destination: string, status: string, progress: int, eta: string)

  /** DISPATCHED reads "In Transit"; any other status keeps its first character and lower-cases the rest. */
  function StatusLabel(status: string): (r: string)
    ensures status == DISPATCHED ==> r == IN_TRANSIT
    ensures status != DISPATCHED ==> |r| == |status|
    ensures status != DISPATCHED && status != "" ==> r[0] == status[0] && r[1..] == ToLower(status[1..])
  {
    if status == DISPATCHED then IN_TRANSIT
    else if status == "" then ""
    else [status[0]] + ToLower(status[1..])
  }

  lemma CompletedLabel()
    ensures StatusLabel(COMPLETED) == "Completed"
  {
  }

  function Progress(status: string): (r: int)
    ensures 0 <= r <= 100
    ensures r == 100 <==> status == COMPLETED
    ensures status == DISPATCHED ==> r == 45
    ensures status != COMPLETED && status != DISPATCHED ==> r == 0
  {
    if status == COMPLETED then 100 else if status == DISPATCHED then 45 else 0
  }

  /** One trip as a route card: the first vehicle and driver with matching ids supply plate and name. */
  function ToRoute(t: Trip, vehicles: seq<Vehicle>, drivers: seq<Driver>): (r: Route)
    ensures r.id == t.id
    ensures r.origin == ORIGIN && r.destination == DESTINATION && r.eta == ETA
    ensures r.status == StatusLabel(t.status) && r.progress == Progress(t.status)
    ensures (forall i :: 0 <= i < |vehicles| ==> vehicles[i].id != t.vehicleId) ==> r.vehicleId == NO_VEHICLE
    ensures forall i :: 0 <= i < |vehicles| && vehicles[i].id == t.vehicleId &&
                        (forall j :: 0 <= j < i ==> vehicles[j].id != t.vehicleId) ==>
                        r.vehicleId == vehicles[i].licensePlate
    ensures (forall i :: 0 <= i < |drivers| ==> drivers[i].id != t.driverId) ==> r.driverName == UNKNOWN_DRIVER
    ensures forall i :: 0 <= i < |drivers| && drivers[i].id == t.driverId &&
                        (forall j :: 0 <= j < i ==> drivers[j].id != t.driverId) ==>
                        r.driverName == drivers[i].name
  {
    var vehicle := Find(vehicles, (v: Vehicle) => v.id == t.vehicleId);
    var driver := Find(drivers, (d: Driver) => d.id == t.driverId);
    Route(t.id,
          if vehicle.Some? then vehicle.value.licensePlate else NO_VEHICLE,
          if driver.Some? then driver.value.name else UNKNOWN_DRIVER,
          ORIGIN, DESTINATION, StatusLabel(t.status), Progress(t.status), ETA)
  }

  /** One route per trip, in trip order. */
  function ToRoutes(trips: seq<Trip>, vehicles: seq<Vehicle>, drivers: seq<Driver>): (r: seq<Route>)
    ensures |r| == |trips|
    ensures forall i :: 0 <= i < |r| ==> r[i].id == trips[i].id && r[i] == ToRoute(trips[i], vehicles, drivers)
  {
    seq(|trips|, i requires 0 <= i < |trips| => ToRoute(trips[i], vehicles, drivers))
  }

  predicate RouteMatches(term: string, r: Route) {
    || IncludesIgnoringCase(r.vehicleId, term)
    || IncludesIgnoringCase(r.driverName, term)
    || IncludesIgnoringCase(r.destination, term)
  }

  /** `filteredRoutes`: the routes matching the term, in their order. */
  function FilterRoutes(routes: seq<Route>, term: string): (r: seq<Route>)
    ensures forall i :: 0 <= i < |r| ==> r[i] in routes && RouteMatches(term, r[i])
    ensures forall i :: 0 <= i < |routes| && RouteMatches(term, routes[i]) ==> routes[i] in r
    ensures forall x :: multiset(r)[x] == (if RouteMatches(term, x) then multiset(routes)[x] else 0)
    ensures IsSubsequence(r, routes)
  {
    Filter(routes, r => RouteMatches(term, r))
  }

  /** An empty search keeps every route. */
  lemma EmptySearchKeepsAll(routes: seq<Route>)
    ensures FilterRoutes(routes, "") == routes
  {
    forall i | 0 <= i < |routes| ensures RouteMatches("", routes[i]) {
      EmptyTermFoundEverywhere(routes[i].vehicleId);
    }
    FilterKeepsAll(routes, r => RouteMatches("", r));
  }

  /**
   * Every card carries the same destination, so a term found in "warehouse b"
   * matches every route built from trips.
   */
  lemma DestinationTermKeepsAll(trips: seq<Trip>, vehicles: seq<Vehicle>, drivers: seq<Driver>)
    ensures FilterRoutes(ToRoutes(trips, vehicles, drivers), "warehouse") == ToRoutes(trips, vehicles, drivers)
  {
    var routes := ToRoutes(trips, vehicles, drivers);
    assert ToLower(DESTINATION) == "warehouse b";
    assert ToLower("warehouse") == "warehouse";
    PrefixIsIncluded("warehouse b", "warehouse");
    FilterKeepsAll(routes, r => RouteMatches("warehouse", r));
  }

  /** The page state that `fetchData` writes. */
  class LogisticsView {
    var routes: seq<Route>
    var vehiclesRaw: seq<Vehicle>
    var driversRaw: seq<Driver>
    var activeRoute: Option<Route>
    var loading: bool
    var searchTerm: string

    constructor ()
      ensures routes == [] && vehiclesRaw == [] && driversRaw == []
      ensures activeRoute == None && loading && searchTerm == ""
    {
      routes, vehiclesRaw, driversRaw := [], [], [];
      activeRoute, loading, searchTerm := None, true, "";
    }

    /** The cards the list shows. */
    function FilteredRoutes(): (r: seq<Route>)
      reads this
      ensures forall i :: 0 <= i < |r| ==> RouteMatches(searchTerm, r[i])
      ensures forall x :: multiset(r)[x] == (if RouteMatches(searchTerm, x) then multiset(routes)[x] else 0)
      ensures IsSubsequence(r, routes)
    {
      FilterRoutes(routes, searchTerm)
    }

    /**
     * `fetchData`: each listing that fails counts as empty; the routes are
     * rebuilt, and the first one becomes active when there is one.
     */
    method FetchData(trips: Option<seq<Trip>>, vehicles: Option<seq<Vehicle>>, drivers: Option<seq<Driver>>)
      modifies this
      ensures vehiclesRaw == OrEmpty(vehicles) && driversRaw == OrEmpty(drivers)
      ensures routes == ToRoutes(OrEmpty(trips), vehiclesRaw, driversRaw)
      ensures |routes| > 0 ==> activeRoute == Some(routes[0])
      ensures |routes| == 0 ==> activeRoute == old(activeRoute)
      ensures !loading && searchTerm == old(searchTerm)
    {
      loading := true;
      var tripsData, vehiclesData, driversData := OrEmpty(trips), OrEmpty(vehicles), OrEmpty(drivers);
      vehiclesRaw := vehiclesData;
      driversRaw := driversData;
      var transformed := ToRoutes(tripsData, vehiclesData, driversData);
      routes := transformed;
      if |transformed| > 0 {
        activeRoute := Some(transformed[0]);
      }
      loading := false;
    }
  }

  /** `.catch(() => [])`: a failed listing reads as empty. */
  function OrEmpty<T>(data: Option<seq<T>>): seq<T> {
    if data.Some? then data.value else []
  }
}
