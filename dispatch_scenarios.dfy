/**
 * How the controllers interact through the shared vehicle status: createTrip
 * reserves nothing, maintenance blocks dispatch, and resolving or a plain
 * vehicle update unblocks it.
 */
module DispatchScenarios {
  import opened Wrappers
  import opened Records
  import opened Database
  import opened TripController
  import opened MaintenanceController
  import opened VehicleController

  /** Putting a vehicle in the shop makes any dispatch on it fail the first check. */
  lemma InShopBlocksDispatch(vehicles: map<int, Vehicle>, drivers: map<int, Driver>,
                             cargoWeight: real, vehicleId: int, driverId: int)
    requires vehicleId in vehicles
    ensures CheckDispatch(vehicles[vehicleId := vehicles[vehicleId].(status := IN_SHOP)], drivers,
                          cargoWeight, vehicleId, driverId) == Reject(VEHICLE_NOT_AVAILABLE)
  {
  }

  /**
   * A successful createTrip leaves its vehicle AVAILABLE, so the same request
   * succeeds a second time and the vehicle carries two trips.
   */
  method DispatchTwice(db: Db, cargoWeight: real, vehicleId: int, driverId: int)
    returns (first: Result<Trip, Failure>, second: Result<Trip, Failure>)
    requires db.Valid()
    modifies db`trips, db`nextTripId
    ensures db.Valid()
    ensures first.Ok? ==>
      && second.Ok?
      && first.value.vehicleId == second.value.vehicleId == vehicleId
      && first.value.id != second.value.id
      && first.value.id in db.trips && db.trips[first.value.id] == first.value
      && second.value.id in db.trips && db.trips[second.value.id] == second.value
  {
    first := CreateTrip(db, cargoWeight, vehicleId, driverId);
    second := CreateTrip(db, cargoWeight, vehicleId, driverId);
  }

  /** After a maintenance log is created for a vehicle, dispatching it is refused. */
  method MaintenanceThenDispatch(db: Db, description: string, cost: real, now: int,
                                 cargoWeight: real, vehicleId: int, driverId: int)
    returns (log: Result<MaintenanceLog, Failure>, trip: Result<Trip, Failure>)
    requires db.Valid()
    modifies db
    ensures db.Valid()
    ensures log.Ok? ==> trip == Err(BadRequest(VEHICLE_NOT_AVAILABLE))
    ensures log.Err? ==> trip == Err(BadRequest(VEHICLE_NOT_AVAILABLE))
  {
    log := CreateMaintenance(db, description, cost, vehicleId, now);
    trip := CreateTrip(db, cargoWeight, vehicleId, driverId);
  }

  /** Resolving maintenance makes the vehicle pass the first dispatch check, whatever it was before. */
  method ResolveThenCheck(db: Db, vehicleId: int) returns (r: Result<Vehicle, Failure>)
    requires db.Valid()
    modifies db`vehicles
    ensures db.Valid()
    ensures r.Ok? <==> vehicleId in old(db.vehicles)
    ensures r.Ok? ==> VehicleReady(db.vehicles, vehicleId)
  {
    r := ResolveMaintenance(db, vehicleId);
  }

  /**
   * The vehicle update writes status verbatim, so it can take a vehicle out of
   * the shop (or claim ON_TRIP) without the maintenance or trip paths.
   */
  method UpdateBypassesShop(db: Db, vehicleId: int) returns (r: Result<Vehicle, Failure>)
    requires db.Valid()
    requires vehicleId in db.vehicles && db.vehicles[vehicleId].status == IN_SHOP
    modifies db`vehicles
    ensures db.Valid()
    ensures r.Ok? && VehicleReady(db.vehicles, vehicleId)
  {
    r := UpdateVehicle(db, vehicleId, VehiclePatch(None, None, None, Some(AVAILABLE)));
  }

  /** Completing a trip writes the trip only: its vehicle keeps whatever status it had. */
  method CompleteTripKeepsVehicle(db: Db, tripId: int) returns (r: Result<Trip, Failure>)
    requires db.Valid()
    modifies db`trips
    ensures db.Valid()
    ensures db.vehicles == old(db.vehicles)
    ensures r.Ok? <==> tripId in old(db.trips)
    ensures r.Ok? ==> r.value.status == COMPLETED && tripId in db.trips && db.trips[tripId] == r.value
  {
    r := UpdateTripStatus(db, tripId, COMPLETED);
  }
}
