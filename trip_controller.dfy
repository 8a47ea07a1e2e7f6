/**
 * `createTrip` and `updateTripStatus`. A trip is inserted as DRAFT after three
 * ordered checks; no vehicle or driver record is written, there is no
 * licence-expiry check, and a status update overwrites whatever was there.
 */
module TripController {
  import opened Wrappers
  import opened Records
  import opened Database

  const VEHICLE_NOT_AVAILABLE: string := "Vehicle not available for dispatch"
  const DRIVER_NOT_AVAILABLE: string := "Driver not available for dispatch"
  const CARGO_EXCEEDS_CAPACITY: string := "Cargo weight exceeds vehicle capacity"

  /** The vehicle exists and its status is exactly "AVAILABLE". */
  predicate VehicleReady(vehicles: map<int, Vehicle>, id: int) {
    id in vehicles && vehicles[id].status == AVAILABLE
  }

  /** The driver exists and its status is exactly "ON_DUTY". */
  predicate DriverReady(drivers: map<int, Driver>, id: int) {
    id in drivers && drivers[id].status == ON_DUTY
  }

  datatype Verdict = Pass | Reject(message: string)

  /**
   * The checks `createTrip` runs before inserting, in its order; the first
   * one that fails is the only reason reported.
   */
  function CheckDispatch(vehicles: map<int, Vehicle>, drivers: map<int, Driver>,
                         cargoWeight: real, vehicleId: int, driverId: int): (r: Verdict)
    ensures r == Pass <==>
      && VehicleReady(vehicles, vehicleId)
      && DriverReady(drivers, driverId)
      && cargoWeight <= vehicles[vehicleId].maxCapacity
    ensures !VehicleReady(vehicles, vehicleId) ==> r == Reject(VEHICLE_NOT_AVAILABLE)
    ensures VehicleReady(vehicles, vehicleId) && !DriverReady(drivers, driverId) ==>
      r == Reject(DRIVER_NOT_AVAILABLE)
    ensures (VehicleReady(vehicles, vehicleId) && DriverReady(drivers, driverId) &&
             cargoWeight > vehicles[vehicleId].maxCapacity) ==> r == Reject(CARGO_EXCEEDS_CAPACITY)
  {
    if !VehicleReady(vehicles, vehicleId) then Reject(VEHICLE_NOT_AVAILABLE)
    else if !DriverReady(drivers, driverId) then Reject(DRIVER_NOT_AVAILABLE)
    else if cargoWeight > vehicles[vehicleId].maxCapacity then Reject(CARGO_EXCEEDS_CAPACITY)
    else Pass
  }

  /** The driver is looked up only once the vehicle check has passed: the drivers table cannot change a vehicle rejection. */
  lemma VehicleRejectionIgnoresDrivers(vehicles: map<int, Vehicle>, drivers: map<int, Driver>,
                                        otherDrivers: map<int, Driver>, cargoWeight: real,
                                        otherCargo: real, vehicleId: int, driverId: int, otherDriverId: int)
    requires !VehicleReady(vehicles, vehicleId)
    ensures CheckDispatch(vehicles, drivers, cargoWeight, vehicleId, driverId)
         == CheckDispatch(vehicles, otherDrivers, otherCargo, vehicleId, otherDriverId)
  {
  }

  /** Cargo exactly at the vehicle's capacity passes the capacity check. */
  lemma CapacityIsInclusive(vehicles: map<int, Vehicle>, drivers: map<int, Driver>, vehicleId: int, driverId: int)
    requires VehicleReady(vehicles, vehicleId) && DriverReady(drivers, driverId)
    ensures CheckDispatch(vehicles, drivers, vehicles[vehicleId].maxCapacity, vehicleId, driverId) == Pass
  {
  }

  /**
   * `createTrip`: on a failed check, a 400 with that check's message and no
   * write; otherwise exactly one new DRAFT trip with the given fields. The
   * frame (trips and its counter only) says no vehicle or driver is written.
   */
  method CreateTrip(db: Db, cargoWeight: real, vehicleId: int, driverId: int) returns (r: Result<Trip, Failure>)
    requires db.Valid()
    modifies db`trips, db`nextTripId
    ensures db.Valid()
    ensures CheckDispatch(old(db.vehicles), old(db.drivers), cargoWeight, vehicleId, driverId).Reject? ==>
      && r == Err(BadRequest(CheckDispatch(old(db.vehicles), old(db.drivers), cargoWeight, vehicleId, driverId).message))
      && db.trips == old(db.trips)
      && db.nextTripId == old(db.nextTripId)
    ensures CheckDispatch(old(db.vehicles), old(db.drivers), cargoWeight, vehicleId, driverId) == Pass ==>
      && r == Ok(Trip(old(db.nextTripId), cargoWeight, vehicleId, driverId, DRAFT))
      && old(db.nextTripId) !in old(db.trips)
      && db.trips == old(db.trips)[old(db.nextTripId) := r.value]
  {
    if vehicleId !in db.vehicles || db.vehicles[vehicleId].status != AVAILABLE {
      return Err(BadRequest(VEHICLE_NOT_AVAILABLE));
    }
    var vehicle := db.vehicles[vehicleId];

    if driverId !in db.drivers || db.drivers[driverId].status != ON_DUTY {
      return Err(BadRequest(DRIVER_NOT_AVAILABLE));
    }

    if cargoWeight > vehicle.maxCapacity {
      return Err(BadRequest(CARGO_EXCEEDS_CAPACITY));
    }

    var trip := Trip(db.nextTripId, cargoWeight, vehicleId, driverId, DRAFT);
    db.trips := db.trips[trip.id := trip];
    db.nextTripId := db.nextTripId + 1;
    r := Ok(trip);
  }

  /**
   * `updateTripStatus`: overwrites the status of the trip with that id,
   * whatever it was, and nothing else; a missing id is a storage error.
   * No vehicle is released, whatever the new status.
   */
  method UpdateTripStatus(db: Db, id: int, status: string) returns (r: Result<Trip, Failure>)
    requires db.Valid()
    modifies db`trips
    ensures db.Valid()
    ensures id !in old(db.trips) ==> r == Err(StorageError) && db.trips == old(db.trips)
    ensures id in old(db.trips) ==>
      && r == Ok(old(db.trips)[id].(status := status))
      && db.trips == old(db.trips)[id := r.value]
  {
    if id !in db.trips {
      return Err(StorageError);
    }
    var trip := db.trips[id].(status := status);
    db.trips := db.trips[id := trip];
    r := Ok(trip);
  }
}
