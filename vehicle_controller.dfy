/**
 * `getVehicles`, `createVehicle`, `updateVehicle` and `deleteVehicle`.
 * Every field, `status` included, is written exactly as the request gives it.
 */
module VehicleController {
  import opened Wrappers
  import opened Records
  import opened Database

  /** The body of an update; `None` is a field the request leaves out, which the store then skips. */
  datatype VehiclePatch = VehiclePatch(licensePlate: Option<string>, model: Option<string>,
                                       maxCapacity: Option<real>, status: Option<string>)

  /** The vehicle after an update: supplied fields replaced verbatim, the rest and the id kept. */
  function ApplyVehiclePatch(v: Vehicle, patch: VehiclePatch): (r: Vehicle)
    ensures r.id == v.id
    ensures patch.licensePlate.Some? ==> r.licensePlate == patch.licensePlate.value
    ensures patch.licensePlate.None? ==> r.licensePlate == v.licensePlate
    ensures patch.model.Some? ==> r.model == patch.model.value
    ensures patch.model.None? ==> r.model == v.model
    ensures patch.maxCapacity.Some? ==> r.maxCapacity == patch.maxCapacity.value
    ensures patch.maxCapacity.None? ==> r.maxCapacity == v.maxCapacity
    ensures patch.status.Some? ==> r.status == patch.status.value
    ensures patch.status.None? ==> r.status == v.status
  {
    Vehicle(v.id,
            if patch.licensePlate.Some? then patch.licensePlate.value else v.licensePlate,
            if patch.model.Some? then patch.model.value else v.model,
            if patch.maxCapacity.Some? then patch.maxCapacity.value else v.maxCapacity,
            if patch.status.Some? then patch.status.value else v.status)
  }

  /** `getVehicles`: every stored vehicle once, by ascending id. */
  method GetVehicles(db: Db) returns (r: seq<Vehicle>)
    requires db.Valid()
    ensures forall v :: v in r <==> v.id in db.vehicles && db.vehicles[v.id] == v
    ensures forall i, j :: 0 <= i < j < |r| ==> r[i].id < r[j].id
  {
    var vehicles := db.vehicles;
    var ks := AscendingKeys(vehicles, db.nextVehicleId);
    r := seq(|ks|, i requires 0 <= i < |ks| => vehicles[ks[i]]);
    assert forall i :: 0 <= i < |r| ==> ks[i] in ks && r[i] == vehicles[ks[i]];
    forall v: Vehicle | v.id in vehicles && vehicles[v.id] == v
      ensures v in r
    {
      var i :| 0 <= i < |ks| && ks[i] == v.id;
      assert r[i] == v;
    }
  }

  /** `createVehicle`: one new vehicle holding exactly the supplied fields. */
  method CreateVehicle(db: Db, licensePlate: string, model: string, maxCapacity: real, status: string)
    returns (v: Vehicle)
    requires db.Valid()
    modifies db`vehicles, db`nextVehicleId
    ensures db.Valid()
    ensures v == Vehicle(old(db.nextVehicleId), licensePlate, model, maxCapacity, status)
    ensures v.id !in old(db.vehicles)
    ensures db.vehicles == old(db.vehicles)[v.id := v]
  {
    v := Vehicle(db.nextVehicleId, licensePlate, model, maxCapacity, status);
    db.vehicles := db.vehicles[v.id := v];
    db.nextVehicleId := db.nextVehicleId + 1;
  }

  /** `updateVehicle`: the vehicle with that id takes the patch; every other vehicle is unchanged. */
  method UpdateVehicle(db: Db, id: int, patch: VehiclePatch) returns (r: Result<Vehicle, Failure>)
    requires db.Valid()
    modifies db`vehicles
    ensures db.Valid()
    ensures id !in old(db.vehicles) ==> r == Err(StorageError) && db.vehicles == old(db.vehicles)
    ensures id in old(db.vehicles) ==>
      && r == Ok(ApplyVehiclePatch(old(db.vehicles)[id], patch))
      && db.vehicles == old(db.vehicles)[id := r.value]
  {
    if id !in db.vehicles {
      return Err(StorageError);
    }
    var vehicle := ApplyVehiclePatch(db.vehicles[id], patch);
    db.vehicles := db.vehicles[id := vehicle];
    r := Ok(vehicle);
  }

  /** `deleteVehicle`: exactly the vehicle with that id is removed. */
  method DeleteVehicle(db: Db, id: int) returns (r: Result<(), Failure>)
    requires db.Valid()
    modifies db`vehicles
    ensures db.Valid()
    ensures id !in old(db.vehicles) ==> r == Err(StorageError) && db.vehicles == old(db.vehicles)
    ensures id in old(db.vehicles) ==> r == Ok(()) && db.vehicles == old(db.vehicles) - {id}
  {
    if id !in db.vehicles {
      return Err(StorageError);
    }
    db.vehicles := db.vehicles - {id};
    r := Ok(());
  }
}
