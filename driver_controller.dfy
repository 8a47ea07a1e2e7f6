/**
 * `getDrivers`, `createDriver`, `updateDriver` and `deleteDriver`.
 * An update skips the licence expiry and the safety score when the request
 * gives a falsy value for them, so a new score of 0 is never written.
 */
module DriverController {
  import opened Wrappers
  import opened Records
  import opened Database

  /**
   * The body of an update. `None` is a field the request leaves out; for the
   * expiry it also stands for an empty value. A score of 0 is a falsy value
   * the controller turns into "leave out".
   */
  datatype DriverPatch = DriverPatch(name: Option<string>, licenseNumber: Option<string>,
                                     licenseExpiry: Option<int>, safetyScore: Option<real>,
                                     status: Option<string>)

  /** JavaScript truthiness of a numeric body value. */
  predicate Truthy(x: Option<real>) {
    x.Some? && x.value != 0.0
  }

  /** The driver after an update: supplied fields replaced, falsy expiry and score skipped, id kept. */
  function ApplyDriverPatch(d: Driver, patch: DriverPatch): (r: Driver)
    ensures r.id == d.id
    ensures patch.name.Some? ==> r.name == patch.name.value
    ensures patch.name.None? ==> r.name == d.name
    ensures patch.licenseNumber.Some? ==> r.licenseNumber == patch.licenseNumber.value
    ensures patch.licenseNumber.None? ==> r.licenseNumber == d.licenseNumber
    ensures patch.licenseExpiry.Some? ==> r.licenseExpiry == patch.licenseExpiry.value
    ensures patch.licenseExpiry.None? ==> r.licenseExpiry == d.licenseExpiry
    ensures Truthy(patch.safetyScore) ==> r.safetyScore == patch.safetyScore.value
    ensures !Truthy(patch.safetyScore) ==> r.safetyScore == d.safetyScore
    ensures patch.safetyScore == Some(0.0) ==> r.safetyScore == d.safetyScore
    ensures patch.status.Some? ==> r.status == patch.status.value
    ensures patch.status.None? ==> r.status == d.status
  {
    Driver(d.id,
           if patch.name.Some? then patch.name.value else d.name,
           if patch.licenseNumber.Some? then patch.licenseNumber.value else d.licenseNumber,
           if patch.licenseExpiry.Some? then patch.licenseExpiry.value else d.licenseExpiry,
           if Truthy(patch.safetyScore) then patch.safetyScore.value else d.safetyScore,
           if patch.status.Some? then patch.status.value else d.status)
  }

  /** `getDrivers`: every stored driver once, by ascending id. */
  method GetDrivers(db: Db) returns (r: seq<Driver>)
    requires db.Valid()
    ensures forall d :: d in r <==> d.id in db.drivers && db.drivers[d.id] == d
    ensures forall i, j :: 0 <= i < j < |r| ==> r[i].id < r[j].id
  {
    var drivers := db.drivers;
    var ks := AscendingKeys(drivers, db.nextDriverId);
    r := seq(|ks|, i requires 0 <= i < |ks| => drivers[ks[i]]);
    assert forall i :: 0 <= i < |r| ==> ks[i] in ks && r[i] == drivers[ks[i]];
    forall d: Driver | d.id in drivers && drivers[d.id] == d
      ensures d in r
    {
      var i :| 0 <= i < |ks| && ks[i] == d.id;
      assert r[i] == d;
    }
  }

  /** `createDriver`: one new driver holding exactly the supplied fields, status verbatim. */
  method CreateDriver(db: Db, name: string, licenseNumber: string, licenseExpiry: int,
                      safetyScore: real, status: string) returns (d: Driver)
    requires db.Valid()
    modifies db`drivers, db`nextDriverId
    ensures db.Valid()
    ensures d == Driver(old(db.nextDriverId), name, licenseNumber, licenseExpiry, safetyScore, status)
    ensures d.id !in old(db.drivers)
    ensures db.drivers == old(db.drivers)[d.id := d]
  {
    d := Driver(db.nextDriverId, name, licenseNumber, licenseExpiry, safetyScore, status);
    db.drivers := db.drivers[d.id := d];
    db.nextDriverId := db.nextDriverId + 1;
  }

  /** `updateDriver`: only the driver with that id changes, as `ApplyDriverPatch` says. */
  method UpdateDriver(db: Db, id: int, patch: DriverPatch) returns (r: Result<Driver, Failure>)
    requires db.Valid()
    modifies db`drivers
    ensures db.Valid()
    ensures id !in old(db.drivers) ==> r == Err(StorageError) && db.drivers == old(db.drivers)
    ensures id in old(db.drivers) ==>
      && r == Ok(ApplyDriverPatch(old(db.drivers)[id], patch))
      && db.drivers == old(db.drivers)[id := r.value]
  {
    if id !in db.drivers {
      return Err(StorageError);
    }
    var driver := ApplyDriverPatch(db.drivers[id], patch);
    db.drivers := db.drivers[id := driver];
    r := Ok(driver);
  }

  /** `deleteDriver`: exactly the driver with that id is removed. */
  method DeleteDriver(db: Db, id: int) returns (r: Result<(), Failure>)
    requires db.Valid()
    modifies db`drivers
    ensures db.Valid()
    ensures id !in old(db.drivers) ==> r == Err(StorageError) && db.drivers == old(db.drivers)
    ensures id in old(db.drivers) ==> r == Ok(()) && db.drivers == old(db.drivers) - {id}
  {
    if id !in db.drivers {
      return Err(StorageError);
    }
    db.drivers := db.drivers - {id};
    r := Ok(());
  }
}
