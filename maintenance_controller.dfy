/**
 * `createMaintenance`, `resolveMaintenance` and `getMaintenanceLogs`.
 * Creating a log and sending its vehicle to the shop is one transaction;
 * resolving forces the vehicle back to AVAILABLE without looking at it.
 */
module MaintenanceController {
  import opened Wrappers
  import opened Records
  import opened Database

  /**
   * `createMaintenance`: the log insert and the IN_SHOP update commit together.
   * When the vehicle is missing the update fails, the transaction rolls back and
   * nothing is written; otherwise the vehicle goes to IN_SHOP whatever its status.
   */
  method CreateMaintenance(db: Db, description: string, cost: real, vehicleId: int, now: int)
    returns (r: Result<MaintenanceLog, Failure>)
    requires db.Valid()
    modifies db`maintenance, db`nextMaintenanceId, db`vehicles
    ensures db.Valid()
    ensures vehicleId !in old(db.vehicles) ==>
      && r == Err(StorageError)
      && db.maintenance == old(db.maintenance)
      && db.vehicles == old(db.vehicles)
    ensures vehicleId in old(db.vehicles) ==>
      && r == Ok(MaintenanceLog(old(db.nextMaintenanceId), description, cost, vehicleId, now))
      && db.maintenance == old(db.maintenance) + [r.value]
      && db.vehicles == old(db.vehicles)[vehicleId := old(db.vehicles)[vehicleId].(status := IN_SHOP)]
  {
    // Both writes are staged first and committed only once the vehicle update can succeed.
    var log := MaintenanceLog(db.nextMaintenanceId, description, cost, vehicleId, now);
    if vehicleId !in db.vehicles {
      return Err(StorageError);
    }
    var vehicle := db.vehicles[vehicleId].(status := IN_SHOP);
    db.maintenance := db.maintenance + [log];
    db.nextMaintenanceId := db.nextMaintenanceId + 1;
    db.vehicles := db.vehicles[vehicleId := vehicle];
    r := Ok(log);
  }

  /**
   * `resolveMaintenance`: the vehicle becomes AVAILABLE whatever its status;
   * no maintenance log is read or written.
   */
  method ResolveMaintenance(db: Db, vehicleId: int) returns (r: Result<Vehicle, Failure>)
    requires db.Valid()
    modifies db`vehicles
    ensures db.Valid()
    ensures vehicleId !in old(db.vehicles) ==> r == Err(StorageError) && db.vehicles == old(db.vehicles)
    ensures vehicleId in old(db.vehicles) ==>
      && r == Ok(old(db.vehicles)[vehicleId].(status := AVAILABLE))
      && db.vehicles == old(db.vehicles)[vehicleId := r.value]
  {
    if vehicleId !in db.vehicles {
      return Err(StorageError);
    }
    var vehicle := db.vehicles[vehicleId].(status := AVAILABLE);
    db.vehicles := db.vehicles[vehicleId := vehicle];
    r := Ok(vehicle);
  }

  /** A log together with its vehicle, as the listing includes it. */
  datatype LogEntry = LogEntry(log: MaintenanceLog, vehicle: Option<Vehicle>)

  /** Newest first: `createdAt` never increases along the sequence. */
  predicate NewestFirst(logs: seq<MaintenanceLog>) {
    forall i, j :: 0 <= i < j < |logs| ==> logs[i].createdAt >= logs[j].createdAt
  }

  function InsertByCreatedAt(log: MaintenanceLog, sorted: seq<MaintenanceLog>): (r: seq<MaintenanceLog>)
    requires NewestFirst(sorted)
    ensures NewestFirst(r)
    ensures multiset(r) == multiset(sorted) + multiset{log}
    ensures |r| == |sorted| + 1
    ensures r[0] == log || (sorted != [] && r[0] == sorted[0])
  {
    if sorted == [] || log.createdAt >= sorted[0].createdAt then [log] + sorted
    else
      var rest := InsertByCreatedAt(log, sorted[1..]);
      assert sorted == [sorted[0]] + sorted[1..];
      assert sorted[0].createdAt >= rest[0].createdAt;
      [sorted[0]] + rest
  }

  /** `orderBy: { createdAt: 'desc' }`: the same logs, newest first. */
  function SortNewestFirst(logs: seq<MaintenanceLog>): (r: seq<MaintenanceLog>)
    ensures NewestFirst(r)
    ensures multiset(r) == multiset(logs)
  {
    if logs == [] then []
    else
      assert logs == [logs[0]] + logs[1..];
      InsertByCreatedAt(logs[0], SortNewestFirst(logs[1..]))
  }

  function LogsOf(entries: seq<LogEntry>): seq<MaintenanceLog> {
    seq(|entries|, i requires 0 <= i < |entries| => entries[i].log)
  }

  /**
   * `getMaintenanceLogs`: every stored log exactly once, newest first, each
   * paired with the vehicle it names if that vehicle is still stored.
   */
  method GetMaintenanceLogs(db: Db) returns (r: seq<LogEntry>)
    ensures multiset(LogsOf(r)) == multiset(db.maintenance)
    ensures NewestFirst(LogsOf(r))
    ensures forall i :: 0 <= i < |r| ==> r[i].vehicle == Lookup(db.vehicles, r[i].log.vehicleId)
  {
    var sorted := SortNewestFirst(db.maintenance);
    var vehicles := db.vehicles;
    r := seq(|sorted|, i requires 0 <= i < |sorted| => LogEntry(sorted[i], Lookup(vehicles, sorted[i].vehicleId)));
    assert LogsOf(r) == sorted;
  }
}
