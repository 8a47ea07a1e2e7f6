/**
 * The backend's shared store: one table per record kind, with the
 * autoincrement counters that hand out ids. Every controller reads and
 * writes this one object, as every controller shares one database client.
 */
module Database {
  import opened Wrappers
  import opened Records

  /**
   * How a controller call fails: a 400 reply carrying a message, or an error
   * raised by the store (an update or delete of a missing id), which the
   * error handler turns into a 500.
   */
  datatype Failure = BadRequest(message: string) | StorageError

  class Db {
    var vehicles: map<int, Vehicle>
    var drivers: map<int, Driver>
    var trips: map<int, Trip>
    /** Maintenance logs in insertion order. */
    var maintenance: seq<MaintenanceLog>
    var nextVehicleId: int
    var nextDriverId: int
    var nextTripId: int
    var nextMaintenanceId: int

    /** Every record sits under its own id, and every id was handed out by its table's counter. */
    ghost predicate Valid()
      reads this
    {
      && 0 < nextVehicleId && 0 < nextDriverId && 0 < nextTripId && 0 < nextMaintenanceId
      && (forall id :: id in vehicles ==> vehicles[id].id == id && 0 < id < nextVehicleId)
      && (forall id :: id in drivers ==> drivers[id].id == id && 0 < id < nextDriverId)
      && (forall id :: id in trips ==> trips[id].id == id && 0 < id < nextTripId)
      && (forall i :: 0 <= i < |maintenance| ==> 0 < maintenance[i].id < nextMaintenanceId)
      && (forall i, j :: 0 <= i < j < |maintenance| ==> maintenance[i].id < maintenance[j].id)
    }

    constructor ()
      ensures Valid()
      ensures vehicles == map[] && drivers == map[] && trips == map[] && maintenance == []
    {
      vehicles, drivers, trips, maintenance := map[], map[], map[], [];
      nextVehicleId, nextDriverId, nextTripId, nextMaintenanceId := 1, 1, 1, 1;
    }
  }

  /** The keys of m in [1, n), ascending: the order in which `findMany` lists a table. */
  function AscendingKeys<V>(m: map<int, V>, n: int): (ks: seq<int>)
    ensures forall k :: k in ks <==> k in m && 0 < k < n
    ensures forall i, j :: 0 <= i < j < |ks| ==> ks[i] < ks[j]
    decreases n
  {
    if n <= 1 then []
    else
      var prev := AscendingKeys(m, n - 1);
      assert forall i :: 0 <= i < |prev| ==> prev[i] in prev && prev[i] < n - 1;
      prev + (if n - 1 in m then [n - 1] else [])
  }

  /** The value stored under k, if any. */
  function Lookup<V>(m: map<int, V>, k: int): Option<V> {
    if k in m then Some(m[k]) else None
  }
}
