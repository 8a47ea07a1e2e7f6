/**
 * The dispatch form: which vehicles and drivers it offers, the placeholder
 * shown when it offers none, and the error it shows when dispatch fails.
 */
module DispatchModal {
  import opened Wrappers
  import opened Records
  import opened Text
  import opened Seqs
  import opened TripController

  const DISPATCH_FAILED: string := "Failed to dispatch trip"

  /** What a select shows: the "none found" placeholder, the "none currently" placeholder, or options. */
  datatype Menu<T> = NoneFound | NoneCurrently | Options(options: seq<T>)

  /**
   * An absent or empty list gives the "none found" placeholder; a list with no
   * qualifying entry the "none currently" one; otherwise the qualifying entries.
   */
  function MenuFor<T(==,!new)>(items: Option<seq<T>>, qualifies: T -> bool): (m: Menu<T>)
    ensures m == NoneFound <==> items.None? || items.value == []
    ensures m == NoneCurrently <==> items.Some? && items.value != [] && Filter(items.value, qualifies) == []
    ensures m.Options? ==> m.options == Filter(items.value, qualifies) && m.options != []
  {
    if items.None? || items.value == [] then NoneFound
    else if Filter(items.value, qualifies) == [] then NoneCurrently
    else Options(Filter(items.value, qualifies))
  }

  predicate Offerable(v: Vehicle) {
    ToUpper(v.status) == AVAILABLE
  }

  predicate OnDuty(d: Driver) {
    ToUpper(d.status) == ON_DUTY
  }

  /** The vehicles offered: upper-cased status is AVAILABLE, in list order. */
  function VehicleOptions(vehicles: seq<Vehicle>): (r: seq<Vehicle>)
    ensures forall i :: 0 <= i < |r| ==> r[i] in vehicles && Offerable(r[i])
    ensures forall i :: 0 <= i < |vehicles| && Offerable(vehicles[i]) ==> vehicles[i] in r
    ensures forall v :: multiset(r)[v] == (if Offerable(v) then multiset(vehicles)[v] else 0)
    ensures IsSubsequence(r, vehicles)
  {
    Filter(vehicles, Offerable)
  }

  /** The drivers offered: upper-cased status is ON_DUTY, in list order. */
  function DriverOptions(drivers: seq<Driver>): (r: seq<Driver>)
    ensures forall i :: 0 <= i < |r| ==> r[i] in drivers && OnDuty(r[i])
    ensures forall i :: 0 <= i < |drivers| && OnDuty(drivers[i]) ==> drivers[i] in r
    ensures forall d :: multiset(r)[d] == (if OnDuty(d) then multiset(drivers)[d] else 0)
    ensures IsSubsequence(r, drivers)
  {
    Filter(drivers, OnDuty)
  }

  /** The vehicle select: a placeholder, or the offered vehicles. */
  function VehicleMenu(vehicles: Option<seq<Vehicle>>): (m: Menu<Vehicle>)
    ensures m == NoneFound <==> vehicles.None? || vehicles.value == []
    ensures m == NoneCurrently <==> vehicles.Some? && vehicles.value != [] && VehicleOptions(vehicles.value) == []
    ensures m.Options? ==> m.options == VehicleOptions(vehicles.value) && m.options != []
  {
    MenuFor(vehicles, Offerable)
  }

  /** The driver select: a placeholder, or the on-duty drivers. */
  function DriverMenu(drivers: Option<seq<Driver>>): (m: Menu<Driver>)
    ensures m == NoneFound <==> drivers.None? || drivers.value == []
    ensures m == NoneCurrently <==> drivers.Some? && drivers.value != [] && DriverOptions(drivers.value) == []
    ensures m.Options? ==> m.options == DriverOptions(drivers.value) && m.options != []
  {
    MenuFor(drivers, OnDuty)
  }

  /** Every vehicle that passes the backend's exact AVAILABLE check is offered. */
  lemma BackendReadyIsOffered(vehicles: map<int, Vehicle>, listed: seq<Vehicle>, i: int)
    requires 0 <= i < |listed| && listed[i].id in vehicles && vehicles[listed[i].id] == listed[i]
    requires VehicleReady(vehicles, listed[i].id)
    ensures listed[i] in VehicleOptions(listed)
  {
    assert ToUpper(AVAILABLE) == AVAILABLE;
  }

  /** The filter ignores case and the backend does not: a lower-case "available" vehicle is offered and then refused. */
  lemma OfferedYetRefused(drivers: map<int, Driver>, cargoWeight: real, driverId: int)
    ensures var v := Vehicle(1, "P-1", "M", 10.0, "available");
            && v in VehicleOptions([v])
            && CheckDispatch(map[1 := v], drivers, cargoWeight, 1, driverId) == Reject(VEHICLE_NOT_AVAILABLE)
  {
    var v := Vehicle(1, "P-1", "M", 10.0, "available");
    assert ToUpper(v.status) == AVAILABLE;
    assert Offerable(v);
  }

  /** On failure: the server's message when it sent a non-empty one, else the fixed fallback. */
  function ErrorMessage(serverMessage: Option<string>): (shown: string)
    ensures serverMessage.Some? && serverMessage.value != "" ==> shown == serverMessage.value
    ensures serverMessage.None? || serverMessage.value == "" ==> shown == DISPATCH_FAILED
    ensures shown != ""
  {
    if serverMessage.Some? && serverMessage.value != "" then serverMessage.value else DISPATCH_FAILED
  }
}
