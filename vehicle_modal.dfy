/** The vehicle form: name, plate and capacity are required, every missing one reported. */
module VehicleModal {
  import opened Wrappers

  const NAME_REQUIRED: string := "Vehicle name is required"
  const PLATE_REQUIRED: string := "Plate number is required"
  const CAPACITY_REQUIRED: string := "Capacity is required"

  /** A vehicle of the Vehicles page, which is also the form's data; every field is text. */
  datatype UiVehicle = UiVehicle(id: string, name: string, plateNumber: string, vehicleType: string,
                                 status: string, capacity: string, lastService: string, mileage: string)

  /** `validate`'s error map: one entry per empty required field, keyed by the field's name. */
  function VehicleErrors(f: UiVehicle): (errors: map<string, string>)
    ensures "name" in errors <==> f.name == ""
    ensures "plateNumber" in errors <==> f.plateNumber == ""
    ensures "capacity" in errors <==> f.capacity == ""
    ensures "name" in errors ==> errors["name"] == NAME_REQUIRED
    ensures "plateNumber" in errors ==> errors["plateNumber"] == PLATE_REQUIRED
    ensures "capacity" in errors ==> errors["capacity"] == CAPACITY_REQUIRED
    ensures errors.Keys <= {"name", "plateNumber", "capacity"}
  {
    (if f.name == "" then map["name" := NAME_REQUIRED] else map[])
    + (if f.plateNumber == "" then map["plateNumber" := PLATE_REQUIRED] else map[])
    + (if f.capacity == "" then map["capacity" := CAPACITY_REQUIRED] else map[])
  }

  /** `validate`: true iff no error was recorded. */
  function Validate(f: UiVehicle): (ok: bool)
    ensures ok <==> f.name != "" && f.plateNumber != "" && f.capacity != ""
  {
    var errors := VehicleErrors(f);
    assert errors == map[] <==> errors.Keys == {};
    |errors| == 0
  }

  /** `handleSubmit`: the form handed to `onSave`, which happens only when it validates. */
  function HandleSubmit(f: UiVehicle): (saved: Option<UiVehicle>)
    ensures saved.Some? <==> Validate(f)
    ensures saved.Some? ==> saved.value == f
  {
    if Validate(f) then Some(f) else None
  }

  /** Type, status, last service and mileage never affect the errors. */
  lemma OnlyRequiredFieldsMatter(f: UiVehicle, g: UiVehicle)
    requires f.name == g.name && f.plateNumber == g.plateNumber && f.capacity == g.capacity
    ensures VehicleErrors(f) == VehicleErrors(g)
  {
  }
}
