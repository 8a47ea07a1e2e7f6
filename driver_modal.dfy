/** The driver form: three required fields, every missing one reported. */
module DriverModal {
  import opened Wrappers

  const NAME_REQUIRED: string := "Full name is required"
  const LICENSE_REQUIRED: string := "License number is required"
  const PHONE_REQUIRED: string := "Phone number is required"

  /** The form's fields; `rating` is numeric, the rest are input text. */
  datatype DriverForm = DriverForm(name: string, licenseNumber: string, phone: string, status: string,
                                   licenseExpiry: string, rating: real, experience: string)

  /** `validate`'s error map: one entry per empty required field, keyed by the field's name. */
  function DriverErrors(f: DriverForm): (errors: map<string, string>)
    ensures "name" in errors <==> f.name == ""
    ensures "licenseNumber" in errors <==> f.licenseNumber == ""
    ensures "phone" in errors <==> f.phone == ""
    ensures "name" in errors ==> errors["name"] == NAME_REQUIRED
    ensures "licenseNumber" in errors ==> errors["licenseNumber"] == LICENSE_REQUIRED
    ensures "phone" in errors ==> errors["phone"] == PHONE_REQUIRED
    ensures errors.Keys <= {"name", "licenseNumber", "phone"}
  {
    (if f.name == "" then map["name" := NAME_REQUIRED] else map[])
    + (if f.licenseNumber == "" then map["licenseNumber" := LICENSE_REQUIRED] else map[])
    + (if f.phone == "" then map["phone" := PHONE_REQUIRED] else map[])
  }

  /** `validate`: true iff no error was recorded. */
  function Validate(f: DriverForm): (ok: bool)
    ensures ok <==> f.name != "" && f.licenseNumber != "" && f.phone != ""
  {
    var errors := DriverErrors(f);
    assert errors == map[] <==> errors.Keys == {};
    |errors| == 0
  }

  /** `handleSubmit`: the form handed to `onSave`, which happens only when it validates. */
  function HandleSubmit(f: DriverForm): (saved: Option<DriverForm>)
    ensures saved.Some? <==> Validate(f)
    ensures saved.Some? ==> saved.value == f
  {
    if Validate(f) then Some(f) else None
  }

  /** Expiry, status, rating and experience never affect the errors. */
  lemma OnlyRequiredFieldsMatter(f: DriverForm, g: DriverForm)
    requires f.name == g.name && f.licenseNumber == g.licenseNumber && f.phone == g.phone
    ensures DriverErrors(f) == DriverErrors(g)
  {
  }
}
