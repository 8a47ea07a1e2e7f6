/**
 * The Drivers page: backend records shown as cards, the licence-expiry
 * warning, and the payload a save sends back.
 */
module DriversPage {
  import opened Wrappers
  import opened Records
  import opened Text
  import opened DriverModal

  const AVAILABLE_LABEL: string := "Available"
  const OFF_DUTY_LABEL: string := "Off Duty"
  const ON_LEAVE_LABEL: string := "On Leave"
  const DEFAULT_RATING: real := 5.0
  const PHONE_PLACEHOLDER: string := "+91 98765 43210"
  const EXPERIENCE_PLACEHOLDER: string := "5 Yrs"

  /** Milliseconds in a day. */
  const DAY_MS: int := 1000 * 60 * 60 * 24

  /** A driver as the listing delivers it: expiry as ISO-8601 text, score possibly null. */
  datatype DriverJson = DriverJson(id: int, name: string, licenseNumber: string, licenseExpiry: string,
                                   safetyScore: Option<real>, status: string)

  datatype DriverCard = DriverCard(id: int, name: string, licenseNumber: string, licenseExpiry: string,
                                   rating: real, status: string, phone: string, experience: string)

  /** Backend status to display label: only ON_DUTY and OFF_DUTY have a label of their own. */
  function DisplayStatus(status: string): (shown: string)
    ensures shown == AVAILABLE_LABEL <==> status == ON_DUTY
    ensures shown == OFF_DUTY_LABEL <==> status == OFF_DUTY
    ensures shown == ON_LEAVE_LABEL <==> status != ON_DUTY && status != OFF_DUTY
  {
    if status == ON_DUTY then AVAILABLE_LABEL
    else if status == OFF_DUTY then OFF_DUTY_LABEL
    else ON_LEAVE_LABEL
  }

  /** Display label to backend status: "Available" is ON_DUTY, everything else OFF_DUTY. */
  function SaveStatus(shown: string): (status: string)
    ensures status == ON_DUTY <==> shown == AVAILABLE_LABEL
    ensures status == OFF_DUTY <==> shown != AVAILABLE_LABEL
  {
    if shown == AVAILABLE_LABEL then ON_DUTY else OFF_DUTY
  }

  /** Showing then saving keeps ON_DUTY and OFF_DUTY and collapses every other status to OFF_DUTY. */
  lemma StatusRoundTrip(status: string)
    ensures status == ON_DUTY || status == OFF_DUTY ==> SaveStatus(DisplayStatus(status)) == status
    ensures status != ON_DUTY && status != OFF_DUTY ==> SaveStatus(DisplayStatus(status)) == OFF_DUTY
  {
  }

  /** Saving then showing keeps the two labels that have a status of their own; "On Leave" comes back "Off Duty". */
  lemma LabelRoundTrip(shown: string)
    ensures shown == AVAILABLE_LABEL || shown == OFF_DUTY_LABEL ==> DisplayStatus(SaveStatus(shown)) == shown
    ensures shown == ON_LEAVE_LABEL ==> DisplayStatus(SaveStatus(shown)) == OFF_DUTY_LABEL
  {
  }

  /** `safetyScore || 5.0`: a missing or zero score shows as 5.0. */
  function Rating(score: Option<real>): (r: real)
    ensures score.Some? && score.value != 0.0 ==> r == score.value
    ensures score.None? || score.value == 0.0 ==> r == DEFAULT_RATING
  {
    if score.Some? && score.value != 0.0 then score.value else DEFAULT_RATING
  }

  /** The card for one listed driver: the expiry shows only its date part. */
  function ToCard(d: DriverJson): (c: DriverCard)
    ensures c.id == d.id && c.name == d.name && c.licenseNumber == d.licenseNumber
    ensures c.licenseExpiry <= d.licenseExpiry && 'T' !in c.licenseExpiry
    ensures |c.licenseExpiry| < |d.licenseExpiry| ==> d.licenseExpiry[|c.licenseExpiry|] == 'T'
    ensures c.status == DisplayStatus(d.status) && c.rating == Rating(d.safetyScore)
    ensures c.phone == PHONE_PLACEHOLDER && c.experience == EXPERIENCE_PLACEHOLDER
  {
    DriverCard(d.id, d.name, d.licenseNumber, Before(d.licenseExpiry, 'T'), Rating(d.safetyScore),
               DisplayStatus(d.status), PHONE_PLACEHOLDER, EXPERIENCE_PLACEHOLDER)
  }

  /** `Math.ceil(a / b)` for a positive divisor. */
  function CeilDiv(a: int, b: int): int
    requires b > 0
  {
    -((-a) / b)
  }

  /**
   * `isExpiringSoon`: the day difference, rounded up, lies strictly between 0
   * and 30. In milliseconds: flagged iff the expiry is after now and at most
   * 29 days ahead. Past and same-instant expiries, and those 29 days and 1 ms
   * or more ahead, are not flagged.
   */
  function IsExpiringSoon(expiry: int, now: int): (soon: bool)
    ensures soon <==> 0 < expiry - now <= 29 * DAY_MS
  {
    var diffDays := CeilDiv(expiry - now, DAY_MS);
    diffDays < 30 && diffDays > 0
  }

  /** What a save sends to the backend. */
  datatype DriverPayload = DriverPayload(name: string, licenseNumber: string, licenseExpiry: string,
                                         safetyScore: real, status: string)

  datatype DriverRequest = UpdateRequest(id: int, payload: DriverPayload) | CreateRequest(payload: DriverPayload)

  /** `handleSave`: an update of the driver being edited, otherwise a create, with the status mapped back. */
  function SaveRequest(editing: Option<DriverCard>, form: DriverForm): (r: DriverRequest)
    ensures r.UpdateRequest? <==> editing.Some?
    ensures r.UpdateRequest? ==> r.id == editing.value.id
    ensures r.payload.name == form.name && r.payload.licenseNumber == form.licenseNumber
    ensures r.payload.licenseExpiry == form.licenseExpiry && r.payload.safetyScore == form.rating
    ensures r.payload.status == SaveStatus(form.status)
  {
    var payload := DriverPayload(form.name, form.licenseNumber, form.licenseExpiry, form.rating,
                                 SaveStatus(form.status));
    if editing.Some? then UpdateRequest(editing.value.id, payload) else CreateRequest(payload)
  }

  /** The page state that loading and saving write. */
  class DriversView {
    var drivers: seq<DriverCard>
    var loading: bool
    var isModalOpen: bool
    var editingDriver: Option<DriverCard>

    constructor ()
      ensures drivers == [] && loading && !isModalOpen && editingDriver == None
    {
      drivers, loading, isModalOpen, editingDriver := [], true, false, None;
    }

    /** `fetchDrivers`: one card per listed driver, in order; a failed listing keeps the old cards. */
    method FetchDrivers(data: Option<seq<DriverJson>>)
      modifies this`drivers, this`loading
      ensures data.Some? ==> |drivers| == |data.value| &&
                              forall i :: 0 <= i < |drivers| ==> drivers[i] == ToCard(data.value[i])
      ensures data.None? ==> drivers == old(drivers)
      ensures !loading
    {
      loading := true;
      if data.Some? {
        var listed := data.value;
        drivers := seq(|listed|, i requires 0 <= i < |listed| => ToCard(listed[i]));
      }
      loading := false;
    }

    /** `openEditModal` */
    method OpenEditModal(driver: DriverCard)
      modifies this`editingDriver, this`isModalOpen
      ensures editingDriver == Some(driver) && isModalOpen
    {
      editingDriver := Some(driver);
      isModalOpen := true;
    }

    /**
     * `handleSave`: the request it sends. When the request succeeds the list
     * is reloaded from `reloaded` (the listing's answer, `None` when it
     * fails), the modal closes and the editing target is cleared; when it
     * fails nothing changes.
     */
    method HandleSave(form: DriverForm, succeeded: bool, reloaded: Option<seq<DriverJson>>)
      returns (request: DriverRequest)
      modifies this`editingDriver, this`isModalOpen, this`drivers, this`loading
      ensures request == SaveRequest(old(editingDriver), form)
      ensures succeeded && reloaded.Some? ==>
                (|drivers| == |reloaded.value| &&
                 forall i :: 0 <= i < |drivers| ==> drivers[i] == ToCard(reloaded.value[i]))
      ensures succeeded && reloaded.None? ==> drivers == old(drivers)
      ensures succeeded ==> !isModalOpen && editingDriver == None && !loading
      ensures !succeeded ==> isModalOpen == old(isModalOpen) && editingDriver == old(editingDriver)
      ensures !succeeded ==> drivers == old(drivers) && loading == old(loading)
    {
      request := SaveRequest(editingDriver, form);
      if succeeded {
        FetchDrivers(reloaded);
        isModalOpen := false;
        editingDriver := None;
      }
    }
  }
}
