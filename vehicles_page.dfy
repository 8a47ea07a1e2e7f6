/** The Vehicles page: a locally held list with search, type filter, add, edit and delete. */
module VehiclesPage {
  import opened Wrappers
  import opened Text
  import opened Seqs
  import opened VehicleModal

  const ALL_TYPES: string := "All"

  /** The search matches name or plate, ignoring case; the type filter is "All" or the exact type. */
  predicate VehicleMatches(term: string, filterType: string, v: UiVehicle) {
    && (IncludesIgnoringCase(v.name, term) || IncludesIgnoringCase(v.plateNumber, term))
    && (filterType == ALL_TYPES || v.vehicleType == filterType)
  }

  /** `filteredVehicles`: exactly the matching vehicles, in list order. */
  function FilterVehicles(vehicles: seq<UiVehicle>, term: string, filterType: string): (r: seq<UiVehicle>)
    ensures forall i :: 0 <= i < |r| ==> r[i] in vehicles && VehicleMatches(term, filterType, r[i])
    ensures forall i :: 0 <= i < |vehicles| && VehicleMatches(term, filterType, vehicles[i]) ==> vehicles[i] in r
    ensures forall x :: multiset(r)[x] == (if VehicleMatches(term, filterType, x) then multiset(vehicles)[x] else 0)
    ensures IsSubsequence(r, vehicles)
  {
    Filter(vehicles, v => VehicleMatches(term, filterType, v))
  }

  /** With no search term and type "All", every vehicle is shown. */
  lemma NoFilterShowsAll(vehicles: seq<UiVehicle>)
    ensures FilterVehicles(vehicles, "", ALL_TYPES) == vehicles
  {
    forall i | 0 <= i < |vehicles| ensures VehicleMatches("", ALL_TYPES, vehicles[i]) {
      EmptyTermFoundEverywhere(vehicles[i].name);
    }
    FilterKeepsAll(vehicles, v => VehicleMatches("", ALL_TYPES, v));
  }

  /** Edit: every entry with the edited id becomes the new data under its own id; the rest stay. */
  function ReplaceById(vehicles: seq<UiVehicle>, id: string, data: UiVehicle): (r: seq<UiVehicle>)
    ensures |r| == |vehicles|
    ensures forall i :: 0 <= i < |r| ==> r[i].id == vehicles[i].id
    ensures forall i :: 0 <= i < |r| && vehicles[i].id == id ==> r[i] == data.(id := id)
    ensures forall i :: 0 <= i < |r| && vehicles[i].id != id ==> r[i] == vehicles[i]
  {
    seq(|vehicles|, i requires 0 <= i < |vehicles| =>
      if vehicles[i].id == id then data.(id := vehicles[i].id) else vehicles[i])
  }

  /** Add: one entry appended under the new id; earlier entries unchanged. */
  function Append(vehicles: seq<UiVehicle>, data: UiVehicle, newId: string): (r: seq<UiVehicle>)
    ensures |r| == |vehicles| + 1
    ensures r[..|vehicles|] == vehicles
    ensures r[|vehicles|] == data.(id := newId)
  {
    vehicles + [data.(id := newId)]
  }

  /** Delete: exactly the entries with that id go; the rest keep their order. */
  function RemoveById(vehicles: seq<UiVehicle>, id: string): (r: seq<UiVehicle>)
    ensures forall i :: 0 <= i < |r| ==> r[i].id != id && r[i] in vehicles
    ensures forall i :: 0 <= i < |vehicles| && vehicles[i].id != id ==> vehicles[i] in r
    ensures forall x :: multiset(r)[x] == (if x.id != id then multiset(vehicles)[x] else 0)
    ensures IsSubsequence(r, vehicles)
  {
    Filter(vehicles, (v: UiVehicle) => v.id != id)
  }

  /** No two entries share an id. */
  predicate DistinctIds(vehicles: seq<UiVehicle>) {
    forall i, j :: 0 <= i < j < |vehicles| ==> vehicles[i].id != vehicles[j].id
  }

  /** Edits keep the ids, adds under an unused id keep them distinct. */
  lemma SavesKeepIdsDistinct(vehicles: seq<UiVehicle>, id: string, data: UiVehicle, newId: string)
    requires DistinctIds(vehicles)
    ensures DistinctIds(ReplaceById(vehicles, id, data))
    ensures (forall i :: 0 <= i < |vehicles| ==> vehicles[i].id != newId) ==>
              DistinctIds(Append(vehicles, data, newId))
  {
  }

  /** The page state that the save, delete and edit handlers write. */
  class VehiclesView {
    var vehicles: seq<UiVehicle>
    var searchTerm: string
    var filterType: string
    var isModalOpen: bool
    var editingVehicle: Option<UiVehicle>

    constructor (initial: seq<UiVehicle>)
      ensures vehicles == initial && searchTerm == "" && filterType == ALL_TYPES
      ensures !isModalOpen && editingVehicle == None
    {
      vehicles, searchTerm, filterType := initial, "", ALL_TYPES;
      isModalOpen, editingVehicle := false, None;
    }

    /** The vehicles the table shows. */
    function Filtered(): (r: seq<UiVehicle>)
      reads this
      ensures forall i :: 0 <= i < |r| ==> VehicleMatches(searchTerm, filterType, r[i])
      ensures forall x :: multiset(r)[x] == (if VehicleMatches(searchTerm, filterType, x) then multiset(vehicles)[x] else 0)
      ensures IsSubsequence(r, vehicles)
    {
      FilterVehicles(vehicles, searchTerm, filterType)
    }

    /** `openEditModal` */
    method OpenEditModal(vehicle: UiVehicle)
      modifies this`editingVehicle, this`isModalOpen
      ensures editingVehicle == Some(vehicle) && isModalOpen
    {
      editingVehicle := Some(vehicle);
      isModalOpen := true;
    }

    /**
     * `handleSave`: edit the vehicle being edited, or append under `newId`
     * (the current time as text); then close the modal and clear the target.
     */
    method HandleSave(data: UiVehicle, newId: string)
      modifies this`vehicles, this`isModalOpen, this`editingVehicle
      ensures old(editingVehicle).Some? ==> vehicles == ReplaceById(old(vehicles), old(editingVehicle).value.id, data)
      ensures old(editingVehicle).None? ==> vehicles == Append(old(vehicles), data, newId)
      ensures !isModalOpen && editingVehicle == None
    {
      if editingVehicle.Some? {
        vehicles := ReplaceById(vehicles, editingVehicle.value.id, data);
      } else {
        vehicles := Append(vehicles, data, newId);
      }
      isModalOpen := false;
      editingVehicle := None;
    }

    /** `handleDelete`: removes the entries with that id once the user confirms. */
    method HandleDelete(id: string, confirmed: bool)
      modifies this`vehicles
      ensures confirmed ==> vehicles == RemoveById(old(vehicles), id)
      ensures !confirmed ==> vehicles == old(vehicles)
    {
      if confirmed {
        vehicles := RemoveById(vehicles, id);
      }
    }
  }
}
