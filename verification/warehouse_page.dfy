/**
 * The warehouse master page (client/src/page/warehouse-master.tsx): the
 * search filter, the capacity percentage with its zero guard and its colour
 * bands, the local list updates after a save or a delete, and the form's
 * reset and edit.
 *
 * Capacities are `real`, so `used / total * 100` is exact here; the page
 * computes it in floating point.
 */
module WarehousePage {
  import opened Text
  import Lists

  const WarehousesUrl: string := "/api/warehouses"

  /** A warehouse as the list endpoint returns it. */
  datatype Warehouse = Warehouse(
    id: string,
    code: string,
    name: string,
    location: string,
    address: string,
    contactPerson: string,
    contactNumber: string,
    totalCapacity: real,
    usedCapacity: real,
    kind: string,
    status: string,
    createdAt: string,
    lastUpdated: string)

  /** The form: the nine editable fields; the used capacity is not among them. */
  datatype WarehouseForm = WarehouseForm(
    code: string,
    name: string,
    location: string,
    address: string,
    contactPerson: string,
    contactNumber: string,
    totalCapacity: real,
    kind: string,
    status: string)

  /** The form `resetForm` restores. */
  const DefaultForm: WarehouseForm := WarehouseForm("", "", "", "", "", "", 0.0, "Main", "Active")

  /** The search: name, code or location, ignoring case. */
  predicate MatchesSearch(w: Warehouse, term: string) {
    IncludesIgnoringCase(w.name, term) || IncludesIgnoringCase(w.code, term) || IncludesIgnoringCase(w.location, term)
  }

  function SearchFor(term: string): Warehouse -> bool {
    (w: Warehouse) => MatchesSearch(w, term)
  }

  /** `filteredWarehouses`: the matching warehouses, in their original order. */
  function FilteredWarehouses(ws: seq<Warehouse>, term: string): (r: seq<Warehouse>)
    ensures Lists.IsSubsequence(r, ws)
    ensures forall i :: 0 <= i < |r| ==> MatchesSearch(r[i], term)
    ensures forall i :: 0 <= i < |ws| && MatchesSearch(ws[i], term) ==> ws[i] in r
  {
    Lists.FilterIsSubsequence(ws, SearchFor(term));
    Lists.Filter(ws, SearchFor(term))
  }

  /** An empty search shows every warehouse. */
  lemma EmptySearchShowsAll(ws: seq<Warehouse>)
    ensures FilteredWarehouses(ws, "") == ws
  {
    forall i | 0 <= i < |ws|
      ensures MatchesSearch(ws[i], "")
    {
      IncludesEmpty(ws[i].name);
    }
    Lists.FilterKeepsAll(ws, SearchFor(""));
  }

  /** Searching for a warehouse's code finds it, whatever the case of the term. */
  lemma CodeFindsWarehouse(ws: seq<Warehouse>, i: nat)
    requires i < |ws|
    ensures ws[i] in FilteredWarehouses(ws, ws[i].code)
    ensures ws[i] in FilteredWarehouses(ws, ToLower(ws[i].code))
  {
    IncludesSelf(ws[i].code);
    ToLowerIdempotent(ws[i].code);
  }

  /** `Math.round`: the nearest integer, halves rounded up. */
  function Round(x: real): (r: int)
    ensures x - 0.5 < r as real <= x + 0.5
  {
    (x + 0.5).Floor
  }

  /** `calculateCapacityPercentage`: 0 when the total is 0, else the rounded percentage used. */
  function CapacityPercentage(used: real, total: real): (r: int)
    ensures total == 0.0 ==> r == 0
    ensures total != 0.0 ==> used / total * 100.0 - 0.5 < r as real <= used / total * 100.0 + 0.5
  {
    if total == 0.0 then 0 else Round(used / total * 100.0)
  }

  /** Within capacity, the percentage lies between 0 and 100. */
  lemma PercentageInRange(used: real, total: real)
    requires 0.0 <= used <= total
    ensures 0 <= CapacityPercentage(used, total) <= 100
  {
    if total != 0.0 {
      assert 0.0 <= used / total <= 1.0;
    }
  }

  datatype Band = Red | Yellow | Green

  /** The colour of the capacity bar. */
  function BandOf(percent: int): (r: Band)
    ensures r == Red <==> percent > 90
    ensures r == Yellow <==> 75 < percent <= 90
    ensures r == Green <==> percent <= 75
  {
    if percent > 90 then Red else if percent > 75 then Yellow else Green
  }

  /** A warehouse of capacity 0 always shows green. */
  lemma NoCapacityIsGreen(used: real)
    ensures BandOf(CapacityPercentage(used, 0.0)) == Green
  {
  }

  /** A full warehouse shows red, an empty one green. */
  lemma FullIsRedEmptyIsGreen(total: real)
    requires total > 0.0
    ensures BandOf(CapacityPercentage(total, total)) == Red
    ensures BandOf(CapacityPercentage(0.0, total)) == Green
  {
  }

  /** The bar turns red exactly when more than 90.5 percent is used. */
  lemma RedThreshold(used: real, total: real)
    requires total > 0.0
    ensures BandOf(CapacityPercentage(used, total)) == Red <==> used / total * 100.0 >= 90.5
  {
  }

  /** The band only darkens as more capacity is used. */
  lemma BandMonotone(used: real, more: real, total: real)
    requires total > 0.0 && used <= more
    ensures CapacityPercentage(used, total) <= CapacityPercentage(more, total)
    ensures BandOf(CapacityPercentage(used, total)) == Red ==> BandOf(CapacityPercentage(more, total)) == Red
  {
    assert used / total <= more / total;
  }

  /** The select fields (type, status): `{ ...prev, [name]: value }`. */
  function SetSelectField(f: WarehouseForm, name: string, value: string): (r: WarehouseForm)
    ensures name == "type" ==> r == f.(kind := value)
    ensures name == "status" ==> r == f.(status := value)
    ensures name != "type" && name != "status" ==> r == f
  {
    if name == "type" then f.(kind := value)
    else if name == "status" then f.(status := value)
    else f
  }

  /** Choosing twice in the same select leaves only the second choice. */
  lemma SelectLastChoiceWins(f: WarehouseForm, name: string, first: string, second: string)
    ensures SetSelectField(SetSelectField(f, name, first), name, second) == SetSelectField(f, name, second)
  {
  }

  /** `handleEdit`: the nine editable fields, copied verbatim. */
  function FormOf(w: Warehouse): (r: WarehouseForm)
    ensures r.code == w.code && r.name == w.name && r.location == w.location && r.address == w.address
    ensures r.contactPerson == w.contactPerson && r.contactNumber == w.contactNumber
    ensures r.totalCapacity == w.totalCapacity && r.kind == w.kind && r.status == w.status
  {
    WarehouseForm(w.code, w.name, w.location, w.address, w.contactPerson, w.contactNumber,
                  w.totalCapacity, w.kind, w.status)
  }

  /** The used capacity and the timestamps never reach the form. */
  lemma FormIgnoresUsedCapacity(w: Warehouse, used: real, createdAt: string, lastUpdated: string)
    ensures FormOf(w.(usedCapacity := used, createdAt := createdAt, lastUpdated := lastUpdated)) == FormOf(w)
  {
  }

  /** The warehouse the server returns for a submitted form. */
  function WarehouseOf(id: string, f: WarehouseForm, used: real, createdAt: string, lastUpdated: string): Warehouse {
    Warehouse(id, f.code, f.name, f.location, f.address, f.contactPerson, f.contactNumber,
              f.totalCapacity, used, f.kind, f.status, createdAt, lastUpdated)
  }

  /** Editing a saved warehouse shows the form it was saved from. */
  lemma EditRoundTrip(id: string, f: WarehouseForm, used: real, createdAt: string, lastUpdated: string)
    ensures FormOf(WarehouseOf(id, f, used, createdAt, lastUpdated)) == f
  {
  }

  function WarehouseId(w: Warehouse): string {
    w.id
  }

  datatype Verb = Post | Put

  datatype Request = Request(verb: Verb, url: string, body: WarehouseForm)

  /** The request a submit sends: PUT to the edited warehouse, else POST. */
  function RequestFor(f: WarehouseForm, editing: Option<Warehouse>): (r: Request)
    ensures r.body == f
    ensures editing.Some? ==> r.verb == Put && r.url == WarehousesUrl + "/" + editing.value.id
    ensures editing.None? ==> r.verb == Post && r.url == WarehousesUrl
  {
    if editing.Some? then Request(Put, WarehousesUrl + "/" + editing.value.id, f)
    else Request(Post, WarehousesUrl, f)
  }

  /** The page's state hooks. */
  class WarehousePage {
    var warehouses: seq<Warehouse>
    var searchTerm: string
    var formData: WarehouseForm
    var editingWarehouse: Option<Warehouse>
    var error: string
    var isModalOpen: bool

    constructor ()
      ensures warehouses == [] && searchTerm == "" && formData == DefaultForm
      ensures editingWarehouse == None && error == "" && !isModalOpen
    {
      warehouses := [];
      searchTerm := "";
      formData := DefaultForm;
      editingWarehouse := None;
      error := "";
      isModalOpen := false;
    }

    /** The warehouses the table shows. */
    function Visible(): seq<Warehouse>
      reads this
    {
      FilteredWarehouses(warehouses, searchTerm)
    }

    /** `handleSelectChange`. */
    method HandleSelectChange(name: string, value: string)
      modifies this
      ensures formData == SetSelectField(old(formData), name, value)
      ensures warehouses == old(warehouses) && editingWarehouse == old(editingWarehouse)
      ensures error == old(error) && searchTerm == old(searchTerm) && isModalOpen == old(isModalOpen)
    {
      formData := SetSelectField(formData, name, value);
    }

    /** `handleSubmit` up to the request: no checks, the verb follows the editing target. */
    method Submit() returns (request: Request)
      ensures request == RequestFor(formData, editingWarehouse)
    {
      request := RequestFor(formData, editingWarehouse);
    }

    /** A successful save: an edit replaces the entries with the saved id, a create appends; then the form resets. */
    method SaveSucceeded(saved: Warehouse)
      modifies this
      ensures old(editingWarehouse).Some? ==> warehouses == Lists.ReplaceById(old(warehouses), WarehouseId, saved)
      ensures old(editingWarehouse).None? ==> warehouses == old(warehouses) + [saved]
      ensures formData == DefaultForm && editingWarehouse == None && !isModalOpen && error == ""
      ensures searchTerm == old(searchTerm)
    {
      if editingWarehouse.Some? {
        warehouses := Lists.ReplaceById(warehouses, WarehouseId, saved);
      } else {
        warehouses := warehouses + [saved];
      }
      ResetForm();
    }

    /** A successful delete: every entry with that id leaves the list, the rest keep their order. */
    method DeleteSucceeded(id: string)
      modifies this
      ensures warehouses == Lists.DeleteById(old(warehouses), WarehouseId, id)
      ensures formData == old(formData) && editingWarehouse == old(editingWarehouse)
      ensures error == old(error) && searchTerm == old(searchTerm) && isModalOpen == old(isModalOpen)
    {
      warehouses := Lists.DeleteById(warehouses, WarehouseId, id);
    }

    /** `resetForm`. */
    method ResetForm()
      modifies this
      ensures formData == DefaultForm && editingWarehouse == None && !isModalOpen && error == ""
      ensures warehouses == old(warehouses) && searchTerm == old(searchTerm)
    {
      formData := DefaultForm;
      editingWarehouse := None;
      isModalOpen := false;
      error := "";
    }

    /** `handleEdit(warehouse)`. */
    method HandleEdit(w: Warehouse)
      modifies this
      ensures editingWarehouse == Some(w) && formData == FormOf(w) && isModalOpen
      ensures warehouses == old(warehouses) && error == old(error) && searchTerm == old(searchTerm)
    {
      editingWarehouse := Some(w);
      formData := FormOf(w);
      isModalOpen := true;
    }
  }

  /** An edit save changes only the entries with the saved id. */
  lemma EditSaveKeepsOthers(ws: seq<Warehouse>, saved: Warehouse)
    ensures Lists.DeleteById(Lists.ReplaceById(ws, WarehouseId, saved), WarehouseId, saved.id)
      == Lists.DeleteById(ws, WarehouseId, saved.id)
  {
    Lists.ReplaceKeepsOthers(ws, WarehouseId, saved);
  }

  /** Saving an edit of a warehouse that is no longer listed leaves the list as it was. */
  lemma EditOfVanishedIsNoOp(ws: seq<Warehouse>, saved: Warehouse)
    requires forall i :: 0 <= i < |ws| ==> ws[i].id != saved.id
    ensures Lists.ReplaceById(ws, WarehouseId, saved) == ws
  {
    Lists.ReplaceAbsentIsIdentity(ws, WarehouseId, saved);
  }
}
