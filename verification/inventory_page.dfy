/**
 * The inventory master page (client/src/page/inventory-master.tsx): the
 * search filter, the submit checks in their fixed order, the barcode-type
 * switch, the warehouse copy on selection, the low-stock flag, and the local
 * list updates after a save or a delete.
 *
 * Prices, tax and stock levels are `real`: the page keeps them as JavaScript
 * numbers, and only their comparison matters here.
 */
module InventoryPage {
  import opened Text
  import Lists

  const BarcodeRequired: string := "Barcode is required"
  const OuterBoxRequired: string := "Outer box barcode is required for this type"
  const WarehouseRequired: string := "Warehouse is required"
  const InventoryUrl: string := "/api/inventory"

  datatype BarcodeType = Single | OuterBox

  /** An item as the list endpoint returns it. */
  datatype InventoryItem = InventoryItem(
    id: string,
    sku: string,
    name: string,
    description: string,
    category: string,
    barcode: string,
    barcodeType: BarcodeType,
    barcodeOuterBox: Option<string>,
    unitOfMeasure: string,
    costPrice: real,
    sellingPrice: real,
    taxRate: real,
    currentStock: real,
    minStockLevel: real,
    supplierId: Option<string>,
    supplierName: Option<string>,
    warehouseId: string,
    warehouseName: string,
    location: string,
    lastUpdated: string,
    createdAt: string)

  /** A warehouse as the page lists it for the selector. */
  datatype Warehouse = Warehouse(id: string, name: string, code: string)

  /** The form: the item without its id and timestamps, optional texts as "". */
  datatype ItemForm = ItemForm(
    sku: string,
    name: string,
    description: string,
    category: string,
    barcode: string,
    barcodeType: BarcodeType,
    barcodeOuterBox: string,
    unitOfMeasure: string,
    costPrice: real,
    sellingPrice: real,
    taxRate: real,
    currentStock: real,
    minStockLevel: real,
    supplierId: string,
    supplierName: string,
    warehouseId: string,
    warehouseName: string,
    location: string)

  /** The form `resetForm` restores. */
  const DefaultForm: ItemForm := ItemForm(
    "", "", "", "", "", Single, "", "pcs", 0.0, 0.0, 5.0, 0.0, 5.0, "", "", "", "", "")

  /** What the page requires of a form before it sends it. */
  predicate Complete(f: ItemForm) {
    f.barcode != "" && (f.barcodeType == OuterBox ==> f.barcodeOuterBox != "") && f.warehouseId != ""
  }

  /** The checks of `handleSubmit`, in order; the first failure is the error shown. */
  function SubmitError(f: ItemForm): (r: Option<string>)
    ensures r.None? <==> Complete(f)
    ensures f.barcode == "" ==> r == Some(BarcodeRequired)
    ensures f.barcode != "" && f.barcodeType == OuterBox && f.barcodeOuterBox == "" ==> r == Some(OuterBoxRequired)
    ensures f.barcode != "" && (f.barcodeType == OuterBox ==> f.barcodeOuterBox != "") && f.warehouseId == "" ==>
      r == Some(WarehouseRequired)
  {
    if f.barcode == "" then Some(BarcodeRequired)
    else if f.barcodeType == OuterBox && f.barcodeOuterBox == "" then Some(OuterBoxRequired)
    else if f.warehouseId == "" then Some(WarehouseRequired)
    else None
  }

  /** The blank form fails on its barcode first, even though its warehouse is also missing. */
  lemma DefaultFormNeedsBarcode()
    ensures SubmitError(DefaultForm) == Some(BarcodeRequired)
    ensures DefaultForm.warehouseId == ""
  {
  }

  /** `handleBarcodeTypeChange`: single clears the outer-box barcode, outer box keeps it. */
  function BarcodeTypeChanged(f: ItemForm, t: BarcodeType): (r: ItemForm)
    ensures r.barcodeType == t
    ensures t == Single ==> r.barcodeOuterBox == ""
    ensures t == OuterBox ==> r.barcodeOuterBox == f.barcodeOuterBox
    ensures r.(barcodeType := f.barcodeType, barcodeOuterBox := f.barcodeOuterBox) == f
  {
    f.(barcodeType := t, barcodeOuterBox := if t == OuterBox then f.barcodeOuterBox else "")
  }

  /** After switching to single, the outer-box check can no longer fail. */
  lemma SingleNeverNeedsOuterBox(f: ItemForm)
    ensures SubmitError(BarcodeTypeChanged(f, Single)) != Some(OuterBoxRequired)
  {
  }

  /** Switching to outer box and back to single clears the outer-box barcode, whatever it held. */
  lemma OuterBoxThenSingle(f: ItemForm)
    ensures BarcodeTypeChanged(BarcodeTypeChanged(f, OuterBox), Single) == BarcodeTypeChanged(f, Single)
  {
  }

  /** `i` is the first position of a warehouse with this id. */
  predicate FirstWithId(ws: seq<Warehouse>, id: string, i: int) {
    0 <= i < |ws| && ws[i].id == id && forall j :: 0 <= j < i ==> ws[j].id != id
  }

  /** `warehouses.find(w => w._id === value)`. */
  function FindWarehouse(ws: seq<Warehouse>, id: string): (r: Option<Warehouse>)
    ensures r.None? <==> forall i :: 0 <= i < |ws| ==> ws[i].id != id
    ensures r.Some? ==> exists i :: FirstWithId(ws, id, i) && ws[i] == r.value
  {
    if ws == [] then None
    else if ws[0].id == id then (assert FirstWithId(ws, id, 0); Some(ws[0]))
    else
      var rest := FindWarehouse(ws[1..], id);
      if rest.None? then rest
      else
        var i :| FirstWithId(ws[1..], id, i) && ws[1..][i] == rest.value;
        assert FirstWithId(ws, id, i + 1) by {
          forall j | 0 <= j < i + 1
            ensures ws[j].id != id
          {
            if j > 0 { assert ws[j] == ws[1..][j - 1]; }
          }
        }
        rest
  }

  /** The warehouse branch of `handleSelectChange`: the id, and the chosen warehouse's name and code, or "". */
  function WarehouseSelected(f: ItemForm, ws: seq<Warehouse>, value: string): (r: ItemForm)
    ensures r.warehouseId == value
    ensures FindWarehouse(ws, value).Some? ==>
      r.warehouseName == FindWarehouse(ws, value).value.name && r.location == FindWarehouse(ws, value).value.code
    ensures FindWarehouse(ws, value).None? ==> r.warehouseName == "" && r.location == ""
    ensures r.(warehouseId := f.warehouseId, warehouseName := f.warehouseName, location := f.location) == f
  {
    match FindWarehouse(ws, value)
    case Some(w) => f.(warehouseId := value, warehouseName := w.name, location := w.code)
    case None => f.(warehouseId := value, warehouseName := "", location := "")
  }

  /** Choosing a listed warehouse copies that warehouse's own name and code. */
  lemma SelectedWarehouseIsListed(f: ItemForm, ws: seq<Warehouse>, i: nat)
    requires i < |ws|
    requires forall j :: 0 <= j < |ws| && ws[j].id == ws[i].id ==> j == i
    ensures WarehouseSelected(f, ws, ws[i].id).warehouseName == ws[i].name
    ensures WarehouseSelected(f, ws, ws[i].id).location == ws[i].code
  {
  }

  /** The other selects (category, unit of measure): `{ ...prev, [name]: value }`. */
  function SetSelectField(f: ItemForm, name: string, value: string): (r: ItemForm)
    ensures name == "category" ==> r == f.(category := value)
    ensures name == "unitOfMeasure" ==> r == f.(unitOfMeasure := value)
    ensures name != "category" && name != "unitOfMeasure" ==> r == f
  {
    if name == "category" then f.(category := value)
    else if name == "unitOfMeasure" then f.(unitOfMeasure := value)
    else f
  }

  /** Choosing twice in the same select leaves only the second choice. */
  lemma SelectLastChoiceWins(f: ItemForm, name: string, first: string, second: string)
    ensures SetSelectField(SetSelectField(f, name, first), name, second) == SetSelectField(f, name, second)
  {
  }

  /** The search: name, SKU and warehouse name ignore case; the barcodes do not. */
  predicate MatchesSearch(item: InventoryItem, term: string) {
    IncludesIgnoringCase(item.name, term)
    || IncludesIgnoringCase(item.sku, term)
    || Includes(item.barcode, term)
    || (item.barcodeOuterBox.Some? && item.barcodeOuterBox.value != "" && Includes(item.barcodeOuterBox.value, term))
    || IncludesIgnoringCase(item.warehouseName, term)
  }

  function SearchFor(term: string): InventoryItem -> bool {
    (item: InventoryItem) => MatchesSearch(item, term)
  }

  /** `filteredInventory`: the matching items, in their original order. */
  function FilteredInventory(items: seq<InventoryItem>, term: string): (r: seq<InventoryItem>)
    ensures Lists.IsSubsequence(r, items)
    ensures forall i :: 0 <= i < |r| ==> MatchesSearch(r[i], term)
    ensures forall i :: 0 <= i < |items| && MatchesSearch(items[i], term) ==> items[i] in r
  {
    Lists.FilterIsSubsequence(items, SearchFor(term));
    Lists.Filter(items, SearchFor(term))
  }

  /** An empty search shows every item. */
  lemma EmptySearchShowsAll(items: seq<InventoryItem>)
    ensures FilteredInventory(items, "") == items
  {
    forall i | 0 <= i < |items|
      ensures MatchesSearch(items[i], "")
    {
      IncludesEmpty(items[i].name);
    }
    Lists.FilterKeepsAll(items, SearchFor(""));
  }

  /** Searching for an item's own barcode finds it. */
  lemma BarcodeFindsItem(items: seq<InventoryItem>, i: nat)
    requires i < |items|
    ensures items[i] in FilteredInventory(items, items[i].barcode)
  {
    IncludesSelf(items[i].barcode);
  }

  /** The stock row is flagged when stock is at or below the minimum. */
  predicate IsLowStock(item: InventoryItem) {
    item.currentStock <= item.minStockLevel
  }

  /** Raising the stock above the minimum clears the flag; lowering it to the minimum sets it. */
  lemma LowStockThreshold(item: InventoryItem, stock: real)
    ensures IsLowStock(item.(currentStock := stock)) <==> stock <= item.minStockLevel
    ensures IsLowStock(item.(currentStock := item.minStockLevel))
  {
  }

  function ItemId(item: InventoryItem): string {
    item.id
  }

  /** `handleEdit`: the form takes the item's fields, absent optional texts as "". */
  function FormOf(item: InventoryItem): (r: ItemForm)
    ensures r.sku == item.sku && r.name == item.name && r.description == item.description
    ensures r.category == item.category && r.unitOfMeasure == item.unitOfMeasure
    ensures r.costPrice == item.costPrice && r.sellingPrice == item.sellingPrice && r.taxRate == item.taxRate
    ensures r.barcode == item.barcode && r.barcodeType == item.barcodeType
    ensures r.barcodeOuterBox == item.barcodeOuterBox.GetOr("")
    ensures r.supplierId == item.supplierId.GetOr("") && r.supplierName == item.supplierName.GetOr("")
    ensures r.warehouseId == item.warehouseId && r.warehouseName == item.warehouseName && r.location == item.location
    ensures r.currentStock == item.currentStock && r.minStockLevel == item.minStockLevel
  {
    ItemForm(
      item.sku, item.name, item.description, item.category, item.barcode, item.barcodeType,
      item.barcodeOuterBox.GetOr(""), item.unitOfMeasure, item.costPrice, item.sellingPrice, item.taxRate,
      item.currentStock, item.minStockLevel, item.supplierId.GetOr(""), item.supplierName.GetOr(""),
      item.warehouseId, item.warehouseName, item.location)
  }

  /** An item saved from a complete form passes the submit checks again when edited. */
  lemma EditedItemPassesChecks(item: InventoryItem)
    requires item.barcode != "" && item.warehouseId != ""
    requires item.barcodeType == OuterBox ==> item.barcodeOuterBox.Some? && item.barcodeOuterBox.value != ""
    ensures SubmitError(FormOf(item)) == None
  {
  }

  datatype Verb = Post | Put

  datatype Request = Request(verb: Verb, url: string, body: ItemForm)

  /** The request a complete form is sent as. */
  function RequestFor(f: ItemForm, editing: Option<InventoryItem>): (r: Request)
    ensures r.body == f
    ensures editing.Some? ==> r.verb == Put && r.url == InventoryUrl + "/" + editing.value.id
    ensures editing.None? ==> r.verb == Post && r.url == InventoryUrl
  {
    if editing.Some? then Request(Put, InventoryUrl + "/" + editing.value.id, f)
    else Request(Post, InventoryUrl, f)
  }

  /** The page's state hooks. */
  class InventoryPage {
    var inventory: seq<InventoryItem>
    var warehouses: seq<Warehouse>
    var searchTerm: string
    var formData: ItemForm
    var editingItem: Option<InventoryItem>
    var error: string
    var isModalOpen: bool
    var scanMode: bool

    constructor ()
      ensures inventory == [] && warehouses == [] && searchTerm == "" && formData == DefaultForm
      ensures editingItem == None && error == "" && !isModalOpen && !scanMode
    {
      inventory := [];
      warehouses := [];
      searchTerm := "";
      formData := DefaultForm;
      editingItem := None;
      error := "";
      isModalOpen := false;
      scanMode := false;
    }

    /** The items the table shows. */
    function Visible(): seq<InventoryItem>
      reads this
    {
      FilteredInventory(inventory, searchTerm)
    }

    /** `handleSelectChange`. */
    method HandleSelectChange(name: string, value: string)
      modifies this
      ensures name == "warehouseId" ==> formData == WarehouseSelected(old(formData), warehouses, value)
      ensures name != "warehouseId" ==> formData == SetSelectField(old(formData), name, value)
      ensures inventory == old(inventory) && warehouses == old(warehouses) && editingItem == old(editingItem)
      ensures error == old(error) && searchTerm == old(searchTerm)
      ensures isModalOpen == old(isModalOpen) && scanMode == old(scanMode)
    {
      if name == "warehouseId" {
        formData := WarehouseSelected(formData, warehouses, value);
      } else {
        formData := SetSelectField(formData, name, value);
      }
    }

    /** `handleBarcodeTypeChange`. */
    method HandleBarcodeTypeChange(t: BarcodeType)
      modifies this
      ensures formData == BarcodeTypeChanged(old(formData), t)
      ensures inventory == old(inventory) && warehouses == old(warehouses) && editingItem == old(editingItem)
      ensures error == old(error) && searchTerm == old(searchTerm)
      ensures isModalOpen == old(isModalOpen) && scanMode == old(scanMode)
    {
      formData := BarcodeTypeChanged(formData, t);
    }

    /** `handleSubmit` up to the request: each check in turn, the first failure sets the error. */
    method Submit() returns (request: Option<Request>)
      modifies this
      ensures SubmitError(old(formData)).Some? ==> request == None && error == SubmitError(old(formData)).value
      ensures SubmitError(old(formData)).None? ==>
        request == Some(RequestFor(old(formData), old(editingItem))) && error == old(error)
      ensures request.Some? ==> Complete(request.value.body)
      ensures inventory == old(inventory) && warehouses == old(warehouses) && formData == old(formData)
      ensures editingItem == old(editingItem) && searchTerm == old(searchTerm)
      ensures isModalOpen == old(isModalOpen) && scanMode == old(scanMode)
    {
      if formData.barcode == "" {
        error := BarcodeRequired;
        return None;
      }
      if formData.barcodeType == OuterBox && formData.barcodeOuterBox == "" {
        error := OuterBoxRequired;
        return None;
      }
      if formData.warehouseId == "" {
        error := WarehouseRequired;
        return None;
      }
      request := Some(RequestFor(formData, editingItem));
    }

    /** A successful save: an edit replaces the items with the saved id, a create appends; then the form resets. */
    method SaveSucceeded(saved: InventoryItem)
      modifies this
      ensures old(editingItem).Some? ==> inventory == Lists.ReplaceById(old(inventory), ItemId, saved)
      ensures old(editingItem).None? ==> inventory == old(inventory) + [saved]
      ensures formData == DefaultForm && editingItem == None && !isModalOpen && error == "" && !scanMode
      ensures warehouses == old(warehouses) && searchTerm == old(searchTerm)
    {
      if editingItem.Some? {
        inventory := Lists.ReplaceById(inventory, ItemId, saved);
      } else {
        inventory := inventory + [saved];
      }
      ResetForm();
    }

    /** A successful delete: every item with that id leaves the list, the rest keep their order. */
    method DeleteSucceeded(id: string)
      modifies this
      ensures inventory == Lists.DeleteById(old(inventory), ItemId, id)
      ensures warehouses == old(warehouses) && formData == old(formData) && editingItem == old(editingItem)
      ensures error == old(error) && searchTerm == old(searchTerm)
      ensures isModalOpen == old(isModalOpen) && scanMode == old(scanMode)
    {
      inventory := Lists.DeleteById(inventory, ItemId, id);
    }

    /** `resetForm`. */
    method ResetForm()
      modifies this
      ensures formData == DefaultForm && editingItem == None && !isModalOpen && error == "" && !scanMode
      ensures inventory == old(inventory) && warehouses == old(warehouses) && searchTerm == old(searchTerm)
    {
      formData := DefaultForm;
      editingItem := None;
      isModalOpen := false;
      error := "";
      scanMode := false;
    }

    /** `handleEdit(item)`. */
    method HandleEdit(item: InventoryItem)
      modifies this
      ensures editingItem == Some(item) && formData == FormOf(item) && isModalOpen
      ensures inventory == old(inventory) && warehouses == old(warehouses) && error == old(error)
      ensures searchTerm == old(searchTerm) && scanMode == old(scanMode)
    {
      editingItem := Some(item);
      formData := FormOf(item);
      isModalOpen := true;
    }
  }

  /** A created item, once saved, is the one entry removed by deleting its id from a list that lacked it. */
  lemma CreateThenDelete(items: seq<InventoryItem>, saved: InventoryItem)
    requires forall i :: 0 <= i < |items| ==> items[i].id != saved.id
    ensures Lists.DeleteById(items + [saved], ItemId, saved.id) == items
  {
    Lists.AppendThenDelete(items, ItemId, saved);
    Lists.DeleteAbsentIsIdentity(items, ItemId, saved.id);
  }

  /** Saving an edit and then deleting its id leaves what deleting the id alone leaves. */
  lemma EditThenDelete(items: seq<InventoryItem>, saved: InventoryItem)
    ensures Lists.DeleteById(Lists.ReplaceById(items, ItemId, saved), ItemId, saved.id)
      == Lists.DeleteById(items, ItemId, saved.id)
  {
    Lists.ReplaceKeepsOthers(items, ItemId, saved);
  }
}
