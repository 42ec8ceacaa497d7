/**
 * The supplier management page (client/src/page/supplier-managment.tsx):
 * the search filter, the local list updates after a save or a delete, the
 * form's reset and edit, and the choice of verb and URL on submit.
 */
module SupplierPage {
  import opened Text
  import Lists
  import SupplierSchema

  const SuppliersUrl: string := "/api/suppliers"

  /** The ten text fields of a supplier, as the page holds them. */
  datatype SupplierForm = SupplierForm(
    name: string,
    contactPerson: string,
    email: string,
    phone: string,
    address: string,
    tradeLicense: string,
    trnNumber: string,
    jurisdiction: string,
    establishmentYear: string,
    bankDetails: string)

  /** A supplier as the list endpoint returns it: an id and the ten fields. */
  datatype SupplierRow = SupplierRow(id: string, form: SupplierForm)

  /** The form `resetForm` restores. */
  const BlankForm: SupplierForm := SupplierForm("", "", "", "", "", "", "", "", "", "")

  /** The search: name, contact person or email, ignoring case. */
  predicate MatchesSearch(s: SupplierRow, term: string) {
    IncludesIgnoringCase(s.form.name, term)
    || IncludesIgnoringCase(s.form.contactPerson, term)
    || IncludesIgnoringCase(s.form.email, term)
  }

  function SearchFor(term: string): SupplierRow -> bool {
    (s: SupplierRow) => MatchesSearch(s, term)
  }

  /** `filteredSuppliers`: the matching suppliers, in their original order. */
  function FilteredSuppliers(ss: seq<SupplierRow>, term: string): (r: seq<SupplierRow>)
    ensures Lists.IsSubsequence(r, ss)
    ensures forall i :: 0 <= i < |r| ==> MatchesSearch(r[i], term)
    ensures forall i :: 0 <= i < |ss| && MatchesSearch(ss[i], term) ==> ss[i] in r
  {
    Lists.FilterIsSubsequence(ss, SearchFor(term));
    Lists.Filter(ss, SearchFor(term))
  }

  /** An empty search shows every supplier. */
  lemma EmptySearchShowsAll(ss: seq<SupplierRow>)
    ensures FilteredSuppliers(ss, "") == ss
  {
    forall i | 0 <= i < |ss|
      ensures MatchesSearch(ss[i], "")
    {
      IncludesEmpty(ss[i].form.name);
    }
    Lists.FilterKeepsAll(ss, SearchFor(""));
  }

  /** Searching for a supplier's email finds it. */
  lemma EmailFindsSupplier(ss: seq<SupplierRow>, i: nat)
    requires i < |ss|
    ensures ss[i] in FilteredSuppliers(ss, ss[i].form.email)
  {
    IncludesSelf(ss[i].form.email);
  }

  /** Every field of a request body carries a value. */
  predicate AllPresent(b: SupplierSchema.SupplierFields) {
    b.name.Some? && b.contactPerson.Some? && b.email.Some? && b.phone.Some? && b.address.Some?
    && b.tradeLicense.Some? && b.trnNumber.Some? && b.jurisdiction.Some?
    && b.establishmentYear.Some? && b.bankDetails.Some?
  }

  /** Reads a body with every field present back into the form's shape. */
  function BodyForm(b: SupplierSchema.SupplierFields): SupplierForm
    requires AllPresent(b)
  {
    SupplierForm(
      b.name.value, b.contactPerson.value, b.email.value, b.phone.value, b.address.value,
      b.tradeLicense.value, b.trnNumber.value, b.jurisdiction.value, b.establishmentYear.value,
      b.bankDetails.value)
  }

  /** The request body as the supplier schema sees it: all ten fields present, nothing lost. */
  function BodyOf(f: SupplierForm): (r: SupplierSchema.SupplierFields)
    ensures r.name == Some(f.name) && r.email == Some(f.email)
    ensures r.tradeLicense == Some(f.tradeLicense) && r.trnNumber == Some(f.trnNumber)
    ensures AllPresent(r) && BodyForm(r) == f
  {
    SupplierSchema.SupplierFields(
      Some(f.name), Some(f.contactPerson), Some(f.email), Some(f.phone), Some(f.address),
      Some(f.tradeLicense), Some(f.trnNumber), Some(f.jurisdiction), Some(f.establishmentYear),
      Some(f.bankDetails))
  }

  /** Two forms that give the same body are the same form. */
  lemma BodyOfInjective(f: SupplierForm, g: SupplierForm)
    requires BodyOf(f) == BodyOf(g)
    ensures f == g
  {
    assert BodyForm(BodyOf(f)) == f;
  }

  /** A form sent with no company name, the reset form among them, is refused first for that name. */
  lemma BlankFormRefused(f: SupplierForm)
    requires f.name == ""
    ensures [SupplierSchema.Missing(SupplierSchema.Name)] <= SupplierSchema.Errors(SupplierSchema.Normalize(BodyOf(f)))
  {
    SupplierSchema.BlankNameReported(BodyOf(f));
  }

  /** `handleEdit`: the form becomes the supplier without its id. */
  function FormOf(s: SupplierRow): (r: SupplierForm)
    ensures SupplierRow(s.id, r) == s
  {
    s.form
  }

  function SupplierId(s: SupplierRow): string {
    s.id
  }

  datatype Verb = Post | Put

  datatype Request = Request(verb: Verb, url: string, body: SupplierForm)

  /** The request a submit sends: PUT to the edited supplier, else POST. */
  function RequestFor(f: SupplierForm, editing: Option<SupplierRow>): (r: Request)
    ensures r.body == f
    ensures editing.Some? ==> r.verb == Put && r.url == SuppliersUrl + "/" + editing.value.id
    ensures editing.None? ==> r.verb == Post && r.url == SuppliersUrl
  {
    if editing.Some? then Request(Put, SuppliersUrl + "/" + editing.value.id, f)
    else Request(Post, SuppliersUrl, f)
  }

  /** Editing a supplier and submitting unchanged sends its own fields back to its own URL. */
  lemma UnchangedEditResends(s: SupplierRow)
    ensures RequestFor(FormOf(s), Some(s)) == Request(Put, SuppliersUrl + "/" + s.id, s.form)
  {
  }

  /** The page's state hooks. */
  class SupplierPage {
    var suppliers: seq<SupplierRow>
    var searchTerm: string
    var formData: SupplierForm
    var editingSupplier: Option<SupplierRow>
    var error: string
    var isModalOpen: bool

    constructor ()
      ensures suppliers == [] && searchTerm == "" && formData == BlankForm
      ensures editingSupplier == None && error == "" && !isModalOpen
    {
      suppliers := [];
      searchTerm := "";
      formData := BlankForm;
      editingSupplier := None;
      error := "";
      isModalOpen := false;
    }

    /** The suppliers the table shows. */
    function Visible(): seq<SupplierRow>
      reads this
    {
      FilteredSuppliers(suppliers, searchTerm)
    }

    /** `handleSubmit` up to the request. */
    method Submit() returns (request: Request)
      ensures request == RequestFor(formData, editingSupplier)
    {
      request := RequestFor(formData, editingSupplier);
    }

    /** A successful save: an edit replaces the suppliers with the saved id, a create appends; then the form resets. */
    method SaveSucceeded(saved: SupplierRow)
      modifies this
      ensures old(editingSupplier).Some? ==> suppliers == Lists.ReplaceById(old(suppliers), SupplierId, saved)
      ensures old(editingSupplier).None? ==> suppliers == old(suppliers) + [saved]
      ensures formData == BlankForm && editingSupplier == None && !isModalOpen && error == ""
      ensures searchTerm == old(searchTerm)
    {
      if editingSupplier.Some? {
        suppliers := Lists.ReplaceById(suppliers, SupplierId, saved);
      } else {
        suppliers := suppliers + [saved];
      }
      ResetForm();
    }

    /** A successful delete: exactly the suppliers with that id leave the list, the rest keep their order. */
    method DeleteSucceeded(id: string)
      modifies this
      ensures suppliers == Lists.DeleteById(old(suppliers), SupplierId, id)
      ensures formData == old(formData) && editingSupplier == old(editingSupplier)
      ensures error == old(error) && searchTerm == old(searchTerm) && isModalOpen == old(isModalOpen)
    {
      suppliers := Lists.DeleteById(suppliers, SupplierId, id);
    }

    /** `resetForm`. */
    method ResetForm()
      modifies this
      ensures formData == BlankForm && editingSupplier == None && !isModalOpen && error == ""
      ensures suppliers == old(suppliers) && searchTerm == old(searchTerm)
    {
      formData := BlankForm;
      editingSupplier := None;
      isModalOpen := false;
      error := "";
    }

    /** `handleEdit(supplier)`. */
    method HandleEdit(s: SupplierRow)
      modifies this
      ensures editingSupplier == Some(s) && formData == FormOf(s) && isModalOpen
      ensures suppliers == old(suppliers) && error == old(error) && searchTerm == old(searchTerm)
    {
      editingSupplier := Some(s);
      formData := FormOf(s);
      isModalOpen := true;
    }
  }

  /** Creating a supplier and deleting it again restores a list that did not hold its id. */
  lemma CreateThenDelete(ss: seq<SupplierRow>, saved: SupplierRow)
    requires forall i :: 0 <= i < |ss| ==> ss[i].id != saved.id
    ensures Lists.DeleteById(ss + [saved], SupplierId, saved.id) == ss
  {
    Lists.AppendThenDelete(ss, SupplierId, saved);
    Lists.DeleteAbsentIsIdentity(ss, SupplierId, saved.id);
  }
}
