/**
 * The customer management page (client/src/page/customer-management.tsx):
 * the search filter, the customer-type switch in its two handlers, the
 * payment-method list edits, reset and edit of the form, and the submit guard
 * with its choice of verb and URL.
 *
 * The component's state hooks are the fields of `CustomerPage`; network calls
 * are left to the caller, which reports the refetched list after a save.
 */
module CustomerPage {
  import opened Text
  import Lists
  import CustomerSchema
  import CustomerRoutes

  const DefaultNationality: string := "United Arab Emirates"
  const DefaultGender: string := "Male"
  const SelectTypeError: string := "Please select a customer type"
  const CustomersUrl: string := "/api/customers"

  /** A payment method as the page holds it. */
  datatype Payment = Payment(kind: string, details: Option<string>)

  /** A customer as the list endpoint returns it; optional fields may be absent. */
  datatype CustomerRow = CustomerRow(
    id: string,
    customerType: string,
    fullName: string,
    emiratesId: string,
    passportNumber: Option<string>,
    nationality: string,
    dob: string,
    gender: string,
    companyName: Option<string>,
    tradeLicense: Option<string>,
    trnNumber: Option<string>,
    email: string,
    mobile: string,
    alternateMobile: Option<string>,
    address: string,
    emirate: string,
    poBox: Option<string>,
    preferredLanguage: string,
    paymentMethods: seq<Payment>,
    kycVerified: bool,
    createdAt: string,
    lastUpdated: string)

  /** The form: every field present, text fields as strings. */
  datatype CustomerForm = CustomerForm(
    customerType: string,
    fullName: string,
    emiratesId: string,
    passportNumber: string,
    nationality: string,
    dob: string,
    gender: string,
    companyName: string,
    tradeLicense: string,
    trnNumber: string,
    email: string,
    mobile: string,
    alternateMobile: string,
    address: string,
    emirate: string,
    poBox: string,
    preferredLanguage: string,
    paymentMethods: seq<Payment>,
    kycVerified: bool)

  /** The individual-only fields of a form. */
  datatype IndividualPart = IndividualPart(
    fullName: string, emiratesId: string, passportNumber: string,
    nationality: string, dob: string, gender: string)

  /** The corporate-only fields of a form. */
  datatype CorporatePart = CorporatePart(companyName: string, tradeLicense: string, trnNumber: string)

  function Individual(f: CustomerForm): IndividualPart {
    IndividualPart(f.fullName, f.emiratesId, f.passportNumber, f.nationality, f.dob, f.gender)
  }

  function Corporate(f: CustomerForm): CorporatePart {
    CorporatePart(f.companyName, f.tradeLicense, f.trnNumber)
  }

  /** The fields common to both types (everything but the type and the two groups). */
  function Common(f: CustomerForm): CustomerForm {
    f.(customerType := "",
       fullName := "", emiratesId := "", passportNumber := "", nationality := "", dob := "", gender := "",
       companyName := "", tradeLicense := "", trnNumber := "")
  }

  /** A form is determined by its type, its two groups and its common fields. */
  lemma FormDecomposes(f: CustomerForm, g: CustomerForm)
    requires f.customerType == g.customerType && Individual(f) == Individual(g)
    requires Corporate(f) == Corporate(g) && Common(f) == Common(g)
    ensures f == g
  {
  }

  const BlankIndividual: IndividualPart := IndividualPart("", "", "", DefaultNationality, "", DefaultGender)
  const BlankCorporate: CorporatePart := CorporatePart("", "", "")

  /** The individual fields reset to their initial values. */
  function ClearIndividual(f: CustomerForm): (r: CustomerForm)
    ensures Individual(r) == BlankIndividual
    ensures Corporate(r) == Corporate(f) && Common(r) == Common(f) && r.customerType == f.customerType
  {
    f.(fullName := "", emiratesId := "", passportNumber := "", nationality := DefaultNationality,
       dob := "", gender := DefaultGender)
  }

  /** The corporate fields emptied. */
  function ClearCorporate(f: CustomerForm): (r: CustomerForm)
    ensures Corporate(r) == BlankCorporate
    ensures Individual(r) == Individual(f) && Common(r) == Common(f) && r.customerType == f.customerType
  {
    f.(companyName := "", tradeLicense := "", trnNumber := "")
  }

  /** `handleCustomerTypeChange`: Individual clears the corporate group, anything else the individual group. */
  function CustomerTypeChanged(f: CustomerForm, value: string): (r: CustomerForm)
    ensures r.customerType == value && Common(r) == Common(f)
    ensures value == "Individual" ==> Corporate(r) == BlankCorporate && Individual(r) == Individual(f)
    ensures value != "Individual" ==> Individual(r) == BlankIndividual && Corporate(r) == Corporate(f)
  {
    if value == "Individual" then ClearCorporate(f).(customerType := value)
    else ClearIndividual(f).(customerType := value)
  }

  /** The type branch of `handleSelectChange`: Corporate clears the individual group, anything else the corporate group. */
  function SelectedTypeChanged(f: CustomerForm, value: string): (r: CustomerForm)
    ensures r.customerType == value && Common(r) == Common(f)
    ensures value == "Corporate" ==> Individual(r) == BlankIndividual && Corporate(r) == Corporate(f)
    ensures value != "Corporate" ==> Corporate(r) == BlankCorporate && Individual(r) == Individual(f)
  {
    if value == "Corporate" then ClearIndividual(f).(customerType := value)
    else ClearCorporate(f).(customerType := value)
  }

  /** The two handlers agree on the two customer types. */
  lemma TypeHandlersAgree(f: CustomerForm, value: string)
    requires value == "Individual" || value == "Corporate"
    ensures SelectedTypeChanged(f, value) == CustomerTypeChanged(f, value)
  {
    FormDecomposes(SelectedTypeChanged(f, value), CustomerTypeChanged(f, value));
  }

  /** Switching to the same type twice is switching once. */
  lemma TypeChangeIdempotent(f: CustomerForm, value: string)
    ensures CustomerTypeChanged(CustomerTypeChanged(f, value), value) == CustomerTypeChanged(f, value)
    ensures SelectedTypeChanged(SelectedTypeChanged(f, value), value) == SelectedTypeChanged(f, value)
  {
    FormDecomposes(CustomerTypeChanged(CustomerTypeChanged(f, value), value), CustomerTypeChanged(f, value));
    FormDecomposes(SelectedTypeChanged(SelectedTypeChanged(f, value), value), SelectedTypeChanged(f, value));
  }

  /** The select fields other than the type: `{ ...formData, [name]: value }`. */
  function SetSelectField(f: CustomerForm, name: string, value: string): (r: CustomerForm)
    ensures name == "gender" ==> r == f.(gender := value)
    ensures name == "nationality" ==> r == f.(nationality := value)
    ensures name == "emirate" ==> r == f.(emirate := value)
    ensures name == "preferredLanguage" ==> r == f.(preferredLanguage := value)
    ensures name !in {"gender", "nationality", "emirate", "preferredLanguage"} ==> r == f
  {
    if name == "gender" then f.(gender := value)
    else if name == "nationality" then f.(nationality := value)
    else if name == "emirate" then f.(emirate := value)
    else if name == "preferredLanguage" then f.(preferredLanguage := value)
    else f
  }

  /** Choosing twice in the same select leaves only the second choice. */
  lemma SelectLastChoiceWins(f: CustomerForm, name: string, first: string, second: string)
    ensures SetSelectField(SetSelectField(f, name, first), name, second) == SetSelectField(f, name, second)
  {
  }

  /** The search: by name, Emirates ID or mobile for an Individual, by company, licence or TRN otherwise. */
  predicate MatchesSearch(c: CustomerRow, term: string) {
    if c.customerType == "Individual" then
      IncludesIgnoringCase(c.fullName, term) || Includes(c.emiratesId, term) || Includes(c.mobile, term)
    else
      (c.companyName.Some? && IncludesIgnoringCase(c.companyName.value, term))
      || (c.tradeLicense.Some? && Includes(c.tradeLicense.value, term))
      || (c.trnNumber.Some? && Includes(c.trnNumber.value, term))
  }

  function SearchFor(term: string): CustomerRow -> bool {
    (c: CustomerRow) => MatchesSearch(c, term)
  }

  /** `filteredCustomers`: the matching customers, in their original order. */
  function FilteredCustomers(cs: seq<CustomerRow>, term: string): (r: seq<CustomerRow>)
    ensures Lists.IsSubsequence(r, cs)
    ensures forall i :: 0 <= i < |r| ==> MatchesSearch(r[i], term)
    ensures forall i :: 0 <= i < |cs| && MatchesSearch(cs[i], term) ==> cs[i] in r
  {
    Lists.FilterIsSubsequence(cs, SearchFor(term));
    Lists.Filter(cs, SearchFor(term))
  }

  /** An empty search shows every Individual, and every Corporate that has a name, licence or TRN. */
  lemma EmptySearchShowsAll(cs: seq<CustomerRow>)
    requires forall i :: 0 <= i < |cs| ==>
      cs[i].customerType == "Individual" || cs[i].companyName.Some? || cs[i].tradeLicense.Some? || cs[i].trnNumber.Some?
    ensures FilteredCustomers(cs, "") == cs
  {
    forall i | 0 <= i < |cs|
      ensures MatchesSearch(cs[i], "")
    {
      IncludesEmpty(cs[i].fullName);
      if cs[i].companyName.Some? { IncludesEmpty(cs[i].companyName.value); }
      if cs[i].tradeLicense.Some? { IncludesEmpty(cs[i].tradeLicense.value); }
      if cs[i].trnNumber.Some? { IncludesEmpty(cs[i].trnNumber.value); }
    }
    Lists.FilterKeepsAll(cs, SearchFor(""));
  }

  /** Searching within the results changes nothing. */
  lemma FilteredCustomersIdempotent(cs: seq<CustomerRow>, term: string)
    ensures FilteredCustomers(FilteredCustomers(cs, term), term) == FilteredCustomers(cs, term)
  {
    Lists.FilterIdempotent(cs, SearchFor(term));
  }

  const NewPaymentDefault: Payment := Payment("Cash", Some(""))

  /** `addPaymentMethod`: with a type chosen, append the pending method and reset it to Cash. */
  function AddPayment(f: CustomerForm, pending: Payment): (r: (CustomerForm, Payment))
    ensures pending.kind == "" ==> r == (f, pending)
    ensures pending.kind != "" ==>
      r.0 == f.(paymentMethods := f.paymentMethods + [pending]) && r.1 == NewPaymentDefault
  {
    if pending.kind == "" then (f, pending)
    else (f.(paymentMethods := f.paymentMethods + [pending]), NewPaymentDefault)
  }

  /** Adding then removing the last method gives back the list. */
  lemma AddThenRemoveLast(f: CustomerForm, pending: Payment)
    requires pending.kind != ""
    ensures Lists.RemoveIndex(AddPayment(f, pending).0.paymentMethods, |f.paymentMethods|) == f.paymentMethods
  {
    Lists.RemoveIndexIsSlice(AddPayment(f, pending).0.paymentMethods, |f.paymentMethods|);
  }

  /** The form `resetForm` restores. */
  const DefaultForm: CustomerForm := CustomerForm(
    "Individual", "", "", "", DefaultNationality, "", DefaultGender, "", "", "",
    "", "", "", "", "Dubai", "", "English", [], false)

  /** `handleEdit`: every field copied, absent optional fields as "". */
  function FormOf(c: CustomerRow): (r: CustomerForm)
    ensures r.customerType == c.customerType && r.fullName == c.fullName && r.emiratesId == c.emiratesId
    ensures r.nationality == c.nationality && r.dob == c.dob && r.gender == c.gender
    ensures r.email == c.email && r.mobile == c.mobile && r.address == c.address && r.emirate == c.emirate
    ensures r.preferredLanguage == c.preferredLanguage && r.paymentMethods == c.paymentMethods
    ensures r.kycVerified == c.kycVerified
    ensures r.passportNumber == c.passportNumber.GetOr("") && r.companyName == c.companyName.GetOr("")
    ensures r.tradeLicense == c.tradeLicense.GetOr("") && r.trnNumber == c.trnNumber.GetOr("")
    ensures r.alternateMobile == c.alternateMobile.GetOr("") && r.poBox == c.poBox.GetOr("")
  {
    CustomerForm(
      c.customerType, c.fullName, c.emiratesId, c.passportNumber.GetOr(""), c.nationality, c.dob, c.gender,
      c.companyName.GetOr(""), c.tradeLicense.GetOr(""), c.trnNumber.GetOr(""),
      c.email, c.mobile, c.alternateMobile.GetOr(""), c.address, c.emirate, c.poBox.GetOr(""),
      c.preferredLanguage, c.paymentMethods, c.kycVerified)
  }

  /**
   * A stored row that echoes a submitted form's values, all present. The
   * server's row differs in `dob` and in each payment method's generated id.
   */
  function RowOf(id: string, f: CustomerForm, createdAt: string, lastUpdated: string): CustomerRow {
    CustomerRow(
      id, f.customerType, f.fullName, f.emiratesId, Some(f.passportNumber), f.nationality, f.dob, f.gender,
      Some(f.companyName), Some(f.tradeLicense), Some(f.trnNumber),
      f.email, f.mobile, Some(f.alternateMobile), f.address, f.emirate, Some(f.poBox),
      f.preferredLanguage, f.paymentMethods, f.kycVerified, createdAt, lastUpdated)
  }

  /** Editing a row that echoes a form shows that same form again. */
  lemma EditRoundTrip(id: string, f: CustomerForm, createdAt: string, lastUpdated: string)
    ensures FormOf(RowOf(id, f, createdAt, lastUpdated)) == f
  {
  }

  /** Every path of a request body carries a value. */
  predicate AllPresent(b: CustomerSchema.CustomerFields) {
    b.customerType.Some? && b.fullName.Some? && b.emiratesId.Some? && b.passportNumber.Some?
    && b.nationality.Some? && b.dob.Some? && b.gender.Some? && b.companyName.Some?
    && b.tradeLicense.Some? && b.trnNumber.Some? && b.email.Some? && b.mobile.Some?
    && b.alternateMobile.Some? && b.address.Some? && b.emirate.Some? && b.poBox.Some?
    && b.preferredLanguage.Some? && b.paymentMethods.Some? && b.kycVerified.Some?
    && forall i :: 0 <= i < |b.paymentMethods.value| ==> b.paymentMethods.value[i].kind.Some?
  }

  /** Reads a body with every path present back into the form's shape. */
  function BodyForm(b: CustomerSchema.CustomerFields): CustomerForm
    requires AllPresent(b)
  {
    var ps := b.paymentMethods.value;
    CustomerForm(
      b.customerType.value, b.fullName.value, b.emiratesId.value, b.passportNumber.value,
      b.nationality.value, b.dob.value, b.gender.value, b.companyName.value, b.tradeLicense.value,
      b.trnNumber.value, b.email.value, b.mobile.value, b.alternateMobile.value, b.address.value,
      b.emirate.value, b.poBox.value, b.preferredLanguage.value,
      seq(|ps|, i requires 0 <= i < |ps| => Payment(ps[i].kind.value, ps[i].details)),
      b.kycVerified.value)
  }

  /** The request body the form is serialised to, as the server's schema sees it: every field, nothing lost. */
  function ToBody(f: CustomerForm): (r: CustomerSchema.CustomerFields)
    ensures r.customerType == Some(f.customerType) && r.fullName == Some(f.fullName)
    ensures r.companyName == Some(f.companyName) && r.trnNumber == Some(f.trnNumber)
    ensures AllPresent(r) && BodyForm(r) == f
  {
    CustomerSchema.CustomerFields(
      Some(f.customerType), Some(f.fullName), Some(f.emiratesId), Some(f.passportNumber),
      Some(f.nationality), Some(f.dob), Some(f.gender), Some(f.companyName), Some(f.tradeLicense),
      Some(f.trnNumber), Some(f.email), Some(f.mobile), Some(f.alternateMobile), Some(f.address),
      Some(f.emirate), Some(f.poBox), Some(f.preferredLanguage),
      Some(seq(|f.paymentMethods|, i requires 0 <= i < |f.paymentMethods| =>
        CustomerSchema.PaymentMethod(Some(f.paymentMethods[i].kind), f.paymentMethods[i].details))),
      Some(f.kycVerified))
  }

  /** Two forms that serialise to the same body are the same form. */
  lemma ToBodyInjective(f: CustomerForm, g: CustomerForm)
    requires ToBody(f) == ToBody(g)
    ensures f == g
  {
    assert BodyForm(ToBody(f)) == f;
  }

  /**
   * An Individual submitted from the form always carries an empty TRN, which
   * the TRN validator as written refuses.
   */
  lemma IndividualFormRefusedAsWritten(f: CustomerForm)
    ensures var body := CustomerSchema.WithDefaults(ToBody(CustomerTypeChanged(f, "Individual")));
      CustomerSchema.BadFormat(CustomerSchema.TrnNumber) in CustomerSchema.DocumentViolationsAsWritten(body)
  {
    var body := CustomerSchema.WithDefaults(ToBody(CustomerTypeChanged(f, "Individual")));
    CustomerSchema.TrnAsWrittenRejectsEmpty(body);
  }

  /**
   * Editing an Individual from the form sends an empty TRN too, so the update
   * validators as written refuse every such edit, while the corrected ones do not
   * object to the TRN.
   */
  lemma IndividualEditRefusedAsWritten(f: CustomerForm)
    ensures var body := ToBody(CustomerTypeChanged(f, "Individual"));
      CustomerSchema.BadFormat(CustomerSchema.TrnNumber) in CustomerSchema.UpdateViolationsAsWritten(body)
      && CustomerSchema.BadFormat(CustomerSchema.TrnNumber) !in CustomerSchema.UpdateViolations(body)
  {
    CustomerSchema.TrnAsWrittenRejectsEmptyUpdate(ToBody(CustomerTypeChanged(f, "Individual")));
  }

  /**
   * A Corporate submitted from the form always carries an empty `fullName`, so
   * the recent-customer name as written is empty for it once it is accepted.
   */
  lemma CorporateFormNamedEmptyAsWritten(f: CustomerForm)
    requires CustomerSchema.DocumentViolations(CustomerSchema.WithDefaults(ToBody(CustomerTypeChanged(f, "Corporate")))) == []
    ensures var body := CustomerSchema.WithDefaults(ToBody(CustomerTypeChanged(f, "Corporate")));
      CustomerRoutes.DisplayNameAsWritten(body) == Some("")
      && CustomerRoutes.DisplayName(body) == Some(f.companyName) && f.companyName != ""
  {
    var body := CustomerSchema.WithDefaults(ToBody(CustomerTypeChanged(f, "Corporate")));
    CustomerRoutes.DisplayNameAsWrittenEmptyForFormCorporate(body);
  }

  datatype Verb = Post | Put

  /** The request a submit sends. */
  datatype Request = Request(verb: Verb, url: string, body: CustomerForm)

  /** The submit guard and the choice of verb and URL. */
  function SubmitRequest(f: CustomerForm, editing: Option<CustomerRow>): (r: Result)
    ensures f.customerType == "" <==> r.Refused?
    ensures r.Refused? ==> r.message == SelectTypeError
    ensures r.Send? ==> r.request.body == f
    ensures r.Send? && editing.Some? ==> r.request.verb == Put && r.request.url == CustomersUrl + "/" + editing.value.id
    ensures r.Send? && editing.None? ==> r.request.verb == Post && r.request.url == CustomersUrl
  {
    if f.customerType == "" then Refused(SelectTypeError)
    else if editing.Some? then Send(Request(Put, CustomersUrl + "/" + editing.value.id, f))
    else Send(Request(Post, CustomersUrl, f))
  }

  datatype Result = Refused(message: string) | Send(request: Request)

  /** The page's state hooks. */
  class CustomerPage {
    var customers: seq<CustomerRow>
    var searchTerm: string
    var formData: CustomerForm
    var newPaymentMethod: Payment
    var editingCustomer: Option<CustomerRow>
    var error: string
    var isModalOpen: bool

    constructor ()
      ensures customers == [] && searchTerm == "" && formData == DefaultForm
      ensures newPaymentMethod == NewPaymentDefault && editingCustomer == None
      ensures error == "" && !isModalOpen
    {
      customers := [];
      searchTerm := "";
      formData := DefaultForm;
      newPaymentMethod := NewPaymentDefault;
      editingCustomer := None;
      error := "";
      isModalOpen := false;
    }

    /** The customers the table shows. */
    function Visible(): seq<CustomerRow>
      reads this
    {
      FilteredCustomers(customers, searchTerm)
    }

    /** `handleSelectChange`: for the type, copy the form and clear one group field by field. */
    method HandleSelectChange(name: string, value: string)
      modifies this
      ensures name == "customerType" ==> formData == SelectedTypeChanged(old(formData), value)
      ensures name != "customerType" ==> formData == SetSelectField(old(formData), name, value)
      ensures customers == old(customers) && editingCustomer == old(editingCustomer)
      ensures newPaymentMethod == old(newPaymentMethod) && error == old(error)
      ensures searchTerm == old(searchTerm) && isModalOpen == old(isModalOpen)
    {
      if name == "customerType" {
        var cleared := formData;
        if value == "Corporate" {
          cleared := cleared.(fullName := "");
          cleared := cleared.(emiratesId := "");
          cleared := cleared.(passportNumber := "");
          cleared := cleared.(nationality := DefaultNationality);
          cleared := cleared.(dob := "");
          cleared := cleared.(gender := DefaultGender);
        } else {
          cleared := cleared.(companyName := "");
          cleared := cleared.(tradeLicense := "");
          cleared := cleared.(trnNumber := "");
        }
        formData := cleared.(customerType := value);
      } else {
        formData := SetSelectField(formData, name, value);
      }
    }

    /** `handleCustomerTypeChange`. */
    method HandleCustomerTypeChange(value: string)
      modifies this
      ensures formData == CustomerTypeChanged(old(formData), value)
      ensures customers == old(customers) && editingCustomer == old(editingCustomer)
      ensures newPaymentMethod == old(newPaymentMethod) && error == old(error)
      ensures searchTerm == old(searchTerm) && isModalOpen == old(isModalOpen)
    {
      formData := CustomerTypeChanged(formData, value);
    }

    /** `addPaymentMethod`. */
    method AddPaymentMethod()
      modifies this
      ensures (formData, newPaymentMethod) == AddPayment(old(formData), old(newPaymentMethod))
      ensures customers == old(customers) && editingCustomer == old(editingCustomer) && error == old(error)
      ensures searchTerm == old(searchTerm) && isModalOpen == old(isModalOpen)
    {
      if newPaymentMethod.kind == "" {
        return;
      }
      formData := formData.(paymentMethods := formData.paymentMethods + [newPaymentMethod]);
      newPaymentMethod := NewPaymentDefault;
    }

    /** `removePaymentMethod(index)`. */
    method RemovePaymentMethod(index: int)
      modifies this
      ensures formData == old(formData).(paymentMethods := Lists.RemoveIndex(old(formData).paymentMethods, index))
      ensures customers == old(customers) && editingCustomer == old(editingCustomer) && error == old(error)
      ensures newPaymentMethod == old(newPaymentMethod)
      ensures searchTerm == old(searchTerm) && isModalOpen == old(isModalOpen)
    {
      formData := formData.(paymentMethods := Lists.RemoveIndex(formData.paymentMethods, index));
    }

    /** `resetForm`. */
    method ResetForm()
      modifies this
      ensures formData == DefaultForm && editingCustomer == None && !isModalOpen && error == ""
      ensures customers == old(customers) && newPaymentMethod == old(newPaymentMethod)
      ensures searchTerm == old(searchTerm)
    {
      formData := DefaultForm;
      editingCustomer := None;
      isModalOpen := false;
      error := "";
    }

    /** `handleEdit(customer)`. */
    method HandleEdit(c: CustomerRow)
      modifies this
      ensures editingCustomer == Some(c) && formData == FormOf(c) && isModalOpen
      ensures customers == old(customers) && newPaymentMethod == old(newPaymentMethod) && error == old(error)
      ensures searchTerm == old(searchTerm)
    {
      editingCustomer := Some(c);
      formData := FormOf(c);
      isModalOpen := true;
    }

    /** `handleSubmit` up to the request: the guard sets the error and sends nothing. */
    method Submit() returns (request: Option<Request>)
      modifies this
      ensures SubmitRequest(old(formData), old(editingCustomer)).Refused? ==>
        request == None && error == SelectTypeError
      ensures SubmitRequest(old(formData), old(editingCustomer)).Send? ==>
        request == Some(SubmitRequest(old(formData), old(editingCustomer)).request) && error == ""
      ensures customers == old(customers) && formData == old(formData) && editingCustomer == old(editingCustomer)
      ensures newPaymentMethod == old(newPaymentMethod) && searchTerm == old(searchTerm)
      ensures isModalOpen == old(isModalOpen)
    {
      match SubmitRequest(formData, editingCustomer)
      case Refused(message) =>
        error := message;
        request := None;
      case Send(r) =>
        error := "";
        request := Some(r);
    }

    /** After a successful save: the list is refetched and the form reset. */
    method SaveSucceeded(fetched: seq<CustomerRow>)
      modifies this
      ensures customers == fetched
      ensures formData == DefaultForm && editingCustomer == None && !isModalOpen && error == ""
      ensures newPaymentMethod == old(newPaymentMethod) && searchTerm == old(searchTerm)
    {
      customers := fetched;
      ResetForm();
    }
  }
}
