/**
 * The supplier schema (server/models/Supplier.js): ten required, trimmed
 * string fields, a lower-cased and pattern-checked email, unique trade licence
 * and TRN, and automatic creation/update timestamps.
 *
 * Setters (trim, lowercase) run before validation; validation runs before the
 * unique indexes are consulted. The collection is a sequence and the clock is a
 * parameter.
 */
module SupplierSchema {
  import opened Text

  datatype SupplierFields = SupplierFields(
    name: Option<string>,
    contactPerson: Option<string>,
    email: Option<string>,
    phone: Option<string>,
    address: Option<string>,
    tradeLicense: Option<string>,
    trnNumber: Option<string>,
    jurisdiction: Option<string>,
    establishmentYear: Option<string>,
    bankDetails: Option<string>)

  /** A stored supplier with the timestamps the schema maintains. */
  datatype Supplier = Supplier(id: nat, fields: SupplierFields, createdAt: int, updatedAt: int)

  datatype SupplierPath =
    | Name | ContactPerson | Email | Phone | Address
    | TradeLicense | TrnNumber | Jurisdiction | EstablishmentYear | BankDetails

  /** A failed rule: a missing (or blank) required field, or an email that does not match. */
  datatype SupplierError = Missing(path: SupplierPath) | BadEmail

  /** The message each rule reports. */
  function ErrorMessage(e: SupplierError): string {
    match e
    case Missing(Name) => "Company name is required"
    case Missing(ContactPerson) => "Contact person is required"
    case Missing(Email) => "Email is required"
    case Missing(Phone) => "Phone number is required"
    case Missing(Address) => "Address is required"
    case Missing(TradeLicense) => "Trade license number is required"
    case Missing(TrnNumber) => "TRN number is required"
    case Missing(Jurisdiction) => "Jurisdiction is required"
    case Missing(EstablishmentYear) => "Year of establishment is required"
    case Missing(BankDetails) => "Bank details are required"
    case BadEmail => "Please fill a valid email address"
  }

  /** Each rule has its own message. */
  lemma MessagesDistinct(a: SupplierError, b: SupplierError)
    requires a != b
    ensures ErrorMessage(a) != ErrorMessage(b)
  {
    match a
    case BadEmail => BadEmailMessageDistinct(b.path);
    case Missing(p) =>
      if b.BadEmail? {
        BadEmailMessageDistinct(p);
      } else {
        MissingMessagesDistinct(p, b.path);
      }
  }

  lemma BadEmailMessageDistinct(p: SupplierPath)
    ensures ErrorMessage(BadEmail) != ErrorMessage(Missing(p))
  {
  }

  lemma MissingMessagesDistinct(p: SupplierPath, q: SupplierPath)
    requires p != q
    ensures ErrorMessage(Missing(p)) != ErrorMessage(Missing(q))
  {
  }

  function TrimOpt(v: Option<string>): (r: Option<string>)
    ensures r.None? <==> v.None?
    ensures v.Some? ==> r.value == Trim(v.value)
  {
    if v.Some? then Some(Trim(v.value)) else None
  }

  /** The setters: every field trimmed, the email trimmed and lower-cased. */
  function Normalize(f: SupplierFields): SupplierFields {
    SupplierFields(
      TrimOpt(f.name), TrimOpt(f.contactPerson),
      if f.email.Some? then Some(ToLower(Trim(f.email.value))) else None,
      TrimOpt(f.phone), TrimOpt(f.address), TrimOpt(f.tradeLicense), TrimOpt(f.trnNumber),
      TrimOpt(f.jurisdiction), TrimOpt(f.establishmentYear), TrimOpt(f.bankDetails))
  }

  /** A trimmed value is its own trim. */
  predicate IsTrimmed(v: Option<string>) {
    v.Some? ==> Trim(v.value) == v.value
  }

  lemma TrimOptIdempotent(v: Option<string>)
    ensures TrimOpt(TrimOpt(v)) == TrimOpt(v)
  {
    if v.Some? {
      TrimIdempotent(v.value);
    }
  }

  /** The email setter (trim, then lower-case) applied twice is applied once. */
  lemma EmailSetterIdempotent(e: string)
    ensures ToLower(Trim(ToLower(Trim(e)))) == ToLower(Trim(e))
  {
    LowerTrimCommute(Trim(e));
    TrimIdempotent(e);
    ToLowerIdempotent(Trim(e));
  }

  /** Setting a value twice stores what setting it once stores. */
  lemma NormalizeIdempotent(f: SupplierFields)
    ensures Normalize(Normalize(f)) == Normalize(f)
  {
    if f.email.Some? {
      EmailSetterIdempotent(f.email.value);
    }
    TrimOptIdempotent(f.name);
    TrimOptIdempotent(f.contactPerson);
    TrimOptIdempotent(f.phone);
    TrimOptIdempotent(f.address);
    TrimOptIdempotent(f.tradeLicense);
    TrimOptIdempotent(f.trnNumber);
    TrimOptIdempotent(f.jurisdiction);
    TrimOptIdempotent(f.establishmentYear);
    TrimOptIdempotent(f.bankDetails);
  }

  /** Normalised fields are trimmed and the email has no upper-case letter. */
  lemma NormalizedIsTrimmed(f: SupplierFields)
    ensures var n := Normalize(f);
      IsTrimmed(n.name) && IsTrimmed(n.contactPerson) && IsTrimmed(n.email) && IsTrimmed(n.phone)
      && IsTrimmed(n.address) && IsTrimmed(n.tradeLicense) && IsTrimmed(n.trnNumber)
      && IsTrimmed(n.jurisdiction) && IsTrimmed(n.establishmentYear) && IsTrimmed(n.bankDetails)
    ensures Normalize(f).email.Some? ==> forall i :: 0 <= i < |Normalize(f).email.value| ==> !IsUpper(Normalize(f).email.value[i])
  {
    NormalizeIdempotent(f);
  }

  predicate IsSeparator(c: char) {
    c == '.' || c == '-'
  }

  /** `\w+([\.-]?\w+)*`: word characters, single dots or hyphens between them, a word character at each end. */
  predicate SepWords(s: string) {
    && |s| >= 1 && IsWordChar(s[0]) && IsWordChar(s[|s| - 1])
    && (forall i :: 0 <= i < |s| ==> IsWordChar(s[i]) || IsSeparator(s[i]))
    && (forall i :: 0 <= i < |s| - 1 ==> IsWordChar(s[i]) || IsWordChar(s[i + 1]))
  }

  /** `\w+([\.-]?\w+)*(\.\w{2,3})+`: a dotted name whose last label, after a dot, has two or three word characters. */
  predicate IsEmailDomain(d: string) {
    && SepWords(d)
    && ((|d| >= 4 && d[|d| - 3] == '.' && IsWordChar(d[|d| - 2]))
        || (|d| >= 5 && d[|d| - 4] == '.' && IsWordChar(d[|d| - 3]) && IsWordChar(d[|d| - 2])))
  }

  /** The anchored email pattern: a local part, one `@`, a domain. */
  predicate IsSupplierEmail(e: string) {
    exists at :: 0 <= at < |e| && e[at] == '@' && SepWords(e[..at]) && IsEmailDomain(e[at + 1..])
  }

  /** Any local part, `@`, a dotted host, `.` and a two- or three-character label is accepted. */
  lemma SupplierEmailCompose(local: string, host: string, tld: string)
    requires SepWords(local) && SepWords(host)
    requires 2 <= |tld| <= 3 && forall i :: 0 <= i < |tld| ==> IsWordChar(tld[i])
    ensures IsSupplierEmail(local + "@" + host + "." + tld)
  {
    var e := local + "@" + host + "." + tld;
    var at := |local|;
    DomainCompose(host, tld);
    assert e[..at] == local;
    assert e[at + 1..] == host + "." + tld;
  }

  lemma DomainCompose(host: string, tld: string)
    requires SepWords(host)
    requires 2 <= |tld| <= 3 && forall i :: 0 <= i < |tld| ==> IsWordChar(tld[i])
    ensures IsEmailDomain(host + "." + tld)
  {
    var d := host + "." + tld;
    var h := |host|;
    forall i | 0 <= i < |d|
      ensures d[i] == (if i < h then host[i] else if i == h then '.' else tld[i - h - 1])
    {
    }
    assert forall i :: 0 <= i < |d| ==> IsWordChar(d[i]) || IsSeparator(d[i]);
    forall i | 0 <= i < |d| - 1
      ensures IsWordChar(d[i]) || IsWordChar(d[i + 1])
    {
      if i < h - 1 {
        assert IsWordChar(host[i]) || IsWordChar(host[i + 1]);
      }
    }
  }

  /** Every character of an accepted email other than its `@` is a word character, a dot or a hyphen. */
  lemma {:induction false} EmailCharsAround(e: string, at: nat)
    requires at < |e| && SepWords(e[..at]) && IsEmailDomain(e[at + 1..])
    ensures forall i :: 0 <= i < |e| && i != at ==> IsWordChar(e[i]) || IsSeparator(e[i])
  {
    var l := e[..at];
    var d := e[at + 1..];
    assert forall i :: 0 <= i < at ==> e[i] == l[i];
    assert forall i :: at < i < |e| ==> e[i] == d[i - at - 1];
  }

  /** An accepted email has exactly one `@`. */
  lemma SupplierEmailOneAt(e: string)
    requires IsSupplierEmail(e)
    ensures forall i, j :: 0 <= i < j < |e| && e[i] == '@' ==> e[j] != '@'
  {
    var at :| 0 <= at < |e| && e[at] == '@' && SepWords(e[..at]) && IsEmailDomain(e[at + 1..]);
    EmailCharsAround(e, at);
    forall i | 0 <= i < |e| && i != at
      ensures e[i] != '@'
    {
    }
  }

  /** An accepted email ends in a dot and two or three word characters: a four-letter final label is refused. */
  lemma SupplierEmailShortLastLabel(e: string)
    requires IsSupplierEmail(e)
    ensures (|e| >= 3 && e[|e| - 3] == '.') || (|e| >= 4 && e[|e| - 4] == '.')
    ensures IsWordChar(e[|e| - 1]) && IsWordChar(e[|e| - 2])
  {
    var at :| 0 <= at < |e| && e[at] == '@' && SepWords(e[..at]) && IsEmailDomain(e[at + 1..]);
    var d := e[at + 1..];
    DomainEnding(d);
    EndingOfSuffix(e, d, at + 1);
  }

  /** The last characters of a suffix are the last characters of the whole. */
  lemma EndingOfSuffix(e: string, d: string, start: nat)
    requires start <= |e| && d == e[start..] && |d| >= 4
    requires IsWordChar(d[|d| - 1]) && IsWordChar(d[|d| - 2])
    requires d[|d| - 3] == '.' || (|d| >= 5 && d[|d| - 4] == '.')
    ensures (|e| >= 3 && e[|e| - 3] == '.') || (|e| >= 4 && e[|e| - 4] == '.')
    ensures IsWordChar(e[|e| - 1]) && IsWordChar(e[|e| - 2])
  {
    var n := |d|;
    assert d[n - 1] == e[|e| - 1] && d[n - 2] == e[|e| - 2] && d[n - 3] == e[|e| - 3];
    if d[n - 3] != '.' {
      assert d[n - 4] == e[|e| - 4];
    }
  }

  lemma DomainEnding(d: string)
    requires IsEmailDomain(d)
    ensures |d| >= 4 && IsWordChar(d[|d| - 1]) && IsWordChar(d[|d| - 2])
    ensures d[|d| - 3] == '.' || (|d| >= 5 && d[|d| - 4] == '.')
  {
  }

  lemma NotSpace(c: char)
    requires IsWordChar(c) || IsSeparator(c) || c == '@'
    ensures !IsJsSpace(c)
  {
  }

  /** An accepted email holds only word characters, dots, hyphens and one `@`: no white space. */
  lemma SupplierEmailHasNoSpace(e: string)
    requires IsSupplierEmail(e)
    ensures forall i :: 0 <= i < |e| ==> !IsJsSpace(e[i])
  {
    var at :| 0 <= at < |e| && e[at] == '@' && SepWords(e[..at]) && IsEmailDomain(e[at + 1..]);
    EmailCharsAround(e, at);
    forall i | 0 <= i < |e|
      ensures !IsJsSpace(e[i])
    {
      NotSpace(e[i]);
    }
  }

  /** A required string after trimming: present and not blank. */
  predicate Present(v: Option<string>) {
    v.Some? && v.value != ""
  }

  function Require(v: Option<string>, p: SupplierPath): (r: seq<SupplierError>)
    ensures r == [] <==> Present(v)
    ensures r != [] ==> r == [Missing(p)]
  {
    if Present(v) then [] else [Missing(p)]
  }

  /** The errors of normalised fields, in declaration order; the email is matched only when present. */
  function Errors(n: SupplierFields): seq<SupplierError> {
    Require(n.name, Name)
    + Require(n.contactPerson, ContactPerson)
    + (if !Present(n.email) then [Missing(Email)] else if IsSupplierEmail(n.email.value) then [] else [BadEmail])
    + Require(n.phone, Phone)
    + Require(n.address, Address)
    + Require(n.tradeLicense, TradeLicense)
    + Require(n.trnNumber, TrnNumber)
    + Require(n.jurisdiction, Jurisdiction)
    + Require(n.establishmentYear, EstablishmentYear)
    + Require(n.bankDetails, BankDetails)
  }

  /** A non-blank raw value. */
  predicate NotBlank(v: Option<string>) {
    v.Some? && !AllSpace(v.value)
  }

  /** The rules on the raw input: every field non-blank, and the trimmed lower-cased email matches. */
  predicate SupplierValid(f: SupplierFields) {
    && NotBlank(f.name) && NotBlank(f.contactPerson) && NotBlank(f.email) && NotBlank(f.phone)
    && NotBlank(f.address) && NotBlank(f.tradeLicense) && NotBlank(f.trnNumber)
    && NotBlank(f.jurisdiction) && NotBlank(f.establishmentYear) && NotBlank(f.bankDetails)
    && IsSupplierEmail(ToLower(Trim(f.email.value)))
  }

  lemma PresentIffNotBlank(v: Option<string>)
    ensures Present(TrimOpt(v)) <==> NotBlank(v)
  {
    if v.Some? {
      TrimEmptyIffBlank(v.value);
    }
  }

  /** An input is accepted exactly when all ten fields are non-blank and the email matches. */
  lemma ErrorsEmptyIff(f: SupplierFields)
    ensures Errors(Normalize(f)) == [] <==> SupplierValid(f)
  {
    PresentIffNotBlank(f.name);
    PresentIffNotBlank(f.contactPerson);
    PresentIffNotBlank(f.email);
    PresentIffNotBlank(f.phone);
    PresentIffNotBlank(f.address);
    PresentIffNotBlank(f.tradeLicense);
    PresentIffNotBlank(f.trnNumber);
    PresentIffNotBlank(f.jurisdiction);
    PresentIffNotBlank(f.establishmentYear);
    PresentIffNotBlank(f.bankDetails);
  }

  /** A blank or absent company name is reported with its own message. */
  lemma BlankNameReported(f: SupplierFields)
    requires !NotBlank(f.name)
    ensures [Missing(Name)] <= Errors(Normalize(f))
    ensures Errors(Normalize(f))[0] == Missing(Name)
    ensures ErrorMessage(Errors(Normalize(f))[0]) == "Company name is required"
  {
    PresentIffNotBlank(f.name);
  }

  /** The unique indexes: no two stored suppliers share a trade licence or a TRN. */
  predicate UniqueKeys(store: seq<Supplier>) {
    forall i, j :: 0 <= i < j < |store| ==>
      store[i].fields.tradeLicense != store[j].fields.tradeLicense
      && store[i].fields.trnNumber != store[j].fields.trnNumber
  }

  /** Some supplier other than the one at `skip` holds the licence or the TRN of `n`. */
  predicate KeyTaken(store: seq<Supplier>, n: SupplierFields, skip: int) {
    exists j :: 0 <= j < |store| && j != skip &&
      (store[j].fields.tradeLicense == n.tradeLicense || store[j].fields.trnNumber == n.trnNumber)
  }

  datatype SaveResult =
    | Saved(store: seq<Supplier>, supplier: Supplier)
    | Rejected(errors: seq<SupplierError>)
    | DuplicateKey

  /** Creating a supplier: normalise, validate, check the unique indexes, stamp both times. */
  function Create(store: seq<Supplier>, id: nat, body: SupplierFields, now: int): (r: SaveResult)
    ensures r.Saved? ==> (r.store == store + [r.supplier] && r.supplier == Supplier(id, Normalize(body), now, now))
    ensures r.Saved? <==> Errors(Normalize(body)) == [] && !KeyTaken(store, Normalize(body), -1)
    ensures r.Rejected? <==> Errors(Normalize(body)) != []
    ensures r.Rejected? ==> r.errors == Errors(Normalize(body))
  {
    var n := Normalize(body);
    if Errors(n) != [] then Rejected(Errors(n))
    else if KeyTaken(store, n, -1) then DuplicateKey
    else
      var s := Supplier(id, n, now, now);
      Saved(store + [s], s)
  }

  /** Saving changes to the supplier at position `i`: `createdAt` kept, `updatedAt` stamped. */
  function Update(store: seq<Supplier>, i: nat, body: SupplierFields, now: int): (r: SaveResult)
    requires i < |store|
    ensures r.Saved? ==>
      (r.supplier == Supplier(store[i].id, Normalize(body), store[i].createdAt, now) && r.store == store[i := r.supplier])
    ensures r.Saved? <==> Errors(Normalize(body)) == [] && !KeyTaken(store, Normalize(body), i)
    ensures r.Rejected? <==> Errors(Normalize(body)) != []
    ensures r.Rejected? ==> r.errors == Errors(Normalize(body))
  {
    var n := Normalize(body);
    if Errors(n) != [] then Rejected(Errors(n))
    else if KeyTaken(store, n, i) then DuplicateKey
    else
      var s := Supplier(store[i].id, n, store[i].createdAt, now);
      Saved(store[i := s], s)
  }

  /** A create keeps the indexes unique. */
  lemma CreateKeepsKeysUnique(store: seq<Supplier>, id: nat, body: SupplierFields, now: int)
    requires UniqueKeys(store)
    ensures Create(store, id, body, now).Saved? ==> UniqueKeys(Create(store, id, body, now).store)
  {
    var r := Create(store, id, body, now);
    if r.Saved? {
      AppendKeepsKeysUnique(store, r.supplier);
    }
  }

  lemma AppendKeepsKeysUnique(store: seq<Supplier>, s: Supplier)
    requires UniqueKeys(store) && !KeyTaken(store, s.fields, -1)
    ensures UniqueKeys(store + [s])
  {
  }

  /** A second valid supplier that reuses a stored licence or TRN is refused. */
  lemma CreateRefusesReusedKey(store: seq<Supplier>, id: nat, body: SupplierFields, now: int, j: nat)
    requires j < |store| && Errors(Normalize(body)) == []
    requires store[j].fields.tradeLicense == Normalize(body).tradeLicense
          || store[j].fields.trnNumber == Normalize(body).trnNumber
    ensures Create(store, id, body, now) == DuplicateKey
  {
    assert KeyTaken(store, Normalize(body), -1);
  }

  /** An update keeps the indexes unique. */
  lemma UpdateKeepsKeysUnique(store: seq<Supplier>, i: nat, body: SupplierFields, now: int)
    requires i < |store| && UniqueKeys(store)
    ensures Update(store, i, body, now).Saved? ==> UniqueKeys(Update(store, i, body, now).store)
  {
    var r := Update(store, i, body, now);
    if r.Saved? {
      ReplaceKeepsKeysUnique(store, i, r.supplier);
    }
  }

  lemma ReplaceKeepsKeysUnique(store: seq<Supplier>, i: nat, s: Supplier)
    requires i < |store| && UniqueKeys(store) && !KeyTaken(store, s.fields, i)
    ensures UniqueKeys(store[i := s])
  {
  }

  /** Every supplier a create or update stores satisfies the schema and is a fixed point of the setters. */
  lemma SavedIsValidAndNormal(store: seq<Supplier>, i: nat, id: nat, body: SupplierFields, now: int)
    ensures Create(store, id, body, now).Saved? ==>
      SupplierValid(body) && Normalize(Create(store, id, body, now).supplier.fields) == Create(store, id, body, now).supplier.fields
    ensures i < |store| && Update(store, i, body, now).Saved? ==>
      SupplierValid(body) && Normalize(Update(store, i, body, now).supplier.fields) == Update(store, i, body, now).supplier.fields
  {
    ErrorsEmptyIff(body);
    NormalizeIdempotent(body);
    var c := Create(store, id, body, now);
    if c.Saved? {
      assert c.supplier.fields == Normalize(body);
    }
    if i < |store| {
      var u := Update(store, i, body, now);
      if u.Saved? {
        assert u.supplier.fields == Normalize(body);
      }
    }
  }
}
