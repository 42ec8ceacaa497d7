/**
 * The customer schema (server/models/Customer.js): the `customerType`
 * discriminator, the conditional `required` rules, the format validators,
 * enums, defaults and the pre-save hook.
 *
 * A request body or stored document is a record of optional fields
 * (`None` is an absent key). Validation follows the document store's
 * per-path order: the `required` rule first, then the path's enum, `match` or
 * custom validator; only the first failure of a path is reported; value
 * validators never run on an absent value but do run on the empty string.
 */
module CustomerSchema {
  import opened Text

  const CustomerTypes: seq<string> := ["Individual", "Corporate"]
  const Genders: seq<string> := ["Male", "Female", "Other"]
  const Emirates: seq<string> :=
    ["Abu Dhabi", "Dubai", "Sharjah", "Ajman", "Umm Al Quwain", "Ras Al Khaimah", "Fujairah"]
  const Languages: seq<string> := ["English", "Arabic"]
  const PaymentTypes: seq<string> := ["Cash", "Card", "Bank Transfer", "Digital Wallet"]
  const DefaultLanguage: string := "English"

  /** One element of `paymentMethods`: `type` is required and an enum, `details` is free text. */
  datatype PaymentMethod = PaymentMethod(kind: Option<string>, details: Option<string>)

  /** The customer's fields, each possibly absent. */
  datatype CustomerFields = CustomerFields(
    customerType: Option<string>,
    fullName: Option<string>,
    emiratesId: Option<string>,
    passportNumber: Option<string>,
    nationality: Option<string>,
    dob: Option<string>,
    gender: Option<string>,
    companyName: Option<string>,
    tradeLicense: Option<string>,
    trnNumber: Option<string>,
    email: Option<string>,
    mobile: Option<string>,
    alternateMobile: Option<string>,
    address: Option<string>,
    emirate: Option<string>,
    poBox: Option<string>,
    preferredLanguage: Option<string>,
    paymentMethods: Option<seq<PaymentMethod>>,
    kycVerified: Option<bool>)

  /** A stored customer: its generated id, its fields and its two timestamps. */
  datatype Customer = Customer(id: nat, fields: CustomerFields, createdAt: int, lastUpdated: int)

  /** The schema paths that carry a rule, in declaration order. */
  datatype Path =
    | CustomerTypePath | FullName | EmiratesId | Nationality | Dob | Gender
    | CompanyName | TradeLicense | TrnNumber | Email | Mobile | AlternateMobile
    | Address | Emirate | PreferredLanguage | PaymentMethodType(index: nat)

  /** A failed rule: a missing required value, a value outside its enum, or a rejected format. */
  datatype Violation = Required(path: Path) | NotInEnum(path: Path) | BadFormat(path: Path)

  /** The value check a path carries besides `required`. */
  datatype Check =
    | NoCheck
    | OneOf(values: seq<string>)
    | EmiratesIdCheck
    | TrnCheck
    | TrnCheckAsWritten
    | MobileCheck
    | OptionalMobileCheck
    | EmailMatch

  datatype Rule = Rule(required: bool, check: Check)

  /** A present, non-empty string: what `required` demands of a String path, and JavaScript truthiness. */
  predicate Filled(v: Option<string>) {
    v.Some? && v.value != ""
  }

  /** `^784-[0-9]{4}-[0-9]{7}-[0-9]{1}$` */
  predicate IsEmiratesId(v: string) {
    |v| == 18 && v[..4] == "784-" && AllDigits(v[4..8]) && v[8] == '-'
    && AllDigits(v[9..16]) && v[16] == '-' && IsDigit(v[17])
  }

  /** `^[0-9]{15}$` */
  predicate IsTrn(v: string) {
    |v| == 15 && AllDigits(v)
  }

  /** `^\+971[0-9]{9}$` */
  predicate IsUaeMobile(v: string) {
    |v| == 13 && v[..4] == "+971" && AllDigits(v[4..])
  }

  /** The characters the regular-expression dot does not match. */
  predicate IsLineTerminator(c: char) {
    c == '\n' || c == '\r' || c as int == 0x2028 || c as int == 0x2029
  }

  /**
   * `v` has `x@y.z` at `at` and `dot`: one non-terminator before the `@`, a
   * non-empty run of non-terminators between `@` and `.`, one after the `.`.
   */
  predicate EmailAt(v: string, at: int, dot: int) {
    1 <= at && at + 2 <= dot && dot + 2 <= |v|
    && v[at] == '@' && v[dot] == '.'
    && !IsLineTerminator(v[at - 1]) && !IsLineTerminator(v[dot + 1])
    && forall k :: at < k < dot ==> !IsLineTerminator(v[k])
  }

  /** The unanchored pattern `.+\@.+\..+`: some substring of `v` has that shape. */
  predicate MatchesEmailPattern(v: string) {
    exists at, dot :: 0 <= at < |v| && 0 <= dot < |v| && EmailAt(v, at, dot)
  }

  /** The pattern is unanchored: text around a match does not spoil it. */
  lemma EmailPatternUnanchored(prefix: string, v: string, suffix: string)
    requires MatchesEmailPattern(v)
    ensures MatchesEmailPattern(prefix + v + suffix)
  {
    var at, dot :| 0 <= at < |v| && 0 <= dot < |v| && EmailAt(v, at, dot);
    var w := prefix + v + suffix;
    var n := |prefix|;
    assert w[n + at] == v[at] && w[n + dot] == v[dot];
    assert w[n + at - 1] == v[at - 1] && w[n + dot + 1] == v[dot + 1];
    forall k | n + at < k < n + dot
      ensures !IsLineTerminator(w[k])
    {
      assert w[k] == v[k - n];
    }
    assert EmailAt(w, n + at, n + dot);
  }

  lemma EmailPatternExamples()
    ensures MatchesEmailPattern("ahmed@example.com")
    ensures !MatchesEmailPattern("ahmed@example")
    ensures !MatchesEmailPattern("@example.com")
  {
    assert EmailAt("ahmed@example.com", 5, 13);
  }

  /** The rule of path `p` when the record's `customerType` is `ctx`, with `trn` as the TRN validator. */
  function RuleOf(p: Path, ctx: Option<string>, trn: Check): Rule {
    match p
    case CustomerTypePath => Rule(true, OneOf(CustomerTypes))
    case FullName => Rule(ctx == Some("Individual"), NoCheck)
    case EmiratesId => Rule(ctx == Some("Individual"), EmiratesIdCheck)
    case Nationality => Rule(ctx == Some("Individual"), NoCheck)
    case Dob => Rule(ctx == Some("Individual"), NoCheck)
    case Gender => Rule(ctx == Some("Individual"), OneOf(Genders))
    case CompanyName => Rule(ctx == Some("Corporate"), NoCheck)
    case TradeLicense => Rule(ctx == Some("Corporate"), NoCheck)
    case TrnNumber => Rule(ctx == Some("Corporate"), trn)
    case Email => Rule(true, EmailMatch)
    case Mobile => Rule(true, MobileCheck)
    case AlternateMobile => Rule(false, OptionalMobileCheck)
    case Address => Rule(true, NoCheck)
    case Emirate => Rule(true, OneOf(Emirates))
    case PreferredLanguage => Rule(false, OneOf(Languages))
    case PaymentMethodType(_) => Rule(true, OneOf(PaymentTypes))
  }

  /** Whether a present value passes a path's value check. */
  function Accepts(c: Check, v: string, ctx: Option<string>): bool {
    match c
    case NoCheck => true
    case OneOf(values) => v in values
    // the validator tests the format only for an Individual with a non-empty value
    case EmiratesIdCheck => if ctx == Some("Individual") && v != "" then IsEmiratesId(v) else true
    case TrnCheck => v == "" || IsTrn(v)
    case TrnCheckAsWritten => IsTrn(v)
    case MobileCheck => IsUaeMobile(v)
    case OptionalMobileCheck => v == "" || IsUaeMobile(v)
    // a `match` validator lets the empty string through
    case EmailMatch => v == "" || MatchesEmailPattern(v)
  }

  /** The first failing rule of one path, if any. */
  function CheckPath(p: Path, v: Option<string>, ctx: Option<string>, trn: Check): (r: Option<Violation>)
    ensures r.Some? ==> r.value.path == p
  {
    var rule := RuleOf(p, ctx, trn);
    if rule.required && !Filled(v) then Some(Required(p))
    else if v.None? || Accepts(rule.check, v.value, ctx) then None
    else if rule.check.OneOf? then Some(NotInEnum(p))
    else Some(BadFormat(p))
  }

  /** What path `p` contributes to the error list; `presentOnly` skips absent values, as update validation does. */
  function Report(p: Path, v: Option<string>, ctx: Option<string>, trn: Check, presentOnly: bool): (r: seq<Violation>)
    ensures |r| <= 1
    ensures forall violation :: violation in r ==> violation.path == p
  {
    if presentOnly && v.None? then []
    else match CheckPath(p, v, ctx, trn)
      case None => []
      case Some(violation) => [violation]
  }

  /** The errors of the individual group, in declaration order. */
  function IndividualViolations(c: CustomerFields, ctx: Option<string>, trn: Check, presentOnly: bool): (r: seq<Violation>)
    ensures forall v :: v in r ==> v.path in {FullName, EmiratesId, Nationality, Dob, Gender}
  {
    Report(FullName, c.fullName, ctx, trn, presentOnly)
    + Report(EmiratesId, c.emiratesId, ctx, trn, presentOnly)
    + Report(Nationality, c.nationality, ctx, trn, presentOnly)
    + Report(Dob, c.dob, ctx, trn, presentOnly)
    + Report(Gender, c.gender, ctx, trn, presentOnly)
  }

  /** The errors of the corporate group, in declaration order. */
  function CorporateViolations(c: CustomerFields, ctx: Option<string>, trn: Check, presentOnly: bool): (r: seq<Violation>)
    ensures forall v :: v in r ==> v.path in {CompanyName, TradeLicense, TrnNumber}
  {
    Report(CompanyName, c.companyName, ctx, trn, presentOnly)
    + Report(TradeLicense, c.tradeLicense, ctx, trn, presentOnly)
    + Report(TrnNumber, c.trnNumber, ctx, trn, presentOnly)
  }

  /** The errors of the contact and location paths, in declaration order. */
  function ContactViolations(c: CustomerFields, ctx: Option<string>, trn: Check, presentOnly: bool): (r: seq<Violation>)
    ensures forall v :: v in r ==> v.path in {Email, Mobile, AlternateMobile, Address, Emirate}
  {
    Report(Email, c.email, ctx, trn, presentOnly)
    + Report(Mobile, c.mobile, ctx, trn, presentOnly)
    + Report(AlternateMobile, c.alternateMobile, ctx, trn, presentOnly)
    + Report(Address, c.address, ctx, trn, presentOnly)
    + Report(Emirate, c.emirate, ctx, trn, presentOnly)
  }

  /** The errors of the top-level paths, in declaration order. */
  function FieldViolations(c: CustomerFields, ctx: Option<string>, trn: Check, presentOnly: bool): seq<Violation> {
    Report(CustomerTypePath, c.customerType, ctx, trn, presentOnly)
    + IndividualViolations(c, ctx, trn, presentOnly)
    + CorporateViolations(c, ctx, trn, presentOnly)
    + ContactViolations(c, ctx, trn, presentOnly)
    + Report(PreferredLanguage, c.preferredLanguage, ctx, trn, presentOnly)
  }

  /** The errors of `paymentMethods[from..]`: each element's `type` is required and an enum value. */
  function PaymentViolations(ms: seq<PaymentMethod>, from: nat): (r: seq<Violation>)
    ensures r == [] <==> forall i :: from <= i < |ms| ==> Filled(ms[i].kind) && ms[i].kind.value in PaymentTypes
    decreases |ms| - from
  {
    if from >= |ms| then []
    else
      var head := match CheckPath(PaymentMethodType(from), ms[from].kind, None, NoCheck)
        case None => []
        case Some(violation) => [violation];
      head + PaymentViolations(ms, from + 1)
  }

  function AllPaymentViolations(c: CustomerFields): seq<Violation> {
    if c.paymentMethods.Some? then PaymentViolations(c.paymentMethods.value, 0) else []
  }

  /** Validation of a whole document before it is saved (the store's model uses the corrected TRN validator). */
  function DocumentViolations(c: CustomerFields): seq<Violation> {
    FieldViolations(c, c.customerType, TrnCheck, false) + AllPaymentViolations(c)
  }

  /** Validation of a whole document with the TRN validator exactly as the schema states it. */
  function DocumentViolationsAsWritten(c: CustomerFields): seq<Violation> {
    FieldViolations(c, c.customerType, TrnCheckAsWritten, false) + AllPaymentViolations(c)
  }

  /**
   * Validation of an update body: only the paths the body sets are checked, and
   * the rules that consult the record's `customerType` see none (they are
   * evaluated against the update query, not a document). Like
   * `DocumentViolations`, it uses the corrected TRN validator, which lets ""
   * through; `UpdateViolationsAsWritten` keeps the schema's own.
   */
  function UpdateViolations(body: CustomerFields): seq<Violation> {
    FieldViolations(body, None, TrnCheck, true) + AllPaymentViolations(body)
  }

  /** Validation of an update body with the TRN validator exactly as the schema states it. */
  function UpdateViolationsAsWritten(body: CustomerFields): seq<Violation> {
    FieldViolations(body, None, TrnCheckAsWritten, true) + AllPaymentViolations(body)
  }

  /** `customerType` is present and one of the two variants. */
  predicate TypeValid(c: CustomerFields) {
    Filled(c.customerType) && c.customerType.value in CustomerTypes
  }

  /** The individual group: all five required of an Individual, the Emirates ID well formed, the gender an enum value. */
  predicate IndividualValid(c: CustomerFields) {
    && (c.customerType == Some("Individual") ==>
          && Filled(c.fullName) && Filled(c.emiratesId) && IsEmiratesId(c.emiratesId.value)
          && Filled(c.nationality) && Filled(c.dob) && Filled(c.gender))
    && (c.gender.Some? ==> c.gender.value in Genders)
  }

  /** The corporate group: all three required of a Corporate, a non-empty TRN is fifteen digits. */
  predicate CorporateValid(c: CustomerFields) {
    && (c.customerType == Some("Corporate") ==>
          Filled(c.companyName) && Filled(c.tradeLicense) && Filled(c.trnNumber))
    && (Filled(c.trnNumber) ==> IsTrn(c.trnNumber.value))
  }

  /** Contact and location fields, required of every customer. */
  predicate ContactValid(c: CustomerFields) {
    && Filled(c.email) && MatchesEmailPattern(c.email.value)
    && Filled(c.mobile) && IsUaeMobile(c.mobile.value)
    && (Filled(c.alternateMobile) ==> IsUaeMobile(c.alternateMobile.value))
    && Filled(c.address)
    && Filled(c.emirate) && c.emirate.value in Emirates
  }

  /** The language, if given, is supported and every payment method has a known type. */
  predicate PreferencesValid(c: CustomerFields) {
    && (c.preferredLanguage.Some? ==> c.preferredLanguage.value in Languages)
    && (c.paymentMethods.Some? ==>
          forall i :: 0 <= i < |c.paymentMethods.value| ==>
            Filled(c.paymentMethods.value[i].kind) && c.paymentMethods.value[i].kind.value in PaymentTypes)
  }

  /** The schema's rules stated directly, as a reference for `DocumentViolations`. */
  predicate DocumentValid(c: CustomerFields) {
    TypeValid(c) && IndividualValid(c) && CorporateValid(c) && ContactValid(c) && PreferencesValid(c)
  }

  lemma TypeReport(c: CustomerFields)
    ensures Report(CustomerTypePath, c.customerType, c.customerType, TrnCheck, false) == [] <==> TypeValid(c)
  {
  }

  lemma IndividualReports(c: CustomerFields)
    ensures IndividualViolations(c, c.customerType, TrnCheck, false) == [] <==> IndividualValid(c)
  {
  }

  lemma CorporateReports(c: CustomerFields)
    ensures CorporateViolations(c, c.customerType, TrnCheck, false) == [] <==> CorporateValid(c)
  {
  }

  lemma ContactReports(c: CustomerFields)
    ensures ContactViolations(c, c.customerType, TrnCheck, false) == [] <==> ContactValid(c)
  {
    EmailReport(c.email, c.customerType);
    MobileReport(c.mobile, c.alternateMobile, c.customerType);
    PlaceReport(c.address, c.emirate, c.customerType);
  }

  lemma EmailReport(v: Option<string>, ctx: Option<string>)
    ensures Report(Email, v, ctx, TrnCheck, false) == [] <==> Filled(v) && MatchesEmailPattern(v.value)
  {
  }

  lemma MobileReport(v: Option<string>, alt: Option<string>, ctx: Option<string>)
    ensures Report(Mobile, v, ctx, TrnCheck, false) == [] <==> Filled(v) && IsUaeMobile(v.value)
    ensures Report(AlternateMobile, alt, ctx, TrnCheck, false) == [] <==> (Filled(alt) ==> IsUaeMobile(alt.value))
  {
  }

  lemma PlaceReport(address: Option<string>, emirate: Option<string>, ctx: Option<string>)
    ensures Report(Address, address, ctx, TrnCheck, false) == [] <==> Filled(address)
    ensures Report(Emirate, emirate, ctx, TrnCheck, false) == [] <==> Filled(emirate) && emirate.value in Emirates
  {
  }

  lemma PreferencesReports(c: CustomerFields)
    ensures (Report(PreferredLanguage, c.preferredLanguage, c.customerType, TrnCheck, false)
             + AllPaymentViolations(c) == []) <==> PreferencesValid(c)
  {
  }

  /** A document passes validation exactly when it satisfies the schema's rules. */
  lemma DocumentViolationsEmptyIff(c: CustomerFields)
    ensures DocumentViolations(c) == [] <==> DocumentValid(c)
  {
    TypeReport(c);
    IndividualReports(c);
    CorporateReports(c);
    ContactReports(c);
    PreferencesReports(c);
  }

  /** An Individual that validates has all five individual fields and a well-formed Emirates ID. */
  lemma IndividualRequiresItsFields(c: CustomerFields)
    requires c.customerType == Some("Individual") && DocumentViolations(c) == []
    ensures Filled(c.fullName) && Filled(c.nationality) && Filled(c.dob)
    ensures Filled(c.gender) && c.gender.value in Genders
    ensures Filled(c.emiratesId) && IsEmiratesId(c.emiratesId.value)
  {
    DocumentViolationsEmptyIff(c);
  }

  /** A Corporate that validates has its company name, trade licence and a 15-digit TRN. */
  lemma CorporateRequiresItsFields(c: CustomerFields)
    requires c.customerType == Some("Corporate") && DocumentViolations(c) == []
    ensures Filled(c.companyName) && Filled(c.tradeLicense)
    ensures Filled(c.trnNumber) && IsTrn(c.trnNumber.value)
  {
    DocumentViolationsEmptyIff(c);
  }

  /** `customerType` must be present and exactly one of the two variants. */
  lemma CustomerTypeIsVariant(c: CustomerFields)
    requires DocumentViolations(c) == []
    ensures c.customerType == Some("Individual") || c.customerType == Some("Corporate")
  {
    DocumentViolationsEmptyIff(c);
  }

  /** A valid Corporate stays valid without any individual field: that group is not required of it. */
  lemma CorporateNeedsNoIndividualFields(c: CustomerFields)
    requires c.customerType == Some("Corporate") && DocumentViolations(c) == []
    ensures DocumentViolations(c.(fullName := None, emiratesId := None, passportNumber := None,
                                  nationality := None, dob := None, gender := None)) == []
  {
    DocumentViolationsEmptyIff(c);
    DocumentViolationsEmptyIff(c.(fullName := None, emiratesId := None, passportNumber := None,
                                  nationality := None, dob := None, gender := None));
  }

  /** A valid Individual stays valid without any corporate field: that group is not required of it. */
  lemma IndividualNeedsNoCorporateFields(c: CustomerFields)
    requires c.customerType == Some("Individual") && DocumentViolations(c) == []
    ensures DocumentViolations(c.(companyName := None, tradeLicense := None, trnNumber := None)) == []
  {
    DocumentViolationsEmptyIff(c);
    DocumentViolationsEmptyIff(c.(companyName := None, tradeLicense := None, trnNumber := None));
  }

  /** The Emirates ID format is enforced only for an Individual with a non-empty value. */
  lemma EmiratesIdFormatRule(c: CustomerFields)
    ensures BadFormat(EmiratesId) in DocumentViolations(c) <==>
      c.customerType == Some("Individual") && Filled(c.emiratesId) && !IsEmiratesId(c.emiratesId.value)
  {
    var v := BadFormat(EmiratesId);
    var ctx := c.customerType;
    EmiratesIdOutsideOtherGroups(c, v);
    EmiratesIdInIndividualGroup(c, v);
    assert DocumentViolations(c) == Report(CustomerTypePath, c.customerType, ctx, TrnCheck, false)
      + IndividualViolations(c, ctx, TrnCheck, false) + CorporateViolations(c, ctx, TrnCheck, false)
      + ContactViolations(c, ctx, TrnCheck, false) + Report(PreferredLanguage, c.preferredLanguage, ctx, TrnCheck, false)
      + AllPaymentViolations(c);
    EmiratesIdReport(c);
  }

  /** A violation about the Emirates ID comes from no group but the individual one. */
  lemma EmiratesIdOutsideOtherGroups(c: CustomerFields, v: Violation)
    requires v.path == EmiratesId
    ensures v !in Report(CustomerTypePath, c.customerType, c.customerType, TrnCheck, false)
    ensures v !in CorporateViolations(c, c.customerType, TrnCheck, false)
    ensures v !in ContactViolations(c, c.customerType, TrnCheck, false)
    ensures v !in Report(PreferredLanguage, c.preferredLanguage, c.customerType, TrnCheck, false)
    ensures v !in AllPaymentViolations(c)
  {
    if c.paymentMethods.Some? {
      PaymentViolationPaths(c.paymentMethods.value, 0);
    }
  }

  /** Within the individual group, a violation about the Emirates ID is the Emirates ID path's own report. */
  lemma EmiratesIdInIndividualGroup(c: CustomerFields, v: Violation)
    requires v.path == EmiratesId
    ensures v in IndividualViolations(c, c.customerType, TrnCheck, false)
        <==> v in Report(EmiratesId, c.emiratesId, c.customerType, TrnCheck, false)
  {
  }

  lemma EmiratesIdReport(c: CustomerFields)
    ensures BadFormat(EmiratesId) in Report(EmiratesId, c.emiratesId, c.customerType, TrnCheck, false) <==>
      c.customerType == Some("Individual") && Filled(c.emiratesId) && !IsEmiratesId(c.emiratesId.value)
  {
  }

  lemma {:induction false} PaymentViolationPaths(ms: seq<PaymentMethod>, from: nat)
    ensures forall v :: v in PaymentViolations(ms, from) ==> v.path.PaymentMethodType?
    decreases |ms| - from
  {
    if from < |ms| {
      PaymentViolationPaths(ms, from + 1);
    }
  }

  /** The paths whose `required` depends on `customerType`. */
  predicate TypeDependent(p: Path) {
    p.FullName? || p.EmiratesId? || p.Nationality? || p.Dob? || p.Gender?
    || p.CompanyName? || p.TradeLicense? || p.TrnNumber?
  }

  /** A record with every field absent: the body of a request that sends nothing. */
  const NoFields: CustomerFields :=
    CustomerFields(None, None, None, None, None, None, None, None, None, None,
                   None, None, None, None, None, None, None, None, None)

  /** An update body that sets nothing passes validation. */
  lemma EmptyUpdatePasses()
    ensures UpdateViolations(NoFields) == []
  {
  }

  /**
   * An update never reports a missing individual or corporate field, and never
   * checks the Emirates ID format: those rules depend on the record's
   * `customerType`, which update validation does not see.
   */
  lemma UpdateSkipsConditionalRules(body: CustomerFields)
    ensures forall p :: TypeDependent(p) ==> Required(p) !in UpdateViolations(body)
  {
    UpdateIndividualGroup(body);
    UpdateCorporateGroup(body);
    UpdateOtherPaths(body);
  }

  /** Outside the two type-dependent groups, an update reports only paths whose rules ignore `customerType`. */
  lemma UpdateOtherPaths(body: CustomerFields)
    ensures forall v :: v in Report(CustomerTypePath, body.customerType, None, TrnCheck, true) ==> !TypeDependent(v.path)
    ensures forall v :: v in ContactViolations(body, None, TrnCheck, true) ==> !TypeDependent(v.path)
    ensures forall v :: v in Report(PreferredLanguage, body.preferredLanguage, None, TrnCheck, true) ==> !TypeDependent(v.path)
    ensures forall v :: v in AllPaymentViolations(body) ==> !TypeDependent(v.path)
  {
    if body.paymentMethods.Some? {
      PaymentViolationPaths(body.paymentMethods.value, 0);
    }
  }

  lemma UpdateSkipsEmiratesIdFormat(body: CustomerFields)
    ensures BadFormat(EmiratesId) !in UpdateViolations(body)
  {
    if body.paymentMethods.Some? {
      PaymentViolationPaths(body.paymentMethods.value, 0);
    }
    UpdateIndividualGroup(body);
  }

  lemma UpdateIndividualGroup(body: CustomerFields)
    ensures forall v :: v in IndividualViolations(body, None, TrnCheck, true) ==> v == NotInEnum(Gender)
  {
    assert Report(FullName, body.fullName, None, TrnCheck, true) == [];
    assert Report(EmiratesId, body.emiratesId, None, TrnCheck, true) == [];
    assert Report(Nationality, body.nationality, None, TrnCheck, true) == [];
    assert Report(Dob, body.dob, None, TrnCheck, true) == [];
  }

  lemma UpdateCorporateGroup(body: CustomerFields)
    ensures forall v :: v in CorporateViolations(body, None, TrnCheck, true) ==> v == BadFormat(TrnNumber)
  {
    assert Report(CompanyName, body.companyName, None, TrnCheck, true) == [];
    assert Report(TradeLicense, body.tradeLicense, None, TrnCheck, true) == [];
  }

  /** A field present in an update body with a value its rule rejects is reported. */
  lemma UpdateChecksPresentEmail(body: CustomerFields)
    requires body.email.Some? && !(Filled(body.email) && MatchesEmailPattern(body.email.value))
    ensures UpdateViolations(body) != []
  {
    assert Report(Email, body.email, None, TrnCheck, true) != [];
  }

  /** As written, the TRN validator rejects the empty string for every non-corporate record. */
  lemma TrnAsWrittenRejectsEmpty(c: CustomerFields)
    requires c.trnNumber == Some("") && c.customerType != Some("Corporate")
    ensures BadFormat(TrnNumber) in DocumentViolationsAsWritten(c)
  {
    assert BadFormat(TrnNumber) in CorporateViolations(c, c.customerType, TrnCheckAsWritten, false);
  }

  /**
   * On update too: a body that sets `trnNumber` to "" is refused by the
   * validator as written, while the corrected validator lets it through.
   */
  lemma TrnAsWrittenRejectsEmptyUpdate(body: CustomerFields)
    requires body.trnNumber == Some("")
    ensures BadFormat(TrnNumber) in UpdateViolationsAsWritten(body)
    ensures BadFormat(TrnNumber) !in UpdateViolations(body)
  {
    EmptyTrnUpdateAsWritten(body);
    EmptyTrnUpdateCorrected(body);
  }

  lemma EmptyTrnUpdateAsWritten(body: CustomerFields)
    requires body.trnNumber == Some("")
    ensures BadFormat(TrnNumber) in UpdateViolationsAsWritten(body)
  {
    assert BadFormat(TrnNumber) in CorporateViolations(body, None, TrnCheckAsWritten, true);
  }

  lemma EmptyTrnUpdateCorrected(body: CustomerFields)
    requires body.trnNumber == Some("")
    ensures BadFormat(TrnNumber) !in UpdateViolations(body)
  {
    assert Report(CompanyName, body.companyName, None, TrnCheck, true) == [];
    assert Report(TradeLicense, body.tradeLicense, None, TrnCheck, true) == [];
    assert Report(TrnNumber, body.trnNumber, None, TrnCheck, true) == [];
    assert CorporateViolations(body, None, TrnCheck, true) == [];
    if body.paymentMethods.Some? {
      PaymentViolationPaths(body.paymentMethods.value, 0);
    }
  }

  /**
   * So, as written, an Individual that meets every rule of the schema is still
   * refused when its form sends an empty TRN; with the corrected validator it is accepted.
   */
  lemma IndividualWithEmptyTrn(c: CustomerFields)
    requires DocumentValid(c) && c.customerType == Some("Individual") && c.trnNumber == Some("")
    ensures DocumentViolations(c) == []
    ensures DocumentViolationsAsWritten(c) != []
  {
    DocumentViolationsEmptyIff(c);
    TrnAsWrittenRejectsEmpty(c);
  }

  /** With the corrected validator an empty TRN is treated as no TRN, except where the TRN is required. */
  lemma EmptyTrnIsAbsent(c: CustomerFields)
    requires c.trnNumber == Some("") && c.customerType != Some("Corporate")
    ensures DocumentViolations(c) == DocumentViolations(c.(trnNumber := None))
  {
    var d := c.(trnNumber := None);
    var ctx := c.customerType;
    assert Report(TrnNumber, c.trnNumber, ctx, TrnCheck, false) == [] == Report(TrnNumber, d.trnNumber, ctx, TrnCheck, false);
    assert CorporateViolations(c, ctx, TrnCheck, false) == CorporateViolations(d, ctx, TrnCheck, false);
  }

  /** Mobile numbers: `mobile` must be present and `+971` plus nine digits; `alternateMobile` may be empty. */
  lemma MobileRules(c: CustomerFields)
    requires DocumentViolations(c) == []
    ensures Filled(c.mobile) && |c.mobile.value| == 13 && c.mobile.value[..4] == "+971"
    ensures c.alternateMobile.Some? && c.alternateMobile.value != "" ==> IsUaeMobile(c.alternateMobile.value)
  {
    DocumentViolationsEmptyIff(c);
  }

  /** The defaults of `new Customer(body)`: English, not KYC-verified, no payment methods. */
  function WithDefaults(body: CustomerFields): (r: CustomerFields)
    ensures r.preferredLanguage == Some(body.preferredLanguage.GetOr(DefaultLanguage))
    ensures r.kycVerified == Some(body.kycVerified.GetOr(false))
    ensures r.paymentMethods == Some(body.paymentMethods.GetOr([]))
    ensures r.(preferredLanguage := body.preferredLanguage, kycVerified := body.kycVerified,
               paymentMethods := body.paymentMethods) == body
  {
    body.(preferredLanguage := Some(body.preferredLanguage.GetOr(DefaultLanguage)),
          kycVerified := Some(body.kycVerified.GetOr(false)),
          paymentMethods := Some(body.paymentMethods.GetOr([])))
  }

  /** Filling in the defaults never adds or removes a validation error. */
  lemma DefaultsKeepViolations(body: CustomerFields)
    ensures DocumentViolations(WithDefaults(body)) == DocumentViolations(body)
  {
    var d := WithDefaults(body);
    var ctx := body.customerType;
    SameValuesSameGroups(d, body, ctx, TrnCheck, false);
    DefaultLanguageReport(body.preferredLanguage, ctx);
    assert AllPaymentViolations(d) == AllPaymentViolations(body) by {
      if body.paymentMethods.None? {
        assert AllPaymentViolations(d) == PaymentViolations([], 0) == [];
      }
    }
  }

  /** The default language passes the language enum, so defaulting it reports the same as leaving it out. */
  lemma DefaultLanguageReport(v: Option<string>, ctx: Option<string>)
    ensures Report(PreferredLanguage, Some(v.GetOr(DefaultLanguage)), ctx, TrnCheck, false)
         == Report(PreferredLanguage, v, ctx, TrnCheck, false)
  {
    assert DefaultLanguage in Languages;
  }

  /** Two records that differ only in language, KYC flag and payment methods get the same reports elsewhere. */
  lemma SameValuesSameGroups(a: CustomerFields, b: CustomerFields, ctx: Option<string>, trn: Check, presentOnly: bool)
    requires a.customerType == b.customerType
    requires a.fullName == b.fullName && a.emiratesId == b.emiratesId && a.nationality == b.nationality
    requires a.dob == b.dob && a.gender == b.gender
    requires a.companyName == b.companyName && a.tradeLicense == b.tradeLicense && a.trnNumber == b.trnNumber
    requires a.email == b.email && a.mobile == b.mobile && a.alternateMobile == b.alternateMobile
    requires a.address == b.address && a.emirate == b.emirate
    ensures Report(CustomerTypePath, a.customerType, ctx, trn, presentOnly) == Report(CustomerTypePath, b.customerType, ctx, trn, presentOnly)
    ensures IndividualViolations(a, ctx, trn, presentOnly) == IndividualViolations(b, ctx, trn, presentOnly)
    ensures CorporateViolations(a, ctx, trn, presentOnly) == CorporateViolations(b, ctx, trn, presentOnly)
    ensures ContactViolations(a, ctx, trn, presentOnly) == ContactViolations(b, ctx, trn, presentOnly)
  {
    SameIndividualGroup(a, b, ctx, trn, presentOnly);
    SameCorporateGroup(a, b, ctx, trn, presentOnly);
    SameContactGroup(a, b, ctx, trn, presentOnly);
  }

  lemma SameIndividualGroup(a: CustomerFields, b: CustomerFields, ctx: Option<string>, trn: Check, presentOnly: bool)
    requires a.fullName == b.fullName && a.emiratesId == b.emiratesId && a.nationality == b.nationality
    requires a.dob == b.dob && a.gender == b.gender
    ensures IndividualViolations(a, ctx, trn, presentOnly) == IndividualViolations(b, ctx, trn, presentOnly)
  {
  }

  lemma SameCorporateGroup(a: CustomerFields, b: CustomerFields, ctx: Option<string>, trn: Check, presentOnly: bool)
    requires a.companyName == b.companyName && a.tradeLicense == b.tradeLicense && a.trnNumber == b.trnNumber
    ensures CorporateViolations(a, ctx, trn, presentOnly) == CorporateViolations(b, ctx, trn, presentOnly)
  {
  }

  lemma SameContactGroup(a: CustomerFields, b: CustomerFields, ctx: Option<string>, trn: Check, presentOnly: bool)
    requires a.email == b.email && a.mobile == b.mobile && a.alternateMobile == b.alternateMobile
    requires a.address == b.address && a.emirate == b.emirate
    ensures ContactViolations(a, ctx, trn, presentOnly) == ContactViolations(b, ctx, trn, presentOnly)
  {
  }

  /**
   * A customer document while it is being saved: created from the request
   * body with the schema defaults, then stamped by the pre-save hook.
   */
  class CustomerDocument {
    var id: nat
    var fields: CustomerFields
    var createdAt: int
    var lastUpdated: int

    /** `new Customer(body)`: both timestamps default to the creation time. */
    constructor (id: nat, body: CustomerFields, now: int)
      ensures this.id == id && fields == WithDefaults(body)
      ensures createdAt == now && lastUpdated == now
    {
      this.id := id;
      fields := WithDefaults(body);
      createdAt := now;
      lastUpdated := now;
    }

    /** The pre-save hook: stamps `lastUpdated` and touches nothing else. */
    method PreSave(now: int)
      modifies this
      ensures lastUpdated == now
      ensures id == old(id) && fields == old(fields) && createdAt == old(createdAt)
    {
      lastUpdated := now;
    }

    function Snapshot(): Customer
      reads this
    {
      Customer(id, fields, createdAt, lastUpdated)
    }
  }
}
