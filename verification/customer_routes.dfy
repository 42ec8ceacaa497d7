/**
 * The customer REST handlers (server/routes/customers.js) over an in-memory
 * collection: list newest first, create with the per-variant pre-check and
 * schema validation, update by id with update validators, delete by id, and
 * the recent-customer projection of the statistics endpoint.
 *
 * Ids are a counter instead of generated object ids; the clock is a
 * parameter. The unique index on `email` is a sequential check made when a
 * write reaches the collection, after validation.
 */
module CustomerRoutes {
  import opened Text
  import opened CustomerSchema
  import Lists

  const IndividualMissing: string := "Missing required fields for individual customer"
  const CorporateMissing: string := "Missing required fields for corporate customer"
  const EmailExists: string := "Email already exists"
  const NotFound: string := "Customer not found"
  const Removed: string := "Customer removed"
  const RecentLimit: nat := 5

  /** One row of `recentCustomers`: id, display name, type and creation time. */
  datatype RecentCustomer = RecentCustomer(id: nat, name: Option<string>, customerType: Option<string>, createdAt: int)

  /** A response body; a schema error carries the failed rules its message lists. */
  datatype Body =
    | Message(text: string)
    | Invalid(violations: seq<Violation>)
    | One(customer: Customer)
    | Many(customers: seq<Customer>)
    | Recent(recent: seq<RecentCustomer>)

  datatype Reply = Reply(status: nat, body: Body)

  /** The handlers' own check, made before the schema sees the body. */
  function PreCheck(body: CustomerFields): (r: Option<string>)
    ensures r == Some(IndividualMissing) <==>
      body.customerType == Some("Individual") &&
      !(Filled(body.fullName) && Filled(body.emiratesId) && Filled(body.nationality) && Filled(body.dob) && Filled(body.gender))
    ensures r == Some(CorporateMissing) <==>
      body.customerType == Some("Corporate") &&
      !(Filled(body.companyName) && Filled(body.tradeLicense) && Filled(body.trnNumber))
    ensures body.customerType != Some("Individual") && body.customerType != Some("Corporate") ==> r == None
  {
    if body.customerType == Some("Individual") then
      if !Filled(body.fullName) || !Filled(body.emiratesId) || !Filled(body.nationality)
         || !Filled(body.dob) || !Filled(body.gender)
      then Some(IndividualMissing) else None
    else if body.customerType == Some("Corporate") then
      if !Filled(body.companyName) || !Filled(body.tradeLicense) || !Filled(body.trnNumber)
      then Some(CorporateMissing) else None
    else None
  }

  /** On a create, the pre-check only refuses bodies the schema would refuse anyway. */
  lemma PreCheckSubsumedBySchema(body: CustomerFields)
    requires PreCheck(body).Some?
    ensures DocumentViolations(WithDefaults(body)) != []
  {
    DefaultsKeepViolations(body);
    DocumentViolationsEmptyIff(body);
  }

  /** `$set` of the fields the body carries: a present field replaces the stored one, an absent field keeps it. */
  function Pick<T>(update: Option<T>, current: Option<T>): (r: Option<T>)
    ensures r == (if update.Some? then update else current)
  {
    if update.Some? then update else current
  }

  function Merge(c: CustomerFields, body: CustomerFields): CustomerFields {
    CustomerFields(
      Pick(body.customerType, c.customerType),
      Pick(body.fullName, c.fullName),
      Pick(body.emiratesId, c.emiratesId),
      Pick(body.passportNumber, c.passportNumber),
      Pick(body.nationality, c.nationality),
      Pick(body.dob, c.dob),
      Pick(body.gender, c.gender),
      Pick(body.companyName, c.companyName),
      Pick(body.tradeLicense, c.tradeLicense),
      Pick(body.trnNumber, c.trnNumber),
      Pick(body.email, c.email),
      Pick(body.mobile, c.mobile),
      Pick(body.alternateMobile, c.alternateMobile),
      Pick(body.address, c.address),
      Pick(body.emirate, c.emirate),
      Pick(body.poBox, c.poBox),
      Pick(body.preferredLanguage, c.preferredLanguage),
      Pick(body.paymentMethods, c.paymentMethods),
      Pick(body.kycVerified, c.kycVerified))
  }

  /** Merging is a `$set`: an empty body changes nothing, and applying the same body twice is applying it once. */
  lemma MergeProperties(c: CustomerFields, body: CustomerFields)
    ensures Merge(c, NoFields) == c
    ensures Merge(Merge(c, body), body) == Merge(c, body)
    ensures body.email.Some? ==> Merge(c, body).email == body.email
    ensures body.email.None? ==> Merge(c, body).email == c.email
  {
  }

  /**
   * Update validation does not protect the stored record: an update that blanks
   * `fullName` passes the pre-check and the update validators, yet leaves an
   * Individual that whole-document validation would refuse.
   */
  lemma UpdateCanBlankRequiredField(c: CustomerFields)
    requires c.customerType == Some("Individual")
    ensures PreCheck(NoFields.(fullName := Some(""))) == None
    ensures UpdateViolations(NoFields.(fullName := Some(""))) == []
    ensures DocumentViolations(Merge(c, NoFields.(fullName := Some("")))) != []
  {
    var body := NoFields.(fullName := Some(""));
    assert Report(FullName, body.fullName, None, TrnCheck, true) == [];
    DocumentViolationsEmptyIff(Merge(c, body));
  }

  /** The customers sorted by `createdAt`, newest first (adjacent pairs). */
  predicate NewestFirst(rs: seq<Customer>) {
    forall i :: 0 <= i < |rs| - 1 ==> rs[i].createdAt >= rs[i + 1].createdAt
  }

  /** Adjacent order gives order between any two positions. */
  lemma {:induction false} NewestFirstPairwise(rs: seq<Customer>, i: int, j: int)
    requires NewestFirst(rs) && 0 <= i <= j < |rs|
    ensures rs[i].createdAt >= rs[j].createdAt
    decreases j - i
  {
    if i < j {
      NewestFirstPairwise(rs, i + 1, j);
    }
  }

  function Insert(c: Customer, rs: seq<Customer>): (r: seq<Customer>)
    requires NewestFirst(rs)
    ensures NewestFirst(r)
    ensures multiset(r) == multiset(rs) + multiset{c}
    ensures |r| == |rs| + 1
    ensures r[0] == c || (rs != [] && r[0] == rs[0])
  {
    if rs == [] || c.createdAt >= rs[0].createdAt then [c] + rs
    else
      assert rs == [rs[0]] + rs[1..];
      [rs[0]] + Insert(c, rs[1..])
  }

  /** `sort({ createdAt: -1 })`: the same customers, newest first. */
  function SortNewestFirst(rs: seq<Customer>): (r: seq<Customer>)
    ensures NewestFirst(r)
    ensures multiset(r) == multiset(rs)
    ensures |r| == |rs|
  {
    if rs == [] then []
    else
      assert rs == [rs[0]] + rs[1..];
      Insert(rs[0], SortNewestFirst(rs[1..]))
  }

  /** The `$ifNull(fullName, companyName)` projection as written: an empty `fullName` is kept. */
  function DisplayNameAsWritten(c: CustomerFields): (r: Option<string>)
    ensures c.fullName.Some? ==> r == c.fullName
    ensures c.fullName.None? ==> r == c.companyName
  {
    if c.fullName.Some? then c.fullName else c.companyName
  }

  /** The display name: `fullName` when it has text, else `companyName`. */
  function DisplayName(c: CustomerFields): (r: Option<string>)
    ensures Filled(c.fullName) ==> r == c.fullName
    ensures !Filled(c.fullName) ==> r == c.companyName
  {
    if Filled(c.fullName) then c.fullName else c.companyName
  }

  /** Every valid customer has a non-empty display name. */
  lemma DisplayNameFilled(c: CustomerFields)
    requires DocumentViolations(c) == []
    ensures Filled(DisplayName(c))
  {
    DocumentViolationsEmptyIff(c);
  }

  /**
   * As written, a valid Corporate created from the customer form (which sends
   * `fullName` as the empty string) is listed with an empty name.
   */
  lemma DisplayNameAsWrittenEmptyForFormCorporate(c: CustomerFields)
    requires DocumentViolations(c) == [] && c.customerType == Some("Corporate") && c.fullName == Some("")
    ensures DisplayNameAsWritten(c) == Some("")
    ensures DisplayName(c) == c.companyName && Filled(DisplayName(c))
  {
    DisplayNameFilled(c);
  }

  function Project(c: Customer): (r: RecentCustomer)
    ensures r.id == c.id && r.createdAt == c.createdAt && r.customerType == c.fields.customerType
    ensures r.name == DisplayName(c.fields)
  {
    RecentCustomer(c.id, DisplayName(c.fields), c.fields.customerType, c.createdAt)
  }

  function ProjectAll(rs: seq<Customer>): (r: seq<RecentCustomer>)
    ensures |r| == |rs|
    ensures forall i :: 0 <= i < |rs| ==> r[i] == Project(rs[i])
  {
    if rs == [] then [] else [Project(rs[0])] + ProjectAll(rs[1..])
  }

  function Min(a: int, b: int): int {
    if a <= b then a else b
  }

  /** `recentCustomers`: sort newest first, keep five, project. */
  function RecentCustomers(rs: seq<Customer>): (r: seq<RecentCustomer>)
    ensures |r| == Min(RecentLimit, |rs|)
    ensures forall i :: 0 <= i < |r| - 1 ==> r[i].createdAt >= r[i + 1].createdAt
    ensures exists t :: |t| == |r| && multiset(t) <= multiset(rs) && r == ProjectAll(t)
  {
    var sorted := SortNewestFirst(rs);
    var t := sorted[..Min(RecentLimit, |rs|)];
    assert sorted == t + sorted[|t|..];
    assert multiset(t) <= multiset(rs);
    ProjectAll(t)
  }

  /** Each customer is either listed among the recent ones, or all five listed ones are at least as new. */
  lemma RecentAreNewest(rs: seq<Customer>, x: Customer)
    requires x in rs
    ensures Project(x) in RecentCustomers(rs) ||
      (|RecentCustomers(rs)| == RecentLimit &&
       forall i :: 0 <= i < RecentLimit ==> RecentCustomers(rs)[i].createdAt >= x.createdAt)
  {
    var sorted := SortNewestFirst(rs);
    var n := Min(RecentLimit, |rs|);
    var r := RecentCustomers(rs);
    assert x in multiset(sorted);
    var j :| 0 <= j < |sorted| && sorted[j] == x;
    if j < n {
      assert r[j] == Project(x);
    } else {
      forall i | 0 <= i < RecentLimit
        ensures r[i].createdAt >= x.createdAt
      {
        NewestFirstPairwise(sorted, i, j);
      }
    }
  }

  /** Position of the customer with this id, if any. */
  function IndexOfId(rs: seq<Customer>, id: nat): (r: Option<nat>)
    ensures r.Some? ==> r.value < |rs| && rs[r.value].id == id
    ensures r.None? ==> forall i :: 0 <= i < |rs| ==> rs[i].id != id
  {
    if rs == [] then None
    else if rs[0].id == id then Some(0)
    else match IndexOfId(rs[1..], id)
      case None => None
      case Some(k) => Some(k + 1)
  }

  /** Some stored customer other than the one at `skip` already uses `email`. */
  predicate EmailTaken(rs: seq<Customer>, email: Option<string>, skip: int) {
    exists j :: 0 <= j < |rs| && j != skip && rs[j].fields.email == email
  }

  function IdOf(c: Customer): nat {
    c.id
  }

  /** The customer collection and its id counter. */
  class CustomerStore {
    var records: seq<Customer>
    var nextId: nat

    /** Ids are below the counter and distinct; emails are distinct (the unique index). */
    ghost predicate Valid()
      reads this
    {
      && (forall i :: 0 <= i < |records| ==> records[i].id < nextId)
      && (forall i, j :: 0 <= i < j < |records| ==> records[i].id != records[j].id)
      && (forall i, j :: 0 <= i < j < |records| ==> records[i].fields.email != records[j].fields.email)
    }

    constructor ()
      ensures Valid() && records == [] && nextId == 0
    {
      records := [];
      nextId := 0;
    }

    /** GET /: every customer, newest first. */
    method List() returns (reply: Reply)
      ensures reply.status == 200 && reply.body.Many?
      ensures NewestFirst(reply.body.customers)
      ensures multiset(reply.body.customers) == multiset(records)
    {
      reply := Reply(200, Many(SortNewestFirst(records)));
    }

    /** GET /stats, the recent-customer part. */
    method Stats() returns (reply: Reply)
      ensures reply == Reply(200, Recent(RecentCustomers(records)))
    {
      reply := Reply(200, Recent(RecentCustomers(records)));
    }

    /** POST /: pre-check, build with defaults, validate, stamp, insert under the unique index. */
    method Post(body: CustomerFields, now: int) returns (reply: Reply)
      requires Valid()
      modifies this
      ensures Valid()
      ensures PreCheck(body).Some? ==>
        reply == Reply(400, Message(PreCheck(body).value)) && records == old(records) && nextId == old(nextId)
      ensures PreCheck(body).None? && DocumentViolations(WithDefaults(body)) != [] ==>
        reply == Reply(400, Invalid(DocumentViolations(WithDefaults(body))))
        && records == old(records) && nextId == old(nextId)
      ensures PreCheck(body).None? && DocumentViolations(WithDefaults(body)) == [] && EmailTaken(old(records), body.email, -1) ==>
        reply == Reply(400, Message(EmailExists)) && records == old(records) && nextId == old(nextId)
      ensures PreCheck(body).None? && DocumentViolations(WithDefaults(body)) == [] && !EmailTaken(old(records), body.email, -1) ==>
        var saved := Customer(old(nextId), WithDefaults(body), now, now);
        reply == Reply(201, One(saved)) && records == old(records) + [saved] && nextId == old(nextId) + 1
    {
      var missing := PreCheck(body);
      if missing.Some? {
        return Reply(400, Message(missing.value));
      }
      var doc := new CustomerDocument(nextId, body, now);
      var violations := DocumentViolations(doc.fields);
      if violations != [] {
        return Reply(400, Invalid(violations));
      }
      doc.PreSave(now);
      if EmailTaken(records, doc.fields.email, -1) {
        return Reply(400, Message(EmailExists));
      }
      var saved := doc.Snapshot();
      AppendKeepsKeys(records, nextId, saved);
      records := records + [saved];
      nextId := nextId + 1;
      reply := Reply(201, One(saved));
    }

    /**
     * PUT /:id: pre-check, update validators on the body, look the id up, then
     * `$set` the body's fields. Save hooks do not run, so `lastUpdated` keeps its value.
     */
    method Put(id: nat, body: CustomerFields) returns (reply: Reply)
      requires Valid()
      modifies this
      ensures Valid() && nextId == old(nextId) && |records| == |old(records)|
      ensures PreCheck(body).Some? ==>
        reply == Reply(400, Message(PreCheck(body).value)) && records == old(records)
      ensures PreCheck(body).None? && UpdateViolations(body) != [] ==>
        reply == Reply(400, Invalid(UpdateViolations(body))) && records == old(records)
      ensures PreCheck(body).None? && UpdateViolations(body) == [] && IndexOfId(old(records), id).None? ==>
        reply == Reply(404, Message(NotFound)) && records == old(records)
      ensures PreCheck(body).None? && UpdateViolations(body) == [] && IndexOfId(old(records), id).Some? ==>
        var i := IndexOfId(old(records), id).value;
        var updated := old(records)[i].(fields := Merge(old(records)[i].fields, body));
        if EmailTaken(old(records), updated.fields.email, i) then
          reply == Reply(400, Message(EmailExists)) && records == old(records)
        else
          reply == Reply(200, One(updated)) && records == old(records)[i := updated]
    {
      var missing := PreCheck(body);
      if missing.Some? {
        return Reply(400, Message(missing.value));
      }
      var violations := UpdateViolations(body);
      if violations != [] {
        return Reply(400, Invalid(violations));
      }
      var found := IndexOfId(records, id);
      if found.None? {
        return Reply(404, Message(NotFound));
      }
      var i := found.value;
      var updated := records[i].(fields := Merge(records[i].fields, body));
      if EmailTaken(records, updated.fields.email, i) {
        return Reply(400, Message(EmailExists));
      }
      records := records[i := updated];
      reply := Reply(200, One(updated));
    }

    /** DELETE /:id: 404 for an unknown id, otherwise exactly that customer is removed. */
    method Delete(id: nat) returns (reply: Reply)
      requires Valid()
      modifies this
      ensures Valid() && nextId == old(nextId)
      ensures IndexOfId(old(records), id).None? ==> reply == Reply(404, Message(NotFound)) && records == old(records)
      ensures IndexOfId(old(records), id).Some? ==>
        var i := IndexOfId(old(records), id).value;
        reply == Reply(200, Message(Removed)) && records == old(records)[..i] + old(records)[i + 1..]
    {
      var found := IndexOfId(records, id);
      if found.None? {
        return Reply(404, Message(NotFound));
      }
      var i := found.value;
      RemoveAtKeepsKeys(records, nextId, i);
      records := records[..i] + records[i + 1..];
      reply := Reply(200, Message(Removed));
    }
  }

  /** Appending a customer with a fresh id and an unused email keeps ids below the next counter, and ids and emails distinct. */
  lemma AppendKeepsKeys(rs: seq<Customer>, nextId: nat, c: Customer)
    requires forall a :: 0 <= a < |rs| ==> rs[a].id < nextId
    requires forall a, b :: 0 <= a < b < |rs| ==> rs[a].id != rs[b].id
    requires forall a, b :: 0 <= a < b < |rs| ==> rs[a].fields.email != rs[b].fields.email
    requires c.id == nextId && !EmailTaken(rs, c.fields.email, -1)
    ensures var r := rs + [c];
      && (forall a :: 0 <= a < |r| ==> r[a].id < nextId + 1)
      && (forall a, b :: 0 <= a < b < |r| ==> r[a].id != r[b].id)
      && (forall a, b :: 0 <= a < b < |r| ==> r[a].fields.email != r[b].fields.email)
  {
    var r := rs + [c];
    assert forall a :: 0 <= a < |rs| ==> r[a] == rs[a];
  }

  /** Removing one position keeps ids below the counter, and ids and emails distinct. */
  lemma RemoveAtKeepsKeys(rs: seq<Customer>, nextId: nat, i: nat)
    requires i < |rs|
    requires forall a :: 0 <= a < |rs| ==> rs[a].id < nextId
    requires forall a, b :: 0 <= a < b < |rs| ==> rs[a].id != rs[b].id
    requires forall a, b :: 0 <= a < b < |rs| ==> rs[a].fields.email != rs[b].fields.email
    ensures var r := rs[..i] + rs[i + 1..];
      && (forall a :: 0 <= a < |r| ==> r[a].id < nextId)
      && (forall a, b :: 0 <= a < b < |r| ==> r[a].id != r[b].id)
      && (forall a, b :: 0 <= a < b < |r| ==> r[a].fields.email != r[b].fields.email)
  {
    var r := rs[..i] + rs[i + 1..];
    assert forall a :: 0 <= a < |r| ==> r[a] == rs[if a < i then a else a + 1];
  }

  /** With distinct ids, deleting by id drops exactly the one position holding it. */
  lemma {:induction false} DeleteUniqueIsRemoveAt(rs: seq<Customer>, id: nat, i: nat)
    requires i < |rs| && rs[i].id == id
    requires forall a, b :: 0 <= a < b < |rs| ==> rs[a].id != rs[b].id
    ensures Lists.DeleteById(rs, IdOf, id) == rs[..i] + rs[i + 1..]
  {
    var pre, post := rs[..i], rs[i + 1..];
    OtherIdsDiffer(rs, i, pre, post);
    Lists.DeleteAbsentIsIdentity(pre, IdOf, id);
    Lists.DeleteAbsentIsIdentity(post, IdOf, id);
    DeleteSplit(rs, i);
  }

  /** With distinct ids, no customer before or after position `i` carries its id. */
  lemma OtherIdsDiffer(rs: seq<Customer>, i: nat, pre: seq<Customer>, post: seq<Customer>)
    requires i < |rs| && pre == rs[..i] && post == rs[i + 1..]
    requires forall a, b :: 0 <= a < b < |rs| ==> rs[a].id != rs[b].id
    ensures forall a :: 0 <= a < |pre| ==> IdOf(pre[a]) != rs[i].id
    ensures forall a :: 0 <= a < |post| ==> IdOf(post[a]) != rs[i].id
  {
    forall a | 0 <= a < |post|
      ensures IdOf(post[a]) != rs[i].id
    {
      assert post[a] == rs[i + 1 + a];
    }
  }

  /** Deleting the id at position `i` deletes it on either side of that position. */
  lemma DeleteSplit(rs: seq<Customer>, i: nat)
    requires i < |rs|
    ensures Lists.DeleteById(rs, IdOf, rs[i].id) == Lists.DeleteById(rs[..i], IdOf, rs[i].id) + Lists.DeleteById(rs[i + 1..], IdOf, rs[i].id)
  {
    var p := Lists.KeyIsNot(IdOf, rs[i].id);
    assert rs == rs[..i] + ([rs[i]] + rs[i + 1..]);
    Lists.FilterAppend(rs[..i], [rs[i]] + rs[i + 1..], p);
    Lists.FilterAppend([rs[i]], rs[i + 1..], p);
    assert Lists.Filter([rs[i]], p) == [];
  }
}
