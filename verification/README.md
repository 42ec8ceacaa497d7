# Warehouse management core in Dafny

This project models the core of a warehouse-management web application and
proves properties of the model. Its parts:

- the server's customer schema and the customer REST handlers;
- the supplier schema;
- the client's toast store;
- four management pages: customers, inventory, warehouses and suppliers;
- the navigation sidebar.

Each source file becomes one module:

| module | file | models |
|---|---|---|
| `CustomerSchema` | `customer_schema.dfy` | `server/models/Customer.js` |
| `CustomerRoutes` | `customer_routes.dfy` | `server/routes/customers.js` |
| `SupplierSchema` | `supplier_schema.dfy` | `server/models/Supplier.js` |
| `Toast` | `toast.dfy` | `client/src/components/ui/use-toast.tsx` |
| `CustomerPage` | `customer_page.dfy` | `client/src/page/customer-management.tsx` |
| `InventoryPage` | `inventory_page.dfy` | `client/src/page/inventory-master.tsx` |
| `WarehousePage` | `warehouse_page.dfy` | `client/src/page/warehouse-master.tsx` |
| `SupplierPage` | `supplier_page.dfy` | `client/src/page/supplier-managment.tsx` |
| `Sidebar` | `sidebar.dfy` | `client/src/components/Sidebar/Sidebar.tsx` |

Two helper modules hold what several of them share:

- `Text` (`text.dfy`): the JavaScript string operations the code uses, namely ASCII `toLowerCase`, `includes` and `trim` over the ECMAScript white-space set.
- `Lists` (`lists.dfy`): the list updates every page performs, namely `filter`, replace-by-id (`map`), delete-by-id (`filter`) and remove-at-index.

The schemas are written as functions. A request body is a record of optional
fields, where `None` is a missing key. Validation returns the list of failed
rules. It follows the document store's per-path order:

- `required` is checked first, then the path's enum, `match` or custom validator;
- only the first failure of a path is reported;
- value validators skip a missing value but run on "".

On update, validators run only on the paths the body carries. Their `this` is
not the document, so the rules that depend on `customerType` are off.

Code that changes state is written as a class with `modifies` clauses:

- the customer collection (`CustomerRoutes.CustomerStore`);
- the document being saved (`CustomerSchema.CustomerDocument`);
- the toast store's module state (`Toast.ToastHub`);
- each page's state hooks (`CustomerPage.CustomerPage`, `InventoryPage.InventoryPage`, …);
- the sidebar state (`Sidebar.SidebarState`).

Each method's `ensures` states the new state in terms of the model's functions.
Lemmas then state what those functions promise.

PUT uses `findByIdAndUpdate`, which does not run the `pre('save')` hook, so
`lastUpdated` is unchanged on PUT (`CustomerRoutes.CustomerStore.Put`).

## Model

| member | source | states |
|---|---|---|
| CustomerSchema.CheckPath | server/models/Customer.js:14-113 | the failure reported for a path is always about that path |
| CustomerSchema.Report | server/models/Customer.js:14-113 | a path reports at most one failure, and only about itself |
| CustomerSchema.IndividualViolations | server/models/Customer.js:20-52 | the individual group reports only fullName, emiratesId, nationality, dob or gender |
| CustomerSchema.CorporateViolations | server/models/Customer.js:54-71 | the corporate group reports only companyName, tradeLicense or trnNumber |
| CustomerSchema.ContactViolations | server/models/Customer.js:73-107 | the common group reports only email, mobile, alternateMobile, address or emirate |
| CustomerSchema.PaymentViolations | server/models/Customer.js:4-11 | no payment error iff every method has a type from the four allowed values |
| CustomerSchema.PaymentViolationPaths | server/models/Customer.js:114 | payment-method errors are only about payment-method types |
| CustomerSchema.TypeReport | server/models/Customer.js:14-18 | customerType passes iff present and Individual or Corporate |
| CustomerSchema.IndividualReports | server/models/Customer.js:20-52 | the individual group passes iff its reference rules hold |
| CustomerSchema.CorporateReports | server/models/Customer.js:54-71 | the corporate group passes iff its reference rules hold (corrected TRN validator) |
| CustomerSchema.ContactReports | server/models/Customer.js:73-107 | the common group passes iff its reference rules hold |
| CustomerSchema.PreferencesReports | server/models/Customer.js:109-114 | language and payment methods pass iff the language is supported and each method type is known |
| CustomerSchema.DocumentViolationsEmptyIff | server/models/Customer.js:13-127 | a document validates iff it meets every rule of the schema, stated independently |
| CustomerSchema.IndividualRequiresItsFields | server/models/Customer.js:20-52 | a valid Individual has fullName, nationality, dob, an allowed gender and a well-formed Emirates ID |
| CustomerSchema.CorporateRequiresItsFields | server/models/Customer.js:54-71 | a valid Corporate has companyName, tradeLicense and a 15-digit TRN |
| CustomerSchema.CustomerTypeIsVariant | server/models/Customer.js:14-18 | a valid document is exactly Individual or Corporate |
| CustomerSchema.CorporateNeedsNoIndividualFields | server/models/Customer.js:20-52 | a valid Corporate stays valid with every individual field removed |
| CustomerSchema.IndividualNeedsNoCorporateFields | server/models/Customer.js:54-64 | a valid Individual stays valid with every corporate field removed |
| CustomerSchema.EmiratesIdFormatRule | server/models/Customer.js:24-38 | the Emirates ID format error occurs iff the customer is Individual and the ID is non-empty and malformed |
| CustomerSchema.EmiratesIdReport | server/models/Customer.js:27-35 | the same rule, for the Emirates ID path alone |
| CustomerSchema.EmailPatternUnanchored | server/models/Customer.js:77 | the email pattern is unanchored: text around a match keeps it a match |
| CustomerSchema.EmailPatternExamples | server/models/Customer.js:77 | the pattern accepts a normal address and refuses one without a dot after `@` or without a local part |
| CustomerSchema.EmptyUpdatePasses | server/models/Customer.js:13-127 | an update body that sets nothing raises no validation error |
| CustomerSchema.UpdateSkipsConditionalRules | server/models/Customer.js:20-64 | on update, the type-dependent required rules never fire |
| CustomerSchema.UpdateSkipsEmiratesIdFormat | server/models/Customer.js:27-35 | on update, the Emirates ID format is never checked |
| CustomerSchema.UpdateIndividualGroup | server/models/Customer.js:48-52 | on update, the individual group can only report a gender outside its enum |
| CustomerSchema.UpdateCorporateGroup | server/models/Customer.js:62-71 | on update, the corporate group can only report a malformed TRN (corrected TRN validator, which lets "" through) |
| CustomerSchema.UpdateChecksPresentEmail | server/models/Customer.js:73-78 | an update carrying an empty or malformed email is refused |
| CustomerSchema.TrnAsWrittenRejectsEmpty | server/models/Customer.js:65-70 | as written, an empty TRN is refused for every non-Corporate record |
| CustomerSchema.TrnAsWrittenRejectsEmptyUpdate | server/models/Customer.js:65-70 | on update, a body setting `trnNumber` to "" is refused by the validator as written and passes the corrected one |
| CustomerSchema.IndividualWithEmptyTrn | server/models/Customer.js:62-70 | a rule-abiding Individual with an empty TRN passes the corrected validator and fails the one as written |
| CustomerSchema.EmptyTrnIsAbsent | server/models/Customer.js:62-70 | with the corrected validator, an empty TRN on a non-Corporate reports the same as no TRN |
| CustomerSchema.MobileRules | server/models/Customer.js:79-98 | a valid document has a `+971` mobile of 13 characters; a non-empty alternate mobile has the same form |
| CustomerSchema.WithDefaults | server/models/Customer.js:109-118 | missing language, KYC flag and payment list take English, false and []; nothing else changes |
| CustomerSchema.DefaultsKeepViolations | server/models/Customer.js:109-118 | filling in the defaults never adds or removes a validation error |
| CustomerSchema.DefaultLanguageReport | server/models/Customer.js:109-113 | the default language passes the language enum |
| CustomerSchema.SameValuesSameGroups | server/models/Customer.js:13-107 | validation of the groups depends only on the fields they read |
| CustomerSchema.CustomerDocument.constructor | server/models/Customer.js:119-126 | a new document has the body with defaults and both timestamps set to now |
| CustomerSchema.CustomerDocument.PreSave | server/models/Customer.js:130-133 | the pre-save hook sets lastUpdated to now and changes nothing else |
| CustomerRoutes.PreCheck | server/routes/customers.js:35-43 | the individual (or corporate) message is returned iff that type lacks one of its fields; other types pass |
| CustomerRoutes.PreCheckSubsumedBySchema | server/routes/customers.js:35-43 | any body the pre-check refuses is also refused by the schema |
| CustomerRoutes.Pick | server/routes/customers.js:78-82 | a field the update carries replaces the stored one; an absent field keeps it |
| CustomerRoutes.MergeProperties | server/routes/customers.js:78-82 | an empty update changes nothing; applying an update twice equals applying it once |
| CustomerRoutes.UpdateCanBlankRequiredField | server/routes/customers.js:67-82 | a PUT of `fullName: ""` passes both checks yet leaves an Individual the schema would refuse |
| CustomerRoutes.NewestFirstPairwise | server/routes/customers.js:18-20 | in a newest-first list, every earlier customer is at least as new as every later one |
| CustomerRoutes.Insert | server/routes/customers.js:18-20 | inserting keeps the list newest-first and adds exactly that customer |
| CustomerRoutes.SortNewestFirst | server/routes/customers.js:18-20 | the sort is newest-first and a permutation of its input |
| CustomerRoutes.DisplayNameAsWritten | server/routes/customers.js:141 | `$ifNull`: the fullName when the key is present (even ""), else companyName |
| CustomerRoutes.DisplayName | server/routes/customers.js:141 | fullName when it has text, else companyName |
| CustomerRoutes.DisplayNameFilled | server/routes/customers.js:139-144 | every valid customer gets a non-empty display name |
| CustomerRoutes.DisplayNameAsWrittenEmptyForFormCorporate | server/routes/customers.js:141 | as written, a valid Corporate stored with fullName "" gets the empty name; corrected, it gets its company name |
| CustomerRoutes.Project | server/routes/customers.js:139-144 | a recent row keeps the id, type and creation time and carries the display name (corrected display name) |
| CustomerRoutes.ProjectAll | server/routes/customers.js:139-144 | projection is pointwise and keeps the length |
| CustomerRoutes.RecentCustomers | server/routes/customers.js:136-145 | at most five rows, newest first, the projections of stored customers with none used more often than it is stored (corrected display name) |
| CustomerRoutes.RecentAreNewest | server/routes/customers.js:136-138 | every customer is listed, or the five listed are all at least as new |
| CustomerRoutes.IndexOfId | server/routes/customers.js:105-109 | finds the position of the id, or reports that no customer has it |
| CustomerRoutes.CustomerStore.constructor | server/routes/customers.js:9-27 | an empty collection with unique ids and emails |
| CustomerRoutes.CustomerStore.List | server/routes/customers.js:9-27 | returns 200 with every stored customer, newest first |
| CustomerRoutes.CustomerStore.Stats | server/routes/customers.js:121-155 | returns 200 with the recent-customer rows of the collection (corrected display name) |
| CustomerRoutes.CustomerStore.Post | server/routes/customers.js:32-58 | pre-check 400, then schema 400, then duplicate-email 400, else 201 with the customer appended; ids and emails stay unique |
| CustomerRoutes.CustomerStore.Put | server/routes/customers.js:63-98 | pre-check 400, then update-validator 400 (with the corrected TRN validator), then 404, then duplicate-email 400, else 200 with only that record merged; uniqueness kept |
| CustomerRoutes.CustomerStore.Delete | server/routes/customers.js:103-116 | 404 for an unknown id, else 200 "Customer removed" with exactly that customer gone |
| CustomerRoutes.DeleteUniqueIsRemoveAt | server/routes/customers.js:105 | with unique ids, delete-by-id removes exactly the one position |
| SupplierSchema.MessagesDistinct | server/models/Supplier.js:5-58 | each rule reports its own message |
| SupplierSchema.TrimOpt | server/models/Supplier.js:8 | the trim setter keeps a missing value missing and trims a present one |
| SupplierSchema.TrimOptIdempotent | server/models/Supplier.js:8 | trimming twice is trimming once |
| SupplierSchema.EmailSetterIdempotent | server/models/Supplier.js:15-21 | trim-then-lowercase applied twice equals applying it once |
| SupplierSchema.NormalizeIdempotent | server/models/Supplier.js:4-58 | the setters are idempotent on a whole supplier |
| SupplierSchema.NormalizedIsTrimmed | server/models/Supplier.js:4-58 | after the setters every field is trimmed and the email is lower case |
| SupplierSchema.SupplierEmailCompose | server/models/Supplier.js:20 | word-separated local part and host with a 2-3 character label ending form an accepted address |
| SupplierSchema.DomainCompose | server/models/Supplier.js:20 | a host plus `.` and a 2-3 character label is an accepted domain |
| SupplierSchema.SupplierEmailOneAt | server/models/Supplier.js:20 | an accepted address has exactly one `@` |
| SupplierSchema.SupplierEmailShortLastLabel | server/models/Supplier.js:20 | an accepted address ends in `.` plus two or three word characters |
| SupplierSchema.SupplierEmailHasNoSpace | server/models/Supplier.js:20 | an accepted address has no white space |
| SupplierSchema.Require | server/models/Supplier.js:5-9 | a required field fails iff it is missing or empty after trimming, with that path |
| SupplierSchema.PresentIffNotBlank | server/models/Supplier.js:5-9 | a trimmed value is present iff the raw value is not blank |
| SupplierSchema.ErrorsEmptyIff | server/models/Supplier.js:4-58 | a supplier is accepted iff all ten fields are non-blank and the normalised email matches |
| SupplierSchema.BlankNameReported | server/models/Supplier.js:5-9 | a blank name is the first error, with "Company name is required" |
| SupplierSchema.Create | server/models/Supplier.js:4-61 | saved iff valid and no licence/TRN clash, with both timestamps now; rejected iff invalid, carrying exactly the failed rules of the normalised body |
| SupplierSchema.Update | server/models/Supplier.js:59-61 | saved iff valid and no clash with another supplier; createdAt kept, updatedAt now; rejected iff invalid, carrying exactly the failed rules of the normalised body |
| SupplierSchema.CreateKeepsKeysUnique | server/models/Supplier.js:32-43 | a create keeps trade licences and TRNs unique |
| SupplierSchema.AppendKeepsKeysUnique | server/models/Supplier.js:32-43 | appending a non-clashing supplier keeps the keys unique |
| SupplierSchema.CreateRefusesReusedKey | server/models/Supplier.js:32-43 | a valid supplier reusing a stored licence or TRN is refused as a duplicate |
| SupplierSchema.UpdateKeepsKeysUnique | server/models/Supplier.js:32-43 | an update keeps trade licences and TRNs unique |
| SupplierSchema.ReplaceKeepsKeysUnique | server/models/Supplier.js:32-43 | replacing with a non-clashing supplier keeps the keys unique |
| SupplierSchema.SavedIsValidAndNormal | server/models/Supplier.js:4-61 | whatever is saved meets the schema and is unchanged by the setters |
| Toast.Take | client/src/components/ui/use-toast.tsx:68 | `slice(0, n)` keeps the first min(n, length) toasts |
| Toast.CloseMatching | client/src/components/ui/use-toast.tsx:71-79 | closes exactly the matching toasts, position by position |
| Toast.Reduce | client/src/components/ui/use-toast.tsx:60-94 | each action's effect: add at the front within the limit, dismiss, remove one id or all, ignore others |
| Toast.AddShowsOnlyNewest | client/src/components/ui/use-toast.tsx:65-69 | with a limit of one, adding shows exactly the new toast |
| Toast.ReduceBounded | client/src/components/ui/use-toast.tsx:60-94 | no action takes the list beyond the limit |
| Toast.RunBounded | client/src/components/ui/use-toast.tsx:60-94 | any sequence of actions from a bounded state stays bounded |
| Toast.RunFromEmptyBounded | client/src/components/ui/use-toast.tsx:98 | from the initial empty state, at most one toast is ever shown |
| Toast.DismissKeepsIds | client/src/components/ui/use-toast.tsx:71-79 | dismiss keeps length, order and ids; a toast is closed iff matched or already closed |
| Toast.DismissIdempotent | client/src/components/ui/use-toast.tsx:71-79 | dismissing twice is dismissing once |
| Toast.RemoveDropsExactlyId | client/src/components/ui/use-toast.tsx:80-90 | remove with an id drops exactly that id and keeps the rest in order |
| Toast.RemoveIdempotent | client/src/components/ui/use-toast.tsx:80-90 | removing twice is removing once |
| Toast.ToastHub.constructor | client/src/components/ui/use-toast.tsx:96-98 | no listeners and an empty state |
| Toast.ToastHub.Dispatch | client/src/components/ui/use-toast.tsx:100-105 | the state becomes the reduced state; each listener, in order, receives it |
| Toast.ToastHub.Toast | client/src/components/ui/use-toast.tsx:114-140 | shows the props under the generated id and returns that id; earlier deliveries kept, each listener in order receives the new state |
| Toast.ToastHub.DismissHandle | client/src/components/ui/use-toast.tsx:125 | dismisses the toast with this id; earlier deliveries kept, each listener in order receives the new state |
| Toast.ToastHub.Dismiss | client/src/components/ui/use-toast.tsx:158 | dismisses one toast by id, or all when no id is given; earlier deliveries kept, each listener in order receives the new state |
| Toast.ToastHub.UpdateHandle | client/src/components/ui/use-toast.tsx:117-124 | shows the new props under the same id; earlier deliveries kept, each listener in order receives the new state |
| Toast.ToastHub.Subscribe | client/src/components/ui/use-toast.tsx:146 | appends the listener |
| Toast.ToastHub.Unsubscribe | client/src/components/ui/use-toast.tsx:147-152 | removes the first occurrence of the listener, if any, and keeps the rest in order |
| Toast.IndexOf | client/src/components/ui/use-toast.tsx:148 | the first index of the listener, or -1 iff absent |
| CustomerPage.FormDecomposes | client/src/page/customer-management.tsx:47-76 | a form is fixed by its type and its individual, corporate and common groups |
| CustomerPage.ClearIndividual | client/src/page/customer-management.tsx:318-325 | individual fields reset to "", UAE and Male; corporate and common fields kept |
| CustomerPage.ClearCorporate | client/src/page/customer-management.tsx:326-331 | the three corporate fields emptied; everything else kept |
| CustomerPage.CustomerTypeChanged | client/src/page/customer-management.tsx:344-364 | Individual clears the corporate group; any other value clears the individual group |
| CustomerPage.SelectedTypeChanged | client/src/page/customer-management.tsx:314-335 | Corporate clears the individual group; any other value clears the corporate group |
| CustomerPage.TypeHandlersAgree | client/src/page/customer-management.tsx:314-364 | on Individual and Corporate the two handlers give the same form |
| CustomerPage.TypeChangeIdempotent | client/src/page/customer-management.tsx:344-364 | switching to the same type twice equals switching once |
| CustomerPage.SetSelectField | client/src/page/customer-management.tsx:336-341 | other selects set exactly their own field |
| CustomerPage.SelectLastChoiceWins | client/src/page/customer-management.tsx:336-341 | choosing twice in one select keeps only the second choice |
| CustomerPage.FilteredCustomers | client/src/page/customer-management.tsx:202-212 | an order-preserving subsequence holding exactly the matching customers |
| CustomerPage.EmptySearchShowsAll | client/src/page/customer-management.tsx:202-212 | an empty term shows every Individual and every Corporate with a name, licence or TRN |
| CustomerPage.FilteredCustomersIdempotent | client/src/page/customer-management.tsx:202-212 | filtering the filtered list changes nothing |
| CustomerPage.AddPayment | client/src/page/customer-management.tsx:366-374 | without a type nothing changes; otherwise the method is appended and the pending one reset to Cash |
| CustomerPage.AddThenRemoveLast | client/src/page/customer-management.tsx:366-381 | removing the just-added method restores the list |
| CustomerPage.FormOf | client/src/page/customer-management.tsx:415-439 | every field copied; missing optional fields become "" |
| CustomerPage.EditRoundTrip | client/src/page/customer-management.tsx:415-439 | editing a row that echoes a form's values shows that form again (see Left out for the server's `dob` and payment ids) |
| CustomerPage.ToBody | client/src/page/customer-management.tsx:246 | the form is sent with every field present, and reading the body back gives the form |
| CustomerPage.ToBodyInjective | client/src/page/customer-management.tsx:246 | two different forms never send the same body |
| CustomerPage.IndividualFormRefusedAsWritten | server/models/Customer.js:65-70 | an Individual submitted from the form is always refused by the TRN validator as written |
| CustomerPage.IndividualEditRefusedAsWritten | server/routes/customers.js:78-82 | an Individual edited from the form is always refused by the update validators as written, and not for its TRN by the corrected ones |
| CustomerPage.CorporateFormNamedEmptyAsWritten | server/routes/customers.js:141 | a valid Corporate submitted from the form gets the empty recent-customer name as written |
| CustomerPage.SubmitRequest | client/src/page/customer-management.tsx:217-238 | refused iff no type is selected; otherwise PUT to the edited id or POST, with the form as body |
| CustomerPage.CustomerPage.constructor | client/src/page/customer-management.tsx:85-114 | initial state: default form, pending method Cash, nothing edited |
| CustomerPage.CustomerPage.HandleSelectChange | client/src/page/customer-management.tsx:314-342 | the field-by-field clearing gives the type handler's form; other selects set their field |
| CustomerPage.CustomerPage.HandleCustomerTypeChange | client/src/page/customer-management.tsx:344-364 | the form becomes the type-switched form; nothing else changes |
| CustomerPage.CustomerPage.AddPaymentMethod | client/src/page/customer-management.tsx:366-374 | form and pending method become those of the add function |
| CustomerPage.CustomerPage.RemovePaymentMethod | client/src/page/customer-management.tsx:376-381 | removes exactly index i; an out-of-range i changes nothing |
| CustomerPage.CustomerPage.ResetForm | client/src/page/customer-management.tsx:383-408 | default form, nothing edited, modal closed, no error |
| CustomerPage.CustomerPage.HandleEdit | client/src/page/customer-management.tsx:415-439 | edits the customer with the copied form and opens the modal |
| CustomerPage.CustomerPage.Submit | client/src/page/customer-management.tsx:214-238 | sets the error and sends nothing without a type; otherwise clears it and returns the request |
| CustomerPage.CustomerPage.SaveSucceeded | client/src/page/customer-management.tsx:258-259 | takes the refetched list and resets the form |
| InventoryPage.SubmitError | client/src/page/inventory-master.tsx:147-157 | no error iff the form is complete; otherwise the first failing check's message, in order |
| InventoryPage.DefaultFormNeedsBarcode | client/src/page/inventory-master.tsx:147-149 | the blank form fails on the barcode first, though it also has no warehouse |
| InventoryPage.BarcodeTypeChanged | client/src/page/inventory-master.tsx:258-264 | single clears the outer-box barcode, outer box keeps it; nothing else changes |
| InventoryPage.SingleNeverNeedsOuterBox | client/src/page/inventory-master.tsx:151-153 | after switching to single, the outer-box check cannot fail |
| InventoryPage.OuterBoxThenSingle | client/src/page/inventory-master.tsx:258-264 | switching to outer box and then single is switching to single |
| InventoryPage.FindWarehouse | client/src/page/inventory-master.tsx:243 | `find`: the first warehouse with that id, or none iff none has it |
| InventoryPage.WarehouseSelected | client/src/page/inventory-master.tsx:242-249 | sets the id and copies the found warehouse's name and code, or ""; nothing else changes |
| InventoryPage.SelectedWarehouseIsListed | client/src/page/inventory-master.tsx:242-249 | choosing a listed warehouse with a unique id copies its own name and code |
| InventoryPage.SetSelectField | client/src/page/inventory-master.tsx:250-255 | other selects set exactly their own field |
| InventoryPage.SelectLastChoiceWins | client/src/page/inventory-master.tsx:250-255 | choosing twice in one select keeps only the second choice |
| InventoryPage.FilteredInventory | client/src/page/inventory-master.tsx:134-140 | an order-preserving subsequence holding exactly the matching items |
| InventoryPage.EmptySearchShowsAll | client/src/page/inventory-master.tsx:134-140 | an empty term shows every item |
| InventoryPage.BarcodeFindsItem | client/src/page/inventory-master.tsx:137 | searching an item's barcode finds it |
| InventoryPage.LowStockThreshold | client/src/page/inventory-master.tsx:449-452 | the row is flagged iff stock is at or below the minimum |
| InventoryPage.FormOf | client/src/page/inventory-master.tsx:314-337 | every form field is the item's own; missing outer-box barcode and supplier fields become "" |
| InventoryPage.EditedItemPassesChecks | client/src/page/inventory-master.tsx:314-337 | editing an item that met the checks gives a form that meets them |
| InventoryPage.RequestFor | client/src/page/inventory-master.tsx:159-162 | PUT to the edited id, else POST, with the form as body |
| InventoryPage.InventoryPage.constructor | client/src/page/inventory-master.tsx:43-70 | initial state: empty lists, default form, nothing edited |
| InventoryPage.InventoryPage.HandleSelectChange | client/src/page/inventory-master.tsx:241-256 | warehouse selection copies name and code; other selects set their field |
| InventoryPage.InventoryPage.HandleBarcodeTypeChange | client/src/page/inventory-master.tsx:258-264 | the form becomes the type-switched form |
| InventoryPage.InventoryPage.Submit | client/src/page/inventory-master.tsx:142-162 | the first failing check sets the error and sends nothing; a complete form yields its request |
| InventoryPage.InventoryPage.SaveSucceeded | client/src/page/inventory-master.tsx:183-191 | an edit replaces the items with the saved id, a create appends; then the form resets |
| InventoryPage.InventoryPage.DeleteSucceeded | client/src/page/inventory-master.tsx:222 | drops exactly the items with that id, keeping the order |
| InventoryPage.InventoryPage.ResetForm | client/src/page/inventory-master.tsx:282-307 | default form (single, pcs, tax 5, minimum 5, zeros, ""), nothing edited, modal and scan closed |
| InventoryPage.InventoryPage.HandleEdit | client/src/page/inventory-master.tsx:314-337 | edits the item with the copied form and opens the modal |
| InventoryPage.CreateThenDelete | client/src/page/inventory-master.tsx:188 | deleting a just-created item with a new id restores the list |
| InventoryPage.EditThenDelete | client/src/page/inventory-master.tsx:184-186 | an edit changes nothing outside the saved id |
| WarehousePage.FilteredWarehouses | client/src/page/warehouse-master.tsx:129-134 | an order-preserving subsequence holding exactly the matching warehouses |
| WarehousePage.EmptySearchShowsAll | client/src/page/warehouse-master.tsx:129-134 | an empty term shows every warehouse |
| WarehousePage.CodeFindsWarehouse | client/src/page/warehouse-master.tsx:132 | searching a warehouse's code, in its case or lower case, finds it |
| WarehousePage.Round | client/src/page/warehouse-master.tsx:269 | `Math.round`: within one half of its argument, halves up |
| WarehousePage.CapacityPercentage | client/src/page/warehouse-master.tsx:267-270 | 0 when the total is 0, else the used share times 100, rounded |
| WarehousePage.PercentageInRange | client/src/page/warehouse-master.tsx:267-270 | within capacity, the percentage is between 0 and 100 |
| WarehousePage.BandOf | client/src/page/warehouse-master.tsx:398-409 | red iff above 90, yellow iff above 75 and at most 90, else green |
| WarehousePage.NoCapacityIsGreen | client/src/page/warehouse-master.tsx:268 | a warehouse of capacity 0 shows green |
| WarehousePage.FullIsRedEmptyIsGreen | client/src/page/warehouse-master.tsx:398-409 | full shows red, empty shows green |
| WarehousePage.RedThreshold | client/src/page/warehouse-master.tsx:398-409 | red iff at least 90.5 percent is used |
| WarehousePage.BandMonotone | client/src/page/warehouse-master.tsx:398-409 | using more capacity never lowers the percentage or leaves red |
| WarehousePage.SetSelectField | client/src/page/warehouse-master.tsx:222-227 | the type and status selects set exactly their own field |
| WarehousePage.SelectLastChoiceWins | client/src/page/warehouse-master.tsx:222-227 | choosing twice in one select keeps only the second choice |
| WarehousePage.FormOf | client/src/page/warehouse-master.tsx:251-263 | the nine editable fields copied verbatim |
| WarehousePage.FormIgnoresUsedCapacity | client/src/page/warehouse-master.tsx:68-80 | the form never depends on the used capacity or timestamps |
| WarehousePage.EditRoundTrip | client/src/page/warehouse-master.tsx:251-263 | editing a saved warehouse shows the form it was saved from |
| WarehousePage.RequestFor | client/src/page/warehouse-master.tsx:141-144 | PUT to the edited id, else POST, with the form as body |
| WarehousePage.WarehousePage.constructor | client/src/page/warehouse-master.tsx:60-80 | initial state: empty list, default form, nothing edited |
| WarehousePage.WarehousePage.HandleSelectChange | client/src/page/warehouse-master.tsx:222-227 | the form gets the selected field |
| WarehousePage.WarehousePage.Submit | client/src/page/warehouse-master.tsx:141-153 | returns the request for the current form and target |
| WarehousePage.WarehousePage.SaveSucceeded | client/src/page/warehouse-master.tsx:165-171 | an edit replaces the entries with the saved id, a create appends; then the form resets |
| WarehousePage.WarehousePage.DeleteSucceeded | client/src/page/warehouse-master.tsx:204 | drops every entry with that id, keeping the order |
| WarehousePage.WarehousePage.ResetForm | client/src/page/warehouse-master.tsx:229-244 | Main, Active, capacity 0, "" elsewhere; nothing edited, modal closed, no error |
| WarehousePage.WarehousePage.HandleEdit | client/src/page/warehouse-master.tsx:251-265 | edits the warehouse with the copied form and opens the modal |
| WarehousePage.EditSaveKeepsOthers | client/src/page/warehouse-master.tsx:166 | an edit changes nothing outside the saved id |
| WarehousePage.EditOfVanishedIsNoOp | client/src/page/warehouse-master.tsx:166 | saving an edit whose id is no longer listed leaves the list unchanged |
| SupplierPage.FilteredSuppliers | client/src/page/supplier-managment.tsx:85-89 | an order-preserving subsequence holding exactly the matching suppliers |
| SupplierPage.EmptySearchShowsAll | client/src/page/supplier-managment.tsx:85-89 | an empty term shows every supplier |
| SupplierPage.EmailFindsSupplier | client/src/page/supplier-managment.tsx:88 | searching a supplier's email finds it |
| SupplierPage.BodyOf | client/src/page/supplier-managment.tsx:107 | the form is sent with all ten fields present, and reading the body back gives the form |
| SupplierPage.BodyOfInjective | client/src/page/supplier-managment.tsx:107 | two different forms never send the same body |
| SupplierPage.BlankFormRefused | server/models/Supplier.js:5-9 | a form with an empty company name, the reset form among them, is refused first for that name |
| SupplierPage.FormOf | client/src/page/supplier-managment.tsx:201-215 | the form is the supplier without its id |
| SupplierPage.RequestFor | client/src/page/supplier-managment.tsx:96-99 | PUT to the edited id, else POST, with the form as body |
| SupplierPage.UnchangedEditResends | client/src/page/supplier-managment.tsx:96-107 | an unchanged edit sends the supplier's own fields to its own URL |
| SupplierPage.SupplierPage.constructor | client/src/page/supplier-managment.tsx:26-43 | initial state: empty list, blank form, nothing edited |
| SupplierPage.SupplierPage.Submit | client/src/page/supplier-managment.tsx:96-107 | returns the request for the current form and target |
| SupplierPage.SupplierPage.SaveSucceeded | client/src/page/supplier-managment.tsx:121-129 | an edit replaces the suppliers with the saved id, a create appends; then the form resets |
| SupplierPage.SupplierPage.DeleteSucceeded | client/src/page/supplier-managment.tsx:162 | drops exactly the suppliers with that id, keeping the order |
| SupplierPage.SupplierPage.ResetForm | client/src/page/supplier-managment.tsx:178-194 | all ten fields "", nothing edited, modal closed, no error |
| SupplierPage.SupplierPage.HandleEdit | client/src/page/supplier-managment.tsx:201-216 | edits the supplier with its fields and opens the modal |
| SupplierPage.CreateThenDelete | client/src/page/supplier-managment.tsx:126 | deleting a just-created supplier with a new id restores the list |
| Sidebar.MenuWith | client/src/components/Sidebar/Sidebar.tsx:58-149 | seven top-level items, Master Data fourth |
| Sidebar.CurrentSubmenuHighlightsGroup | client/src/components/Sidebar/Sidebar.tsx:184-191 | a group is active whenever one of its entries is the current page |
| Sidebar.UnrootedPathNeverCurrent | client/src/components/Sidebar/Sidebar.tsx:188 | a path without a leading `/` never equals the current pathname |
| Sidebar.WarehousePageNotHighlightedAsWritten | client/src/components/Sidebar/Sidebar.tsx:109-112 | as written, the warehouse page does not highlight Master Data while no menu is open |
| Sidebar.WarehousePageHighlighted | client/src/components/Sidebar/Sidebar.tsx:184-191 | with the rooted path, the warehouse page always highlights Master Data |
| Sidebar.MenuClicked | client/src/components/Sidebar/Sidebar.tsx:54-56 | clicking the open menu closes it; another menu opens instead |
| Sidebar.DoubleClickRestores | client/src/components/Sidebar/Sidebar.tsx:54-56 | two clicks on a menu restore the state iff no other menu was open |
| Sidebar.ClickEffectOf | client/src/components/Sidebar/Sidebar.tsx:192-195 | a non-empty path navigates; otherwise a submenu toggles its lower-cased title; otherwise nothing |
| Sidebar.AtMostOneSubmenuShown | client/src/components/Sidebar/Sidebar.tsx:197 | with distinct lower-cased titles, at most one submenu is shown |
| Sidebar.ClickTogglesShownSubmenu | client/src/components/Sidebar/Sidebar.tsx:192-197 | clicking a group shows its submenu iff it was hidden |
| Sidebar.CollapseHidesSubmenus | client/src/components/Sidebar/Sidebar.tsx:197 | a collapsed sidebar and a closed menu show no submenu |
| Sidebar.SidebarState.constructor | client/src/components/Sidebar/Sidebar.tsx:44-45 | expanded, no menu open |
| Sidebar.SidebarState.ToggleSidebar | client/src/components/Sidebar/Sidebar.tsx:49-52 | flips collapsed; collapsing closes the menu, expanding keeps it |
| Sidebar.SidebarState.HandleMenuClick | client/src/components/Sidebar/Sidebar.tsx:54-56 | the open menu becomes the clicked result |
| Sidebar.SidebarState.ClickItem | client/src/components/Sidebar/Sidebar.tsx:192-195 | navigates without touching the menu, or toggles the menu, or does nothing |
| Sidebar.SidebarState.ShownSubmenus | client/src/components/Sidebar/Sidebar.tsx:197 | exactly the items whose submenu is shown |

## Left out

- HTTP, the router and the browser: `fetch`, status 401 redirects, `localStorage` tokens, `navigate` (recorded as a list of paths) and `window.confirm`. A save or delete enters the model as a success method given the server's reply.
- Failure paths: the 500 "Server Error" replies and the pages' generic failure messages, because they come from I/O faults.
- The error text a page shows for a refused save. A 400 reply is not an I/O fault: the pages show its `data.message`, for example client/src/page/warehouse-master.tsx:161-162. The page models take a save only through its success method, so that message is not carried into the page state. The server side of the refusal is modelled, in `CustomerRoutes.CustomerStore.Post`/`Put` and `SupplierSchema.Create`/`Update`.
- The pages' loading flags and the refetch that follows a save on the inventory, warehouse and supplier pages, because it overwrites the local update asynchronously. The customer page's refetch is modelled as a parameter.
- Input-field handlers (`handleInputChange`): the `parseFloat(value) || 0` coercion of numeric inputs is floating point.
- `generateBarcode`, `handleScanBarcode` and the toast id, because they use `Math.random`. The id is a parameter.
- Clocks: `Date.now` and `new Date()` become a `now` parameter, and timestamps are integers. Dates are not parsed: `dob` is a string checked only for presence.
- The `$text` search of GET `/api/customers?search=`, because it is the database's text index. The tallies of the statistics endpoint (total, by type, KYC and emirate) are left out too; only its recent-customer projection is modelled.
- Object ids: the customer collection hands out a counter, and page ids are strings.
- Concurrency of the unique indexes: they are checked sequentially, after validation.
- The text of a schema error: a refused document carries the list of failed rules instead of the concatenated message.
- Request keys outside the schema, such as a body's own `_id`. The body's `createdAt` and `lastUpdated` keys are schema paths (server/models/Customer.js:119-126): a body's `createdAt` would replace the default on POST, and both keys would be set on PUT. The model ignores these two keys and stamps the timestamps itself.
- The supplier REST handlers: the supplier router is not part of this model. `SupplierSchema.Create` and `SupplierSchema.Update` state what the schema enforces on a save.
- Regular expressions are hand-written character predicates. Case mapping is ASCII only.
- `useToast`'s re-subscription on every state change and the React state snapshot it returns. The listener list is modelled by `Subscribe`/`Unsubscribe`.
- Icons, styles and the presentational components.
- CustomerPage.SetSelectField: models only the select fields the page renders (gender, nationality, emirate, language); a call with any other name is modelled as no change, although JavaScript would add that key to the form.
- InventoryPage.SetSelectField: likewise models only category and unit of measure.
- WarehousePage.SetSelectField: likewise models only type and status; any other name leaves the form unchanged, although the `[name]: value` spread at client/src/page/warehouse-master.tsx:222-227 would add that key.
- WarehousePage.CapacityPercentage: computes on exact reals, not IEEE doubles, so its rounding of values a hair from a half may differ from the browser's.
- CustomerPage.EditRoundTrip: holds for `CustomerPage.RowOf`, a row that echoes the form's values. The server's row differs in two ways. `dob` is a Date path (server/models/Customer.js:44-47), so it comes back as an ISO date-time, or `null` when the form sent "". Each payment method gains an `_id` (server/models/Customer.js:4-11, 114). `handleEdit` copies both as they are (client/src/page/customer-management.tsx:423, 435), so editing a real saved customer does not give back the submitted form in those two fields. The model has no date conversion and no sub-document ids.
- CustomerPage.CustomerPage.SaveSucceeded: the refetch happens before the reset, but both are modelled as one step.

## Findings

| source | as written | input that shows it | evidently intended | confidence | as-written member | corrected member |
|---|---|---|---|---|---|---|
| server/models/Customer.js:65-70 | the `trnNumber` validator tests `^[0-9]{15}$` on every present value, including "" | an Individual from the customer form, which always sends `trnNumber: ""`, on create and, through `runValidators` (server/routes/customers.js:78-82), on edit | an empty TRN passes when the TRN is not required, like the Emirates ID and alternate-mobile guards | high, not executed | CustomerSchema.TrnAsWrittenRejectsEmpty | CustomerSchema.EmptyTrnIsAbsent |
| server/routes/customers.js:141 | `$ifNull: ["$fullName", "$companyName"]` keeps an empty `fullName` | a Corporate saved from the customer form, which sends `fullName: ""` | the company name is shown when the person's name is empty | medium, not executed | CustomerRoutes.DisplayNameAsWrittenEmptyForFormCorporate | CustomerRoutes.DisplayNameFilled |
| client/src/components/Sidebar/Sidebar.tsx:111 | the warehouse-master submenu path is `'warehouse-master'`, without the leading `/` | current pathname `/warehouse-master` with no menu open; client/src/App.tsx:25-46 routes no such page, and the `*` route at :49 redirects it to `/dashboard`, so this pathname cannot arise in the app as given | `/warehouse-master`, like every other menu path | low, not executed | Sidebar.WarehousePageNotHighlightedAsWritten | Sidebar.WarehousePageHighlighted |

The model uses the corrected forms:

- `CustomerSchema.DocumentViolations` and `CustomerSchema.UpdateViolations`, which use the corrected TRN validator. Through them, `CustomerRoutes.CustomerStore.Post` and `CustomerRoutes.CustomerStore.Put` accept an Individual with an empty TRN; the code as written answers 400 to both;
- `CustomerRoutes.DisplayName`. Through it, `CustomerRoutes.Project`, `CustomerRoutes.RecentCustomers` and `CustomerRoutes.CustomerStore.Stats` list a Corporate saved from the form under its company name; the code as written lists it with the name "";
- `Sidebar.MenuItems`.

The forms as written stay beside them: `CustomerSchema.DocumentViolationsAsWritten`, `CustomerSchema.UpdateViolationsAsWritten`, `CustomerRoutes.DisplayNameAsWritten` and `Sidebar.MenuItemsAsWritten`. `CustomerPage.IndividualFormRefusedAsWritten` and `CustomerPage.CorporateFormNamedEmptyAsWritten` show that the page's own bodies reach the first two findings; `CustomerPage.IndividualEditRefusedAsWritten` does the same for an edit.

`CustomerRoutes.UpdateCanBlankRequiredField` records one behaviour of the code that the model keeps. On PUT, update validators do not see the stored `customerType`. So a body `{fullName: ""}` passes both checks and stores an Individual that the schema would refuse on create.
