# Billing and catalog business rules

This project is a Dafny model of the business rules of a small Go CRUD service. The service has two domains: billing (clients and invoices) and catalog (categories and products). Around them sit its configuration checks and its migration scaffolding. Each rule is proved against what the Go code does.

The Go handlers read and write a database through an ORM. In the model every database lookup is a parameter instead:

- whether a client exists;
- how many invoices were created today;
- the loaded row, as an `Option`;
- the ids of the existing categories;
- the SKUs already in use;
- child, product and invoice counts.

The clock is a parameter as well: `today`, `now`, or a `DateTime` reading. With these in place each handler is a method that follows the Go steps in order. It binds the request, validates, looks up, then updates the loaded record field by field. It returns the record or the error the handler would answer with.

Modules, one per source file or shared concern:

- `Wrappers`, `Text`, `Decimal`, `Clock` and `Responses` are shared helpers:
  - `Text`: Go byte length of UTF-8 text, Go whitespace.
  - `Decimal`: decimal rendering and parsing.
  - `Clock`: instants with a zero value, and the Go date layouts with round-trip proofs.
  - `Responses`: handler errors.
- `Binding`: the meaning of the `binding:"..."` struct tags (`required`, `omitempty`, `gt`, `min`, `max`, `oneof`, `email`).
- `Invoices`, `InvoiceRules`, `InvoiceNumbers`, `InvoiceApi`: the invoice lifecycle.
  - The five statuses and the request constraints.
  - The status-validity and transition-graph helpers, proved acyclic.
  - The record and create-request validators and the overdue predicate.
  - The `INV-YYYYMMDD-N` number. The date is the basic calendar date format of section 4.1.2.2 of ISO 8601:2004.
  - The create, update and delete handlers.
- `Clients`, `ClientRules`, `ClientApi`: client binding bounds, the validators and `isValidEmail`, the `String` rendering, and the create/update/delete handlers.
- `Categories`, `CategoryApi`: the category record and tree (depth, root, full path), the request validators, and the create/update/delete/move handlers.
- `Products`, `ProductApi`: the product validators, the three status names, and the create/update handlers.
- `BillingConfig`, `ApiConfig`, `Infrastructure`: the configuration checks, the CORS allow-list and the two connection-string builders.
- `MigrationCreate`: the migrator's `create` command. It covers the name check, the file names and the template text. The directory and file writes are returned as a list of effects.

Five behaviours of the code are easy to miss; the model follows the code:

- The invoice number uses today's date and the count of invoices created today. It does not use the invoice's issue date.
- `UpdateInvoice` writes any status the request supplies. It never consults the transition graph; `UpdateIgnoresTransitionGraph` proves that a paid invoice can be set back to draft.
- `UpdateInvoice` does not re-check the order of the two dates (`UpdateCanBreakDateOrder`).
- The transition graph exists only as a test helper, and it rejects every self-transition, draft to draft included.
- The comments above the numbering code (`internal/billing/api/invoice.go:97`, `api/billing/internal/handlers/invoice.go:92`) give the shape `INV-YYYYMMDD-XXXX`, which suggests a four-digit counter. The code appends `count + 1` in decimal with no padding, so the first invoice of a day ends in `-1` (`FirstNumberOfTheDay`).

The two invoice handler files (`internal/billing/api/invoice.go`, and `api/billing/internal/handlers/invoice.go` over a global database handle) take the same steps. They are modelled once, and the table cites both. The same holds for the two copies of the invoice test helpers. The request types of the second handler set come from `api/billing/internal/models/invoice.go`, which is not part of this model. They are taken to carry the same tags as `internal/billing/models/invoice.go`.

## Model

| member | source | states |
|---|---|---|
| `Invoices.StatusNamesDistinct` | internal/billing/models/invoice.go:8-16 | there are exactly five invoice statuses (draft, sent, paid, overdue, cancelled), all spelled differently |
| `Invoices.CreateRequestBindsMeaning` | internal/billing/models/invoice.go:35-42 | a create request binds iff client id ≠ 0, amount > 0, status empty or one of the five, both dates set, description ≤ 500 characters |
| `Invoices.UpdateRequestBindsMeaning` | internal/billing/models/invoice.go:44-50 | an update request binds iff a supplied amount is positive (0 means not supplied), a supplied status is one of the five, a supplied description is ≤ 500 characters; the dates are free |
| `InvoiceRules.Member` | internal/billing/models/invoice_test.go:188-193 | the early-return scan over a status slice finds `x` iff `x` is in the slice |
| `InvoiceRules.IsValidInvoiceStatus` | internal/billing/models/invoice_test.go:179-194 | true exactly for the five named statuses |
| `InvoiceRules.IsValidStatusTransition` | api/billing/internal/models/invoice_test.go:302-334 | true exactly for the seven edges draft→{sent, cancelled}, sent→{paid, overdue, cancelled}, overdue→{paid, cancelled} |
| `InvoiceRules.NoSelfTransition` | internal/billing/models/invoice_test.go:196-228 | no status may transition to itself, draft→draft included |
| `InvoiceRules.TerminalStatusesHaveNoEdges` | internal/billing/models/invoice_test.go:212-214 | paid and cancelled have no outgoing transition |
| `InvoiceRules.TransitionEndsAreValid` | internal/billing/models/invoice_test.go:198-220 | both ends of an allowed transition are named statuses; a `from` outside the map is always rejected |
| `InvoiceRules.OutgoingEdges` | internal/billing/models/invoice_test.go:198-211 | the successors of draft, sent and overdue, in both directions |
| `InvoiceRules.TransitionTestTable` | api/billing/internal/models/invoice_test.go:121-128 | the table's allowed and rejected transitions come out as the test expects |
| `InvoiceRules.EdgeAdvancesStage` | internal/billing/models/invoice_test.go:196-228 | every allowed transition moves strictly forward along draft < sent < overdue < {paid, cancelled} |
| `InvoiceRules.PathAdvancesStage` | internal/billing/models/invoice_test.go:196-228 | along any chain of allowed transitions the stage strictly increases |
| `InvoiceRules.NoTransitionCycle` | internal/billing/models/invoice_test.go:196-228 | no chain of allowed transitions returns to its starting status |
| `InvoiceRules.ValidateInvoiceExactly` | internal/billing/models/invoice_test.go:150-161 | `validateInvoice` passes iff amount > 0, due not before issue (equal passes) and the status is named |
| `InvoiceRules.ValidateInvoiceTestTable` | api/billing/internal/models/invoice_test.go:39-98 | the valid case passes; zero amount, negative amount, due before issue and an invalid status fail |
| `InvoiceRules.ValidateInvoice` | internal/billing/models/invoice_test.go:150-161 | a passing invoice has a positive amount and a named status; `ValidateInvoiceExactly` gives the converse and the date-order condition |
| `InvoiceRules.CreateDateOrderNeedsBothDates` | internal/billing/models/invoice_test.go:163-177 | the date-order check of the create validator applies only when both dates are non-zero, and then it is exactly issue ≤ due |
| `InvoiceRules.CreateDescriptionBound` | internal/billing/models/invoice_test.go:170-172 | a 500-character description passes the create validator and a 501-character one fails |
| `InvoiceRules.ValidateCreateTestTable` | api/billing/internal/models/invoice_test.go:198-239 | the valid request passes; client 0, amount 0 and a 501-character description fail |
| `InvoiceRules.ValidateCreateInvoiceRequest` | internal/billing/models/invoice_test.go:163-177 | a passing request has a non-zero client, a positive amount and a description of at most 500 characters; `CreateDateOrderNeedsBothDates` and `CreateDescriptionBound` pin the date and byte conditions |
| `InvoiceRules.BindingIsWeakerThanHelper` | api/billing/internal/models/invoice_test.go:269-283 | a request can bind and still fail the helper, through reversed dates or a description over 500 bytes |
| `InvoiceRules.SettledInvoicesAreNeverOverdue` | api/billing/internal/models/invoice_test.go:345-348 | a paid, cancelled or draft invoice is never overdue, whatever its due date |
| `InvoiceRules.OverdueMeansPastDue` | api/billing/internal/models/invoice_test.go:349 | for any other status, overdue iff now is strictly after the due date |
| `InvoiceRules.OverdueIsMonotone` | api/billing/internal/models/invoice_test.go:345-350 | once overdue, an invoice stays overdue as time advances |
| `InvoiceRules.OverdueIsNotTheStatus` | api/billing/internal/models/invoice_test.go:345-350 | lateness is computed and is not the stored `overdue` status |
| `InvoiceRules.OverdueTestTable` | api/billing/internal/models/invoice_test.go:148-177 | future due date, past due date, paid and draft give the results the test expects |
| `InvoiceRules.IsOverdue` | api/billing/internal/models/invoice_test.go:345-350 | an overdue invoice is due strictly before now and is neither paid nor cancelled; `OverdueMeansPastDue` gives the converse for the other statuses |
| `InvoiceRules.GenerateLongString` | api/billing/internal/models/invoice_test.go:336-342 | returns a string of exactly `length` characters, each 'a' |
| `InvoiceNumbers.InvoiceNumberRoundTrip` | internal/billing/api/invoice.go:97-100 | "INV-" + YYYYMMDD(today) + "-" + decimal(count+1) parses back to the date and count + 1 |
| `InvoiceNumbers.InvoiceNumberInjective` | api/billing/internal/handlers/invoice.go:92-95 | different (date, count) pairs give different numbers |
| `InvoiceNumbers.FirstNumberOfTheDay` | internal/billing/api/invoice.go:100 | the first invoice of 15 January 2024 is INV-20240115-1 |
| `InvoiceNumbers.InvoiceNumber` | internal/billing/api/invoice.go:97-100 | the number starts with "INV-" and ends with "-" and the decimal count plus one; `InvoiceNumberRoundTrip` reads the date back |
| `InvoiceNumbers.ParseInvoiceNumber` | internal/billing/api/invoice.go:97-100 | accepts only "INV-", eight characters, "-" and a run of digits; it inverts `InvoiceNumber` on valid dates (`InvoiceNumberRoundTrip`) |
| `InvoiceApi.CreateInvoice` | internal/billing/api/invoice.go:81-127 | binding first, then "Client not found" when the client is missing; otherwise the request fields are copied verbatim, the numbered invoice defaults an empty status to draft, and the status is named and the amount positive |
| `InvoiceApi.UpdateInvoice` | api/billing/internal/handlers/invoice.go:124-165 | not found before the body is read; then binding; then the supplied-fields patch |
| `InvoiceApi.EmptyPatchIsIdentity` | internal/billing/api/invoice.go:146-161 | an update supplying nothing binds and leaves the invoice unchanged |
| `InvoiceApi.PatchKeepsIdentity` | internal/billing/api/invoice.go:146-161 | id, number and client never change |
| `InvoiceApi.PatchSuppliedWinsAndIsIdempotent` | api/billing/internal/handlers/invoice.go:139-154 | supplied fields overwrite, and the same update twice equals once |
| `InvoiceApi.PatchKeepsRecordInvariants` | internal/billing/api/invoice.go:146-152 | a bound update keeps a named status named and a positive amount positive |
| `InvoiceApi.UpdateIgnoresTransitionGraph` | internal/billing/api/invoice.go:150-152 | the handler writes paid→draft, an edge the graph rejects |
| `InvoiceApi.UpdateCanBreakDateOrder` | internal/billing/api/invoice.go:153-158 | an update can move the due date before the issue date |
| `InvoiceApi.DeleteInvoice` | internal/billing/api/invoice.go:176-199 | not found; refused iff the status is paid; every other status is deleted |
| `Clients.CreateClientRequestBindsMeaning` | api/billing/internal/models/client.go:22-27 | a create request binds iff the name has 2..100 characters, the email is non-empty and well formed, phone ≤ 20, address ≤ 255 |
| `Clients.UpdateClientRequestBindsMeaning` | api/billing/internal/models/client.go:29-34 | every update field is optional; a supplied one obeys the create bounds and format |
| `ClientRules.ContainsChar` | internal/billing/models/client_test.go:174-181 | the scan finds `c` iff `c` occurs in `s` |
| `ClientRules.EmailCharacterOrder` | internal/billing/models/client_test.go:166-172 | '@' and '.' are both required, in either order, and a valid email has at least two characters |
| `ClientRules.EmailLengthBound` | internal/billing/models/client_test.go:168 | 254 bytes pass `isValidEmail`, 255 fail |
| `ClientRules.CreateValidImpliesClientValid` | internal/billing/models/client_test.go:133-164 | a request passing the create validator yields a record passing the record validator |
| `ClientRules.OneCharacterName` | internal/billing/models/client_test.go:134-138 | a one-character name passes `validateClient` and fails `validateCreateClientRequest` |
| `ClientRules.BindingMatchesValidatorOnAscii` | internal/billing/models/client_test.go:150-164 | on ASCII text the binding tags and the create validator accept the same requests |
| `ClientRules.IsValidEmail` | internal/billing/models/client_test.go:166-172 | an accepted email has 1 to 254 characters; `EmailCharacterOrder` and `EmailLengthBound` pin the character and byte conditions |
| `ClientRules.ValidateClient` | internal/billing/models/client_test.go:133-148 | a passing client has a name of 1 to 100 characters and an email of 1 to 254 |
| `ClientRules.ValidateCreateClientRequest` | internal/billing/models/client_test.go:150-164 | a passing request has name ≤ 100, email 1..254, phone ≤ 20 and address ≤ 255 characters; `CreateValidImpliesClientValid` relates it to `ValidateClient` |
| `ClientRules.IdRune` | internal/billing/models/client_test.go:185 | `rune(ID + '0')` is the low 32 bits of ID + 48 when they form a Unicode scalar value, and U+FFFD otherwise; the uint64 wrap and the int32 sign never change that |
| `ClientRules.ClientString` | internal/billing/models/client_test.go:184-188 | the rendering starts "Client{ID: " followed by the ID character and ends with "}"; `ClientStringExample` gives the whole rendering of the test's client |
| `ClientRules.ClientStringExample` | internal/billing/models/client_test.go:63-75 | client 1 renders as "Client{ID: 1, Name: John Doe, Email: john@example.com}" |
| `ClientRules.ClientStringIgnoresContact` | internal/billing/models/client_test.go:184-188 | phone and address never reach the rendering |
| `ClientRules.SmallIdsRenderAsDigits` | internal/billing/models/client_test.go:185 | IDs 0 to 9 render as their decimal digit |
| `ClientRules.LargeIdsAreNotDecimal` | internal/billing/models/client_test.go:185 | ID 10 renders as ':', 2^32 wraps to '0', the largest ID to '/', a surrogate to U+FFFD |
| `ClientRules.ClientStringDecimalFaithful` | internal/billing/models/client_test.go:184-188 | the decimal rendering agrees with `String` on 0..9 and its ID field reads back as the ID |
| `ClientApi.CreateClient` | internal/billing/api/client.go:68-90 | a request that binds becomes a client with the same four fields |
| `ClientApi.UpdateClient` | internal/billing/api/client.go:92-128 | not found before the body is read; binding; then the non-empty fields overwrite |
| `ClientApi.PatchNeverClears` | internal/billing/api/client.go:107-119 | no update can clear a field, and the id never changes |
| `ClientApi.EmptyUpdateIsIdentity` | internal/billing/api/client.go:107-119 | an all-empty update binds and leaves the client unchanged |
| `ClientApi.PatchSuppliedWins` | internal/billing/api/client.go:108-119 | supplied fields win; patching twice equals patching once |
| `ClientApi.PatchKeepsCreateBounds` | api/billing/internal/models/client.go:30-33 | a bound update keeps the name within 2..100, phone ≤ 20 and address ≤ 255 |
| `ClientApi.DeleteClient` | internal/billing/api/client.go:130-157 | not found before counting; blocked iff invoiceCount > 0, the error carrying `invoice_count`; success exactly at count 0 |
| `Categories.GetDepth` | internal/catalog/models/category.go:50-58 | the walk up the parent chain returns the number of parent links |
| `Categories.PathNames` | internal/catalog/models/category.go:70-76 | the path ends with the category's own name |
| `Categories.FullPathIsJoinedNames` | internal/catalog/models/category.go:70-76 | the full path is the root-to-node names joined by " > ", one name per level (depth + 1) |
| `Categories.FullPathEnds` | internal/catalog/models/category.go:70-76 | the full path starts with the root's name and ends with the category's name |
| `Categories.FullPathIsNameIffNoParent` | internal/catalog/models/category.go:71-73 | the full path is the bare name iff no parent is loaded |
| `Categories.RootIffDepthZero` | internal/catalog/models/category.go:50-63 | with the parent chain loaded, `IsRoot` iff depth 0 |
| `Categories.DepthIgnoresUnloadedParent` | internal/catalog/models/category.go:50-63 | with a parent link but no loaded parent, the category is not a root yet has depth 0 |
| `Categories.Depth` | internal/catalog/models/category.go:50-58 | the depth is one less than the number of names on the loaded root-to-node path |
| `Categories.IsRoot` | internal/catalog/models/category.go:61-63 | with the parent chain loaded, a category is a root iff its depth is 0 |
| `Categories.HasChildren` | internal/catalog/models/category.go:66-68 | true iff some child is loaded; `CategoryApi.DeleteCategory` ties it to the child guard |
| `Categories.FullPath` | internal/catalog/models/category.go:70-76 | the full path ends with the category's own name; `FullPathIsJoinedNames` gives the whole path |
| `Categories.ValidateCategory` | internal/catalog/models/category.go:28-47 | passes iff the name is not blank, name ≤ 100 bytes, description ≤ 500 bytes and the category is not its own parent |
| `Categories.ValidateCategoryOrder` | internal/catalog/models/category.go:28-47 | the blank-name error wins over the others; self-parent is reported only after name and description pass |
| `Categories.ValidateCreateCategoryRequest` | internal/catalog/models/category.go:88-102 | passes iff non-blank name ≤ 100 and description ≤ 500; no self-parent check |
| `Categories.ValidateUpdateCategoryRequest` | internal/catalog/models/category.go:114-124 | an empty name is allowed; a non-empty one is ≤ 100; description ≤ 500 |
| `Categories.ValidateMoveCategoryRequest` | internal/catalog/models/category.go:138-145 | refuses exactly a move under itself; no new parent (move to root) passes |
| `Categories.BlankNameBindsButFailsValidation` | internal/catalog/models/category.go:80-91 | a whitespace-only name passes `required` and fails the create validator |
| `Categories.UpdateValidatorAcceptsBlankName` | internal/catalog/models/category.go:114-124 | the update validator accepts a whitespace-only name that the record validator refuses |
| `CategoryApi.CreateCategory` | internal/catalog/api/category.go:89-136 | binding, validator, parent lookup when a parent is given; copies name, description and parent; applies IsActive/SortOrder only when supplied |
| `CategoryApi.CreatedCategoryIsValid` | internal/catalog/api/category.go:112-124 | a validated request whose parent is not the new record's own id gives a record that passes the record validator |
| `CategoryApi.UpdateCategory` | internal/catalog/api/category.go:138-200 | not found; validator; self-parent refused before the parent lookup; then the patch |
| `CategoryApi.UpdateNeverMakesRoot` | internal/catalog/api/category.go:174-189 | update can never clear a parent link; id, children and loaded parent are untouched |
| `CategoryApi.PatchCategoryFields` | internal/catalog/api/category.go:174-189 | the empty patch is the identity; supplied optional fields win; patching twice equals once |
| `CategoryApi.GuardedPatchKeepsCategoryValid` | internal/catalog/api/category.go:153-189 | an update passing the guards keeps a valid category valid, unless it brings a blank name |
| `CategoryApi.DeleteCategory` | internal/catalog/api/category.go:203-242 | children block first (with `child_count`), then products (with `product_count`); success iff both counts are 0 |
| `CategoryApi.MoveCategory` | internal/catalog/api/category.go:245-288 | not found; self-move refused; new parent must exist; the parent link becomes the requested one, none included |
| `CategoryApi.MoveUnderChildMakesCycle` | internal/catalog/api/category.go:245-288 | the move handler accepts moving a category under its own child; the moved category's parent is the child while the child's parent is still the category |
| `Products.ProductStatusesExactly` | internal/catalog/models/product.go:30-34 | three distinct status names, matched exactly and case-sensitively |
| `Products.IsValidProductStatus` | internal/catalog/models/product.go:71-78 | an accepted status has 6 to 12 characters; `ProductStatusesExactly` gives the three names |
| `Products.ValidateProduct` | internal/catalog/models/product.go:37-68 | passes iff non-blank name ≤ 200, non-blank SKU ≤ 50, price ≥ 0, description ≤ 1000, currency empty or 3 long |
| `Products.ZeroPriceAndNoCurrencyPass` | internal/catalog/models/product.go:54-65 | a price of 0 and an empty currency pass; a 4-letter currency fails |
| `Products.CreateProductRequestBindsMeaning` | internal/catalog/models/product.go:89-97 | a create request binds iff SKU and name are non-empty and the price is positive |
| `Products.ValidateCreateProductRequest` | internal/catalog/models/product.go:100-126 | passes iff non-blank name and SKU, price ≥ 0 and the length bounds hold; currency is never checked |
| `Products.ValidatorOrdersDiffer` | internal/catalog/models/product.go:100-115 | the request validator checks the SKU before name length, the record validator the other way |
| `Products.ValidateUpdateProductRequest` | internal/catalog/models/product.go:139-157 | passes iff a non-empty name is ≤ 200, description ≤ 1000, a supplied price ≥ 0, a supplied currency exactly 3 long |
| `ProductApi.CreateProduct` | internal/catalog/api/product.go:86-145 | validation before the SKU lookup; conflict iff the SKU exists; category must exist when given; empty currency becomes USD; IsActive only when supplied |
| `ProductApi.ZeroPriceOnlyThroughUpdate` | internal/catalog/api/product.go:184-186 | binding refuses a zero price on create, while an update can set one and the record stays valid |
| `ProductApi.UpdateProduct` | internal/catalog/api/product.go:147-207 | not found; validator; category lookup; then the patch of the supplied fields |
| `ProductApi.PatchProductKeepsIdentity` | internal/catalog/api/product.go:177-195 | id and SKU never change; the empty patch is the identity; patching twice equals once |
| `ProductApi.ValidatedPatchKeepsProductValid` | internal/catalog/api/product.go:163-195 | a validated patch keeps a valid product valid iff it brings no blank name |
| `BillingConfig.Validate` | internal/billing/config/config.go:42-84 | nil iff every check passes: ports in 1..65535, host/name/username set, 0 < default ≤ max, terms ≥ 0, max name length > 0 |
| `BillingConfig.FirstFailureDecides` | internal/billing/config/config.go:42-84 | checks run in order and the first failure decides the message: a bad server port is always the message; "client max name length must be positive" means every earlier check passed; "database host is required" appears iff the server port is good and the host empty |
| `BillingConfig.NegativePortMessage` | internal/billing/config/config.go:44-46 | a negative port is reported with its sign and magnitude; port -1 as "-1" |
| `BillingConfig.PaginationMessage` | internal/billing/config/config.go:69-71 | once the earlier checks pass, a default above a positive maximum is reported with both limits in decimal; 50 over 20 as an example |
| `BillingConfig.BoundaryValuesPass` | internal/billing/config/config.go:63-78 | zero payment terms and default == max pass; port 65535 passes and 65536 fails |
| `ApiConfig.ValidateConfigTable` | api/billing/internal/config/config_test.go:252-260 | `validateConfig` accepts iff port in 1..65535 and host non-empty; the test table's four cases |
| `ApiConfig.ValidateConfig` | api/billing/internal/config/config_test.go:252-260 | accepts iff the server port is in 1..65535 and the database host is non-empty |
| `ApiConfig.IsOriginAllowed` | api/billing/internal/config/config_test.go:262-269 | true iff some entry is "*" or equals the origin |
| `ApiConfig.WildcardAndEmpty` | api/billing/internal/config/config_test.go:262-269 | a "*" anywhere admits every origin; the empty list admits none |
| `ApiConfig.AdmitsGrows` | api/billing/internal/config/config_test.go:262-269 | adding entries never withdraws an admission |
| `ApiConfig.CorsTable` | api/billing/internal/config/config_test.go:219-237 | the three CORS cases of the test table |
| `ApiConfig.GetDsnIsSharedWithoutSchema` | api/billing/internal/config/config.go:102-105 | this DSN is the shared DSN with no schema, so it never has `search_path`; pool settings do not reach it |
| `ApiConfig.GetDsn` | api/billing/internal/config/config.go:102-105 | the DSN is the shared DSN of the same settings with no schema |
| `ApiConfig.GetDsnBasic` | api/billing/internal/config/config_test.go:124-136 | the basic configuration gives the expected string |
| `ApiConfig.GetDsnProduction` | api/billing/internal/config/config_test.go:137-149 | the SSL configuration gives the expected string |
| `Infrastructure.GetDsnExtendsBase` | internal/shared/infrastructure/database.go:24-34 | the base DSN is a prefix of the result; equal iff schema empty; otherwise followed by exactly " search_path=" + schema |
| `Infrastructure.GetDsn` | internal/shared/infrastructure/database.go:24-34 | the base DSN is a prefix of the result, and the whole result when the schema is empty |
| `Infrastructure.GetDsnIgnoresPoolSettings` | internal/shared/infrastructure/database.go:25-26 | pool sizes and timeouts do not affect the DSN |
| `Infrastructure.GetDsnExample` | internal/shared/infrastructure/database.go:25-26 | the settings of the billing API's basic DSN case (api/billing/internal/config/config_test.go:124-136) give the same six-pair string through the shared builder |
| `Infrastructure.GetDsnSchemaExample` | internal/shared/infrastructure/database.go:29-31 | the model's own instance: with schema "billing" the same settings gain " search_path=billing" |
| `MigrationCreate.IsValidMigrationName` | internal/billing-migration/runners/create.go:62-65 | true iff the name is non-empty and every character is an ASCII letter, digit or '_' |
| `MigrationCreate.MigrationNameExamples` | internal/billing-migration/runners/create.go:62-65 | "add_V2" passes; "", "a-b", "a b" and "../x" fail |
| `MigrationCreate.FileNamesShareTimestamp` | internal/billing-migration/runners/create.go:36-40 | both names start with the same 14-digit YYYYMMDDhhmmss stamp, which parses back to the clock reading; they end in .up.sql and .down.sql and differ |
| `MigrationCreate.FileNameParts` | internal/billing-migration/runners/create.go:39-40 | any `<ts>_<name>.<direction>.sql` splits back into the stamp, the "_", the name and the direction suffix |
| `MigrationCreate.FileNamePair` | internal/billing-migration/runners/create.go:39-40 | on one stamp the up name ends in ".up.sql" and the down name in ".down.sql", so the two names differ |
| `MigrationCreate.FileNameReadsBack` | internal/billing-migration/runners/create.go:39-40 | a file name splits back into timestamp, name and direction |
| `MigrationCreate.MigrationFileName` | internal/billing-migration/runners/create.go:39-40 | the name starts with the timestamp and is six characters longer than its three parts; `FileNameParts` splits it back |
| `MigrationCreate.JoinPath` | internal/billing-migration/runners/create.go:39-40 | an empty directory gives the bare file name; otherwise the directory, one "/" and the file name |
| `MigrationCreate.TemplateNamesMigration` | internal/billing-migration/runners/create.go:75-79 | every template opens by naming the migration and the direction |
| `MigrationCreate.MigrationTemplate` | internal/billing-migration/runners/create.go:75-96 | every template starts with the header that names the migration, the direction and the creation time |
| `MigrationCreate.UpTemplate` | internal/billing-migration/runners/create.go:81-89 | the up file asks for UP SQL with a CREATE TABLE example |
| `MigrationCreate.DownTemplate` | internal/billing-migration/runners/create.go:90-96 | the down file asks for DOWN SQL |
| `MigrationCreate.UndoHintOnlyInDown` | internal/billing-migration/runners/create.go:82-95 | only the down body follows its TODO line with the hint to undo the up migration |
| `MigrationCreate.CreateMigrationFile` | internal/billing-migration/runners/create.go:67-100 | the step writes one file, at exactly the path it is given; its content is the template that `UpTemplate` and `DownTemplate` describe |
| `MigrationCreate.CreateMigration` | internal/billing-migration/runners/create.go:21-56 | an invalid name aborts before anything is created; the directory, then the up file, then the down file, each only after the previous step succeeded |
| `MigrationCreate.PathsLieInDirectory` | internal/billing-migration/runners/create.go:39-40 | for a valid name both paths lie directly in the migrations directory and differ |

## Left out

- HTTP routing, JSON decoding and the exact text of binding errors. A body that fails binding is `InvalidBody`. The validator library's `email` grammar is not visible, so it is a parameter.
- Storage. Lookups, counts and the loaded row are parameters. Write failures (the 500 answers), soft-delete scoping, `Preload` and pagination are not modelled.
- GORM column defaults. GORM replaces a zero value on insert with the column default: `default:true` for `IsActive`, `'draft'` for status, `'USD'` for currency. The model shows the value the handler builds, not the one stored.
- Concurrency. The count-then-insert numbering is not atomic, so the model does not claim that invoice numbers are unique in storage. It proves only that numbers differ for different (date, count) pairs.
- `InvoiceApi.CreateInvoice`: the handler reads the clock twice, once for the count (line 99) and once for the number (line 100). The model uses one `today` for both, so a run that crosses midnight is not modelled.
- `CategoryApi.MoveCategory`: the self-move check compares with the id parsed from the URL (`ParseUint(id, 10, 32)`). The model compares with the loaded row's id. The two agree for a canonical decimal path parameter.
- `MigrationCreate.JoinPath`: `filepath.Join` also cleans the directory path lexically. The model joins with a single '/', which matches when the configured directory is already clean.
- `MigrationCreate.CreateMigration`: a file-system step either fails or succeeds whole. A failed write leaves no partial file in the effect list, and the Go error text inside `log.Fatal` is not reproduced. The printed summary lines are stdout output; the model returns the two paths.
- `InvoiceRules.GenerateLongString`: negative lengths are not modelled. Go takes an `int`, and `make` panics on a negative length; the only caller passes 501.
- Floating point. Amounts and prices are `real`; only their comparisons with 0 matter. `FormatPrice` (`%.2f`) is not modelled.
- The clock. `time.Now` is a parameter. `time.Time` is an integer instant with 0 as Go's zero time. Calendar readings are `Date`/`DateTime` records.
- String lengths. Go `len` is the UTF-8 byte count (`Text.ByteLen`). The binding tags' `min`/`max` count characters. `strings.TrimSpace` blankness is Go's `unicode.IsSpace` set. Case folding of `strings.ToUpper` is modelled only for ASCII; it is applied only to "up" and "down".
- Configuration loading (viper), data-only config types, database connection setup, the other migration runners, the health server and the test scaffolding (e2e and integration tests, test utilities, JSON test data) are I/O or library glue.
- The CORS origin loop in `cmd/billing-api/main.go` is the same rule as `isOriginAllowed` and is modelled once.
- `api/billing/internal/models/invoice.go` is not part of this model. Its request types are assumed to carry the same tags as `internal/billing/models/invoice.go`.
- `internal/billing/models/client.go` is not part of this model. The handlers in `internal/billing/api/client.go` and the helpers in `internal/billing/models/client_test.go` use its types. Its `Client` (with `ID uint`) and its request types are assumed to carry the fields and tags of `api/billing/internal/models/client.go`. `ClientApi.CreateClient`, `ClientApi.UpdateClient`, `ClientApi.EmptyUpdateIsIdentity` and `ClientApi.PatchKeepsCreateBounds` rely on those tags. `ClientRules.IdRune` and the wrap-around in the finding below rely on `ID` being a 64-bit `uint`.

## Findings

| source | as written | input that shows it | evidently intended | confidence | as-written member | corrected member |
|---|---|---|---|---|---|---|
| internal/billing/models/client_test.go:185 | `string(rune(c.ID + '0'))` turns the ID into the single character with code ID + 48 | ID 10 renders as ':' (ID 2^32 wraps to '0', like ID 0) | the ID in decimal, "Client{ID: 10, ...}" | high; not executed | `ClientRules.LargeIdsAreNotDecimal` | `ClientRules.ClientStringDecimalFaithful` |
