# IR Gadgets service catalog: a verified model of its core

This project models the logic at the centre of the IR Gadgets site, a small catalog
and contact-form application:

- **Catalog filter** (`catalog.dfy`). On the Products page a category button and a
  free-text search pick which products are shown.
- **Error responses** (`error_handler.dfy`). The API's last-resort error middleware
  picks a status and a JSON body for an error, and a separate handler answers 404
  for an unmatched route.
- **Records and insert validation** (`schema.dfy`). These are the `products` and
  `inquiries` rows, and the insert schemas that accept or reject a JSON request
  body, with their issues in field order.
- **Route handlers and seeding** (`routes.dfy`, `seed.dfy`, `storage.dfy`). The
  routes are the product list, the product lookup by id and the inquiry creation.
  The store is seeded at server start and by a deployment script. The storage layer
  itself is not part of this model. It is stood in for by a `Store` class: two
  tables in insertion order, each with a serial id counter.

The store's own operations are methods on `Store`. The route handlers and the two
seeding runs are methods that take a `Store`. Each method's contract ties the new
state to a function on the `Tables` value (`AddProduct`, `AddInquiry`, `InsertAll`, `SeedRun`),
and the lemmas prove what the application relies on about those functions. The
read-only handlers and the error middleware are pure functions of their inputs.

Where the storage layer, the clock or the environment enter, they are parameters:

- the insert time is `now`;
- a store failure is `readFails`, `storageFails` or `fault`;
- `NODE_ENV === "production"` is `production`.

## Model

| member | source | states |
|---|---|---|
| Catalog.Includes | client/src/pages/Products.tsx:18-19 | `hay.includes(needle)` holds exactly when the needle occurs in the text at some position |
| Catalog.FilterList | client/src/pages/Products.tsx:16-21 | every shown product is an input product that passes the category and search tests; each passing product appears exactly as often as in the input (duplicates kept) and no other product appears |
| Catalog.FilteredProducts | client/src/pages/Products.tsx:16 | nothing is shown while the list is still loading; once loaded the shown list is the filtered list |
| Catalog.FilterIsSubsequence | client/src/pages/Products.tsx:16-21 | the shown products keep their original relative order |
| Catalog.ShownMeaning | client/src/pages/Products.tsx:17-20 | shown iff in the list, with category equal to the filter (case-sensitive) unless the filter is "all", and lower(search) a substring of lower(name) or lower(description) |
| Catalog.EmptySearchMatches | client/src/pages/Products.tsx:18-19 | the empty search matches every product |
| Catalog.InitialStateShowsAll | client/src/pages/Products.tsx:13-14 | in the initial state (filter "all", search "") the whole list is shown, unchanged |
| Catalog.AllFilterIgnoresCategory | client/src/pages/Products.tsx:17 | with filter "all" only the search decides, whatever the category |
| Catalog.SearchIgnoresCase | client/src/pages/Products.tsx:18-19 | an upper-cased search shows exactly the same products |
| Catalog.LowerOfUpper | client/src/pages/Products.tsx:18 | lower-casing erases the case distinctions that upper-casing introduces |
| ErrorHandler.ResolveStatus | server/middleware/errorHandler.ts:17 | `status` if truthy, else `statusCode` if truthy, else 500; never 0 |
| ErrorHandler.ResolveMessage | server/middleware/errorHandler.ts:18 | the error's message unless absent or empty, else "Internal Server Error"; never empty |
| ErrorHandler.FieldErrors | server/middleware/errorHandler.ts:35-38 | one entry per issue, in order, with the path joined by "." and the issue's message |
| ErrorHandler.HandleError | server/middleware/errorHandler.ts:11-55 | `success` is always false; a Zod error gives 400 with the mapped issues whatever its status fields; in production a 500 gives the fixed "Internal server error"; otherwise the resolved status and message; the stack is sent only outside production and never for validation errors |
| ErrorHandler.ProductionHidesInternalErrors | server/middleware/errorHandler.ts:42-48 | in production no 500 reply carries the error's own message or stack |
| ErrorHandler.ProductionOnlyRedacts | server/middleware/errorHandler.ts:43-54 | production and development agree on status and validation entries, and on the message whenever the status is not 500 |
| ErrorHandler.NotFound | server/middleware/errorHandler.ts:58-63 | 404, `success` false, message "Route METHOD URL not found", no other fields |
| ErrorHandler.NotFoundMessageIdentifiesRoute | server/middleware/errorHandler.ts:61 | an extra property, not promised by the handler: for methods without spaces, equal 404 messages imply equal method and URL |
| Schema.StoredProductPreservesInput | shared/schema.ts:8-16 | a stored product is its insert input plus the assigned id, with `createdAt` defaulting to the insert time; every submitted field is kept |
| Schema.StoredInquiryPreservesInput | shared/schema.ts:18-25 | the same for inquiries, `serviceOfInterest` included |
| Schema.RuleIssue | shared/schema.ts:27-28 | a field raises an issue exactly when it fails its column's rule, and the issue's path is that field's key |
| Schema.FieldIssues | shared/schema.ts:27-28 | the issue list is empty exactly when every column's rule holds, and it is never longer than the list of columns |
| Schema.FailingPositionsExact | shared/schema.ts:27-28 | the failing positions are exactly the columns whose rule fails, each listed once, in increasing order |
| Schema.IssuesAtFailingPositions | shared/schema.ts:27-28 | from any column on, the issues are, one for one, those raised by the failing columns from there on |
| Schema.IssuesAreFailingRulesInOrder | shared/schema.ts:27-28 | the issue list holds one issue per failing column and no other, in shape order: its i-th issue is the one the i-th failing column raises |
| Schema.IssuesFollowRuleOrder | shared/schema.ts:27-28 | every issue comes from a failing column, and the first issue comes from the first failing column in shape order |
| Schema.BodyIssues | shared/schema.ts:27-28 | a body that is not an object raises exactly one issue, at the empty path |
| Schema.ProductIssuesIffRejected | shared/schema.ts:27 | the product issue list is empty exactly when name, description, price, category and imageUrl are present strings and no `createdAt` is sent |
| Schema.InquiryIssuesIffRejected | shared/schema.ts:28 | the inquiry issue list is empty exactly when name, email and message are present strings, serviceOfInterest is absent, null or a string, and no `createdAt` is sent |
| Schema.ParseInsertProduct | shared/schema.ts:27 | succeeds exactly on accepted bodies; otherwise fails with the full, non-empty issue list |
| Schema.ParseInsertInquiry | shared/schema.ts:28 | succeeds exactly on accepted bodies; otherwise fails with the full, non-empty issue list |
| Schema.ProductBodyRoundTrip | shared/schema.ts:27 | every product input without `createdAt` comes back unchanged from its JSON body, whatever its strings (category is free text) |
| Schema.InquiryBodyRoundTrip | shared/schema.ts:28 | every inquiry input without `createdAt` comes back unchanged from its JSON body |
| Schema.UnknownKeyIgnoredByRules | shared/schema.ts:27-28 | a key that names no column does not change the issue list |
| Schema.UnknownKeyIgnoredByInquiry | shared/schema.ts:28 | a key that is no inquiry column does not change the parse result |
| Schema.UnknownKeyIgnoredByProduct | shared/schema.ts:27 | a key that is no product column does not change the parse result |
| Schema.ClientIdIgnored | shared/schema.ts:27-28 | `id` is omitted from both insert shapes, so a client-sent id changes nothing |
| Schema.SplitJoinPath | server/middleware/errorHandler.ts:36 | a non-empty path whose segments hold no "." is recovered from its joined field |
| Schema.ProductSchemaAcceptsComplete | server/__tests__/schemas.test.ts:6-17 | a complete product body is accepted, for any category string |
| Schema.ProductSchemaRejectsMissing | server/__tests__/schemas.test.ts:19-27 | a product with only a name is rejected, and the first issue is "Required" at `description` |
| Schema.InquirySchemaCases | server/__tests__/schemas.test.ts:30-65 | inquiries with or without serviceOfInterest, and with an email that is not an address, are accepted |
| Storage.FindProduct | server/routes.ts:62 | a found product is in the list and has the requested id; absent exactly when no product has it |
| Storage.AddProductSound | server/__tests__/storage.test.ts:33-46 | `createProduct` keeps the tables valid, appends the stored row under an id no earlier row has, and leaves the inquiries alone |
| Storage.AddProductLookup | server/__tests__/storage.test.ts:19-26 | after an insert the new id finds the new row and every other id finds what it found before |
| Storage.AddInquirySound | server/__tests__/storage.test.ts:50-63 | `createInquiry` keeps the tables valid, appends the stored row under a fresh id, and leaves the products alone |
| Storage.LookupMatchesIssuedIds | server/__tests__/storage.test.ts:28-31 | an id the counter never issued is absent, and an issued id finds its own row |
| Storage.InsertAllAppends | server/seed.ts:63-66 | inserting a list appends exactly its stored rows under consecutive fresh ids and keeps the tables valid |
| Storage.SeedEmptyStoresSeeds | server/seed.ts:25-66 | on an empty table a run without failure stores exactly the seeds, in order and field for field, and leaves the inquiries alone |
| Storage.SeedNonEmptyNoop | server/seed.ts:16-21 | on a non-empty table a run changes nothing |
| Storage.SeedIdempotent | server/seed.ts:18-21 | after a completed run, a second run changes nothing, whatever happens in it |
| Storage.SeedPartialFailureSticks | server/seed.ts:71-74 | a run that fails after k inserts keeps those k rows and reports failure, and no later run adds the rest |
| Storage.Store.constructor | server/routes.ts:3 | a new store has empty tables and both counters at 1 |
| Storage.Store.GetProducts | server/routes.ts:57 | all rows in insertion order |
| Storage.Store.GetProduct | server/routes.ts:62 | the lookup by id |
| Storage.Store.CreateProduct | server/routes.ts:10-16 | the new state is `AddProduct` of the old one and the returned row is the stored one; validity is kept |
| Storage.Store.CreateInquiry | server/routes.ts:72 | the new state is `AddInquiry` of the old one and the returned row is the stored one; validity is kept |
| Routes.ListProductsReply | server/routes.ts:56-59 | 200 with exactly the store's products, in order |
| Routes.GetProductReply | server/routes.ts:61-67 | 404 "Product not found" exactly when the id is not a number or no product has it; otherwise 200 with a stored product of that id |
| Routes.GetProductByIssuedId | server/routes.ts:61-67 | on a valid store a never-issued id answers 404 and a stored product's id answers 200 with that product |
| Routes.CreatedProductListedAndFound | server/routes.ts:56-67 | after `createProduct` the list ends with the new row, its id answers 200 with it, and other ids answer as before |
| Routes.FirstIssueReply | server/routes.ts:75-79 | 400 with the first issue's message, and as field that issue's path joined by "."; the field gives the path back when the path is non-empty and free of dots (the empty path of a non-object body gives "") |
| Routes.InvalidInquiryRejected | server/routes.ts:69-80 | an invalid body answers 400 naming the first failing field in shape order ("" for a non-object body) and leaves the store unchanged |
| Routes.ValidInquiryCreated | server/routes.ts:70-73 | a valid body answers 201 with a new inquiry appended under a fresh id, with name, email, message and service as submitted, products untouched |
| Routes.RepeatedPostsEachStored | server/routes.ts:69-73 | two identical posts store two inquiries with distinct ids |
| Routes.StorageFailureRethrown | server/routes.ts:81 | a store failure escapes instead of becoming a 400, and nothing is stored |
| Routes.HandleListProducts | server/routes.ts:56-59 | a failing read escapes the handler (no `try`); otherwise it answers `ListProductsReply` of the store's products |
| Routes.HandleGetProduct | server/routes.ts:61-67 | a failing read escapes the handler whatever the id (no `try`); otherwise it answers `GetProductReply` of the store's products |
| Routes.HandleCreateInquiry | server/routes.ts:69-83 | the new store and the outcome are `CreateInquiryRun` of the old store; validity is kept |
| Routes.CreateFive | server/routes.ts:10-44 | on an empty store, the five creates in order, stopping at the first failing one, leave the store and outcome that `SeedRun` gives |
| Routes.SeedFive | server/routes.ts:7-46 | for five seeds, a failing read throws, a non-empty store is left alone, and the new store and outcome are `SeedRun` of the old store |
| Routes.SeedDatabase | server/routes.ts:7-46 | the new store and outcome are `SeedRun` of the old store over the five catalog entries |
| Routes.SeedDatabaseOnEmpty | server/routes.ts:8-44 | on an empty store exactly the five seeds are stored, field for field, and a second run changes nothing |
| Seed.InsertEach | server/seed.ts:63-66 | the loop inserts the seeds in order, stopping at the first failing insert, which is `SeedRun` on an empty table |
| Seed.InitializeDatabase | server/seed.ts:11-75 | the new store and outcome are `SeedRun` of the old store over `seedProducts` |
| Seed.SeedListsAgree | server/seed.ts:25-61 | the script's seed list equals the start-up seed list field for field, so both runs leave the same store |
| Seed.SeedCategoriesAreListed | server/seed.ts:25-61 | every seed product's category is one of the page's category buttons other than "all" |
| Seed.InitializeOnEmpty | server/seed.ts:63-69 | on an empty table a run without failure leaves exactly five products with consecutive fresh ids, and a second run changes nothing |

## Left out

- Rendering, the filter buttons' wiring and the loading skeleton on the Products page are UI. The model keeps only `filteredProducts` and the `categories` list.
- Case mapping covers ASCII only. `toLowerCase` on other Unicode characters is not modelled.
- ErrorHandler.ResolveStatus: NaN is not modelled, although NaN is falsy and would fall through to `statusCode`. Express's own check that a status is a valid HTTP code is not modelled either.
- The log lines of the error middleware, of the start-up seeding and of the seed script are left out. So are `process.exit` and the `console.error` that catches a start-up seeding failure.
- The storage layer (`server/storage.ts`), the database connection and the SQL dialects are not part of this model. The store is an in-memory pair of tables with serial counters. The database's own failures are parameters: `readFails` for the two GET routes, `storageFails` for the inquiry route, and `fault` for the seeding runs.
- The SQLite schema created in development has no `created_at` column. Only the schema declared in `shared/schema.ts` is modelled.
- Timestamps are opaque integers. The insert time is one `now` per call, so the rows of one seeding run share it.
- Zod's messages are fixed texts: "Required" for a missing field, and "Expected T, received U" for a wrong type.
- A JSON body cannot carry a `Date`, so a `createdAt` key in a request body is always rejected. Non-integer JSON numbers are not modelled.
- The inquiry route's validator lives in a shared routes file that is not part of this model. It is taken to be `insertInquirySchema`.
- `Number(req.params.id)` is not modelled as a parse. The handler gets `Some(n)` for an integer id and `None` for anything else, and `None` matches no row.
- Seeding is modelled as running to completion before any request. Interleaving of a request with the asynchronous start-up seeding is not modelled.
- The record invariant that the text fields are non-empty is not what the code enforces. The insert schemas accept empty strings, and the model follows the code.
