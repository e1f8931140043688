# VosLive vendor portal: a Dafny model of its decision logic

VosLive is a vendor portal. An Express backend serves a vendor's pending
purchase orders and draft purchase orders from an MSSQL database, logs
vendors in and validates request bodies. A React page shows the pending
orders with sorting and paging. Three maintenance scripts back up the Vendor
table and build the schema. This project models that logic as pure Dafny
functions over immutable data and proves what it promises. Covered:

- the pending-orders report: vendor check, offset, the sort allow-list and
  direction, the two-branch row predicate and its count mirror, the paging
  envelope, and the row formatter;
- the five-way purchase-order-draft switch and its per-category item codes and
  descriptions;
- error classification and rendering in the error middleware;
- the login chain and the vendor-record remapping;
- the validation rule sets and their error aggregation;
- the pending-orders page's state transitions and its five-button page window;
- the string encoders and splitters of the three scripts;
- the server's CORS origin predicate, its database test endpoint and its 404
  route.

The database engine, the driver and the browser are not modelled. A query is
evaluated over an abstract table (a `seq` of joined lines), or its outcome is
a parameter. Each module corresponds to one source file:

- `PendingQuery`, `PendingFormat` and `PendingOrders` model the report route.
- `PurchaseOrderDraft`, `ErrorHandler`, `Users` and `Validation` model the
  draft route, the error middleware, the users route and the validation
  middleware.
- `PendingOrdersPage` models the frontend page.
- `BackupDatabase`, `InitDb`, `ProductionDbSetup` and `Server` model the three
  scripts and `server.js`.
- `SqlScript` is the regular-expression split that both setup scripts use.
- `Wrappers`, `JsText`, `JsValue` and `Ordering` model the JavaScript
  built-ins and the SQL `ORDER BY` that the rest relies on.

## Model

| member | source | states |
|---|---|---|
| PendingQuery.PendingQty | backend/routes/pendingOrders.js:50 | Pending is defined exactly when all three quantities are non-NULL, and is then order minus received minus penalty |
| PendingQuery.Project | backend/routes/pendingOrders.js:35-65 | a projected row holds exactly the ten numeric output columns; Pending is the pending quantity, and Received, order − QC − (order − received), comes to received − QC |
| PendingQuery.BranchesPartition | backend/routes/pendingOrders.js:66-71 | a line satisfies one of the two UNION branches iff it qualifies (pending > 0, or pending = 0 with QC > 0; status neither Force nor Auto Closed; master not Draft; the vendor's own), and never both |
| PendingQuery.FilterA | backend/routes/pendingOrders.js:66-71 | every line the first branch keeps satisfies its WHERE clause |
| PendingQuery.FilterB | backend/routes/pendingOrders.js:103-108 | every line the second branch keeps satisfies its WHERE clause |
| PendingQuery.UnionIsQualifying | backend/routes/pendingOrders.js:33-109 | the UNION ALL of the two branches is, as a multiset, exactly the qualifying lines of the table |
| PendingQuery.QualifyingMembers | backend/routes/pendingOrders.js:66-108 | a line is selected iff it is in the table and qualifies |
| PendingQuery.MapProject | backend/routes/pendingOrders.js:35-65 | projection is row by row, in order |
| PendingQuery.ResolveSortColumn | backend/routes/pendingOrders.js:114-125 | each of the eight allow-listed names resolves to its own column, and every other own name (one not inherited from `Object.prototype`) resolves to `[Order #]` without an error |
| PendingQuery.AscendingSpellings | backend/routes/pendingOrders.js:126 | the direction is ASC exactly for the three-letter spellings whose upper case is "ASC" (any case, and the long s); otherwise DESC |
| PendingQuery.DeliveryDateSortsAsText | backend/routes/pendingOrders.js:121 | sorting by DeliveryDate orders the dd/MM/yy text, so 02/01/25 sorts before 15/12/24 |
| PendingQuery.Window | backend/routes/pendingOrders.js:131 | OFFSET/FETCH returns min(fetch, rows left) rows, taken from the offset on, in order |
| PendingQuery.RunDataSucceedsIff | backend/routes/pendingOrders.js:128-183 | the data query succeeds exactly when the vendor id is a safe integer (the driver binds a number only within ±(2^53 − 1)), OFFSET is a number from 0 to the `bigint` maximum, and FETCH is a number from 1 to the `bigint` maximum; a NaN, an out-of-range row count, a negative OFFSET and a FETCH below 1 all fail |
| PendingQuery.CountIsQualifying | backend/routes/pendingOrders.js:134-178 | the count query succeeds exactly when the vendor id is a safe integer and the vendor has at most 2^31 − 1 qualifying lines (COUNT(*) is an `int`), and it then returns the number of those lines |
| PendingQuery.DataRowsQualify | backend/routes/pendingOrders.js:33-131 | every returned row is the projection of a qualifying line, there are at most FETCH of them, and they are sorted by the ORDER BY column over the whole union |
| PendingQuery.WindowMember | backend/routes/pendingOrders.js:131 | a row of the window is a row of the ordered result |
| PendingQuery.UnionRowMember | backend/routes/pendingOrders.js:72-73 | a row of the UNION is the projection of a qualifying line |
| PendingQuery.PagesGloballyOrdered | backend/routes/pendingOrders.js:128-131 | rows on an earlier page never sort after rows on a later page, because ORDER BY and OFFSET apply to the whole union |
| PendingQuery.WindowsOrdered | backend/routes/pendingOrders.js:128-131 | two windows at least a page apart are ordered with respect to each other |
| PendingQuery.PageOffsetsApart | backend/routes/pendingOrders.js:30 | the offsets of two different pages are at least one page apart |
| PendingQuery.PagesArePrefix | backend/routes/pendingOrders.js:131 | the first k pages laid end to end are exactly the first k·limit rows |
| PendingQuery.CeilDiv | backend/routes/pendingOrders.js:187 | `Math.ceil(n / d)` is the least r with r·d ≥ n |
| PendingQuery.AllPagesCoverResult | backend/routes/pendingOrders.js:131 | pages 1 to ceil(total/limit) together return every row exactly once, in order |
| PendingFormat.FormatDate | backend/routes/pendingOrders.js:195-212 | a date becomes text iff it is a valid date with year > 1900; the text is the part of the ISO timestamp before 'T'; an invalid one becomes null |
| PendingFormat.FormatDateKeepsDay | backend/routes/pendingOrders.js:198 | an ISO timestamp is cut down to its YYYY-MM-DD day |
| PendingFormat.CoerceNum | backend/routes/pendingOrders.js:215-219 | null and undefined are left alone, a number is kept, and an unparseable value becomes 0 |
| PendingFormat.CoerceNums | backend/routes/pendingOrders.js:215-219 | every numeric column present is coerced, and no column is added or removed |
| PendingFormat.FormatRowFacts | backend/routes/pendingOrders.js:190-222 | after formatting no number is NaN, every number is kept, and all other fields pass through unchanged |
| PendingFormat.CoerceNumIdempotent | backend/routes/pendingOrders.js:217 | coercing twice is coercing once |
| PendingFormat.NullStaysNull | backend/routes/pendingOrders.js:216 | a NULL numeric column stays null and does not become 0 |
| PendingFormat.MapFormat | backend/routes/pendingOrders.js:190 | formatting is row by row, in order |
| PendingFormat.MapFormatAppend | backend/routes/pendingOrders.js:190 | formatting distributes over concatenation |
| PendingOrders.Offset | backend/routes/pendingOrders.js:30 | the offset is a number exactly when both page and limit parse |
| PendingOrders.MissingVendorRejected | backend/routes/pendingOrders.js:22-27 | a missing or empty vendorId gives the 400 "Vendor ID is required", and no query runs |
| PendingOrders.OversizedLimitFails | backend/routes/pendingOrders.js:131 | a limit of 2^63, one past the `bigint` maximum, answers 500 although page, limit and vendor id all parse |
| PendingOrders.OffsetSign | backend/routes/pendingOrders.js:30 | with a positive limit the offset is non-negative exactly from page 1 on |
| PendingOrders.HandleSucceedsIff | backend/routes/pendingOrders.js:6-249 | the handler answers with a page exactly for answered requests: the vendor id is present and a safe integer; page ≥ 1; 1 ≤ limit ≤ the `bigint` maximum; (page − 1)·limit ≤ the `bigint` maximum; and the vendor has at most 2^31 − 1 qualifying lines. With a vendor it otherwise answers 500 |
| PendingOrders.PageIffDataSucceeds | backend/routes/pendingOrders.js:180-184 | with a vendor present, the handler answers with a page iff both the data query and the count query succeed, and otherwise with the 500 |
| PendingOrders.PlanSucceedsIff | backend/routes/pendingOrders.js:128-131 | the data query the handler builds succeeds iff the request is accepted: a safe-integer vendor id, and a page and limit whose OFFSET and FETCH fit a `bigint` |
| PendingOrders.QuerySucceedsIff | backend/routes/pendingOrders.js:131 | with the handler's offset, the query succeeds iff the vendor parses to a safe integer, page ≥ 1, 1 ≤ limit ≤ the `bigint` maximum and (page − 1)·limit ≤ the `bigint` maximum |
| PendingOrders.PageContents | backend/routes/pendingOrders.js:225-234 | on success: currentPage and limit echo the parsed parameters; totalRecords is the vendor's qualifying count; totalPages is ceil(total/limit); hasNextPage ⇔ page < totalPages; hasPrevPage ⇔ page > 1; the data is the formatted window of the ordered union |
| PendingOrders.OffsetIsPageStart | backend/routes/pendingOrders.js:30 | the offset is (page − 1)·limit |
| PendingOrders.SortingEchoesRequest | backend/routes/pendingOrders.js:235-238 | `sorting` echoes the raw sortBy and sortOrder (after defaults), not the resolved column or direction |
| PendingOrders.UnknownSortDefaults | backend/routes/pendingOrders.js:125 | an unknown sortBy that is an own name (not inherited from `Object.prototype`) builds the same ORDER BY as the default OrderNo |
| PendingOrders.BrowsingAllPagesCoversResult | backend/routes/pendingOrders.js:128-131 | corrected: with one fixed order of tied rows for every page request, as the model's `Handle` uses, requesting pages 1 to totalPages in turn returns every qualifying row of the vendor exactly once, in that order |
| PendingOrders.BrowsingCoversEngineOrder | backend/routes/pendingOrders.js:128-131 | as written, when no two different rows of the vendor share the sort key: whatever sorted order the engine picks, pages 1 to totalPages return every qualifying row exactly once, in that order |
| PendingQuery.TiedPagesCanRepeat | backend/routes/pendingOrders.js:128-131 | as written: two rows tied on the sort key have two valid orders, and reading page 1 from one and page 2 from the other, one row per page, shows the first row twice and the second never |
| PendingQuery.ConcatMap | backend/routes/pendingOrders.js:131 | when every page j up to k shows part j formatted row by row, pages 1 to k together show the parts in order, formatted the same way |
| PendingQuery.PagesIsConcat | backend/routes/pendingOrders.js:30 | the windows at offsets (j − 1)·limit for j = 1 .. k, laid end to end, are the first k pages |
| PurchaseOrderDraft.ParseCategory | backend/routes/purchaseOrderDraft.js:8-113 | an absent category is Material; a given one is accepted iff it is one of the five names, and it then names the branch taken |
| PurchaseOrderDraft.CategoryNameRoundTrip | backend/routes/purchaseOrderDraft.js:16-112 | each category's name selects that category's branch |
| PurchaseOrderDraft.Values | backend/routes/purchaseOrderDraft.js:19 | the operands of a concatenation are read in order |
| PurchaseOrderDraft.SqlConcat | backend/routes/purchaseOrderDraft.js:19 | nvarchar `+` is NULL exactly when some operand is NULL |
| PurchaseOrderDraft.ItemCodes | backend/routes/purchaseOrderDraft.js:19-76 | ItemCode is item-colour-grade (Material), item-finish (Preps), item-colour (Accessories and Packaging), item-material-colour-finish (Finish Product) |
| PurchaseOrderDraft.Descriptions | backend/routes/purchaseOrderDraft.js:20-80 | Description is the product name, except for Finish Product, which joins four names with "/ " |
| PurchaseOrderDraft.DropLeadingSpaces | backend/routes/purchaseOrderDraft.js:116 | removes exactly the leading blanks of the bound vendor text |
| PurchaseOrderDraft.DropTrailingSpaces | backend/routes/purchaseOrderDraft.js:116 | removes exactly the trailing blanks of the bound vendor text |
| PurchaseOrderDraft.SqlTextToInt | backend/routes/purchaseOrderDraft.js:116 | the engine's conversion of the text parameter to int yields only 32-bit values, and a text that is blank, or a sign alone, once its surrounding spaces are dropped converts to 0 |
| PurchaseOrderDraft.SqlTextToIntOfDecimal | backend/routes/purchaseOrderDraft.js:116 | the decimal text of any 32-bit integer converts back to it |
| PurchaseOrderDraft.DraftsOf | backend/routes/purchaseOrderDraft.js:27-107 | a line is selected iff it belongs to the category's family, its order is a Draft and it belongs to the vendor |
| PurchaseOrderDraft.MapDraftRow | backend/routes/purchaseOrderDraft.js:18-20 | the SELECT list is applied row by row, in order |
| PurchaseOrderDraft.DraftVendorCheckedFirst | backend/routes/purchaseOrderDraft.js:10-12 | a missing or empty vendorId is a 400 before the category is looked at |
| PurchaseOrderDraft.UnknownCategoryRejected | backend/routes/purchaseOrderDraft.js:112-113 | any category outside the five, the empty text included, is the 400 "Invalid category", and no query runs |
| PurchaseOrderDraft.AbsentCategoryIsMaterial | backend/routes/purchaseOrderDraft.js:8 | an absent category behaves exactly like "Material" |
| PurchaseOrderDraft.HandleDraftSucceedsIff | backend/routes/purchaseOrderDraft.js:10-125 | rows come back iff the vendor is present and converts to int and the category is one of the five (or absent); a vendor id of spaces or a sign alone converts to vendor 0 |
| PurchaseOrderDraft.DraftContents | backend/routes/purchaseOrderDraft.js:116-125 | on success: count equals the number of rows; category is echoed; the rows are, as a multiset, the vendor's draft lines of the category; they are in descending OrderNo order; every such line appears |
| PurchaseOrderDraft.DraftRowsQualify | backend/routes/purchaseOrderDraft.js:27-109 | every returned row is the row of a draft line of the vendor in that category |
| ErrorHandler.AppError | backend/middleware/errorHandler.js:2-11 | an AppError carries its message and status code, is operational by default, and has the status text computed from the code |
| ErrorHandler.AppErrorStatus | backend/middleware/errorHandler.js:7 | for a three-digit code, status is "fail" iff 400 ≤ code < 500, and otherwise "error" |
| ErrorHandler.NegativeStatusIsError | backend/middleware/errorHandler.js:7 | a negative code prints with a leading '-', so its status is "error" |
| ErrorHandler.HandleDatabaseError | backend/middleware/errorHandler.js:21-47 | the result is always an operational AppError |
| ErrorHandler.DatabaseErrorTable | backend/middleware/errorHandler.js:22-46 | EREQUEST→400, ELOGIN→500, ETIMEOUT→503, ECONNRESET→503; otherwise "duplicate key"→409, then "foreign key"→400, else 500 "Database operation failed" |
| ErrorHandler.CodeBeatsMessage | backend/middleware/errorHandler.js:26-44 | once one of the four codes is present, the message never changes the outcome |
| ErrorHandler.HandleValidationError | backend/middleware/errorHandler.js:50-53 | whatever the error carried: message "Invalid input data", status code 400, status "fail", operational, and no database code or number kept |
| ErrorHandler.HandleCastError | backend/middleware/errorHandler.js:56-59 | whatever the error carried: message "Invalid data format", status code 400, status "fail", operational, and no database code or number kept |
| ErrorHandler.SendErrorProd | backend/middleware/errorHandler.js:74-94 | an operational error is sent with its own status, status text and message; any other is sent as 500 "error" "Something went wrong!"; no details are sent |
| ErrorHandler.WithDefaults | backend/middleware/errorHandler.js:98-99 | a missing or zero status code becomes 500, a missing or empty status becomes "error", and set values are kept |
| ErrorHandler.Classify | backend/middleware/errorHandler.js:104-114 | the production classification always yields a status code and a status |
| ErrorHandler.DevelopmentRendering | backend/middleware/errorHandler.js:98-102 | in development the error is rendered as it is, with details, and with 500 and "error" standing in for missing values |
| ErrorHandler.ProductionDatabaseError | backend/middleware/errorHandler.js:108-109 | in production an error with a code starting with 'E' (or with a number) is rendered from the database table, whatever its name or operational flag |
| ErrorHandler.ProductionNamedErrors | backend/middleware/errorHandler.js:110-113 | in production a non-database ValidationError or CastError is a 400 "fail" with its fixed message |
| ErrorHandler.ProductionUnclassified | backend/middleware/errorHandler.js:76-93 | in production an unclassified non-operational error is always 500 "Something went wrong!", whatever its code; an operational one keeps its own status and message |
| ErrorHandler.NotFound | backend/middleware/errorHandler.js:121-124 | the 404 error is operational with status code 404 |
| ErrorHandler.NotFoundRendering | backend/middleware/errorHandler.js:121-124 | its message contains the original URL, and in production it is sent as a 404 "fail" |
| Users.Assign | backend/routes/users.js:78-87 | setting a key to undefined drops it from the JSON; setting it to a value stores that value; every other key is unchanged |
| Users.StripPasswords | backend/routes/users.js:75 | the rest object has neither Password nor password and keeps every other key and value |
| Users.MissingCredentialsFirst | backend/routes/users.js:12-18 | a falsy BusinessEmail or password is a 400 whatever the lookup would return |
| Users.LoginChain | backend/routes/users.js:33-70 | no record is a 401 "not found"; an inactive record is a 401; a password mismatch is a 401; login succeeds iff the first record is active and its password equals the one sent |
| Users.InactiveBeforePassword | backend/routes/users.js:52-70 | an inactive account with a wrong password gets the inactive error |
| Users.OnlyFirstRecord | backend/routes/users.js:41 | records after the first never change the outcome |
| Users.LoggedInIsMapped | backend/routes/users.js:89-93 | a successful login returns the mapped first record |
| Users.MapVendorFacts | backend/routes/users.js:75-87 | the mapped record has no password key; VendorName, ContactPerson, PhoneNumber and created_at take CompanyName, Ref_Name, BusinessPhone and Since; ID is ID, or else id when ID is falsy; every other column is kept |
| Users.MapVendorGet | backend/routes/users.js:78-87 | what the mapped record holds under any one key, in terms of the stripped record |
| Users.ListVendors | backend/routes/users.js:104-124 | a successful listing returns the rows with count equal to their number; a failed one returns the 500 with the error's message |
| Validation.ValidatorText | backend/middleware/validation.js:22-50 | validators see undefined and null as "" and a string as itself |
| Validation.ValidatorErrors | backend/middleware/validation.js:22-26 | each failing validator of a chain adds one error, in order, tagged with the field and its value; there are none iff every validator passes |
| Validation.ChainErrors | backend/middleware/validation.js:45-50 | an optional field that is undefined reports nothing; otherwise a chain is clean iff its validators all pass |
| Validation.RunChainsClean | backend/middleware/validation.js:5-6 | a rule set has no errors iff every chain is clean |
| Validation.RunChainsAppend | backend/middleware/validation.js:10-14 | the errors of each chain appear as one block, in chain order |
| Validation.RunChains1 | backend/middleware/validation.js:161-168 | a single-chain rule set reports that chain's errors |
| Validation.RunChains4 | backend/middleware/validation.js:56-85 | a four-chain rule set reports the chains' errors one block after another |
| Validation.RunChains5 | backend/middleware/validation.js:21-53 | a five-chain rule set reports the chains' errors one block after another |
| Validation.HandleValidationErrors | backend/middleware/validation.js:4-18 | with no errors the request continues; otherwise a 400 with exactly one {field, message, value} entry per error, in order |
| Validation.ValidateContinuesIff | backend/middleware/validation.js:4-18 | a rule set lets the request through iff every chain is clean, and otherwise reports all the errors |
| Validation.MatchesUsernameIff | backend/middleware/validation.js:25 | the username pattern accepts exactly non-empty texts of [A-Za-z0-9_] |
| Validation.LineHasIff | backend/middleware/validation.js:49 | a lookahead finds a class iff some character of the first line is in it |
| Validation.PasswordRulesIff | backend/middleware/validation.js:47-50 | the password chain accepts exactly texts of ≥ 8 characters whose first line has a lower-case letter, an upper-case letter, a digit and one of @$!%*?&, and whose first character is in the allowed class |
| Validation.UsernameRulesIff | backend/middleware/validation.js:22-26 | the username chain accepts exactly 3 to 50 word characters |
| Validation.ValidateUserIff | backend/middleware/validation.js:21-53 | validateUser passes iff the username is valid, the email is accepted, both names have 1 to 50 characters, and the password is absent or strong |
| Validation.ValidateUserUpdateIff | backend/middleware/validation.js:56-85 | validateUserUpdate passes iff every present field meets its rule; an absent field never fails; no password rule |
| Validation.ValidateProductIff | backend/middleware/validation.js:88-120 | validateProduct passes iff the name has 1 to 100 characters, the price is accepted, stock is an integer ≥ 0, a present description has ≤ 500 and a present category ≤ 50 characters |
| Validation.ValidateProductUpdateIff | backend/middleware/validation.js:123-158 | validateProductUpdate passes iff every present field meets its product rule |
| Validation.ProductRules | backend/middleware/validation.js:89-117 | what each single-validator product chain accepts |
| Validation.ValidateIdIff | backend/middleware/validation.js:161-168 | validateId passes iff the id parameter is an integer ≥ 1 |
| Validation.ValidateQueryIff | backend/middleware/validation.js:171-199 | validateQuery passes iff a present page is an integer ≥ 1, a present limit an integer in 1..100, a present search has ≤ 100 and a present category ≤ 50 characters |
| Validation.EmptyUpdatesPass | backend/middleware/validation.js:56-85 | an empty body or query passes every all-optional rule set |
| Validation.EmptyUserBody | backend/middleware/validation.js:21-53 | an empty user body fails five validators, reported in chain order with their messages |
| Validation.NameLengthBeforeTrim | backend/middleware/validation.js:33-37 | the name length is checked before trimming, so a name of blanks passes although it trims to "" |
| Validation.PasswordIgnoresTail | backend/middleware/validation.js:49 | the pattern has no end anchor: anything appended to a strong password keeps it strong |
| Validation.InFirstLineExtends | backend/middleware/validation.js:49 | a class found in the first line is still found after appending text |
| Validation.SecondLineIgnored | backend/middleware/validation.js:49 | classes that appear only after a line break do not count |
| Validation.IntTextOfDecimal | backend/middleware/validation.js:163 | isInt reads back the decimal text of every integer |
| Validation.IntTextShape | backend/middleware/validation.js:115 | isInt accepts exactly an optional sign followed by one or more digits |
| PendingOrdersPage.HandleSort | frontend/src/pages/PendingOrders.jsx:70-78 | sets the column and page 1 and changes nothing else but the direction |
| PendingOrdersPage.HandlePageChange | frontend/src/pages/PendingOrders.jsx:84-88 | either moves to the new page or leaves the state unchanged, and changes nothing but the page |
| PendingOrdersPage.HandleLimitChange | frontend/src/pages/PendingOrders.jsx:109-112 | sets the limit and page 1 and changes nothing else |
| PendingOrdersPage.SortToggles | frontend/src/pages/PendingOrders.jsx:70-78 | the current column flips ASC↔DESC (anything but ASC becomes ASC); a different column starts ASC; the page becomes 1 |
| PendingOrdersPage.SortTwiceRestores | frontend/src/pages/PendingOrders.jsx:71-72 | clicking the current header twice restores the direction, on page 1 |
| PendingOrdersPage.NewColumnTwiceIsDescending | frontend/src/pages/PendingOrders.jsx:71-75 | a new column clicked twice ends up DESC |
| PendingOrdersPage.HeadersAreAllowListed | frontend/src/pages/PendingOrders.jsx:168-196 | every sortable header names a column of the backend's allow-list |
| PendingOrdersPage.PageChangeIff | frontend/src/pages/PendingOrders.jsx:84-88 | the page changes to newPage iff 1 ≤ newPage ≤ totalPages; otherwise the state is unchanged |
| PendingOrdersPage.EdgeButtonsAreInert | frontend/src/pages/PendingOrders.jsx:290-330 | Previous on page 1 and Next on the last page change nothing; elsewhere they move one page |
| PendingOrdersPage.HandlersKeepPageInRange | frontend/src/pages/PendingOrders.jsx:70-112 | all three handlers keep the current page within 1..totalPages |
| PendingOrdersPage.FetchRequest | frontend/src/pages/PendingOrders.jsx:36-49 | a request is built iff the user is authenticated and has a truthy ID |
| PendingOrdersPage.ResultOf | frontend/src/pages/PendingOrders.jsx:52-56 | an `ok` response (any 2xx status) hands over its body; any other status becomes the error "Failed to fetch pending orders" |
| PendingOrdersPage.SettleAsWritten | frontend/src/pages/PendingOrders.jsx:56-66 | as written: loading ends; a failure sets the error; a success leaves an earlier error in place |
| PendingOrdersPage.Settle | frontend/src/pages/PendingOrders.jsx:56-66 | corrected: as written, except that a success clears the error |
| PendingOrdersPage.ResponseDefaults | frontend/src/pages/PendingOrders.jsx:59-61 | missing data gives []; missing or zero totalPages gives 1; missing totalRecords gives 0; paging and sorting state are untouched |
| PendingOrdersPage.AuthGuard | frontend/src/pages/PendingOrders.jsx:36-40 | without an authenticated user with an ID no request is built, the authentication error is shown and the data is untouched |
| PendingOrdersPage.FetchIsAccepted | frontend/src/pages/PendingOrders.jsx:43-52 | a signed-in vendor with a safe-integer ID, on a page and limit whose OFFSET and FETCH fit a `bigint`, sends a request whose data query succeeds, carrying that vendor, page and limit |
| PendingOrdersPage.RefreshShowsVendorTotals | frontend/src/pages/PendingOrders.jsx:31-67 | as written: when the vendor has at most 2^31 − 1 qualifying lines, after such a refresh the page holds the vendor's qualifying count, at least one page and at most `limit` rows; an earlier error stays set, so the table shows only when there was none, and otherwise the error screen stays |
| PendingOrdersPage.RefreshCorrectedClearsError | frontend/src/pages/PendingOrders.jsx:31-67 | corrected: the corrected run is the run as written with the error cleared after a successful request, and the same run otherwise |
| PendingOrdersPage.RefreshCorrectedShowsVendorTotals | frontend/src/pages/PendingOrders.jsx:31-67 | corrected: with the error cleared on success, such a refresh (at most 2^31 − 1 qualifying lines) always shows the table with the vendor's qualifying count, at least one page and at most `limit` rows |
| PendingOrdersPage.FailedFetchMessage | frontend/src/pages/PendingOrders.jsx:53-63 | a failed backend call shows the fixed fetch error, whatever the backend said |
| PendingOrdersPage.RetryKeepsErrorAsWritten | frontend/src/pages/PendingOrders.jsx:125-133 | as written: after an error, a successful Retry still shows the error screen |
| PendingOrdersPage.RetryShowsTable | frontend/src/pages/PendingOrders.jsx:125-133 | corrected: a successful Retry shows the table |
| PendingOrdersPage.PageCountStaysPositive | frontend/src/pages/PendingOrders.jsx:60 | totalPages is at least 1 initially, under every handler and after every refresh |
| PendingOrdersPage.ShowingIsThePage | frontend/src/pages/PendingOrders.jsx:287 | on a non-empty page "Showing a to b" names exactly that page's rows: 1 ≤ a ≤ b ≤ total, and b − a + 1 rows |
| PendingOrdersPage.ShowingWhenEmpty | frontend/src/pages/PendingOrders.jsx:287 | with no records the line reads "Showing 1 to 0" |
| PendingOrdersPage.PageButtons | frontend/src/pages/PendingOrders.jsx:300 | there are min(5, totalPages) buttons |
| PendingOrdersPage.PageButtonsAreClampedRun | frontend/src/pages/PendingOrders.jsx:300-310 | the buttons are consecutive pages starting at currentPage − 2, clamped into range |
| PendingOrdersPage.PageButtonsWindow | frontend/src/pages/PendingOrders.jsx:300-310 | for a page in range: min(5, totalPages) consecutive pages within 1..totalPages, the current one among them and in the middle when there is room |
| PendingOrdersPage.OneActiveButton | frontend/src/pages/PendingOrders.jsx:316 | exactly one button is marked active |
| PendingOrdersPage.ButtonsAreReachable | frontend/src/pages/PendingOrders.jsx:84-88 | every button is a page handlePageChange accepts |
| BackupDatabase.SanitizeTimestamp | backend/scripts/backup-database.js:26 | the same length, with each ':' and '.' replaced by '-' position by position |
| BackupDatabase.SanitizeFacts | backend/scripts/backup-database.js:26 | no ':' or '.' is left, and every other character stays where it was |
| BackupDatabase.SanitizeExample | backend/scripts/backup-database.js:26 | 2024-01-02T03:04:05.678Z becomes 2024-01-02T03-04-05-678Z |
| BackupDatabase.Escape | backend/scripts/backup-database.js:60 | doubling adds exactly one character per quote |
| BackupDatabase.UnescapeEscape | backend/scripts/backup-database.js:60 | un-doubling the doubled text recovers the original |
| BackupDatabase.EscapeInjective | backend/scripts/backup-database.js:60 | different texts never double to the same text |
| BackupDatabase.ScanEscaped | backend/scripts/backup-database.js:60 | T-SQL reads a doubled text followed by a quote as the original value, ending exactly at that quote, so the inner text has no unpaired quote |
| BackupDatabase.BooleanIsNotALiteral | backend/scripts/backup-database.js:62 | as written: a bit column's `true` is printed as the bare word true, which is not a T-SQL literal |
| BackupDatabase.EncodeAsWritten | backend/scripts/backup-database.js:58-63 | as written: null is NULL, a string is quoted with its quotes doubled, a date is its quoted ISO text, and a boolean or a number is printed raw (`true`, `false`, its decimal text) |
| BackupDatabase.Encode | backend/scripts/backup-database.js:58-63 | corrected: booleans become the `bit` literals 1 and 0, and every other value is encoded as written (null as NULL, strings quoted with doubled quotes, dates as quoted ISO text) |
| BackupDatabase.EncodeIsLiteral | backend/scripts/backup-database.js:58-63 | corrected: every value, booleans as 1/0, encodes as a T-SQL literal |
| BackupDatabase.NoQuoteEscape | backend/scripts/backup-database.js:60 | a text without quotes doubles to itself |
| BackupDatabase.StringRoundTrip | backend/scripts/backup-database.js:60 | a string value, encoded as written, reads back from its literal, whatever quotes it holds |
| BackupDatabase.InsertsAppend | backend/scripts/backup-database.js:57-66 | the INSERT lines of two row lists are those of the first followed by those of the second |
| BackupDatabase.ScriptStart | backend/scripts/backup-database.js:51-55 | the script starts with the creation comment; with no rows it is just the header (two comments, a blank line, the table comment, the DELETE) |
| BackupDatabase.ScriptAppend | backend/scripts/backup-database.js:57-66 | each further row adds exactly one INSERT line at the end, in recordset order |
| BackupDatabase.ValuesListOrder | backend/scripts/backup-database.js:58-63 | the values of a row appear in column order, each encoded as written, separated by ", " |
| BackupDatabase.BooleanRowAsWritten | backend/scripts/backup-database.js:58-63 | as written: a row holding a true `bit` column backs up as `INSERT INTO Vendor VALUES (true);` |
| BackupDatabase.Run | backend/scripts/backup-database.js:19-79 | the script exits iff some step failed |
| BackupDatabase.RunOutcomes | backend/scripts/backup-database.js:71-78 | the pool is closed exactly on success; the SQL file is only written after the JSON file; a failure exits with 1 |
| SqlScript.SeparatorAt | backend/scripts/initDb.js:23 | a separator is 0, 1 or 2 characters long and never runs past the text |
| SqlScript.PiecesFrom | backend/scripts/initDb.js:23 | the split always yields at least one fragment, and the last one has no separator |
| SqlScript.Fragments | backend/scripts/production-db-setup.js:49 | there is one fragment per piece of the split |
| SqlScript.RebuildPiecesFrom | backend/scripts/initDb.js:23 | from any point of the scan, the pieces spell the rest of the text |
| SqlScript.RebuildPieces | backend/scripts/initDb.js:23 | splitting loses nothing: the fragments and separators spell the input |
| SqlScript.SeparatorsFrom | backend/scripts/initDb.js:23 | in every text, each cut is what the text holds at the cut's index, and is either a GO with no word character directly before or after it, or a ';' where the split cuts at one |
| SqlScript.WordGoNeverCuts | backend/scripts/initDb.js:23 | a GO with a word character directly before or after it is never a cut, in any text and either script |
| SqlScript.NoSemicolonFrom | backend/scripts/initDb.js:23 | where ';' splits, no fragment keeps one |
| SqlScript.NoSemicolonInStatements | backend/scripts/initDb.js:23 | no initialisation fragment contains ';' |
| SqlScript.PlainStep | backend/scripts/initDb.js:23 | a character that starts no separator continues the fragment |
| SqlScript.NoSeparatorFrom | backend/scripts/initDb.js:23 | a text without separators is a single fragment |
| SqlScript.SeparatorStep | backend/scripts/initDb.js:23 | a separator closes the current fragment |
| SqlScript.GotoIsOneFragment | backend/scripts/production-db-setup.js:49 | for instance the text GOTO is one fragment, in either script |
| SqlScript.LowerGoStatements | backend/scripts/initDb.js:23 | a lower-case go on its own line does not split statements |
| SqlScript.LowerGoBatches | backend/scripts/production-db-setup.js:49 | a lower-case go on its own line splits batches |
| SqlScript.BatchesKeepSemicolons | backend/scripts/production-db-setup.js:49 | the batch split does not cut at ';' |
| SqlScript.StatementsSplitAtSemicolon | backend/scripts/initDb.js:23 | the statement split cuts at ';' |
| InitDb.KeepTrimmed | backend/scripts/initDb.js:24-25 | every statement produced is trimmed, non-empty and does not start with "--" |
| InitDb.KeepTrimmedIff | backend/scripts/initDb.js:24-25 | a text is a statement iff it is the trimmed form of some fragment, is non-empty and does not start with "--", so a fragment that starts with a comment is dropped even when SQL follows it |
| InitDb.KeepTrimmedAppend | backend/scripts/initDb.js:22-25 | filtering keeps the fragments' order |
| InitDb.Classify | backend/scripts/initDb.js:32-42 | an error containing "already exists" is skipped, any other error is failed with its message, and success is executed |
| InitDb.RunStatements | backend/scripts/initDb.js:29-44 | the loop produces one outcome per statement, each from that statement's own reply, and so exactly the outcomes `Initialize` reports |
| InitDb.StatementsAreRun | backend/scripts/initDb.js:31 | every produced statement passes the loop's trim guard |
| InitDb.Initialize | backend/scripts/initDb.js:5-54 | the run succeeds iff the connection test passed and the schema was read; on failure it exits with 1 and runs nothing; it disconnects exactly on success; on success there is one outcome per statement |
| InitDb.InitializeRunsEveryStatement | backend/scripts/initDb.js:29-44 | every statement is tried in order, whatever the statements before it did |
| InitDb.NoConnectionNoStatements | backend/scripts/initDb.js:10-13 | a failed connection test runs nothing and exits with 1 |
| ProductionDbSetup.KeepNonBlank | backend/scripts/production-db-setup.js:49 | every kept batch is a fragment that is not blank |
| ProductionDbSetup.KeepNonBlankIff | backend/scripts/production-db-setup.js:49 | a fragment is kept iff it is not blank, and it is kept untrimmed |
| ProductionDbSetup.KeepNonBlankAppend | backend/scripts/production-db-setup.js:49 | filtering keeps the fragments' order |
| ProductionDbSetup.RunBatchesFrom | backend/scripts/production-db-setup.js:51-55 | only batches of the list are sent, and a failure means some batch was sent |
| ProductionDbSetup.FirstFailure | backend/scripts/production-db-setup.js:51-55 | the first failing batch: all before it succeed |
| ProductionDbSetup.RunNonBlank | backend/scripts/production-db-setup.js:51-55 | the loop sends, in order, every batch up to and including the first failing one, and fails iff one fails |
| ProductionDbSetup.RunStep | backend/scripts/production-db-setup.js:51-55 | a successful batch is followed by the rest of the run |
| ProductionDbSetup.BatchesAreNonBlank | backend/scripts/production-db-setup.js:49-52 | every kept batch passes the loop's trim guard |
| ProductionDbSetup.Setup | backend/scripts/production-db-setup.js:24-74 | the pool is closed exactly on success; failures exit with 1; no batch is sent unless the Vendor table is missing |
| ProductionDbSetup.SchemaOnlyWhenMissing | backend/scripts/production-db-setup.js:41-60 | schema batches run only when connected and the Vendor table is absent |
| ProductionDbSetup.SuccessSendsAllBatches | backend/scripts/production-db-setup.js:41-64 | a successful setup of a missing table sent every batch, in file order |
| ProductionDbSetup.FailureStopsAtBatch | backend/scripts/production-db-setup.js:51-55 | a failing setup sent exactly the batches up to and including the first failing one |
| Server.AllowedOrigins | backend/server.js:24-32 | the six local origins, plus FRONTEND_URL exactly when it is set and non-empty |
| Server.CheckOrigin | backend/server.js:36-38 | a rejection always carries the plain "Not allowed by CORS" error |
| Server.CheckOriginIff | backend/server.js:20-39 | a non-empty origin is allowed iff it equals one of the six local origins or a non-empty FRONTEND_URL |
| Server.NoOriginIsAllowed | backend/server.js:22 | a missing or empty Origin is allowed |
| Server.TrailingSlashRejected | backend/server.js:34 | the comparison is exact: a trailing slash is rejected |
| Server.CorsRejectionRendering | backend/server.js:37 | a rejected origin reaches the error middleware as a plain error: 500 "Something went wrong!" in production and 500 with the CORS message in development |
| Server.DbTest | backend/server.js:111-125 | success echoes the connection test; a rejection is a 500 "Database connection error" carrying its message |
| Server.DbTestSuccessIff | backend/server.js:114-117 | success is true iff the message is "…successful" iff the test resolved to true |
| Server.NotFoundRoute | backend/server.js:133-138 | the catch-all route answers 404 with success false |
| Server.NotFoundRouteMessage | backend/server.js:136 | its message contains the original URL and equals the library 404's message |
| Server.NotFoundRouteInjective | backend/server.js:136 | different URLs give different messages |
| Ordering.BeforeTotal | backend/routes/pendingOrders.js:128 | the ORDER BY comparison is total in either direction |
| Ordering.BeforeTransitive | backend/routes/pendingOrders.js:128 | the ORDER BY comparison is transitive |
| Ordering.InsertSorted | backend/routes/pendingOrders.js:128 | inserting a row into a sorted list keeps it sorted |
| Ordering.InsertPermutes | backend/routes/pendingOrders.js:128 | inserting a row adds exactly that row, as a multiset |
| Ordering.BeforeAntisymmetric | backend/routes/pendingOrders.js:128 | two keys that may each precede the other are equal |
| Ordering.SortedUnique | backend/routes/pendingOrders.js:128 | two sorted permutations of the same tie-free rows are the same sequence |
| Ordering.SortIsUnique | backend/routes/pendingOrders.js:128 | on tie-free rows every sorted permutation, whatever the tie rule, is `Sort`'s result |
| Ordering.SortIsSortedPermutation | backend/routes/pendingOrders.js:128 | ORDER BY returns a sorted permutation of the rows, with the same length |
| PendingQuery.PageCountIsCeil | backend/routes/pendingOrders.js:187 | a page count with room for every row, and with too little room after one page fewer, is ceil(total / limit) |
| PendingQuery.PrefixThenWindow | backend/routes/pendingOrders.js:130-131 | the rows before an offset, followed by the window at that offset, are the rows before offset + fetch |
| JsValue.OrTruthy | backend/routes/users.js:52 | the result of JavaScript's logical or is truthy iff either operand is |
| JsText.Trim | backend/scripts/initDb.js:24 | trim removes exactly the surrounding white space; the result is empty iff the text is all white space |
| JsText.TrimStart | backend/scripts/initDb.js:24 | removes exactly the leading white space |
| JsText.TrimEnd | backend/scripts/initDb.js:24 | removes exactly the trailing white space |
| JsText.ToUpper | backend/routes/pendingOrders.js:126 | maps a–z, U+017F and U+0131 to their upper-case ASCII letters, position by position, and keeps every other character |
| JsText.NatToDecimal | backend/middleware/errorHandler.js:7 | the decimal text of a number is a digit string with that value and no leading zero |
| JsText.IntToDecimal | backend/middleware/errorHandler.js:7 | negative numbers print with a leading '-' |
| JsText.ParseIntOfDecimal | backend/routes/pendingOrders.js:182 | parseInt(String(i)) is i for every integer |
| JsText.BeforeFirst | backend/routes/pendingOrders.js:198 | `split('T')[0]` is the text before the first 'T' |

## Left out

- Writing the JSON backup file: the model covers the SQL script text, the file names and which files are written. Object key order, `JSON.stringify` and the directory creation are not modelled.
- BackupDatabase.EncodeAsWritten: Buffers, floating-point numbers and other non-string values are not modelled. Only integers and booleans pass the raw branch, and a number is printed by its decimal text.
- Timestamps and clocks: `new Date().toISOString()` in the backup script and in the error responses is a parameter or left out. Stack traces and `console` output are left out.
- The express-validator sanitizers (`normalizeEmail`, `trim`, `escape`, `toInt`, `toFloat`) run after the validators and never produce errors, so they are left out.
- `isEmail` and `isFloat({ min: 0 })` are library predicates. They are parameters of the rule sets (`Validation.Library`), not definitions.
- `isLength` counts code points; newer library versions also discount variation selectors, which is not modelled.
- Floating point is not modelled: money-typed `Price`, and `Number()` on arbitrary text (abstracted as a number or an unparseable value).
- PendingOrders.HandleSucceedsIff: `parseInt` and `(page - 1) * limit` compute in doubles, and the model computes exactly. The two agree while page, limit, vendor id and offset are at most 2^53 in magnitude. Beyond that the source rounds, for instance `page=9007199254740993` answers with currentPage 9007199254740992. So near the `bigint` bound its verdict may differ from the model's. The same holds for `PendingQuery.RunDataSucceedsIff`, `PendingOrders.PlanSucceedsIff`, `PendingOrders.QuerySucceedsIff`, `PendingOrders.PageContents` and `PendingOrders.OffsetIsPageStart`. The driver's and the engine's error messages for these cases are representative texts.
- The SQL engine: joins, `FORMAT`, `DATEDIFF`/`GETDATE` for ClosingDays, and collation. Text sorts by code point, and the order of tied rows is one stable sort.
- PendingOrders.BrowsingAllPagesCoversResult: the program promises this only when the sort key has no ties among the vendor's rows (`BrowsingCoversEngineOrder`). The default `[Order #]` is shared by every line of an order, and `Vendor` is the same on every row. So the engine may order tied rows differently in each page's query, and pages may repeat or skip rows (`TiedPagesCanRepeat`). The model's `Handle` uses one fixed tie order.
- JsText.ToUpper: only a–z, U+017F and U+0131 are mapped. These are all the characters that decide equality with "ASC". Other case mappings of `toUpperCase` are not modelled: 'é' to 'É', and length-changing ones such as 'ß' to "SS".
- `Promise.all` concurrency: the data and count queries are two independent evaluations.
- Query-string arrays (`?page=1&page=2`) are not modelled; each parameter is one string or absent.
- PendingQuery.ResolveSortColumn: the object lookup of the sort allow-list also finds keys inherited from `Object.prototype`, such as `constructor`, `toString` and `__proto__`. For those the source puts a non-column into the ORDER BY and answers 500; the model resolves them to `[Order #]`. `PendingOrders.UnknownSortDefaults` is stated for own names only.
- backend/config/database.js is not part of this model. `testConnection`, `query` and `disconnect` are parameters: a boolean, a result per statement, or the outcome of a call.
- Express wiring: the routing table, helmet, rate limiting, morgan, body-size limits, the health endpoint, `asyncHandler`, `gracefulShutdown` and the process-level exit handlers.
- React rendering: only the page's state cells, its handlers, the fetch outcome, the chosen view and the numbers it prints are modelled. A network error in `fetch` is not modelled separately; a non-2xx response is.
- The other frontend files, `frontend/src/services/api.js` and backend/setup_database.js (one file sent as one query) are not part of this model.
- Scripts' exit path: `process.exit(1)` in the `catch` ends the process before the `finally` runs. So `disconnect` runs only on success, not always. The same holds for the pool close in the backup and production setup scripts.
- Null numeric columns: the row formatter leaves NULL and undefined untouched. They are not defaulted to 0.
- Validation chains do not bail: every failing validator of a chain adds its own error.

## Findings

| source | as written | input that shows it | evidently intended | confidence | as-written member | corrected member |
|---|---|---|---|---|---|---|
| frontend/src/pages/PendingOrders.jsx:56-66 | the `try` block sets the data but never calls `setError(null)`, and the error screen is rendered whenever `error` is set | a fetch fails (for instance the backend answers 500), then Retry succeeds | a successful fetch clears the error, so Retry shows the table | high, not executed | PendingOrdersPage.RetryKeepsErrorAsWritten | PendingOrdersPage.RetryShowsTable |
| backend/routes/pendingOrders.js:128-131 | each page is a separate query ordered only by the chosen column, which is not unique (`[Order #]` is shared by the lines of one order), so the engine may order tied rows differently for each page | one order with two pending lines and `limit=1`: page 1 and page 2 may both show the same line, and the other line is never shown | every row shown exactly once across the pages, for instance with a unique column added to the ORDER BY as a tie-breaker | medium, not executed | PendingQuery.TiedPagesCanRepeat | PendingOrders.BrowsingAllPagesCoversResult |
| backend/scripts/backup-database.js:58-63 | any value that is not null, a string or a Date is emitted raw, so a `bit` column (a JavaScript boolean) is printed as `true` or `false` | a Vendor row with `Is_Active = 1` gives `INSERT INTO Vendor VALUES (..., true, ...)`, which T-SQL cannot parse | booleans are written as the `bit` literals `1` and `0`, so the restore script runs | high, not executed | BackupDatabase.BooleanIsNotALiteral | BackupDatabase.EncodeIsLiteral |
