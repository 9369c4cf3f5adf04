# mcp-sqlite3 in Dafny

This project models the deterministic logic of two CRUD web applications over SQLite. It proves properties of that logic.

- **DVD-rental dashboard (`app/`)**:
  - rental rules: due date, status, days overdue, late fee;
  - the pagination window of `Pagination.tsx` and of the payments page;
  - the payments page's sort and filter handlers;
  - the `db-utils` helpers: page arithmetic and INSERT/UPDATE/DELETE text builders;
  - `truncateText` and `formatPhone`;
  - the request shaping of the rentals, customers, films, payments and inventory API routes: clamping, whitelists, condition lists, required fields, availability rules.
- **Music catalogue, Next.js side (`nextjs-app/`)**:
  - the lazy `DatabaseManager` singleton;
  - the pagination and SQL-builder helpers;
  - the BEGIN/COMMIT/ROLLBACK transaction wrapper, as a state machine over an abstract store;
  - `clsx`/`cn`;
  - the stats, artists, tracks and albums routes.
- **Music catalogue, Spring side (`chinook/`)**:
  - the compact-constructor validators of the DTO records and of `PageResponse`;
  - the employee, customer, genre/media-type, playlist and invoice services. These are classes whose repositories are `map` fields. Exceptions are a result datatype.
  - the employee manager hierarchy. It is kept acyclic by a ghost rank, proved preserved by `assignManager`, and listed in pre-order by `buildHierarchy`.

Modelling conventions:
- JavaScript numbers are integers plus NaN and the infinities. `Math.max`, `Math.min`, `Math.ceil`, `parseInt`, `Number` and truthiness are written out in `JsValues`.
- Java `BigDecimal` money is `real`.
- Time is integer milliseconds.
- The current time, the database's answers and the outcome of a transaction callback are parameters.
- SQL fragments are strings, or an abstract condition datatype whose rendering is proved to line up with the bound parameters.

## Model

| member | source | states |
|---|---|---|
| RentalUtils.StatusName | app/src/lib/rental-utils.ts:24-27 | a status is one of the three strings "returned", "outstanding", "overdue" |
| RentalUtils.DueDate | app/src/lib/rental-utils.ts:12-16 | the due date lies exactly `duration` days of milliseconds after the rental date |
| RentalUtils.CeilDays | app/src/lib/rental-utils.ts:38 | the day count is the ceiling of the elapsed milliseconds over one day: `(d-1)·day < ms ≤ d·day` |
| RentalUtils.GetRentalStatus | app/src/lib/rental-utils.ts:24-44 | a non-empty return date gives returned with 0 days; otherwise now strictly after the due date gives overdue with the ceiling day count (≥ 1), and now at or before it gives outstanding with 0 days |
| RentalUtils.CalculateLateFee | app/src/lib/rental-utils.ts:52-55 | no days overdue cost nothing; non-negative days and rate never give a negative fee; any overdue day at a positive rate costs more than the rate itself (150% per day) |
| RentalUtils.LateFeeMonotone | app/src/lib/rental-utils.ts:52-55 | for a non-negative rate the fee is non-negative and never falls as the days overdue grow |
| RentalUtils.BadgeClasses | app/src/lib/rental-utils.ts:62-73 | green, yellow and red badges for returned, outstanding and overdue; grey for any other string |
| RentalUtils.StatusText | app/src/lib/rental-utils.ts:80-91 | the Korean label of each of the three statuses, and the "unknown" label for any other string |
| RentalUtils.StatusPresentationDistinct | app/src/lib/rental-utils.ts:62-91 | every status has a label and a badge other than the fallback, and different statuses have different labels and badges |
| RentalUtils.GetRentalSummary | app/src/lib/rental-utils.ts:101-128 | the summary is the composition due date → status → late fee, with the label and badge of the computed status |
| RentalUtils.SummaryFeeOnlyWhenOverdue | app/src/lib/rental-utils.ts:115-127 | a returned or outstanding summary carries 0 days overdue and a late fee of 0 |
| RentalUtils.SummaryOverdueIff | app/src/lib/rental-utils.ts:115-127 | a summary is overdue exactly when the rental is unreturned and now is past the rental date plus the duration |
| Pagination.PageItems | app/src/components/Pagination.tsx:46-60 | the loop emits one button per page from the window's start to its end, none when the window is empty |
| Pagination.RenderPaginationButtons | app/src/components/Pagination.tsx:11-85 | the loop-built strip equals the first button and ellipsis, the window buttons and the trailing ellipsis and last button, in that order |
| Pagination.WindowBounds | app/src/components/Pagination.tsx:15-21 | for at least one page: 1 ≤ start ≤ end ≤ totalPages and the window spans at most 5 pages, whatever the current page |
| Pagination.WindowHoldsCurrent | app/src/components/Pagination.tsx:15-21 | a current page within 1..totalPages lies inside the window |
| Pagination.WindowFull | app/src/components/Pagination.tsx:18-21 | with at least 5 pages the window always spans exactly 5 pages |
| Pagination.FirstAndLeadingDots | app/src/components/Pagination.tsx:24-43 | the "1" button appears iff the window starts after page 1, the leading ellipsis iff it starts after page 2 |
| Pagination.LastAndTrailingDots | app/src/components/Pagination.tsx:63-82 | the last-page button appears iff the window ends before the last page, the trailing ellipsis iff it ends before the page before it |
| Pagination.NumbersIncreasing | app/src/components/Pagination.tsx:24-82 | the page numbers of the strip (first, window, last) are strictly increasing, so none repeats |
| Pagination.Render | app/src/components/Pagination.tsx:87-121 | nothing is rendered exactly when there is at most one page |
| Pagination.ArrowsStayInRange | app/src/components/Pagination.tsx:96-118 | the previous arrow moves only to a lower page ≥ 1, the next arrow only to a higher page ≤ totalPages, and each arrow is disabled exactly when it does nothing |
| PaymentsPage.ParseKey | app/src/app/payments/page.tsx:109 | reading a parameter name back gives the text it was parsed from |
| PaymentsPage.ParseKeyInjective | app/src/app/payments/page.tsx:109 | two names parse to the same key exactly when they are the same text |
| PaymentsPage.Without | app/src/app/payments/page.tsx:118-129 | removing a name leaves no entry under it and never adds entries (the first half of `URLSearchParams.set`) |
| PaymentsPage.WithoutKeeps | app/src/app/payments/page.tsx:118-129 | removing one name leaves the value and the number of entries of every other name as they were |
| PaymentsPage.WithoutRemoves | app/src/app/payments/page.tsx:118-129 | after removing a name no entry carries it |
| PaymentsPage.SetThenGet | app/src/app/payments/page.tsx:118-129 | after `set(name, value)` the name reads back `value` and occurs exactly once |
| PaymentsPage.SetKeepsOthers | app/src/app/payments/page.tsx:118-129 | `set` leaves the value and the entry count of every other name unchanged |
| PaymentsPage.SetGet | app/src/app/payments/page.tsx:118-129 | after `set(name, value)` every name reads back `value` if it is `name`, else what it read before |
| PaymentsPage.SetIf | app/src/app/payments/page.tsx:121-127 | a guarded `set` writes the value when the guard holds, leaves an absent name absent otherwise, and never touches another name |
| PaymentsPage.SortClick | app/src/app/payments/page.tsx:150-164 | clicking the current column keeps it and flips asc↔desc (anything but "asc" becomes "asc"); another column is selected with "desc" |
| PaymentsPage.SortClickTwice | app/src/app/payments/page.tsx:150-164 | two clicks on the current column keep it and restore an "asc" or "desc" direction ("desc" for any other value) |
| PaymentsPage.SetIdFilters | app/src/app/payments/page.tsx:121-123 | customerId and staffId are set only when non-empty, paymentType only when not "all"; other names are untouched |
| PaymentsPage.SetRangeFilters | app/src/app/payments/page.tsx:124-127 | each date and amount bound is set only when non-empty; other names are untouched |
| PaymentsPage.BuildFilterQuery | app/src/app/payments/page.tsx:118-129 | the filter query has page "1", each filter exactly when it is non-empty (paymentType when not "all"), and the current sort column and direction |
| PaymentsPage.PaymentsPageState.constructor | app/src/app/payments/page.tsx:35-43 | the filters start empty, the type at "all", the sort at payment_date descending |
| PaymentsPage.PaymentsPageState.HandleFilterApply | app/src/app/payments/page.tsx:115-132 | navigates to /payments with the filter query built from the current form state |
| PaymentsPage.PaymentsPageState.HandleFilterReset | app/src/app/payments/page.tsx:135-147 | restores every filter to empty, the type to "all" and the sort to payment_date descending, then navigates to /payments |
| PaymentsPage.PaymentsPageState.HandleSortChange | app/src/app/payments/page.tsx:150-167 | the sort state moves as `SortClick` says, and the pushed query is the current one with only sortBy and sortDirection changed |
| PaymentsPage.PageWindow | app/src/app/payments/page.tsx:470 | the window has min(5, pages) buttons (none for a negative page count) |
| PaymentsPage.PageWindowShape | app/src/app/payments/page.tsx:470-484 | the buttons are consecutive from 1 when pages ≤ 5 or page ≤ 3, from pages−4 when page ≥ pages−2, else from page−2 |
| PaymentsPage.PageWindowInRange | app/src/app/payments/page.tsx:470-484 | for at least one page every button lies in 1..pages and each is one more than the previous, whatever the current page |
| PaymentsPage.PageWindowHoldsCurrent | app/src/app/payments/page.tsx:470-484 | a current page within 1..pages is among the buttons |
| DbUtils.LookupAt | app/src/lib/db-utils.ts:50 | a named parameter `:k` binds the value the record holds under `k` |
| DbUtils.LookupAbsent | app/src/lib/db-utils.ts:50 | a name the record does not hold binds nothing |
| DbUtils.WithPropLookup | app/src/lib/db-utils.ts:75 | `{ ...data, id }` holds `id` under "id" and every other property of `data` unchanged |
| DbUtils.Placeholders | app/src/lib/db-utils.ts:45 | one placeholder per key |
| DbUtils.InsertPlaceholdersBind | app/src/lib/db-utils.ts:44-50 | the i-th placeholder of the INSERT binds exactly the i-th value of the record, so columns and values line up |
| DbUtils.InsertPlaceholderCount | app/src/lib/db-utils.ts:45-48 | for keys without ':' the VALUES list has exactly one ':' per column and the column list none |
| DbUtils.Assignments | app/src/lib/db-utils.ts:69-71 | one `k = :k` assignment per key |
| DbUtils.UpdateBinds | app/src/lib/db-utils.ts:67-75 | `:id` binds the id argument, and each assignment binds its own data value, except a data field named id, which the id argument overrides |
| DbUtils.DeleteBinds | app/src/lib/db-utils.ts:91-95 | the DELETE's only placeholder `:id` binds the id argument |
| DbUtils.GetRecord | app/src/lib/db-utils.ts:26-34 | no matching row gives null (never undefined), a row gives that row |
| DbUtils.Offset | app/src/lib/db-utils.ts:132 | offset = (page − 1) × pageSize |
| DbUtils.GetPaginatedData | app/src/lib/db-utils.ts:122-157 | the result echoes the rows, and page and pageSize as given or their defaults 1 and 10; total is the count row's value, or 0 when there is none |
| DbUtils.InsertSqlMarkers | app/src/lib/db-utils.ts:44-48 | the INSERT holds one `:key` placeholder per property of the record and no other `:`, so `run(data)` binds every placeholder |
| DbUtils.UpdateSqlMarkers | app/src/lib/db-utils.ts:67-75 | the UPDATE holds one placeholder per assignment plus the `:id` of the WHERE, matching `{ ...data, id }`; an omitted idField is the column "id" |
| DbUtils.DeleteSqlMarkers | app/src/lib/db-utils.ts:91-95 | the DELETE holds exactly the one `:id` placeholder bound by `{ id }`; an omitted idField is the column "id" |
| DbUtils.CountSqlWraps | app/src/lib/db-utils.ts:129 | the count query is the rewritten query wrapped whole in `SELECT COUNT(*) as total FROM (...)`: stripping the wrapper gives it back |
| DbUtils.PageCountIsCeiling | app/src/lib/db-utils.ts:138-144 | for a positive page size pageCount is the ceiling of total / pageSize, and 0 when the count row is missing |
| DbUtils.PageInRangeStartsInside | app/src/lib/db-utils.ts:132-144 | a page between 1 and pageCount has an offset inside the result set |
| DbUtils.PaginatedSqlText | app/src/lib/db-utils.ts:133 | the data query is the input SQL followed by " LIMIT <pageSize> OFFSET <offset>", and the offset text reads back as the offset |
| NextDb.PageStatementLinesUp | nextjs-app/src/lib/db.ts:111-112 | the page query has two more '?' than the input SQL, and its arguments are the input parameters followed by limit and offset |
| NextDb.QueryWithPagination | nextjs-app/src/lib/db.ts:98-121 | the count statement and the page statement (offset (page − 1) × limit) are issued with the caller's parameters; the result echoes items, page and limit, and total is the count or 0 |
| NextDb.PaginationArithmetic | nextjs-app/src/lib/db.ts:104-119 | for a positive limit, totalPages is the ceiling of total / limit (0 without a count row) and the page arguments are params + [limit, offset] |
| NextDb.InsertLinesUp | nextjs-app/src/lib/db.ts:129-134 | for keys without '?', the VALUES list has one '?' per bound value, the column list none, and the i-th argument is the i-th value |
| NextDb.SetItems | nextjs-app/src/lib/db.ts:147 | one `key = ?` item per key |
| NextDb.UpdateLinesUp | nextjs-app/src/lib/db.ts:146-151 | the '?' of the SET list and of the WHERE clause together match the arguments, which are the data values followed by the WHERE parameters |
| NextDb.RemoveStatement | nextjs-app/src/lib/db.ts:162-165 | the DELETE binds exactly the WHERE parameters |
| NextDb.TransactionLog | nextjs-app/src/lib/db.ts:174-185 | BEGIN first, then the callback's statements, then one COMMIT or ROLLBACK |
| NextDb.CommitIffReturns | nextjs-app/src/lib/db.ts:176-183 | the transaction commits if and only if the callback returns, and rolls back if and only if it throws |
| NextDb.DatabaseManager.constructor | nextjs-app/src/lib/db.ts:8-10 | a new manager holds no connection |
| NextDb.DatabaseManager.GetConnection | nextjs-app/src/lib/db.ts:19-36 | an open connection is reused; otherwise one is opened at the given path or the default one, and the WAL and foreign-key pragmas run; an open failure leaves no connection, a pragma failure leaves the opened one |
| NextDb.DatabaseManager.CloseConnection | nextjs-app/src/lib/db.ts:38-43 | afterwards no connection is held |
| NextDb.DatabaseManager.Transaction | nextjs-app/src/lib/db.ts:174-185 | the result is the callback's; its writes are committed exactly when it returns; a held connection is reused, otherwise one is opened on the default path as by getConnection; a connection that cannot be opened fails with nothing executed or committed |
| NextDb.Registry.constructor | nextjs-app/src/lib/db.ts:7 | no instance exists before the first call |
| NextDb.Registry.GetInstance | nextjs-app/src/lib/db.ts:12-17 | the first call creates a fresh manager without a connection, later calls return that same manager |
| FormatUtils.TruncateText | app/src/lib/format-utils.ts:51-54 | with maxLength defaulting to 100, a text no longer than maxLength comes back unchanged; a longer one is cut to its first maxLength characters (none for a negative maxLength) followed by "..." |
| FormatUtils.TruncateIdempotent | app/src/lib/format-utils.ts:51-54 | truncating an already truncated text again changes nothing |
| FormatUtils.FirstRunFrom | app/src/lib/format-utils.ts:42 | finds the leftmost start, at or after `from`, of 11 consecutive digits, or reports that there is none |
| FormatUtils.FormatPhone | app/src/lib/format-utils.ts:40-43 | a string without 11 consecutive digits comes back unchanged; otherwise the result is exactly 2 characters longer |
| FormatUtils.FormatPhoneOnlyAddsDashes | app/src/lib/format-utils.ts:42 | the rewrite keeps everything before the run, puts '-' after the 3rd and the 7th digit of the run, and removing those two dashes gives back the input |
| FormatUtils.FormatPhoneLeftmost | app/src/lib/format-utils.ts:42 | the run rewritten is never to the right of any other run of 11 digits |
| ClassNames.Present | nextjs-app/src/lib/utils.ts:2 | `filter(Boolean)` keeps only non-empty strings of the input, never more than were given |
| ClassNames.Clsx | nextjs-app/src/lib/utils.ts:1-3 | the joined class string is empty exactly when no input survives the falsy filter |
| ClassNames.Cn | nextjs-app/src/lib/utils.ts:5-7 | cn is clsx on the same inputs; all-falsy inputs give "" |
| ClassNames.AllFalsyIsEmpty | nextjs-app/src/lib/utils.ts:2 | no inputs, or only undefined and empty ones, give "" |
| ClassNames.PresentAppend | nextjs-app/src/lib/utils.ts:2 | filtering keeps the input order: filtering a concatenation concatenates the filtered parts |
| ClassNames.PresentSingle | nextjs-app/src/lib/utils.ts:2 | a single input survives exactly when it is a non-empty string |
| ClassNames.ClsxSplits | nextjs-app/src/lib/utils.ts:2 | for space-free class names, splitting the result at single spaces gives back exactly the kept inputs in order |
| RouteCommon.OrElse | app/src/app/api/rentals/route.ts:16-20 | `get(name) \|\| fallback` is the parameter's text exactly when it is present and non-empty, and the fallback otherwise |
| RouteCommon.NonEmpty | app/src/app/api/rentals/route.ts:17-18 | `get(name) \|\| undefined` keeps the parameter exactly when it is present and non-empty |
| RouteCommon.NumberParam | app/src/app/api/rentals/route.ts:12-15 | `has(name) ? Number(get(name)) : undefined` is defined exactly when the parameter is present, and is then `Number` of its text |
| RouteCommon.IntIfGiven | app/src/app/api/payments/route.ts:11-13 | `get(name) ? parseInt(get(name)) : undefined` is defined exactly for a non-empty value, and then is parseInt of it |
| RouteCommon.ClampedPaging | app/src/app/api/rentals/route.ts:24-25 | page defaults to 1 and pageSize to 10; unless Number gives NaN, page ≥ 1 and 1 ≤ pageSize ≤ 100, and a pageSize already in range is kept |
| RouteCommon.IntParamDefault | app/src/app/api/inventory/route.ts:29-30 | `parseInt(get(name) \|\| 'n')` gives the default n when the parameter is absent or empty |
| RouteCommon.SortColumnWhitelisted | app/src/app/api/rentals/route.ts:130-131 | the sort column is always in the whitelist, and it is the requested one exactly when that one is listed |
| RouteCommon.WhereMarkers | app/src/app/api/rentals/route.ts:125-127 | a WHERE built from conditions with one `?` each holds exactly one `?` per condition, so the bindings pushed alongside match the markers |
| RouteCommon.FirstFalsy | app/src/app/api/rentals/route.ts:152-161 | no field is named exactly when every required field is truthy; otherwise the named field is falsy and every earlier one truthy |
| RouteCommon.CheckRequired | app/src/app/api/rentals/route.ts:154-161 | the loop over the required fields returns the first falsy one, or nothing |
| JsValues.Max | app/src/app/api/rentals/route.ts:24 | `Math.max` is NaN when an argument is NaN, and otherwise one of its arguments and not below either |
| JsValues.Min | app/src/app/api/rentals/route.ts:25 | `Math.min` is NaN when an argument is NaN, and otherwise one of its arguments and not above either |
| JsValues.ClampBounds | app/src/app/api/rentals/route.ts:25 | `Math.min(hi, Math.max(lo, n))` is NaN only for NaN, otherwise within [lo, hi], and an n already in range is kept |
| JsValues.CeilDiv | app/src/lib/db-utils.ts:144 | `Math.ceil(a / b)` for a positive b is the least whole number of b-sized pages covering a; for b = 0 it is NaN or an infinity |
| JsValues.ParseInt | app/src/app/api/inventory/route.ts:29 | `parseInt` is a finite number exactly when a digit follows the optional sign, and NaN otherwise |
| JsValues.ToNumber | app/src/app/api/rentals/route.ts:12 | `Number` of "" is 0; it is finite exactly for "" or an optionally signed non-empty run of digits, NaN otherwise |
| JsValues.ToNumberRoundTrip | app/src/app/api/rentals/route.ts:12 | `Number` reads back every integer written in decimal |
| JsValues.ParseIntRoundTrip | app/src/app/api/inventory/route.ts:29 | `parseInt` reads back every integer written in decimal |
| JsValues.ParseIntAgreesWithToNumber | app/src/app/api/inventory/route.ts:27-30 | on an optionally signed run of digits, `parseInt` and `Number` agree |
| RentalsRoute.PushIf | app/src/app/api/rentals/route.ts:71-92 | one `if (filter) { push condition; bind parameter }` step appends the condition exactly when its test holds, keeping the bindings those of the conditions |
| RentalsRoute.PushStatus | app/src/app/api/rentals/route.ts:95-111 | the status switch appends the returned, outstanding or overdue condition for those three values and nothing for any other, binding nothing |
| RentalsRoute.PushIdFilters | app/src/app/api/rentals/route.ts:71-92 | the four id filters are pushed in source order, each with its binding |
| RentalsRoute.PushFilters | app/src/app/api/rentals/route.ts:70-122 | the whole filter block yields exactly the specified condition list and the bindings of its parameters |
| RentalsRoute.ShapeListQuery | app/src/app/api/rentals/route.ts:11-135 | GET sends the base SELECT plus the AND-joined WHERE and the whitelisted ORDER BY, with the condition bindings and the clamped page and pageSize |
| RentalsRoute.IdFiltersOnlyWhenTruthy | app/src/app/api/rentals/route.ts:12-122 | each id filter is present exactly when its parameter is present and reads as a truthy number (0 and NaN are skipped); each date filter exactly when its parameter is non-empty |
| RentalsRoute.StatusFilter | app/src/app/api/rentals/route.ts:95-111 | status defaults to 'all'; the returned, outstanding and overdue conditions appear exactly for those statuses |
| RentalsRoute.ParamsMatchConditions | app/src/app/api/rentals/route.ts:67-122 | the bound parameter names are exactly those the conditions use, in order, and each condition's parameter is bound to its filter value |
| RentalsRoute.SortRule | app/src/app/api/rentals/route.ts:19-132 | the sort column is always whitelisted, rental_date by default, and the direction defaults to desc |
| RentalsRoute.EmptyQueryDefaults | app/src/app/api/rentals/route.ts:11-132 | an empty query string gives no conditions, no bindings, ORDER BY rental_date DESC, page 1 and pageSize 10 |
| RentalsRoute.SqlLateColumnsRule | app/src/app/api/rentals/route.ts:45-58 | overdue is 1 exactly for an unreturned rental past its due date; then days_overdue ≥ 1 and late_fee = days_overdue × rental_rate, otherwise both are 0 |
| RentalsRoute.HelperFeeIsOneAndAHalfTimesSqlFee | app/src/app/api/rentals/route.ts:56 | the helper's late fee (rental-utils.ts line 54) is 1.5 times the fee this SQL computes for the same whole days overdue |
| RentalsRoute.RentalStore.constructor | app/src/app/api/rentals/route.ts:147-213 | the store starts with the given rows, every rental and payment id below its counter |
| RentalsRoute.RentalStore.Post | app/src/app/api/rentals/route.ts:147-213 | 400 naming the first falsy required field, or 400 for an item with an open rental, with nothing inserted; otherwise a new rental stamped now and, when the film's rate is found, a payment of that rate for it; the item is then no longer available unless a return date was given |
| CustomersRoute.PushIf | app/src/app/api/customers/route.ts:64-85 | one filter step appends its condition exactly when its test holds, keeping the bindings those of the conditions |
| CustomersRoute.PushFilters | app/src/app/api/customers/route.ts:60-85 | the filter block yields exactly the specified condition list and its bindings |
| CustomersRoute.ShapeListQuery | app/src/app/api/customers/route.ts:11-98 | GET sends the base SELECT plus the AND-joined WHERE and the whitelisted ORDER BY, with the bindings and the clamped page and pageSize |
| CustomersRoute.TextFilters | app/src/app/api/customers/route.ts:64-73 | the name and e-mail conditions appear exactly for non-empty parameters and bind `%value%`, a substring match |
| CustomersRoute.ActiveFilter | app/src/app/api/customers/route.ts:76-79 | the active condition appears exactly when the parameter is present and binds 1 for 'true' and 0 for anything else |
| CustomersRoute.StoreFilter | app/src/app/api/customers/route.ts:82-85 | the store condition appears exactly when the parameter reads as a truthy number |
| CustomersRoute.BindingsAt | app/src/app/api/customers/route.ts:64-85 | the i-th binding belongs to the i-th condition |
| CustomersRoute.SortRule | app/src/app/api/customers/route.ts:16-95 | the direction is desc exactly for the parameter 'desc'; the column is whitelisted, last_name by default |
| CustomersRoute.ActiveFlag | app/src/app/api/customers/route.ts:148 | an absent active field gives 1, a present one 1 exactly when it is truthy |
| CustomersRoute.NewCustomerActiveByDefault | app/src/app/api/customers/route.ts:148 | a body without an active field creates an active customer |
| CustomersRoute.CustomerStore.constructor | app/src/app/api/customers/route.ts:110-155 | the store starts with the given rows, every id below its counter |
| CustomersRoute.CustomerStore.Post | app/src/app/api/customers/route.ts:110-155 | 400 naming the first falsy required field with nothing inserted; a failing insert rolls both rows back and leaves the counters; otherwise the address is inserted under a fresh id, then the customer under a fresh id pointing at it, each counter advanced by one, ids staying below their counters |
| FilmsRoute.PushIf | app/src/app/api/films/route.ts:91-111 | one filter step appends its condition exactly when its test holds, keeping the bindings those of the conditions |
| FilmsRoute.PushJoinFilters | app/src/app/api/films/route.ts:66-88 | the title, category and actor filters add their conditions in order, and the category and actor filters also add their joins |
| FilmsRoute.PushFilters | app/src/app/api/films/route.ts:66-111 | the filter block yields exactly the specified joins, condition list and bindings |
| FilmsRoute.ShapeListQuery | app/src/app/api/films/route.ts:13-129 | GET sends the base SELECT, then the joins, WHERE, GROUP BY and ORDER BY in that order, with the bindings and the clamped page and pageSize |
| FilmsRoute.JoinsAndGrouping | app/src/app/api/films/route.ts:72-121 | GROUP BY f.film_id is added exactly when a category or actor filter is set, and with neither there is no join; each of those conditions appears exactly with its filter |
| FilmsRoute.ZeroFiltersIgnored | app/src/app/api/films/route.ts:91-111 | a release year, minimum or maximum length of 0 adds no condition, because the checks test truthiness |
| FilmsRoute.SortRule | app/src/app/api/films/route.ts:124-126 | the column is always whitelisted; the direction is DESC exactly for the parameter 'desc' |
| PaymentsRoute.IntOr | app/src/app/api/payments/route.ts:24-25 | `get(name) ? parseInt(get(name)) : n` is n for an absent or empty parameter and `parseInt` of its text otherwise |
| PaymentsRoute.PushIf | app/src/app/api/payments/route.ts:54-97 | one filter step appends its condition exactly when its test holds, keeping the bindings those of the conditions |
| PaymentsRoute.PushType | app/src/app/api/payments/route.ts:69-77 | 'rental', 'late_fee' and 'other' each append their one condition, any other type none, and none binds a parameter |
| PaymentsRoute.PushIdFilters | app/src/app/api/payments/route.ts:54-67 | the customer, staff and rental filters are appended in order, each exactly when truthy |
| PaymentsRoute.PushFilters | app/src/app/api/payments/route.ts:53-97 | the filter block yields exactly the specified condition list and its bindings |
| PaymentsRoute.ShapeListQuery | app/src/app/api/payments/route.ts:10-108 | GET builds the base SELECT, one " AND" clause per condition, the ORDER BY and the LIMIT/OFFSET tail, binding the filters, then limit and offset = (page − 1) × limit |
| PaymentsRoute.PagingDefaults | app/src/app/api/payments/route.ts:24-26 | without page and limit, page is 1, limit 10 and offset 0 |
| PaymentsRoute.OffsetOfWholeNumbers | app/src/app/api/payments/route.ts:24-26 | page and limit written as integers are read back, and offset = (page − 1) × limit |
| PaymentsRoute.TypeFilter | app/src/app/api/payments/route.ts:69-77 | each type condition appears exactly for its paymentType; 'all' or no type adds none |
| PaymentsRoute.TypeFiltersAgainstLabels | app/src/app/api/payments/route.ts:36-77 | the late_fee and other conditions select exactly the payments labelled so; the rental condition selects the rental-labelled payments and also those without a rental |
| PaymentsRoute.RentalFilterAdmitsOther | app/src/app/api/payments/route.ts:37-71 | a payment without a rental is labelled 'other' yet passes the 'rental' filter |
| PaymentsRoute.Pagination | app/src/app/api/payments/route.ts:130-137 | page and limit are echoed; without a count row total and pages are 0; with one, total is its value |
| PaymentsRoute.PagesIsCeiling | app/src/app/api/payments/route.ts:136 | for a positive limit, pages is the ceiling of total / limit |
| PaymentsRoute.PostParams | app/src/app/api/payments/route.ts:148-166 | POST is refused exactly when customer_id, staff_id or amount is falsy |
| PaymentsRoute.PostBindsAll | app/src/app/api/payments/route.ts:156-166 | the INSERT binds the body's customer_id, staff_id and amount, and rental_id or null when that is falsy |
| InventoryRoute.WhereClause | app/src/app/api/inventory/route.ts:52-54 | no condition gives an empty clause; otherwise "WHERE " followed by the conditions joined with " AND ", the same text the shared helper puts after its leading space |
| InventoryRoute.WhereMarksBindings | app/src/app/api/inventory/route.ts:33-54 | the WHERE clause shared by the count and the list queries holds one `:name` per parameter the conditions bind, so every placeholder has a value and no value goes unused |
| InventoryRoute.PushIf | app/src/app/api/inventory/route.ts:36-44 | one filter step appends its condition exactly when its test holds, keeping the bindings those of the conditions |
| InventoryRoute.PushFilters | app/src/app/api/inventory/route.ts:33-50 | the filter block yields exactly the specified condition list and its bindings |
| InventoryRoute.ShapeQueries | app/src/app/api/inventory/route.ts:26-112 | the count and the list query share one WHERE clause and its bindings; the list adds limit and offset = (page − 1) × pageSize |
| InventoryRoute.PagingDefaults | app/src/app/api/inventory/route.ts:29-74 | without page and pageSize, page is 1, pageSize 20 and offset 0 |
| InventoryRoute.StoreFilter | app/src/app/api/inventory/route.ts:27-44 | the store condition appears exactly for a non-empty storeId, '0' included, which binds 0 |
| InventoryRoute.AvailabilityFilter | app/src/app/api/inventory/route.ts:28-50 | 'available' adds the no-open-rental condition, 'rented' the open-rental one, any other value neither |
| InventoryRoute.OpenRentalId | app/src/app/api/inventory/route.ts:96-100 | an item has an open rental exactly when some unreturned rental points at it, and the id found is one of those |
| InventoryRoute.AvailableIffNoOpenRental | app/src/app/api/inventory/route.ts:46-88 | is_available is 1 exactly when the item has no open rental, and so agrees with the 'available' and 'rented' filters |
| InventoryRoute.SummaryPartition | app/src/app/api/inventory/route.ts:115-127 | every inventory row is counted as exactly one of available and rented, so the two add up to the total |
| InventoryRoute.Respond | app/src/app/api/inventory/route.ts:70-140 | page and pageSize are echoed; total is the count, or 0 without a count row |
| InventoryRoute.TotalPagesIsCeiling | app/src/app/api/inventory/route.ts:140 | for a positive pageSize totalPages is the ceiling of total / pageSize, 0 without a count row |
| StatsRoute.BuildSalesQuery | nextjs-app/src/app/api/stats/route.ts:100-117 | period 'year' groups sales by '%Y'; every other period keeps '%Y-%m' |
| StatsRoute.Stats | nextjs-app/src/app/api/stats/route.ts:13-158 | the sections filled are exactly those the type selects through the switch fall-through, in source order, overview always; the sales query is built exactly when the sales section is; limit defaults to 10 |
| StatsRoute.TypeSelectsSections | nextjs-app/src/app/api/stats/route.ts:40-158 | 'all' fills every section but playlistStats; 'albums', 'artists', 'genres', 'sales' and 'playlists' fill only their own besides the overview; 'trends' adds only trends, any other type nothing |
| StatsRoute.LimitDefault | nextjs-app/src/app/api/stats/route.ts:15 | an absent or empty limit is 10 |
| ArtistsRoute.ShapeListQuery | nextjs-app/src/app/api/artists/route.ts:10-28 | GET selects from Artist, adds `WHERE Name LIKE ?` bound to `%search%` only for a non-empty search, orders by the given column and upper-cased order, and reads page and limit with defaults 1 and 10 |
| ArtistsRoute.ListDefaults | nextjs-app/src/app/api/artists/route.ts:10-11 | without page and limit they are 1 and 10 |
| ArtistsRoute.CountRows | nextjs-app/src/app/api/artists/route.ts:33-38 | the count query returns, for artists of the page only, their true album count, and a row for every one of them that has albums |
| ArtistsRoute.FoundCount | nextjs-app/src/app/api/artists/route.ts:42 | `find(...)?.count \|\| 0` is 0 for an artist without a row, and otherwise the count of a row for that artist |
| ArtistsRoute.AttachAlbumCounts | nextjs-app/src/app/api/artists/route.ts:31-44 | the count query runs exactly for a non-empty page, and each artist of the page gets its number of albums (0 when it has none) |
| ArtistsRoute.ArtistStore.constructor | nextjs-app/src/app/api/artists/route.ts:63 | the artist and album tables start as given, row ids below the counter |
| ArtistsRoute.ArtistStore.Post | nextjs-app/src/app/api/artists/route.ts:53-66 | a falsy Name is a 400 with nothing inserted; otherwise a new artist row with that name |
| ArtistsRoute.ArtistStore.Put | nextjs-app/src/app/api/artists/route.ts:73-95 | no id is a 400, then a falsy Name is a 400; zero changed rows is a 404; otherwise only that artist's name changes |
| ArtistsRoute.ArtistStore.Delete | nextjs-app/src/app/api/artists/route.ts:102-124 | no id is a 400; an artist with albums is refused with a 400 before anything is removed; zero removed rows is a 404; otherwise the artist goes, and every album keeps an artist |
| ArtistsRoute.PutStatement | nextjs-app/src/app/api/artists/route.ts:88 | the UPDATE sets Name = ? where ArtistId = ?, binding the name and then the id |
| TracksRoute.ListQuery | nextjs-app/src/app/api/tracks/route.ts:9-13 | the AlbumId filter is used exactly when albumId is given and non-empty, its one argument is then the albumId text, and the statement has one `?` per argument |
| TracksRoute.Collected | nextjs-app/src/app/api/tracks/route.ts:63-74 | the update holds only listed fields, each with the body's value, exactly those that are not undefined; it is empty exactly when every listed field is undefined |
| TracksRoute.CollectedDistinct | nextjs-app/src/app/api/tracks/route.ts:63-74 | no field is collected twice |
| TracksRoute.CollectUpdates | nextjs-app/src/app/api/tracks/route.ts:68-74 | the loop builds exactly the collected update, and hasUpdates says whether it is non-empty |
| TracksRoute.UpdatedColumns | nextjs-app/src/app/api/tracks/route.ts:81 | an UPDATE sets each named column to its value and leaves every other column as it was |
| TracksRoute.PutChangesListedColumns | nextjs-app/src/app/api/tracks/route.ts:63-81 | after PUT a column holds the body's value when it is listed and defined in the body, and its old value otherwise; other body keys are ignored |
| TracksRoute.InsertData | nextjs-app/src/app/api/tracks/route.ts:34-43 | the INSERT names exactly the eight track columns, in order |
| TracksRoute.TrackStore.constructor | nextjs-app/src/app/api/tracks/route.ts:34 | the track table starts as given, row ids below the counter |
| TracksRoute.TrackStore.Post | nextjs-app/src/app/api/tracks/route.ts:24-46 | a falsy required field is a 400 with nothing inserted; otherwise a new row of the eight columns |
| TracksRoute.TrackStore.Put | nextjs-app/src/app/api/tracks/route.ts:53-88 | no id is a 400, then no listed field is a 400; zero changed rows is a 404; otherwise the row takes the collected fields |
| TracksRoute.TrackStore.Delete | nextjs-app/src/app/api/tracks/route.ts:95-109 | no id is a 400; zero removed rows is a 404; otherwise the row is removed |
| TracksRoute.ZeroPriceRefused | nextjs-app/src/app/api/tracks/route.ts:29 | a UnitPrice of 0 makes POST fail the required-field check |
| AlbumsRoute.ShapeListQuery | nextjs-app/src/app/api/albums/route.ts:15-58 | GET sends the base SELECT, the AND-joined search and artist conditions, GROUP BY a.AlbumId and then ORDER BY, binding `%search%` and the artist id only when given; page and limit default to 1 and 10 |
| AlbumsRoute.MarkersMatchParams | nextjs-app/src/app/api/albums/route.ts:37-49 | the WHERE clause has one '?' per bound parameter, and is absent exactly when neither search nor artistId is given |
| AlbumsRoute.UpdateData | nextjs-app/src/app/api/albums/route.ts:102-104 | the update holds Title and ArtistId exactly when each is truthy, and is empty exactly when neither is |
| AlbumsRoute.AlbumStore.constructor | nextjs-app/src/app/api/albums/route.ts:77 | the album table starts as given, row ids below the counter |
| AlbumsRoute.AlbumStore.Post | nextjs-app/src/app/api/albums/route.ts:67-80 | a falsy Title or ArtistId is a 400 with nothing inserted; otherwise a new album row |
| AlbumsRoute.AlbumStore.Put | nextjs-app/src/app/api/albums/route.ts:87-112 | no id is a 400, then neither field truthy is a 400; zero changed rows is a 404; otherwise only the truthy fields change |
| AlbumsRoute.AlbumStore.Delete | nextjs-app/src/app/api/albums/route.ts:119-133 | no id is a 400; zero removed rows is a 404; otherwise the row is removed |
| ChinookDtos.AtSignIsNotBlank | chinook/src/main/java/com/example/chinook/dto/EmployeeDto.java:33-37 | an e-mail containing '@' is never blank, so the blank check never rejects an address the '@' check accepts |
| ChinookDtos.NewPageResponse | chinook/src/main/java/com/example/chinook/dto/PageResponse.java:14-30 | the page is accepted unchanged exactly when content is present and pageNumber ≥ 0, pageSize > 0, totalElements ≥ 0 and totalPages ≥ 0; otherwise IllegalArgument |
| ChinookDtos.PageFlagsUnchecked | chinook/src/main/java/com/example/chinook/dto/PageResponse.java:14-30 | the first and last flags, and any non-negative totalPages, are not checked against each other |
| ChinookDtos.CheckName | chinook/src/main/java/com/example/chinook/dto/ArtistDto.java:10-13 | a null name is a null-reference exception (NullRef), a blank one an IllegalArgument, any other name passes |
| ChinookDtos.PaddedNamePasses | chinook/src/main/java/com/example/chinook/dto/ArtistDto.java:11 | surrounding a non-blank name with spaces keeps it valid: names are not trimmed |
| ChinookDtos.NewArtistDto | chinook/src/main/java/com/example/chinook/dto/ArtistDto.java:9-14 | accepted unchanged exactly for a present, non-blank name; NullRef for a null name, IllegalArgument for a blank one |
| ChinookDtos.NewGenreDto | chinook/src/main/java/com/example/chinook/dto/GenreDto.java:9-14 | accepted unchanged exactly for a present, non-blank name; NullRef for a null name, IllegalArgument for a blank one |
| ChinookDtos.NewMediaTypeDto | chinook/src/main/java/com/example/chinook/dto/MediaTypeDto.java:9-14 | accepted unchanged exactly for a present, non-blank name; NullRef for a null name, IllegalArgument for a blank one |
| ChinookDtos.NewPlaylistDto | chinook/src/main/java/com/example/chinook/dto/PlaylistDto.java:10-15 | accepted unchanged exactly for a present, non-blank name; NullRef for a null name, IllegalArgument for a blank one |
| ChinookDtos.PaddedGenreAndMediaTypeNames | chinook/src/main/java/com/example/chinook/dto/GenreDto.java:11 | a padded non-blank genre or media-type name is accepted as is |
| ChinookDtos.NewArtistDetailDto | chinook/src/main/java/com/example/chinook/dto/ArtistDto.java:22-28 | a null album list is a null-reference exception (NullRef); otherwise the name rules of ArtistDto decide |
| ChinookDtos.NewPlaylistDetailDto | chinook/src/main/java/com/example/chinook/dto/PlaylistDto.java:23-29 | a null track list is a null-reference exception (NullRef); otherwise the name rules of PlaylistDto decide |
| ChinookDtos.NewAlbumDto | chinook/src/main/java/com/example/chinook/dto/AlbumDto.java:11-17 | a null title or artist is a null-reference exception (NullRef); otherwise accepted unchanged exactly when the title is not blank, else IllegalArgument |
| ChinookDtos.NewAlbumDetailDto | chinook/src/main/java/com/example/chinook/dto/AlbumDto.java:26-33 | a null track list is a null-reference exception (NullRef); otherwise the rules of AlbumDto decide |
| ChinookDtos.NewTrackDto | chinook/src/main/java/com/example/chinook/dto/TrackDto.java:17-35 | a null name, media type, price or duration is a null-reference exception (NullRef); otherwise accepted unchanged exactly for a non-blank name, price ≥ 0, duration > 0 and bytes absent or ≥ 0, else IllegalArgument |
| ChinookDtos.NewTrackDetailDto | chinook/src/main/java/com/example/chinook/dto/TrackDto.java:50-69 | a null playlist list is a null-reference exception (NullRef); otherwise the rules of TrackDto decide |
| ChinookDtos.TrackPriceBoundary | chinook/src/main/java/com/example/chinook/dto/TrackDto.java:26-28 | a price of 0 is accepted and one below 0 refused, everything else equal |
| ChinookDtos.NewInvoiceItemDto | chinook/src/main/java/com/example/chinook/dto/InvoiceItemDto.java:13-24 | a null track, price or quantity is a null-reference exception (NullRef); otherwise accepted exactly for price ≥ 0 and quantity > 0, so the line amount is never negative |
| ChinookDtos.NewInvoiceDto | chinook/src/main/java/com/example/chinook/dto/InvoiceDto.java:19-27 | a null customer, date or total is a null-reference exception (NullRef); otherwise accepted exactly for a total ≥ 0, else IllegalArgument |
| ChinookDtos.NewInvoiceDetailDto | chinook/src/main/java/com/example/chinook/dto/InvoiceDto.java:42-51 | a null item list is a null-reference exception (NullRef); otherwise the rules of InvoiceDto decide |
| ChinookDtos.ItemsNotSummed | chinook/src/main/java/com/example/chinook/dto/InvoiceDto.java:42-51 | the items are never checked against the total: any item list gives the same verdict |
| ChinookDtos.NewEmployeeDto | chinook/src/main/java/com/example/chinook/dto/EmployeeDto.java:23-39 | a null first or last name is a null-reference exception (NullRef); otherwise accepted exactly for non-blank names and an e-mail that is absent or contains '@' |
| ChinookDtos.NewEmployeeDetailDto | chinook/src/main/java/com/example/chinook/dto/EmployeeDto.java:61-79 | a null subordinate or customer list is a null-reference exception (NullRef); otherwise the rules of EmployeeDto decide |
| ChinookDtos.NewCustomerDetailDto | chinook/src/main/java/com/example/chinook/dto/CustomerDetailDto.java:22-40 | a null first name, last name, e-mail or invoice list is a null-reference exception (NullRef); otherwise accepted exactly for non-blank names and an e-mail containing '@' |
| ChinookDtos.EmailOptionalOnlyForEmployees | chinook/src/main/java/com/example/chinook/dto/EmployeeDto.java:33-37 | an employee may drop the e-mail, a customer detail may not, and an e-mail valid for an employee is valid for a customer |
| Employees.FromDto | chinook/src/main/java/com/example/chinook/service/EmployeeServiceImpl.java:87-107 | a row built from a valid record carries its names and e-mail, with the manager given, and its names are not blank |
| Employees.ReachesRank | chinook/src/main/java/com/example/chinook/service/EmployeeServiceImpl.java:253-258 | walking up the reportsTo chain only ever reaches employees ranked lower, strictly lower once it has moved |
| Employees.NoCycle | chinook/src/main/java/com/example/chinook/service/EmployeeServiceImpl.java:253-258 | in a ranked hierarchy no employee's manager chain comes back to the employee, so the walk ends |
| Employees.ReachesTrans | chinook/src/main/java/com/example/chinook/service/EmployeeServiceImpl.java:253-258 | reaching a manager's manager through the chain is reaching it |
| Employees.ReachesComparable | chinook/src/main/java/com/example/chinook/service/EmployeeServiceImpl.java:253-258 | two employees on one chain above a third lie on one chain: the hierarchy is a forest |
| Employees.Subordinates | chinook/src/main/java/com/example/chinook/service/EmployeeServiceImpl.java:245 | the subordinates of a manager are exactly the employees that report to it |
| Employees.BelowGoesThroughReport | chinook/src/main/java/com/example/chinook/service/EmployeeServiceImpl.java:243-248 | anyone below an employee is below one of its direct reports |
| Employees.Reparent | chinook/src/main/java/com/example/chinook/service/EmployeeServiceImpl.java:228-260 | pointing an employee at a manager whose chain does not reach the employee keeps the hierarchy acyclic |
| Employees.BeforeOrder | chinook/src/main/java/com/example/chinook/service/EmployeeServiceImpl.java:247 | the case-insensitive last-name order is reflexive, total and transitive; the model breaks ties between equal last names by id, where the source keeps repository order, which makes it antisymmetric |
| Employees.FirstExists | chinook/src/main/java/com/example/chinook/service/EmployeeServiceImpl.java:247 | every non-empty set of subordinates has a first one in that order |
| Employees.FirstUnique | chinook/src/main/java/com/example/chinook/service/EmployeeServiceImpl.java:247 | the first one in that order is unique |
| Employees.FirstOf | chinook/src/main/java/com/example/chinook/service/EmployeeServiceImpl.java:247 | picks the first subordinate in that order |
| Employees.Sorted | chinook/src/main/java/com/example/chinook/service/EmployeeServiceImpl.java:245-247 | sorting the subordinates lists each of them exactly once |
| Employees.SortedInOrder | chinook/src/main/java/com/example/chinook/service/EmployeeServiceImpl.java:245-247 | the sorted list is in case-insensitive last-name order |
| Employees.ForestSnoc | chinook/src/main/java/com/example/chinook/service/EmployeeServiceImpl.java:245-248 | visiting one more subordinate appends that subordinate's whole subtree to the listing |
| Employees.HierarchyStep | chinook/src/main/java/com/example/chinook/service/EmployeeServiceImpl.java:245-248 | each step of the loop over the sorted subordinates appends the next subordinate's subtree, and that subordinate ranks between its manager and the bound |
| Employees.PreOrderMembers | chinook/src/main/java/com/example/chinook/service/EmployeeServiceImpl.java:243-248 | an employee's listing holds exactly the employees whose chain reaches it, itself included |
| Employees.ForestMembers | chinook/src/main/java/com/example/chinook/service/EmployeeServiceImpl.java:245-248 | the listing of a run of direct reports holds exactly the employees below one of them |
| Employees.PreOrderDistinct | chinook/src/main/java/com/example/chinook/service/EmployeeServiceImpl.java:238-248 | no employee appears twice in a listing |
| Employees.ForestDistinct | chinook/src/main/java/com/example/chinook/service/EmployeeServiceImpl.java:245-248 | the subtrees of distinct direct reports list no employee twice |
| Employees.SiblingsDisjoint | chinook/src/main/java/com/example/chinook/service/EmployeeServiceImpl.java:245-248 | no employee lies below two different direct reports of one manager |
| EmployeeService.EmployeeStore.Customers | chinook/src/main/java/com/example/chinook/service/EmployeeServiceImpl.java:151 | the customers of an employee are exactly those it is support rep for |
| EmployeeService.EmployeeStore.constructor | chinook/src/main/java/com/example/chinook/service/EmployeeServiceImpl.java:109-121 | the store starts with the given rows, acyclic and with every support rep an employee |
| EmployeeService.EmployeeStore.CreateEmployee | chinook/src/main/java/com/example/chinook/service/EmployeeServiceImpl.java:109-121 | a non-null e-mail some employee holds is an IllegalArgument with nothing saved (a null e-mail skips the check); otherwise a new row from the record, without a manager; e-mails stay unique |
| EmployeeService.EmployeeStore.UpdateEmployee | chinook/src/main/java/com/example/chinook/service/EmployeeServiceImpl.java:123-139 | an unknown id is not found; an e-mail held by another employee is an IllegalArgument, its own e-mail is allowed; otherwise the fields are copied and the manager kept; e-mails stay unique |
| EmployeeService.EmployeeStore.DeleteEmployee | chinook/src/main/java/com/example/chinook/service/EmployeeServiceImpl.java:141-156 | not found, then IllegalState with subordinates, then IllegalState with customers, each deleting nothing; otherwise the row is removed and the hierarchy stays valid |
| EmployeeService.EmployeeStore.GetEmployee | chinook/src/main/java/com/example/chinook/service/EmployeeServiceImpl.java:158-163 | the row, or EntityNotFound exactly for an unknown id |
| EmployeeService.EmployeeStore.GetEmployeeCustomerCount | chinook/src/main/java/com/example/chinook/service/EmployeeServiceImpl.java:207-213 | the number of customers the employee serves, or EntityNotFound exactly for an unknown id |
| EmployeeService.EmployeeStore.ValidateManagerAssignment | chinook/src/main/java/com/example/chinook/service/EmployeeServiceImpl.java:251-260 | the walk up from the manager throws IllegalArgument exactly when it reaches the employee, and it always ends |
| EmployeeService.EmployeeStore.AssignManager | chinook/src/main/java/com/example/chinook/service/EmployeeServiceImpl.java:215-231 | self-assignment is an IllegalArgument before any lookup; then an unknown employee or manager is not found; a manager below the employee is an IllegalArgument; otherwise only the employee's reportsTo changes and the hierarchy stays acyclic |
| EmployeeService.EmployeeStore.GetEmployeeHierarchy | chinook/src/main/java/com/example/chinook/service/EmployeeServiceImpl.java:233-241 | an unknown root is not found; otherwise the pre-order listing of the root's subtree |
| EmployeeService.BuildHierarchy | chinook/src/main/java/com/example/chinook/service/EmployeeServiceImpl.java:243-249 | appends the employee, then each subordinate's subtree in last-name order, to the list passed in |
| EmployeeService.HierarchyListsSubtree | chinook/src/main/java/com/example/chinook/service/EmployeeServiceImpl.java:233-249 | the listing starts with the root and holds every employee below it exactly once, and nobody else |
| CustomerService.ApplyDto | chinook/src/main/java/com/example/chinook/service/CustomerServiceImpl.java:95-113 | every scalar field takes the record's value, nulls included; a named rep must exist (a null id is an IllegalArgument, an unknown one not found) and replaces the old one; without one the old rep stays; it succeeds exactly when no rep or a known rep is named |
| CustomerService.ApplyDtoIdempotent | chinook/src/main/java/com/example/chinook/service/CustomerServiceImpl.java:95-113 | copying the same record twice is copying it once |
| CustomerService.ApplyDtoForgetsOldFields | chinook/src/main/java/com/example/chinook/service/CustomerServiceImpl.java:95-113 | only the old support rep survives a copy: rows with the same rep end up equal |
| CustomerService.CustomerStore.Invoices | chinook/src/main/java/com/example/chinook/service/CustomerServiceImpl.java:200-205 | the invoices of a customer are exactly those that belong to it |
| CustomerService.CustomerStore.constructor | chinook/src/main/java/com/example/chinook/service/CustomerServiceImpl.java:115-125 | the store starts with the given rows, ids below the counter |
| CustomerService.CustomerStore.CreateCustomer | chinook/src/main/java/com/example/chinook/service/CustomerServiceImpl.java:115-125 | an e-mail some customer holds is an IllegalArgument before anything is built; then a failing rep lookup saves nothing; otherwise a new row built from a blank one; non-null e-mails stay unique |
| CustomerService.CustomerStore.UpdateCustomer | chinook/src/main/java/com/example/chinook/service/CustomerServiceImpl.java:127-141 | an unknown id is not found before any e-mail check; an e-mail held by another customer is an IllegalArgument, its own is allowed; otherwise the row becomes the copy, or stays when the copy fails; e-mails stay unique |
| CustomerService.CustomerStore.DeleteCustomer | chinook/src/main/java/com/example/chinook/service/CustomerServiceImpl.java:143-150 | an unknown id is not found; otherwise the row is removed |
| CustomerService.CustomerStore.GetCustomer | chinook/src/main/java/com/example/chinook/service/CustomerServiceImpl.java:152-157 | the row, or EntityNotFound exactly for an unknown id |
| CustomerService.CustomerStore.GetCustomerDetail | chinook/src/main/java/com/example/chinook/service/CustomerServiceImpl.java:159-164 | the row with exactly its invoices, or EntityNotFound exactly for an unknown id |
| CustomerService.CustomerStore.GetCustomerInvoiceCount | chinook/src/main/java/com/example/chinook/service/CustomerServiceImpl.java:200-206 | the number of the customer's invoices, or EntityNotFound exactly for an unknown id |
| NamedCatalogs.NameTable.Tracks | chinook/src/main/java/com/example/chinook/service/GenreServiceImpl.java:91 | the tracks of a genre or media type are exactly those pointing at it |
| NamedCatalogs.NameTable.constructor | chinook/src/main/java/com/example/chinook/service/MediaTypeServiceImpl.java:60-67 | the table starts with the given rows, ids below the counter |
| NamedCatalogs.NameTable.Create | chinook/src/main/java/com/example/chinook/service/GenreServiceImpl.java:56-65 | a name some row holds is an IllegalArgument with nothing saved; otherwise a new row; names stay unique (createMediaType is the same) |
| NamedCatalogs.NameTable.Update | chinook/src/main/java/com/example/chinook/service/GenreServiceImpl.java:69-83 | an unknown id is not found; a name held by another row is an IllegalArgument, a row may keep its own; otherwise only the name changes; names stay unique (updateMediaType is the same) |
| NamedCatalogs.NameTable.Delete | chinook/src/main/java/com/example/chinook/service/GenreServiceImpl.java:86-96 | not found, then IllegalState for a row with tracks, each removing nothing; otherwise the row is removed (deleteMediaType is the same) |
| NamedCatalogs.NameTable.Get | chinook/src/main/java/com/example/chinook/service/GenreServiceImpl.java:99-111 | the row, or EntityNotFound exactly for an unknown id (also the with-tracks variant and the media-type reads) |
| NamedCatalogs.NameTable.TrackCount | chinook/src/main/java/com/example/chinook/service/GenreServiceImpl.java:134-140 | the number of tracks pointing at the row, or EntityNotFound exactly for an unknown id |
| NamedCatalogs.NameTable.TracksOf | chinook/src/main/java/com/example/chinook/service/GenreServiceImpl.java:142-149 | exactly the tracks pointing at the row, or EntityNotFound exactly for an unknown id |
| PlaylistService.WithTrack | chinook/src/main/java/com/example/chinook/service/PlaylistServiceImpl.java:120 | adding a track makes it a member, keeps every other member and the name |
| PlaylistService.WithoutTrack | chinook/src/main/java/com/example/chinook/service/PlaylistServiceImpl.java:133 | removing a track makes it a non-member, keeps every other member and the name |
| PlaylistService.AddIdempotent | chinook/src/main/java/com/example/chinook/service/PlaylistServiceImpl.java:120 | adding a track already present changes nothing; adding twice is adding once |
| PlaylistService.RemoveAbsent | chinook/src/main/java/com/example/chinook/service/PlaylistServiceImpl.java:133 | removing a track that is not there changes nothing |
| PlaylistService.AddThenRemove | chinook/src/main/java/com/example/chinook/service/PlaylistServiceImpl.java:120-133 | adding a new track and removing it restores the playlist |
| PlaylistService.RemoveThenAdd | chinook/src/main/java/com/example/chinook/service/PlaylistServiceImpl.java:120-133 | removing a present track and adding it back restores the playlist |
| PlaylistService.AddTrackCount | chinook/src/main/java/com/example/chinook/service/PlaylistServiceImpl.java:113-142 | adding a new track grows the count by one, a present one leaves it |
| PlaylistService.PlaylistStore.constructor | chinook/src/main/java/com/example/chinook/service/PlaylistServiceImpl.java:84-90 | the store starts with the given rows, ids below the counter |
| PlaylistService.PlaylistStore.CreatePlaylist | chinook/src/main/java/com/example/chinook/service/PlaylistServiceImpl.java:84-90 | a new playlist with the name and no tracks; names need not be unique |
| PlaylistService.PlaylistStore.UpdatePlaylist | chinook/src/main/java/com/example/chinook/service/PlaylistServiceImpl.java:92-100 | an unknown id is not found; otherwise only the name changes |
| PlaylistService.PlaylistStore.DeletePlaylist | chinook/src/main/java/com/example/chinook/service/PlaylistServiceImpl.java:102-109 | an unknown id is not found; otherwise the row is removed |
| PlaylistService.PlaylistStore.AddTrackToPlaylist | chinook/src/main/java/com/example/chinook/service/PlaylistServiceImpl.java:111-122 | an unknown playlist, then an unknown track, is not found; otherwise the track joins that playlist and no other changes |
| PlaylistService.PlaylistStore.RemoveTrackFromPlaylist | chinook/src/main/java/com/example/chinook/service/PlaylistServiceImpl.java:124-135 | an unknown playlist, then an unknown track, is not found; otherwise the track leaves that playlist and no other changes |
| PlaylistService.PlaylistStore.GetPlaylist | chinook/src/main/java/com/example/chinook/service/PlaylistServiceImpl.java:50-56 | the playlist with its tracks, or EntityNotFound exactly for an unknown id |
| PlaylistService.PlaylistStore.GetTrackCount | chinook/src/main/java/com/example/chinook/service/PlaylistServiceImpl.java:137-143 | the number of the playlist's tracks, or EntityNotFound exactly for an unknown id |
| InvoiceService.InvoiceFromDto | chinook/src/main/java/com/example/chinook/service/InvoiceServiceImpl.java:111-123 | the record's customer must exist (null id IllegalArgument, unknown not found); then customer, date, billing fields and total come from the record, and the total is not negative |
| InvoiceService.LinesTotalConcat | chinook/src/main/java/com/example/chinook/service/InvoiceServiceImpl.java:126-128 | the sum of two runs of lines is the sum of their sums |
| InvoiceService.LinesTotalNonNegative | chinook/src/main/java/com/example/chinook/service/InvoiceServiceImpl.java:126-128 | lines with non-negative prices and positive quantities never sum below zero |
| InvoiceService.LinesTotalSwap | chinook/src/main/java/com/example/chinook/service/InvoiceServiceImpl.java:126-128 | swapping neighbouring lines leaves the sum unchanged |
| InvoiceService.ValidateInvoiceItems | chinook/src/main/java/com/example/chinook/service/InvoiceServiceImpl.java:125-133 | passes exactly for a non-empty list whose amounts sum to the first line's invoice total; an empty list fails reading the first line, a mismatch is an IllegalArgument |
| InvoiceService.SalesByCountry | chinook/src/main/java/com/example/chinook/service/InvoiceServiceImpl.java:203-215 | one map per result row in order, holding exactly country, invoiceCount and totalSales from the row's first three columns; a short row fails |
| InvoiceService.InvoiceStore.LinesOf | chinook/src/main/java/com/example/chinook/service/InvoiceServiceImpl.java:154-158 | the lines of an invoice are exactly those that belong to it |
| InvoiceService.InvoiceStore.constructor | chinook/src/main/java/com/example/chinook/service/InvoiceServiceImpl.java:135-140 | the store starts with the given rows: ids below the counter, totals not negative, every line on an invoice |
| InvoiceService.InvoiceStore.CreateInvoice | chinook/src/main/java/com/example/chinook/service/InvoiceServiceImpl.java:135-140 | an unknown customer saves nothing; otherwise a new row built from the record |
| InvoiceService.InvoiceStore.UpdateInvoice | chinook/src/main/java/com/example/chinook/service/InvoiceServiceImpl.java:142-151 | an unknown id is not found, then an unknown customer is; otherwise every field is overwritten from the record |
| InvoiceService.InvoiceStore.DeleteInvoice | chinook/src/main/java/com/example/chinook/service/InvoiceServiceImpl.java:152-159 | an unknown id is not found; otherwise the invoice and its lines are removed |
| InvoiceService.InvoiceStore.GetInvoice | chinook/src/main/java/com/example/chinook/service/InvoiceServiceImpl.java:161-166 | the row, or EntityNotFound exactly for an unknown id |
| InvoiceService.InvoiceStore.GetInvoiceDetail | chinook/src/main/java/com/example/chinook/service/InvoiceServiceImpl.java:168-175 | the row with exactly its lines, or EntityNotFound exactly for an unknown id |

## Left out

- RentalUtils.DueDate: adds `duration` periods of 24 hours; `setDate` adds calendar days in local time, so across a daylight-saving change the source's due date differs by an hour. Time zones are not modelled.
- Dates and locales: `formatDate`, `formatCurrency` and the date display helpers use `Intl` and `Date` formatting. They are not modelled.
- Fractional numbers: JavaScript numbers are modelled as integers plus NaN and the infinities, so `parseFloat` fractions and floating-point rounding are not modelled.
- JsValues.ToNumber: covers "", and an optional sign followed by decimal digits. `Number` also trims surrounding white space, reads "0x"/"0o"/"0b" prefixes, exponents, fractions and "Infinity"; the model gives NaN for all of those. A page or size parameter written that way is clamped differently by the source.
- JsValues.ParseInt: covers an optional sign followed by decimal digits, with any tail ignored. `parseInt` without a radix also skips leading white space and reads a "0x" prefix as hexadecimal; the model gives NaN for a leading space and 0 for "0x…".
- String length: string lengths count characters, not UTF-16 code units.
- PaymentsPage.QueryString: `URLSearchParams.toString()` percent-encodes names and values; the model joins them as given.
- InventoryRoute.InventorySummary: SQL's SUM over no rows is NULL; the model gives 0 for the available and rented columns of an empty inventory.
- EmployeeService.EmployeeStore.constructor: requires the starting hierarchy to be acyclic. On a reportsTo cycle the source's `validateManagerAssignment` walk and `buildHierarchy` never terminate; the model assumes an acyclic start and proves that AssignManager keeps it acyclic.
- SQL execution: queries are not run. Tables are abstract maps, and the rows a query returns are parameters.
- AlbumsRoute.AlbumStore.Post, AlbumsRoute.AlbumStore.Put, AlbumsRoute.AlbumStore.Delete, TracksRoute.TrackStore.Post, TracksRoute.TrackStore.Put, TracksRoute.TrackStore.Delete, RentalsRoute.RentalStore.Post: both database modules turn `foreign_keys` on, so these statements of the source throw and answer 500: an insert or an update with a dangling ArtistId, AlbumId, MediaTypeId or GenreId, an insert with a dangling customer_id, staff_id or inventory_id, and a delete of an album that still has tracks or of a track that invoice lines point at. A track PUT may also set a NOT NULL column (Name, MediaTypeId, Milliseconds, UnitPrice) to null, since its guard is `!== undefined`, and that UPDATE fails with 500 as well. The model does not model these database rejections and reports success. In the rentals route the rental and payment inserts are not in one transaction, so a failed payment insert would leave the rental written; that case is not modelled either.
- PaymentsRoute.ShapeListQuery: the count query copies each bound filter's clause out of the list SQL with ``sql.split(` AND ${key}`)[1]`` (app/src/app/api/payments/route.ts:121-125). The list SQL holds ` AND p.customer_id = :customerId` and never ` AND customerId`, so for every filter that binds a parameter (customerId, staffId, rentalId, the date and amount bounds) `[1]` is undefined and the handler throws before running either query, answering 500. Only unfiltered requests and the paymentType filter reach the database, and then the count does not apply the paymentType condition. The model builds the list query and its bindings as written, takes the count as a parameter, and does not model the throw.
- The database file's default path is derived from the working directory. It is not modelled.
- The staff, inventory, payments, payments/[id], payments/stats and dashboard/stats routes of app/ import `{ executeQuery, getRecord }` from app/src/lib/db.ts, which has only a default export. Of these the model covers the inventory and payments routes, modelled on the app/src/lib/db-utils.ts helpers of the same names that they evidently mean.
- SQLite type affinity: the PUT and DELETE handlers of the albums, artists and tracks routes match a text id against the integer key through `RouteCommon.SqlId`, as integer affinity does (a text that reads as an integer matches that key, any other text nothing). Elsewhere, in the app/ routes' filters and bound values, values are compared as given.
- Logging (`console.log`, `console.error`) is left out.
- NextDb.DatabaseManager.Transaction: a failure to open the database is the `outcome` parameter, not a modelled cause. BEGIN, COMMIT and ROLLBACK are taken to succeed.
- SELECT texts: the long SELECT texts are kept abbreviated. Their structure (joins, conditions, GROUP BY, ORDER BY, LIMIT/OFFSET) is modelled; their column lists are not.
- The `sortBy` and `sortOrder` of the Next.js routes are interpolated into SQL unchecked. The model copies them as given and proves nothing about injection.
- Case-insensitive comparison and `toLowerCase`/`toUpperCase` fold ASCII letters only.
- New row ids come from a counter, standing in for SQLite's autoincrement.
- Exception messages are not modelled; only the exception kind is.
- Employees.Sorted: the source sorts direct reports with a stable sort on the case-insensitive last name alone, so equal last names keep the order the repository returns them in. The model has no repository order and breaks those ties by id; the pre-order listing is proved for that order.
- The hierarchy is returned as employee ids, not as nested DTOs.
- `CustomerDto` and the `Customer` entity are not part of this model. Their fields are taken from their use in `CustomerServiceImpl`.
- A `findByEmail` or `findByName` lookup that could match several rows counts as "the value is held by some row".
- Genre and media type: one `NameTable` models both services, which are the same code over different tables. Names are taken as already validated by the DTO constructors.
- The `getXWithTracks` variants behave like the plain `get` in the model. Their fetch joins only change loading.
- `validateInvoiceItems` is private and never called by the service. It is modelled on its own.
- The sales report cells are typed (country, count, total) rather than `Object`.
- Spring caching and `@Transactional` are not modelled. An update whose copy fails midway leaves the state unchanged.
- The services' paging, search, "top N" and by-country repository queries are left out. They are single repository calls with no logic of their own.
- The `toDto`/`convertToDto` conversion helpers are left out. They are not consistent with the DTO records: `CustomerServiceImpl.toEmployeeDto` passes 5 arguments to the 14-component `EmployeeDto`, `GenreServiceImpl.toTrackDto` passes 6 to the 9-component `TrackDto`, and some conversions that do match throw (the three lines below). The model returns entity rows, as the services evidently intend.
- CustomerService.CustomerStore.GetCustomerDetail: returns the row with its invoices. The source converts it with `toDetailDto`, and `CustomerDetailDto` throws for a null or blank first name, last name or e-mail and for an e-mail without '@'; the model returns the row in those cases.
- InvoiceService.InvoiceStore.GetInvoiceDetail: returns the invoice with its lines. The source converts each line through `toInvoiceItemDto` and `toTrackDto`, which passes a null media type that `TrackDto` rejects, so `getInvoiceDetail` throws a NullPointerException for every invoice that has a line; the model returns the invoice and its lines.
- NamedCatalogs.NameTable.TracksOf: returns the tracks of the row. `MediaTypeServiceImpl.toTrackDto` passes a null media type, which `TrackDto` rejects, so `getMediaTypeTracks` throws for every media type that has a track; the model returns the tracks.
