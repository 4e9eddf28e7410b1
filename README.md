# Tablet monitoring console — a verified model

This project models the core of a classroom tablet-monitoring console.
The server keeps seven tables:

- users
- students
- tablets
- activities
- alerts
- blocked sites
- security policies

A small REST layer serves those tables to a React console, which filters and arranges what it fetches.

The model has three layers:

- **Data layer** (`schema.dfy`, `storage.dfy`).
  - Each table row is a datatype. Nullable columns are `Option`. In an insert record, a nullable column with a default is the tri-state `Field`: left out, null, or a value.
  - The database's constraints (primary keys, unique columns, references) are the ghost predicate `Storage.Consistent`.
  - `Storage.DatabaseStorage` is a class with one sequence field per table. Its create, update and delete methods change those fields in place. Each method keeps `Consistent` and states its new state exactly. A create fails with a `DbError`, changing nothing, exactly when the database would reject the row.
  - The queries are functions over the tables. Each `ORDER BY` becomes a stable sort whose contract states a permutation of the selected rows in the requested order.
  - Row ids (`gen_random_uuid()`) and the clock (`defaultNow()`, `new Date()`, `Date.now()`) are parameters.
- **REST layer** (`routes.dfy`). A request is one case of `Routes.Request`, and the answer is a status plus a payload.
  - Reads are the pure function `Routes.QueryResponse`.
  - `Routes.Handle` calls the storage object for writes.
  - A database that does not answer is the `reachable` flag, which selects each handler's catch branch.
- **Client pages** (`dashboard.dfy`, `alerts_page.dfy`, `live_monitoring.dfy`, `students_page.dfy`, `student_detail.dfy`). These are pure functions over the fetched arrays. An array that has not loaded yet is `None`.

`wrappers.dfy`, `text.dfy` and `lists.dfy` hold the shared vocabulary:

- `Option` and `Result`;
- JavaScript's `includes` and ASCII `toLowerCase`;
- `Array.filter`, `slice`, and a lookup by key;
- a stable sort, with the lemmas about them.

Where the documentation of the system and its code disagree, the model follows the code. The two places where the code itself goes wrong are under "## Findings": the model keeps each as written beside a corrected definition, and the routes serve the corrected one.

- **`resolveAlert` and `updateTabletStatus` with an unknown id.** The documentation says they fail. The code updates no row and returns `undefined`, so the route answers 200 with an empty body. `Storage.DatabaseStorage.ResolveAlert` returns `Ok(None)` and `Routes.Handle` answers `NoBody`.
- **Listing alerts.** The documentation describes an optional filter. The route always passes `resolved === 'true'`, so without that parameter only alerts stored as unresolved are listed (`Routes.AlertsRouteDefault`). The alerts page fetches the route without a parameter, so its "resolved" filter can never list anything (`AlertsPage.ResolvedFilterEmptyOnPageFetch`).

## Model

| member | source | states |
|---|---|---|
| Schema.NewUser | shared/schema.ts:7-15 | a stored user has the assigned id and time; role defaults to 'teacher' |
| Schema.NewStudent | shared/schema.ts:17-25 | a stored student keeps its tablet id; isActive defaults to true |
| Schema.NewTablet | shared/schema.ts:27-38 | a new tablet defaults to status 'offline', screenTime 0, isBlocked false, and has the student the insert names (none by default) |
| Schema.NewActivity | shared/schema.ts:40-52 | an activity's timestamp is the insert time; duration defaults to 0 and isBlocked to false |
| Schema.NewAlert | shared/schema.ts:54-66 | a new alert defaults to severity 'medium' and isResolved false; resolvedBy and resolvedAt stay as given (null by default) |
| Schema.NewBlockedSite | shared/schema.ts:68-75 | a blocked site keeps its url; isActive defaults to true |
| Schema.NewSecurityPolicy | shared/schema.ts:77-84 | a policy keeps its rules; isActive defaults to true |
| Storage.InsertUserConsistent | shared/schema.ts:7-15 | a user with a fresh id and an unused username keeps every constraint |
| Storage.InsertStudentConsistent | shared/schema.ts:17-25 | a student with a fresh id and an unused non-null tablet id keeps every constraint (many null tablet ids are allowed) |
| Storage.InsertTabletConsistent | shared/schema.ts:27-38 | a tablet with a fresh id, an unused number and a null or existing student keeps every constraint |
| Storage.InsertActivityConsistent | shared/schema.ts:40-52 | an activity naming an existing student and tablet keeps every constraint |
| Storage.InsertAlertConsistent | shared/schema.ts:54-66 | an alert naming an existing student and tablet, with a null or existing resolver, keeps every constraint |
| Storage.InsertSiteConsistent | shared/schema.ts:68-75 | a blocked site with a fresh id keeps every constraint |
| Storage.InsertPolicyConsistent | shared/schema.ts:77-84 | a policy with a fresh id keeps every constraint |
| Storage.UserById | tablet-monitoring-export/server/storage.ts:66-69 | returns a user with that id, and none exactly when no user has it |
| Storage.UserByUsername | tablet-monitoring-export/server/storage.ts:71-74 | returns a user with that username, and none exactly when no user has it |
| Storage.AllStudents | tablet-monitoring-export/server/storage.ts:84-86 | every student exactly once, newest first |
| Storage.StudentById | tablet-monitoring-export/server/storage.ts:88-91 | returns a student with that id, and none exactly when no student has it |
| Storage.AllTablets | tablet-monitoring-export/server/storage.ts:110-136 | every tablet joined with its student, exactly once each, ordered by tablet number |
| Storage.TabletViewStudent | tablet-monitoring-export/server/storage.ts:129-135 | a listed tablet carries a student exactly when its studentId names an existing student, and then that student |
| Storage.AllTabletsAsWritten | tablet-monitoring-export/server/storage.ts:110-136 | the listing as written succeeds iff every tablet's join finds a student, and then equals the corrected listing |
| Storage.UnassignedTabletFailsAsWritten | tablet-monitoring-export/server/storage.ts:129-135 | once a tablet is created without a student, the listing as written fails whatever else is stored |
| Storage.TabletById | tablet-monitoring-export/server/storage.ts:138-141 | returns a tablet with that id, and none exactly when no tablet has it |
| Storage.UpdateStatusRows | tablet-monitoring-export/server/storage.ts:151-163 | rows with the id get the new status; isBlocked changes only when it is supplied; every other field and row is unchanged; an unknown id changes nothing |
| Storage.ActivitiesOfTablet | tablet-monitoring-export/server/storage.ts:182-184 | exactly the activities of that tablet |
| Storage.TabletActivities | tablet-monitoring-export/server/storage.ts:165-189 | at most 10 of the tablet's activities (all of them when there are fewer), newest first, none omitted that is newer than one returned |
| Storage.LockOnline | tablet-monitoring-export/server/storage.ts:191-196 | exactly the online tablets change, and in them only status (to 'blocked') and isBlocked (to true) |
| Storage.NoneOnlineAfterLock | tablet-monitoring-export/server/storage.ts:191-196 | after locking no tablet is online |
| Storage.LockIdempotent | tablet-monitoring-export/server/storage.ts:191-196 | locking twice equals locking once |
| Storage.LockBlockedCount | tablet-monitoring-export/server/storage.ts:191-196 | the blocked count grows by exactly the number of tablets that were online |
| Storage.BlockVisitingTabletExact | tablet-monitoring-export/server/storage.ts:207-211 | the named tablet is locked iff it exists and its current URL is non-null and includes the site; every other row is untouched |
| Storage.StudentActivitiesAsWritten | tablet-monitoring-export/server/storage.ts:222-240 | the rows the query returns as written, exactly once each and newest first: with an end date only the end bound is applied |
| Storage.StartDateDroppedAsWritten | tablet-monitoring-export/server/storage.ts:232-237 | with both dates given, an activity before the start date is still returned |
| Storage.StudentActivities | tablet-monitoring-export/server/storage.ts:222-240 | the student's activities within the date range, exactly once each, newest first |
| Storage.StudentActivitiesExact | tablet-monitoring-export/server/storage.ts:222-240 | an activity is returned iff it belongs to the student and lies within every bound given |
| Storage.AsWrittenAgreesOnOneBound | tablet-monitoring-export/server/storage.ts:222-240 | with at most one date, the query as written returns the same rows as the corrected one |
| Storage.AlertsQuery | tablet-monitoring-export/server/storage.ts:242-271 | the matching alerts joined with student and tablet, exactly once each, newest first |
| Storage.AlertsQueryExact | tablet-monitoring-export/server/storage.ts:242-271 | with a filter, exactly the alerts stored with that flag are listed (null matches neither); without one, every alert |
| Storage.AlertsQueryShorter | tablet-monitoring-export/server/storage.ts:266-268 | one alert without the requested flag makes the filtered list shorter than the table |
| Storage.AlertsQueriesDisjoint | tablet-monitoring-export/server/storage.ts:266-268 | the resolved and unresolved listings share no row |
| Storage.ResolveRows | tablet-monitoring-export/server/storage.ts:281-292 | the alert with the id becomes resolved, by the resolver, at the given time; nothing else changes |
| Storage.ResolveOverwrites | tablet-monitoring-export/server/storage.ts:281-292 | resolving an already-resolved alert is not guarded: the second resolver and time replace the first |
| Storage.ResolveConsistent | tablet-monitoring-export/server/storage.ts:281-292 | resolving with an existing user keeps every constraint |
| Storage.TabletRewriteConsistent | tablet-monitoring-export/server/storage.ts:151-163 | rewriting tablet rows without touching id, number or student keeps every constraint |
| Storage.AllBlockedSites | tablet-monitoring-export/server/storage.ts:294-296 | every blocked site exactly once, newest first |
| Storage.RemoveSite | tablet-monitoring-export/server/storage.ts:306-308 | exactly the sites with another id remain, in order |
| Storage.ActivePolicies | tablet-monitoring-export/server/storage.ts:310-312 | exactly the policies stored as active, in order |
| Storage.RoundDiv | tablet-monitoring-export/server/storage.ts:363-365 | `Math.round(s / n)`: the integer nearest s/n, with halves rounded up |
| Storage.RoundDivBetween | tablet-monitoring-export/server/storage.ts:363-365 | the rounded mean of values between lo and hi lies between lo and hi |
| Storage.DashboardStatsOf | tablet-monitoring-export/server/storage.ts:331-374 | total and online tablet counts (online ≤ total), unresolved alerts, active sites; the average is the rounded mean of online screen time (null as 0), or 0 when no tablet is online |
| Storage.AverageTimeBounds | tablet-monitoring-export/server/storage.ts:357-365 | with some tablet online, the average lies within any bounds [lo, hi] of the online screen times (so between the least and the greatest); with none online it is 0 |
| Storage.DashboardExample | tablet-monitoring-export/server/storage.ts:338-373 | two online tablets at 40 and 20 and one offline tablet give 2 active, 3 total, average 30 |
| Storage.StatsAfterLockAll | tablet-monitoring-export/server/storage.ts:342-365 | after locking all tablets the dashboard shows no active tablet and an average of 0 |
| Storage.ReportDescription | tablet-monitoring-export/server/storage.ts:376-386 | the report text starts with its kind and type; a missing or empty student id adds nothing |
| Storage.PdfReport | tablet-monitoring-export/server/storage.ts:376-380 | the PDF stub's text starts "PDF Report - Type: " |
| Storage.ExcelReport | tablet-monitoring-export/server/storage.ts:382-386 | the spreadsheet stub's text starts "Excel Report - Type: " |
| Storage.DatabaseStorage.constructor | tablet-monitoring-export/server/storage.ts:389 | a fresh store has empty tables and satisfies every constraint |
| Storage.DatabaseStorage.CreateUser | tablet-monitoring-export/server/storage.ts:76-82 | fails, with nothing changed, iff the id or username is taken; otherwise appends the defaulted row and returns it |
| Storage.DatabaseStorage.CreateStudent | tablet-monitoring-export/server/storage.ts:93-99 | fails, with nothing changed, iff the id or a non-null tablet id is taken; otherwise appends and returns the row |
| Storage.DatabaseStorage.CreateTablet | tablet-monitoring-export/server/storage.ts:143-149 | fails, with nothing changed, iff the id or number is taken or the student does not exist; otherwise appends and returns the row |
| Storage.DatabaseStorage.UpdateTabletStatus | tablet-monitoring-export/server/storage.ts:151-163 | the tablets become `UpdateStatusRows` of the old ones and nothing else changes; the updated row is returned, or nothing iff no tablet has the id |
| Storage.DatabaseStorage.LockAllTablets | tablet-monitoring-export/server/storage.ts:191-196 | the tablets become `LockOnline` of the old ones; nothing else changes |
| Storage.DatabaseStorage.BlockSiteForTablet | tablet-monitoring-export/server/storage.ts:198-212 | appends exactly one blocked site with the url and reason, category 'inappropriate' and isActive true, then locks the tablet if it is visiting the site; a missing url, or a taken id, changes nothing |
| Storage.DatabaseStorage.CreateActivity | tablet-monitoring-export/server/storage.ts:214-220 | fails, with nothing changed, iff the id is taken or the student or tablet does not exist; otherwise appends and returns the row |
| Storage.DatabaseStorage.CreateAlert | tablet-monitoring-export/server/storage.ts:273-279 | fails, with nothing changed, iff the id is taken, the student or tablet does not exist, or the resolver is not a user; otherwise appends and returns the row |
| Storage.DatabaseStorage.ResolveAlert | tablet-monitoring-export/server/storage.ts:281-292 | an unknown id changes nothing and returns nothing; a resolver who is not a user fails with nothing changed; otherwise the alerts become `ResolveRows` of the old ones and the resolved row is returned |
| Storage.DatabaseStorage.CreateBlockedSite | tablet-monitoring-export/server/storage.ts:298-304 | fails, with nothing changed, iff the id is taken; otherwise appends and returns the row |
| Storage.DatabaseStorage.DeleteBlockedSite | tablet-monitoring-export/server/storage.ts:306-308 | the sites become `RemoveSite` of the old ones; nothing else changes |
| Storage.DatabaseStorage.CreateSecurityPolicy | tablet-monitoring-export/server/storage.ts:314-320 | fails, with nothing changed, iff the id is taken; otherwise appends and returns the row |
| Routes.CatchResponse | tablet-monitoring-export/server/routes.ts:8-215 | a failing handler answers 400 for the five create routes and 500 for every other route, always with an error body |
| Routes.Attachment | tablet-monitoring-export/server/routes.ts:176-187 | the download is named `report-…` and ends in the format's extension |
| Routes.ExportResponse | tablet-monitoring-export/server/routes.ts:164-195 | 'pdf' answers the PDF content type and a .pdf filename; 'excel' answers the spreadsheet type and a .xlsx filename; any other or missing format answers 400 "Invalid format specified" and generates nothing; for pdf or excel, a report type the header cannot carry answers 500 "Failed to generate report" |
| Routes.AttachmentSafe | tablet-monitoring-export/server/routes.ts:177-187 | the Content-Disposition value is a valid header value iff the report type, as text, is |
| Routes.ExportLineBreakFails | tablet-monitoring-export/server/routes.ts:177-193 | a report type holding a line break makes the PDF export answer 500 |
| Routes.QueryResponse | tablet-monitoring-export/server/routes.ts:8-195 | GET student answers 404 iff no student has the id, else that student; 500 iff the store is down (for a non-export route) or a pdf/excel export's report type cannot go into a header; 400 iff an export names no known format; the alerts route lists only alerts carrying the flag `resolved === 'true'` selects; the tablet activity route lists at most 10 rows |
| Routes.StudentActivitiesRoute | tablet-monitoring-export/server/routes.ts:99-112 | with at most one date given, the activities route answers exactly the rows the query as written returns |
| Routes.TabletsRoute | tablet-monitoring-export/server/routes.ts:50-57 | when every tablet has a student, the tablets route answers exactly the listing as written; the listing as written fails iff some tablet has none |
| Routes.AlertsRouteFilters | tablet-monitoring-export/server/routes.ts:114-122 | once some alert does not carry the selected flag, the alerts route never answers the whole table |
| Routes.AlertsRouteDefault | tablet-monitoring-export/server/routes.ts:114-122 | without `resolved=true`, the alerts route answers exactly the alerts stored as unresolved |
| Routes.Handle | tablet-monitoring-export/server/routes.ts:6-216 | reads change nothing; a create with an unparsable body answers 400 with the fixed error and inserts nothing; each create answers 200 iff the body parsed and the store accepts the row (fresh id, unique columns free, references existing), and then returns exactly the new row and appends it to its table with nothing else changed; PUT status applies `UpdateStatusRows` with the path id and body fields and answers 200 with the updated row, or no body iff no tablet has the id; PUT resolve answers 500 (the catch response, nothing changed) iff the alert exists and the resolver is not a user, and otherwise answers 200 and applies `ResolveRows` and answers the resolved alert, or no body iff no alert has the id; lock-all applies `LockOnline` and answers success; block-site answers success iff a url was given and the site id is free, and then inserts the site from the path id and body and locks the visiting tablet, and otherwise answers the catch response with nothing changed; a storage failure becomes the catch response with nothing changed |
| Dashboard.Candidates | client/src/pages/dashboard.tsx:40-42 | the online, warning and blocked tablets (and no others), each exactly once, online before warning before blocked, and each status's tablets in their fetched order |
| Dashboard.CandidatesPermute | client/src/pages/dashboard.tsx:40-42 | the three status lists together hold exactly the tablets of those statuses |
| Dashboard.BandKept | client/src/pages/dashboard.tsx:40-42 | filtering the concatenation by one status gives back that status's list unchanged |
| Dashboard.Grid | client/src/pages/dashboard.tsx:241 | at most six cards, a prefix of the candidates, online before warning before blocked, never an offline tablet |
| Dashboard.GridComplete | client/src/pages/dashboard.tsx:241 | with at most six such tablets, every online, warning or blocked tablet gets a card |
| Dashboard.MoreTile | client/src/pages/dashboard.tsx:245-251 | the tile appears iff more than six tablets were fetched and shows the total minus six |
| Dashboard.MoreTileCountsHidden | client/src/pages/dashboard.tsx:245-251 | the tile's number equals the tablets left without a card iff no fetched tablet is offline or has another status |
| Dashboard.RecentAlerts | client/src/pages/dashboard.tsx:161-163 | the first three fetched alerts at most; none while unloaded |
| Dashboard.AlertTone | client/src/pages/dashboard.tsx:166-170 | high is destructive, medium yellow, any other severity orange |
| AlertsPage.FilteredAlerts | tablet-monitoring-export/client/src/pages/alerts.tsx:44-50 | an order-preserving sub-list holding exactly the alerts that match both filters, each as often as fetched; empty while unloaded |
| AlertsPage.AllFiltersKeepAll | tablet-monitoring-export/client/src/pages/alerts.tsx:44-50 | both filters on 'all' list every alert in order |
| AlertsPage.UnknownStatusKeepsNone | tablet-monitoring-export/client/src/pages/alerts.tsx:46-48 | a status filter other than all, active or resolved lists nothing |
| AlertsPage.ActiveBadge | tablet-monitoring-export/client/src/pages/alerts.tsx:121 | the badge is at most the listed count, and 0 iff every listed alert is resolved |
| AlertsPage.CountsOrdered | tablet-monitoring-export/client/src/pages/alerts.tsx:121-159 | badge ≤ listed ≤ fetched; the badge is 0 under 'resolved' and equals the listed count under 'active' |
| AlertsPage.ResolvedFilterEmptyOnPageFetch | tablet-monitoring-export/client/src/pages/alerts.tsx:18-20 | over what the alerts route answers without a parameter, the 'resolved' filter lists nothing |
| AlertsPage.SeverityText | tablet-monitoring-export/client/src/pages/alerts.tsx:65-76 | high, medium and low read Alta, Media and Baja; every other severity reads Desconocida |
| LiveMonitoring.FilteredTablets | tablet-monitoring-export/client/src/pages/live-monitoring.tsx:18-24 | an order-preserving sub-list, each kept tablet as often as fetched; 'online', 'warning' and 'blocked' keep exactly that status; empty while unloaded |
| LiveMonitoring.UnknownFilterKeepsAll | tablet-monitoring-export/client/src/pages/live-monitoring.tsx:19-23 | 'all', and any unrecognised value, lists every tablet in order |
| LiveMonitoring.ActiveDevices | tablet-monitoring-export/client/src/pages/live-monitoring.tsx:61 | the count is at most the listed count, and equals it iff every listed tablet is online |
| LiveMonitoring.ActiveDevicesUnderFilter | tablet-monitoring-export/client/src/pages/live-monitoring.tsx:18-61 | the count is 0 under the warning or blocked filter and the listed count under the online filter |
| StudentsPage.FilteredStudents | tablet-monitoring-export/client/src/pages/students.tsx:17-20 | an order-preserving sub-list holding exactly the students whose lower-cased name or grade includes the lower-cased query, each as often as fetched; empty while unloaded |
| StudentsPage.EmptyQueryKeepsAll | tablet-monitoring-export/client/src/pages/students.tsx:17-20 | an empty search lists every student in order |
| StudentsPage.QueryCaseIrrelevant | tablet-monitoring-export/client/src/pages/students.tsx:17-20 | lower-casing the query does not change the result |
| StudentsPage.NameHitListed | tablet-monitoring-export/client/src/pages/students.tsx:17-20 | a student whose name contains the query verbatim is listed |
| StudentsPage.PluralSuffix | tablet-monitoring-export/client/src/pages/students.tsx:69 | the label takes an 's' iff the count is not 1 |
| StudentDetail.AppIcon | tablet-monitoring-export/client/src/components/student-detail-modal.tsx:20-27 | a missing or empty app gets GraduationCap; Youtube iff the non-empty app contains 'youtube' (in any ASCII case), tested before the calculator words; Calculator iff the app contains 'calculadora' or 'calculator' and not 'youtube' |
| StudentDetail.YoutubeFirst | tablet-monitoring-export/client/src/components/student-detail-modal.tsx:23-25 | a name with both 'YouTube' and 'Calculator' gets the Youtube icon |
| StudentDetail.CategoryText | tablet-monitoring-export/client/src/components/student-detail-modal.tsx:42-53 | educational, entertainment and inappropriate get their labels; anything else, null included, reads Herramienta |
| StudentDetail.JsRem | tablet-monitoring-export/client/src/components/student-detail-modal.tsx:123 | JavaScript's `%`: x = n·q + r with q the quotient truncated toward zero; the remainder has the dividend's sign and is smaller than the divisor |
| StudentDetail.ReadingSplits | tablet-monitoring-export/client/src/components/student-detail-modal.tsx:123 | for t ≥ 0 (null as 0) the reading is h = ⌊t/60⌋ and m < 60, with h·60 + m = t |
| StudentDetail.NegativeReading | tablet-monitoring-export/client/src/components/student-detail-modal.tsx:123 | a negative time mixes a floored hour and a truncated remainder: -61 reads -2h -1min |
| StudentDetail.RecentActivities | tablet-monitoring-export/client/src/components/student-detail-modal.tsx:153-155 | the first five fetched activities at most; none while unloaded |

## Left out

- **Query execution.** The Drizzle/Postgres execution and its connection are not modelled. Tables are sequences and every statement is atomic.
- **Text ordering.** The collation of text columns is code-point lexicographic order (`Text.LexLe`). Ties in an `ORDER BY` keep table order; the database may order ties differently.
- **Ids and clock.** Row ids and clock values are parameters. Ids are only compared, never generated.
- **Body parsing.** The Zod parsing of request bodies is not modelled. A create request carries the parsed insert record, or `None` when parsing failed.
- **Date parameters.** Date query strings are not parsed: `GetStudentActivities` takes timestamps, and an empty string is an absent bound.
- **Missing PUT body fields.** PUT status and PUT resolve with a missing body field are left out, because the ORM's handling of an `undefined` set value cannot be seen. The model always receives a status string and a resolver string.
- **updateStudent and updateSecurityPolicy.** No route reaches these storage methods, so they are not modelled.
- **Concurrency.** Concurrent requests and the non-atomic insert-then-update of `blockSiteForTablet` are not modelled; the model is sequential.
- **Report stubs.** They are modelled as their text; the byte buffer and real document formats are not.
- **JSON serialisation.** Dates become strings and `undefined` bodies are sent empty. The model keeps typed payloads and `NoBody`.
- **Client rendering.** React rendering, hooks, the query client and its refetch timers, toasts and `window.open` are not modelled. Pages receive the fetched arrays as `Option<seq<…>>`.
- **Lower-casing.** Only ASCII letters are lower-cased. JavaScript's Unicode case mapping is not modelled.
- **Rounding.** `Math.round` is exact integer rounding. Floating-point error for sums beyond 2^53 is not modelled.
- **Label tables.** The label and colour tables of the tablet card, security and sidebar components are not modelled, and neither are the report pages' URL building.
- **Runtime behaviour of libraries.** Three behaviours come from libraries whose code is not part of this model, and the model assumes them:
  - the query builder's second `.where()` replaces the first;
  - its left join gives an unmatched row a null `student` object rather than one with null fields;
  - the HTTP server's `setHeader` rejects a value holding a character other than tab, printable ASCII or U+0080 to U+00FF.
- Routes.QueryResponse: GET /api/students/:id/activities answers the corrected `Storage.StudentActivities` and GET /api/tablets the corrected `Storage.AllTablets`, not the source's behaviour under the two findings below. `Routes.StudentActivitiesRoute` and `Routes.TabletsRoute` state when the two agree.
- Storage.TabletActivities: states the kept rows as a sub-multiset of the tablet's rows, of size min(10, n), newest first, with nothing newer left out. It does not say which of several equally old rows the database keeps.

## Findings

| source | as written | input that shows it | evidently intended | confidence | as-written member | corrected member |
|---|---|---|---|---|---|---|
| tablet-monitoring-export/server/storage.ts:232-237 | with both dates given, the end-date `.where()` replaces the start-date one, so only the end bound is applied | student s1 with one activity at time 5, startDate 10, endDate 20: the activity is returned | both bounds applied together | medium (the query builder's `.where()` replaces its condition); not executed | Storage.StudentActivitiesAsWritten | Storage.StudentActivities |
| tablet-monitoring-export/server/storage.ts:110-136 | an unmatched left join yields a null `student`, and `row.student.id` then throws, so GET /api/tablets answers 500 | one tablet created without a student (the default): the listing fails | a tablet without a student listed with `student` undefined, as the `row.student.id ?` test intends | medium (depends on the query builder nulling an all-NULL joined object); not executed | Storage.UnassignedTabletFailsAsWritten | Storage.AllTablets |
