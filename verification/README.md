# SmartLeaveX leave service and its browser rules, in Dafny

SmartLeaveX lets employees apply for leave and lets an administrator review
every request. Two keyed tables hold the data. The leave table is keyed by
`leave_id`. The balance table is keyed by `employee_email` and holds a day
balance. Five stateless handlers work on the two tables:

- create-leave validates an application, counts its days inclusively, checks
  them against the balance (creating a 20-day balance item on first use) and
  writes a `pending` leave;
- approve-reject overwrites a leave's status and, on approval, takes the
  leave's days off a balance;
- get-balance, get-leaves and get-all-leaves read the tables.

The browser adds a few rules of its own:

- the application shell routes between views by role, with one hard-coded
  administrator e-mail;
- the leave form has a required-field gate;
- the employee dashboard falls back to 20 days when the balance is unknown or 0;
- the administrator's table has a status filter, an e-mail search, status
  counts and status colours.

The project is organised by module:

- `Calendar` (calendar.dfy) reads `%Y-%m-%d` dates the way Python's
  `strptime` does. It numbers days by a proleptic Gregorian ordinal, so the
  inclusive day count is the difference of two ordinals plus one.
- `Records` (records.dfy) holds the stored leave item, the JSON request body
  and the handler responses.
- `LeaveService` (leave_service.dfy) holds the two writing handlers as the
  methods `Create` and `Decide`. They belong to the class `LeaveStore`, which
  owns the two tables as maps. The outside world is passed in as values:
  - the fresh id and the clock;
  - whether each store call fails;
  - why each e-mail failed, if it did.
- `LeaveQueries` (leave_queries.dfy) holds the three read-only handlers. They
  are functions of the table they read.
- `AdminView`, `AppShell`, `LeaveFormView` and `DashboardView` hold the four
  browser components. Each is a class with the component's state, plus the
  pure rules it renders by. A request's outcome is an input to the method
  that handles it.

Behaviour worth knowing:

- create-leave does not refuse an end date before the start date. The day
  count is then 0 or less. Such a request passes the balance check whenever
  the available balance is at least that count, so always when the balance
  is not negative.
- A successful create answers 200.
- approve-reject takes any action text, and "approve" is the only one that
  approves. It has no "must be pending" check, so a decided leave can be
  decided again, and a second approval deducts again. `ApprovalLinkFollowedTwice`
  shows this on the worked example.
- The deduction goes to the balance of the e-mail in the REQUEST, not the
  leave's own employee.
- get-balance never writes. create-leave does persist a 20-day item the
  first time it sees an employee, and the item stays even if that request is
  then refused.

## Model

| member | source | states |
|---|---|---|
| Calendar.ParseDate | lambdas/create-leave.py:75-76 | a date that `strptime('%Y-%m-%d')` accepts is a real calendar day in years 1..9999, written in 8 to 10 characters with `-` after a four-digit year |
| Calendar.MonthField | lambdas/create-leave.py:75-76 | `%m` reads a month 1..12 from one or two characters, and the characters it consumed are a spelling of that month: two digits, or one digit for months below 10 |
| Calendar.DayField | lambdas/create-leave.py:75-76 | `%d` reads a day 1..31 from one or two characters, and the characters it consumed are a spelling of that day: two digits, or for days below 10 one digit or a space and one digit |
| Calendar.Iso | lambdas/create-leave.py:75-76 | the zero-padded `YYYY-MM-DD` text of a date is 10 characters long, digits everywhere except the two `-` at positions 4 and 7, and is one of the date's accepted spellings |
| Calendar.ParseDateSpellings | lambdas/create-leave.py:75-76 | a text parses to a date iff the date is a real day in years 1..9999 and the text is one of its spellings: four year digits, `-`, a month spelling, `-`, a day spelling, and nothing after |
| Calendar.ParseDateExamples | lambdas/create-leave.py:75-76 | "2024-1-5" and "2024-01- 5" read as 5 January 2024; 30 February, month 13, year 0 and a trailing character are refused |
| Calendar.ParseIso | lambdas/create-leave.py:75-76 | every zero-padded `YYYY-MM-DD` text of a valid day parses back to that day (round trip) |
| Calendar.Ordinal | lambdas/create-leave.py:77 | 1 January of year 1 has ordinal 1, and a valid day's ordinal lies within its year's block of ordinals |
| Calendar.NextDayOrdinal | lambdas/create-leave.py:77 | the day after a valid day is valid and later, and its ordinal is one more |
| Calendar.OrdinalIncreasing | lambdas/create-leave.py:77 | the day ordinal is strictly increasing in chronological order |
| Calendar.DayCount | lambdas/create-leave.py:77 | the inclusive count is at least 1 iff the end is not before the start, and exactly 1 iff both are the same day; an end before the start gives 0 or less |
| Calendar.DayCountNext | lambdas/create-leave.py:77 | moving the end one day later adds exactly one day to the count |
| LeaveService.ParseApplication | lambdas/create-leave.py:36-77 | OPTIONS gives 204 with an empty body; unparseable JSON gives 400 "Invalid JSON in request body"; a missing or empty field gives 400 "Missing required fields"; a non-object body or an unparseable date gives 500; otherwise the five fields are taken as sent and `days` is the inclusive count |
| LeaveService.AvailableBalance | lambdas/create-leave.py:86-104 | the balance checked is the item's `balance`, 0 when the item lacks the attribute, and 20 when there is no item |
| LeaveService.WithBalanceItem | lambdas/create-leave.py:97-104 | the check adds a 20-day item for an employee without one and changes no other item |
| LeaveService.NewLeave | lambdas/create-leave.py:126-136 | the written item carries the fresh id, the five fields as sent, status `pending`, the creation time and the computed days |
| LeaveService.EmailErrors | lambdas/create-leave.py:142-206 | one labelled entry per failed mail, the employee's confirmation first and the approver's notification last |
| LeaveService.Params | lambdas/approve-reject.py:29-39 | an object body supplies the parameters (a body that is not an object is refused with 500 by `ParseDecision`); without a body the query string supplies them, and a missing query string supplies none |
| LeaveService.ParseDecision | lambdas/approve-reject.py:28-47 | parameters come from a non-empty body, else from the query string; a body that is not a JSON object gives 500; a missing or empty `leave_id`, `action` or `employee_email` gives 400 "Missing parameters" |
| LeaveService.NewStatus | lambdas/approve-reject.py:51 | the status is `approved` iff the action is exactly "approve", `rejected` for any other action |
| LeaveService.Deducted | lambdas/approve-reject.py:78-84 | the deduction changes only the named employee's balance, lowers it by exactly `days`, and does nothing when the item or its `balance` attribute is missing |
| LeaveService.LeaveStore.constructor | lib/smartleave-x-mvp-stack.ts:10-21 | the two tables start empty, keyed by `leave_id` and by `employee_email` |
| LeaveService.LeaveStore.Create | lambdas/create-leave.py:26-220 | keeps every leave well formed; a parse error returns that error and changes nothing; a failing balance call gives 500 and changes nothing; otherwise the balance table gains a 20-day item for a new employee (kept even on refusal) and nothing else; fewer available days than requested gives 400 with both numbers and writes no leave; a failed leave write gives 500; success adds exactly one `pending` leave under the fresh id with the computed days, leaves balances as they were, and answers 200 whatever the mails did |
| LeaveService.LeaveStore.Decide | lambdas/approve-reject.py:24-116 | keeps every leave well formed; a parse error, read failure or status-write failure changes nothing; an unknown id gives 404 "Leave not found"; otherwise only the `status` of that one leave is overwritten, whatever it was; on "approve" the REQUEST's employee balance loses the leave's days (0 if absent) unless the deduction fails, which is swallowed; the answer is 200 "Leave approved" or "Leave rejected" |
| LeaveService.ExampleRequestAdmitted | lambdas/create-leave.py:59-77 | the request for 2024-01-10..2024-01-12 is admitted with 3 days |
| LeaveService.ExampleLinkParsed | lambdas/approve-reject.py:34-39 | an approval link without a body is read from its query string |
| LeaveService.ApprovalLinkFollowedTwice | lambdas/approve-reject.py:51-84 | following one approval link twice answers 200 both times, leaves the status `approved` and deducts the 3 days twice (20 - 3 - 3) |
| LeaveQueries.EmailParam | lambdas/get-balance.py:21-23 | the e-mail is read only from a non-empty query string with a non-empty `email` |
| LeaveQueries.GetBalance | lambdas/get-balance.py:21-55 | no e-mail gives 400 "Email parameter required"; a read failure gives 500; otherwise 200 with the stored balance, or 20 when the item or the attribute is missing; it is a function of the balance table, so it writes nothing |
| LeaveQueries.GetBalanceAsWritten | lambdas/get-balance.py:21-55 | as written, a missing e-mail gives 400 "Email parameter required" and a failed read gives 500; with an e-mail and a successful read it answers 500 exactly when the employee's item stores a balance, and otherwise it agrees with `GetBalance` |
| LeaveQueries.StoredBalanceNotReported | lambdas/get-balance.py:37-48 | for a stored balance of 17, the handler as written answers 500 where the intended one answers 200 with 17 |
| LeaveQueries.ListMine | lambdas/get-leaves.py:24-57 | no e-mail gives 400; a scan failure gives 500; otherwise exactly the stored leaves whose `employee_email` equals the query (case-sensitive), unchanged, and an empty result when there are none |
| LeaveQueries.ListAll | lambdas/get-all-leaves.py:17-38 | a scan failure gives 500; otherwise every stored leave and nothing else, whatever the event |
| LeaveQueries.BalanceReadVersusCheck | lambdas/get-balance.py:37-42 | get-balance and create-leave's check report the same balance, except for an item without the attribute: 20 when read, 0 when checked |
| LeaveQueries.ListAllCoveredByListMine | lambdas/get-leaves.py:37-42 | over well-formed tables, every leave in the full list is also in its own employee's list |
| AdminView.Filter | frontend/src/components/AdminDashboard.tsx:59-66 | a filter keeps the elements that satisfy it in their order and with their multiplicities, and drops the rest |
| AdminView.FiltersCommute | frontend/src/components/AdminDashboard.tsx:54-69 | two filters applied in either order give the same list |
| AdminView.ToLower | frontend/src/components/AdminDashboard.tsx:65 | lower-casing maps each ASCII capital to its small letter and keeps every other character, one for one |
| AdminView.FilterLeaves | frontend/src/components/AdminDashboard.tsx:54-69 | status "all" with an empty search gives the full list; otherwise an order-preserving subsequence holding exactly the selected leaves with their multiplicities |
| AdminView.FilterLeavesMembership | frontend/src/components/AdminDashboard.tsx:58-66 | a leave is shown iff it is stored, has the chosen status (unless "all") and its lower-cased e-mail contains the lower-cased search (unless empty) |
| AdminView.FilterOrderIrrelevant | frontend/src/components/AdminDashboard.tsx:54-69 | searching before filtering by status gives the same table |
| AdminView.StatusCount | frontend/src/components/AdminDashboard.tsx:83-85 | a count is at most the total and is 0 iff no leave has that status |
| AdminView.StatusCountIsNumberWithStatus | frontend/src/components/AdminDashboard.tsx:83-85 | each card shows the number of leaves whose status is exactly that text |
| AdminView.StatusCountsBounded | frontend/src/components/AdminDashboard.tsx:83-117 | pending + approved + rejected never exceed the total card |
| AdminView.StatusColor | frontend/src/components/AdminDashboard.tsx:72-80 | green iff approved, red iff rejected, orange for every other text |
| AdminView.AdminDashboard.constructor | frontend/src/components/AdminDashboard.tsx:21-26 | the table starts empty and loading, with status "all" and an empty search |
| AdminView.AdminDashboard.RunFilterEffect | frontend/src/components/AdminDashboard.tsx:32-34 | the filter effect recomputes the shown list from the leaves, status and search, and changes nothing else |
| AdminView.AdminDashboard.FetchAllLeaves | frontend/src/components/AdminDashboard.tsx:36-52 | success replaces the leaves and clears the error; failure keeps the leaves and sets "Failed to fetch leaves"; loading is false either way and the shown list is re-filtered |
| AdminView.AdminDashboard.SelectStatus | frontend/src/components/AdminDashboard.tsx:126-128 | choosing a status changes the filter and re-filters, nothing else |
| AdminView.AdminDashboard.SearchFor | frontend/src/components/AdminDashboard.tsx:140-145 | typing a search changes the search and re-filters, nothing else |
| AppShell.HomeView | frontend/src/App.tsx:43-50 | the admin e-mail lands on the admin table, every other e-mail on the dashboard |
| AppShell.Render | frontend/src/App.tsx:62-106 | loading shows only the loading screen; the dashboard and the form render only for a non-admin, the admin table only for the admin, the login screen for the login view |
| AppShell.ShowsLogout | frontend/src/App.tsx:74-81 | the header shows the e-mail and the logout button once loading is over and the e-mail is not empty; its partners are the contracts of `InitializeApp`, `HandleLoginSuccess` and `HandleLogout` |
| AppShell.ConsistentStateRenders | frontend/src/App.tsx:85-106 | the main area is empty exactly when the view does not fit the user's role |
| AppShell.HomeViewConsistent | frontend/src/App.tsx:43-50 | the landing view always fits its user and renders that user's component |
| AppShell.App.constructor | frontend/src/App.tsx:12-14 | the shell starts on the login view, with nobody signed in, loading |
| AppShell.App.InitializeApp | frontend/src/App.tsx:20-41 | a restored session sets the e-mail and its landing view; no user or a failure sets the login view; loading ends in every case; after a restored session the logout button shows iff the restored e-mail is not empty |
| AppShell.App.HandleLoginSuccess | frontend/src/App.tsx:43-50 | signing in stores the e-mail and goes to its landing view; once loading is over the logout button shows iff the e-mail is not empty |
| AppShell.App.HandleLogout | frontend/src/App.tsx:52-60 | a successful sign-out clears the e-mail, shows the login view and hides the logout button; a failed one changes nothing |
| AppShell.App.ApplyNewLeave | frontend/src/App.tsx:92 | the dashboard's apply button switches to the form, which then renders |
| AppShell.App.LeaveFormDone | frontend/src/App.tsx:99-100 | both form callbacks return to the dashboard, which then renders |
| LeaveFormView.FormComplete | frontend/src/components/LeaveForm.tsx:26 | the gate lets a form through exactly when create-leave's required-field check accepts its body for every non-empty signed-in e-mail |
| LeaveFormView.RequestBody | frontend/src/components/LeaveForm.tsx:36-44 | the posted body has exactly the five fields, with `employee_email` always the signed-in user |
| LeaveFormView.GateMatchesServiceCheck | frontend/src/components/LeaveForm.tsx:26-44 | a body that passes the form's gate passes create-leave's field check iff the signed-in e-mail is non-empty; with an empty one the service answers 400 "Missing required fields" |
| LeaveFormView.PickedDatesAdmitted | frontend/src/components/LeaveForm.tsx:100-120 | dates from the date inputs (`YYYY-MM-DD`) are admitted by create-leave for the signed-in user with the inclusive day count |
| LeaveFormView.FailureMessage | frontend/src/components/LeaveForm.tsx:62-63 | the server's non-empty `error` is shown, otherwise "Failed to apply leave" |
| LeaveFormView.LeaveForm.constructor | frontend/src/components/LeaveForm.tsx:15-21 | the form starts with empty fields, no message and not loading |
| LeaveFormView.LeaveForm.HandleSubmit | frontend/src/components/LeaveForm.tsx:23-67 | an empty field sets "All fields are required" and sends nothing; otherwise the request body is sent; on success the message is set and the four fields are cleared; on failure the error is set and the fields are kept; loading is false after every sent request |
| DashboardView.ShownBalance | frontend/src/components/Dashboard.tsx:57 | a reported balance is shown unless it is absent or 0, which show 20 |
| DashboardView.DaysCell | frontend/src/components/Dashboard.tsx:124 | the days cell is a dash iff `days` is absent or 0, otherwise the days |
| DashboardView.ShownBalanceOfStore | frontend/src/components/Dashboard.tsx:51-57 | against the intended get-balance, the dashboard shows the stored balance when it is present and not 0, and 20 otherwise |
| DashboardView.BalanceReplyOf | frontend/src/components/Dashboard.tsx:51-61 | the HTTP client throws exactly for a status outside 2xx; otherwise the dashboard receives the body's `balance` |
| DashboardView.StoredBalanceHiddenAsWritten | frontend/src/components/Dashboard.tsx:32-61 | a dashboard loading against get-balance as written, for an employee with a stored balance, shows 20 days and no error, whatever is stored |
| DashboardView.StoredBalanceShownAsIntended | frontend/src/components/Dashboard.tsx:32-61 | the same load against the corrected get-balance shows the stored balance, unless it is 0 |
| DashboardView.Dashboard.constructor | frontend/src/components/Dashboard.tsx:23-26 | the dashboard starts with no leaves, balance 0, loading and no error |
| DashboardView.Dashboard.FetchLeavesAndBalance | frontend/src/components/Dashboard.tsx:32-68 | a failed leaves request sets "Failed to fetch data", makes no balance request and keeps the balance; otherwise the leaves are stored, the balance is requested, a failed balance request shows 20 without an error, and an answer shows its fallback rule; loading ends in every case |

## Findings

| source | as written | input that shows it | evidently intended | confidence | as-written member | corrected member |
|---|---|---|---|---|---|---|
| lambdas/get-balance.py:44-48 | the balance read from the store is a decimal, and the response is encoded without `default=str`, so encoding raises and the handler answers 500 | an employee whose item stores `balance` 17 | 200 with `{"balance": 17}`, the stored balance sent as a JSON number (for example by converting it with `int(balance)` before encoding) | high, not executed (boto3's resource interface returns numbers as `Decimal`, which `json.dumps` refuses) | LeaveQueries.GetBalanceAsWritten, LeaveQueries.StoredBalanceNotReported | LeaveQueries.GetBalance |

The rest of the model uses the corrected `GetBalance`. `DashboardView.StoredBalanceHiddenAsWritten`
runs the dashboard against the handler as written: its balance request fails for
every employee with a stored balance, so every such employee is shown 20 days.
`DashboardView.StoredBalanceShownAsIntended` runs it against the corrected handler.

## Left out

- Logging, HTTP headers and CORS are not modelled.
- Response bodies are modelled as values, not JSON text.
- Exception texts (`str(e)`) are not modelled. Every caught exception is the payload `Fault` with status 500.
- Insufficient-balance texts are modelled by their two numbers. A flag records the variant that writes "days" after them.
- JSON field values are modelled as strings. A non-string value that is truthy (a number, say) is not modelled. A JSON `null` is modelled as an absent key.
- A request body is modelled as absent, unparseable, non-object or an object. A create-leave event whose `body` key is present but null is not modelled; it is treated like a missing body.
- AdminView.ToLower: only the ASCII capitals A to Z are lower-cased. JavaScript's `toLowerCase` maps every Unicode capital, and for some characters (such as `İ`) it returns a longer string; neither is modelled.
- A corrected get-balance that encoded the balance with `default=str` would send it as text. A balance of 0 would then arrive as "0", which the dashboard shows as 0 rather than 20. `LeaveQueries.GetBalance` models a correction that sends a JSON number, and `DashboardView.ShownBalanceOfStore` and `DashboardView.StoredBalanceShownAsIntended` hold for that correction only.
- `strptime` is modelled for ASCII digits only. Python's `\d` also accepts other Unicode decimal digits, and those are not modelled.
- The timestamp `created_at` is an opaque input, and the leave id is a fresh-id input. Uniqueness of `uuid4` is not modelled.
- The body of each e-mail and each link is not modelled. An e-mail send is modelled only as success or failure, with a reason on failure.
- approve-reject's notification mail is left out. Its failure is swallowed and changes nothing in the model.
- A scan is modelled as the whole table. Pagination is not modelled. Scan order is not modelled either, so list results are maps keyed by `leave_id`.
- The list handlers encode decimals as strings on the wire. A `days` value of 0 therefore arrives as the text "0", which the browser shows rather than a dash. This encoding is not modelled. `DashboardView.DaysCell` models the browser expression on a number, and the admin table's days cell at frontend/src/components/AdminDashboard.tsx:175 uses the same rule.
- DynamoDB's behaviour for `balance - :days` on a missing item or attribute is not modelled in detail. There the deduction changes nothing, and its error is swallowed as the handler does.
- Concurrent invocations are not modelled. Each handler is one atomic step on the two tables.
- Dashboard.tsx repeats `getStatusColor`, and its rule is the same as `AdminView.StatusColor`.
- Status text upper-casing and `toLocaleDateString` are not modelled; they are presentation.
- The form's 2-second delay before returning to the dashboard is not modelled. `AppShell.App.LeaveFormDone` is the callback it eventually runs.
- AdminDashboard is rendered without its `onBack` prop, so its back button has nothing to call. That button is not modelled.
- The leave form's "back" button is the same callback as `LeaveFormDone`.
- frontend/src/components/Login.tsx, frontend/src/amplify-config.ts and scripts/test_cognito_signin.py are not part of this model. The identity provider decides every outcome there. It reaches the model only as the `Session` given to `InitializeApp`, the e-mail given to `HandleLoginSuccess` and the sign-out outcome given to `HandleLogout`.
- lib/smartleave-x-mvp-stack.ts is not part of this model beyond the key schema of the two tables.
