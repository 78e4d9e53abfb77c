# FinTrack core, modelled in Dafny

FinTrack is a personal-finance tracker. It has two React front ends and two
Django back ends. This project models the parts of it that decide something:

- **Session and credentials.**
  - The two route guards: `ProtectedRoute` in the main front end and `PrivateRoute` in the legacy one.
  - The axios interceptors that attach the Bearer token and do one refresh and one replay after a 401.
  - The token side of `authService`.
- **Client-side ledger pages.** These are Transactions, Reports, Dashboard, Clustering Insights, Budget Planning, Categories, the admin user list, and the legacy budget editor and add-income and add-expense pages.
- **Back-end reports and statistics.** This covers the report service and its three views, with CSV export through Python's `csv` writer. It also covers the transaction view set's queryset, `stats`, `bulk_delete`, `recent` and `trends`.
- **Validators and small constructors.**
  - The transaction and budget serializers, and the transaction filter set.
  - Default-category seeding and the account manager.
  - The legacy registration serializer, both legacy login views, and the legacy savings models.

How the model represents the system:

- **Money** is an integer number of cents, which makes `Decimal` sums exact. Percentages and ratios are Dafny `real`s.
- **Dates** are integer day numbers.
- **The browser's `localStorage`** is a class over a `map<string, string>`.
- **Database tables** are classes over a sequence of rows. Querysets are sequences, and an ordering is a descending sort on a key.
- **Components with state.** Each component whose handlers replace its state is a class. Its handlers are methods, specified against the pure functions that the lemmas are about.
- **Parameters.** Everything outside the code's own logic is a parameter:
  - the clock, the JWT decoder and every network reply;
  - text-to-number and text-to-date parsing;
  - `authenticate`, token issue, e-mail normalisation and password hashing.

Modules and files:

- `wrappers.dfy`: `Option` and `Result`.
- `seqs.dfy`: filtering, sums and a descending sort on sequences.
- `text.dfy`: ASCII lower and upper case, substring test, split and join, whitespace stripping, and number text with its read-back.
- `grouping.dfy`: grouping rows by a key, with per-group sums.
- `session.dfy`, `local_storage.dfy`: shared front-end types and the token store.
- One file per modelled source file or component. The README's member names are qualified by module (and class).

## Model

| member | source | states |
|---|---|---|
| ProtectedRoute.RefreshRun | Frontend/src/routes/protectedroutes.jsx:13-31 | One POST carrying the stored refresh token, even when none is stored. Only status 200 authorizes and writes `access_token := resp.data.access`. A non-200 reply or a rejection writes nothing and ends unauthorized. |
| ProtectedRoute.AuthRun | Frontend/src/routes/protectedroutes.jsx:33-55 | No token or an empty one: unauthorized, with no request. A token that fails to decode: unauthorized, with no request. `exp` not strictly below now (equality included, and a missing `exp`): authorized, with no request. An expired token: exactly one refresh, authorized iff the reply is 200, and then the store is the old one with `access_token` set to the reply's access token. Nothing else writes, and `refresh_token` is never written or removed. |
| ProtectedRoute.ViewOf | Frontend/src/routes/protectedroutes.jsx:57-71 | `null` renders the loading view, `true` renders the children, and `false` redirects to `/login`, each in both directions. |
| ProtectedRoute.Guard.constructor | Frontend/src/routes/protectedroutes.jsx:7 | The state starts as `null`. |
| ProtectedRoute.Guard.RefreshToken | Frontend/src/routes/protectedroutes.jsx:13-31 | Sets `isAuthorized` and the store exactly as `RefreshRun` decides. |
| ProtectedRoute.Guard.Auth | Frontend/src/routes/protectedroutes.jsx:9-55 | Sets `isAuthorized`, the store and the request exactly as `AuthRun` decides. Afterwards the view is never loading. |
| PrivateRoute.AuthRun | Frontend_Expense/expense/src/routes/protectedroutes.jsx:11-51 | As written: no token or a decode error (caught by the effect's `.catch`) is unauthorized with no request. An unexpired token is authorized. The refresh POST is sent iff the token is expired, and then the run always ends unauthorized, because the un-awaited promise is compared with 200. The store is never written. |
| PrivateRoute.ExpiredSessionNeverRenews | Frontend_Expense/expense/src/routes/protectedroutes.jsx:19-28 | A concrete expired session stays unauthorized, with the old token kept, whatever the server answers. |
| PrivateRoute.AuthRunIntended | Frontend_Expense/expense/src/routes/protectedroutes.jsx:15-51 | Corrected guard that awaits the POST: an expired token refreshes once, is authorized iff the reply is 200, and then stores the new access token. |
| PrivateRoute.IntendedMatchesProtectedRoute | Frontend_Expense/expense/src/routes/protectedroutes.jsx:35-51 | With the same storage keys, the corrected legacy guard equals `ProtectedRoute.AuthRun` on every input. The as-written guard agrees with both except on the expired path. |
| PrivateRoute.ViewOf | Frontend_Expense/expense/src/routes/protectedroutes.jsx:52-55 | `null` renders loading, `true` renders the children, and `false` redirects to the relative path `login`. |
| PrivateRoute.Guard.constructor | Frontend_Expense/expense/src/routes/protectedroutes.jsx:9 | The state starts as `null`, and the guard is bound to the configured token keys. |
| PrivateRoute.Guard.RefreshToken | Frontend_Expense/expense/src/routes/protectedroutes.jsx:15-34 | The POST is started with the stored refresh token, and the guard always sets unauthorized. |
| PrivateRoute.Guard.Auth | Frontend_Expense/expense/src/routes/protectedroutes.jsx:11-51 | Sets the state and the request exactly as the as-written `AuthRun` decides. Afterwards the view is never loading. |
| ApiClient.RequestHeaders | Frontend/src/components/common/api.js:14-21 | `Authorization: Bearer <token>` is added iff a truthy access token is stored. Otherwise the headers are unchanged, and every other header is always kept. |
| ApiClient.HandleError | Frontend/src/components/common/api.js:28-64 | Anything but a first 401 is rejected unchanged with nothing touched. A first 401 marks `_retry`. With no refresh token: both tokens are removed, the page goes to login, and the original error is rejected. A successful refresh stores the token, rewrites the header and replays. A failed refresh removes both tokens, goes to login and rejects with the refresh error. |
| ApiClient.AtMostOneRefresh | Frontend/src/components/common/api.js:33-34 | After a refresh, a second failure of the replayed request sends no second POST, does not replay again and leaves the store alone. |
| ApiClient.ReplayHeaderAgrees | Frontend/src/components/common/api.js:50-54 | The replay passes the request interceptor unchanged: the header the handler wrote is the one the interceptor sets. |
| ApiClient.RequestConfig.constructor | Frontend/src/components/common/api.js:31 | A request starts with its headers and without the `_retry` mark. |
| ApiClient.Client.constructor | Frontend/src/components/common/api.js:6-11 | The instance is bound to the store and has not navigated. |
| ApiClient.Client.InterceptRequest | Frontend/src/components/common/api.js:14-21 | Rewrites the request's headers to `RequestHeaders` and keeps `_retry`. |
| ApiClient.Client.InterceptError | Frontend/src/components/common/api.js:30-64 | Updates the request, the store and the location, and settles exactly as `HandleError` decides. |
| AuthService.LoginItems | Frontend/src/services/authService.js:6-9 | Both tokens are written only when `access` is truthy, and otherwise the store is unchanged. No other key changes. |
| AuthService.LoginAuthenticates | Frontend/src/services/authService.js:6-26 | After a login whose reply has a truthy access token, `isAuthenticated` holds. Otherwise it is as before. |
| AuthService.Service.constructor | Frontend/src/services/authService.js:3 | The service is bound to the browser's store. |
| AuthService.Service.Login | Frontend/src/services/authService.js:4-11 | Returns the reply's data. A reply updates the store by `LoginItems`, and a rejected POST leaves it unchanged. |
| AuthService.Service.Logout | Frontend/src/services/authService.js:18-21 | Exactly the two token keys are removed, and afterwards `isAuthenticated` is false. |
| AuthService.Service.IsAuthenticated | Frontend/src/services/authService.js:23-26 | True iff a non-empty `access_token` is stored. |
| Storage.LocalStorage.GetItem | Frontend/src/routes/protectedroutes.jsx:34 | The stored value, or nothing iff the key is absent. |
| Storage.LocalStorage.SetItem | Frontend/src/routes/protectedroutes.jsx:22 | Only that key is set. |
| Storage.LocalStorage.RemoveItem | Frontend/src/services/authService.js:19-20 | Only that key is removed. Removing an absent key changes nothing. |
| Ledger.OfKind | Frontend/src/components/homepagecomponents/Dashboard.jsx:8-9 | An order-preserving sub-list holding only entries of that type. |
| Ledger.TotalIsScan | Frontend/src/components/homepagecomponents/Dashboard.jsx:8-14 | Filter-then-reduce equals one pass that adds the amounts of that type. |
| Ledger.TotalOfAbsentKind | Frontend/src/components/homepagecomponents/Reports.jsx:28-34 | A list with no entry of a type totals 0 for it. |
| Ledger.ScanOfAbsentKind | Frontend/src/components/homepagecomponents/Dashboard.jsx:8-14 | The one-pass total of an absent type is 0. |
| Dashboard.Balance | Frontend/src/components/homepagecomponents/Dashboard.jsx:8-16 | The balance is the income total minus the expense total. |
| Dashboard.Recent | Frontend/src/components/homepagecomponents/Dashboard.jsx:18 | The first `min(5, n)` transactions, in order. |
| Dashboard.ReduceFromFirstMax | Frontend/src/components/homepagecomponents/Dashboard.jsx:20-22 | The strict-`>` reduce keeps the earliest entry with the largest `totalSpent`. |
| Dashboard.TopCategoryIsFirstMax | Frontend/src/components/homepagecomponents/Dashboard.jsx:20-22 | A top category exists iff there are entries. It has the largest total, and no earlier entry ties it. |
| Dashboard.TopCategory | Frontend/src/components/homepagecomponents/Dashboard.jsx:20-22 | A top category iff the list is non-empty; it is the first entry with the largest total (stated by `TopCategoryIsFirstMax`). |
| TransactionsPage.NewId | Frontend/src/components/homepagecomponents/Transactions.jsx:49 | The new id is a non-empty decimal numeral whose value is the old length plus one. |
| TransactionsPage.FromForm | Frontend/src/components/homepagecomponents/Transactions.jsx:48-56 | The new record carries the form's fields and the parsed amount. |
| TransactionsPage.EditAll | Frontend/src/components/homepagecomponents/Transactions.jsx:65-77 | Length is kept. Entries with the id are overwritten from the form, and every other entry is unchanged. |
| TransactionsPage.DeleteAll | Frontend/src/components/homepagecomponents/Transactions.jsx:83 | An order-preserving sub-list with no entry of that id. |
| TransactionsPage.DeleteKeepsOthers | Frontend/src/components/homepagecomponents/Transactions.jsx:83 | An entry survives iff it was there and has another id. |
| TransactionsPage.Filtered | Frontend/src/components/homepagecomponents/Transactions.jsx:99-105 | An order-preserving sub-list of entries that match the search, category and type. |
| TransactionsPage.FilteredMembership | Frontend/src/components/homepagecomponents/Transactions.jsx:99-105 | An entry is shown iff it is listed and the lower-cased search is in its merchant or category, the category filter is `all` or equal, and the type filter is `all` or equal. |
| TransactionsPage.NoFilterShowsAll | Frontend/src/components/homepagecomponents/Transactions.jsx:16-18 | The initial empty search with both filters `all` shows the whole list. |
| TransactionsPage.AscIsReverseOfDesc | Frontend/src/components/homepagecomponents/Transactions.jsx:107-114 | Sorted by the `asc` comparator iff the reversed list is sorted by the `desc` comparator. |
| TransactionsPage.SwapAdjacent | Frontend/src/components/homepagecomponents/Transactions.jsx:107 | Exchanges two neighbours, keeps every other cell and the multiset. |
| TransactionsPage.SortInPlace | Frontend/src/components/homepagecomponents/Transactions.jsx:107-114 | The array ends sorted by the comparator's key and is a permutation of its old contents. |
| TransactionsPage.Page.constructor | Frontend/src/components/homepagecomponents/Transactions.jsx:15-32 | Initial state: empty search, filters `all`, sort by date descending, dialog closed, empty form with type `expense`. |
| TransactionsPage.Page.ResetForm | Frontend/src/components/homepagecomponents/Transactions.jsx:36-45 | The form becomes empty with type `expense`. The list, selection, dialog, search, both filters and the sort are unchanged. |
| TransactionsPage.Page.AddTransaction | Frontend/src/components/homepagecomponents/Transactions.jsx:47-60 | The form's record, with id = old length + 1, is prepended to the unchanged list. The dialog closes and the form resets. The selection, search, filters and sort are unchanged. |
| TransactionsPage.Page.EditTransaction | Frontend/src/components/homepagecomponents/Transactions.jsx:62-80 | Without a selection nothing changes. Otherwise the list becomes `EditAll` for the selected id, the selection clears and the form resets. The dialog, search, filters and sort are unchanged. |
| TransactionsPage.Page.DeleteTransaction | Frontend/src/components/homepagecomponents/Transactions.jsx:82-84 | The list becomes `DeleteAll` for the id. The form, selection, dialog, search, filters and sort are kept. |
| TransactionsPage.Page.StartEdit | Frontend/src/components/homepagecomponents/Transactions.jsx:86-96 | Selects the entry and copies its fields into the form, with absent notes as `''`. The list, dialog, search, filters and sort are kept. |
| TransactionsPage.Page.ToggleSortOrder | Frontend/src/components/homepagecomponents/Transactions.jsx:254 | `asc` becomes `desc`, and anything else becomes `asc`. The sort key, list, form, selection, dialog, search and filters are kept. |
| TransactionsPage.Page.Shown | Frontend/src/components/homepagecomponents/Transactions.jsx:99-114 | The shown list is a permutation of the filtered list, ordered by `multiplier * key`. |
| TransactionsPage.DeleteThenAddRepeatsId | Frontend/src/components/homepagecomponents/Transactions.jsx:49 | Deleting the first of two entries and adding one yields two entries with the same id. |
| ReportsPage.Filtered | Frontend/src/components/homepagecomponents/Reports.jsx:19-26 | An order-preserving sub-list of entries in the inclusive date range and of the chosen type. An entry or bound whose date is invalid is never in range. |
| ReportsPage.FilteredMembership | Frontend/src/components/homepagecomponents/Reports.jsx:19-26 | An entry is reported iff it is listed, all three dates are valid, `start <= date <= end`, and the type is `all` or equal. |
| ReportsPage.Totals | Frontend/src/components/homepagecomponents/Reports.jsx:28-36 | Net = income − expenses. |
| ReportsPage.InvalidBoundReportsNothing | Frontend/src/components/homepagecomponents/Reports.jsx:19-26 | A start or end date that is an Invalid Date reports nothing. |
| ReportsPage.ReportTotalIsScan | Frontend/src/components/homepagecomponents/Reports.jsx:28-34 | A report's total of a type equals one pass over all transactions adding the amount of each reported one of that type. |
| ReportsPage.TotalsAreSums | Frontend/src/components/homepagecomponents/Reports.jsx:28-36 | Income and expenses are the sums over all transactions of what each reported one of that type adds. |
| ReportsPage.CsvContent | Frontend/src/components/homepagecomponents/Reports.jsx:53-56 | The header line and one line per transaction joined by `'\n'` (stated by `CsvLines`). |
| ReportsPage.FileName | Frontend/src/components/homepagecomponents/Reports.jsx:62 | `fintrack-report-<start>-to-<end>.csv`, with both dates readable at their positions. |
| ReportsPage.OneTypeTotals | Frontend/src/components/homepagecomponents/Reports.jsx:24-34 | An `income` report has a zero expense total, and an `expense` report a zero income total. |
| ReportsPage.HeaderLine | Frontend/src/components/homepagecomponents/Reports.jsx:43-54 | The first line is exactly `Date,Merchant,Category,Type,Amount,Notes`. |
| ReportsPage.QuoteAddsTwoQuotes | Frontend/src/components/homepagecomponents/Reports.jsx:55 | Quoting adds exactly the two outer quotes. An embedded quote is not doubled, unlike rule 7 of section 2 of RFC 4180. |
| ReportsPage.Cells | Frontend/src/components/homepagecomponents/Reports.jsx:44-51 | The six cells are date, merchant, category, type, amount text, and the notes or `''`. |
| ReportsPage.QuoteAll | Frontend/src/components/homepagecomponents/Reports.jsx:55 | Every cell is quoted, position by position. |
| ReportsPage.Rows | Frontend/src/components/homepagecomponents/Reports.jsx:44-55 | One line per filtered transaction, in order. |
| ReportsPage.RowAvoidsLineBreak | Frontend/src/components/homepagecomponents/Reports.jsx:55 | A row whose cells hold no line break has none. |
| ReportsPage.CsvLines | Frontend/src/components/homepagecomponents/Reports.jsx:53-56 | When no cell holds a line break, splitting the content at `'\n'` gives the header followed by one line per transaction, so there is no trailing newline. |
| ReportsPage.Page.constructor | Frontend/src/components/homepagecomponents/Reports.jsx:14-17 | Type `all`, and no report generated. |
| ReportsPage.Page.GenerateReport | Frontend/src/components/homepagecomponents/Reports.jsx:38-40 | Sets `reportGenerated`, and nothing else. |
| ReportsPage.Page.ExportCsv | Frontend/src/components/homepagecomponents/Reports.jsx:42-65 | No download until a report is generated. Then the file `fintrack-report-<start>-to-<end>.csv` with the CSV of the filtered list. |
| Clustering.ClusterTransactions | Frontend/src/components/homepagecomponents/ClusteringInsights.jsx:11-13 | Empty without a selection. Otherwise the expense entries of the selected category, in order. |
| Clustering.ClusterMembership | Frontend/src/components/homepagecomponents/ClusteringInsights.jsx:12 | With a selection, an entry is listed iff it is an expense of that category. |
| Clustering.RowClick | Frontend/src/components/homepagecomponents/ClusteringInsights.jsx:171 | Clicking the selected row clears the selection (iff), and any other row selects it. |
| Clustering.RowClickTwice | Frontend/src/components/homepagecomponents/ClusteringInsights.jsx:171 | Two clicks on a row restore a selection that was on that row, and otherwise leave it cleared. |
| Clustering.Insights.constructor | Frontend/src/components/homepagecomponents/ClusteringInsights.jsx:9 | No selection at first. |
| Clustering.Insights.ClickRow | Frontend/src/components/homepagecomponents/ClusteringInsights.jsx:171 | The selection becomes `RowClick` of the old one. |
| Clustering.Insights.ClickSegment | Frontend/src/components/homepagecomponents/ClusteringInsights.jsx:88 | A pie segment always selects its category. |
| Clustering.Insights.ClearSelection | Frontend/src/components/homepagecomponents/ClusteringInsights.jsx:206 | Clears the selection. |
| BudgetPlanning.Or | Frontend/src/Pages/BudgetPlanning/BudgetPlanning.jsx:272 | `v \|\| fallback`: a truthy value is kept, and a falsy one (absent, `0`, `""`) is replaced. |
| BudgetPlanning.GetBudgetStatus | Frontend/src/Pages/BudgetPlanning/BudgetPlanning.jsx:86-90 | ≥ 100 is Over Budget, [80, 100) is Warning, and below 80 is On Track. It alerts iff ≥ 80. |
| BudgetPlanning.Progress | Frontend/src/Pages/BudgetPlanning/BudgetPlanning.jsx:255 | Capped at 100, and equal to the percentage (missing as 0) below that. |
| BudgetPlanning.MissingAmountAddsNothing | Frontend/src/Pages/BudgetPlanning/BudgetPlanning.jsx:203 | A budget with no amount adds nothing to the total allocated. |
| BudgetPlanning.PercentageUsed | Frontend/src/Pages/BudgetPlanning/BudgetPlanning.jsx:223 | `percentage_used \|\| 0`: the percentage, or 0 when absent (stated through `Progress`). |
| BudgetPlanning.TotalAllocated | Frontend/src/Pages/BudgetPlanning/BudgetPlanning.jsx:203 | The sum of the parsed amounts, a missing amount as 0 (stated by `MissingAmountAddsNothing`). |
| BudgetPlanning.AtRisk | Frontend/src/Pages/BudgetPlanning/BudgetPlanning.jsx:214 | At most the number of budgets. It counts the cards that alert (`AtRiskCountsAlerts`). |
| BudgetPlanning.Remaining | Frontend/src/Pages/BudgetPlanning/BudgetPlanning.jsx:272 | The remaining amount, else the amount, else 0 (stated by `RemainingFallback`). |
| BudgetPlanning.AtRiskCountsAlerts | Frontend/src/Pages/BudgetPlanning/BudgetPlanning.jsx:214 | The "Budgets at Risk" count equals the number of budget cards that show an alert. |
| BudgetPlanning.RemainingFallback | Frontend/src/Pages/BudgetPlanning/BudgetPlanning.jsx:272 | A numeric 0 remaining falls back to the amount. The string `"0.00"` does not fall back, and nothing present gives 0. |
| BudgetPlanning.BudgetCategories | Frontend/src/Pages/BudgetPlanning/BudgetPlanning.jsx:46 | An order-preserving sub-list of expense categories only. |
| BudgetPlanning.BudgetCategoriesMembership | Frontend/src/Pages/BudgetPlanning/BudgetPlanning.jsx:46 | A category is offered iff it is listed and is an expense category. |
| CategoriesPage.Filtered | Frontend/src/Pages/Categories/Categories.jsx:100-104 | An order-preserving sub-list of matching categories. |
| CategoriesPage.FilteredMembership | Frontend/src/Pages/Categories/Categories.jsx:100-104 | Shown iff listed, the lower-cased name contains the lower-cased search, and the type is `all` or equal. |
| CategoriesPage.NoFilterShowsAll | Frontend/src/Pages/Categories/Categories.jsx:100-104 | An empty search with `all` shows every category. |
| CategoriesPage.Page.constructor | Frontend/src/Pages/Categories/Categories.jsx:16-27 | Empty search, type `all`, reset form, and no selection. |
| CategoriesPage.Page.ResetForm | Frontend/src/Pages/Categories/Categories.jsx:44-50 | The form becomes name `''`, icon `📁`, type `expense`. The list, selection, search and type filter are kept. |
| CategoriesPage.Page.StartEdit | Frontend/src/Pages/Categories/Categories.jsx:90-97 | Selects the category and copies its name, icon and type. The list, search and type filter are kept. |
| CategoriesPage.Page.EditCategory | Frontend/src/Pages/Categories/Categories.jsx:64-76 | Without a selection nothing is sent or changed. Otherwise one update is sent for the selected id with the form. Success clears the selection, resets the form and takes the refetched list when one arrives. Failure keeps the selection, form and list. The search and type filter are always kept. |
| AdminDashboard.Filtered | Frontend/src/Pages/Admin/AdminDashboard.jsx:74-78 | An order-preserving sub-list of matching users. |
| AdminDashboard.FilteredMembership | Frontend/src/Pages/Admin/AdminDashboard.jsx:74-78 | Shown iff listed and the lower-cased term is in the username, the e-mail, or `first_name + ' ' + last_name`. |
| AdminDashboard.WithoutId | Frontend/src/Pages/Admin/AdminDashboard.jsx:43 | An order-preserving sub-list with no user of that id. |
| AdminDashboard.WithoutIdKeepsOthers | Frontend/src/Pages/Admin/AdminDashboard.jsx:43 | A user survives iff listed with another id. |
| AdminDashboard.ReplaceById | Frontend/src/Pages/Admin/AdminDashboard.jsx:54 | Same length. Users with the id are replaced by the server's user, and others are unchanged. |
| AdminDashboard.AvatarInitial | Frontend/src/Pages/Admin/AdminDashboard.jsx:129 | The first letter of a non-empty first name. Otherwise the upper-cased first letter of the username. |
| AdminDashboard.Page.constructor | Frontend/src/Pages/Admin/AdminDashboard.jsx:9-21 | Empty search, no pending delete, modal closed, and a five-field empty new-user form. |
| AdminDashboard.Page.HandleDelete | Frontend/src/Pages/Admin/AdminDashboard.jsx:40-49 | On success the list loses exactly that id and the confirmation clears. On failure nothing changes. The search, modal and new-user form are always kept. |
| AdminDashboard.Page.ClickStatus | Frontend/src/Pages/Admin/AdminDashboard.jsx:148-155 | For a superuser: no request and no change. Otherwise it requests `is_active = !is_active`, and a reply replaces only that id. The search, confirmation, modal and form are kept. |
| AdminDashboard.Page.HandleCreate | Frontend/src/Pages/Admin/AdminDashboard.jsx:61-72 | On success the modal closes, the form resets to five empty fields, and the refetched list replaces the old one when it arrives. On failure the modal, form and list are kept. The search and confirmation are always kept. |
| SetBudget.SumOverUpdate | Frontend_Expense/expense/src/pages/Homepage/setBudget/setBudget.jsx:69-70 | Changing one category changes a total by exactly that category's difference. |
| SetBudget.IsOverBudget | Frontend_Expense/expense/src/pages/Homepage/setBudget/setBudget.jsx:143-144 | Over budget iff spent exceeds the amount, strictly. |
| SetBudget.BarWidth | Frontend_Expense/expense/src/pages/Homepage/setBudget/setBudget.jsx:208 | At most 100, and exactly 100 iff spent ≥ amount. |
| SetBudget.Editor.constructor | Frontend_Expense/expense/src/pages/Homepage/setBudget/setBudget.jsx:19-31 | The eight initial budgets, no editing, and empty text. |
| SetBudget.Editor.BudgetRemaining | Frontend_Expense/expense/src/pages/Homepage/setBudget/setBudget.jsx:69-71 | Remaining = total budget − total spent. |
| SetBudget.Editor.TotalBudget | Frontend_Expense/expense/src/pages/Homepage/setBudget/setBudget.jsx:69 | The sum of the eight amounts (its changes stated by `SaveMovesTotal`). |
| SetBudget.Editor.TotalSpent | Frontend_Expense/expense/src/pages/Homepage/setBudget/setBudget.jsx:70 | The sum of the eight spent figures (kept by a save, `SaveKeepsSpent`). |
| SetBudget.Editor.EditClick | Frontend_Expense/expense/src/pages/Homepage/setBudget/setBudget.jsx:44-47 | Starts editing that category with its current amount as text. |
| SetBudget.Editor.SaveBudget | Frontend_Expense/expense/src/pages/Homepage/setBudget/setBudget.jsx:49-62 | Only a non-empty text that parses above 0 replaces that category's amount, keeping its spent and every other category. It then clears editing. Otherwise nothing changes. Total spent never changes. |
| SetBudget.Editor.Cancel | Frontend_Expense/expense/src/pages/Homepage/setBudget/setBudget.jsx:64-67 | Clears editing and the text, and keeps the budgets. |
| SetBudget.SaveKeepsSpent | Frontend_Expense/expense/src/pages/Homepage/setBudget/setBudget.jsx:51-57 | A save changes only the amount, so the total spent is unchanged. |
| SetBudget.SaveMovesTotal | Frontend_Expense/expense/src/pages/Homepage/setBudget/setBudget.jsx:51-57 | A save moves the total budget by the new amount minus the old one. |
| AddEntry.Description | Frontend_Expense/expense/src/pages/Homepage/addExpense/addExpense.jsx:51 | The typed description, or the page's default when it is empty. |
| AddEntry.NewEntry | Frontend_Expense/expense/src/pages/Homepage/addIncome/addIncome.jsx:40-46 | The id is the clock, with the parsed amount, the category, the description with its default, and the formatted date. |
| AddEntry.DescriptionNeverEmpty | Frontend_Expense/expense/src/pages/Homepage/addExpense/addExpense.jsx:51 | Neither page records an empty description (`Expense` and `Income` defaults). |
| AddEntry.Recorder.constructor | Frontend_Expense/expense/src/pages/Homepage/addIncome/addIncome.jsx:16-27 | The page's blank form (category `salary` or `food`) and its recent list. |
| AddEntry.Recorder.Submit | Frontend_Expense/expense/src/pages/Homepage/addExpense/addExpense.jsx:44-62 | Nothing happens unless amount and category are filled in. Then the new entry is prepended to the unchanged list, and the form returns to blank. |
| TxModel.OfUser | Backend_new/fintrack_backend/transactions/v1/views.py:29-31 | An order-preserving sub-list of the user's rows only. |
| TxModel.OfKind | Backend_new/fintrack_backend/report/v1/services.py:33-34 | An order-preserving sub-list of rows of that type only. |
| TxModel.AbsentKindSumsToZero | Backend_new/fintrack_backend/report/v1/services.py:37-43 | `Sum` over a type with no rows is `None`, which `or Decimal('0.00')` turns into 0. |
| TxModel.OfKindSumIsScan | Backend_new/fintrack_backend/transactions/v1/views.py:148-153 | Filtering on a type and summing equals the conditional `Sum('amount', filter=Q(type=...))`. |
| TxModel.IncomeScan | Backend_new/fintrack_backend/transactions/v1/views.py:151 | The same for income. |
| TxModel.ExpenseScan | Backend_new/fintrack_backend/transactions/v1/views.py:152 | The same for expenses. |
| Grouping.Keys | Backend_new/fintrack_backend/report/v1/services.py:116 | The `values(...)` keys are pairwise distinct. |
| Grouping.KeysComplete | Backend_new/fintrack_backend/report/v1/services.py:116 | A key is listed iff some row carries it. |
| Grouping.Members | Backend_new/fintrack_backend/report/v1/services.py:116-118 | A group's rows all carry its key and keep their order. |
| Grouping.GroupsFor | Backend_new/fintrack_backend/report/v1/services.py:116-118 | One annotated group per listed key, position by position. |
| Grouping.Groups | Backend_new/fintrack_backend/report/v1/services.py:116-118 | The annotated groups have distinct keys. |
| Grouping.KeyedSumIsSum | Backend_new/fintrack_backend/transactions/v1/views.py:148-153 | Summing group by group over all keys present gives the sum over all rows. |
| Grouping.GroupSums | Backend_new/fintrack_backend/report/v1/services.py:116-118 | The groups' `total`s and `count`s add up to the keyed sums of amounts and of ones. |
| Grouping.GroupsPartition | Backend_new/fintrack_backend/report/v1/services.py:116-118 | The groups' counts add up to the number of rows, and their totals to the rows' sum. |
| Grouping.GroupsCover | Backend_new/fintrack_backend/report/v1/services.py:116-118 | There is a group for a key iff some row carries it. |
| ReportService.PeriodRows | Backend_new/fintrack_backend/report/v1/services.py:27-31 | An order-preserving sub-list of the user's rows dated within both inclusive bounds. |
| ReportService.ReportMembership | Backend_new/fintrack_backend/report/v1/services.py:27-34 | A row is in the report iff it is the user's, `start <= date <= end`, and the type is `all` or equal. |
| ReportService.CalculateInsights | Backend_new/fintrack_backend/report/v1/services.py:75-94 | `days_in_period = end − start + 1`. The average is count/days when days > 0, and otherwise 0. The spending ratio is 0 when income ≤ 0, and otherwise expenses/income × 100. The health is `positive` iff income ≥ expenses, and otherwise `negative`. |
| ReportService.BuildReport | Backend_new/fintrack_backend/report/v1/services.py:26-72 | Exact income and expense sums over the matching rows (0 when none), net = income − expenses, and the count equal to the number of matching rows. The listed transactions are a permutation of them, by date descending. The dates and type are echoed, and the insights are computed from these figures. |
| ReportService.GenerateReport | Backend_new/fintrack_backend/report/v1/services.py:13-78 | Fails iff a date does not convert, with the start date's error first. Otherwise it is `BuildReport` on the converted days. |
| ReportService.OneTypeReport | Backend_new/fintrack_backend/report/v1/services.py:33-43 | An `income` report has zero expenses and net = income. An `expense` report has zero income and a spending ratio of 0. |
| ReportService.EmptyReport | Backend_new/fintrack_backend/report/v1/services.py:37-45 | With no rows of the user, every total and count is 0, the list is empty and the health is `positive`. |
| ReportService.TypeBreakdownSound | Backend_new/fintrack_backend/report/v1/services.py:115-128 | Each type's breakdown is sorted by total, descending. Each entry is the exact group of that category. The counts add up to the type's number of rows and the totals to its sum. |
| ReportService.TypeBreakdown | Backend_new/fintrack_backend/report/v1/services.py:115-128 | Sorted by total, descending, and a permutation of that type's category groups. |
| ReportService.FillByType | Backend_new/fintrack_backend/report/v1/services.py:110-128 | The loop leaves exactly the keys `income` and `expense`, each holding that type's list. |
| ReportService.SavedRow | Backend_new/fintrack_backend/report/v1/services.py:150-163 | The saved figures are the report's (stated by `SavedRowAgrees`). |
| ReportService.CategoryBreakdown | Backend_new/fintrack_backend/report/v1/services.py:110-130 | The loop leaves exactly the keys `income` and `expense`, each holding that type's breakdown. |
| ReportService.ReportTable.constructor | Backend_new/fintrack_backend/report/v1/services.py:140 | The table starts empty. |
| ReportService.ReportTable.SaveReport | Backend_new/fintrack_backend/report/v1/services.py:133-165 | A failed generation raises and saves nothing. Otherwise exactly one row is appended, copying the summary and insight figures of the generated report. |
| ReportService.SavedRowAgrees | Backend_new/fintrack_backend/report/v1/services.py:150-163 | The saved row's net equals its income − expenses, its count is the number of matching rows, and the report's health is `positive` iff the saved net is ≥ 0. |
| ReportViews.GenerateView | Backend_new/fintrack_backend/report/v1/views.py:23-52 | A missing or empty date gives 400 before any query. An exception while generating gives 500 with its text. Otherwise it gives 200 with the report. |
| ReportViews.TypeDefaultsToAll | Backend_new/fintrack_backend/report/v1/views.py:27 | A missing `type` answers exactly as `type=all`. |
| ReportViews.BreakdownView | Backend_new/fintrack_backend/report/v1/views.py:107-123 | 400 on a missing date. A date that does not convert escapes as an unhandled error. Otherwise 200 with both types' breakdowns. |
| ReportViews.ExportRows | Backend_new/fintrack_backend/report/v1/views.py:71-78 | The export's rows are a permutation of the report's rows, by date descending. |
| ReportViews.Cells | Backend_new/fintrack_backend/report/v1/views.py:91-98 | The six fields: date text, merchant, `str(category)` or `''` for none, type, `str(amount)`, and the notes or `''`. |
| ReportViews.DataRows | Backend_new/fintrack_backend/report/v1/views.py:90-98 | One row of cells per transaction, in order. |
| ReportViews.WriteRowsAppend | Backend_new/fintrack_backend/report/v1/views.py:90-98 | Writing one more row appends exactly its text. |
| ReportViews.ExportView | Backend_new/fintrack_backend/report/v1/views.py:59-100 | 400 on a missing date, and an unhandled error on a date that does not convert. Otherwise a CSV attachment named `fintrack-report-<start>-to-<end>.csv` whose body is the BOM, the header row, then one written row per export row. |
| ReportViews.FileName | Backend_new/fintrack_backend/report/v1/views.py:82 | `fintrack-report-<start>-to-<end>.csv`, with both dates readable at their positions. |
| ReportViews.WriteCsv | Backend_new/fintrack_backend/report/v1/views.py:85-98 | The loop's output is the BOM followed by the writer's text for the header and the data rows. |
| ReportViews.WrittenStep | Backend_new/fintrack_backend/report/v1/views.py:90-98 | Each iteration adds exactly the written text of that transaction's row. |
| ReportViews.DataRowsSnoc | Backend_new/fintrack_backend/report/v1/views.py:90-98 | The rows of a longer prefix are the shorter prefix's rows plus the new one. |
| ReportViews.ExportReadsBack | Backend_new/fintrack_backend/report/v1/views.py:85-98 | Read back with the same dialect, the body after the BOM is the header followed by exactly one record per transaction, each equal to its cells, commas and quotes included. |
| ReportViews.ExportMatchesReport | Backend_new/fintrack_backend/report/v1/views.py:71-78 | With both dates convertible, the export lists exactly the generated report's transactions, in the same order. |
| PythonCsv.DoubleCounts | Backend_new/fintrack_backend/report/v1/views.py:87 | Doubling quotes adds one character per quote and keeps every other character. |
| PythonCsv.EncodeField | Backend_new/fintrack_backend/report/v1/views.py:87 | A field with a comma, quote or line break is wrapped in quotes, and any other field is written as is. |
| PythonCsv.EncodeFields | Backend_new/fintrack_backend/report/v1/views.py:91-98 | Each field is encoded position by position. |
| PythonCsv.WriteRow | Backend_new/fintrack_backend/report/v1/views.py:88 | A written row ends in CRLF. |
| PythonCsv.ReadFieldEncoded | Backend_new/fintrack_backend/report/v1/views.py:87 | Reading an encoded field gives the field back and leaves the rest untouched. |
| PythonCsv.ReadRecordEncoded | Backend_new/fintrack_backend/report/v1/views.py:87 | Reading the comma-joined encoded fields gives the fields back. |
| PythonCsv.ReadWrittenRow | Backend_new/fintrack_backend/report/v1/views.py:88 | A written row reads back as its fields, followed by its CRLF. |
| PythonCsv.ReadWrittenRows | Backend_new/fintrack_backend/report/v1/views.py:87-98 | The writer's output reads back as exactly the rows written. |
| TransactionViews.Queryset | Backend_new/fintrack_backend/transactions/v1/views.py:27-31 | A permutation of the user's rows, ordered by date and then creation time, both descending. |
| TransactionViews.QuerysetMembership | Backend_new/fintrack_backend/transactions/v1/views.py:29-31 | Every action sees a row iff it is the requesting user's. |
| TransactionViews.StatsRowsMembership | Backend_new/fintrack_backend/transactions/v1/views.py:53-62 | A row is summarised iff it is the user's, and each inclusive date bound holds when that parameter is supplied. |
| TransactionViews.StatsRows | Backend_new/fintrack_backend/transactions/v1/views.py:53-62 | Every summarised row meets each supplied inclusive date bound. |
| TransactionViews.Breakdown | Backend_new/fintrack_backend/transactions/v1/views.py:73-86 | The loop leaves exactly the keys `income` and `expense`, each holding that type's tallies. |
| TransactionViews.Tallies | Backend_new/fintrack_backend/transactions/v1/views.py:76-86 | One entry per category present among that type's rows (stated by `TalliesDomain`). |
| TransactionViews.Recent | Backend_new/fintrack_backend/transactions/v1/views.py:129-134 | At most ten rows, the first ones of the user's ordered queryset, in order. |
| TransactionViews.DeletedMessage | Backend_new/fintrack_backend/transactions/v1/views.py:113-116 | The count as decimal digits, whose value is the count, followed by ` transactions deleted successfully`. |
| TransactionViews.ToDict | Backend_new/fintrack_backend/transactions/v1/views.py:80-86 | The dictionary has a key iff some group carries it. |
| TransactionViews.ToDictAt | Backend_new/fintrack_backend/transactions/v1/views.py:80-86 | With distinct keys, each group's entry holds its total and count. |
| TransactionViews.ComputeStats | Backend_new/fintrack_backend/transactions/v1/views.py:47-97 | No stats (the date lookup raises, and the request fails) iff a supplied date does not convert. Otherwise: exact income and expense totals over the filtered rows (0 when none), balance = income − expenses, and their count. The breakdown has exactly the keys `income` and `expense`, each holding that type's per-category tallies. |
| TransactionViews.TalliesDomain | Backend_new/fintrack_backend/transactions/v1/views.py:76-86 | A type's breakdown lists a category iff some row of that type has it. |
| TransactionViews.TalliesEntry | Backend_new/fintrack_backend/transactions/v1/views.py:76-86 | A listed category holds the exact total and number of that type's rows in it. |
| TransactionViews.TallySums | Backend_new/fintrack_backend/transactions/v1/views.py:76-86 | Summing the tallies over the keys gives the keyed sums of counts and totals. |
| TransactionViews.TalliesPartition | Backend_new/fintrack_backend/transactions/v1/views.py:74-86 | Over the categories present, a type's counts add up to its number of rows, and its totals to its sum. |
| TransactionViews.SignedSum | Backend_new/fintrack_backend/transactions/v1/views.py:91 | Income minus expenses equals the sum of signed amounts. |
| TransactionViews.BalanceIsSignedSum | Backend_new/fintrack_backend/transactions/v1/views.py:64-91 | The balance is the sum over rows of `+amount` for income and `−amount` for an expense. |
| TransactionViews.Survivors | Backend_new/fintrack_backend/transactions/v1/views.py:113 | What remains is an order-preserving sub-list of the table. |
| TransactionViews.SurvivorsMembership | Backend_new/fintrack_backend/transactions/v1/views.py:113 | A row survives iff it belongs to another user or its id is not listed. |
| TransactionViews.DeletedCount | Backend_new/fintrack_backend/transactions/v1/views.py:113-117 | The number of rows removed is the number that matched the user and the ids. |
| TransactionViews.DeletedCountFrom | Backend_new/fintrack_backend/transactions/v1/views.py:113 | Survivors plus matches make up the whole table. |
| TransactionViews.TransactionTable.constructor | Backend_new/fintrack_backend/transactions/models.py:56-80 | The table holds the given rows. |
| TransactionViews.TransactionTable.BulkDelete | Backend_new/fintrack_backend/transactions/v1/views.py:99-118 | Missing or empty `ids` give 400 and delete nothing. Otherwise exactly the user's rows with a listed id go, and the reply reports how many. |
| TransactionViews.RecentIsNewest | Backend_new/fintrack_backend/transactions/v1/views.py:129-134 | At most ten of the user's rows, sorted newest first. Every row of the user that is left out is no newer than any row listed. |
| TransactionViews.TrendDays | Backend_new/fintrack_backend/transactions/v1/views.py:148-153 | The listed days are the distinct days of the rows. |
| TransactionViews.TrendsFor | Backend_new/fintrack_backend/transactions/v1/views.py:156-162 | One entry per day, position by position, holding that day's income and expense sums, with a missing side as 0. |
| TransactionViews.Trends | Backend_new/fintrack_backend/transactions/v1/views.py:136-164 | The loop's list is `TrendsFor` over the user's distinct days in ascending order. |
| TransactionViews.FormatTrends | Backend_new/fintrack_backend/transactions/v1/views.py:155-162 | The loop's list has one entry per day, in order, holding that day's income and expense sums. |
| TransactionViews.TrendsSumIsKeyedSum | Backend_new/fintrack_backend/transactions/v1/views.py:148-162 | The entries' income and expense add up to the day-keyed sums. |
| TransactionViews.TrendDaysAscending | Backend_new/fintrack_backend/transactions/v1/views.py:153 | The days are strictly ascending. |
| TransactionViews.TrendDaysCover | Backend_new/fintrack_backend/transactions/v1/views.py:143-153 | A day is listed iff the user has a transaction on it. |
| TransactionViews.TrendsAddUp | Backend_new/fintrack_backend/transactions/v1/views.py:148-162 | Over all days, the daily income and expense figures add up to the user's income and expense totals. |
| TransactionSerializers.ValidateAmount | Backend_new/fintrack_backend/transactions/v1/serializers.py:21-25 | Accepts iff the amount is > 0, returns it unchanged, and otherwise gives the stated message. |
| TransactionSerializers.AmountField | Backend_new/fintrack_backend/transactions/models.py:60-64 | The derived field accepts iff 0.01 ≤ amount < 10^8 and returns it unchanged. A value with more than ten digits gets the digit message alone, and otherwise a value below 0.01 gets the minimum message. |
| TransactionSerializers.AmountMessageUnreachable | Backend_new/fintrack_backend/transactions/v1/serializers.py:21-25 | Through the serializer the outcome is the field's: `Amount must be greater than zero.` is never the reply. |
| TransactionSerializers.ValidateCategoryAsWritten | Backend_new/fintrack_backend/transactions/v1/serializers.py:27-32 | As written: the foreign key hands the validator a `Category` instance or `None`, which never equals one of the seven strings, so every call raises with the joined list. |
| TransactionSerializers.OwnCategoryRefused | Backend_new/fintrack_backend/transactions/v1/serializers.py:27-32 | As written, even a category the requester owns is refused with the joined list. |
| TransactionSerializers.ValidateCategory | Backend_new/fintrack_backend/transactions/v1/serializers.py:27-32 | Corrected: accepts iff the category is absent or is one of the stored categories, returning it unchanged, and otherwise raises `Invalid category.`. |
| TransactionSerializers.StoredCategoryAccepted | Backend_new/fintrack_backend/transactions/v1/serializers.py:27-32 | With the corrected validator every stored category is accepted unchanged. |
| TransactionSerializers.CategoryMessageNamesEach | Backend_new/fintrack_backend/transactions/v1/serializers.py:31 | Every valid value appears in the rejection message. |
| TransactionSerializers.ValidateTypeAsWritten | Backend_new/fintrack_backend/transactions/v1/serializers.py:34-39 | As written, every call raises `AttributeError` (`TRANSACTION_TYPES` is not defined). |
| TransactionSerializers.DeclaredTypeRaises | Backend_new/fintrack_backend/transactions/v1/serializers.py:36 | Even the declared type `income` is refused. |
| TransactionSerializers.ValidateType | Backend_new/fintrack_backend/transactions/models.py:39-42 | Corrected: accepts iff the value is in `TYPE_CHOICES` and returns it unchanged. Otherwise it raises `Invalid type. Choose from: income, expense`. |
| TransactionSerializers.Create | Backend_new/fintrack_backend/transactions/v1/views.py:39-41 | The new row belongs to the requester, with id and `created_at` from the database and the writable fields from the input. |
| TransactionSerializers.Update | Backend_new/fintrack_backend/transactions/v1/views.py:43-45 | Id and `created_at` are kept (read-only), the owner becomes the requester, and the writable fields are replaced. |
| TransactionSerializers.UpdateIdempotent | Backend_new/fintrack_backend/transactions/v1/serializers.py:19 | Saving the same input twice equals saving it once. |
| TransactionFilters.Apply | Backend_new/fintrack_backend/transactions/v1/filters.py:5-21 | A form error iff some field fails to convert or `type` is outside the choices, naming exactly those fields (never `category` or `merchant`). Otherwise a server error iff `category` is not an integer. Otherwise an order-preserving sub-list of rows that meet every supplied parameter. |
| TransactionFilters.ApplyMembership | Backend_new/fintrack_backend/transactions/v1/filters.py:7-17 | With a valid form and an integer category, a row is listed iff it is in the queryset and meets every supplied bound: dates and amounts inclusive, category and type exact, merchant case-insensitive substring. |
| TransactionFilters.SuppliedBoundsConvert | Backend_new/fintrack_backend/transactions/v1/filters.py:7-12 | When the form is valid, every supplied date and amount parameter converts to a bound. |
| TransactionFilters.NoParamsKeepsAll | Backend_new/fintrack_backend/transactions/v1/filters.py:5-21 | With no parameters the queryset is unchanged. |
| TransactionFilters.EmptyMerchantMatchesAll | Backend_new/fintrack_backend/transactions/v1/filters.py:17 | An empty merchant text matches every row. |
| DefaultCategories.DefaultsByType | Backend_new/fintrack_backend/transactions/signals.py:11-31 | Sixteen defaults: four income and twelve expense. |
| DefaultCategories.IncomeCounts | Backend_new/fintrack_backend/transactions/signals.py:13-16 | The first four are all income. |
| DefaultCategories.ExpenseCounts | Backend_new/fintrack_backend/transactions/signals.py:19-30 | The last twelve are all expense. |
| DefaultCategories.DefaultNamesDistinct | Backend_new/fintrack_backend/transactions/signals.py:11-31 | No two defaults share a name. |
| DefaultCategories.Ensure | Backend_new/fintrack_backend/transactions/signals.py:34-41 | `get_or_create` only appends rows, appends them for this user, and leaves the user with that name. |
| DefaultCategories.Seed | Backend_new/fintrack_backend/transactions/signals.py:33-41 | Seeding only appends rows, all of them the user's. |
| DefaultCategories.HasNameKept | Backend_new/fintrack_backend/transactions/signals.py:34-36 | A name once present stays present as rows are added. |
| DefaultCategories.SeedCovers | Backend_new/fintrack_backend/transactions/signals.py:33-41 | After seeding, the user has a category for every default name. |
| DefaultCategories.SeedPresent | Backend_new/fintrack_backend/transactions/signals.py:33-41 | Seeding names that are all present changes nothing. |
| DefaultCategories.SeedIdempotent | Backend_new/fintrack_backend/transactions/signals.py:33-41 | Seeding twice gives the same table as seeding once. |
| DefaultCategories.SeedLeavesOthers | Backend_new/fintrack_backend/transactions/signals.py:34-36 | Another user's categories are exactly as before. |
| DefaultCategories.SeedKeepsExisting | Backend_new/fintrack_backend/transactions/signals.py:34-41 | An existing row, such as a same-name category with its own icon and type, is unchanged. |
| DefaultCategories.EnsureConsistent | Backend_new/fintrack_backend/transactions/signals.py:34-41 | `get_or_create` keeps names unique per user and ids below the next id. |
| DefaultCategories.SeedConsistent | Backend_new/fintrack_backend/transactions/signals.py:33-41 | Seeding keeps the (user, name) uniqueness and the ids consistent. |
| DefaultCategories.CategoryTable.constructor | Backend_new/fintrack_backend/transactions/models.py:33-34 | The table holds the given rows and next id. |
| DefaultCategories.CategoryTable.GetOrCreate | Backend_new/fintrack_backend/transactions/signals.py:34-41 | Creates iff the user has no category of that name. The result is the user's category of that name, a new one with the default icon and type, or an existing one untouched. The table becomes `Ensure`. |
| DefaultCategories.CategoryTable.CreateDefaultCategories | Backend_new/fintrack_backend/transactions/signals.py:7-41 | The table becomes `Seed` over the sixteen defaults. |
| DefaultCategories.CategoryTable.UserSaved | Backend_new/fintrack_backend/transactions/signals.py:44-48 | Seeds only when the user was just created, and otherwise changes nothing. |
| BudgetSerializer.Validate | Backend_new/fintrack_backend/budget/v1/serializers.py:47-52 | Refuses iff both dates are present and end ≤ start, with the stated message. Otherwise it returns the data unchanged. |
| BudgetSerializer.SameDayRefused | Backend_new/fintrack_backend/budget/v1/serializers.py:50 | Equal start and end dates are refused. |
| BudgetSerializer.CategoryChoices | Backend_new/fintrack_backend/budget/v1/serializers.py:10-13 | An authenticated requester gets only their own categories, as an order-preserving sub-list. Anyone else gets none. |
| BudgetSerializer.CheckCategory | Backend_new/fintrack_backend/budget/v1/serializers.py:10-13 | A category id is accepted iff it is among the choices, and returned unchanged. |
| BudgetSerializer.CategoryScoped | Backend_new/fintrack_backend/budget/v1/serializers.py:36-40 | A category is accepted iff it exists and belongs to the authenticated requester. Without one, nothing is accepted. |
| BudgetSerializer.Create | Backend_new/fintrack_backend/budget/v1/serializers.py:42-45 | An authenticated requester becomes the owner, whatever owner was supplied. An anonymous requester raises `ValueError`, as it cannot be assigned to the foreign key. With no request in the context it raises `KeyError`. |
| BudgetSerializer.CreateOverridesUser | Backend_new/fintrack_backend/budget/v1/serializers.py:44 | A client-supplied owner never survives `create`. |
| Accounts.User.constructor | Backend_new/fintrack_backend/accounts/models.py:42-44 | A new user is active, not staff and not superuser. |
| Accounts.User.Str | Backend_new/fintrack_backend/accounts/models.py:68-69 | `"<username>, <email>"`. |
| Accounts.User.HasPerms | Backend_new/fintrack_backend/accounts/models.py:71-72 | True iff the user is a superuser. |
| Accounts.User.HasModulePerms | Backend_new/fintrack_backend/accounts/models.py:74-75 | Always true. |
| Accounts.PermsIgnoreList | Backend_new/fintrack_backend/accounts/models.py:71-72 | The answer does not depend on the permission list. |
| Accounts.Refusal | Backend_new/fintrack_backend/accounts/models.py:7-10 | Refuses iff email or username is empty, checking email first, with the stated messages. |
| Accounts.AccountManager.constructor | Backend_new/fintrack_backend/accounts/models.py:50 | No users saved. |
| Accounts.AccountManager.CreateUser | Backend_new/fintrack_backend/accounts/models.py:6-19 | A refusal raises and saves nothing. Otherwise exactly one new user is saved, with the normalised email, the username and the hashed password, active and neither staff nor superuser. |
| Accounts.AccountManager.CreateSuperuser | Backend_new/fintrack_backend/accounts/models.py:21-32 | The same checks on the normalised email. The saved user is active, staff and superuser. |
| RegisterSerializer.Validate | backend/expense/api/serializers.py:6-28 | As written, with the model's required `username`. Field errors name exactly the failing fields: username (blank, over 150, pattern, taken), email, password under 8 after stripping, and a blank confirmation. A missing username is always refused. Otherwise a mismatch of the stripped passwords is keyed `password`, then a taken email is keyed `email`. Accepted data is stripped. |
| RegisterSerializer.ValidateWith | backend/expense/api/serializers.py:19-28 | Accepts only data with no failing field. Shared by the as-written and the corrected validators. |
| RegisterSerializer.ValidateIntended | backend/expense/api/serializers.py:40-42 | Corrected: with `username` optional, acceptance is the same except that a missing or blank username is allowed and then absent from the validated data. |
| RegisterSerializer.EmailFallbackUnreachable | backend/expense/api/serializers.py:40-42 | As written, every accepted registration has a non-blank username, and `create` uses it rather than the email. |
| RegisterSerializer.FormWithoutUsernameRefused | backend/expense/api/serializers.py:6-17 | As written, a request with a valid email, password, confirmation and name but no username is refused for `username` alone. |
| RegisterSerializer.IntendedFallsBackToEmail | backend/expense/api/serializers.py:40-42 | With the corrected validator, the same request is accepted when the email is free, and the account gets the email as username. |
| RegisterSerializer.SplitName | backend/expense/api/serializers.py:35-38 | Splits at the first space only: the first part has no space, a name without a space is all first name, and otherwise name = first + ' ' + rest. |
| RegisterSerializer.SplitNameRoundTrip | backend/expense/api/serializers.py:36 | A first name without spaces joined to any rest by one space splits back into the two. |
| RegisterSerializer.Create | backend/expense/api/serializers.py:30-52 | `confirm_password` is gone, and the password is hashed. A missing or empty username becomes the email. With no name both parts are `''`, and otherwise they come from `SplitName`. |
| RegisterSerializer.SingleWordName | backend/expense/api/serializers.py:35-38 | A validated name without a space gives that name as first name and an empty last name. |
| RegisterSerializer.ReportedByName | backend/expense/api/serializers.py:79-83 | `None` iff there is no reporter. Otherwise the full name when non-empty, and else the username. |
| RegisterSerializer.NamelessShowsUsername | backend/expense/api/serializers.py:82 | A reporter without first or last name is shown by username. |
| LoginViews.WithEmail | Backend/expense/api/views.py:64 | Only accounts with that email. |
| LoginViews.Get | Backend/expense/api/views.py:64 | Found iff exactly one account has the email, and `DoesNotExist` iff none has. |
| LoginViews.PostByEmail | Backend/expense/api/views.py:51-93 | A missing or empty email or password gives 400. A 200 is given iff the account found by email authenticates under its username. The body then carries `Login successful`, that account's summary and the two tokens issued for it. Every reply is 200, 400 or 401. |
| LoginViews.PostByUsernameKey | backend/expense/api/views.py:50-86 | The email is read from `username`, and a missing value gives 400. Every reply is 200, 400 or 401. |
| LoginViews.FailuresIndistinguishable | Backend/expense/api/views.py:84-93 | An unknown email or a wrong password gives exactly the same 401 reply, and only those do. |
| LoginViews.SharedEmailRaises | Backend/expense/api/views.py:63-64 | Two accounts with the same email make the lookup raise, uncaught. |
| LoginViews.ViewsAgree | backend/expense/api/views.py:51-86 | The legacy view with the email under `username` answers exactly as the other with it under `email`. |
| LoginViews.ExpenseTable.constructor | Backend/expense/api/views.py:32-34 | The table holds the given rows. |
| LoginViews.ExpenseTable.Destroy | Backend/expense/api/views.py:32-38 | 204 iff the id names an expense reported by the requester, and then exactly that id is removed. Otherwise 404 and nothing changes. |
| SavingsModels.ProgressPercentage | Backend/expense/api/models.py:118-122 | 0 when the target is ≤ 0, and otherwise current/target × 100 exactly. |
| SavingsModels.ProgressLandmarks | Backend/expense/api/models.py:121 | Nothing saved gives 0, reaching the target gives 100, and more saved never lowers the percentage. |
| SavingsModels.MinValue | Backend/expense/api/models.py:35 | No error iff the value is at least the limit. |
| SavingsModels.MaxDigits | Backend/expense/api/models.py:33-34 | No error iff the value in cents is strictly between −10^10 and 10^10, i.e. has at most ten digits with two decimal places. |
| SavingsModels.FieldErrors | Backend/expense/api/models.py:32-36 | No errors iff both the minimum and the digit limit hold. At most two errors: the declared minimum validator's first and the field's digit validator's last. |
| SavingsModels.CheckAmount | Backend/expense/api/models.py:32-36 | An amount passes iff it is at least 0.01 and has at most ten digits, i.e. is below 10^8. |
| SavingsModels.CheckCurrent | Backend/expense/api/models.py:101-106 | `current_amount` passes iff it is at least 0.00 and below 10^8. |
| SavingsModels.BudgetErrors | Backend/expense/api/models.py:32-38 | A budget has no field error iff its amount is at least 0.01 and below 10^8. Month and year carry no validator. |
| SavingsModels.ThirteenthMonthAccepted | Backend/expense/api/models.py:37 | Month 13 passes validation. |
| SavingsModels.HundredMillionRefused | Backend/expense/api/models.py:32-35 | A budget of 10^8 is refused with the digit-limit message alone. |
| SavingsModels.BothErrorsInOrder | Backend/expense/api/models.py:32-36 | An amount of −10^8 fails both validators, and the minimum message comes before the digit message. |
| SavingsModels.CategoryStr | Backend/expense/api/models.py:25-26 | `"<name> (<type>)"`. |
| SavingsModels.BudgetStr | Backend/expense/api/models.py:46-47 | Exactly `"<username> - <category> - "` followed by `<month>/<year>`, at their positions. |
| SavingsModels.AmountStr | Backend/expense/api/models.py:67-68 | `"<source> - $"` followed by the amount with two decimals, which reads back as the amount. The same holds for `Expense` at lines 89-90. |
| SavingsModels.GoalStr | Backend/expense/api/models.py:115-116 | `"<name> - $"`, the current amount, `"/$"`, the target amount, each at its position, and both amounts read back as the given values. |

## Left out

- Rendering, routing and browser side effects are not modelled: JSX, charts, `alert`/`confirm`, `window.location`, `navigate`, and Blob downloads. A handler is modelled only by the state and the storage it changes, and by the request it makes.
- Floating point is not modelled. This covers JavaScript `Number`, `toFixed`, Python `round(..., 1)` and `float(...)`. Sums are exact integers of cents, and ratios are exact reals, so rounding differences at the last digit are not captured.
- Parsing and formatting of dates and numbers (`strptime`, `parseFloat`, `new Date`, `toLocaleDateString`, `isoformat`, the form fields' conversions) are parameters. Where the code can meet text that does not parse, the parameter returns an option and the model follows the code's failure path: a form error or a server error in the transaction filters, no stats in `stats`, an empty report for an Invalid Date on the Reports page, and an error in the report service.
- The Django ORM and the database are reduced to sequences of rows. Foreign-key cascades, `unique_together` and the other database constraints are kept only as the `Consistent` invariant of the category table. Transactions and concurrent requests are not modelled.
- Ordering ties: `order_by` on a column with equal values leaves the database free to choose. The model breaks ties by insertion order (a stable sort).
- `TransactionViews.DeletedCount`: Django's `delete()` also counts cascaded rows. A transaction has no dependants, so the model counts only the matched rows.
- `TransactionSerializers.CategoryMessageNamesEach`: it proves only that each value appears in the message. It does not prove that the message equals the literal joined text.
- `RegisterSerializer.Create`: the e-mail normalisation that Django's `create_user` does is not modelled; the e-mail is stored as given. The dictionary `pop`s become a function from the validated data to the new user.
- `RegisterSerializer.Validate`: the e-mail address pattern, the `\w` class of the username pattern and the two uniqueness lookups are parameters. The messages of the field errors are not modelled, only which fields fail.
- `Text.Strip` removes only the ASCII whitespace that Python's `str.strip()` removes (space, `\t`-`\r` and 0x1C-0x1F). Non-ASCII spaces such as U+00A0 are kept, where Python strips them.
- `TransactionSerializers.AmountField`: the digit message likewise assumes a two-place value; DRF reports a whole-number value of 10^8 or more as having too many digits before the decimal point. Amounts with more than two decimal places are not modelled, because amounts are whole cents.
- `SavingsModels.MaxDigits`: the message assumes the amount carries its two decimal places, as a value read through a two-place field does. A whole-number `Decimal` of 10^8 or more is refused by the same bound but with Django's "no more than 8 digits before the decimal point" message instead.
- Case folding is ASCII-only: `Text.Lower` and `Text.UpperChar` change only `A`-`Z` and `a`-`z`, where JavaScript's `toLowerCase` and Python's `lower` also fold other letters. The search filters and the name shown on the admin list use them.
- `TransactionFilters.Apply`: a `NumberFilter` amount with more than two decimal places is not modelled, because amounts are whole cents; the `cents` parameter stands for the conversion.
- `ReportsPage.Totals`: its own contract states only the net. The totals themselves are stated by `TotalsAreSums`.
- `Accounts.AccountManager.CreateUser` and `CreateSuperuser`: `normalize_email`, `set_password` and the hash are parameters, and `**extra_fields` is not modelled.
- `LoginViews.SharedEmailRaises`: `MultipleObjectsReturned` is uncaught and becomes the framework's 500. It is modelled as `Uncaught`, without the page's text.
- JWT internals (signature, encoding, lifetime settings) are not modelled. Token decode and token issue are parameters.
- `authService.register` and `authService.getProfile` are not modelled. Each is a single request whose reply is passed through unchanged.
- `handleAddCategory` and `handleDeleteCategory` on the Categories page are not modelled. Each is a server round trip followed by a refetch of the list, with no client-side logic of its own.
- The transaction view set's `categories` action (`transactions/v1/views.py:120-127`) is not modelled. It returns a constant list.
- `ReportViewSet`, `ReportScheduleViewSet` and `ReportStatsView` (`report/v1/views.py:126-169`) are not modelled. They are plain CRUD and counting over the saved reports.
- `SearchFilter`, `OrderingFilter` and `get_serializer_class` are not modelled. They are framework configuration.
- `AdminDashboard.AvatarInitial`: with both the first name and the username empty, JavaScript throws while rendering. The model returns `None` there.
- `TransactionsPage.DeleteThenAddRepeatsId`: new ids are the list length plus one, so an id can repeat after a delete. The model keeps the ids as written and records the repeat as a lemma. No corrected page is modelled, because the component does not say what ids should be.
- `SetBudget.Editor.EditClick` and `SetBudget.Editor.SaveBudget` require the category to be one of the eight keys. The page only ever passes those keys.
- `PrivateRoute.AuthRun`: a token that fails to decode rejects the effect's promise, and only the effect's `.catch` turns it into "unauthorized". The model gives that outcome directly.
- Sessions, CSRF and the other framework middleware are not modelled.

## Findings

| source | as written | input that shows it | evidently intended | confidence | as-written member | corrected member |
|---|---|---|---|---|---|---|
| Frontend_Expense/expense/src/routes/protectedroutes.jsx:19-28 | The refresh POST is not awaited. `resp === 200` compares a promise with 200, which is always false, so an expired session is never renewed and the new token is never stored. | A stored access token whose `exp` is in the past, a refresh token, and a server that answers the refresh with 200. | Await the POST, test the reply's `status`, and store `res.data.access`, as `Frontend/src/routes/protectedroutes.jsx` does. | not executed | PrivateRoute.ExpiredSessionNeverRenews | PrivateRoute.IntendedMatchesProtectedRoute |
| Backend_new/fintrack_backend/transactions/v1/serializers.py:34-39 | `validate_type` reads `Transaction.TRANSACTION_TYPES`, which the model does not define. Every call raises `AttributeError`, even for a valid type. | `type = "income"`. | Check against `Transaction.TYPE_CHOICES` (`transactions/models.py:39-42`), and refuse only other values. | not executed | TransactionSerializers.DeclaredTypeRaises | TransactionSerializers.ValidateType |
| backend/expense/api/serializers.py:40-42 | `create` falls back to the email when the username is missing or empty. But the serializer is a `ModelSerializer` over `User`, whose `username` field is required and not blank, so such a request is refused during validation and the fallback is never reached. | A request with a valid, unused email, password `abcdefgh`, the same confirmation, name `Jane Doe`, and no username: 400 with only `username` in error. | Declare `username` optional and blank-allowed on the serializer, so that the request is accepted and the account is created with the email as its username. | not executed | RegisterSerializer.FormWithoutUsernameRefused | RegisterSerializer.IntendedFallsBackToEmail |
| Backend_new/fintrack_backend/transactions/v1/serializers.py:27-32 | `validate_category` compares the value with the seven legacy category strings. The field is a foreign key to `Category`, so the value is a `Category` instance and never equals a string: every transaction that names a category is refused. | Any category the requester owns, e.g. the seeded `Food & Dining` row. | Check that the category exists among the stored categories, as the docstring says, and accept a null category. | not executed | TransactionSerializers.OwnCategoryRefused | TransactionSerializers.StoredCategoryAccepted |
