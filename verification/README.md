# ERP dashboard client — a Dafny model

A functional model of the browser client of a small ERP system. The client has
eight screens behind a login gate: Dashboard, Sales, Inventory, Expenses,
Tasks, Reports, Google Sheets and an admin panel. The model covers the logic
these screens share and the logic each screen computes:

- **Aggregates and cards.** Sales, Inventory, Expenses, Tasks and Reports
  reduce the fetched lists to summary cards. Money is exact (`real`).
  `toFixed(2)` is an explicit round-to-hundredths function (`Money.Round2`),
  and `parseInt` truncates toward zero (`Money.Truncate`).
- **Mutate-then-refetch.** Every create, delete, status change and pin toggle
  posts its request. After a success the screen fetches the whole collection
  again; it never patches its held copy. After a failure it raises that
  screen's alert. A delete sends nothing unless `window.confirm` returned true.
  The server is not modelled. Each handler receives the server's answer as a
  `Response` parameter and returns the requests it issued, in order.
- **The Sales PDF line layout.** The page cursor starts at y = 45 and steps
  by 8 per row. Before a row, a cursor past 270 starts a new page at y = 20.
  The model proves a closed form for every row's position.
- **The add-sheet modal.** Three ordered validation checks, then the parent's
  add handler. The modal either closes with cleared fields, or stays open
  with an error message.
- **The sheet views.** The fetched sheets are split into pinned and unpinned
  lists. This split is a complete, order-preserving partition, and it is the
  only one. Which sections and badges show follows from it.
- **The session gate.** The app is logged in exactly when a non-empty token is
  stored. Login, logout and a 401 response each keep that invariant. An
  unknown module id falls back to the Dashboard.

Text is `seq<char>`, a sequence of Unicode scalar values. JavaScript strings
are sequences of UTF-16 code units, so a length or an index counts differently
once a character lies outside the Basic Multilingual Plane (see
`SalesPdf.Clip` under "Left out"). `String.prototype.trim` uses the ECMAScript
whitespace and line-terminator set, and `includes` is modelled as a substring
search with an independent existential specification.

A few facts about the code:

- The Dashboard's `sheetsLoading` and `tasksLoading` flags are set but never
  read by its render. Only the summary fetch gates that page.
- The Sheets page re-enters its loading screen whenever a mutation succeeds,
  because the re-fetch raises `loading` before its first await.

Two more behaviours of the code:

- A failed delete alerts and does not re-fetch.
- On both sheet views, a failed pin toggle or delete is only logged; no
  notification is shown.

## Model

| member | source | states |
|---|---|---|
| Money.Round2 | src/components/Sales.jsx:48 | `toFixed(2)` as hundredths: within half a hundredth of 100·x, ties away from zero, non-negative for non-negative input |
| Money.Round2Unique | src/components/Sales.jsx:48 | the rounding is the unique integer in that half-open window, so it is the nearest hundredth |
| Money.Round2OfCents | src/components/Sales.jsx:48 | a value already in whole hundredths is unchanged by `toFixed(2)` |
| Money.Truncate | src/components/Sales.jsx:45 | `parseInt` of a decimal keeps the integer part, truncating toward zero for either sign |
| Seqs.Reduce | src/components/Reports.jsx:23-26 | the left-to-right `reduce` with `+` starting at 0 computes the recursive sum; its loop invariant is needed for that |
| Seqs.SumSnoc | src/components/Reports.jsx:23 | adding one more element to the end adds its value to the sum |
| Seqs.Filter | src/pages/Sheets.jsx:24-25 | `filter` keeps exactly the elements that satisfy the predicate, and no more elements than the input |
| Seqs.FilterSplitInterleaves | src/components/Dashboard.jsx:63-64 | a filter and its complement merge back into the input in order, with nothing lost or duplicated |
| Seqs.InterleavesMultiset | src/components/Dashboard.jsx:63-64 | such a merge keeps every element with its multiplicity, and the lengths add up |
| Seqs.SplitIsFilter | src/pages/Sheets.jsx:24-25 | conversely, any order-preserving split into satisfying and non-satisfying parts is the pair of filters |
| Seqs.FilterDisjointUnion | src/components/Tasks.jsx:98-106 | counts under predicates that never hold together add up to the count under their disjunction |
| Seqs.FilterKeepsAll | src/components/Expenses.jsx:80-84 | a filter keeps everything iff every element passes it |
| Seqs.Count | src/components/Expenses.jsx:78-85 | `filter(p).length` is at most the list length, and equals it iff every element passes |
| Text.TrimStart | src/components/AddGoogleSheetModal.jsx:16 | the leading-whitespace strip leaves a suffix of the input that is empty or starts with a non-space, and everything it cut is whitespace |
| Text.TrimEnd | src/components/AddGoogleSheetModal.jsx:16 | the trailing-whitespace strip leaves a prefix of the input that is empty or ends with a non-space, and everything it cut is whitespace |
| Text.Trim | src/components/AddGoogleSheetModal.jsx:16-24 | `trim()` is a middle part of its input with only whitespace before and after it, is empty or neither starts nor ends with whitespace, and leaves text without outer whitespace unchanged |
| Text.TrimStartEmpty | src/components/AddGoogleSheetModal.jsx:16 | the leading strip empties the text iff it is all whitespace |
| Text.TrimEndEmpty | src/components/AddGoogleSheetModal.jsx:16 | the trailing strip empties the text iff it is all whitespace |
| Text.TrimEmptyIffAllSpace | src/components/AddGoogleSheetModal.jsx:16-24 | `!s.trim()` holds iff every character of `s` is whitespace |
| Text.Includes | src/components/AddGoogleSheetModal.jsx:26 | `includes` finds the empty pattern everywhere, never a pattern longer than the text, and a pattern as long as the text iff the two are equal |
| Text.IncludesIffContains | src/components/AddGoogleSheetModal.jsx:26 | the scanning `includes` agrees with "the pattern occurs at some index" |
| Api.MessageOr | src/components/AddGoogleSheetModal.jsx:38 | the server's message unless it is missing or empty, and never empty when the fallback is not |
| Crud.Fetched | src/components/Sales.jsx:24-33 | a fetch ends loading either way; success replaces the snapshot wholesale and failure keeps it |
| Crud.Created | src/components/Expenses.jsx:37-47 | the create is sent first; success resets and hides the form, then re-fetches; failure alerts and keeps the form |
| Crud.Mutated | src/components/Tasks.jsx:62-78 | the screen state is untouched; the re-fetch follows only a success, and an alert is raised iff the call failed |
| Crud.Deleted | src/components/Expenses.jsx:49-58 | a request is sent iff the user confirmed; declining changes nothing and alerts nothing |
| Sales.ToNewSale | src/components/Sales.jsx:43-49 | integer quantity, prices as typed, total equal to the rounded line value and within half a paisa of the exact product |
| Sales.TotalAmountRedisplays | src/components/Sales.jsx:48 | showing the posted total to two decimals again gives back the same paise |
| Sales.Figures | src/components/Sales.jsx:148-188 | the cards are the sums of totalAmount, profit and quantity plus the number of sales, and all zero for no sales |
| Sales.Submit | src/components/Sales.jsx:39-57 | the converted sale is posted; success resets and hides the form, keeps the held list and loading flag, raises no alert and re-fetches the sales; failure changes nothing and alerts "Failed to create sale" |
| Sales.Remove | src/components/Sales.jsx:59-68 | the screen is unchanged; delete only after confirmation; success re-fetches with no alert; failure sends only the delete and alerts "Failed to delete sale" |
| SalesPdf.BreakIfFull | src/components/Sales.jsx:122-125 | before a row the cursor is never left past 270; it moves to the next page at y = 20 exactly when it was past 270, and otherwise stays put |
| SalesPdf.Advance | src/components/Sales.jsx:132 | after a row the cursor is 8 lower on the same page |
| SalesPdf.RowPlace | src/components/Sales.jsx:120-132 | the closed form of row i's position: 29 rows on the first page and 32 per later page, always within y 20..270 |
| SalesPdf.FirstRowPlace | src/components/Sales.jsx:120-126 | the first row is printed at y = 45 on the first page |
| SalesPdf.RowPlaceStep | src/components/Sales.jsx:121-132 | one loop step (advance 8, then break if past 270) moves from each row's closed-form position to the next |
| SalesPdf.RowsAdvanceByStep | src/components/Sales.jsx:121-132 | rows on the same page are exactly 8 apart; a new page starts at 20, and only after a cursor past 270 |
| SalesPdf.Clip | src/components/Sales.jsx:127 | the printed name is a prefix of the product name, at most 20 characters long |
| SalesPdf.ExportLayout | src/components/Sales.jsx:118-143 | every sale gets one row, at its closed-form position, showing its cells; the summary totals are the on-screen sums at end cursor +10 and +18 |
| SalesPdf.SummaryIgnoresPageLimit | src/components/Sales.jsx:139-143 | with no page-break check, after one full first page of rows the profit line lands at y = 295 |
| Inventory.StockStatus | src/components/Inventory.jsx:176-177 | "Low Stock" iff quantity ≤ minStock (equality is low), otherwise "In Stock" |
| Inventory.LowStockLabelsMatchFilter | src/components/Inventory.jsx:176-177 | the rows labelled low are exactly the members of the client-side low-stock filter |
| Inventory.Figures | src/components/Inventory.jsx:75-78 | item count, the server-supplied low-stock count, and the sum of quantity × price, which is 0 for no items |
| Inventory.ShowLowStockAlert | src/components/Inventory.jsx:108-112 | the banner shows iff the server's low-stock list is non-empty |
| Inventory.InventoryFetched | src/components/Inventory.jsx:26-35 | only the main list ends loading; the items change only on success, and the low-stock list and the form (open or not, with what was typed) are untouched |
| Inventory.MountLoadingEndsWithMainList | src/components/Inventory.jsx:10-35 | the screen mounts loading with nothing held; the low-stock fetch settling does not end loading, the main list's fetch does |
| Inventory.LowStockFetched | src/components/Inventory.jsx:37-44 | the low-stock fetch never touches the loading flag or the main list |
| Inventory.Submit | src/components/Inventory.jsx:50-61 | success resets and hides the form, keeps both lists and the loading flag, raises no alert and re-fetches the inventory and the low-stock list; failure changes nothing and alerts |
| Inventory.Remove | src/components/Inventory.jsx:63-73 | the state is unchanged; delete after confirmation; success re-fetches both lists with no alert; failure sends only the delete and alerts "Failed to delete item" |
| Expenses.TotalExpenses | src/components/Expenses.jsx:60 | the total card is the sum of amounts with a missing amount counted as 0; 0 for no expenses |
| Expenses.MissingAmountsAddNothing | src/components/Expenses.jsx:60 | dropping the expenses without an amount does not change that total |
| Expenses.CountStatus | src/components/Expenses.jsx:78-85 | the Pending and Approved cards are each at most the number of expenses, and equal to it iff every expense has that status |
| Expenses.PendingApprovedBound | src/components/Expenses.jsx:80-84 | Pending + Approved ≤ all expenses, with equality iff no expense has another status |
| Expenses.Submit | src/components/Expenses.jsx:37-47 | success resets the form to status "Pending", hides it, keeps the list and loading flag, raises no alert and re-fetches; failure changes nothing and alerts "Failed to create expense" |
| Expenses.Remove | src/components/Expenses.jsx:49-58 | the screen is unchanged; the delete is sent iff the user confirmed; success re-fetches with no alert; failure sends only the delete and alerts "Failed to delete expense" |
| Tasks.CountStatus | src/components/Tasks.jsx:98-106 | a status card is at most Total Tasks, and equals it iff every task has that status |
| Tasks.StatusCountsBound | src/components/Tasks.jsx:98-106 | the three status counts sum to at most the total, with equality iff every status is one of the select's three options |
| Tasks.Cards | src/components/Tasks.jsx:92-107 | Total Tasks is the list length; the other three cards count the tasks with that exact status |
| Tasks.PriorityColour | src/components/Tasks.jsx:170 | High → #ff6b6b, Medium → #ffd43b, anything else → #51cf66 |
| Tasks.PriorityColourSeparatesClasses | src/components/Tasks.jsx:170 | two priorities share a colour iff they fall in the same one of those three classes |
| Tasks.DueDateCell | src/components/Tasks.jsx:163 | "N/A" iff the due date is absent or empty; otherwise the date itself is formatted |
| Tasks.Submit | src/components/Tasks.jsx:39-49 | success resets the form to priority "Medium" and status "Pending", hides it, keeps the list and loading flag, raises no alert and re-fetches; failure changes nothing and alerts |
| Tasks.Remove | src/components/Tasks.jsx:51-60 | the screen is unchanged; delete after confirmation; success re-fetches with no alert; failure sends only the delete and alerts "Failed to delete task" |
| Tasks.ChangeStatus | src/components/Tasks.jsx:62-69 | the screen is unchanged; exactly the status update (carrying the new status alone), then the re-fetch iff it succeeded; no alert on success, "Failed to update task" on failure |
| Tasks.TogglePinned | src/components/Tasks.jsx:71-78 | the screen is unchanged; exactly the pin toggle, then the re-fetch iff it succeeded; no alert on success, "Failed to toggle pin" on failure |
| Reports.ProfitMargin | src/components/Reports.jsx:36 | 0 without dividing when sales are not positive; otherwise 100 × profit / sales to the nearest hundredth of a percent |
| Reports.ProfitMarginBounds | src/components/Reports.jsx:36 | a profit between 0 and the sales gives a margin between 0.00 and 100.00 |
| Reports.ExpenseTotal | src/components/Reports.jsx:24 | the expense total as a value: a number iff every amount is present, and then the Expense Tracker's total |
| Reports.ReportExpenses | src/components/Reports.jsx:24 | the raw `+` reduction loop is a number iff every amount is present, then equals the Expense Tracker's total, and agrees with `ExpenseTotal` |
| Reports.Summarize | src/components/Reports.jsx:23-37 | the stored summary has an expense total iff every amount is present, and is all zero for three empty lists |
| Reports.GenerateReport | src/components/Reports.jsx:15-37 | the sums of totalAmount, profit and quantity × price, the three list lengths and the guarded margin, as in `Summarize`; all zero for three empty lists |
| Reports.WorkedExample | src/components/Reports.jsx:23-37 | one sale (2 × 100, profit 20), one 50 expense and one 10 × 5 item give 200 / 50 / 20 / 50 and a 10.00 margin |
| Reports.Settled | src/components/Reports.jsx:17-42 | loading ends whether or not the joined fetch succeeded; a success stores the summary of the three delivered lists (their sales, profit and stock-value sums and guarded margin); a failure keeps what was held |
| Reports.RenderAsWritten | src/components/Reports.jsx:63-82 | as written: the loading text iff loading, and a render failure iff loading has ended with no summary held |
| Reports.FailedFetchBreaksPage | src/components/Reports.jsx:63-82 | as written, after a failed first fetch the page dereferences a null report |
| Reports.Render | src/components/Reports.jsx:63-98 | corrected: cards iff a summary is held, the loading text iff loading, an empty state otherwise, and the same page as written whenever that one renders |
| SheetModal.Validate | src/components/AddGoogleSheetModal.jsx:16-29 | the three checks in order, each with its own message: blank name, then blank URL, then a URL without the Sheets host text; none iff all pass |
| SheetModal.Submit | src/components/AddGoogleSheetModal.jsx:12-42 | onAdd is called iff validation passes, with the untrimmed name and URL; the modal closes with cleared fields iff that add succeeds; otherwise it keeps the fields and shows a non-empty error |
| SheetModal.StaleErrorIgnored | src/components/AddGoogleSheetModal.jsx:14 | the error of an earlier attempt has no effect on the next one |
| SheetLists.Split | src/pages/Sheets.jsx:24-25 | pinned and unpinned lists: each holds only its kind, they merge back into the fetched list in order, and they keep every sheet exactly once |
| SheetLists.SplitUnique | src/pages/Sheets.jsx:24-25 | any order-preserving split by the pin flag is this one |
| SheetLists.Fetched | src/components/Dashboard.jsx:58-73 | a successful fetch replaces both lists with the split of all sheets; a failure keeps them |
| SheetLists.Mutation | src/components/Dashboard.jsx:87-114 | a sheet mutation is followed by one fetch of all sheets after a success and by nothing after a failure |
| SheetsPage.FetchSettled | src/pages/Sheets.jsx:19-34 | loading is false after a fetch, whether it succeeded or failed |
| SheetsPage.Mutate | src/pages/Sheets.jsx:46-53 | a successful mutation puts the page back into loading; a failure changes nothing |
| SheetsPage.TogglePinned | src/pages/Sheets.jsx:46-53 | exactly the toggle, then the re-fetch iff it succeeded; a success only puts the page into loading, a failure leaves it as it was |
| SheetsPage.Remove | src/pages/Sheets.jsx:55-64 | a request is sent iff the user confirmed: the delete, then the re-fetch iff it succeeded; a success only puts the page into loading, otherwise the page is unchanged |
| SheetsPage.AddSheet | src/pages/Sheets.jsx:36-44 | nothing is sent unless the modal validates; the modal closes and a fetch starts only after the create succeeds, and then only the loading and modal flags change (the held lists stay until the re-fetch settles); on failure the page is unchanged and the modal stays open |
| SheetsPage.MountThenFirstFetch | src/pages/Sheets.jsx:12-34 | the page mounts on its loading text; the first fetch settling shows the sections, and only the empty state after a failure |
| SheetsPage.Render | src/pages/Sheets.jsx:66-120 | the pinned section iff pinned sheets are held, the all-sheets section iff unpinned ones are, the empty state iff neither |
| SheetsPage.EmptyStateIffNoSheets | src/pages/Sheets.jsx:111-120 | after a successful fetch, the empty state shows iff the server has no sheet, and the pinned section shows iff some sheet is pinned |
| Dashboard.SummaryArrived | src/components/Dashboard.jsx:46-56 | loading ends either way; only a success stores the summary and reports its lastUpdated to the header |
| Dashboard.SheetsArrived | src/components/Dashboard.jsx:58-73 | the sheets fetch settles into the split lists and clears sheetsLoading; every other field of the dashboard state is unchanged |
| Dashboard.PinnedTasksArrived | src/components/Dashboard.jsx:75-85 | the pinned-tasks fetch replaces the list only on success and always clears tasksLoading |
| Dashboard.StatCard | src/components/Dashboard.jsx:195 | a present total is shown as `toFixed(2)` of it, within half a paisa for either sign (ties away from zero); a missing one shows 0 |
| Dashboard.PieValues | src/components/Dashboard.jsx:138-142 | the three slices are totalSales, totalExpenses and totalProfit, each 0 when absent |
| Dashboard.StatCardMatchesPie | src/components/Dashboard.jsx:138-142 | for each of totalSales, totalExpenses and totalProfit, the stat card and the pie slice agree to within half a paisa for either sign, and both read zero when the total is missing |
| Dashboard.Import | src/components/Dashboard.jsx:116-126 | the link is posted with the data type; success alerts, clears the link, closes the modal and re-fetches the summary; failure alerts the server's message and changes nothing |
| Dashboard.SheetMutated | src/components/Dashboard.jsx:96-103 | a successful sheet mutation starts a re-fetch (sheetsLoading); no alert either way |
| Dashboard.TogglePinned | src/components/Dashboard.jsx:96-103 | exactly the toggle, then the re-fetch iff it succeeded; no alert; the only state change is sheetsLoading raised by a success |
| Dashboard.DeleteSheet | src/components/Dashboard.jsx:105-114 | a request is sent iff the user confirmed: the delete, then the re-fetch iff it succeeded; no alert; the only state change is sheetsLoading raised by a success; declining changes nothing |
| Dashboard.AddSheet | src/components/Dashboard.jsx:87-94 | the create is sent only after validation; the modal closes and sheets are re-fetched only after the create succeeds, and then only sheetsLoading and the modal flag change |
| Dashboard.MountWaitsForSummaryOnly | src/components/Dashboard.jsx:29-56 | the page mounts on its loading view with all three fetches pending; the summary settling alone, success or failure, shows the sections |
| Dashboard.AssigneeLabel | src/components/Dashboard.jsx:397 | an empty assignee shows "Unassigned"; the label is never empty |
| Dashboard.ShowsDueLine | src/components/Dashboard.jsx:399-403 | the due line of a pinned-task card shows exactly when the Tasks table formats a date instead of "N/A" |
| Dashboard.Render | src/components/Dashboard.jsx:382-465 | pinned-tasks section iff tasks are pinned; connected badge = pinned + unpinned; placeholder iff no pinned sheet; all-sheets section iff unpinned sheets exist |
| Dashboard.ConnectedBadgeCountsAll | src/components/Dashboard.jsx:416 | after a successful sheets fetch the badge equals the number of sheets returned |
| App.ViewFor | src/App.jsx:26-47 | a known module id mounts its own screen; any other id mounts the Dashboard |
| App.ViewForRoundTrip | src/App.jsx:27-45 | each of the eight screens is reached from its own id |
| App.Start | src/App.jsx:17-18 | a page load is logged in iff a non-empty token is stored, and starts on "dashboard" |
| App.SignIn | src/components/Login.jsx:48-55 | a non-empty token is stored and logs in; an empty one changes nothing |
| App.Logout | src/App.jsx:21-24 | the token is removed and the app is logged out; the stored keys are exactly the old ones minus the token, with their values, and activeModule is unchanged |
| App.Unauthorized | src/services/api.js:33-37 | a 401 removes the token and nothing else from storage and reloads, so the app starts logged out on the Dashboard |
| App.Navigate | src/App.jsx:56-61 | selecting a module changes the active module and nothing else |
| App.DataUpdated | src/App.jsx:19-29 | the Dashboard's lastUpdated reaches the header and changes nothing else |
| App.ConsistencyPreserved | src/App.jsx:17-24 | navigation and header updates keep the login flag in step with the stored token |
| App.Render | src/App.jsx:49-62 | logged out, only the login screen shows, whatever activeModule is; logged in, the active module's screen |
| App.ReloginKeepsModule | src/App.jsx:18-24 | logging out and back in returns to the same screen; a rejected session comes back on the Dashboard |

## Left out

- IEEE-754 doubles are not modelled; money is exact. `parseFloat` of text that is not a number gives NaN, which is not modelled either: the numeric inputs are `required` and are modelled as present numbers.
- Reports.GenerateReport: the sale amounts are treated as numbers. The Sales form posts `totalAmount` as a `toFixed` string, and Reports adds it without parsing, which would concatenate strings if the server kept the string.
- Reports.ReportExpenses: an expense whose amount is `undefined` is modelled as an absent total (`None`) rather than as NaN flowing into the card. A `null` amount (which JavaScript's `+` adds as 0) and an empty-string amount (which turns the running total into a string, so the later `toFixed(2)` throws) are not distinguished from a missing one: an expense has either a numeric amount or none. The Expense Tracker's own total (`exp.amount || 0`) counts all three as 0.
- Reports.ProfitMargin: the source yields a string from `toFixed` and the number 0 otherwise; both are modelled as an integer number of hundredths.
- `formatINR` (`Intl.NumberFormat`), `toLocaleString` and `toLocaleDateString` are locale formatting done by the browser. Cells are modelled as the values they format.
- XLSX and jsPDF file output, the Reports Excel/PDF export, fonts, colours and the PDF header band are not modelled. These are foreign libraries; only the row-cursor arithmetic of the Sales PDF is modelled.
- The Dashboard's charts use hard-coded sample data, and the chart tab state is presentational.
- Opening and closing modals and forms, and typing into inputs, are plain field assignments and are not modelled.
- The login and registration screen, the admin panel, the navigation bar, the sheet card and the static sheet list are not modelled, apart from the stored-token effect of a successful login (`App.SignIn`).
- The axios client and its interceptors are not modelled, apart from the 401 effect (`App.Unauthorized`).
- Concurrency is not modelled: the order in which independent fetches settle, stale responses, and the unmounted-component updates after a modal closes. Each settle is its own transition.
- `Promise.all` in Reports is modelled as one response carrying all three lists (`Reports.ReportLists`), or one failure when any of the three fetches fails; `Reports.Settled` stores `Reports.Summarize` of those lists.
- SalesPdf.Clip: names are clipped to 20 Unicode scalar values, while `substring(0, 20)` counts 20 UTF-16 code units. A name with characters outside the Basic Multilingual Plane (emoji, for instance) keeps more characters in the model than in the PDF, and a `seq<char>` cannot hold the lone surrogate half that `substring` can leave at the cut.
- `parseInt` accepts forms such as "1e3" or leading text, and these are not modelled; a quantity is a decimal number truncated toward zero.
- The server's `/dashboard` aggregate is a parameter. Its relation to the client-side aggregates is not modelled, because the server is not part of this model.

## Findings

| source | as written | input that shows it | evidently intended | confidence | as-written member | corrected member |
|---|---|---|---|---|---|---|
| src/components/Reports.jsx:38-82 | a failed report fetch is caught and logged, then loading ends with `reportData` still null, and the render reads `reportData.totalSales` | any rejection of the first `Promise.all` (e.g. the sales fetch fails) | show an empty state for a report that never arrived, as every other screen does for a failed read | medium, not executed | Reports.FailedFetchBreaksPage | Reports.Render |
