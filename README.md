# ERP manager dashboard: a Dafny model of its table views and session

This project models the logic of a React ERP dashboard for managers. That logic consists of:

- six table views:
  - the sales table fetches the sales records, counts the records of each product and
    shows the rows page by page;
  - the team-management page fetches the employees, filters them by name and department
    and shows them page by page;
  - the employee table fetches the employees, joins each with its incentive slab, which
    falls back to `[]` when its lookup fails, and shows the rows page by page;
  - the manager team table fetches the team, joins each member with its total sales, which
    falls back to 0 when its lookup fails, and shows the rows page by page;
  - the sales page fetches the customers and the sales; it sends one total-sales request per
    customer, all to the same URL without an id, and the model gives them one shared answer;
    the page has no page buttons, so it stays on page 1;
  - the contest table fetches nothing: it pages a constant list of five contests;
- the month filter on the sales page;
- the sign-up form's validation;
- the session provider. It keeps the signed-in user and token in memory, in the browser's
  storage and in the HTTP client's default `Authorization` header.

Every awaited HTTP call is an input to the model. `Response<T>` is either `Ok(data)` or
`Failed(status, message)`. A response body is shaped as the views test it: `Payload<T>` is
`Falsy`, `Array(items)` or `NonArray`. The network, the clock and the browser are not modelled.

Model structure:

- Component state is a `class` whose fields are the component's `useState` variables. Each
  handler is a `method`. The views' methods name in `modifies` exactly the fields the handler
  sets; the session's methods modify the whole object, and their `ensures` give its whole new
  state.
- `Promise.all` over a list is an order-preserving map.
- A per-record lookup, such as `fetchIncentives(_id)` or `fetchTotalSales(_id)`, is a function
  parameter keyed by the record's `_id`.
- Where a property relates several handler calls, the component also has a value-level state
  datatype and step functions. The class methods are proved equal to those step functions:
  `EmployeeTable.State`, `ManagerTeam.State` and `AuthContext.AuthState`.

Modules:

| module | models |
|---|---|
| `Js` | `x \|\| fallback` on strings and numbers, ASCII `toLowerCase`, `includes`, `\s`, `join` |
| `Remote` | response shapes, records, the incentive and total-sales lookups with their fallbacks |
| `Seqs` | `Array.prototype.filter` |
| `Paging` | `Math.ceil(n / size)`, `slice` with negative indices, Prev/Next/number buttons, render precedence |
| `SalesTable` | src/ManagerDashPages/SalesTable.jsx |
| `TeamManagementPage` | src/Team_management.jsx |
| `EmployeeTable` | src/EmployeeModel.jsx |
| `ManagerTeam` | src/ManagerDashPages/TeamManagement.jsx |
| `SalesManagement` | src/SalesManagement.jsx |
| `SalesContest` | src/SalesContest.jsx |
| `AuthContext` | src/AuthContext/AuthContext.jsx |
| `SignUp` | src/SignUp.jsx |

Four behaviours of the code worth stating plainly:

- `logout` clears the session only when the server accepts the request
  (src/AuthContext/AuthContext.jsx:87-102); a refused logout changes nothing.
- No view clamps its page index when its rows shrink, so a page beyond `totalPages` shows an
  empty table.
- `login` reports the server's message, falling back to "Login failed". `signup` never
  reports the server's text: it throws a fixed policy text when the server sent a non-empty
  message, "null" when the message is `null`, and an empty message otherwise.
- Only the sales table, the employee table and the manager team table render both flags.
  `Team_management.jsx` renders only `loading`, and `SalesManagement.jsx` renders neither
  flag; their `error` is set but never shown.

## Model

| member | source | states |
|---|---|---|
| Js.StringOr | src/EmployeeModel.jsx:117-119 | `field \|\| fallback` on text: a present non-empty field is shown as itself; a missing field or `""` shows the fallback |
| Js.NumberOr | src/ManagerDashPages/TeamManagement.jsx:36 | `value \|\| 0`: a present non-zero number is kept; a missing number or 0 gives the fallback |
| Js.IsSpace | src/SignUp.jsx:29 | the characters `\s` matches, as the class used by `[^\s@]`; SignUp.EmailPatternIffShape states what the pattern built from it accepts |
| Js.StringOrNeverEmpty | src/ManagerDashPages/TeamManagement.jsx:32-35 | a cell defaulted to "N/A" is never empty, and it reads "N/A" exactly when the field is missing, empty or itself "N/A" |
| Js.LowerChar | src/Team_management.jsx:71 | lower-casing one character leaves no ASCII capital; a capital moves to its lower-case letter and every other character is unchanged |
| Js.Lower | src/Team_management.jsx:71 | `toLowerCase` keeps the length and lower-cases every position |
| Js.LowerIdempotent | src/Team_management.jsx:71 | lower-casing twice is lower-casing once |
| Js.Includes | src/Team_management.jsx:71 | `includes`, searching from the left; Js.IncludesIffOccurs ties it both ways to an occurrence at some index |
| Js.IncludesIffOccurs | src/Team_management.jsx:71 | `s.includes(sub)` holds iff `sub` occurs at some index of `s` |
| Js.IncludesEmpty | src/SalesManagement.jsx:92 | every string includes the empty query |
| Js.Join | src/EmployeeModel.jsx:121 | `join` of no labels is "", and of one label is that label |
| Js.JoinStartsWithFirst | src/EmployeeModel.jsx:121 | the joined text starts with the first label |
| Js.JoinSnoc | src/EmployeeModel.jsx:121 | joining one more label appends the separator and that label |
| Js.JoinLength | src/EmployeeModel.jsx:121 | the joined text is as long as the labels together plus one separator between each two of them |
| Remote.IncentivesOf | src/EmployeeModel.jsx:44-58 | `fetchIncentives` never yields a falsy slab: a rejection (a 404 included) or a falsy body gives `[]`, any other body is passed through |
| Remote.NameOf | src/EmployeeModel.jsx:117 | `employee.user?.name`: missing when the employee has no `user` |
| Remote.EmailOf | src/EmployeeModel.jsx:118 | `employee.user?.email`: missing when the employee has no `user` |
| Remote.TotalSalesOf | src/ManagerDashPages/TeamManagement.jsx:52-60 | `fetchTotalSales` is a non-zero number only when the server answered that number in `totalSales`; a rejection, a missing body or a missing field gives 0 |
| Seqs.Keep | src/Team_management.jsx:70-73 | `filter` never lengthens the list |
| Seqs.KeepMembership | src/Team_management.jsx:70-73 | an element is kept iff it is in the list and passes the predicate |
| Seqs.KeepCount | src/Team_management.jsx:70-73 | a passing element is kept with all its occurrences; any other element is dropped |
| Seqs.KeepAppend | src/Team_management.jsx:70-73 | filtering keeps order: filtering `a + b` is filtering `a`, then `b` |
| Seqs.KeepCongruent | src/SalesManagement.jsx:91-93 | two predicates that agree on every element filter alike |
| Seqs.KeepAll | src/SalesManagement.jsx:88-89 | a predicate every element passes keeps the whole list |
| Paging.RelativeIndex | src/ManagerDashPages/SalesTable.jsx:43 | `slice` reads a negative index from the end and clamps every index to `[0, length]` |
| Paging.JsSlice | src/ManagerDashPages/SalesTable.jsx:43 | a slice is never longer than the list |
| Paging.PageOf | src/ManagerDashPages/SalesTable.jsx:43 | `slice((p - 1) * size, p * size)`; its size bound, its window, the empty page 0 and the coverage of all rows are Paging.PageAtMostSize, Paging.PageWindow, Paging.PageZeroIsEmpty and Paging.PagesCoverRows |
| Paging.TotalPages | src/ManagerDashPages/SalesTable.jsx:42 | `Math.ceil(n / size)` is the least page count whose pages hold `n` rows; it is 0 exactly for no rows |
| Paging.CeilDivision | src/ManagerDashPages/SalesTable.jsx:42 | the quotient bounds behind `Math.ceil(n / size)` |
| Paging.PageAtMostSize | src/ManagerDashPages/SalesTable.jsx:43 | every page, for any page index, has at most `size` rows |
| Paging.PageWindow | src/ManagerDashPages/SalesTable.jsx:43 | page p ≥ 1 is the window `[(p-1)·size, p·size)` of the rows, cut at the end, so its k-th row is row `(p-1)·size + k` |
| Paging.PageZeroIsEmpty | src/ManagerDashPages/SalesTable.jsx:43 | page 0 is empty |
| Paging.PageNonEmptyIff | src/ManagerDashPages/SalesTable.jsx:42-43 | for p ≥ 0, a page has rows iff 1 ≤ p ≤ totalPages |
| Paging.FirstPagesArePrefix | src/ManagerDashPages/SalesTable.jsx:43 | pages 1..k laid end to end are the first `k·size` rows |
| Paging.PagesCoverRows | src/ManagerDashPages/SalesTable.jsx:42-43 | pages 1..totalPages show every row once, in order |
| Paging.ClampedPrev | src/ManagerDashPages/SalesTable.jsx:83 | `Math.max(p - 1, 1)` steps back and never goes below page 1 |
| Paging.ClampedNext | src/ManagerDashPages/SalesTable.jsx:101 | `Math.min(p + 1, totalPages)` steps forward and never passes the last page |
| Paging.ClampedClick | src/ManagerDashPages/SalesTable.jsx:81-105 | one click with the clamped handlers and the disabled buttons; Paging.ClampedClicksStayInRange proves that no run of clicks leaves `[1, totalPages]` |
| Paging.UnclampedClick | src/SalesContest.jsx:141-152 | one click with the `page ± 1` handlers and the disabled buttons; Paging.UnclampedClicksStayInRange and SalesContest.UnclampedAgreesInRange relate it to the clamped click |
| Paging.ClampedClicksStayInRange | src/ManagerDashPages/SalesTable.jsx:81-105 | any sequence of clicks keeps the page in `[1, totalPages]`, or in {0, 1} when there are no rows |
| Paging.EmptyTableNextGoesToZero | src/ManagerDashPages/SalesTable.jsx:101-102 | on an empty table, Next moves page 1 to page 0, and Prev moves it back |
| Paging.UnclampedClicksStayInRange | src/SalesContest.jsx:141-152 | the unclamped `page ± 1` handlers stay in `[1, totalPages]`, because the disabled buttons block the two steps that would leave it |
| Paging.Precedence | src/ManagerDashPages/SalesTable.jsx:49-53 | the spinner shows iff loading; the error text shows iff not loading and the error is non-empty; otherwise the table |
| SalesTable.ProductCountsAreOccurrences | src/ManagerDashPages/SalesTable.jsx:21-24 | the reduce's keys are exactly the product names that occur, each mapped to its number of records; a missing name counts under "undefined" |
| SalesTable.OccurrencesOfPresentKey | src/ManagerDashPages/SalesTable.jsx:21-24 | every record's name occurs at least once |
| SalesTable.Bump | src/ManagerDashPages/SalesTable.jsx:22 | one reduce step on a dictionary without inherited entries; SalesTable.SumCountsBump proves that it adds exactly one to the counts |
| SalesTable.ProductCounts | src/ManagerDashPages/SalesTable.jsx:21-24 | the reduce from the first record to the last; SalesTable.ProductCountsAreOccurrences proves its keys and values are the occurrence counts |
| SalesTable.QuantityFor | src/ManagerDashPages/SalesTable.jsx:29 | `productCounts[name] \|\| 1`; SalesTable.FallbackUnreachable proves the fallback is never taken |
| SalesTable.CountProducts | src/ManagerDashPages/SalesTable.jsx:21-24 | the accumulator loop computes the name counts, each equal to its number of records and at least 1 |
| SalesTable.WithQuantities | src/ManagerDashPages/SalesTable.jsx:27-30 | the map keeps every record, in order, and only adds `quantity` |
| SalesTable.FallbackUnreachable | src/ManagerDashPages/SalesTable.jsx:29 | the `\|\| 1` fallback is never taken: every record's name has a count of at least 1 |
| SalesTable.AllQuantitiesAreOccurrences | src/ManagerDashPages/SalesTable.jsx:21-30 | each row's quantity is the number of records with its name |
| SalesTable.DeriveQuantities | src/ManagerDashPages/SalesTable.jsx:21-30 | same length and order as the records, each record unchanged, and a quantity of at least 1 equal to its name's number of records |
| SalesTable.SameNameSameQuantity | src/ManagerDashPages/SalesTable.jsx:21-30 | records with the same name get the same quantity |
| SalesTable.SumCountsRemove | src/ManagerDashPages/SalesTable.jsx:21-24 | the counts add up the same whichever name is taken first |
| SalesTable.SumCountsBump | src/ManagerDashPages/SalesTable.jsx:22 | one reduce step adds exactly one to the sum of the counts |
| SalesTable.QuantitiesSumToTotal | src/ManagerDashPages/SalesTable.jsx:21-24 | the counts of the distinct names sum to the number of records |
| SalesTable.TwoAsAndOneB | src/ManagerDashPages/SalesTable.jsx:21-30 | records named A, A, B get the quantities 2, 2, 1 |
| SalesTable.ObjectBump | src/ManagerDashPages/SalesTable.jsx:22 | the reduce step as written, on an object literal whose inherited members are truthy |
| SalesTable.ObjectCounts | src/ManagerDashPages/SalesTable.jsx:21-24 | the reduce as written; SalesTable.ObjectCountsAgree proves it counts like SalesTable.ProductCounts for every name that is not inherited |
| SalesTable.ObjectQuantity | src/ManagerDashPages/SalesTable.jsx:29 | `productCounts[name] \|\| 1` on the object literal; SalesTable.InheritedNameGarblesQuantity exhibits a garbled quantity |
| SalesTable.ObjectCountsAgree | src/ManagerDashPages/SalesTable.jsx:21-24 | for any name that is not an inherited `Object.prototype` member, the object-literal reduce counts like the corrected one |
| SalesTable.InheritedNameGarblesQuantity | src/ManagerDashPages/SalesTable.jsx:21-29 | a single record named "toString" gets a garbled quantity from the reduce as written; the corrected derivation gives 1 |
| SalesTable.SalesTableView.constructor | src/ManagerDashPages/SalesTable.jsx:5-8 | no rows, loading, no error, page 1 |
| SalesTable.SalesTableView.FetchSalesData | src/ManagerDashPages/SalesTable.jsx:15-39 | an array body replaces the rows with the derived quantities and keeps the error; any other outcome sets "Failed to fetch sales data." and keeps the rows; loading ends either way |
| SalesTable.SalesTableView.PaginatedData | src/ManagerDashPages/SalesTable.jsx:43 | at most 3 rows: exactly the window `[(p-1)·3, p·3)` of the rows, cut at the end, so its k-th row is row `(p-1)·3 + k` |
| SalesTable.SalesTableView.PageCount | src/ManagerDashPages/SalesTable.jsx:42 | `Math.ceil(length / perPage)` for this view's list; Paging.TotalPages states its meaning |
| SalesTable.SalesTableView.View | src/ManagerDashPages/SalesTable.jsx:49-53 | the spinner, else the error, else the current page, as Paging.Precedence states |
| SalesTable.SalesTableView.Click | src/ManagerDashPages/SalesTable.jsx:81-105 | a click moves the page as the clamped handlers do; a disabled button or an unrendered number changes nothing |
| TeamManagementPage.Matches | src/Team_management.jsx:70-73 | an employee has a name containing the query, ignoring case, and is in the chosen department if one is chosen |
| TeamManagementPage.FilterEmployees | src/Team_management.jsx:70-73 | `filteredEmployees`; TeamManagementPage.FilterMembership and TeamManagementPage.FilterPreservesOrder state what it keeps and in which order |
| TeamManagementPage.FilterMembership | src/Team_management.jsx:70-73 | an employee is shown iff it is listed, has a `user.name`, the lower-cased query occurs in the lower-cased name, and, if a department is chosen, it is in that department |
| TeamManagementPage.FilterPreservesOrder | src/Team_management.jsx:70-73 | the filtered list keeps the original order |
| TeamManagementPage.EmptyQueryKeepsNamed | src/Team_management.jsx:70-73 | an empty search with "All Departments" shows exactly the employees that have a name |
| TeamManagementPage.TeamManagementView.constructor | src/Team_management.jsx:11-18 | no employees, loading, no error, empty search and department, page 1 |
| TeamManagementPage.TeamManagementView.FetchEmployees | src/Team_management.jsx:30-51 | a falsy body gives `[]`; an array replaces the list, in order; a rejection or a non-array body sets "Failed to load employees." and keeps the list; loading ends either way |
| TeamManagementPage.TeamManagementView.OnUserChange | src/Team_management.jsx:21-27 | without a user: redirect to /signin, no request, nothing changes; with one: the fetch, which ends loading, gives `[]` for a falsy body, the list for an array, and the failure text with the list kept otherwise, the error untouched on success |
| TeamManagementPage.TeamManagementView.SetSearchQuery | src/Team_management.jsx:97 | the query is replaced |
| TeamManagementPage.TeamManagementView.SetFilterDepartment | src/Team_management.jsx:102 | the department is replaced |
| TeamManagementPage.TeamManagementView.PageCount | src/Team_management.jsx:76 | `Math.ceil(length / perPage)` for the filtered list; Paging.TotalPages states its meaning |
| TeamManagementPage.TeamManagementView.PaginatedEmployees | src/Team_management.jsx:76-80 | at most 10 employees: exactly the window `[(p-1)·10, p·10)` of the filtered list, cut at the end, so its k-th row is filtered row `(p-1)·10 + k` |
| TeamManagementPage.TeamManagementView.View | src/Team_management.jsx:140-142 | the error text is never shown: only the spinner or the table |
| TeamManagementPage.TeamManagementView.Click | src/Team_management.jsx:180-204 | clamped Prev/Next and the number buttons |
| EmployeeTable.JoinIncentives | src/EmployeeModel.jsx:27-32 | one row per employee, in order, each with its own `_id`'s slab, never falsy |
| EmployeeTable.FailedLookupKeepsRow | src/EmployeeModel.jsx:48-56 | a failed slab lookup keeps the employee in place, with an empty slab |
| EmployeeTable.Load | src/EmployeeModel.jsx:20-41 | the fetch fails iff the request rejects or the body is a non-array truthy value; a falsy body loads no rows |
| EmployeeTable.AfterLoad | src/EmployeeModel.jsx:34-39 | success replaces the rows and does not clear the error; failure sets "Failed to fetch employee data." and keeps the rows; loading ends |
| EmployeeTable.AfterRefresh | src/EmployeeModel.jsx:61-64 | `setLoading(true)` and then a fetch; EmployeeTable.ErrorStaysFailed and EmployeeTable.ErrorHidesTableForever are stated over runs of it |
| EmployeeTable.IncentiveText | src/EmployeeModel.jsx:121 | a non-empty slab shows its labels joined by ", "; an empty or non-array slab shows "No Incentives" |
| EmployeeTable.IncentiveTextShowsFirstLabel | src/EmployeeModel.jsx:121 | a non-empty slab's cell starts with its first label |
| EmployeeTable.RenderRow | src/EmployeeModel.jsx:115-123 | the name, e-mail and designation cells are never empty, and a present non-empty name shows as itself |
| EmployeeTable.PageCells | src/EmployeeModel.jsx:67-68 | at most 5 rendered rows |
| EmployeeTable.Display | src/EmployeeModel.jsx:99-125 | the spinner, else the error, else the page's rendered rows, as Paging.Precedence states; EmployeeTable.ErrorHidesTableForever is stated over it |
| EmployeeTable.RefreshesKeepRowsWellFormed | src/EmployeeModel.jsx:61-64 | refreshes never store a falsy slab |
| EmployeeTable.ErrorHidesTableForever | src/EmployeeModel.jsx:34-39 | once an error is set, no number of later refreshes, however successful, shows the table again |
| EmployeeTable.OneFailureHidesTable | src/EmployeeModel.jsx:36-39 | one failed fetch among any run of refreshes leaves the failure text for good |
| EmployeeTable.ErrorStaysFailed | src/EmployeeModel.jsx:34-39 | after the failure text is set, it stays through any refreshes |
| EmployeeTable.EmployeeTableView.constructor | src/EmployeeModel.jsx:8-12 | no rows, loading, no error, page 1 |
| EmployeeTable.EmployeeTableView.FetchEmployees | src/EmployeeModel.jsx:20-41 | the new state is `AfterLoad` of the old state and the joined load |
| EmployeeTable.EmployeeTableView.RefreshData | src/EmployeeModel.jsx:61-64 | sets loading, then fetches; the error is not reset |
| EmployeeTable.EmployeeTableView.PageCount | src/EmployeeModel.jsx:67 | `Math.ceil(length / perPage)` for this view's list; Paging.TotalPages states its meaning |
| EmployeeTable.EmployeeTableView.View | src/EmployeeModel.jsx:99-125 | what EmployeeTable.Display gives for the current state |
| EmployeeTable.EmployeeTableView.Click | src/EmployeeModel.jsx:129-154 | clamped Prev/Next and the number buttons |
| ManagerTeam.RowOf | src/ManagerDashPages/TeamManagement.jsx:30-37 | one member flattened with its total; ManagerTeam.RowCells states its cells |
| ManagerTeam.RowCells | src/ManagerDashPages/TeamManagement.jsx:30-37 | every text cell is filled: a present non-empty id, name, e-mail or designation shows as itself, a missing or empty one as "N/A"; the total is non-zero only when its lookup answered that number, and 0 when it failed |
| ManagerTeam.BuildTeam | src/ManagerDashPages/TeamManagement.jsx:28-39 | one row per member, in order, with the total of its own `_id` |
| ManagerTeam.SameIdSameTotal | src/ManagerDashPages/TeamManagement.jsx:30 | members with the same `_id` get the same total |
| ManagerTeam.Load | src/ManagerDashPages/TeamManagement.jsx:23-25 | only an array body loads; a falsy or non-array body is rejected |
| ManagerTeam.AfterFetch | src/ManagerDashPages/TeamManagement.jsx:41-48 | success replaces the team and clears the error; failure sets "Failed to fetch team data. Please try again later." and keeps the team; loading ends |
| ManagerTeam.Display | src/ManagerDashPages/TeamManagement.jsx:75-100 | the spinner, else the error, else the page's rows; ManagerTeam.LastFetchDecides is stated over it |
| ManagerTeam.LastFetchDecides | src/ManagerDashPages/TeamManagement.jsx:41-48 | after any run of fetches, the last one alone decides the screen: its rows if it succeeded, whatever failed before, or the failure text |
| ManagerTeam.TeamView.constructor | src/ManagerDashPages/TeamManagement.jsx:5-8 | no rows, loading, no error, page 1 |
| ManagerTeam.TeamView.FetchTeamData | src/ManagerDashPages/TeamManagement.jsx:16-49 | the new state is `AfterFetch` of the old state and the load |
| ManagerTeam.TeamView.HandleRefresh | src/ManagerDashPages/TeamManagement.jsx:63-65 | the same fetch again |
| ManagerTeam.TeamView.PageCount | src/ManagerDashPages/TeamManagement.jsx:68 | `Math.ceil(length / perPage)` for this view's list; Paging.TotalPages states its meaning |
| ManagerTeam.TeamView.View | src/ManagerDashPages/TeamManagement.jsx:75-100 | what ManagerTeam.Display gives for the current state |
| ManagerTeam.TeamView.Click | src/ManagerDashPages/TeamManagement.jsx:107-131 | clamped Prev/Next and the number buttons |
| SalesManagement.BuildCustomers | src/SalesManagement.jsx:47-57 | one row per employee, in order: row i holds employee i's name, e-mail and designation with their "N/A" fallbacks and the one shared total |
| SalesManagement.CustomerRows | src/SalesManagement.jsx:49-55 | every customer shows the single total the id-less endpoint answered (0 on failure); its text cells are filled, a present name shown as itself |
| SalesManagement.AllTotalsEqual | src/SalesManagement.jsx:67-73 | all customers show the same total |
| SalesManagement.MonthMatches | src/SalesManagement.jsx:92 | the lower-cased month name includes the lower-cased selection |
| SalesManagement.FilterMonths | src/SalesManagement.jsx:87-96 | `handleFilter`'s new list; SalesManagement.FilterMonthsMembership and SalesManagement.EmptySelectionIsFilter state what it keeps |
| SalesManagement.EmptySelectionIsFilter | src/SalesManagement.jsx:87-96 | an empty selection restores all 12 months, just as filtering on "" would |
| SalesManagement.FilterMonthsMembership | src/SalesManagement.jsx:87-96 | a month is kept iff the lower-cased selection occurs in its lower-cased name; no month is added |
| SalesManagement.AsItems | src/SalesManagement.jsx:94 | the kept months become the sales list, in order |
| SalesManagement.AsSalesData | src/SalesManagement.jsx:79 | the sales body is stored as it came, with falsy and non-array bodies kept as such |
| SalesManagement.CustomersError | src/SalesManagement.jsx:58-61 | no error exactly after a loaded array |
| SalesManagement.SalesManagementView.constructor | src/SalesManagement.jsx:25-31 | empty lists, loading, no error, no month, page 1 |
| SalesManagement.SalesManagementView.FetchCustomerData | src/SalesManagement.jsx:43-65 | an array body loads the rows and clears the error; otherwise "Failed to fetch customer data." is set and the rows are kept; loading ends either way |
| SalesManagement.SalesManagementView.FetchSalesData | src/SalesManagement.jsx:76-83 | a resolved body is stored; a rejection sets "Failed to fetch sales data." |
| SalesManagement.SalesManagementView.OnUserChange | src/SalesManagement.jsx:37-41 | without a user, nothing is requested or changed; with one, both fetches run: loaded customers and a resolved sales body are stored, a failed fetch keeps its list, and whichever settles last writes the error |
| SalesManagement.SalesManagementView.HandleFilter | src/SalesManagement.jsx:87-96 | the sales list becomes the months the selection matches |
| SalesManagement.SalesManagementView.DisplayedCustomers | src/SalesManagement.jsx:34-35 | at most 5 customers, the window of the page; on page 1, the first five |
| SalesManagement.SalesManagementView.PageCount | src/SalesManagement.jsx:34 | `Math.ceil(length / perPage)` for this view's list; Paging.TotalPages states its meaning |
| SalesContest.OnePageShowsAll | src/SalesContest.jsx:13-19 | the five contests fit on one page, which shows all of them in order |
| SalesContest.UnclampedAgreesInRange | src/SalesContest.jsx:141-152 | on an in-range page, the unclamped handlers act exactly like clamped ones |
| SalesContest.ClicksStayOnPageOne | src/SalesContest.jsx:40-42 | no sequence of clicks leaves page 1 |
| SalesContest.ContestView.constructor | src/SalesContest.jsx:39 | page 1 |
| SalesContest.ContestView.PageCount | src/SalesContest.jsx:41 | `Math.ceil(length / perPage)` for this view's list; Paging.TotalPages states its meaning; SalesContest.OnePageShowsAll proves it is 1 |
| SalesContest.ContestView.DisplayedRows | src/SalesContest.jsx:40-42 | at most 5 rows, the window of the page; on page 1, all five contests |
| SalesContest.ContestView.Rendered | src/SalesContest.jsx:51 | nothing is rendered iff there is no user |
| SalesContest.ContestView.Click | src/SalesContest.jsx:141-152 | `page - 1`/`page + 1` with the disabled buttons, which on in-range pages equals the clamped step |
| SalesContest.GuardRedirect | src/SalesContest.jsx:45-49 | a redirect to /signin happens iff there is no user |
| AuthContext.Restored | src/AuthContext/AuthContext.jsx:11-21 | the user, token and header are restored only when both keys are present and the token is non-empty; otherwise only loading changes; loading ends either way |
| AuthContext.SignedInWith | src/AuthContext/AuthContext.jsx:72-79 | memory, both storage keys and `Authorization: Bearer <token>` all hold the reply's user and token |
| AuthContext.LoginErrorMessage | src/AuthContext/AuthContext.jsx:82 | a failed login throws the server's non-empty message, or "Login failed" when the message is missing, `null` or empty |
| AuthContext.SignupErrorMessage | src/AuthContext/AuthContext.jsx:53 | a failed signup throws the fixed policy text iff the server sent a non-empty message; a `null` message gives "null"; a missing or empty one gives "" |
| AuthContext.AfterAuth | src/AuthContext/AuthContext.jsx:43-53 | success signs in with the reply; failure changes nothing; signup and login share this |
| AuthContext.AfterLogout | src/AuthContext/AuthContext.jsx:87-102 | only an accepted logout clears memory, storage and header; a refused one changes nothing |
| AuthContext.LogoutAuthorization | src/AuthContext/AuthContext.jsx:90 | logout sends `Bearer <token>`, which reads "Bearer null" when signed out |
| AuthContext.ReloadAfterLogin | src/AuthContext/AuthContext.jsx:11-21 | after a login with a non-empty token, a page reload signs the same user in again |
| AuthContext.ReloadAfterLogout | src/AuthContext/AuthContext.jsx:93-98 | after an accepted logout, a reload restores nobody |
| AuthContext.FailedLogoutSurvivesReload | src/AuthContext/AuthContext.jsx:99-101 | after a refused logout, a reload signs the same user in again |
| AuthContext.Reload | src/AuthContext/AuthContext.jsx:5-8 | a reload starts a fresh provider over the surviving storage; the three reload lemmas above are stated over it |
| AuthContext.Step | src/AuthContext/AuthContext.jsx:11-102 | one of the provider's four events |
| AuthContext.Run | src/AuthContext/AuthContext.jsx:11-102 | a run of events; AuthContext.RunStaysCoherent proves it keeps the state coherent |
| AuthContext.RunStaysCoherent | src/AuthContext/AuthContext.jsx:11-102 | across any sequence of restore, login, signup and logout: a user is in memory iff a token is, and then both match storage and the header |
| AuthContext.FreshIsCoherent | src/AuthContext/AuthContext.jsx:5-8 | a fresh provider is coherent |
| AuthContext.Session.constructor | src/AuthContext/AuthContext.jsx:5-8 | no user, no token, loading, storage as found, no header |
| AuthContext.Session.Restore | src/AuthContext/AuthContext.jsx:11-21 | the new state is `Restored` of the old |
| AuthContext.Session.SetSignedIn | src/AuthContext/AuthContext.jsx:72-79 | the new state is `SignedInWith` of the old |
| AuthContext.Session.Login | src/AuthContext/AuthContext.jsx:58-84 | the new state is `AfterAuth`; it throws iff the login failed, with `LoginErrorMessage` |
| AuthContext.Session.Signup | src/AuthContext/AuthContext.jsx:24-55 | the new state is `AfterAuth`; it throws iff the signup failed, with `SignupErrorMessage` |
| AuthContext.Session.Logout | src/AuthContext/AuthContext.jsx:87-102 | sends `Bearer <token>`; the new state is `AfterLogout` |
| SignUp.EmailPattern | src/SignUp.jsx:29 | `^[^\s@]+@[^\s@]+\.[^\s@]+$` as a split `a@b.c`; SignUp.EmailPatternIffShape characterises it |
| SignUp.PlainSlice | src/SignUp.jsx:29 | a run avoiding the only '@' in a space-free address matches `[^\s@]+` |
| SignUp.SplitGivesShape | src/SignUp.jsx:29 | a match of the pattern has the shape |
| SignUp.ShapeGivesSplit | src/SignUp.jsx:29 | an address of that shape matches the pattern |
| SignUp.EmailPatternIffShape | src/SignUp.jsx:29 | `^[^\s@]+@[^\s@]+\.[^\s@]+$` accepts an address iff it has no whitespace and exactly one '@', not first, and a '.' after the '@' that neither follows it at once nor ends the address |
| SignUp.EmailExamples | src/SignUp.jsx:29 | "a@b.c" is accepted; "a@b", "@b.c", "a@.c" and "a b@c.d" are rejected |
| SignUp.Validate | src/SignUp.jsx:23-32 | a password mismatch is reported first; then an address without the shape; otherwise the form goes on |
| SignUp.SignUpForm.constructor | src/SignUp.jsx:7-14 | empty inputs, role "manager", no error |
| SignUp.SignUpForm.Fill | src/SignUp.jsx:62-118 | the name, e-mail, password and confirmation inputs hold what was typed |
| SignUp.SignUpForm.SetRole | src/SignUp.jsx:83-92 | the role select sets the role to the option picked: "manager", "employee" or "admin" |
| SignUp.SignUpForm.HandleSignUp | src/SignUp.jsx:18-41 | the error is reset; a failed check sets its error, calls nothing and leaves the session alone; otherwise `signup(name, email, password, role)` is called, and success redirects to /signin while any failure shows "Signup failed. Please try again." |

## Left out

- Rendering, styles, charts, icons, the leaderboard and date formatting are not modelled (`toLocaleDateString`, the sales table's `quantity` column). The only part of a render modelled is which of spinner, error text or table a view shows, and which rows it shows.
- The edit/add/delete modal, its search flow and the views' `modalType` state are not modelled. They are not part of the modelled core.
- `alert`, `console` logging and `navigate` are I/O. A redirect is modelled as the route an operation returns.
- `JSON.stringify`/`JSON.parse` of the stored user is not modelled: storage holds the identity itself. So a reply without a `user`, which would store the text "undefined" and make the next restore throw, is not modelled.
- Concurrency: each awaited call is a completed input. Only one interleaving question is modelled, which of the two requests on the sales page settles first. React's batching of state updates and an unmount during a request are not modelled.
- Js.LowerChar / Js.Lower: `toLowerCase` is modelled on ASCII letters only. Case folding of other Unicode letters is left out.
- Non-string incentive labels are left out: `join` of objects would print "[object Object]", and a string body would make `join` throw. Labels are modelled as strings and a non-array body as `NonArray`.
- Numbers are integers. `NaN`, fractional amounts and a `totalSales` that is a non-numeric truthy value are not modelled.
- A sale whose `productName` is `null`, rather than missing, is keyed "null" by JavaScript. It is not modelled: a missing name is keyed "undefined".
- SalesTable.SalesTableView.FetchSalesData: the view stores the corrected quantities of `SalesTable.DeriveQuantities` (see Findings). So a product named after an inherited `Object.prototype` member shows its number of records, where the reduce as written (`SalesTable.ObjectCounts`) puts garbled text.
- EmployeeTable.EmployeeTableView.RefreshData: `refreshData` is only passed as a prop to the modal element, which renders this same prop-less component, so nothing calls it. `ManagerTeam.TeamView.HandleRefresh` (`handleRefresh`) is never referenced either. So the runs of several fetches in EmployeeTable.ErrorHidesTableForever, EmployeeTable.OneFailureHidesTable, EmployeeTable.ErrorStaysFailed and ManagerTeam.LastFetchDecides describe the handlers as written, beyond what the app triggers after the first fetch.
- SalesManagement.SalesManagementView.HandleFilter: `handleFilter` is never called in src/SalesManagement.jsx, and `setSelectedMonth` is never used, so `selectedMonth` stays "". The method models the handler as written, although no event reaches it.
- SalesTable.ObjectBump: the inherited `__proto__` accessor is not modelled among the inherited members.
- ManagerTeam.SameIdSameTotal: `fetchTotalSales(member._id)` is one request per member, and the model gives all requests for the same `_id` one answer (`salesFor` is a function of the id). Two requests for the same `_id` that are answered differently, or one rejected and one answered, are not modelled; the lemma rests on that abstraction, not on the code.
- EmployeeTable.JoinIncentives: likewise, all `fetchIncentives` requests for the same `_id` get one answer.
- Page clicks: the `Click` methods accept a click in every state, although the views render their page buttons only with the table (not loading and no error; not loading on the team-management page). This over-approximates what the UI can produce; every stated property holds for these extra clicks too.
- SalesManagement.BuildCustomers: the n requests to the id-less `/api/totalSales/` endpoint are modelled as one shared answer. Separate requests answered differently are not modelled.
- `fetchIncentives` in src/Team_management.jsx:54-62 is never called. Its behaviour is the same as `Remote.IncentivesOf`.
- The page index is never clamped when rows shrink, because the code does not clamp it. So a page beyond `totalPages` can show an empty table.

## Findings

| source | as written | input that shows it | evidently intended | confidence | as-written member | corrected member |
|---|---|---|---|---|---|---|
| src/ManagerDashPages/SalesTable.jsx:21-24 | the name counts are accumulated on an object literal `{}`, whose lookups also see the members inherited from `Object.prototype` | one sale whose `productName` is "toString" (or "constructor", "valueOf", …): `acc["toString"]` is a function, so `(acc[k] \|\| 0) + 1` yields a string, and the row's quantity is that text instead of 1 | each record's quantity is the number of records with its name | not executed; medium: needs such a product name | SalesTable.InheritedNameGarblesQuantity | SalesTable.DeriveQuantities |
