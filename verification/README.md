# Expense list view state, in Dafny

This project models the view-state core of the expense portal's list screen.

The `useExpenseData` hook holds the list rows (`expenses`), a `loading` flag, a filter record {status, from, to, search} and a sort record {sortBy, order}. From these and the active tab it builds the query parameters of the list request. It also chooses how often the view polls, and it applies the response when a fetch settles.

The `ExpenseFilters` bar edits the four filter values. It offers a Clear button while any of them is set and can hide its status select.

- `wrappers.dfy`: `Option`, standing for JavaScript's `undefined`.
- `expense_data.dfy` (module `ExpenseData`):
  - the pure updaters (`WithFilter`, `ToggleSort`), the parameter builder (`BuildParams`) and the poll policy (`PollInterval`), each a function whose contract states the rule;
  - lemmas about sequences of clicks and `setFilter` calls;
  - the hook's state as the class `ExpenseView`, whose methods update it field by field.
- `expense_filters.dfy` (module `ExpenseFilterBar`): the Clear predicate, the status options, and the bar as the class `FilterBar`. Its handlers write one bound value each. `ClearFilters` calls the four setters in turn.

Tabs and roles are strings, because the code compares them with string literals. An unknown tab takes the "team" branch. The sort order is a string as well. `handleSort` turns every order other than `"asc"` into `"asc"`, so "two clicks restore the order" needs the order to be `"asc"` or `"desc"`. `ExpenseView.Valid()` keeps that invariant, and `ClicksKeepValidOrder` shows, as a corollary of `ToggleSort`'s contract, that it holds in every state reachable by clicks.

Three behaviours of the code worth noting:
- Empty filters are sent as `""`; they are not omitted.
- The parameter builder never reads the role.
- There is no request-generation guard: whatever response arrives is applied, and a late, older response overwrites a newer one (`OverlappingFetches`).

## Model

| member | source | states |
|---|---|---|
| `ExpenseData.WithFilter` | src/hooks/useExpenseData.js:23-25 | the named key takes the new value; the other three keys keep theirs |
| `ExpenseData.LastEditWins` | src/hooks/useExpenseData.js:22-25 | after any series of `setFilter` calls, each key holds the value of the last call naming it; a key never named keeps its value |
| `ExpenseData.ToggleSort` | src/hooks/useExpenseData.js:27-34 | the clicked field becomes the sort field and the order is always asc or desc; a new field starts at desc; on the same field the result is asc exactly when the old order was not asc |
| `ExpenseData.SameFieldTwiceRestores` | src/hooks/useExpenseData.js:27-34 | two clicks on the sorted field restore the sort state when its order is asc or desc |
| `ExpenseData.SameFieldTwiceNeedsValidOrder` | src/hooks/useExpenseData.js:30 | for every order outside asc/desc two clicks do not restore the state; with `SameFieldTwiceRestores`, two clicks restore it iff the order is asc or desc |
| `ExpenseData.ClicksKeepValidOrder` | src/hooks/useExpenseData.js:17-34 | from any state, at least one click leaves a valid order and the last clicked field; no click changes nothing; so every state reached from {date, desc} has order asc or desc (a corollary of `ToggleSort`) |
| `ExpenseData.RepeatedClicksAlternate` | src/hooks/useExpenseData.js:27-34 | n clicks on the sorted field leave the state unchanged for even n and flip the order for odd n |
| `ExpenseData.BuildParams` | src/hooks/useExpenseData.js:39-60 | from, to, search, sortBy and order pass through on every tab; view is personal exactly on the personal tab; status passes through on personal and unknown tabs, is PENDING on approvals whatever the filter, and on history is the filter or APPROVED when the filter is empty |
| `ExpenseData.HistoryAfterResetShowsApproved` | src/hooks/useExpenseData.js:54-58 | with reset filters the history tab requests APPROVED items |
| `ExpenseData.PollInterval` | src/hooks/useExpenseData.js:83-89 | 10000 ms iff a MANAGER is on approvals; 15000 ms iff the tab is personal; no polling otherwise, including history and an employee on approvals |
| `ExpenseData.ExpenseView.constructor` | src/hooks/useExpenseData.js:5-20 | no rows, loading, all filters empty, sort {date, desc} |
| `ExpenseData.ExpenseView.SetFilter` | src/hooks/useExpenseData.js:23-25 | filters become the updater applied to the old filters; nothing else changes |
| `ExpenseData.ExpenseView.HandleSort` | src/hooks/useExpenseData.js:27-34 | sort state becomes the toggle of the old state; the asc/desc invariant is kept, and clicking the same field again would restore the old state |
| `ExpenseData.ExpenseView.ResetFilters` | src/hooks/useExpenseData.js:102 | filters equal the initial all-empty record |
| `ExpenseData.ExpenseView.BeginFetch` | src/hooks/useExpenseData.js:36-62 | a foreground fetch sets loading, a background one leaves it; the parameters sent are those of the parameter builder |
| `ExpenseData.ExpenseView.CompleteFetch` | src/hooks/useExpenseData.js:62-68 | success replaces the rows, failure keeps them; only a foreground fetch clears loading |
| `ExpenseData.ExpenseView.FetchExpenses` | src/hooks/useExpenseData.js:36-69 | a whole fetch: builder parameters, rows replaced only on success, foreground ends with loading false, background leaves loading |
| `ExpenseData.ExpenseView.Refresh` | src/hooks/useExpenseData.js:100 | refresh is a background fetch and never changes loading |
| `ExpenseData.OverlappingFetches` | src/hooks/useExpenseData.js:36-68 | two overlapping foreground fetches, the first built from the initial filters and the second after a search change, answered in reverse order: the first request's rows end up displayed, and loading is already false while that older request is still outstanding |
| `ExpenseFilterBar.AnyFilterActive` | src/components/ExpenseFilters.jsx:99 | Clear is offered iff some filter is non-empty, i.e. iff the filters differ from the all-empty record |
| `ExpenseFilterBar.SearchInputValue` | src/components/ExpenseFilters.jsx:86 | a missing search value is shown as empty; a present one is shown as is |
| `ExpenseFilterBar.FilterBar.constructor` | src/components/ExpenseFilters.jsx:3-31 | the status control is shown iff hideStatus is not passed as true (it defaults to false); the bar starts empty with Clear hidden |
| `ExpenseFilterBar.FilterBar.OnStatusChange` | src/components/ExpenseFilters.jsx:33-55 | the select delivers one of "", PENDING, APPROVED, REJECTED to the status setter only |
| `ExpenseFilterBar.FilterBar.OnFromChange` | src/components/ExpenseFilters.jsx:62-67 | the from input writes only from |
| `ExpenseFilterBar.FilterBar.OnToChange` | src/components/ExpenseFilters.jsx:72-77 | the to input writes only to |
| `ExpenseFilterBar.FilterBar.OnSearchChange` | src/components/ExpenseFilters.jsx:84-90 | the search input writes only search |
| `ExpenseFilterBar.FilterBar.ClearFilters` | src/components/ExpenseFilters.jsx:14-19 | all four values become empty and Clear is hidden; clearing a clear bar changes nothing |

## Left out

- The 300 ms debounce, the `setInterval` timers and effect cleanup (src/hooks/useExpenseData.js:72-91) are timing and scheduling. Only the chosen poll period is modelled.
- The HTTP request itself is left out. Its outcome is a parameter: a success carrying the row list, or a failure. The `console.error` on failure is left out too.
- A success whose body lacks an `expenses` array is not modelled. Such a body would store `undefined` as the rows.
- `setFilter` in JavaScript accepts any key and would add it to the filter object and to the request. The model allows only the four filter keys.
- Filter values are strings. A non-string value written through `setFilter` is not modelled.
- `ExpenseFilterBar.FilterBar.OnStatusChange` requires one of the four options. The browser's select only delivers those, while the parent's setter itself accepts any string.
- The filter bar's props are modelled as the four strings the hook supplies, so `search || ''` is the identity there. The missing-prop case is modelled separately by `SearchInputValue`.
- Rendering, styling and the other components and pages (list, form, analytics, login, layout, routing) are UI plumbing or network calls, so they are not modelled.
