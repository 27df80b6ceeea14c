# Companies back-office screen: list-view logic and company store

This project models the deterministic core of the Companies admin screen in
Dafny and proves properties of it. It has two parts.

- **The list view** (`src/BackOffice/packs/Companies/index.jsx`) decides which
  company rows appear and which are selected. Its parts are:
  - the three-way comparator and its direction;
  - `applySortFilter`: a stable sort by a chosen field, or a case-insensitive
    filter on `name` that returns the input unsorted;
  - the page window and the `emptyRows` padding;
  - row selection by name;
  - the guard that decides whether to load;
  - the six handlers that update the view state through `setState`.
- **The company store module** (`src/shared/redux/modules/company.js`) has:
  - the reducer over `{creating, deleting, errors, loaded, loading, updating}`;
  - the four thunks. Each dispatches REQUEST, then an entity-map change and
    SUCCESS, or REQUEST then FAILURE.

Files and modules:

- `strings.dfy` (`Strings`): JavaScript's `<` on strings, a strict total
  order; `toLowerCase` on ASCII letters; `indexOf(sub) !== -1`.
- `company_record.dfy` (`CompanyRecord`): the `Company` record and the value
  `a[orderBy]` read from it (`Field`).
- `permutations.dfy` (`Permutations`): permutations of positions, with
  pigeonhole.
- `companies_list.dfy` (`CompaniesList`): comparators, the stable sort,
  `applySortFilter`, pagination, selection toggle, load guard.
- `companies_view.dfy` (`CompaniesView`): the view state as a class
  `ViewState`. It has one method per handler, and `SetState` is a field merge.
- `company_store.dfy` (`CompanyStore`): the slice, the reducer `Reduce`, the
  dispatch sequences, and the thunks as methods that return the actions they
  dispatch and the promise they return.

Two points about the code's data shape:

- `errors` holds either an array (the `[]` defaults) or the single
  `Error('No data')` that the thunks reject with. The model has both forms:
  `ErrorList` and `ErrorObject`.
- `selected` is an array, not a set. It can hold a name twice, for example
  after select-all when two companies share a name.

## Model

| member | source | states |
|---|---|---|
| `CompaniesList.DescendingComparator` | src/BackOffice/packs/Companies/index.jsx:48-56 | returns only -1, 0 or 1 |
| `CompaniesList.DescendingAntisymmetric` | src/BackOffice/packs/Companies/index.jsx:48-56 | swapping the two companies negates the result |
| `CompaniesList.DescendingZero` | src/BackOffice/packs/Companies/index.jsx:48-56 | the result is 0 exactly when both companies hold the same `orderBy` value (uses totality of `<` on one key's values) |
| `CompaniesList.GetComparatorDirection` | src/BackOffice/packs/Companies/index.jsx:58-62 | `'desc'` gives `descendingComparator`; every other order, `'asc'` or anything else, gives its exact negation |
| `CompaniesList.CompareMeaning` | src/BackOffice/packs/Companies/index.jsx:58-62 | a negative result means the smaller value comes first when ascending and the larger one when descending; zero means equal values; the comparator is antisymmetric |
| `CompaniesList.StableTransitive` | src/BackOffice/packs/Companies/index.jsx:66-70 | the sort comparison (comparator, then index difference) is transitive |
| `CompaniesList.SortTagged` | src/BackOffice/packs/Companies/index.jsx:65-70 | sorting `stabilizedThis` in place keeps each position's company, keeps the tags distinct, and leaves no neighbours out of order |
| `CompaniesList.AdjacentToPairwise` | src/BackOffice/packs/Companies/index.jsx:66-70 | once neighbours are in order and indices are distinct, every earlier element comes strictly before every later one |
| `CompaniesList.ApplySortFilter` | src/BackOffice/packs/Companies/index.jsx:64-79 | empty query: a permutation of the input (every input row appears exactly once), ordered by the comparator, with equal elements in input order. Non-empty query: exactly the filtered input, whatever the comparator |
| `CompaniesList.Filter` | src/BackOffice/packs/Companies/index.jsx:71-77 | the result is no longer than the input and holds exactly the input companies whose lower-cased name contains the lower-cased query |
| `CompaniesList.FilterAppend` | src/BackOffice/packs/Companies/index.jsx:71-77 | the filter keeps input order: filtering `s + t` gives filter(`s`) + filter(`t`) |
| `CompaniesList.FilterCaseInsensitive` | src/BackOffice/packs/Companies/index.jsx:75 | the query's letter case does not change the result |
| `Strings.Contains` | src/BackOffice/packs/Companies/index.jsx:75 | `indexOf(sub) !== -1` holds exactly when `sub` occurs at some position |
| `CompaniesList.PageRows` | src/BackOffice/packs/Companies/index.jsx:224-228 | the visible rows are the consecutive rows from `page*rowsPerPage` on, at most `rowsPerPage` of them, and fewer only at the end |
| `CompaniesList.EmptyRows` | src/BackOffice/packs/Companies/index.jsx:168-171 | never negative; 0 on page 0; otherwise `max(0, (page+1)*rowsPerPage - count)` |
| `CompaniesList.PagePadded` | src/BackOffice/packs/Companies/index.jsx:168-171 | on a later page within the list and with no filter, visible rows plus padding make exactly one page |
| `CompaniesList.PaginationExample` | src/BackOffice/packs/Companies/index.jsx:224-228 | 7 companies, 5 per page, page 1: rows 5 and 6 show, with 3 rows of padding |
| `CompaniesList.IndexOf` | src/BackOffice/packs/Companies/index.jsx:136 | -1 exactly when the name is absent; otherwise the first position that holds it |
| `CompaniesList.IsItemSelected` | src/BackOffice/packs/Companies/index.jsx:231 | a row shows selected exactly when its name is in `selected` |
| `CompaniesList.ClickSelection` | src/BackOffice/packs/Companies/index.jsx:135-151 | the four branches compute the toggle: append an absent name, otherwise remove its first occurrence |
| `CompaniesList.RemoveFirstAt` | src/BackOffice/packs/Companies/index.jsx:140-148 | removing a name cuts out its first occurrence; the elements before and after keep their order |
| `CompaniesList.ToggleTwice` | src/BackOffice/packs/Companies/index.jsx:135-151 | toggling an absent name twice restores the original selection |
| `CompaniesList.ToggleCounts` | src/BackOffice/packs/Companies/index.jsx:135-151 | a toggle adds one occurrence of an absent name or drops one of a present name; no other name's count changes |
| `CompaniesList.SelectAllCoversEveryRow` | src/BackOffice/packs/Companies/index.jsx:126-133 | after select-all, every loaded company shows selected, on every page |
| `CompaniesList.SharedNameStaysSelected` | src/BackOffice/packs/Companies/index.jsx:126-151 | selection is keyed by name: for any loaded list in which two rows share a name, one click on such a row after select-all leaves it selected |
| `CompaniesList.GuardOpenInitially` | src/BackOffice/packs/Companies/index.jsx:95-98 | both guards allow loading from the store's initial state |
| `CompaniesList.GuardsAgreeOnArrays` | src/BackOffice/packs/Companies/index.jsx:95-98 | while `errors` is an array, `!errors.length` means no error is recorded |
| `CompaniesList.GuardReopensAfterFailedLoad` | src/BackOffice/packs/Companies/index.jsx:95-98 | the guard as written (`!loaded && !loading && !errors.length`) allows loading after a load exactly when that load failed |
| `CompaniesList.GuardClosesAfterLoad` | src/BackOffice/packs/Companies/index.jsx:95-98 | with the intended guard, a load closes the guard whatever its outcome |
| `CompaniesView.ViewState.constructor` | src/BackOffice/packs/Companies/index.jsx:81-88 | the default state: `filterName=''`, `order='asc'`, `orderBy='name'`, `page=0`, `rowsPerPage=5`, `selected=[]` |
| `CompaniesView.ViewState.SetState` | src/BackOffice/packs/Companies/index.jsx:91 | `setState` overwrites the fields the patch names and keeps the others |
| `CompaniesView.ViewState.RequestSort` | src/BackOffice/packs/Companies/index.jsx:118-124 | `orderBy := property`; `order := 'desc'` only when the column was already sorted ascending, else `'asc'`; nothing else changes |
| `CompaniesView.ViewState.SelectAllClick` | src/BackOffice/packs/Companies/index.jsx:126-133 | checked: `selected` lists every loaded company's name in entity order; unchecked: empty; nothing else changes |
| `CompaniesView.ViewState.Click` | src/BackOffice/packs/Companies/index.jsx:135-151 | `selected` becomes the toggle of the old selection; nothing else changes |
| `CompaniesView.ViewState.ChangePage` | src/BackOffice/packs/Companies/index.jsx:153-155 | only `page` changes |
| `CompaniesView.ViewState.ChangeRowsPerPage` | src/BackOffice/packs/Companies/index.jsx:157-162 | sets `rowsPerPage` and resets `page` to 0 |
| `CompaniesView.ViewState.FilterByName` | src/BackOffice/packs/Companies/index.jsx:164-166 | only `filterName` changes |
| `CompaniesView.ViewState.IsSelected` | src/BackOffice/packs/Companies/index.jsx:231 | a row's checkbox is ticked exactly when its name is selected |
| `CompaniesView.ViewState.Rows` | src/BackOffice/packs/Companies/index.jsx:168-228 | padding is `emptyRows` over the unfiltered count; at most `rowsPerPage` rows, all of them loaded companies; with a filter, exactly the page of the filtered input; without one, in comparator order; "not found" exactly when the filtered list is empty |
| `CompanyStore.InitialStateIdle` | src/shared/redux/modules/company.js:23-30 | the initial slice has every flag false, `loaded` false and no errors |
| `CompanyStore.ReduceIgnoresOthers` | src/shared/redux/modules/company.js:298-299 | an action of any other type leaves the state unchanged |
| `CompanyStore.ReduceRequest` | src/shared/redux/modules/company.js:228-232 | a `*_REQUEST` raises only its own flag and keeps `errors` and `loaded` (likewise lines 247-251, 264-268, 281-285) |
| `CompanyStore.ReduceSuccess` | src/shared/redux/modules/company.js:233-239 | a `*_SUCCESS` lowers its own flag and clears `errors`; only `FETCH_SUCCESS` sets `loaded` (likewise 252-257, 269-274, 286-291) |
| `CompanyStore.ReduceFailure` | src/shared/redux/modules/company.js:240-246 | a `*_FAILURE` lowers its own flag and stores `action.errors` as given; `FETCH_FAILURE` also clears `loaded` (likewise 258-263, 275-280, 292-297) |
| `CompanyStore.ReduceAllAppend` | src/shared/redux/modules/company.js:226-301 | dispatching two batches in turn is the same as dispatching their concatenation |
| `CompanyStore.CycleSettles` | src/shared/redux/modules/company.js:226-301 | a full REQUEST..SUCCESS or REQUEST..FAILURE cycle ends with its flag down and the other flags untouched. Errors end cleared or set to the failure's errors. Only a fetch cycle moves `loaded` |
| `CompanyStore.RequestThenOutcome` | src/shared/redux/modules/company.js:226-301 | REQUEST followed by SUCCESS or FAILURE of the same kind leaves that flag false |
| `CompanyStore.RunExecutor` | src/shared/redux/modules/company.js:141-145 | the promise is rejected with `Error('No data')` exactly when the check fails; the later `resolve` is then ignored |
| `CompanyStore.LoadFollowsProtocol` | src/shared/redux/modules/company.js:109-131 | the load dispatches REQUEST, entity update, SUCCESS, or REQUEST, FAILURE, and fails exactly when the mock collection is empty |
| `CompanyStore.MutationFollowsProtocol` | src/shared/redux/modules/company.js:137-224 | create/update/delete dispatch the same protocol, failing exactly on a falsy payload |
| `CompanyStore.LoadOutcome` | src/shared/redux/modules/company.js:109-131 | after a load, `loading` is false, the other flags are kept, and `loaded` holds exactly when the mock collection is non-empty. `errors` is then `Error('No data')` or empty |
| `CompanyStore.MutationKeepsLoad` | src/shared/redux/modules/company.js:137-224 | create, update and delete end with their own flag down. They never change `loading` or `loaded` |
| `CompanyStore.LoadCompanies` | src/shared/redux/modules/company.js:109-135 | empty mock collection: FETCH_REQUEST then FETCH_FAILURE(`Error('No data')`). Otherwise: FETCH_REQUEST, `updateEntities` of all companies, FETCH_SUCCESS. Returns the settled promise |
| `CompanyStore.CreateCompany` | src/shared/redux/modules/company.js:137-164 | falsy payload: CREATE_REQUEST then CREATE_FAILURE, no entity update. Otherwise: CREATE_REQUEST, `updateEntities`, CREATE_SUCCESS |
| `CompanyStore.UpdateCompany` | src/shared/redux/modules/company.js:166-193 | falsy payload: UPDATE_REQUEST then UPDATE_FAILURE. Otherwise: UPDATE_REQUEST, `updateEntities`, UPDATE_SUCCESS |
| `CompanyStore.DeleteCompany` | src/shared/redux/modules/company.js:195-224 | falsy payload: DELETE_REQUEST then DELETE_FAILURE. Otherwise: DELETE_REQUEST, `deleteEntity`, DELETE_SUCCESS |

## Findings

| source | as written | input that shows it | evidently intended | confidence | as-written member | corrected member |
|---|---|---|---|---|---|---|
| src/BackOffice/packs/Companies/index.jsx:95-98 | the guard tests `!errors.length`, but a failed load stores the bare `Error('No data')` in `errors` (company.js:114, 126-128, 245). An `Error` has no `length`, so the test passes although an error is recorded | an empty mock collection: after the failed load, `loaded` and `loading` are false and `errors` is `Error('No data')`, so the guard allows loading again | loading is allowed only while no error is recorded, so a failed load is not retried | medium; not executed | `CompaniesList.GuardReopensAfterFailedLoad` | `CompaniesList.GuardClosesAfterLoad` |

## Left out

- Rendering: JSX, the MUI components, `PageContext`, `Iconify`, `Scrollbar`, `SearchNotFound`, the router link and `TABLE_HEAD`. These are UI only.
- Hooks plumbing (`useSelector`, `useReduxAction`, `useSetState`, `useThunkDispatch`, `useLatestEntity`). `setState` is modelled as a field merge (`ViewState.SetState`). Whether `useReduxAction` re-runs the guard after a failed load is outside the model.
- `src/shared/hooks/useCompany.js`. It generates a random id with `Math.random` and otherwise only forwards to `dispatch`.
- Promise scheduling: the thunks are modelled as the sequence of actions they dispatch and the promise they return. Microtask order, interleaving with other dispatches, and the unhandled rejection of the promise chained by `.then` are not modelled.
- `normalize`, `Schemas`, `updateEntities` and `deleteEntity` are code not shown here. Their actions are opaque values that carry the companies they were built from, so the contents of the entity map after SUCCESS are not modelled.
- `console.log` calls, including the delete-failure diagnostic in `pageContext`.
- `parseInt` of the rows-per-page value: the model takes an already-parsed integer.
- `toLowerCase`: only ASCII letters A-Z are lower-cased.
- String order: characters compare by code point. This equals JavaScript's UTF-16 code-unit order except for characters outside the Basic Multilingual Plane.
- The `avatarUrl` field is not in the record. Sorting on a key the record lacks reads `undefined`, and every pair then compares equal.
- `<` between a string and a boolean is taken as false. One key always reads values of a single kind (`FieldSameKind`), so this case never arises.
- `Object.values(companies)`: the loaded companies are given as a sequence in the entity map's enumeration order.
- `SortTagged`: the JavaScript engine's sort algorithm is not specified, so insertion sort stands in for it. On distinct indices the stable comparison is a strict total order, so every correct comparison sort produces the same result.
- CompaniesView.ViewState.Rows: with an empty filter it states only that the visible rows are loaded companies in comparator order, not which page of the sorted list they are. `ApplySortFilter` and `PageRows` state those parts separately.
