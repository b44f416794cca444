# Company collections: membership routes, fetch hook and table actions

A Dafny model of the core of a small company-browsing application. Companies
belong to named collections; one collection, "Liked Companies", is treated
specially. The model covers three pieces:

- **The backend collection routes** (`backend/backend/routes/collections.py`),
  module `Collections`. The association table is a set of
  (collection, company) pairs. The read route counts a collection's members
  and returns an offset/limit window of them, or a failure. The two POST
  routes rewrite the association set. On "Liked Companies", update-companies removes the
  requested companies from it. On any other collection it toggles each
  requested company's membership in *Liked*, not in the target. Update-all
  empties Liked or adds every company to it. Each POST route is a pure
  function from a database value to an `Outcome` (a status and the new
  association set). The read route is a function to a `ReadResult`. The class `Store` runs the same routes on fields. Its update-companies
  method loops over the companies the `in_` query returns, one delete or add
  per company, and is proved equal to the function.
- **The `useApi` hook** (`frontend/src/utils/useApi.ts`), module `UseApi`.
  Its state is `data`, `loading`, `error` and one unkeyed cache slot. `load`
  (the hook's `fetchData`) and the promise's settlement are separate events,
  and `refresh` clears the cache and then loads. The pure step functions are
  the specification. The class `ApiHook` has the cells as fields and the
  events as methods. The model also records the requests issued and how many
  are still pending. These two counters are not state of the hook; they let
  the model state "issues exactly one request".
- **The table actions** (`frontend/src/components/CompanyTable.tsx`), module
  `CompanyTable`. This covers the filter that picks the selected companies on
  the visible page, the "All" action, the `isUpdating` flag, the
  enabled/disabled guards of the two buttons, the offset computed from page
  and page size, and the "Remove"/"Toggle Like" label. The class `Table`
  holds the component's state cells and its `useApi` instance. Its methods
  are the component's event handlers.

Where the code behaves surprisingly, the model follows the code. The
cache is a single slot, not keyed by page: once it is filled, a page change
shows the cached page and requests nothing (`UseApi.CacheIgnoresKey`,
`CompanyTable.Table.ChangePage`). There is no stale-response guard: any
settling promise is applied, and `loading` turns off while another request
is still pending (`UseApi.LoadingClearsBeforeLastResponse`). `error` is never
cleared (`UseApi.ErrorNeverCleared`). The "All" action sends the visible page
as an explicit id list. It does not send an apply-to-all flag, and the
update-all route is never called from the table. No handler of the
component clears the selection on a page change. An enabled "Selected" button can send an empty
list (`CompanyTable.EnabledSelectedMaySendEmpty`).

Cache hits follow JavaScript truthiness: a cached value that is falsy counts
as absent. `ApiHook` takes the truthiness test as a parameter. The table
passes one that is always true, because the page is always an object.

## Model

| member | source | states |
|---|---|---|
| `Collections.Find` | backend/backend/routes/collections.py:90-92 | The target lookup yields a collection with the requested id, and yields nothing exactly when no collection has that id (the 404 case). |
| `Collections.FirstLiked` | backend/backend/routes/collections.py:94 | The Liked lookup yields a collection named "Liked Companies", and yields nothing exactly when no collection has that name. |
| `Collections.MembersOf` | backend/backend/routes/collections.py:64-68 | The join yields only existing companies, and a company is a member exactly when its association with the collection is present. |
| `Collections.Requested` | backend/backend/routes/collections.py:96 | The `in_` query yields only existing companies, and no more rows than ids were sent: repeated ids yield one row. |
| `Collections.RemoveFrom` | backend/backend/routes/collections.py:99-106 | Removing only deletes. The deleted associations are exactly the collection's associations with the given companies. |
| `Collections.ToggleIn` | backend/backend/routes/collections.py:108-121 | Each given company's association with the collection flips. Every other association is unchanged. |
| `Collections.Clear` | backend/backend/routes/collections.py:143-147 | The bulk delete of a collection's associations is the per-company delete of every company that has an association. |
| `Collections.AddAll` | backend/backend/routes/collections.py:150-164 | The bulk insert keeps every existing association and gives every company an association with the collection. Nothing else is added. |
| `Collections.UpdateCompanies` | backend/backend/routes/collections.py:84-128 | An unknown id gives 404 and changes nothing. On "Liked Companies" the route only removes, and every requested existing company leaves the collection. On another collection, each requested existing company's membership in Liked flips, and all other associations, including the target's own, are unchanged. With no Liked collection and a request naming at least one existing company, the route fails with 500 and nothing is committed. When no requested id is a company, the table is untouched. |
| `Collections.UpdateAllCompanies` | backend/backend/routes/collections.py:131-176 | An unknown id gives 404 and changes nothing. On "Liked Companies", whatever the flag, that collection is emptied. On another collection, Liked either gains every company (flag true) or is emptied (flag false). No other collection's associations change, and a missing Liked collection gives 500. |
| `Collections.Window` | backend/backend/routes/collections.py:72 | The window holds at most `limit` rows, starts at row `offset`, and is empty past the end. |
| `Collections.GetCompanyCollection` | backend/backend/routes/collections.py:55-82 | The page carries the collection's own id and name. `total` equals the number of the collection's associations with existing companies. `companies` is the offset/limit window of the database's row order. An unknown id fails with 500, because the name lookup dereferences a missing row. |
| `Collections.ListingLength` | backend/backend/routes/collections.py:70 | The row count of the join equals the size of the collection's member set. |
| `Collections.ToggleTwiceRestores` | backend/backend/routes/collections.py:107-121 | On a collection other than Liked, running update-companies twice with the same ids restores every association. |
| `Collections.OnlyExistingRequestedMatter` | backend/backend/routes/collections.py:96 | Two requests that name the same existing companies have the same outcome. Ids that match no company are ignored. |
| `Collections.DuplicatesActOnce` | backend/backend/routes/collections.py:96 | Sending the id list twice over acts as sending it once. |
| `Collections.AddAllMakesEveryCompanyLiked` | backend/backend/routes/collections.py:150-164 | Update-all with the flag set makes Liked's members exactly the set of companies. |
| `Collections.UpdatesPreserveValid` | backend/backend/routes/collections.py:98-169 | Both routes keep every association pointing at an existing company and an existing collection. |
| `Collections.LoopComplete` | backend/backend/routes/collections.py:98-121 | Once the loop has handled every requested company, its result is the route's answer. |
| `Collections.Store.UpdateCompaniesInCollection` | backend/backend/routes/collections.py:84-128 | The loop over the query's rows (one delete or add each) leaves exactly the association set and status of `UpdateCompanies`, and keeps the store valid. |
| `Collections.Store.ApplyRows` | backend/backend/routes/collections.py:98-121 | After the loop over the rows, the associations are those of the route with every row handled. Without a Liked collection and on a non-Liked target, the first row fails and nothing changed. |
| `Collections.Store.UpdateAllCompaniesInCollection` | backend/backend/routes/collections.py:131-176 | The bulk delete or insert leaves exactly the association set and status of `UpdateAllCompanies`. |
| `UseApi.Initial` | frontend/src/utils/useApi.ts:4-7 | The mount state satisfies the hook's coherence invariant, so `RunPreservesCoherent` covers every run from mount. |
| `UseApi.CacheHit` | frontend/src/utils/useApi.ts:10 | Defines a usable cache: the slot holds a value that the truthiness test accepts. Its consequences are stated by `LoadStep` and `CacheIgnoresKey`. |
| `UseApi.LoadStep` | frontend/src/utils/useApi.ts:9-16 | With a usable cache, load shows the cached value, issues no request and leaves `loading` as it was. Otherwise it sets `loading` and issues exactly one request, for the current key. `error` and the cache are untouched either way. |
| `UseApi.CompleteStep` | frontend/src/utils/useApi.ts:17-26 | On success the response goes into both `data` and the cache. On failure the message goes into `error`, and `data` and the cache stay as they were. After either outcome `loading` is false. |
| `UseApi.RefreshStep` | frontend/src/utils/useApi.ts:33-36 | Refresh issues exactly one request whatever the cache held. It leaves the cache empty and `loading` on. |
| `UseApi.RunPreservesCoherent` | frontend/src/utils/useApi.ts:9-36 | In every run of events, a filled cache is what `data` shows, `loading` implies that a request is pending, and every pending request was issued. |
| `UseApi.ErrorNeverCleared` | frontend/src/utils/useApi.ts:17-23 | Once an error is recorded, it stays recorded through any later loads, successes and refreshes. |
| `UseApi.CacheIgnoresKey` | frontend/src/utils/useApi.ts:7-13 | Once the cache holds a usable value and nothing is pending, loads for any keys issue no request and keep showing that value until a refresh. |
| `UseApi.RefreshBypassesCache` | frontend/src/utils/useApi.ts:33-36 | Where a plain load would answer from a usable cache and request nothing, refresh requests its key. Its response then replaces the cached value. |
| `UseApi.LoadingClearsBeforeLastResponse` | frontend/src/utils/useApi.ts:15-26 | After two loads and the first response, `loading` is false while one request is still pending, and the first response is displayed. |
| `UseApi.ApiHook.constructor` | frontend/src/utils/useApi.ts:4-7 | The fields start in the initial state. |
| `UseApi.ApiHook.FetchData` | frontend/src/utils/useApi.ts:9-27 | The fields change exactly as `LoadStep` says, and coherence is kept. |
| `UseApi.ApiHook.Settle` | frontend/src/utils/useApi.ts:16-26 | The fields change exactly as `CompleteStep` says, and coherence is kept. |
| `UseApi.ApiHook.Refresh` | frontend/src/utils/useApi.ts:33-36 | The fields change exactly as `RefreshStep` says, and coherence is kept. |
| `CompanyTable.Visible` | frontend/src/components/CompanyTable.tsx:55 | Defines the visible page: the loaded page's companies, or none before the first load. Used by `HandleUpdateAll`, `SelectedCompanies` and `AllDisabled`. |
| `CompanyTable.SelectedCompanies` | frontend/src/components/CompanyTable.tsx:47-50 | The result is a subsequence of the visible rows, in row order. It holds exactly the visible companies whose id is selected, every copy of a repeated row included, so selected ids that are not on the page are dropped. |
| `CompanyTable.SelectedDisabled` | frontend/src/components/CompanyTable.tsx:81 | Defines the "Selected" button's guard: no row selected, or loading, or updating. Its consequences are stated by `BusyDisablesBoth`, `EnabledSelectedMaySendEmpty` and `ClickSelected`. |
| `CompanyTable.AllDisabled` | frontend/src/components/CompanyTable.tsx:89 | Defines the "All" button's guard: an empty page, or loading, or updating. Its consequences are stated by `BusyDisablesBoth`, `NonEmptyPageEnablesAll` and `ClickAll`. |
| `CompanyTable.IsLikedCollection` | frontend/src/components/CompanyTable.tsx:64-65 | Defines the Liked test: a page is loaded and its collection is named "Liked Companies". `ButtonText` states its consequence. |
| `CompanyTable.PageOffset` | frontend/src/components/CompanyTable.tsx:108-111 | The offset is a multiple of the page size, and dividing it by the page size gives back the page number. |
| `CompanyTable.ButtonText` | frontend/src/components/CompanyTable.tsx:64-66 | The label is "Remove" exactly when the page's collection is named "Liked Companies", and "Toggle Like" otherwise. |
| `CompanyTable.BusyDisablesBoth` | frontend/src/components/CompanyTable.tsx:81-89 | While loading or updating, both buttons are disabled. |
| `CompanyTable.EnabledSelectedMaySendEmpty` | frontend/src/components/CompanyTable.tsx:81 | The guard checks `selectedRows`, not the filtered list. With only an off-page id selected, "Selected" is enabled and sends no company. |
| `CompanyTable.NonEmptyPageEnablesAll` | frontend/src/components/CompanyTable.tsx:89 | A page with companies enables "All" when nothing is loading or updating. |
| `CompanyTable.Table.constructor` | frontend/src/components/CompanyTable.tsx:21-30 | The table mounts at offset 0 and page size 25, with no selection, not updating, and a fresh hook. |
| `CompanyTable.Table.CurrentRequest` | frontend/src/components/CompanyTable.tsx:26-30 | Defines the request the `apiFunction` closure makes: this table's collection, the current offset, and the page size as the limit. Its consequences are stated by `RunFetchEffect`, `ChangePage`, `HandleUpdateCompanies`, `ClickSelected` and `ClickAll`. |
| `CompanyTable.Table.RunFetchEffect` | frontend/src/utils/useApi.ts:29-31 | The effect loads with the request of the current collection, offset and page size. |
| `CompanyTable.Table.OnPaginationModelChange` | frontend/src/components/CompanyTable.tsx:108-111 | The handler sets the page size to the new size and the offset to page times page size. |
| `CompanyTable.Table.ChangePage` | frontend/src/components/CompanyTable.tsx:108-111 | After a page change, the effect's load moves the hook exactly as `LoadStep` does for the new window. A filled cache keeps the old page on screen and issues no request, whatever is pending. An empty cache requests the new window. |
| `CompanyTable.Table.OnRowSelectionModelChange` | frontend/src/components/CompanyTable.tsx:113-115 | The selection becomes the grid's new selection model. |
| `CompanyTable.Table.HandleUpdateCompanies` | frontend/src/components/CompanyTable.tsx:32-35 | The busy flag goes on, and exactly one update request goes out for this table's collection, carrying the given companies' ids. |
| `CompanyTable.Table.FinishUpdate` | frontend/src/components/CompanyTable.tsx:35-43 | After a success, `refresh` and then `onCompaniesUpdated` are called, in that order. After a failure neither is called and the hook is untouched. The busy flag is off either way. |
| `CompanyTable.Table.HandleUpdateSelected` | frontend/src/components/CompanyTable.tsx:46-52 | The request carries exactly the ids of the selected visible companies, in row order, and targets this table's collection. |
| `CompanyTable.Table.HandleUpdateAll` | frontend/src/components/CompanyTable.tsx:54-56 | The request carries the ids of every company on the visible page and no others, as an explicit list. |
| `CompanyTable.Table.ClickSelected` | frontend/src/components/CompanyTable.tsx:78-81 | A click on a disabled "Selected" button changes nothing, including the refresh key of an update in flight. A click on an enabled one starts the update of the selected companies and records the current request as the refresh key. |
| `CompanyTable.Table.ClickAll` | frontend/src/components/CompanyTable.tsx:86-89 | A click on a disabled "All" button changes nothing, including the refresh key of an update in flight. A click on an enabled one starts the update of the whole visible page and records the current request as the refresh key. |

## Left out

- Database sessions, `Depends`, the pydantic models and the raw SQL text are left out. Each route is one atomic change of the association set.
- The 500 from a failing `commit`, with its rollback (collections.py:123-128, 171-176), is left out. The 500 from a missing Liked collection or a missing collection on the read route is modelled.
- Associations are a set of (collection, company) pairs. A duplicate pair cannot be represented, so the `NOT EXISTS` guard of the bulk insert shows up only as set union.
- Row order is not modelled. The read route and the `in_` query have no ORDER BY, so the database's order is a parameter (`rows`).
- The read route's default `offset` of 0 and `limit` of 10 are not modelled. `GetCompanyCollection` takes both as arguments, and the table always sends both.
- Negative `offset` or `limit` values are not modelled (they are `nat`), because their effect depends on the database engine.
- `get_all_collection_metadata` is not modelled, because it is a plain projection of the collection table.
- `fetch_companies_with_liked` is not part of this model. Companies on the read route are their ids.
- The axios wrappers in `frontend/src/utils/jam-api.ts` and their fixed base URL are not modelled. Only the mapping of companies to ids is kept, as the helper `CompanyIds`; its consequences are stated by `HandleUpdateSelected` and `HandleUpdateAll`.
- `updateAllCompaniesInCollection` in jam-api.ts is never called by the table.
- `frontend/src/App.tsx` is not modelled. It selects the first collection automatically, and it remounts the table when the selected collection changes. A remount is a new `Table` object, which is why the collection id is a constant.
- React scheduling is not modelled. The `useApi` closure is recreated on every render, so its effect runs after each render. The model exposes that effect as the explicit event `RunFetchEffect` and does not say when renders happen.
- The second requests this scheduling causes are not captured. When `loading` was false, `setLoading(true)` causes a render, the render makes a new `fetchData`, and the effect runs again while the cache is still empty. Read this way, such a load and every refresh make a second request in the real program; a load while `loading` is already true causes no render and no second request. After a rejection, the render from `setError`/`setLoading(false)` re-runs the effect with the cache still empty, so a failing fetch is requested again at once, each time it fails. "Exactly one request" in `LoadStep` and `RefreshStep` holds for one call, not for the program's renders.
- Promise timing is not modelled: a fetch's start and its settlement are separate, sequential events.
- `CompanyTable.Table.HandleUpdateCompanies`: assumes no update is outstanding. Only the two buttons call it, and both are disabled while `isUpdating`, so two overlapping updates are not modelled.
- The data grid's own behaviour (rendering, and any selection changes it makes on its own) is not modelled. The selection changes only through `onRowSelectionModelChange`.
- Logging (`console.log`/`console.error`) is not modelled.
- `Collections.FirstLiked`: its contract says the result is a Liked collection, not that it is the first one in table order. The body does pick the first one.
