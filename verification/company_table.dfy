/**
 * The company table: the page window (`offset`, `pageSize`), the selected row
 * ids, the `isUpdating` busy flag, the two bulk actions and the guards and
 * label on their buttons. The page itself comes from a `useApi` hook whose
 * `apiFunction` fetches the current collection window.
 */
module CompanyTable {
  import opened Wrappers
  import Collections
  import UseApi

  datatype Company = Company(id: int, companyName: string, liked: bool)

  /** One page of a collection, as the read route returns it. */
  datatype CollectionData = CollectionData(id: string, collectionName: string, companies: seq<Company>, total: nat)

  /** What `getCollectionsById(selectedCollectionId, offset, pageSize)` asks for. */
  datatype PageRequest = PageRequest(collectionId: string, offset: nat, limit: nat)

  /** Calls the table makes to the outside world, in the order it makes them. */
  datatype Call =
    | UpdateCompaniesInCollection(target: string, companyIds: seq<int>)
    | RefreshCalled
    | CompaniesUpdated

  const INITIAL_PAGE_SIZE: nat := 25

  // ---------------------------------------------------------------------------
  // Pure expressions of the component

  /** `collectionData?.companies || []`. */
  function Visible(data: Option<CollectionData>): seq<Company> {
    if data.Some? then data.value.companies else []
  }

  /** `b` contains the elements of `a` in the same order, possibly with others between them. */
  predicate IsSubsequence(a: seq<Company>, b: seq<Company>) {
    if a == [] then true
    else if b == [] then false
    else (a[0] == b[0] && IsSubsequence(a[1..], b[1..])) || IsSubsequence(a, b[1..])
  }

  /** `companies.filter((company) => selectedRows.includes(company.id))`. */
  function SelectedCompanies(visible: seq<Company>, selectedRows: seq<int>): (r: seq<Company>)
    ensures IsSubsequence(r, visible)
    ensures forall c :: c in r ==> c in visible && c.id in selectedRows
    ensures forall c :: c in visible && c.id in selectedRows ==> c in r
    // Every copy of a selected row is kept.
    ensures forall c: Company :: c.id in selectedRows ==> multiset(r)[c] == multiset(visible)[c]
    decreases |visible|
  {
    if visible == [] then []
    else
      assert visible == [visible[0]] + visible[1..];
      var rest := SelectedCompanies(visible[1..], selectedRows);
      if visible[0].id in selectedRows then [visible[0]] + rest else rest
  }

  /** `companies.map((company) => company.id)`, the request body `updateCompaniesInCollection` sends. */
  function CompanyIds(companies: seq<Company>): seq<int> {
    seq(|companies|, i requires 0 <= i < |companies| => companies[i].id)
  }

  /** `disabled` of the "Selected" button. */
  predicate SelectedDisabled(selectedRows: seq<int>, loading: bool, isUpdating: bool) {
    |selectedRows| == 0 || loading || isUpdating
  }

  /** `disabled` of the "All" button: `!collectionData?.companies.length || loading || isUpdating`. */
  predicate AllDisabled(data: Option<CollectionData>, loading: bool, isUpdating: bool) {
    |Visible(data)| == 0 || loading || isUpdating
  }

  /** `newMeta.page * newMeta.pageSize`. */
  function PageOffset(page: nat, pageSize: nat): (offset: nat)
    ensures pageSize > 0 ==> offset / pageSize == page && offset % pageSize == 0
    ensures pageSize == 0 ==> offset == 0
  {
    MultipleDividesBack(page, pageSize);
    page * pageSize
  }

  /** Euclidean division undoes multiplication. */
  lemma MultipleDividesBack(q: nat, d: nat)
    ensures d > 0 ==> (q * d) / d == q && (q * d) % d == 0
  {
    if d > 0 {
      var x := q * d;
      var k, m := x / d, x % d;
      assert d * k + m == d * q;
      DivUnique(d, q, k, m);
    }
  }

  /** A quotient and remainder of a multiple of `d` are the multiplier and zero. */
  lemma DivUnique(d: int, q: int, k: int, m: int)
    requires d > 0 && 0 <= m < d && d * k + m == d * q
    ensures k == q && m == 0
  {
    if k < q {
      assert d * (q - k) == d * q - d * k;
      MulAtLeast(d, q - k);
    } else if k > q {
      assert d * (k - q) == d * k - d * q;
      MulAtLeast(d, k - q);
    }
  }

  lemma {:induction false} MulAtLeast(d: int, a: int)
    requires d > 0 && a >= 1
    ensures d * a >= d
    decreases a
  {
    if a > 1 {
      MulAtLeast(d, a - 1);
      assert d * a == d * (a - 1) + d;
    }
  }

  /** `collectionData?.collection_name === "Liked Companies"`. */
  predicate IsLikedCollection(data: Option<CollectionData>) {
    data.Some? && data.value.collectionName == Collections.LIKED_NAME
  }

  /** `buttonText`. */
  function ButtonText(data: Option<CollectionData>): (text: string)
    ensures text == "Remove" <==> IsLikedCollection(data)
    ensures text == "Remove" || text == "Toggle Like"
  {
    if IsLikedCollection(data) then "Remove" else "Toggle Like"
  }

  // ---------------------------------------------------------------------------
  // Properties of the guards

  /** While a request or an update is outstanding, neither bulk action can be triggered. */
  lemma BusyDisablesBoth(selectedRows: seq<int>, data: Option<CollectionData>, loading: bool, isUpdating: bool)
    requires loading || isUpdating
    ensures SelectedDisabled(selectedRows, loading, isUpdating) && AllDisabled(data, loading, isUpdating)
  {
  }

  /**
   * The guard counts `selectedRows`, not the filtered list: with a selected
   * id that is not on the page, "Selected" is enabled and sends no company.
   */
  lemma EnabledSelectedMaySendEmpty()
    ensures
      var page := [Company(1, "Acme", false)];
      var selected := [2];
      !SelectedDisabled(selected, false, false) && SelectedCompanies(page, selected) == []
  {
  }

  /** A page with companies on it enables "All", unless something is outstanding. */
  lemma NonEmptyPageEnablesAll(data: Option<CollectionData>)
    requires data.Some? && |data.value.companies| > 0
    ensures !AllDisabled(data, false, false)
  {
  }

  // ---------------------------------------------------------------------------
  // The component's state cells

  class Table {
    /** The `selectedCollectionId` prop; the parent remounts the table when it changes. */
    const selectedCollectionId: string
    /** The `useApi` instance holding the page. */
    const api: UseApi.ApiHook<PageRequest, CollectionData>
    var offset: nat
    var pageSize: nat
    var selectedRows: seq<int>
    var isUpdating: bool
    /** The request that the `refresh` captured by the outstanding update reloads. */
    var updateRefresh: Option<PageRequest>
    var calls: seq<Call>

    ghost predicate Valid()
      reads this, api
    {
      && api.Valid()
      && (forall d: CollectionData :: api.truthy(d))
      && (isUpdating <==> updateRefresh.Some?)
    }

    /** The request the current `apiFunction` closure makes. */
    function CurrentRequest(): PageRequest
      reads this
    {
      PageRequest(selectedCollectionId, offset, pageSize)
    }

    constructor (selectedCollectionId: string)
      ensures Valid() && fresh(api)
      ensures this.selectedCollectionId == selectedCollectionId
      ensures offset == 0 && pageSize == INITIAL_PAGE_SIZE && selectedRows == [] && !isUpdating && calls == []
      ensures api.State() == UseApi.Initial()
    {
      this.selectedCollectionId := selectedCollectionId;
      // Every page object is truthy, so a filled cache always answers.
      api := new UseApi.ApiHook((d: CollectionData) => true);
      offset, pageSize, selectedRows := 0, INITIAL_PAGE_SIZE, [];
      isUpdating, updateRefresh, calls := false, None, [];
    }

    /** The effect that calls `fetchData` after a render, with the closure of that render. */
    method RunFetchEffect()
      requires Valid()
      modifies api
      ensures Valid()
      ensures api.State() == UseApi.LoadStep(old(api.State()), CurrentRequest(), api.truthy)
    {
      api.FetchData(CurrentRequest());
    }

    /** `onPaginationModelChange`. */
    method OnPaginationModelChange(page: nat, newPageSize: nat)
      requires Valid()
      modifies this`offset, this`pageSize
      ensures Valid()
      ensures pageSize == newPageSize && offset == PageOffset(page, newPageSize)
    {
      pageSize := newPageSize;
      offset := PageOffset(page, newPageSize);
    }

    /**
     * A page change followed by the effect of the next render. Once the cache
     * holds a page, the new window is never requested: the cached page stays
     * on screen.
     */
    method ChangePage(page: nat, newPageSize: nat)
      requires Valid()
      modifies this`offset, this`pageSize, api
      ensures Valid()
      ensures offset == PageOffset(page, newPageSize) && pageSize == newPageSize
      ensures api.State() == UseApi.LoadStep(old(api.State()), CurrentRequest(), api.truthy)
      ensures old(api.cache).Some? ==>
        api.data == old(api.cache) && api.requests == old(api.requests)
      ensures old(api.cache).None? ==>
        api.requests == old(api.requests) + [PageRequest(selectedCollectionId, offset, pageSize)]
    {
      OnPaginationModelChange(page, newPageSize);
      RunFetchEffect();
    }

    /** `onRowSelectionModelChange`. */
    method OnRowSelectionModelChange(model: seq<int>)
      requires Valid()
      modifies this`selectedRows
      ensures Valid() && selectedRows == model
    {
      selectedRows := model;
    }

    /**
     * `handleUpdateCompanies` up to its `await`: the busy flag goes on and one
     * update request for this table's collection goes out. Only the buttons
     * call it, and they are disabled while an update is outstanding.
     */
    method HandleUpdateCompanies(companies: seq<Company>)
      requires Valid() && !isUpdating
      modifies this`isUpdating, this`updateRefresh, this`calls
      ensures Valid() && isUpdating
      ensures calls == old(calls) + [UpdateCompaniesInCollection(selectedCollectionId, CompanyIds(companies))]
      ensures updateRefresh == Some(CurrentRequest())
    {
      isUpdating := true;
      calls := calls + [UpdateCompaniesInCollection(selectedCollectionId, CompanyIds(companies))];
      updateRefresh := Some(CurrentRequest());
    }

    /**
     * `handleUpdateCompanies` after its `await`: on success `refresh` and then
     * `onCompaniesUpdated`; on failure neither; the busy flag goes off either way.
     */
    method FinishUpdate(succeeded: bool)
      requires Valid() && isUpdating
      modifies this`isUpdating, this`updateRefresh, this`calls, api
      ensures Valid() && !isUpdating
      ensures succeeded ==>
        && calls == old(calls) + [RefreshCalled, CompaniesUpdated]
        && api.State() == UseApi.RefreshStep(old(api.State()), old(updateRefresh).value, api.truthy)
      ensures !succeeded ==> calls == old(calls) && api.State() == old(api.State())
    {
      if succeeded {
        api.Refresh(updateRefresh.value);
        calls := calls + [RefreshCalled];
        calls := calls + [CompaniesUpdated];
      }
      isUpdating := false;
      updateRefresh := None;
    }

    /** `handleUpdateSelected`: the visible companies whose id is selected, in row order. */
    method HandleUpdateSelected()
      requires Valid() && !isUpdating
      modifies this`isUpdating, this`updateRefresh, this`calls
      ensures Valid() && isUpdating && updateRefresh == Some(CurrentRequest())
      ensures calls == old(calls) +
        [UpdateCompaniesInCollection(selectedCollectionId, CompanyIds(SelectedCompanies(Visible(api.data), selectedRows)))]
    {
      var selectedCompanies := SelectedCompanies(Visible(api.data), selectedRows);
      HandleUpdateCompanies(selectedCompanies);
    }

    /** `handleUpdateAll`: every company of the visible page, as an explicit list. */
    method HandleUpdateAll()
      requires Valid() && !isUpdating
      modifies this`isUpdating, this`updateRefresh, this`calls
      ensures Valid() && isUpdating && updateRefresh == Some(CurrentRequest())
      ensures calls == old(calls) + [UpdateCompaniesInCollection(selectedCollectionId, CompanyIds(Visible(api.data)))]
    {
      HandleUpdateCompanies(Visible(api.data));
    }

    /** A click on the "Selected" button; a disabled button fires nothing. */
    method ClickSelected()
      requires Valid()
      modifies this`isUpdating, this`updateRefresh, this`calls
      ensures Valid()
      ensures SelectedDisabled(selectedRows, api.loading, old(isUpdating)) ==>
        calls == old(calls) && isUpdating == old(isUpdating) && updateRefresh == old(updateRefresh)
      ensures !SelectedDisabled(selectedRows, api.loading, old(isUpdating)) ==>
        && isUpdating
        && updateRefresh == Some(CurrentRequest())
        && calls == old(calls) +
          [UpdateCompaniesInCollection(selectedCollectionId, CompanyIds(SelectedCompanies(Visible(api.data), selectedRows)))]
    {
      if !SelectedDisabled(selectedRows, api.loading, isUpdating) {
        HandleUpdateSelected();
      }
    }

    /** A click on the "All" button; a disabled button fires nothing. */
    method ClickAll()
      requires Valid()
      modifies this`isUpdating, this`updateRefresh, this`calls
      ensures Valid()
      ensures AllDisabled(api.data, api.loading, old(isUpdating)) ==>
        calls == old(calls) && isUpdating == old(isUpdating) && updateRefresh == old(updateRefresh)
      ensures !AllDisabled(api.data, api.loading, old(isUpdating)) ==>
        && isUpdating
        && updateRefresh == Some(CurrentRequest())
        && calls == old(calls) + [UpdateCompaniesInCollection(selectedCollectionId, CompanyIds(Visible(api.data)))]
    {
      if !AllDisabled(api.data, api.loading, isUpdating) {
        HandleUpdateAll();
      }
    }
  }
}
