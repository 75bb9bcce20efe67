/**
 * The workbasket list (`WorkbasketListComponent`) as its tests pin it down:
 * toggle selection through store actions, sort replacement, a filter merge that
 * keeps the current domain, and the page cursor.
 *
 * Store actions are appended to `dispatched`; the store's selected-workbasket
 * selector is the `OnSelectedWorkbasket` step, which mirrors the store's
 * selection into `selectedId`.
 */
module WorkbasketList {
  import opened Wrappers

  datatype Direction = Asc | Desc

  /** `Sorting<WorkbasketQuerySortParameter>`: `{'sort-by', order}`. */
  datatype Sorting = Sorting(sortBy: string, order: Direction)

  /** `WorkbasketQueryFilterParameter`: filter name to the values it accepts. */
  type FilterParameter = map<string, seq<string>>

  const DomainKey := "domain"
  const NameLikeKey := "name-like"

  datatype Action = SelectWorkbasket(id: string) | DeselectWorkbasket

  /**
   * The filter after `performFilter(update)`: every key of the update replaces
   * the current one, keys the update lacks are kept, and the domain is always
   * the current domain (absent if there is none), whatever the update says.
   */
  function MergeFilter(current: FilterParameter, update: FilterParameter): (r: FilterParameter)
    ensures DomainKey in r <==> DomainKey in current
    ensures DomainKey in current ==> r[DomainKey] == current[DomainKey]
    ensures forall k :: k != DomainKey ==> (k in r <==> k in current || k in update)
    ensures forall k :: k in update && k != DomainKey ==> r[k] == update[k]
    ensures forall k :: k in current && k !in update ==> r[k] == current[k]
  {
    var merged := current + update;
    if DomainKey in current then merged[DomainKey := current[DomainKey]]
    else merged - {DomainKey}
  }

  /** Merging twice with the same update changes nothing more. */
  lemma MergeFilterIdempotent(current: FilterParameter, update: FilterParameter)
    ensures MergeFilter(MergeFilter(current, update), update) == MergeFilter(current, update)
  {
    var once := MergeFilter(current, update);
    var twice := MergeFilter(once, update);
    assert forall k :: k in twice <==> k in once;
    assert forall k :: k in twice ==> twice[k] == once[k];
  }

  /** The filter test: `{domain: ['123']}` merged with `{'name-like': ['workbasket'], domain: ['']}`. */
  lemma MergeFilterKeepsDomain()
    ensures MergeFilter(map[DomainKey := ["123"]], map[NameLikeKey := ["workbasket"], DomainKey := [""]])
              == map[DomainKey := ["123"], NameLikeKey := ["workbasket"]]
  {
    var r := MergeFilter(map[DomainKey := ["123"]], map[NameLikeKey := ["workbasket"], DomainKey := [""]]);
    assert NameLikeKey != DomainKey;
    assert r.Keys == {DomainKey, NameLikeKey};
  }

  /** The action `selectWorkbasket(id)` dispatches, given the mirrored selection. */
  function SelectionAction(selectedId: Option<string>, id: string): (a: Action)
    ensures a == DeselectWorkbasket <==> selectedId == Some(id)
    ensures a.SelectWorkbasket? ==> a.id == id
  {
    if selectedId == Some(id) then DeselectWorkbasket else SelectWorkbasket(id)
  }

  class WorkbasketListComponent {
    var selectedId: Option<string>
    var sort: Sorting
    var filterBy: FilterParameter
    var page: int     // pageParameter.page
    var dispatched: seq<Action>

    /** The component's initial field values are not part of this model: they are parameters. */
    constructor (sort: Sorting, filterBy: FilterParameter, page: int)
      ensures selectedId == None && this.sort == sort && this.filterBy == filterBy
      ensures this.page == page && dispatched == []
    {
      selectedId := None;
      this.sort := sort;
      this.filterBy := filterBy;
      this.page := page;
      dispatched := [];
    }

    /**
     * Selecting the selected workbasket dispatches a deselection; the store's
     * synchronous reaction to it, clearing the selection, is folded into this
     * method. Selecting any other dispatches its selection, which the store
     * reports back through `OnSelectedWorkbasket`.
     */
    method SelectWorkbasket(id: string)
      modifies this`selectedId, this`dispatched
      ensures dispatched == old(dispatched) + [SelectionAction(old(selectedId), id)]
      ensures old(selectedId) == Some(id) ==> selectedId == None
      ensures old(selectedId) != Some(id) ==> selectedId == old(selectedId)
    {
      if selectedId == Some(id) {
        dispatched := dispatched + [DeselectWorkbasket];
        selectedId := None;
      } else {
        dispatched := dispatched + [Action.SelectWorkbasket(id)];
      }
    }

    /** The store's selected workbasket changes. */
    method OnSelectedWorkbasket(id: Option<string>)
      modifies this`selectedId
      ensures selectedId == id
    {
      selectedId := id;
    }

    method PerformSorting(sort: Sorting)
      modifies this`sort
      ensures this.sort == sort
    {
      this.sort := sort;
    }

    method PerformFilter(update: FilterParameter)
      modifies this`filterBy
      ensures filterBy == MergeFilter(old(filterBy), update)
    {
      filterBy := MergeFilter(filterBy, update);
    }

    method ChangePage(page: int)
      modifies this`page
      ensures this.page == page
    {
      this.page := page;
    }

    /** `ngOnInit`: the filter obtained from the store is passed to `performFilter`. */
    method Init(storeFilter: FilterParameter)
      modifies this`filterBy
      ensures filterBy == MergeFilter(old(filterBy), storeFilter)
    {
      PerformFilter(storeFilter);
    }
  }

  // -----------------------------------------------------------------------
  // The component's tests, replayed on the model from any initial state
  // -----------------------------------------------------------------------

  /** Selecting a workbasket while none is selected dispatches SelectWorkbasket. */
  method SelectWhenNoneSelected(sort: Sorting, filter: FilterParameter, page: int, storeFilter: FilterParameter)
    returns (actions: seq<Action>)
    ensures actions == [Action.SelectWorkbasket("WBI:000000000000000000000000000000000902")]
  {
    var c := new WorkbasketListComponent(sort, filter, page);
    c.Init(storeFilter);
    c.selectedId := None;
    c.SelectWorkbasket("WBI:000000000000000000000000000000000902");
    actions := c.dispatched;
  }

  /** Selecting the selected workbasket again dispatches DeselectWorkbasket and clears the selection. */
  method SelectAgainDeselects(sort: Sorting, filter: FilterParameter, page: int, storeFilter: FilterParameter)
    returns (actions: seq<Action>, selected: Option<string>)
    ensures actions == [DeselectWorkbasket] && selected == None
  {
    var c := new WorkbasketListComponent(sort, filter, page);
    c.Init(storeFilter);
    c.selectedId := Some("123");
    c.SelectWorkbasket("123");
    actions, selected := c.dispatched, c.selectedId;
  }

  /**
   * Two selections of one id, with the store reporting the first back in
   * between: first a selection, then a deselection, and nothing is selected.
   */
  method SelectTwiceToggles(id: string, sort: Sorting, filter: FilterParameter, page: int)
    returns (actions: seq<Action>, selected: Option<string>)
    ensures actions == [Action.SelectWorkbasket(id), DeselectWorkbasket] && selected == None
  {
    var c := new WorkbasketListComponent(sort, filter, page);
    c.SelectWorkbasket(id);
    c.OnSelectedWorkbasket(Some(id));
    c.SelectWorkbasket(id);
    actions, selected := c.dispatched, c.selectedId;
  }

  /** performFilter takes `name-like` from the update and keeps the domain `['123']`. */
  method FilterKeepsDomain(sort: Sorting, filter: FilterParameter, page: int)
    returns (result: FilterParameter)
    ensures NameLikeKey in result && result[NameLikeKey] == ["workbasket"]
    ensures DomainKey in result && result[DomainKey] == ["123"]
  {
    var c := new WorkbasketListComponent(sort, filter, page);
    c.filterBy := map[DomainKey := ["123"]];
    c.PerformFilter(map[NameLikeKey := ["workbasket"], DomainKey := [""]]);
    MergeFilterKeepsDomain();
    result := c.filterBy;
  }

  /** changePage(2) sets the page to exactly 2, from any prior page. */
  method ChangePageSetsPage(sort: Sorting, filter: FilterParameter, page: int) returns (result: int)
    ensures result == 2
  {
    var c := new WorkbasketListComponent(sort, filter, page);
    c.ChangePage(2);
    result := c.page;
  }

  /** performSorting stores the sort it is given: TYPE ascending in the test. */
  method PerformSortingStoresSort(sort: Sorting, filter: FilterParameter, page: int) returns (result: Sorting)
    ensures result == Sorting("TYPE", Asc)
  {
    var c := new WorkbasketListComponent(sort, filter, page);
    c.PerformSorting(Sorting("TYPE", Asc));
    result := c.sort;
  }
}
