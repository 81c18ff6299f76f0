/**
 * The orders table component as an object: the fields its methods assign and
 * the event handlers that assign them.
 */
module OrdersTable {
  import opened Wrappers
  import opened JsText
  import opened Orders
  import opened TableFilter
  import opened Columns
  import opened Selection
  import opened UrlState

  class OrdersTableComponent {
    /** `allColumns`: entries are updated in place. */
    var allColumns: array<Column>
    /** `displayedColumns`: the ids of the visible columns, reassigned after each toggle. */
    var displayedColumns: seq<string>
    /** The search box's value (`searchControl.value`). */
    var searchText: string
    /** `dataSource.filter`. */
    var filter: string
    /** The paginator widget, absent until the view has created it. */
    var paginator: Option<Page>
    /** The sort widget, absent until the view has created it. */
    var sort: Option<SortState>
    /** `selectedOrder`: the order shown in the detail panel. */
    var selectedOrder: Option<OrderRef>
    /** The query parameters of the current URL. */
    var url: Query

    /** `displayedColumns` always lists the ids of the visible columns, in table order. */
    ghost predicate Valid()
      reads this, allColumns
    {
      displayedColumns == VisibleIds(allColumns[..])
    }

    /** What `updateUrl` reads. */
    function View(): ViewState
      reads this
    {
      ViewState(searchText, paginator, sort)
    }

    /** The component as created, on a page whose URL carries `params`. */
    constructor(params: Query)
      ensures Valid() && fresh(allColumns)
      ensures allColumns[..] == DefaultColumns() && displayedColumns == DefaultDisplayed()
      ensures searchText == "" && filter == ""
      ensures paginator == None && sort == None && selectedOrder == None
      ensures url == params
    {
      allColumns := new Column[9](i requires 0 <= i < 9 => DefaultColumns()[i]);
      displayedColumns := DefaultDisplayed();
      searchText := "";
      filter := "";
      paginator := None;
      sort := None;
      selectedOrder := None;
      url := params;
      new;
      assert allColumns[..] == DefaultColumns();
      DefaultsConsistent();
    }

    /** The query-parameter subscription: a non-empty `search` is copied into the search box. */
    method OnQueryParams(params: Query)
      modifies this`searchText
      ensures searchText == RestoreSearch(params, old(searchText))
      ensures SearchKey in params && params[SearchKey] != "" ==> searchText == params[SearchKey]
    {
      if SearchKey in params && params[SearchKey] != "" {
        searchText := params[SearchKey];
      }
    }

    /** `applyFilter`: the filter becomes the trimmed, lower-cased text. */
    method ApplyFilter(filterValue: string)
      modifies this`filter
      ensures filter == Normalize(filterValue)
      ensures AllWhitespace(filterValue) ==> filter == ""
    {
      filter := Lower(Trim(filterValue));
      BlankClearsFilter(filterValue);
    }

    /**
     * `updateUrl`: builds the query parameters one optional entry at a time
     * and replaces the URL with them.
     */
    method UpdateUrl()
      modifies this`url
      ensures url == QueryParams(View())
    {
      var view := View();
      var queryParams: Query := map[];
      var searchValue := Trim(view.search);
      if searchValue != "" {
        queryParams := queryParams[SearchKey := searchValue];
      }
      assert queryParams == SearchParams(view.search);
      if view.paginator.Some? {
        var page := view.paginator.value;
        if page.pageIndex != Int(DefaultPageIndex) {
          queryParams := queryParams[PageKey := ShowNum(page.pageIndex)];
        }
        if page.pageSize != Int(DefaultPageSize) {
          queryParams := queryParams[PageSizeKey := ShowNum(page.pageSize)];
        }
      }
      assert queryParams == AddPageParams(SearchParams(view.search), view.paginator);
      if view.sort.Some? && view.sort.value.active != "" && view.sort.value.direction != "" {
        queryParams := queryParams[SortActiveKey := view.sort.value.active];
        queryParams := queryParams[SortDirectionKey := view.sort.value.direction];
      }
      assert queryParams == QueryParams(view);
      url := queryParams;
    }

    /** A new value from the search box (after debouncing): filter, then rewrite the URL. */
    method OnSearchValue(value: string)
      modifies this`searchText, this`filter, this`url
      ensures searchText == value && filter == Normalize(value)
      ensures url == QueryParams(View())
    {
      searchText := value;
      ApplyFilter(value);
      UpdateUrl();
    }

    /** The view has created its paginator and sort header, at their initial positions. */
    method AttachWidgets()
      modifies this`paginator, this`sort
      ensures paginator == (if old(paginator).None? then Some(InitialPage()) else old(paginator))
      ensures sort == (if old(sort).None? then Some(InitialSort()) else old(sort))
    {
      if paginator.None? {
        paginator := Some(InitialPage());
      }
      if sort.None? {
        sort := Some(InitialSort());
      }
    }

    /** The paginator's page event: it has moved to `page`, and the URL follows. */
    method OnPageChange(page: Page)
      requires paginator.Some?
      modifies this`paginator, this`url
      ensures paginator == Some(page)
      ensures url == QueryParams(View())
    {
      paginator := Some(page);
      UpdateUrl();
    }

    /** The sort header's change event: it now sorts by `s`, and the URL follows. */
    method OnSortChange(s: SortState)
      requires sort.Some?
      modifies this`sort, this`url
      ensures sort == Some(s)
      ensures url == QueryParams(View())
    {
      sort := Some(s);
      UpdateUrl();
    }

    /** After the orders have loaded: a non-empty `search` parameter becomes the filter. */
    method RestoreFilterFromUrl(params: Query)
      modifies this`filter
      ensures filter == RestoreFilter(params, old(filter))
    {
      var searchParam := if SearchKey in params then params[SearchKey] else "";
      if searchParam != "" {
        filter := Lower(Trim(searchParam));
      }
    }

    /** Once the paginator exists: `page` and `pageSize` are parsed into it, each when present. */
    method RestorePageFromUrl(params: Query)
      modifies this`paginator
      ensures paginator == RestorePage(params, old(paginator))
    {
      if paginator.Some? && PageKey in params {
        paginator := Some(paginator.value.(pageIndex := ParseInt(params[PageKey])));
      }
      if paginator.Some? && PageSizeKey in params {
        paginator := Some(paginator.value.(pageSize := ParseInt(params[PageSizeKey])));
      }
    }

    /**
     * Once the sort header exists: both sort parameters, when non-empty, become
     * the sort. Setting it emits a sort change, whose handler rewrites the URL.
     */
    method RestoreSortFromUrl(params: Query)
      modifies this`sort, this`url
      ensures sort == RestoreSort(params, old(sort))
      ensures url == if RestoresSort(params, old(sort)) then QueryParams(View()) else old(url)
    {
      var sortActive := if SortActiveKey in params then params[SortActiveKey] else "";
      var sortDirection := if SortDirectionKey in params then params[SortDirectionKey] else "";
      if sort.Some? && sortActive != "" && sortDirection != "" {
        OnSortChange(SortState(sortActive, sortDirection));
      }
    }

    /** After the orders have loaded and the widgets are attached: filter, page and sort from `params`. */
    method RestoreFromUrl(params: Query)
      modifies this`filter, this`paginator, this`sort, this`url
      ensures filter == RestoreFilter(params, old(filter))
      ensures paginator == RestorePage(params, old(paginator))
      ensures sort == RestoreSort(params, old(sort))
      ensures url == if RestoresSort(params, old(sort)) then QueryParams(View()) else old(url)
    {
      RestoreFilterFromUrl(params);
      RestorePageFromUrl(params);
      RestoreSortFromUrl(params);
    }

    /** `toggleColumn`: flip the first column with that id and recompute the displayed ids. */
    method ToggleColumn(columnId: string)
      requires Valid()
      modifies this`displayedColumns, allColumns
      ensures Valid()
      ensures allColumns[..] == Flipped(old(allColumns[..]), columnId)
      ensures FindColumn(old(allColumns[..]), columnId).None? ==> displayedColumns == old(displayedColumns)
    {
      var found := FindColumn(allColumns[..], columnId);
      if found.Some? {
        var k := found.value;
        allColumns[k] := allColumns[k].(visible := !allColumns[k].visible);
        displayedColumns := VisibleIds(allColumns[..]);
      }
    }

    /** `selectOrder`: toggle the detail panel for `order`. */
    method SelectOrder(order: OrderRef)
      modifies this`selectedOrder
      ensures selectedOrder == Toggle(old(selectedOrder), order)
      ensures selectedOrder == None <==> old(selectedOrder) == Some(order)
    {
      if selectedOrder == Some(order) {
        selectedOrder := None;
      } else {
        selectedOrder := Some(order);
      }
    }

    /** `closeDetails`: no order is selected afterwards. */
    method CloseDetails()
      modifies this`selectedOrder
      ensures selectedOrder == None
    {
      selectedOrder := None;
    }
  }

  /**
   * Opening the URL of `v` in a new table: the query-parameter subscription
   * fills the search box, the view creates its widgets, and once the orders
   * have loaded the filter, page and sort are read back. The table then shows
   * `v` as the URL keeps it, filtered as typing the search did.
   */
  method Reload(v: ViewState) returns (w: ViewState, filter: string)
    requires v.paginator.Some? && v.sort.Some?
    ensures w == Canonical(v)
    ensures filter == Normalize(v.search)
  {
    var params := QueryParams(v);
    var table := new OrdersTableComponent(params);
    table.OnQueryParams(params);
    table.AttachWidgets();
    assert table.View() == ViewState(RestoreSearch(params, ""), Some(InitialPage()), Some(InitialSort()));
    table.RestoreFromUrl(params);
    w := table.View();
    filter := table.filter;
    assert w == Restore(params, Initial());
    RoundTrip(v);
    FilterRoundTrip(v);
  }
}
