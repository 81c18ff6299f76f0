/**
 * The view state the orders table mirrors into the URL query string
 * (`updateUrl`) and reads back when the page loads.
 */
module UrlState {
  import opened Wrappers
  import opened JsText
  import opened TableFilter

  /**
   * The five query parameters the table reads and writes. The query string is
   * modelled as a map from these keys to their text; other parameters are
   * never read, and `updateUrl` replaces the whole query string.
   */
  datatype QueryKey = SearchKey | PageKey | PageSizeKey | SortActiveKey | SortDirectionKey

  /** The parameter's name in the URL. */
  function KeyName(k: QueryKey): string
  {
    match k
    case SearchKey => "search"
    case PageKey => "page"
    case PageSizeKey => "pageSize"
    case SortActiveKey => "sortActive"
    case SortDirectionKey => "sortDirection"
  }

  /** Different keys have different names, so a query map over the keys is a map over their names. */
  lemma {:induction false} KeyNameInjective(k: QueryKey, l: QueryKey)
    requires k != l
    ensures KeyName(k) != KeyName(l)
  {
    assert KeyName(SearchKey)[0] == 's' && KeyName(SearchKey)[1] == 'e';
    assert KeyName(PageKey)[0] == 'p' && |KeyName(PageKey)| == 4;
    assert KeyName(PageSizeKey)[0] == 'p' && |KeyName(PageSizeKey)| == 8;
    assert KeyName(SortActiveKey)[0] == 's' && KeyName(SortActiveKey)[4] == 'A';
    assert KeyName(SortDirectionKey)[0] == 's' && KeyName(SortDirectionKey)[4] == 'D';
  }

  type Query = map<QueryKey, string>

  const DefaultPageIndex := 0
  const DefaultPageSize := 25

  /** The paginator widget's position; `parseInt` can leave NaN in either field. */
  datatype Page = Page(pageIndex: JsNum, pageSize: JsNum)

  /**
   * The sort widget's state. `""` stands for both the unset column and the
   * empty direction; the direction is whatever string was assigned to it.
   */
  datatype SortState = SortState(active: string, direction: string)

  /**
   * The state `updateUrl` reads: the search box text and the two widgets,
   * which are absent until the view has created them.
   */
  datatype ViewState = ViewState(search: string, paginator: Option<Page>, sort: Option<SortState>)

  function InitialPage(): Page
  {
    Page(Int(DefaultPageIndex), Int(DefaultPageSize))
  }

  function InitialSort(): SortState
  {
    SortState("", "")
  }

  /** A freshly created table whose widgets exist: empty search, first page, 25 rows, no sort. */
  function Initial(): ViewState
  {
    ViewState("", Some(InitialPage()), Some(InitialSort()))
  }

  /** The truthiness test `sort.active && sort.direction`. */
  predicate SortIsActive(s: SortState)
  {
    s.active != "" && s.direction != ""
  }

  // ---------------------------------------------------------------------
  // Projection (updateUrl)

  /** `search`, trimmed, unless it is empty after trimming. */
  function SearchParams(search: string): (r: Query)
    ensures SearchKey in r <==> Trim(search) != ""
    ensures SearchKey in r ==> r[SearchKey] == Trim(search)
  {
    var m: Query := map[];
    var t := Trim(search);
    if t != "" then m[SearchKey := t] else m
  }

  /** Adds `page` unless the paginator is absent or on the first page, `pageSize` unless it shows 25 rows. */
  function AddPageParams(m: Query, p: Option<Page>): (r: Query)
    requires PageKey !in m && PageSizeKey !in m
    ensures r.Keys <= m.Keys + {PageKey, PageSizeKey}
    ensures forall k :: k in m ==> k in r && r[k] == m[k]
    ensures PageKey in r <==> p.Some? && p.value.pageIndex != Int(DefaultPageIndex)
    ensures PageKey in r ==> r[PageKey] == ShowNum(p.value.pageIndex)
    ensures PageSizeKey in r <==> p.Some? && p.value.pageSize != Int(DefaultPageSize)
    ensures PageSizeKey in r ==> r[PageSizeKey] == ShowNum(p.value.pageSize)
  {
    match p
    case None => m
    case Some(pg) =>
      var withIndex := if pg.pageIndex != Int(DefaultPageIndex) then m[PageKey := ShowNum(pg.pageIndex)] else m;
      if pg.pageSize != Int(DefaultPageSize) then withIndex[PageSizeKey := ShowNum(pg.pageSize)] else withIndex
  }

  /** Adds `sortActive` and `sortDirection` together, when the sort is active. */
  function AddSortParams(m: Query, s: Option<SortState>): (r: Query)
    requires SortActiveKey !in m && SortDirectionKey !in m
    ensures r.Keys <= m.Keys + {SortActiveKey, SortDirectionKey}
    ensures forall k :: k in m ==> k in r && r[k] == m[k]
    ensures SortActiveKey in r <==> SortDirectionKey in r
    ensures SortActiveKey in r <==> s.Some? && SortIsActive(s.value)
    ensures SortActiveKey in r ==> r[SortActiveKey] == s.value.active && r[SortDirectionKey] == s.value.direction
  {
    if s.Some? && SortIsActive(s.value) then
      m[SortActiveKey := s.value.active][SortDirectionKey := s.value.direction]
    else m
  }

  /** The query parameters `updateUrl` navigates to. */
  function QueryParams(v: ViewState): Query
  {
    AddSortParams(AddPageParams(SearchParams(v.search), v.paginator), v.sort)
  }

  /**
   * What the URL says about a state: every parameter is left out when its
   * value is the default, and the two sort keys travel together.
   */
  lemma QueryParamsSpec(v: ViewState)
    ensures var r := QueryParams(v);
      && (SearchKey in r <==> Trim(v.search) != "")
      && (SearchKey in r ==> r[SearchKey] == Trim(v.search))
      && (PageKey in r <==> v.paginator.Some? && v.paginator.value.pageIndex != Int(DefaultPageIndex))
      && (PageKey in r ==> r[PageKey] == ShowNum(v.paginator.value.pageIndex))
      && (PageSizeKey in r <==> v.paginator.Some? && v.paginator.value.pageSize != Int(DefaultPageSize))
      && (PageSizeKey in r ==> r[PageSizeKey] == ShowNum(v.paginator.value.pageSize))
      && (SortActiveKey in r <==> SortDirectionKey in r)
      && (SortActiveKey in r <==> v.sort.Some? && SortIsActive(v.sort.value))
      && (SortActiveKey in r ==> r[SortActiveKey] == v.sort.value.active && r[SortDirectionKey] == v.sort.value.direction)
  {
  }

  /** The defaults, and only they, give an empty query string. */
  predicate AtDefaults(v: ViewState)
  {
    && Trim(v.search) == ""
    && (v.paginator.None? || v.paginator.value == InitialPage())
    && (v.sort.None? || !SortIsActive(v.sort.value))
  }

  lemma {:induction false} EmptyQueryIffDefaults(v: ViewState)
    ensures QueryParams(v) == map[] <==> AtDefaults(v)
  {
    QueryParamsSpec(v);
    var r := QueryParams(v);
    if r != map[] {
      var k :| k in r;
    }
  }

  // ---------------------------------------------------------------------
  // Restoration (the load path)

  /** The query-parameter subscription: a non-empty `search` replaces the search box text. */
  function RestoreSearch(params: Query, search: string): string
  {
    if SearchKey in params && params[SearchKey] != "" then params[SearchKey] else search
  }

  /** After loading, a non-empty `search` parameter sets the filter, normalised as `applyFilter` does. */
  function RestoreFilter(params: Query, filter: string): string
  {
    if SearchKey in params && params[SearchKey] != "" then Normalize(params[SearchKey]) else filter
  }

  /** `page` and `pageSize`, when present, go through `parseInt` into the paginator, if there is one. */
  function RestorePage(params: Query, p: Option<Page>): Option<Page>
  {
    match p
    case None => None
    case Some(pg) =>
      Some(Page(
        if PageKey in params then ParseInt(params[PageKey]) else pg.pageIndex,
        if PageSizeKey in params then ParseInt(params[PageSizeKey]) else pg.pageSize))
  }

  /** The sort is set only when the widget exists and both sort parameters are non-empty. */
  predicate RestoresSort(params: Query, s: Option<SortState>)
  {
    && s.Some?
    && SortActiveKey in params && params[SortActiveKey] != ""
    && SortDirectionKey in params && params[SortDirectionKey] != ""
  }

  function RestoreSort(params: Query, s: Option<SortState>): Option<SortState>
  {
    if RestoresSort(params, s) then Some(SortState(params[SortActiveKey], params[SortDirectionKey])) else s
  }

  /** The view state after the load path has read `params` into `v`. */
  function Restore(params: Query, v: ViewState): ViewState
  {
    ViewState(RestoreSearch(params, v.search), RestorePage(params, v.paginator), RestoreSort(params, v.sort))
  }

  /** A URL without parameters leaves the state as it is. */
  lemma RestoreEmpty(v: ViewState)
    ensures Restore(map[], v) == v
  {
  }

  /**
   * What a round trip through the URL keeps of a state: the search text
   * trimmed, the paginator as it is, and a sort only when it is active.
   */
  function Canonical(v: ViewState): ViewState
  {
    ViewState(
      Trim(v.search),
      v.paginator,
      match v.sort
      case None => None
      case Some(s) => Some(if SortIsActive(s) then s else InitialSort()))
  }

  /** Canonical states: nothing is lost on the way through the URL. */
  predicate IsCanonical(v: ViewState)
  {
    && IsTrimmed(v.search)
    && v.paginator.Some? && v.sort.Some?
    && (SortIsActive(v.sort.value) || v.sort.value == InitialSort())
  }

  /**
   * Reloading: a fresh table restored from the URL of `v` shows `v` up to
   * trimming of the search text and dropping an inactive sort.
   */
  lemma {:induction false} RoundTrip(v: ViewState)
    requires v.paginator.Some? && v.sort.Some?
    ensures Restore(QueryParams(v), Initial()) == Canonical(v)
  {
    QueryParamsSpec(v);
    var params := QueryParams(v);
    var w := Restore(params, Initial());
    assert w.search == Trim(v.search);
    var pg := v.paginator.value;
    ParseShowRoundTrip(pg.pageIndex);
    ParseShowRoundTrip(pg.pageSize);
    if PageKey !in params {
      assert pg.pageIndex == Int(DefaultPageIndex);
    }
    if PageSizeKey !in params {
      assert pg.pageSize == Int(DefaultPageSize);
    }
    assert w.paginator == v.paginator;
  }

  /** For canonical states the round trip is exact. */
  lemma {:induction false} RoundTripCanonical(v: ViewState)
    requires IsCanonical(v)
    ensures Restore(QueryParams(v), Initial()) == v
  {
    RoundTrip(v);
    TrimOfTrimmed(v.search);
  }

  lemma {:induction false} SearchParamsOfTrimmed(search: string)
    ensures SearchParams(Trim(search)) == SearchParams(search)
  {
    TrimIdempotent(search);
  }

  lemma SortParamsOfCanonical(m: Query, s: SortState)
    requires SortActiveKey !in m && SortDirectionKey !in m
    ensures AddSortParams(m, Some(if SortIsActive(s) then s else InitialSort())) == AddSortParams(m, Some(s))
  {
  }

  /** Reloading does not change the URL. */
  lemma {:induction false} UrlStable(v: ViewState)
    requires v.paginator.Some? && v.sort.Some?
    ensures QueryParams(Restore(QueryParams(v), Initial())) == QueryParams(v)
  {
    RoundTrip(v);
    SearchParamsOfTrimmed(v.search);
    var withPage := AddPageParams(SearchParams(v.search), v.paginator);
    SortParamsOfCanonical(withPage, v.sort.value);
  }

  /** Reloading filters the table exactly as typing the search text did. */
  lemma {:induction false} FilterRoundTrip(v: ViewState)
    ensures RestoreFilter(QueryParams(v), "") == Normalize(v.search)
  {
    QueryParamsSpec(v);
    NormalizeOfTrimmed(v.search);
  }

  /** The reload example: search "lift", page 2, 50 rows, sorted by id ascending. */
  function ExampleView(): ViewState
  {
    ViewState("lift", Some(Page(Int(2), Int(50))), Some(SortState("id", "asc")))
  }

  lemma ReloadExample(v: ViewState)
    requires v == ExampleView()
    ensures Restore(QueryParams(v), Initial()) == v
  {
    ExampleIsCanonical(v);
    RoundTripCanonical(v);
  }

  /** The example state loses nothing on the way, and all five parameters appear in its URL. */
  lemma ExampleIsCanonical(v: ViewState)
    requires v == ExampleView()
    ensures IsCanonical(v)
    ensures var r := QueryParams(v); SearchKey in r && PageKey in r && PageSizeKey in r && SortActiveKey in r && SortDirectionKey in r
  {
    assert IsTrimmed(v.search);
    TrimOfTrimmed(v.search);
    QueryParamsSpec(v);
  }
}
