# Orders table of the mini fleet manager

A model of the orders table of the mini fleet manager, written in Dafny. The
table lists dispatch orders. Its view state lives in the URL: the search text,
the page index and page size, the sort column and the sort direction. It
also has a column-visibility menu, a detail panel with toggle selection, and
two display helpers: the duration in minutes and the status badge class.

The project has these files:

- `wrappers.dfy`: the `Option` type.
- `orders.dfy`: the `Order` record, with status and priority as enumerations.
- `js_text.dfy`: the JavaScript library behaviour the component relies on.
  This covers `trim` with the ECMAScript whitespace set, `toLowerCase`,
  `String(n)` for integers, and `parseInt(s, 10)`. That last one skips
  leading whitespace, takes an optional sign and the longest digit run, and
  yields NaN when there is no digit.
- `table_filter.dfy`: the filter string `applyFilter` stores.
- `url_state.dfy`: the projection of the view state into query parameters
  (`updateUrl`) and the load path that reads them back. The file proves the
  default-omission rules and the round trip.
- `columns.dfy`: the column table and its specification functions.
- `selection.dfy`: the zero-or-one selection of the detail panel.
- `order_display.dfy`: `getDuration` and `getStatusColor`.
- `orders_table.dfy`: the component as a class. Its fields are the state the
  handlers assign, and `allColumns` is an array updated in place. Each
  handler is a method whose postcondition ties the new state to the functions
  above. `Reload` composes the load path on a fresh component.

Numbers that `parseInt` produces are `NaN | Int(i)`. The component assigns
the result of `parseInt` to the paginator without a fallback. In the model
the widget's setters are plain stores, so the paginator can hold NaN or a
negative number. NaN is written to the URL as `NaN`, which `parseInt` reads
back as NaN. So, in the model, the round trip holds for every page index and
size. The real paginator widget clamps NaN and negative values to 0 when
they are assigned (see "## Left out").

## Model

| member | source | states |
|---|---|---|
| JsText.Trim | src/app/components/orders-table/orders-table.ts:194 | the result of `trim` neither starts nor ends with whitespace |
| JsText.TrimStartSpec | src/app/components/orders-table/orders-table.ts:194 | `trim` drops only a leading run of whitespace and stops at the first other character |
| JsText.TrimEndSpec | src/app/components/orders-table/orders-table.ts:194 | `trim` drops only a trailing run of whitespace and stops at the last other character |
| JsText.TrimEmptyIff | src/app/components/orders-table/orders-table.ts:194-195 | the trimmed search text is empty (falsy) exactly when the text is whitespace only |
| JsText.TrimOfTrimmed | src/app/components/orders-table/orders-table.ts:194 | trimming a string with no whitespace at either end returns it unchanged |
| JsText.TrimIdempotent | src/app/components/orders-table/orders-table.ts:194 | trimming twice equals trimming once |
| JsText.LowerChar | src/app/components/orders-table/orders-table.ts:184 | an upper-case letter becomes the lower-case letter whose upper case it is; every other character is kept |
| JsText.UpperChar | src/app/components/orders-table/orders-table.ts:184 | the independent reference for case pairs: a lower-case letter becomes upper case, other characters are kept |
| JsText.CasePairs | src/app/components/orders-table/orders-table.ts:184 | lower-casing and upper-casing are inverse on the letters they change |
| JsText.Lower | src/app/components/orders-table/orders-table.ts:184 | `toLowerCase` keeps the length; LowerSpec states what each character becomes |
| JsText.LowerSpec | src/app/components/orders-table/orders-table.ts:184 | `toLowerCase` turns each upper-case letter into its own lower-case letter, keeps whitespace positions and changes no other character |
| JsText.LowerKeepsTrimmed | src/app/components/orders-table/orders-table.ts:184 | lower-casing a trimmed string leaves it trimmed |
| JsText.LowerIdempotent | src/app/components/orders-table/orders-table.ts:184 | lower-casing twice equals lower-casing once |
| JsText.ShowNat | src/app/components/orders-table/orders-table.ts:203 | the decimal text of a number is a non-empty run of digits with no leading zero, and `0` is written `0` |
| JsText.ShowInt | src/app/components/orders-table/orders-table.ts:203 | the text of an integer starts with a minus sign exactly when it is negative, otherwise with a digit |
| JsText.ShowNum | src/app/components/orders-table/orders-table.ts:203-207 | the router writes `NaN` for NaN and never for an integer |
| JsText.ParseInt | src/app/components/orders-table/orders-table.ts:124-128 | `parseInt` yields an integer only when the text holds a digit |
| JsText.ParseSigned | src/app/components/orders-table/orders-table.ts:125 | after the whitespace, an integer result needs a digit after the optional sign |
| JsText.ParseDigits | src/app/components/orders-table/orders-table.ts:125 | an integer is read only from text that starts with a digit |
| JsText.SuffixDigit | src/app/components/orders-table/orders-table.ts:125 | a digit after the skipped whitespace is a digit of the text |
| JsText.DigitPrefix | src/app/components/orders-table/orders-table.ts:125 | `parseInt` reads the longest run of leading digits, and the character after it is not a digit |
| JsText.ShowNatValue | src/app/components/orders-table/orders-table.ts:203 | the digits written for `n` have the value `n` |
| JsText.ZeroValueDigits | src/app/components/orders-table/orders-table.ts:203 | digits whose value is zero are all zeros |
| JsText.ShowNatUnique | src/app/components/orders-table/orders-table.ts:203 | the only digit text without leading zeros that has the value `n` is the one written for `n` |
| JsText.DigitPrefixOfDigits | src/app/components/orders-table/orders-table.ts:125 | a digit run followed by a non-digit is read up to that non-digit |
| JsText.ShowNatParses | src/app/components/orders-table/orders-table.ts:125 | the digits of `n` read back as `n` |
| JsText.StartsWithoutWhitespace | src/app/components/orders-table/orders-table.ts:125 | text starting with a digit or a minus sign has no whitespace for `parseInt` to skip |
| JsText.ShowNegativeParses | src/app/components/orders-table/orders-table.ts:125 | `parseInt` reads a minus sign followed by the digits of `n` as `-n` |
| JsText.ShowNonNegativeParses | src/app/components/orders-table/orders-table.ts:125 | `parseInt` reads the text of a non-negative integer back as that integer |
| JsText.ShowIntParses | src/app/components/orders-table/orders-table.ts:125 | `parseInt(String(i)) == i` for every integer |
| JsText.ParseShowRoundTrip | src/app/components/orders-table/orders-table.ts:124-128 | `parseInt` reads back every page number `updateUrl` writes, NaN included |
| JsText.ParseIntIgnoresTail | src/app/components/orders-table/orders-table.ts:125 | `parseInt` ignores what follows the digits (`"2abc"` reads as 2) |
| JsText.ParseIntNoDigits | src/app/components/orders-table/orders-table.ts:125 | without a sign or digit at the start, `parseInt` yields NaN |
| JsText.TrimStartSkipsWhitespace | src/app/components/orders-table/orders-table.ts:125 | leading whitespace is skipped entirely |
| JsText.ParseIntSkipsWhitespace | src/app/components/orders-table/orders-table.ts:125 | leading whitespace does not change what `parseInt` reads |
| TableFilter.Normalize | src/app/components/orders-table/orders-table.ts:183-185 | the filter neither starts nor ends with whitespace and has no upper-case letter |
| TableFilter.NormalizeIdempotent | src/app/components/orders-table/orders-table.ts:183-185 | normalising a filter twice equals normalising once |
| TableFilter.NormalizeOfTrimmed | src/app/components/orders-table/orders-table.ts:112-113 | restoring from the trimmed URL text gives the same filter as the untrimmed text |
| TableFilter.BlankClearsFilter | src/app/components/orders-table/orders-table.ts:183-185 | the filter is empty exactly when the input is whitespace only |
| TableFilter.NormalizeExample | src/app/components/orders-table/orders-table.ts:183-185 | typing `  LIFT ` gives the filter `lift` |
| Columns.FindColumn | src/app/components/orders-table/orders-table.ts:230 | `find` returns the first column with the id, or nothing when no column has it |
| Columns.Flipped | src/app/components/orders-table/orders-table.ts:229-232 | after a toggle only the matching column's `visible` differs, and ids and labels are unchanged |
| Columns.VisibleIds | src/app/components/orders-table/orders-table.ts:234-236 | the displayed ids are exactly the ids of visible columns, no more entries than columns |
| Columns.VisibleIdsAppend | src/app/components/orders-table/orders-table.ts:234-236 | the displayed ids follow the order of `allColumns` |
| Columns.DefaultsConsistent | src/app/components/orders-table/orders-table.ts:56-68 | the initial `displayedColumns` lists the ids of the nine initial columns in order |
| Columns.FindColumnSameIds | src/app/components/orders-table/orders-table.ts:230 | whether and where a column is found depends only on the ids |
| Columns.FlipUnknown | src/app/components/orders-table/orders-table.ts:229-231 | toggling an unknown id changes no column |
| Columns.FlipTwice | src/app/components/orders-table/orders-table.ts:229-232 | toggling the same id twice restores the original columns |
| Selection.Toggle | src/app/components/orders-table/orders-table.ts:282-289 | the selection becomes empty exactly when the clicked order was selected, otherwise it is the clicked order |
| Selection.ToggleTwice | src/app/components/orders-table/orders-table.ts:282-289 | clicking an order twice restores the selection exactly when it was empty or that order |
| Selection.SelectThenSelectOther | src/app/components/orders-table/orders-table.ts:282-289 | selecting A and then a different B leaves B selected |
| OrderDisplay.Duration | src/app/components/orders-table/orders-table.ts:247-260 | a truthy `durationMinutes` is returned as is, otherwise an ETA gives the minutes from creation to ETA, otherwise null |
| OrderDisplay.ZeroDurationFallsThrough | src/app/components/orders-table/orders-table.ts:249 | a `durationMinutes` of 0 is treated like a missing one |
| OrderDisplay.DurationExample | src/app/components/orders-table/orders-table.ts:254-255 | creation at 10:00 and ETA at 10:45 give 45 minutes |
| OrderDisplay.StatusColor | src/app/components/orders-table/orders-table.ts:267-275 | the class is empty exactly for strings that are not a status name, and is always one of the four badge classes or empty |
| OrderDisplay.Dashed | src/app/components/orders-table/orders-table.ts:270 | the CSS spelling of a status name replaces each underscore by a dash and keeps every other character |
| OrderDisplay.StatusColorOfName | src/app/components/orders-table/orders-table.ts:268-272 | each status gets the class `status-` followed by its own name with dashes, so no two statuses swap classes |
| OrderDisplay.NotAStatusName | src/app/services/orders.ts:7 | the four status names are the only status strings |
| OrderDisplay.StatusColorsDistinct | src/app/components/orders-table/orders-table.ts:268-272 | every status has a non-empty class of its own |
| Orders.StatusName | src/app/services/orders.ts:7 | the string the payload carries for each of the four statuses |
| Orders.StatusNameInjective | src/app/services/orders.ts:7 | different statuses have different names |
| UrlState.SearchParams | src/app/components/orders-table/orders-table.ts:194-197 | `search` is present exactly when the trimmed text is non-empty, and its value is the trimmed text |
| UrlState.AddPageParams | src/app/components/orders-table/orders-table.ts:200-209 | `page` is present iff a paginator exists with index not 0, `pageSize` iff its size is not 25, each with the number's text; earlier entries are kept |
| UrlState.AddSortParams | src/app/components/orders-table/orders-table.ts:211-215 | the two sort keys are both present or both absent, present exactly when the sort column and direction are non-empty |
| UrlState.QueryParamsSpec | src/app/components/orders-table/orders-table.ts:190-215 | the whole query map: each key's presence condition and value, with both sort keys together |
| UrlState.QueryParams | src/app/components/orders-table/orders-table.ts:190-215 | `updateUrl`'s query map, built as search, then page, then sort entries; QueryParamsSpec states each key's condition and value |
| UrlState.EmptyQueryIffDefaults | src/app/components/orders-table/orders-table.ts:191-215 | the URL has no parameters exactly when the state is at its defaults |
| UrlState.KeyNameInjective | src/app/components/orders-table/orders-table.ts:196-214 | the five parameter names `updateUrl` writes are distinct, so the keyed map stands for the map over parameter names |
| UrlState.RestoreSearch | src/app/components/orders-table/orders-table.ts:89-93 | a non-empty `search` parameter replaces the search box text |
| UrlState.RestoreFilter | src/app/components/orders-table/orders-table.ts:111-114 | a non-empty `search` parameter sets the filter to its normalised text |
| UrlState.RestorePage | src/app/components/orders-table/orders-table.ts:121-129 | each present page parameter is parsed with `parseInt` into an existing paginator |
| UrlState.RestoresSort | src/app/components/orders-table/orders-table.ts:135 | the sort is restored only when the widget exists and both sort parameters are non-empty |
| UrlState.RestoreSort | src/app/components/orders-table/orders-table.ts:132-139 | when restored, the sort becomes the column and direction from the URL, otherwise it is kept |
| UrlState.Restore | src/app/components/orders-table/orders-table.ts:89-139 | the view state after the load path: search text, paginator and sort, each restored as above |
| UrlState.RestoreEmpty | src/app/components/orders-table/orders-table.ts:121-139 | a URL without parameters leaves the state unchanged |
| UrlState.RoundTrip | src/app/components/orders-table/orders-table.ts:121-139 | restoring a fresh table from the URL of a state gives that state with the search trimmed and an inactive sort dropped |
| UrlState.RoundTripCanonical | src/app/components/orders-table/orders-table.ts:121-139 | for a state with trimmed search and an active or unset sort, restoring reproduces it exactly |
| UrlState.SearchParamsOfTrimmed | src/app/components/orders-table/orders-table.ts:194-197 | the URL of trimmed search text equals that of the text itself |
| UrlState.SortParamsOfCanonical | src/app/components/orders-table/orders-table.ts:212-215 | an inactive sort writes the same URL as no sort |
| UrlState.UrlStable | src/app/components/orders-table/orders-table.ts:190-224 | after a reload the table writes the same URL it was loaded from |
| UrlState.FilterRoundTrip | src/app/components/orders-table/orders-table.ts:111-114 | the filter restored from the URL equals the filter typing the search text produced |
| UrlState.ReloadExample | src/app/components/orders-table/orders-table.ts:121-139 | the state with search `lift`, page 2, size 50 and sort by `id` ascending survives a reload exactly |
| UrlState.ExampleIsCanonical | src/app/components/orders-table/orders-table.ts:190-215 | that state writes all five parameters and loses nothing |
| OrdersTable.OrdersTableComponent.constructor | src/app/components/orders-table/orders-table.ts:56-79 | the table starts with the nine visible columns, empty search and filter, no widgets and no selection |
| OrdersTable.OrdersTableComponent.OnQueryParams | src/app/components/orders-table/orders-table.ts:89-93 | a non-empty `search` parameter replaces the search box text, otherwise the text is kept |
| OrdersTable.OrdersTableComponent.ApplyFilter | src/app/components/orders-table/orders-table.ts:183-185 | the filter becomes the normalised input and is empty for whitespace-only input |
| OrdersTable.OrdersTableComponent.UpdateUrl | src/app/components/orders-table/orders-table.ts:190-224 | the URL becomes the query map of the current search text, paginator and sort |
| OrdersTable.OrdersTableComponent.OnSearchValue | src/app/components/orders-table/orders-table.ts:96-102 | a new search value sets the filter and then the URL from the new state |
| OrdersTable.OrdersTableComponent.AttachWidgets | src/app/components/orders-table/orders-table.ts:78-79 | the paginator and sort header appear at page 0, 25 rows and no sort |
| OrdersTable.OrdersTableComponent.OnPageChange | src/app/components/orders-table/orders-table.ts:164-166 | a page event leaves the paginator at the new page and rewrites the URL |
| OrdersTable.OrdersTableComponent.OnSortChange | src/app/components/orders-table/orders-table.ts:173-175 | a sort change leaves the sort at its new value and rewrites the URL |
| OrdersTable.OrdersTableComponent.RestoreFilterFromUrl | src/app/components/orders-table/orders-table.ts:111-114 | a non-empty `search` parameter sets the filter to its normalised text |
| OrdersTable.OrdersTableComponent.RestorePageFromUrl | src/app/components/orders-table/orders-table.ts:121-129 | each present page parameter is parsed into the paginator, if one exists |
| OrdersTable.OrdersTableComponent.RestoreSortFromUrl | src/app/components/orders-table/orders-table.ts:132-139 | both non-empty sort parameters set the sort, and the emitted change rewrites the URL |
| OrdersTable.OrdersTableComponent.RestoreFromUrl | src/app/components/orders-table/orders-table.ts:110-139 | the load path sets filter, paginator and sort as the restore functions say, and the URL only when the sort was set |
| OrdersTable.OrdersTableComponent.ToggleColumn | src/app/components/orders-table/orders-table.ts:229-238 | `allColumns` becomes the flipped columns, `displayedColumns` stays equal to their visible ids, and an unknown id changes nothing |
| OrdersTable.OrdersTableComponent.SelectOrder | src/app/components/orders-table/orders-table.ts:282-289 | the selection toggles: cleared when the order was selected, otherwise that order |
| OrdersTable.OrdersTableComponent.CloseDetails | src/app/components/orders-table/orders-table.ts:294-296 | no order is selected afterwards |
| OrdersTable.Reload | src/app/components/orders-table/orders-table.ts:87-139 | a fresh table opened on the URL of a state shows that state up to trimming and an inactive sort, filtered as typing the search did |

## Left out

- Loading orders over HTTP and the host-based endpoint choice (`src/app/services/orders.ts`, lines 21-36) are network and browser I/O. Only the `Order` record is modelled.
- The error and loading signals set by the load subscription are not modelled.
- The 300 ms debounce and `distinctUntilChanged` on the search box are timing operators on an event stream. `OnSearchValue` models one value that gets through.
- The query-parameter subscription fires again after each navigation. The model treats each firing as one call to `OnQueryParams` and does not schedule them.
- Filtering, sorting and slicing of rows happen inside `MatTableDataSource`, which is not part of this model. The model keeps the filter string and the widget state the component hands over.
- `MatPaginator` and `MatSort` setters are library code and are not modelled. Assignments to them are plain stores, as the component's own code reads. The real paginator clamps NaN and negative page values to 0, which the model does not capture, so the round trip for such values holds in the model only.
- The sort direction is kept as the string the URL carried, because the component casts it without checking.
- The Angular lifecycle is not modelled: `ngOnInit`, `ngAfterViewInit`, `setTimeout`, `@ViewChild`, signals, `router.navigate` with `replaceUrl`, and animations. `AttachWidgets` stands for the view having created the paginator and sort header. `Reload` fixes one order of events.
- The query string is a map from the five keys the table uses to their text. Other parameters are never read and are dropped when `updateUrl` replaces the URL. Percent-encoding and repeated keys are not modelled.
- The initial page size 25 comes from the comparison in `updateUrl`. The template that configures the paginator is not part of this model.
- `new Date(...)` parsing is left out. Timestamps are integer milliseconds, already parsed.
- OrderDisplay.Duration: does not model an empty `createdAt` string or an unparseable date (NaN), because timestamps are taken as parsed numbers. The minutes are an exact `real`, not a rounded IEEE double.
- JsText.Lower: maps ASCII and Latin-1 upper-case letters only. Full Unicode case mapping, which can change a string's length, is not modelled.
- JsText.ShowNat: writes every integer in plain decimal. JavaScript switches to exponent notation from `1e21` and loses precision above 2^53.
- A `null` search box value (the `value || ''` and `value?.trim()` guards) is not modelled. The search text is always a string.
- The end-to-end tests and the root component hold no logic of the table.
