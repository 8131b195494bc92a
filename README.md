# Earthquake dashboard: the client-side data pipeline in Dafny

This project models the data pipeline of a browser dashboard for the USGS "all earthquakes,
past month" CSV feed:

- the rows kept after parsing;
- the search filter behind the table, and its copy in the web worker;
- the table's pages of fifty rows, its reset to page 1 and its page-button window;
- the chart's stride downsampling, which pins the selected and hovered records;
- the projection of records onto the two chosen chart axes;
- the worker's statistics and its message dispatch;
- the two shared state containers: the selection (selected and hovered record ids) and the
  store (search box text and the table's latest filtered rows).

One Dafny module per source file:

| module | source |
|---|---|
| `Types` | `src/types/earthquake.ts` |
| `DataLoader` | `src/utils/dataLoader.ts` |
| `EarthquakeTable` | `src/components/Table/EarthquakeTable.tsx` |
| `EarthquakeChart` | `src/components/Chart/EarthquakeChart.tsx` |
| `DataWorker` | `public/dataWorker.js` |
| `EarthquakeContext` | `src/context/EarthquakeContext.tsx` |
| `EarthquakeStore` | `src/store/earthquakeStore.ts` |

Four helper modules support them:

- `Wrappers` holds `Option` and `Result`.
- `Seqs` holds `filter`, `map` and `slice` as `Keep`, `Map` and `Slice`, with a subsequence predicate and lemmas about them.
- `Text` holds `trim`, `toLowerCase` and `includes`.
- `Sampling` holds the stride loop that the chart and the worker share.

How things are represented:

- Numeric CSV cells are `Value = Num(real) | Null | Undefined`. The code tests for `null` in
  some places and for both `null` and `undefined` in others, and this type keeps that difference visible.
- Magnitudes and depths are reals.
- Lower-casing and `Number.prototype.toString` are the two functions of a `TextOps` value.
  Every filter lemma holds for any choice of them.
- The selection and the store are classes whose setter methods overwrite one field each.
- The table's `currentPage` is the class `EarthquakeTable.Pager`.
- Each loop of the source is a method with loop invariants, proved against the
  function that specifies it:
  - `Sampling.TakeEvery` (the stride loop) against `Strided`;
  - `EarthquakeTable.RenderPagination` (the page-button loop) against `WindowStart`.
- `EarthquakeChart.SampleForChart` runs the chart's sampling steps in order, with the stride loop
  done by `TakeEvery`. It is proved equal to the function `SampledData`, and the chart's
  properties are proved about that function.
- `EarthquakeContext.ApplyWrites` calls the selection setters in a loop. It is proved against
  `Apply`, a function over a sequence of writes.

Behaviour of the code that the model keeps:

- Rows are kept when `mag !== null`. So a row whose magnitude is `undefined` (a short row) is
  kept.
- For a field with no values, the statistics give JavaScript's `NaN`, `-Infinity` and
  `Infinity`. The model names that case `NoValues`.
- The table goes back to page 1 when the debounced search term changes. It does not do so
  when the data alone changes.
- Pinning covers exactly two ids. The selected id is pinned when it is truthy. The hovered id
  is pinned only when it is truthy and differs from the selected id.
- The two copies of the filter differ. The table matches a magnitude through
  `mag?.toString()`. The worker guards that clause with the truthiness of `mag`, so in the
  worker a magnitude of exactly 0 never matches through its rendering.
  `DataWorker.WorkerAndTableMatches` states exactly where the two copies differ.
- The worker does not match replies to requests. It tags each reply with a completion
  type, and `useWebWorker` (`src/hooks/useWebWorker.ts:27-29`) hands every reply to its
  callback unfiltered. So there is no stale-response rule to model.

## Model

| member | source | states |
|---|---|---|
| `Text.BlankIffAllWhitespace` | src/components/Table/EarthquakeTable.tsx:34 | `!term.trim()` holds exactly when every character of the term is ECMAScript whitespace, the empty term included |
| `Sampling.CeilDiv` | src/components/Chart/EarthquakeChart.tsx:27 | `Math.ceil(n / d)` is the natural `c` with `n <= c*d < n + d` |
| `Sampling.CeilDivUnique` | src/components/Chart/EarthquakeChart.tsx:27 | that natural is unique |
| `Sampling.TakeEvery` | src/components/Chart/EarthquakeChart.tsx:32-34 | the `i += sampleRate` loop yields `data[0], data[s], data[2s], ...`, `ceil(n/s)` records in order |
| `Sampling.StridedWithinBudget` | public/dataWorker.js:60-66 | with stride `ceil(n/maxPoints)` and `n > maxPoints`, the strided run has at most `maxPoints` records |
| `Sampling.TenThousandRecords` | src/components/Chart/EarthquakeChart.tsx:27-34 | 10000 records and a 2000-point budget give stride 5 and exactly 2000 records |
| `DataLoader.TransformHeader` | src/utils/dataLoader.ts:16-43 | the header map returns every header unchanged, mapped or not |
| `DataLoader.RetainRows` | src/utils/dataLoader.ts:51 | a row is kept iff its id is non-empty and its magnitude is not `null`; the kept rows are an order-preserving subsequence |
| `DataLoader.RetainRowsBlockwise` | src/utils/dataLoader.ts:51 | retention is decided row by row: filtering `a + b` is filtering `a`, then `b` |
| `DataLoader.LoadEarthquakeData` | src/utils/dataLoader.ts:8-57 | the load fails iff fetching or parsing threw, with that exception; otherwise it returns `RetainRows` of the parsed rows, so exactly the retained rows in their order, whatever the parse errors |
| `DataLoader.ParseErrorsIgnored` | src/utils/dataLoader.ts:46-48 | parse errors never change what is loaded |
| `DataLoader.NumericColumns` | src/utils/dataLoader.ts:59-70 | ten options with distinct axes, magnitude first and depth second, covering every chart axis |
| `EarthquakeContext.SelectionContext.constructor` | src/context/EarthquakeContext.tsx:17 | the selection starts with both ids null |
| `EarthquakeContext.SelectionContext.SetSelectedId` | src/context/EarthquakeContext.tsx:19-21 | sets `selectedId` to any id or null; `hoveredId` is unchanged |
| `EarthquakeContext.SelectionContext.SetHoveredId` | src/context/EarthquakeContext.tsx:23-25 | sets `hoveredId` to any id or null; `selectedId` is unchanged |
| `EarthquakeContext.ApplyWrites` | src/context/EarthquakeContext.tsx:19-25 | calling the setters in any order leaves the context holding `Apply` of the writes to its old selection |
| `EarthquakeContext.ApplyAppend` | src/context/EarthquakeContext.tsx:19-25 | applying `u + v` is applying `u`, then `v` |
| `EarthquakeContext.LastSelectionWins` | src/context/EarthquakeContext.tsx:19-21 | after any sequence of setter calls, `selectedId` is the id of the last `setSelectedId`, or its old value if there was none |
| `EarthquakeContext.LastHoverWins` | src/context/EarthquakeContext.tsx:23-25 | after any sequence of setter calls, `hoveredId` is the id of the last `setHoveredId`, or its old value if there was none |
| `EarthquakeContext.SettersCommute` | src/context/EarthquakeContext.tsx:19-25 | swapping an adjacent `setSelectedId` and `setHoveredId` anywhere in a sequence of calls leaves the final selection unchanged |
| `EarthquakeContext.UseEarthquakeContext` | src/context/EarthquakeContext.tsx:34-40 | the hook fails, with its message, iff no provider is present; otherwise it returns the provider's context |
| `EarthquakeContext.EmphasisOf` | src/components/Chart/EarthquakeChart.tsx:76-77 | a record is shown as selected iff its id is the selected id, as hovered iff it is the hovered id and not the selected one |
| `EarthquakeContext.UnknownIdsEmphasiseNothing` | src/components/Table/EarthquakeTable.tsx:217-218 | ids that name no record emphasise no record |
| `EarthquakeStore.Store.constructor` | src/store/earthquakeStore.ts:11-15 | the store starts with no filtered rows and an empty search term |
| `EarthquakeStore.Store.SetFilteredData` | src/store/earthquakeStore.ts:13 | replaces `filteredData`; `searchTerm` is unchanged |
| `EarthquakeStore.Store.SetSearchTerm` | src/store/earthquakeStore.ts:15 | replaces `searchTerm`; `filteredData` is unchanged |
| `EarthquakeStore.SettersIdempotent` | src/store/earthquakeStore.ts:13-15 | writing the same values twice leaves the state of writing them once |
| `EarthquakeTable.FilteredData` | src/components/Table/EarthquakeTable.tsx:33-47 | an all-whitespace term keeps the data unchanged; otherwise a record is kept iff its lower-cased place or id, or its magnitude's rendering, contains the lower-cased term; the result is an order-preserving subsequence |
| `EarthquakeTable.FilteredDataBlockwise` | src/components/Table/EarthquakeTable.tsx:40-44 | the table's filter is decided record by record: filtering `a + b` is filtering `a`, then `b` |
| `EarthquakeTable.ComputeFilteredData` | src/components/Table/EarthquakeTable.tsx:35-46 | the rows pushed to the store are exactly the rows returned, on both branches; the search term in the store is untouched |
| `EarthquakeTable.TotalPages` | src/components/Table/EarthquakeTable.tsx:56 | zero pages iff no rows; otherwise the least page count whose pages of 50 hold every row |
| `EarthquakeTable.PaginatedData` | src/components/Table/EarthquakeTable.tsx:50-54 | page `p >= 1` is `filtered[(p-1)*50 .. min(p*50, n))`, at most 50 rows, empty iff `(p-1)*50 >= n` |
| `EarthquakeTable.PagesReassemble` | src/components/Table/EarthquakeTable.tsx:50-56 | pages `1..totalPages` laid end to end are exactly the filtered rows |
| `EarthquakeTable.ShowingMatchesPage` | src/components/Table/EarthquakeTable.tsx:188 | "Showing a-b" names the 1-based positions of the page's first and last rows; past the end, or with no rows, both read `n` |
| `EarthquakeTable.Pager.constructor` | src/components/Table/EarthquakeTable.tsx:16 | the table starts on page 1 |
| `EarthquakeTable.Pager.OnDebouncedTerm` | src/components/Table/EarthquakeTable.tsx:58-61 | a changed debounced term resets the page to 1; an unchanged one leaves it alone |
| `EarthquakeTable.Pager.ClickPrevious` | src/components/Table/EarthquakeTable.tsx:111-112 | Previous does nothing on page 1 and otherwise goes back one page; the page stays at least 1 |
| `EarthquakeTable.Pager.ClickNext` | src/components/Table/EarthquakeTable.tsx:143-144 | Next does nothing on the last page and otherwise goes on one page |
| `EarthquakeTable.Pager.ClickPage` | src/components/Table/EarthquakeTable.tsx:91-93 | a numbered button moves to its page |
| `EarthquakeTable.WindowStart` | src/components/Table/EarthquakeTable.tsx:99-105 | for more than one page the window `start..start+min(5,total)-1` lies in `1..total`, holds the current page when that is in range, and is centred on it away from the ends |
| `EarthquakeTable.RenderPagination` | src/components/Table/EarthquakeTable.tsx:95-155 | no buttons iff at most one page; otherwise Previous, disabled iff on page 1, then `min(5,total)` consecutive page numbers from `WindowStart`, the current one active, then Next, disabled iff on the last page |
| `EarthquakeTable.RowStyleOf` | src/components/Table/EarthquakeTable.tsx:217-233 | a row is styled selected iff its id is selected, hovered iff hovered and not selected, otherwise striped by its index |
| `EarthquakeTable.HandleRowClick` | src/components/Table/EarthquakeTable.tsx:63-65 | clicking a row selects its id and leaves the hover alone |
| `EarthquakeTable.HandleRowHover` | src/components/Table/EarthquakeTable.tsx:67-69 | entering a row hovers its id and leaves the selection alone |
| `EarthquakeTable.HandleRowLeave` | src/components/Table/EarthquakeTable.tsx:71-73 | leaving a row clears the hover and leaves the selection alone |
| `EarthquakeChart.FindById` | src/components/Chart/EarthquakeChart.tsx:38 | `find` returns a record iff one has the id, and then the first such record |
| `EarthquakeChart.PinRecord` | src/components/Chart/EarthquakeChart.tsx:37-42 | pinning appends one record, of the data and with the id, only when the id is truthy, names a record and is absent from the sample; otherwise the sample is unchanged |
| `EarthquakeChart.SampleForChart` | src/components/Chart/EarthquakeChart.tsx:19-52 | the memo computes `SampledData`: the data when it fits, else the strided run followed by the pinned selected and hovered records |
| `EarthquakeChart.SampleShape` | src/components/Chart/EarthquakeChart.tsx:20-34 | up to 2000 records the sample is the data; beyond that it starts with the strided run of at most 2000 records and is at most two records longer |
| `EarthquakeChart.SampleKeepsPinned` | src/components/Chart/EarthquakeChart.tsx:37-49 | a truthy selected or hovered id naming a record of the data always has a record with that id in the sample |
| `EarthquakeChart.SampleDrawnFromData` | src/components/Chart/EarthquakeChart.tsx:32-49 | every sampled record is a record of the data |
| `EarthquakeChart.UnknownIdsAddNothing` | src/components/Chart/EarthquakeChart.tsx:38-46 | ids naming no record leave the sample equal to the strided run |
| `EarthquakeChart.ChartData` | src/components/Chart/EarthquakeChart.tsx:54-60 | the points are the sampled records with both chosen fields non-null, in order, each carrying those fields as `x` and `y` |
| `EarthquakeChart.DotStyleOf` | src/components/Chart/EarthquakeChart.tsx:74-92 | radius 6 iff selected, 4 iff hovered and not selected, 3 otherwise |
| `EarthquakeChart.HandleDotClick` | src/components/Chart/EarthquakeChart.tsx:62-64 | clicking a dot selects its record's id and leaves the hover alone |
| `EarthquakeChart.HandleDotMouseEnter` | src/components/Chart/EarthquakeChart.tsx:66-68 | entering a dot hovers its record's id and leaves the selection alone |
| `EarthquakeChart.HandleDotMouseLeave` | src/components/Chart/EarthquakeChart.tsx:70-72 | leaving a dot clears the hover and leaves the selection alone |
| `DataWorker.FilterData` | public/dataWorker.js:40-52 | a missing, empty or all-whitespace term returns the data; otherwise a record is kept iff place, id or (for a truthy magnitude) its rendering contains the lower-cased term; order is kept |
| `DataWorker.FilterDataBlockwise` | public/dataWorker.js:40-52 | the worker's filter is decided record by record: filtering `a + b` is filtering `a`, then `b` |
| `DataWorker.WorkerAndTableMatches` | public/dataWorker.js:45-51 | the worker's and the table's row tests agree except on magnitude 0, where the worker matches only on place or id |
| `DataWorker.ZeroMagnitudeFoundOnlyByTable` | public/dataWorker.js:50 | with 0 rendered as "0", the term "0" finds a magnitude-0 record in the table and not in the worker |
| `DataWorker.WorkerFilterWithinTableFilter` | public/dataWorker.js:40-52 | for the same term the worker keeps a subsequence of the table's rows, and the same rows when no magnitude is 0 |
| `DataWorker.SampleChartData` | public/dataWorker.js:55-69 | the data when it fits the budget (2000 by default); otherwise the strided run, starting with the first record, of at most `maxPoints` records (one when `maxPoints` is 0) |
| `DataWorker.ProcessChartData` | public/dataWorker.js:72-86 | the points are the records whose chosen fields are both neither null nor undefined, in order, carrying those fields as `x` and `y` |
| `DataWorker.ProcessWithinChartData` | public/dataWorker.js:79-85 | the worker's projection keeps a subsequence of the chart's, and the same records when no chosen field is undefined |
| `DataWorker.PresentMembers` | public/dataWorker.js:92-97 | the values of a field are exactly the numbers that some record holds in it |
| `DataWorker.PresentOneRecord` | public/dataWorker.js:92-97 | one record contributes its value when the field holds a number, and nothing when it is `null` or `undefined` |
| `DataWorker.PresentBlockwise` | public/dataWorker.js:92-97 | the values of `a + b` are those of `a` followed by those of `b`, so each record's value appears once, in record order |
| `DataWorker.MaxOf` | public/dataWorker.js:103 | `Math.max` of the values is one of them and bounds them all from above |
| `DataWorker.MinOf` | public/dataWorker.js:104 | `Math.min` of the values is one of them and bounds them all from below |
| `DataWorker.AverageOfValues` | public/dataWorker.js:101-104 | the mean of a non-empty list of values lies between their `Math.min` and their `Math.max` |
| `DataWorker.Summarize` | public/dataWorker.js:101-107 | no summary iff no values; otherwise `avg` is the sum over the count, `min` and `max` are values bounding all the others, and `min <= avg <= max` |
| `DataWorker.CalculateStatistics` | public/dataWorker.js:89-109 | nothing iff the data is missing or empty; otherwise `count` is the number of records, null fields included, and each summary is taken over the values present |
| `DataWorker.StatisticsExample` | public/dataWorker.js:89-109 | magnitudes 3 and 5 with depths null and 10 average to 4 and 10 |
| `DataWorker.OnMessage` | public/dataWorker.js:2-37 | FILTER_DATA, SAMPLE_CHART_DATA and PROCESS_CHART_DATA each post one reply, tagged FILTER_COMPLETE, SAMPLE_COMPLETE or PROCESS_COMPLETE; any other type posts nothing |

## Left out

- CSV tokenising, quoting and dynamic typing by `Papa.parse` (`src/utils/dataLoader.ts:12-44`) are not modelled. The parser's output is an input: a sequence of rows and a list of errors.
- Ids and places are strings. A missing or empty id is the empty string. Not modelled: a numeric id, which dynamic typing would make a number, and a null place; on either, the code's `toLowerCase` would throw.
- `DataLoader.TransformHeader`: the model does not include header names inherited from `Object.prototype` (such as `constructor`), which the object lookup would return instead of the header. The feed's headers are all own keys of the map.
- The network fetch, the loading and error flags (`src/hooks/useEarthquakeData.ts`, `src/App.tsx`) and the service worker's cache (`public/sw.js`) are I/O and timers, so they are left out.
- The debounce timer is time-based, and `src/hooks/useDebounce.ts` is not part of this model. The debounced term is an input.
- The worker's lifecycle and message posting (`src/hooks/useWebWorker.ts`) are concurrency plumbing. A posted message is a return value.
- Number and date formatting (`formatValue`, the tooltip, `toFixed`, `toLocaleString`) is left out. So are the magnitude colour classes and all CSS strings.
- The "(filtered from n)" and "p of t pages" captions are left out.
- Presentation components are left out: `Dashboard.tsx`, `ChartControls.tsx`, `LoadingSpinner.tsx`, `LazyEarthquakeChart.tsx` and the chart library's rendering.
- `Text.TextOps`: `toLowerCase` is modelled as a per-character map, so Unicode case mappings that change a string's length are not modelled. `Number.prototype.toString` is abstract.
- Floating point is replaced by reals. Not modelled: rounding in the average, and `NaN`.
- Spreading a very large array into `Math.max` / `Math.min` can throw a `RangeError`. The model does not include this.
- `DataWorker.OnMessage`: the axis names in a worker message are one of the ten chart axes. Any other string key would read some other property, or `undefined`; that is not modelled.
- `DataWorker.SampleChartData`: `sampleSize` is a natural number, so a negative value, on which the source loop never ends, is not modelled. A `sampleSize` of 0 is modelled: its `Infinity` stride keeps the first record only.
