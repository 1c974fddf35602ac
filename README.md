# All Charts — a Dafny model of the chart gallery

The gallery is an Angular application. It shows nine Chart.js examples as cards. Each card has a title, a description, a code snippet and a canvas. The user can search the cards, switch between a light and a dark theme, open a card's code panel, copy its snippet, and export its chart as PNG, JPEG, JSON, CSV or a printout.

This project models the logic behind those features:

- **`ChartData`**: the card table (`CHART_CARDS`) and lookup by id.
- **`ChartRenderers`**: which card ids have a renderer, and the theme palettes the renderers use.
- **`PieLabels`**: the `pieLabelsLine` plugin, which draws a leader line and a label outside each pie slice. It keeps labels on the same side apart by nudging their heights.
- **`ExportCsv`**: `convertToCSV`, which turns a chart's labels and datasets into CSV text.
- **`CardSearch`**: the search shared by the gallery and the search page. The query is trimmed and lowered. A card matches when its lowered title, description, tag and "why" text contains the query.
- **`Gallery`**: `AllChartsExampleComponent` as a class over its state. The state is the search term, the theme flag, the open code panels, the "copied" badges, and the map from card id to the chart drawn on that card's canvas. The class also records the charts whose `destroy()` has been called.
- **`SearchResults`**: `SearchResultsComponent`, the search page driven by the `q` query parameter.
- **`Text`**: the string operations the code relies on: ASCII `toLowerCase`, `trim`, `includes`, `join`, and `split` (`split` is used only to state what a CSV line contains).
- **`Wrappers`**: `Option`, used wherever the source has `undefined` or a missing field.

The browser is reached only through parameters:

- whether the page runs in a browser is fixed when the component is built;
- which canvases exist and what each renderer returned are passed to the render methods;
- clipboard writes and export-service calls are returned as values: the text to copy, or an `ExportRequest`;
- for each pie slice, the plugin takes the slice's centre, outer radius and exterior point as given. The source computes the exterior point with `atan2`, `cos` and `sin`.

Two details of the code matter for the label properties:

- **Collision avoidance.** `getSuitableY` makes one forward pass over a side's registered heights. It compares the candidate height with each one in turn and moves it as it goes. So a label can end up inside the band of a height it was compared with earlier. `SpacingNotGlobal` and `CrowdedSideOverlapExample` exhibit such a case: heights 120, 100, 105 on the right side give 120, 100, 114, and 114 is within 14 of 120.
- **Label position.** The horizontal segment ends at `outerRadius + 16` from the centre. The text is anchored at that point on the left side and 2 further out on the right side.

## Model

| member | source | states |
|---|---|---|
| ChartData.Ids | src/app/models/chart-data.ts:1-10 | the ids of a card list, one per card, in order |
| ChartData.FindById | src/app/all-charts-example/all-charts-example.component.ts:113 | `find(c => c.id === id)`: None exactly when no card has the id; otherwise the first card with the id |
| ChartData.FindByIdDistinct | src/app/all-charts-example/all-charts-example.component.ts:113 | when ids are distinct, looking up a card's id finds that very card |
| ChartData.ChartCardsIds | src/app/models/chart-data.ts:12-251 | the card table holds the nine ids in table order |
| ChartData.CardIdsDistinct | src/app/models/chart-data.ts:12-251 | the nine ids are pairwise different |
| ChartData.ChartCardsDistinctIds | src/app/models/chart-data.ts:12-251 | no two cards of the table share an id |
| ChartData.ChartCardsComplete | src/app/models/chart-data.ts:12-251 | every card has a non-empty title, three doc points and a preview image |
| ChartRenderers.RendererKeys | src/app/utils/chart-renderers.ts:558-568 | the renderer table has exactly the nine keys |
| ChartRenderers.CardsMatchRenderers | src/app/utils/chart-renderers.ts:558-568 | an id has a renderer exactly when some card has that id |
| ChartRenderers.OnlyOneRendererUsesLabelPlugin | src/app/utils/chart-renderers.ts:191 | only the `piechartwithplugin` renderer installs the leader-line plugin |
| ChartRenderers.GetThemeColors | src/app/utils/chart-renderers.ts:9-60 | each theme has eight fill and eight border colours, and the tooltip text colour is the theme's text colour |
| PieLabels.GetSuitableY | src/app/utils/chart-renderers.ts:109-117 | the loop computes the one-pass nudge `SuitableY`; with no registered height the candidate is kept |
| PieLabels.NudgeMoves | src/app/utils/chart-renderers.ts:112-113 | one comparison moves the candidate exactly when it is strictly within 14 of the registered height: up on the right side, down on the left side |
| PieLabels.SuitableYMonotone | src/app/utils/chart-renderers.ts:109-117 | the result never moves toward the other direction: at least the candidate on the right side, at most the candidate on the left side |
| PieLabels.SuitableYOrigin | src/app/utils/chart-renderers.ts:112-114 | the result is the candidate itself, or one registered height plus or minus 14 |
| PieLabels.SuitableYClearOfLast | src/app/utils/chart-renderers.ts:111-115 | the result is clear of the band of the last registered height |
| PieLabels.SpacingNotGlobal | src/app/utils/chart-renderers.ts:111-115 | counterexample to global spacing: 105 against [120, 100] on the right side gives 114, inside the band of 120 |
| PieLabels.CenterOf | src/app/utils/chart-renderers.ts:84-87 | the chart centre is the midpoint of the chart area |
| PieLabels.GetOriginPoints | src/app/utils/chart-renderers.ts:119-126 | the reflection of `source` through `center`, or None (NaN in the source) when the length is 0 |
| PieLabels.PlaceAll | src/app/utils/chart-renderers.ts:97-169 | the pass places one label per label |
| PieLabels.PlaceAllRegistries | src/app/utils/chart-renderers.ts:82-83 | after the pass, each side's registry holds exactly the final heights of the labels on that side, in order |
| PieLabels.PlaceAllPrefix | src/app/utils/chart-renderers.ts:97 | a label's placement does not depend on the labels after it |
| PieLabels.PlaceAllStep | src/app/utils/chart-renderers.ts:128-140 | label i goes left exactly when its exterior point is left of the centre, and its height is appended to that side's registry only |
| PieLabels.PlaceAllAt | src/app/utils/chart-renderers.ts:128-130 | label i is placed against the heights of the earlier labels on its own side |
| PieLabels.PlacementDirection | src/app/utils/chart-renderers.ts:128-130 | each label keeps its text, and its height moves only outward in its side's direction |
| PieLabels.SameSideSpacing | src/app/utils/chart-renderers.ts:109-140 | two consecutive labels on the same side end at least 14 apart |
| PieLabels.PlaceGeometry | src/app/utils/chart-renderers.ts:128-157 | side, bend point, segment end at radius + 16, text alignment and anchor (+2 on the right side), text 7 below the bend, and the leader-line origin |
| PieLabels.LabelPassShape | src/app/utils/chart-renderers.ts:78-99 | nothing is drawn exactly when a guard fails; otherwise one placement per label in order, cut short at the first label without an arc element |
| PieLabels.DrawLabel | src/app/utils/chart-renderers.ts:97-168 | one label's placement, and its height pushed onto the registry of its side |
| PieLabels.AfterDraw | src/app/utils/chart-renderers.ts:76-170 | the plugin's loop computes `LabelPass`, and skips exactly in the guarded cases |
| PieLabels.CrowdedSideExample | src/app/utils/chart-renderers.ts:109-140 | heights 100, 105, 108 on the right side become 100, 114, 128 |
| PieLabels.CrowdedSideOverlapExample | src/app/utils/chart-renderers.ts:109-140 | heights 120, 100, 105 on the right side become 120, 100, 114, and 114 is within 14 of 120 |
| ExportCsv.JoinText | src/app/services/export-chart.service.ts:146 | `join` writes undefined and null as empty fields and strings as themselves |
| ExportCsv.HeaderValue | src/app/services/export-chart.service.ts:145 | the dataset's column title is always truthy: the label when the label is truthy, `Data` otherwise |
| ExportCsv.JsonStringify | src/app/services/export-chart.service.ts:153 | `typeof value === 'object'` covers null, which is written as `null`; objects are written as their JSON |
| ExportCsv.ConvertToCsv | src/app/services/export-chart.service.ts:140-159 | the loops compute `Csv`: it throws (None) when there are labels and some dataset has no data array; otherwise the header line, then one line per label, each ended by a newline |
| ExportCsv.CsvLineCount | src/app/services/export-chart.service.ts:146-156 | when no field holds a newline, the text splits at newlines into one line per label plus the header, and a trailing empty piece |
| ExportCsv.CsvFields | src/app/services/export-chart.service.ts:145-155 | when no field holds a comma, each line splits at commas back into its row of fields |
| ExportCsv.HeaderRow | src/app/services/export-chart.service.ts:145 | the header row is `Label` followed by each dataset's label, or `Data` |
| ExportCsv.DataRow | src/app/services/export-chart.service.ts:149-156 | row i is the label, then each dataset's value at i, with objects and null written as JSON |
| ExportCsv.ShortDatasetField | src/app/services/export-chart.service.ts:152 | a dataset shorter than the labels gives an empty field |
| ExportCsv.NoLabels | src/app/services/export-chart.service.ts:141 | with no labels, the CSV is the header line alone |
| ExportCsv.NoDatasets | src/app/services/export-chart.service.ts:142 | with no datasets, missing or empty, the header is `Label` and every row is the label alone |
| ExportCsv.MissingDataThrows | src/app/services/export-chart.service.ts:152 | a dataset without a data array makes the conversion throw once there is a label |
| ExportCsv.CommaIsNotQuoted | src/app/services/export-chart.service.ts:155 | a label containing a comma is not quoted, so its line splits into two fields |
| Text.Lower | src/app/all-charts-example/all-charts-example.component.ts:61 | `toLowerCase` keeps the length, lowers each character, and leaves no upper-case letter |
| Text.Trim | src/app/all-charts-example/all-charts-example.component.ts:56 | `trim()` never lengthens the string; TrimShape gives what it removes |
| Text.TrimStart | src/app/all-charts-example/all-charts-example.component.ts:56 | a suffix whose removed prefix is all whitespace and which does not start with whitespace |
| Text.TrimEnd | src/app/all-charts-example/all-charts-example.component.ts:56 | a prefix whose removed suffix is all whitespace and which does not end with whitespace |
| Text.TrimShape | src/app/all-charts-example/all-charts-example.component.ts:56 | `trim()` gives a slice of the input with whitespace only around it, and neither starts nor ends with whitespace |
| Text.TrimIgnoresPadding | src/app/all-charts-example/all-charts-example.component.ts:56 | whitespace added around a string does not change its trim |
| Text.TrimLowerCommute | src/app/all-charts-example/all-charts-example.component.ts:56 | trimming and lowering commute |
| Text.LowerIdempotent | src/app/all-charts-example/all-charts-example.component.ts:61 | lowering twice is lowering once |
| Text.LowerAppend | src/app/all-charts-example/all-charts-example.component.ts:61 | lowering distributes over concatenation |
| Text.Contains | src/app/all-charts-example/all-charts-example.component.ts:61 | `includes` holds whenever the needle is a prefix; ContainsIffOccurs gives the full meaning |
| Text.ContainsIffOccurs | src/app/all-charts-example/all-charts-example.component.ts:61 | `includes` holds exactly when the needle occurs at some position |
| Text.Join | src/app/services/export-chart.service.ts:146 | `join` starts with the first field; SplitJoin is its inverse on fields without the separator |
| Text.SplitJoin | src/app/services/export-chart.service.ts:146 | joining fields that do not contain the separator and splitting again gives the fields back |
| Text.SplitTerminated | src/app/services/export-chart.service.ts:155 | newline-ended lines split at the newline into the lines plus an empty piece |
| Text.JoinDoesNotEscape | src/app/services/export-chart.service.ts:155 | a field containing the separator splits into two on the way back |
| CardSearch.Query | src/app/all-charts-example/all-charts-example.component.ts:56 | `trim().toLowerCase()` gives a query no longer than the term and without upper-case letters |
| CardSearch.Matches | src/app/all-charts-example/all-charts-example.component.ts:61 | the filter callback accepts every card for the empty query |
| CardSearch.Filter | src/app/all-charts-example/all-charts-example.component.ts:60-62 | keeps exactly the matching cards and nothing else |
| CardSearch.FilterAppend | src/app/all-charts-example/all-charts-example.component.ts:60-62 | filtering a concatenation is the concatenation of the filtered parts, so the order is kept |
| CardSearch.FilterSingle | src/app/all-charts-example/all-charts-example.component.ts:60-62 | a single card is kept exactly when it matches |
| CardSearch.FilterDistinct | src/app/all-charts-example/all-charts-example.component.ts:60-62 | the filtered list keeps ids distinct |
| CardSearch.FilterIdsWithin | src/app/all-charts-example/all-charts-example.component.ts:60-62 | the filtered cards' ids are among the input cards' ids, whatever set holds those |
| CardSearch.FilterEmptyQuery | src/app/all-charts-example/all-charts-example.component.ts:61 | every card matches the empty query |
| CardSearch.GalleryFilter | src/app/all-charts-example/all-charts-example.component.ts:55-63 | every card for an empty query, the matching cards otherwise |
| CardSearch.SearchFilter | src/app/pages/search-results/search-results.component.ts:28-37 | no card for an empty query, the matching cards otherwise |
| CardSearch.GalleryIsFilter | src/app/all-charts-example/all-charts-example.component.ts:57-59 | the gallery's early return for an empty query agrees with the plain filter |
| CardSearch.GalleryVersusSearch | src/app/pages/search-results/search-results.component.ts:30-33 | the two searches agree on every non-empty query; on an empty one they agree only when there are no cards |
| CardSearch.QueryIgnoresCase | src/app/all-charts-example/all-charts-example.component.ts:56 | terms equal up to letter case give the same query |
| CardSearch.QueryIgnoresPadding | src/app/all-charts-example/all-charts-example.component.ts:56 | whitespace around the term does not change the query |
| CardSearch.SearchesIgnoreCaseAndPadding | src/app/pages/search-results/search-results.component.ts:29 | letter case and surrounding whitespace change neither search's result |
| CardSearch.BlankTermIsEmptyQuery | src/app/all-charts-example/all-charts-example.component.ts:56-59 | an all-whitespace term is an empty query |
| Gallery.Toggle | src/app/all-charts-example/all-charts-example.component.ts:65-71 | the id's membership flips and no other id's does |
| Gallery.ToggleTwice | src/app/all-charts-example/all-charts-example.component.ts:65-71 | toggling the same panel twice restores the set |
| Gallery.ToggleCommutes | src/app/all-charts-example/all-charts-example.component.ts:65-71 | toggling two panels in either order gives the same set |
| Gallery.RenderOneEffect | src/app/all-charts-example/all-charts-example.component.ts:169-195 | one render changes only its own id: it is set exactly when there is a canvas, a renderer and a chart; a chart already under the id is destroyed only when the canvas exists |
| Gallery.RenderPassFromEmpty | src/app/all-charts-example/all-charts-example.component.ts:162-166 | from an empty map with distinct ids, rendering destroys nothing and registers exactly the cards with a canvas, a renderer and a chart, each under its renderer's chart |
| Gallery.GalleryComponent.constructor | src/app/all-charts-example/all-charts-example.component.ts:14-26 | the card table, a dark theme, an empty term and empty panels, badges and chart map |
| Gallery.GalleryComponent.SetSearchTerm | src/app/all-charts-example/all-charts-example.component.ts:32-33 | the term is stored |
| Gallery.GalleryComponent.ToggleTheme | src/app/all-charts-example/all-charts-example.component.ts:45-53 | the theme flips in a browser and stays otherwise |
| Gallery.GalleryComponent.FilteredCards | src/app/all-charts-example/all-charts-example.component.ts:55-63 | every card for an empty query and never more cards than the table; FilteredCardsMatch gives exactly which |
| Gallery.GalleryComponent.FilteredCardsMatch | src/app/all-charts-example/all-charts-example.component.ts:55-63 | the filtered cards are exactly the table's cards that match the query, in table order |
| Gallery.GalleryComponent.ToggleCodePanel | src/app/all-charts-example/all-charts-example.component.ts:65-75 | the panel's visibility flips and the other panels stay |
| Gallery.GalleryComponent.IsCodePanelVisible | src/app/all-charts-example/all-charts-example.component.ts:73-75 | a panel is open exactly when toggling it would close it |
| Gallery.GalleryComponent.IsCopied | src/app/all-charts-example/all-charts-example.component.ts:129-131 | true exactly when the id is in the map with value true |
| Gallery.GalleryComponent.GetChartTitle | src/app/all-charts-example/all-charts-example.component.ts:112-115 | the card's title, or the id when there is no such card or its title is empty; empty only for the empty id |
| Gallery.GalleryComponent.RequestExport | src/app/all-charts-example/all-charts-example.component.ts:77-110 | the service is called exactly when a chart is registered under the id, with that chart and the action's file name or print title |
| Gallery.GalleryComponent.CopyChartCode | src/app/all-charts-example/all-charts-example.component.ts:117-120 | text is copied exactly in a browser and for an id some card has; the text is that card's snippet |
| Gallery.GalleryComponent.OnCopied | src/app/all-charts-example/all-charts-example.component.ts:120-121 | the badge is shown |
| Gallery.GalleryComponent.OnCopyExpired | src/app/all-charts-example/all-charts-example.component.ts:122-124 | the badge is removed and the other badges stay |
| Gallery.GalleryComponent.ClearCharts | src/app/all-charts-example/all-charts-example.component.ts:158-159 | every registered chart is destroyed and the map is emptied |
| Gallery.GalleryComponent.NgOnDestroy | src/app/all-charts-example/all-charts-example.component.ts:144-147 | every registered chart is destroyed and the map is emptied |
| Gallery.GalleryComponent.RenderChart | src/app/all-charts-example/all-charts-example.component.ts:169-195 | the new map and destroyed set are `RenderOne`'s, and only ids with a renderer hold a chart |
| Gallery.GalleryComponent.RenderCards | src/app/all-charts-example/all-charts-example.component.ts:163-165 | the loop computes `RenderPass` over the cards |
| Gallery.GalleryComponent.RenderAllCharts | src/app/all-charts-example/all-charts-example.component.ts:156-167 | afterwards the map holds exactly the ids of the filtered cards that have a canvas and a chart, each under that chart, and the destroyed set has grown by exactly the charts held before |
| Gallery.GalleryComponent.FilteredCardsTable | src/app/all-charts-example/all-charts-example.component.ts:182-183 | the filtered cards have distinct ids, each with a renderer |
| Gallery.CardTitles | src/app/all-charts-example/all-charts-example.component.ts:112-115 | with distinct ids and non-empty titles, as the card table has, every card is titled by its own title |
| Gallery.PrintTitle | src/app/all-charts-example/all-charts-example.component.ts:105-110 | a titled card's print title is its title followed by " Chart" |
| SearchResults.SearchResultsComponent.constructor | src/app/pages/search-results/search-results.component.ts:11-12 | the page searches the card table, starting with an empty query and no results |
| SearchResults.SearchResultsComponent.PerformSearch | src/app/pages/search-results/search-results.component.ts:28-37 | no result for a blank query; otherwise exactly the matching cards of the table, in order |
| SearchResults.SearchResultsComponent.OnQueryParams | src/app/pages/search-results/search-results.component.ts:20-24 | the query is `q`, or empty when it is absent, and the results are its search; with no `q` there are no results |

## Left out

- The trigonometry of the pie plugin (`atan2`, `cos`, `sin`) is left out, because the verifier has no real trigonometry. The exterior point of each slice is an input.
- The label text (`label: percentage%`) and its `toFixed(1)` percentage are left out. So are the line width, the colours and the font. These only style the drawing and involve floating-point formatting.
- PieLabels.DrawLabel: the canvas calls are not modelled. The contract states the geometry handed to them, not the pixels.
- PieLabels: `String(label)` and `Number(value)` do not appear. Labels are strings and values are reals.
- PieLabels.LabelPass: the source throws when there are more labels than arc elements. This is modelled as the placements drawn up to that label (`Aborted`).
- The chart configurations built by each `render*` function (axes, datasets, options) are left out. They are constant data for Chart.js. Only which ids have a renderer, and the theme palettes, are modelled.
- The export service's PNG, JPEG and JSON export, printing and file download are browser I/O. They appear only as the `ExportRequest` the gallery hands to the service.
- ExportCsv.JoinText: numbers, booleans and objects carry their own text. Number-to-string conversion and `JSON.stringify` are not modelled. Nor is `JSON.stringify` throwing on a cyclic value.
- ExportCsv.ConvertToCsv: only a missing data array makes `dataset.data[index]` throw. Other non-array data is not a case of the model.
- Timers are left out: the 300 ms debounce of the search-term setter, the 100 ms and 50 ms render delays, and the 2 s badge timeout. What runs when each timer fires is a separate method: `RenderAllCharts` and `OnCopyExpired`.
- Gallery.GalleryComponent.RenderAllCharts: both phases run at once. The canvases present when the delayed phase runs are a parameter.
- Gallery.GalleryComponent.CopyChartCode: the clipboard promise is left out. Its completion is `OnCopied`, and a rejected write is not modelled.
- `isPlatformBrowser` is a constructor parameter.
- The class toggling on `document.body` and `document.documentElement` in `toggleTheme` is left out.
- `Chart.register` and `ngAfterViewInit`'s registration guard are left out. They are library set-up.
- Text.Lower: only ASCII letters are lowered. JavaScript's full Unicode case mapping is not modelled.
- Text.TrimStart and Text.TrimEnd remove only ASCII whitespace (space, tab, line feed, vertical tab, form feed, carriage return). Unicode spaces and line terminators are not removed.
- The chart-detail and chart-card components, the routing and module files, and the component's test file are not part of this model.
- `SearchResultsComponent.isLightMode`, `goToChart` and `goBack` are left out. They read the DOM or navigate.
