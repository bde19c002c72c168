# su_films client logic in Dafny

This project models the client-side logic of the su_films movie database, a
React front end over a Django API. The model covers:

- the listing page (`MovieList.tsx`): its page counter, and what each movie
  card shows;
- the cell rules of the movie table (`movieListColumns.tsx`);
- the shared helpers (`functions.ts`): the page-number window `getVisiblePages`,
  `formatRuntime`, `getRatingColor` and `generateColors`;
- the filter lookup table (`filters.ts`);
- the two clustering panels (`KMeans.tsx`, `DBScan.tsx`): their state,
  handlers, input guards and the request they build;
- the cluster detail pager (`KMeansDetails.tsx`);
- the data the two charts receive: the per-cluster box plots
  (`PlotlyBoxPlots.tsx`) and the PCA scatter plot (`ClusterScatterPlot.tsx`).

Modules:

| module | file | models |
|---|---|---|
| `Js` | js.dfy | the JavaScript built-ins the code relies on: `slice`, `substring`, `split`, `join`, `trim`, number-to-string |
| `Types` | types.dfy | the shapes of the server's results (movies, PCA points, cluster summaries) |
| `Grouping` | grouping.dfy | the order-preserving `filter` by a key, which every chart and list uses |
| `Functions` | functions.dfy | client/src/utils/functions.ts |
| `Filters` | filters.dfy | client/src/utils/filters.ts |
| `BoxPlots` | box_plots.dfy | PlotlyBoxPlots.tsx |
| `ScatterPlot` | scatter_plot.dfy | ClusterScatterPlot.tsx |
| `Clustering` | clustering.dfy | what KMeans.tsx and DBScan.tsx share: the feature checkboxes and toggle, the joined features parameter, the error text |
| `KMeansDetails` | kmeans_details.dfy | KMeansDetails.tsx |
| `DBScan` | dbscan.dfy | DBScan.tsx |
| `KMeans` | kmeans.dfy | KMeans.tsx |
| `MovieListColumns` | columns.dfy | movieListColumns.tsx |
| `MovieList` | movie_list.dfy | MovieList.tsx |

Component state is modelled as classes:

- `KMeansDetails.Pager`, `DBScan.DBScanView`, `KMeans.KMeansView` and
  `MovieList.MovieListView` have one field per `useState`.
- Each handler is a method that changes those fields.
- An effect is a method called after the change it depends on.

The two imperative algorithms are methods proved against a specification
function:

- `getVisiblePages` pushes onto an array in `for` loops (`Functions.GetVisiblePages`).
- `preparePlotlyData` fills a map of buckets (`BoxPlots.PreparePlotlyData`).

A request is not made by the model:

- Starting a request is the `Refresh` method. It returns the parameters it
  would send.
- Its result comes back as a `FetchOutcome` passed to `FinishFetch`:
  success with data, an HTTP-client error with or without a response, or any
  other exception.

`MovieList.tsx` has its own `formatRuntime` and `getRatingColor`. They are the
same code as the ones in `functions.ts` (MovieList.tsx:29-40), so the model
uses the `Functions` versions for both.

## Model

| member | source | states |
|---|---|---|
| Functions.GetVisiblePages | client/src/utils/functions.ts:23-55 | the push loops build exactly the window of the branch taken: 1..T for at most five pages, [1,2,3,4,-1,T] near the start, [1,-1,T-3..T] near the end, [1,-1,c-1,c,c+1,-1,T] otherwise |
| Functions.VisiblePagesAllListed | client/src/utils/functions.ts:27-30 | with T ≤ 5 the window lists every page 1..T, in order, and nothing else |
| Functions.VisiblePagesBounded | client/src/utils/functions.ts:31-53 | with T > 5 the window has 6 or 7 entries, starts with 1, ends with T, and every entry is -1 or a page in 1..T |
| Functions.VisiblePagesOrdered | client/src/utils/functions.ts:32-52 | listed pages strictly increase; two listed neighbours are consecutive pages; every -1 sits between two listed pages and hides at least one page |
| Functions.VisiblePagesShowCurrent | client/src/utils/functions.ts:32-52 | the current page is listed whenever 1 ≤ currentPage ≤ T |
| Functions.FormatRuntime | client/src/utils/functions.ts:10-15 | the text is "N/A" exactly for a null or 0 runtime |
| Functions.FormatRuntimeRoundTrip | client/src/utils/functions.ts:10-15 | for a positive runtime, the "<h>h <m>m" text reads back as the same number of minutes, with the minutes part below 60: hours * 60 + mins == minutes |
| Functions.NotAvailableIsNoRuntime | client/src/utils/functions.ts:11 | "N/A" never reads back as a runtime, so it cannot be confused with a real one |
| Functions.RatingColor | client/src/utils/functions.ts:17-21 | green iff rating ≥ 8, yellow iff 6 ≤ rating < 8, red iff rating < 6 |
| Functions.RatingColorMonotone | client/src/utils/functions.ts:17-21 | a higher rating never gets a worse colour |
| Functions.GenerateColors | client/src/utils/functions.ts:57-67 | for n ≥ 0, the first min(n, 6) base colours in order; for n < 0, JavaScript's `slice` with a negative end |
| Filters.Find | client/src/utils/filters.ts:27 | `find` returns a listed column with the id, and returns nothing iff no column has it |
| Filters.FilterableColumnsTable | client/src/utils/filters.ts:1-10 | 8 columns with distinct ids; title, genres and release_date are string-typed, the other five numeric |
| Filters.GetColumnType | client/src/utils/filters.ts:26-28 | a type is returned exactly for an id some filterable column has, and it is the type of a column with that id |
| Filters.GetDefaultOperator | client/src/utils/filters.ts:30-33 | an operator is returned exactly when the column type is known, and it is one of that type's operators |
| Filters.GetColumnTypeOfListed | client/src/utils/filters.ts:26-28 | getColumnType of a listed id is that column's type; of an unlisted id it is undefined (None) |
| Filters.OperatorTable | client/src/utils/filters.ts:12-24 | string operators are [contains, eq], numeric ones [gte, lte, eq, gt, lt], in that order |
| Filters.DefaultOperatorByType | client/src/utils/filters.ts:30-33 | the default operator is "contains" for string columns and "gte" for numeric ones, and always one of the operators of the column's own type |
| Filters.OperatorsPerType | client/src/utils/filters.ts:13-23 | "eq" is allowed for both types; "contains" only for strings |
| BoxPlots.FeatureOf | client/src/components/clustering/PlotlyBoxPlots.tsx:22-29 | a name has a chart label iff it is one of the six feature keys |
| BoxPlots.InitBuckets | client/src/components/clustering/PlotlyBoxPlots.tsx:32-36 | the first loop creates one empty bucket for each cluster 0..nClusters-1 and no other key |
| BoxPlots.BucketsAreBoxes | client/src/components/clustering/PlotlyBoxPlots.tsx:38-45 | after any prefix of the movies, bucket c holds the values of exactly the kept movies of cluster c, in order |
| BoxPlots.BuildTraces | client/src/components/clustering/PlotlyBoxPlots.tsx:47-57 | one trace per cluster 0..nClusters-1, trace i built from bucket i |
| BoxPlots.Traces | client/src/components/clustering/PlotlyBoxPlots.tsx:47-57 | exactly max(0, nClusters) traces; trace i holds cluster i's box, its "N=" count is the number of kept movies of cluster i, and its colour is palette colour i for i < 5 and gray after |
| BoxPlots.PreparePlotlyData | client/src/components/clustering/PlotlyBoxPlots.tsx:31-60 | the two loops and the trace construction return exactly the specified traces |
| BoxPlots.BucketOrigin | client/src/components/clustering/PlotlyBoxPlots.tsx:40-43 | every value in box c comes from a movie of cluster c whose feature is exactly that number |
| BoxPlots.MoviePlacement | client/src/components/clustering/PlotlyBoxPlots.tsx:40-41 | a movie with no cluster, a negative cluster, a cluster ≥ nClusters or a non-number value is in no box; any other movie is in its own cluster's box, as often as it occurs |
| BoxPlots.BucketKeepsOrder | client/src/components/clustering/PlotlyBoxPlots.tsx:38-45 | a box keeps the input order: the box of a + b is the box of a followed by the box of b |
| BoxPlots.BoxSizesAddUp | client/src/components/clustering/PlotlyBoxPlots.tsx:38-45 | the boxes together hold one value per eligible movie, no more and no fewer |
| BoxPlots.TraceColors | client/src/components/clustering/PlotlyBoxPlots.tsx:55 | traces 0-4 get five different palette colours; every later trace is gray |
| BoxPlots.FeaturesToDisplay | client/src/components/clustering/PlotlyBoxPlots.tsx:64-66 | only labelled features are displayed |
| BoxPlots.FeaturesToDisplayFilter | client/src/components/clustering/PlotlyBoxPlots.tsx:64-66 | exactly the unlabelled names are dropped, and the order is kept |
| BoxPlots.Charts | client/src/components/clustering/PlotlyBoxPlots.tsx:75-78 | one chart per displayed feature, in order, titled with its label and drawn from its traces |
| BoxPlots.ChartScale | client/src/components/clustering/PlotlyBoxPlots.tsx:78 | a chart is on a log axis iff its feature is budget, revenue or vote_count |
| ScatterPlot.ToPoints | client/src/components/clustering/ClusterScatterPlot.tsx:33-36 | each point becomes {x: PC1, y: PC2}, one for one and in order |
| ScatterPlot.DataSets | client/src/components/clustering/ClusterScatterPlot.tsx:26-44 | one dataset per id 0..nClusters-1, in ascending order, labelled "Shluk id" and holding that cluster's points |
| ScatterPlot.DataSetColors | client/src/components/clustering/ClusterScatterPlot.tsx:28-41 | dataset i is coloured with base colour i mod min(nClusters, 6), so from index 6 on the colours repeat |
| ScatterPlot.CaptionsDistinct | client/src/components/clustering/ClusterScatterPlot.tsx:39 | no two datasets share a label |
| ScatterPlot.DataSetMembers | client/src/components/clustering/ClusterScatterPlot.tsx:31-36 | dataset k holds exactly the points of cluster k, each as often as the input does, each drawn at (PC1, PC2) |
| ScatterPlot.OutsidePointsDropped | client/src/components/clustering/ClusterScatterPlot.tsx:27-32 | a point whose cluster lies outside 0..nClusters-1, noise -1 among them, is in no dataset |
| ScatterPlot.DataSetKeepsOrder | client/src/components/clustering/ClusterScatterPlot.tsx:31-36 | a dataset keeps the input order of its points |
| ScatterPlot.DataSetsCoverInRange | client/src/components/clustering/ClusterScatterPlot.tsx:27-36 | the datasets together draw one point per input point with an in-range cluster: nothing is lost and nothing is drawn twice |
| Clustering.ToggleFeature | client/src/components/clustering/DBScan.tsx:50-56 | a selected feature is removed (every occurrence); an unselected one is appended at the end |
| Clustering.ToggleRemovesInPlace | client/src/components/clustering/DBScan.tsx:50-56 | toggling a selected feature off removes it where it stood and keeps the other features in their order |
| Clustering.ToggleMembership | client/src/components/clustering/DBScan.tsx:50-56 | toggling flips the toggled feature's membership and leaves every other feature's multiplicity unchanged |
| Clustering.ToggleKeepsNoDup | client/src/components/clustering/DBScan.tsx:50-56 | a duplicate-free selection stays duplicate-free |
| Clustering.ToggleTwice | client/src/components/clustering/DBScan.tsx:50-56 | toggling twice restores the selected set; for a feature that was not selected it restores the very same list |
| Clustering.ToggleStaysWithin | client/src/components/clustering/DBScan.tsx:99-105 | toggling a checkbox feature keeps the selection within the checkbox features |
| Clustering.CheckboxFeaturesHaveNoComma | client/src/components/clustering/DBScan.tsx:13-20 | no checkbox feature contains a comma |
| Clustering.FeatureQueryRoundTrip | client/src/components/clustering/DBScan.tsx:36 | the comma-joined features parameter splits back into the selection, in order, when it is non-empty and comma-free |
| Clustering.ErrorMessage | client/src/components/clustering/DBScan.tsx:41-44 | an error text is set iff the request failed with an HTTP-client error, and that text is never empty |
| Clustering.ErrorMessageCases | client/src/components/clustering/DBScan.tsx:43 | a non-empty server detail is shown as is; otherwise different statuses give different messages |
| DBScan.BoxPlotMovies | client/src/components/clustering/DBScan.tsx:151 | the box plots receive only movies of the results whose cluster is not -1 |
| DBScan.BoxPlotMoviesExact | client/src/components/clustering/DBScan.tsx:151 | the noise filter drops exactly the noise movies and keeps every other movie as often as the results list it |
| DBScan.NoiseFilterKeepsBoxes | client/src/components/clustering/DBScan.tsx:150-154 | filtering out the noise first changes no box plot |
| DBScan.ClusteredCount | client/src/components/clustering/DBScan.tsx:148 | when noise_points counts the noise movies, the clustered count shown equals the number of movies the box plots receive |
| DBScan.ShouldFetch | client/src/components/clustering/DBScan.tsx:59 | the effect's early return lets a request through exactly when a feature is selected, eps > 0 and minPts ≥ 2; Refresh and ValidStateFetches state what follows from it |
| DBScan.ValidStateFetches | client/src/components/clustering/DBScan.tsx:58-61 | once the input guards hold, only an empty selection blocks the fetch, and the features sent decode back to the selection |
| DBScan.DBScanView.constructor | client/src/components/clustering/DBScan.tsx:23-29 | starts with eps 0.5, minPts 5, every feature selected, nothing loaded |
| DBScan.DBScanView.ChangeEps | client/src/components/clustering/DBScan.tsx:75-78 | eps changes only to a value above 0; nothing else changes |
| DBScan.DBScanView.ChangeMinPts | client/src/components/clustering/DBScan.tsx:88-91 | minPts changes only to a value of at least 2; nothing else changes |
| DBScan.DBScanView.ToggleFeature | client/src/components/clustering/DBScan.tsx:50-56 | the selection is toggled, and it stays duplicate-free and within the checkboxes |
| DBScan.DBScanView.SelectCluster | client/src/components/clustering/DBScan.tsx:173 | a row click selects that cluster; nothing else changes |
| DBScan.DBScanView.Refresh | client/src/components/clustering/DBScan.tsx:58-61 | a request starts iff a feature is selected, eps > 0 and minPts ≥ 2; starting it sets loading and clears error and results; it carries eps, minPts and the joined features |
| DBScan.DBScanView.FinishFetch | client/src/components/clustering/DBScan.tsx:35-47 | success stores the data; an HTTP-client error stores its text; loading is off whatever the outcome |
| KMeans.KMeansQuery | client/src/components/clustering/KMeans.tsx:40-41 | the query string `k=..&features=..&tf=..`; it carries no contract of its own: KMeansQueryFields states its three fields and the features round trip |
| KMeans.ShowResults | client/src/components/clustering/KMeans.tsx:122 | the results block renders when there are results with a non-empty cluster summary; it carries no contract of its own: KMeansView.Refresh hides it and KMeansView.FinishFetch shows it for loaded data exactly when the summary is non-empty |
| KMeans.KMeansQueryFields | client/src/components/clustering/KMeans.tsx:40-41 | the query splits at '&' into exactly k, features and tf, in that order, and the features parameter splits back into the selection |
| KMeans.EmptySelectionQuery | client/src/components/clustering/KMeans.tsx:60-62 | with nothing selected the request still goes out, with an empty features parameter |
| KMeans.ShowDescription | client/src/components/clustering/KMeans.tsx:135 | the interpretation shows only inside the results block, for 5 clusters and standardScaler; KMeansView.Refresh, SetTransform and FinishFetch state when that holds of the view |
| KMeans.KMeansView.constructor | client/src/components/clustering/KMeans.tsx:26-32 | starts with K 5, standardScaler, every feature selected, nothing loaded |
| KMeans.KMeansView.ChangeK | client/src/components/clustering/KMeans.tsx:73-76 | K changes only to a value of at least 2; nothing else changes |
| KMeans.KMeansView.SetTransform | client/src/components/clustering/KMeans.tsx:84 | the select sets the transform; nothing else changes, and picking minMaxScaler hides the interpretation |
| KMeans.KMeansView.ToggleFeature | client/src/components/clustering/KMeans.tsx:52-58 | the selection is toggled, and it stays duplicate-free and within the checkboxes |
| KMeans.KMeansView.SelectCluster | client/src/components/clustering/KMeans.tsx:154 | a row click selects that cluster; nothing else changes |
| KMeans.KMeansView.Refresh | client/src/components/clustering/KMeans.tsx:34-62 | every change starts a request, with no guard: loading is set; error, results and the selected cluster are cleared, so neither the results block nor the interpretation shows; the query carries k, features and tf |
| KMeans.KMeansView.FinishFetch | client/src/components/clustering/KMeans.tsx:42-49 | success stores the data, after which the results block shows iff the summary is non-empty and the interpretation iff moreover n_clusters is 5 and the scaler is standardScaler; an HTTP-client error stores its text; loading is off whatever the outcome |
| KMeansDetails.FilteredMovies | client/src/components/clustering/KMeansDetails.tsx:16-19 | empty without results or without a selected cluster; otherwise only movies of the selected cluster |
| KMeansDetails.FilteredMoviesExact | client/src/components/clustering/KMeansDetails.tsx:16-19 | the filter keeps every movie of the selected cluster, as often as listed, drops all others, and keeps their order |
| KMeansDetails.TotalPages | client/src/components/clustering/KMeansDetails.tsx:20 | the fewest pages of ten that hold n movies, i.e. ceil(n / 10) |
| KMeansDetails.CurrentMovies | client/src/components/clustering/KMeansDetails.tsx:21-23 | page p shows movies (p-1)*10 up to min(p*10, n), so at most ten |
| KMeansDetails.PagesCoverAll | client/src/components/clustering/KMeansDetails.tsx:20-23 | pages 1..totalPages, one after the other, are exactly the filtered movies |
| KMeansDetails.RangeLabel | client/src/components/clustering/KMeansDetails.tsx:51 | the "a-b" numbers of the label; it carries no contract of its own: RangeLabelMatchesPage states that they span the page shown |
| KMeansDetails.RangeLabelMatchesPage | client/src/components/clustering/KMeansDetails.tsx:51 | on a real page the "a-b" label spans exactly the movies the page shows |
| KMeansDetails.ShowPager | client/src/components/clustering/KMeansDetails.tsx:88 | the pager shows iff there is more than one page, i.e. more than ten movies |
| KMeansDetails.DominantGenre | client/src/components/clustering/KMeansDetails.tsx:46 | the genre of the first summary for the cluster; undefined iff no summary has it |
| KMeansDetails.Pager.constructor | client/src/components/clustering/KMeansDetails.tsx:14 | the pager starts on page 1 |
| KMeansDetails.Pager.SetProps | client/src/components/clustering/KMeansDetails.tsx:25-27 | a change of the selected cluster resets the page to 1 |
| KMeansDetails.Pager.PrevDisabled | client/src/components/clustering/KMeansDetails.tsx:98 | the previous button is disabled on page 1; GoToPrevPage's contract says the page stays put exactly then |
| KMeansDetails.Pager.NextDisabled | client/src/components/clustering/KMeansDetails.tsx:132 | the next button is disabled on the last page; GoToNextPage's contract says the page stays put exactly then |
| KMeansDetails.Pager.GoToNextPage | client/src/components/clustering/KMeansDetails.tsx:29-33 | moves on one page only before the last page, so it stays put exactly when the next button is disabled; keeps 1 ≤ page ≤ max(1, totalPages) and, when there is a page, shows 1 to 10 movies |
| KMeansDetails.Pager.GoToPrevPage | client/src/components/clustering/KMeansDetails.tsx:35-39 | moves back one page only after page 1, so it stays put exactly when the previous button is disabled; keeps 1 ≤ page ≤ max(1, totalPages) and, when there is a page, shows 1 to 10 movies |
| KMeansDetails.Pager.ClickPage | client/src/components/clustering/KMeansDetails.tsx:106-125 | a click on a listed page button makes that page current; it is a real page and shows 1 to 10 movies |
| MovieList.MovieListView.constructor | client/src/pages/MovieList.tsx:12 | the list opens on page 1 |
| MovieList.MovieListView.Request | client/src/pages/MovieList.tsx:12-14 | the listing request asks for the current page, which is at least 1, with 20 movies |
| MovieList.MovieListView.PrevDisabled | client/src/pages/MovieList.tsx:144 | the previous button is disabled on page 1; ClickPrev's contract says the page stays put exactly then |
| MovieList.NextDisabled | client/src/pages/MovieList.tsx:157 | the next button is disabled unless the last response reports a next page; ClickNext's contract says the page stays put exactly then |
| MovieList.MovieListView.ClickPrev | client/src/pages/MovieList.tsx:142-144 | back one page except on page 1, where the button is disabled and the page stays put; never below 1 |
| MovieList.MovieListView.ClickNext | client/src/pages/MovieList.tsx:155-157 | forward exactly one page when the response reports a next page, otherwise (disabled) unchanged |
| MovieList.NextThenPrev | client/src/pages/MovieList.tsx:142-157 | an enabled next followed by prev returns to the same page |
| MovieList.CardRuntimeAsWritten | client/src/pages/MovieList.tsx:118-123 | as written: nothing for a missing runtime, and a stray "0" exactly for runtime 0 |
| MovieList.CardRuntime | client/src/pages/MovieList.tsx:118-123 | corrected: the runtime line is left out exactly for a missing or 0 runtime, and nothing stray is rendered |
| MovieList.CardRuntimeZero | client/src/pages/MovieList.tsx:118-123 | runtime 0 shows "0" as written and nothing when corrected; for every other runtime the two agree, and the line shown reads back as the runtime |
| MovieList.CardGenres | client/src/pages/MovieList.tsx:99-107 | no badges for an empty genres string; otherwise one or two badges |
| MovieList.CardYear | client/src/pages/MovieList.tsx:111-116 | no year line for a missing or empty date; otherwise the first (up to) four characters of it |
| MovieList.CardBudget | client/src/pages/MovieList.tsx:125-130 | the budget line is shown iff budget > 0, with the budget itself |
| MovieList.MovieCard | client/src/pages/MovieList.tsx:92-130 | the corrected card never shows stray text and agrees with the movie's table row: the same title, rating colour, genres, year, runtime and budget, with "N/A" in the table wherever the card leaves one out |
| MovieList.MovieCardAsWritten | client/src/pages/MovieList.tsx:92-130 | the card as written shows stray text exactly for runtime 0, and agrees with the table row exactly when the runtime is not 0 (it shows "0" where the table shows "N/A") |
| MovieListColumns.FirstTwoTrimmed | client/src/components/movieListColumns.tsx:147-149 | one or two pieces, each trimmed |
| Js.JoinSplit | client/src/components/movieListColumns.tsx:147 | splitting at commas loses nothing: the pieces join back to the string, so every genres or languages string is a comma-joined list of comma-free entries |
| MovieListColumns.FirstTwoOfList | client/src/components/movieListColumns.tsx:147-149 | for a comma-joined list (by Js.JoinSplit, any string) the badges are its first one or two entries, trimmed, in order |
| MovieListColumns.YearCell | client/src/components/movieListColumns.tsx:33-36 | "N/A" for a missing or empty date; otherwise a prefix of the date of length min(4, length) |
| MovieListColumns.YearOfIsoDate | client/src/components/movieListColumns.tsx:35 | a date of the form YYYY-… shows its year YYYY |
| MovieListColumns.RuntimeCell | client/src/components/movieListColumns.tsx:49-52 | the runtime cell is text, and it is "N/A" exactly for a missing or 0 runtime |
| MovieListColumns.RuntimeCellIsFormatRuntime | client/src/components/movieListColumns.tsx:49-52 | the cell is formatRuntime's text for every runtime, and a positive runtime reads back from it |
| MovieListColumns.MoneyCell | client/src/components/movieListColumns.tsx:102-105 | the budget cell (and, at lines 118-121, the revenue cell) shows the amount iff it is above 0, else "N/A" |
| MovieListColumns.GenresCell | client/src/components/movieListColumns.tsx:142-154 | empty exactly for an empty string; otherwise the first two trimmed genres |
| MovieListColumns.TableRow | client/src/components/movieListColumns.tsx:8-173 | the title and rating colour of the movie; "N/A" runtime exactly for a missing or 0 runtime; a Money budget or revenue cell iff the amount is > 0; an empty genres cell iff genres is ""; "N/A" languages iff the string is ""; "N/A" year for a missing or empty date |
| MovieListColumns.LanguagesCell | client/src/components/movieListColumns.tsx:159-171 | "N/A" exactly for an empty string; otherwise the first two trimmed languages |

## Left out

- HTTP: the axios requests, the API base URL and the query string's eps formatting are not modelled. A request is its parameters (`Refresh`) and its outcome (`FinishFetch`). Concurrent or out-of-order responses are not modelled, and neither is react-query's caching in useGetMovies.ts.
- The `data.detail` of an error response is modelled as an optional string. A response without `data` (where the optional chain would throw) is not modelled.
- Locale formatting is not modelled: `formatCurrency` (`Intl.NumberFormat`), `toLocaleString` and `toFixed`. A money cell is `Money(amount)`; the vote count and popularity columns and the card's vote line are left out.
- `parseFloat`/`parseInt` are not modelled. The handlers take the parsed value, with None for NaN. Floating-point numbers are modelled as `real`.
- Runtimes are natural numbers: fractional or negative runtimes are not modelled.
- `trim` removes ASCII white space and line terminators only, not the other Unicode spaces.
- Filters.GetColumnType: returns None for an unknown id, instead of requiring a listed id, because the code handles one (the optional chain gives `undefined`, and getDefaultOperator then throws, modelled as None).
- Rendering is not modelled: JSX layout, Plotly, Chart.js, the table components, the loading skeletons and the sorting headers. The model covers only the values handed to them.
- The backend is not part of this model: clustering, PCA, the summaries, the Python scripts and the Django API.
- DbScanDetails (the cluster detail table of the DBSCAN panel) is not part of this model.
- KMeansDetails.Pager.SetProps: the new props and the reset of the `useEffect` on selectedCluster (KMeansDetails.tsx:25-27) are one step, so the render in between, with the new cluster and the old page, is not modelled; `Valid()` is promised only when the cluster changes, since with the same cluster and new results the old page may lie beyond the new last page.
- BoxPlots.Traces: the box type, `boxpoints` and the layout are not modelled, and a cluster id is an integer.

## Findings

| source | as written | input that shows it | evidently intended | confidence | as-written member | corrected member |
|---|---|---|---|---|---|---|
| client/src/pages/MovieList.tsx:118-123 | `{movie.runtime && (...)}` renders the value of `movie.runtime` when it is falsy, and React renders the number 0 as the text "0" | a movie with `runtime` 0 gets a bare "0" on its card | no runtime line for a 0 runtime, as for a missing one (the table shows "N/A" for both) | not executed | MovieList.CardRuntimeAsWritten | MovieList.CardRuntime |
