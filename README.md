# Marketing dashboard: ranking, distribution, trend lookup and CSV uploader, in Dafny

This project models the client-side logic of a marketing-analytics dashboard written in
TypeScript/React:

- **Dashboard page** (`src/app/page.tsx`).
  - The *ranking projector* copies the video list, sorts it descending by CQS (or by
    timestamp when the sort select says `"timestamp"`) and keeps the first five.
  - The *distribution projector* copies a donut chart's categories, sorts them descending
    by value and fills slice `i` with `colors[i % colors.length]`. The second chart uses
    the reversed palette.
  - The *trend lookup* is `videoCqsHistory[String(id)] || []`.
  - The page state is held by four `useState` slots: `data`, `loading`, `error` and
    `selectedVideo`. The one-shot fetch effect and the select/close callbacks update them,
    and each render picks the loading view, the error view or the dashboard with its modal.
- **CSV upload page** (`src/app/upload/page.tsx`). The `CsvUploader` component has four
  state slots: `file`, `isDragging`, `uploadProgress` and `isUploading`. Its handlers are
  file change, drag over, drag leave, drop (accepts only `"text/csv"`), Remove and Upload.
  The Upload handler starts a `setInterval` timer that adds `10 + floor(random * 10)` to
  the progress each tick and clamps it at 100. The tick that reaches 100 stops the timer
  and schedules a completion that clears the file.

Modules:

- `Wrappers` (`wrappers.dfy`): an `Option` for the source's `null`/`undefined`.
- `StableSort` (`stable_sort.dfy`): both projectors sort a spread copy with a comparator
  `(a, b) => key(b) - key(a)`. JavaScript's `Array.prototype.sort` is stable, so that is
  the stable descending sort by `key`. It is modelled as an insertion sort. The module
  proves the result is sorted, a permutation and stable, and that these three properties
  determine it.
- `Projectors` (`projectors.dfy`): the pure parts of the dashboard page.
  - `Ranking`, `DonutSlices` and `ColorAt`.
  - The palette `Colors` and its reverse.
  - `String(id)` as `IdKey`, with its inverse `ParseIdKey`.
  - `HistoryFor`.
- `Dashboard` (`dashboard.dfy`): the page's state as classes.
  - `DashboardPage` holds the four state slots; `VideoCqsRanking` holds the select's
    `sortOrder`.
  - `Render` gives the screen a render shows.
  - Two client methods go through a page lifetime: load, then select and dismiss.
- `Upload` (`upload.dfy`): the uploader.
  - The class `CsvUploader` has one method per handler, plus `Tick`, `RunInterval` (the
    timer's loop, decreasing `100 - uploadProgress`) and `Complete` (the completion
    timeout).
  - The tick function `NextProgress` and the sequence `Progression` of values that one
    interval produces.

Modelling choices:

- Timestamps are the already-parsed `getTime()` integers.
- CQS and category values are `real`, since only comparisons are used.
- The random roll is a parameter in `[0, 9]`.
- A browser `File` is a record of `name` and `type`. A missing or empty file list is the
  empty sequence.
- Alerts are returned as values.

Behaviour of the code that the model reproduces and a reader may not expect:

- The fetched document is not validated against a schema. A non-ok response, a transport
  error or a body that is not JSON sets the fixed error message. A body that is the JSON
  value `null` sets `data` to null with no error, and the page then shows
  "No data available.". Both paths appear in `FetchSettled` and `LoadDashboard`.
- Any sort order other than `"timestamp"` ranks by CQS.
- The Upload button is disabled only when no file is chosen. It stays enabled while an
  upload runs, and a second click resets the progress and starts a second interval. The
  model therefore keeps the running intervals and pending completions as sequences, each
  with the file its closure captured. A completion clears whatever file is selected by
  then.
- An empty palette gives `colors[NaN]`, i.e. `undefined`: `ColorAt` returns `None`.

## Model

| member | source | states |
|---|---|---|
| `StableSort.SortDesc` | src/app/page.tsx:108-114 | the sorted copy has the input's length, is a permutation of it (multiset equality) and is non-increasing by the key |
| `StableSort.SortDescStable` | src/app/page.tsx:109-114 | the sort is stable: for every key value, the elements with that key appear in their input order |
| `StableSort.SortedStableUnique` | src/app/page.tsx:109-114 | two sequences that are both sorted descending and agree on every key's elements are equal |
| `StableSort.SortDescCharacterised` | src/app/page.tsx:109-114 | a sequence is the sort's output exactly when it is sorted descending and keeps every key's input order, i.e. the model's order is the one a stable `Array.prototype.sort` gives |
| `StableSort.SortDescOfSorted` | src/app/page.tsx:160 | sorting an already descending sequence returns it unchanged, ties included |
| `Projectors.Ranking` | src/app/page.tsx:105-116 | the ranking has min(5, n) rows for n videos, each taken from the input at most as often as it occurs there; it is non-increasing in `cqs` for every sort order except `"timestamp"`, and non-increasing in `timestamp` (most recent first) for `"timestamp"` |
| `Projectors.RankingIsTopFive` | src/app/page.tsx:108-115 | the rows are the first rows of the full sorted copy, and every video left out has a key no greater than the last row shown |
| `Projectors.RankingStable` | src/app/page.tsx:109-115 | for every key value, the rows shown with that key are a prefix of the input's videos with that key, in input order |
| `Projectors.RankingOfRankedInput` | src/app/page.tsx:107-115 | videos already listed by descending CQS are ranked exactly as listed, first five |
| `Projectors.ColorAt` | src/app/page.tsx:182 | a slice's fill is defined exactly when the palette is non-empty, is then a palette colour, and slice `i` gets `colors[i]` while `i` is below the palette length |
| `Projectors.DonutSlices` | src/app/page.tsx:158-182 | the slices are a permutation of the categories (empty for empty input), non-increasing by value, stable for equal values, and slice `i` is filled with `ColorAt(colors, i)` |
| `Projectors.DonutOfRankedInput` | src/app/page.tsx:159-161 | categories already in descending order of value are charted in that order |
| `Projectors.Reversed` | src/app/page.tsx:284 | the reversed palette has the same length and holds the palette's elements in reverse order |
| `Projectors.ProductSliceColor` | src/app/page.tsx:182-283 | slice `i` of the product-discussion chart is filled with `COLORS[i % 5]` |
| `Projectors.VideoTypeSliceColor` | src/app/page.tsx:284 | slice `i` of the video-type chart is filled with `COLORS[4 - i % 5]` |
| `Projectors.NatToDecimal` | src/app/page.tsx:292 | `String(n)` of a non-negative integer is a non-empty run of decimal digits without a leading zero |
| `Projectors.DecimalRoundTrip` | src/app/page.tsx:292 | reading the decimal digits of `n` back gives `n` |
| `Projectors.IdKey` | src/app/page.tsx:292 | `String(id)` of an integer id is non-empty, starts with a minus sign exactly when the id is negative, and is otherwise made of decimal digits; `IdKeyRoundTrip` gives its inverse |
| `Projectors.IdKeyRoundTrip` | src/app/page.tsx:292 | `Number(String(id)) == id` for every integer id |
| `Projectors.IdKeyInjective` | src/app/page.tsx:292 | two ids have the same history key exactly when they are equal, so no video reads another's series |
| `Projectors.HistoryFor` | src/app/page.tsx:292 | a present key gives exactly its stored series, in stored order; an absent key gives the empty series |
| `Projectors.HistoryForVideoOne` | src/app/page.tsx:292 | video 1 reads the series stored under `"1"`, and video 2 reads no points from a map with only that key |
| `Dashboard.VideoCqsRanking.constructor` | src/app/page.tsx:106 | the sort order starts as `"cqs"` |
| `Dashboard.VideoCqsRanking.OnSortOrderChange` | src/app/page.tsx:124 | the select's value becomes the sort order |
| `Dashboard.DashboardPage.constructor` | src/app/page.tsx:234-237 | the page starts loading, with no data, no error and no selection |
| `Dashboard.DashboardPage.FetchSettled` | src/app/page.tsx:239-257 | loading ends whatever the outcome; a transport error, non-ok status or unparsable body sets the fixed error and leaves `data` as it was; a document becomes `data`; a JSON `null` body sets `data` to null; the selection is untouched |
| `Dashboard.DashboardPage.OnVideoSelect` | src/app/page.tsx:280 | the given video replaces any earlier selection; data, loading and error are unchanged |
| `Dashboard.DashboardPage.ClickRankingRow` | src/app/page.tsx:136-137 | clicking row `i` selects the `i`-th ranked video, which belongs to the loaded video list |
| `Dashboard.DashboardPage.OnClose` | src/app/page.tsx:292 | closing the modal clears the selection and nothing else |
| `Dashboard.DashboardPage.Render` | src/app/page.tsx:259-292 | loading view while loading; error view (with `error`, or "No data available.") when `error` is set or data is null; otherwise the dashboard, with the trend modal shown exactly when a video is selected |
| `Dashboard.LoadDashboard` | src/app/page.tsx:234-265 | the first render is the loading view; after the fetch settles, the page shows an error view exactly when no document was delivered (the fixed message when the fetch threw), otherwise the dashboard built from the document, ranked by CQS, with no modal |
| `Dashboard.SelectThenDismiss` | src/app/page.tsx:237-292 | selecting `a` then `b` opens `b`'s trend with `HistoryFor(b.id)`; closing hides the modal; closing again changes nothing |
| `Upload.NextProgress` | src/app/upload/page.tsx:84-95 | a tick's progress never exceeds 100, is 100 exactly when the tick stops the interval, otherwise rises by 10 to 19, and is strictly greater than the previous value below 100 |
| `Upload.Progression` | src/app/upload/page.tsx:83-97 | one interval ticks at most once per available roll |
| `Upload.ProgressionFinishes` | src/app/upload/page.tsx:84-93 | from progress `p <= 100` the interval stops within `MaxTicks(p)` ticks (ten from 0); every earlier tick stays below 100, the last gives 100, and progress rises strictly |
| `Upload.ProgressionAtLeast` | src/app/upload/page.tsx:85 | a tick adds at most 19, so an interval that reaches 100 from `p` runs at least `(100 - p) / 19` ticks |
| `Upload.FromZeroSixToTenTicks` | src/app/upload/page.tsx:80-93 | an upload from 0 takes between six and ten ticks |
| `Upload.CsvUploader.constructor` | src/app/upload/page.tsx:39-42 | no file, not dragging, progress 0, not uploading, no timers |
| `Upload.CsvUploader.HandleFileChange` | src/app/upload/page.tsx:44-48 | the first chosen file becomes `file`, of any type; with no file chosen `file` is unchanged; nothing else changes |
| `Upload.CsvUploader.HandleDragOver` | src/app/upload/page.tsx:50-53 | sets `isDragging`; nothing else changes |
| `Upload.CsvUploader.HandleDragLeave` | src/app/upload/page.tsx:55-58 | clears `isDragging`; nothing else changes |
| `Upload.CsvUploader.HandleDrop` | src/app/upload/page.tsx:60-71 | always clears `isDragging`; a first file of type exactly `"text/csv"` replaces `file`; a first file of another type alerts and leaves `file` unchanged; no file leaves it unchanged |
| `Upload.CsvUploader.HandleRemove` | src/app/upload/page.tsx:132 | Remove sets `file` to null and nothing else |
| `Upload.CsvUploader.HandleUpload` | src/app/upload/page.tsx:73-98 | it alerts exactly when the button is disabled (`UploadDisabled`); without a file it alerts and changes no state; with one it sets `isUploading`, resets the progress to 0 and starts an interval bound to that file |
| `Upload.ClickUpload` | src/app/upload/page.tsx:73-139 | after a file choice, the Upload button (`UploadDisabled`, `disabled={!file}`) is disabled exactly when nothing was chosen, exactly when a click only alerts, and otherwise the click starts one interval |
| `Upload.CsvUploader.Tick` | src/app/upload/page.tsx:84-96 | progress becomes `NextProgress`; the tick that reaches 100 clears that interval and schedules its completion, any other tick leaves the timers alone |
| `Upload.CsvUploader.RunInterval` | src/app/upload/page.tsx:83-97 | the interval's loop ends with progress 100 after as many ticks as `Progression` has values, at most `MaxTicks`, having cleared itself and scheduled its completion |
| `Upload.CsvUploader.Complete` | src/app/upload/page.tsx:88-92 | the completion alerts with the captured file's name, sets `isUploading` to false and `file` to null |
| `Upload.UploadOnce` | src/app/upload/page.tsx:73-97 | choosing a file and uploading ends, after six to ten ticks, with progress 100, a completion alert naming the file, no file and no upload running |

## Left out

- cqs.py and main.py: pandas aggregation, floating-point weighted scores, random fake scores and CSV/JSON file I/O, all library and I/O work.
- The `fetch('/output.json')` call and JSON decoding: only their outcome is an input to `FetchSettled`. A decoded body of some other JSON shape, which the code would pass on unchecked, is not modelled.
- Parsing ISO timestamps with `new Date(...)`, including NaN dates; timestamps are pre-parsed integers, and NaN scores are not modelled.
- Percentage labels computed by the chart library, `toFixed`, date formatting, and the zero-total case of the percentages, which the chart library handles.
- JSX rendering, styling, the chart and icon components, the `Sidebar`, `Card` and `NextMonthFocus` presentational components (the focus data is passed through unchanged).
- `setInterval`/`setTimeout` timing, so the interleaving of several intervals' ticks and completions is chosen by the caller of `Tick`, `RunInterval` and `Complete`; `Math.random` is a roll parameter; `alert` is a returned message; `console.error` is dropped.
- `Projectors.ColorAt`: the palette cycling for slices beyond the palette length is stated only as `colors[i % colors.length]` being a palette colour, not as a proved lemma that the colours repeat with the palette's length.
- `Projectors.IdKey`: models `String(id)` for integer ids in decimal; JavaScript's exponent form for magnitudes of 1e21 and above and non-integer ids are not modelled.
- React's rendering of the `useMemo` caches and StrictMode's double invocation of effects and updaters.
