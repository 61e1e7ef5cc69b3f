# CSV time-series viewer: renderer core in Dafny

This project models the renderer of a small desktop CSV viewer. A click on
the load button asks the main process for a file path. A CSV parser then
reads that file into records keyed by header name. The renderer's
`complete` callback turns the records into the chart library's columnar
layout: one buffer of timestamps in seconds, then one buffer per remaining
column, each as long as the record list. `renderChart` then builds one
series descriptor per column, with a hue spread over the colour wheel. It
replaces the previous chart and reports the row count on the status line.

Modules:

- `Rows` (`rows.dfy`): the parser's records. Each record has its keys in
  `Object.keys` order and a map from key to an abstract value `V`. A
  property read gives `Option<V>`, where `None` is `undefined`.
- `Columnar` (`columnar.dfy`): the conversion. `Transposed` specifies it as
  a function. `Complete` is the imperative version: it allocates the
  buffers and fills them with a nested loop, and is proved equal to
  `Transposed`. `RecordByRecord` is an independent, record-at-a-time
  definition, proved equal to `Transposed`.
- `Chart` (`chart.dfy`): the series list and the hue formula, with their
  bounds and ordering.
- `Viewer` (`viewer.dfy`): the class `App`. It holds the module-level
  `chart` variable and the status line, and has the click handler and
  `renderChart` as methods.

Facts about the program that the model keeps:

- Series `k`'s hue is `k * 360 / columns.length` (renderer.js:52).
- An unparseable date and an absent field go to `parseMs` and `toNumber`
  unchanged. In the program both become NaN; there is no fallback value.
- An empty record list has no first record. Reading the keys of `data[0]`
  throws (renderer.js:23), so nothing is drawn.
- The column names are the first record's keys in `Object.keys` order.
  Keys that look like array indices come first, in ascending numeric
  order. With the header `time,2021,2022` the names are
  `2021,2022,time`, so the time buffer is read from column `2021`. The
  model takes the key order as given and so covers this case too.

## Model

| member | source | states |
|---|---|---|
| Columnar.ArrayCount | renderer.js:26-27 | one time buffer plus one per `columns.slice(1)`: exactly `columns.length` buffers when there is a column, one when there is none |
| Columnar.Transposed | renderer.js:26-34 | the converted layout has `ArrayCount(columns)` buffers, each as long as the record list |
| Columnar.TimeBufferIsSeconds | renderer.js:30 | buffer 0 at index `i` times 1000 is record `i`'s parsed time in milliseconds, read under `columns[0]` (under the key `"undefined"` when there is no column) |
| Columnar.SeriesBufferIsField | renderer.js:31-33 | for `1 <= j < columns.length`, buffer `j` at index `i` is record `i`'s value under the key `columns[j]` |
| Columnar.FirstRecordFillsEveryBuffer | renderer.js:23 | because the names come from the first record, that record has a defined value for every series buffer |
| Columnar.RowOfTransposed | renderer.js:29-34 | reading index `i` across all buffers gives exactly record `i`'s cells, so record order is kept |
| Columnar.RecordByRecord | renderer.js:29-34 | an append-based reference definition of the loop's final result: `ArrayCount` buffers, each as long as the record list |
| Columnar.RecordByRecordIsTransposed | renderer.js:29-34 | the append-based reference definition equals the transpose for every input, so both describe the buffers the in-place loop leaves behind |
| Rows.ListedKeysAreDefined | renderer.js:30-32 | a property read `row[key]` of a key the record lists gives that key's value, never `undefined` |
| Columnar.Complete | renderer.js:21-35 | fails exactly when there are no records; otherwise the names are the first record's keys in `Object.keys` order, the buffers are new, distinct and `ArrayCount` in number, and each buffer's contents equal the transpose's |
| Chart.Hue | renderer.js:52 | the hue `k * 360 / n` of series `k` among `n` columns lies in [0, 360) |
| Chart.HueIncreasing | renderer.js:52 | the hue is strictly increasing in the series position |
| Chart.SeriesList | renderer.js:48-55 | an X-axis placeholder first, then one line per remaining column: exactly `columns.length` entries (one when there is no column); line `k` is named `columns[k]`, has width 1 and is stroked at 70% saturation and 50% lightness |
| Chart.LineHue | renderer.js:50-52 | line `k` has the hue `Hue(k - 1, columns.length)`, which lies in [0, 360) |
| Chart.LineHuesOrdered | renderer.js:50-52 | of two lines, the later one has the strictly larger hue |
| Chart.SeriesHuesOnWheel | renderer.js:50-54 | every line's hue in the series list lies in [0, 360) |
| Chart.SeriesHuesDistinct | renderer.js:50-54 | hues strictly increase along the series list, so no two lines share a hue |
| Chart.OneSeriesPerBuffer | renderer.js:48-55 | the series list has exactly as many entries as there are data buffers |
| Viewer.App.constructor | renderer.js:5 | no chart exists before the first load |
| Viewer.App.RenderChart | renderer.js:41-63 | the chart is replaced by one built from the series list and the buffers; the status line reports the time buffer's length |
| Viewer.App.Load | renderer.js:8-39 | a cancelled or empty path changes nothing; with no records the status stays on "analysing" and the old chart stays; otherwise the chart plots the transposed records and the status reports one row per record |
| Viewer.ReportedRowsAreRecords | renderer.js:62 | the time buffer, whose length is the reported row count, is as long as the record list |

## Left out

- `main.js`: window creation, the IPC handler and the native open-file dialog. The dialog's answer is the `filePath` parameter of `Load`.
- The CSV parser: file reading, header handling, dynamic typing and empty-line skipping. Its output records are the `data` parameter.
- `new Date(...).getTime()`: a foreign, permissive date parser, modelled as the function parameter `parseMs`.
- Typed-array coercion to numbers: an abstract `toNumber` parameter. NaN and IEEE-754 rounding of `/ 1000` and of the hue division are not modelled; division is exact over `real`.
- The parser's asynchrony: `Load` runs the `complete` callback directly after the path check.
- A failed read or download: the parser is given no `error` callback, so `complete` never runs, the status stays on "analysing" and the old chart stays. `Load` always delivers `data`, so the model reaches that state only through `data == []`.
- The chart library itself: construction, `destroy`, sizing from DOM offsets, the time scale, and drag-to-zoom (`cursor.drag.setScale`). The old chart is simply replaced.
- The status line's text and `toLocaleString`: only the row count is modelled.
