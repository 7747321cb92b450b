# CSV sales chart: series builder and chart lifecycle

A Dafny model of the logic of `app.js`, a small browser page that downloads a
CSV file of monthly sales once, when the page is mounted, turns its records
into the data of a bar chart, and keeps at most one chart on the page, bound
to that data.

- `rows.dfy` (module `Rows`): a parsed CSV record as a map from column name to
  a typed cell (`Undefined`, `Null`, `Bool`, `Number`, `Text`); reading a
  missing column yields `Undefined`, as property access does in JavaScript.
- `series.dfy` (module `Series`): `PrepareChartData`, the series builder. No
  records give "no data" (`None`, the source's `null`); otherwise the labels
  are the records' `Month` cells and the one dataset holds their `Sales`
  cells, index-aligned and in record order.
- `chart.dfy` (module `Chart`): `UpdateChart`, the chart lifecycle step over
  the one held chart reference. A chart instance is a record with an identity,
  its bound data and its type. The state also keeps the set of live (created,
  not yet destroyed) instances and a counter that issues identities, so that
  "at most one chart" and "a destroyed chart never comes back" can be stated.
- `app.dfy` (module `App`): the load pipeline. Starting a load shows the
  loading status; the parser's completion either shows a failure status and
  leaves everything else alone, or shows the completed status and runs the
  series builder followed by the chart update.
- `wrappers.dfy` (module `Wrappers`): the `Option` type.

The download and parse result is an input (`LoadResult = Ok(rows) | Err(message)`),
and the presence of the canvas element is an input (`canvasPresent`).

## Model

| member | source | states |
|---|---|---|
| Series.Column | app.js:50-51 | mapping a column over the records gives one cell per record, and cell `i` is record `i`'s value for that column (missing column: `undefined`) |
| Series.PrepareChartData | app.js:42-64 | the result is "no data" exactly when there are no records; otherwise one dataset, labels and values both as long as the records, and `labels[i]`/`values[i]` are record `i`'s Month/Sales |
| Series.ColumnAppend | app.js:50-51 | reading a column of two batches back to back is the concatenation of reading each: order is kept, nothing sorted or merged |
| Series.PrepareAppend | app.js:50-64 | the series of `a + b` is the series of `a` followed by the series of `b`, for labels and for values |
| Series.PrepareIgnoresOtherColumns | app.js:50-51 | records that agree on Month and Sales give the same series, whatever other columns they have |
| Chart.UpdateChart | app.js:72-107 | preserves the at-most-one-instance invariant; a chart is held afterwards iff there is data and either one was held or the canvas is present; a held chart is bound to the current data; a held chart keeps its identity; a created one gets a fresh identity; a destroyed one is no longer live; with none held and nothing created the state is unchanged |
| Chart.AtMostOneInstance | app.js:11 | under the invariant at most one instance is live, and one is live exactly when the reference is held |
| Chart.UpdateReusesInstance | app.js:76-79 | with a chart held, new data keeps the same instance with only its bound data replaced, and no identity is issued |
| Chart.UpdateIdempotent | app.js:76-79 | a second update with the same data and canvas leaves the state as the first left it |
| Chart.DestroyClearsReference | app.js:80-83 | with a chart held, `null` data clears the reference and leaves no live instance |
| Chart.DestroyThenCreateIsFresh | app.js:80-88 | after a destroy, the next data on a present canvas creates an instance with a new identity bound to that data |
| Chart.CreateOnlyWithCanvasAndData | app.js:87-106 | with no chart held, a chart bound to the data is created iff the canvas is present and there is data; otherwise nothing changes |
| Chart.RunKeepsValid | app.js:72-107 | over any series of update calls the invariant holds, at most one instance is live, and the identity counter never decreases |
| Chart.RunNeverRevives | app.js:80-83 | an instance that was destroyed before a series of update calls is not live after it |
| Chart.RunBindsLastData | app.js:76-79 | after any series of update calls, a held chart is bound to the data of the last call |
| App.StartLoad | app.js:17 | starting a load shows the loading status and changes nothing else |
| App.PrepareAndRender | app.js:42-67 | the chart data becomes the built series and the chart update always runs on it, also for no records; with no records the data is `null` and no chart remains; with records and a chart held, that chart is rebound to the new series; with records and none held, a chart exists afterwards iff the canvas is present; consistency is preserved |
| App.OnLoadComplete | app.js:24-35 | an error sets the failure status with the error's message and leaves chart data and chart unchanged; success sets the completed status, the chart data to the built series, and runs the chart update on it |
| App.LoadCsvData | app.js:16-37 | a load always ends out of the loading status: an error ends in the failure status with its message and leaves chart data and chart unchanged; success ends in the completed status with the built series as chart data and the chart update run on it; consistency is preserved |
| App.LoadAllConsistent | app.js:16-67 | any series of sequential loads keeps the held chart bound to the current chart data with at most one live instance |
| App.MountedConsistent | app.js:9-11 | the state at set-up has no chart data and no chart, and is consistent |
| App.MountLoadCreatesAtMostOnce | app.js:110-112 | the one load at mount creates a chart (the first identity, bound to the built series) exactly when it yields records and the canvas is present, and otherwise leaves no chart |
| App.ErrorLeavesChartUntouched | app.js:31-35 | a failed load shows the failure message and leaves the chart data and any drawn chart as they were |
| App.EmptyLoadClearsChart | app.js:44-47 | a load with no records sets the chart data to `null` and leaves no chart, destroying a held one |
| App.TwoMonthScenario | app.js:50-66 | records Jan/100 and Feb/150 loaded after set-up create a chart of two bars labelled Jan, Feb with values 100, 150 |
| App.SecondLoadReplacesFirst | app.js:76-79 | two successive non-empty loads: the second reuses the chart the first created and binds it to the second's series only |

## Left out

- CSV download, lexing and dynamic typing (app.js:20-23) belong to the parser library; the model starts from its outcome, a sequence of records or an error message. How the parser turns a particular file into records (for example a header-only file ending in a newline, which such parsers may return as one record of empty cells rather than none) is therefore not modelled.
- The parser's list of per-record parse errors on a completed parse is ignored by the source, so a completed parse is modelled as `Ok(rows)` whatever errors it carried.
- The DOM lookup of the canvas (app.js:74) is the input `canvasPresent`.
- Chart rendering, the redraw triggered by `update()`, and the chart options, title, colours and dataset legend label (app.js:56-61, app.js:88-105) are foreign calls and display constants; only the chart type is kept, as the tag `Bar`.
- Vue reactivity, mounting and the template (app.js:1, app.js:110-131) are framework plumbing; the initial load triggered on mount is the state `App.Mounted` followed by `App.LoadCsvData`.
- Console logging and the blocking alert (app.js:25, app.js:32, app.js:34) are output only.
- app.js loads once, at mount (app.js:110-112), and does not expose the load to the page, so its chart update always starts with no chart held and the update and destroy branches (app.js:76-83) are not reached in this file. `App.LoadAll`, `App.LoadAllConsistent`, `Chart.Run`, `Chart.RunBindsLastData`, `Chart.RunKeepsValid`, `Chart.RunNeverRevives` and `App.SecondLoadReplacesFirst` describe what repeated calls of the load would do; the component never makes them.
- Overlapping asynchronous loads are not modelled: repeated calls are taken one at a time, each run to completion (`App.LoadAll`).
- `Rows.Cell` represents numbers, booleans, `null`, text and `undefined`; the parser's date values and its array of surplus fields are not represented. No property depends on them, since cells pass through the builder untouched.
- The status texts are modelled as `Loading`, `Loaded` and `Failed(message)` rather than the literal strings; `Failed` carries the error's message, which the source embeds in its failure text.
- Numbers are modelled as exact reals, not IEEE doubles; the model never computes with them.
- The file-upload variant of the application is not part of this model; only the fixed-path variant's source is.
