/**
 The application's load pipeline: a load sets the "loading" status, and its
 completion either reports the error or marks the load complete and passes
 the parsed records through the series builder to the chart controller.

 The CSV download and parse are not modelled: their outcome is a given
 `LoadResult`. The presence of the canvas element is a given boolean.
 */
module App {
  import opened Wrappers
  import opened Rows
  import opened Series
  import opened Chart

  /** The status shown to the user. */
  datatype Status = Loading | Loaded | Failed(message: string)

  /** The outcome of a download-and-parse: the records, or the error's message. */
  datatype LoadResult = Ok(rows: seq<Row>) | Err(message: string)

  /** One load: its outcome and whether the canvas is present when it completes. */
  datatype Load = Load(result: LoadResult, canvasPresent: bool)

  /** The component's state: the status, the current chart data (`null` as
      `None`) and the chart controller's state. */
  datatype AppState = AppState(status: Status, chartData: Option<ChartData>, chart: ChartState)

  /** The state when the component is set up, before any load completes. */
  const Mounted: AppState := AppState(Loading, None, Initial)

  /** What holds between loads: the controller's invariant, every chart data
      is a well-formed series, and a held chart is bound to the current data. */
  ghost predicate Consistent(a: AppState)
  {
    && Valid(a.chart)
    && (a.chartData.Some? ==> WellFormed(a.chartData.value))
    && (a.chart.held.Some? ==> a.chartData == Some(a.chart.held.value.data))
  }

  /** Starting a load shows the "loading" status and touches nothing else. */
  function StartLoad(a: AppState): (r: AppState)
    ensures r.status == Loading
    ensures r.chartData == a.chartData && r.chart == a.chart
  {
    a.(status := Loading)
  }

  /** Stores the series built from the records as the chart data, then always
      runs the chart update, also when there are no records. */
  function PrepareAndRender(a: AppState, rows: seq<Row>, canvasPresent: bool): (r: AppState)
    ensures r.status == a.status
    ensures r.chartData == PrepareChartData(rows)
    ensures |rows| == 0 ==> r.chartData.None? && r.chart.held.None?
    ensures r.chart == UpdateChart(a.chart, PrepareChartData(rows), canvasPresent)
    ensures |rows| > 0 && a.chart.held.Some? ==>
              r.chart.held == Some(a.chart.held.value.(data := r.chartData.value))
    ensures |rows| > 0 && a.chart.held.None? ==>
              (r.chart.held.Some? <==> canvasPresent)
    ensures Consistent(a) ==> Consistent(r)
  {
    var data := PrepareChartData(rows);
    a.(chartData := data, chart := UpdateChart(a.chart, data, canvasPresent))
  }

  /** The parser's completion: on success the status becomes "complete" and the
      records go through the builder; on error the status carries the error's
      message and the chart data and chart are left as they were. */
  function OnLoadComplete(a: AppState, result: LoadResult, canvasPresent: bool): (r: AppState)
    ensures result.Err? ==> r == a.(status := Failed(result.message))
    ensures result.Ok? ==> r.status == Loaded && r.chartData == PrepareChartData(result.rows)
    ensures result.Ok? ==> r.chart == UpdateChart(a.chart, PrepareChartData(result.rows), canvasPresent)
    ensures Consistent(a) ==> Consistent(r)
  {
    match result
    case Ok(rows) => PrepareAndRender(a.(status := Loaded), rows, canvasPresent)
    case Err(message) => a.(status := Failed(message))
  }

  /** One whole load: start it, then complete it with the given outcome. A
      load always ends out of the "loading" status. */
  function LoadCsvData(a: AppState, result: LoadResult, canvasPresent: bool): (r: AppState)
    ensures r.status != Loading
    ensures result.Err? ==> r.status == Failed(result.message)
    ensures result.Err? ==> r.chartData == a.chartData && r.chart == a.chart
    ensures result.Ok? ==> r.status == Loaded && r.chartData == PrepareChartData(result.rows)
    ensures result.Ok? ==> r.chart == UpdateChart(a.chart, PrepareChartData(result.rows), canvasPresent)
    ensures Consistent(a) ==> Consistent(r)
  {
    OnLoadComplete(StartLoad(a), result, canvasPresent)
  }

  /** Loads run one after another, first load first. The component itself
      loads once, at mount; this describes what repeated calls of the same
      load would do. */
  function LoadAll(a: AppState, loads: seq<Load>): AppState
    decreases |loads|
  {
    if |loads| == 0 then a
    else LoadAll(LoadCsvData(a, loads[0].result, loads[0].canvasPresent), loads[1..])
  }

  /** Any series of sequential loads from the mounted state keeps the state
      consistent: at most one chart, bound to the current chart data. */
  lemma {:induction false} LoadAllConsistent(a: AppState, loads: seq<Load>)
    requires Consistent(a)
    ensures Consistent(LoadAll(a, loads))
    ensures |LoadAll(a, loads).chart.live| <= 1
    decreases |loads|
  {
    if |loads| > 0 {
      LoadAllConsistent(LoadCsvData(a, loads[0].result, loads[0].canvasPresent), loads[1..]);
    } else {
      AtMostOneInstance(a.chart);
    }
  }

  /** The state right after mounting is consistent. */
  lemma MountedConsistent()
    ensures Consistent(Mounted)
    ensures Mounted.chart.held.None? && Mounted.chartData.None?
  {
  }

  /** The component's one load, run at mount: it creates the first chart,
      with the first identity, exactly when it yields records and the canvas
      is present, and otherwise leaves no chart. */
  lemma MountLoadCreatesAtMostOnce(result: LoadResult, canvasPresent: bool)
    ensures var r := LoadCsvData(Mounted, result, canvasPresent);
            if result.Ok? && |result.rows| > 0 && canvasPresent then
              && r.chart.held == Some(Instance(0, PrepareChartData(result.rows).value, Bar))
              && r.chart.live == {0}
            else
              r.chart == Initial
  {
  }

  /** A failed load shows a failure status and leaves the chart data and any
      chart already drawn untouched. */
  lemma ErrorLeavesChartUntouched(a: AppState, message: string, canvasPresent: bool)
    ensures var r := LoadCsvData(a, Err(message), canvasPresent);
            && r.status == Failed(message)
            && r.chartData == a.chartData
            && r.chart == a.chart
  {
  }

  /** A load that yields no records sets the chart data to `null` and leaves
      no chart: a held one is destroyed, and none is created. */
  lemma EmptyLoadClearsChart(a: AppState, canvasPresent: bool)
    requires Consistent(a)
    ensures var r := LoadCsvData(a, Ok([]), canvasPresent);
            && r.status == Loaded
            && r.chartData.None?
            && r.chart.held.None?
            && r.chart.live == {}
  {
  }

  /** Two records, January at 100 and February at 150, loaded right after
      mounting with the canvas present, draw a new chart of two bars. */
  lemma TwoMonthScenario()
    ensures var jan := map[MonthKey := Text("Jan"), SalesKey := Number(100.0)];
            var feb := map[MonthKey := Text("Feb"), SalesKey := Number(150.0)];
            var r := LoadCsvData(Mounted, Ok([jan, feb]), true);
            && r.status == Loaded
            && r.chart.held.Some?
            && r.chart.held.value.id == 0
            && r.chart.held.value.data.labels == [Text("Jan"), Text("Feb")]
            && Values(r.chart.held.value.data) == [Number(100.0), Number(150.0)]
  {
    var jan := map[MonthKey := Text("Jan"), SalesKey := Number(100.0)];
    var feb := map[MonthKey := Text("Feb"), SalesKey := Number(150.0)];
    var r := LoadCsvData(Mounted, Ok([jan, feb]), true);
    assert Month(jan) == Text("Jan") && Sales(jan) == Number(100.0);
    assert Month(feb) == Text("Feb") && Sales(feb) == Number(150.0);
    assert |r.chart.held.value.data.labels| == 2;
  }

  /** Two successive non-empty loads with the canvas present (a second call
      of the load, which the component itself never makes): the chart created
      by the first is reused by the second and shows only its records. */
  lemma SecondLoadReplacesFirst(a: AppState, rowsA: seq<Row>, rowsB: seq<Row>)
    requires Consistent(a) && a.chart.held.None?
    requires |rowsA| > 0 && |rowsB| > 0
    ensures var ra := LoadCsvData(a, Ok(rowsA), true);
            var rb := LoadCsvData(ra, Ok(rowsB), true);
            && ra.chart.held.Some?
            && rb.chart.held.Some?
            && rb.chart.held.value.id == ra.chart.held.value.id
            && rb.chart.held.value.data == PrepareChartData(rowsB).value
            && rb.chart.live == {ra.chart.held.value.id}
  {
  }
}
