/**
 The series builder: turns the parsed records into the data object a bar
 chart is bound to, or into "no data" when there are no records.
 */
module Series {
  import opened Wrappers
  import opened Rows

  /** The one dataset of the chart. Its legend label, colours and border width
      are display constants and are not part of the model. */
  datatype Dataset = Dataset(data: seq<Cell>)

  /** The object bound to a chart: the category labels and the datasets drawn over them. */
  datatype ChartData = ChartData(labels: seq<Cell>, datasets: seq<Dataset>)

  /** The shape every built series has: one dataset, index-aligned with the
      labels, and at least one bar. */
  ghost predicate WellFormed(cd: ChartData)
  {
    && |cd.datasets| == 1
    && |cd.labels| == |cd.datasets[0].data|
    && |cd.labels| > 0
  }

  /** The bar heights of a series (the data of its first dataset). */
  function Values(cd: ChartData): seq<Cell>
    requires |cd.datasets| > 0
  {
    cd.datasets[0].data
  }

  /** `rows.map(row => row[key])`: one cell per record, in record order. */
  function Column(rows: seq<Row>, key: string): (col: seq<Cell>)
    ensures |col| == |rows|
    ensures forall i :: 0 <= i < |rows| ==> col[i] == Field(rows[i], key)
  {
    if |rows| == 0 then [] else [Field(rows[0], key)] + Column(rows[1..], key)
  }

  /** Builds the chart data from the parsed records. No records means no data
      (`null`); otherwise the labels are the records' months and the single
      dataset holds their sales, both in record order, with no sorting,
      merging or removal of repeated months. */
  function PrepareChartData(rows: seq<Row>): (r: Option<ChartData>)
    ensures r.None? <==> |rows| == 0
    ensures r.Some? ==> WellFormed(r.value) && |r.value.labels| == |rows|
    ensures r.Some? ==> forall i :: 0 <= i < |rows| ==>
                          && r.value.labels[i] == Month(rows[i])
                          && Values(r.value)[i] == Sales(rows[i])
  {
    if |rows| == 0 then None
    else
      var labels := Column(rows, MonthKey);
      var sales := Column(rows, SalesKey);
      Some(ChartData(labels, [Dataset(sales)]))
  }

  /** Reading one column of two batches of records back to back is reading
      each batch in turn: the builder keeps record order. */
  lemma ColumnAppend(a: seq<Row>, b: seq<Row>, key: string)
    ensures Column(a + b, key) == Column(a, key) + Column(b, key)
  {
  }

  /** The series of two non-empty batches of records, one after the other, is
      the concatenation of their series: labels and values stay in input
      order and nothing is merged across the seam. */
  lemma PrepareAppend(a: seq<Row>, b: seq<Row>)
    requires |a| > 0 && |b| > 0
    ensures PrepareChartData(a + b).Some?
    ensures PrepareChartData(a + b).value.labels
            == PrepareChartData(a).value.labels + PrepareChartData(b).value.labels
    ensures Values(PrepareChartData(a + b).value)
            == Values(PrepareChartData(a).value) + Values(PrepareChartData(b).value)
  {
    ColumnAppend(a, b, MonthKey);
    ColumnAppend(a, b, SalesKey);
  }

  /** Only the month and sales columns matter: records that agree on those two
      columns give the same series, whatever else they carry. */
  lemma PrepareIgnoresOtherColumns(rows: seq<Row>, rows': seq<Row>)
    requires |rows| == |rows'|
    requires forall i :: 0 <= i < |rows| ==>
               Month(rows[i]) == Month(rows'[i]) && Sales(rows[i]) == Sales(rows'[i])
    ensures PrepareChartData(rows) == PrepareChartData(rows')
  {
    if |rows| > 0 {
      var r, r' := PrepareChartData(rows).value, PrepareChartData(rows').value;
      assert r.labels == r'.labels;
      assert Values(r) == Values(r');
      assert r.datasets == [Dataset(Values(r))];
      assert r'.datasets == [Dataset(Values(r'))];
    }
  }
}
