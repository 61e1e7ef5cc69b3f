/** The renderer's state: the current chart and the status line. The
    click handler asks for a file path, lets the CSV parser read it, turns
    the records into buffers and draws them; `renderChart` replaces the
    previous chart and reports how many rows were loaded. */
module Viewer {
  import opened Rows
  import opened Columnar
  import opened Chart

  /** What the status line says. `Idle` is whatever the page shows before
      the first load. */
  datatype Info = Idle | Analysing | Loaded(rows: nat)

  /** A chart on screen: its series descriptors and the buffers it plots. */
  datatype Plot = Plot(series: seq<Series>, buffers: seq<array<real>>)

  class App {
    var chart: Option<Plot>
    var info: Info

    constructor ()
      ensures chart == None && info == Idle
    {
      chart := None;
      info := Idle;
    }

    /** Replaces the chart (destroying any previous one) and puts the length
        of the first buffer, the time buffer, on the status line. */
    method RenderChart(columns: seq<string>, buffers: seq<array<real>>)
      requires |buffers| >= 1
      modifies this
      ensures chart == Some(Plot(SeriesList(columns), buffers))
      ensures info == Loaded(buffers[0].Length)
    {
      chart := Some(Plot(SeriesList(columns), buffers));
      info := Loaded(buffers[0].Length);
    }

    /** One click on the load button. `filePath` is the dialog's answer
        (`None` when it was cancelled) and `data` the records the parser
        delivers for that file. A missing or empty path returns before
        anything changes; with no records, reading the first record's keys
        throws, so the status line stays on "analysing" and the old chart
        stays. Otherwise the new chart plots the transposed records and the
        status line reports one row per record. */
    method Load<V>(filePath: Option<string>, data: seq<Row<V>>,
                   parseMs: Option<V> -> real, toNumber: Option<V> -> real)
      modifies this
      ensures (filePath == None || filePath == Some("")) ==>
                chart == old(chart) && info == old(info)
      ensures filePath.Some? && filePath.value != "" && data == [] ==>
                chart == old(chart) && info == Analysing
      ensures filePath.Some? && filePath.value != "" && data != [] ==>
                info == Loaded(|data|) &&
                chart.Some? &&
                chart.value.series == SeriesList(data[0].keys) &&
                |chart.value.buffers| == ArrayCount(data[0].keys) &&
                forall j :: 0 <= j < |chart.value.buffers| ==>
                  chart.value.buffers[j][..] == Transposed(data, data[0].keys, parseMs, toNumber)[j]
    {
      if filePath == None || filePath.value == "" {
        return;
      }
      info := Analysing;
      var converted := Complete(data, parseMs, toNumber);
      if converted.Err? {
        return;
      }
      var columns := converted.value.names;
      var buffers := converted.value.buffers;
      RenderChart(columns, buffers);
    }
  }

  /** The row count on the status line is the number of parsed records:
      the time buffer is as long as the record list. */
  lemma ReportedRowsAreRecords<V>(data: seq<Row<V>>, columns: seq<string>,
                                  parseMs: Option<V> -> real, toNumber: Option<V> -> real)
    ensures |Transposed(data, columns, parseMs, toNumber)[0]| == |data|
  {
  }
}
