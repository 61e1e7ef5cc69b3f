/** The `complete` callback's conversion of parsed records into the chart
    library's columnar layout: one buffer of timestamps in seconds followed
    by one buffer per remaining header column, each as long as the record
    list. Date parsing and the typed array's numeric conversion are not part
    of this model; they are given as the functions `parseMs` and `toNumber`. */
module Columnar {
  import opened Rows

  /** The property key JavaScript reads for `row[columns[0]]` when
      `columns` is empty, so that `columns[0]` is `undefined`. */
  const UndefinedKey: string := "undefined"

  /** `getTime()` counts milliseconds; the time buffer holds seconds. */
  const MillisPerSecond: real := 1000.0

  /** Reading the keys of `data[0]` when there is no record throws. */
  datatype LoadError = NoRows

  datatype Result<T> = Ok(value: T) | Err(error: LoadError)

  /** How many buffers are allocated: the time buffer, then one for each
      name in `columns.slice(1)`. */
  function ArrayCount(columns: seq<string>): (n: nat)
    ensures n >= 1
    ensures columns != [] ==> n == |columns|
    ensures columns == [] ==> n == 1
  {
    1 + (if columns == [] then 0 else |columns[1..]|)
  }

  /** The key the time buffer is filled from. */
  function TimeKey(columns: seq<string>): string
  {
    if columns == [] then UndefinedKey else columns[0]
  }

  /** What the conversion stores in buffer `j` for one record. */
  function Cell<V>(row: Row<V>, columns: seq<string>, j: nat,
                   parseMs: Option<V> -> real, toNumber: Option<V> -> real): real
    requires j < ArrayCount(columns)
  {
    if j == 0 then parseMs(Get(row, TimeKey(columns))) / MillisPerSecond
    else toNumber(Get(row, columns[j]))
  }

  /** The whole columnar result, buffer by buffer: the transpose of the
      record list over the header columns. */
  function Transposed<V>(data: seq<Row<V>>, columns: seq<string>,
                         parseMs: Option<V> -> real, toNumber: Option<V> -> real): (t: seq<seq<real>>)
    ensures |t| == ArrayCount(columns)
    ensures forall j :: 0 <= j < |t| ==> |t[j]| == |data|
  {
    seq(ArrayCount(columns), j requires 0 <= j < ArrayCount(columns) =>
      seq(|data|, i requires 0 <= i < |data| => Cell(data[i], columns, j, parseMs, toNumber)))
  }

  /** Buffer 0 holds each record's parsed time divided by 1000, in record
      order. */
  lemma TimeBufferIsSeconds<V>(data: seq<Row<V>>, columns: seq<string>,
                               parseMs: Option<V> -> real, toNumber: Option<V> -> real, i: nat)
    requires i < |data|
    ensures Transposed(data, columns, parseMs, toNumber)[0][i] * MillisPerSecond
            == parseMs(Get(data[i], TimeKey(columns)))
  {
  }

  /** Buffer `j >= 1` holds each record's value under the header name
      `columns[j]`, in record order. */
  lemma SeriesBufferIsField<V>(data: seq<Row<V>>, columns: seq<string>,
                               parseMs: Option<V> -> real, toNumber: Option<V> -> real, j: nat, i: nat)
    requires 1 <= j < |columns| && i < |data|
    ensures Transposed(data, columns, parseMs, toNumber)[j][i] == toNumber(Get(data[i], columns[j]))
  {
  }

  /** With the names read from a well-formed first record, that record
      supplies a defined value for every series buffer. */
  lemma FirstRecordFillsEveryBuffer<V>(data: seq<Row<V>>, parseMs: Option<V> -> real,
                                       toNumber: Option<V> -> real, j: nat)
    requires data != [] && data[0].WellFormed() && 1 <= j < |data[0].keys|
    ensures Transposed(data, data[0].keys, parseMs, toNumber)[j][0]
            == toNumber(Some(data[0].fields[data[0].keys[j]]))
  {
    ListedKeysAreDefined(data[0], j);
  }

  /** The cells one record contributes, one per buffer: what one pass of
      `data.forEach` writes. */
  function RecordCells<V>(row: Row<V>, columns: seq<string>,
                          parseMs: Option<V> -> real, toNumber: Option<V> -> real): (v: seq<real>)
    ensures |v| == ArrayCount(columns)
  {
    seq(ArrayCount(columns), j requires 0 <= j < ArrayCount(columns) => Cell(row, columns, j, parseMs, toNumber))
  }

  /** Appends one cell to the end of each buffer. */
  function AppendCells(buffers: seq<seq<real>>, cells: seq<real>): (r: seq<seq<real>>)
    requires |buffers| == |cells|
  {
    seq(|buffers|, j requires 0 <= j < |buffers| => buffers[j] + [cells[j]])
  }

  /** An independent description of the conversion, record by record: the
      buffers after the first `k` records are those after `k - 1` records
      with the `k`-th record's cells appended. */
  function RecordByRecord<V>(data: seq<Row<V>>, columns: seq<string>,
                             parseMs: Option<V> -> real, toNumber: Option<V> -> real): (r: seq<seq<real>>)
    ensures |r| == ArrayCount(columns)
    ensures forall j :: 0 <= j < |r| ==> |r[j]| == |data|
    decreases |data|
  {
    if data == [] then seq(ArrayCount(columns), _ => [])
    else
      var before := RecordByRecord(data[..|data| - 1], columns, parseMs, toNumber);
      AppendCells(before, RecordCells(data[|data| - 1], columns, parseMs, toNumber))
  }

  /** Filling record by record yields exactly the transpose. */
  lemma {:induction false} RecordByRecordIsTransposed<V>(data: seq<Row<V>>, columns: seq<string>,
                                                         parseMs: Option<V> -> real, toNumber: Option<V> -> real)
    ensures RecordByRecord(data, columns, parseMs, toNumber) == Transposed(data, columns, parseMs, toNumber)
    decreases |data|
  {
    var r := RecordByRecord(data, columns, parseMs, toNumber);
    var t := Transposed(data, columns, parseMs, toNumber);
    if data != [] {
      var init := data[..|data| - 1];
      RecordByRecordIsTransposed(init, columns, parseMs, toNumber);
      var t' := Transposed(init, columns, parseMs, toNumber);
      forall j | 0 <= j < |t| ensures r[j] == t[j] {
        assert r[j] == t'[j] + [Cell(data[|data| - 1], columns, j, parseMs, toNumber)];
        forall i | 0 <= i < |data| ensures r[j][i] == t[j][i] {
          if i < |data| - 1 {
            assert r[j][i] == t'[j][i];
            assert init[i] == data[i];
          }
        }
      }
    }
  }

  /** Reading index `i` across all buffers gives back record `i`'s cells:
      no record's cells are moved to another index. */
  lemma RowOfTransposed<V>(data: seq<Row<V>>, columns: seq<string>,
                           parseMs: Option<V> -> real, toNumber: Option<V> -> real, i: nat)
    requires i < |data|
    ensures var t := Transposed(data, columns, parseMs, toNumber);
            seq(|t|, j requires 0 <= j < |t| => t[j][i]) == RecordCells(data[i], columns, parseMs, toNumber)
  {
  }

  /** The converted result handed to the chart: the header names and the
      buffers. */
  datatype Columns = Columns(names: seq<string>, buffers: seq<array<real>>)

  /** The buffers are pairwise different objects. */
  ghost predicate Separate(buffers: seq<array<real>>)
  {
    forall a, b :: 0 <= a < b < |buffers| ==> buffers[a] != buffers[b]
  }

  /** The `complete` callback up to the call of `renderChart`: reads the
      header names as the first record's keys (which throws when there is no
      record), allocates the buffers and fills them in place. */
  method Complete<V>(data: seq<Row<V>>, parseMs: Option<V> -> real, toNumber: Option<V> -> real)
    returns (r: Result<Columns>)
    ensures r.Err? <==> data == []
    ensures r.Ok? ==> r.value.names == data[0].keys
    ensures r.Ok? ==> |r.value.buffers| == ArrayCount(r.value.names)
    ensures r.Ok? ==> forall j :: 0 <= j < |r.value.buffers| ==>
                        r.value.buffers[j][..] == Transposed(data, r.value.names, parseMs, toNumber)[j]
    ensures r.Ok? ==> Separate(r.value.buffers)
    ensures r.Ok? ==> forall j :: 0 <= j < |r.value.buffers| ==> fresh(r.value.buffers[j])
  {
    if data == [] {
      return Err(NoRows);
    }
    var columns := data[0].keys;
    var n := |data|;
    var count := ArrayCount(columns);

    // One buffer for the time axis, then one per remaining column.
    var time := new real[n];
    var buffers: seq<array<real>> := [time];
    while |buffers| < count
      invariant 1 <= |buffers| <= count
      invariant forall j :: 0 <= j < |buffers| ==> fresh(buffers[j]) && buffers[j].Length == n
      invariant Separate(buffers)
    {
      var buffer := new real[n];
      buffers := buffers + [buffer];
    }

    // Fill them record by record.
    var i := 0;
    while i < n
      invariant 0 <= i <= n
      invariant forall j :: 0 <= j < count ==> fresh(buffers[j]) && buffers[j].Length == n
      invariant forall j, p :: 0 <= j < count && 0 <= p < i ==>
                  buffers[j][p] == Cell(data[p], columns, j, parseMs, toNumber)
    {
      buffers[0][i] := parseMs(Get(data[i], TimeKey(columns))) / MillisPerSecond;
      var j := 1;
      while j < |columns|
        invariant 1 <= j <= count
        invariant forall c, p :: 0 <= c < count && 0 <= p < i ==>
                    buffers[c][p] == Cell(data[p], columns, c, parseMs, toNumber)
        invariant forall c :: 0 <= c < j ==> buffers[c][i] == Cell(data[i], columns, c, parseMs, toNumber)
      {
        buffers[j][i] := toNumber(Get(data[i], columns[j]));
        j := j + 1;
      }
      i := i + 1;
    }

    ghost var t := Transposed(data, columns, parseMs, toNumber);
    forall j | 0 <= j < count ensures buffers[j][..] == t[j] {
      assert forall p :: 0 <= p < n ==> buffers[j][..][p] == t[j][p];
    }
    return Ok(Columns(columns, buffers));
  }
}
