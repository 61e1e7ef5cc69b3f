/** The series descriptors `renderChart` passes to the chart library: a
    placeholder for the time axis, then one line per non-time column with
    an HSL stroke whose hue is spread over the colour wheel by column
    position. */
module Chart {
  import Rows
  import Columnar

  const Saturation: nat := 70
  const Lightness: nat := 50
  const LineWidth: nat := 1
  const FullTurn: real := 360.0

  /** An `hsl(hue, saturation%, lightness%)` stroke colour. */
  datatype Stroke = Hsl(hue: real, saturation: nat, lightness: nat)

  /** A series descriptor: the empty object `{}` for the X axis, or a
      labelled line. */
  datatype Series = XAxis | Line(name: string, stroke: Stroke, width: nat)

  /** The hue of the series at position `k` among `n` header columns:
      `k * 360 / n` degrees. */
  function Hue(k: nat, n: nat): (h: real)
    requires k < n
    ensures 0.0 <= h < FullTurn
  {
    (k * 360) as real / n as real
  }

  /** Later series get larger hues. */
  lemma HueIncreasing(a: nat, b: nat, n: nat)
    requires a < b < n
    ensures Hue(a, n) < Hue(b, n)
  {
    var d := n as real;
    var gap := ((b - a) * 360) as real;
    assert Hue(b, n) - Hue(a, n) == gap / d;
    assert gap / d > 0.0;
  }

  /** The `series` option: `{}` followed by `columns.slice(1)` mapped to
      lines, the line for `columns[k + 1]` coloured with `Hue(k, |columns|)`. */
  function SeriesList(columns: seq<string>): (r: seq<Series>)
    ensures |r| == Columnar.ArrayCount(columns)
    ensures r[0] == XAxis
    ensures forall k :: 1 <= k < |r| ==>
              r[k].Line? && r[k].name == columns[k] && r[k].width == LineWidth &&
              r[k].stroke.saturation == Saturation && r[k].stroke.lightness == Lightness
  {
    if columns == [] then [XAxis]
    else
      [XAxis] + seq(|columns| - 1, k requires 0 <= k < |columns| - 1 =>
                      Line(columns[k + 1], Hsl(Hue(k, |columns|), Saturation, Lightness), LineWidth))
  }

  /** Line `k` is coloured with the hue of position `k - 1` among all the
      header columns, a hue on the colour wheel. */
  lemma LineHue(columns: seq<string>, k: nat)
    requires 1 <= k < |SeriesList(columns)|
    ensures SeriesList(columns)[k].stroke.hue == Hue(k - 1, |columns|)
    ensures 0.0 <= SeriesList(columns)[k].stroke.hue < FullTurn
  {
  }

  /** Of two lines, the later one has the larger hue. */
  lemma LineHuesOrdered(columns: seq<string>, a: nat, b: nat)
    requires 1 <= a < b < |SeriesList(columns)|
    ensures SeriesList(columns)[a].stroke.hue < SeriesList(columns)[b].stroke.hue
  {
    LineHue(columns, a);
    LineHue(columns, b);
    HueIncreasing(a - 1, b - 1, |columns|);
  }

  /** Every line's hue lies in [0, 360). */
  lemma SeriesHuesOnWheel(columns: seq<string>)
    ensures forall k :: 1 <= k < |SeriesList(columns)| ==>
              0.0 <= SeriesList(columns)[k].stroke.hue < FullTurn
  {
    forall k | 1 <= k < |SeriesList(columns)| ensures 0.0 <= SeriesList(columns)[k].stroke.hue < FullTurn {
      LineHue(columns, k);
    }
  }

  /** Hues strictly increase along the list, so no two lines share a
      colour. */
  lemma SeriesHuesDistinct(columns: seq<string>)
    ensures forall a, b :: 1 <= a < b < |SeriesList(columns)| ==>
              SeriesList(columns)[a].stroke.hue < SeriesList(columns)[b].stroke.hue
  {
    forall a, b | 1 <= a < b < |SeriesList(columns)|
      ensures SeriesList(columns)[a].stroke.hue < SeriesList(columns)[b].stroke.hue
    {
      LineHuesOrdered(columns, a, b);
    }
  }

  /** The chart gets one series descriptor per data buffer. */
  lemma OneSeriesPerBuffer<V>(data: seq<Rows.Row<V>>, columns: seq<string>,
                              parseMs: Rows.Option<V> -> real, toNumber: Rows.Option<V> -> real)
    ensures |SeriesList(columns)| == |Columnar.Transposed(data, columns, parseMs, toNumber)|
  {
  }
}
