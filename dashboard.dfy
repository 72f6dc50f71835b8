/** The read side of the logger (app.py): the query text that selects a
    look-back window of one measurement, and the chart description built
    from the returned table: one trace and a layout whose axis ranges frame
    the data, with `[-1, 1]` sentinels when there is nothing to show. */
module Dashboard {
  import opened Common

  // ---------------------------------------------------------------------
  // The table a query returns

  /** A pandas DataFrame as the dashboard uses it: a time index (local
      time, whole seconds) and named columns of float values. */
  datatype Table = Table(index: seq<int>, columns: map<string, seq<real>>)

  /** Every column of a DataFrame runs along the whole index. */
  type Frame = t: Table | forall c :: c in t.columns ==> |t.columns[c]| == |t.index|
    witness Table([], map[])

  /** pandas' `DataFrame.empty`: true when either axis has length zero, so
      a table with rows but no columns is empty too. */
  predicate Empty(f: Frame)
  {
    |f.index| == 0 || |f.columns| == 0
  }

  // ---------------------------------------------------------------------
  // The query text (app.py:19)

  const SelectFrom := "select * from "
  const TimeAfter := " where time > now()-"

  /** The InfluxQL text `read_db` sends: plain concatenation of the
      measurement and the look-back period into a fixed template. */
  function QueryText(measurement: string, period: string): string
  {
    SelectFrom + measurement + TimeAfter + period
  }

  /** The first position of `c` in `s`, or `|s|` when it does not occur. */
  function IndexOf(s: string, c: char): (k: nat)
    ensures k <= |s|
    ensures c !in s[..k]
    ensures k < |s| ==> s[k] == c
  {
    if s == [] || s[0] == c then 0
    else
      var k := IndexOf(s[1..], c);
      assert s[..k + 1] == [s[0]] + s[1..][..k];
      k + 1
  }

  /** A text is the concatenation of the consecutive slices it is cut into. */
  lemma Reassemble(q: string, h: nat, k: nat, m: nat)
    requires h + k + m <= |q|
    ensures q == q[..h] + q[h..][..k] + q[h..][k..][..m] + q[h..][k..][m..]
  {
  }

  /** Reads `head + measurement + middle + period` back into its two
      arguments: the measurement is everything up to the first blank after
      `head`, and `middle` must follow it. */
  function Unfill(q: string, head: string, middle: string): (r: Option<(string, string)>)
    ensures r.Some? ==> ' ' !in r.value.0 && head + r.value.0 + middle + r.value.1 == q
  {
    if |q| < |head| || q[..|head|] != head then None
    else
      var rest := q[|head|..];
      var k := IndexOf(rest, ' ');
      var tail := rest[k..];
      if |tail| < |middle| || tail[..|middle|] != middle then None
      else
        var measurement := rest[..k];
        var period := tail[|middle|..];
        Reassemble(q, |head|, k, |middle|);
        Some((measurement, period))
  }

  /** A measurement without blanks is recovered verbatim when the middle
      part of the template starts with a blank. */
  lemma UnfillFill(head: string, measurement: string, middle: string, period: string)
    requires ' ' !in measurement && |middle| > 0 && middle[0] == ' '
    ensures Unfill(head + measurement + middle + period, head, middle) == Some((measurement, period))
  {
    var q := head + measurement + middle + period;
    assert q[..|head|] == head;
    var rest := q[|head|..];
    assert rest == measurement + middle + period;
    var k := IndexOf(rest, ' ');
    assert rest[|measurement|] == ' ';
    assert rest[..|measurement|] == measurement;
    assert k == |measurement|;
    assert rest[k..] == middle + period;
  }

  /** Reads a query text back into its measurement and period. */
  function ParseQuery(q: string): (r: Option<(string, string)>)
    ensures r.Some? ==> ' ' !in r.value.0 && QueryText(r.value.0, r.value.1) == q
  {
    Unfill(q, SelectFrom, TimeAfter)
  }

  /** For a measurement name without blanks (the dashboard's are
      `autogen.mean_60s` and the like) the query text is unambiguous: both
      arguments are recovered verbatim and in order. */
  lemma ParseQueryText(measurement: string, period: string)
    requires ' ' !in measurement
    ensures ParseQuery(QueryText(measurement, period)) == Some((measurement, period))
  {
    UnfillFill(SelectFrom, measurement, TimeAfter, period);
  }

  // ---------------------------------------------------------------------
  // The chart description (app.py:31-74)

  /** A value on the x axis: a timestamp from the index, or the plain
      number Python puts there when there is no data. */
  datatype AxisValue = Stamp(seconds: int) | Number(n: int)

  datatype Range<T> = Range(lo: T, hi: T)

  datatype Axis<T> = Axis(title: string, range: Range<T>, tickColor: string, gridColor: string, lineColor: string)

  datatype Layout = Layout(
    fontColor: string,
    title: string,
    plotBackground: string,
    paperBackground: string,
    lineColor: string,
    markerColor: string,
    xaxis: Axis<AxisValue>,
    yaxis: Axis<real>)

  datatype Trace = Trace(
    x: seq<int>,
    y: seq<real>,
    name: string,
    mode: string,
    markerColor: string,
    markerLineColor: string,
    lineColor: string)

  /** The fixed margin added above and below the data on the y axis. */
  const Padding := 4.0

  const FontColor := "rgb(240,240,240)"
  const Background := "#242424"
  const AccentColor := "rgb(224,72,66)"
  const GridColor := "rgb(80,80,80)"
  const LinesAndMarkers := "lines+markers"

  function Min(s: seq<real>): (m: real)
    requires |s| > 0
    ensures m in s && forall i :: 0 <= i < |s| ==> m <= s[i]
  {
    if |s| == 1 then s[0]
    else
      var m := Min(s[1..]);
      if s[0] <= m then s[0] else m
  }

  function Max(s: seq<real>): (m: real)
    requires |s| > 0
    ensures m in s && forall i :: 0 <= i < |s| ==> s[i] <= m
  {
    if |s| == 1 then s[0]
    else
      var m := Max(s[1..]);
      if m <= s[0] then s[0] else m
  }

  /** `get_layout`: the axis ranges of the chart of column `item`. With no
      table, or an empty one, both ranges are the sentinel `[-1, 1]`;
      otherwise x runs from the first to the last index entry and y from
      the smallest value less 4 to the largest plus 4. A missing column is
      a `KeyError`, raised only when the table has data. */
  function GetLayout(data: Option<Frame>, item: string, yaxisTitle: string): (r: Result<Layout>)
    ensures r.Err? <==> data.Some? && !Empty(data.value) && item !in data.value.columns
    ensures r.Err? ==> r.error == KeyError(item)
    ensures r.Ok? ==> r.value.title == item && r.value.xaxis.title == "time" && r.value.yaxis.title == yaxisTitle
    ensures r.Ok? && (data.None? || Empty(data.value)) ==>
      r.value.xaxis.range == Range(Number(-1), Number(1)) && r.value.yaxis.range == Range(-1.0, 1.0)
    ensures r.Ok? && data.Some? && !Empty(data.value) ==>
      var f := data.value;
      var column := f.columns[item];
      var y := r.value.yaxis.range;
      && r.value.xaxis.range == Range(Stamp(f.index[0]), Stamp(f.index[|f.index| - 1]))
      && (forall i :: 0 <= i < |column| ==> y.lo + Padding <= column[i] <= y.hi - Padding)
      && (exists i :: 0 <= i < |column| && column[i] == y.lo + Padding)
      && (exists i :: 0 <= i < |column| && column[i] == y.hi - Padding)
  {
    var hasData := data.Some? && !Empty(data.value);
    if hasData && item !in data.value.columns then Err(KeyError(item))
    else
      var xRange :=
        if hasData then Range(Stamp(data.value.index[0]), Stamp(data.value.index[|data.value.index| - 1]))
        else Range(Number(-1), Number(1));
      var yRange :=
        if hasData then Range(Min(data.value.columns[item]) - Padding, Max(data.value.columns[item]) + Padding)
        else Range(-1.0, 1.0);
      Ok(Layout(
        FontColor, item, Background, Background, AccentColor, AccentColor,
        Axis("time", xRange, GridColor, GridColor, GridColor),
        Axis(yaxisTitle, yRange, GridColor, GridColor, GridColor)))
  }

  /** `get_data`: the trace of column `item`, drawn against the index, with
      the marker, the marker outline and the line all in `color`. */
  function GetData(data: Frame, item: string, color: string): (r: Result<Trace>)
    ensures r.Ok? <==> item in data.columns
    ensures r.Err? ==> r.error == KeyError(item)
    ensures r.Ok? ==>
      && r.value.x == data.index && r.value.y == data.columns[item]
      && r.value.markerColor == color && r.value.markerLineColor == color && r.value.lineColor == color
      && r.value.name == LinesAndMarkers && r.value.mode == LinesAndMarkers
  {
    if item !in data.columns then Err(KeyError(item))
    else Ok(Trace(data.index, data.columns[item], LinesAndMarkers, LinesAndMarkers, color, color, color))
  }

  /** The y range of a non-empty chart is at least twice the padding wide. */
  lemma LayoutHeight(f: Frame, item: string, yaxisTitle: string)
    requires !Empty(f) && item in f.columns
    ensures GetLayout(Some(f), item, yaxisTitle).Ok?
    ensures var y := GetLayout(Some(f), item, yaxisTitle).value.yaxis.range;
      y.hi - y.lo >= 2.0 * Padding
  {
  }

  predicate Ascending(s: seq<int>)
  {
    forall i, j :: 0 <= i <= j < |s| ==> s[i] <= s[j]
  }

  /** Layout and trace of the same column agree: the x range spans the
      trace's first and last timestamps (and, for a time-ordered index,
      every timestamp), and each plotted value sits strictly inside the y
      range, at least the padding away from either end. */
  lemma LayoutFramesTrace(f: Frame, item: string, color: string, yaxisTitle: string)
    requires !Empty(f) && item in f.columns
    ensures GetData(f, item, color).Ok? && GetLayout(Some(f), item, yaxisTitle).Ok?
    ensures var t := GetData(f, item, color).value;
      var layout := GetLayout(Some(f), item, yaxisTitle).value;
      && layout.xaxis.range == Range(Stamp(t.x[0]), Stamp(t.x[|t.x| - 1]))
      && (Ascending(t.x) ==> forall i :: 0 <= i < |t.x| ==> layout.xaxis.range.lo.seconds <= t.x[i] <= layout.xaxis.range.hi.seconds)
      && |t.y| == |t.x|
      && forall i :: 0 <= i < |t.y| ==> layout.yaxis.range.lo + Padding <= t.y[i] <= layout.yaxis.range.hi - Padding
  {
  }
}
