/**
 * Chart helpers (`src/utils/plotly-helpers.ts`): the empty traces a chart
 * starts from, the scrolling window of the x axis, the (x, y) points one
 * trace takes from a list of frames, and the updates that clear a chart.
 *
 * The charting library is not modelled: a trace is the record handed to
 * it, and the calls that draw, extend or re-lay-out a plot are left out.
 * JavaScript's conversion of a field to a number (`ToNumber`, where the
 * result may be NaN) is the parameter `toNumber`, with `None` for NaN.
 */
module Plotly {
  import opened Wire
  import opened Frames

  /** One configured trace of a chart (`TraceCfg`); an option left out of the configuration is `None`. */
  datatype TraceCfg = TraceCfg(
    field: string,
    name: string,
    color: string,
    yaxis: Option<string>,
    showBox: Option<bool>,
    scalingFactor: Option<real>,
    mode: Option<string>)

  /** A line trace as given to the chart: its data, legend name, y axis, colour, kind and drawing mode. */
  datatype LineTrace = LineTrace(
    x: seq<real>,
    y: seq<real>,
    name: string,
    yaxis: string,
    color: string,
    kind: string,
    mode: string)

  /**
   * A box-plot trace on the secondary x axis `x2`: dummy data, legend name,
   * colour, box width, outline width, y axis, and whether it is visible and
   * listed in the legend.
   */
  datatype BoxTrace = BoxTrace(
    x: seq<real>,
    y: seq<real>,
    name: string,
    kind: string,
    xaxis: string,
    color: string,
    boxPoints: bool,
    width: real,
    lineWidth: real,
    yaxis: string,
    visible: bool,
    showLegend: bool)

  /** `o ?? d`: the option when it was given, else the default. */
  function OrElse(o: Option<string>, d: string): string
  {
    if o.Some? then o.value else d
  }

  // ---------------------------------------------------------------------
  // Trace skeletons

  function LineTraceOf(t: TraceCfg): LineTrace
  {
    LineTrace([], [], t.name, OrElse(t.yaxis, "y"), t.color, "scattergl", OrElse(t.mode, "lines"))
  }

  /**
   * `createInitialTraceData`: one empty `scattergl` trace per configured
   * trace, in order, on its own y axis (`"y"` when none is given) and in its
   * own mode (`"lines"` when none is given).
   */
  function InitialTraces(traces: seq<TraceCfg>): (r: seq<LineTrace>)
    ensures |r| == |traces|
    ensures forall i | 0 <= i < |r| ::
      && r[i].x == [] && r[i].y == []
      && r[i].name == traces[i].name && r[i].color == traces[i].color && r[i].kind == "scattergl"
      && r[i].yaxis == (if traces[i].yaxis.Some? then traces[i].yaxis.value else "y")
      && r[i].mode == (if traces[i].mode.Some? then traces[i].mode.value else "lines")
  {
    seq(|traces|, i requires 0 <= i < |traces| => LineTraceOf(traces[i]))
  }

  /** `show_box` is set and true. */
  predicate Shown(t: TraceCfg)
  {
    t.showBox == Some(true)
  }

  /** The box trace of one configured trace: a single dummy point, named after the trace. */
  function BoxTraceOf(t: TraceCfg): (b: BoxTrace)
    ensures b.name == t.name + " (box)" && b.color == t.color
    ensures b.x == [0.0] && b.y == [0.0] && b.kind == "box" && b.xaxis == "x2"
  {
    BoxTrace([0.0], [0.0], t.name + " (box)", "box", "x2", t.color, false, 0.3, 1.0,
             OrElse(t.yaxis, "y"), true, false)
  }

  /** `createBoxPlotTraces`: the configured traces that ask for a box, each turned into its box trace. */
  function BoxTraces(traces: seq<TraceCfg>): (r: seq<BoxTrace>)
    ensures |r| <= |traces|
  {
    if traces == [] then []
    else (if Shown(traces[0]) then [BoxTraceOf(traces[0])] else []) + BoxTraces(traces[1..])
  }

  /** Box traces of a joined list are those of the first part, then those of the second: the order is kept. */
  lemma {:induction false} BoxTracesAppend(a: seq<TraceCfg>, b: seq<TraceCfg>)
    ensures BoxTraces(a + b) == BoxTraces(a) + BoxTraces(b)
  {
    if a != [] {
      assert (a + b)[0] == a[0];
      assert (a + b)[1..] == a[1..] + b;
      BoxTracesAppend(a[1..], b);
    } else {
      assert a + b == b;
    }
  }

  /** Every trace that asks for a box gets one, and every box belongs to a trace that asked for it. */
  lemma {:induction false} BoxTracesSpec(traces: seq<TraceCfg>)
    ensures forall j | 0 <= j < |traces| && Shown(traces[j]) :: BoxTraceOf(traces[j]) in BoxTraces(traces)
    ensures forall b | b in BoxTraces(traces) :: exists j :: 0 <= j < |traces| && Shown(traces[j]) && b == BoxTraceOf(traces[j])
  {
    if traces != [] {
      var rest := traces[1..];
      BoxTracesSpec(rest);
      var head := if Shown(traces[0]) then [BoxTraceOf(traces[0])] else [];
      assert BoxTraces(traces) == head + BoxTraces(rest);
      forall j | 0 <= j < |traces| && Shown(traces[j]) ensures BoxTraceOf(traces[j]) in BoxTraces(traces) {
        if j > 0 {
          assert traces[j] == rest[j - 1];
        }
      }
      forall b | b in BoxTraces(traces)
        ensures exists j :: 0 <= j < |traces| && Shown(traces[j]) && b == BoxTraceOf(traces[j])
      {
        if b in head {
          assert Shown(traces[0]) && b == BoxTraceOf(traces[0]);
        } else {
          assert b in BoxTraces(rest);
          var k :| 0 <= k < |rest| && Shown(rest[k]) && b == BoxTraceOf(rest[k]);
          assert traces[k + 1] == rest[k];
        }
      }
    }
  }

  // ---------------------------------------------------------------------
  // X axis window

  function Max(a: real, b: real): real
  {
    if a >= b then a else b
  }

  /**
   * `updateXAxisRange`: the window `[max(0, x − retention), max(retention, x)]`
   * for the latest x value; it is the same whether or not the plot can be
   * re-laid-out.
   */
  function XAxisRange(latestX: real, retention: real): (real, real)
  {
    (Max(0.0, latestX - retention), Max(retention, latestX))
  }

  /**
   * For a non-negative retention the window is exactly `retention` wide,
   * never starts below 0, holds every non-negative latest x, and is
   * `[0, retention]` until x passes the retention, after which it ends at x.
   */
  lemma XAxisRangeSpec(latestX: real, retention: real)
    requires retention >= 0.0
    ensures var (lo, hi) := XAxisRange(latestX, retention);
      && hi - lo == retention
      && 0.0 <= lo
      && (0.0 <= latestX ==> lo <= latestX <= hi)
      && (latestX <= retention ==> lo == 0.0 && hi == retention)
      && (latestX >= retention ==> hi == latestX)
  {
  }

  // ---------------------------------------------------------------------
  // Frame data for one trace

  /** `scaling_factor || 1`: an absent or zero factor divides by 1. */
  function Scale(t: TraceCfg): (s: real)
    ensures s != 0.0
    ensures t.scalingFactor.Some? && t.scalingFactor.value != 0.0 ==> s == t.scalingFactor.value
    ensures t.scalingFactor.None? || t.scalingFactor == Some(0.0) ==> s == 1.0
  {
    if t.scalingFactor.Some? && t.scalingFactor.value != 0.0 then t.scalingFactor.value else 1.0
  }

  /**
   * The point one frame gives a trace: x is the `xField` value, which must
   * be a number other than NaN; y is the trace's field converted to a
   * number and divided by the scale, which must not be NaN (an absent field
   * is NaN). Otherwise the frame gives no point.
   */
  function PointOf(frame: Frame, trace: TraceCfg, xField: string, toNumber: Value -> Option<real>): Option<(real, real)>
  {
    var x := if xField in frame && IsNumber(frame[xField]) then toNumber(frame[xField]) else None;
    var y := if trace.field in frame then toNumber(frame[trace.field]) else None;
    if x.Some? && y.Some? then Some((x.value, y.value / Scale(trace))) else None
  }

  /** The points of the frames, in frame order, skipping frames without one. */
  function Points(frames: seq<Frame>, trace: TraceCfg, xField: string, toNumber: Value -> Option<real>): (r: seq<(real, real)>)
    ensures |r| <= |frames|
  {
    if frames == [] then []
    else
      var init := Points(frames[..|frames| - 1], trace, xField, toNumber);
      var p := PointOf(frames[|frames| - 1], trace, xField, toNumber);
      if p.Some? then init + [p.value] else init
  }

  /** `processFrameData`: the x and y lists, pushed together frame by frame. */
  method ProcessFrameData(frames: seq<Frame>, trace: TraceCfg, xField: string, toNumber: Value -> Option<real>)
    returns (xVals: seq<real>, yVals: seq<real>)
    ensures |xVals| == |yVals| == |Points(frames, trace, xField, toNumber)|
    ensures forall i | 0 <= i < |xVals| :: Points(frames, trace, xField, toNumber)[i] == (xVals[i], yVals[i])
  {
    xVals, yVals := [], [];
    for index := 0 to |frames|
      invariant |xVals| == |yVals| == |Points(frames[..index], trace, xField, toNumber)|
      invariant forall i | 0 <= i < |xVals| :: Points(frames[..index], trace, xField, toNumber)[i] == (xVals[i], yVals[i])
    {
      assert frames[..index + 1][..index] == frames[..index];
      var frame := frames[index];
      var xVal := if xField in frame then Some(frame[xField]) else None;
      var yVal := if trace.field in frame then toNumber(frame[trace.field]) else None;
      if xVal.Some? && IsNumber(xVal.value) && toNumber(xVal.value).Some? && yVal.Some? {
        xVals := xVals + [toNumber(xVal.value).value];
        yVals := yVals + [yVal.value / Scale(trace)];
      }
    }
    assert frames[..|frames|] == frames;
  }

  /**
   * A frame gives a point exactly when its x is a non-NaN number and its
   * y field converts to a non-NaN number; the point's y times the scale is
   * that number again.
   */
  lemma PointOfSpec(frame: Frame, trace: TraceCfg, xField: string, toNumber: Value -> Option<real>)
    ensures var p := PointOf(frame, trace, xField, toNumber);
      && (p.Some? <==> xField in frame && IsNumber(frame[xField]) && toNumber(frame[xField]).Some?
                       && trace.field in frame && toNumber(frame[trace.field]).Some?)
      && (p.Some? ==> p.value.0 == toNumber(frame[xField]).value
                      && p.value.1 * Scale(trace) == toNumber(frame[trace.field]).value)
  {
  }

  /** Points of joined frame lists are the points of each part, in order. */
  lemma {:induction false} PointsAppend(a: seq<Frame>, b: seq<Frame>, trace: TraceCfg, xField: string,
                                        toNumber: Value -> Option<real>)
    ensures Points(a + b, trace, xField, toNumber) == Points(a, trace, xField, toNumber) + Points(b, trace, xField, toNumber)
  {
    if b == [] {
      assert a + b == a;
    } else {
      var n := |b| - 1;
      assert (a + b)[..|a + b| - 1] == a + b[..n];
      assert (a + b)[|a + b| - 1] == b[n];
      PointsAppend(a, b[..n], trace, xField, toNumber);
    }
  }

  /** When every frame gives a point, there is one point per frame, in frame order. */
  lemma {:induction false} PointsAllValid(frames: seq<Frame>, trace: TraceCfg, xField: string, toNumber: Value -> Option<real>)
    requires forall j | 0 <= j < |frames| :: PointOf(frames[j], trace, xField, toNumber).Some?
    ensures var r := Points(frames, trace, xField, toNumber);
      |r| == |frames| && forall i | 0 <= i < |r| :: Some(r[i]) == PointOf(frames[i], trace, xField, toNumber)
  {
    if frames != [] {
      var n := |frames| - 1;
      assert forall j | 0 <= j < n :: frames[..n][j] == frames[j];
      PointsAllValid(frames[..n], trace, xField, toNumber);
    }
  }

  /** Frames that give no point at all leave both lists empty. */
  lemma {:induction false} PointsNoneValid(frames: seq<Frame>, trace: TraceCfg, xField: string, toNumber: Value -> Option<real>)
    requires forall j | 0 <= j < |frames| :: PointOf(frames[j], trace, xField, toNumber).None?
    ensures Points(frames, trace, xField, toNumber) == []
  {
    if frames != [] {
      var n := |frames| - 1;
      assert forall j | 0 <= j < n :: frames[..n][j] == frames[j];
      PointsNoneValid(frames[..n], trace, xField, toNumber);
    }
  }

  /** `validateFrameData`: neither list holds `undefined` (`None`). */
  function ValidateFrameData(xVals: seq<Option<real>>, yVals: seq<Option<real>>): (ok: bool)
    ensures ok <==> (forall i | 0 <= i < |xVals| :: xVals[i].Some?) && (forall i | 0 <= i < |yVals| :: yVals[i].Some?)
  {
    None !in xVals && None !in yVals
  }

  /** The lists of points taken from frames always pass the validation. */
  lemma PointsValid(frames: seq<Frame>, trace: TraceCfg, xField: string, toNumber: Value -> Option<real>)
    ensures var r := Points(frames, trace, xField, toNumber);
      ValidateFrameData(seq(|r|, i requires 0 <= i < |r| => Some(r[i].0)), seq(|r|, i requires 0 <= i < |r| => Some(r[i].1)))
  {
  }

  // ---------------------------------------------------------------------
  // Clearing a chart

  /** New data for one trace. */
  datatype DataUpdate = DataUpdate(x: seq<real>, y: seq<real>)

  datatype ClearUpdates = ClearUpdates(
    lineUpdates: seq<DataUpdate>,
    boxUpdates: seq<DataUpdate>,
    lineIndices: seq<int>,
    allIndices: seq<int>)

  /**
   * `clearTraceData`: empty data for each of the line traces and a single
   * dummy point for each box trace. A count that is absent or NaN is
   * `None` and counts as 0, a negative count counts as 0, and box indices
   * that are not a list (`None`) count as none.
   */
  function ClearTraceData(lineTraceCount: Option<int>, boxTraceIndices: Option<seq<int>>): ClearUpdates
  {
    var n := if lineTraceCount.Some? && lineTraceCount.value > 0 then lineTraceCount.value else 0;
    var box := if boxTraceIndices.Some? then boxTraceIndices.value else [];
    var lineIndices := seq(n, i => i);
    ClearUpdates(seq(n, _ => DataUpdate([], [])), seq(|box|, _ => DataUpdate([0.0], [0.0])), lineIndices, lineIndices + box)
  }

  /**
   * The updates and the indices line up one to one: the first `n` (the
   * count, at least 0) clear line traces `0 .. n - 1`, the rest put the
   * dummy point back into each box trace, in the order given.
   */
  lemma ClearTraceSpec(lineTraceCount: Option<int>, boxTraceIndices: Option<seq<int>>)
    ensures var r, n := ClearTraceData(lineTraceCount, boxTraceIndices),
                        if lineTraceCount.Some? then Max(0.0, lineTraceCount.value as real).Floor else 0;
      var box := if boxTraceIndices.Some? then boxTraceIndices.value else [];
      var updates := r.lineUpdates + r.boxUpdates;
      && |r.lineUpdates| == |r.lineIndices| == n
      && |updates| == |r.allIndices| == n + |box|
      && r.allIndices == r.lineIndices + box
      && (forall k | 0 <= k < n :: r.allIndices[k] == k && updates[k] == DataUpdate([], []))
      && (forall k | n <= k < |updates| :: r.allIndices[k] == box[k - n] && updates[k] == DataUpdate([0.0], [0.0]))
  {
  }
}
