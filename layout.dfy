/**
 * The geometry of a chart as pure functions: what the drawing routines append
 * to the canvas, given its size, the values and the drawing options. The
 * imperative routines in module Graf are proved to append exactly these
 * sequences; module LayoutProperties proves what the layout guarantees.
 */
module Layout {
  import opened Wrappers
  import opened Shapes

  /** Margins of the plot area, in pixels. */
  const BorderLeft: real := 50.0
  const BorderBottom: real := 30.0
  const TickSize: real := 5.0
  const LabelHeight: real := 30.0

  datatype GraphType = BAR | LINE

  /** The parameter error raised by DrawGraph, with its message. */
  datatype GraphParameterException = GraphParameterException(message: string)

  const NoValuesMessage := "Graph has to get at least one value to Draw."
  const NoStepsMessage := "There has to be at least one step."

  /** Largest value, scanning left to right and keeping the first maximum. */
  function Max(values: seq<real>): real
    requires |values| >= 1
  {
    if |values| == 1 then values[0]
    else
      var m := Max(values[..|values| - 1]);
      if values[|values| - 1] > m then values[|values| - 1] else m
  }

  /** Every value times the same multiplier. */
  function ScaledBy(multiplier: real, values: seq<real>): seq<real>
  {
    seq(|values|, i requires 0 <= i < |values| => multiplier * values[i])
  }

  /** Pixel height of each value: the canvas height above the bottom margin, scaled by value / Max. */
  function Scaled(canvasHeight: real, values: seq<real>): seq<real>
    requires |values| >= 1 && Max(values) != 0.0
  {
    ScaledBy((canvasHeight - BorderBottom) / Max(values), values)
  }

  /**
   * What DrawGraph demands of its callers once its own checks pass: a non-zero
   * maximum to divide by, and an identifier for every value the data layer
   * labels. A one-point line chart is exempt from both: its line loop never
   * runs, so it reads neither a height nor an identifier.
   */
  predicate Admissible(values: seq<real>, identifiers: seq<string>, steps: int, graphType: GraphType)
  {
    |values| >= 1 && steps >= 1 ==>
      (graphType == LINE && |values| == 1) || (Max(values) != 0.0 && |identifiers| >= |values|)
  }

  /**
   * i widths laid end to end. It equals width * i (MultipleIsProduct); the
   * layout is written with it so that positions stay linear for the verifier.
   */
  function Multiple(width: real, i: nat): real
  {
    if i == 0 then 0.0 else Multiple(width, i - 1) + width
  }

  /** A vertical separator at x below a category: full height or a short tick. */
  function Separator(h: real, x: real, fullLine: bool, brush: Brush): Primitive
  {
    if fullLine then Line(x, 0.0, x, (h - BorderBottom) + TickSize, brush, 1.0)
    else Line(x, h - BorderBottom, x, (h - BorderBottom) + TickSize, brush, 2.0)
  }

  /** The label naming a category, hanging below the x-axis. */
  function CategoryLabel(left: real, h: real, slotWidth: real, identifier: string, brush: Brush): Primitive
  {
    Label(left, h - BorderBottom, slotWidth, Some(BorderBottom - TickSize), Text(identifier), brush,
          HorizontalAlignment.Center, VerticalAlignment.Top)
  }

  // ---------------------------------------------------------------- axes

  function YAxis(h: real, brush: Brush): Primitive
  {
    Line(BorderLeft, 0.0, BorderLeft, h - BorderBottom / 2.0, brush, 2.0)
  }

  function XAxis(w: real, h: real, brush: Brush): Primitive
  {
    Line(BorderLeft / 2.0, h - BorderBottom, w, h - BorderBottom, brush, 2.0)
  }

  function StepSize(h: real, steps: int): real
    requires steps >= 1
  {
    (h - BorderBottom) / steps as real
  }

  /** Horizontal gridline (or tick on the y-axis) number i. */
  function Gridline(w: real, h: real, stepSize: real, i: nat, brush: Brush, fullLine: bool): Primitive
  {
    if fullLine then
      Line(BorderLeft - TickSize, (h - BorderBottom) - Multiple(stepSize, i),
           w, (h - BorderBottom) - Multiple(stepSize, i), brush, 1.0)
    else
      Line(BorderLeft - TickSize, (h - BorderBottom) - Multiple(stepSize, i),
           BorderLeft, (h - BorderBottom) - Multiple(stepSize, i), brush, 2.0)
  }

  /** Right-aligned scale label left of gridline i, showing maxVal / i. */
  function StepLabel(h: real, stepSize: real, maxVal: real, i: nat, brush: Brush): Primitive
    requires i >= 1
  {
    Label(0.0, h - BorderBottom - Multiple(stepSize, i) - LabelHeight / 2.0, BorderLeft - TickSize, None,
          Number(maxVal / i as real), brush, HorizontalAlignment.Right, VerticalAlignment.Center)
  }

  /**
   * The value a bar of the same chart would need to reach gridline i of steps:
   * i steps' worth of the maximum. This is what scale label i evidently means
   * to show; the drawn label shows maxVal / i instead (see StepLabel).
   */
  function ScaleValue(maxVal: real, steps: int, i: nat): real
    requires steps >= 1
  {
    maxVal * i as real / steps as real
  }

  /** Gridline i and its scale label. */
  function AxisStep(w: real, h: real, stepSize: real, maxVal: real, brush: Brush, fullLine: bool, i: nat): seq<Primitive>
    requires i >= 1
  {
    [Gridline(w, h, stepSize, i, brush, fullLine), StepLabel(h, stepSize, maxVal, i, brush)]
  }

  /** The two axes followed by gridline and label 1..k. */
  function AxesUpTo(w: real, h: real, stepSize: real, maxVal: real, brush: Brush, fullLine: bool, k: nat)
    : (layer: seq<Primitive>)
    ensures |layer| == 2 + 2 * k
  {
    if k == 0 then [YAxis(h, brush), XAxis(w, h, brush)]
    else
      AxesUpTo(w, h, stepSize, maxVal, brush, fullLine, k - 1) + AxisStep(w, h, stepSize, maxVal, brush, fullLine, k)
  }

  /** The axis layer DrawAxes appends. */
  function AxesLayer(w: real, h: real, maxVal: real, steps: int, brush: Brush, fullLine: bool): seq<Primitive>
    requires steps >= 1
  {
    AxesUpTo(w, h, StepSize(h, steps), maxVal, brush, fullLine, steps)
  }

  // ---------------------------------------------------------------- bars

  /** Width of each of the n category slots right of the y-axis. */
  function SlotWidth(w: real, n: int): real
    requires n >= 1
  {
    (w - BorderLeft) / n as real
  }

  function BarRect(h: real, slotWidth: real, barHeight: real, i: nat, brush: Brush): Primitive
  {
    Rect(BorderLeft + Multiple(slotWidth, i) + slotWidth * 0.1, (h - BorderBottom) - barHeight,
         slotWidth * 0.8, barHeight, brush)
  }

  /** Bar, label and separator of category i. */
  function BarSlot(h: real, slotWidth: real, heights: seq<real>, identifiers: seq<string>,
                   tickBrush: Brush, barBrush: Brush, fullLine: bool, i: nat): seq<Primitive>
    requires i < |heights| && i < |identifiers|
  {
    [BarRect(h, slotWidth, heights[i], i, barBrush),
     CategoryLabel(BorderLeft + Multiple(slotWidth, i), h, slotWidth, identifiers[i], tickBrush),
     Separator(h, BorderLeft + Multiple(slotWidth, i + 1), fullLine, tickBrush)]
  }

  /** Bar, label and separator for categories 0..k-1. */
  function BarsUpTo(h: real, slotWidth: real, heights: seq<real>, identifiers: seq<string>,
                    tickBrush: Brush, barBrush: Brush, fullLine: bool, k: nat): (layer: seq<Primitive>)
    requires k <= |heights| && k <= |identifiers|
    ensures |layer| == 3 * k
  {
    if k == 0 then []
    else
      BarsUpTo(h, slotWidth, heights, identifiers, tickBrush, barBrush, fullLine, k - 1)
      + BarSlot(h, slotWidth, heights, identifiers, tickBrush, barBrush, fullLine, k - 1)
  }

  /** The bar layer DrawBarGraph appends. */
  function BarLayer(w: real, h: real, heights: seq<real>, identifiers: seq<string>,
                    tickBrush: Brush, barBrush: Brush, fullLine: bool): seq<Primitive>
    requires 1 <= |heights| <= |identifiers|
  {
    BarsUpTo(h, SlotWidth(w, |heights|), heights, identifiers, tickBrush, barBrush, fullLine, |heights|)
  }

  // ---------------------------------------------------------------- lines

  /** Horizontal distance between consecutive points of an n-point line chart. */
  function PointSpacing(w: real, n: int): real
    requires n >= 2
  {
    (w - BorderLeft) / (n - 1) as real
  }

  /** The segment from point i-1, of pixel height fromHeight, to point i, of pixel height toHeight. */
  function Segment(h: real, spacing: real, fromHeight: real, toHeight: real, i: nat, brush: Brush): Primitive
    requires i >= 1
  {
    Line(BorderLeft + Multiple(spacing, i - 1), h - BorderBottom - fromHeight,
         BorderLeft + Multiple(spacing, i), h - BorderBottom - toHeight, brush, 2.0)
  }

  /** Label, segment and separator of point i. */
  function LineSlot(h: real, spacing: real, heights: seq<real>, identifiers: seq<string>,
                    tickBrush: Brush, lineBrush: Brush, fullLine: bool, i: nat): seq<Primitive>
    requires 1 <= i < |heights| && i < |identifiers|
  {
    [CategoryLabel(BorderLeft + Multiple(spacing, i) - spacing / 2.0, h, spacing, identifiers[i], tickBrush),
     Segment(h, spacing, heights[i - 1], heights[i], i, lineBrush),
     Separator(h, BorderLeft + Multiple(spacing, i), fullLine, tickBrush)]
  }

  /** Label, segment and separator for points 1..k-1. */
  function SegmentsUpTo(h: real, spacing: real, heights: seq<real>, identifiers: seq<string>,
                        tickBrush: Brush, lineBrush: Brush, fullLine: bool, k: nat): (layer: seq<Primitive>)
    requires 1 <= k <= |heights| && (k == 1 || k <= |identifiers|)
    ensures |layer| == 3 * (k - 1)
  {
    if k == 1 then []
    else
      SegmentsUpTo(h, spacing, heights, identifiers, tickBrush, lineBrush, fullLine, k - 1)
      + LineSlot(h, spacing, heights, identifiers, tickBrush, lineBrush, fullLine, k - 1)
  }

  /** The line layer DrawLineGraph appends: nothing for a single point. */
  function LineLayer(w: real, h: real, heights: seq<real>, identifiers: seq<string>,
                     tickBrush: Brush, lineBrush: Brush, fullLine: bool): seq<Primitive>
    requires |heights| >= 1 && (|heights| == 1 || |heights| <= |identifiers|)
  {
    if |heights| == 1 then []
    else SegmentsUpTo(h, PointSpacing(w, |heights|), heights, identifiers, tickBrush, lineBrush, fullLine, |heights|)
  }

  // ---------------------------------------------------------------- whole chart

  /**
   * Everything DrawGraph appends to a w x h canvas, or the parameter error it
   * raises before appending anything.
   */
  function Render(w: real, h: real, values: seq<real>, identifiers: seq<string>, steps: int,
                  graphType: GraphType, fullLine: bool, axisBrush: Brush, graphBrush: Brush)
    : (r: Result<seq<Primitive>, GraphParameterException>)
    requires Admissible(values, identifiers, steps, graphType)
    ensures r.Failure? <==> |values| < 1 || steps < 1
    ensures |values| < 1 ==> r == Failure(GraphParameterException(NoValuesMessage))
    ensures |values| >= 1 && steps < 1 ==> r == Failure(GraphParameterException(NoStepsMessage))
    ensures r.Success? ==>
      |r.value| == 2 + 2 * steps + (if graphType == BAR then 3 * |values| else 3 * (|values| - 1))
  {
    if |values| < 1 then Failure(GraphParameterException(NoValuesMessage))
    else if steps < 1 then Failure(GraphParameterException(NoStepsMessage))
    else
      var axes := AxesLayer(w, h, Max(values), steps, axisBrush, fullLine);
      match graphType
      case BAR => Success(axes + BarLayer(w, h, Scaled(h, values), identifiers, axisBrush, graphBrush, fullLine))
      case LINE =>
        // A single point draws no line and reads no height (one the source leaves NaN when the value is 0).
        if |values| == 1 then Success(axes)
        else Success(axes + LineLayer(w, h, Scaled(h, values), identifiers, axisBrush, graphBrush, fullLine))
  }
}
