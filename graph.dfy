/**
 * The drawing routines of the chart widget. Each one appends primitives to
 * the canvas in counted loops and is proved to append exactly the layer that
 * module Layout defines; the canvas size is outside every modifies frame, so
 * the routines never resize the canvas and never remove what it holds.
 */
module Graf {
  import opened Wrappers
  import opened Shapes
  import opened Layout
  import LayoutProperties

  const Black: Brush := Rgb(0, 0, 0)
  const Blue: Brush := Rgb(0, 0, 255)

  /** Identifiers of the overloads that take none: one empty name per value. */
  function NoIdentifiers(n: nat): (identifiers: seq<string>)
    ensures |identifiers| == n && forall i :: 0 <= i < n ==> identifiers[i] == ""
  {
    seq(n, _ => "")
  }

  /** Running maximum over the values, starting from the first one. */
  method MaxVal(values: seq<real>) returns (max: real)
    requires |values| >= 1
    ensures max in values && forall k :: 0 <= k < |values| ==> values[k] <= max
    ensures max == Max(values)
  {
    max := values[0];
    for j := 0 to |values|
      invariant j == 0 ==> max == values[0]
      invariant j >= 1 ==> max == Max(values[..j])
    {
      if values[j] > max {
        max := values[j];
      }
      assert values[..j + 1][..j] == values[..j];
    }
    assert values[..|values|] == values;
    LayoutProperties.MaxIsGreatest(values);
  }

  /** Fills a new array with the pixel height of every value. */
  method ScaleHeights(canvasHeight: real, values: seq<real>) returns (heights: array<real>)
    requires |values| >= 1 && Max(values) != 0.0
    ensures heights.Length == |values|
    ensures heights[..] == Scaled(canvasHeight, values)
  {
    heights := new real[|values|];
    for i := 0 to |values|
      invariant forall k :: 0 <= k < i ==> heights[k] == Scaled(canvasHeight, values)[k]
    {
      var max := MaxVal(values);
      var multiplier := (canvasHeight - BorderBottom) / max;
      heights[i] := multiplier * values[i];
    }
  }

  /** Appends the y-axis, the x-axis and, for i in 1..steps, gridline i and its scale label. */
  method DrawAxes(canvas: Canvas, maxVal: real, steps: int, brush: Brush, fullLine: bool) returns (result: Canvas)
    requires steps >= 1
    modifies canvas`children
    ensures result == canvas
    ensures canvas.children == old(canvas.children) + AxesLayer(canvas.width, canvas.height, maxVal, steps, brush, fullLine)
  {
    // Drawing only appends children: the canvas keeps its size throughout.
    var width, height := canvas.width, canvas.height;
    var stepSize := (height - BorderBottom) / steps as real;

    canvas.Add(YAxis(height, brush));
    canvas.Add(XAxis(width, height, brush));

    for i := 1 to steps + 1
      invariant canvas.children ==
        old(canvas.children) + AxesUpTo(width, height, stepSize, maxVal, brush, fullLine, i - 1)
    {
      ghost var drawn := canvas.children;
      canvas.Add(Gridline(width, height, stepSize, i, brush, fullLine));
      canvas.Add(StepLabel(height, stepSize, maxVal, i, brush));
      assert canvas.children == drawn + AxisStep(width, height, stepSize, maxVal, brush, fullLine, i);
    }
    result := canvas;
  }

  /** Appends, for every value, its bar, its category label and the separator right of its slot. */
  method DrawBarGraph(canvas: Canvas, heights: seq<real>, identifiers: seq<string>,
                      tickBrush: Brush, barBrush: Brush, fullLine: bool) returns (result: Canvas)
    requires 1 <= |heights| <= |identifiers|
    modifies canvas`children
    ensures result == canvas
    ensures canvas.children ==
      old(canvas.children) + BarLayer(canvas.width, canvas.height, heights, identifiers, tickBrush, barBrush, fullLine)
  {
    var width, height := canvas.width, canvas.height;
    var valueWidth := (width - BorderLeft) / |heights| as real;

    for i := 0 to |heights|
      invariant canvas.children == old(canvas.children)
        + BarsUpTo(height, valueWidth, heights, identifiers, tickBrush, barBrush, fullLine, i)
    {
      ghost var drawn := canvas.children;
      canvas.Add(BarRect(height, valueWidth, heights[i], i, barBrush));
      canvas.Add(CategoryLabel(BorderLeft + Multiple(valueWidth, i), height, valueWidth, identifiers[i], tickBrush));
      canvas.Add(Separator(height, BorderLeft + Multiple(valueWidth, i + 1), fullLine, tickBrush));
      assert canvas.children == drawn + BarSlot(height, valueWidth, heights, identifiers, tickBrush, barBrush, fullLine, i);
    }
    result := canvas;
  }

  /**
   * Appends, for every point i after the first, its category label, the segment
   * from point i-1 to point i and the separator at point i. A single point draws
   * nothing: the loop does not run and the spacing is never used.
   */
  method DrawLineGraph(canvas: Canvas, heights: seq<real>, identifiers: seq<string>,
                       tickBrush: Brush, lineBrush: Brush, fullLine: bool) returns (result: Canvas)
    requires |heights| >= 1 && (|heights| == 1 || |heights| <= |identifiers|)
    modifies canvas`children
    ensures result == canvas
    ensures canvas.children ==
      old(canvas.children) + LineLayer(canvas.width, canvas.height, heights, identifiers, tickBrush, lineBrush, fullLine)
  {
    var width, height := canvas.width, canvas.height;
    var valueWidth := if |heights| > 1 then (width - BorderLeft) / (|heights| - 1) as real else 0.0;

    for i := 1 to |heights|
      invariant canvas.children == old(canvas.children)
        + SegmentsUpTo(height, valueWidth, heights, identifiers, tickBrush, lineBrush, fullLine, i)
    {
      ghost var drawn := canvas.children;
      canvas.Add(CategoryLabel(BorderLeft + Multiple(valueWidth, i) - valueWidth / 2.0, height, valueWidth,
                               identifiers[i], tickBrush));
      canvas.Add(Segment(height, valueWidth, heights[i - 1], heights[i], i, lineBrush));
      canvas.Add(Separator(height, BorderLeft + Multiple(valueWidth, i), fullLine, tickBrush));
      assert canvas.children == drawn + LineSlot(height, valueWidth, heights, identifiers, tickBrush, lineBrush, fullLine, i);
    }
    result := canvas;
  }

  /**
   * Checks the parameters, then appends the axis layer and the bar or line
   * layer. On a parameter error nothing is appended.
   */
  method DrawGraph(canvas: Canvas, values: seq<real>, identifiers: seq<string>, steps: int,
                   graphType: GraphType, fullLine: bool, axisBrush: Brush, graphBrush: Brush)
    returns (r: Result<Canvas, GraphParameterException>)
    requires Admissible(values, identifiers, steps, graphType)
    modifies canvas`children
    ensures match Render(canvas.width, canvas.height, values, identifiers, steps, graphType, fullLine, axisBrush, graphBrush)
      case Failure(e) => r == Failure(e) && canvas.children == old(canvas.children)
      case Success(drawn) => r == Success(canvas) && canvas.children == old(canvas.children) + drawn
  {
    if |values| < 1 {
      return Failure(GraphParameterException(NoValuesMessage));
    } else if steps < 1 {
      return Failure(GraphParameterException(NoStepsMessage));
    }

    var maxVal := MaxVal(values);
    var c := DrawAxes(canvas, maxVal, steps, axisBrush, fullLine);

    // With a zero maximum the source's heights are all NaN. Only a one-point line
    // chart is admitted with one, and its line loop reads no height.
    var heights := values;
    if maxVal != 0.0 {
      var scaled := ScaleHeights(canvas.height, values);
      heights := scaled[..];
    }

    match graphType {
      case BAR =>
        c := DrawBarGraph(canvas, heights, identifiers, axisBrush, graphBrush, fullLine);
      case LINE =>
        c := DrawLineGraph(canvas, heights, identifiers, axisBrush, graphBrush, fullLine);
    }

    r := Success(c);
  }

  /** Overload with unnamed categories, black axes and a blue graph. */
  method DrawGraphUnlabelled(canvas: Canvas, values: seq<real>, steps: int, graphType: GraphType, fullLine: bool)
    returns (r: Result<Canvas, GraphParameterException>)
    requires |values| >= 1 && steps >= 1 ==> (graphType == LINE && |values| == 1) || Max(values) != 0.0
    modifies canvas`children
    ensures match Render(canvas.width, canvas.height, values, NoIdentifiers(|values|), steps, graphType, fullLine, Black, Blue)
      case Failure(e) => r == Failure(e) && canvas.children == old(canvas.children)
      case Success(drawn) => r == Success(canvas) && canvas.children == old(canvas.children) + drawn
  {
    var idents := NoIdentifiers(|values|);
    r := DrawGraph(canvas, values, idents, steps, graphType, fullLine, Black, Blue);
  }

  /** Overload with every default: five steps, a line chart, short ticks, no names, black and blue. */
  method DrawGraphDefaults(canvas: Canvas, values: seq<real>) returns (r: Result<Canvas, GraphParameterException>)
    requires |values| >= 2 ==> Max(values) != 0.0
    modifies canvas`children
    ensures match Render(canvas.width, canvas.height, values, NoIdentifiers(|values|), 5, LINE, false, Black, Blue)
      case Failure(e) => r == Failure(e) && canvas.children == old(canvas.children)
      case Success(drawn) => r == Success(canvas) && canvas.children == old(canvas.children) + drawn
  {
    var idents := NoIdentifiers(|values|);
    r := DrawGraph(canvas, values, idents, 5, LINE, false, Black, Blue);
  }

  /** Overload with category names: five steps, a line chart, short ticks, black and blue. */
  method DrawGraphLabelled(canvas: Canvas, values: seq<real>, idents: seq<string>)
    returns (r: Result<Canvas, GraphParameterException>)
    requires Admissible(values, idents, 5, LINE)
    modifies canvas`children
    ensures match Render(canvas.width, canvas.height, values, idents, 5, LINE, false, Black, Blue)
      case Failure(e) => r == Failure(e) && canvas.children == old(canvas.children)
      case Success(drawn) => r == Success(canvas) && canvas.children == old(canvas.children) + drawn
  {
    r := DrawGraph(canvas, values, idents, 5, LINE, false, Black, Blue);
  }

  /** Overload with category names and a chart type: five steps, short ticks, black and blue. */
  method DrawGraphLabelledAs(canvas: Canvas, values: seq<real>, idents: seq<string>, graphType: GraphType)
    returns (r: Result<Canvas, GraphParameterException>)
    requires Admissible(values, idents, 5, graphType)
    modifies canvas`children
    ensures match Render(canvas.width, canvas.height, values, idents, 5, graphType, false, Black, Blue)
      case Failure(e) => r == Failure(e) && canvas.children == old(canvas.children)
      case Success(drawn) => r == Success(canvas) && canvas.children == old(canvas.children) + drawn
  {
    r := DrawGraph(canvas, values, idents, 5, graphType, false, Black, Blue);
  }
}
