/** What the chart layout guarantees, proved about the functions of module Layout. */
module LayoutProperties {
  import opened Wrappers
  import opened Shapes
  import opened Layout

  // ---------------------------------------------------------------- values and scaling

  /** The maximum is one of the values and no value exceeds it. */
  lemma {:induction false} MaxIsGreatest(values: seq<real>)
    requires |values| >= 1
    ensures Max(values) in values
    ensures forall k :: 0 <= k < |values| ==> values[k] <= Max(values)
  {
    if |values| > 1 {
      var init := values[..|values| - 1];
      MaxIsGreatest(init);
      assert forall k :: 0 <= k < |init| ==> init[k] == values[k];
    }
  }

  /** The heights are the values times one multiplier, which carries the maximum to the plot height. */
  lemma ScaledIsScaledBy(h: real, values: seq<real>, m: real) returns (multiplier: real)
    requires |values| >= 1 && m == Max(values) && m != 0.0
    ensures Scaled(h, values) == ScaledBy(multiplier, values)
    ensures multiplier * m == h - BorderBottom
    ensures h > BorderBottom && m > 0.0 ==> multiplier > 0.0
    ensures h >= BorderBottom && m > 0.0 ==> multiplier >= 0.0
  {
    multiplier := (h - BorderBottom) / m;
    Ratio(h - BorderBottom, m);
  }

  lemma Ratio(a: real, m: real)
    requires m != 0.0
    ensures a / m * m == a
    ensures a > 0.0 && m > 0.0 ==> a / m > 0.0
    ensures a >= 0.0 && m > 0.0 ==> a / m >= 0.0
  {
  }

  lemma ScaledByAt(multiplier: real, values: seq<real>, i: int)
    requires 0 <= i < |values|
    ensures |ScaledBy(multiplier, values)| == |values|
    ensures ScaledBy(multiplier, values)[i] == multiplier * values[i]
  {
  }

  /** Every value equal to the maximum is drawn exactly as high as the plot area, and one always is. */
  lemma MaxValueTouchesPlotTop(h: real, values: seq<real>)
    requires |values| >= 1 && Max(values) != 0.0
    ensures forall i :: 0 <= i < |values| && values[i] == Max(values) ==> Scaled(h, values)[i] == h - BorderBottom
    ensures exists i :: 0 <= i < |values| && Scaled(h, values)[i] == h - BorderBottom
  {
    var m := Max(values);
    var multiplier := ScaledIsScaledBy(h, values, m);
    forall i | 0 <= i < |values| && values[i] == m
      ensures Scaled(h, values)[i] == h - BorderBottom
    {
      ScaledByAtMaximum(multiplier, values, m, h - BorderBottom, i);
    }
    MaxIsGreatest(values);
    var i :| 0 <= i < |values| && values[i] == Max(values);
    assert Scaled(h, values)[i] == h - BorderBottom;
  }

  lemma ScaledByAtMaximum(multiplier: real, values: seq<real>, m: real, top: real, i: int)
    requires multiplier * m == top && 0 <= i < |values| && values[i] == m
    ensures ScaledBy(multiplier, values)[i] == top
  {
  }

  /** With a positive maximum and no negative value, every height lies within the plot area. */
  lemma ScaledWithinPlot(h: real, values: seq<real>)
    requires |values| >= 1 && Max(values) > 0.0 && h >= BorderBottom
    requires forall k :: 0 <= k < |values| ==> values[k] >= 0.0
    ensures forall i :: 0 <= i < |values| ==> 0.0 <= Scaled(h, values)[i] <= h - BorderBottom
  {
    var m := Max(values);
    var multiplier := ScaledIsScaledBy(h, values, m);
    MaxIsGreatest(values);
    forall i | 0 <= i < |values|
      ensures 0.0 <= Scaled(h, values)[i] <= h - BorderBottom
    {
      ScaledByWithin(multiplier, values, m, h - BorderBottom, i);
    }
  }

  lemma ScaledByWithin(multiplier: real, values: seq<real>, m: real, top: real, i: int)
    requires multiplier >= 0.0 && multiplier * m == top && 0 <= i < |values| && 0.0 <= values[i] <= m
    ensures 0.0 <= ScaledBy(multiplier, values)[i] <= top
  {
  }

  /** With a positive maximum on a canvas taller than the margin, a larger value gets a taller bar and vice versa. */
  lemma ScalingPreservesOrder(h: real, values: seq<real>, i: int, j: int)
    requires |values| >= 1 && Max(values) > 0.0 && h > BorderBottom
    requires 0 <= i < |values| && 0 <= j < |values|
    ensures values[i] < values[j] <==> Scaled(h, values)[i] < Scaled(h, values)[j]
  {
    var multiplier := ScaledIsScaledBy(h, values, Max(values));
    ScaledByOrder(multiplier, values, i, j);
  }

  lemma ScaledByOrder(multiplier: real, values: seq<real>, i: int, j: int)
    requires multiplier > 0.0 && 0 <= i < |values| && 0 <= j < |values|
    ensures values[i] < values[j] <==> ScaledBy(multiplier, values)[i] < ScaledBy(multiplier, values)[j]
  {
  }



  // ---------------------------------------------------------------- positions

  /** i widths laid end to end measure width * i. */
  lemma {:induction false} MultipleIsProduct(width: real, i: nat)
    ensures Multiple(width, i) == width * i as real
  {
    if i > 0 {
      MultipleIsProduct(width, i - 1);
      assert width * (i - 1) as real + width == width * i as real;
    }
  }

  /** Positions further along are further right: weakly for a non-negative width, strictly for a positive one. */
  lemma {:induction false} MultipleIncreasing(width: real, i: nat, j: nat)
    requires width >= 0.0 && i <= j
    ensures Multiple(width, i) <= Multiple(width, j)
    ensures width > 0.0 && i < j ==> Multiple(width, i) < Multiple(width, j)
  {
    if i < j {
      MultipleIncreasing(width, i, j - 1);
    }
  }

  // ---------------------------------------------------------------- axes

  /** Drawing more steps only extends the axis layer. */
  lemma {:induction false} AxesUpToPrefix(w: real, h: real, stepSize: real, maxVal: real, brush: Brush, fullLine: bool,
                                          j: nat, k: nat)
    requires j <= k
    ensures AxesUpTo(w, h, stepSize, maxVal, brush, fullLine, k)[..2 + 2 * j]
         == AxesUpTo(w, h, stepSize, maxVal, brush, fullLine, j)
  {
    if j < k {
      AxesUpToPrefix(w, h, stepSize, maxVal, brush, fullLine, j, k - 1);
      var prev := AxesUpTo(w, h, stepSize, maxVal, brush, fullLine, k - 1);
      assert AxesUpTo(w, h, stepSize, maxVal, brush, fullLine, k)[..2 + 2 * j] == prev[..2 + 2 * j];
    } else {
      assert AxesUpTo(w, h, stepSize, maxVal, brush, fullLine, k)[..2 + 2 * j]
          == AxesUpTo(w, h, stepSize, maxVal, brush, fullLine, k);
    }
  }

  /** The axes come first; gridline i sits at index 2i and its label right after it. */
  lemma AxesUpToAt(w: real, h: real, stepSize: real, maxVal: real, brush: Brush, fullLine: bool, k: nat, i: nat)
    requires 1 <= i <= k
    ensures AxesUpTo(w, h, stepSize, maxVal, brush, fullLine, k)[0] == YAxis(h, brush)
    ensures AxesUpTo(w, h, stepSize, maxVal, brush, fullLine, k)[1] == XAxis(w, h, brush)
    ensures AxesUpTo(w, h, stepSize, maxVal, brush, fullLine, k)[2 * i] == Gridline(w, h, stepSize, i, brush, fullLine)
    ensures AxesUpTo(w, h, stepSize, maxVal, brush, fullLine, k)[2 * i + 1] == StepLabel(h, stepSize, maxVal, i, brush)
  {
    var layer := AxesUpTo(w, h, stepSize, maxVal, brush, fullLine, k);
    AxesUpToPrefix(w, h, stepSize, maxVal, brush, fullLine, 0, k);
    AxesUpToPrefix(w, h, stepSize, maxVal, brush, fullLine, i, k);
    assert layer[0] == layer[..2][0];
    assert layer[1] == layer[..2][1];
    assert layer[2 * i] == layer[..2 + 2 * i][2 * i];
    assert layer[2 * i + 1] == layer[..2 + 2 * i][2 * i + 1];
  }

  /**
   * The axis layer, element by element: the y-axis from the top of the canvas
   * to half the bottom margin above its bottom edge, the x-axis along the bottom
   * of the plot area from x = 25 to the right edge, then for i in 1..steps the
   * gridline at y = (h - 30) - (h - 30) / steps * i, running to the right edge
   * with thickness 1 when fullLine and as a 5-pixel tick of thickness 2
   * otherwise, and its label, 15 pixels higher, showing maxVal / i.
   */
  lemma AxesLayerAt(w: real, h: real, maxVal: real, steps: int, brush: Brush, fullLine: bool, i: nat)
    requires 1 <= i <= steps
    ensures var layer := AxesLayer(w, h, maxVal, steps, brush, fullLine);
      var y := (h - BorderBottom) - (h - BorderBottom) / steps as real * i as real;
      && layer[0] == Line(BorderLeft, 0.0, BorderLeft, h - BorderBottom / 2.0, brush, 2.0)
      && layer[1] == Line(BorderLeft / 2.0, h - BorderBottom, w, h - BorderBottom, brush, 2.0)
      && layer[2 * i] == Line(BorderLeft - TickSize, y, if fullLine then w else BorderLeft, y,
                              brush, if fullLine then 1.0 else 2.0)
      && layer[2 * i + 1] == Label(0.0, y - LabelHeight / 2.0, BorderLeft - TickSize, None,
                                   Number(maxVal / i as real), brush,
                                   HorizontalAlignment.Right, VerticalAlignment.Center)
  {
    AxesUpToAt(w, h, StepSize(h, steps), maxVal, brush, fullLine, steps, i);
    MultipleIsProduct(StepSize(h, steps), i);
  }

  /** Higher-numbered gridlines are drawn strictly higher on the canvas (smaller y). */
  lemma GridlinesAscend(w: real, h: real, maxVal: real, steps: int, brush: Brush, fullLine: bool, i: nat, j: nat)
    requires h > BorderBottom && 1 <= i < j <= steps
    ensures var layer := AxesLayer(w, h, maxVal, steps, brush, fullLine);
      layer[2 * i].Line? && layer[2 * j].Line? && layer[2 * j].y1 < layer[2 * i].y1
  {
    var stepSize := StepSize(h, steps);
    AxesUpToAt(w, h, stepSize, maxVal, brush, fullLine, steps, i);
    AxesUpToAt(w, h, stepSize, maxVal, brush, fullLine, steps, j);
    MultipleIncreasing(stepSize, i, j);
  }

  /** Every gridline lies above the x-axis and no higher than the top of the canvas; the last one is at the top. */
  lemma GridlinesWithinPlot(w: real, h: real, maxVal: real, steps: int, brush: Brush, fullLine: bool, i: nat)
    requires h > BorderBottom && 1 <= i <= steps
    ensures var layer := AxesLayer(w, h, maxVal, steps, brush, fullLine);
      && layer[2 * i].Line?
      && 0.0 <= layer[2 * i].y1 < h - BorderBottom
      && layer[2 * i].y2 == layer[2 * i].y1
      && (i == steps ==> layer[2 * i].y1 == 0.0)
  {
    var stepSize := StepSize(h, steps);
    AxesUpToAt(w, h, stepSize, maxVal, brush, fullLine, steps, i);
    MultipleIncreasing(stepSize, 0, i);
    MultipleIncreasing(stepSize, i, steps);
    MultipleIsProduct(stepSize, steps);
  }

  /**
   * The scale labels do not read the chart: on a 130-pixel-high canvas with
   * five steps and the single value 100, the top gridline is exactly where the
   * bar of 100 ends, yet its label shows 20, where ScaleValue gives 100.
   */
  lemma StepLabelMisreadsScale(w: real, brush: Brush)
    ensures var layer := AxesLayer(w, 130.0, Max([100.0]), 5, brush, false);
      && layer[2 * 5].Line? && layer[2 * 5].y1 == 130.0 - BorderBottom - Scaled(130.0, [100.0])[0]
      && layer[2 * 5 + 1].Label? && layer[2 * 5 + 1].content == Number(20.0)
      && ScaleValue(Max([100.0]), 5, 5) == 100.0
  {
    assert Max([100.0]) == 100.0;
    AxesLayerAt(w, 130.0, 100.0, 5, brush, false, 5);
    var multiplier := ScaledIsScaledBy(130.0, [100.0], 100.0);
    ScaledByAt(multiplier, [100.0], 0);
  }

  /**
   * The intended label of gridline i is the value whose bar, on a chart whose
   * maximum is maxVal, is scaled to reach gridline i exactly.
   */
  lemma ScaleValueReadsGridline(w: real, h: real, maxVal: real, steps: int, brush: Brush, fullLine: bool, i: nat)
    requires maxVal != 0.0 && 1 <= i <= steps
    ensures var layer := AxesLayer(w, h, maxVal, steps, brush, fullLine);
      && layer[2 * i].Line?
      && layer[2 * i].y1 == h - BorderBottom - (h - BorderBottom) / maxVal * ScaleValue(maxVal, steps, i)
  {
    AxesLayerAt(w, h, maxVal, steps, brush, fullLine, i);
    CancelMaximum(h - BorderBottom, maxVal, i as real, steps as real);
  }

  lemma CancelMaximum(c: real, m: real, k: real, s: real)
    requires m != 0.0 && s > 0.0
    ensures c / m * (m * k / s) == c / s * k
  {
  }

  // ---------------------------------------------------------------- bars


  /** Category i occupies indices 3i, 3i+1 and 3i+2: its bar, its label, its separator. */
  lemma BarsUpToAt(h: real, slotWidth: real, heights: seq<real>, identifiers: seq<string>,
                   tickBrush: Brush, barBrush: Brush, fullLine: bool, k: nat, i: nat)
    requires i < k <= |heights| && k <= |identifiers|
    ensures BarsUpTo(h, slotWidth, heights, identifiers, tickBrush, barBrush, fullLine, k)[3 * i .. 3 * i + 3]
         == BarSlot(h, slotWidth, heights, identifiers, tickBrush, barBrush, fullLine, i)
  {
  }

  /**
   * The bar layer, element by element, with slot width sw = (w - 50) / n: bar i
   * starts a tenth of a slot into slot i, is 0.8 slots wide and stands on the
   * x-axis with the value's height; label i spans slot i and names category i;
   * separator i is at the right end of slot i.
   */
  lemma BarLayerAt(w: real, h: real, heights: seq<real>, identifiers: seq<string>,
                   tickBrush: Brush, barBrush: Brush, fullLine: bool, i: nat)
    requires 1 <= |heights| <= |identifiers| && i < |heights|
    ensures var layer := BarLayer(w, h, heights, identifiers, tickBrush, barBrush, fullLine);
      var sw := SlotWidth(w, |heights|);
      var x := BorderLeft + sw * (i + 1) as real;
      && layer[3 * i] == Rect(BorderLeft + sw * i as real + sw * 0.1, (h - BorderBottom) - heights[i],
                              sw * 0.8, heights[i], barBrush)
      && layer[3 * i + 1] == Label(BorderLeft + sw * i as real, h - BorderBottom, sw, Some(BorderBottom - TickSize),
                                   Text(identifiers[i]), tickBrush, HorizontalAlignment.Center, VerticalAlignment.Top)
      && layer[3 * i + 2] == Line(x, if fullLine then 0.0 else h - BorderBottom, x, (h - BorderBottom) + TickSize,
                                  tickBrush, if fullLine then 1.0 else 2.0)
  {
    var sw := SlotWidth(w, |heights|);
    BarsUpToAt(h, sw, heights, identifiers, tickBrush, barBrush, fullLine, |heights|, i);
    var layer := BarLayer(w, h, heights, identifiers, tickBrush, barBrush, fullLine);
    var slot := BarSlot(h, sw, heights, identifiers, tickBrush, barBrush, fullLine, i);
    assert layer[3 * i] == slot[0] && layer[3 * i + 1] == slot[1] && layer[3 * i + 2] == slot[2];
    BarSlotExplicit(h, sw, heights, identifiers, tickBrush, barBrush, fullLine, i);
  }

  lemma BarSlotExplicit(h: real, sw: real, heights: seq<real>, identifiers: seq<string>,
                        tickBrush: Brush, barBrush: Brush, fullLine: bool, i: nat)
    requires i < |heights| && i < |identifiers|
    ensures var slot := BarSlot(h, sw, heights, identifiers, tickBrush, barBrush, fullLine, i);
      var x := BorderLeft + sw * (i + 1) as real;
      && slot[0] == Rect(BorderLeft + sw * i as real + sw * 0.1, (h - BorderBottom) - heights[i],
                         sw * 0.8, heights[i], barBrush)
      && slot[1] == Label(BorderLeft + sw * i as real, h - BorderBottom, sw, Some(BorderBottom - TickSize),
                          Text(identifiers[i]), tickBrush, HorizontalAlignment.Center, VerticalAlignment.Top)
      && slot[2] == Line(x, if fullLine then 0.0 else h - BorderBottom, x, (h - BorderBottom) + TickSize,
                         tickBrush, if fullLine then 1.0 else 2.0)
  {
    MultipleIsProduct(sw, i);
    MultipleIsProduct(sw, i + 1);
  }

  /**
   * On a canvas wider than the left margin, each bar lies strictly inside its
   * slot (between the left end of the slot and its separator) and stands on the
   * x-axis.
   */
  lemma BarsInsideSlots(w: real, h: real, heights: seq<real>, identifiers: seq<string>,
                        tickBrush: Brush, barBrush: Brush, fullLine: bool, i: nat)
    requires 1 <= |heights| <= |identifiers| && i < |heights| && w > BorderLeft
    ensures var layer := BarLayer(w, h, heights, identifiers, tickBrush, barBrush, fullLine);
      && layer[3 * i].Rect? && layer[3 * i + 1].Label? && layer[3 * i + 2].Line?
      && layer[3 * i + 1].left < layer[3 * i].left
      && layer[3 * i].left + layer[3 * i].width < layer[3 * i + 2].x1
      && layer[3 * i].top + layer[3 * i].height == h - BorderBottom
  {
    var sw := SlotWidth(w, |heights|);
    BarsUpToAt(h, sw, heights, identifiers, tickBrush, barBrush, fullLine, |heights|, i);
    var layer := BarLayer(w, h, heights, identifiers, tickBrush, barBrush, fullLine);
    var slot := BarSlot(h, sw, heights, identifiers, tickBrush, barBrush, fullLine, i);
    assert layer[3 * i] == slot[0] && layer[3 * i + 1] == slot[1] && layer[3 * i + 2] == slot[2];
    assert sw > 0.0;
  }

  /** On a canvas wider than the left margin, a bar ends strictly before any later bar starts. */
  lemma BarsDoNotOverlap(w: real, h: real, heights: seq<real>, identifiers: seq<string>,
                         tickBrush: Brush, barBrush: Brush, fullLine: bool, i: nat, j: nat)
    requires 1 <= |heights| <= |identifiers| && i < j < |heights| && w > BorderLeft
    ensures var layer := BarLayer(w, h, heights, identifiers, tickBrush, barBrush, fullLine);
      && layer[3 * i].Rect? && layer[3 * j].Rect?
      && layer[3 * i].left + layer[3 * i].width < layer[3 * j].left
  {
    var sw := SlotWidth(w, |heights|);
    var n := |heights|;
    BarsUpToAt(h, sw, heights, identifiers, tickBrush, barBrush, fullLine, n, i);
    BarsUpToAt(h, sw, heights, identifiers, tickBrush, barBrush, fullLine, n, j);
    var layer := BarLayer(w, h, heights, identifiers, tickBrush, barBrush, fullLine);
    assert layer[3 * i] == BarSlot(h, sw, heights, identifiers, tickBrush, barBrush, fullLine, i)[0];
    assert layer[3 * j] == BarSlot(h, sw, heights, identifiers, tickBrush, barBrush, fullLine, j)[0];
    assert sw > 0.0;
    MultipleIncreasing(sw, i + 1, j);
  }

  /** The separator after the last category is at the right edge of the canvas. */
  lemma LastSeparatorAtRightEdge(w: real, h: real, heights: seq<real>, identifiers: seq<string>,
                                 tickBrush: Brush, barBrush: Brush, fullLine: bool)
    requires 1 <= |heights| <= |identifiers|
    ensures var layer := BarLayer(w, h, heights, identifiers, tickBrush, barBrush, fullLine);
      layer[|layer| - 1].Line? && layer[|layer| - 1].x1 == w && layer[|layer| - 1].x2 == w
  {
    var n := |heights|;
    var sw := SlotWidth(w, n);
    BarsUpToAt(h, sw, heights, identifiers, tickBrush, barBrush, fullLine, n, n - 1);
    var layer := BarLayer(w, h, heights, identifiers, tickBrush, barBrush, fullLine);
    assert layer[3 * (n - 1) + 2] == BarSlot(h, sw, heights, identifiers, tickBrush, barBrush, fullLine, n - 1)[2];
    MultipleIsProduct(sw, n);
  }

  // ---------------------------------------------------------------- lines


  /** Point i (from 1) occupies indices 3(i-1), 3(i-1)+1 and 3(i-1)+2: its label, its segment, its separator. */
  lemma SegmentsUpToAt(h: real, spacing: real, heights: seq<real>, identifiers: seq<string>,
                       tickBrush: Brush, lineBrush: Brush, fullLine: bool, k: nat, i: nat)
    requires 1 <= i < k <= |heights| && k <= |identifiers|
    ensures SegmentsUpTo(h, spacing, heights, identifiers, tickBrush, lineBrush, fullLine, k)[3 * (i - 1) .. 3 * i]
         == LineSlot(h, spacing, heights, identifiers, tickBrush, lineBrush, fullLine, i)
  {
  }

  /**
   * The line layer of n >= 2 points, element by element, with spacing
   * sp = (w - 50) / (n - 1): label i is centred on point i and names it;
   * segment i joins point i-1 to point i, each at its height above the x-axis;
   * separator i is at point i.
   */
  lemma LineLayerAt(w: real, h: real, heights: seq<real>, identifiers: seq<string>,
                    tickBrush: Brush, lineBrush: Brush, fullLine: bool, i: nat)
    requires 2 <= |heights| <= |identifiers| && 1 <= i < |heights|
    ensures var layer := LineLayer(w, h, heights, identifiers, tickBrush, lineBrush, fullLine);
      var sp := PointSpacing(w, |heights|);
      var x := BorderLeft + sp * i as real;
      && layer[3 * (i - 1)] == Label(x - sp / 2.0, h - BorderBottom, sp, Some(BorderBottom - TickSize),
                                     Text(identifiers[i]), tickBrush,
                                     HorizontalAlignment.Center, VerticalAlignment.Top)
      && layer[3 * (i - 1) + 1] == Line(BorderLeft + sp * (i - 1) as real, h - BorderBottom - heights[i - 1],
                                        x, h - BorderBottom - heights[i], lineBrush, 2.0)
      && layer[3 * (i - 1) + 2] == Line(x, if fullLine then 0.0 else h - BorderBottom, x, (h - BorderBottom) + TickSize,
                                        tickBrush, if fullLine then 1.0 else 2.0)
  {
    var sp := PointSpacing(w, |heights|);
    SegmentsUpToAt(h, sp, heights, identifiers, tickBrush, lineBrush, fullLine, |heights|, i);
    var layer := LineLayer(w, h, heights, identifiers, tickBrush, lineBrush, fullLine);
    var slot := LineSlot(h, sp, heights, identifiers, tickBrush, lineBrush, fullLine, i);
    assert layer[3 * (i - 1)] == slot[0] && layer[3 * (i - 1) + 1] == slot[1] && layer[3 * (i - 1) + 2] == slot[2];
    LineSlotExplicit(h, sp, heights, identifiers, tickBrush, lineBrush, fullLine, i);
  }

  lemma LineSlotExplicit(h: real, sp: real, heights: seq<real>, identifiers: seq<string>,
                         tickBrush: Brush, lineBrush: Brush, fullLine: bool, i: nat)
    requires 1 <= i < |heights| && i < |identifiers|
    ensures var slot := LineSlot(h, sp, heights, identifiers, tickBrush, lineBrush, fullLine, i);
      var x := BorderLeft + sp * i as real;
      && slot[0] == Label(x - sp / 2.0, h - BorderBottom, sp, Some(BorderBottom - TickSize),
                          Text(identifiers[i]), tickBrush, HorizontalAlignment.Center, VerticalAlignment.Top)
      && slot[1] == Line(BorderLeft + sp * (i - 1) as real, h - BorderBottom - heights[i - 1],
                         x, h - BorderBottom - heights[i], lineBrush, 2.0)
      && slot[2] == Line(x, if fullLine then 0.0 else h - BorderBottom, x, (h - BorderBottom) + TickSize,
                         tickBrush, if fullLine then 1.0 else 2.0)
  {
    MultipleIsProduct(sp, i - 1);
    MultipleIsProduct(sp, i);
  }

  /** Each segment starts where the previous one ends: the line is one unbroken polyline. */
  lemma PolylineIsContinuous(w: real, h: real, heights: seq<real>, identifiers: seq<string>,
                             tickBrush: Brush, lineBrush: Brush, fullLine: bool, i: nat)
    requires 2 <= |heights| <= |identifiers| && 1 <= i && i + 1 < |heights|
    ensures var layer := LineLayer(w, h, heights, identifiers, tickBrush, lineBrush, fullLine);
      && layer[3 * (i - 1) + 1].Line? && layer[3 * i + 1].Line?
      && layer[3 * (i - 1) + 1].x2 == layer[3 * i + 1].x1
      && layer[3 * (i - 1) + 1].y2 == layer[3 * i + 1].y1
  {
    var n := |heights|;
    var sp := PointSpacing(w, n);
    SegmentsUpToAt(h, sp, heights, identifiers, tickBrush, lineBrush, fullLine, n, i);
    SegmentsUpToAt(h, sp, heights, identifiers, tickBrush, lineBrush, fullLine, n, i + 1);
    var layer := LineLayer(w, h, heights, identifiers, tickBrush, lineBrush, fullLine);
    assert layer[3 * (i - 1) + 1] == LineSlot(h, sp, heights, identifiers, tickBrush, lineBrush, fullLine, i)[1];
    assert layer[3 * i + 1] == LineSlot(h, sp, heights, identifiers, tickBrush, lineBrush, fullLine, i + 1)[1];
  }

  /** The polyline starts on the y-axis at the first value and ends at the right edge at the last value. */
  lemma PolylineSpansPlot(w: real, h: real, heights: seq<real>, identifiers: seq<string>,
                          tickBrush: Brush, lineBrush: Brush, fullLine: bool)
    requires 2 <= |heights| <= |identifiers|
    ensures var layer := LineLayer(w, h, heights, identifiers, tickBrush, lineBrush, fullLine);
      var last := 3 * (|heights| - 2) + 1;
      && layer[1].Line? && layer[1].x1 == BorderLeft && layer[1].y1 == h - BorderBottom - heights[0]
      && layer[last].Line? && layer[last].x2 == w && layer[last].y2 == h - BorderBottom - heights[|heights| - 1]
  {
    var n := |heights|;
    var sp := PointSpacing(w, n);
    SegmentsUpToAt(h, sp, heights, identifiers, tickBrush, lineBrush, fullLine, n, 1);
    SegmentsUpToAt(h, sp, heights, identifiers, tickBrush, lineBrush, fullLine, n, n - 1);
    var layer := LineLayer(w, h, heights, identifiers, tickBrush, lineBrush, fullLine);
    assert layer[1] == LineSlot(h, sp, heights, identifiers, tickBrush, lineBrush, fullLine, 1)[1];
    assert layer[3 * (n - 2) + 1] == LineSlot(h, sp, heights, identifiers, tickBrush, lineBrush, fullLine, n - 1)[1];
    MultipleIsProduct(sp, n - 1);
  }

  /** Points 1..k-1 are drawn the same whatever identifier 0 is. */
  lemma {:induction false} SegmentsIgnoreFirstIdentifier(h: real, spacing: real, heights: seq<real>,
                                                         identifiers: seq<string>, others: seq<string>,
                                                         tickBrush: Brush, lineBrush: Brush, fullLine: bool, k: nat)
    requires 1 <= k <= |heights| && k <= |identifiers| && k <= |others|
    requires forall j :: 1 <= j < k ==> identifiers[j] == others[j]
    ensures SegmentsUpTo(h, spacing, heights, identifiers, tickBrush, lineBrush, fullLine, k)
         == SegmentsUpTo(h, spacing, heights, others, tickBrush, lineBrush, fullLine, k)
  {
    if k > 1 {
      SegmentsIgnoreFirstIdentifier(h, spacing, heights, identifiers, others, tickBrush, lineBrush, fullLine, k - 1);
      assert identifiers[k - 1] == others[k - 1];
    }
  }

  /** A line chart never shows identifier 0: charts differing only there are drawn identically. */
  lemma LineLayerIgnoresFirstIdentifier(w: real, h: real, heights: seq<real>, identifiers: seq<string>,
                                        others: seq<string>, tickBrush: Brush, lineBrush: Brush, fullLine: bool)
    requires 2 <= |heights| <= |identifiers| && |heights| <= |others|
    requires forall j :: 1 <= j < |heights| ==> identifiers[j] == others[j]
    ensures LineLayer(w, h, heights, identifiers, tickBrush, lineBrush, fullLine)
         == LineLayer(w, h, heights, others, tickBrush, lineBrush, fullLine)
  {
    SegmentsIgnoreFirstIdentifier(h, PointSpacing(w, |heights|), heights, identifiers, others,
                                  tickBrush, lineBrush, fullLine, |heights|);
  }

  // ---------------------------------------------------------------- whole chart

  lemma AxesLayerStartsWithYAxis(w: real, h: real, maxVal: real, steps: int, brush: Brush, fullLine: bool)
    requires steps >= 1
    ensures |AxesLayer(w, h, maxVal, steps, brush, fullLine)| == 2 + 2 * steps
    ensures AxesLayer(w, h, maxVal, steps, brush, fullLine)[0] == YAxis(h, brush)
  {
    AxesUpToAt(w, h, StepSize(h, steps), maxVal, brush, fullLine, steps, 1);
  }

  /** Appending a data layer keeps the axis layer in front of it, unchanged. */
  lemma LayerFollowsAxes(axes: seq<Primitive>, layer: seq<Primitive>)
    requires |axes| >= 1
    ensures (axes + layer)[..|axes|] == axes && (axes + layer)[|axes|..] == layer
    ensures (axes + layer)[0] == axes[0]
  {
  }

  /** A successful chart is the axis layer followed by the data layer of the chosen type, and nothing else. */
  lemma RenderLayers(w: real, h: real, values: seq<real>, identifiers: seq<string>, steps: int,
                     graphType: GraphType, fullLine: bool, axisBrush: Brush, graphBrush: Brush)
    requires Admissible(values, identifiers, steps, graphType) && |values| >= 1 && steps >= 1
    ensures var r := Render(w, h, values, identifiers, steps, graphType, fullLine, axisBrush, graphBrush);
      && r.Success?
      && r.value[..2 + 2 * steps] == AxesLayer(w, h, Max(values), steps, axisBrush, fullLine)
      && r.value[0] == YAxis(h, axisBrush)
      && (graphType == BAR ==>
            r.value[2 + 2 * steps..] == BarLayer(w, h, Scaled(h, values), identifiers, axisBrush, graphBrush, fullLine))
      && (graphType == LINE && |values| == 1 ==> r.value == AxesLayer(w, h, Max(values), steps, axisBrush, fullLine))
      && (graphType == LINE && |values| >= 2 ==>
            r.value[2 + 2 * steps..] == LineLayer(w, h, Scaled(h, values), identifiers, axisBrush, graphBrush, fullLine))
  {
    match graphType
    case BAR => RenderBar(w, h, values, identifiers, steps, fullLine, axisBrush, graphBrush);
    case LINE =>
      if |values| >= 2 {
        RenderLine(w, h, values, identifiers, steps, fullLine, axisBrush, graphBrush);
      } else {
        RenderPoint(w, h, values, identifiers, steps, fullLine, axisBrush, graphBrush);
      }
  }

  /** A one-point line chart is the axis layer alone. */
  lemma RenderPoint(w: real, h: real, values: seq<real>, identifiers: seq<string>, steps: int,
                    fullLine: bool, axisBrush: Brush, graphBrush: Brush)
    requires |values| == 1 && steps >= 1
    ensures var r := Render(w, h, values, identifiers, steps, LINE, fullLine, axisBrush, graphBrush);
      && r == Success(AxesLayer(w, h, Max(values), steps, axisBrush, fullLine))
      && r.value[..2 + 2 * steps] == r.value
      && r.value[0] == YAxis(h, axisBrush)
  {
    AxesLayerStartsWithYAxis(w, h, Max(values), steps, axisBrush, fullLine);
  }

  /** A bar chart is the axis layer followed by the bar layer. */
  lemma RenderBar(w: real, h: real, values: seq<real>, identifiers: seq<string>, steps: int,
                  fullLine: bool, axisBrush: Brush, graphBrush: Brush)
    requires |values| >= 1 && steps >= 1 && Max(values) != 0.0 && |identifiers| >= |values|
    ensures var r := Render(w, h, values, identifiers, steps, BAR, fullLine, axisBrush, graphBrush);
      && r.Success?
      && r.value[..2 + 2 * steps] == AxesLayer(w, h, Max(values), steps, axisBrush, fullLine)
      && r.value[0] == YAxis(h, axisBrush)
      && r.value[2 + 2 * steps..] == BarLayer(w, h, Scaled(h, values), identifiers, axisBrush, graphBrush, fullLine)
  {
    var axes := AxesLayer(w, h, Max(values), steps, axisBrush, fullLine);
    AxesLayerStartsWithYAxis(w, h, Max(values), steps, axisBrush, fullLine);
    LayerFollowsAxes(axes, BarLayer(w, h, Scaled(h, values), identifiers, axisBrush, graphBrush, fullLine));
  }

  /** A line chart of two or more points is the axis layer followed by the line layer. */
  lemma RenderLine(w: real, h: real, values: seq<real>, identifiers: seq<string>, steps: int,
                   fullLine: bool, axisBrush: Brush, graphBrush: Brush)
    requires |values| >= 2 && steps >= 1 && Max(values) != 0.0 && |identifiers| >= |values|
    ensures var r := Render(w, h, values, identifiers, steps, LINE, fullLine, axisBrush, graphBrush);
      && r.Success?
      && r.value[..2 + 2 * steps] == AxesLayer(w, h, Max(values), steps, axisBrush, fullLine)
      && r.value[0] == YAxis(h, axisBrush)
      && r.value[2 + 2 * steps..] == LineLayer(w, h, Scaled(h, values), identifiers, axisBrush, graphBrush, fullLine)
  {
    var axes := AxesLayer(w, h, Max(values), steps, axisBrush, fullLine);
    AxesLayerStartsWithYAxis(w, h, Max(values), steps, axisBrush, fullLine);
    LayerFollowsAxes(axes, LineLayer(w, h, Scaled(h, values), identifiers, axisBrush, graphBrush, fullLine));
  }
}
