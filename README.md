# Graf chart layout, modelled in Dafny

Graf draws simple bar and line charts onto a WPF `Canvas`. Its static `Graph`
class checks its parameters, finds the largest value, scales every value to a
pixel height, and then appends positioned primitives to the canvas's children:
first an axis layer (y-axis, x-axis, and a gridline or tick with a scale label
per step), then one data layer. The data layer is either bars (rectangle,
category label, separator per value) or a polyline (category label, segment,
separator per point after the first).

This project models that class:

- `wrappers.dfy` (module `Wrappers`): `Option` and `Result`.
- `shapes.dfy` (module `Shapes`): the drawing primitives (`Line`, `Rect`,
  `Label`) as a datatype, brushes as an RGB tag, and `Canvas`, a class whose
  `children` sequence is the only thing the drawing routines change.
- `layout.dfy` (module `Layout`): the chart geometry as pure functions. It
  defines the maximum, the scaled heights, the axis, bar and line layers, and
  `Render`, which is the whole chart or the parameter error.
- `graph.dfy` (module `Graf`): the routines of `Graph` as imperative methods.
  `MaxVal` is a running-maximum loop. `ScaleHeights` fills a new array. The
  three drawing routines append to `canvas.children` in counted loops. Each
  method is proved to append exactly the layer that `Layout` defines.
  `DrawGraph` and its four overloads are proved to append exactly what
  `Render` produces, or to return the error and leave the canvas untouched.
- `layout_properties.dfy` (module `LayoutProperties`): what the geometry
  guarantees.
  - Scaling: the maximum reaches the top of the plot area, heights stay within
    it, and order is kept.
  - Axes: gridlines climb and end at the canvas top.
  - Bars: each bar sits inside its slot, bars do not overlap, and the last
    separator is at the right edge.
  - Lines: the polyline is continuous and spans the plot; identifier 0 is
    never shown.
  - Element-by-element coordinates of every layer.

Positions such as `valueWidth * i` are written in the model as `Multiple(valueWidth, i)`.
`Multiple` is i widths laid end to end, and `LayoutProperties.MultipleIsProduct` proves it
equal to the product. The element-by-element lemmas state the coordinates as products,
as the source writes them.

## Model

| member | source | states |
|---|---|---|
| Graf.MaxVal | Graf/Graph.cs:258-265 | returns an element of `values` that is at least every element, and equals the left-to-right maximum `Layout.Max` |
| LayoutProperties.MaxIsGreatest | Graf/Graph.cs:258-265 | the maximum is one of the values and no value exceeds it |
| Graf.ScaleHeights | Graf/Graph.cs:24-29 | the new array has one entry per value, and entry i is `(H - 30) / max * values[i]` |
| LayoutProperties.MaxValueTouchesPlotTop | Graf/Graph.cs:24-29 | every value equal to the maximum is scaled to exactly `H - 30`, the full plot height, and at least one value is |
| LayoutProperties.ScaledWithinPlot | Graf/Graph.cs:24-29 | with a positive maximum and no negative values, every height lies in `[0, H - 30]` |
| LayoutProperties.ScalingPreservesOrder | Graf/Graph.cs:24-29 | with a positive maximum and `H > 30`, value i is smaller than value j exactly when its height is smaller |
| LayoutProperties.MultipleIsProduct | Graf/Graph.cs:225 | a position built as i widths laid end to end equals `width * i`, the product the source computes |
| LayoutProperties.MultipleIncreasing | Graf/Graph.cs:217-226 | positions further along the loop index are further along the axis: weakly for a non-negative step, strictly for a positive one |
| Graf.DrawAxes | Graf/Graph.cs:191-256 | appends exactly the axis layer to the canvas and nothing else; the canvas size is not in its frame |
| Layout.AxesUpTo | Graf/Graph.cs:196-253 | the axis layer after k loop rounds holds `2 + 2k` primitives (two axes, then a gridline and a label per step) |
| LayoutProperties.AxesLayerAt | Graf/Graph.cs:193-252 | element-by-element coordinates of the axis layer. The y-axis runs from the top to `H - 15` and the x-axis from x = 25 to the right edge. Gridline i is at `y = (H - 30) - (H - 30) / steps * i` and runs from x = 45 to the right edge with thickness 1 when `fullLine`, otherwise to x = 50 with thickness 2. Its label is 15 px higher, is 45 px wide, is right-aligned and shows `maxVal / i` |
| LayoutProperties.GridlinesAscend | Graf/Graph.cs:193-242 | on a canvas taller than the margin, gridline j is strictly higher (smaller y) than gridline i whenever i < j |
| LayoutProperties.GridlinesWithinPlot | Graf/Graph.cs:193-242 | each gridline is horizontal and lies in `[0, H - 30)`; the last one (i = steps) is at y = 0 |
| LayoutProperties.StepLabelMisreadsScale | Graf/Graph.cs:244-252 | with H = 130, five steps and the single value 100, the top gridline is exactly where the bar of 100 ends, yet its label shows 20 |
| LayoutProperties.ScaleValueReadsGridline | Graf/Graph.cs:225-248 | the corrected label `maxVal * i / steps` is the value whose scaled height reaches gridline i exactly |
| Graf.DrawBarGraph | Graf/Graph.cs:135-189 | appends exactly the bar layer to the canvas and nothing else |
| Layout.BarsUpTo | Graf/Graph.cs:141-186 | the bar layer after k loop rounds holds `3k` primitives, three per value |
| LayoutProperties.BarLayerAt | Graf/Graph.cs:137-184 | element-by-element coordinates of the bar layer, with `vw = (W - 50) / n`. Element 3i is the bar: left edge `50 + vw*i + 0.1vw`, width `0.8vw`, top `H - 30 - heights[i]`, height `heights[i]`. Element 3i+1 is the label of `identifiers[i]`, spanning the slot. Element 3i+2 is the separator at `x = 50 + vw*(i+1)`: full height with thickness 1 when `fullLine`, otherwise a 5 px tick with thickness 2 |
| LayoutProperties.BarsInsideSlots | Graf/Graph.cs:137-184 | on a canvas wider than the margin, each bar starts strictly right of its slot's left end and ends strictly left of its separator, and stands on the x-axis |
| LayoutProperties.BarsDoNotOverlap | Graf/Graph.cs:137-149 | on a canvas wider than the margin, bar i ends strictly before bar j starts whenever i < j |
| LayoutProperties.LastSeparatorAtRightEdge | Graf/Graph.cs:137-181 | the separator after the last bar is at x = W |
| Graf.DrawLineGraph | Graf/Graph.cs:80-133 | appends exactly the line layer to the canvas and nothing else. With one point it appends nothing and computes no spacing |
| Layout.SegmentsUpTo | Graf/Graph.cs:84-130 | the line layer after the loop reaches k holds `3(k - 1)` primitives, three per point after the first |
| LayoutProperties.LineLayerAt | Graf/Graph.cs:82-129 | element-by-element coordinates of the line layer, with `vw = (W - 50) / (n - 1)`. Label i is centred on point i and shows `identifiers[i]`. Segment i runs from `(50 + vw*(i-1), H - 30 - heights[i-1])` to `(50 + vw*i, H - 30 - heights[i])` with thickness 2. Separator i is at `x = 50 + vw*i` |
| LayoutProperties.PolylineIsContinuous | Graf/Graph.cs:97-105 | each segment starts exactly where the previous one ends |
| LayoutProperties.PolylineSpansPlot | Graf/Graph.cs:82-105 | the polyline starts on the y-axis at the first height and ends at x = W at the last height |
| LayoutProperties.LineLayerIgnoresFirstIdentifier | Graf/Graph.cs:84-94 | two line charts whose identifiers differ only at index 0 are drawn identically |
| Graf.DrawGraph | Graf/Graph.cs:15-42 | on empty values or `steps < 1`, returns the matching parameter error and leaves the canvas untouched. Otherwise it appends exactly `Render`'s primitives and returns the canvas |
| Layout.Render | Graf/Graph.cs:15-42 | fails exactly when values are empty or steps < 1, with the source's two messages checked in that order. On success it holds `2 + 2*steps` axis primitives plus `3n` bar or `3(n - 1)` line primitives |
| LayoutProperties.RenderLayers | Graf/Graph.cs:22-39 | a successful chart is the axis layer (starting with the y-axis) followed by the bar or the line layer, as the graph type selects; a one-point line chart is the axis layer alone |
| LayoutProperties.RenderPoint | Graf/Graph.cs:22-39 | a one-point line chart, whatever its value (0 included), is exactly the axis layer: the line loop at Graf/Graph.cs:84 draws nothing and reads no height |
| Graf.NoIdentifiers | Graf/Graph.cs:49 | the overloads without names pass one empty name per value |
| Graf.DrawGraphUnlabelled | Graf/Graph.cs:44-52 | behaves as `DrawGraph` with one empty name per value, black axes and a blue graph |
| Graf.DrawGraphDefaults | Graf/Graph.cs:54-62 | behaves as `DrawGraph` with 5 steps, a line chart, short ticks, one empty name per value, black and blue |
| Graf.DrawGraphLabelled | Graf/Graph.cs:64-70 | behaves as `DrawGraph` with the given names, 5 steps, a line chart, short ticks, black and blue |
| Graf.DrawGraphLabelledAs | Graf/Graph.cs:72-78 | behaves as `DrawGraph` with the given names and chart type, 5 steps, short ticks, black and blue |

## Left out

- Graf.DrawGraph: once its own checks pass, it requires a non-zero maximum and an identifier for every value, except for a line chart of one point. The source reads neither in that case: its line loop (Graf/Graph.cs:84) runs zero times, so a one-point line chart is drawn as its axes even when its value is 0 and its heights are NaN. In every other case the source divides by a zero maximum (IEEE infinity or NaN heights) or throws an index-out-of-range error midway through drawing. The same requirement, with the defaults filled in, is on every overload.
- Graf.DrawGraph: WPF rejects a negative `Height` or `Width` with an `ArgumentException`, and the model does not raise it. This happens for a negative value's bar (Graf/Graph.cs:145), for bar and label widths when the canvas is narrower than 50 (Graf/Graph.cs:146, 155 and 90), and for heights when the canvas is lower than 30. The source then stops midway, after the axes are drawn. The model instead returns a layer holding negative sizes, so its layout lemmas assume non-negative values, `W >= 50` and `H >= 30` where they need them.
- Graf.DrawAxes: the loop counter at Graf/Graph.cs:217 is a 32-bit `int`. With `steps` equal to `int.MaxValue`, `i <= steps` never fails because `i` wraps around, and the source never returns. The model uses unbounded integers and draws `steps` gridlines.
- Graf.DrawGraph: the model asks for a non-zero maximum rather than a positive one. A negative maximum is scaled by the same arithmetic as the source. Bounds and ordering lemmas assume a positive maximum.
- Graf.DrawBarGraph and Graf.DrawLineGraph take the heights as a sequence rather than an array. They only read it, so no aliasing is lost.
- Graf.NoIdentifiers: the overloads without names pass `new string[n]`, whose entries are null. The model uses empty names, because a null label content draws no text either.
- IEEE-754 double arithmetic (rounding, NaN, infinities) is modelled as exact `real` arithmetic.
- WPF rendering and styling are not modelled. Brushes are an RGB tag. The right and bottom components of the `Thickness` margins (Graf/Graph.cs:147 and 246) only affect WPF layout, so only left and top positions are kept. Axis labels have no explicit height (`None`); WPF sizes them automatically.
- Label contents are kept as numbers or strings. Their formatting to text by WPF is not modelled.
- Graf/Exceptions.cs is modelled only as the error value with its message. Its constructors only forward to `System.Exception`.
- Graf/TestApp/MainWindow.xaml.cs is not part of this model. It is window bootstrap with random sample data.

## Findings

| source | as written | input that shows it | evidently intended | confidence | as-written member | corrected member |
|---|---|---|---|---|---|---|
| Graf/Graph.cs:248 | scale label i shows `maxVal / i`, so labels fall as the gridlines climb | H = 130, steps = 5, values = [100]: the top gridline, where the bar of 100 ends, is labelled 20 | label i shows `maxVal * i / steps`, the value drawn at gridline i | high; not executed | LayoutProperties.StepLabelMisreadsScale | Layout.ScaleValue, proved by LayoutProperties.ScaleValueReadsGridline |

`DrawAxes` keeps the label as written, so that the drawing model matches the source. `Layout.ScaleValue` is the corrected reading of each gridline, and `ScaleValueReadsGridline` proves it right.
