/**
 * The drawing surface the chart is rendered onto: a canvas of fixed size that
 * collects positioned primitives (lines, rectangles, text labels) in the order
 * they are added. Only positions, sizes, contents, colours and alignments are
 * kept; how the primitives are rendered is not part of this model.
 */
module Shapes {
  import opened Wrappers

  newtype Byte = x: int | 0 <= x < 256

  /** A solid colour, used for strokes, fills and text. */
  datatype Brush = Rgb(r: Byte, g: Byte, b: Byte)

  datatype HorizontalAlignment = Left | Center | Right | Stretch
  datatype VerticalAlignment = Top | Center | Bottom | Stretch

  /** What a label shows: a number (the axis scale) or a category name. */
  datatype Content = Number(value: real) | Text(text: string)

  /**
   * A positioned drawing primitive. Label positions are the left/top margin of
   * the label box; a label without a height takes its height from its content.
   */
  datatype Primitive =
    | Line(x1: real, y1: real, x2: real, y2: real, stroke: Brush, thickness: real)
    | Rect(left: real, top: real, width: real, height: real, fill: Brush)
    | Label(left: real, top: real, width: real, labelHeight: Option<real>,
            content: Content, foreground: Brush,
            hAlign: HorizontalAlignment, vAlign: VerticalAlignment)

  /** The canvas: its size is fixed, its children only ever grow. */
  class Canvas {
    var width: real
    var height: real
    var children: seq<Primitive>

    constructor (width: real, height: real)
      ensures this.width == width && this.height == height && children == []
    {
      this.width := width;
      this.height := height;
      children := [];
    }

    /** Appends one primitive on top of the ones already drawn. */
    method Add(p: Primitive)
      modifies this`children
      ensures children == old(children) + [p]
    {
      children := children + [p];
    }
  }
}
