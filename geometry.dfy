/** Points in shape-local coordinates. The source keeps them as tuples
    `(x, y)` of Python numbers; here they are exact reals. */
module Geometry {

  datatype Point = Point(x: real, y: real)

  /** Width and height of a legacy shape (`val_size`). */
  datatype Extent = Extent(width: real, height: real)

  const Origin := Point(0.0, 0.0)

  /** The outline `Rectangle.size` stores: counter-clockwise from the origin. */
  function RectangleCorners(width: real, height: real): seq<Point> {
    [Point(0.0, 0.0), Point(width, 0.0), Point(width, height), Point(0.0, height)]
  }
}
