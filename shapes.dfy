/** The shape builders of the package: a `Shape` record that fluent setters
    update in place, the outline builders of its subclasses, and the two
    mixin builders (a vertex array, an SVG path). Drawing is not modelled;
    what is modelled is the state a draw call would read. */
module Shapes {
  import opened Results
  import opened Geometry
  import opened Gradients
  import opened SvgPath
  import Colors

  /** A render pass, named as the source appends it to `_render_passes`. */
  datatype Pass = FillPass | StrokePass | MaskPass

  /** `_stroke = [width, color]`. */
  datatype Stroke = Stroke(width: real, color: string)

  /** `_mask = [pattern, color]`; the pattern is stored and never read here. */
  datatype Mask = Mask(pattern: seq<int>, color: string)

  /** `kwargs.get('angle', 0)`: angle 0 points along the x axis. */
  const DefaultDirection := Point(1.0, 0.0)

  /** `[color for _ in vertices]`. */
  function Repeat(color: string, n: nat): (cs: seq<string>)
    ensures |cs| == n && forall k :: 0 <= k < n ==> cs[k] == color
  {
    seq(n, _ => color)
  }

  /** `_validate_vertex_colors` on values: colours whose count differs from
      the vertex count become copies of the first colour; with no colour to
      copy and at least one vertex, `colors[0]` raises. */
  function Repaired(colors: seq<string>, n: nat): Result<seq<string>> {
    if |colors| == n then Ok(colors)
    else if n == 0 then Ok([])
    else if colors == [] then Err(IndexError)
    else Ok(Repeat(colors[0], n))
  }

  /** The repair fails only for an empty colour list against a non-empty
      vertex list; otherwise it leaves exactly one colour per vertex, keeps
      matching colours as they are and otherwise copies the first colour. */
  lemma {:induction false} RepairedOutcome(colors: seq<string>, n: nat)
    ensures Repaired(colors, n).Err? <==> colors == [] && n > 0
    ensures Repaired(colors, n).Err? ==> Repaired(colors, n).error == IndexError
    ensures Repaired(colors, n).Ok? ==> |Repaired(colors, n).value| == n
    ensures |colors| == n ==> Repaired(colors, n) == Ok(colors)
    ensures |colors| != n && colors != [] ==>
      forall k :: 0 <= k < n ==> Repaired(colors, n).value[k] == colors[0]
  {
  }

  /** Repairing twice is repairing once. */
  lemma {:induction false} RepairedIdempotent(colors: seq<string>, n: nat)
    requires Repaired(colors, n).Ok?
    ensures Repaired(Repaired(colors, n).value, n) == Repaired(colors, n)
  {
    RepairedOutcome(colors, n);
  }

  /** A fresh shape has no vertices and one colour, so its first repair
      empties the colour list. */
  lemma {:induction false} FreshShapeRepair()
    ensures Repaired([Colors.Black], 0) == Ok([])
  {
  }

  /** What `gradient` leaves behind: the colours it ends with, and the
      error it raised, if any. */
  datatype Filled = Filled(raised: Option<Error>, colors: seq<string>) {
    function Outcome<T>(self: T): Result<T> {
      if raised.Some? then Err(raised.value) else Ok(self)
    }
  }

  /** `gradient` on values: repair the colours, then ramp the stops across
      the vertices; an error at either step keeps the colours reached so far. */
  function GradientFill(colors: seq<string>, vs: seq<Point>, stops: seq<string>, dir: Point): Filled {
    match Repaired(colors, |vs|)
    case Err(e) => Filled(Some(e), colors)
    case Ok(repaired) =>
      match GradientColors(vs, stops, dir)
      case Err(e) => Filled(Some(e), repaired)
      case Ok(ramp) => Filled(None, ramp)
  }

  /** A gradient on a shape raises IndexError exactly when it has vertices
      but no colours, and then keeps its colours; otherwise it raises what
      the ramp raises, keeping the repaired colours, or ends with one ramp
      colour per vertex. */
  lemma {:induction false} GradientFillOutcome(colors: seq<string>, vs: seq<Point>, stops: seq<string>, dir: Point)
    ensures colors == [] && vs != [] ==> GradientFill(colors, vs, stops, dir) == Filled(Some(IndexError), colors)
    ensures !(colors == [] && vs != []) && GradientColors(vs, stops, dir).Err? ==>
      GradientFill(colors, vs, stops, dir).raised == Some(GradientColors(vs, stops, dir).error)
      && |GradientFill(colors, vs, stops, dir).colors| == |vs|
    ensures !(colors == [] && vs != []) && GradientColors(vs, stops, dir).Ok? ==>
      GradientFill(colors, vs, stops, dir) == Filled(None, GradientColors(vs, stops, dir).value)
  {
    RepairedOutcome(colors, |vs|);
  }

  /** `Shape`: vertices, one colour per vertex, position, stroke, mask and
      the passes the draw call will run, in call order. */
  class Shape {
    var vertices: seq<Point>
    var vertexColors: seq<string>
    var position: Point
    var rotation: real
    var stroke: Stroke
    var mask: Mask
    var renderPasses: seq<Pass>

    constructor()
      ensures vertices == [] && vertexColors == [Colors.Black] && position == Origin && rotation == 0.0
      ensures stroke == Stroke(1.0, Colors.Black) && mask == Mask([], Colors.Black) && renderPasses == []
    {
      vertices := [];
      vertexColors := [Colors.Black];
      position := Origin;
      rotation := 0.0;
      stroke := Stroke(1.0, Colors.Black);
      mask := Mask([], Colors.Black);
      renderPasses := [];
    }

    /** `position(x, y=None)`: an omitted y repeats x. */
    method Position(x: real, y: Option<real>) returns (self: Shape)
      modifies this
      ensures self == this
      ensures position == Point(x, y.GetOr(x))
      ensures y.None? ==> position.y == x
      ensures vertices == old(vertices) && vertexColors == old(vertexColors) && rotation == old(rotation)
      ensures stroke == old(stroke) && mask == old(mask) && renderPasses == old(renderPasses)
    {
      position := Point(x, y.GetOr(x));
      self := this;
    }

    /** `fill(color)`: one fill pass, and the colour on every vertex. */
    method Fill(color: string) returns (self: Shape)
      modifies this
      ensures self == this
      ensures renderPasses == old(renderPasses) + [FillPass]
      ensures |vertexColors| == |vertices| && forall k :: 0 <= k < |vertices| ==> vertexColors[k] == color
      ensures vertices == old(vertices) && position == old(position) && rotation == old(rotation)
      ensures stroke == old(stroke) && mask == old(mask)
    {
      renderPasses := renderPasses + [FillPass];
      vertexColors := Repeat(color, |vertices|);
      self := this;
    }

    /** `gradient(*colors, angle=...)`: the fill pass is recorded first, then
        the colours are repaired, then the gradient replaces them. Each step
        can raise, and what happened before the exception stays done. */
    method Gradient(stops: seq<string>, dir: Option<Point>) returns (r: Result<Shape>)
      modifies this
      ensures renderPasses == old(renderPasses) + [FillPass]
      ensures vertices == old(vertices) && position == old(position) && rotation == old(rotation)
      ensures stroke == old(stroke) && mask == old(mask)
      ensures vertexColors == GradientFill(old(vertexColors), vertices, stops, dir.GetOr(DefaultDirection)).colors
      ensures r == GradientFill(old(vertexColors), vertices, stops, dir.GetOr(DefaultDirection)).Outcome(this)
    {
      renderPasses := renderPasses + [FillPass];
      var repaired := ValidateVertexColors();
      if repaired.Err? {
        return Err(repaired.error);
      }
      var ramped := AssignGradient(stops, dir.GetOr(DefaultDirection));
      r := if ramped.Err? then Err(ramped.error) else Ok(this);
    }

    /** `self._vertex_colors = apply_gradient(...)`: the colours are replaced
        only when the gradient does not raise. */
    method AssignGradient(stops: seq<string>, dir: Point) returns (r: Result<()>)
      modifies this
      ensures GradientColors(vertices, stops, dir).Ok? ==>
        r == Ok(()) && vertexColors == GradientColors(vertices, stops, dir).value
      ensures GradientColors(vertices, stops, dir).Err? ==>
        r == Err(GradientColors(vertices, stops, dir).error) && vertexColors == old(vertexColors)
      ensures vertices == old(vertices) && position == old(position) && rotation == old(rotation)
      ensures stroke == old(stroke) && mask == old(mask) && renderPasses == old(renderPasses)
    {
      var colors := ApplyGradient(vertices, stops, dir);
      if colors.Err? {
        return Err(colors.error);
      }
      vertexColors := colors.value;
      r := Ok(());
    }

    /** `stroke(width=1, color='#000000')`. */
    method SetStroke(width: Option<real>, color: Option<string>) returns (self: Shape)
      modifies this
      ensures self == this
      ensures renderPasses == old(renderPasses) + [StrokePass]
      ensures stroke == Stroke(width.GetOr(1.0), color.GetOr(Colors.Black))
      ensures vertices == old(vertices) && vertexColors == old(vertexColors) && position == old(position)
      ensures rotation == old(rotation) && mask == old(mask)
    {
      renderPasses := renderPasses + [StrokePass];
      stroke := Stroke(width.GetOr(1.0), color.GetOr(Colors.Black));
      self := this;
    }

    /** `mask(pattern, color='#000000')`: the pattern is only stored. */
    method SetMask(pattern: seq<int>, color: Option<string>) returns (self: Shape)
      modifies this
      ensures self == this
      ensures renderPasses == old(renderPasses) + [MaskPass]
      ensures mask == Mask(pattern, color.GetOr(Colors.Black))
      ensures vertices == old(vertices) && vertexColors == old(vertexColors) && position == old(position)
      ensures rotation == old(rotation) && stroke == old(stroke)
    {
      renderPasses := renderPasses + [MaskPass];
      mask := Mask(pattern, color.GetOr(Colors.Black));
      self := this;
    }

    /** `_validate_vertex_colors()`: the warning it can print is not modelled. */
    method ValidateVertexColors() returns (r: Result<()>)
      modifies this
      ensures Repaired(old(vertexColors), |vertices|).Ok? ==>
        r == Ok(()) && vertexColors == Repaired(old(vertexColors), |vertices|).value
      ensures Repaired(old(vertexColors), |vertices|).Err? ==>
        r == Err(IndexError) && vertexColors == old(vertexColors)
      ensures vertices == old(vertices) && position == old(position) && rotation == old(rotation)
      ensures stroke == old(stroke) && mask == old(mask) && renderPasses == old(renderPasses)
    {
      if |vertexColors| != |vertices| {
        if |vertices| > 0 && vertexColors == [] {
          return Err(IndexError);
        }
        vertexColors := if |vertices| == 0 then [] else Repeat(vertexColors[0], |vertices|);
      }
      r := Ok(());
    }

    /** `useVertexArray(array)`: the array becomes the outline as given. */
    method UseVertexArray(vertexArray: seq<Point>) returns (self: Shape)
      modifies this
      ensures self == this
      ensures vertices == vertexArray
      ensures vertexColors == old(vertexColors) && position == old(position) && rotation == old(rotation)
      ensures stroke == old(stroke) && mask == old(mask) && renderPasses == old(renderPasses)
    {
      vertices := vertexArray;
      self := this;
    }

    /** `useSvgPath(path)`: the parsed points become the outline; when
        parsing raises, the shape is left as it was. */
    method UseSvgPath(path: string) returns (r: Result<Shape>)
      modifies this
      ensures SvgPoints(path).Ok? ==> r == Ok(this) && vertices == SvgPoints(path).value
      ensures SvgPoints(path).Err? ==> r == Err(SvgPoints(path).error) && vertices == old(vertices)
      ensures vertexColors == old(vertexColors) && position == old(position) && rotation == old(rotation)
      ensures stroke == old(stroke) && mask == old(mask) && renderPasses == old(renderPasses)
    {
      var points := ParseSvgPath(path);
      if points.Err? {
        return Err(points.error);
      }
      vertices := points.value;
      r := Ok(this);
    }
  }

  /** `Polygon`: a shape with a tessellation switch. */
  class Polygon {
    const shape: Shape
    var tessellated: bool

    constructor()
      ensures fresh(shape) && !tessellated
      ensures shape.vertices == [] && shape.vertexColors == [Colors.Black] && shape.position == Origin
      ensures shape.renderPasses == []
      ensures shape.rotation == 0.0 && shape.stroke == Stroke(1.0, Colors.Black) && shape.mask == Mask([], Colors.Black)
    {
      shape := new Shape();
      tessellated := false;
    }

    /** `path(vertex_array)`: replaces the outline and nothing else. */
    method Path(vertexArray: seq<Point>) returns (self: Polygon)
      modifies shape
      ensures self == this
      ensures shape.vertices == vertexArray
      ensures shape.vertexColors == old(shape.vertexColors) && shape.position == old(shape.position)
      ensures shape.rotation == old(shape.rotation) && shape.stroke == old(shape.stroke)
      ensures shape.mask == old(shape.mask) && shape.renderPasses == old(shape.renderPasses)
    {
      shape.vertices := vertexArray;
      self := this;
    }

    /** `tessellate()`: switches tessellation on and changes nothing else. */
    method Tessellate() returns (self: Polygon)
      modifies this
      ensures self == this && tessellated
    {
      tessellated := true;
      self := this;
    }
  }

  /** `Rectangle`: a shape whose outline is set by its size. */
  class Rectangle {
    const shape: Shape

    constructor()
      ensures fresh(shape)
      ensures shape.vertices == [] && shape.vertexColors == [Colors.Black] && shape.position == Origin
      ensures shape.renderPasses == []
      ensures shape.rotation == 0.0 && shape.stroke == Stroke(1.0, Colors.Black) && shape.mask == Mask([], Colors.Black)
    {
      shape := new Shape();
    }

    /** `size(width, height=None)`: the four corners from the origin; an
        omitted height makes a square. */
    method Size(width: real, height: Option<real>) returns (self: Rectangle)
      modifies shape
      ensures self == this
      ensures shape.vertices == RectangleCorners(width, height.GetOr(width))
      ensures |shape.vertices| == 4 && shape.vertices[0] == Origin
      ensures height.None? ==> shape.vertices[2] == Point(width, width)
      ensures shape.vertexColors == old(shape.vertexColors) && shape.position == old(shape.position)
      ensures shape.rotation == old(shape.rotation) && shape.stroke == old(shape.stroke)
      ensures shape.mask == old(shape.mask) && shape.renderPasses == old(shape.renderPasses)
    {
      shape.vertices := RectangleCorners(width, height.GetOr(width));
      self := this;
    }
  }

  /** The vertex `Ellipse.size` places for the unit-circle point `unit`
      (the cosine and sine of its angle): the ellipse inscribed in the box
      from the origin to (width, height). */
  function EllipseVertex(width: real, height: real, unit: Point): Point {
    Point(width / 2.0 + width / 2.0 * unit.x, height / 2.0 + height / 2.0 * unit.y)
  }

  /** The outline `Ellipse.size` builds: `2 * pi / quality` raises for
      quality 0, `range(quality)` is empty for a negative quality, and
      otherwise vertex `k` sits at the angle reached after `k` steps, whose
      cosine and sine `circle(k)` supplies. */
  function EllipseOutline(width: real, height: real, quality: int, circle: nat -> Point): Result<seq<Point>> {
    if quality == 0 then Err(ZeroDivisionError)
    else if quality < 0 then Ok([])
    else Ok(seq(quality, k requires 0 <= k < quality => EllipseVertex(width, height, circle(k))))
  }

  /** The outline has exactly `quality` vertices (none for a negative
      quality), vertex `k` placed from `circle(k)`. */
  lemma {:induction false} EllipseVertexCount(width: real, height: real, quality: int, circle: nat -> Point)
    ensures EllipseOutline(width, height, quality, circle).Err? <==> quality == 0
    ensures EllipseOutline(width, height, quality, circle).Ok? ==>
      |EllipseOutline(width, height, quality, circle).value| == if quality > 0 then quality else 0
    ensures quality > 0 ==> forall k :: 0 <= k < quality ==>
      EllipseOutline(width, height, quality, circle).value[k] == EllipseVertex(width, height, circle(k))
  {
  }

  /** A vertex placed from a point of the unit circle lies on the ellipse
      with centre (width/2, height/2) and semi-axes width/2 and height/2. */
  lemma {:induction false} EllipseVertexOnEllipse(width: real, height: real, unit: Point)
    requires unit.x * unit.x + unit.y * unit.y == 1.0
    ensures (EllipseVertex(width, height, unit).x - width / 2.0) * (EllipseVertex(width, height, unit).x - width / 2.0)
              * (height / 2.0) * (height / 2.0)
          + (EllipseVertex(width, height, unit).y - height / 2.0) * (EllipseVertex(width, height, unit).y - height / 2.0)
              * (width / 2.0) * (width / 2.0)
          == (width / 2.0) * (width / 2.0) * (height / 2.0) * (height / 2.0)
  {
    var a, b := width / 2.0, height / 2.0;
    var v := EllipseVertex(width, height, unit);
    assert v.x - a == a * unit.x;
    assert v.y - b == b * unit.y;
    calc {
      (a * unit.x) * (a * unit.x) * b * b + (b * unit.y) * (b * unit.y) * a * a;
      (a * a * b * b) * (unit.x * unit.x + unit.y * unit.y);
      a * a * b * b;
    }
  }

  /** `Ellipse`: a shape whose outline is a polygon of `quality` vertices. */
  class Ellipse {
    const shape: Shape
    var quality: int

    constructor()
      ensures fresh(shape) && quality == 100
      ensures shape.vertices == [] && shape.vertexColors == [Colors.Black] && shape.position == Origin
      ensures shape.renderPasses == []
      ensures shape.rotation == 0.0 && shape.stroke == Stroke(1.0, Colors.Black) && shape.mask == Mask([], Colors.Black)
    {
      shape := new Shape();
      quality := 100;
    }

    /** `quality(segments)`. */
    method Quality(segments: int) returns (self: Ellipse)
      modifies this
      ensures self == this && quality == segments
    {
      quality := segments;
      self := this;
    }

    /** `size(width, height=None)`: the step is computed before the outline
        is cleared, so quality 0 raises and leaves the old outline. */
    method Size(width: real, height: Option<real>, circle: nat -> Point) returns (r: Result<Ellipse>)
      modifies shape
      ensures EllipseOutline(width, height.GetOr(width), quality, circle).Ok? ==>
        r == Ok(this) && shape.vertices == EllipseOutline(width, height.GetOr(width), quality, circle).value
      ensures EllipseOutline(width, height.GetOr(width), quality, circle).Err? ==>
        r == Err(ZeroDivisionError) && shape.vertices == old(shape.vertices)
      ensures shape.vertexColors == old(shape.vertexColors) && shape.position == old(shape.position)
      ensures shape.rotation == old(shape.rotation) && shape.stroke == old(shape.stroke)
      ensures shape.mask == old(shape.mask) && shape.renderPasses == old(shape.renderPasses)
    {
      var h := height.GetOr(width);
      if quality == 0 {
        return Err(ZeroDivisionError);
      }
      var count := if quality > 0 then quality else 0;
      ghost var target := EllipseOutline(width, h, quality, circle).value;
      var outline: seq<Point> := [];
      for k := 0 to count
        invariant outline == target[..k]
      {
        var v := EllipseVertex(width, h, circle(k));
        assert target[..k + 1] == target[..k] + [v];
        outline := outline + [v];
      }
      assert outline == target[..count];
      shape.vertices := outline;
      r := Ok(this);
    }
  }
}
