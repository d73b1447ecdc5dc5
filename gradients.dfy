/** `apply_gradient` of klim_gl_tools/utils.py: one colour per vertex from a
    ramp of equally spaced stops laid along a direction across the vertices'
    bounding box. The direction `(cos a, sin a)` is supplied by the caller
    instead of being computed from the angle `a`. */
module Gradients {
  import opened Results
  import opened Geometry
  import opened Chars
  import opened Colors

  /** The axis-aligned bounding box of the vertices. */
  datatype Box = Box(minX: real, maxX: real, minY: real, maxY: real)

  /** Python's `min` of a non-empty list. */
  function Min(s: seq<real>): (m: real)
    requires |s| > 0
    ensures m in s && forall i :: 0 <= i < |s| ==> m <= s[i]
  {
    if |s| == 1 then s[0]
    else
      var rest := Min(s[1..]);
      if s[0] <= rest then s[0] else rest
  }

  /** Python's `max` of a non-empty list. */
  function Max(s: seq<real>): (m: real)
    requires |s| > 0
    ensures m in s && forall i :: 0 <= i < |s| ==> s[i] <= m
  {
    if |s| == 1 then s[0]
    else
      var rest := Max(s[1..]);
      if s[0] >= rest then s[0] else rest
  }

  function Xs(vs: seq<Point>): (xs: seq<real>)
    ensures |xs| == |vs| && forall i :: 0 <= i < |vs| ==> xs[i] == vs[i].x
  {
    seq(|vs|, i requires 0 <= i < |vs| => vs[i].x)
  }

  function Ys(vs: seq<Point>): (ys: seq<real>)
    ensures |ys| == |vs| && forall i :: 0 <= i < |vs| ==> ys[i] == vs[i].y
  {
    seq(|vs|, i requires 0 <= i < |vs| => vs[i].y)
  }

  function BoundingBox(vs: seq<Point>): Box
    requires |vs| > 0
  {
    Box(Min(Xs(vs)), Max(Xs(vs)), Min(Ys(vs)), Max(Ys(vs)))
  }

  /** The vertex scaled into the box, per axis; an axis of zero extent maps to 0. */
  function Normalize(v: Point, box: Box): Point {
    Point(Scaled(v.x, box.minX, box.maxX), Scaled(v.y, box.minY, box.maxY))
  }

  /** `(c - lo) / (hi - lo) if (hi - lo) else 0`. */
  function Scaled(c: real, lo: real, hi: real): real {
    if hi - lo != 0.0 then (c - lo) / (hi - lo) else 0.0
  }

  /** The normalised vertex projected onto the direction `dir`. */
  function Project(v: Point, box: Box, dir: Point): real {
    var n := Normalize(v, box);
    n.x * dir.x + n.y * dir.y
  }

  /** The projection of every vertex, in vertex order. */
  function Projections(vs: seq<Point>, dir: Point): (ps: seq<real>)
    requires |vs| > 0
    ensures |ps| == |vs|
  {
    ProjectAll(vs, BoundingBox(vs), dir)
  }

  /** The projection of every vertex normalised into `box`. */
  function ProjectAll(vs: seq<Point>, box: Box, dir: Point): (ps: seq<real>)
    ensures |ps| == |vs|
  {
    seq(|vs|, i requires 0 <= i < |vs| => Project(vs[i], box, dir))
  }

  /** `(p - lo) / (hi - lo)`: the projection rescaled so that `lo` is 0 and `hi` is 1. */
  function Renormalize(p: real, lo: real, hi: real): (q: real)
    requires lo < hi
    ensures lo <= p <= hi ==> 0.0 <= q <= 1.0
    ensures p == lo ==> q == 0.0
    ensures p == hi ==> q == 1.0
  {
    UnitQuotient(p - lo, hi - lo);
    (p - lo) / (hi - lo)
  }

  /** `[(p - lo) / (hi - lo) for p in ps]`: every projection within [lo, hi] lands in [0,1]. */
  function Renormalized(ps: seq<real>, lo: real, hi: real): (qs: seq<real>)
    requires lo < hi
    requires forall i :: 0 <= i < |ps| ==> lo <= ps[i] <= hi
    ensures |qs| == |ps| && forall i :: 0 <= i < |ps| ==> 0.0 <= qs[i] <= 1.0
  {
    seq(|ps|, i requires 0 <= i < |ps| => Renormalize(ps[i], lo, hi))
  }

  lemma {:induction false} UnitQuotient(a: real, d: real)
    requires d > 0.0
    ensures 0.0 <= a <= d ==> 0.0 <= a / d <= 1.0
  {
    if 0.0 <= a <= d {
      assert a / d * d == a;
    }
  }

  /** Normalised into the vertices' bounding box, every vertex lands in the
      unit square; an axis along which all vertices agree normalises to 0,
      and along any other axis the box's edges go to 0 and 1. */
  lemma {:induction false} NormalizedInUnitSquare(vs: seq<Point>, i: nat)
    requires i < |vs|
    ensures 0.0 <= Normalize(vs[i], BoundingBox(vs)).x <= 1.0
    ensures 0.0 <= Normalize(vs[i], BoundingBox(vs)).y <= 1.0
    ensures BoundingBox(vs).minX == BoundingBox(vs).maxX ==> Normalize(vs[i], BoundingBox(vs)).x == 0.0
    ensures BoundingBox(vs).minY == BoundingBox(vs).maxY ==> Normalize(vs[i], BoundingBox(vs)).y == 0.0
    ensures vs[i].x == BoundingBox(vs).minX ==> Normalize(vs[i], BoundingBox(vs)).x == 0.0
    ensures vs[i].x == BoundingBox(vs).maxX > BoundingBox(vs).minX ==> Normalize(vs[i], BoundingBox(vs)).x == 1.0
  {
    var box := BoundingBox(vs);
    assert Xs(vs)[i] == vs[i].x && Ys(vs)[i] == vs[i].y;
    ScaledWithinBox(vs[i].x, box.minX, box.maxX);
    ScaledWithinBox(vs[i].y, box.minY, box.maxY);
  }

  /** One axis: a coordinate between the box's edges scales into [0,1],
      the low edge to 0 and the high edge to 1; a flat axis scales to 0. */
  lemma {:induction false} ScaledWithinBox(c: real, lo: real, hi: real)
    requires lo <= c <= hi
    ensures 0.0 <= Scaled(c, lo, hi) <= 1.0
    ensures lo == hi || c == lo ==> Scaled(c, lo, hi) == 0.0
    ensures c == hi > lo ==> Scaled(c, lo, hi) == 1.0
  {
    if lo < hi {
      UnitQuotient(c - lo, hi - lo);
    }
  }

  /** `np.ceil`. */
  function Ceil(x: real): (c: int)
    ensures x <= c as real < x + 1.0
  {
    if x.Floor as real == x then x.Floor else x.Floor + 1
  }

  /** `p * (n - 1)`: the position `p` measured in stop intervals. */
  function Segment(p: real, n: nat): real {
    p * (n - 1) as real
  }

  /** `int(np.floor(segment))`: the stop at or before the position. */
  function LeftStop(p: real, n: nat): int {
    Segment(p, n).Floor
  }

  /** `min(int(np.ceil(segment)), n - 1)`: the stop at or after the position, clamped to the last. */
  function RightStop(p: real, n: nat): int {
    var c := Ceil(Segment(p, n));
    if c < n - 1 then c else n - 1
  }

  /** `segment - left`: how far the position lies past the left stop. */
  function StopFraction(p: real, n: nat): real {
    Segment(p, n) - LeftStop(p, n) as real
  }

  /** For a position in [0,1] both chosen stops exist and the blend fraction lies in [0,1). */
  lemma {:induction false} StopIndicesInRange(p: real, n: nat)
    requires 0.0 <= p <= 1.0 && n >= 1
    ensures 0 <= LeftStop(p, n) <= RightStop(p, n) <= n - 1
    ensures 0.0 <= StopFraction(p, n) < 1.0
  {
    SegmentWithin(p, n);
    FloorWithin(Segment(p, n), n - 1);
  }

  lemma {:induction false} SegmentWithin(p: real, n: nat)
    requires 0.0 <= p <= 1.0 && n >= 1
    ensures 0.0 <= Segment(p, n) <= (n - 1) as real
  {
    ScaledWithin((n - 1) as real, p);
  }

  lemma {:induction false} FloorWithin(s: real, m: int)
    requires 0.0 <= s <= m as real
    ensures 0 <= s.Floor <= m
  {
  }

  /** The colour at position `p` of the ramp through the stops `rgb`. */
  function RampColor(rgb: seq<Rgb>, p: real): Rgb
    requires |rgb| >= 1 && 0.0 <= p <= 1.0
  {
    StopIndicesInRange(p, |rgb|);
    Interpolate(rgb[LeftStop(p, |rgb|)], rgb[RightStop(p, |rgb|)], StopFraction(p, |rgb|))
  }

  /** The hex colour at each of the positions. */
  function RampColors(rgb: seq<Rgb>, positions: seq<real>): (colors: seq<string>)
    requires |rgb| >= 1 && forall j :: 0 <= j < |positions| ==> 0.0 <= positions[j] <= 1.0
    ensures |colors| == |positions|
  {
    seq(|positions|, j requires 0 <= j < |positions| => UseRgb(RampColor(rgb, positions[j])))
  }

  /** `[useHex(color) for color in colors]`: the first malformed stop raises. */
  function DecodeStops(stops: seq<string>): (r: Result<seq<Rgb>>)
    ensures r.Ok? <==> forall i :: 0 <= i < |stops| ==> UseHex(stops[i]).Ok?
    ensures r.Ok? ==> |r.value| == |stops| && forall i :: 0 <= i < |stops| ==> UseHex(stops[i]) == Ok(r.value[i])
    ensures r.Err? ==> r.error == ValueError
  {
    if stops == [] then Ok([])
    else
      var first :- UseHex(stops[0]);
      var rest :- DecodeStops(stops[1..]);
      Ok([first] + rest)
  }

  /** `apply_gradient(vertices, stops, angle)` with `dir == (cos angle, sin angle)`.
      The errors, in the order the source meets them: a malformed stop
      (ValueError from `int`), no vertices (ValueError from `min`), all
      projections equal (the division yields NaN and `int(np.floor(nan))`
      raises ValueError), no stops (IndexError). */
  function GradientColors(vs: seq<Point>, stops: seq<string>, dir: Point): Result<seq<string>> {
    var rgb :- DecodeStops(stops);
    if |vs| == 0 then Err(ValueError)
    else
      var ps := Projections(vs, dir);
      var lo, hi := Min(ps), Max(ps);
      if lo == hi then Err(ValueError)
      else if |rgb| == 0 then Err(IndexError)
      else Ok(RampColors(rgb, Renormalized(ps, lo, hi)))
  }

  /** `apply_gradient`, step by step as the source computes it: decode the
      stops, project every vertex, then walk the vertices choosing the two
      neighbouring stops and blending them. */
  method ApplyGradient(vs: seq<Point>, stops: seq<string>, dir: Point) returns (r: Result<seq<string>>)
    ensures r == GradientColors(vs, stops, dir)
  {
    var decoded := DecodeStops(stops);
    if decoded.Err? {
      return Err(decoded.error);
    }
    if |vs| == 0 {
      return Err(ValueError);
    }
    var projected := ProjectVertices(vs, dir);
    var lo, hi := Min(projected), Max(projected);
    if lo == hi {
      return Err(ValueError);
    }
    if |decoded.value| == 0 {
      return Err(IndexError);
    }
    var colors := RampVertices(decoded.value, Renormalized(projected, lo, hi));
    return Ok(colors);
  }

  /** The projection loop of `apply_gradient`. */
  method ProjectVertices(vs: seq<Point>, dir: Point) returns (projected: seq<real>)
    requires |vs| > 0
    ensures projected == Projections(vs, dir)
  {
    var box := BoundingBox(vs);
    ghost var target := ProjectAll(vs, box, dir);
    projected := [];
    for i := 0 to |vs|
      invariant projected == target[..i]
    {
      var p := ProjectVertex(vs, box, dir, i);
      assert target[..i + 1] == target[..i] + [p];
      projected := projected + [p];
    }
    assert projected == target[..|vs|];
  }

  /** The body of the projection loop: normalise the vertex into the box and project it. */
  method ProjectVertex(vs: seq<Point>, box: Box, dir: Point, i: nat) returns (p: real)
    requires i < |vs|
    ensures p == ProjectAll(vs, box, dir)[i]
  {
    p := Project(vs[i], box, dir);
  }

  /** The colouring loop of `apply_gradient`, over the renormalised projections. */
  method RampVertices(rgb: seq<Rgb>, positions: seq<real>) returns (colors: seq<string>)
    requires |rgb| >= 1
    requires forall j :: 0 <= j < |positions| ==> 0.0 <= positions[j] <= 1.0
    ensures colors == RampColors(rgb, positions)
  {
    ghost var target := RampColors(rgb, positions);
    colors := [];
    for i := 0 to |positions|
      invariant colors == target[..i]
    {
      var text := RampVertex(rgb, positions, i);
      assert target[..i + 1] == target[..i] + [text];
      colors := colors + [text];
    }
    assert colors == target[..|positions|];
  }

  /** The body of the colouring loop: blend at the vertex's position and format the result. */
  method RampVertex(rgb: seq<Rgb>, positions: seq<real>, i: nat) returns (text: string)
    requires |rgb| >= 1 && i < |positions|
    requires forall j :: 0 <= j < |positions| ==> 0.0 <= positions[j] <= 1.0
    ensures text == RampColors(rgb, positions)[i]
  {
    var color := BlendAt(rgb, positions[i]);
    text := UseRgb(color);
  }

  /** One step of the colouring loop: the segment, the two stop indices,
      the fraction and the blend. */
  method BlendAt(rgb: seq<Rgb>, p: real) returns (color: Rgb)
    requires |rgb| >= 1 && 0.0 <= p <= 1.0
    ensures color == RampColor(rgb, p)
  {
    var n := |rgb|;
    StopIndicesInRange(p, n);
    var left, right := LeftStop(p, n), RightStop(p, n);
    var fraction := StopFraction(p, n);
    color := Interpolate(rgb[left], rgb[right], fraction);
  }

  /** The gradient succeeds exactly when every stop decodes, there is at
      least one stop and one vertex, and the vertices do not all project to
      the same value; it then yields one colour per vertex. */
  lemma {:induction false} GradientOutcome(vs: seq<Point>, stops: seq<string>, dir: Point)
    ensures GradientColors(vs, stops, dir).Ok? <==>
      (forall i :: 0 <= i < |stops| ==> UseHex(stops[i]).Ok?) && |stops| > 0 && |vs| > 0
      && Min(Projections(vs, dir)) < Max(Projections(vs, dir))
    ensures GradientColors(vs, stops, dir).Ok? ==> |GradientColors(vs, stops, dir).value| == |vs|
  {
    if |vs| > 0 {
      var ps := Projections(vs, dir);
      assert Min(ps) <= Max(ps) by { assert Min(ps) <= ps[0] <= Max(ps); }
    }
  }

  /** A lone vertex always has a degenerate projection range, so a gradient
      over one vertex raises ValueError whatever the stops. */
  lemma {:induction false} SingleVertexRaises(v: Point, stops: seq<string>, dir: Point)
    ensures GradientColors([v], stops, dir) == Err(ValueError)
  {
    var ps := Projections([v], dir);
    assert Min(ps) == ps[0] == Max(ps);
  }

  /** The ends of the ramp are exactly the first and the last stop. */
  lemma {:induction false} RampEnds(rgb: seq<Rgb>)
    requires |rgb| >= 1
    ensures RampColor(rgb, 0.0) == rgb[0]
    ensures RampColor(rgb, 1.0) == rgb[|rgb| - 1]
  {
    var n := |rgb|;
    assert Segment(0.0, n) == 0.0;
    assert Segment(1.0, n) == (n - 1) as real;
  }

  /** The stops are equally spaced: position `k / (n - 1)` is stop `k` exactly. */
  lemma {:induction false} RampAtStop(rgb: seq<Rgb>, k: nat)
    requires |rgb| >= 2 && k < |rgb|
    ensures RampColor(rgb, k as real / (|rgb| - 1) as real) == rgb[k]
  {
    var n := |rgb|;
    var p := k as real / (n - 1) as real;
    assert Segment(p, n) == k as real;
  }

  /** Every ramp colour lies, channel by channel, between two neighbouring
      stops, so stops inside [0,1] give colours inside [0,1]. */
  lemma {:induction false} RampInUnitRange(rgb: seq<Rgb>, p: real)
    requires |rgb| >= 1 && 0.0 <= p <= 1.0
    requires forall i :: 0 <= i < |rgb| ==> InUnitRange(rgb[i])
    ensures InUnitRange(RampColor(rgb, p))
  {
    StopIndicesInRange(p, |rgb|);
  }

  /** A stop written as '#' and six lowercase hex digits. */
  predicate CanonicalStop(stop: string) {
    |stop| == 7 && stop[0] == '#' && forall k :: 1 <= k < 7 ==> IsLowerHexDigit(stop[k])
  }

  /** A canonical stop survives decoding and re-encoding unchanged. */
  lemma {:induction false} CanonicalStopRoundTrip(stop: string)
    requires CanonicalStop(stop)
    ensures UseHex(stop).Ok? && UseRgb(UseHex(stop).value) == stop
  {
    var h := stop[1..];
    CanonicalDigits(stop, h);
    HexRoundTrip(h);
  }

  lemma {:induction false} CanonicalDigits(stop: string, h: string)
    requires CanonicalStop(stop) && h == stop[1..]
    ensures |h| == 6 && AllHex(h) && stop == "#" + h && LowerAll(h) == h
  {
    assert stop == [stop[0]] + h;
  }

  /** The vertices with the smallest projection receive the first decoded
      stop and those with the largest receive the last one. */
  lemma {:induction false} GradientEnds(vs: seq<Point>, stops: seq<string>, dir: Point, i: nat, rgb: seq<Rgb>)
    requires GradientColors(vs, stops, dir).Ok? && i < |vs| && rgb == DecodeStops(stops).value
    ensures |rgb| == |stops| >= 1
    ensures Projections(vs, dir)[i] == Min(Projections(vs, dir)) ==>
      GradientColors(vs, stops, dir).value[i] == UseRgb(rgb[0])
    ensures Projections(vs, dir)[i] == Max(Projections(vs, dir)) ==>
      GradientColors(vs, stops, dir).value[i] == UseRgb(rgb[|rgb| - 1])
  {
    var ps := Projections(vs, dir);
    GradientAt(vs, stops, dir, i);
    RampEnds(rgb);
    if ps[i] == Min(ps) {
      assert Renormalize(ps[i], Min(ps), Max(ps)) == 0.0;
    }
    if ps[i] == Max(ps) {
      assert Renormalize(ps[i], Min(ps), Max(ps)) == 1.0;
    }
  }

  /** Written canonically, the end stops come back as their own text at the
      extreme vertices. */
  lemma {:induction false} GradientCanonicalEnds(vs: seq<Point>, stops: seq<string>, dir: Point, i: nat)
    requires GradientColors(vs, stops, dir).Ok? && i < |vs|
    ensures CanonicalStop(stops[0]) && Projections(vs, dir)[i] == Min(Projections(vs, dir)) ==>
      GradientColors(vs, stops, dir).value[i] == stops[0]
    ensures CanonicalStop(stops[|stops| - 1]) && Projections(vs, dir)[i] == Max(Projections(vs, dir)) ==>
      GradientColors(vs, stops, dir).value[i] == stops[|stops| - 1]
  {
    var rgb := DecodeStops(stops).value;
    var ps := Projections(vs, dir);
    var colors := GradientColors(vs, stops, dir).value;
    GradientEnds(vs, stops, dir, i, rgb);
    var last := |stops| - 1;
    if CanonicalStop(stops[0]) && ps[i] == Min(ps) {
      assert colors[i] == UseRgb(rgb[0]);
      assert UseHex(stops[0]) == Ok(rgb[0]);
      CanonicalText(colors[i], rgb[0], stops[0]);
    }
    if CanonicalStop(stops[last]) && ps[i] == Max(ps) {
      assert colors[i] == UseRgb(rgb[last]);
      assert UseHex(stops[last]) == Ok(rgb[last]);
      CanonicalText(colors[i], rgb[last], stops[last]);
    }
  }

  /** The hex text of the colour a canonical stop decodes to is that stop. */
  lemma {:induction false} CanonicalText(text: string, c: Rgb, stop: string)
    requires CanonicalStop(stop) && UseHex(stop) == Ok(c) && text == UseRgb(c)
    ensures text == stop
  {
    CanonicalStopRoundTrip(stop);
  }

  /** The colour of one vertex: the ramp at its renormalised projection. */
  lemma {:induction false} GradientAt(vs: seq<Point>, stops: seq<string>, dir: Point, i: nat)
    requires GradientColors(vs, stops, dir).Ok? && i < |vs|
    ensures |DecodeStops(stops).value| >= 1 && Min(Projections(vs, dir)) < Max(Projections(vs, dir))
    ensures GradientColors(vs, stops, dir).value[i] == UseRgb(RampColor(DecodeStops(stops).value,
      Renormalize(Projections(vs, dir)[i], Min(Projections(vs, dir)), Max(Projections(vs, dir)))))
  {
  }

  /** A left-to-right gradient across a rectangle of positive width: the
      left corners take the first stop and the right corners the last,
      whatever the height and whatever stops lie between. */
  lemma {:induction false} RectangleGradient(width: real, height: real, stops: seq<string>)
    requires width > 0.0 && |stops| >= 1 && forall i :: 0 <= i < |stops| ==> UseHex(stops[i]).Ok?
    requires CanonicalStop(stops[0]) && CanonicalStop(stops[|stops| - 1])
    ensures GradientColors(RectangleCorners(width, height), stops, Point(1.0, 0.0))
            == Ok([stops[0], stops[|stops| - 1], stops[|stops| - 1], stops[0]])
  {
    var vs := RectangleCorners(width, height);
    var dir := Point(1.0, 0.0);
    RectangleProjections(width, height);
    GradientOutcome(vs, stops, dir);
    var r := GradientColors(vs, stops, dir);
    assert r.Ok? && |r.value| == 4;
    GradientCanonicalEnds(vs, stops, dir, 0);
    GradientCanonicalEnds(vs, stops, dir, 1);
    GradientCanonicalEnds(vs, stops, dir, 2);
    GradientCanonicalEnds(vs, stops, dir, 3);
    assert r.value[0] == stops[0] && r.value[3] == stops[0];
    assert r.value[1] == stops[|stops| - 1] && r.value[2] == stops[|stops| - 1];
    SeqOfFour(r.value, stops[0], stops[|stops| - 1]);
  }

  lemma {:induction false} SeqOfFour<T>(s: seq<T>, a: T, b: T)
    requires |s| == 4 && s[0] == a && s[1] == b && s[2] == b && s[3] == a
    ensures s == [a, b, b, a]
  {
  }

  /** Along the x axis the rectangle's corners project to 0, 1, 1, 0. */
  lemma {:induction false} RectangleProjections(width: real, height: real)
    requires width > 0.0
    ensures Projections(RectangleCorners(width, height), Point(1.0, 0.0)) == [0.0, 1.0, 1.0, 0.0]
    ensures Min([0.0, 1.0, 1.0, 0.0]) == 0.0 && Max([0.0, 1.0, 1.0, 0.0]) == 1.0
  {
    var vs := RectangleCorners(width, height);
    var box := RectangleBox(width, height);
    var ps := ProjectAll(vs, box, Point(1.0, 0.0));
    CornerProjection(vs[0], box, width);
    CornerProjection(vs[1], box, width);
    CornerProjection(vs[2], box, width);
    CornerProjection(vs[3], box, width);
    SeqOfFour(ps, 0.0, 1.0);
    MinMaxOfFour([0.0, 1.0, 1.0, 0.0], 0.0, 1.0);
  }

  /** The rectangle's bounding box spans [0, width] horizontally. */
  lemma {:induction false} RectangleBox(width: real, height: real) returns (box: Box)
    requires width > 0.0
    ensures box == BoundingBox(RectangleCorners(width, height))
    ensures box.minX == 0.0 && box.maxX == width
  {
    var vs := RectangleCorners(width, height);
    var lowY := if height < 0.0 then height else 0.0;
    var highY := if height < 0.0 then 0.0 else height;
    MinMaxOfFour(Xs(vs), 0.0, width);
    MinMaxOfFour(Ys(vs), lowY, highY);
    box := BoundingBox(vs);
  }

  /** A corner on the left or right edge of a box starting at x = 0 projects to 0 or 1 along the x axis. */
  lemma {:induction false} CornerProjection(v: Point, box: Box, w: real)
    requires box.minX == 0.0 && box.maxX == w && w > 0.0 && (v.x == 0.0 || v.x == w)
    ensures Project(v, box, Point(1.0, 0.0)) == if v.x == 0.0 then 0.0 else 1.0
  {
    if v.x == w {
      assert v.x / w == 1.0;
    }
    assert Normalize(v, box).x == v.x / w;
  }

  /** Min and max of four values whose extremes sit at the ends or in the middle pair. */
  lemma {:induction false} MinMaxOfFour(s: seq<real>, lo: real, hi: real)
    requires |s| == 4 && lo <= hi && (s[0] == lo || s[3] == lo || s[1] == lo) && (s[1] == hi || s[2] == hi || s[0] == hi)
    requires forall i :: 0 <= i < 4 ==> lo <= s[i] <= hi
    ensures Min(s) == lo && Max(s) == hi
  {
  }
}
