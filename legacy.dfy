/** The single-module API of the package's first version: a rectangle
    with a top-to-bottom two-colour gradient, and a tree whose trunk blends
    between its two colours. The setters and the colour choices made when
    drawing are modelled; the GL calls themselves are not. */
module Legacy {
  import opened Results
  import opened Geometry
  import Colors

  /** The colours `Rectangle.draw` puts on its bottom and top edge: a
      single colour paints both, otherwise the first two are used. With one
      or two colours, as the setters leave, that is the first and the last
      colour; with none, `val_colors[0]` raises. */
  function EdgeColors(colors: seq<string>): (r: Result<(string, string)>)
    ensures r.Err? <==> colors == []
    ensures r.Err? ==> r.error == IndexError
    ensures r.Ok? ==> r.value.0 == colors[0]
    ensures 1 <= |colors| <= 2 ==> r.Ok? && r.value.1 == colors[|colors| - 1]
  {
    if colors == [] then Err(IndexError)
    else if |colors| == 1 then Ok((colors[0], colors[0]))
    else Ok((colors[0], colors[1]))
  }

  /** The legacy `Rectangle`. Its setters keep one or two colours. */
  class Rectangle {
    var position: Point
    var size: Extent
    var colors: seq<string>

    predicate Valid()
      reads this
    {
      1 <= |colors| <= 2
    }

    constructor()
      ensures Valid()
      ensures position == Origin && size == Extent(0.0, 0.0) && colors == [Colors.Black]
    {
      position := Origin;
      size := Extent(0.0, 0.0);
      colors := [Colors.Black];
    }

    method Position(x: real, y: real) returns (self: Rectangle)
      modifies this
      ensures self == this
      ensures position == Point(x, y) && size == old(size) && colors == old(colors)
    {
      position := Point(x, y);
      self := this;
    }

    /** `size(width, height=None)`: an omitted height makes a square. */
    method Size(width: real, height: Option<real>) returns (self: Rectangle)
      modifies this
      ensures self == this
      ensures size == Extent(width, height.GetOr(width)) && position == old(position) && colors == old(colors)
    {
      size := Extent(width, height.GetOr(width));
      self := this;
    }

    method Fill(color: string) returns (self: Rectangle)
      modifies this
      ensures self == this && Valid()
      ensures colors == [color] && position == old(position) && size == old(size)
    {
      colors := [color];
      self := this;
    }

    method Gradient(first: string, last: string) returns (self: Rectangle)
      modifies this
      ensures self == this && Valid()
      ensures colors == [first, last] && position == old(position) && size == old(size)
    {
      colors := [first, last];
      self := this;
    }

    /** The colour choice at the head of `draw()`. */
    method DrawColors() returns (r: Result<(string, string)>)
      ensures r == EdgeColors(colors)
      ensures Valid() ==> r.Ok? && r.value == (colors[0], colors[|colors| - 1])
    {
      if colors == [] {
        return Err(IndexError);
      }
      var startColor, endColor;
      if |colors| == 1 {
        startColor := colors[0];
        endColor := colors[0];
      } else {
        startColor := colors[0];
        endColor := colors[1];
      }
      r := Ok((startColor, endColor));
    }
  }

  /** The trunk colours `Tree.draw` hands to the trunk's gradient: the
      tree's colours reversed, or its one colour twice, so that the trunk
      always ends in the foliage colour where it meets the foliage. */
  function TrunkColors(colors: seq<string>): (cs: seq<string>)
    requires colors != []
    ensures |cs| == 2 && cs[1] == colors[0]
    ensures 1 <= |colors| <= 2 ==> cs[0] == colors[|colors| - 1]
    ensures |colors| > 2 ==> cs[0] == colors[0]
  {
    if |colors| == 2 then [colors[1], colors[0]] else [colors[0], colors[0]]
  }

  /** The colours a tree is drawn in: its foliage, and its trunk's gradient. */
  datatype TreeColors = TreeColors(foliage: string, trunk: seq<string>)

  /** A tree's trunk is a legacy rectangle: it starts at the ground in the
      tree's last colour and ends in the foliage colour. */
  lemma {:induction false} TrunkEdges(colors: seq<string>)
    requires 1 <= |colors| <= 2
    ensures EdgeColors(TrunkColors(colors)) == Ok((colors[|colors| - 1], colors[0]))
  {
    var cs := TrunkColors(colors);
    assert EdgeColors(cs).value == (cs[0], cs[1]);
  }

  /** The legacy `Tree`: a position, a height and one or two colours. */
  class Tree {
    var position: Point
    var size: Extent
    var colors: seq<string>

    predicate Valid()
      reads this
    {
      1 <= |colors| <= 2
    }

    constructor()
      ensures Valid()
      ensures position == Origin && size == Extent(0.0, 0.0) && colors == [Colors.Black]
    {
      position := Origin;
      size := Extent(0.0, 0.0);
      colors := [Colors.Black];
    }

    method Position(x: real, y: real) returns (self: Tree)
      modifies this
      ensures self == this
      ensures position == Point(x, y) && size == old(size) && colors == old(colors)
    {
      position := Point(x, y);
      self := this;
    }

    /** `size(height)`: a tree has a height only; its width stays 0. */
    method Size(height: real) returns (self: Tree)
      modifies this
      ensures self == this
      ensures size == Extent(0.0, height) && position == old(position) && colors == old(colors)
    {
      size := Extent(0.0, height);
      self := this;
    }

    method Fill(color: string) returns (self: Tree)
      modifies this
      ensures self == this && Valid()
      ensures colors == [color] && position == old(position) && size == old(size)
    {
      colors := [color];
      self := this;
    }

    /** `gradient(colorFrom, colorTo)`: the foliage keeps `colorFrom`; the
        trunk blends between the two. */
    method Gradient(first: string, last: string) returns (self: Tree)
      modifies this
      ensures self == this && Valid()
      ensures colors == [first, last] && position == old(position) && size == old(size)
    {
      colors := [first, last];
      self := this;
    }

    /** The colour choices in `draw()`: the foliage takes the first
        colour, and the trunk's two colours are chosen from the tree's. */
    method DrawColors() returns (r: Result<TreeColors>)
      ensures colors == [] ==> r == Err(IndexError)
      ensures colors != [] ==> r == Ok(TreeColors(colors[0], TrunkColors(colors)))
      ensures Valid() ==> r.Ok? && r.value.trunk == [colors[|colors| - 1], colors[0]]
    {
      if colors == [] {
        return Err(IndexError);
      }
      var foliage := colors[0];
      var trunk := [colors[0], colors[0]];
      if |colors| == 2 {
        trunk := [colors[1], colors[0]];
      }
      r := Ok(TreeColors(foliage, trunk));
    }
  }
}
