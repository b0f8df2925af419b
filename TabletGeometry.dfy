/**
  What the tablet graphic's paths draw, once an SVG renderer has resolved
  their relative commands: where each outline starts, that it closes, how far
  it reaches, and what each dimension indicator measures.
*/
module TabletGeometry {
  import opened Wrappers
  import opened SvgPath
  import opened TabletGraphic

  function Abs(x: real): real {
    if x < 0.0 then -x else x
  }

  /** A dimension indicator measuring `extent` downwards from `(x0, y0)`:
      a tick of length `Cap` at each end and a vertical leader through the
      middle of the ticks. */
  predicate VerticalMeasure(segs: seq<Seg>, x0: real, y0: real, extent: real) {
    segs == [Line(Point(x0, y0), Point(x0 + Cap, y0)),
             Line(Point(x0 + Cap / 2.0, y0), Point(x0 + Cap / 2.0, y0 + extent)),
             Line(Point(x0 + Cap, y0 + extent), Point(x0, y0 + extent))]
  }

  /** A dimension indicator measuring `extent` rightwards from `(x0, y0)`:
      a vertical tick of length `Cap` at each end and a horizontal leader
      half-way down the ticks. */
  predicate HorizontalMeasure(segs: seq<Seg>, x0: real, y0: real, extent: real) {
    segs == [Line(Point(x0, y0), Point(x0, y0 + Cap)),
             Line(Point(x0, y0 + Cap / 2.0), Point(x0 + extent, y0 + Cap / 2.0)),
             Line(Point(x0 + extent, y0), Point(x0 + extent, y0 + Cap))]
  }

  // ----- the viewport -----

  /** The derived constants: 750 units per metre, centre (12, 9). */
  lemma ViewportConstants()
    ensures Scale == (ViewHeight - 2.0 * Padding) / MaxHeight
    ensures Scale == 750.0 && Scale > 0.0
    ensures CenterX == 12.0 && CenterY == 9.0
    ensures CenterX == ViewWidth / 2.0 && CenterY == ViewHeight / 2.0
  {
  }

  // ----- the width and thickness indicators -----

  /** The width indicator starts `Padding` right of the outline, level with
      its top edge, and its leader spans the scaled width symmetrically about
      the centre line. */
  lemma WidthLineGeometry(length: real, width: real)
    ensures var l := length * Scale;
      var w := width * Scale;
      var x0 := CenterX + l / 2.0 + Padding;
      var y0 := CenterY - w / 2.0;
      var segs := Picture(WidthLine(length, width));
      && VerticalMeasure(segs, x0, y0, w)
      && EndPoint(WidthLine(length, width)) == Point(x0, y0 + w)
      && segs[1].from.y + segs[1].to.y == 2.0 * CenterY
      && segs[1].to.y - segs[1].from.y == w
  {
    var c := WidthLine(length, width);
    var p1 := Step(Origin, c[0]);
    var p2 := Step(p1, c[1]);
    var p3 := Step(p2, c[2]);
    var p4 := Step(p3, c[3]);
    var p5 := Step(p4, c[4]);
    var p6 := Step(p5, c[5]);
    assert Drawn(p6, c[6..]) == [] && Run(p6, c[6..]) == p6;
    assert Drawn(p5, c[5..]) == Piece(p5, c[5]) + Drawn(p6, c[6..]) && Run(p5, c[5..]) == Run(p6, c[6..]);
    assert Drawn(p4, c[4..]) == Piece(p4, c[4]) + Drawn(p5, c[5..]) && Run(p4, c[4..]) == Run(p5, c[5..]);
    assert Drawn(p3, c[3..]) == Piece(p3, c[3]) + Drawn(p4, c[4..]) && Run(p3, c[3..]) == Run(p4, c[4..]);
    assert Drawn(p2, c[2..]) == Piece(p2, c[2]) + Drawn(p3, c[3..]) && Run(p2, c[2..]) == Run(p3, c[3..]);
    assert Drawn(p1, c[1..]) == Piece(p1, c[1]) + Drawn(p2, c[2..]) && Run(p1, c[1..]) == Run(p2, c[2..]);
  }

  /** The thickness indicator is the width indicator with the thickness in
      place of the width. */
  lemma ThicknessLineIsWidthLine(thickness: real, length: real)
    ensures ThicknessLine(thickness, length) == WidthLine(length, thickness)
  {
  }

  /** The unused cup indicator starts level with the top of a tablet of
      thickness `total` and measures the scaled cup depth downwards. */
  lemma CupThicknessLineGeometry(cup: real, total: real, length: real)
    ensures var x0 := CenterX + length * Scale / 2.0 + Padding;
      var y0 := CenterY - total * Scale / 2.0;
      && VerticalMeasure(Picture(CupThicknessLine(cup, total, length)), x0, y0, cup * Scale)
      && EndPoint(CupThicknessLine(cup, total, length)) == Point(x0, y0 + cup * Scale)
  {
    var c := CupThicknessLine(cup, total, length);
    var p1 := Step(Origin, c[0]);
    var p2 := Step(p1, c[1]);
    var p3 := Step(p2, c[2]);
    var p4 := Step(p3, c[3]);
    var p5 := Step(p4, c[4]);
    var p6 := Step(p5, c[5]);
    assert Drawn(p6, c[6..]) == [] && Run(p6, c[6..]) == p6;
    assert Drawn(p5, c[5..]) == Piece(p5, c[5]) + Drawn(p6, c[6..]) && Run(p5, c[5..]) == Run(p6, c[6..]);
    assert Drawn(p4, c[4..]) == Piece(p4, c[4]) + Drawn(p5, c[5..]) && Run(p4, c[4..]) == Run(p5, c[5..]);
    assert Drawn(p3, c[3..]) == Piece(p3, c[3]) + Drawn(p4, c[4..]) && Run(p3, c[3..]) == Run(p4, c[4..]);
    assert Drawn(p2, c[2..]) == Piece(p2, c[2]) + Drawn(p3, c[3..]) && Run(p2, c[2..]) == Run(p3, c[3..]);
    assert Drawn(p1, c[1..]) == Piece(p1, c[1]) + Drawn(p2, c[2..]) && Run(p1, c[1..]) == Run(p2, c[2..]);
  }

  // ----- the length indicator -----

  /** The length indicator hangs `Padding` below the outline; its ticks stand
      at the two ends of the scaled length and its leader runs exactly that
      length, symmetric about the centre. A round tablet's width is taken to be
      its length. */
  lemma LengthLineGeometry(shape: string, length: real, width: real)
    ensures var l := length * Scale;
      var w := (if shape == RoundShape then length else width) * Scale;
      var x0 := CenterX - l / 2.0;
      var y0 := CenterY + w / 2.0 + Padding;
      var segs := Picture(LengthLine(shape, length, width));
      && HorizontalMeasure(segs, x0, y0, l)
      && EndPoint(LengthLine(shape, length, width)) == Point(x0 + l, y0 + Cap)
      && segs[1].from.x + segs[1].to.x == 2.0 * CenterX
      && segs[1].to.x - segs[1].from.x == l
  {
    var c := LengthLine(shape, length, width);
    var p1 := Step(Origin, c[0]);
    var p2 := Step(p1, c[1]);
    var p3 := Step(p2, c[2]);
    var p4 := Step(p3, c[3]);
    var p5 := Step(p4, c[4]);
    var p6 := Step(p5, c[5]);
    assert Drawn(p6, c[6..]) == [] && Run(p6, c[6..]) == p6;
    assert Drawn(p5, c[5..]) == Piece(p5, c[5]) + Drawn(p6, c[6..]) && Run(p5, c[5..]) == Run(p6, c[6..]);
    assert Drawn(p4, c[4..]) == Piece(p4, c[4]) + Drawn(p5, c[5..]) && Run(p4, c[4..]) == Run(p5, c[5..]);
    assert Drawn(p3, c[3..]) == Piece(p3, c[3]) + Drawn(p4, c[4..]) && Run(p3, c[3..]) == Run(p4, c[4..]);
    assert Drawn(p2, c[2..]) == Piece(p2, c[2]) + Drawn(p3, c[3..]) && Run(p2, c[2..]) == Run(p3, c[3..]);
    assert Drawn(p1, c[1..]) == Piece(p1, c[1]) + Drawn(p2, c[2..]) && Run(p1, c[1..]) == Run(p2, c[2..]);
  }

  /** A round tablet's length indicator is the one for a width equal to its length. */
  lemma LengthLineOfRound(length: real, width: real)
    ensures LengthLine(RoundShape, length, width) == LengthLine(RoundShape, length, length)
  {
    assert LengthLine(RoundShape, length, width)[0] == LengthLine(RoundShape, length, length)[0];
  }

  /** For a round tablet the length indicator does not depend on the width. */
  lemma RoundLengthLineIgnoresWidth(length: real, width1: real, width2: real)
    ensures LengthLine(RoundShape, length, width1) == LengthLine(RoundShape, length, width2)
    ensures TopLine("length", RoundShape, width1, length) == TopLine("length", RoundShape, width2, length)
  {
    LengthLineOfRound(length, width1);
    LengthLineOfRound(length, width2);
  }

  // ----- the dispatchers -----

  /** `"width"` draws the width indicator right of the outline, `"length"`
      the length indicator below it, and any other selector nothing. */
  lemma TopLineDispatch(line: string, shape: string, width: real, length: real)
    ensures var l := length * Scale;
      var w := width * Scale;
      line == "width" ==>
        VerticalMeasure(Picture(TopLine(line, shape, width, length)),
                        CenterX + l / 2.0 + Padding, CenterY - w / 2.0, w)
    ensures var l := length * Scale;
      var w := (if shape == RoundShape then length else width) * Scale;
      line == "length" ==>
        HorizontalMeasure(Picture(TopLine(line, shape, width, length)),
                          CenterX - l / 2.0, CenterY + w / 2.0 + Padding, l)
    ensures line != "width" && line != "length" ==> Picture(TopLine(line, shape, width, length)) == []
  {
    if line == "width" {
      WidthLineGeometry(length, width);
    } else if line == "length" {
      LengthLineGeometry(shape, length, width);
    }
  }

  /** `"total"` measures the total thickness, `"band"` the band thickness,
      both right of the side outline; any other selector draws nothing. */
  lemma SideLineDispatch(line: string, totalThickness: real, bandThickness: real, length: real)
    ensures var x0 := CenterX + length * Scale / 2.0 + Padding;
      var t := totalThickness * Scale;
      line == "total" ==>
        VerticalMeasure(Picture(SideLine(line, totalThickness, bandThickness, length)), x0, CenterY - t / 2.0, t)
    ensures var x0 := CenterX + length * Scale / 2.0 + Padding;
      var b := bandThickness * Scale;
      line == "band" ==>
        VerticalMeasure(Picture(SideLine(line, totalThickness, bandThickness, length)), x0, CenterY - b / 2.0, b)
    ensures line != "total" && line != "band" ==> Picture(SideLine(line, totalThickness, bandThickness, length)) == []
  {
    if line == "total" {
      WidthLineGeometry(length, totalThickness);
    } else if line == "band" {
      WidthLineGeometry(length, bandThickness);
    }
  }

  // ----- the top-view outlines -----

  /** A round or oval outline starts on the right end of the horizontal
      axis, sweeps to the left end and back with two arcs whose horizontal
      radius is half the scaled length, and the closing edge has no length.
      A round outline's arcs are circular; an oval's vertical radius is half
      the scaled width. */
  lemma RoundOvalOutline(shape: string, width: real, length: real)
    requires shape == RoundShape || shape == OvalShape
    ensures var r1 := (length / 2.0) * Scale;
      var ry := if shape == RoundShape then r1 else (width / 2.0) * Scale;
      var right := Point(CenterX + r1, CenterY);
      var left := Point(CenterX - r1, CenterY);
      && Picture(TopTablet(shape, width, length).value)
         == [Arc(right, left, r1, ry, 0.0, false, false),
             Arc(left, right, r1, ry, 0.0, false, false),
             Line(right, right)]
      && EndPoint(TopTablet(shape, width, length).value) == right
  {
    var c := TopTablet(shape, width, length).value;
    var p1 := Step(Origin, c[0]);
    var p2 := Step(p1, c[1]);
    var p3 := Step(p2, c[2]);
    var p4 := Step(p3, c[3]);
    var p5 := Step(p4, c[4]);
    assert Drawn(p5, c[5..]) == [] && Run(p5, c[5..]) == p5;
    assert Drawn(p4, c[4..]) == Piece(p4, c[4]) + Drawn(p5, c[5..]) && Run(p4, c[4..]) == Run(p5, c[5..]);
    assert Drawn(p3, c[3..]) == Piece(p3, c[3]) + Drawn(p4, c[4..]) && Run(p3, c[3..]) == Run(p4, c[4..]);
    assert Drawn(p2, c[2..]) == Piece(p2, c[2]) + Drawn(p3, c[3..]) && Run(p2, c[2..]) == Run(p3, c[3..]);
    assert Drawn(p1, c[1..]) == Piece(p1, c[1]) + Drawn(p2, c[2..]) && Run(p1, c[1..]) == Run(p2, c[2..]);
  }

  /** The end points of a round or oval outline lie on the horizontal axis and
      span exactly the scaled length. */
  lemma RoundOvalExtent(shape: string, width: real, length: real)
    requires shape == RoundShape || shape == OvalShape
    ensures var vs := Vertices(Picture(TopTablet(shape, width, length).value));
      && vs != []
      && MinX(vs) == CenterX - Abs(length * Scale) / 2.0
      && MaxX(vs) == CenterX + Abs(length * Scale) / 2.0
      && MaxX(vs) - MinX(vs) == Abs(length * Scale)
      && MinY(vs) == CenterY && MaxY(vs) == CenterY
  {
    var r1 := (length / 2.0) * Scale;
    assert Abs(length * Scale) / 2.0 == Abs(r1) by {
      assert Scale == 750.0;
    }
    RoundOvalVertices(shape, width, length);
    AxisExtent(Vertices(Picture(TopTablet(shape, width, length).value)), r1);
  }

  /** The extremes of the end points of a round or oval outline. */
  lemma AxisExtent(vs: seq<Point>, r1: real)
    requires var right := Point(CenterX + r1, CenterY);
      var left := Point(CenterX - r1, CenterY);
      vs == [right, left, left, right, right, right]
    ensures MinX(vs) == CenterX - Abs(r1) && MaxX(vs) == CenterX + Abs(r1)
    ensures MinY(vs) == CenterY && MaxY(vs) == CenterY
  {
    if r1 >= 0.0 {
      XExtentAttained(vs, CenterX - r1, CenterX + r1, 1, 0);
    } else {
      XExtentAttained(vs, CenterX + r1, CenterX - r1, 0, 1);
    }
    YExtentAttained(vs, CenterY, CenterY, 0, 0);
  }

  /** The end points of a round or oval outline's segments, in order. */
  lemma RoundOvalVertices(shape: string, width: real, length: real)
    requires shape == RoundShape || shape == OvalShape
    ensures var r1 := (length / 2.0) * Scale;
      var right := Point(CenterX + r1, CenterY);
      var left := Point(CenterX - r1, CenterY);
      Vertices(Picture(TopTablet(shape, width, length).value)) == [right, left, left, right, right, right]
  {
    RoundOvalOutline(shape, width, length);
    var segs := Picture(TopTablet(shape, width, length).value);
    var vs := Vertices(segs);
    assert vs[0] == segs[0].from && vs[1] == segs[0].to;
    assert vs[2] == segs[1].from && vs[3] == segs[1].to;
    assert vs[4] == segs[2].from && vs[5] == segs[2].to;
  }

  /** A round outline depends on the length alone. */
  lemma RoundIgnoresWidth(width1: real, width2: real, length: real)
    ensures TopTablet(RoundShape, width1, length) == TopTablet(RoundShape, width2, length)
  {
  }

  /** A caplet outline starts at the lower right corner of its straight
      body, runs left along the bottom edge, turns up the left cap, runs right
      along the top edge and turns down the right cap back to its start. */
  lemma CapletOutline(width: real, length: real)
    ensures var w := width * Scale;
      var body := (length - width) * Scale;
      var lowerRight := Point(CenterX + body / 2.0, CenterY + w / 2.0);
      var lowerLeft := Point(CenterX - body / 2.0, CenterY + w / 2.0);
      var upperLeft := Point(CenterX - body / 2.0, CenterY - w / 2.0);
      var upperRight := Point(CenterX + body / 2.0, CenterY - w / 2.0);
      && Picture(TopTablet(CapletShape, width, length).value)
         == [Line(lowerRight, lowerLeft),
             Arc(lowerLeft, upperLeft, w / 2.0, w / 2.0, 0.0, false, true),
             Line(upperLeft, upperRight),
             Arc(upperRight, lowerRight, w / 2.0, w / 2.0, 0.0, false, true),
             Line(lowerRight, lowerRight)]
      && EndPoint(TopTablet(CapletShape, width, length).value) == lowerRight
  {
    var c := TopTablet(CapletShape, width, length).value;
    var p1 := Step(Origin, c[0]);
    var p2 := Step(p1, c[1]);
    var p3 := Step(p2, c[2]);
    var p4 := Step(p3, c[3]);
    var p5 := Step(p4, c[4]);
    var p6 := Step(p5, c[5]);
    var p7 := Step(p6, c[6]);
    assert Drawn(p7, c[7..]) == [] && Run(p7, c[7..]) == p7;
    assert Drawn(p6, c[6..]) == Piece(p6, c[6]) + Drawn(p7, c[7..]) && Run(p6, c[6..]) == Run(p7, c[7..]);
    assert Drawn(p5, c[5..]) == Piece(p5, c[5]) + Drawn(p6, c[6..]) && Run(p5, c[5..]) == Run(p6, c[6..]);
    assert Drawn(p4, c[4..]) == Piece(p4, c[4]) + Drawn(p5, c[5..]) && Run(p4, c[4..]) == Run(p5, c[5..]);
    assert Drawn(p3, c[3..]) == Piece(p3, c[3]) + Drawn(p4, c[4..]) && Run(p3, c[3..]) == Run(p4, c[4..]);
    assert Drawn(p2, c[2..]) == Piece(p2, c[2]) + Drawn(p3, c[3..]) && Run(p2, c[2..]) == Run(p3, c[3..]);
    assert Drawn(p1, c[1..]) == Piece(p1, c[1]) + Drawn(p2, c[2..]) && Run(p1, c[1..]) == Run(p2, c[2..]);
  }

  /** A caplet's straight edges are horizontal and as long as the scaled
      body; each cap is a semicircle (its radius is half its vertical chord)
      and reaches out to half the scaled length from the centre. */
  lemma CapletProportions(width: real, length: real)
    ensures var segs := Picture(TopTablet(CapletShape, width, length).value);
      && |segs| == 5
      && segs[0].Line? && segs[2].Line?
      && segs[0].from.y == segs[0].to.y && segs[2].from.y == segs[2].to.y
      && segs[0].from.x - segs[0].to.x == (length - width) * Scale
      && segs[2].to.x - segs[2].from.x == (length - width) * Scale
      && segs[1].Arc? && segs[3].Arc?
      && segs[1].from.x == segs[1].to.x && segs[3].from.x == segs[3].to.x
      && segs[1].rx == segs[1].ry == (segs[1].from.y - segs[1].to.y) / 2.0
      && segs[3].rx == segs[3].ry == (segs[3].to.y - segs[3].from.y) / 2.0
      && segs[1].from.x - segs[1].rx == CenterX - length * Scale / 2.0
      && segs[3].from.x + segs[3].rx == CenterX + length * Scale / 2.0
  {
    CapletOutline(width, length);
  }

  /** Every top-view outline draws its contour with relative steps that sum
      to zero, so the pen is back where the contour began before the
      closepath. */
  lemma TopOutlineCloses(shape: string, width: real, length: real)
    requires KnownShape(shape)
    ensures var c := TopTablet(shape, width, length).value;
      var contour := c[2..|c| - 1];
      && |c| >= 3
      && (forall i | 0 <= i < |contour| :: Relative(contour[i]))
      && DispX(contour) == 0.0 && DispY(contour) == 0.0
      && Run(Run(Origin, c[..2]), contour).at == Run(Origin, c[..2]).at
  {
    var c := TopTablet(shape, width, length).value;
    var contour := c[2..|c| - 1];
    if shape == CapletShape {
      assert |contour| == 4;
      assert DispX(contour[4..]) == 0.0 && DispY(contour[4..]) == 0.0;
      assert DispX(contour[3..]) == contour[3].dx + DispX(contour[4..]);
      assert DispX(contour[2..]) == contour[2].dx + DispX(contour[3..]);
      assert DispX(contour[1..]) == contour[1].dx + DispX(contour[2..]);
      assert DispY(contour[3..]) == contour[3].dy + DispY(contour[4..]);
      assert DispY(contour[2..]) == contour[2].dy + DispY(contour[3..]);
      assert DispY(contour[1..]) == contour[1].dy + DispY(contour[2..]);
    } else {
      assert |contour| == 2;
      assert DispX(contour[2..]) == 0.0 && DispY(contour[2..]) == 0.0;
      assert DispX(contour[1..]) == contour[1].dx + DispX(contour[2..]);
      assert DispY(contour[1..]) == contour[1].dy + DispY(contour[2..]);
    }
    ZeroSumCloses(Run(Origin, c[..2]), contour);
  }

  // ----- the side-view outline -----

  /** The side outline starts at the upper left corner of the band, arcs over
      to the upper right corner, drops down the band, arcs back to the lower
      left corner and climbs back to its start; then it strokes the top and
      the bottom of the band as straight edges of the scaled length. Both arcs
      have the scaled cup radius, no rotation, the small-arc flag and a
      positive sweep. */
  lemma SideTabletGeometry(shape: string, length: real, cupRadius: real, bandThickness: real)
    ensures var l := length * Scale;
      var b := bandThickness * Scale;
      var r := cupRadius * Scale;
      var upperLeft := Point(CenterX - l / 2.0, CenterY - b / 2.0);
      var upperRight := Point(CenterX + l / 2.0, CenterY - b / 2.0);
      var lowerRight := Point(CenterX + l / 2.0, CenterY + b / 2.0);
      var lowerLeft := Point(CenterX - l / 2.0, CenterY + b / 2.0);
      && Picture(SideTablet(shape, length, cupRadius, bandThickness))
         == [Arc(upperLeft, upperRight, r, r, 0.0, false, true),
             Line(upperRight, lowerRight),
             Arc(lowerRight, lowerLeft, r, r, 0.0, false, true),
             Line(lowerLeft, upperLeft),
             Line(upperLeft, upperRight),
             Line(lowerRight, lowerLeft)]
      && EndPoint(SideTablet(shape, length, cupRadius, bandThickness)) == lowerLeft
  {
    var c := SideTablet(shape, length, cupRadius, bandThickness);
    var p1 := Step(Origin, c[0]);
    var p2 := Step(p1, c[1]);
    SideTabletContour(c[2..], p2.at, length * Scale, bandThickness * Scale, cupRadius * Scale);
    assert Drawn(p1, c[1..]) == Piece(p1, c[1]) + Drawn(p2, c[2..]) && Run(p1, c[1..]) == Run(p2, c[2..]);
  }

  /** The part of the side outline after its two opening moves, from any
      upper left corner. */
  lemma SideTabletContour(c: seq<Cmd>, upperLeft: Point, l: real, b: real, r: real)
    requires c == [ArcRel(r, r, 0.0, false, true, l, 0.0),
                   LineRel(0.0, b),
                   ArcRel(r, r, 0.0, false, true, -l, 0.0),
                   LineRel(0.0, -b), LineRel(l, 0.0),
                   MoveRel(0.0, b), LineRel(-l, 0.0)]
    ensures var upperRight := Offset(upperLeft, l, 0.0);
      var lowerRight := Offset(upperLeft, l, b);
      var lowerLeft := Offset(upperLeft, 0.0, b);
      && Drawn(Pen(upperLeft, upperLeft), c)
         == [Arc(upperLeft, upperRight, r, r, 0.0, false, true),
             Line(upperRight, lowerRight),
             Arc(lowerRight, lowerLeft, r, r, 0.0, false, true),
             Line(lowerLeft, upperLeft),
             Line(upperLeft, upperRight),
             Line(lowerRight, lowerLeft)]
      && Run(Pen(upperLeft, upperLeft), c).at == lowerLeft
  {
    var p0 := Pen(upperLeft, upperLeft);
    var p1 := Step(p0, c[0]);
    var p2 := Step(p1, c[1]);
    var p3 := Step(p2, c[2]);
    var p4 := Step(p3, c[3]);
    var p5 := Step(p4, c[4]);
    var p6 := Step(p5, c[5]);
    var p7 := Step(p6, c[6]);
    assert Drawn(p7, c[7..]) == [] && Run(p7, c[7..]) == p7;
    assert Drawn(p6, c[6..]) == Piece(p6, c[6]) + Drawn(p7, c[7..]) && Run(p6, c[6..]) == Run(p7, c[7..]);
    assert Drawn(p5, c[5..]) == Piece(p5, c[5]) + Drawn(p6, c[6..]) && Run(p5, c[5..]) == Run(p6, c[6..]);
    assert Drawn(p4, c[4..]) == Piece(p4, c[4]) + Drawn(p5, c[5..]) && Run(p4, c[4..]) == Run(p5, c[5..]);
    assert Drawn(p3, c[3..]) == Piece(p3, c[3]) + Drawn(p4, c[4..]) && Run(p3, c[3..]) == Run(p4, c[4..]);
    assert Drawn(p2, c[2..]) == Piece(p2, c[2]) + Drawn(p3, c[3..]) && Run(p2, c[2..]) == Run(p3, c[3..]);
    assert Drawn(p1, c[1..]) == Piece(p1, c[1]) + Drawn(p2, c[2..]) && Run(p1, c[1..]) == Run(p2, c[2..]);
  }

  /** The four steps of the lens (arc, band wall, arc, band wall) sum to zero,
      so they bring the pen back to the upper left corner. */
  lemma SideOutlineCloses(shape: string, length: real, cupRadius: real, bandThickness: real)
    ensures var c := SideTablet(shape, length, cupRadius, bandThickness);
      var lens := c[2..6];
      && (forall i | 0 <= i < |lens| :: Relative(lens[i]))
      && DispX(lens) == 0.0 && DispY(lens) == 0.0
      && Run(Run(Origin, c[..2]), lens).at == Run(Origin, c[..2]).at
  {
    var c := SideTablet(shape, length, cupRadius, bandThickness);
    var lens := c[2..6];
    assert DispX(lens[4..]) == 0.0 && DispY(lens[4..]) == 0.0;
    assert DispX(lens[3..]) == lens[3].dx + DispX(lens[4..]);
    assert DispX(lens[2..]) == lens[2].dx + DispX(lens[3..]);
    assert DispX(lens[1..]) == lens[1].dx + DispX(lens[2..]);
    assert DispY(lens[3..]) == lens[3].dy + DispY(lens[4..]);
    assert DispY(lens[2..]) == lens[2].dy + DispY(lens[3..]);
    assert DispY(lens[1..]) == lens[1].dy + DispY(lens[2..]);
    ZeroSumCloses(Run(Origin, c[..2]), lens);
  }

  /** The side outline does not depend on the shape. */
  lemma SideTabletIgnoresShape(shape1: string, shape2: string, length: real, cupRadius: real, bandThickness: real)
    ensures SideTablet(shape1, length, cupRadius, bandThickness) == SideTablet(shape2, length, cupRadius, bandThickness)
  {
  }

  // ----- worked examples -----

  /** A 10 mm round tablet has radius 3.75 about (12, 9); a 12 by 4 mm caplet
      has caps of radius 1.5 and a body 6 long; the width indicator of a
      10 by 4 mm tablet starts 5.25 right of the centre and spans 3. */
  lemma WorkedExamples()
    ensures Picture(TopTablet(RoundShape, 0.004, 0.01).value)
            == [Arc(Point(15.75, 9.0), Point(8.25, 9.0), 3.75, 3.75, 0.0, false, false),
                Arc(Point(8.25, 9.0), Point(15.75, 9.0), 3.75, 3.75, 0.0, false, false),
                Line(Point(15.75, 9.0), Point(15.75, 9.0))]
    ensures Picture(TopTablet(CapletShape, 0.004, 0.012).value)
            == [Line(Point(15.0, 10.5), Point(9.0, 10.5)),
                Arc(Point(9.0, 10.5), Point(9.0, 7.5), 1.5, 1.5, 0.0, false, true),
                Line(Point(9.0, 7.5), Point(15.0, 7.5)),
                Arc(Point(15.0, 7.5), Point(15.0, 10.5), 1.5, 1.5, 0.0, false, true),
                Line(Point(15.0, 10.5), Point(15.0, 10.5))]
    ensures VerticalMeasure(Picture(TopLine("width", OvalShape, 0.004, 0.01)), 17.25, 7.5, 3.0)
  {
    RoundOvalOutline(RoundShape, 0.004, 0.01);
    CapletOutline(0.004, 0.012);
    TopLineDispatch("width", OvalShape, 0.004, 0.01);
  }
}
