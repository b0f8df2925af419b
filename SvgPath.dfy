/**
  The fragment of SVG 1.1 path data (section 8.3 of SVG 1.1, Second Edition)
  that the tablet graphic emits, and what a renderer makes of it: every
  relative command is resolved against the current point, giving the pen
  positions and the absolute segments that are stroked.

  Only command parameters and end points are modelled; the curve an
  elliptical arc actually traces (and the radius correction of appendix F.6.6)
  is not.
*/
module SvgPath {

  datatype Point = Point(x: real, y: real)

  function Offset(p: Point, dx: real, dy: real): Point {
    Point(p.x + dx, p.y + dy)
  }

  /** One path-data command; the flags of an arc are `0` (false) or `1` (true). */
  datatype Cmd =
    | MoveAbs(x: real, y: real)                       // M x y
    | MoveRel(dx: real, dy: real)                     // m dx dy
    | LineRel(dx: real, dy: real)                     // l dx dy
    | ArcRel(rx: real, ry: real, rotation: real,
             largeArc: bool, sweep: bool,
             dx: real, dy: real)                      // a rx ry rot large sweep dx dy
    | Close                                           // z

  /** Commands whose end point is given relative to the current point. */
  predicate Relative(c: Cmd) {
    c.MoveRel? || c.LineRel? || c.ArcRel?
  }

  /** Commands that put ink on the canvas. */
  predicate Draws(c: Cmd) {
    c.LineRel? || c.ArcRel? || c.Close?
  }

  /** Path data must open with a moveto (section 8.3.2); the empty path draws nothing. */
  predicate OpensWithMoveto(cmds: seq<Cmd>) {
    cmds == [] || cmds[0].MoveAbs? || cmds[0].MoveRel?
  }

  /** The current point and the initial point of the current subpath. */
  datatype Pen = Pen(at: Point, subpathStart: Point)

  /**
    The state before the first command. Because the current point starts at
    the origin, a relative moveto that opens a path lands on its own
    coordinates: it is read as absolute, as section 8.3.2 requires.
  */
  const Origin: Pen := Pen(Point(0.0, 0.0), Point(0.0, 0.0))

  /** The pen after one command (sections 8.3.2 to 8.3.4 and 8.3.8). */
  function Step(p: Pen, c: Cmd): (q: Pen)
    ensures Relative(c) ==> q.at == Offset(p.at, c.dx, c.dy)
    ensures c.MoveRel? || c.MoveAbs? || c.Close? ==> q.subpathStart == q.at
    ensures Draws(c) && !c.Close? ==> q.subpathStart == p.subpathStart
    ensures c.Close? ==> q.at == p.subpathStart
  {
    match c
    case MoveAbs(x, y) => Pen(Point(x, y), Point(x, y))
    case MoveRel(dx, dy) => var t := Offset(p.at, dx, dy); Pen(t, t)
    case LineRel(dx, dy) => Pen(Offset(p.at, dx, dy), p.subpathStart)
    case ArcRel(_, _, _, _, _, dx, dy) => Pen(Offset(p.at, dx, dy), p.subpathStart)
    case Close => Pen(p.subpathStart, p.subpathStart)
  }

  /** The pen after a whole command sequence. */
  function Run(p: Pen, cmds: seq<Cmd>): Pen
    decreases |cmds|
  {
    if cmds == [] then p else Run(Step(p, cmds[0]), cmds[1..])
  }

  /** A stroked piece of the path, in absolute coordinates. */
  datatype Seg =
    | Line(from: Point, to: Point)
    | Arc(from: Point, to: Point, rx: real, ry: real, rotation: real,
          largeArc: bool, sweep: bool)

  /** What one command strokes: nothing for a moveto, a line back to the
      subpath's start for a closepath. */
  function Piece(p: Pen, c: Cmd): (s: seq<Seg>)
    ensures |s| == if Draws(c) then 1 else 0
    ensures |s| == 1 ==> s[0].from == p.at && s[0].to == Step(p, c).at
  {
    match c
    case MoveAbs(_, _) => []
    case MoveRel(_, _) => []
    case LineRel(dx, dy) => [Line(p.at, Offset(p.at, dx, dy))]
    case ArcRel(rx, ry, rot, large, sweep, dx, dy) =>
      [Arc(p.at, Offset(p.at, dx, dy), rx, ry, rot, large, sweep)]
    case Close => [Line(p.at, p.subpathStart)]
  }

  /** Every segment a command sequence strokes, in order. */
  function Drawn(p: Pen, cmds: seq<Cmd>): seq<Seg>
    decreases |cmds|
  {
    if cmds == [] then [] else Piece(p, cmds[0]) + Drawn(Step(p, cmds[0]), cmds[1..])
  }

  /** The picture of a complete path. */
  function Picture(cmds: seq<Cmd>): seq<Seg> {
    Drawn(Origin, cmds)
  }

  /** Where the pen rests once the whole path has been read. */
  function EndPoint(cmds: seq<Cmd>): Point {
    Run(Origin, cmds).at
  }

  /** The total displacement of a run of relative commands. */
  function DispX(cmds: seq<Cmd>): real
    requires forall i | 0 <= i < |cmds| :: Relative(cmds[i])
    decreases |cmds|
  {
    if cmds == [] then 0.0
    else assert Relative(cmds[0]); cmds[0].dx + DispX(cmds[1..])
  }

  function DispY(cmds: seq<Cmd>): real
    requires forall i | 0 <= i < |cmds| :: Relative(cmds[i])
    decreases |cmds|
  {
    if cmds == [] then 0.0
    else assert Relative(cmds[0]); cmds[0].dy + DispY(cmds[1..])
  }

  /** Relative commands move the pen by the sum of their displacements. */
  lemma {:induction false} RunRelative(p: Pen, cmds: seq<Cmd>)
    requires forall i | 0 <= i < |cmds| :: Relative(cmds[i])
    ensures Run(p, cmds).at == Offset(p.at, DispX(cmds), DispY(cmds))
    decreases |cmds|
  {
    if cmds != [] {
      RunRelative(Step(p, cmds[0]), cmds[1..]);
    }
  }

  /** Relative steps that sum to zero bring the pen back to where they began. */
  lemma ZeroSumCloses(p: Pen, cmds: seq<Cmd>)
    requires forall i | 0 <= i < |cmds| :: Relative(cmds[i])
    requires DispX(cmds) == 0.0 && DispY(cmds) == 0.0
    ensures Run(p, cmds).at == p.at
  {
    RunRelative(p, cmds);
  }

  /** The end points of a list of segments. */
  function Vertices(segs: seq<Seg>): (ps: seq<Point>)
    ensures |ps| == 2 * |segs|
    ensures forall i | 0 <= i < |segs| :: ps[2 * i] == segs[i].from && ps[2 * i + 1] == segs[i].to
    decreases |segs|
  {
    if segs == [] then [] else [segs[0].from, segs[0].to] + Vertices(segs[1..])
  }

  /** The leftmost and rightmost x over a non-empty list of points. */
  function MinX(ps: seq<Point>): (m: real)
    requires ps != []
    ensures forall i | 0 <= i < |ps| :: m <= ps[i].x
    ensures exists i | 0 <= i < |ps| :: ps[i].x == m
    decreases |ps|
  {
    if |ps| == 1 then ps[0].x
    else
      var rest := MinX(ps[1..]);
      if ps[0].x <= rest then ps[0].x else rest
  }

  function MaxX(ps: seq<Point>): (m: real)
    requires ps != []
    ensures forall i | 0 <= i < |ps| :: ps[i].x <= m
    ensures exists i | 0 <= i < |ps| :: ps[i].x == m
    decreases |ps|
  {
    if |ps| == 1 then ps[0].x
    else
      var rest := MaxX(ps[1..]);
      if rest <= ps[0].x then ps[0].x else rest
  }

  function MinY(ps: seq<Point>): (m: real)
    requires ps != []
    ensures forall i | 0 <= i < |ps| :: m <= ps[i].y
    ensures exists i | 0 <= i < |ps| :: ps[i].y == m
    decreases |ps|
  {
    if |ps| == 1 then ps[0].y
    else
      var rest := MinY(ps[1..]);
      if ps[0].y <= rest then ps[0].y else rest
  }

  function MaxY(ps: seq<Point>): (m: real)
    requires ps != []
    ensures forall i | 0 <= i < |ps| :: ps[i].y <= m
    ensures exists i | 0 <= i < |ps| :: ps[i].y == m
    decreases |ps|
  {
    if |ps| == 1 then ps[0].y
    else
      var rest := MaxY(ps[1..]);
      if rest <= ps[0].y then ps[0].y else rest
  }

  /** Bounds that every point respects and some point attains are the extremes. */
  lemma XExtentAttained(ps: seq<Point>, lo: real, hi: real, i: int, j: int)
    requires 0 <= i < |ps| && 0 <= j < |ps|
    requires ps[i].x == lo && ps[j].x == hi
    requires forall k | 0 <= k < |ps| :: lo <= ps[k].x <= hi
    ensures MinX(ps) == lo && MaxX(ps) == hi
  {
  }

  lemma YExtentAttained(ps: seq<Point>, lo: real, hi: real, i: int, j: int)
    requires 0 <= i < |ps| && 0 <= j < |ps|
    requires ps[i].y == lo && ps[j].y == hi
    requires forall k | 0 <= k < |ps| :: lo <= ps[k].y <= hi
    ensures MinY(ps) == lo && MaxY(ps) == hi
  {
  }
}
