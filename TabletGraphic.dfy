/**
  The path-data builders of the tablet-dimensions graphic: a top view and a
  side view of a pharmaceutical tablet, each with an optional dimension
  indicator (two end ticks joined by a leader line). Every builder is a pure
  function of a few numbers and returns the commands of one SVG `d` attribute.
  Tablet dimensions are in metres; `Scale` turns them into viewport units.
*/
module TabletGraphic {
  import opened Wrappers
  import opened SvgPath

  // ----- the `svg` constants object -----

  /** Gap between the tablet and the edge of the viewport, and between the
      tablet and a dimension indicator. */
  const Padding: real := 1.5
  /** Length of an end tick of a dimension indicator. */
  const Cap: real := 2.0
  /** The viewport is 24 by 18 units. */
  const ViewWidth: real := 24.0
  const ViewHeight: real := 18.0
  /** The longest tablet drawn at full height: 0.02 m = 20 mm. */
  const MaxHeight: real := 0.02
  /** Viewport units per metre. */
  const Scale: real := (ViewHeight - 2.0 * Padding) / MaxHeight
  /** Every outline is centred on the viewport. */
  const CenterX: real := ViewWidth / 2.0
  const CenterY: real := ViewHeight / 2.0

  const RoundShape: string := "round"
  const OvalShape: string := "oval"
  const CapletShape: string := "caplet"

  predicate KnownShape(shape: string) {
    shape == RoundShape || shape == OvalShape || shape == CapletShape
  }

  // ----- top view -----

  /** The top-view outline; an unrecognised shape matches no case and gives
      `undefined`. */
  function TopTablet(shape: string, width: real, length: real): (r: Option<seq<Cmd>>)
    ensures r.Some? <==> KnownShape(shape)
    ensures r.Some? ==> OpensWithMoveto(r.value) && r.value != [] && r.value[|r.value| - 1] == Close
  {
    if shape == RoundShape then
      var scaledRadius := (length / 2.0) * Scale;
      Some([MoveRel(CenterX, CenterY), MoveRel(scaledRadius, 0.0),
            ArcRel(scaledRadius, scaledRadius, 0.0, false, false, -scaledRadius * 2.0, 0.0),
            ArcRel(scaledRadius, scaledRadius, 0.0, false, false, scaledRadius * 2.0, 0.0),
            Close])
    else if shape == OvalShape then
      var r1 := (length / 2.0) * Scale;
      var r2 := (width / 2.0) * Scale;
      Some([MoveRel(CenterX, CenterY), MoveRel(r1, 0.0),
            ArcRel(r1, r2, 0.0, false, false, -r1 * 2.0, 0.0),
            ArcRel(r1, r2, 0.0, false, false, r1 * 2.0, 0.0),
            Close])
    else if shape == CapletShape then
      var scaledWidth := width * Scale;
      var scaledBody := (length - width) * Scale;
      Some([MoveRel(CenterX, CenterY), MoveRel(scaledBody / 2.0, scaledWidth / 2.0),
            LineRel(-scaledBody, 0.0),
            ArcRel(scaledWidth / 2.0, scaledWidth / 2.0, 0.0, false, true, 0.0, -scaledWidth),
            LineRel(scaledBody, 0.0),
            ArcRel(scaledWidth / 2.0, scaledWidth / 2.0, 0.0, false, true, 0.0, scaledWidth),
            Close])
    else
      None
  }

  /** The top-view dimension indicator selected by `line`; any other
      selector gives the empty path. */
  function TopLine(line: string, shape: string, width: real, length: real): (r: seq<Cmd>)
    ensures OpensWithMoveto(r)
    ensures r == [] <==> line != "width" && line != "length"
  {
    if line == "width" then WidthLine(length, width)
    else if line == "length" then LengthLine(shape, length, width)
    else []
  }

  /** The length indicator, drawn below the outline: a vertical tick, a
      horizontal leader, a vertical tick. A round tablet is as wide as it is
      long, so its nominal width is replaced by its length. */
  function LengthLine(shape: string, length: real, width: real): (r: seq<Cmd>)
    ensures OpensWithMoveto(r) && r != []
  {
    var w := if shape == RoundShape then length else width;
    var scaledLength := length * Scale;
    var scaledWidth := w * Scale;
    [MoveAbs(CenterX - scaledLength / 2.0, CenterY + scaledWidth / 2.0 + Padding),
     LineRel(0.0, Cap), MoveRel(0.0, -Cap / 2.0), LineRel(scaledLength, 0.0),
     MoveRel(0.0, -Cap / 2.0), LineRel(0.0, Cap)]
  }

  /** The width indicator, drawn right of the outline: a horizontal tick, a
      vertical leader, a horizontal tick. */
  function WidthLine(length: real, width: real): (r: seq<Cmd>)
    ensures OpensWithMoveto(r) && r != []
  {
    var scaledLength := length * Scale;
    var scaledWidth := width * Scale;
    [MoveAbs(CenterX + scaledLength / 2.0 + Padding, CenterY - scaledWidth / 2.0),
     LineRel(Cap, 0.0), MoveRel(-Cap / 2.0, 0.0),
     LineRel(0.0, scaledWidth), MoveRel(Cap / 2.0, 0.0), LineRel(-Cap, 0.0)]
  }

  // ----- side view -----

  /** The side-view outline: a lens whose top and bottom are arcs of the
      cup radius, joined by the straight band wall, with two more straight
      edges across the top and the bottom of the band. The shape is not used. */
  function SideTablet(shape: string, length: real, cupRadius: real, bandThickness: real): (r: seq<Cmd>)
    ensures OpensWithMoveto(r) && r != []
  {
    var scaledLength := length * Scale;
    var scaledBand := bandThickness * Scale;
    var scaledCup := cupRadius * Scale;
    [MoveRel(CenterX, CenterY), MoveRel(-scaledLength / 2.0, -scaledBand / 2.0),
     ArcRel(scaledCup, scaledCup, 0.0, false, true, scaledLength, 0.0),
     LineRel(0.0, scaledBand),
     ArcRel(scaledCup, scaledCup, 0.0, false, true, -scaledLength, 0.0),
     LineRel(0.0, -scaledBand), LineRel(scaledLength, 0.0),
     MoveRel(0.0, scaledBand), LineRel(-scaledLength, 0.0)]
  }

  /** The side-view dimension indicator selected by `line`; any other
      selector gives the empty path. */
  function SideLine(line: string, totalThickness: real, bandThickness: real, length: real): (r: seq<Cmd>)
    ensures OpensWithMoveto(r)
    ensures r == [] <==> line != "total" && line != "band"
  {
    if line == "total" then ThicknessLine(totalThickness, length)
    else if line == "band" then ThicknessLine(bandThickness, length)
    else []
  }

  /** The thickness indicator, drawn right of the side outline. */
  function ThicknessLine(thickness: real, length: real): (r: seq<Cmd>)
    ensures OpensWithMoveto(r) && r != []
  {
    var scaledLength := length * Scale;
    var scaledThickness := thickness * Scale;
    [MoveAbs(CenterX + scaledLength / 2.0 + Padding, CenterY - scaledThickness / 2.0),
     LineRel(Cap, 0.0), MoveRel(-Cap / 2.0, 0.0),
     LineRel(0.0, scaledThickness), MoveRel(Cap / 2.0, 0.0), LineRel(-Cap, 0.0)]
  }

  /** An indicator of the cup depth, starting level with the top of the
      tablet; no view draws it. */
  function CupThicknessLine(cup: real, total: real, length: real): (r: seq<Cmd>)
    ensures OpensWithMoveto(r) && r != []
  {
    var scaledLength := length * Scale;
    var scaledTotal := total * Scale;
    var scaledCup := cup * Scale;
    [MoveAbs(CenterX + scaledLength / 2.0 + Padding, CenterY - scaledTotal / 2.0),
     LineRel(Cap, 0.0), MoveRel(-Cap / 2.0, 0.0),
     LineRel(0.0, scaledCup), MoveRel(Cap / 2.0, 0.0), LineRel(-Cap, 0.0)]
  }
}
