# Tablet dimensions graphic: a Dafny model of its path builders

The tablet-dimensions graphic draws a pharmaceutical tablet in two views on
24 by 18 unit canvases. The top view shows a round, oval or caplet outline.
The side view shows a lens-shaped profile. Each view can carry one dimension
indicator: two end ticks joined by a leader line. Every drawing is one SVG
path-data string. It is built by a pure function of the tablet's shape and
dimensions, given in metres and scaled by a fixed 750 units per metre.

This project models those builders and proves what they draw.

- `SvgPath` models the part of SVG 1.1 path data (section 8.3 of SVG 1.1,
  Second Edition) that the builders emit: `M`, `m`, `l`, `a` and `z`. It
  also models how a renderer resolves relative commands. The pen starts at
  the origin, so a leading relative `m` lands on its own coordinates, as
  section 8.3.2 requires. `Picture` gives the stroked segments in absolute
  coordinates and `EndPoint` gives where the pen rests.
- `TabletGraphic` models the `svg` constants object and the builder
  functions, one Dafny function per JavaScript function. Shape and selector
  arguments stay strings, so the "unrecognised" cases are modelled as
  written: `undefined` becomes `None` and `''` becomes the empty command list.
- `TabletGeometry` states and proves what each path draws: where it starts,
  that outlines close, how far they reach, and what each indicator measures.

Two behaviours of the code are easy to miss, and the model keeps both:

- An unrecognised shape gives `undefined` in the code (no `default` case), not
  an empty path.
- The side outline also strokes straight edges across the top and bottom of
  the band, after the lens.

## Model

| member | source | states |
|---|---|---|
| TabletGeometry.ViewportConstants | tablet-dimensions-graphic.js:7-30 | scale = (height − 2·padding)/maxHeight = 750 > 0; centre = (width/2, height/2) = (12, 9) |
| TabletGraphic.TopTablet | tablet-dimensions-graphic.js:32-79 | a result exists exactly for "round", "oval" and "caplet"; any other shape gives `undefined`; an outline opens with a moveto and ends with a closepath |
| TabletGeometry.RoundOvalOutline | tablet-dimensions-graphic.js:36-59 | round/oval: the pen starts at (cx + r1, cy), r1 = length/2·scale; arcs go to (cx − r1, cy) and back; radii (r1, r1) for round and (r1, width/2·scale) for oval; flags 0 0 0; zero-length closing edge; the pen ends at its start |
| TabletGeometry.RoundOvalExtent | tablet-dimensions-graphic.js:36-59 | round/oval end points: x from cx − abs(length·scale)/2 to cx + abs(length·scale)/2, so the span is abs(length·scale); y is cy |
| TabletGeometry.RoundIgnoresWidth | tablet-dimensions-graphic.js:36-46 | the round outline does not depend on width |
| TabletGeometry.CapletOutline | tablet-dimensions-graphic.js:61-75 | caplet: the pen starts at (cx + body/2, cy + w/2); it strokes bottom edge, left arc, top edge, right arc, zero-length close; radii w/2, flags 0 0 1; the pen ends at its start |
| TabletGeometry.CapletProportions | tablet-dimensions-graphic.js:61-75 | straight edges are horizontal with length body = (length − width)·scale; each arc's radius is half its vertical chord (a semicircle); the caps reach cx ± length·scale/2 |
| TabletGeometry.TopOutlineCloses | tablet-dimensions-graphic.js:42-75 | for every known shape, the contour steps between the opening moves and `z` are relative and sum to (0, 0), so the pen returns to where the contour began |
| TabletGraphic.TopLine | tablet-dimensions-graphic.js:80-89 | the result is empty exactly when line is neither "width" nor "length"; it opens with a moveto |
| TabletGeometry.TopLineDispatch | tablet-dimensions-graphic.js:80-117 | "width" draws the width indicator right of the outline; "length" draws the length indicator below it, using width := length for round; any other selector draws nothing |
| TabletGraphic.LengthLine | tablet-dimensions-graphic.js:90-104 | a non-empty path that opens with a moveto; its geometry is in LengthLineGeometry |
| TabletGeometry.LengthLineGeometry | tablet-dimensions-graphic.js:90-104 | starts at (cx − L/2, cy + W/2 + padding); vertical ticks of length cap at x = cx ∓ L/2; horizontal leader of length exactly L at cap/2 below the start, symmetric about cx; ends at (cx + L/2, y0 + cap) |
| TabletGeometry.RoundLengthLineIgnoresWidth | tablet-dimensions-graphic.js:91-93 | for shape "round", the length line and the top dispatcher's "length" case do not depend on width |
| TabletGraphic.WidthLine | tablet-dimensions-graphic.js:105-117 | a non-empty path that opens with a moveto; its geometry is in WidthLineGeometry |
| TabletGeometry.WidthLineGeometry | tablet-dimensions-graphic.js:105-117 | starts at (cx + L/2 + padding, cy − W/2); horizontal ticks of length cap; vertical leader at x0 + cap/2 of length W, spanning cy ± W/2; ends at (x0, y0 + W) |
| TabletGraphic.SideTablet | tablet-dimensions-graphic.js:118-132 | a non-empty path that opens with a moveto; its geometry is in SideTabletGeometry |
| TabletGeometry.SideTabletGeometry | tablet-dimensions-graphic.js:118-132 | starts at (cx − L/2, cy − B/2); arc to the upper right, band wall down, arc to the lower left, wall up; both arcs have radii cup·scale and flags 0 0 1; then straight edges of length L at y = cy − B/2 and y = cy + B/2; ends at the lower left corner |
| TabletGeometry.SideTabletContour | tablet-dimensions-graphic.js:125-130 | from any upper-left corner, the side outline's commands after the opening moves stroke the lens and the two band edges, and leave the pen at the lower left |
| TabletGeometry.SideOutlineCloses | tablet-dimensions-graphic.js:125-129 | the lens steps arc (+L, 0), line (0, +B), arc (−L, 0), line (0, −B) sum to zero and return the pen to its start |
| TabletGeometry.SideTabletIgnoresShape | tablet-dimensions-graphic.js:118-132 | the side outline does not depend on shape |
| TabletGraphic.SideLine | tablet-dimensions-graphic.js:133-142 | the result is empty exactly when line is neither "total" nor "band"; it opens with a moveto |
| TabletGeometry.SideLineDispatch | tablet-dimensions-graphic.js:133-159 | "total" measures totalThickness·scale and "band" measures bandThickness·scale, right of the side outline; any other selector draws nothing |
| TabletGraphic.ThicknessLine | tablet-dimensions-graphic.js:143-159 | a non-empty path that opens with a moveto |
| TabletGeometry.ThicknessLineIsWidthLine | tablet-dimensions-graphic.js:143-159 | ThicknessLine(t, l) equals WidthLine(l, t) |
| TabletGraphic.CupThicknessLine | tablet-dimensions-graphic.js:160-177 | a non-empty path that opens with a moveto |
| TabletGeometry.CupThicknessLineGeometry | tablet-dimensions-graphic.js:160-177 | the unused cup indicator starts at (cx + L/2 + padding, cy − total·scale/2) and has a vertical leader of length cup·scale |
| TabletGeometry.WorkedExamples | tablet-dimensions-graphic.js:36-117 | a 10 mm round tablet has radius 3.75 about (12, 9); a 12 × 4 mm caplet has caps of radius 1.5 and a body 6 long; the width indicator of a 10 × 4 mm tablet starts 5.25 right of centre and spans 3 |

## Left out

- The `TabletDimensionsGraphic` element (tablet-dimensions-graphic.js:179-271) is not modelled: LitElement rendering, styles, the store subscription and `stateChanged`. The same goes for `customElements.define` (:273). They are UI plumbing.
- `tabletLengthCupRadius` lives in a file that is not part of this model. The cup radius is an input of `SideTablet`.
- Number-to-string conversion inside the template literals is not modelled. Neither is IEEE-754 rounding of the scale and half-values. Coordinates are `real`, and a path is a list of commands, not the printed digits.
- Shape and selector values that are not strings, such as `undefined`, are not modelled. In the code they match no case, like an unrecognised string.
- What the rendering layer does with an `undefined` path attribute is not modelled.
- The curve an elliptical arc traces is not modelled, and neither is the radius correction of SVG 1.1 appendix F.6.6. That correction applies when cup·scale < L/2. Only arc parameters and end points are modelled.
- RoundOvalExtent: bounds the path's end points only. The vertical reach of the arcs, which is ±width/2·scale for an oval, depends on drawn-curve semantics that are not modelled.
- CapletProportions: gives the caps' reach as end point ± radius of a semicircle, not as the extent of a traced curve, for the same reason.
