/** The markup a trail is rendered to, as structured elements rather than text:
    `<use>` markers, a `<polyline>` through the points and a `<text>` label
    (chart.js, functions `markers` and `text`). */
module Markup {

  /** A plotted point `[x, y]`: a scaled testing rate and a scaled ratio. */
  datatype Point = Point(x: int, y: int)

  datatype Elem =
    | Use(marker: string, at: Point)          // <use href="#marker" x=.. y=.. />
    | Polyline(points: seq<Point>)            // <polyline fill="none" points=".." />
    | Text(at: Point, caption: string)          // <text x=.. y=..>label</text>

  /** One `<use>` marker per point, in the order of the points. */
  function Uses(pts: seq<Point>, marker: string): (r: seq<Elem>)
    ensures |r| == |pts|
    ensures forall i :: 0 <= i < |pts| ==> r[i] == Use(marker, pts[i])
  {
    if pts == [] then [] else [Use(marker, pts[0])] + Uses(pts[1..], marker)
  }

  /** `text([x, y], str)`: a label placed at a point. */
  function TextAt(p: Point, caption: string): Elem
  {
    Text(p, caption)
  }

  /** `markers(pts, mk, state)`: nothing for an empty trail; otherwise a marker per
      point, one polyline through all points, and the region's label at the last point. */
  function Markers(pts: seq<Point>, marker: string, region: string): (r: seq<Elem>)
    ensures pts == [] <==> r == []
    ensures pts != [] ==> |r| == |pts| + 2
    ensures forall i :: 0 <= i < |pts| ==> r[i] == Use(marker, pts[i])
    ensures pts != [] ==> r[|pts|] == Polyline(pts)
    ensures pts != [] ==> r[|pts| + 1] == Text(pts[|pts| - 1], region)
  {
    if |pts| > 0 then
      Uses(pts, marker) + [Polyline(pts)] + [TextAt(pts[|pts| - 1], region)]
    else
      []
  }
}
