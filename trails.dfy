/** The overlay group of one region: `<g class="trail XX">` holding its positivity and
    hospitalisation trails (chart.js:119-121). */
module Trails {
  import opened Markup
  import opened Dataset

  datatype Group = Group(region: string, children: seq<Elem>)

  /** The markup of one region of the reduced map. */
  function TrailGroup(region: string, s: Series): Group {
    Group(region, Markers(s.pos, "pos-rate", region) + Markers(s.hsp, "hsp-rate", region))
  }

  /** For a region of the reduced map, the group is empty exactly when no record of the
      region plotted, and otherwise holds the positivity trail first, then the
      hospitalisation trail (if any), each with its two closing elements. */
  lemma TrailGroupShape(env: Env, records: seq<Record>, region: string)
    requires region in Fold(env, map[], records)
    ensures var s := Fold(env, map[], records)[region];
      var g := TrailGroup(region, s);
      (g.children == [] <==> s.pos == []) &&
      |g.children| == (if s.pos == [] then 0 else |s.pos| + 2) + (if s.hsp == [] then 0 else |s.hsp| + 2) &&
      (s.pos != [] ==> g.children[|s.pos| + 1] == Text(s.pos[|s.pos| - 1], region))
    ensures var s := Fold(env, map[], records)[region];
      var g := TrailGroup(region, s);
      s.pos != [] ==>
        (forall i :: 0 <= i < |s.pos| ==> g.children[i] == Use("pos-rate", s.pos[i])) &&
        g.children[|s.pos|] == Polyline(s.pos)
    ensures var s := Fold(env, map[], records)[region];
      var g := TrailGroup(region, s);
      var k := |s.pos| + 2;
      s.pos != [] && s.hsp != [] ==>
        (forall i :: 0 <= i < |s.hsp| ==> g.children[k + i] == Use("hsp-rate", s.hsp[i])) &&
        g.children[k + |s.hsp|] == Polyline(s.hsp) &&
        g.children[k + |s.hsp| + 1] == Text(s.hsp[|s.hsp| - 1], region)
  {
    SeriesLengths(env, records, region);
  }
}
