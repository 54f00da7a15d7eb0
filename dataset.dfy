/** The dataset reducer: `ds.reduce(callback, {})` folds the daily records, in feed
    order, into a map from region code to that region's series (chart.js:90-117). */
module Dataset {
  import opened Wrappers
  import opened Markup

  /** One day of one region as the daily feed delivers it. Cumulative counts are
      optional naturals (an absent or null count reads as 0 through `x || 0`); the daily
      increases are copied as delivered, absent ones included. */
  datatype Record = Record(
    state: string,
    positive: Option<nat>,
    negative: Option<nat>,
    pending: Option<nat>,
    hospitalized: Option<nat>,
    deathIncrease: Option<int>,
    hospitalizedIncrease: Option<int>,
    positiveIncrease: Option<int>,
    totalTestResultsIncrease: Option<int>)

  /** The raw daily deltas kept for the popup's bar charts. */
  datatype RawDelta = RawDelta(tested: Option<int>, dead: Option<int>, positive: Option<int>, hospitalized: Option<int>)

  /** A region's accumulated series `{pos, hsp, raw}`: `pos` and `hsp` last reduced point
      first, in reverse feed order (they grow by `unshift`), `raw` in feed order (it grows by `push`). */
  datatype Series = Series(pos: seq<Point>, hsp: seq<Point>, raw: seq<RawDelta>)

  const Empty := Series([], [], [])

  /** What the reducer reads besides the records: the static population table
      (chart.js:3-9) and the two log scales `hScale` and `vScale` (chart.js:11-17),
      whose floating-point internals are not modelled. */
  datatype Env = Env(population: map<string, nat>, hScale: real -> int, vScale: real -> int)

  function OrZero(v: Option<nat>): nat {
    v.GetOr(0)
  }

  /** `tested = (positive||0) + (negative||0) + (pending||0)` */
  function Tested(rec: Record): nat {
    OrZero(rec.positive) + OrZero(rec.negative) + OrZero(rec.pending)
  }

  /** `positive && population[state]`: both must be truthy (non-zero and present). */
  predicate Qualifies(env: Env, rec: Record) {
    OrZero(rec.positive) != 0 && rec.state in env.population && env.population[rec.state] != 0
  }

  /** `hScale(1000000 * tested / population[state])` */
  function Rate(env: Env, rec: Record): int
    requires Qualifies(env, rec)
  {
    env.hScale((1000000 * Tested(rec)) as real / env.population[rec.state] as real)
  }

  /** A qualifying record is plotted only when its scaled testing rate is `>= 0`. */
  predicate Plots(env: Env, rec: Record) {
    Qualifies(env, rec) && Rate(env, rec) >= 0
  }

  /** ... and on the hospitalisation trail only when `hospitalized` is truthy too. */
  predicate PlotsHsp(env: Env, rec: Record) {
    Plots(env, rec) && OrZero(rec.hospitalized) != 0
  }

  /** `[rate, vScale(positive/tested)]` */
  function PosPoint(env: Env, rec: Record): Point
    requires Qualifies(env, rec)
  {
    Point(Rate(env, rec), env.vScale(OrZero(rec.positive) as real / Tested(rec) as real))
  }

  /** `[rate, vScale(hospitalized/tested)]` */
  function HspPoint(env: Env, rec: Record): Point
    requires Qualifies(env, rec)
  {
    Point(Rate(env, rec), env.vScale(OrZero(rec.hospitalized) as real / Tested(rec) as real))
  }

  /** The tuple pushed onto `raw`. */
  function DeltaOf(rec: Record): RawDelta {
    RawDelta(rec.totalTestResultsIncrease, rec.deathIncrease, rec.positiveIncrease, rec.hospitalizedIncrease)
  }

  /** `all[state] || {}` with the `[]` defaults of the destructuring. */
  function Lookup(all: map<string, Series>, state: string): Series {
    if state in all then all[state] else Empty
  }

  /** A region's series after one more qualifying record: its raw tuple pushed at the
      end, its points (when it plots) put first. */
  function Grow(env: Env, s: Series, rec: Record): Series
    requires Qualifies(env, rec)
  {
    var pos := if Plots(env, rec) then [PosPoint(env, rec)] + s.pos else s.pos;
    var hsp := if PlotsHsp(env, rec) then [HspPoint(env, rec)] + s.hsp else s.hsp;
    Series(pos, hsp, s.raw + [DeltaOf(rec)])
  }

  /** The reducer callback on one record, as a function of the accumulated map. */
  function Step(env: Env, all: map<string, Series>, rec: Record): map<string, Series> {
    if Qualifies(env, rec) then all[rec.state := Grow(env, Lookup(all, rec.state), rec)] else all
  }

  /** `records.reduce(callback, all)`: the records applied left to right. */
  function Fold(env: Env, all: map<string, Series>, records: seq<Record>): map<string, Series>
    decreases |records|
  {
    if records == [] then all else Fold(env, Step(env, all, records[0]), records[1..])
  }

  /** The accumulator object that the callback updates in place: `all[state] = {pos, hsp, raw}`
      after `raw.push(..)` and the `unshift`s. */
  class Accumulator {
    const env: Env
    var all: map<string, Series>

    constructor (env: Env)
      ensures this.env == env && all == map[]
    {
      this.env := env;
      all := map[];
    }

    /** The reducer callback (chart.js:91-116). */
    method Add(rec: Record)
      modifies this
      ensures all == Step(env, old(all), rec)
    {
      var s := Lookup(all, rec.state);
      var pos, hsp, raw := s.pos, s.hsp, s.raw;
      var tested := OrZero(rec.positive) + OrZero(rec.negative) + OrZero(rec.pending);
      if OrZero(rec.positive) != 0 && rec.state in env.population && env.population[rec.state] != 0 {
        var rate := env.hScale((1000000 * tested) as real / env.population[rec.state] as real);
        raw := raw + [DeltaOf(rec)];
        if rate >= 0 {
          pos := [Point(rate, env.vScale(OrZero(rec.positive) as real / tested as real))] + pos;
          if OrZero(rec.hospitalized) != 0 {
            hsp := [Point(rate, env.vScale(OrZero(rec.hospitalized) as real / tested as real))] + hsp;
          }
        }
        all := all[rec.state := Series(pos, hsp, raw)];
      }
    }
  }

  /** `ds.reduce(callback, {})` over the whole feed. */
  method Reduce(env: Env, records: seq<Record>) returns (all: map<string, Series>)
    ensures all == Fold(env, map[], records)
  {
    var acc := new Accumulator(env);
    for i := 0 to |records|
      invariant acc.env == env
      invariant acc.all == Fold(env, map[], records[..i])
    {
      FoldSnoc(env, map[], records[..i], records[i]);
      assert records[..i + 1] == records[..i] + [records[i]];
      acc.Add(records[i]);
    }
    assert records[..|records|] == records;
    all := acc.all;
  }

  // ---------------------------------------------------------------------------
  // Reference definitions: what a region's series should hold, read off the feed.

  /** The records of region `state` that qualify, in feed order. */
  function Owned(env: Env, records: seq<Record>, state: string): (o: seq<Record>)
    ensures |o| <= |records|
    ensures forall i :: 0 <= i < |o| ==> Qualifies(env, o[i]) && o[i].state == state
    ensures forall r :: r in o <==> r in records && Qualifies(env, r) && r.state == state
  {
    if records == [] then []
    else (if Qualifies(env, records[0]) && records[0].state == state then [records[0]] else [])
         + Owned(env, records[1..], state)
  }

  /** Their raw deltas, in feed order. */
  function Deltas(o: seq<Record>): (d: seq<RawDelta>)
    ensures |d| == |o|
  {
    if o == [] then [] else [DeltaOf(o[0])] + Deltas(o[1..])
  }

  /** The `i`-th raw tuple comes from the `i`-th record. */
  lemma {:induction false} DeltasAt(o: seq<Record>, i: nat)
    requires i < |o|
    ensures Deltas(o)[i] == DeltaOf(o[i])
  {
    if i > 0 {
      DeltasAt(o[1..], i - 1);
    }
  }

  /** Positivity points of the records that plot, in reverse feed order. */
  function PosTrail(env: Env, o: seq<Record>): seq<Point>
    requires forall i :: 0 <= i < |o| ==> Qualifies(env, o[i])
  {
    if o == [] then []
    else PosTrail(env, o[1..]) + (if Plots(env, o[0]) then [PosPoint(env, o[0])] else [])
  }

  /** Hospitalisation points of the records that plot one, in reverse feed order. */
  function HspTrail(env: Env, o: seq<Record>): seq<Point>
    requires forall i :: 0 <= i < |o| ==> Qualifies(env, o[i])
  {
    if o == [] then []
    else HspTrail(env, o[1..]) + (if PlotsHsp(env, o[0]) then [HspPoint(env, o[0])] else [])
  }

  /** `base` extended by the qualifying records `o` of its region. */
  function Extend(env: Env, base: Series, o: seq<Record>): Series
    requires forall i :: 0 <= i < |o| ==> Qualifies(env, o[i])
  {
    Series(PosTrail(env, o) + base.pos, HspTrail(env, o) + base.hsp, base.raw + Deltas(o))
  }

  // ---------------------------------------------------------------------------
  // Properties of one step.

  /** A record whose `positive` is falsy or whose region has no population leaves the map
      unchanged; otherwise only its own region's entry changes. */
  lemma StepFrame(env: Env, all: map<string, Series>, rec: Record)
    ensures !Qualifies(env, rec) ==> Step(env, all, rec) == all
    ensures Qualifies(env, rec) ==> Step(env, all, rec).Keys == all.Keys + {rec.state}
    ensures forall s :: s in all && s != rec.state ==> Step(env, all, rec)[s] == all[s]
  {
  }

  /** A qualifying record pushes exactly one raw tuple at the end of its region's `raw`,
      and its points (when it plots) become the first of `pos` and `hsp`. */
  lemma StepGrowth(env: Env, all: map<string, Series>, rec: Record)
    requires Qualifies(env, rec)
    ensures Step(env, all, rec)[rec.state].raw == Lookup(all, rec.state).raw + [DeltaOf(rec)]
    ensures Plots(env, rec) ==>
      Step(env, all, rec)[rec.state].pos == [PosPoint(env, rec)] + Lookup(all, rec.state).pos
    ensures PlotsHsp(env, rec) ==>
      Step(env, all, rec)[rec.state].hsp == [HspPoint(env, rec)] + Lookup(all, rec.state).hsp
    ensures !Plots(env, rec) ==> Step(env, all, rec)[rec.state].pos == Lookup(all, rec.state).pos
    ensures !PlotsHsp(env, rec) ==> Step(env, all, rec)[rec.state].hsp == Lookup(all, rec.state).hsp
  {
  }

  // ---------------------------------------------------------------------------
  // Properties of the whole fold.

  /** Processing one more record is one more callback. */
  lemma {:induction false} FoldSnoc(env: Env, all: map<string, Series>, records: seq<Record>, rec: Record)
    ensures Fold(env, all, records + [rec]) == Step(env, Fold(env, all, records), rec)
    decreases |records|
  {
    if records == [] {
      assert [rec][1..] == [];
    } else {
      assert (records + [rec])[1..] == records[1..] + [rec];
      FoldSnoc(env, Step(env, all, records[0]), records[1..], rec);
    }
  }

  /** The trails of `[rec] + o`: those of `o`, then `rec`'s point (the oldest) when it plots. */
  lemma TrailsCons(env: Env, rec: Record, o: seq<Record>)
    requires Qualifies(env, rec)
    requires forall i :: 0 <= i < |o| ==> Qualifies(env, o[i])
    ensures PosTrail(env, [rec] + o) == PosTrail(env, o) + (if Plots(env, rec) then [PosPoint(env, rec)] else [])
    ensures HspTrail(env, [rec] + o) == HspTrail(env, o) + (if PlotsHsp(env, rec) then [HspPoint(env, rec)] else [])
    ensures Deltas([rec] + o) == [DeltaOf(rec)] + Deltas(o)
  {
    var ro := [rec] + o;
    assert ro[0] == rec && ro[1..] == o;
  }

  /** Extending by one record and then by more is extending by all of them. */
  lemma ExtendCons(env: Env, s: Series, rec: Record, o: seq<Record>)
    requires Qualifies(env, rec)
    requires forall i :: 0 <= i < |o| ==> Qualifies(env, o[i])
    ensures Extend(env, Grow(env, s, rec), o) == Extend(env, s, [rec] + o)
  {
    TrailsCons(env, rec, o);
    var p: seq<Point> := if Plots(env, rec) then [PosPoint(env, rec)] else [];
    var q: seq<Point> := if PlotsHsp(env, rec) then [HspPoint(env, rec)] else [];
    assert PosTrail(env, o) + (p + s.pos) == (PosTrail(env, o) + p) + s.pos;
    assert HspTrail(env, o) + (q + s.hsp) == (HspTrail(env, o) + q) + s.hsp;
    assert (s.raw + [DeltaOf(rec)]) + Deltas(o) == s.raw + ([DeltaOf(rec)] + Deltas(o));
  }

  /** Every region's series is its starting series extended by exactly the region's
      qualifying records; a region without any keeps its entry, or stays absent. */
  lemma {:induction false} FoldSeries(env: Env, all: map<string, Series>, records: seq<Record>, state: string)
    ensures state in Fold(env, all, records) <==> state in all || Owned(env, records, state) != []
    ensures state in Fold(env, all, records) ==>
      Fold(env, all, records)[state] == Extend(env, Lookup(all, state), Owned(env, records, state))
    decreases |records|
  {
    if records != [] {
      var rec, rest := records[0], records[1..];
      var all' := Step(env, all, rec);
      FoldSeries(env, all', rest, state);
      var o := Owned(env, rest, state);
      if Qualifies(env, rec) && rec.state == state {
        assert Owned(env, records, state) == [rec] + o;
        assert Lookup(all', state) == Grow(env, Lookup(all, state), rec);
        ExtendCons(env, Lookup(all, state), rec, o);
      } else {
        assert Owned(env, records, state) == o;
        assert Lookup(all', state) == Lookup(all, state);
      }
    }
  }

  /** From the empty map: a region has an entry iff it has a qualifying record, and then
      `raw` holds one tuple per qualifying record, in feed order, `pos` the positivity
      points of those that plot, in reverse feed order, and `hsp` likewise. */
  lemma FoldFromEmpty(env: Env, records: seq<Record>, state: string)
    ensures state in Fold(env, map[], records) <==> Owned(env, records, state) != []
    ensures state in Fold(env, map[], records) ==>
      var s := Fold(env, map[], records)[state];
      var o := Owned(env, records, state);
      s.raw == Deltas(o) && |s.raw| == |o| && s.pos == PosTrail(env, o) && s.hsp == HspTrail(env, o)
  {
    FoldSeries(env, map[], records, state);
    if state in Fold(env, map[], records) {
      var o := Owned(env, records, state);
      assert Fold(env, map[], records)[state] == Extend(env, Empty, o);
      assert PosTrail(env, o) + [] == PosTrail(env, o);
      assert HspTrail(env, o) + [] == HspTrail(env, o);
      assert [] + Deltas(o) == Deltas(o);
    }
  }

  /** Per record, a point on `hsp` implies one on `pos`, which implies a tuple on `raw`. */
  lemma {:induction false} TrailLengths(env: Env, o: seq<Record>)
    requires forall i :: 0 <= i < |o| ==> Qualifies(env, o[i])
    ensures |HspTrail(env, o)| <= |PosTrail(env, o)| <= |o|
  {
    if o != [] {
      TrailLengths(env, o[1..]);
    }
  }

  /** Every region's series in the reduced map has `|hsp| <= |pos| <= |raw|`. */
  lemma SeriesLengths(env: Env, records: seq<Record>, state: string)
    requires state in Fold(env, map[], records)
    ensures var s := Fold(env, map[], records)[state]; |s.hsp| <= |s.pos| <= |s.raw|
  {
    FoldFromEmpty(env, records, state);
    TrailLengths(env, Owned(env, records, state));
  }

  /** Last reduced first: when the last record plots, its point heads its region's `pos`, and
      the series before it follows unchanged. */
  lemma LastReducedFirst(env: Env, records: seq<Record>, rec: Record)
    requires Plots(env, rec)
    ensures rec.state in Fold(env, map[], records + [rec])
    ensures Fold(env, map[], records + [rec])[rec.state].pos
      == [PosPoint(env, rec)] + Lookup(Fold(env, map[], records), rec.state).pos
  {
    FoldSnoc(env, map[], records, rec);
  }

  /** The kept records of a concatenated feed are those of each part, in feed order. */
  lemma {:induction false} OwnedAppend(env: Env, a: seq<Record>, b: seq<Record>, state: string)
    ensures Owned(env, a + b, state) == Owned(env, a, state) + Owned(env, b, state)
    decreases |a|
  {
    if a == [] {
      assert a + b == b;
    } else {
      assert (a + b)[0] == a[0] && (a + b)[1..] == a[1..] + b;
      OwnedAppend(env, a[1..], b, state);
      var h: seq<Record> := if Qualifies(env, a[0]) && a[0].state == state then [a[0]] else [];
      assert h + (Owned(env, a[1..], state) + Owned(env, b, state))
          == (h + Owned(env, a[1..], state)) + Owned(env, b, state);
    }
  }

  /** The positivity trail of kept records `a + b`: `b`'s points (newer) before `a`'s. */
  lemma {:induction false} PosTrailAppend(env: Env, a: seq<Record>, b: seq<Record>)
    requires forall i :: 0 <= i < |a| ==> Qualifies(env, a[i])
    requires forall i :: 0 <= i < |b| ==> Qualifies(env, b[i])
    ensures PosTrail(env, a + b) == PosTrail(env, b) + PosTrail(env, a)
    decreases |a|
  {
    if a == [] {
      assert a + b == b;
    } else {
      assert (a + b)[0] == a[0] && (a + b)[1..] == a[1..] + b;
      PosTrailAppend(env, a[1..], b);
      var h: seq<Point> := if Plots(env, a[0]) then [PosPoint(env, a[0])] else [];
      assert (PosTrail(env, b) + PosTrail(env, a[1..])) + h
          == PosTrail(env, b) + (PosTrail(env, a[1..]) + h);
    }
  }

  /** Kept records none of which plots add nothing to the positivity trail. */
  lemma {:induction false} PosTrailNone(env: Env, o: seq<Record>)
    requires forall i :: 0 <= i < |o| ==> Qualifies(env, o[i]) && !Plots(env, o[i])
    ensures PosTrail(env, o) == []
    decreases |o|
  {
    if o != [] {
      PosTrailNone(env, o[1..]);
    }
  }

  /** Concatenating kept records keeps them kept. */
  lemma QualifyAppend(env: Env, a: seq<Record>, b: seq<Record>)
    requires forall i :: 0 <= i < |a| ==> Qualifies(env, a[i])
    requires forall i :: 0 <= i < |b| ==> Qualifies(env, b[i])
    ensures forall i :: 0 <= i < |a + b| ==> Qualifies(env, (a + b)[i])
  {
  }

  /** Regrouping two single points between two trails. */
  lemma Regroup(x: seq<Point>, p: Point, q: Point, y: seq<Point>)
    ensures x + ([p] + ([q] + y)) == x + [p, q] + y
  {
  }

  /** Appending one plotted kept record puts its point at the front of the trail. */
  lemma PosTrailSnoc(env: Env, a: seq<Record>, r: Record)
    requires forall i :: 0 <= i < |a| ==> Qualifies(env, a[i])
    requires Plots(env, r)
    ensures PosTrail(env, a + [r]) == [PosPoint(env, r)] + PosTrail(env, a)
  {
    assert PosTrail(env, [r]) == [PosPoint(env, r)];
    PosTrailAppend(env, a, [r]);
  }

  /** Appending kept records none of which plots leaves the trail as it is. */
  lemma PosTrailSkip(env: Env, a: seq<Record>, m: seq<Record>)
    requires forall i :: 0 <= i < |a| ==> Qualifies(env, a[i])
    requires forall i :: 0 <= i < |m| ==> Qualifies(env, m[i]) && !Plots(env, m[i])
    ensures PosTrail(env, a + m) == PosTrail(env, a)
  {
    PosTrailNone(env, m);
    PosTrailAppend(env, a, m);
    assert [] + PosTrail(env, a) == PosTrail(env, a);
  }

  /** Positivity trail of one region's kept records when two plotted ones, `earlier` and
      `later`, are separated only by kept records that do not plot. */
  lemma TrailAcrossGap(env: Env, oR: seq<Record>, earlier: Record, oM: seq<Record>,
                       later: Record, oP: seq<Record>)
    requires Plots(env, earlier) && Plots(env, later)
    requires forall i :: 0 <= i < |oR| ==> Qualifies(env, oR[i])
    requires forall i :: 0 <= i < |oM| ==> Qualifies(env, oM[i]) && !Plots(env, oM[i])
    requires forall i :: 0 <= i < |oP| ==> Qualifies(env, oP[i])
    ensures PosTrail(env, oR + [earlier] + oM + [later] + oP)
         == PosTrail(env, oP) + [PosPoint(env, later), PosPoint(env, earlier)] + PosTrail(env, oR)
  {
    var a1 := oR + [earlier];
    QualifyAppend(env, oR, [earlier]);
    PosTrailSnoc(env, oR, earlier);
    var a2 := a1 + oM;
    QualifyAppend(env, a1, oM);
    PosTrailSkip(env, a1, oM);
    var a3 := a2 + [later];
    QualifyAppend(env, a2, [later]);
    PosTrailSnoc(env, a2, later);
    QualifyAppend(env, a3, oP);
    PosTrailAppend(env, a3, oP);
    var tP, tR, pL, pE := PosTrail(env, oP), PosTrail(env, oR), PosPoint(env, later), PosPoint(env, earlier);
    assert PosTrail(env, a3) == [pL] + ([pE] + tR);
    Regroup(tP, pL, pE, tR);
  }

  /** Two plotted records of one region with none of its records plotting in between:
      however the feed goes on, the later one's point sits directly before the earlier
      one's in `pos`, after the points of the later plotted records and before those of
      the earlier ones. */
  lemma ConsecutiveOrder(env: Env, records: seq<Record>, earlier: Record, mid: seq<Record>,
                         later: Record, post: seq<Record>)
    requires Plots(env, earlier) && Plots(env, later) && earlier.state == later.state
    requires forall i :: 0 <= i < |mid| ==> !(Plots(env, mid[i]) && mid[i].state == earlier.state)
    ensures earlier.state in Fold(env, map[], records + [earlier] + mid + [later] + post)
    ensures var pos := Fold(env, map[], records + [earlier] + mid + [later] + post)[earlier.state].pos;
      pos == PosTrail(env, Owned(env, post, earlier.state))
             + [PosPoint(env, later), PosPoint(env, earlier)]
             + PosTrail(env, Owned(env, records, earlier.state))
    ensures var pos := Fold(env, map[], records + [earlier] + mid + [later] + post)[earlier.state].pos;
      var k := |PosTrail(env, Owned(env, post, earlier.state))|;
      k + 1 < |pos| && pos[k] == PosPoint(env, later) && pos[k + 1] == PosPoint(env, earlier)
  {
    var st := earlier.state;
    var feed := records + [earlier] + mid + [later] + post;
    var oR, oM, oP := Owned(env, records, st), Owned(env, mid, st), Owned(env, post, st);
    OwnedAppend(env, records, [earlier], st);
    OwnedAppend(env, records + [earlier], mid, st);
    OwnedAppend(env, records + [earlier] + mid, [later], st);
    OwnedAppend(env, records + [earlier] + mid + [later], post, st);
    assert Owned(env, [earlier], st) == [earlier];
    assert Owned(env, [later], st) == [later];
    assert Owned(env, feed, st) == oR + [earlier] + oM + [later] + oP;
    forall i | 0 <= i < |oM|
      ensures !Plots(env, oM[i])
    {
      assert oM[i] in mid;
    }
    TrailAcrossGap(env, oR, earlier, oM, later, oP);
    FoldFromEmpty(env, feed, st);
  }
}
