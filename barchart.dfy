/** `barChart(data, height, ...fields)`: the popup's two-field bar chart over a region's
    raw daily deltas (chart.js:159-183). Bars grow from a shared baseline at y = 0, one
    fixed-width cell per day, index 0 (the first tuple) at the right edge of a 400-unit
    wide chart; each field's peak bar carries a numeric label. */
module BarChart {
  import opened Wrappers
  import Dataset

  /** The raw-delta fields a chart can show (`'tested'`, `'dead'`, `'positive'`, `'hospitalized'`). */
  datatype Field = Tested | Dead | Positive | Hospitalized

  /** `x[field]` */
  function Value(d: Dataset.RawDelta, f: Field): Option<int> {
    match f
    case Tested => d.tested
    case Dead => d.dead
    case Positive => d.positive
    case Hospitalized => d.hospitalized
  }

  /** The chart's elements: `<rect class=field ...>` and `<text ...>value</text>`. */
  datatype Shape =
    | Rect(field: Field, x: int, y: real, width: int, height: real)
    | Label(at: real, top: real, value: int)

  const ChartWidth: int := 400
  const MaxCell: int := 9

  function Min(a: int, b: int): int { if a <= b then a else b }
  function Max(a: int, b: int): int { if a >= b then a else b }
  function RealMin(a: real, b: real): real { if a <= b then a else b }
  function Abs(a: real): real { if a >= 0.0 then a else -a }

  // ---------------------------------------------------------------------------
  // Layout

  /** `Math.max(Math.min(Math.floor(400/n), 9) - 2, 2)`; for `n == 0` the quotient is
      Infinity and the cell is 9. */
  function BarWidth(n: nat): (w: int)
    ensures 2 <= w <= 7
    ensures n <= 44 ==> w == 7
    ensures n > 100 ==> w == 2
  {
    var cell := if n == 0 then MaxCell else Min(ChartWidth / n, MaxCell);
    Max(cell - 2, 2)
  }

  /** `400 - (i+1)*width`: the left edge of bar `i`. */
  function RectX(i: nat, w: int): int {
    ChartWidth - (i + 1) * w
  }

  /** `Math.max(width-2, 2)`: the drawn width of a bar inside its cell. */
  function RectWidth(w: int): int {
    Max(w - 2, 2)
  }

  /** `400 - i*width - (width+2)/2`: the x of the label over bar `i`. */
  function LabelX(i: nat, w: int): real {
    (ChartWidth - i * w) as real - (w + 2) as real / 2.0
  }

  /** Index 0 is the rightmost cell and cells are adjacent; the label of a bar whose drawn
      width is `w - 2` sits at the middle of that bar. */
  lemma CellLayout(i: nat, w: int)
    ensures RectX(0, w) + w == ChartWidth
    ensures RectX(i, w) - RectX(i + 1, w) == w
    ensures w >= 4 ==> LabelX(i, w) == RectX(i, w) as real + RectWidth(w) as real / 2.0
  {
  }

  /** All `n` cells fit in the chart (the leftmost starts at x >= 0) exactly when `n <= 200`. */
  lemma CellsFit(n: nat)
    requires n > 0
    ensures n * BarWidth(n) <= ChartWidth <==> n <= 200
  {
    var w := BarWidth(n);
    if n <= 44 {
      assert w == 7;
      assert n * w <= 44 * 7;
    } else if n <= 100 {
      var q := ChartWidth / n;
      assert q * n <= ChartWidth;
      assert q >= 4 by {
        assert 4 * n <= ChartWidth;
      }
      assert q <= 8 by {
        assert 9 * n > ChartWidth;
      }
      assert w == q - 2;
      assert n * w == q * n - 2 * n;
    } else {
      assert w == 2;
    }
  }

  // ---------------------------------------------------------------------------
  // Maxima

  /** `Math.max(...s)` of a non-empty list. */
  function MaxOf(s: seq<int>): (m: int)
    requires s != []
    ensures m in s
    ensures forall i :: 0 <= i < |s| ==> s[i] <= m
  {
    if |s| == 1 then s[0] else Max(s[0], MaxOf(s[1..]))
  }

  /** No tuple lacks the field (an absent value would turn every maximum into NaN). */
  predicate Complete(data: seq<Dataset.RawDelta>, f: Field) {
    forall i :: 0 <= i < |data| ==> Value(data[i], f).Some?
  }

  /** `data.map(x => x[field])` */
  function Column(data: seq<Dataset.RawDelta>, f: Field): seq<int>
    requires Complete(data, f)
  {
    seq(|data|, i requires 0 <= i < |data| => Value(data[i], f).value)
  }

  /** `fields.reduce((sofar, field) => Math.max(sofar, Math.max(...column)), 0)`, with `None`
      for NaN. Over an empty list `Math.max()` is -Infinity, so the result is 0. */
  function MaxValue(data: seq<Dataset.RawDelta>, f1: Field, f2: Field): (r: Option<int>)
    ensures r.None? <==> !(Complete(data, f1) && Complete(data, f2))
    ensures r.Some? ==> r.value >= 0
    ensures r.Some? ==> forall i :: 0 <= i < |data| ==>
      Value(data[i], f1).value <= r.value && Value(data[i], f2).value <= r.value
    ensures r.Some? && r.value > 0 ==>
      (exists i :: 0 <= i < |data| && (Value(data[i], f1) == Some(r.value) || Value(data[i], f2) == Some(r.value)))
  {
    if !(Complete(data, f1) && Complete(data, f2)) then None
    else if data == [] then Some(0)
    else
      var c1, c2 := Column(data, f1), Column(data, f2);
      assert forall i :: 0 <= i < |data| ==> c1[i] == Value(data[i], f1).value && c2[i] == Value(data[i], f2).value;
      Some(Max(Max(0, MaxOf(c1)), MaxOf(c2)))
  }

  /** The chart is drawn only when the joint maximum is a truthy number. */
  predicate Drawn(data: seq<Dataset.RawDelta>, f1: Field, f2: Field) {
    var m := MaxValue(data, f1, f2);
    m.Some? && m.value != 0
  }

  // ---------------------------------------------------------------------------
  // Bars

  /** The bar of value `value` at index `i`: height `height * value / maxValue`, drawn
      from the baseline. */
  function Bar(f: Field, i: nat, value: int, w: int, height: int, maxValue: int): Shape
    requires maxValue > 0
  {
    var h := (height * value) as real / maxValue as real;
    Rect(f, RectX(i, w), RealMin(0.0, h), RectWidth(w), Abs(h))
  }

  /** One bar per value of a field, in index order. */
  function Bars(c: seq<int>, f: Field, w: int, height: int, maxValue: int): seq<Shape>
    requires maxValue > 0
  {
    seq(|c|, i requires 0 <= i < |c| => Bar(f, i, c[i], w, height, maxValue))
  }

  /** A ratio of a value in [0, m] to m lies in [0, 1], and is 1 at m. */
  lemma RatioBounds(value: real, m: real)
    requires m > 0.0 && 0.0 <= value <= m
    ensures 0.0 <= value / m <= 1.0
    ensures value == m ==> value / m == 1.0
  {
  }

  /** `h * v / m` is `h` scaled by the ratio `v / m`. */
  lemma ScaleByRatio(h: real, v: real, m: real)
    requires m > 0.0
    ensures h * v / m == h * (v / m)
  {
  }

  /** Scaling by a ratio in [0, 1] does not grow a magnitude. */
  lemma UnitScale(h: real, r: real)
    requires 0.0 <= r <= 1.0
    ensures Abs(h * r) <= Abs(h)
  {
    var a := Abs(h);
    assert a * r >= 0.0;
    assert a - a * r == a * (1.0 - r);
    assert a * (1.0 - r) >= 0.0;
    assert Abs(h * r) == a * r;
  }

  /** A quotient by a positive number keeps the sign of the dividend. */
  lemma QuotientSign(a: real, m: real)
    requires m > 0.0
    ensures a < 0.0 ==> a / m < 0.0
    ensures a >= 0.0 ==> a / m >= 0.0
  {
  }

  /** Integer products carry over to `real`. */
  lemma CastProduct(a: int, b: int)
    ensures (a * b) as real == a as real * b as real
  {
  }

  /** Scaling a budget by a ratio in [0, 1] stays within the budget, and the ratio 1 gives
      the budget itself. */
  lemma ScaledWithin(height: real, value: real, m: real)
    requires m > 0.0 && 0.0 <= value <= m
    ensures Abs(height * value / m) <= Abs(height)
    ensures value == m ==> height * value / m == height
  {
    RatioBounds(value, m);
    ScaleByRatio(height, value, m);
    UnitScale(height, value / m);
  }

  /** Every bar touches the shared baseline and lies on the side of it that
      `height * value` points to. */
  lemma BarOnBaseline(f: Field, i: nat, value: int, w: int, height: int, maxValue: int)
    requires maxValue > 0
    ensures var b := Bar(f, i, value, w, height, maxValue);
      b.y <= 0.0 && b.height >= 0.0 && (b.y == 0.0 || b.y + b.height == 0.0)
    ensures var b := Bar(f, i, value, w, height, maxValue);
      height * value < 0 ==> b.y < 0.0 && b.y + b.height == 0.0
    ensures var b := Bar(f, i, value, w, height, maxValue);
      height * value >= 0 ==> b.y == 0.0
  {
    QuotientSign((height * value) as real, maxValue as real);
  }

  /** A value between 0 and the joint maximum gets at most the full height budget
      `|height|`, and exactly the full budget at the maximum. */
  lemma BarWithinBudget(f: Field, i: nat, value: int, w: int, height: int, maxValue: int)
    requires 0 <= value <= maxValue && maxValue > 0
    ensures Bar(f, i, value, w, height, maxValue).height <= Abs(height as real)
    ensures value == maxValue ==> Bar(f, i, value, w, height, maxValue).height == Abs(height as real)
  {
    CastProduct(height, value);
    ScaledWithin(height as real, value as real, maxValue as real);
  }

  // ---------------------------------------------------------------------------
  // Labels

  /** The first index holding `v`. */
  function FirstIndex(c: seq<int>, v: int): (k: nat)
    requires v in c
    ensures k < |c| && c[k] == v
    ensures forall j :: 0 <= j < k ==> c[j] != v
  {
    if c[0] == v then 0 else 1 + FirstIndex(c[1..], v)
  }

  /** The indices that should carry the field's label: none when the series is empty or
      its maximum is 0 (falsy), otherwise only the first index holding the maximum. */
  function Labelled(c: seq<int>): seq<nat> {
    if c == [] || MaxOf(c) == 0 then [] else [FirstIndex(c, MaxOf(c))]
  }

  /** The label pass for one field, with the "already labelled" mark kept apart from the
      values: exactly the indices of `Labelled`. */
  method LabelIndices(c: seq<int>) returns (ks: seq<nat>)
    ensures ks == Labelled(c)
  {
    ks := [];
    if c != [] {
      var maxFieldValue := MaxOf(c);
      if maxFieldValue != 0 {
        ghost var first := FirstIndex(c, maxFieldValue);
        var done := false;
        for i := 0 to |c|
          invariant done <==> first < i
          invariant ks == if done then [first] else []
        {
          if !done && c[i] == maxFieldValue {
            done := true;
            ks := ks + [i];
          }
        }
      }
    }
  }

  /** The label pass as chart.js:175-180 writes it: after the first maximum, the mark
      `maxFieldValue = -1` is compared with the later values as if it were one. */
  predicate LabelledAsWritten(c: seq<int>, k: int)
    requires c != []
  {
    var m := MaxOf(c);
    m != 0 && 0 <= k < |c| && (k == FirstIndex(c, m) || (FirstIndex(c, m) < k && c[k] == -1))
  }

  /** The indices below `i` that the pass as written labels, in ascending order. */
  function AsWrittenUpTo(c: seq<int>, i: nat): (ks: seq<nat>)
    requires c != [] && i <= |c|
    ensures forall j :: 0 <= j < |ks| ==> ks[j] < i
  {
    if i == 0 then []
    else AsWrittenUpTo(c, i - 1) + (if LabelledAsWritten(c, i - 1) then [i - 1] else [])
  }

  /** The indices below `i` labelled as written are exactly those `LabelledAsWritten`
      holds of, and they ascend strictly. */
  lemma {:induction false} AsWrittenUpToSpec(c: seq<int>, i: nat)
    requires c != [] && i <= |c|
    ensures forall k :: k in AsWrittenUpTo(c, i) <==> 0 <= k < i && LabelledAsWritten(c, k)
    ensures forall j, l :: 0 <= j < l < |AsWrittenUpTo(c, i)| ==> AsWrittenUpTo(c, i)[j] < AsWrittenUpTo(c, i)[l]
  {
    if i > 0 {
      AsWrittenUpToSpec(c, i - 1);
    }
  }

  /** Index `i` is labelled as written exactly when its value equals the mark the pass
      holds on reaching it: the maximum up to its first index, -1 after. */
  lemma MarkAsWritten(c: seq<int>, i: nat)
    requires i < |c| && MaxOf(c) != 0
    ensures LabelledAsWritten(c, i) <==> c[i] == (if i <= FirstIndex(c, MaxOf(c)) then MaxOf(c) else -1)
  {
  }

  /** All the indices that the pass as written labels, in ascending order: none when the
      series is empty or its maximum is 0 (falsy). */
  function AsWrittenLabelled(c: seq<int>): (ks: seq<nat>)
    ensures forall j :: 0 <= j < |ks| ==> ks[j] < |c|
  {
    if c == [] || MaxOf(c) == 0 then [] else AsWrittenUpTo(c, |c|)
  }

  /** The label pass of chart.js:172-181 as written: it labels the first index holding
      the maximum and then every later index holding -1, in ascending order. */
  method LabelIndicesAsWritten(c: seq<int>) returns (ks: seq<nat>)
    ensures ks == AsWrittenLabelled(c)
    ensures c == [] ==> ks == []
    ensures c != [] ==> forall k :: k in ks <==> LabelledAsWritten(c, k)
    ensures forall j, l :: 0 <= j < l < |ks| ==> ks[j] < ks[l]
  {
    ks := [];
    if c != [] {
      var maxFieldValue := MaxOf(c);
      if maxFieldValue != 0 {
        ghost var m := maxFieldValue;
        ghost var first := FirstIndex(c, m);
        for i := 0 to |c|
          invariant maxFieldValue == if i <= first then m else -1
          invariant ks == AsWrittenUpTo(c, i)
        {
          MarkAsWritten(c, i);
          if c[i] == maxFieldValue {
            maxFieldValue := -1;
            ks := ks + [i];
          }
        }
        AsWrittenUpToSpec(c, |c|);
      }
    }
  }

  /** A field whose peak 5 is followed by a daily change of -1 gets two labels as written,
      the second one reading "-1"; the corrected pass labels only the peak. */
  lemma SentinelCollision()
    ensures LabelledAsWritten([5, -1], 0) && LabelledAsWritten([5, -1], 1)
    ensures AsWrittenLabelled([5, -1]) == [0, 1]
    ensures Labelled([5, -1]) == [0]
  {
    assert MaxOf([5, -1]) == 5;
    assert AsWrittenUpTo([5, -1], 1) == [0];
  }

  /** The label y `height * maxFieldValue / maxValue`, taken before the pass. */
  function LabelY(c: seq<int>, height: int, maxValue: int): real
    requires c != [] && maxValue > 0
  {
    (height * MaxOf(c)) as real / maxValue as real
  }

  /** `<text>` elements for the labelled indices `ks`, each showing its value. */
  function LabelShapes(c: seq<int>, ks: seq<nat>, w: int, y: real): seq<Shape>
    requires forall j :: 0 <= j < |ks| ==> ks[j] < |c|
  {
    seq(|ks|, j requires 0 <= j < |ks| => Label(LabelX(ks[j], w), y, c[ks[j]]))
  }

  /** The labels of one field. */
  function FieldLabels(c: seq<int>, w: int, height: int, maxValue: int): seq<Shape>
    requires maxValue > 0
  {
    if c == [] then [] else LabelShapes(c, Labelled(c), w, LabelY(c, height, maxValue))
  }

  /** The labels of one field as chart.js:170-181 draws them. */
  function FieldLabelsAsWritten(c: seq<int>, w: int, height: int, maxValue: int): seq<Shape>
    requires maxValue > 0
  {
    if c == [] then [] else LabelShapes(c, AsWrittenLabelled(c), w, LabelY(c, height, maxValue))
  }

  /** One label per field with a non-zero maximum and none otherwise; it shows the
      maximum, over the first bar holding it, and no earlier bar reaches the maximum. */
  lemma FieldLabelsFirstMax(c: seq<int>, w: int, height: int, maxValue: int)
    requires maxValue > 0
    ensures |FieldLabels(c, w, height, maxValue)| == (if c == [] || MaxOf(c) == 0 then 0 else 1)
    ensures c != [] && MaxOf(c) != 0 ==>
      (exists k :: 0 <= k < |c| && c[k] == MaxOf(c) && (forall j :: 0 <= j < k ==> c[j] < c[k]) &&
        FieldLabels(c, w, height, maxValue) == [Label(LabelX(k, w), LabelY(c, height, maxValue), MaxOf(c))])
  {
    if c != [] && MaxOf(c) != 0 {
      var k := FirstIndex(c, MaxOf(c));
      assert forall j :: 0 <= j < k ==> c[j] < c[k];
      assert FieldLabels(c, w, height, maxValue)[0] == Label(LabelX(k, w), LabelY(c, height, maxValue), MaxOf(c));
    }
  }

  // ---------------------------------------------------------------------------
  // The chart

  /** `barChart(data, height, f1, f2)` as written: nothing when the joint maximum is 0 or
      NaN; otherwise the bars of `f1`, the bars of `f2`, then the labels of each field as
      the label pass draws them. */
  method Chart(data: seq<Dataset.RawDelta>, height: int, f1: Field, f2: Field) returns (out: seq<Shape>)
    ensures !Drawn(data, f1, f2) ==> out == []
    ensures Drawn(data, f1, f2) ==>
      var m := MaxValue(data, f1, f2).value;
      var w := BarWidth(|data|);
      var c1, c2 := Column(data, f1), Column(data, f2);
      |data| > 0 &&
      out == Bars(c1, f1, w, height, m) + Bars(c2, f2, w, height, m)
             + FieldLabelsAsWritten(c1, w, height, m) + FieldLabelsAsWritten(c2, w, height, m)
  {
    var maxValue := MaxValue(data, f1, f2);
    var width := BarWidth(|data|);
    if maxValue.None? || maxValue.value == 0 {
      return [];
    }
    var m := maxValue.value;
    var c1, c2 := Column(data, f1), Column(data, f2);
    var k1 := LabelIndicesAsWritten(c1);
    var k2 := LabelIndicesAsWritten(c2);
    out := Bars(c1, f1, width, height, m) + Bars(c2, f2, width, height, m)
           + LabelShapes(c1, k1, width, LabelY(c1, height, m))
           + LabelShapes(c2, k2, width, LabelY(c2, height, m));
  }

  /** The chart with the corrected label pass: the same bars, then at most one label per
      field, over the first bar holding the field's maximum. */
  method CorrectedChart(data: seq<Dataset.RawDelta>, height: int, f1: Field, f2: Field) returns (out: seq<Shape>)
    ensures !Drawn(data, f1, f2) ==> out == []
    ensures Drawn(data, f1, f2) ==>
      var m := MaxValue(data, f1, f2).value;
      var w := BarWidth(|data|);
      var c1, c2 := Column(data, f1), Column(data, f2);
      |data| > 0 &&
      out == Bars(c1, f1, w, height, m) + Bars(c2, f2, w, height, m)
             + FieldLabels(c1, w, height, m) + FieldLabels(c2, w, height, m)
  {
    var maxValue := MaxValue(data, f1, f2);
    var width := BarWidth(|data|);
    if maxValue.None? || maxValue.value == 0 {
      return [];
    }
    var m := maxValue.value;
    var c1, c2 := Column(data, f1), Column(data, f2);
    var k1 := LabelIndices(c1);
    var k2 := LabelIndices(c2);
    out := Bars(c1, f1, width, height, m) + Bars(c2, f2, width, height, m)
           + LabelShapes(c1, k1, width, LabelY(c1, height, m))
           + LabelShapes(c2, k2, width, LabelY(c2, height, m));
  }
}
