/** The bottom-series choice and the baseline series that `renderNew` builds
    from it: lodash's `_.min` over the series list, keyed by the sum (a
    `_.reduce` from 0) of each series' `stackedValueBelow`, and a copy of the
    chosen series whose points all lie on that series' lower edge. */
module Baseline {
  import opened ChartData
  import opened Stacking
  import opened AreaStyle

  /** `_.reduce(data, (i, d) => i + d.stackedValueBelow, acc)`. */
  function ReduceBelow(acc: real, ps: seq<Point>): real
    decreases |ps|
  {
    if |ps| == 0 then acc else ReduceBelow(acc + ps[0].stackedValueBelow, ps[1..])
  }

  /** The lower edges of a run of points, in x order. */
  function Edges(ps: seq<Point>): (es: seq<real>)
    ensures |es| == |ps|
    ensures forall k :: 0 <= k < |ps| ==> es[k] == ps[k].stackedValueBelow
  {
    seq(|ps|, k requires 0 <= k < |ps| => ps[k].stackedValueBelow)
  }

  /** The left fold of `_.reduce` adds up the lower edges: it is the start
      value plus the plain sum of `stackedValueBelow` over the points. */
  lemma {:induction false} ReduceBelowIsSum(acc: real, ps: seq<Point>)
    ensures ReduceBelow(acc, ps) == acc + Sum(Edges(ps))
    decreases |ps|
  {
    if |ps| > 0 {
      ReduceBelowIsSum(acc + ps[0].stackedValueBelow, ps[1..]);
      assert Edges(ps)[1..] == Edges(ps[1..]);
    }
  }

  /** The area beneath a series over the whole x domain, the key `_.min` ranks by. */
  function BelowTotal(s: Series): (total: real)
    ensures total == Sum(Edges(s.data))
  {
    ReduceBelowIsSum(0.0, s.data);
    ReduceBelow(0.0, s.data)
  }

  /** Series `b` ranks lowest in `ss`, and no series before it ranks as low. */
  predicate IsFirstMinimum(ss: seq<Series>, b: nat)
    requires b < |ss|
  {
    && (forall j :: 0 <= j < |ss| ==> BelowTotal(ss[b]) <= BelowTotal(ss[j]))
    && (forall j :: 0 <= j < b ==> BelowTotal(ss[b]) < BelowTotal(ss[j]))
  }

  /** lodash's scan: `best` is the first minimum among the series before `i`;
      a later series replaces it only when strictly lower. */
  function ScanMin(ss: seq<Series>, best: nat, i: nat): (b: nat)
    requires best < i <= |ss|
    requires forall j :: 0 <= j < i ==> BelowTotal(ss[best]) <= BelowTotal(ss[j])
    requires forall j :: 0 <= j < best ==> BelowTotal(ss[best]) < BelowTotal(ss[j])
    ensures b < |ss| && IsFirstMinimum(ss, b)
    decreases |ss| - i
  {
    if i == |ss| then best
    else if BelowTotal(ss[i]) < BelowTotal(ss[best]) then ScanMin(ss, i, i + 1)
    else ScanMin(ss, best, i + 1)
  }

  /** The index of the series `_.min` returns: the lowest-ranked one, ties
      going to the earliest. */
  function BottomIndex(ss: seq<Series>): (b: nat)
    requires |ss| > 0
    ensures b < |ss|
    ensures forall j :: 0 <= j < |ss| ==> BelowTotal(ss[b]) <= BelowTotal(ss[j])
    ensures forall j :: 0 <= j < b ==> BelowTotal(ss[b]) < BelowTotal(ss[j])
  {
    ScanMin(ss, 0, 1)
  }

  /** The first minimum is unique: any index with the two properties is
      the one `BottomIndex` picks. */
  lemma BottomIndexUnique(ss: seq<Series>, b: nat)
    requires b < |ss| && IsFirstMinimum(ss, b)
    ensures BottomIndex(ss) == b
  {
  }

  /** A baseline point: it repeats the source point's lower edge as its
      value, top and bottom. */
  function BaselinePoint(d: Point, lineCount: int): (q: Point)
    ensures q.value == q.stackedValue == q.stackedValueBelow == d.stackedValueBelow
    ensures q.categoryValue == d.categoryValue && q.categoryIndex == d.categoryIndex
    ensures q.seriesIndex == lineCount && q.key == d.key + d.key
  {
    Point(
      categoryValue := d.categoryValue,
      categoryIndex := d.categoryIndex,
      seriesIndex := lineCount,
      key := d.key + d.key,
      value := d.stackedValueBelow,
      stackedValue := d.stackedValueBelow,
      stackedValueBelow := d.stackedValueBelow)
  }

  /** `bottomLineSeries`: built from the bottom series of `ss`, with
      `lineIndex` `|ss|` and a doubled key. Each of its points has top equal
      to bottom (a band of no height). It is only constructed here. */
  function BaselineSeries(ss: seq<Series>): (b: Series)
    requires |ss| > 0
    ensures var bottom := ss[BottomIndex(ss)];
      && b.key == bottom.key + bottom.key
      && b.lineIndex == |ss|
      && b.color == bottom.color
      && b.xCol == bottom.xCol
      && b.yCol == bottom.yCol
      && b.identity == bottom.identity
      && b.selected == bottom.selected
      && |b.data| == |bottom.data|
      && forall k :: 0 <= k < |b.data| ==>
        && b.data[k].value == bottom.data[k].stackedValueBelow
        && b.data[k].stackedValue == bottom.data[k].stackedValueBelow
        && b.data[k].stackedValueBelow == bottom.data[k].stackedValueBelow
        && b.data[k].categoryValue == bottom.data[k].categoryValue
        && b.data[k].categoryIndex == bottom.data[k].categoryIndex
        && b.data[k].seriesIndex == |ss|
        && b.data[k].key == bottom.data[k].key + bottom.data[k].key
  {
    var bottom := ss[BottomIndex(ss)];
    Series(
      key := bottom.key + bottom.key,
      lineIndex := |ss|,
      color := bottom.color,
      xCol := bottom.xCol,
      yCol := bottom.yCol,
      identity := bottom.identity,
      selected := bottom.selected,
      data := seq(|bottom.data|, k requires 0 <= k < |bottom.data| => BaselinePoint(bottom.data[k], |ss|)))
  }

  /** Two point lists with the same lower edges reduce to the same total. */
  lemma {:induction false} ReduceBelowDependsOnEdges(acc: real, ps: seq<Point>, qs: seq<Point>)
    requires |ps| == |qs|
    requires forall k :: 0 <= k < |ps| ==> ps[k].stackedValueBelow == qs[k].stackedValueBelow
    ensures ReduceBelow(acc, ps) == ReduceBelow(acc, qs)
    decreases |ps|
  {
    if |ps| > 0 {
      ReduceBelowDependsOnEdges(acc + ps[0].stackedValueBelow, ps[1..], qs[1..]);
    }
  }

  /** The baseline encloses exactly the minimal area: its own below-total is
      the bottom series' total, which no series of `ss` undercuts. */
  lemma BaselineAreaIsMinimal(ss: seq<Series>)
    requires |ss| > 0
    ensures BelowTotal(BaselineSeries(ss)) == BelowTotal(ss[BottomIndex(ss)])
    ensures forall j :: 0 <= j < |ss| ==> BelowTotal(BaselineSeries(ss)) <= BelowTotal(ss[j])
  {
    ReduceBelowDependsOnEdges(0.0, BaselineSeries(ss).data, ss[BottomIndex(ss)].data);
  }

  /** On a stacked list the baseline at x-index k is the sum of the raw values
      of the series stacked beneath the bottom series at k. */
  lemma BaselineOfStack(ss: seq<Series>, k: nat)
    requires Aligned(ss) && |ss| > 0 && k < Width(ss)
    ensures k < |BaselineSeries(Stack(ss)).data|
    ensures BaselineSeries(Stack(ss)).data[k].value == Sum(ColumnAt(ss, k)[..BottomIndex(Stack(ss))])
  {
    StackClosedForm(ss, BottomIndex(Stack(ss)), k);
  }

  /** Adding non-negative lower edges never lowers the running total. */
  lemma {:induction false} ReduceBelowAtLeast(acc: real, ps: seq<Point>)
    requires forall k :: 0 <= k < |ps| ==> ps[k].stackedValueBelow >= 0.0
    ensures ReduceBelow(acc, ps) >= acc
    decreases |ps|
  {
    if |ps| > 0 {
      ReduceBelowAtLeast(acc + ps[0].stackedValueBelow, ps[1..]);
    }
  }

  /** For non-negative data the bottom series is the first one (whose area
      beneath is zero), so the baseline runs along zero. */
  lemma NonNegativeStackBaselineIsZero(ss: seq<Series>)
    requires Aligned(ss) && NonNegative(ss) && |ss| > 0
    ensures BottomIndex(Stack(ss)) == 0
    ensures forall k :: 0 <= k < |BaselineSeries(Stack(ss)).data| ==> BaselineSeries(Stack(ss)).data[k].value == 0.0
  {
    var r := Stack(ss);
    forall j | 0 <= j < |r|
      ensures BelowTotal(r[j]) >= 0.0
    {
      forall k | 0 <= k < |r[j].data|
        ensures r[j].data[k].stackedValueBelow >= 0.0
      {
        StackBelowNonNegative(ss, j, k);
      }
      ReduceBelowAtLeast(0.0, r[j].data);
    }
    ZeroEdgesReduceToZero(0.0, r[0].data);
    BottomIndexUnique(r, 0);
  }

  /** A series lying on zero everywhere has zero area beneath it. */
  lemma {:induction false} ZeroEdgesReduceToZero(acc: real, ps: seq<Point>)
    requires forall k :: 0 <= k < |ps| ==> ps[k].stackedValueBelow == 0.0
    ensures ReduceBelow(acc, ps) == acc
    decreases |ps|
  {
    if |ps| > 0 {
      ZeroEdgesReduceToZero(acc, ps[1..]);
    }
  }

  /** The line y the baseline's points would get is the clamped lower edge
      of the bottom series' area, whatever the y scale and plot height. */
  lemma BaselineTracesBottomArea(ss: seq<Series>, yScale: real -> real, height: real, k: nat)
    requires |ss| > 0 && k < |ss[BottomIndex(ss)].data|
    ensures k < |BaselineSeries(ss).data|
    ensures LineY(yScale, BaselineSeries(ss).data[k], height) == AreaBottomY(yScale, ss[BottomIndex(ss)].data[k], height)
  {
  }

  /** Two series with raw values [1, 2] and [3, 4]: the first lies on zero
      and tops out at [1, 2], the second lies on [1, 2] and tops out at
      [4, 6]; the first has the smaller area beneath it and the baseline
      runs along zero. */
  lemma TwoSeriesExample(a: Series, b: Series)
    requires |a.data| == 2 && |b.data| == 2
    requires a.data[0].value == 1.0 && a.data[1].value == 2.0
    requires b.data[0].value == 3.0 && b.data[1].value == 4.0
    ensures var r := Stack([a, b]);
      && r[0].data[0].stackedValueBelow == 0.0 && r[0].data[1].stackedValueBelow == 0.0
      && r[0].data[0].stackedValue == 1.0 && r[0].data[1].stackedValue == 2.0
      && r[1].data[0].stackedValueBelow == 1.0 && r[1].data[1].stackedValueBelow == 2.0
      && r[1].data[0].stackedValue == 4.0 && r[1].data[1].stackedValue == 6.0
      && BelowTotal(r[0]) == 0.0 && BelowTotal(r[1]) == 3.0
      && BottomIndex(r) == 0
      && BaselineSeries(r).data == [BaselinePoint(r[0].data[0], 2), BaselinePoint(r[0].data[1], 2)]
  {
    var ss := [a, b];
    var r := Stack(ss);
    assert SitsOn(r, 1, 0) && SitsOn(r, 1, 1);
    assert StackedFrom(r[1].data[0], b.data[0]) && StackedFrom(r[1].data[1], b.data[1]);
    assert ReduceBelow(0.0, r[0].data) == ReduceBelow(0.0, r[0].data[1..]) == ReduceBelow(0.0, r[0].data[1..][1..]);
    assert ReduceBelow(0.0, r[1].data) == ReduceBelow(1.0, r[1].data[1..]) == ReduceBelow(3.0, r[1].data[1..][1..]);
    BottomIndexUnique(r, 0);
  }
}
