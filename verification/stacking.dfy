/** The cumulative stacking done in `StackChart.setData`: d3's stack layout
    with its zero offset and input order, whose `out` callback records the
    running offset `y0` as `stackedValueBelow`, `y0 + y` as `stackedValue`,
    and then overwrites `value` with `stackedValue`. */
module Stacking {
  import opened ChartData

  /** `q` is what the `out` callback makes of `p`: the band of `p` sits on
      `q.stackedValueBelow`, its top is that plus the raw value, `value` now
      reads the top, and no other field of the point changes. */
  predicate StackedFrom(q: Point, p: Point) {
    && q.stackedValue == q.stackedValueBelow + p.value
    && q.value == q.stackedValue
    && q.(value := p.value, stackedValue := p.stackedValue, stackedValueBelow := p.stackedValueBelow) == p
  }

  /** The `out` callback applied to one point with running offset `y0`. */
  function Out(p: Point, y0: real): (q: Point)
    ensures StackedFrom(q, p) && q.stackedValueBelow == y0
  {
    p.(stackedValueBelow := y0, stackedValue := y0 + p.value, value := y0 + p.value)
  }

  /** One series stacked on the per-index offsets `below`. */
  function StackSeries(s: Series, below: seq<real>): (t: Series)
    requires |s.data| == |below|
    ensures t == s.(data := t.data) && |t.data| == |s.data|
    ensures forall k :: 0 <= k < |below| ==> StackedFrom(t.data[k], s.data[k]) && t.data[k].stackedValueBelow == below[k]
  {
    s.(data := seq(|below|, k requires 0 <= k < |below| => Out(s.data[k], below[k])))
  }

  /** The offsets for the next series up: this series' tops. */
  function Raise(below: seq<real>, s: Series): (above: seq<real>)
    requires |s.data| == |below|
    ensures |above| == |below|
    ensures forall k :: 0 <= k < |below| ==> above[k] == below[k] + s.data[k].value
    ensures forall k :: 0 <= k < |below| ==> above[k] == StackSeries(s, below).data[k].stackedValue
  {
    seq(|below|, k requires 0 <= k < |below| => below[k] + s.data[k].value)
  }

  /** The chaining relation of a stacked list at series i and x-index k:
      series i sits exactly on top of series i - 1. */
  predicate SitsOn(r: seq<Series>, i: nat, k: nat)
    requires 0 < i < |r| && k < |r[i].data| && k < |r[i - 1].data|
  {
    r[i].data[k].stackedValueBelow == r[i - 1].data[k].stackedValue
  }

  /** Every band of `r` sits on the band below it, at every x-index. */
  predicate Chained(r: seq<Series>) {
    forall i, k :: 0 < i < |r| && 0 <= k < |r[i].data| && k < |r[i - 1].data| ==> SitsOn(r, i, k)
  }

  /** Putting a band under a chained stack keeps it chained when the new
      band's tops are the old lowest band's bottoms. */
  lemma ChainedCons(first: Series, rest: seq<Series>)
    requires Chained(rest)
    requires |rest| > 0 ==> |first.data| == |rest[0].data|
    requires |rest| > 0 ==> forall k :: 0 <= k < |first.data| ==> rest[0].data[k].stackedValueBelow == first.data[k].stackedValue
    ensures Chained([first] + rest)
  {
    var r := [first] + rest;
    forall i, k | 0 < i < |r| && 0 <= k < |r[i].data| && k < |r[i - 1].data|
      ensures SitsOn(r, i, k)
    {
      if i > 1 {
        assert r[i] == rest[i - 1] && r[i - 1] == rest[i - 2];
        assert SitsOn(rest, i - 1, k);
      }
    }
  }

  /** Stacks `ss` bottom to top, the lowest series resting on `below`. */
  function StackFrom(ss: seq<Series>, below: seq<real>): (r: seq<Series>)
    requires forall i :: 0 <= i < |ss| ==> |ss[i].data| == |below|
    ensures |r| == |ss|
    ensures forall i :: 0 <= i < |ss| ==> r[i] == ss[i].(data := r[i].data) && |r[i].data| == |below|
    ensures forall i, k :: 0 <= i < |ss| && 0 <= k < |below| ==> StackedFrom(r[i].data[k], ss[i].data[k])
    ensures |ss| > 0 ==> forall k :: 0 <= k < |below| ==> r[0].data[k].stackedValueBelow == below[k]
    ensures Chained(r)
    decreases |ss|
  {
    if |ss| == 0 then []
    else
      var first := StackSeries(ss[0], below);
      var rest := StackFrom(ss[1..], Raise(below, ss[0]));
      ChainedCons(first, rest);
      [first] + rest
  }

  /** The whole stack layout: every x-index starts from offset zero. */
  function Stack(ss: seq<Series>): (r: seq<Series>)
    requires Aligned(ss)
    ensures |r| == |ss|
    ensures forall i :: 0 <= i < |ss| ==> r[i] == ss[i].(data := r[i].data) && |r[i].data| == Width(ss)
    ensures forall i, k :: 0 <= i < |ss| && 0 <= k < Width(ss) ==> StackedFrom(r[i].data[k], ss[i].data[k])
    ensures |ss| > 0 ==> forall k :: 0 <= k < Width(ss) ==> r[0].data[k].stackedValueBelow == 0.0
    ensures Chained(r)
  {
    StackFrom(ss, seq(Width(ss), _ => 0.0))
  }

  /** Closed form: a point's band starts at the sum of the raw values of the
      series below it at the same x-index, and ends at that sum plus its own. */
  lemma {:induction false} StackClosedForm(ss: seq<Series>, i: nat, k: nat)
    requires Aligned(ss) && i < |ss| && k < Width(ss)
    ensures Stack(ss)[i].data[k].stackedValueBelow == Sum(ColumnAt(ss, k)[..i])
    ensures Stack(ss)[i].data[k].stackedValue == Sum(ColumnAt(ss, k)[..i + 1])
  {
    var r := Stack(ss);
    var col := ColumnAt(ss, k);
    if i == 0 {
      assert col[..0] == [];
    } else {
      StackClosedForm(ss, i - 1, k);
      assert SitsOn(r, i, k);
    }
    SumPrefixStep(col, i);
  }

  /** Conservation: the top of the last band at x-index k is the total of
      all raw values at k. */
  lemma StackConservesColumnTotal(ss: seq<Series>, k: nat)
    requires Aligned(ss) && |ss| > 0 && k < Width(ss)
    ensures Stack(ss)[|ss| - 1].data[k].stackedValue == Sum(ColumnAt(ss, k))
  {
    StackClosedForm(ss, |ss| - 1, k);
    assert ColumnAt(ss, k)[..|ss|] == ColumnAt(ss, k);
  }

  /** With non-negative data, band bottoms rise (weakly) up the stack. */
  lemma {:induction false} StackBelowMonotone(ss: seq<Series>, i: nat, j: nat, k: nat)
    requires Aligned(ss) && NonNegative(ss)
    requires i <= j < |ss| && k < Width(ss)
    ensures Stack(ss)[i].data[k].stackedValueBelow <= Stack(ss)[j].data[k].stackedValueBelow
    decreases j - i
  {
    if i < j {
      var r := Stack(ss);
      StackBelowMonotone(ss, i, j - 1, k);
      assert SitsOn(r, j, k);
      assert StackedFrom(r[j - 1].data[k], ss[j - 1].data[k]);
    }
  }

  /** With non-negative data no band starts below zero. */
  lemma StackBelowNonNegative(ss: seq<Series>, i: nat, k: nat)
    requires Aligned(ss) && NonNegative(ss)
    requires i < |ss| && k < Width(ss)
    ensures Stack(ss)[i].data[k].stackedValueBelow >= 0.0
  {
    StackBelowMonotone(ss, 0, i, k);
  }

  /** Stacking in the order d3 runs its `out` callbacks: x-index by x-index,
      and within one x-index up the series list, adding to the running offset
      the raw values d3 reads before any callback overwrites `value`. */
  method StackByColumn(ss: seq<Series>) returns (r: seq<Series>)
    requires Aligned(ss)
    ensures r == Stack(ss)
  {
    r := ss;
    if |ss| == 0 {
      return;
    }
    var m := |ss[0].data|;
    ghost var goal := Stack(ss);
    var j := 0;
    while j < m
      invariant 0 <= j <= m
      invariant |r| == |ss|
      invariant forall i :: 0 <= i < |ss| ==> r[i] == ss[i].(data := r[i].data) && |r[i].data| == m
      invariant forall i, k :: 0 <= i < |ss| && 0 <= k < m ==> r[i].data[k] == (if k < j then goal[i].data[k] else ss[i].data[k])
    {
      var y0 := 0.0;
      var i := 0;
      while i < |ss|
        invariant 0 <= i <= |ss|
        invariant |r| == |ss|
        invariant forall i' :: 0 <= i' < |ss| ==> r[i'] == ss[i'].(data := r[i'].data) && |r[i'].data| == m
        invariant forall i', k :: 0 <= i' < |ss| && 0 <= k < m ==>
          r[i'].data[k] == (if k < j || (k == j && i' < i) then goal[i'].data[k] else ss[i'].data[k])
        invariant y0 == Sum(ColumnAt(ss, j)[..i])
      {
        StackClosedForm(ss, i, j);
        var y := ss[i].data[j].value;
        r := r[i := r[i].(data := r[i].data[j := Out(r[i].data[j], y0)])];
        y0 := y0 + y;
        i := i + 1;
      }
      j := j + 1;
    }
    forall i | 0 <= i < |ss|
      ensures r[i] == goal[i]
    {
      assert r[i].data == goal[i].data;
    }
  }
}
