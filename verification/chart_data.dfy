/** The records a stack chart works on: line-chart series whose data points
    carry the two fields the stacking layout adds (`stackedValueBelow` and
    `stackedValue`), and the sums the layout is stated in terms of.
    Chart numbers are modelled as `real`. */
module ChartData {

  /** The category (x) value of a data point, as the data view delivers it. */
  datatype CategoryValue = CategoryText(text: string) | CategoryNumber(number: real) | NoCategory

  /** The selection identity of a series; only its key is observed here. */
  datatype Identity = Identity(key: string)

  /** A data-view metadata column, observed only by its query name. */
  datatype Column = Column(queryName: string)

  /** A stream-chart data point. Before stacking the two stacked fields hold
      whatever the line chart left there; stacking overwrites them. */
  datatype Point = Point(
    categoryValue: CategoryValue,
    categoryIndex: int,
    seriesIndex: int,
    key: string,
    value: real,
    stackedValue: real,
    stackedValueBelow: real)

  /** A line-chart series: one band of the stack. */
  datatype Series = Series(
    key: string,
    lineIndex: int,
    color: string,
    xCol: Column,
    yCol: Column,
    identity: Identity,
    selected: bool,
    data: seq<Point>)

  /** Every series has as many points as the first one: the x-index k names
      the same category in every series. */
  predicate Aligned(ss: seq<Series>) {
    forall i :: 0 <= i < |ss| ==> |ss[i].data| == |ss[0].data|
  }

  /** The number of x positions of an aligned series list. */
  function Width(ss: seq<Series>): nat {
    if |ss| == 0 then 0 else |ss[0].data|
  }

  /** All raw values are non-negative. */
  predicate NonNegative(ss: seq<Series>) {
    forall i, k :: 0 <= i < |ss| && 0 <= k < |ss[i].data| ==> ss[i].data[k].value >= 0.0
  }

  /** The values of all series at x-index k, in list (stack) order. */
  function ColumnAt(ss: seq<Series>, k: nat): (col: seq<real>)
    requires Aligned(ss) && k < Width(ss)
    ensures |col| == |ss|
    ensures forall i :: 0 <= i < |ss| ==> col[i] == ss[i].data[k].value
  {
    seq(|ss|, i requires 0 <= i < |ss| => ss[i].data[k].value)
  }

  /** The sum of a sequence of numbers. */
  function Sum(xs: seq<real>): real {
    if |xs| == 0 then 0.0 else xs[0] + Sum(xs[1..])
  }

  lemma {:induction false} SumAppend(xs: seq<real>, x: real)
    ensures Sum(xs + [x]) == Sum(xs) + x
  {
    if |xs| == 0 {
      assert xs + [x] == [x];
      assert [x][1..] == [];
    } else {
      assert (xs + [x])[1..] == xs[1..] + [x];
      SumAppend(xs[1..], x);
    }
  }

  /** A prefix sum grows by exactly the next element. */
  lemma SumPrefixStep(xs: seq<real>, i: nat)
    requires i < |xs|
    ensures Sum(xs[..i + 1]) == Sum(xs[..i]) + xs[i]
  {
    assert xs[..i + 1] == xs[..i] + [xs[i]];
    SumAppend(xs[..i], xs[i]);
  }
}
