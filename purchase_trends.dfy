/**
 * The purchase trend chart: each day's purchases together with a trailing
 * three-day moving average, or a placeholder when there is no data.
 */
module PurchaseTrends {
  import opened Wrappers
  import Sums

  datatype Day = Day(date: string, purchases: real)

  /** A day with its moving average added. */
  datatype TrendDay = TrendDay(date: string, purchases: real, trend: real)

  datatype Chart = NoPurchaseData | Series(points: seq<TrendDay>)

  function Purchases(d: Day): real {
    d.purchases
  }

  /** `data.slice(max(0, i − 2), i + 1)`: day `i` and up to two days before it. */
  function Window(data: seq<Day>, i: nat): (w: seq<Day>)
    requires i < |data|
    ensures 1 <= |w| <= 3 && |w| <= i + 1 && w[|w| - 1] == data[i]
    ensures forall k :: 0 <= k < |w| ==> w[k] == data[i + 1 - |w| + k]
    ensures i >= 2 ==> |w| == 3
  {
    data[if i < 2 then 0 else i - 2..i + 1]
  }

  /** The mean purchases of the window ending at day `i`. */
  function Average(data: seq<Day>, i: nat): real
    requires i < |data|
  {
    var w := Window(data, i);
    Sums.Sum(w, Purchases) / |w| as real
  }

  /** `movingAverageData`: every day kept, in order, with its trend. */
  function MovingAverage(data: seq<Day>): (r: seq<TrendDay>)
    ensures |r| == |data|
    ensures forall i :: 0 <= i < |data| ==>
              r[i].date == data[i].date && r[i].purchases == data[i].purchases && r[i].trend == Average(data, i)
  {
    seq(|data|, i requires 0 <= i < |data| => TrendDay(data[i].date, data[i].purchases, Average(data, i)))
  }

  /** The component: the placeholder for absent or empty data, the series otherwise. */
  function PurchaseTrendsChart(data: Option<seq<Day>>): (c: Chart)
    ensures c == NoPurchaseData <==> data.None? || data.value == []
    ensures c.Series? ==> |c.points| == |data.value| > 0
  {
    if data.None? || data.value == [] then NoPurchaseData else Series(MovingAverage(data.value))
  }

  /** The first day has no earlier days, so its trend is its own purchases. */
  lemma FirstTrend(data: seq<Day>)
    requires |data| > 0
    ensures MovingAverage(data)[0].trend == data[0].purchases
  {
    var w := Window(data, 0);
    assert w == [data[0]];
    assert Sums.Sum(w, Purchases) == Sums.Sum([], Purchases) + data[0].purchases;
  }

  /** From the third day on the trend is the plain mean of three days. */
  lemma ThreeDayTrend(data: seq<Day>, i: nat)
    requires 2 <= i < |data|
    ensures MovingAverage(data)[i].trend
            == (data[i - 2].purchases + data[i - 1].purchases + data[i].purchases) / 3.0
  {
    var w := Window(data, i);
    var a, b, c := data[i - 2].purchases, data[i - 1].purchases, data[i].purchases;
    assert w[..2][..1][..0] == [];
    assert Sums.Sum(w[..2][..1], Purchases) == a;
    assert Sums.Sum(w[..2], Purchases) == a + b;
    assert Sums.Sum(w, Purchases) == a + b + c;
  }

  /** Bounds on every purchase count in a window bound its trend: it lies between the window's least and largest value. */
  lemma TrendWithinWindow(data: seq<Day>, i: nat, lo: real, hi: real)
    requires i < |data|
    requires forall k :: 0 <= k < |Window(data, i)| ==> lo <= Window(data, i)[k].purchases <= hi
    ensures lo <= MovingAverage(data)[i].trend <= hi
  {
    var w := Window(data, i);
    var n := |w| as real;
    Sums.SumBounds(w, Purchases, lo, hi);
    MeanBetween(Sums.Sum(w, Purchases), n, lo, hi);
  }

  /** A total between `n·lo` and `n·hi` has its mean between `lo` and `hi`. */
  lemma MeanBetween(total: real, n: real, lo: real, hi: real)
    requires n > 0.0 && n * lo <= total <= n * hi
    ensures lo <= total / n <= hi
  {
    assert total / n * n == total;
  }
}
