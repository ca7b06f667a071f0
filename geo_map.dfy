/**
 * The city performance map: a colour band per region for the selected
 * metric, and the region list filtered by a search term and ordered by that
 * metric.
 */
module GeoMap {
  import opened Wrappers
  import Sorting
  import Text

  datatype Region = Region(region: string, spend: real, impressions: real, clicks: real,
                           ctr: real, reach: real, frequency: real)

  datatype Metric = Ctr | Spend | Reach

  /** The four colour bands, best first. */
  datatype Band = Green | Blue | Yellow | Red

  /** The band's place in the scale: 3 for green down to 0 for red. */
  function Rank(b: Band): nat {
    match b
    case Green => 3
    case Blue => 2
    case Yellow => 1
    case Red => 0
  }

  /** `getMetricValue`. */
  function MetricValue(r: Region, m: Metric): (v: real)
    ensures m == Ctr ==> v == r.ctr
    ensures m == Spend ==> v == r.spend
    ensures m == Reach ==> v == r.reach
  {
    match m
    case Ctr => r.ctr
    case Spend => r.spend
    case Reach => r.reach
  }

  /** The click-through bands: 3 % and above green, 2 % blue, 1 % yellow, below red. */
  function CtrBand(v: real): Band {
    if v >= 3.0 then Green else if v >= 2.0 then Blue else if v >= 1.0 then Yellow else Red
  }

  /** The share bands: three quarters of the maximum and above green, a half blue, a quarter yellow, below red. */
  function RatioBand(ratio: real): Band {
    if ratio >= 0.75 then Green else if ratio >= 0.5 then Blue else if ratio >= 0.25 then Yellow else Red
  }

  /** The largest value of a metric in the data, None for no data (where `Math.max()` is −∞). */
  function MaxOf(data: seq<Region>, m: Metric): (r: Option<real>)
    ensures r.None? <==> data == []
    ensures r.Some? ==> (forall k :: 0 <= k < |data| ==> MetricValue(data[k], m) <= r.value)
                        && exists k :: 0 <= k < |data| && MetricValue(data[k], m) == r.value
  {
    if data == [] then None
    else
      var last := MetricValue(data[|data| - 1], m);
      match MaxOf(data[..|data| - 1], m)
      case None => Some(last)
      case Some(x) => Some(if x >= last then x else last)
  }

  /**
   * `value / max` banded as JavaScript compares it: a zero maximum makes a
   * positive value +∞ (green) and anything else −∞ or NaN (red); a maximum of
   * −∞ makes every finite value 0 or −0 (red).
   */
  function ShareBand(value: real, max: Option<real>): Band {
    match max
    case None => Red
    case Some(x) => if x == 0.0 then (if value > 0.0 then Green else Red) else RatioBand(value / x)
  }

  /** `getPerformanceColor(value, metric)` over the whole data set. */
  function PerformanceColor(value: real, m: Metric, data: seq<Region>): Band {
    if m == Ctr then CtrBand(value) else ShareBand(value, MaxOf(data, m))
  }

  /** The region holding a positive maximum is always green. */
  lemma MaximumIsGreen(data: seq<Region>, m: Metric, k: nat)
    requires m != Ctr && k < |data|
    requires MaxOf(data, m).Some? && MetricValue(data[k], m) == MaxOf(data, m).value > 0.0
    ensures PerformanceColor(MetricValue(data[k], m), m, data) == Green
  {
    var x := MaxOf(data, m).value;
    assert x / x == 1.0;
  }

  /** The click-through bands never rank a larger rate lower. */
  lemma CtrBandMonotone(v: real, w: real)
    requires v <= w
    ensures Rank(CtrBand(v)) <= Rank(CtrBand(w))
  {
  }

  /**
   * With a maximum that is not negative (spend and reach never are), a larger
   * value never gets a worse band; a negative maximum would turn the order
   * of the ratios around.
   */
  lemma ColorMonotone(v: real, w: real, m: Metric, data: seq<Region>)
    requires v <= w
    requires MaxOf(data, m).Some? ==> MaxOf(data, m).value >= 0.0
    ensures Rank(PerformanceColor(v, m, data)) <= Rank(PerformanceColor(w, m, data))
  {
    if m != Ctr && MaxOf(data, m).Some? && MaxOf(data, m).value > 0.0 {
      var x := MaxOf(data, m).value;
      DivideMonotone(v, w, x);
    }
  }

  lemma DivideMonotone(v: real, w: real, x: real)
    requires v <= w && x > 0.0
    ensures v / x <= w / x
  {
    assert w / x - v / x == (w - v) / x;
  }

  /** The search test: the lower-cased region name contains the lower-cased term. */
  predicate Matches(r: Region, term: string) {
    Text.Contains(Text.Lower(r.region), Text.Lower(term))
  }

  /** The search test as a function. */
  function MatchesTerm(term: string): Region -> bool {
    (x: Region) => Matches(x, term)
  }

  /** `data.filter(...)`: the matching regions, in their order and with their repeats. */
  function Matching(data: seq<Region>, term: string): (r: seq<Region>)
    ensures r == Sorting.Keep(data, MatchesTerm(term))
    ensures |r| <= |data|
  {
    if data == [] then []
    else
      var init, last := data[..|data| - 1], data[|data| - 1];
      assert data == init + [last];
      Sorting.KeepAppend(init, [last], MatchesTerm(term));
      Matching(init, term) + (if Matches(last, term) then [last] else [])
  }

  /** A region is kept exactly when it is in the data and matches the term. */
  lemma {:induction false} MatchingMembers(data: seq<Region>, term: string, x: Region)
    ensures x in Matching(data, term) <==> x in data && Matches(x, term)
  {
    if data != [] {
      var init, last := data[..|data| - 1], data[|data| - 1];
      MatchingMembers(init, term, x);
      assert data == init + [last];
    }
  }

  /** `filteredData`: the matching regions, largest value of the selected metric first. */
  function FilteredData(data: seq<Region>, term: string, m: Metric): (r: seq<Region>)
    ensures multiset(r) == multiset(Matching(data, term))
    ensures forall i, j :: 0 <= i < j < |r| ==> MetricValue(r[i], m) >= MetricValue(r[j], m)
    ensures forall v :: Sorting.Keep(r, Sorting.HasKey(MetricOf(m), v)) == Sorting.Keep(Matching(data, term), Sorting.HasKey(MetricOf(m), v))
  {
    Sorting.SortByKeyDescStableAll(Matching(data, term), MetricOf(m));
    Sorting.SortByKeyDesc(Matching(data, term), MetricOf(m))
  }

  /** The sort key of the selected metric. */
  function MetricOf(m: Metric): Region -> real {
    (x: Region) => MetricValue(x, m)
  }

  /** A region is listed exactly when it is in the data and its name contains the term, case aside. */
  lemma FilteredMembers(data: seq<Region>, term: string, m: Metric, x: Region)
    ensures x in FilteredData(data, term, m) <==> x in data && Matches(x, term)
  {
    var r := FilteredData(data, term, m);
    MatchingMembers(data, term, x);
    assert x in r <==> x in multiset(r);
    assert x in Matching(data, term) <==> x in multiset(Matching(data, term));
  }

  /** An empty search term keeps every region, each as often as it occurs. */
  lemma {:induction false} EmptyTermKeepsAll(data: seq<Region>, m: Metric)
    ensures multiset(FilteredData(data, "", m)) == multiset(data)
  {
    MatchingAll(data);
  }

  lemma {:induction false} MatchingAll(data: seq<Region>)
    ensures Matching(data, "") == data
  {
    if data != [] {
      var init, last := data[..|data| - 1], data[|data| - 1];
      MatchingAll(init);
      MatchesEmpty(last);
      assert Matching(data, "") == init + [last];
      assert init + [last] == data;
    }
  }

  /** Every region contains the empty term. */
  lemma MatchesEmpty(r: Region)
    ensures Matches(r, "")
  {
    Text.ContainsEmpty(Text.Lower(r.region));
    assert Text.Lower("") == "";
  }
}
