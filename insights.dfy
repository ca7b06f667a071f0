/**
 * The report folds of MetaAnalyticsService and MetaApiService: daily rows
 * and totals with zero-guarded ratios, purchase extraction from action
 * lists, the funnel's extract helpers and conversion ratios, trend and
 * growth deltas, the geographic city list and per-region spend totals, and
 * the ad-account guards.
 *
 * Numbers in a response row are taken as already parsed; a field that is
 * absent (or does not parse) reads as 0, as `parseFloat(x) || 0` does.
 */
module Insights {
  import opened Wrappers
  import opened Sums
  import Sorting

  /** One entry of an action list: its `action_type` and its numeric fields (`value`, `count`, ...). */
  datatype ActionEntry = ActionEntry(actionType: string, fields: map<string, real>)

  /** One row of an insights response: numeric fields, action lists by field name, `date_start` and `region`. */
  datatype Row = Row(numbers: map<string, real>, lists: map<string, seq<ActionEntry>>, dateStart: string, region: string)

  function Number(row: Row, field: string): real {
    if field in row.numbers then row.numbers[field] else 0.0
  }

  function List(row: Row, field: string): seq<ActionEntry> {
    if field in row.lists then row.lists[field] else []
  }

  function Value(a: ActionEntry, field: string): real {
    if field in a.fields then a.fields[field] else 0.0
  }

  /** `parseInt` of a number's decimal text: truncation toward zero. */
  function Trunc(x: real): (r: int)
    ensures 0.0 <= x ==> 0 <= r && r as real <= x < r as real + 1.0
    ensures x < 0.0 ==> r <= 0 && r as real - 1.0 < x <= r as real
  {
    if x >= 0.0 then x.Floor else -((-x).Floor)
  }

  /** The zero-guarded ratio `den > 0 ? num / den * scale : 0`. */
  function Ratio(num: real, den: real, scale: real): (r: real)
    ensures den > 0.0 ==> r * den == num * scale
    ensures den <= 0.0 ==> r == 0.0
    ensures den > 0.0 && num >= 0.0 && scale >= 0.0 ==> r >= 0.0
  {
    if den > 0.0 then num / den * scale else 0.0
  }

  // ---------------------------------------------------------------- revenue and purchases

  predicate IsPurchase(a: ActionEntry) {
    a.actionType == "purchase"
  }

  function PurchaseValue(a: ActionEntry): real {
    if IsPurchase(a) then Value(a, "value") else 0.0
  }

  function PurchaseCount(a: ActionEntry): real {
    if IsPurchase(a) then Trunc(Value(a, "value")) as real else 0.0
  }

  /** `calculateRevenue`: the summed `value` of the purchase entries of `action_values`. */
  function CalculateRevenue(actionValues: seq<ActionEntry>): real {
    Sum(actionValues, PurchaseValue)
  }

  /** `calculatePurchases`: the summed `parseInt(value)` of the purchase entries of `actions`. */
  function CalculatePurchases(actions: seq<ActionEntry>): real {
    Sum(actions, PurchaseCount)
  }

  /** Appending an entry adds its value if it is a purchase and nothing otherwise. */
  lemma RevenueAppend(s: seq<ActionEntry>, a: ActionEntry)
    ensures CalculateRevenue(s + [a]) == CalculateRevenue(s) + (if IsPurchase(a) then Value(a, "value") else 0.0)
    ensures CalculatePurchases(s + [a]) == CalculatePurchases(s) + (if IsPurchase(a) then Trunc(Value(a, "value")) as real else 0.0)
  {
    assert (s + [a])[..|s|] == s;
  }

  /** Lists without purchase entries (an absent list included) contribute nothing. */
  lemma NoPurchasesNoRevenue(s: seq<ActionEntry>)
    requires forall i :: 0 <= i < |s| ==> !IsPurchase(s[i])
    ensures CalculateRevenue(s) == 0.0 && CalculatePurchases(s) == 0.0
  {
    SumZero(s, PurchaseValue);
    SumZero(s, PurchaseCount);
  }

  // ---------------------------------------------------------------- daily rows and totals

  datatype Day = Day(date: string, spend: real, revenue: real, purchases: real, impressions: real,
                     clicks: real, ctr: real, cpc: real, cpm: real)

  /** One daily row of `transformInsightsData`. */
  function DayOf(row: Row): Day {
    Day(row.dateStart, Number(row, "spend"), CalculateRevenue(List(row, "action_values")),
        CalculatePurchases(List(row, "actions")), Trunc(Number(row, "impressions")) as real,
        Trunc(Number(row, "clicks")) as real, Number(row, "ctr"), Number(row, "cpc"), Number(row, "cpm"))
  }

  datatype Totals = Totals(spend: real, revenue: real, purchases: real, impressions: real, clicks: real)

  /** The `daily.reduce` accumulating the five totals, from the left. */
  function FoldTotals(days: seq<Day>): Totals {
    if days == [] then Totals(0.0, 0.0, 0.0, 0.0, 0.0)
    else
      var acc := FoldTotals(days[..|days| - 1]);
      var d := days[|days| - 1];
      Totals(acc.spend + d.spend, acc.revenue + d.revenue, acc.purchases + d.purchases,
             acc.impressions + d.impressions, acc.clicks + d.clicks)
  }

  /** Each total is the sum of that column of the daily rows. */
  lemma {:induction false} TotalsAreSums(days: seq<Day>)
    ensures FoldTotals(days).spend == Sum(days, (d: Day) => d.spend)
    ensures FoldTotals(days).revenue == Sum(days, (d: Day) => d.revenue)
    ensures FoldTotals(days).purchases == Sum(days, (d: Day) => d.purchases)
    ensures FoldTotals(days).impressions == Sum(days, (d: Day) => d.impressions)
    ensures FoldTotals(days).clicks == Sum(days, (d: Day) => d.clicks)
    decreases |days|
  {
    if days != [] {
      TotalsAreSums(days[..|days| - 1]);
    }
  }

  datatype Metrics = Metrics(totals: Totals, ctr: real, cpc: real, cpm: real, costPerPurchase: real)

  /** The averages over totals, each 0 when its denominator is 0. */
  function MetricsOf(t: Totals): (m: Metrics)
    ensures m.totals == t
    ensures t.impressions > 0.0 ==> m.ctr * t.impressions == 100.0 * t.clicks && m.cpm * t.impressions == 1000.0 * t.spend
    ensures t.clicks > 0.0 ==> m.cpc * t.clicks == t.spend
    ensures t.purchases > 0.0 ==> m.costPerPurchase * t.purchases == t.spend
    ensures t.impressions <= 0.0 ==> m.ctr == 0.0 && m.cpm == 0.0
    ensures t.clicks <= 0.0 ==> m.cpc == 0.0
    ensures t.purchases <= 0.0 ==> m.costPerPurchase == 0.0
  {
    Metrics(t, Ratio(t.clicks, t.impressions, 100.0), Ratio(t.spend, t.clicks, 1.0),
            Ratio(t.spend, t.impressions, 1000.0), Ratio(t.spend, t.purchases, 1.0))
  }

  datatype Report = Report(metrics: Metrics, daily: seq<Day>)

  function DaysOf(data: seq<Row>): (days: seq<Day>)
    ensures |days| == |data| && forall i :: 0 <= i < |data| ==> days[i] == DayOf(data[i])
  {
    if data == [] then [] else DaysOf(data[..|data| - 1]) + [DayOf(data[|data| - 1])]
  }

  /** `transformInsightsData`. */
  function TransformInsightsData(data: seq<Row>): Report {
    var daily := DaysOf(data);
    Report(MetricsOf(FoldTotals(daily)), daily)
  }

  /**
   * One daily row per input row, in order; the totals are the sums over the
   * input rows of spend, purchase revenue, purchase count, impressions and
   * clicks.
   */
  lemma TransformSums(data: seq<Row>)
    ensures var r := TransformInsightsData(data);
      && |r.daily| == |data|
      && (forall i :: 0 <= i < |data| ==> r.daily[i] == DayOf(data[i]))
      && r.metrics.totals.spend == Sum(data, (row: Row) => Number(row, "spend"))
      && r.metrics.totals.revenue == Sum(data, (row: Row) => CalculateRevenue(List(row, "action_values")))
      && r.metrics.totals.purchases == Sum(data, (row: Row) => CalculatePurchases(List(row, "actions")))
      && r.metrics.totals.clicks == Sum(data, (row: Row) => Trunc(Number(row, "clicks")) as real)
      && r.metrics.totals.impressions == Sum(data, (row: Row) => Trunc(Number(row, "impressions")) as real)
  {
    var daily := DaysOf(data);
    TotalsAreSums(daily);
    SumPointwise(daily, (d: Day) => d.spend, data, (row: Row) => Number(row, "spend"));
    SumPointwise(daily, (d: Day) => d.revenue, data, (row: Row) => CalculateRevenue(List(row, "action_values")));
    SumPointwise(daily, (d: Day) => d.purchases, data, (row: Row) => CalculatePurchases(List(row, "actions")));
    SumPointwise(daily, (d: Day) => d.clicks, data, (row: Row) => Trunc(Number(row, "clicks")) as real);
    SumPointwise(daily, (d: Day) => d.impressions, data, (row: Row) => Trunc(Number(row, "impressions")) as real);
  }

  /** An empty report has no rows and every metric 0. */
  lemma EmptyReport()
    ensures TransformInsightsData([]) == Report(Metrics(Totals(0.0, 0.0, 0.0, 0.0, 0.0), 0.0, 0.0, 0.0, 0.0), [])
  {
  }

  // ---------------------------------------------------------------- funnel helpers (MetaApiService)

  /** `extractValue`: the sum of a field over the rows, a missing field counting 0. */
  function ExtractValue(data: seq<Row>, field: string): real {
    Sum(data, (row: Row) => Number(row, field))
  }

  /** The index of the first action of the given type. */
  function FindIndex(actions: seq<ActionEntry>, actionType: string): (r: Option<nat>)
    ensures r.None? <==> forall i :: 0 <= i < |actions| ==> actions[i].actionType != actionType
    ensures r.Some? ==> r.value < |actions| && actions[r.value].actionType == actionType
                        && forall j :: 0 <= j < r.value ==> actions[j].actionType != actionType
  {
    if actions == [] then None
    else if actions[0].actionType == actionType then Some(0)
    else match FindIndex(actions[1..], actionType)
      case None => None
      case Some(i) => Some(i + 1)
  }

  /** `actions.find(a => a.action_type === actionType)`. */
  function FindAction(actions: seq<ActionEntry>, actionType: string): Option<ActionEntry> {
    match FindIndex(actions, actionType)
    case None => None
    case Some(i) => Some(actions[i])
  }

  /** One row's contribution to `extractActionValue`: `valueField` of its first matching action, else 0. */
  function ActionValueOf(row: Row, actionType: string, valueField: string): real {
    match FindAction(List(row, "actions"), actionType)
    case None => 0.0
    case Some(a) => Value(a, valueField)
  }

  /** `extractActionValue(data, actionType, valueField)`; the source's default `valueField` is `"count"`. */
  function ExtractActionValue(data: seq<Row>, actionType: string, valueField: string): real {
    Sum(data, (row: Row) => ActionValueOf(row, actionType, valueField))
  }

  /** Only the first matching action of a row counts, whatever follows it. */
  lemma FirstActionOnly(row: Row, actionType: string, valueField: string, before: seq<ActionEntry>, a: ActionEntry, after: seq<ActionEntry>)
    requires List(row, "actions") == before + [a] + after
    requires a.actionType == actionType
    requires forall i :: 0 <= i < |before| ==> before[i].actionType != actionType
    ensures ActionValueOf(row, actionType, valueField) == Value(a, valueField)
  {
    var s := before + [a] + after;
    assert s[|before|] == a;
    assert forall j :: 0 <= j < |before| ==> s[j] == before[j];
  }

  /** A row without a matching action, or without actions at all, contributes 0. */
  lemma NoActionNoValue(row: Row, actionType: string, valueField: string)
    requires forall i :: 0 <= i < |List(row, "actions")| ==> List(row, "actions")[i].actionType != actionType
    ensures ActionValueOf(row, actionType, valueField) == 0.0
  {
  }

  /** One row's contribution to `extractVideoWatchData`: the `parseInt(value)` of every entry of the field. */
  function VideoWatchOf(row: Row, field: string): real {
    Sum(List(row, field), (a: ActionEntry) => Trunc(Value(a, "value")) as real)
  }

  /** `extractVideoWatchData(data, field)`. */
  function ExtractVideoWatchData(data: seq<Row>, field: string): real {
    Sum(data, (row: Row) => VideoWatchOf(row, field))
  }

  /** Splitting the rows splits each extracted sum. */
  lemma ExtractAppend(a: seq<Row>, b: seq<Row>, field: string, actionType: string, valueField: string)
    ensures ExtractValue(a + b, field) == ExtractValue(a, field) + ExtractValue(b, field)
    ensures ExtractActionValue(a + b, actionType, valueField)
         == ExtractActionValue(a, actionType, valueField) + ExtractActionValue(b, actionType, valueField)
    ensures ExtractVideoWatchData(a + b, field) == ExtractVideoWatchData(a, field) + ExtractVideoWatchData(b, field)
  {
    SumAppend(a, b, (row: Row) => Number(row, field));
    SumAppend(a, b, (row: Row) => ActionValueOf(row, actionType, valueField));
    SumAppend(a, b, (row: Row) => VideoWatchOf(row, field));
  }

  /** `calculateTrend`: the percentage change of a field from the second-last row to the last. */
  function CalculateTrend(data: seq<Row>, field: string): (r: real)
    ensures |data| < 2 ==> r == 0.0
    ensures |data| >= 2 ==>
      var current, previous := Number(data[|data| - 1], field), Number(data[|data| - 2], field);
      (previous == 0.0 ==> r == 0.0) && (previous != 0.0 ==> current == previous * (1.0 + r / 100.0))
  {
    if |data| < 2 then 0.0
    else
      var current, previous := Number(data[|data| - 1], field), Number(data[|data| - 2], field);
      if previous == 0.0 then 0.0 else (current - previous) / previous * 100.0
  }

  datatype Conversion = Conversion(purchases: real, revenue: real, cpa: real, roas: real, conversionRate: real, ltv: real)

  /** The funnel's conversion block; ROAS is revenue over spend, not scaled to a percentage. */
  function ConversionOf(totalSpend: real, purchases: real, revenue: real, clicks: real): (c: Conversion)
    ensures c.purchases == purchases && c.revenue == revenue
    ensures purchases > 0.0 ==> c.cpa * purchases == totalSpend && c.ltv * purchases == revenue
    ensures totalSpend > 0.0 ==> c.roas * totalSpend == revenue
    ensures clicks > 0.0 ==> c.conversionRate * clicks == 100.0 * purchases
    ensures purchases <= 0.0 ==> c.cpa == 0.0 && c.ltv == 0.0
    ensures totalSpend <= 0.0 ==> c.roas == 0.0
    ensures clicks <= 0.0 ==> c.conversionRate == 0.0
  {
    Conversion(purchases, revenue, Ratio(totalSpend, purchases, 1.0), Ratio(revenue, totalSpend, 1.0),
               Ratio(purchases, clicks, 100.0), Ratio(revenue, purchases, 1.0))
  }

  datatype VideoWatched = VideoWatched(p25: real, p50: real, p75: real, p100: real)
  datatype Awareness = Awareness(reach: real, reachTrend: real, frequency: real, impressions: real)
  datatype Consideration = Consideration(clicks: real, ctr: real, landingPageViews: real, video: VideoWatched,
                                         likes: real, comments: real, shares: real, addToCart: real)
  datatype Funnel = Funnel(awareness: Awareness, consideration: Consideration, conversion: Conversion)

  function AwarenessOf(data: seq<Row>): Awareness {
    Awareness(ExtractValue(data, "reach"), CalculateTrend(data, "reach"),
              ExtractValue(data, "frequency"), ExtractValue(data, "impressions"))
  }

  function ConsiderationOf(data: seq<Row>): (c: Consideration)
    ensures c.clicks == ExtractValue(data, "clicks")
  {
    Consideration(
      ExtractValue(data, "clicks"), ExtractValue(data, "ctr"),
      ExtractActionValue(data, "landing_page_view", "count"),
      VideoWatched(ExtractVideoWatchData(data, "video_p25_watched_actions"),
                   ExtractVideoWatchData(data, "video_p50_watched_actions"),
                   ExtractVideoWatchData(data, "video_p75_watched_actions"),
                   ExtractVideoWatchData(data, "video_p100_watched_actions")),
      ExtractActionValue(data, "like", "count"), ExtractActionValue(data, "comment", "count"),
      ExtractActionValue(data, "share", "count"), ExtractActionValue(data, "add_to_cart", "count"))
  }

  /**
   * The funnel of `getFunnelInsights` from its three responses' rows:
   * purchases read the `count` of the first purchase action, revenue its
   * `value`, and the conversion rate divides by the consideration clicks.
   */
  function FunnelOf(awarenessData: seq<Row>, considerationData: seq<Row>, conversionData: seq<Row>): (f: Funnel)
    ensures f.consideration.clicks == ExtractValue(considerationData, "clicks")
    ensures f.conversion.purchases == ExtractActionValue(conversionData, "purchase", "count")
    ensures f.conversion.revenue == ExtractActionValue(conversionData, "purchase", "value")
    ensures f.conversion == ConversionOf(ExtractValue(conversionData, "spend"), f.conversion.purchases,
                                         f.conversion.revenue, f.consideration.clicks)
  {
    var consideration := ConsiderationOf(considerationData);
    var purchases := ExtractActionValue(conversionData, "purchase", "count");
    var revenue := ExtractActionValue(conversionData, "purchase", "value");
    var conversion := ConversionOf(ExtractValue(conversionData, "spend"), purchases, revenue, consideration.clicks);
    Funnel(AwarenessOf(awarenessData), consideration, conversion)
  }

  // ---------------------------------------------------------------- growth (MetaAnalyticsService)

  /** The industry-average CTR the growth estimate falls back on. */
  const AverageCtr: real := 2.0

  /** `calculateGrowth`: spend change against the previous period, else the CTR's distance from the average. */
  function CalculateGrowth(previousSpend: real, currentSpend: real, ctr: real): (g: real)
    ensures previousSpend > 0.0 ==> currentSpend == previousSpend * (1.0 + g / 100.0)
    ensures previousSpend <= 0.0 ==> ctr == AverageCtr * (1.0 + g / 100.0)
  {
    if previousSpend > 0.0 then (currentSpend - previousSpend) / previousSpend * 100.0
    else (ctr - AverageCtr) / AverageCtr * 100.0
  }

  /** Growth is positive exactly when spend rose (or, without a previous period, when the CTR beats the average). */
  lemma GrowthSign(previousSpend: real, currentSpend: real, ctr: real)
    ensures previousSpend > 0.0 ==> (CalculateGrowth(previousSpend, currentSpend, ctr) > 0.0 <==> currentSpend > previousSpend)
    ensures previousSpend <= 0.0 ==> (CalculateGrowth(previousSpend, currentSpend, ctr) > 0.0 <==> ctr > AverageCtr)
  {
    var g := CalculateGrowth(previousSpend, currentSpend, ctr);
    if previousSpend > 0.0 {
      assert currentSpend - previousSpend == previousSpend * (g / 100.0);
    } else {
      assert ctr - AverageCtr == AverageCtr * (g / 100.0);
    }
  }

  /** The growth of a geographic row as MetaAnalyticsService computes it. */
  function RowGrowth(row: Row): real {
    CalculateGrowth(Number(row, "spend_prev"), Number(row, "spend"), Number(row, "ctr"))
  }

  // ---------------------------------------------------------------- geographic insights (MetaApiService)

  datatype City = City(region: string, spend: real, impressions: real, clicks: real, ctr: real,
                       reach: real, frequency: real, growth: real)

  /** A city row; the API's CTR fraction becomes a percentage. */
  function CityOf(row: Row, growth: real): City {
    City(row.region, Number(row, "spend"), Trunc(Number(row, "impressions")) as real,
         Trunc(Number(row, "clicks")) as real, Number(row, "ctr") * 100.0, Trunc(Number(row, "reach")) as real,
         Number(row, "frequency"), growth)
  }

  function CitiesUnsorted(rows: seq<Row>, growthAt: nat -> real): (r: seq<City>)
    ensures |r| == |rows| && forall i :: 0 <= i < |rows| ==> r[i] == CityOf(rows[i], growthAt(i))
  {
    if rows == [] then [] else CitiesUnsorted(rows[..|rows| - 1], growthAt) + [CityOf(rows[|rows| - 1], growthAt(|rows| - 1))]
  }

  /** The sort key of the city list. */
  function Spend(c: City): real {
    c.spend
  }

  /**
   * The city list, ordered by spend, largest first, cities with equal spend
   * in row order. `growthAt(i)` is the growth of the i-th row:
   * `Math.random() * 60 - 30` in MetaApiService, `RowGrowth` in
   * MetaAnalyticsService.
   */
  function Cities(rows: seq<Row>, growthAt: nat -> real): (r: seq<City>)
    ensures |r| == |rows|
    ensures Sorting.NonIncreasing(r, Spend)
    ensures forall v :: Sorting.Keep(r, Sorting.HasKey(Spend, v)) == Sorting.Keep(CitiesUnsorted(rows, growthAt), Sorting.HasKey(Spend, v))
    ensures multiset(r) == multiset(CitiesUnsorted(rows, growthAt))
    ensures forall i :: 0 <= i < |r| ==> exists j :: 0 <= j < |rows| && r[i] == CityOf(rows[j], growthAt(j))
  {
    var u := CitiesUnsorted(rows, growthAt);
    var r := Sorting.SortByKeyDesc(u, Spend);
    Sorting.SortByKeyDescStableAll(u, Spend);
    forall i | 0 <= i < |r|
      ensures exists j :: 0 <= j < |rows| && r[i] == CityOf(rows[j], growthAt(j))
    {
      assert r[i] in multiset(u);
      var j :| 0 <= j < |u| && u[j] == r[i];
    }
    r
  }

  /** Every city's CTR is the row's CTR fraction scaled to a percentage. */
  lemma CityCtrIsPercent(rows: seq<Row>, growthAt: nat -> real, i: nat)
    requires i < |rows|
    ensures exists j :: 0 <= j < |rows| && Cities(rows, growthAt)[i].ctr == 100.0 * Number(rows[j], "ctr")
  {
    var j :| 0 <= j < |rows| && Cities(rows, growthAt)[i] == CityOf(rows[j], growthAt(j));
    assert Cities(rows, growthAt)[i].ctr == 100.0 * Number(rows[j], "ctr");
  }

  /** The `reduce` building the per-region spend totals. */
  function RegionTotals(rows: seq<Row>): map<string, real> {
    if rows == [] then map[]
    else
      var acc := RegionTotals(rows[..|rows| - 1]);
      var row := rows[|rows| - 1];
      acc[row.region := (if row.region in acc then acc[row.region] else 0.0) + Number(row, "spend")]
  }

  /** The spend of the rows of one region. */
  function RegionSpend(rows: seq<Row>, region: string): real {
    Sum(rows, (row: Row) => if row.region == region then Number(row, "spend") else 0.0)
  }

  /** The totals map has one key per region that occurs, holding the summed spend of that region's rows. */
  lemma {:induction false} RegionTotalsAreSums(rows: seq<Row>)
    ensures forall region :: region in RegionTotals(rows) <==> exists i :: 0 <= i < |rows| && rows[i].region == region
    ensures forall region :: region in RegionTotals(rows) ==> RegionTotals(rows)[region] == RegionSpend(rows, region)
    decreases |rows|
  {
    if rows != [] {
      var init := rows[..|rows| - 1];
      RegionTotalsAreSums(init);
      forall region | region in RegionTotals(rows)
        ensures RegionTotals(rows)[region] == RegionSpend(rows, region)
      {
        if region !in RegionTotals(init) {
          forall i | 0 <= i < |init|
            ensures (if init[i].region == region then Number(init[i], "spend") else 0.0) == 0.0
          {
          }
          SumZero(init, (row: Row) => if row.region == region then Number(row, "spend") else 0.0);
        }
      }
      forall region | exists i :: 0 <= i < |rows| && rows[i].region == region
        ensures region in RegionTotals(rows)
      {
        var i :| 0 <= i < |rows| && rows[i].region == region;
        if i < |init| {
          assert init[i].region == region;
        }
      }
    }
  }

  datatype SpendDay = SpendDay(date: string, spend: real, region: string)

  function SpendDays(rows: seq<Row>): (r: seq<SpendDay>)
    ensures |r| == |rows| && forall i :: 0 <= i < |rows| ==> r[i] == SpendDay(rows[i].dateStart, Number(rows[i], "spend"), rows[i].region)
  {
    if rows == [] then [] else SpendDays(rows[..|rows| - 1]) + [SpendDay(rows[|rows| - 1].dateStart, Number(rows[|rows| - 1], "spend"), rows[|rows| - 1].region)]
  }

  datatype Geo = Geo(cities: seq<City>, daily: seq<SpendDay>, totals: map<string, real>)

  function GeoOf(rows: seq<Row>, growthAt: nat -> real): Geo {
    Geo(Cities(rows, growthAt), SpendDays(rows), RegionTotals(rows))
  }

  // ---------------------------------------------------------------- service calls and guards

  /** What a service call returns, and how many requests it put on the queue. */
  datatype Call<T> = Call(result: Result<T>, requests: nat)

  /** A falsy ad-account id (absent or empty) fails the call. */
  predicate HasAccount(accountId: Option<string>) {
    accountId.Some? && accountId.value != ""
  }

  /**
   * `getGeoInsights` of MetaApiService: without an account it throws before
   * queueing anything; otherwise it makes one request, whose failure it
   * rethrows. `draw(i)` is the `Math.random()` drawn for the i-th row.
   */
  function GetGeoInsights(accountId: Option<string>, response: Result<seq<Row>>, draw: nat -> real): (c: Call<Geo>)
    ensures !HasAccount(accountId) <==> c == Call(Err("Ad account ID is required for geo insights"), 0)
    ensures HasAccount(accountId) ==> c.requests == 1 && (c.result.Ok? <==> response.Ok?)
    ensures HasAccount(accountId) && response.Err? ==> c.result == Err(response.message)
  {
    if !HasAccount(accountId) then Call(Err("Ad account ID is required for geo insights"), 0)
    else match response
      case Err(m) => Call(Err(m), 1)
      case Ok(rows) => Call(Ok(GeoOf(rows, (i: nat) => draw(i) * 60.0 - 30.0)), 1)
  }

  /** With `Math.random()` in [0, 1), every city's simulated growth lies in [-30, 30). */
  lemma GeoGrowthBounded(accountId: Option<string>, rows: seq<Row>, draw: nat -> real, i: nat)
    requires forall k: nat :: 0.0 <= draw(k) < 1.0
    requires HasAccount(accountId) && i < |rows|
    ensures var c := GetGeoInsights(accountId, Ok(rows), draw);
            c.result.Ok? && -30.0 <= c.result.value.cities[i].growth < 30.0
  {
    var g := (k: nat) => draw(k) * 60.0 - 30.0;
    var cities := Cities(rows, g);
    var j :| 0 <= j < |rows| && cities[i] == CityOf(rows[j], g(j));
    assert 0.0 <= draw(j) < 1.0;
  }

  /**
   * `getFunnelInsights` of MetaApiService: without an account it throws
   * before queueing anything; otherwise it queues the awareness,
   * consideration and conversion requests and fails with the first failure
   * among them.
   */
  function GetFunnelInsights(accountId: Option<string>, awareness: Result<seq<Row>>, consideration: Result<seq<Row>>,
                             conversion: Result<seq<Row>>): (c: Call<Funnel>)
    ensures !HasAccount(accountId) <==> c == Call(Err("Ad account ID is required for funnel insights"), 0)
    ensures HasAccount(accountId) ==> c.requests == 3
    ensures HasAccount(accountId) ==> (c.result.Ok? <==> awareness.Ok? && consideration.Ok? && conversion.Ok?)
    ensures HasAccount(accountId) && awareness.Err? ==> c.result == Err(awareness.message)
  {
    if !HasAccount(accountId) then Call(Err("Ad account ID is required for funnel insights"), 0)
    else if awareness.Err? then Call(Err(awareness.message), 3)
    else if consideration.Err? then Call(Err(consideration.message), 3)
    else if conversion.Err? then Call(Err(conversion.message), 3)
    else Call(Ok(FunnelOf(awareness.value, consideration.value, conversion.value)), 3)
  }
}
