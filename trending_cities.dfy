/**
 * The trending cities panel: cities ranked by a blend of click-through rate
 * and growth, the leader highlighted, the others listed and numbered from 2,
 * each with a growth arrow and its rounded magnitude.
 */
module TrendingCities {
  import opened Wrappers
  import Sorting

  datatype CityRow = CityRow(city: string, spend: real, impressions: real, clicks: real, ctr: real, growth: real)

  /** The ranking score `0.7·ctr + 0.3·growth`. */
  function Score(c: CityRow): real {
    c.ctr * 0.7 + c.growth * 0.3
  }

  /** `[...data].sort((a, b) => score(b) − score(a))`: a reordered copy, best score first. */
  function Ranked(data: seq<CityRow>): (r: seq<CityRow>)
    ensures multiset(r) == multiset(data) && |r| == |data|
    ensures Sorting.NonIncreasing(r, Score)
    ensures forall v :: Sorting.Keep(r, Sorting.HasKey(Score, v)) == Sorting.Keep(data, Sorting.HasKey(Score, v))
  {
    Sorting.SortByKeyDescStableAll(data, Score);
    Sorting.SortByKeyDesc(data, Score)
  }

  /** A city below the leader with its displayed rank. */
  datatype Listed = Listed(rank: nat, row: CityRow)

  datatype Panel = NoCityData | Panel(top: CityRow, others: seq<Listed>)

  /** The component: the placeholder for no data, else the leader and the numbered rest. */
  function TrendingPanel(data: seq<CityRow>): (p: Panel)
    ensures p.NoCityData? <==> data == []
    ensures p.Panel? ==> p.top == Ranked(data)[0] && |p.others| == |data| - 1
    ensures p.Panel? ==> forall k :: 0 <= k < |p.others| ==> p.others[k] == Listed(k + 2, Ranked(data)[k + 1])
  {
    if data == [] then NoCityData
    else
      var r := Ranked(data);
      Panel(r[0], seq(|r| - 1, k requires 0 <= k < |r| - 1 => Listed(k + 2, r[k + 1])))
  }

  /** The highlighted city scores at least as well as every city in the data. */
  lemma TopIsBest(data: seq<CityRow>, c: CityRow)
    requires c in data
    ensures TrendingPanel(data).Panel? && Score(TrendingPanel(data).top) >= Score(c)
  {
    Sorting.HeadIsMax(data, Score, c);
  }

  /** The leader and the listed cities are together exactly the cities of the data, each once. */
  lemma PanelCoversData(data: seq<CityRow>)
    requires data != []
    ensures var p := TrendingPanel(data);
            multiset([p.top] + seq(|p.others|, k requires 0 <= k < |p.others| => p.others[k].row)) == multiset(data)
  {
    var p := TrendingPanel(data);
    var r := Ranked(data);
    var rows := seq(|p.others|, k requires 0 <= k < |p.others| => p.others[k].row);
    assert rows == r[1..];
    assert [r[0]] + r[1..] == r;
  }

  /** JavaScript's `Math.round`: halves round up. */
  function Round(x: real): (n: int)
    ensures x - 0.5 < n as real <= x + 0.5
  {
    (x + 0.5).Floor
  }

  function Abs(n: int): nat {
    if n < 0 then -n else n
  }

  datatype Arrow = Up | Down

  /** The growth badge: the arrow and the number shown beside it. */
  datatype Growth = Growth(arrow: Arrow, magnitude: nat)

  function GrowthBadge(growth: real): (g: Growth)
    ensures g.arrow == Up <==> growth >= 0.0
  {
    Growth(if growth >= 0.0 then Up else Down, Abs(Round(growth)))
  }

  /** The number shown is the size of the growth to within a half, and the arrow carries its sign. */
  lemma BadgeMagnitude(growth: real)
    ensures var g := GrowthBadge(growth);
            var size := if growth >= 0.0 then growth else -growth;
            size - 0.5 <= g.magnitude as real <= size + 0.5
  {
  }
}
