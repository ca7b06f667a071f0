/**
 * The age and gender rollups of `MetaAnalyticsService`: rows of an
 * age-by-gender insights breakdown are grouped by key into a `Map` (one
 * bucket per distinct key, in first-seen order, with reach and spend
 * summed), then each bucket's share of the total reach is attached. Age
 * buckets are then ordered by the number before the first `-`.
 */
module Demographics {
  import opened Wrappers
  import opened Sums
  import Text
  import Sorting

  /** One breakdown row, with `parseInt(reach) || 0` and `parseFloat(spend) || 0` already applied. */
  datatype DemoRow = DemoRow(age: string, gender: string, reach: int, spend: real)

  /** One output bucket: `{group | type, percentage, spend, reach}`. */
  datatype Bucket = Bucket(group: string, percentage: real, spend: real, reach: real)

  function ReachOf(r: DemoRow): real {
    r.reach as real
  }

  /** The `totalReach` accumulator after all rows. */
  function TotalReach(data: seq<DemoRow>): real {
    Sum(data, ReachOf)
  }

  /** The age key: `item.age` as given. */
  function AgeKey(r: DemoRow): string {
    r.age
  }

  /** The gender key: `item.gender.toLowerCase()`. */
  function GenderKey(r: DemoRow): string {
    Text.Lower(r.gender)
  }

  // ---------------------------------------------------------------- grouping, as a specification

  /** The distinct keys of `data` in first-seen order (the `Map`'s insertion order). */
  function Groups(data: seq<DemoRow>, key: DemoRow -> string): seq<string> {
    if data == [] then []
    else
      var g := Groups(data[..|data| - 1], key);
      var k := key(data[|data| - 1]);
      if k in g then g else g + [k]
  }

  /** The reach summed over the rows whose key is `g`. */
  function GroupReach(data: seq<DemoRow>, key: DemoRow -> string, g: string): real {
    if data == [] then 0.0
    else GroupReach(data[..|data| - 1], key, g) + (if key(data[|data| - 1]) == g then ReachOf(data[|data| - 1]) else 0.0)
  }

  /** The spend summed over the rows whose key is `g`. */
  function GroupSpend(data: seq<DemoRow>, key: DemoRow -> string, g: string): real {
    if data == [] then 0.0
    else GroupSpend(data[..|data| - 1], key, g) + (if key(data[|data| - 1]) == g then data[|data| - 1].spend else 0.0)
  }

  predicate Distinct(s: seq<string>) {
    forall i, j :: 0 <= i < j < |s| ==> s[i] != s[j]
  }

  /** Each key appears once, and exactly the keys of the rows appear. */
  lemma {:induction false} GroupsAreKeys(data: seq<DemoRow>, key: DemoRow -> string)
    ensures Distinct(Groups(data, key))
    ensures forall g :: g in Groups(data, key) <==> exists i :: 0 <= i < |data| && key(data[i]) == g
    decreases |data|
  {
    if data != [] {
      var prefix := data[..|data| - 1];
      GroupsAreKeys(prefix, key);
      forall g ensures g in Groups(data, key) <==> exists i :: 0 <= i < |data| && key(data[i]) == g {
        if g in Groups(prefix, key) {
          var i :| 0 <= i < |prefix| && key(prefix[i]) == g;
          assert data[i] == prefix[i];
        }
        if exists i :: 0 <= i < |data| && key(data[i]) == g {
          var i :| 0 <= i < |data| && key(data[i]) == g;
          if i < |prefix| {
            assert prefix[i] == data[i];
          }
        }
      }
    }
  }

  /** A key no row carries has no reach. */
  lemma {:induction false} AbsentGroupNoReach(data: seq<DemoRow>, key: DemoRow -> string, g: string)
    requires g !in Groups(data, key)
    ensures GroupReach(data, key, g) == 0.0
    decreases |data|
  {
    if data != [] {
      var prefix := data[..|data| - 1];
      var k := key(data[|data| - 1]);
      assert g != k;
      assert g !in Groups(prefix, key);
      AbsentGroupNoReach(prefix, key, g);
    }
  }

  // ---------------------------------------------------------------- the partition of the total reach

  /** The reach summed over the buckets named in `gs`. */
  function ReachOver(gs: seq<string>, data: seq<DemoRow>, key: DemoRow -> string): real {
    if gs == [] then 0.0 else ReachOver(gs[..|gs| - 1], data, key) + GroupReach(data, key, gs[|gs| - 1])
  }

  /** Adding a row with key `k` adds its reach once to a list of distinct keys holding `k`, and nothing otherwise. */
  lemma {:induction false} ReachOverStep(gs: seq<string>, data: seq<DemoRow>, key: DemoRow -> string)
    requires data != [] && Distinct(gs)
    ensures var x := data[|data| - 1];
            ReachOver(gs, data, key)
            == ReachOver(gs, data[..|data| - 1], key) + (if key(x) in gs then ReachOf(x) else 0.0)
    decreases |gs|
  {
    if gs != [] {
      var init := gs[..|gs| - 1];
      assert Distinct(init);
      ReachOverStep(init, data, key);
      assert gs == init + [gs[|gs| - 1]];
    }
  }

  /** The buckets' reaches add up to the total reach. */
  lemma {:induction false} GroupsPartitionReach(data: seq<DemoRow>, key: DemoRow -> string)
    ensures ReachOver(Groups(data, key), data, key) == TotalReach(data)
    decreases |data|
  {
    if data != [] {
      var prefix := data[..|data| - 1];
      var x := data[|data| - 1];
      var g := Groups(prefix, key);
      GroupsPartitionReach(prefix, key);
      GroupsAreKeys(prefix, key);
      GroupsAreKeys(data, key);
      if key(x) in g {
        ReachOverStep(g, data, key);
      } else {
        ReachOverStep(g, data, key);
        AbsentGroupNoReach(prefix, key, key(x));
        assert (g + [key(x)])[..|g|] == g;
      }
    }
  }

  // ---------------------------------------------------------------- buckets

  /** `totalReach > 0 ? reach / totalReach : 0`. */
  function Share(reach: real, total: real): (r: real)
    ensures total > 0.0 ==> r * total == reach
    ensures total <= 0.0 ==> r == 0.0
  {
    if total > 0.0 then reach / total else 0.0
  }

  /** The bucket entries in `gs` order, read from the accumulated maps. */
  function Entries(gs: seq<string>, reach: map<string, real>, spend: map<string, real>, total: real): (r: seq<Bucket>)
    requires forall g :: g in gs ==> g in reach && g in spend
    ensures |r| == |gs|
    ensures forall i :: 0 <= i < |gs| ==> r[i] == Bucket(gs[i], Share(reach[gs[i]], total), spend[gs[i]], reach[gs[i]])
  {
    if gs == [] then []
    else Entries(gs[..|gs| - 1], reach, spend, total)
         + [Bucket(gs[|gs| - 1], Share(reach[gs[|gs| - 1]], total), spend[gs[|gs| - 1]], reach[gs[|gs| - 1]])]
  }

  /** The bucket of key `g`. */
  function BucketOf(data: seq<DemoRow>, key: DemoRow -> string, g: string): Bucket {
    Bucket(g, Share(GroupReach(data, key, g), TotalReach(data)), GroupSpend(data, key, g), GroupReach(data, key, g))
  }

  /** The buckets before sorting: one per distinct key, in first-seen order. */
  function Unsorted(data: seq<DemoRow>, key: DemoRow -> string): (r: seq<Bucket>)
    ensures |r| == |Groups(data, key)|
  {
    var gs := Groups(data, key);
    seq(|gs|, i requires 0 <= i < |gs| => BucketOf(data, key, gs[i]))
  }

  /** `processGenderData`: the buckets keyed by the lower-cased gender, in first-seen order. */
  function GenderBuckets(data: seq<DemoRow>): seq<Bucket> {
    Unsorted(data, GenderKey)
  }

  // ---------------------------------------------------------------- age ordering

  /** `parseInt(group.split('-')[0])`: `'18-24'` reads as 18 and `'55+'` as 55; None is NaN. */
  function AgeStart(group: string): Option<int> {
    Text.ParseInt(Text.Split(group, "-")[0])
  }

  /** Ascending by age start; a group whose start does not parse goes after every group that does. */
  predicate AgeLe(a: Bucket, b: Bucket) {
    match (AgeStart(a.group), AgeStart(b.group))
    case (Some(x), Some(y)) => x <= y
    case (Some(_), None) => true
    case (None, Some(_)) => false
    case (None, None) => true
  }

  lemma AgeLeTotalPreorder()
    ensures Sorting.TotalPreorder(AgeLe)
  {
  }

  /** `processAgeData`: the age buckets sorted by age start. */
  function AgeBuckets(data: seq<DemoRow>): seq<Bucket> {
    AgeLeTotalPreorder();
    Sorting.SortBy(Unsorted(data, AgeKey), AgeLe)
  }

  // ---------------------------------------------------------------- the loops

  /**
   * The `forEach` over the rows: fills the `Map` of per-key reach and spend
   * (remembering first-seen order) and accumulates `totalReach`.
   */
  method Accumulate(data: seq<DemoRow>, key: DemoRow -> string)
    returns (groups: seq<string>, reach: map<string, real>, spend: map<string, real>, totalReach: real)
    ensures groups == Groups(data, key)
    ensures forall g :: g in reach <==> g in groups
    ensures forall g :: g in spend <==> g in groups
    ensures forall g :: g in groups ==> reach[g] == GroupReach(data, key, g) && spend[g] == GroupSpend(data, key, g)
    ensures totalReach == TotalReach(data)
  {
    groups, reach, spend, totalReach := [], map[], map[], 0.0;
    var i := 0;
    while i < |data|
      invariant 0 <= i <= |data|
      invariant groups == Groups(data[..i], key)
      invariant forall g :: g in reach <==> g in groups
      invariant forall g :: g in spend <==> g in groups
      invariant forall g :: g in groups ==> reach[g] == GroupReach(data[..i], key, g) && spend[g] == GroupSpend(data[..i], key, g)
      invariant totalReach == TotalReach(data[..i])
    {
      var item := data[i];
      var k := key(item);
      assert data[..i + 1][..i] == data[..i];
      totalReach := totalReach + ReachOf(item);
      if k !in reach {
        groups := groups + [k];
        reach := reach[k := 0.0];
        spend := spend[k := 0.0];
        AbsentGroupNoReach(data[..i], key, k);
        AbsentGroupNoSpend(data[..i], key, k);
      }
      reach := reach[k := reach[k] + ReachOf(item)];
      spend := spend[k := spend[k] + item.spend];
      i := i + 1;
    }
    assert data[..i] == data;
  }

  lemma {:induction false} AbsentGroupNoSpend(data: seq<DemoRow>, key: DemoRow -> string, g: string)
    requires g !in Groups(data, key)
    ensures GroupSpend(data, key, g) == 0.0
    decreases |data|
  {
    if data != [] {
      var prefix := data[..|data| - 1];
      assert g !in Groups(prefix, key);
      AbsentGroupNoSpend(prefix, key, g);
    }
  }

  /** `processAgeData`. */
  method ProcessAgeData(data: seq<DemoRow>) returns (buckets: seq<Bucket>)
    ensures buckets == AgeBuckets(data)
  {
    var groups, reach, spend, totalReach := Accumulate(data, AgeKey);
    var entries := Entries(groups, reach, spend, totalReach);
    assert entries == Unsorted(data, AgeKey);
    AgeLeTotalPreorder();
    buckets := Sorting.SortBy(entries, AgeLe);
  }

  /** `processGenderData`. */
  method ProcessGenderData(data: seq<DemoRow>) returns (buckets: seq<Bucket>)
    ensures buckets == GenderBuckets(data)
  {
    var groups, reach, spend, totalReach := Accumulate(data, GenderKey);
    buckets := Entries(groups, reach, spend, totalReach);
    assert buckets == Unsorted(data, GenderKey);
  }

  // ---------------------------------------------------------------- what the rollups promise

  function Percentage(b: Bucket): real {
    b.percentage
  }

  function BucketReach(b: Bucket): real {
    b.reach
  }

  /** The unsorted buckets' reaches add up to the total reach. */
  lemma UnsortedReach(data: seq<DemoRow>, key: DemoRow -> string)
    ensures Sum(Unsorted(data, key), BucketReach) == TotalReach(data)
  {
    UnsortedReachUpTo(data, key, |Groups(data, key)|);
    assert Groups(data, key)[..|Groups(data, key)|] == Groups(data, key);
    assert Unsorted(data, key)[..|Groups(data, key)|] == Unsorted(data, key);
    GroupsPartitionReach(data, key);
  }

  lemma {:induction false} UnsortedReachUpTo(data: seq<DemoRow>, key: DemoRow -> string, n: nat)
    requires n <= |Groups(data, key)|
    ensures Sum(Unsorted(data, key)[..n], BucketReach) == ReachOver(Groups(data, key)[..n], data, key)
  {
    if n > 0 {
      UnsortedReachUpTo(data, key, n - 1);
      assert Unsorted(data, key)[..n][..n - 1] == Unsorted(data, key)[..n - 1];
      assert Groups(data, key)[..n][..n - 1] == Groups(data, key)[..n - 1];
    }
  }

  /** With positive total reach, the shares of reach add up to 1. */
  lemma {:induction false} SharesSumToOne(buckets: seq<Bucket>, total: real)
    requires total > 0.0
    requires forall i :: 0 <= i < |buckets| ==> buckets[i].percentage * total == buckets[i].reach
    requires Sum(buckets, BucketReach) == total
    ensures Sum(buckets, Percentage) == 1.0
  {
    forall i | 0 <= i < |buckets|
      ensures Percentage(buckets[i]) == (1.0 / total) * BucketReach(buckets[i])
    {
      assert buckets[i].percentage == buckets[i].reach / total;
    }
    SumScale(buckets, BucketReach, Percentage, 1.0 / total);
  }

  /** Gender shares add up to 1 when the total reach is positive. */
  lemma GenderSharesSumToOne(data: seq<DemoRow>)
    requires TotalReach(data) > 0.0
    ensures Sum(GenderBuckets(data), Percentage) == 1.0
  {
    UnsortedReach(data, GenderKey);
    SharesSumToOne(GenderBuckets(data), TotalReach(data));
  }

  /** Age shares add up to 1 when the total reach is positive; sorting keeps every bucket. */
  lemma AgeSharesSumToOne(data: seq<DemoRow>)
    requires TotalReach(data) > 0.0
    ensures Sum(AgeBuckets(data), Percentage) == 1.0
  {
    var u := Unsorted(data, AgeKey);
    UnsortedReach(data, AgeKey);
    SharesSumToOne(u, TotalReach(data));
    SumPermutation(AgeBuckets(data), u, Percentage);
  }

  /** Without positive total reach every share is 0, for age and gender alike. */
  lemma NoReachNoShares(data: seq<DemoRow>)
    requires TotalReach(data) <= 0.0
    ensures forall b :: b in AgeBuckets(data) ==> b.percentage == 0.0
    ensures forall b :: b in GenderBuckets(data) ==> b.percentage == 0.0
  {
    forall b | b in AgeBuckets(data)
      ensures b.percentage == 0.0
    {
      assert b in multiset(Unsorted(data, AgeKey));
    }
  }

  /** One gender bucket per distinct lower-cased gender, first-seen order, with that key's sums. */
  lemma GenderBucketsPerKey(data: seq<DemoRow>)
    ensures Distinct(Groups(data, GenderKey))
    ensures |GenderBuckets(data)| == |Groups(data, GenderKey)|
    ensures forall i :: 0 <= i < |GenderBuckets(data)| ==>
              GenderBuckets(data)[i].group == Groups(data, GenderKey)[i]
              && GenderBuckets(data)[i].reach == GroupReach(data, GenderKey, Groups(data, GenderKey)[i])
              && GenderBuckets(data)[i].spend == GroupSpend(data, GenderKey, Groups(data, GenderKey)[i])
    ensures forall j :: 0 <= j < |data| ==> exists i :: 0 <= i < |GenderBuckets(data)| && GenderBuckets(data)[i].group == Text.Lower(data[j].gender)
  {
    GroupsAreKeys(data, GenderKey);
    forall j | 0 <= j < |data|
      ensures exists i :: 0 <= i < |GenderBuckets(data)| && GenderBuckets(data)[i].group == Text.Lower(data[j].gender)
    {
      assert GenderKey(data[j]) in Groups(data, GenderKey);
      var i :| 0 <= i < |Groups(data, GenderKey)| && Groups(data, GenderKey)[i] == GenderKey(data[j]);
      assert GenderBuckets(data)[i].group == Text.Lower(data[j].gender);
    }
  }

  /** Every row's age group has exactly one bucket, carrying that group's sums. */
  lemma AgeBucketPerKey(data: seq<DemoRow>, j: nat)
    requires j < |data|
    ensures exists i :: 0 <= i < |AgeBuckets(data)| && AgeBuckets(data)[i] == BucketOf(data, AgeKey, data[j].age)
    ensures forall i, k :: 0 <= i < k < |AgeBuckets(data)| ==> AgeBuckets(data)[i].group != AgeBuckets(data)[k].group
  {
    var u := Unsorted(data, AgeKey);
    var r := AgeBuckets(data);
    var gs := Groups(data, AgeKey);
    GroupsAreKeys(data, AgeKey);
    assert AgeKey(data[j]) in gs;
    var m :| 0 <= m < |gs| && gs[m] == data[j].age;
    assert u[m] in multiset(r);
    forall i, k | 0 <= i < k < |r|
      ensures r[i].group != r[k].group
    {
      AgeGroupsUnique(data, r, i, k);
    }
  }

  lemma AgeGroupsUnique(data: seq<DemoRow>, r: seq<Bucket>, i: nat, k: nat)
    requires r == AgeBuckets(data) && i < k < |r|
    requires Distinct(Groups(data, AgeKey))
    ensures r[i].group != r[k].group
  {
    var u := Unsorted(data, AgeKey);
    assert multiset(r) == multiset(u);
    forall c, d | 0 <= c < d < |u| ensures u[c].group != u[d].group {
    }
    GroupsKept(r, u, i, k);
  }

  /** A rearrangement of buckets with distinct groups has distinct groups. */
  lemma GroupsKept(r: seq<Bucket>, u: seq<Bucket>, i: nat, k: nat)
    requires multiset(r) == multiset(u)
    requires forall c, d :: 0 <= c < d < |u| ==> u[c].group != u[d].group
    requires i < k < |r|
    ensures r[i].group != r[k].group
  {
    assert r[i] in multiset(u) && r[k] in multiset(u);
    var a :| 0 <= a < |u| && u[a] == r[i];
    var b :| 0 <= b < |u| && u[b] == r[k];
    if a == b {
      Twice(r, i, k);
      forall c, d | 0 <= c < d < |u| ensures u[c] != u[d] {
        assert u[c].group != u[d].group;
      }
      Once(u, a);
      assert false;
    }
  }

  /** An element that stands at two positions occurs at least twice. */
  lemma Twice<T>(s: seq<T>, i: nat, k: nat)
    requires i < k < |s| && s[i] == s[k]
    ensures multiset(s)[s[i]] >= 2
  {
    assert s == s[..k] + [s[k]] + s[k + 1..];
    assert s[i] in s[..k];
    assert multiset(s[..k])[s[i]] >= 1;
  }

  /** In a sequence without repeats every element occurs once. */
  lemma Once<T>(s: seq<T>, a: nat)
    requires a < |s|
    requires forall c, d :: 0 <= c < d < |s| ==> s[c] != s[d]
    ensures multiset(s)[s[a]] == 1
  {
    assert s == s[..a] + [s[a]] + s[a + 1..];
    assert s[a] !in s[..a] && s[a] !in s[a + 1..];
    assert multiset(s[..a])[s[a]] == 0 && multiset(s[a + 1..])[s[a]] == 0;
  }

  /** Age buckets come in ascending order of their age start, unparsable groups last. */
  lemma AgeBucketsAscending(data: seq<DemoRow>, i: nat, j: nat)
    requires i < j < |AgeBuckets(data)|
    ensures AgeStart(AgeBuckets(data)[j].group).Some? ==> AgeStart(AgeBuckets(data)[i].group).Some?
    ensures AgeStart(AgeBuckets(data)[i].group).Some? && AgeStart(AgeBuckets(data)[j].group).Some? ==>
              AgeStart(AgeBuckets(data)[i].group).value <= AgeStart(AgeBuckets(data)[j].group).value
  {
    assert AgeLe(AgeBuckets(data)[i], AgeBuckets(data)[j]);
  }
}
