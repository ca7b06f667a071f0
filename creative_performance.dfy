/**
 * The creative performance panel: creatives newest first, the six most
 * recent shown as cards and the rest behind a toggle, totals over all of
 * them, a highlighted click-through badge and an icon per creative type.
 */
module CreativePerformance {
  import opened Wrappers
  import Sorting
  import Sums
  import Text

  /**
   * A creative as the panel receives it. The launch date is the instant its
   * date text denotes, in milliseconds; None when the text is absent or empty.
   */
  datatype Creative = Creative(id: string, name: string, kind: string,
                               impressions: Option<real>, clicks: Option<real>, conversions: Option<real>,
                               ctr: Option<real>, spend: Option<real>, launchDate: Option<int>)

  /** `x || 0` for a number that may be missing. */
  function OrZero(x: Option<real>): real {
    x.GetOr(0.0)
  }

  /** The sort key: the launch instant, or the epoch for an undated creative. */
  function LaunchTime(c: Creative): real {
    match c.launchDate
    case Some(t) => t as real
    case None => 0.0
  }

  /** `[...creatives].sort(...)`: newest first, on a copy. */
  function SortedCreatives(creatives: seq<Creative>): (r: seq<Creative>)
    ensures multiset(r) == multiset(creatives)
    ensures Sorting.NonIncreasing(r, LaunchTime)
    ensures forall t :: Sorting.Keep(r, Sorting.HasKey(LaunchTime, t)) == Sorting.Keep(creatives, Sorting.HasKey(LaunchTime, t))
  {
    Sorting.SortByKeyDescStableAll(creatives, LaunchTime);
    Sorting.SortByKeyDesc(creatives, LaunchTime)
  }

  /** The number of cards shown before the toggle. */
  const RecentCount: nat := 6

  /** `sorted.slice(0, 6)`. */
  function Recent(creatives: seq<Creative>): seq<Creative> {
    var s := SortedCreatives(creatives);
    s[..if |s| < RecentCount then |s| else RecentCount]
  }

  /** `sorted.slice(6)`. */
  function Remaining(creatives: seq<Creative>): seq<Creative> {
    var s := SortedCreatives(creatives);
    s[if |s| < RecentCount then |s| else RecentCount..]
  }

  /** The two parts split the sorted list: the first `min(6, n)` creatives, then the rest, nothing lost or repeated. */
  lemma SplitSorted(creatives: seq<Creative>)
    ensures Recent(creatives) + Remaining(creatives) == SortedCreatives(creatives)
    ensures |Recent(creatives)| == if |creatives| < RecentCount then |creatives| else RecentCount
    ensures |Remaining(creatives)| == if |creatives| < RecentCount then 0 else |creatives| - RecentCount
  {
    var s := SortedCreatives(creatives);
    assert |s| == |multiset(s)| == |multiset(creatives)| == |creatives|;
  }

  /** Every shown card is at least as new as every creative behind the toggle. */
  lemma RecentNewer(creatives: seq<Creative>, i: nat, j: nat)
    requires i < |Recent(creatives)| && j < |Remaining(creatives)|
    ensures LaunchTime(Recent(creatives)[i]) >= LaunchTime(Remaining(creatives)[j])
  {
    var s := SortedCreatives(creatives);
    var k := if |s| < RecentCount then |s| else RecentCount;
    assert Recent(creatives)[i] == s[i] && Remaining(creatives)[j] == s[k + j];
  }

  /** An undated creative counts as launched at the epoch, so it comes after every creative dated later than the epoch. */
  lemma UndatedAfterDated(creatives: seq<Creative>, i: nat, j: nat)
    requires i < |SortedCreatives(creatives)| && j < |SortedCreatives(creatives)|
    requires SortedCreatives(creatives)[i].launchDate.None?
    requires SortedCreatives(creatives)[j].launchDate.Some? && SortedCreatives(creatives)[j].launchDate.value > 0
    ensures j < i
  {
    var s := SortedCreatives(creatives);
    assert LaunchTime(s[i]) == 0.0 < LaunchTime(s[j]);
  }

  function Impressions(c: Creative): real {
    OrZero(c.impressions)
  }

  function Clicks(c: Creative): real {
    OrZero(c.clicks)
  }

  function Conversions(c: Creative): real {
    OrZero(c.conversions)
  }

  datatype Totals = Totals(impressions: real, clicks: real, conversions: real)

  /** The three summary tiles: sums over every creative, a missing count adding nothing. */
  function TotalsOf(creatives: seq<Creative>): Totals {
    Totals(Sums.Sum(creatives, Impressions), Sums.Sum(creatives, Clicks), Sums.Sum(creatives, Conversions))
  }

  /** The totals cover all creatives, not only the shown ones: they are the same over the sorted list, and they split into the shown and hidden parts. */
  lemma TotalsCoverAll(creatives: seq<Creative>)
    ensures TotalsOf(SortedCreatives(creatives)) == TotalsOf(creatives)
    ensures TotalsOf(creatives).clicks == Sums.Sum(Recent(creatives), Clicks) + Sums.Sum(Remaining(creatives), Clicks)
  {
    var s := SortedCreatives(creatives);
    Sums.SumPermutation(s, creatives, Impressions);
    Sums.SumPermutation(s, creatives, Clicks);
    Sums.SumPermutation(s, creatives, Conversions);
    SplitSorted(creatives);
    Sums.SumAppend(Recent(creatives), Remaining(creatives), Clicks);
  }

  /** Counts that are never negative give totals that are never negative. */
  lemma TotalsNonNegative(creatives: seq<Creative>)
    requires forall i :: 0 <= i < |creatives| ==> Impressions(creatives[i]) >= 0.0
    ensures TotalsOf(creatives).impressions >= 0.0
  {
    Sums.SumNonNegative(creatives, Impressions);
  }

  /** The badge threshold, in percent. */
  const HighCtr: real := 4.0

  /** The badge is highlighted iff the click-through rate is at least 4 %, a missing rate counting as 0. */
  predicate HighlightBadge(c: Creative) {
    OrZero(c.ctr) >= HighCtr
  }

  /** A creative without a rate is never highlighted. */
  lemma MissingCtrPlain(c: Creative)
    requires c.ctr.None?
    ensures !HighlightBadge(c)
  {
  }

  datatype Icon = PlayIcon | CarouselIcon | ImageIcon

  /** `getCreativeIcon`: chosen on the lower-cased type. */
  function CreativeIcon(kind: string): (icon: Icon)
    ensures icon == PlayIcon <==> Text.Lower(kind) == "video"
    ensures icon == CarouselIcon <==> Text.Lower(kind) == "carousel"
  {
    var k := Text.Lower(kind);
    if k == "video" then PlayIcon else if k == "carousel" then CarouselIcon else ImageIcon
  }

  /** The choice ignores case: `VIDEO`, `Video` and `video` get the same icon. */
  lemma IconIgnoresCase(kind: string)
    ensures CreativeIcon(Text.Lower(kind)) == CreativeIcon(kind)
  {
    Text.LowerIdempotent(kind);
  }
}
