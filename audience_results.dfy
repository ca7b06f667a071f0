/**
 * The audience result cards: the add button that toggles an audience in the
 * analysis store's chosen interests, and the gender and age breakdowns shown
 * on each card.
 */
module AudienceResults {
  import opened Wrappers
  import opened Stores
  import TrendingCities
  import Sorting

  // ---------------------------------------------------------------- selection

  /** `isInterestSelected(id)`: some chosen interest has that id. */
  predicate IsSelected(interests: seq<MetaAudience>, id: string) {
    exists k :: 0 <= k < |interests| && interests[k].id == id
  }

  /** The filter's test `i => i.id !== id`. */
  function OtherId(id: string): MetaAudience -> bool {
    (i: MetaAudience) => i.id != id
  }

  /** `interests.filter(i => i.id !== id)`: every entry with the id removed, the rest in order and with their repeats. */
  function Without(interests: seq<MetaAudience>, id: string): (r: seq<MetaAudience>)
    ensures r == Sorting.Keep(interests, OtherId(id))
    ensures |r| <= |interests|
    ensures forall k :: 0 <= k < |r| ==> r[k].id != id
  {
    if interests == [] then []
    else
      var init, last := interests[..|interests| - 1], interests[|interests| - 1];
      assert interests == init + [last];
      Sorting.KeepAppend(init, [last], OtherId(id));
      Without(init, id) + (if last.id == id then [] else [last])
  }

  /** The list after `handleAddInterest(audience)`: a chosen audience is removed, any other appended. */
  function Toggled(interests: seq<MetaAudience>, audience: MetaAudience): seq<MetaAudience> {
    if IsSelected(interests, audience.id) then Without(interests, audience.id) else interests + [audience]
  }

  /** `handleAddInterest`: the store's list is replaced by the toggled one; the filters stay. */
  method HandleAddInterest(store: AnalysisStore, audience: MetaAudience)
    modifies store
    ensures store.selectedInterests == Toggled(old(store.selectedInterests), audience)
    ensures store.activeFilters == old(store.activeFilters)
  {
    if IsSelected(store.selectedInterests, audience.id) {
      store.SetSelectedInterests(Without(store.selectedInterests, audience.id));
      return;
    }
    store.SetSelectedInterests(store.selectedInterests + [audience]);
  }

  /** An entry survives the removal exactly when it was there and has another id. */
  lemma {:induction false} WithoutMembers(interests: seq<MetaAudience>, id: string, x: MetaAudience)
    ensures x in Without(interests, id) <==> x in interests && x.id != id
  {
    if interests != [] {
      var init, last := interests[..|interests| - 1], interests[|interests| - 1];
      WithoutMembers(init, id, x);
      assert interests == init + [last];
    }
  }

  /** Removing an id nobody has changes nothing. */
  lemma {:induction false} WithoutAbsent(interests: seq<MetaAudience>, id: string)
    requires !IsSelected(interests, id)
    ensures Without(interests, id) == interests
  {
    if interests != [] {
      var init, last := interests[..|interests| - 1], interests[|interests| - 1];
      assert !IsSelected(init, id) by {
        forall k | 0 <= k < |init|
          ensures init[k].id != id
        {
          assert init[k] == interests[k];
        }
      }
      WithoutAbsent(init, id);
      assert interests == init + [last];
    }
  }

  /** The button's state flips with every click: selected afterwards exactly when not selected before. */
  lemma ToggleFlips(interests: seq<MetaAudience>, audience: MetaAudience)
    ensures IsSelected(Toggled(interests, audience), audience.id) <==> !IsSelected(interests, audience.id)
  {
    var r := Toggled(interests, audience);
    if !IsSelected(interests, audience.id) {
      assert r[|interests|] == audience;
    }
  }

  /** Other audiences keep their selection: the toggle touches only entries with the clicked id. */
  lemma ToggleKeepsOthers(interests: seq<MetaAudience>, audience: MetaAudience, x: MetaAudience)
    requires x.id != audience.id
    ensures x in Toggled(interests, audience) <==> x in interests
  {
    if IsSelected(interests, audience.id) {
      WithoutMembers(interests, audience.id, x);
    }
  }

  /** Adding an audience and clicking it again restores the list exactly. */
  lemma ToggleTwice(interests: seq<MetaAudience>, audience: MetaAudience)
    requires !IsSelected(interests, audience.id)
    ensures Toggled(Toggled(interests, audience), audience) == interests
  {
    var added := interests + [audience];
    assert added[|interests|] == audience;
    assert added[..|added| - 1] == interests;
    WithoutAbsent(interests, audience.id);
  }

  // ---------------------------------------------------------------- breakdowns

  /** `demographics?.find(d => d.type === kind)`: the first entry of that kind. */
  function FindKind(ds: Option<seq<Demographic>>, kind: string): (r: Option<Demographic>)
    ensures r.None? <==> ds.None? || forall k :: 0 <= k < |ds.value| ==> ds.value[k].kind != kind
    ensures r.Some? ==> exists k :: 0 <= k < |ds.value| && ds.value[k] == r.value && r.value.kind == kind
                                    && forall j :: 0 <= j < k ==> ds.value[j].kind != kind
  {
    match ds
    case None => None
    case Some(s) => First(s, kind)
  }

  function First(s: seq<Demographic>, kind: string): (r: Option<Demographic>)
    ensures r.None? <==> forall k :: 0 <= k < |s| ==> s[k].kind != kind
    ensures r.Some? ==> exists k :: 0 <= k < |s| && s[k] == r.value && r.value.kind == kind
                                    && forall j :: 0 <= j < k ==> s[j].kind != kind
  {
    if s == [] then None
    else if s[0].kind == kind then Some(s[0])
    else
      First(s[1..], kind)
  }

  datatype GenderSplit = GenderSplit(male: int, female: int)

  /** The split shown when the audience has no gender entry. */
  const DefaultGender := GenderSplit(48, 52)

  /** `getGenderDistribution`: the default, or the first gender entry's share of men and its complement, in whole percent. */
  function GenderDistribution(a: MetaAudience): (g: GenderSplit)
    ensures FindKind(a.demographics, "gender").None? ==> g == DefaultGender
    ensures FindKind(a.demographics, "gender").Some? ==>
              var p := FindKind(a.demographics, "gender").value.percentage;
              p * 100.0 - 0.5 < g.male as real <= p * 100.0 + 0.5
              && (1.0 - p) * 100.0 - 0.5 < g.female as real <= (1.0 - p) * 100.0 + 0.5
  {
    match FindKind(a.demographics, "gender")
    case None => DefaultGender
    case Some(d) => GenderSplit(TrendingCities.Round(d.percentage * 100.0), TrendingCities.Round((1.0 - d.percentage) * 100.0))
  }

  /**
   * The two shares add up to 100, or to 101 when the share of men is a whole
   * percent and a half (both halves round up); a share between 0 and 1 keeps
   * each between 0 and 100.
   */
  lemma GenderSharesAddUp(a: MetaAudience)
    ensures var g := GenderDistribution(a); 100 <= g.male + g.female <= 101
    ensures var d := FindKind(a.demographics, "gender");
            d.Some? && 0.0 <= d.value.percentage <= 1.0 ==>
              var g := GenderDistribution(a); 0 <= g.male <= 100 && 0 <= g.female <= 100
  {
  }

  datatype AgeBucket = AgeBucket(range: string, percentage: nat)

  /** The five age bands and their fixed shares. */
  const DefaultAges := [AgeBucket("18-24", 20), AgeBucket("25-34", 30), AgeBucket("35-44", 25),
                        AgeBucket("45-54", 15), AgeBucket("55+", 10)]

  function Total(buckets: seq<AgeBucket>): nat {
    if buckets == [] then 0 else Total(buckets[..|buckets| - 1]) + buckets[|buckets| - 1].percentage
  }

  /**
   * `getAgeDistribution`: the age entry is looked up, but both branches
   * return the five default bands, so every card shows the same ages.
   */
  function AgeDistribution(a: MetaAudience): (r: seq<AgeBucket>)
    ensures r == DefaultAges
  {
    var ageDemo := FindKind(a.demographics, "age");
    if ageDemo.None? then DefaultAges else DefaultAges
  }

  /** The shown age shares are five bands that add up to 100 % for every audience. */
  lemma AgesAddUp(a: MetaAudience)
    ensures |AgeDistribution(a)| == 5 && Total(AgeDistribution(a)) == 100
  {
    var r := DefaultAges;
    assert r[..1][..0] == [];
    assert Total(r[..1]) == 20;
    assert r[..2][..1] == r[..1];
    assert Total(r[..2]) == 50;
    assert r[..3][..2] == r[..2];
    assert Total(r[..3]) == 75;
    assert r[..4][..3] == r[..3];
    assert Total(r[..4]) == 90;
    assert r[..5][..4] == r[..4];
  }
}
