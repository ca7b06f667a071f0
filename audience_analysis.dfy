/**
 * The audience estimate shown beside the interest picker: reach adjusted by
 * the age, gender and budget filters, an overlap estimate, an effectiveness
 * score with its label, and advice derived from them. The numeric filters
 * arrive as text; here they are the integers `parseInt` gives.
 */
module AudienceAnalysis {
  import opened Wrappers
  import Text

  /** An interest audience; only its size enters the estimate. */
  datatype Audience = Audience(id: string, name: string, size: real)

  /** The active filters, numbers already parsed. */
  datatype Filters = Filters(ageMin: int, ageMax: int, gender: string, budgetMin: int, budgetMax: int)

  datatype Impact = Impact(value: string, impact: real)

  datatype Metrics = Metrics(totalReach: real, overlap: int, effectiveness: int,
                             ageRange: Impact, gender: Impact, budget: Impact)

  function Min(a: real, b: real): real {
    if a <= b then a else b
  }

  /** The sum of the audiences' sizes, in list order. */
  function SizeSum(audiences: seq<Audience>): real {
    if audiences == [] then 0.0 else SizeSum(audiences[..|audiences| - 1]) + audiences[|audiences| - 1].size
  }

  /** `Math.min(1, (ageMax − ageMin)/100)`. */
  function AgeMultiplier(f: Filters): (m: real)
    ensures m <= 1.0
    ensures f.ageMax - f.ageMin <= 100 ==> m == (f.ageMax - f.ageMin) as real / 100.0
  {
    Min(1.0, (f.ageMax - f.ageMin) as real / 100.0)
  }

  /** 1 for `all`, 0.5 for any other gender choice. */
  function GenderMultiplier(f: Filters): (m: real)
    ensures m == 1.0 <==> f.gender == "all"
    ensures m != 1.0 ==> m == 0.5
  {
    if f.gender == "all" then 1.0 else 0.5
  }

  /** `Math.min(1, mean budget / 100)`. */
  function BudgetMultiplier(f: Filters): (m: real)
    ensures m <= 1.0
    ensures f.budgetMin + f.budgetMax <= 200 ==> m == (f.budgetMin + f.budgetMax) as real / 200.0
  {
    Min(1.0, ((f.budgetMin + f.budgetMax) as real / 2.0) / 100.0)
  }

  /** `Math.min(0.3·n, 0.7)`: the share of the reach assumed to overlap. */
  function OverlapFraction(n: nat): (p: real)
    ensures 0.0 <= p <= 0.7
    ensures n <= 2 ==> p == 0.3 * n as real
  {
    Min(0.3 * n as real, 0.7)
  }

  /** The three filter multipliers together. */
  function Multiplier(f: Filters): real {
    AgeMultiplier(f) * GenderMultiplier(f) * BudgetMultiplier(f)
  }

  /** `${i}` for an integer. */
  function Show(i: int): string {
    if i < 0 then "-" + Text.NatToString(-i) else Text.NatToString(i)
  }

  /** `floor(reach × fraction)`: the overlap estimate. */
  function Overlap(reach: real, n: nat): int {
    (reach * OverlapFraction(n)).Floor
  }

  /** The overlap is the largest whole number within the overlapping share, and a non-negative reach bounds it. */
  lemma OverlapWithinReach(reach: real, n: nat)
    ensures Overlap(reach, n) as real <= reach * OverlapFraction(n) < Overlap(reach, n) as real + 1.0
    ensures reach >= 0.0 ==> 0 <= Overlap(reach, n) && Overlap(reach, n) as real <= reach
  {
    if reach >= 0.0 {
      var x := reach * OverlapFraction(n);
      Scale(OverlapFraction(n), reach);
      assert 0.0 <= x <= reach;
      assert Overlap(reach, n) == x.Floor;
    }
  }

  /** The score before capping: 20 per audience plus 30, 25 and 25 times the three multipliers. */
  function RawScore(n: nat, f: Filters): real {
    n as real * 20.0 + AgeMultiplier(f) * 30.0 + GenderMultiplier(f) * 25.0 + BudgetMultiplier(f) * 25.0
  }

  /** `min(100, floor(raw score))`. */
  function Effectiveness(n: nat, f: Filters): int {
    var score := RawScore(n, f).Floor;
    if 100 <= score then 100 else score
  }

  /** The score never exceeds 100, and below the cap it is the whole part of the raw score. */
  lemma EffectivenessCapped(n: nat, f: Filters)
    ensures Effectiveness(n, f) <= 100
    ensures Effectiveness(n, f) < 100 ==>
              Effectiveness(n, f) as real <= RawScore(n, f) < Effectiveness(n, f) as real + 1.0
    ensures RawScore(n, f) >= 100.0 ==> Effectiveness(n, f) == 100
  {
  }

  /** The adjusted reach: the summed sizes scaled by the three multipliers. */
  function Reach(audiences: seq<Audience>, f: Filters): real {
    SizeSum(audiences) * Multiplier(f)
  }

  /** `calculateAudienceMetrics`. */
  function AudienceMetrics(audiences: seq<Audience>, f: Filters): Metrics {
    Metrics(Reach(audiences, f), Overlap(Reach(audiences, f), |audiences|), Effectiveness(|audiences|, f),
            Impact(Show(f.ageMin) + "-" + Show(f.ageMax), AgeMultiplier(f)),
            Impact(f.gender, GenderMultiplier(f)),
            Impact(Show(f.budgetMin) + "-" + Show(f.budgetMax), BudgetMultiplier(f)))
  }

  /** Non-negative sizes make a non-negative sum. */
  lemma {:induction false} SizeSumNonNegative(audiences: seq<Audience>)
    requires forall i :: 0 <= i < |audiences| ==> audiences[i].size >= 0.0
    ensures SizeSum(audiences) >= 0.0
  {
    if audiences != [] {
      SizeSumNonNegative(audiences[..|audiences| - 1]);
    }
  }

  /**
   * The reported reach is the adjusted one, not the raw sum: with
   * non-negative sizes, an age range that is not reversed and a non-negative
   * budget it lies between 0 and the raw sum, and is half of it at most
   * unless the gender choice is `all`.
   */
  lemma ReachWithinSum(audiences: seq<Audience>, f: Filters)
    requires forall i :: 0 <= i < |audiences| ==> audiences[i].size >= 0.0
    requires f.ageMin <= f.ageMax && 0 <= f.budgetMin + f.budgetMax
    ensures 0.0 <= Reach(audiences, f) <= SizeSum(audiences)
    ensures f.gender != "all" ==> Reach(audiences, f) <= SizeSum(audiences) / 2.0
  {
    SizeSumNonNegative(audiences);
    MultiplierBounds(f);
    if f.gender == "all" {
      ReachScaled(audiences, f, 1.0);
    } else {
      ReachScaled(audiences, f, 0.5);
    }
  }

  /** The reach scaled by a multiplier no larger than `g`. */
  lemma ReachScaled(audiences: seq<Audience>, f: Filters, g: real)
    requires 0.0 <= SizeSum(audiences) && 0.0 <= Multiplier(f) <= g <= 1.0
    ensures 0.0 <= Reach(audiences, f) <= SizeSum(audiences) * g <= SizeSum(audiences)
  {
    ScaledWithin(SizeSum(audiences), Multiplier(f), g);
  }

  /** Scaling a non-negative amount by a factor at most `g ≤ 1` keeps it between 0 and `g` times the amount. */
  lemma ScaledWithin(s: real, m: real, g: real)
    requires 0.0 <= s && 0.0 <= m <= g <= 1.0
    ensures 0.0 <= s * m <= s * g <= s
  {
    Scale(g, s);
    MonotoneScale(m, g, s);
  }

  /** With an age range that is not reversed and a non-negative budget, the combined multiplier lies between 0 and the gender multiplier. */
  lemma MultiplierBounds(f: Filters)
    requires f.ageMin <= f.ageMax && 0 <= f.budgetMin + f.budgetMax
    ensures 0.0 <= Multiplier(f) <= GenderMultiplier(f)
  {
    var a, g, b := AgeMultiplier(f), GenderMultiplier(f), BudgetMultiplier(f);
    Scale(a, g);
    Scale(b, a * g);
  }

  /** A factor between 0 and 1 shrinks a non-negative number. */
  lemma Scale(x: real, y: real)
    requires 0.0 <= x <= 1.0 && 0.0 <= y
    ensures 0.0 <= x * y <= y && 0.0 <= y * x <= y
  {
  }

  /** A non-negative factor keeps the order of the numbers it scales. */
  lemma MonotoneScale(x: real, z: real, y: real)
    requires x <= z && 0.0 <= y
    ensures y * x <= y * z
  {
  }

  /** A non-negative reach bounds its overlap estimate, which is itself non-negative. */
  lemma MetricsOverlapWithinReach(audiences: seq<Audience>, f: Filters)
    requires AudienceMetrics(audiences, f).totalReach >= 0.0
    ensures 0 <= AudienceMetrics(audiences, f).overlap
    ensures AudienceMetrics(audiences, f).overlap as real <= AudienceMetrics(audiences, f).totalReach
  {
    OverlapWithinReach(Reach(audiences, f), |audiences|);
  }

  /** With no audience the score comes from the filters alone, so it is at most 80. */
  lemma EffectivenessWithoutAudiences(f: Filters)
    ensures Effectiveness(0, f) <= 80
  {
    assert RawScore(0, f) <= 80.0;
  }

  /** `getEffectivenessLabel`. */
  function EffectivenessLabel(score: int): (name: string)
    ensures name == "Excellent" <==> 90 <= score
    ensures name == "High" <==> 75 <= score < 90
    ensures name == "Good" <==> 60 <= score < 75
    ensures name == "Moderate" <==> 40 <= score < 60
    ensures name == "Low" <==> score < 40
  {
    if score >= 90 then "Excellent"
    else if score >= 75 then "High"
    else if score >= 60 then "Good"
    else if score >= 40 then "Moderate"
    else "Low"
  }

  const NarrowAge := "Consider broadening your age range for better reach"
  const NarrowGender := "Your gender targeting may be limiting your audience size"
  const SmallBudget := "Increasing your budget could improve campaign performance"
  const HighOverlap := "High audience overlap detected - consider diversifying interests"
  const LowOverlap := "Low audience overlap - your targeting may be too broad"

  /** `overlap / totalReach`; None is the NaN of 0/0, the only zero divisor that can occur since the overlap of a zero reach is 0. */
  function OverlapRatio(m: Metrics): Option<real> {
    if m.totalReach == 0.0 then None else Some(m.overlap as real / m.totalReach)
  }

  /** `getRecommendations`: each piece of advice in its fixed order, present when its test holds. */
  function Recommendations(m: Metrics): (r: seq<string>)
    ensures NarrowAge in r <==> m.ageRange.impact < 0.5
    ensures NarrowGender in r <==> m.gender.impact < 1.0
    ensures SmallBudget in r <==> m.budget.impact < 0.5
    ensures HighOverlap in r <==> OverlapRatio(m).Some? && OverlapRatio(m).value > 0.6
    ensures LowOverlap in r <==> OverlapRatio(m).Some? && OverlapRatio(m).value < 0.2
    ensures !(HighOverlap in r && LowOverlap in r)
    ensures |r| <= 4
  {
    (if m.ageRange.impact < 0.5 then [NarrowAge] else [])
    + (if m.gender.impact < 1.0 then [NarrowGender] else [])
    + (if m.budget.impact < 0.5 then [SmallBudget] else [])
    + (match OverlapRatio(m)
       case None => []
       case Some(ratio) => if ratio > 0.6 then [HighOverlap] else if ratio < 0.2 then [LowOverlap] else [])
  }
}
