/** The trait tier walk: the ten quality grades of ten levels each form 100
    tiers, tier gradeIndex · 10 + level costing the ledger curve's cost of
    that level. A total of experience maps to the tier it has reached and
    the experience left in it, and a grade and level map back to the total
    spent to reach them. */
module TraitTiers {
  import opened Wrappers
  import CoreUtils
  import Experience

  /** The quality grades, lowest first. */
  const QualityGrades: seq<string> := [
    "Mortal Grade", "Elite Grade", "Earth Grade", "Royal Grade", "Imperial Grade",
    "Saint Grade", "Sky Grade", "Ascended Grade", "Transcended Grade", "Eternal Grade"
  ]

  const TierCount: int := 100

  /** The first position of `x` in `s`, if any. */
  function IndexOf(s: seq<string>, x: string): (r: Option<nat>)
    ensures r.Some? ==> r.value < |s| && s[r.value] == x
    ensures r.None? ==> x !in s
  {
    if |s| == 0 then None
    else if s[0] == x then Some(0)
    else
      match IndexOf(s[1..], x)
      case None => None
      case Some(i) => Some(i + 1)
  }

  /** list.index: the grade's position, or ValueError for an unknown one. */
  function GradeIndex(quality: string): (r: Result<nat>)
    ensures r.Ok? ==> r.value < |QualityGrades| && QualityGrades[r.value] == quality
    ensures r.Err? <==> quality !in QualityGrades
  {
    match IndexOf(QualityGrades, quality)
    case None => Err("ValueError")
    case Some(i) => Ok(i)
  }

  /** calculate_total_exp (and calculate_initial_exp, which is the same):
      the cost of every tier before gradeIndex · 10 + level. */
  function TotalExp(quality: string, level: int): Result<int>
  {
    match GradeIndex(quality)
    case Err(e) => Err(e)
    case Ok(gradeIndex) => Ok(Experience.CostBetween(1, gradeIndex * 10 + level))
  }

  /** Each level of a grade costs the tier's curve cost more than the one
      before it, the first tier is free, and an unknown grade fails. */
  lemma TotalExpSpec(quality: string, level: int)
    ensures quality !in QualityGrades ==> TotalExp(quality, level).Err?
    ensures quality in QualityGrades ==> TotalExp(quality, level).Ok?
    ensures TotalExp("Mortal Grade", 1) == Ok(0)
    ensures quality in QualityGrades && level >= 1 ==>
      TotalExp(quality, level + 1).value
      == TotalExp(quality, level).value + Experience.MaxExp(GradeIndex(quality).value * 10 + level)
  {
    assert QualityGrades[0] == "Mortal Grade";
  }

  /** The position calculate_trait_level reports: grade, level within the
      grade, experience past the tier's start, and the tier's cost. */
  datatype Position = Position(grade: string, level: int, remainder: int, tierMax: int)

  /** The cost of the tiers before tier t. */
  function Before(t: int): int
  {
    Experience.CostBetween(1, t)
  }

  /** The first tier from t on whose end lies past the total, or 101 when
      the total covers every tier. */
  function TierFrom(totalExp: int, t: int): int
    requires 1 <= t <= TierCount + 1
    decreases TierCount + 1 - t
  {
    if t > TierCount then TierCount + 1
    else if Before(t) + Experience.MaxExp(t) > totalExp then t
    else TierFrom(totalExp, t + 1)
  }

  /** The tier a total has reached. */
  function Tier(totalExp: int): int
  {
    TierFrom(totalExp, 1)
  }

  /** The position of a total inside tier t. */
  function PositionAt(t: int, totalExp: int): Position
    requires 1 <= t <= TierCount
  {
    Position(QualityGrades[(t - 1) / 10], (t - 1) % 10 + 1, totalExp - Before(t), Experience.MaxExp(t))
  }

  /** The position reported once every tier is covered. */
  const Top: Position := Position("Eternal Grade", 10, 0, Experience.MaxExp(TierCount))

  /** calculate_trait_level as a function of the total. */
  function TraitPosition(totalExp: int): Position
  {
    var t := Tier(totalExp);
    if 1 <= t <= TierCount then PositionAt(t, totalExp) else Top
  }

  /** Each tier from 1 on costs at least 100, so the cost of the tiers before
      b exceeds that before a by at least 100 per tier in between. */
  lemma {:induction false} BeforeGrows(a: int, b: int)
    requires 1 <= a <= b
    ensures Before(a) + 100 * (b - a) <= Before(b)
    decreases b - a
  {
    if a < b {
      BeforeGrows(a, b - 1);
      Experience.MaxExpMatchesCore(b - 1);
      CoreUtils.MaxExpPositive(b - 1);
    }
  }

  /** The walk from tier s ends at a tier r from s on; a tier r up to 100
      ends past the total, and every tier the walk passed ends at or before
      it. */
  lemma {:induction false} TierFromSpec(totalExp: int, s: int)
    requires 1 <= s <= TierCount + 1
    ensures var r := TierFrom(totalExp, s);
      && s <= r <= TierCount + 1
      && (r <= TierCount ==> totalExp < Before(r + 1))
      && (r > s ==> Before(r) <= totalExp)
    decreases TierCount + 1 - s
  {
    if s <= TierCount {
      assert Before(s + 1) == Before(s) + Experience.MaxExp(s);
      if Before(s) + Experience.MaxExp(s) <= totalExp {
        TierFromSpec(totalExp, s + 1);
      }
    }
  }

  /** A total within the 100 tiers lands in the tier t whose span holds it:
      the remainder is the total less the cost of the earlier tiers, and is
      below the tier's cost. */
  lemma PositionInRange(totalExp: int)
    requires 0 <= totalExp < Before(TierCount + 1)
    ensures var t := Tier(totalExp);
      && 1 <= t <= TierCount
      && Before(t) <= totalExp < Before(t + 1)
      && TraitPosition(totalExp) == PositionAt(t, totalExp)
      && 0 <= TraitPosition(totalExp).remainder < TraitPosition(totalExp).tierMax
  {
    TierFromSpec(totalExp, 1);
    var t := Tier(totalExp);
    assert Before(1) == 0;
    assert Before(t + 1) == Before(t) + Experience.MaxExp(t);
  }

  /** A total that covers all 100 tiers reports the top: Eternal Grade level
      10, nothing left over, and the cost of tier 100. */
  lemma PositionPastEnd(totalExp: int)
    requires totalExp >= Before(TierCount + 1)
    ensures TraitPosition(totalExp) == Top
  {
    TierFromSpec(totalExp, 1);
    var t := Tier(totalExp);
    if t <= TierCount {
      BeforeGrows(t + 1, TierCount + 1);
    }
  }

  /** At 100 experience tier 1 (cost 100) is exactly paid, so the total sits
      at the start of Mortal Grade level 2, whose cost is 200. */
  lemma PositionAtFirstBoundary()
    ensures TraitPosition(100) == Position("Mortal Grade", 2, 0, 200)
  {
    assert Before(2) == 100 && Before(3) == 300;
    assert TierFrom(100, 2) == 2;
  }

  /** Reading back the total spent to reach a grade and level gives that
      grade and level with nothing left over. */
  lemma RoundTrip(quality: string, level: int)
    requires quality in QualityGrades && 1 <= level <= 10
    ensures TotalExp(quality, level).Ok?
    ensures var gradeIndex := GradeIndex(quality).value;
      TraitPosition(TotalExp(quality, level).value)
      == Position(quality, level, 0, Experience.MaxExp(gradeIndex * 10 + level))
  {
    var gradeIndex := GradeIndex(quality).value;
    var t0 := gradeIndex * 10 + level;
    assert TotalExp(quality, level) == Ok(Before(t0));
    TierOfTierStart(t0);
    StopAt(Before(t0), t0, gradeIndex, level);
  }

  /** The total spent on the tiers before t reaches exactly tier t. */
  lemma TierOfTierStart(t: int)
    requires 1 <= t <= TierCount
    ensures Tier(Before(t)) == t
  {
    var e := Before(t);
    TierFromSpec(e, 1);
    var r := Tier(e);
    if r < t {
      BeforeGrows(r + 1, t);
    } else if r > t {
      BeforeGrows(t, r);
    }
  }

  /** More experience never reports a lower tier. */
  lemma TierMonotone(e1: int, e2: int)
    requires e1 <= e2
    ensures Tier(e1) <= Tier(e2)
  {
    TierFromSpec(e1, 1);
    TierFromSpec(e2, 1);
    var t1, t2 := Tier(e1), Tier(e2);
    if t1 > t2 {
      BeforeGrows(t2 + 1, t1);
    }
  }

  /** One step of the walk at tier t: it stops there when the tier's end
      lies past the total and moves on otherwise, the running cost growing
      by the tier's cost. */
  lemma TierStep(totalExp: int, t: int)
    requires 1 <= t <= TierCount
    ensures Before(t + 1) == Before(t) + Experience.MaxExp(t)
    ensures Before(t) + Experience.MaxExp(t) > totalExp ==> TierFrom(totalExp, t) == t
    ensures Before(t) + Experience.MaxExp(t) <= totalExp ==> TierFrom(totalExp, t) == TierFrom(totalExp, t + 1)
  {
  }

  /** Where the walk stops at tier t = gradeIndex · 10 + level it reports
      that grade and level, the total less the running cost, and the tier's
      cost. */
  lemma StopAt(totalExp: int, t: int, gradeIndex: int, level: int)
    requires 0 <= gradeIndex < 10 && 1 <= level <= 10 && t == gradeIndex * 10 + level
    requires Tier(totalExp) == t
    ensures TraitPosition(totalExp)
         == Position(QualityGrades[gradeIndex], level, totalExp - Before(t), Experience.MaxExp(t))
  {
    assert (t - 1) / 10 == gradeIndex && (t - 1) % 10 + 1 == level;
  }

  /** calculate_trait_level: walk the grades and their levels 1..10 with a
      running total of the tiers passed, stop at the first tier whose end
      lies past the total, and report the top once every tier is passed. */
  method CalculateTraitLevel(totalExp: int) returns (p: Position)
    ensures p == TraitPosition(totalExp)
  {
    var accumulated := 0;
    var tier := 1;
    var gradeIndex := 0;
    while gradeIndex < 10
      invariant 0 <= gradeIndex <= 10 && tier == gradeIndex * 10 + 1
      invariant accumulated == Before(tier)
      invariant Tier(totalExp) == TierFrom(totalExp, tier)
    {
      var level := 1;
      while level <= 10
        invariant 1 <= level <= 11 && tier == gradeIndex * 10 + level
        invariant accumulated == Before(tier)
        invariant Tier(totalExp) == TierFrom(totalExp, tier)
      {
        var maxExp := Experience.MaxExp(gradeIndex * 10 + level);
        TierStep(totalExp, tier);
        if accumulated + maxExp > totalExp {
          StopAt(totalExp, tier, gradeIndex, level);
          return Position(QualityGrades[gradeIndex], level, totalExp - accumulated, maxExp);
        }
        accumulated := accumulated + maxExp;
        level := level + 1;
        tier := tier + 1;
      }
      gradeIndex := gradeIndex + 1;
    }
    return Position(QualityGrades[|QualityGrades| - 1], 10, 0, Experience.MaxExp(100));
  }
}
