/** The arts registry (a name-keyed table of arts) and the boost formula:
    an art's relevant primary total as a share of all three, scaled by its
    quality and mastery multipliers and then by the realm adjustment. */
module Arts {
  import opened Wrappers
  import CoreUtils
  import Stats
  import Experience

  datatype Art = Art(name: string, artType: string, quality: string, qualityLevel: int, notes: string)

  /** The record calculate reports. */
  datatype Calculation = Calculation(
    realm: int,
    relevantStat: real,
    totalStat: real,
    ratio: real,
    qualityMultiplier: real,
    masteryMultiplier: real,
    initialBoost: real,
    adjustmentMultiplier: real,
    finalBoost: real,
    masteryLevel: int,
    masteryLayer: string,
    masteryLevelInLayer: int)

  /** The record reported when the calculation raises: all zeros at mastery
      level 1 of the first layer. */
  const Neutral := Calculation(0, 0.0, 0.0, 0.0, 0.0, 0.0, 0.0, 0.0, 0.0, 1, "Initial Step", 1)

  function Max(a: real, b: real): real
  {
    if a >= b then a else b
  }

  /** The primary total an art type draws on: one primary for the pure
      types, a 0.5/0.3/0.2 blend for the hybrid ones, the largest for
      Cultivation and the mean for anything else. */
  function RelevantStat(artType: string, body: real, mind: real, spirit: real): real
  {
    if artType == "Martial" then body
    else if artType == "Spiritual" then spirit
    else if artType == "Psychic" then mind
    else if artType == "Bloodline" then body * 0.5 + spirit * 0.3 + mind * 0.2
    else if artType == "Auxiliary" then mind * 0.5 + spirit * 0.3 + body * 0.2
    else if artType == "Arcane" then spirit * 0.5 + mind * 0.3 + body * 0.2
    else if artType == "Cultivation" then Max(Max(body, mind), spirit)
    else (body + mind + spirit) / 3.0
  }

  /** With non-negative primaries every art type draws on at most the
      largest primary, hence at most their sum. */
  lemma RelevantStatBounds(artType: string, body: real, mind: real, spirit: real)
    requires body >= 0.0 && mind >= 0.0 && spirit >= 0.0
    ensures 0.0 <= RelevantStat(artType, body, mind, spirit) <= Max(Max(body, mind), spirit)
    ensures Max(Max(body, mind), spirit) <= body + mind + spirit
  {
  }

  /** Cultivation draws on the largest primary: at least each of them, and
      equal to one of them. */
  lemma CultivationTakesLargest(body: real, mind: real, spirit: real)
    ensures var r := RelevantStat("Cultivation", body, mind, spirit);
      r >= body && r >= mind && r >= spirit && (r == body || r == mind || r == spirit)
  {
  }

  /** relevant / total, or 0 when the total is 0. */
  function Ratio(relevant: real, total: real): real
  {
    if total != 0.0 then relevant / total else 0.0
  }

  /** A part of a positive whole is a share in [0, 1]. */
  lemma RatioInUnit(relevant: real, total: real)
    requires 0.0 <= relevant <= total
    ensures 0.0 <= Ratio(relevant, total) <= 1.0
  {
    if total != 0.0 {
      var q := relevant / total;
      assert q * total == relevant;
    }
  }

  /** The calculation for an art at a mastery level, a realm and the three
      primary totals: neutral when the mastery level has no layer. */
  function Evaluate(art: Art, masteryLevel: int, realm: int, body: real, mind: real, spirit: real): Calculation
  {
    match CoreUtils.MasteryLayer(masteryLevel)
    case Err(_) => Neutral
    case Ok(layer) =>
      Boosted(realm, RelevantStat(art.artType, body, mind, spirit), body + mind + spirit,
              CoreUtils.QualityMultiplier(art.quality, art.qualityLevel), CoreUtils.MasteryMultiplier(masteryLevel),
              CoreUtils.AdjustmentMultiplier(art.quality, masteryLevel, realm),
              masteryLevel, layer, CoreUtils.MasteryLevel(masteryLevel))
  }

  /** The record from the relevant and total stats and the three
      multipliers: ratio = relevant / total, initial boost = quality ·
      mastery · ratio, final boost = initial boost · adjustment. */
  function Boosted(realm: int, relevantStat: real, totalStat: real, qualityMultiplier: real,
                   masteryMultiplier: real, adjustmentMultiplier: real,
                   masteryLevel: int, masteryLayer: string, masteryLevelInLayer: int): Calculation
  {
    var ratio := Ratio(relevantStat, totalStat);
    var initialBoost := qualityMultiplier * masteryMultiplier * ratio;
    Calculation(realm, relevantStat, totalStat, ratio, qualityMultiplier, masteryMultiplier, initialBoost,
                adjustmentMultiplier, initialBoost * adjustmentMultiplier, masteryLevel, masteryLayer,
                masteryLevelInLayer)
  }

  /** A relevant stat within the total gives a ratio in [0, 1] and an
      initial boost between 0 and quality · mastery. */
  lemma BoostedBounds(realm: int, relevantStat: real, totalStat: real, qualityMultiplier: real,
                      masteryMultiplier: real, adjustmentMultiplier: real,
                      masteryLevel: int, masteryLayer: string, masteryLevelInLayer: int)
    requires 0.0 <= relevantStat <= totalStat && qualityMultiplier >= 0.0 && masteryMultiplier >= 0.0
    ensures var r := Boosted(realm, relevantStat, totalStat, qualityMultiplier, masteryMultiplier,
                             adjustmentMultiplier, masteryLevel, masteryLayer, masteryLevelInLayer);
      && 0.0 <= r.ratio <= 1.0
      && 0.0 <= r.initialBoost <= r.qualityMultiplier * r.masteryMultiplier
      && r.finalBoost == r.initialBoost * r.adjustmentMultiplier
  {
    RatioInUnit(relevantStat, totalStat);
    ScaledShareBound(qualityMultiplier * masteryMultiplier, Ratio(relevantStat, totalStat));
  }

  /** The neutral record comes out exactly when the mastery level has no
      layer: a successful calculation at mastery level 1 has a non-zero
      mastery multiplier, and at any other level a different level. */
  lemma NeutralExactlyOnLayerError(art: Art, masteryLevel: int, realm: int, body: real, mind: real, spirit: real)
    ensures Evaluate(art, masteryLevel, realm, body, mind, spirit) == Neutral
            <==> CoreUtils.MasteryLayer(masteryLevel).Err?
  {
    if masteryLevel == 1 {
      CoreUtils.MasteryMultiplierAtOne();
    }
  }

  /** With a layer for the mastery level, the calculation is the boost
      record of the art's relevant stat and multipliers. */
  lemma EvaluateWithLayer(art: Art, masteryLevel: int, realm: int, body: real, mind: real, spirit: real)
    requires CoreUtils.MasteryLayer(masteryLevel).Ok?
    ensures Evaluate(art, masteryLevel, realm, body, mind, spirit)
         == Boosted(realm, RelevantStat(art.artType, body, mind, spirit), body + mind + spirit,
                    CoreUtils.QualityMultiplier(art.quality, art.qualityLevel), CoreUtils.MasteryMultiplier(masteryLevel),
                    CoreUtils.AdjustmentMultiplier(art.quality, masteryLevel, realm),
                    masteryLevel, CoreUtils.MasteryLayer(masteryLevel).value, CoreUtils.MasteryLevel(masteryLevel))
  {
  }

  /** A share in [0, 1] of a non-negative amount lies between 0 and it. */
  lemma ScaledShareBound(p: real, share: real)
    requires p >= 0.0 && 0.0 <= share <= 1.0
    ensures 0.0 <= p * share <= p
  {
    assert p * (1.0 - share) >= 0.0;
  }

  /** At a non-negative quality level every grade multiplies by at least 1. */
  lemma QualityMultiplierAtLeastOne(quality: string, qualityLevel: int)
    requires qualityLevel >= 0
    ensures CoreUtils.QualityMultiplier(quality, qualityLevel) >= 1.0
  {
  }

  /** Every mastery level 1..100 multiplies by at least 1. */
  lemma MasteryMultiplierAtLeastOne(masteryLevel: int)
    requires 1 <= masteryLevel <= 100
    ensures CoreUtils.MasteryMultiplier(masteryLevel) >= 1.0
  {
    var c := (masteryLevel - 1) / 10 + 1;
    if c < 10 {
      CoreUtils.MasteryMultiplierInLayer(masteryLevel);
      CoreUtils.TriangularExact(c);
      assert CoreUtils.Triangular(c) >= 1;
    } else {
      CoreUtils.MasteryMultiplierTop(masteryLevel);
    }
  }

  /** A Mortal Grade Cultivation art at quality level 0 and mastery level 1,
      for a new character in realm 1: ratio 1/3, initial boost 0.4,
      adjustment 1.1, final boost 0.44. */
  lemma FreshCultivationArt(name: string, notes: string)
    ensures var r := Evaluate(Art(name, "Cultivation", "Mortal Grade", 0, notes), 1, 1, 1.0, 1.0, 1.0);
      && r.relevantStat == 1.0 && r.totalStat == 3.0 && r.ratio == 1.0 / 3.0
      && r.qualityMultiplier == 1.0 && r.masteryMultiplier == 1.2
      && r.initialBoost == 0.4 && r.adjustmentMultiplier == 1.1 && r.finalBoost == 0.44
      && r.masteryLayer == "Initial Step" && r.masteryLevelInLayer == 1
  {
    var art := Art(name, "Cultivation", "Mortal Grade", 0, notes);
    EvaluateWithLayer(art, 1, 1, 1.0, 1.0, 1.0);
    assert RelevantStat("Cultivation", 1.0, 1.0, 1.0) == 1.0;
    assert CoreUtils.QualityRank("Mortal Grade") == 1;
    assert CoreUtils.QualityMultiplier("Mortal Grade", 0) == 1.0;
    CoreUtils.MasteryMultiplierAtOne();
    assert CoreUtils.AdjustmentMultiplier("Mortal Grade", 1, 1) == 1.1;
    BoostedAtFreshValues();
  }

  lemma BoostedAtFreshValues()
    ensures var r := Boosted(1, 1.0, 3.0, 1.0, 1.2, 1.1, 1, "Initial Step", 1);
      r.ratio == 1.0 / 3.0 && r.initialBoost == 0.4 && r.finalBoost == 0.44
  {
    assert 1.0 * 1.2 * (1.0 / 3.0) == 0.4;
  }

  /** The table after update_art: the old name removed, then the art stored
      under its own (new) name. */
  function Renamed(arts: map<string, Art>, oldName: string, art: Art): (r: map<string, Art>)
    ensures art.name in r && r[art.name] == art
    ensures oldName != art.name ==> oldName !in r
    ensures forall n :: n != oldName && n != art.name ==> (n in r <==> n in arts)
    ensures forall n :: n != oldName && n != art.name && n in arts ==> r[n] == arts[n]
  {
    (arts - {oldName})[art.name := art]
  }

  /** Renaming a present art to a free name, or in place, keeps the number
      of arts. */
  lemma RenameKeepsCount(arts: map<string, Art>, oldName: string, art: Art)
    requires oldName in arts && (art.name !in arts || art.name == oldName)
    ensures |Renamed(arts, oldName, art)| == |arts|
  {
    var removed := arts - {oldName};
    assert removed.Keys == arts.Keys - {oldName};
    assert |removed.Keys| == |arts.Keys| - 1;
    assert art.name !in removed;
    assert removed[art.name := art].Keys == removed.Keys + {art.name};
  }

  class ArtsCalculator {
    const statsCalculator: Stats.StatsCalculator
    const experienceCalculator: Experience.ExperienceCalculator
    var arts: map<string, Art>

    constructor (statsCalculator: Stats.StatsCalculator, experienceCalculator: Experience.ExperienceCalculator)
      ensures this.statsCalculator == statsCalculator && this.experienceCalculator == experienceCalculator
      ensures arts == map[]
    {
      this.statsCalculator := statsCalculator;
      this.experienceCalculator := experienceCalculator;
      arts := map[];
    }

    method Reset()
      modifies this`arts
      ensures arts == map[]
    {
      arts := map[];
    }

    /** add_art: store the record under its name, replacing any art of
        that name. */
    method AddArt(name: string, artType: string, quality: string, qualityLevel: int, notes: string)
      returns (art: Art)
      modifies this`arts
      ensures art == Art(name, artType, quality, qualityLevel, notes)
      ensures arts == old(arts)[name := art]
    {
      art := Art(name, artType, quality, qualityLevel, notes);
      arts := arts[name := art];
    }

    /** remove_art: delete a present name; an absent one changes nothing. */
    method RemoveArt(name: string)
      modifies this`arts
      ensures name !in arts
      ensures name !in old(arts) ==> arts == old(arts)
      ensures forall n :: n != name ==> (n in arts <==> n in old(arts))
      ensures forall n :: n != name && n in arts ==> arts[n] == old(arts)[n]
    {
      if name in arts {
        arts := arts - {name};
      }
    }

    /** update_art: drop the old name if present, then add under the new
        one; every other art stays as it was. */
    method UpdateArt(oldName: string, newName: string, artType: string, quality: string, qualityLevel: int,
                     notes: string)
      modifies this`arts
      ensures arts == Renamed(old(arts), oldName, Art(newName, artType, quality, qualityLevel, notes))
    {
      if oldName in arts {
        arts := arts - {oldName};
      }
      var _ := AddArt(newName, artType, quality, qualityLevel, notes);
    }

    function GetArt(name: string): (r: Option<Art>)
      reads this
      ensures r.Some? <==> name in arts
      ensures r.Some? ==> r.value == arts[name]
    {
      if name in arts then Some(arts[name]) else None
    }

    /** calculate: nothing for an unknown art; otherwise the boost record
        for the art's mastery level (level 1 when no mastery is recorded),
        or the neutral record when the calculation raises. */
    function Calculate(artName: string, realm: int): (r: Option<Calculation>)
      requires statsCalculator.Valid() && experienceCalculator.Valid()
      reads this, statsCalculator, experienceCalculator
      ensures r.None? <==> artName !in arts
      ensures artName in arts && artName !in experienceCalculator.experience["mastery"] ==>
        r == Some(Evaluate(arts[artName], 1, realm, statsCalculator.primaryTotals[Stats.Body],
                           statsCalculator.primaryTotals[Stats.Mind], statsCalculator.primaryTotals[Stats.Spirit]))
      ensures artName in arts && artName in experienceCalculator.experience["mastery"] ==>
        r == Some(Evaluate(arts[artName], experienceCalculator.experience["mastery"][artName].level, realm,
                           statsCalculator.primaryTotals[Stats.Body], statsCalculator.primaryTotals[Stats.Mind],
                           statsCalculator.primaryTotals[Stats.Spirit]))
    {
      if artName !in arts then None
      else
        var record := experienceCalculator.GetExperience("mastery", artName).value;
        var totals := statsCalculator.primaryTotals;
        Some(Evaluate(arts[artName], record.level, realm, totals[Stats.Body], totals[Stats.Mind], totals[Stats.Spirit]))
    }

    /** load_arts: empty data changes nothing; otherwise the table is
        replaced by the data. */
    method LoadArts(data: map<string, Art>)
      modifies this`arts
      ensures arts == if |data| == 0 then old(arts) else data
    {
      if |data| == 0 {
        return;
      }
      arts := data;
    }

    function GetArts(): (r: map<string, Art>)
      reads this
      ensures r == arts
      ensures forall n :: n in r <==> GetArt(n).Some?
    {
      arts
    }
  }
}
