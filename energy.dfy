/** The three energy pools (Lifeforce, Qi and Essence) derived from the
    primary totals, the realm and three stat weights: an initial value that
    scales a primary total by the realm multiplier, an adjustment that
    scales the initial value by a stat weight, and their sum. */
module Energy {
  import CoreUtils
  import Truncation
  import Stats

  /** One pool's record: initial, adjustment and final. */
  datatype Pool = Pool(initial: int, adjustment: int, final: int)

  const Empty := Pool(0, 0, 0)

  /** The realm multipliers for realms 1..10. */
  const RealmMultipliers: map<int, int> := map[
    1 := 1, 2 := 3, 3 := 6, 4 := 10, 5 := 15, 6 := 21, 7 := 28, 8 := 36, 9 := 45, 10 := 55
  ]

  /** The realm's multiplier, 1 for a realm outside the table. */
  function RealmMultiplier(realm: int): (m: int)
    ensures m >= 1
  {
    if realm in RealmMultipliers then RealmMultipliers[realm] else 1
  }

  /** The table holds the triangular numbers: realm r multiplies by
      r(r+1)/2. */
  lemma RealmMultiplierIsTriangular(realm: int)
    ensures RealmMultiplier(realm) == if 1 <= realm <= 10 then CoreUtils.Triangular(realm) else 1
  {
    if 1 <= realm <= 10 {
      assert realm in RealmMultipliers;
    } else {
      assert realm !in RealmMultipliers;
    }
  }

  /** primary · scale · multiplier. */
  function Scaled(primary: real, scale: int, multiplier: int): real
  {
    primary * scale as real * multiplier as real
  }

  /** A pool from a primary total: initial = int(primary · scale · m),
      adjustment = int(initial · weight), final = initial + adjustment. */
  function PoolFor(primary: real, scale: int, multiplier: int, weight: real): Pool
  {
    var initial := Truncation.Trunc(Scaled(primary, scale, multiplier));
    var adjustment := Truncation.Trunc(initial as real * weight);
    Pool(initial, adjustment, initial + adjustment)
  }

  /** With a non-negative primary total and a weight in [0, 1] the
      adjustment is between 0 and the initial value, so the final value is
      between the initial value and twice it; the initial value is the
      scaled total rounded down. */
  lemma PoolBounds(primary: real, scale: int, multiplier: int, weight: real)
    requires primary >= 0.0 && scale >= 0 && multiplier >= 0 && 0.0 <= weight <= 1.0
    ensures var p := PoolFor(primary, scale, multiplier, weight);
      && 0 <= p.adjustment <= p.initial
      && p.initial <= p.final <= 2 * p.initial
      && p.initial as real <= Scaled(primary, scale, multiplier) < p.initial as real + 1.0
  {
    var x := Scaled(primary, scale, multiplier);
    assert x >= 0.0 by {
      assert primary * scale as real >= 0.0;
    }
    var initial := Truncation.Trunc(x);
    Truncation.TruncBounds(x);
    var y := initial as real * weight;
    assert 0.0 <= y <= initial as real by {
      assert initial as real * (1.0 - weight) >= 0.0;
    }
    Truncation.TruncBetween(y, 0, initial);
  }

  /** Lifeforce from the Body total and the Vitality weight. */
  function Lifeforce(body: real, vitalityWeight: real, realm: int): Pool
  {
    PoolFor(body, 100, RealmMultiplier(realm), vitalityWeight)
  }

  /** Qi from the Spirit total and the Magnitude weight. */
  function Qi(spirit: real, magnitudeWeight: real, realm: int): Pool
  {
    PoolFor(spirit, 50, RealmMultiplier(realm), magnitudeWeight)
  }

  /** Essence from the Mind total and the Memory weight. */
  function Essence(mind: real, memoryWeight: real, realm: int): Pool
  {
    PoolFor(mind, 20, RealmMultiplier(realm), memoryWeight)
  }

  /** After a recalculation of stats whose point sources are non-negative,
      every pool's adjustment is between 0 and its initial value. */
  lemma RecalculatedPoolsBounded(stats: Stats.Table, realm: int)
    requires Stats.Complete(stats) && forall m :: Stats.NonNegative(stats[m])
    ensures var derived := Stats.Recalculated(stats);
      var lifeforce := Lifeforce(Stats.PrimaryTotal(stats, Stats.Body), derived[Stats.Vitality].weight, realm);
      var qi := Qi(Stats.PrimaryTotal(stats, Stats.Spirit), derived[Stats.Magnitude].weight, realm);
      var essence := Essence(Stats.PrimaryTotal(stats, Stats.Mind), derived[Stats.Memory].weight, realm);
      && 0 <= lifeforce.adjustment <= lifeforce.initial
      && 0 <= qi.adjustment <= qi.initial
      && 0 <= essence.adjustment <= essence.initial
  {
    var derived := Stats.Recalculated(stats);
    var m := RealmMultiplier(realm);
    Stats.DerivedBounds(stats, Stats.Vitality);
    Stats.DerivedBounds(stats, Stats.Magnitude);
    Stats.DerivedBounds(stats, Stats.Memory);
    Stats.PartialTotalNonNegative(stats, Stats.Secondaries(Stats.Body), 5);
    Stats.PartialTotalNonNegative(stats, Stats.Secondaries(Stats.Spirit), 5);
    Stats.PartialTotalNonNegative(stats, Stats.Secondaries(Stats.Mind), 5);
    PoolBounds(Stats.PrimaryTotal(stats, Stats.Body), 100, m, derived[Stats.Vitality].weight);
    PoolBounds(Stats.PrimaryTotal(stats, Stats.Spirit), 50, m, derived[Stats.Magnitude].weight);
    PoolBounds(Stats.PrimaryTotal(stats, Stats.Mind), 20, m, derived[Stats.Memory].weight);
  }

  /** A new character in realm 1 (every primary total 1.0, every weight
      0.2) has 120 Lifeforce, 60 Qi and 24 Essence. */
  lemma FreshCharacterEnergy()
    ensures Lifeforce(1.0, 0.2, 1) == Pool(100, 20, 120)
    ensures Qi(1.0, 0.2, 1) == Pool(50, 10, 60)
    ensures Essence(1.0, 0.2, 1) == Pool(20, 4, 24)
  {
    assert RealmMultiplier(1) == 1;
    Truncation.TruncOfInt(100);
    Truncation.TruncOfInt(20);
    Truncation.TruncOfInt(50);
    Truncation.TruncOfInt(10);
    Truncation.TruncOfInt(4);
  }

  /** The three pools by the names the calculator exposes them under. */
  function Values(lifeforce: Pool, qi: Pool, essence: Pool): (r: map<string, Pool>)
    ensures r.Keys == {"Lifeforce", "Qi", "Essence"}
  {
    map["Lifeforce" := lifeforce, "Qi" := qi, "Essence" := essence]
  }

  /** The pool stored under `key` in loaded data, or the current one when
      the key is missing. */
  function Loaded(data: map<string, Pool>, key: string, current: Pool): Pool
  {
    if key in data then data[key] else current
  }

  /** Loading the exposed values into any calculator restores exactly those
      pools. */
  lemma LoadValuesRoundTrip(lifeforce: Pool, qi: Pool, essence: Pool, a: Pool, b: Pool, c: Pool)
    ensures var data := Values(lifeforce, qi, essence);
      Loaded(data, "Lifeforce", a) == lifeforce && Loaded(data, "Qi", b) == qi
      && Loaded(data, "Essence", c) == essence
  {
    var data := Values(lifeforce, qi, essence);
    assert data["Lifeforce"] == lifeforce;
  }

  class EnergyCalculator {
    const statsCalculator: Stats.StatsCalculator
    var lifeforce: Pool
    var qi: Pool
    var essence: Pool

    /** A new calculator: all three pools zeroed, nothing calculated yet. */
    constructor (statsCalculator: Stats.StatsCalculator)
      ensures this.statsCalculator == statsCalculator
      ensures lifeforce == Empty && qi == Empty && essence == Empty
    {
      this.statsCalculator := statsCalculator;
      lifeforce := Empty;
      qi := Empty;
      essence := Empty;
    }

    /** calculate: every field of the three pools is overwritten from the
        current primary totals, realm and weights; the previous pools are
        never read. */
    method Calculate(realm: int)
      requires statsCalculator.Valid()
      modifies this`lifeforce, this`qi, this`essence
      ensures lifeforce == Lifeforce(statsCalculator.primaryTotals[Stats.Body],
                                     statsCalculator.stats[Stats.Vitality].weight, realm)
      ensures qi == Qi(statsCalculator.primaryTotals[Stats.Spirit],
                       statsCalculator.stats[Stats.Magnitude].weight, realm)
      ensures essence == Essence(statsCalculator.primaryTotals[Stats.Mind],
                                 statsCalculator.stats[Stats.Memory].weight, realm)
    {
      var body := statsCalculator.primaryTotals[Stats.Body];
      var mind := statsCalculator.primaryTotals[Stats.Mind];
      var spirit := statsCalculator.primaryTotals[Stats.Spirit];
      var multiplier := RealmMultiplier(realm);

      var vitalityWeight := statsCalculator.stats[Stats.Vitality].weight;
      var magnitudeWeight := statsCalculator.stats[Stats.Magnitude].weight;
      var memoryWeight := statsCalculator.stats[Stats.Memory].weight;

      lifeforce := PoolFor(body, 100, multiplier, vitalityWeight);
      qi := PoolFor(spirit, 50, multiplier, magnitudeWeight);
      essence := PoolFor(mind, 20, multiplier, memoryWeight);
    }

    /** reset: zero the pools and recalculate, which ends exactly where a
        plain calculate ends. */
    method Reset(realm: int)
      requires statsCalculator.Valid()
      modifies this`lifeforce, this`qi, this`essence
      ensures lifeforce == Lifeforce(statsCalculator.primaryTotals[Stats.Body],
                                     statsCalculator.stats[Stats.Vitality].weight, realm)
      ensures qi == Qi(statsCalculator.primaryTotals[Stats.Spirit],
                       statsCalculator.stats[Stats.Magnitude].weight, realm)
      ensures essence == Essence(statsCalculator.primaryTotals[Stats.Mind],
                                 statsCalculator.stats[Stats.Memory].weight, realm)
    {
      lifeforce := Empty;
      qi := Empty;
      essence := Empty;
      Calculate(realm);
    }

    /** load_energy: empty data changes nothing; otherwise each pool is
        replaced by the loaded one under its name, if any. */
    method LoadEnergy(data: map<string, Pool>)
      modifies this`lifeforce, this`qi, this`essence
      ensures |data| == 0 ==> lifeforce == old(lifeforce) && qi == old(qi) && essence == old(essence)
      ensures |data| > 0 ==>
        && lifeforce == Loaded(data, "Lifeforce", old(lifeforce))
        && qi == Loaded(data, "Qi", old(qi))
        && essence == Loaded(data, "Essence", old(essence))
    {
      if |data| == 0 {
        return;
      }
      lifeforce := if "Lifeforce" in data then data["Lifeforce"] else lifeforce;
      qi := if "Qi" in data then data["Qi"] else qi;
      essence := if "Essence" in data then data["Essence"] else essence;
    }

    /** get_energy_values: the three pools under their names. */
    method GetEnergyValues() returns (r: map<string, Pool>)
      ensures r == Values(lifeforce, qi, essence)
    {
      r := map["Lifeforce" := lifeforce, "Qi" := qi, "Essence" := essence];
    }
  }
}
