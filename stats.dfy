/** The stat pools: fifteen secondary stats in three groups, each holding
    auto, free and train points, two global point pools spent by an
    all-or-nothing update, and the recalculation pass that derives each
    stat's weight, constraint and total and each group's primary total. */
module Stats {
  import opened Wrappers

  /** One secondary stat: its three point sources and the three values the
      recalculation derives from them. */
  datatype Stat = Stat(auto: int, free: int, train: int, weight: real, constraint: real, total: int)

  /** The primary groups; the recalculation visits them in the order of
      Primaries. */
  datatype Primary = Body | Mind | Spirit

  datatype Secondary =
    | Endurance | Vitality | Strength | Agility | Dexterity
    | Intelligence | Memory | Perception | Clarity | Focus
    | Adaptability | Density | Purity | Fortitude | Magnitude

  const Primaries: seq<Primary> := [Body, Mind, Spirit]

  /** The secondary stats of a primary group, in table order. */
  function Secondaries(primary: Primary): seq<Secondary>
  {
    match primary
    case Body => [Endurance, Vitality, Strength, Agility, Dexterity]
    case Mind => [Intelligence, Memory, Perception, Clarity, Focus]
    case Spirit => [Adaptability, Density, Purity, Fortitude, Magnitude]
  }

  /** The group holding a stat. */
  function GroupOf(stat: Secondary): Primary
  {
    match stat
    case Endurance | Vitality | Strength | Agility | Dexterity => Body
    case Intelligence | Memory | Perception | Clarity | Focus => Mind
    case _ => Spirit
  }

  /** The position of a group in the visiting order. */
  function GroupIndex(primary: Primary): (r: nat)
    ensures r < 3
  {
    match primary
    case Body => 0
    case Mind => 1
    case Spirit => 2
  }

  /** The position of a stat within its group. */
  function Slot(stat: Secondary): nat
  {
    match stat
    case Endurance | Intelligence | Adaptability => 0
    case Vitality | Memory | Density => 1
    case Strength | Perception | Purity => 2
    case Agility | Clarity | Fortitude => 3
    case _ => 4
  }

  /** The j-th stat of a group belongs to it and sits at position j. */
  lemma SlotOf(primary: Primary, j: nat)
    requires j < 5
    ensures |Secondaries(primary)| == 5
    ensures GroupOf(Secondaries(primary)[j]) == primary && Slot(Secondaries(primary)[j]) == j
  {
  }

  /** A group and a position name one stat. */
  lemma SlotNamesOne(k: Secondary, primary: Primary, j: nat)
    requires j < 5 && GroupOf(k) == primary && Slot(k) == j
    ensures k == Secondaries(primary)[j]
  {
  }

  /** Each stat sits in exactly the group GroupOf names. */
  lemma GroupsPartition(stat: Secondary, primary: Primary)
    ensures stat in Secondaries(primary) <==> GroupOf(stat) == primary
    ensures Primaries[GroupIndex(primary)] == primary
  {
  }

  /** The names the source keys its tables by. */
  function PrimaryName(p: Primary): string
  {
    match p
    case Body => "Body"
    case Mind => "Mind"
    case Spirit => "Spirit"
  }

  function PrimaryNamed(name: string): (r: Option<Primary>)
    ensures r.Some? ==> PrimaryName(r.value) == name
  {
    if name == "Body" then Some(Body)
    else if name == "Mind" then Some(Mind)
    else if name == "Spirit" then Some(Spirit)
    else None
  }

  function SecondaryName(s: Secondary): string
  {
    match s
    case Endurance => "Endurance"
    case Vitality => "Vitality"
    case Strength => "Strength"
    case Agility => "Agility"
    case Dexterity => "Dexterity"
    case Intelligence => "Intelligence"
    case Memory => "Memory"
    case Perception => "Perception"
    case Clarity => "Clarity"
    case Focus => "Focus"
    case Adaptability => "Adaptability"
    case Density => "Density"
    case Purity => "Purity"
    case Fortitude => "Fortitude"
    case Magnitude => "Magnitude"
  }

  function SecondaryNamed(name: string): (r: Option<Secondary>)
    ensures r.Some? ==> SecondaryName(r.value) == name
  {
    if name == "Endurance" then Some(Endurance)
    else if name == "Vitality" then Some(Vitality)
    else if name == "Strength" then Some(Strength)
    else if name == "Agility" then Some(Agility)
    else if name == "Dexterity" then Some(Dexterity)
    else if name == "Intelligence" then Some(Intelligence)
    else if name == "Memory" then Some(Memory)
    else if name == "Perception" then Some(Perception)
    else if name == "Clarity" then Some(Clarity)
    else if name == "Focus" then Some(Focus)
    else if name == "Adaptability" then Some(Adaptability)
    else if name == "Density" then Some(Density)
    else if name == "Purity" then Some(Purity)
    else if name == "Fortitude" then Some(Fortitude)
    else if name == "Magnitude" then Some(Magnitude)
    else None
  }

  /** Every stat, group by group. */
  const AllStats: seq<Secondary> := Secondaries(Body) + Secondaries(Mind) + Secondaries(Spirit)

  /** The fields a stat record has. */
  const Fields: set<string> := {"auto", "free", "train", "weight", "constraint", "total"}

  /** Points counted towards the weight: auto and free, not train. */
  function Manual(s: Stat): int { s.auto + s.free }

  /** All points of a stat. */
  function Points(s: Stat): int { s.auto + s.free + s.train }

  /** Two records with the same point sources. */
  predicate SameRaw(a: Stat, b: Stat)
  {
    a.auto == b.auto && a.free == b.free && a.train == b.train
  }

  type Table = map<Secondary, Stat>

  /** A table with a record for every stat. */
  predicate Complete(stats: Table)
  {
    forall n: Secondary :: n in stats
  }

  /** Σ(auto + free + train) over the names. */
  function SumPoints(stats: Table, names: seq<Secondary>): int
    requires Complete(stats)
  {
    if |names| == 0 then 0
    else SumPoints(stats, names[..|names| - 1]) + Points(stats[names[|names| - 1]])
  }

  /** Σ(auto + free) over the names. */
  function SumManual(stats: Table, names: seq<Secondary>): int
    requires Complete(stats)
  {
    if |names| == 0 then 0
    else SumManual(stats, names[..|names| - 1]) + Manual(stats[names[|names| - 1]])
  }

  /** A stat's share of its group's auto + free points, 0 for an empty group. */
  function Weight(s: Stat, manualTotal: int): real
  {
    if manualTotal > 0 then Manual(s) as real / manualTotal as real else 0.0
  }

  /** A stat's share of its group's points, in percent, 0 for an empty group. */
  function Constraint(total: int, totalPoints: int): real
  {
    if totalPoints > 0 then (total as real / totalPoints as real) * 100.0 else 0.0
  }

  /** The sum of the weights over the names, each against manualTotal: the
      divisor the recalculation normalises by. */
  function WeightSum(stats: Table, names: seq<Secondary>, manualTotal: int): real
    requires Complete(stats)
  {
    if |names| == 0 then 0.0
    else WeightSum(stats, names[..|names| - 1], manualTotal) + Weight(stats[names[|names| - 1]], manualTotal)
  }

  lemma SharesAdd(x: real, y: real, t: real)
    requires t > 0.0
    ensures x / t + y / t == (x + y) / t
  {
    var a, b := x / t, y / t;
    assert a * t == x && b * t == y;
    assert (a + b) * t == x + y;
  }

  /** Summing shares of a positive total gives the summed parts over it. */
  lemma {:induction false} WeightSumIsShare(stats: Table, names: seq<Secondary>, manualTotal: int)
    requires Complete(stats) && manualTotal > 0
    ensures WeightSum(stats, names, manualTotal) == SumManual(stats, names) as real / manualTotal as real
  {
    if |names| > 0 {
      var init := names[..|names| - 1];
      WeightSumIsShare(stats, init, manualTotal);
      SharesAdd(SumManual(stats, init) as real, Manual(stats[names[|names| - 1]]) as real, manualTotal as real);
    }
  }

  /** In a group with positive Σ(auto + free) the weights sum to 1. */
  lemma WeightsSumToOne(stats: Table, group: seq<Secondary>)
    requires Complete(stats) && SumManual(stats, group) > 0
    ensures WeightSum(stats, group, SumManual(stats, group)) == 1.0
  {
    var total := SumManual(stats, group);
    WeightSumIsShare(stats, group, total);
    assert total as real / total as real == 1.0;
  }

  /** The recalculation divides each weight by the sum of its group's
      weights; that sum is 1, so the normalised weight is the weight. */
  lemma NormalizedIsWeight(stats: Table, group: seq<Secondary>, s: Stat)
    requires Complete(stats) && SumManual(stats, group) > 0
    ensures var mt := SumManual(stats, group);
      WeightSum(stats, group, mt) == 1.0 && Weight(s, mt) / WeightSum(stats, group, mt) == Weight(s, mt)
  {
    WeightsSumToOne(stats, group);
  }

  /** Σ total · weight over the first k stats of the group. */
  function PartialTotal(stats: Table, group: seq<Secondary>, k: nat): real
    requires Complete(stats) && k <= |group|
  {
    if k == 0 then 0.0
    else PartialTotal(stats, group, k - 1)
         + Points(stats[group[k - 1]]) as real * Weight(stats[group[k - 1]], SumManual(stats, group))
  }

  /** One more stat of the group adds its points times its weight. */
  lemma PartialTotalStep(stats: Table, primary: Primary, j: nat, acc: real, total: int, w: real)
    requires Complete(stats) && j < 5
    requires |Secondaries(primary)| == 5
    requires acc == PartialTotal(stats, Secondaries(primary), j)
    requires total == Points(stats[Secondaries(primary)[j]])
    requires w == Weight(stats[Secondaries(primary)[j]], SumManual(stats, Secondaries(primary)))
    ensures acc + total as real * w == PartialTotal(stats, Secondaries(primary), j + 1)
  {
  }

  /** A group's primary total. */
  function PrimaryTotal(stats: Table, primary: Primary): real
    requires Complete(stats)
  {
    PartialTotal(stats, Secondaries(primary), 5)
  }

  /** A stat with its derived values recomputed from its point sources and
      its group's sums. */
  function Refreshed(s: Stat, totalPoints: int, manualTotal: int): Stat
  {
    s.(weight := Weight(s, manualTotal), total := Points(s), constraint := Constraint(Points(s), totalPoints))
  }

  /** A stat after a recalculation pass. */
  function RecalculatedAt(stats: Table, k: Secondary): Stat
    requires Complete(stats)
  {
    var group := Secondaries(GroupOf(k));
    Refreshed(stats[k], SumPoints(stats, group), SumManual(stats, group))
  }

  /** The stat table after a recalculation pass. */
  function Recalculated(stats: Table): (r: Table)
    requires Complete(stats)
    ensures Complete(r)
  {
    map k | k in stats :: RecalculatedAt(stats, k)
  }

  /** The primary totals after a recalculation pass. */
  function PrimaryTotals(stats: Table): map<Primary, real>
    requires Complete(stats)
  {
    map p | p in Primaries :: PrimaryTotal(stats, p)
  }

  lemma PrimaryTotalsKeys(stats: Table)
    requires Complete(stats)
    ensures forall p: Primary :: p in PrimaryTotals(stats)
  {
    forall p: Primary
      ensures p in Primaries
    {
      GroupsPartition(Endurance, p);
    }
  }

  /** Every derived value is a function of point sources alone: two tables
      that agree on a group's point sources agree on its sums. */
  lemma {:induction false} SumsOfSameRaw(a: Table, b: Table, names: seq<Secondary>)
    requires Complete(a) && Complete(b)
    requires forall n :: n in names ==> SameRaw(a[n], b[n])
    ensures SumPoints(a, names) == SumPoints(b, names)
    ensures SumManual(a, names) == SumManual(b, names)
  {
    if |names| > 0 {
      SumsOfSameRaw(a, b, names[..|names| - 1]);
    }
  }

  lemma {:induction false} PartialTotalOfSameRaw(a: Table, b: Table, group: seq<Secondary>, k: nat)
    requires Complete(a) && Complete(b) && k <= |group|
    requires forall n :: n in group ==> SameRaw(a[n], b[n])
    ensures PartialTotal(a, group, k) == PartialTotal(b, group, k)
  {
    SumsOfSameRaw(a, b, group);
    if k > 0 {
      PartialTotalOfSameRaw(a, b, group, k - 1);
    }
  }

  /** A group's primary total depends on that group's five stats only. */
  lemma PrimaryTotalOfSameRaw(a: Table, b: Table, primary: Primary)
    requires Complete(a) && Complete(b)
    requires forall n :: GroupOf(n) == primary ==> SameRaw(a[n], b[n])
    ensures PrimaryTotal(a, primary) == PrimaryTotal(b, primary)
  {
    forall n | n in Secondaries(primary)
      ensures SameRaw(a[n], b[n])
    {
      GroupsPartition(n, primary);
    }
    PartialTotalOfSameRaw(a, b, Secondaries(primary), 5);
  }

  predicate NonNegative(s: Stat)
  {
    s.auto >= 0 && s.free >= 0 && s.train >= 0
  }

  lemma {:induction false} SumsNonNegative(stats: Table, names: seq<Secondary>)
    requires Complete(stats) && forall m :: m in names ==> NonNegative(stats[m])
    ensures SumPoints(stats, names) >= 0 && SumManual(stats, names) >= 0
  {
    if |names| > 0 {
      SumsNonNegative(stats, names[..|names| - 1]);
    }
  }

  /** A term of a sum of non-negative terms is at most the sum. */
  lemma {:induction false} PartBelowSum(stats: Table, names: seq<Secondary>, n: Secondary)
    requires Complete(stats) && n in names
    requires forall m :: m in names ==> NonNegative(stats[m])
    ensures 0 <= Points(stats[n]) <= SumPoints(stats, names)
    ensures 0 <= Manual(stats[n]) <= SumManual(stats, names)
  {
    var last := names[|names| - 1];
    var init := names[..|names| - 1];
    assert names == init + [last];
    SumsNonNegative(stats, init);
    if n != last {
      PartBelowSum(stats, init, n);
    }
  }

  lemma ShareBounds(a: real, t: real)
    requires 0.0 <= a <= t && t > 0.0
    ensures 0.0 <= a / t <= 1.0
  {
    var q := a / t;
    assert q * t == a;
  }

  /** With non-negative points, each primary total is non-negative. */
  lemma {:induction false} PartialTotalNonNegative(stats: Table, group: seq<Secondary>, k: nat)
    requires Complete(stats) && k <= |group| && forall m :: NonNegative(stats[m])
    ensures PartialTotal(stats, group, k) >= 0.0
  {
    if k > 0 {
      PartialTotalNonNegative(stats, group, k - 1);
      var s := stats[group[k - 1]];
      var mt := SumManual(stats, group);
      SumsNonNegative(stats, group);
      if mt > 0 {
        var q := Manual(s) as real / mt as real;
        assert q * mt as real == Manual(s) as real;
      }
      assert Weight(s, mt) >= 0.0;
    }
  }

  /** With non-negative points, every recalculated weight is in [0, 1],
      every constraint in [0, 100], and every total is the stat's points. */
  lemma DerivedBounds(stats: Table, stat: Secondary)
    requires Complete(stats) && forall m :: NonNegative(stats[m])
    ensures 0.0 <= Recalculated(stats)[stat].weight <= 1.0
    ensures 0.0 <= Recalculated(stats)[stat].constraint <= 100.0
    ensures Recalculated(stats)[stat].total == Points(stats[stat])
    ensures SameRaw(Recalculated(stats)[stat], stats[stat])
  {
    var group := Secondaries(GroupOf(stat));
    GroupsPartition(stat, GroupOf(stat));
    PartBelowSum(stats, group, stat);
    var tp, mt := SumPoints(stats, group), SumManual(stats, group);
    if tp > 0 {
      ShareBounds(Points(stats[stat]) as real, tp as real);
    }
    if mt > 0 {
      ShareBounds(Manual(stats[stat]) as real, mt as real);
    }
  }

  /** The record every stat starts with. */
  const Fresh: Stat := Stat(1, 0, 0, 0.2, 20.0, 1)

  lemma InAllStats(k: Secondary)
    ensures k in AllStats
  {
    GroupsPartition(k, GroupOf(k));
  }

  /** The stat table of a new calculator, before its first recalculation. */
  function InitialStats(): (r: Table)
    ensures forall k :: k in r && r[k] == Fresh
  {
    forall k: Secondary ensures k in AllStats { InAllStats(k); }
    map k: Secondary | k in AllStats :: Fresh
  }

  /** Sums over stats that all hold one auto point count one per name. */
  lemma {:induction false} UniformSums(stats: Table, names: seq<Secondary>)
    requires Complete(stats) && forall n :: n in names ==> stats[n] == Fresh
    ensures SumPoints(stats, names) == |names| && SumManual(stats, names) == |names|
  {
    if |names| > 0 {
      UniformSums(stats, names[..|names| - 1]);
    }
  }

  /** Σ total · (auto + free) over the first k stats of the group. */
  function SumProducts(stats: Table, group: seq<Secondary>, k: nat): int
    requires Complete(stats) && k <= |group|
  {
    if k == 0 then 0
    else SumProducts(stats, group, k - 1) + Points(stats[group[k - 1]]) * Manual(stats[group[k - 1]])
  }

  lemma ScaledShare(p: int, m: int, t: int)
    requires t > 0
    ensures p as real * (m as real / t as real) == (p * m) as real / t as real
  {
    var q := m as real / t as real;
    assert q * t as real == m as real;
    assert (p as real * q) * t as real == (p * m) as real;
  }

  /** In a group with positive Σ(auto + free), the primary total is
      Σ total · (auto + free) / Σ(auto + free). */
  lemma {:induction false} PartialTotalClosed(stats: Table, group: seq<Secondary>, k: nat)
    requires Complete(stats) && k <= |group| && SumManual(stats, group) > 0
    ensures PartialTotal(stats, group, k)
            == SumProducts(stats, group, k) as real / SumManual(stats, group) as real
  {
    if k > 0 {
      PartialTotalClosed(stats, group, k - 1);
      var s := stats[group[k - 1]];
      var t := SumManual(stats, group);
      ScaledShare(Points(s), Manual(s), t);
      SharesAdd(SumProducts(stats, group, k - 1) as real, (Points(s) * Manual(s)) as real, t as real);
    }
  }

  /** Fresh stats contribute one per stat to the integer sums. */
  lemma {:induction false} UniformProducts(stats: Table, group: seq<Secondary>, k: nat)
    requires Complete(stats) && k <= |group|
    requires forall i :: 0 <= i < k ==> stats[group[i]] == Fresh
    ensures SumProducts(stats, group, k) == k
  {
    if k > 0 {
      UniformProducts(stats, group, k - 1);
      FreshProduct(stats[group[k - 1]]);
    }
  }

  lemma FreshProduct(s: Stat)
    requires s == Fresh
    ensures Points(s) * Manual(s) == 1
  {
  }

  lemma UniformGroup(stats: Table, group: seq<Secondary>)
    requires Complete(stats) && forall n :: n in group ==> stats[n] == Fresh
    ensures SumManual(stats, group) == |group| && SumProducts(stats, group, |group|) == |group|
  {
    UniformSums(stats, group);
    EveryMemberFresh(stats, group);
    UniformProducts(stats, group, |group|);
  }

  lemma EveryMemberFresh(stats: Table, group: seq<Secondary>)
    requires Complete(stats) && forall n :: n in group ==> stats[n] == Fresh
    ensures forall i :: 0 <= i < |group| ==> stats[group[i]] == Fresh
  {
    forall i | 0 <= i < |group|
      ensures stats[group[i]] == Fresh
    {
      assert group[i] in group;
    }
  }

  lemma UniformPrimaryTotal(stats: Table, primary: Primary)
    requires Complete(stats) && SumManual(stats, Secondaries(primary)) == 5
    requires SumProducts(stats, Secondaries(primary), 5) == 5
    ensures PrimaryTotal(stats, primary) == 1.0
  {
    PartialTotalClosed(stats, Secondaries(primary), 5);
  }

  lemma FreshRefreshed(s: Stat)
    requires s == Fresh
    ensures Refreshed(s, 5, 5) == Fresh
  {
  }

  /** A new calculator: every weight 0.2, every constraint 20, every total
      1, and each primary total 1.0. */
  lemma InitialRecalculation()
    ensures forall k :: Recalculated(InitialStats())[k] == Fresh
    ensures PrimaryTotals(InitialStats()) == map[Body := 1.0, Mind := 1.0, Spirit := 1.0]
  {
    InitialStatsFixed();
    InitialPrimaryTotals();
  }

  lemma InitialStatsFixed()
    ensures forall k :: Recalculated(InitialStats())[k] == Fresh
  {
    var s := InitialStats();
    forall k
      ensures Recalculated(s)[k] == Fresh
    {
      FreshRecalculatedAt(s, k);
    }
  }

  lemma FreshRecalculatedAt(s: Table, k: Secondary)
    requires Complete(s) && forall n :: s[n] == Fresh
    ensures RecalculatedAt(s, k) == Fresh
  {
    UniformSums(s, Secondaries(GroupOf(k)));
    FreshRefreshed(s[k]);
  }

  lemma InitialPrimaryTotals()
    ensures PrimaryTotals(InitialStats()) == map[Body := 1.0, Mind := 1.0, Spirit := 1.0]
  {
    var s := InitialStats();
    InitialPrimaryTotal(s, Body);
    InitialPrimaryTotal(s, Mind);
    InitialPrimaryTotal(s, Spirit);
    UnitTotals(s);
  }

  lemma InitialPrimaryTotal(s: Table, primary: Primary)
    requires Complete(s) && forall n :: s[n] == Fresh
    ensures PrimaryTotal(s, primary) == 1.0
  {
    var group := Secondaries(primary);
    assert |group| == 5;
    UniformGroup(s, group);
    UniformPrimaryTotal(s, primary);
  }

  lemma UnitTotals(s: Table)
    requires Complete(s)
    requires PrimaryTotal(s, Body) == 1.0 && PrimaryTotal(s, Mind) == 1.0 && PrimaryTotal(s, Spirit) == 1.0
    ensures PrimaryTotals(s) == map[Body := 1.0, Mind := 1.0, Spirit := 1.0]
  {
    assert PrimaryTotals(s).Keys == {Body, Mind, Spirit};
  }

  /** Σ free or Σ train over the names. */
  function SumPool(stats: Table, names: seq<Secondary>, category: string): int
    requires Complete(stats)
  {
    if |names| == 0 then 0
    else
      SumPool(stats, names[..|names| - 1], category) + PoolOf(stats[names[|names| - 1]], category)
  }

  /** The free or train points of a stat. */
  function PoolOf(s: Stat, category: string): int
  {
    if category == "free" then s.free else s.train
  }

  lemma PoolOfAdjusted(s: Stat, category: string, change: int)
    requires category == "free" || category == "train"
    ensures PoolOf(Adjusted(s, category, change), category) == PoolOf(s, category) + change
  {
  }

  /** A stat with `change` added to one of its fields. */
  function Adjusted(s: Stat, category: string, change: int): Stat
  {
    match category
    case "auto" => s.(auto := s.auto + change)
    case "free" => s.(free := s.free + change)
    case "train" => s.(train := s.train + change)
    case "weight" => s.(weight := s.weight + change as real)
    case "constraint" => s.(constraint := s.constraint + change as real)
    case _ => s.(total := s.total + change)
  }

  predicate Distinct(names: seq<Secondary>)
  {
    forall a, b :: 0 <= a < b < |names| ==> names[a] != names[b]
  }

  /** Changing one stat's pool field by `change` changes the pool's sum over
      a list naming that stat at most once by exactly `change` if listed. */
  lemma {:induction false} SumPoolAdjusted(stats: Table, names: seq<Secondary>, stat: Secondary,
                                           category: string, change: int)
    requires Complete(stats) && Distinct(names)
    requires category == "free" || category == "train"
    ensures SumPool(stats[stat := Adjusted(stats[stat], category, change)], names, category)
            == SumPool(stats, names, category) + (if stat in names then change else 0)
  {
    if |names| > 0 {
      var init := names[..|names| - 1];
      var last := names[|names| - 1];
      assert stat in names <==> stat in init || stat == last by {
        assert names == init + [last];
      }
      assert stat in init ==> stat != last;
      SumPoolAdjusted(stats, init, stat, category, change);
      PoolOfAdjusted(stats[stat], category, change);
    }
  }

  /** The recalculation leaves every point source alone. */
  lemma {:induction false} SumPoolRecalculated(stats: Table, names: seq<Secondary>, category: string)
    requires Complete(stats)
    ensures SumPool(Recalculated(stats), names, category) == SumPool(stats, names, category)
  {
    if |names| > 0 {
      SumPoolRecalculated(stats, names[..|names| - 1], category);
    }
  }

  /** Σ free or Σ train over every stat, group by group. */
  function PoolTotal(stats: Table, category: string): int
    requires Complete(stats)
  {
    SumPool(stats, Secondaries(Body), category) + SumPool(stats, Secondaries(Mind), category)
    + SumPool(stats, Secondaries(Spirit), category)
  }

  /** A successful free or train update moves `change` points from the pool
      into the stat: pool + Σ category over all stats is conserved. */
  lemma PoolConserved(stats: Table, pool: int, stat: Secondary, category: string, change: int)
    requires Complete(stats)
    requires category == "free" || category == "train"
    ensures var after := Recalculated(stats[stat := Adjusted(stats[stat], category, change)]);
      (pool - change) + PoolTotal(after, category) == pool + PoolTotal(stats, category)
  {
    GroupPoolMoves(stats, Body, stat, category, change);
    GroupPoolMoves(stats, Mind, stat, category, change);
    GroupPoolMoves(stats, Spirit, stat, category, change);
  }

  /** Within one group the update moves `change` points into the group
      exactly when the stat belongs to it, and the recalculation keeps the
      group's points. */
  lemma GroupPoolMoves(stats: Table, p: Primary, stat: Secondary, category: string, change: int)
    requires Complete(stats)
    requires category == "free" || category == "train"
    ensures var adjusted := stats[stat := Adjusted(stats[stat], category, change)];
      && SumPool(adjusted, Secondaries(p), category)
         == SumPool(stats, Secondaries(p), category) + (if GroupOf(stat) == p then change else 0)
      && SumPool(Recalculated(adjusted), Secondaries(p), category) == SumPool(adjusted, Secondaries(p), category)
  {
    var adjusted := stats[stat := Adjusted(stats[stat], category, change)];
    assert Distinct(Secondaries(p));
    GroupsPartition(stat, p);
    SumPoolAdjusted(stats, Secondaries(p), stat, category, change);
    SumPoolRecalculated(adjusted, Secondaries(p), category);
  }

  /** The table after a level-up's loop over the names: one more auto
      point, one name at a time. */
  function Bumped(stats: Table, names: seq<Secondary>): (r: Table)
    requires Complete(stats)
    ensures Complete(r)
  {
    if |names| == 0 then stats
    else
      var before := Bumped(stats, names[..|names| - 1]);
      var last := names[|names| - 1];
      before[last := before[last].(auto := before[last].auto + 1)]
  }

  /** Over a list without repeats, the loop adds exactly one auto point to
      each listed stat and changes nothing else. */
  lemma {:induction false} BumpedSpec(stats: Table, names: seq<Secondary>, k: Secondary)
    requires Complete(stats) && Distinct(names)
    ensures Bumped(stats, names)[k] == if k in names then stats[k].(auto := stats[k].auto + 1) else stats[k]
  {
    if |names| > 0 {
      var init := names[..|names| - 1];
      assert Distinct(init);
      assert names == init + [names[|names| - 1]];
      BumpedSpec(stats, init, k);
    }
  }

  /** A level-up of one group adds one auto point to each of its stats,
      leaves every other stat's record as it was, and so leaves every other
      group's primary total as it was. */
  lemma LevelUpTouchesOneGroup(stats: Table, primary: Primary, k: Secondary, other: Primary)
    requires Complete(stats) && other != primary
    ensures var bumped := Bumped(stats, Secondaries(primary));
      && (GroupOf(k) == primary ==> bumped[k] == stats[k].(auto := stats[k].auto + 1))
      && (GroupOf(k) != primary ==> bumped[k] == stats[k])
      && PrimaryTotal(bumped, other) == PrimaryTotal(stats, other)
  {
    var group := Secondaries(primary);
    var bumped := Bumped(stats, group);
    assert Distinct(group);
    GroupsPartition(k, primary);
    BumpedSpec(stats, group, k);
    forall n | GroupOf(n) == other
      ensures SameRaw(bumped[n], stats[n])
    {
      GroupsPartition(n, primary);
      BumpedSpec(stats, group, n);
    }
    PrimaryTotalOfSameRaw(bumped, stats, other);
  }

  class StatsCalculator {
    var stats: Table
    var primaryTotals: map<Primary, real>
    var freePoints: int
    var trainPoints: int

    ghost predicate Valid()
      reads this
    {
      Complete(stats) && forall p: Primary :: p in primaryTotals
    }

    /** A new calculator: one auto point per stat, empty pools, then a
        recalculation. */
    constructor ()
      ensures Valid()
      ensures forall k :: stats[k] == Fresh
      ensures primaryTotals == map[Body := 1.0, Mind := 1.0, Spirit := 1.0]
      ensures freePoints == 0 && trainPoints == 0
    {
      stats := InitialStats();
      primaryTotals := map[Body := 1.0, Mind := 1.0, Spirit := 1.0];
      freePoints := 0;
      trainPoints := 0;
      new;
      InitialValid(stats, primaryTotals);
      Calculate();
      StartsFresh(stats, primaryTotals);
    }

    /** The state a new calculator starts its recalculation from is valid. */
    static lemma InitialValid(stats: Table, primaryTotals: map<Primary, real>)
      requires stats == InitialStats() && primaryTotals == map[Body := 1.0, Mind := 1.0, Spirit := 1.0]
      ensures Complete(stats) && forall p: Primary :: p in primaryTotals
    {
      forall p: Primary
        ensures p in primaryTotals
      {
        GroupsPartition(Endurance, p);
      }
    }

    /** Recalculating the initial table changes nothing: every stat stays
        fresh and every primary total is 1. */
    static lemma StartsFresh(stats: Table, primaryTotals: map<Primary, real>)
      requires stats == Recalculated(InitialStats()) && primaryTotals == PrimaryTotals(InitialStats())
      ensures forall k :: stats[k] == Fresh
      ensures primaryTotals == map[Body := 1.0, Mind := 1.0, Spirit := 1.0]
    {
      InitialRecalculation();
    }

    /** The recalculation pass: group by group, recompute the group's
        stats and store its primary total. */
    method Calculate()
      requires Valid()
      modifies this`stats, this`primaryTotals
      ensures Valid()
      ensures stats == Recalculated(old(stats)) && primaryTotals == PrimaryTotals(old(stats))
    {
      ghost var raw := stats;
      var i := 0;
      while i < |Primaries|
        invariant 0 <= i <= |Primaries|
        invariant Complete(stats) && forall p: Primary :: p in primaryTotals
        invariant forall k :: stats[k] == if GroupIndex(GroupOf(k)) < i then RecalculatedAt(raw, k) else raw[k]
        invariant forall p :: GroupIndex(p) < i ==> primaryTotals[p] == PrimaryTotal(raw, p)
      {
        var primary := Primaries[i];
        ghost var before := stats;
        var primaryTotal := CalculateGroup(raw, primary);
        GroupDone(raw, before, stats, i);
        ghost var totalsBefore := primaryTotals;
        primaryTotals := primaryTotals[primary := primaryTotal];
        TotalDone(raw, totalsBefore, primaryTotals, i);
        i := i + 1;
      }
      PassDone(raw, stats, primaryTotals);
    }

    /** After group i the recalculated prefix covers groups 0..i. */
    static lemma GroupDone(raw: Table, before: Table, after: Table, i: nat)
      requires Complete(raw) && Complete(before) && Complete(after) && i < 3
      requires forall k :: before[k] == if GroupIndex(GroupOf(k)) < i then RecalculatedAt(raw, k) else raw[k]
      requires forall k :: after[k] == if GroupOf(k) == Primaries[i] then RecalculatedAt(raw, k) else before[k]
      ensures forall k :: after[k] == if GroupIndex(GroupOf(k)) < i + 1 then RecalculatedAt(raw, k) else raw[k]
    {
      forall k
        ensures after[k] == if GroupIndex(GroupOf(k)) < i + 1 then RecalculatedAt(raw, k) else raw[k]
      {
        GroupsPartition(k, GroupOf(k));
        assert GroupIndex(GroupOf(k)) == i <==> GroupOf(k) == Primaries[i];
      }
    }

    /** After group i the stored totals cover groups 0..i. */
    static lemma TotalDone(raw: Table, before: map<Primary, real>, after: map<Primary, real>, i: nat)
      requires Complete(raw) && i < 3 && forall p: Primary :: p in before
      requires forall p :: GroupIndex(p) < i ==> before[p] == PrimaryTotal(raw, p)
      requires after == before[Primaries[i] := PrimaryTotal(raw, Primaries[i])]
      ensures forall p :: GroupIndex(p) < i + 1 ==> after[p] == PrimaryTotal(raw, p)
    {
      forall p | GroupIndex(p) < i + 1
        ensures after[p] == PrimaryTotal(raw, p)
      {
        GroupsPartition(Endurance, p);
      }
    }

    /** Once all three groups are done, the pass's result is complete. */
    static lemma PassDone(raw: Table, stats: Table, totals: map<Primary, real>)
      requires Complete(raw) && Complete(stats) && forall p: Primary :: p in totals
      requires forall k :: stats[k] == if GroupIndex(GroupOf(k)) < 3 then RecalculatedAt(raw, k) else raw[k]
      requires forall p :: GroupIndex(p) < 3 ==> totals[p] == PrimaryTotal(raw, p)
      ensures stats == Recalculated(raw) && totals == PrimaryTotals(raw)
    {
      StatsPassDone(raw, stats);
      TotalsPassDone(raw, totals);
    }

    static lemma StatsPassDone(raw: Table, stats: Table)
      requires Complete(raw) && Complete(stats)
      requires forall k :: stats[k] == if GroupIndex(GroupOf(k)) < 3 then RecalculatedAt(raw, k) else raw[k]
      ensures stats == Recalculated(raw)
    {
      var r := Recalculated(raw);
      forall k
        ensures stats[k] == r[k]
      {
      }
      assert stats.Keys == r.Keys;
    }

    static lemma TotalsPassDone(raw: Table, totals: map<Primary, real>)
      requires Complete(raw) && forall p: Primary :: p in totals
      requires forall p :: GroupIndex(p) < 3 ==> totals[p] == PrimaryTotal(raw, p)
      ensures totals == PrimaryTotals(raw)
    {
      forall p | p in Primaries
        ensures totals[p] == PrimaryTotals(raw)[p]
      {
        assert GroupIndex(p) < 3;
      }
      PrimaryTotalsKeys(raw);
      assert totals.Keys == PrimaryTotals(raw).Keys;
    }

    /** One group of the pass: stat by stat, write the stat's weight, total
        and constraint and accumulate the group's primary total. */
    method CalculateGroup(ghost raw: Table, primary: Primary) returns (primaryTotal: real)
      requires Complete(raw) && Complete(stats)
      requires forall k :: GroupOf(k) == primary ==> stats[k] == raw[k]
      requires forall k :: SameRaw(stats[k], raw[k])
      modifies this`stats
      ensures Complete(stats)
      ensures forall k :: stats[k] == if GroupOf(k) == primary then RecalculatedAt(raw, k) else old(stats)[k]
      ensures primaryTotal == PrimaryTotal(raw, primary)
    {
      var group := Secondaries(primary);
      SameRawSums(raw, primary);
      var totalPoints := SumPoints(stats, group);
      var manualTotal := SumManual(stats, group);
      primaryTotal := 0.0;
      var j := 0;
      assert |group| == 5;
      while j < |group|
        invariant 0 <= j <= |group|
        invariant Complete(stats)
        invariant forall k ::
                    stats[k] == if GroupOf(k) != primary then old(stats)[k]
                                else if Slot(k) < j then Refreshed(raw[k], totalPoints, manualTotal) else raw[k]
        invariant primaryTotal == PartialTotal(raw, group, j)
      {
        SlotOf(primary, j);
        ghost var before := stats;
        SameRawSums(raw, primary);
        var total, normalizedWeight := RefreshStat(raw, primary, j, totalPoints, manualTotal);
        RefreshFrame(old(stats), before, stats, raw, primary, j, totalPoints, manualTotal);
        PartialTotalStep(raw, primary, j, primaryTotal, total, normalizedWeight);
        primaryTotal := primaryTotal + total as real * normalizedWeight;
        j := j + 1;
      }
      GroupRefreshed(old(stats), stats, raw, primary, totalPoints, manualTotal);
    }

    /** Once its five stats are refreshed from the group sums, the group is
        recalculated. */
    static lemma GroupRefreshed(start: Table, stats: Table, raw: Table, primary: Primary,
                                totalPoints: int, manualTotal: int)
      requires Complete(start) && Complete(stats) && Complete(raw)
      requires totalPoints == SumPoints(raw, Secondaries(primary))
      requires manualTotal == SumManual(raw, Secondaries(primary))
      requires forall k ::
                 stats[k] == if GroupOf(k) != primary then start[k]
                             else if Slot(k) < 5 then Refreshed(raw[k], totalPoints, manualTotal) else raw[k]
      ensures forall k :: stats[k] == if GroupOf(k) == primary then RecalculatedAt(raw, k) else start[k]
    {
      forall k
        ensures stats[k] == if GroupOf(k) == primary then RecalculatedAt(raw, k) else start[k]
      {
        assert Slot(k) < 5;
      }
    }

    /** One stat of the pass: its weight, total and constraint from the
        group sums, and its weight normalized by the group's weight sum. */
    method RefreshStat(ghost raw: Table, primary: Primary, j: nat, totalPoints: int, manualTotal: int)
      returns (total: int, normalizedWeight: real)
      requires Complete(raw) && Complete(stats) && j < 5
      requires stats[Secondaries(primary)[j]] == raw[Secondaries(primary)[j]]
      requires manualTotal == SumManual(stats, Secondaries(primary))
      modifies this`stats
      ensures var stat := Secondaries(primary)[j];
        stats == old(stats)[stat := Refreshed(raw[stat], totalPoints, manualTotal)]
      ensures total == Points(raw[Secondaries(primary)[j]])
      ensures normalizedWeight == Weight(raw[Secondaries(primary)[j]], manualTotal)
    {
      var group := Secondaries(primary);
      var stat := group[j];
      var s := stats[stat];
      total := Points(s);
      var weight := Weight(s, manualTotal);
      if manualTotal > 0 {
        NormalizedIsWeight(stats, group, s);
      }
      normalizedWeight := if manualTotal > 0 then weight / WeightSum(stats, group, manualTotal) else 0.0;
      var constraint := Constraint(total, totalPoints);
      stats := stats[stat := s.(weight := weight, total := total, constraint := constraint)];
    }

    /** Refreshing the j-th stat of the group extends the refreshed prefix
        of the group by one and touches nothing else. */
    static lemma RefreshFrame(start: Table, before: Table, after: Table, raw: Table, primary: Primary,
                              j: nat, totalPoints: int, manualTotal: int)
      requires Complete(start) && Complete(before) && Complete(raw) && j < 5
      requires var stat := Secondaries(primary)[j];
        after == before[stat := Refreshed(raw[stat], totalPoints, manualTotal)]
      requires forall k ::
                 before[k] == if GroupOf(k) != primary then start[k]
                              else if Slot(k) < j then Refreshed(raw[k], totalPoints, manualTotal) else raw[k]
      ensures forall k ::
                after[k] == if GroupOf(k) != primary then start[k]
                            else if Slot(k) < j + 1 then Refreshed(raw[k], totalPoints, manualTotal) else raw[k]
    {
      SlotOf(primary, j);
      forall k
        ensures after[k] == if GroupOf(k) != primary then start[k]
                            else if Slot(k) < j + 1 then Refreshed(raw[k], totalPoints, manualTotal) else raw[k]
      {
        if k != Secondaries(primary)[j] {
          if GroupOf(k) == primary && Slot(k) == j {
            SlotNamesOne(k, primary, j);
          }
          assert after[k] == before[k];
        }
      }
    }

    /** While the pass runs, every point source and every group sum is the
        one it started with. */
    lemma SameRawSums(raw: Table, primary: Primary)
      requires Complete(raw) && Complete(stats)
      requires forall k :: SameRaw(stats[k], raw[k])
      ensures var group := Secondaries(primary);
        && SumPoints(stats, group) == SumPoints(raw, group)
        && SumManual(stats, group) == SumManual(raw, group)
    {
      SumsOfSameRaw(stats, raw, Secondaries(primary));
    }

    /** update: a free or train change must keep both the pool and the
        stat's field non-negative, or nothing changes and the answer is
        false; any other field takes the change unchecked. An unknown stat
        or field is a KeyError. */
    method Update(stat: string, category: string, change: int) returns (r: Result<bool>)
      requires Valid()
      modifies this`stats, this`primaryTotals, this`freePoints, this`trainPoints
      ensures Valid()
      ensures r.Err? ==> r.error == "KeyError"
      ensures r != Ok(true) ==>
        stats == old(stats) && primaryTotals == old(primaryTotals)
        && freePoints == old(freePoints) && trainPoints == old(trainPoints)
      ensures r.Err? <==>
        if category == "free" then old(freePoints) - change >= 0 && SecondaryNamed(stat).None?
        else if category == "train" then old(trainPoints) - change >= 0 && SecondaryNamed(stat).None?
        else SecondaryNamed(stat).None? || category !in Fields
      ensures r == Ok(false) <==>
        if category == "free" then
          old(freePoints) - change < 0
          || (SecondaryNamed(stat).Some? && old(stats)[SecondaryNamed(stat).value].free + change < 0)
        else if category == "train" then
          old(trainPoints) - change < 0
          || (SecondaryNamed(stat).Some? && old(stats)[SecondaryNamed(stat).value].train + change < 0)
        else false
      ensures r == Ok(true) ==>
        var n := SecondaryNamed(stat).value;
        var adjusted := old(stats)[n := Adjusted(old(stats)[n], category, change)];
        && SecondaryNamed(stat).Some?
        && stats == Recalculated(adjusted) && primaryTotals == PrimaryTotals(adjusted)
        && freePoints == old(freePoints) - (if category == "free" then change else 0)
        && trainPoints == old(trainPoints) - (if category == "train" then change else 0)
    {
      var named := SecondaryNamed(stat);
      if category == "free" {
        if freePoints - change < 0 {
          return Ok(false);
        }
        if named.None? {
          return Err("KeyError");
        }
        if stats[named.value].free + change < 0 {
          return Ok(false);
        }
        freePoints := freePoints - change;
      } else if category == "train" {
        if trainPoints - change < 0 {
          return Ok(false);
        }
        if named.None? {
          return Err("KeyError");
        }
        if stats[named.value].train + change < 0 {
          return Ok(false);
        }
        trainPoints := trainPoints - change;
      } else if named.None? || category !in Fields {
        return Err("KeyError");
      }
      var n := named.value;
      stats := stats[n := Adjusted(stats[n], category, change)];
      Calculate();
      r := Ok(true);
    }

    /** level_up: one more auto point on each stat of the group, five more
        points in each pool, then a recalculation. An unknown group is a
        KeyError. */
    method LevelUp(primary: string) returns (o: Outcome)
      requires Valid()
      modifies this`stats, this`primaryTotals, this`freePoints, this`trainPoints
      ensures Valid()
      ensures o.Fail? <==> PrimaryNamed(primary).None?
      ensures o.Fail? ==>
        o.error == "KeyError" && stats == old(stats) && primaryTotals == old(primaryTotals)
        && freePoints == old(freePoints) && trainPoints == old(trainPoints)
      ensures o.Pass? ==>
        var bumped := Bumped(old(stats), Secondaries(PrimaryNamed(primary).value));
        && stats == Recalculated(bumped) && primaryTotals == PrimaryTotals(bumped)
        && freePoints == old(freePoints) + 5 && trainPoints == old(trainPoints) + 5
    {
      var named := PrimaryNamed(primary);
      if named.None? {
        return Fail("KeyError");
      }
      var group := Secondaries(named.value);
      var j := 0;
      while j < |group|
        invariant 0 <= j <= |group|
        invariant stats == Bumped(old(stats), group[..j])
        invariant primaryTotals == old(primaryTotals)
        invariant freePoints == old(freePoints) && trainPoints == old(trainPoints)
      {
        assert group[..j + 1][..j] == group[..j];
        stats := stats[group[j] := stats[group[j]].(auto := stats[group[j]].auto + 1)];
        j := j + 1;
      }
      assert group[..|group|] == group;
      freePoints := freePoints + 5;
      trainPoints := trainPoints + 5;
      Calculate();
      o := Pass;
    }
  }
}
