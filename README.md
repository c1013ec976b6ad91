# LitRPG Stats Calculator — a verified model of the calculation core

This project models the calculation back end of LitRPG Stats Calculator, a
desktop character sheet for LitRPG characters. The model covers:

- **The experience ledger.** Three kinds of records (the character, each
  art's mastery and each trait) keep `{exp, level}`. Gains walk a
  multi-level-up loop up to level 100, and every change emits its signals
  in order. Every character level-up targets Body, Spirit or Mind in
  rotation.
- **The stat table.** There are fifteen secondary stats in three primary
  groups. Each has auto, free and train points. A recalculation pass
  derives each stat's weight, constraint and total, and each group's
  primary total. Updates are all-or-nothing against the free and train
  point pools.
- **The three energy pools** (Lifeforce, Qi and Essence). Each is derived
  from a primary total, the realm multiplier and a stat weight.
- **The arts registry and its boost formula.** The formula combines the
  relevant primary total's share, the quality multiplier, the mastery
  multiplier and the realm adjustment.
- **The trait list.** Trait names are kept unique on insertion. Each trait
  levels from quality level 1 to 10 on the shared curve.
- **The trait tier walk of the traits panel.** A total of experience is
  mapped to a grade, a level and the experience left over, and back.
- **The formula helpers.** These are the triangular numbers, the
  experience curve, the mastery layers, the quality, mastery and
  adjustment multipliers, and exact number formatting.
- **The save-file helpers.** `validate_stat_entry`, `create_diff` and
  `apply_diff` exist in two identical copies. The module `Snapshot` models
  both.

Python exceptions are modelled as `Err`/`Fail` values that carry the
exception's class name. There are three exceptions, listed under "## Left
out": `CoreUtils.FormatNumber`, `Snapshot.CreateDiff` and `Snapshot.ApplyDiff`.
Each takes a precondition in place of some of the source's error paths.
Python floats are modelled
as `real`, `int()` on a float as truncation toward zero (`Truncation.Trunc`),
and `//` and `%` with a positive divisor as Dafny's own operators.

Objects whose methods update their fields in place are classes:
`ExperienceCalculator`, `StatsCalculator`, `EnergyCalculator`,
`ArtsCalculator` and `TraitsCalculator`. The Qt signals of the experience
ledger and of the trait list are modelled as an append-only log field.

Two properties a reader might expect of this code do not hold, and the
model proves that they do not:

- The experience curve is not strictly increasing. Level 10m and level
  10m + 1 cost the same (`CoreUtils.MaxExpPlateau`).
- Applying the diff between two snapshots to the first one does not
  reproduce every key of the second. A nested map that is empty in the
  second snapshot and absent from the first is lost
  (`Snapshot.EmptyMapNotRestored`). A key deleted in the second snapshot
  is not deleted either (`Snapshot.DeletionIsNotApplied`).

## Model

| member | source | states |
|---|---|---|
| CoreUtils.TriangularExact | backend/core/core_utils.py:3-4 | The recursively defined triangular number satisfies 2·T(n) = n(n+1), so it equals the source's closed form n(n+1)//2, for every integer n |
| CoreUtils.MaxExpPositive | backend/core/core_utils.py:6-13 | Every level from 1 up costs at least 100 experience |
| CoreUtils.MaxExpMonotone | backend/core/core_utils.py:6-13 | The curve never decreases: a higher level never costs less |
| CoreUtils.MaxExpStep | backend/core/core_utils.py:6-13 | Each level costs at least as much as the level before it |
| CoreUtils.MaxExpPlateau | backend/core/core_utils.py:6-13 | Levels 10m and 10m+1 cost the same, 10^(m+2), so the curve is not strictly increasing |
| CoreUtils.MasteryLayer | backend/core/core_utils.py:15-20 | The layer name exists exactly for levels -99..100, where Python's list indexing succeeds; outside that range the result is IndexError |
| CoreUtils.MasteryLevel | backend/core/core_utils.py:22-23 | The level within its layer is always between 1 and 10 |
| CoreUtils.LayerDecomposition | backend/core/core_utils.py:15-23 | For mastery levels 1..100, the layer index times 10 plus the level in the layer gives back the mastery level, and the layer is the indexed name |
| CoreUtils.MasteryLayerOfLevelZero | backend/core/core_utils.py:15-23 | Level 0 wraps to the last layer, "Absolute Truth", at level 10 in that layer |
| CoreUtils.QualityRank | backend/core/core_utils.py:26-30 | A grade ranks 1..10; an unknown grade ranks 1 |
| CoreUtils.QualityMultiplierShape | backend/core/core_utils.py:25-32 | Below Eternal Grade, the multiplier is the grade rank plus a tenth per quality level; Eternal Grade is fixed at 10; an unknown grade counts as Mortal Grade |
| CoreUtils.MasteryMultiplierInLayer | backend/core/core_utils.py:34-40 | For mastery levels 1..90, the multiplier is T(layer) plus (layer+1)/10 per level within the layer, interpolating linearly towards T(layer+1) |
| CoreUtils.MasteryMultiplierTop | backend/core/core_utils.py:34-40 | Every mastery level of the last layer (91..100) multiplies by exactly 55 |
| CoreUtils.MasteryMultiplierAtOne | backend/core/core_utils.py:34-40 | Mastery level 1 multiplies by 1.2 |
| CoreUtils.AdjustmentMultiplierShape | backend/core/core_utils.py:42-49 | The adjustment is 1 + (realm + layer − grade rank)/10, and each realm adds exactly 0.1 |
| CoreUtils.Digits | backend/core/core_utils.py:51-53 | The decimal digits of a natural number form a non-empty string of digit characters |
| CoreUtils.RemoveCommas | backend/core/core_utils.py:51-53 | Stripping the thousands separators never makes a string longer |
| CoreUtils.UngroupGrouped | backend/core/core_utils.py:51-53 | Removing the commas that grouping inserts gives back the digit string |
| CoreUtils.ParseDigitsOfDigits | backend/core/core_utils.py:51-53 | Reading back the decimal digits of n gives n |
| CoreUtils.FormatNumberRoundTrip | backend/core/core_utils.py:51-55 | The exact format is the plain decimal form with thousands separators, and reading it back gives the number; below 1000, the short format is the plain decimal form |
| Snapshot.PyEqReflexive | backend/core/core_utils.py:67-77 | Python equality on snapshot values is reflexive |
| Snapshot.PyEqMixesNumbers | backend/core/core_utils.py:67-77 | Python equality treats 1, 1.0 and True as equal, but keeps 0 and None, and "1" and 1, apart |
| Snapshot.ValidateStatEntry | backend/database/database_utils.py:4-9 | An entry is valid exactly when it holds all five keys: level, experience, stats, arts and traits |
| Snapshot.CreateDiff | backend/database/database_utils.py:11-24 | The diff only holds keys of the newer snapshot |
| Snapshot.CreateDiffAt | backend/core/core_utils.py:67-77 | Per key: an equal value is left out; a changed or new non-map value is copied; a changed map becomes its nested diff, kept only when that nested diff is non-empty |
| Snapshot.DiffOfSelf | backend/core/core_utils.py:67-77 | The diff of a snapshot with itself is empty |
| Snapshot.ApplyDiff | backend/database/database_utils.py:26-36 | The result's keys are the base's keys plus the diff's keys; a list meeting an empty nested diff is copied unchanged |
| Snapshot.ApplyDiffKeepsList | backend/database/database_utils.py:30-33 | A list under an empty nested diff comes back as it was, as `list.copy()` gives it |
| Snapshot.ApplyDiffExtends | backend/core/core_utils.py:79-86 | Applying a diff keeps every path of the base, and leaves every key the diff does not mention unchanged |
| Snapshot.ApplyEmptyDiff | backend/core/core_utils.py:79-86 | Applying the empty diff leaves the base unchanged |
| Snapshot.DiffApplicable | backend/database/database_utils.py:11-36 | A diff made from a snapshot can always be applied back to that snapshot |
| Snapshot.RoundTrip | backend/database/database_utils.py:11-36 | Applying diff(old, new) to old agrees with new at every leaf of new, and keeps every path of old |
| Snapshot.EmptyMapNotRestored | backend/database/database_utils.py:11-36 | A new empty nested map does not survive the round trip |
| Snapshot.DeletionIsNotApplied | backend/database/database_utils.py:11-36 | A key deleted in the newer snapshot stays in the round trip's result with its old value |
| Experience.MaxExpMatchesCore | backend/core/experience_calculator.py:100-109 | The ledger's curve is the shared curve at every level except 0, where it is 10 instead of 0 |
| Experience.MaxExpCurve | backend/core/experience_calculator.py:100-109 | The ledger's curve never decreases from level 0, costs 100·level up to level 10, and has plateaus at 10m → 10m+1 (1000 at 10 and 11, 10000 at 20 and 21) |
| Experience.SettleSpec | backend/core/experience_calculator.py:60-71 | The level-up loop ends at a level between the start and 100; below 100, the leftover is under that level's cost; leftover plus the cost of the levels passed equals the experience it started with |
| Experience.CostBetweenFront | backend/core/experience_calculator.py:60-71 | The cost of a run of levels is the first level's cost plus the cost of the rest |
| Experience.AddToRecordSpec | backend/core/experience_calculator.py:54-80 | A gain never lowers the level or passes 100, and leaves the record under its level's cost, or at most cost−1 at level 100; a loss only lowers the experience |
| Experience.LevelUpSignalCount | backend/core/experience_calculator.py:60-71 | Each level passed emits one level_up, plus one character_level_up for the character |
| Experience.FreshCharacterGets250 | backend/core/experience_calculator.py:54-80 | A new character gaining 250 reaches level 2 with 140 left over; it raises Body, then Spirit, then announces 140/200 |
| Experience.StaysAtCap | backend/core/experience_calculator.py:73-80 | A record at level 100 stays there under its cap, and max_level_reached is not emitted again |
| Experience.LevelsInRangeUpdate | backend/core/experience_calculator.py:42-52 | Storing a record whose level is in 0..100 keeps every level of the ledger in range |
| Experience.LevelsInRangeRemove | backend/core/experience_calculator.py:92-98 | Deleting a record keeps every level of the ledger in range |
| Experience.ExperienceCalculator.constructor | backend/core/experience_calculator.py:12-23 | A new ledger holds the character at {0, 0}, with no masteries or traits; the rotation starts at Body and no signal has been emitted |
| Experience.ExperienceCalculator.Reset | backend/core/experience_calculator.py:26-31 | Reset restores the initial ledger |
| Experience.ExperienceCalculator.SetInitialStat | backend/core/experience_calculator.py:33-36 | The rotation start is set exactly for Body, Spirit or Mind; any other name is a ValueError that changes nothing |
| Experience.ExperienceCalculator.GetLevel | backend/core/experience_calculator.py:111-118 | An unknown type (or a missing character record) raises; an unknown mastery or trait reads as level 1 |
| Experience.ExperienceCalculator.GetExperience | backend/core/experience_calculator.py:120-127 | As get_level, with the whole record, {0, 1} for an unknown identifier, and always the same level as get_level |
| Experience.ExperienceCalculator.CurrentLevelUpIndex | backend/core/experience_calculator.py:38-40 | The index is in 0..2 and names the stat that the next character level-up targets |
| Experience.ExperienceCalculator.AddExperience | backend/core/experience_calculator.py:42-52 | An unknown type is a ValueError that changes nothing; otherwise only the addressed record changes, to the settled gain, and the result is true exactly when a positive gain leaves it at level 100 |
| Experience.ExperienceCalculator.StoredOverCreated | backend/core/experience_calculator.py:42-52 | Creating a missing record at {0, 1} and then adding to it is the same as adding to the default record |
| Experience.ExperienceCalculator.AddExpAndLevelUp | backend/core/experience_calculator.py:54-80 | The record becomes the settled, capped gain, and the emitted signals are the level-ups, max_level_reached when it is newly reached, and the final experience update |
| Experience.ExperienceCalculator.Advance | backend/core/experience_calculator.py:54-80 | The in-place walk ends at the settled, capped record with exactly the specified signals |
| Experience.ExperienceCalculator.AdvanceDone | backend/core/experience_calculator.py:73-80 | The loop's result, clamp and emissions compose to the specified gain and signal list |
| Experience.ExperienceCalculator.LevelUpLoop | backend/core/experience_calculator.py:60-71 | The while loop ends where Settle says, having emitted one level_up (and, for the character, one character_level_up) per level passed |
| Experience.ExperienceCalculator.SetExperience | backend/core/experience_calculator.py:82-90 | Only the trait ledger may be set, to {amount, 1} with its update signal; any other type is a ValueError that changes nothing |
| Experience.ExperienceCalculator.RemoveExperience | backend/core/experience_calculator.py:92-98 | A present record is deleted with a zeroed update; an absent one changes nothing; an unknown type is a ValueError |
| Experience.ExperienceCalculator.LoadExperience | backend/core/experience_calculator.py:135-142 | Empty data resets the ledger; other data replaces it and announces the character record, or raises KeyError after the replacement when that record is missing; well-formed data keeps the ledger valid |
| Experience.ExperienceCalculator.GetAllExperience | backend/core/experience_calculator.py:144-145 | The whole ledger, whose every record get_experience reads back |
| Stats.GroupsPartition | backend/core/stats_calculator.py:5-9 | Every secondary stat belongs to exactly the group that lists it |
| Stats.SlotOf | backend/core/stats_calculator.py:5-9 | Each group lists five stats, each at its own slot |
| Stats.PrimaryNamed | backend/core/stats_calculator.py:55-57 | A primary name resolves only to the group of that name |
| Stats.SecondaryNamed | backend/core/stats_calculator.py:41-51 | A stat name resolves only to the stat of that name |
| Stats.InitialStats | backend/core/stats_calculator.py:10-11 | Every stat starts with one auto point, weight 0.2, constraint 20 and total 1 |
| Stats.Recalculated | backend/core/stats_calculator.py:17-39 | Recalculation gives every stat a record |
| Stats.WeightSumIsShare | backend/core/stats_calculator.py:29-31 | The weights of any run of stats add up to its manual points as a share of the group's |
| Stats.WeightsSumToOne | backend/core/stats_calculator.py:29-31 | A group's weights sum to 1 whenever the group has manual points |
| Stats.NormalizedIsWeight | backend/core/stats_calculator.py:29-31 | The normalized weight equals the weight, since the weights sum to 1 |
| Stats.DerivedBounds | backend/core/stats_calculator.py:27-35 | With non-negative points, each weight is in [0, 1] and each constraint in [0, 100]; the total is the stat's points and the point sources are untouched |
| Stats.PartialTotalClosed | backend/core/stats_calculator.py:21-39 | A group's running primary total is Σ points·manual divided by the group's manual points |
| Stats.PrimaryTotalOfSameRaw | backend/core/stats_calculator.py:17-39 | The primary total depends only on the point sources of the group's stats |
| Stats.InitialRecalculation | backend/core/stats_calculator.py:10-15 | Recalculating the initial table leaves every stat fresh and every primary total at 1.0 |
| Stats.SumPoolRecalculated | backend/core/stats_calculator.py:17-39 | Recalculation changes no stat's auto, free or train points |
| Stats.PoolConserved | backend/core/stats_calculator.py:41-53 | An accepted update of free or train points moves points between the pool and the stats, so pool plus stats is conserved |
| Stats.BumpedSpec | backend/core/stats_calculator.py:56-57 | The level-up bump adds one auto point to each listed stat and to no other |
| Stats.LevelUpTouchesOneGroup | backend/core/stats_calculator.py:55-60 | A level-up raises only its group's stats, so the other groups' primary totals are unchanged |
| Stats.StatsCalculator.constructor | backend/core/stats_calculator.py:4-15 | A new calculator has fresh stats, primary totals of 1.0 and empty pools |
| Stats.StatsCalculator.StartsFresh | backend/core/stats_calculator.py:10-15 | The constructor's closing calculate leaves the initial values unchanged |
| Stats.StatsCalculator.Calculate | backend/core/stats_calculator.py:17-39 | The pass over the groups turns the table into its recalculation and the totals into its primary totals |
| Stats.StatsCalculator.CalculateGroup | backend/core/stats_calculator.py:19-39 | The inner loop refreshes exactly the group's stats and returns the group's primary total |
| Stats.StatsCalculator.RefreshStat | backend/core/stats_calculator.py:24-35 | One stat is refreshed from its point sources, returning its total and normalized weight |
| Stats.StatsCalculator.PassDone | backend/core/stats_calculator.py:17-39 | Once all three groups are done, the table and the totals are the recalculation's |
| Stats.StatsCalculator.Update | backend/core/stats_calculator.py:41-53 | An overdraw of the free or train pool, or of the stat, returns false and changes nothing; an unknown stat or field raises KeyError; otherwise the field moves by the change, the pool pays for it, and everything is recalculated |
| Stats.StatsCalculator.LevelUp | backend/core/stats_calculator.py:55-60 | An unknown group raises KeyError; otherwise the group's stats gain an auto point each, both pools gain 5, and everything is recalculated |
| Energy.RealmMultiplier | backend/core/energy_calculator.py:10-12 | A realm multiplies by at least 1; an unknown realm multiplies by 1 |
| Energy.RealmMultiplierIsTriangular | backend/core/energy_calculator.py:10-12 | Realms 1..10 multiply by the triangular number T(realm); every other realm by 1 |
| Energy.PoolBounds | backend/core/energy_calculator.py:32-46 | With a non-negative total and a weight in [0, 1], the initial value is the scaled total rounded down, the adjustment is between 0 and the initial value, and the final value is between the initial value and twice it |
| Energy.RecalculatedPoolsBounded | backend/core/energy_calculator.py:24-46 | After a recalculation of non-negative stats, each pool's adjustment is between 0 and its initial value |
| Energy.FreshCharacterEnergy | backend/core/energy_calculator.py:24-46 | A new realm-1 character has 120 Lifeforce, 60 Qi and 24 Essence |
| Energy.Values | backend/core/energy_calculator.py:58-63 | The exported values carry exactly the three pool names |
| Energy.LoadValuesRoundTrip | backend/core/energy_calculator.py:50-63 | Loading the exported values restores exactly those pools |
| Energy.EnergyCalculator.constructor | backend/core/energy_calculator.py:7-16 | A new calculator has all three pools zeroed |
| Energy.EnergyCalculator.Calculate | backend/core/energy_calculator.py:24-48 | Each pool is rewritten from its primary total, its stat weight and the realm multiplier |
| Energy.EnergyCalculator.Reset | backend/core/energy_calculator.py:18-22 | Resetting ends exactly where a plain calculate ends |
| Energy.EnergyCalculator.LoadEnergy | backend/core/energy_calculator.py:50-56 | Empty data changes nothing; otherwise each pool is replaced by the loaded one when present |
| Energy.EnergyCalculator.GetEnergyValues | backend/core/energy_calculator.py:58-63 | The three pools under their names |
| Arts.RelevantStatBounds | backend/core/arts_calculator.py:103-125 | For non-negative totals, every art type's relevant stat lies between 0 and the largest primary total, which is at most their sum |
| Arts.CultivationTakesLargest | backend/core/arts_calculator.py:122-123 | A Cultivation art uses the largest of the three primary totals |
| Arts.RatioInUnit | backend/core/arts_calculator.py:60-62 | A relevant stat within the total gives a ratio in [0, 1], with 0 for a zero total |
| Arts.BoostedBounds | backend/core/arts_calculator.py:60-67 | The ratio is in [0, 1], the initial boost is between 0 and quality × mastery, and the final boost is the initial boost scaled by the adjustment |
| Arts.NeutralExactlyOnLayerError | backend/core/arts_calculator.py:53-98 | The calculation falls back to the all-zero record exactly when the mastery layer lookup raises |
| Arts.EvaluateWithLayer | backend/core/arts_calculator.py:53-82 | When the layer exists, the record is the boost formula over the art's relevant stat, the total and the three multipliers |
| Arts.QualityMultiplierAtLeastOne | backend/core/core_utils.py:25-32 | At a non-negative quality level, every grade multiplies by at least 1 |
| Arts.MasteryMultiplierAtLeastOne | backend/core/core_utils.py:34-40 | Every mastery level 1..100 multiplies by at least 1 |
| Arts.FreshCultivationArt | backend/core/arts_calculator.py:53-82 | A Mortal Grade Cultivation art of a new realm-1 character boosts by 0.4 initially and 0.44 finally |
| Arts.Renamed | backend/core/arts_calculator.py:40-43 | After renaming, the art is stored under its new name, the old name is gone, and every other art is unchanged |
| Arts.RenameKeepsCount | backend/core/arts_calculator.py:40-43 | Renaming a present art to a free name, or in place, keeps the number of arts |
| Arts.ArtsCalculator.constructor | backend/core/arts_calculator.py:10-17 | A new registry is empty |
| Arts.ArtsCalculator.Reset | backend/core/arts_calculator.py:19-21 | Reset empties the registry |
| Arts.ArtsCalculator.AddArt | backend/core/arts_calculator.py:23-33 | The record is stored under its name, replacing any art of that name, and returned |
| Arts.ArtsCalculator.RemoveArt | backend/core/arts_calculator.py:35-38 | The name is gone afterwards and every other art is unchanged |
| Arts.ArtsCalculator.UpdateArt | backend/core/arts_calculator.py:40-43 | The registry becomes the renamed table |
| Arts.ArtsCalculator.GetArt | backend/core/arts_calculator.py:45-46 | An art is returned exactly when its name is registered |
| Arts.ArtsCalculator.Calculate | backend/core/arts_calculator.py:48-101 | Nothing for an unknown art; otherwise the record for the art's mastery level (level 1 when none is recorded) and the current primary totals |
| Arts.ArtsCalculator.LoadArts | backend/core/arts_calculator.py:132-138 | Empty data changes nothing; otherwise the registry is replaced |
| Arts.ArtsCalculator.GetArts | backend/core/arts_calculator.py:140-141 | The registry itself, so it holds exactly the names get_art finds |
| Traits.FirstIndex | backend/core/traits_calculator.py:33 | The first index with the name, or none when no trait has it |
| Traits.FindByName | backend/core/traits_calculator.py:33 | The search loop returns the first index with the name |
| Traits.UpsertSpec | backend/core/traits_calculator.py:30-40 | Adding keeps names unique, stores the trait, leaves every other trait in place, and grows the list only for a new name |
| Traits.RemoveSpec | backend/core/traits_calculator.py:42-45 | Removing by index drops exactly that trait and keeps names unique |
| Traits.UpdateSpec | backend/core/traits_calculator.py:47-52 | Only the given attributes change, updating is idempotent, and an empty update changes nothing |
| Traits.ClimbSpec | backend/core/traits_calculator.py:63-66 | The level-up loop stays within 1..10; below 10, the leftover is under the level's cost; the experience is conserved along the climb |
| Traits.GainedSpec | backend/core/traits_calculator.py:57-72 | A gain changes only level and experience, within 1..10, conserving the experience below level 10 and capping it at 999 at level 10 |
| Traits.FreshTraitGains | backend/core/traits_calculator.py:57-72 | A new trait gaining 250 reaches level 2 with 150; gaining 10000 caps at level 10 with 999 |
| Traits.PercentAmountSpec | backend/core/traits_calculator.py:74-79 | A percentage in 0..100 of the current level's cost gives an amount between 0 and that cost, and exactly the cost at 100 |
| Traits.PercentAmountTruncates | backend/core/traits_calculator.py:78 | Fractional amounts are truncated toward zero |
| Traits.Records | backend/core/traits_calculator.py:87-88 | Each saved record is the attribute record of the trait at that position |
| Traits.ConvertAll | backend/core/traits_calculator.py:84 | The list comprehension succeeds exactly when every record converts, and then it converts each one in order |
| Traits.SavedTraitsDoNotLoad | backend/core/traits_calculator.py:5-11 | The constructor rejects every non-empty list of saved records |
| Traits.SavedTraitsRoundTrip | backend/core/traits_calculator.py:81-88 | Loading the saved records with the corrected conversion gives back the same traits |
| Traits.TraitsCalculator.constructor | backend/core/traits_calculator.py:17-21 | A new list is empty |
| Traits.TraitsCalculator.Reset | backend/core/traits_calculator.py:23-25 | Reset empties the list and announces it |
| Traits.TraitsCalculator.AddTrait | backend/core/traits_calculator.py:30-40 | A non-trait changes nothing; a trait is upserted by name and announced |
| Traits.TraitsCalculator.RemoveTrait | backend/core/traits_calculator.py:42-45 | An index out of range changes nothing; otherwise that trait is removed and the change announced |
| Traits.TraitsCalculator.UpdateTrait | backend/core/traits_calculator.py:47-52 | An index out of range changes nothing; otherwise the given attributes are set on that trait |
| Traits.TraitsCalculator.AddExperience | backend/core/traits_calculator.py:57-72 | An index out of range changes nothing; otherwise the trait gains the amount and the new experience and level cost are announced |
| Traits.TraitsCalculator.AddExperiencePercent | backend/core/traits_calculator.py:74-79 | The trait gains the truncated percentage of its current level's cost |
| Traits.TraitsCalculator.Load | backend/core/traits_calculator.py:81-85 | Empty data changes nothing; the first record that does not convert raises its error with nothing changed; otherwise the list is replaced and announced |
| Traits.TraitsCalculator.LoadTraits | backend/core/traits_calculator.py:81-85 | Loading through `Trait(**record)`: a record carrying exp or notes raises TypeError, so every non-empty list that get_traits saved fails to load and leaves the list unchanged |
| Traits.TraitsCalculator.LoadSavedTraits | backend/core/traits_calculator.py:81-88 | The corrected load, which also takes exp and notes: loading a saved list replaces the list with exactly those traits |
| Traits.TraitsCalculator.GetTraits | backend/core/traits_calculator.py:87-88 | The full five-attribute record of every trait, in order, each of which converts back to that trait |
| TraitTiers.GradeIndex | gui/components/traits_component.py:16-17 | A grade's index names it; an unknown grade is a ValueError |
| TraitTiers.TotalExpSpec | gui/components/traits_component.py:130-133 | An unknown grade fails; Mortal Grade level 1 costs nothing; each further level adds its tier's cost |
| TraitTiers.BeforeGrows | gui/components/traits_component.py:259-262 | The running cost grows by at least 100 per tier |
| TraitTiers.TierFromSpec | gui/components/traits_component.py:264-272 | The walk stops at the first tier whose end lies past the total, or after tier 100 |
| TraitTiers.PositionInRange | gui/components/traits_component.py:264-272 | A total within the 100 tiers lands in the tier whose span holds it, with a remainder under that tier's cost |
| TraitTiers.PositionPastEnd | gui/components/traits_component.py:272 | A total that covers every tier reports Eternal Grade level 10, with nothing left over |
| TraitTiers.PositionAtFirstBoundary | gui/components/traits_component.py:264-272 | At 100 experience, the walk reports Mortal Grade level 2 with 0 left over and a cost of 200 |
| TraitTiers.RoundTrip | gui/components/traits_component.py:259-272 | Reading back the total spent to reach a grade and level gives that grade and level with nothing left over |
| TraitTiers.TierOfTierStart | gui/components/traits_component.py:259-272 | The total spent before tier t reaches exactly tier t |
| TraitTiers.TierMonotone | gui/components/traits_component.py:264-272 | More experience never reports a lower tier |
| TraitTiers.CalculateTraitLevel | gui/components/traits_component.py:264-272 | The nested loops return the position of the total |
| Truncation.TruncBounds | backend/core/energy_calculator.py:32-42 | Python's int() on a float is within one of it, on the side of zero |

## Left out

- The PyQt5 widgets, windows and dialogs, the JSON and SQLite persistence, and the `print` in the arts calculation's exception handler are I/O and are not modelled.
- Signals are modelled only for the experience ledger and for the trait list. `energy_updated`, `arts_updated`, `calculation_updated`, `stats_updated` and `traits_updated` from other objects are not logged, because no stated property depends on them.
- The realm is a parameter of the energy and arts calculations. `get_realm` and the character level-up handler are not part of this model.
- Floats are modelled as exact reals, so rounding of Python floats is not modelled. The realm multiplier's default of `1.0` is modelled as the integer 1, which gives the same truncated pools.
- CoreUtils.FormatNumber: the 1000 and up, K, M and B branches of the short format (`.1f` float formatting) are left out. The function requires `showExact || number < 1000`.
- Snapshot.CreateDiff: requires that wherever both snapshots hold a key and the newer value is a non-empty map, the older value is a map as well. Otherwise Python behaves in one of two ways. If the older value is a number, bool or None, `key not in old_stats` raises TypeError. If the older value is a list or string, `in` and indexing apply to it. That raises TypeError or AttributeError on some inputs, and on others the call succeeds: old `{"x": []}` and new `{"x": {"a": 1}}` give `{"x": {"a": 1}}`. None of these cases is modelled.
- Snapshot.ApplyDiff: requires that wherever the diff holds a map at a key the base also has, the base holds a map there, or a list with an empty nested diff. Otherwise Python raises an AttributeError (no `.copy()` on a string, number, bool or None, or no `.get` on a list) or a TypeError (a string index into a list). Which of the two is raised depends on the diff's iteration order, and these error paths are not modelled.
- Snapshot values are an explicit JSON-like datatype. Python's equality between them (1 == 1.0 == True, element-wise lists and maps) is modelled by `PyEq`.
- Stat and group names are datatypes. String names appear only where `update` and `level_up` receive them.
- Stats.StatsCalculator.Update: for a category other than free or train, the source adds the change to that field even when it is weight, constraint or total. The model does the same, and the next recalculation overwrites the derived field.
- Energy pools are records with exactly three fields. Loaded data whose pools lack a field is not modelled.
- The arts calculator's `update_stats` only re-runs `calculate` for its signals. Likewise, the per-art `calculate` inside `load_arts` only emits signals. Both are left out.
- Arts.ArtsCalculator.Calculate: the totals are read from the stats calculator's current primary totals rather than through the aliased dictionary `primary_stats`. The alias always refers to the same map.
- Experience.ExperienceCalculator.GetLevel and Experience.ExperienceCalculator.GetExperience: the `identifier=None` default is not modelled; the identifier is always passed. The ledger that `load_experience` stores and `get_all_experience` returns is the caller's own dict in the source; the model copies it, so aliasing between the caller and the ledger is not modelled.
- Traits are values in a sequence, so `get_traits` returns records, not live `Trait` objects. The aliasing between a returned trait and the list is not modelled.
- Traits.TraitsCalculator.UpdateTrait: `setattr` is limited to the five trait attributes. Setting any other attribute name is not modelled.
- Traits.TraitsCalculator.AddTrait: the `isinstance` check is modelled as an `Option<Trait>` argument.
- The trait calculator's unused reference to the experience calculator and the trivial `BaseCalculatorImplementation` are left out.
- Triangular numbers are defined recursively. The source's closed form is proved equal to that definition in `CoreUtils.TriangularExact`.
- The bound on an art's boost is split across `Arts.EvaluateWithLayer`, `Arts.BoostedBounds` and the two at-least-one lemmas. It is not composed into a single lemma.

## Findings

| source | as written | input that shows it | evidently intended | confidence | as-written member | corrected member |
|---|---|---|---|---|---|---|
| backend/core/traits_calculator.py:81-88 | `load_traits` builds `Trait(**record)`, but the records that `get_traits` saves also carry `exp` and `notes`, which `Trait.__init__` does not accept, so loading raises TypeError | any non-empty list returned by `get_traits`, e.g. one trait `{name: "A", quality_grade: "Mortal Grade", quality_level: 1, exp: 0, notes: ""}` | loading saved traits restores them, experience and notes included | not executed | Traits.SavedTraitsDoNotLoad | Traits.SavedTraitsRoundTrip |
