/** The experience ledger: one record {exp, level} per (type, identifier) for
    the character, for each art's mastery and for each trait, the experience
    curve, and the multi-level-up loop with its signals. */
module Experience {
  import opened Wrappers
  import CoreUtils

  datatype Record = Record(exp: int, level: int)

  /** The notifications the ledger emits, in emission order. */
  datatype Signal =
    | ExperienceUpdated(expType: string, identifier: string, exp: int, nextLevelExp: int)
    | LevelUp(expType: string, identifier: string, level: int)
    | CharacterLevelUp(level: int, stat: string)
    | MaxLevelReached(expType: string, identifier: string)

  const MaxLevel: int := 100
  const ExpTypes: set<string> := {"character", "mastery", "trait"}
  /** The primary stats that character level-ups target, in rotation. */
  const LevelUpOrder: seq<string> := ["Body", "Spirit", "Mind"]

  /** The ledger's experience curve: 10 at the character's bootstrap level 0,
      otherwise the shared curve. */
  function MaxExp(level: int): int
  {
    if level == 0 then 10
    else if level <= 10 then level * 100
    else
      var tier := (level - 1) / 10;
      var levelInTier := (level - 1) % 10 + 1;
      CoreUtils.Pow10(tier + 2) * levelInTier
  }

  /** The two curves differ only at level 0 (10 here, 0 in the helpers). */
  lemma MaxExpMatchesCore(level: int)
    ensures level != 0 ==> MaxExp(level) == CoreUtils.MaxExp(level)
    ensures MaxExp(0) == 10 && CoreUtils.MaxExp(0) == 0
  {
  }

  /** 100 per level for levels 1..10, and from level 0 on the curve never
      decreases; it is flat across every tier boundary 10m -> 10m + 1. */
  lemma MaxExpCurve(a: int, b: int, m: int)
    requires 0 <= a <= b && m >= 1
    ensures MaxExp(a) <= MaxExp(b)
    ensures 1 <= a <= 10 ==> MaxExp(a) == 100 * a
    ensures MaxExp(10 * m) == MaxExp(10 * m + 1)
    ensures MaxExp(10) == MaxExp(11) == 1000 && MaxExp(20) == MaxExp(21) == 10000
  {
    CoreUtils.MaxExpPlateau(m);
    CoreUtils.MaxExpPlateau(1);
    CoreUtils.MaxExpPlateau(2);
    if a == 0 {
      if b >= 1 {
        CoreUtils.MaxExpMonotone(1, b);
      }
    } else {
      CoreUtils.MaxExpMonotone(a, b);
    }
  }

  /** The level-up loop: while below the cap and the current level's cost is
      affordable, pay it and go up one level. */
  function Settle(exp: int, level: int): Record
    decreases MaxLevel - level
  {
    if level < MaxLevel && exp >= MaxExp(level) then Settle(exp - MaxExp(level), level + 1)
    else Record(exp, level)
  }

  /** Experience paid for the levels lo..hi-1. */
  function CostBetween(lo: int, hi: int): int
    decreases hi - lo
  {
    if hi <= lo then 0 else CostBetween(lo, hi - 1) + MaxExp(hi - 1)
  }

  /** At the cap, experience is held below the cap's cost. */
  function ClampAtCap(r: Record): Record
  {
    if r.level == MaxLevel then
      Record(if r.exp < MaxExp(MaxLevel) - 1 then r.exp else MaxExp(MaxLevel) - 1, r.level)
    else r
  }

  /** The record after one `add_experience` call: a non-negative amount is
      settled and clamped; a negative one is only added. */
  function AddToRecord(r: Record, amount: int): Record
  {
    if amount >= 0 then ClampAtCap(Settle(r.exp + amount, r.level))
    else Record(r.exp + amount, r.level)
  }

  /** The primary stat a character level-up to `level` targets. */
  function StatForLevel(initialStatIndex: nat, level: int): string
  {
    LevelUpOrder[(initialStatIndex + level - 1) % 3]
  }

  /** The signals of the levels lo+1..hi, each with its stat target when
      the record is the character's. */
  function LevelUpSignals(expType: string, identifier: string, lo: int, hi: int,
                          initialStatIndex: nat): seq<Signal>
    decreases hi - lo
  {
    if hi <= lo then []
    else
      LevelUpSignals(expType, identifier, lo, hi - 1, initialStatIndex)
      + [LevelUp(expType, identifier, hi)]
      + (if expType == "character" && identifier == "character"
         then [CharacterLevelUp(hi, StatForLevel(initialStatIndex, hi))] else [])
  }

  /** Everything one `add_experience` call emits. */
  function AddSignals(expType: string, identifier: string, r: Record, amount: int,
                      initialStatIndex: nat): seq<Signal>
  {
    var after := AddToRecord(r, amount);
    (if amount >= 0 then
       LevelUpSignals(expType, identifier, r.level, after.level, initialStatIndex)
       + (if after.level == MaxLevel && r.level != MaxLevel then [MaxLevelReached(expType, identifier)] else [])
     else [])
    + [ExperienceUpdated(expType, identifier, after.exp, MaxExp(after.level))]
  }

  /** The loop stops inside the level range, below the cost of the level it
      stops at unless capped, and has spent exactly the cost of the levels it
      passed. */
  lemma {:induction false} SettleSpec(exp: int, level: int)
    requires level <= MaxLevel
    ensures var s := Settle(exp, level);
      && level <= s.level <= MaxLevel
      && (s.level < MaxLevel ==> s.exp < MaxExp(s.level))
      && exp == s.exp + CostBetween(level, s.level)
    decreases MaxLevel - level
  {
    if level < MaxLevel && exp >= MaxExp(level) {
      SettleSpec(exp - MaxExp(level), level + 1);
      CostBetweenFront(level, Settle(exp, level).level);
    }
  }

  lemma {:induction false} CostBetweenFront(lo: int, hi: int)
    requires lo < hi
    ensures CostBetween(lo, hi) == MaxExp(lo) + CostBetween(lo + 1, hi)
    decreases hi - lo
  {
    if hi - 1 > lo {
      CostBetweenFront(lo, hi - 1);
    }
  }

  /** The leveling invariant after one call: the level stays in range and
      never drops; with a non-negative amount the experience ends below the
      current level's cost, or at most the cap's cost minus one at the cap;
      a negative amount is a plain debit that can leave experience below 0. */
  lemma AddToRecordSpec(r: Record, amount: int)
    requires 0 <= r.level <= MaxLevel
    ensures var a := AddToRecord(r, amount);
      && r.level <= a.level <= MaxLevel
      && (amount >= 0 && a.level < MaxLevel ==> a.exp < MaxExp(a.level))
      && (amount >= 0 && a.level == MaxLevel ==> a.exp <= MaxExp(MaxLevel) - 1)
      && (amount < 0 ==> a == Record(r.exp + amount, r.level))
  {
    SettleSpec(r.exp + amount, r.level);
  }

  /** One signal per level gained, two for the character (the level and its
      stat target). */
  lemma {:induction false} LevelUpSignalCount(expType: string, identifier: string, lo: int, hi: int,
                                              initialStatIndex: nat)
    requires lo <= hi
    ensures |LevelUpSignals(expType, identifier, lo, hi, initialStatIndex)|
            == (hi - lo) * (if expType == "character" && identifier == "character" then 2 else 1)
    decreases hi - lo
  {
    if hi > lo {
      LevelUpSignalCount(expType, identifier, lo, hi - 1, initialStatIndex);
    }
  }

  /** A fresh character given 250 pays 10 for 0 -> 1 and 100 for 1 -> 2, and
      stops at level 2 with 140 because level 2 costs 200. */
  lemma FreshCharacterGets250()
    ensures AddToRecord(Record(0, 0), 250) == Record(140, 2)
    ensures AddSignals("character", "character", Record(0, 0), 250, 0) ==
      [LevelUp("character", "character", 1), CharacterLevelUp(1, "Body"),
       LevelUp("character", "character", 2), CharacterLevelUp(2, "Spirit"),
       ExperienceUpdated("character", "character", 140, 200)]
  {
    assert Settle(250, 0) == Settle(240, 1) == Settle(140, 2) == Record(140, 2);
  }

  /** Once at the cap, every positive amount keeps the record at the cap. */
  lemma StaysAtCap(e: int, amount: int)
    requires amount > 0
    ensures AddToRecord(Record(e, MaxLevel), amount).level == MaxLevel
    ensures AddToRecord(Record(e, MaxLevel), amount).exp <= MaxExp(MaxLevel) - 1
    ensures MaxLevelReached("character", "character") !in AddSignals("character", "character", Record(e, MaxLevel), amount, 0)
  {
  }

  /** The default record for an identifier not yet in the ledger. */
  function RecordOrNew(records: map<string, Record>, identifier: string): Record
  {
    if identifier in records then records[identifier] else Record(0, 1)
  }

  function InitialLedger(): map<string, map<string, Record>>
  {
    map["character" := map["character" := Record(0, 0)], "mastery" := map[], "trait" := map[]]
  }

  /** Every record of the ledger has a level in 0..MaxLevel. */
  ghost predicate LevelsInRange(ledger: map<string, map<string, Record>>)
  {
    forall t, id :: t in ledger && id in ledger[t] ==> 0 <= ledger[t][id].level <= MaxLevel
  }

  lemma LevelsInRangeUpdate(ledger: map<string, map<string, Record>>, t: string, id: string, r: Record)
    requires LevelsInRange(ledger) && t in ledger && 0 <= r.level <= MaxLevel
    ensures LevelsInRange(ledger[t := ledger[t][id := r]])
  {
  }

  lemma LevelsInRangeRemove(ledger: map<string, map<string, Record>>, t: string, id: string)
    requires LevelsInRange(ledger) && t in ledger
    ensures LevelsInRange(ledger[t := ledger[t] - {id}])
  {
  }

  class ExperienceCalculator {
    var experience: map<string, map<string, Record>>
    var initialStatIndex: nat
    /** The signals emitted so far, oldest first. */
    var signals: seq<Signal>

    ghost predicate Valid()
      reads this
    {
      && experience.Keys == ExpTypes
      && initialStatIndex < 3
      && LevelsInRange(experience)
    }

    constructor ()
      ensures Valid()
      ensures experience == InitialLedger() && initialStatIndex == 0 && signals == []
    {
      experience := InitialLedger();
      initialStatIndex := 0;
      signals := [];
    }

    method Reset()
      requires Valid()
      modifies this`experience
      ensures Valid() && experience == InitialLedger()
    {
      experience := InitialLedger();
    }

    method SetInitialStat(stat: string) returns (o: Outcome)
      requires Valid()
      modifies this`initialStatIndex
      ensures Valid()
      ensures o.Pass? <==> stat in LevelUpOrder
      ensures o.Pass? ==> LevelUpOrder[initialStatIndex] == stat
      ensures o.Fail? ==> o.error == "ValueError" && initialStatIndex == old(initialStatIndex)
    {
      if stat == "Body" {
        initialStatIndex := 0;
      } else if stat == "Spirit" {
        initialStatIndex := 1;
      } else if stat == "Mind" {
        initialStatIndex := 2;
      } else {
        return Fail("ValueError");
      }
      o := Pass;
    }

    /** get_level: an unknown type raises; the character's own record must
        exist; any other unknown identifier reads as level 1. */
    function GetLevel(expType: string, identifier: string): (r: Result<int>)
      reads this
      ensures r.Err? <==> expType !in experience
                          || (expType == "character" && "character" !in experience["character"])
      ensures expType in experience && expType != "character" && identifier !in experience[expType]
              ==> r == Ok(1)
    {
      if expType !in experience then Err("ValueError")
      else if expType == "character" then
        if "character" in experience["character"] then Ok(experience["character"]["character"].level)
        else Err("KeyError")
      else Ok(RecordOrNew(experience[expType], identifier).level)
    }

    /** get_experience: as GetLevel, returning the whole record, {exp 0,
        level 1} for an unknown identifier. */
    function GetExperience(expType: string, identifier: string): (r: Result<Record>)
      reads this
      ensures r.Err? <==> expType !in experience
                          || (expType == "character" && "character" !in experience["character"])
      ensures expType in experience && expType != "character" && identifier !in experience[expType]
              ==> r == Ok(Record(0, 1))
      ensures r.Ok? ==> GetLevel(expType, identifier) == Ok(r.value.level)
    {
      if expType !in experience then Err("ValueError")
      else if expType == "character" then
        if "character" in experience["character"] then Ok(experience["character"]["character"])
        else Err("KeyError")
      else Ok(RecordOrNew(experience[expType], identifier))
    }

    /** The index into the rotation that the next character level-up will
        use: it names the stat that a level-up to the following level
        targets. */
    function CurrentLevelUpIndex(): (r: Result<int>)
      requires Valid()
      reads this
      ensures r.Ok? ==> 0 <= r.value < 3 && GetLevel("character", "character").Ok?
      ensures r.Ok? ==>
        LevelUpOrder[r.value] == StatForLevel(initialStatIndex, GetLevel("character", "character").value + 1)
    {
      match GetLevel("character", "character")
      case Ok(level) => Ok((initialStatIndex + level) % 3)
      case Err(e) => Err(e)
    }

    method AddExperience(expType: string, amount: int, identifier: string) returns (r: Result<bool>)
      requires Valid()
      modifies this`experience, this`signals
      ensures Valid()
      ensures expType !in ExpTypes ==>
        r == Err("ValueError") && experience == old(experience) && signals == old(signals)
      ensures expType in ExpTypes ==>
        var id := if expType == "character" then "character" else identifier;
        var before := RecordOrNew(old(experience)[expType], id);
        var after := AddToRecord(before, amount);
        && experience == old(experience)[expType := old(experience)[expType][id := after]]
        && r == Ok(after.level == MaxLevel && amount > 0)
        && signals == old(signals) + AddSignals(expType, id, before, amount, initialStatIndex)
    {
      if expType !in experience {
        return Err("ValueError");
      }
      var id := if expType == "character" then "character" else identifier;
      if id !in experience[expType] {
        LevelsInRangeUpdate(experience, expType, id, Record(0, 1));
        experience := experience[expType := experience[expType][id := Record(0, 1)]];
      }
      ghost var created := experience;
      var reached := AddExpAndLevelUp(expType, id, amount);
      StoredOverCreated(old(experience), created, experience, expType, id, amount);
      r := Ok(reached);
    }

    /** Storing the new record over a freshly created one is storing it
        straight into the ledger as it was. */
    static lemma StoredOverCreated(ledger: map<string, map<string, Record>>, created: map<string, map<string, Record>>,
                                   stored: map<string, map<string, Record>>, expType: string, id: string, amount: int)
      requires expType in ledger
      requires created == if id in ledger[expType] then ledger
                          else ledger[expType := ledger[expType][id := Record(0, 1)]]
      requires stored == created[expType := created[expType][id := AddToRecord(created[expType][id], amount)]]
      ensures created[expType][id] == RecordOrNew(ledger[expType], id)
      ensures stored == ledger[expType := ledger[expType][id := AddToRecord(RecordOrNew(ledger[expType], id), amount)]]
    {
      var after := AddToRecord(RecordOrNew(ledger[expType], id), amount);
      if id !in ledger[expType] {
        assert created[expType][id := after] == ledger[expType][id := after];
      }
    }

    /** The body of one `add_experience` call on an existing record: work
        out the new record and its signals, then store it. */
    method AddExpAndLevelUp(expType: string, id: string, amount: int) returns (reached: bool)
      requires Valid() && expType in experience && id in experience[expType]
      modifies this`experience, this`signals
      ensures Valid()
      ensures var before := old(experience)[expType][id];
        var after := AddToRecord(before, amount);
        && experience == old(experience)[expType := old(experience)[expType][id := after]]
        && reached == (after.level == MaxLevel && amount > 0)
        && signals == old(signals) + AddSignals(expType, id, before, amount, initialStatIndex)
    {
      var before := experience[expType][id];
      var after := Advance(expType, id, before, amount);
      AddToRecordSpec(before, amount);
      LevelsInRangeUpdate(experience, expType, id, after);
      experience := experience[expType := experience[expType][id := after]];
      reached := after.level == MaxLevel && amount > 0;
    }

    /** Add the amount; for a non-negative amount run the level-up loop and
        clamp at the cap, announcing the cap when it is first reached; then
        announce the new record. */
    method Advance(expType: string, id: string, before: Record, amount: int) returns (after: Record)
      requires 0 <= before.level <= MaxLevel
      modifies this`signals
      ensures after == AddToRecord(before, amount)
      ensures signals == old(signals) + AddSignals(expType, id, before, amount, initialStatIndex)
    {
      var exp := before.exp + amount;
      var level := before.level;
      ghost var settled := Record(exp, level);
      ghost var reachedSignals: seq<Signal> := [];
      ghost var start := signals;
      if amount >= 0 {
        exp, level := LevelUpLoop(expType, id, exp, level);
        settled := Record(exp, level);
        if level == MaxLevel {
          exp := if exp < MaxExp(MaxLevel) - 1 then exp else MaxExp(MaxLevel) - 1;
          if before.level != MaxLevel {
            signals := signals + [MaxLevelReached(expType, id)];
            reachedSignals := [MaxLevelReached(expType, id)];
          }
        }
      }
      after := Record(exp, level);
      signals := signals + [ExperienceUpdated(expType, id, exp, MaxExp(level))];
      AdvanceDone(expType, id, before, amount, initialStatIndex, settled, after, start, reachedSignals, signals);
    }

    /** The pieces Advance computes make up AddToRecord and AddSignals. */
    static lemma AdvanceDone(expType: string, id: string, before: Record, amount: int, initialStatIndex: nat,
                             settled: Record, after: Record, start: seq<Signal>, reachedSignals: seq<Signal>,
                             signals: seq<Signal>)
      requires amount >= 0 ==>
        && settled == Settle(before.exp + amount, before.level)
        && after == ClampAtCap(settled)
        && reachedSignals == (if settled.level == MaxLevel && before.level != MaxLevel
                              then [MaxLevelReached(expType, id)] else [])
        && signals == start + LevelUpSignals(expType, id, before.level, settled.level, initialStatIndex)
                      + reachedSignals + [ExperienceUpdated(expType, id, after.exp, MaxExp(after.level))]
      requires amount < 0 ==>
        && after == Record(before.exp + amount, before.level)
        && signals == start + [ExperienceUpdated(expType, id, after.exp, MaxExp(after.level))]
      ensures after == AddToRecord(before, amount)
      ensures signals == start + AddSignals(expType, id, before, amount, initialStatIndex)
    {
    }

    /** The level-up loop of one call: while below the cap and the current
        level's cost is affordable, pay it, go up a level and emit the
        level-up (with its stat target for the character). */
    method LevelUpLoop(expType: string, id: string, exp0: int, level0: int) returns (exp: int, level: int)
      requires 0 <= level0 <= MaxLevel
      modifies this`signals
      ensures Record(exp, level) == Settle(exp0, level0)
      ensures signals == old(signals) + LevelUpSignals(expType, id, level0, level, initialStatIndex)
    {
      exp, level := exp0, level0;
      while level < MaxLevel
        invariant level0 <= level <= MaxLevel
        invariant Settle(exp, level) == Settle(exp0, level0)
        invariant signals == old(signals) + LevelUpSignals(expType, id, level0, level, initialStatIndex)
        decreases MaxLevel - level
      {
        var maxExp := MaxExp(level);
        if exp >= maxExp {
          exp := exp - maxExp;
          level := level + 1;
          signals := signals + [LevelUp(expType, id, level)];
          if expType == "character" && id == "character" {
            var statIndex := (initialStatIndex + level - 1) % 3;
            signals := signals + [CharacterLevelUp(level, LevelUpOrder[statIndex])];
          }
        } else {
          break;
        }
      }
    }

    /** set_experience: only the trait ledger may be set directly; it
        overwrites the record with the amount at level 1. */
    method SetExperience(expType: string, amount: int, identifier: string) returns (o: Outcome)
      requires Valid()
      modifies this`experience, this`signals
      ensures Valid()
      ensures o.Pass? <==> expType == "trait"
      ensures o.Fail? ==> o.error == "ValueError" && experience == old(experience) && signals == old(signals)
      ensures o.Pass? ==>
        && experience == old(experience)["trait" := old(experience)["trait"][identifier := Record(amount, 1)]]
        && signals == old(signals) + [ExperienceUpdated("trait", identifier, amount, MaxExp(1))]
    {
      if expType !in experience {
        return Fail("ValueError");
      }
      if expType == "trait" {
        experience := experience["trait" := experience["trait"][identifier := Record(amount, 1)]];
        signals := signals + [ExperienceUpdated("trait", identifier, amount, MaxExp(1))];
        o := Pass;
      } else {
        o := Fail("ValueError");
      }
    }

    /** load_experience: empty data resets the ledger; any other data
        replaces it wholesale and announces the character's record, which
        raises KeyError (after the replacement) when the data lacks it.
        Well-formed data leaves a valid ledger. */
    method LoadExperience(data: map<string, map<string, Record>>) returns (o: Outcome)
      requires Valid()
      modifies this`experience, this`signals
      ensures |data| == 0 ==> Valid() && experience == InitialLedger() && signals == old(signals) && o.Pass?
      ensures |data| > 0 ==> experience == data
      ensures |data| > 0 && "character" in data && "character" in data["character"] ==>
        && o.Pass?
        && signals == old(signals) + [ExperienceUpdated("character", "character", data["character"]["character"].exp,
                                                        MaxExp(data["character"]["character"].level))]
      ensures |data| > 0 && !("character" in data && "character" in data["character"]) ==>
        o == Fail("KeyError") && signals == old(signals)
      ensures data.Keys == ExpTypes && LevelsInRange(data) ==> Valid()
    {
      if |data| == 0 {
        Reset();
        return Pass;
      }
      experience := data;
      if "character" !in experience || "character" !in experience["character"] {
        return Fail("KeyError");
      }
      var record := experience["character"]["character"];
      signals := signals + [ExperienceUpdated("character", "character", record.exp, MaxExp(record.level))];
      o := Pass;
    }

    /** get_all_experience: the whole ledger, whose every non-character
        record is what GetExperience reads back. */
    function GetAllExperience(): (r: map<string, map<string, Record>>)
      reads this
      ensures r.Keys == experience.Keys
      ensures forall t, id :: t in r && t != "character" && id in r[t] ==> GetExperience(t, id) == Ok(r[t][id])
      ensures "character" in r && "character" in r["character"] ==>
        GetExperience("character", "character") == Ok(r["character"]["character"])
    {
      experience
    }

    /** remove_experience: deletes a present record (emitting a zeroed
        update) and ignores an absent one. */
    method RemoveExperience(expType: string, identifier: string) returns (o: Outcome)
      requires Valid()
      modifies this`experience, this`signals
      ensures Valid()
      ensures o.Pass? <==> expType in ExpTypes
      ensures o.Fail? ==> experience == old(experience) && signals == old(signals)
      ensures o.Pass? && identifier !in old(experience)[expType] ==>
        experience == old(experience) && signals == old(signals)
      ensures o.Pass? && identifier in old(experience)[expType] ==>
        && experience == old(experience)[expType := old(experience)[expType] - {identifier}]
        && signals == old(signals) + [ExperienceUpdated(expType, identifier, 0, 0)]
    {
      if expType !in experience {
        return Fail("ValueError");
      }
      if identifier in experience[expType] {
        experience := experience[expType := experience[expType] - {identifier}];
        signals := signals + [ExperienceUpdated(expType, identifier, 0, 0)];
      }
      o := Pass;
    }
  }
}
