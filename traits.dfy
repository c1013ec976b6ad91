/** The trait list: an ordered list of traits kept unique by name on
    insertion, each trait levelling from quality level 1 up to 10 on the
    shared experience curve, saved as attribute records and loaded back from
    them. */
module Traits {
  import opened Wrappers
  import CoreUtils
  import Truncation

  /** A trait: its name, quality grade and quality level, the experience
      gathered towards the next level, and free-text notes. */
  datatype Trait = Trait(name: string, qualityGrade: string, qualityLevel: int, exp: int, notes: string)

  /** Trait(name, grade, level): a new trait has no experience and no notes. */
  function NewTrait(name: string, qualityGrade: string, qualityLevel: int): Trait
  {
    Trait(name, qualityGrade, qualityLevel, 0, "")
  }

  /** What the calculator announces: the list changed, or a trait's
      experience changed (its index, experience and current level cost). */
  datatype TraitSignal = TraitsUpdated | ExpUpdated(index: int, exp: int, maxExp: int)

  /** The level at which a trait stops levelling. */
  const TopLevel: int := 10

  predicate HasName(traits: seq<Trait>, name: string)
  {
    exists i :: 0 <= i < |traits| && traits[i].name == name
  }

  predicate UniqueNames(traits: seq<Trait>)
  {
    forall i, j :: 0 <= i < j < |traits| ==> traits[i].name != traits[j].name
  }

  /** The index of the first trait with the name, if any. */
  function FirstIndex(traits: seq<Trait>, name: string): (r: Option<nat>)
    ensures r.Some? ==> r.value < |traits| && traits[r.value].name == name
    ensures r.Some? ==> forall j :: 0 <= j < r.value ==> traits[j].name != name
    ensures r.None? ==> forall j :: 0 <= j < |traits| ==> traits[j].name != name
  {
    if |traits| == 0 then None
    else if traits[0].name == name then Some(0)
    else
      match FirstIndex(traits[1..], name)
      case None => None
      case Some(i) => Some(i + 1)
  }

  /** The search add_trait runs: scan from the front for the first trait with
      the name. */
  method FindByName(traits: seq<Trait>, name: string) returns (r: Option<nat>)
    ensures r == FirstIndex(traits, name)
  {
    var i := 0;
    while i < |traits|
      invariant 0 <= i <= |traits|
      invariant forall j :: 0 <= j < i ==> traits[j].name != name
    {
      if traits[i].name == name {
        return Some(i);
      }
      i := i + 1;
    }
    return None;
  }

  /** The list after adding a trait: it takes the place of the first trait
      with its name, or goes to the end when there is none. */
  function Upserted(traits: seq<Trait>, t: Trait): seq<Trait>
  {
    match FirstIndex(traits, t.name)
    case Some(i) => traits[i := t]
    case None => traits + [t]
  }

  /** The traits whose name is not `name`, in order. */
  function Without(traits: seq<Trait>, name: string): seq<Trait>
  {
    if |traits| == 0 then []
    else (if traits[0].name == name then [] else [traits[0]]) + Without(traits[1..], name)
  }

  lemma {:induction false} WithoutAppend(traits: seq<Trait>, t: Trait)
    ensures Without(traits + [t], t.name) == Without(traits, t.name)
  {
    if |traits| > 0 {
      assert (traits + [t])[1..] == traits[1..] + [t];
      WithoutAppend(traits[1..], t);
    }
  }

  lemma {:induction false} WithoutReplace(traits: seq<Trait>, i: nat, t: Trait)
    requires i < |traits| && traits[i].name == t.name
    ensures Without(traits[i := t], t.name) == Without(traits, t.name)
  {
    if i > 0 {
      assert traits[i := t][1..] == traits[1..][i - 1 := t];
      WithoutReplace(traits[1..], i - 1, t);
    }
  }

  /** With unique names, adding a trait keeps the names unique, leaves the
      traits of every other name exactly as they were and in order, holds the
      new trait, and grows the list only when the name was new. */
  lemma UpsertSpec(traits: seq<Trait>, t: Trait)
    requires UniqueNames(traits)
    ensures var r := Upserted(traits, t);
      && UniqueNames(r)
      && Without(r, t.name) == Without(traits, t.name)
      && t in r
      && |r| == if HasName(traits, t.name) then |traits| else |traits| + 1
  {
    var r := Upserted(traits, t);
    match FirstIndex(traits, t.name)
    case Some(i) =>
      WithoutReplace(traits, i, t);
      assert r[i] == t;
      assert forall j :: 0 <= j < |r| && j != i ==> r[j] == traits[j];
    case None =>
      WithoutAppend(traits, t);
      assert r[|traits|] == t;
  }

  /** The list after deleting the entry at `index`. */
  function Removed(traits: seq<Trait>, index: nat): seq<Trait>
    requires index < |traits|
  {
    traits[..index] + traits[index + 1..]
  }

  /** With unique names, deleting an entry keeps the names unique, drops
      exactly that trait's name, and keeps every other trait. */
  lemma RemoveSpec(traits: seq<Trait>, index: nat)
    requires index < |traits| && UniqueNames(traits)
    ensures var r := Removed(traits, index);
      && |r| == |traits| - 1
      && UniqueNames(r)
      && !HasName(r, traits[index].name)
      && forall j :: 0 <= j < |traits| && j != index ==> traits[j] in r
  {
    var r := Removed(traits, index);
    assert forall k :: 0 <= k < |r| ==> r[k] == traits[if k < index then k else k + 1];
    forall j | 0 <= j < |traits| && j != index
      ensures traits[j] in r
    {
      assert r[if j < index then j else j - 1] == traits[j];
    }
  }

  /** The named attributes update_trait sets; an absent one is left alone. */
  datatype TraitUpdate = TraitUpdate(
    name: Option<string>,
    qualityGrade: Option<string>,
    qualityLevel: Option<int>,
    exp: Option<int>,
    notes: Option<string>)

  function Pick<T>(given: Option<T>, current: T): T
  {
    if given.Some? then given.value else current
  }

  /** A trait with the given attributes set. */
  function Updated(t: Trait, u: TraitUpdate): Trait
  {
    Trait(Pick(u.name, t.name), Pick(u.qualityGrade, t.qualityGrade), Pick(u.qualityLevel, t.qualityLevel),
          Pick(u.exp, t.exp), Pick(u.notes, t.notes))
  }

  /** Setting attributes changes only the named ones, an empty update is a
      no-op, and setting the same attributes twice is the same as once. */
  lemma UpdateSpec(t: Trait, u: TraitUpdate)
    ensures var r := Updated(t, u);
      && (u.name.None? ==> r.name == t.name) && (u.name.Some? ==> r.name == u.name.value)
      && (u.qualityGrade.None? ==> r.qualityGrade == t.qualityGrade)
      && (u.qualityLevel.None? ==> r.qualityLevel == t.qualityLevel)
      && (u.exp.None? ==> r.exp == t.exp)
      && (u.notes.None? ==> r.notes == t.notes)
      && Updated(r, u) == r
    ensures Updated(t, TraitUpdate(None, None, None, None, None)) == t
  {
  }

  /** The experience and level a trait reaches on the curve. */
  datatype Standing = Standing(exp: int, level: int)

  /** The level-up loop: while the experience covers the current level's
      cost and the level is below 10, pay the cost and go up a level. */
  function Climb(exp: int, level: int): Standing
    decreases TopLevel - level
  {
    if exp >= CoreUtils.MaxExp(level) && level < TopLevel then
      Climb(exp - CoreUtils.MaxExp(level), level + 1)
    else Standing(exp, level)
  }

  /** The experience paid for the levels lo..hi-1. */
  function LevelCost(lo: int, hi: int): int
    decreases hi - lo
  {
    if hi <= lo then 0 else CoreUtils.MaxExp(lo) + LevelCost(lo + 1, hi)
  }

  /** The loop never passes level 10 and never lowers the level; it stops
      below the current level's cost unless at level 10; it pays exactly the
      cost of the levels it passes; and it never turns a non-negative
      experience negative. A level already above 10 is left alone. */
  lemma {:induction false} ClimbSpec(exp: int, level: int)
    ensures var s := Climb(exp, level);
      && (level <= TopLevel ==> level <= s.level <= TopLevel)
      && (level > TopLevel ==> s == Standing(exp, level))
      && (s.level < TopLevel ==> s.exp < CoreUtils.MaxExp(s.level))
      && exp == s.exp + LevelCost(level, s.level)
      && (exp >= 0 ==> s.exp >= 0)
    decreases TopLevel - level
  {
    if exp >= CoreUtils.MaxExp(level) && level < TopLevel {
      ClimbSpec(exp - CoreUtils.MaxExp(level), level + 1);
    }
  }

  /** The trait after add_experience: the amount added, the level-up loop
      run, and at level 10 the experience held below the level-10 cost. */
  function Gained(t: Trait, amount: int): Trait
  {
    var s := Climb(t.exp + amount, t.qualityLevel);
    var cap := CoreUtils.MaxExp(TopLevel) - 1;
    t.(exp := if s.level == TopLevel && s.exp > cap then cap else s.exp, qualityLevel := s.level)
  }

  /** Gaining experience never changes the name, grade or notes and never
      lowers the level. From a level of at most 10 the level stays at most
      10; below 10 the experience ends below the level's cost, with the
      amount fully accounted for; at 10 it is at most 999. A level above 10
      only takes the amount. */
  lemma GainedSpec(t: Trait, amount: int)
    ensures var g := Gained(t, amount);
      && g.name == t.name && g.qualityGrade == t.qualityGrade && g.notes == t.notes
      && (t.qualityLevel <= TopLevel ==> t.qualityLevel <= g.qualityLevel <= TopLevel)
      && (t.qualityLevel > TopLevel ==> g == t.(exp := t.exp + amount))
      && (g.qualityLevel < TopLevel ==>
            g.exp < CoreUtils.MaxExp(g.qualityLevel)
            && t.exp + amount == g.exp + LevelCost(t.qualityLevel, g.qualityLevel))
      && (g.qualityLevel == TopLevel ==> g.exp <= 999)
      && (t.exp + amount >= 0 ==> g.exp >= 0)
  {
    ClimbSpec(t.exp + amount, t.qualityLevel);
  }

  /** From level 1, 250 experience buys level 2 (cost 100) with 150 left;
      10000 experience buys levels 2..10 (cost 4500) and is then held at 999. */
  lemma FreshTraitGains(name: string, grade: string)
    ensures Gained(NewTrait(name, grade, 1), 250) == Trait(name, grade, 2, 150, "")
    ensures Gained(NewTrait(name, grade, 1), 10000) == Trait(name, grade, 10, 999, "")
  {
    assert CoreUtils.MaxExp(10) == 1000;
  }

  /** The amount add_experience_percent adds: int(maxExp · percent / 100),
      truncated toward zero. */
  function PercentAmount(level: int, percent: real): int
  {
    Truncation.Trunc(CoreUtils.MaxExp(level) as real * percent / 100.0)
  }

  /** A percentage in [0, 100] of the current level's cost is between 0 and
      that cost, and 100 percent is the whole cost. */
  lemma PercentAmountSpec(level: int, percent: real)
    requires level >= 0 && 0.0 <= percent <= 100.0
    ensures 0 <= PercentAmount(level, percent) <= CoreUtils.MaxExp(level)
    ensures percent == 100.0 ==> PercentAmount(level, percent) == CoreUtils.MaxExp(level)
  {
    var m := CoreUtils.MaxExp(level);
    assert m >= 0 by {
      if level >= 1 {
        CoreUtils.MaxExpPositive(level);
      }
    }
    PercentOf(m, percent);
    assert PercentAmount(level, percent) == Truncation.Trunc(m as real * percent / 100.0);
  }

  /** A percentage in [0, 100] of a non-negative amount, truncated, lies
      between 0 and the amount, and is the amount at 100 percent. */
  lemma PercentOf(amount: int, percent: real)
    requires amount >= 0 && 0.0 <= percent <= 100.0
    ensures 0 <= Truncation.Trunc(amount as real * percent / 100.0) <= amount
    ensures percent == 100.0 ==> Truncation.Trunc(amount as real * percent / 100.0) == amount
  {
    var x := amount as real * percent / 100.0;
    assert 0.0 <= x <= amount as real by {
      assert amount as real * percent >= 0.0;
      assert amount as real * (100.0 - percent) >= 0.0;
    }
    Truncation.TruncBetween(x, 0, amount);
    if percent == 100.0 {
      assert x == amount as real;
      Truncation.TruncOfInt(amount);
    }
  }

  /** A fraction of a point is dropped rather than rounded: 0.5 percent of
      100 adds nothing and 1.99 percent adds 1. */
  lemma PercentAmountTruncates()
    ensures PercentAmount(1, 0.5) == 0 && PercentAmount(1, 1.99) == 1
  {
    assert CoreUtils.MaxExp(1) == 100;
    assert 100.0 * 0.5 / 100.0 == 0.5;
    assert 100.0 * 1.99 / 100.0 == 1.99;
    Truncation.TruncBounds(0.5);
    Truncation.TruncBounds(1.99);
  }

  /** A trait's saved form, and the keyword arguments a loaded record passes
      to the Trait constructor, by attribute name (absent keys None). */
  datatype Kwargs = Kwargs(
    name: Option<string>,
    qualityGrade: Option<string>,
    qualityLevel: Option<int>,
    exp: Option<int>,
    notes: Option<string>)

  /** The attribute record of a trait: all five attributes. */
  function AsRecord(t: Trait): Kwargs
  {
    Kwargs(Some(t.name), Some(t.qualityGrade), Some(t.qualityLevel), Some(t.exp), Some(t.notes))
  }

  function Records(traits: seq<Trait>): (r: seq<Kwargs>)
    ensures |r| == |traits| && forall i :: 0 <= i < |traits| ==> r[i] == AsRecord(traits[i])
  {
    seq(|traits|, i requires 0 <= i < |traits| => AsRecord(traits[i]))
  }

  /** Trait(**record) as the constructor defines it: only name, quality
      grade and quality level are parameters, so a record carrying exp or
      notes raises TypeError, and so does one missing name or grade. */
  function TraitFromKwargs(d: Kwargs): Result<Trait>
  {
    if d.exp.Some? || d.notes.Some? then Err("TypeError")
    else if d.name.None? || d.qualityGrade.None? then Err("TypeError")
    else Ok(NewTrait(d.name.value, d.qualityGrade.value, Pick(d.qualityLevel, 1)))
  }

  /** A trait from its record that also takes the experience and the notes,
      with the constructor's defaults (level 1, no experience, no notes). */
  function TraitFromRecord(d: Kwargs): Result<Trait>
  {
    if d.name.None? || d.qualityGrade.None? then Err("TypeError")
    else Ok(Trait(d.name.value, d.qualityGrade.value, Pick(d.qualityLevel, 1), Pick(d.exp, 0), Pick(d.notes, "")))
  }

  /** Every record converted, or the first failure. */
  function ConvertAll(data: seq<Kwargs>, convert: Kwargs -> Result<Trait>): (r: Result<seq<Trait>>)
    ensures r.Ok? ==> |r.value| == |data| && forall i :: 0 <= i < |data| ==> convert(data[i]) == Ok(r.value[i])
    ensures r.Err? ==> exists i :: 0 <= i < |data| && convert(data[i]) == Err(r.error)
  {
    if |data| == 0 then Ok([])
    else
      match convert(data[0])
      case Err(e) => Err(e)
      case Ok(t) =>
        match ConvertAll(data[1..], convert)
        case Err(e) => Err(e)
        case Ok(rest) => Ok([t] + rest)
  }

  /** A record loads as a trait when it names the trait and its grade. */
  lemma ConvertAllSucceeds(data: seq<Kwargs>, convert: Kwargs -> Result<Trait>)
    requires forall i :: 0 <= i < |data| ==> convert(data[i]).Ok?
    ensures ConvertAll(data, convert).Ok?
  {
  }

  /** Loading saved traits with the constructor as written fails for every
      non-empty list: the saved records carry exp and notes. */
  lemma SavedTraitsDoNotLoad(traits: seq<Trait>)
    requires |traits| > 0
    ensures ConvertAll(Records(traits), TraitFromKwargs).Err?
  {
    var data := Records(traits);
    assert TraitFromKwargs(data[0]).Err?;
  }

  /** Loading saved traits with every attribute restores the same list. */
  lemma SavedTraitsRoundTrip(traits: seq<Trait>)
    ensures ConvertAll(Records(traits), TraitFromRecord) == Ok(traits)
  {
    var data := Records(traits);
    ConvertAllSucceeds(data, TraitFromRecord);
    var r := ConvertAll(data, TraitFromRecord).value;
    assert forall i :: 0 <= i < |traits| ==> r[i] == traits[i] by {
      forall i | 0 <= i < |traits|
        ensures r[i] == traits[i]
      {
        assert TraitFromRecord(data[i]) == Ok(r[i]);
      }
    }
    assert |r| == |traits|;
    assert r == traits;
  }

  class TraitsCalculator {
    var traits: seq<Trait>
    var signals: seq<TraitSignal>

    constructor ()
      ensures traits == [] && signals == []
    {
      traits := [];
      signals := [];
    }

    /** reset: an empty list, announced. */
    method Reset()
      modifies this`traits, this`signals
      ensures traits == [] && signals == old(signals) + [TraitsUpdated]
    {
      traits := [];
      signals := signals + [TraitsUpdated];
    }

    /** add_trait: anything but a trait (None) is ignored; a trait replaces
        the first trait of its name in place or is appended. */
    method AddTrait(candidate: Option<Trait>)
      modifies this`traits, this`signals
      ensures candidate.None? ==> traits == old(traits) && signals == old(signals)
      ensures candidate.Some? ==>
        traits == Upserted(old(traits), candidate.value) && signals == old(signals) + [TraitsUpdated]
    {
      if candidate.Some? {
        var t := candidate.value;
        var existing := FindByName(traits, t.name);
        if existing.Some? {
          traits := traits[existing.value := t];
        } else {
          traits := traits + [t];
        }
        signals := signals + [TraitsUpdated];
      }
    }

    /** remove_trait: an index outside the list changes nothing; otherwise
        that entry is deleted. */
    method RemoveTrait(index: int)
      modifies this`traits, this`signals
      ensures !(0 <= index < |old(traits)|) ==> traits == old(traits) && signals == old(signals)
      ensures 0 <= index < |old(traits)| ==>
        traits == Removed(old(traits), index) && signals == old(signals) + [TraitsUpdated]
    {
      if 0 <= index < |traits| {
        traits := traits[..index] + traits[index + 1..];
        signals := signals + [TraitsUpdated];
      }
    }

    /** update_trait: an index outside the list changes nothing; otherwise
        the named attributes of that one trait are set. */
    method UpdateTrait(index: int, u: TraitUpdate)
      modifies this`traits, this`signals
      ensures !(0 <= index < |old(traits)|) ==> traits == old(traits) && signals == old(signals)
      ensures 0 <= index < |old(traits)| ==>
        traits == old(traits)[index := Updated(old(traits)[index], u)] && signals == old(signals) + [TraitsUpdated]
    {
      if 0 <= index < |traits| {
        traits := traits[index := Updated(traits[index], u)];
        signals := signals + [TraitsUpdated];
      }
    }

    /** add_experience: an index outside the list changes nothing; otherwise
        the amount is added, the level-up loop runs, the experience is held
        below the level-10 cost at level 10, and the new experience and level
        cost are announced. */
    method AddExperience(index: int, amount: int)
      modifies this`traits, this`signals
      ensures !(0 <= index < |old(traits)|) ==> traits == old(traits) && signals == old(signals)
      ensures 0 <= index < |old(traits)| ==>
        && traits == old(traits)[index := Gained(old(traits)[index], amount)]
        && signals == old(signals) + [ExpUpdated(index, traits[index].exp, CoreUtils.MaxExp(traits[index].qualityLevel)),
                                      TraitsUpdated]
    {
      if 0 <= index < |traits| {
        var current := traits[index];
        var exp := current.exp + amount;
        var level := current.qualityLevel;
        var maxExp := CoreUtils.MaxExp(level);
        while exp >= maxExp && level < TopLevel
          invariant maxExp == CoreUtils.MaxExp(level)
          invariant Climb(exp, level) == Climb(current.exp + amount, current.qualityLevel)
          decreases TopLevel - level
        {
          exp := exp - maxExp;
          level := level + 1;
          maxExp := CoreUtils.MaxExp(level);
        }
        if level == TopLevel {
          exp := if exp <= maxExp - 1 then exp else maxExp - 1;
        }
        traits := traits[index := current.(exp := exp, qualityLevel := level)];
        signals := signals + [ExpUpdated(index, exp, maxExp), TraitsUpdated];
      }
    }

    /** add_experience_percent: an index outside the list changes nothing;
        otherwise a percentage of the current level's cost is added. */
    method AddExperiencePercent(index: int, percent: real)
      modifies this`traits, this`signals
      ensures !(0 <= index < |old(traits)|) ==> traits == old(traits) && signals == old(signals)
      ensures 0 <= index < |old(traits)| ==>
        var g := Gained(old(traits)[index], PercentAmount(old(traits)[index].qualityLevel, percent));
        && traits == old(traits)[index := g]
        && signals == old(signals) + [ExpUpdated(index, g.exp, CoreUtils.MaxExp(g.qualityLevel)), TraitsUpdated]
    {
      if 0 <= index < |traits| {
        var amount := PercentAmount(traits[index].qualityLevel, percent);
        AddExperience(index, amount);
      }
    }

    /** load_traits: empty data changes nothing; otherwise every record is
        converted, and the list is replaced and announced only when all of
        them convert; the first failure propagates with nothing changed. */
    method Load(data: seq<Kwargs>, convert: Kwargs -> Result<Trait>) returns (o: Outcome)
      modifies this`traits, this`signals
      ensures |data| == 0 ==> o == Pass && traits == old(traits) && signals == old(signals)
      ensures |data| > 0 && ConvertAll(data, convert).Err? ==>
        o == Fail(ConvertAll(data, convert).error) && traits == old(traits) && signals == old(signals)
      ensures |data| > 0 && ConvertAll(data, convert).Ok? ==>
        o == Pass && traits == ConvertAll(data, convert).value && signals == old(signals) + [TraitsUpdated]
    {
      if |data| == 0 {
        return Pass;
      }
      match ConvertAll(data, convert)
      case Err(e) =>
        return Fail(e);
      case Ok(loaded) =>
        traits := loaded;
        signals := signals + [TraitsUpdated];
        return Pass;
    }

    /** load_traits as written: each record goes to Trait(**record), so a
        record with exp or notes raises TypeError, and every non-empty list
        that get_traits saved fails to load, leaving the list as it was. */
    method LoadTraits(data: seq<Kwargs>) returns (o: Outcome)
      modifies this`traits, this`signals
      ensures |data| == 0 ==> o == Pass && traits == old(traits) && signals == old(signals)
      ensures |data| > 0 && ConvertAll(data, TraitFromKwargs).Err? ==>
        o == Fail("TypeError") && traits == old(traits) && signals == old(signals)
      ensures |data| > 0 && ConvertAll(data, TraitFromKwargs).Ok? ==>
        o == Pass && traits == ConvertAll(data, TraitFromKwargs).value && signals == old(signals) + [TraitsUpdated]
      ensures forall saved :: |saved| > 0 && data == Records(saved) ==>
        o == Fail("TypeError") && traits == old(traits) && signals == old(signals)
    {
      o := Load(data, TraitFromKwargs);
      forall saved | |saved| > 0 && data == Records(saved)
        ensures ConvertAll(data, TraitFromKwargs).Err?
      {
        SavedTraitsDoNotLoad(saved);
      }
    }

    /** The load that restores what get_traits saved: each record keeps its
        experience and notes, so loading a saved list gives it back. */
    method LoadSavedTraits(data: seq<Kwargs>) returns (o: Outcome)
      modifies this`traits, this`signals
      ensures |data| == 0 ==> o == Pass && traits == old(traits) && signals == old(signals)
      ensures |data| > 0 && ConvertAll(data, TraitFromRecord).Err? ==>
        o == Fail("TypeError") && traits == old(traits) && signals == old(signals)
      ensures |data| > 0 && ConvertAll(data, TraitFromRecord).Ok? ==>
        o == Pass && traits == ConvertAll(data, TraitFromRecord).value && signals == old(signals) + [TraitsUpdated]
      ensures forall saved :: |saved| > 0 && data == Records(saved) ==>
        o == Pass && traits == saved && signals == old(signals) + [TraitsUpdated]
    {
      o := Load(data, TraitFromRecord);
      forall saved | |saved| > 0 && data == Records(saved)
        ensures ConvertAll(data, TraitFromRecord) == Ok(saved)
      {
        SavedTraitsRoundTrip(saved);
      }
    }

    /** get_traits: the attribute record of every trait, in order. */
    function GetTraits(): (r: seq<Kwargs>)
      reads this
      ensures r == Records(traits)
      ensures |r| == |traits|
      ensures forall i :: 0 <= i < |r| ==> TraitFromRecord(r[i]) == Ok(traits[i])
    {
      Records(traits)
    }
  }
}
