/** The pure formula helpers shared by the calculators: triangular numbers,
    the experience curve without the level-0 bootstrap tier, the mastery-layer
    table, the quality, mastery and adjustment multipliers, and the exact and
    small-number branches of number formatting. */
module CoreUtils {
  import opened Wrappers

  /** The n-th triangular number 1 + 2 + … + n, extended to negative n so
      that T(n + 1) = T(n) + n + 1 holds everywhere. */
  function Triangular(n: int): int
    decreases if n >= 0 then n else -n
  {
    if n == 0 then 0
    else if n > 0 then Triangular(n - 1) + n
    else Triangular(n + 1) - (n + 1)
  }

  /** The closed form the calculators use, n(n+1) // 2, is exact (the
      product of neighbours is even) and equals the triangular number. */
  lemma {:induction false} TriangularExact(n: int)
    ensures 2 * Triangular(n) == n * (n + 1)
    ensures Triangular(n) == n * (n + 1) / 2
    decreases if n >= 0 then n else -n
  {
    if n > 0 {
      TriangularExact(n - 1);
      assert n * (n + 1) == (n - 1) * n + 2 * n;
    } else if n < 0 {
      TriangularExact(n + 1);
      assert n * (n + 1) == (n + 1) * (n + 2) - 2 * (n + 1);
    }
  }

  /** Consecutive triangular numbers differ by the larger index. */
  lemma TriangularStep(n: int)
    ensures Triangular(n + 1) == Triangular(n) + n + 1
  {
  }

  function Pow10(n: nat): (p: int)
    ensures p >= 1
  {
    if n == 0 then 1 else 10 * Pow10(n - 1)
  }

  /** The experience curve of this module: 100 per level up to level 10
      (so 0 at level 0), then 10^(tier+2) times the level within the tier. */
  function MaxExp(level: int): int
  {
    if level <= 10 then level * 100
    else
      var tier := (level - 1) / 10;
      var levelInTier := (level - 1) % 10 + 1;
      Pow10(tier + 2) * levelInTier
  }

  /** Every level from 1 on costs at least 100. */
  lemma MaxExpPositive(level: int)
    requires level >= 1
    ensures MaxExp(level) >= 100
  {
    if level > 10 {
      var tier := (level - 1) / 10;
      PowGrowth(tier + 2);
      assert Pow10(tier + 2) >= Pow10(2) == 100;
    }
  }

  lemma {:induction false} PowGrowth(n: nat)
    requires n >= 2
    ensures Pow10(n) >= 100
  {
    if n > 2 { PowGrowth(n - 1); }
  }

  /** The curve never decreases from level 1 on. */
  lemma MaxExpStep(level: int)
    requires level >= 1
    ensures MaxExp(level) <= MaxExp(level + 1)
  {
    if level == 10 {
      assert Pow10(1) == 10 && Pow10(2) == 100 && Pow10(3) == 1000;
    } else if level >= 11 {
      var t := (level - 1) / 10;
      var l := (level - 1) % 10 + 1;
      var p := Pow10(t + 2);
      assert MaxExp(level) == p * l;
      if l == 10 {
        assert level / 10 == t + 1 && level % 10 == 0;
        assert MaxExp(level + 1) == Pow10(t + 3) * 1 == 10 * p;
      } else {
        assert level / 10 == t && level % 10 == l;
        assert MaxExp(level + 1) == p * (l + 1) == p * l + p;
      }
    }
  }

  lemma {:induction false} MaxExpMonotone(a: int, b: int)
    requires 1 <= a <= b
    ensures MaxExp(a) <= MaxExp(b)
    decreases b - a
  {
    if a < b {
      MaxExpStep(a);
      MaxExpMonotone(a + 1, b);
    }
  }

  /** The curve is flat across every tier boundary: the last level of a tier
      and the first level of the next cost the same, so it is not strictly
      increasing. */
  lemma MaxExpPlateau(m: int)
    requires m >= 1
    ensures MaxExp(10 * m) == MaxExp(10 * m + 1) == Pow10(m + 2)
  {
    assert (10 * m) / 10 == m && (10 * m) % 10 == 0;
    if m >= 2 {
      assert (10 * m - 1) / 10 == m - 1 && (10 * m - 1) % 10 == 9;
    }
  }

  /** The ten mastery layers, indexed by (level - 1) div 10. */
  const MasteryLayers: seq<string> := [
    "Initial Step", "Blossoming Path", "Grasping Intent", "Lesser Mastery", "Grand Completion",
    "Shaping Insight", "Law Crystal", "Forged Apotheosis", "Karmic Liberation", "Absolute Truth"
  ]

  /** The layer name, with Python list indexing: a negative index counts from
      the end and anything outside -10..9 raises IndexError. */
  function MasteryLayer(level: int): (r: Result<string>)
    ensures r.Ok? <==> -99 <= level <= 100
    ensures r.Ok? ==> r.value in MasteryLayers
  {
    var i := (level - 1) / 10;
    if 0 <= i < 10 then Ok(MasteryLayers[i])
    else if -10 <= i < 0 then Ok(MasteryLayers[i + 10])
    else Err("IndexError")
  }

  /** The level within the layer: ((level - 1) mod 10) + 1. */
  function MasteryLevel(level: int): (r: int)
    ensures 1 <= r <= 10
  {
    (level - 1) % 10 + 1
  }

  /** Levels 1..100 split into a layer index 0..9 and a level-in-layer 1..10
      that together give the level back. */
  lemma LayerDecomposition(level: int)
    requires 1 <= level <= 100
    ensures 0 <= (level - 1) / 10 <= 9
    ensures 10 * ((level - 1) / 10) + MasteryLevel(level) == level
    ensures MasteryLayer(level) == Ok(MasteryLayers[(level - 1) / 10])
  {
  }

  /** Level 0 wraps round to the last layer instead of failing. */
  lemma MasteryLayerOfLevelZero()
    ensures MasteryLayer(0) == Ok("Absolute Truth") && MasteryLevel(0) == 10
  {
  }

  const QualityRanks: map<string, int> := map[
    "Mortal Grade" := 1, "Elite Grade" := 2, "Earth Grade" := 3, "Royal Grade" := 4,
    "Imperial Grade" := 5, "Saint Grade" := 6, "Sky Grade" := 7, "Ascended Grade" := 8,
    "Transcended Grade" := 9, "Eternal Grade" := 10
  ]

  /** The rank of a quality grade; an unknown grade counts as rank 1. */
  function QualityRank(quality: string): (rank: int)
    ensures 1 <= rank <= 10
    ensures quality !in QualityRanks ==> rank == 1
  {
    if quality in QualityRanks then QualityRanks[quality] else 1
  }

  /** rank + (nextRank - rank) / 10 * qualityLevel, nextRank capped at 10. */
  function QualityMultiplier(quality: string, qualityLevel: int): real
  {
    var current := QualityRank(quality);
    var next := if current + 1 < 10 then current + 1 else 10;
    current as real + ((next - current) as real / 10.0) * qualityLevel as real
  }

  /** Below the top grade each quality level adds a tenth; the top grade is
      pinned at exactly 10. */
  lemma QualityMultiplierShape(quality: string, qualityLevel: int)
    ensures QualityRank(quality) < 10 ==>
      QualityMultiplier(quality, qualityLevel) == QualityRank(quality) as real + qualityLevel as real / 10.0
    ensures quality == "Eternal Grade" ==> QualityMultiplier(quality, qualityLevel) == 10.0
    ensures quality !in QualityRanks ==>
      QualityMultiplier(quality, qualityLevel) == 1.0 + qualityLevel as real / 10.0
  {
  }

  /** T(c) + (T(c') - T(c)) / 10 * levelInLayer with c the 1-based layer and
      c' = min(c + 1, 10). */
  function MasteryMultiplier(masteryLevel: int): real
  {
    var current := (masteryLevel - 1) / 10 + 1;
    var next := if current + 1 < 10 then current + 1 else 10;
    Interpolate(Triangular(current), Triangular(next), (masteryLevel - 1) % 10 + 1)
  }

  function Interpolate(low: int, high: int, step: int): real
  {
    low as real + ((high - low) as real / 10.0) * step as real
  }

  /** Inside layer c < 10 (mastery levels 10(c - 1) + 1 .. 10c) each level
      adds (c + 1) / 10 on top of T(c). */
  lemma MasteryMultiplierInLayer(masteryLevel: int)
    requires 1 <= masteryLevel <= 90
    ensures var c := (masteryLevel - 1) / 10 + 1;
      MasteryMultiplier(masteryLevel)
      == Triangular(c) as real + (c + 1) as real * MasteryLevel(masteryLevel) as real / 10.0
  {
    var c := (masteryLevel - 1) / 10 + 1;
    var l := MasteryLevel(masteryLevel);
    assert MasteryMultiplier(masteryLevel) == Interpolate(Triangular(c), Triangular(c + 1), l);
    TriangularStep(c);
    InterpolateStep(Triangular(c), Triangular(c + 1), c, l);
  }

  /** The top layer is pinned at T(10) = 55. */
  lemma MasteryMultiplierTop(masteryLevel: int)
    requires 91 <= masteryLevel <= 100
    ensures MasteryMultiplier(masteryLevel) == 55.0
  {
    assert (masteryLevel - 1) / 10 + 1 == 10;
    assert Triangular(10) == 55;
  }

  /** Mastery level 1 multiplies by 1.2. */
  lemma MasteryMultiplierAtOne()
    ensures MasteryMultiplier(1) == 1.2
  {
    MasteryMultiplierInLayer(1);
  }

  lemma InterpolateStep(low: int, high: int, c: int, l: int)
    requires high == low + c + 1
    ensures Interpolate(low, high, l) == low as real + (c + 1) as real * l as real / 10.0
  {
  }

  /** 1 + (realm - qualityRank) / 10 + masteryLayer / 10, the layer 1-based. */
  function AdjustmentMultiplier(quality: string, masteryLevel: int, realm: int): real
  {
    var gradeNum := QualityRank(quality);
    var masteryLayerNum := (masteryLevel - 1) / 10 + 1;
    1.0 + ((realm - gradeNum) as real / 10.0) + (masteryLayerNum as real / 10.0)
  }

  /** The adjustment is neutral exactly when realm + layer equals the grade
      rank, and each realm above that adds a tenth. */
  lemma AdjustmentMultiplierShape(quality: string, masteryLevel: int, realm: int)
    ensures var layer := (masteryLevel - 1) / 10 + 1;
      AdjustmentMultiplier(quality, masteryLevel, realm)
      == 1.0 + (realm + layer - QualityRank(quality)) as real / 10.0
    ensures AdjustmentMultiplier(quality, masteryLevel, realm + 1)
            == AdjustmentMultiplier(quality, masteryLevel, realm) + 0.1
  {
  }

  // ----- number formatting (the exact and below-1000 branches) -----

  function DigitChar(d: int): char
    requires 0 <= d < 10
  {
    ('0' as int + d) as char
  }

  /** Decimal digits of a natural number, most significant first. */
  function Digits(n: nat): (s: string)
    ensures |s| >= 1
    ensures forall i :: 0 <= i < |s| ==> '0' <= s[i] <= '9'
  {
    if n < 10 then [DigitChar(n)] else Digits(n / 10) + [DigitChar(n % 10)]
  }

  /** Python's str() on an int. */
  function IntToString(n: int): string
  {
    if n < 0 then "-" + Digits(-n) else Digits(n)
  }

  /** Commas inserted every three digits from the right. */
  function Grouped(d: string): string
  {
    if |d| <= 3 then d else Grouped(d[..|d| - 3]) + "," + d[|d| - 3..]
  }

  /** format_number: the thousands-grouped exact form, or the plain decimal
      form below 1000. */
  function FormatNumber(number: int, showExact: bool): string
    requires showExact || number < 1000
  {
    if showExact then
      (if number < 0 then "-" else "") + Grouped(Digits(if number < 0 then -number else number))
    else IntToString(number)
  }

  function RemoveCommas(s: string): (r: string)
    ensures |r| <= |s|
  {
    if s == [] then []
    else RemoveCommas(s[..|s| - 1]) + (if s[|s| - 1] == ',' then [] else [s[|s| - 1]])
  }

  function DigitValue(c: char): int
  {
    if '0' <= c <= '9' then (c as int) - ('0' as int) else 0
  }

  /** Reads a string of decimal digits back as a number. */
  function ParseDigits(s: string): int
  {
    if s == [] then 0 else 10 * ParseDigits(s[..|s| - 1]) + DigitValue(s[|s| - 1])
  }

  function ParseInt(s: string): int
  {
    if |s| > 0 && s[0] == '-' then -ParseDigits(s[1..]) else ParseDigits(s)
  }

  lemma RemoveCommasAppend(a: string, b: string)
    ensures RemoveCommas(a + b) == RemoveCommas(a) + RemoveCommas(b)
    decreases |b|
  {
    if b == [] {
      assert a + b == a;
    } else {
      var last := b[|b| - 1];
      assert (a + b)[..|a + b| - 1] == a + b[..|b| - 1];
      RemoveCommasAppend(a, b[..|b| - 1]);
    }
  }

  lemma {:induction false} RemoveCommasOfDigits(d: string)
    requires forall i :: 0 <= i < |d| ==> d[i] != ','
    ensures RemoveCommas(d) == d
  {
    if d != [] {
      RemoveCommasOfDigits(d[..|d| - 1]);
      assert d[..|d| - 1] + [d[|d| - 1]] == d;
    }
  }

  lemma RemoveCommasSingle(c: char)
    ensures RemoveCommas([c]) == if c == ',' then [] else [c]
  {
    assert [c][..0] == [];
  }

  lemma {:induction false} UngroupGrouped(d: string)
    requires forall i :: 0 <= i < |d| ==> d[i] != ','
    ensures RemoveCommas(Grouped(d)) == d
    decreases |d|
  {
    if |d| <= 3 {
      RemoveCommasOfDigits(d);
    } else {
      var front, back := d[..|d| - 3], d[|d| - 3..];
      var g := Grouped(front);
      assert Grouped(d) == g + "," + back;
      UngroupGrouped(front);
      RemoveCommasAppend(g + ",", back);
      RemoveCommasAppend(g, ",");
      RemoveCommasSingle(',');
      RemoveCommasOfDigits(back);
      assert front + back == d;
    }
  }

  lemma {:induction false} ParseDigitsOfDigits(n: nat)
    ensures ParseDigits(Digits(n)) == n
  {
    if n >= 10 {
      var s := Digits(n);
      assert s[..|s| - 1] == Digits(n / 10);
      assert DigitValue(s[|s| - 1]) == n % 10;
      ParseDigitsOfDigits(n / 10);
    }
  }

  /** Dropping the separators from the exact form gives Python's plain str(),
      which reads back as the number itself. */
  lemma FormatNumberRoundTrip(number: int)
    ensures RemoveCommas(FormatNumber(number, true)) == IntToString(number)
    ensures ParseInt(IntToString(number)) == number
    ensures number < 1000 ==> FormatNumber(number, false) == IntToString(number)
  {
    var m: nat := if number < 0 then -number else number;
    var d := Digits(m);
    assert forall i :: 0 <= i < |d| ==> d[i] != ',';
    UngroupGrouped(d);
    ParseDigitsOfDigits(m);
    if number < 0 {
      RemoveCommasAppend("-", Grouped(d));
      RemoveCommasSingle('-');
      assert ("-" + d)[1..] == d;
    } else {
      assert "" + Grouped(d) == Grouped(d);
    }
  }
}
