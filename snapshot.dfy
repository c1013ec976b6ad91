/** Character snapshots as nested key-value values, the required-key check,
    and the forward-only structural diff used for checkpoints. The same three
    functions appear twice in the source, once beside the formula helpers and
    once in the database utilities, with identical bodies; this one module
    models both copies. */
module Snapshot {

  /** A JSON-like snapshot value. */
  datatype Value =
    | Int(i: int)
    | Float(f: real)
    | Bool(b: bool)
    | Str(s: string)
    | Null
    | List(items: seq<Value>)
    | Dict(entries: map<string, Value>)

  predicate IsNumber(v: Value) {
    v.Int? || v.Float? || v.Bool?
  }

  function NumberValue(v: Value): real
    requires IsNumber(v)
  {
    match v
    case Int(i) => i as real
    case Float(f) => f
    case Bool(b) => if b then 1.0 else 0.0
  }

  /** Python's `==` on snapshot values: ints, floats and bools compare by
      numeric value (1 == 1.0 == True), lists element-wise, dicts by key set
      and values. */
  predicate PyEq(a: Value, b: Value)
    decreases a
  {
    if IsNumber(a) || IsNumber(b) then
      IsNumber(a) && IsNumber(b) && NumberValue(a) == NumberValue(b)
    else
      match a
      case Str(s) => b.Str? && b.s == s
      case Null => b.Null?
      case List(xs) =>
        b.List? && |xs| == |b.items| &&
        forall i :: 0 <= i < |xs| ==> PyEq(xs[i], b.items[i])
      case Dict(m) =>
        b.Dict? && m.Keys == b.entries.Keys &&
        forall k :: k in m ==> PyEq(m[k], b.entries[k])
  }

  lemma {:induction false} PyEqReflexive(a: Value)
    ensures PyEq(a, a)
    decreases a
  {
    match a
    case List(xs) =>
      forall i | 0 <= i < |xs| ensures PyEq(xs[i], xs[i]) {
        PyEqReflexive(xs[i]);
      }
    case Dict(m) =>
      forall k | k in m ensures PyEq(m[k], m[k]) {
        PyEqReflexive(m[k]);
      }
    case _ =>
  }

  /** The equality is wider than structural equality. */
  lemma PyEqMixesNumbers()
    ensures PyEq(Int(1), Float(1.0)) && PyEq(Int(1), Bool(true)) && Int(1) != Float(1.0)
    ensures !PyEq(Int(0), Null) && !PyEq(Str("1"), Int(1))
  {
  }

  const RequiredKeys: seq<string> := ["level", "experience", "stats", "arts", "traits"]

  /** A stored stat entry is valid when all five top-level keys are present. */
  function ValidateStatEntry(entry: map<string, Value>): (ok: bool)
    ensures ok <==> {"level", "experience", "stats", "arts", "traits"} <= entry.Keys
  {
    assert RequiredKeys[0] == "level" && RequiredKeys[1] == "experience" && RequiredKeys[2] == "stats";
    assert RequiredKeys[3] == "arts" && RequiredKeys[4] == "traits";
    forall i :: 0 <= i < |RequiredKeys| ==> RequiredKeys[i] in entry
  }

  /** Where `after` holds a non-empty map at a key that `before` also has,
      `before` holds a map there too, all the way down. Elsewhere the source
      raises TypeError from `in` on a number, bool or None, or goes on with
      `in` and indexing on a list or string, which the model leaves out. */
  ghost predicate Compatible(before: map<string, Value>, after: map<string, Value>)
    decreases Dict(after)
  {
    forall k :: k in after && after[k].Dict? && after[k].entries != map[] && k in before ==>
      before[k].Dict? && Compatible(before[k].entries, after[k].entries)
  }

  /** `before.get(key, {})` restricted to the map case. */
  function SubMap(m: map<string, Value>, k: string): map<string, Value>
  {
    if k in m && m[k].Dict? then m[k].entries else map[]
  }

  /** For each key of `after` that is absent from `before` or differs from it: a
      map value recurses and is kept only if its nested diff is non-empty,
      any other value is copied as it is. Keys only in `before` never appear. */
  function CreateDiff(before: map<string, Value>, after: map<string, Value>): (d: map<string, Value>)
    requires Compatible(before, after)
    ensures d.Keys <= after.Keys
    decreases Dict(after)
  {
    map k | k in after && (k !in before || !PyEq(before[k], after[k])) &&
            (after[k].Dict? ==> CreateDiff(SubMap(before, k), after[k].entries) != map[])
      :: if after[k].Dict? then Dict(CreateDiff(SubMap(before, k), after[k].entries)) else after[k]
  }

  /** Where `diff` holds a map at a key `base` also has, `base` holds a map
      there, or a list and the nested diff is empty (a list's copy is
      returned unchanged). A string, number, bool or None there has no
      `.copy()`, and a list under a non-empty nested diff has no `.get` and
      takes no string index: the source raises in those cases. */
  ghost predicate Applicable(base: map<string, Value>, diff: map<string, Value>)
    decreases Dict(diff)
  {
    forall k :: k in diff && diff[k].Dict? && k in base ==>
      || (base[k].Dict? && Applicable(base[k].entries, diff[k].entries))
      || (base[k].List? && diff[k].entries == map[])
  }

  /** A copy of `base` in which every map in `diff` is merged recursively and
      every other diff value overwrites; a list meeting an empty nested diff
      is copied as it is. */
  function ApplyDiff(base: map<string, Value>, diff: map<string, Value>): (r: map<string, Value>)
    requires Applicable(base, diff)
    ensures r.Keys == base.Keys + diff.Keys
    decreases Dict(diff)
  {
    map k | k in base.Keys + diff.Keys ::
      if k in diff then
        if !diff[k].Dict? then diff[k]
        else if k in base && base[k].List? then base[k]
        else Dict(ApplyDiff(SubMap(base, k), diff[k].entries))
      else base[k]
  }

  /** A list under an empty nested diff survives as it is. */
  lemma ApplyDiffKeepsList(items: seq<Value>)
    ensures var base := map["a" := List(items)];
      var diff := map["a" := Dict(map[])];
      Applicable(base, diff) && ApplyDiff(base, diff) == base
  {
    var base := map["a" := List(items)];
    var diff := map["a" := Dict(map[])];
    assert ApplyDiff(base, diff).Keys == base.Keys;
  }

  /** The diff of a snapshot against itself is empty. */
  lemma DiffOfSelf(x: map<string, Value>)
    ensures Compatible(x, x) && CreateDiff(x, x) == map[]
  {
    SelfCompatible(x);
    forall k | k in x ensures PyEq(x[k], x[k]) {
      PyEqReflexive(x[k]);
    }
  }

  lemma {:induction false} SelfCompatible(x: map<string, Value>)
    ensures Compatible(x, x)
    decreases Dict(x)
  {
    forall k | k in x && x[k].Dict? ensures Compatible(x[k].entries, x[k].entries) {
      SelfCompatible(x[k].entries);
    }
  }

  /** What the diff holds at each key of `after`: a changed plain value
      verbatim, a changed map only when its nested diff is non-empty, and an
      unchanged value not at all. */
  lemma CreateDiffAt(before: map<string, Value>, after: map<string, Value>, k: string)
    requires Compatible(before, after) && k in after
    ensures k in before && PyEq(before[k], after[k]) ==> k !in CreateDiff(before, after)
    ensures (k !in before || !PyEq(before[k], after[k])) && !after[k].Dict? ==>
      k in CreateDiff(before, after) && CreateDiff(before, after)[k] == after[k]
    ensures (k !in before || !PyEq(before[k], after[k])) && after[k].Dict? ==>
      (k in CreateDiff(before, after) <==> CreateDiff(SubMap(before, k), after[k].entries) != map[])
    ensures k in CreateDiff(before, after) && after[k].Dict? ==>
      CreateDiff(before, after)[k] == Dict(CreateDiff(SubMap(before, k), after[k].entries)) &&
      CreateDiff(before, after)[k].entries != map[]
  {
  }

  /** Keys of `base` are never removed, at any depth where both sides still
      hold maps, and keys the diff does not mention keep their value. */
  ghost predicate Extends(r: map<string, Value>, base: map<string, Value>)
    decreases Dict(base)
  {
    forall k :: k in base ==>
      k in r && (base[k].Dict? && r[k].Dict? ==> Extends(r[k].entries, base[k].entries))
  }

  lemma {:induction false} ApplyDiffExtends(base: map<string, Value>, diff: map<string, Value>)
    requires Applicable(base, diff)
    ensures Extends(ApplyDiff(base, diff), base)
    ensures forall k :: k in base && k !in diff ==> ApplyDiff(base, diff)[k] == base[k]
    decreases Dict(diff)
  {
    var r := ApplyDiff(base, diff);
    forall k | k in base
      ensures k in r && (base[k].Dict? && r[k].Dict? ==> Extends(r[k].entries, base[k].entries))
    {
      if k in diff && diff[k].Dict? {
        ApplyDiffExtends(SubMap(base, k), diff[k].entries);
      } else if k !in diff && base[k].Dict? {
        ExtendsReflexive(base[k].entries);
      }
    }
  }

  lemma {:induction false} ExtendsReflexive(m: map<string, Value>)
    ensures Extends(m, m)
    decreases Dict(m)
  {
    forall k | k in m && m[k].Dict? ensures Extends(m[k].entries, m[k].entries) {
      ExtendsReflexive(m[k].entries);
    }
  }

  /** Applying an empty diff gives back the base. */
  lemma ApplyEmptyDiff(base: map<string, Value>)
    ensures Applicable(base, map[]) && ApplyDiff(base, map[]) == base
  {
  }

  /** A value with at least one non-map value somewhere inside it. */
  ghost predicate HasLeaf(v: Value)
    decreases v
  {
    !v.Dict? || exists k :: k in v.entries && HasLeaf(v.entries[k])
  }

  /** `r` agrees with `n` (under Python equality) at every path of `n` that
      ends in a non-map value. */
  ghost predicate AgreesAtLeaves(r: map<string, Value>, n: map<string, Value>)
    decreases Dict(n)
  {
    forall k :: k in n ==>
      if n[k].Dict? then
        HasLeaf(n[k]) ==> k in r && r[k].Dict? && AgreesAtLeaves(r[k].entries, n[k].entries)
      else
        k in r && PyEq(r[k], n[k])
  }

  lemma {:induction false} PyEqAgrees(a: map<string, Value>, b: map<string, Value>)
    requires PyEq(Dict(a), Dict(b))
    ensures AgreesAtLeaves(a, b)
    decreases Dict(b)
  {
    forall k | k in b && b[k].Dict? && HasLeaf(b[k])
      ensures k in a && a[k].Dict? && AgreesAtLeaves(a[k].entries, b[k].entries)
    {
      assert PyEq(a[k], b[k]);
      PyEqAgrees(a[k].entries, b[k].entries);
    }
  }

  lemma NothingAgreesWithEmpty(n: map<string, Value>)
    requires AgreesAtLeaves(map[], n)
    ensures !HasLeaf(Dict(n))
  {
    forall k | k in n ensures !HasLeaf(n[k]) {
    }
  }

  /** The diff of a compatible pair can always be applied to its first argument. */
  lemma {:induction false} DiffApplicable(before: map<string, Value>, after: map<string, Value>)
    requires Compatible(before, after)
    ensures Applicable(before, CreateDiff(before, after))
    decreases Dict(after)
  {
    var d := CreateDiff(before, after);
    forall k | k in d && d[k].Dict? && k in before
      ensures before[k].Dict? && Applicable(before[k].entries, d[k].entries)
    {
      CreateDiffAt(before, after, k);
      DiffApplicable(SubMap(before, k), after[k].entries);
    }
  }

  /** Round trip: applying the diff from `before` to `after` onto `before` reproduces
      every non-map leaf of `after`, and keeps every key of `before`. */
  lemma {:induction false} RoundTrip(before: map<string, Value>, after: map<string, Value>)
    requires Compatible(before, after)
    ensures Applicable(before, CreateDiff(before, after))
    ensures AgreesAtLeaves(ApplyDiff(before, CreateDiff(before, after)), after)
    ensures Extends(ApplyDiff(before, CreateDiff(before, after)), before)
    decreases Dict(after)
  {
    DiffApplicable(before, after);
    var d := CreateDiff(before, after);
    var r := ApplyDiff(before, d);
    ApplyDiffExtends(before, d);
    forall k | k in after
      ensures if after[k].Dict? then
          HasLeaf(after[k]) ==> k in r && r[k].Dict? && AgreesAtLeaves(r[k].entries, after[k].entries)
        else k in r && PyEq(r[k], after[k])
    {
      CreateDiffAt(before, after, k);
      if k in before && PyEq(before[k], after[k]) {
        if after[k].Dict? {
          PyEqAgrees(before[k].entries, after[k].entries);
        }
      } else if !after[k].Dict? {
        PyEqReflexive(after[k]);
      } else if HasLeaf(after[k]) {
        var sub := SubMap(before, k);
        RoundTrip(sub, after[k].entries);
        if k !in d {
          ApplyEmptyDiff(sub);
          if k !in before {
            NothingAgreesWithEmpty(after[k].entries);
          }
        }
      }
    }
  }

  /** Where the round trip stops: a map that is empty in `after` and absent
      from `before` has an empty nested diff, so applying the diff does not
      recreate its key. */
  lemma EmptyMapNotRestored()
    ensures Compatible(map[], map["arts" := Dict(map[])])
    ensures var d := CreateDiff(map[], map["arts" := Dict(map[])]);
      d == map[] && Applicable(map[], d) && "arts" !in ApplyDiff(map[], d)
  {
    var after := map["arts" := Dict(map[])];
    assert CreateDiff(map[], map[]) == map[];
    assert CreateDiff(map[], after).Keys <= {"arts"};
  }

  /** Keys present only in the earlier snapshot survive the round trip. */
  lemma DeletionIsNotApplied(before: map<string, Value>, after: map<string, Value>, k: string)
    requires Compatible(before, after) && k in before && k !in after
    ensures Applicable(before, CreateDiff(before, after))
    ensures k in ApplyDiff(before, CreateDiff(before, after))
    ensures ApplyDiff(before, CreateDiff(before, after))[k] == before[k]
  {
    DiffApplicable(before, after);
    ApplyDiffExtends(before, CreateDiff(before, after));
  }
}
