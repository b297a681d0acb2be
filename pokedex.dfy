/** Unit conversions and the damage-relation aggregator.

    The aggregator folds every type's damage-relation lists into a
    dictionary of multipliers, one dictionary per direction (damage
    taken: the `*_from` lists; damage dealt: the `*_to` lists), then
    filters the dictionaries into strengths, sensitivities and
    immunities. Multipliers are only ever 0.5, 2 or 0, so `real` holds
    them exactly. */
module Pokedex {
  import opened Outcomes

  // ---------------------------------------------------------------
  // Unit conversions
  // ---------------------------------------------------------------

  /** `dmTom`: a height in decimetres as metres. */
  function DmToM(dm: int): (m: real)
    ensures m * 10.0 == dm as real
  {
    dm as real / 10.0
  }

  /** `dgToKg`: a weight in decigrams (as PokéAPI reports it) as kilograms. */
  function DgToKg(dg: int): (kg: real)
    ensures kg * 10.0 == dg as real
  {
    dg as real / 10.0
  }

  /** 12 dm is 1.2 m; 100 dg is 10 kg, exactly. */
  lemma ConversionExamples()
    ensures DmToM(12) == 1.2 && DgToKg(100) == 10.0
  {
  }

  // ---------------------------------------------------------------
  // Data
  // ---------------------------------------------------------------

  /** A type's `damage_relations`, each list reduced to the type names
      it references. */
  datatype DamageRelations = DamageRelations(
    halfDamageFrom: seq<string>, doubleDamageFrom: seq<string>, noDamageFrom: seq<string>,
    halfDamageTo: seq<string>, doubleDamageTo: seq<string>, noDamageTo: seq<string>)

  datatype ElementalType = ElementalType(name: string, damageRelations: DamageRelations)

  /** Incoming: damage the Pokémon takes (`*_from`); Outgoing: damage it
      deals (`*_to`). */
  datatype Direction = Incoming | Outgoing

  function HalfList(t: ElementalType, d: Direction): seq<string> {
    if d == Incoming then t.damageRelations.halfDamageFrom else t.damageRelations.halfDamageTo
  }

  function DoubleList(t: ElementalType, d: Direction): seq<string> {
    if d == Incoming then t.damageRelations.doubleDamageFrom else t.damageRelations.doubleDamageTo
  }

  function NoList(t: ElementalType, d: Direction): seq<string> {
    if d == Incoming then t.damageRelations.noDamageFrom else t.damageRelations.noDamageTo
  }

  const HalfFactor: real := 0.5
  const DoubleFactor: real := 2.0
  const NoFactor: real := 0.0

  type Multipliers = map<string, real>

  datatype DamagesInfos = DamagesInfos(strengths: Multipliers, sensitivities: Multipliers, immunities: Multipliers)

  // ---------------------------------------------------------------
  // The fold, as functions
  // ---------------------------------------------------------------

  function Get(m: Multipliers, k: string): Option<real> {
    if k in m then Some(m[k]) else None
  }

  /** `prev[k] ? prev[k] * f : f`: an absent key and a stored 0 are both
      falsy, so either takes `f`; any other stored value is multiplied. */
  function Bump(stored: Option<real>, f: real): real {
    if stored.Some? && stored.value != 0.0 then stored.value * f else f
  }

  /** `keys.forEach((t) => { prev[t] = prev[t] ? prev[t] * f : f })` */
  function ApplyAll(m: Multipliers, keys: seq<string>, f: real): Multipliers
    decreases |keys|
  {
    if keys == [] then m
    else
      var before := ApplyAll(m, keys[..|keys| - 1], f);
      var k := keys[|keys| - 1];
      before[k := Bump(Get(before, k), f)]
  }

  /** One step of the `reduce`: half, then double, then no damage. */
  function ApplyType(m: Multipliers, t: ElementalType, d: Direction): Multipliers {
    ApplyAll(ApplyAll(ApplyAll(m, HalfList(t, d), HalfFactor), DoubleList(t, d), DoubleFactor), NoList(t, d), NoFactor)
  }

  /** The whole `reduce` over the types, starting from `{}`. */
  function Accumulated(types: seq<ElementalType>, d: Direction): Multipliers
    decreases |types|
  {
    if types == [] then map[] else ApplyType(Accumulated(types[..|types| - 1], d), types[|types| - 1], d)
  }

  // ---------------------------------------------------------------
  // Reference definition: one key at a time
  // ---------------------------------------------------------------

  /** The factors applied to one key, in the order the fold meets them. */
  function Factors(k: string, keys: seq<string>, f: real): seq<real>
    decreases |keys|
  {
    if keys == [] then []
    else Factors(k, keys[..|keys| - 1], f) + (if keys[|keys| - 1] == k then [f] else [])
  }

  function TypeFactors(k: string, t: ElementalType, d: Direction): seq<real> {
    Factors(k, HalfList(t, d), HalfFactor) + Factors(k, DoubleList(t, d), DoubleFactor) + Factors(k, NoList(t, d), NoFactor)
  }

  function AllFactors(k: string, types: seq<ElementalType>, d: Direction): seq<real>
    decreases |types|
  {
    if types == [] then [] else AllFactors(k, types[..|types| - 1], d) + TypeFactors(k, types[|types| - 1], d)
  }

  /** The stored value of one key after a run of factors. */
  function Fold(start: Option<real>, fs: seq<real>): Option<real>
    decreases |fs|
  {
    if fs == [] then start else Some(Bump(Fold(start, fs[..|fs| - 1]), fs[|fs| - 1]))
  }

  /** The type `t` names `k` in one of the lists of direction `d`. */
  predicate Mentions(t: ElementalType, d: Direction, k: string) {
    k in HalfList(t, d) || k in DoubleList(t, d) || k in NoList(t, d)
  }

  lemma {:induction false} FoldAppend(start: Option<real>, a: seq<real>, b: seq<real>)
    ensures Fold(start, a + b) == Fold(Fold(start, a), b)
    decreases |b|
  {
    if b == [] {
      assert a + b == a;
    } else {
      assert (a + b)[..|a + b| - 1] == a + b[..|b| - 1];
      FoldAppend(start, a, b[..|b| - 1]);
    }
  }

  lemma {:induction false} FactorsPresent(k: string, keys: seq<string>, f: real)
    ensures Factors(k, keys, f) != [] <==> k in keys
    decreases |keys|
  {
    if keys != [] {
      FactorsPresent(k, keys[..|keys| - 1], f);
      assert keys == keys[..|keys| - 1] + [keys[|keys| - 1]];
    }
  }

  /** One `forEach` seen from a single key: other keys leave it alone. */
  lemma {:induction false} ApplyAllAt(m: Multipliers, keys: seq<string>, f: real, k: string)
    ensures Get(ApplyAll(m, keys, f), k) == Fold(Get(m, k), Factors(k, keys, f))
    decreases |keys|
  {
    if keys != [] {
      var p := keys[..|keys| - 1];
      ApplyAllAt(m, p, f, k);
      var fs := Factors(k, p, f);
      if keys[|keys| - 1] == k {
        assert (fs + [f])[..|fs + [f]| - 1] == fs;
      } else {
        assert fs + [] == fs;
      }
    }
  }

  lemma ApplyTypeAt(m: Multipliers, t: ElementalType, d: Direction, k: string)
    ensures Get(ApplyType(m, t, d), k) == Fold(Get(m, k), TypeFactors(k, t, d))
  {
    var m1 := ApplyAll(m, HalfList(t, d), HalfFactor);
    var m2 := ApplyAll(m1, DoubleList(t, d), DoubleFactor);
    var a := Factors(k, HalfList(t, d), HalfFactor);
    var b := Factors(k, DoubleList(t, d), DoubleFactor);
    var c := Factors(k, NoList(t, d), NoFactor);
    ApplyAllAt(m, HalfList(t, d), HalfFactor, k);
    ApplyAllAt(m1, DoubleList(t, d), DoubleFactor, k);
    ApplyAllAt(m2, NoList(t, d), NoFactor, k);
    FoldAppend(Get(m, k), a, b);
    FoldAppend(Get(m, k), a + b, c);
  }

  /** The value the aggregator stores for a key is the fold of exactly
      the factors that name that key, in type order and, within a type,
      half before double before no damage. */
  lemma {:induction false} AccumulatedAt(types: seq<ElementalType>, d: Direction, k: string)
    ensures Get(Accumulated(types, d), k) == Fold(None, AllFactors(k, types, d))
    decreases |types|
  {
    if types != [] {
      var p := types[..|types| - 1];
      AccumulatedAt(p, d, k);
      ApplyTypeAt(Accumulated(p, d), types[|types| - 1], d, k);
      FoldAppend(None, AllFactors(k, p, d), TypeFactors(k, types[|types| - 1], d));
    }
  }

  /** A type that mentions `k` contributes at least one factor. */
  lemma {:induction false} MentionGivesFactor(k: string, types: seq<ElementalType>, d: Direction, i: nat)
    requires i < |types| && Mentions(types[i], d, k)
    ensures AllFactors(k, types, d) != []
    decreases |types|
  {
    var n := |types| - 1;
    var t := types[n];
    var earlier := AllFactors(k, types[..n], d);
    assert AllFactors(k, types, d) == earlier + TypeFactors(k, t, d);
    if i < n {
      assert types[..n][i] == types[i];
      MentionGivesFactor(k, types[..n], d, i);
      assert |earlier| > 0;
    } else {
      FactorsPresent(k, HalfList(t, d), HalfFactor);
      FactorsPresent(k, DoubleList(t, d), DoubleFactor);
      FactorsPresent(k, NoList(t, d), NoFactor);
      assert |TypeFactors(k, t, d)| > 0;
    }
  }

  /** Every factor comes from a type that mentions `k`. */
  lemma {:induction false} FactorNeedsMention(k: string, types: seq<ElementalType>, d: Direction) returns (i: nat)
    requires AllFactors(k, types, d) != []
    ensures i < |types| && Mentions(types[i], d, k)
    decreases |types|
  {
    var n := |types| - 1;
    var t := types[n];
    if AllFactors(k, types[..n], d) != [] {
      i := FactorNeedsMention(k, types[..n], d);
      assert types[..n][i] == types[i];
    } else {
      FactorsPresent(k, HalfList(t, d), HalfFactor);
      FactorsPresent(k, DoubleList(t, d), DoubleFactor);
      FactorsPresent(k, NoList(t, d), NoFactor);
      i := n;
    }
  }

  /** A name is a key of a direction's dictionary exactly when some type
      lists it in that direction's lists: incoming keys come only from
      `*_from` lists, outgoing keys only from `*_to` lists, and a name no
      list mentions is in no output. */
  lemma AccumulatedKeys(types: seq<ElementalType>, d: Direction, k: string)
    ensures k in Accumulated(types, d) <==> exists i :: 0 <= i < |types| && Mentions(types[i], d, k)
  {
    AccumulatedAt(types, d, k);
    var fs := AllFactors(k, types, d);
    if fs != [] {
      assert Fold(None, fs).Some?;
      var i := FactorNeedsMention(k, types, d);
    }
    if exists i :: 0 <= i < |types| && Mentions(types[i], d, k) {
      var i :| 0 <= i < |types| && Mentions(types[i], d, k);
      MentionGivesFactor(k, types, d, i);
    }
  }

  /** Zero does not dominate: a stored 0 is falsy, so a later factor
      overwrites it. "No damage from X" followed by "double damage from
      X" gives 2, the other order gives 0, so the result depends on the
      order of the type list. */
  lemma ZeroDoesNotDominate(x: string, a: ElementalType, b: ElementalType)
    requires a.damageRelations == DamageRelations([], [], [x], [], [], [])
    requires b.damageRelations == DamageRelations([], [x], [], [], [], [])
    ensures Accumulated([a, b], Incoming) == map[x := DoubleFactor]
    ensures Accumulated([b, a], Incoming) == map[x := NoFactor]
  {
    ApplySingle(map[], x, NoFactor);
    ApplySingle(map[], x, DoubleFactor);
    assert Accumulated([a], Incoming) == map[x := NoFactor] by {
      assert [a][..0] == [];
    }
    assert Accumulated([b], Incoming) == map[x := DoubleFactor] by {
      assert [b][..0] == [];
    }
    ApplySingle(map[x := NoFactor], x, DoubleFactor);
    ApplySingle(map[x := DoubleFactor], x, NoFactor);
    assert [a, b][..1] == [a];
    assert [b, a][..1] == [b];
  }

  lemma ApplySingle(m: Multipliers, x: string, f: real)
    ensures ApplyAll(m, [x], f) == m[x := Bump(Get(m, x), f)]
  {
    assert [x][..0] == [];
  }

  // ---------------------------------------------------------------
  // The fold, as the source runs it
  // ---------------------------------------------------------------

  /** One `list.forEach` updating the accumulator `prev`. */
  method ApplyEach(prev: Multipliers, keys: seq<string>, f: real) returns (next: Multipliers)
    ensures next == ApplyAll(prev, keys, f)
  {
    next := prev;
    for j := 0 to |keys|
      invariant next == ApplyAll(prev, keys[..j], f)
    {
      assert keys[..j + 1][..j] == keys[..j];
      var k := keys[j];
      assert keys[..j + 1][j] == k;
      assert ApplyAll(prev, keys[..j + 1], f) == next[k := Bump(Get(next, k), f)];
      var v := if k in next && next[k] != 0.0 then next[k] * f else f;
      assert v == Bump(Get(next, k), f);
      next := next[k := v];
    }
    assert keys[..|keys|] == keys;
  }

  /** `pokemonTypes.reduce((prev, curr) => { ... }, {})` for one direction. */
  method AccumulateMultipliers(types: seq<ElementalType>, d: Direction) returns (prev: Multipliers)
    ensures prev == Accumulated(types, d)
  {
    prev := map[];
    for i := 0 to |types|
      invariant prev == Accumulated(types[..i], d)
    {
      assert types[..i + 1][..i] == types[..i];
      var t := types[i];
      prev := ApplyEach(prev, HalfList(t, d), HalfFactor);
      prev := ApplyEach(prev, DoubleList(t, d), DoubleFactor);
      prev := ApplyEach(prev, NoList(t, d), NoFactor);
    }
    assert types[..|types|] == types;
  }

  /** `Object.keys(m).filter((k) => keep(m[k])).reduce(...)`: copy into
      a fresh dictionary every entry whose value passes `keep`. */
  method KeepWhere(m: Multipliers, keep: real -> bool) returns (r: Multipliers)
    ensures forall k :: k in r <==> k in m && keep(m[k])
    ensures forall k :: k in r ==> r[k] == m[k]
  {
    r := map[];
    var pending := m.Keys;
    while pending != {}
      invariant pending <= m.Keys
      invariant forall k :: k in r <==> k in m && k !in pending && keep(m[k])
      invariant forall k :: k in r ==> r[k] == m[k]
      decreases pending
    {
      var k :| k in pending;
      if keep(m[k]) {
        r := r[k := m[k]];
      }
      pending := pending - {k};
    }
  }

  /** `getDamagesInfos`: strengths are the dealt multipliers equal to 2
      (4 or 0.25 are dropped); sensitivities are every taken multiplier
      other than 1, zeros included; immunities are the taken multipliers
      equal to 0, so they are a sub-dictionary of the sensitivities. */
  method GetDamagesInfos(types: seq<ElementalType>) returns (infos: DamagesInfos)
    ensures forall k :: k in infos.strengths <==>
              k in Accumulated(types, Outgoing) && Accumulated(types, Outgoing)[k] == 2.0
    ensures forall k :: k in infos.strengths ==> infos.strengths[k] == 2.0
    ensures forall k :: k in infos.sensitivities <==>
              k in Accumulated(types, Incoming) && Accumulated(types, Incoming)[k] != 1.0
    ensures forall k :: k in infos.sensitivities ==> infos.sensitivities[k] == Accumulated(types, Incoming)[k]
    ensures forall k :: k in infos.immunities <==>
              k in Accumulated(types, Incoming) && Accumulated(types, Incoming)[k] == 0.0
    ensures forall k :: k in infos.immunities ==> infos.immunities[k] == 0.0
    ensures forall k :: k in infos.immunities ==> k in infos.sensitivities && infos.sensitivities[k] == infos.immunities[k]
    ensures types == [] ==> infos == DamagesInfos(map[], map[], map[])
  {
    var sensitivities := AccumulateMultipliers(types, Incoming);
    var strengths := AccumulateMultipliers(types, Outgoing);
    var finalStrengths := KeepWhere(strengths, v => v == 2.0);
    // The source also tests `sensitivities !== 0`, which compares the
    // whole dictionary with 0 and is therefore always true.
    var finalSensitivities := KeepWhere(sensitivities, v => v != 1.0);
    var immunities := KeepWhere(sensitivities, v => v == 0.0);
    infos := DamagesInfos(finalStrengths, finalSensitivities, immunities);
  }
}
