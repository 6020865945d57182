/**
 * The universe traits a run can be given: the trait table, and the draw of
 * distinct traits from a pool weighted by rarity.
 */
module Traits {
  import opened Wrappers

  datatype Rarity = Common | Uncommon | Rare | Mythic

  /** The optional trait modifiers; `buildingMultipliers` maps building ids to factors. */
  datatype TraitModifiers = TraitModifiers(
    sparkClickMultiplier: Option<real>,
    fluxMultiplier: Option<real>,
    civilizationMultiplier: Option<real>,
    buildingCostMultiplier: Option<real>,
    upgradeCostMultiplier: Option<real>,
    runDurationMultiplier: Option<real>,
    buildingMultipliers: Option<map<string, real>>,
    anomalyChanceMultiplier: Option<real>)

  datatype Trait = Trait(id: string, modifiers: TraitModifiers, rarity: Rarity)

  const NoModifiers := TraitModifiers(None, None, None, None, None, None, None, None)

  /** `TRAITS`, in declaration (and so `Object.keys`) order. */
  const TraitList: seq<Trait> := [
    Trait("arcane_physics", NoModifiers.(buildingMultipliers := Some(map["lab" := 3.0, "reactor" := 0.7])), Uncommon),
    Trait("early_industrialization", NoModifiers.(civilizationMultiplier := Some(2.5), upgradeCostMultiplier := Some(1.5)), Common),
    Trait("cosmic_lottery", NoModifiers.(anomalyChanceMultiplier := Some(10.0)), Rare),
    Trait("entropy_plus", NoModifiers.(fluxMultiplier := Some(2.0), civilizationMultiplier := Some(2.0), runDurationMultiplier := Some(0.6)), Rare),
    Trait("steady_growth", NoModifiers.(buildingCostMultiplier := Some(0.8), fluxMultiplier := Some(1.2)), Common),
    Trait("hyper_industrial", NoModifiers.(buildingMultipliers := Some(map["foundry" := 2.5, "reactor" := 2.5])), Uncommon),
    Trait("quantum_flux", NoModifiers.(fluxMultiplier := Some(4.0)), Mythic),
    Trait("philosopher_stone", NoModifiers.(sparkClickMultiplier := Some(6.0)), Uncommon),
    Trait("slow_time", NoModifiers.(buildingCostMultiplier := Some(0.6), fluxMultiplier := Some(0.7), civilizationMultiplier := Some(0.7)), Common),
    Trait("ascended_reality", NoModifiers.(buildingMultipliers := Some(map["world" := 5.0])), Mythic)
  ]

  /** The first entry of `table` with id `id`, if any. */
  function FindIn(table: seq<Trait>, id: string): Option<Trait>
  {
    if table == [] then None
    else if table[0].id == id then Some(table[0])
    else FindIn(table[1..], id)
  }

  /** `TRAITS[id]`: the trait with that id, if any. */
  function FindTrait(id: string): Option<Trait>
  {
    FindIn(TraitList, id)
  }

  /** Lookup finds an entry with the id asked for, and fails only when no entry has it. */
  lemma {:induction false} FindInFacts(table: seq<Trait>, id: string)
    ensures var r := FindIn(table, id);
      && (r.Some? ==> r.value.id == id && r.value in table)
      && (r.None? ==> forall i :: 0 <= i < |table| ==> table[i].id != id)
    decreases |table|
  {
    if table != [] && table[0].id != id {
      FindInFacts(table[1..], id);
      var r := FindIn(table, id);
      if r.None? {
        forall i | 0 <= i < |table|
          ensures table[i].id != id
        {
          if i > 0 {
            assert table[i] == table[1..][i - 1];
          }
        }
      }
    }
  }

  lemma FindTraitFacts(id: string)
    ensures var r := FindTrait(id);
      && (r.Some? ==> r.value.id == id && r.value in TraitList)
      && (r.None? ==> forall i :: 0 <= i < |TraitList| ==> TraitList[i].id != id)
  {
    FindInFacts(TraitList, id);
  }

  /** `Object.keys(TRAITS)`. */
  function TraitIds(): seq<string>
  {
    seq(|TraitList|, i requires 0 <= i < |TraitList| => TraitList[i].id)
  }

  /** `rarityWeights`. */
  function Weight(r: Rarity): nat
  {
    match r
    case Common => 50
    case Uncommon => 30
    case Rare => 15
    case Mythic => 5
  }

  function Repeat(x: string, n: nat): (r: seq<string>)
    ensures |r| == n
    ensures forall k :: 0 <= k < n ==> r[k] == x
  {
    seq(n, _ => x)
  }

  /** The weighted pool built from the traits `ts`: each id `Weight(rarity)` times, in table order. */
  function WeightedPool(ts: seq<Trait>): seq<string>
  {
    if ts == [] then []
    else WeightedPool(ts[..|ts| - 1]) + Repeat(ts[|ts| - 1].id, Weight(ts[|ts| - 1].rarity))
  }

  function TotalWeight(ts: seq<Trait>): nat
  {
    if ts == [] then 0 else TotalWeight(ts[..|ts| - 1]) + Weight(ts[|ts| - 1].rarity)
  }

  /** `weightedTraits`, filled by the nested loops of `getRandomTraits`. */
  method BuildWeightedPool() returns (pool: seq<string>)
    ensures pool == WeightedPool(TraitList)
  {
    pool := [];
    for t := 0 to |TraitList|
      invariant pool == WeightedPool(TraitList[..t])
    {
      var entry := TraitList[t];
      var weight := Weight(entry.rarity);
      ghost var before := pool;
      for i := 0 to weight
        invariant pool == before + Repeat(entry.id, i)
      {
        assert Repeat(entry.id, i) + [entry.id] == Repeat(entry.id, i + 1);
        pool := pool + [entry.id];
      }
      assert TraitList[..t + 1][..t] == TraitList[..t];
    }
    assert TraitList[..|TraitList|] == TraitList;
  }

  /**
   * The traits the selection loop keeps from the drawn ids `drawn`, in draw
   * order: an id is kept when it has not been kept before and fewer than
   * `limit` ids are kept so far.
   */
  function DistinctPrefix(drawn: seq<string>, limit: nat): seq<string>
  {
    if drawn == [] then []
    else
      var kept := DistinctPrefix(drawn[..|drawn| - 1], limit);
      var x := drawn[|drawn| - 1];
      if |kept| >= limit || x in kept then kept else kept + [x]
  }

  /** The ids the draws `draws` pick from the pool. */
  function Drawn(pool: seq<string>, draws: seq<nat>): seq<string>
    requires forall j :: 0 <= j < |draws| ==> draws[j] < |pool|
  {
    seq(|draws|, j requires 0 <= j < |draws| => pool[draws[j]])
  }

  function Min(a: nat, b: nat): nat
  {
    if a < b then a else b
  }

  /**
   * `getRandomTraits(count)`. The pool indices `Math.floor(Math.random() *
   * weightedTraits.length)` come from `draws`, one per iteration of the
   * selection loop; the loop also ends when the draws run out.
   */
  method GetRandomTraits(count: nat, draws: seq<nat>) returns (selected: seq<string>)
    requires forall j :: 0 <= j < |draws| ==> draws[j] < |WeightedPool(TraitList)|
    ensures selected == DistinctPrefix(Drawn(WeightedPool(TraitList), draws), Min(count, |TraitList|))
  {
    var allTraits := TraitIds();
    var weightedTraits := BuildWeightedPool();
    ghost var limit := Min(count, |allTraits|);
    ghost var drawn := Drawn(weightedTraits, draws);
    selected := [];
    var used: set<string> := {};
    var d := 0;
    while |selected| < count && |selected| < |allTraits| && d < |draws|
      invariant 0 <= d <= |draws|
      invariant used == set x | x in selected
      invariant selected == DistinctPrefix(drawn[..d], limit)
    {
      var traitId := weightedTraits[draws[d]];
      if traitId !in used {
        selected := selected + [traitId];
        used := used + {traitId};
      }
      assert drawn[..d + 1][..d] == drawn[..d];
      d := d + 1;
    }
    DistinctPrefixFull(drawn, d, limit);
  }

  /** Once `limit` ids are kept, later draws change nothing. */
  lemma {:induction false} DistinctPrefixFull(drawn: seq<string>, d: nat, limit: nat)
    requires d <= |drawn|
    requires d == |drawn| || |DistinctPrefix(drawn[..d], limit)| >= limit
    ensures DistinctPrefix(drawn, limit) == DistinctPrefix(drawn[..d], limit)
    decreases |drawn| - d
  {
    if d < |drawn| {
      assert drawn[..d + 1][..d] == drawn[..d];
      assert DistinctPrefix(drawn[..d + 1], limit) == DistinctPrefix(drawn[..d], limit);
      DistinctPrefixFull(drawn, d + 1, limit);
    } else {
      assert drawn[..d] == drawn;
    }
  }

  /**
   * The kept ids have no duplicates, number at most `limit`, were all drawn,
   * and every drawn id is kept unless `limit` ids were kept.
   */
  lemma {:induction false} DistinctPrefixFacts(drawn: seq<string>, limit: nat)
    ensures var kept := DistinctPrefix(drawn, limit);
      && |kept| <= limit
      && (forall k, l :: 0 <= k < l < |kept| ==> kept[k] != kept[l])
      && (forall k :: 0 <= k < |kept| ==> kept[k] in drawn)
      && (|kept| < limit ==> forall x :: x in drawn ==> x in kept)
  {
    if drawn != [] {
      var front := drawn[..|drawn| - 1];
      DistinctPrefixFacts(front, limit);
      var kept := DistinctPrefix(front, limit);
      assert forall x :: x in front ==> x in drawn;
      assert forall x :: x in drawn ==> x in front || x == drawn[|drawn| - 1];
    }
  }

  lemma {:induction false} PoolLengthIsTotalWeight(ts: seq<Trait>)
    ensures |WeightedPool(ts)| == TotalWeight(ts)
  {
    if ts != [] {
      PoolLengthIsTotalWeight(ts[..|ts| - 1]);
    }
  }

  /** The pool has 280 entries: three common, three uncommon, two rare and two mythic traits. */
  lemma PoolLength()
    ensures |WeightedPool(TraitList)| == TotalWeight(TraitList) == 280
  {
    PoolLengthIsTotalWeight(TraitList);
    var ts := TraitList;
    assert TotalWeight(ts[..1]) == 30;
    assert ts[..2][..1] == ts[..1];
    assert TotalWeight(ts[..2]) == 80;
    assert ts[..3][..2] == ts[..2];
    assert TotalWeight(ts[..3]) == 95;
    assert ts[..4][..3] == ts[..3];
    assert TotalWeight(ts[..4]) == 110;
    assert ts[..5][..4] == ts[..4];
    assert TotalWeight(ts[..5]) == 160;
    assert ts[..6][..5] == ts[..5];
    assert TotalWeight(ts[..6]) == 190;
    assert ts[..7][..6] == ts[..6];
    assert TotalWeight(ts[..7]) == 195;
    assert ts[..8][..7] == ts[..7];
    assert TotalWeight(ts[..8]) == 225;
    assert ts[..9][..8] == ts[..8];
    assert TotalWeight(ts[..9]) == 275;
    assert ts[..10][..9] == ts[..9];
    assert ts[..10] == ts;
  }

  /** The trait ids are distinct, and every numeric modifier is positive. */
  lemma TraitTableFacts()
    ensures |TraitList| == 10
    ensures forall i, j :: 0 <= i < j < |TraitList| ==> TraitList[i].id != TraitList[j].id
    ensures forall i :: 0 <= i < |TraitList| ==> ModifiersPositive(TraitList[i].modifiers)
  {
  }

  predicate Positive(m: Option<real>)
  {
    m.None? || m.value > 0.0
  }

  predicate ModifiersPositive(m: TraitModifiers)
  {
    && Positive(m.sparkClickMultiplier) && Positive(m.fluxMultiplier) && Positive(m.civilizationMultiplier)
    && Positive(m.buildingCostMultiplier) && Positive(m.upgradeCostMultiplier) && Positive(m.runDurationMultiplier)
    && Positive(m.anomalyChanceMultiplier)
    && (m.buildingMultipliers.Some? ==> forall b :: b in m.buildingMultipliers.value ==> m.buildingMultipliers.value[b] > 0.0)
  }

  lemma {:induction false} RepeatCount(x: string, n: nat, y: string)
    ensures multiset(Repeat(x, n))[y] == if x == y then n else 0
  {
    if n > 0 {
      assert Repeat(x, n) == Repeat(x, n - 1) + [x];
      RepeatCount(x, n - 1, y);
    }
  }

  /** An id that no trait of `ts` has is not in their pool. */
  lemma {:induction false} PoolCountAbsent(ts: seq<Trait>, y: string)
    requires forall k :: 0 <= k < |ts| ==> ts[k].id != y
    ensures multiset(WeightedPool(ts))[y] == 0
  {
    if ts != [] {
      var last := |ts| - 1;
      var prefix := ts[..last];
      assert WeightedPool(ts) == WeightedPool(prefix) + Repeat(ts[last].id, Weight(ts[last].rarity));
      assert forall k :: 0 <= k < |prefix| ==> prefix[k] == ts[k];
      PoolCountAbsent(prefix, y);
      RepeatCount(ts[last].id, Weight(ts[last].rarity), y);
    }
  }

  /** With distinct ids, the pool of `ts` holds each id exactly its trait's weight times. */
  lemma {:induction false} PoolCountPresent(ts: seq<Trait>, i: nat)
    requires forall j, k :: 0 <= j < k < |ts| ==> ts[j].id != ts[k].id
    requires i < |ts|
    ensures multiset(WeightedPool(ts))[ts[i].id] == Weight(ts[i].rarity)
  {
    var last := |ts| - 1;
    var prefix := ts[..last];
    assert WeightedPool(ts) == WeightedPool(prefix) + Repeat(ts[last].id, Weight(ts[last].rarity));
    RepeatCount(ts[last].id, Weight(ts[last].rarity), ts[i].id);
    if i == last {
      PoolCountAbsent(prefix, ts[i].id);
    } else {
      assert prefix[i] == ts[i];
      PoolCountPresent(prefix, i);
    }
  }

  /** The pool holds each trait exactly as many times as its rarity weight. */
  lemma PoolCounts(i: nat)
    requires i < |TraitList|
    ensures multiset(WeightedPool(TraitList))[TraitList[i].id] == Weight(TraitList[i].rarity)
  {
    TraitTableFacts();
    PoolCountPresent(TraitList, i);
  }

  /** Every pool entry is a trait id. */
  lemma {:induction false} PoolEntriesAreTraits(ts: seq<Trait>, k: nat)
    requires k < |WeightedPool(ts)|
    ensures exists i :: 0 <= i < |ts| && WeightedPool(ts)[k] == ts[i].id
  {
    var front := ts[..|ts| - 1];
    if k < |WeightedPool(front)| {
      PoolEntriesAreTraits(front, k);
      var i :| 0 <= i < |front| && WeightedPool(front)[k] == front[i].id;
      assert ts[i] == front[i];
    } else {
      assert WeightedPool(ts)[k] == ts[|ts| - 1].id;
    }
  }

  /**
   * What `getRandomTraits` promises: no trait twice, at most `count` and at
   * most ten traits, each one a key of `TRAITS`.
   */
  lemma RandomTraitsFacts(count: nat, draws: seq<nat>)
    requires forall j :: 0 <= j < |draws| ==> draws[j] < |WeightedPool(TraitList)|
    ensures var selected := DistinctPrefix(Drawn(WeightedPool(TraitList), draws), Min(count, |TraitList|));
      && |selected| <= count && |selected| <= |TraitList|
      && (forall k, l :: 0 <= k < l < |selected| ==> selected[k] != selected[l])
      && (forall k :: 0 <= k < |selected| ==> FindTrait(selected[k]).Some?)
  {
    PoolLength();
    var pool := WeightedPool(TraitList);
    var drawn := Drawn(pool, draws);
    var selected := DistinctPrefix(drawn, Min(count, |TraitList|));
    DistinctPrefixFacts(drawn, Min(count, |TraitList|));
    forall k | 0 <= k < |selected|
      ensures FindTrait(selected[k]).Some?
    {
      var j :| 0 <= j < |drawn| && drawn[j] == selected[k];
      PoolEntriesAreTraits(TraitList, draws[j]);
      FindTraitFacts(selected[k]);
    }
  }
}
