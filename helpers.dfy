/**
 * The helpers the game loop and the actions share: the bonuses bought with
 * meta upgrades, the current stage's bonuses, the offline gains, the stage
 * reached, and the daily-task reset and progress update.
 */
module Helpers {
  import opened Wrappers
  import opened Numeric
  import opened GameTypes
  import opened MetaUpgrades
  import Stages
  import DailyTasks

  // ---------------------------------------------------------------------------
  // Meta bonuses
  // ---------------------------------------------------------------------------

  /** The record `applyMetaUpgrades` returns. */
  datatype MetaBonuses = MetaBonuses(
    clickPowerMultiplier: real,
    buildingProductionMultiplier: real,
    fluxMultiplier: real,
    civilizationMultiplier: real,
    globalProductionMultiplier: real,
    buildingCostMultiplier: real,
    stageProgressMultiplier: real,
    offlineCapHours: real,
    offlineGainsMultiplier: real,
    echoesEarnedMultiplier: real,
    traitChoices: real,
    anomalyChance: real,
    startingSparks: real,
    globalSpeedMultiplier: real)

  /** The starting values of the result: multipliers at 1, 8 offline hours, 2 trait choices, no anomaly chance, no starting sparks. */
  const DefaultMetaBonuses := MetaBonuses(1.0, 1.0, 1.0, 1.0, 1.0, 1.0, 1.0, 8.0, 1.0, 1.0, 2.0, 0.0, 0.0, 1.0)

  /**
   * The keys the switch adds to rather than multiplies. The two keys the
   * switch has no case for, `fastRunBonus` and `randomBuff`, are counted
   * here too, with no field and a contribution of 0.
   */
  predicate IsAdditive(key: MetaKey)
  {
    key in {OfflineCapHours, TraitChoices, AnomalyChance, StartingSparks, FastRunBonus, RandomBuff}
  }

  predicate IsIgnored(key: MetaKey)
  {
    key == FastRunBonus || key == RandomBuff
  }

  /** The field of the result the switch updates for `key`; 0 for a key it ignores. */
  function Field(b: MetaBonuses, key: MetaKey): real
  {
    match key
    case ClickPower => b.clickPowerMultiplier
    case BuildingProduction => b.buildingProductionMultiplier
    case FluxMultiplier => b.fluxMultiplier
    case CivilizationMultiplier => b.civilizationMultiplier
    case GlobalProduction => b.globalProductionMultiplier
    case BuildingCost => b.buildingCostMultiplier
    case StageProgress => b.stageProgressMultiplier
    case OfflineCapHours => b.offlineCapHours
    case OfflineGains => b.offlineGainsMultiplier
    case EchoesEarned => b.echoesEarnedMultiplier
    case TraitChoices => b.traitChoices
    case AnomalyChance => b.anomalyChance
    case StartingSparks => b.startingSparks
    case GlobalSpeed => b.globalSpeedMultiplier
    case FastRunBonus => 0.0
    case RandomBuff => 0.0
  }

  /** Two results with the same fields are the same result. */
  lemma FieldsDetermine(a: MetaBonuses, b: MetaBonuses)
    requires forall key :: Field(a, key) == Field(b, key)
    ensures a == b
  {
    assert Field(a, ClickPower) == Field(b, ClickPower) && Field(a, BuildingProduction) == Field(b, BuildingProduction);
    assert Field(a, FluxMultiplier) == Field(b, FluxMultiplier) && Field(a, CivilizationMultiplier) == Field(b, CivilizationMultiplier);
    assert Field(a, GlobalProduction) == Field(b, GlobalProduction) && Field(a, BuildingCost) == Field(b, BuildingCost);
    assert Field(a, StageProgress) == Field(b, StageProgress) && Field(a, OfflineCapHours) == Field(b, OfflineCapHours);
    assert Field(a, OfflineGains) == Field(b, OfflineGains) && Field(a, EchoesEarned) == Field(b, EchoesEarned);
    assert Field(a, TraitChoices) == Field(b, TraitChoices) && Field(a, AnomalyChance) == Field(b, AnomalyChance);
    assert Field(a, StartingSparks) == Field(b, StartingSparks) && Field(a, GlobalSpeed) == Field(b, GlobalSpeed);
  }

  /** How a key accumulates: by addition or by multiplication. */
  function Combine(key: MetaKey, x: real, y: real): real
  {
    if IsAdditive(key) then x + y else x * y
  }

  function Unit(key: MetaKey): real
  {
    if IsAdditive(key) then 0.0 else 1.0
  }

  lemma CombineAssociative(key: MetaKey, x: real, y: real, z: real)
    ensures Combine(key, Combine(key, x, y), z) == Combine(key, x, Combine(key, y, z))
  {
    if !IsAdditive(key) {
      MulAssoc(x, y, z);
    }
  }

  /**
   * The switch of `applyMetaUpgrades` for one effect of an upgrade held at
   * `level`: multiplier keys are multiplied by `valuePerLevel ^ level`,
   * additive keys grow by `valuePerLevel * level`.
   */
  function ApplyEffect(b: MetaBonuses, e: MetaEffect, level: nat): MetaBonuses
  {
    var value := Pow(e.valuePerLevel, level);
    var additiveValue := e.valuePerLevel * level as real;
    match e.key
    case ClickPower => b.(clickPowerMultiplier := b.clickPowerMultiplier * value)
    case BuildingProduction => b.(buildingProductionMultiplier := b.buildingProductionMultiplier * value)
    case FluxMultiplier => b.(fluxMultiplier := b.fluxMultiplier * value)
    case CivilizationMultiplier => b.(civilizationMultiplier := b.civilizationMultiplier * value)
    case GlobalProduction => b.(globalProductionMultiplier := b.globalProductionMultiplier * value)
    case BuildingCost => b.(buildingCostMultiplier := b.buildingCostMultiplier * value)
    case StageProgress => b.(stageProgressMultiplier := b.stageProgressMultiplier * value)
    case OfflineCapHours => b.(offlineCapHours := b.offlineCapHours + additiveValue)
    case OfflineGains => b.(offlineGainsMultiplier := b.offlineGainsMultiplier * value)
    case EchoesEarned => b.(echoesEarnedMultiplier := b.echoesEarnedMultiplier * value)
    case TraitChoices => b.(traitChoices := b.traitChoices + additiveValue)
    case AnomalyChance => b.(anomalyChance := b.anomalyChance + additiveValue)
    case StartingSparks => b.(startingSparks := b.startingSparks + additiveValue)
    case GlobalSpeed => b.(globalSpeedMultiplier := b.globalSpeedMultiplier * value)
    case FastRunBonus => b
    case RandomBuff => b
  }

  /** What one effect contributes to `key`. */
  function EffectTerm(key: MetaKey, e: MetaEffect, level: nat): real
  {
    if e.key != key || IsIgnored(key) then Unit(key)
    else if IsAdditive(key) then e.valuePerLevel * level as real
    else Pow(e.valuePerLevel, level)
  }

  /** Applying an effect combines every field with that effect's term for the field's key. */
  lemma ApplyEffectFields(b: MetaBonuses, e: MetaEffect, level: nat)
    ensures forall key :: Field(ApplyEffect(b, e, level), key) == Combine(key, Field(b, key), EffectTerm(key, e, level))
  {
  }

  /** What the effects of one upgrade held at `level` contribute to `key`. */
  function EffectsTotal(key: MetaKey, effects: seq<MetaEffect>, level: nat): real
    decreases |effects|
  {
    if effects == [] then Unit(key)
    else Combine(key, EffectsTotal(key, effects[..|effects| - 1], level), EffectTerm(key, effects[|effects| - 1], level))
  }

  /** What the upgrade `id` contributes to `key`: nothing when it is unknown or at level 0. */
  function UpgradeTerm(ctx: (map<string, nat>, MetaKey), id: string): real
  {
    var (levels, key) := ctx;
    if id !in levels || levels[id] == 0 then Unit(key)
    else match FindMetaUpgrade(id)
      case None => Unit(key)
      case Some(u) => EffectsTotal(key, u.effects, levels[id])
  }

  function OpOf(key: MetaKey): (real, real) -> real
  {
    if IsAdditive(key) then Add else Mul
  }

  lemma OpIsMonoid(key: MetaKey)
    ensures IsCommutativeMonoid(OpOf(key), Unit(key))
    ensures forall x, y :: OpOf(key)(x, y) == Combine(key, x, y)
  {
    AddIsMonoid();
    MulIsMonoid();
  }

  /** What the upgrades in `ids` contribute to `key` together. */
  ghost function MetaTotal(ids: set<string>, levels: map<string, nat>, key: MetaKey): real
  {
    Fold(ids, (levels, key), UpgradeTerm, OpOf(key), Unit(key))
  }

  /** The meta levels a state holds; `state.metaUpgrades || {}`. */
  function MetaLevels(s: GameState): map<string, nat>
  {
    s.metaUpgrades.GetOr(map[])
  }

  /** The final value of the field for `key`: its start value combined with every upgrade's contribution. */
  ghost function FinalField(levels: map<string, nat>, key: MetaKey): real
  {
    Combine(key, Field(DefaultMetaBonuses, key), MetaTotal(levels.Keys, levels, key))
  }

  /** The result of `applyMetaUpgrades` for the meta levels `levels`. */
  ghost function MetaBonusesOf(levels: map<string, nat>): MetaBonuses
  {
    MetaBonuses(FinalField(levels, ClickPower), FinalField(levels, BuildingProduction),
      FinalField(levels, FluxMultiplier), FinalField(levels, CivilizationMultiplier),
      FinalField(levels, GlobalProduction), FinalField(levels, BuildingCost), FinalField(levels, StageProgress),
      FinalField(levels, OfflineCapHours), FinalField(levels, OfflineGains), FinalField(levels, EchoesEarned),
      FinalField(levels, TraitChoices), FinalField(levels, AnomalyChance), FinalField(levels, StartingSparks),
      FinalField(levels, GlobalSpeed))
  }

  /** Taking one upgrade out of the fold. */
  lemma MetaTotalRemove(ids: set<string>, levels: map<string, nat>, key: MetaKey, id: string)
    requires id in ids
    ensures MetaTotal(ids, levels, key) == Combine(key, UpgradeTerm((levels, key), id), MetaTotal(ids - {id}, levels, key))
  {
    OpIsMonoid(key);
    FoldRemove(ids, (levels, key), UpgradeTerm, OpOf(key), Unit(key), id);
  }

  /** The effects of one upgrade, applied in order, as the inner `forEach` does. */
  method ApplyEffects(b: MetaBonuses, effects: seq<MetaEffect>, level: nat) returns (r: MetaBonuses)
    ensures forall key :: Field(r, key) == Combine(key, Field(b, key), EffectsTotal(key, effects, level))
  {
    r := b;
    for j := 0 to |effects|
      invariant forall key :: Field(r, key) == Combine(key, Field(b, key), EffectsTotal(key, effects[..j], level))
    {
      ghost var before := r;
      r := ApplyEffect(r, effects[j], level);
      ApplyEffectFields(before, effects[j], level);
      assert effects[..j + 1][..j] == effects[..j];
      forall key
        ensures Field(r, key) == Combine(key, Field(b, key), EffectsTotal(key, effects[..j + 1], level))
      {
        CombineAssociative(key, Field(b, key), EffectsTotal(key, effects[..j], level), EffectTerm(key, effects[j], level));
      }
    }
    assert effects[..|effects|] == effects;
  }

  /** The loop invariant of `applyMetaUpgrades`: `result` combined with the upgrades still to visit is the final result. */
  ghost predicate Accumulated(result: MetaBonuses, remaining: set<string>, levels: map<string, nat>)
  {
    forall key :: Combine(key, Field(result, key), MetaTotal(remaining, levels, key)) == FinalField(levels, key)
  }

  /** Visiting one upgrade keeps the invariant. */
  lemma AccumulatedStep(before: MetaBonuses, after: MetaBonuses, remaining: set<string>, levels: map<string, nat>, id: string)
    requires id in remaining && Accumulated(before, remaining, levels)
    requires forall key :: Field(after, key) == Combine(key, Field(before, key), UpgradeTerm((levels, key), id))
    ensures Accumulated(after, remaining - {id}, levels)
  {
    forall key
      ensures Combine(key, Field(after, key), MetaTotal(remaining - {id}, levels, key)) == FinalField(levels, key)
    {
      MetaTotalRemove(remaining, levels, key, id);
      CombineAssociative(key, Field(before, key), UpgradeTerm((levels, key), id), MetaTotal(remaining - {id}, levels, key));
    }
  }

  /** Every field of the result is its final value. */
  lemma MetaBonusesOfFields(levels: map<string, nat>, key: MetaKey)
    requires !IsIgnored(key)
    ensures Field(MetaBonusesOf(levels), key) == FinalField(levels, key)
  {
  }

  /** Once every upgrade is visited, the accumulated record is the result. */
  lemma AccumulatedDone(result: MetaBonuses, levels: map<string, nat>)
    requires Accumulated(result, {}, levels)
    ensures result == MetaBonusesOf(levels)
  {
    forall key
      ensures Field(result, key) == FinalField(levels, key)
    {
      AccumulatedField(result, levels, key);
    }
  }

  lemma AccumulatedField(result: MetaBonuses, levels: map<string, nat>, key: MetaKey)
    requires Accumulated(result, {}, levels)
    ensures Field(result, key) == FinalField(levels, key)
  {
    assert MetaTotal({}, levels, key) == Unit(key);
  }

  /** One visit of the outer `forEach`: the upgrade's effects when it is known and held, nothing otherwise. */
  lemma VisitFields(before: MetaBonuses, after: MetaBonuses, levels: map<string, nat>, id: string, upgrade: Option<MetaUpgrade>)
    requires id in levels && upgrade == FindMetaUpgrade(id)
    requires upgrade.Some? && levels[id] != 0 ==>
      forall key :: Field(after, key) == Combine(key, Field(before, key), EffectsTotal(key, upgrade.value.effects, levels[id]))
    requires !(upgrade.Some? && levels[id] != 0) ==> after == before
    ensures forall key :: Field(after, key) == Combine(key, Field(before, key), UpgradeTerm((levels, key), id))
  {
  }

  /** `applyMetaUpgrades`. */
  method ApplyMetaUpgrades(s: GameState) returns (result: MetaBonuses)
    ensures result == MetaBonusesOf(MetaLevels(s))
  {
    var levels := MetaLevels(s);
    result := DefaultMetaBonuses;
    var remaining := levels.Keys;
    while remaining != {}
      invariant remaining <= levels.Keys
      invariant Accumulated(result, remaining, levels)
      decreases remaining
    {
      var upgradeId :| upgradeId in remaining;
      var level := levels[upgradeId];
      var upgrade := FindMetaUpgrade(upgradeId);
      ghost var before := result;
      if upgrade.Some? && level != 0 {
        result := ApplyEffects(result, upgrade.value.effects, level);
      }
      VisitFields(before, result, levels, upgradeId, upgrade);
      AccumulatedStep(before, result, remaining, levels, upgradeId);
      remaining := remaining - {upgradeId};
    }
    AccumulatedDone(result, levels);
  }

  /** No upgrade held above level 0 leaves every bonus at its starting value. */
  lemma NoLevelsGiveDefaults(levels: map<string, nat>)
    requires forall id :: id in levels ==> levels[id] == 0
    ensures MetaBonusesOf(levels) == DefaultMetaBonuses
  {
    forall key
      ensures Field(MetaBonusesOf(levels), key) == Field(DefaultMetaBonuses, key)
    {
      NoLevelsField(levels, key);
    }
    FieldsDetermine(MetaBonusesOf(levels), DefaultMetaBonuses);
  }

  lemma NoLevelsField(levels: map<string, nat>, key: MetaKey)
    requires forall id :: id in levels ==> levels[id] == 0
    ensures Field(MetaBonusesOf(levels), key) == Field(DefaultMetaBonuses, key)
  {
    if !IsIgnored(key) {
      OpIsMonoid(key);
      FoldOfUnits(levels.Keys, (levels, key), UpgradeTerm, OpOf(key), Unit(key));
      MetaBonusesOfFields(levels, key);
    }
  }

  /** A state without meta upgrades gets the starting values. */
  lemma NoMetaUpgradesGiveDefaults(s: GameState)
    requires s.metaUpgrades.None?
    ensures MetaBonusesOf(MetaLevels(s)) == DefaultMetaBonuses
  {
    NoLevelsGiveDefaults(MetaLevels(s));
  }

  /** An upgrade whose every effect has a key the switch has no case for. */
  predicate IsInert(u: MetaUpgrade)
  {
    forall j :: 0 <= j < |u.effects| ==> IsIgnored(u.effects[j].key)
  }

  /** The two upgrades with a special effect, `weird_speed_1` and `weird_ultimate`, are inert. */
  lemma SpecialUpgradesInert()
    ensures FindMetaUpgrade("weird_speed_1").Some? && IsInert(FindMetaUpgrade("weird_speed_1").value)
    ensures FindMetaUpgrade("weird_ultimate").Some? && IsInert(FindMetaUpgrade("weird_ultimate").value)
  {
    assert MetaUpgradeList[12].id == "weird_speed_1";
    assert MetaUpgradeList[14].id == "weird_ultimate";
    FindAt(12);
    FindAt(14);
  }

  /**
   * An entry that is at level 0, has no upgrade behind it, or names an
   * inert upgrade changes no bonus.
   */
  lemma InertEntry(levels: map<string, nat>, id: string, n: nat)
    requires id !in levels
    requires n == 0 || FindMetaUpgrade(id).None? || IsInert(FindMetaUpgrade(id).value)
    ensures MetaBonusesOf(levels[id := n]) == MetaBonusesOf(levels)
  {
    var more := levels[id := n];
    forall key
      ensures FinalField(more, key) == FinalField(levels, key)
    {
      InertEntryField(levels, id, n, key);
    }
  }

  lemma InertEntryField(levels: map<string, nat>, id: string, n: nat, key: MetaKey)
    requires id !in levels
    requires n == 0 || FindMetaUpgrade(id).None? || IsInert(FindMetaUpgrade(id).value)
    ensures FinalField(levels[id := n], key) == FinalField(levels, key)
  {
    var more := levels[id := n];
    assert more.Keys - {id} == levels.Keys;
    MetaTotalRemove(more.Keys, more, key, id);
    if n != 0 && FindMetaUpgrade(id).Some? {
      InertEffectsTotal(key, FindMetaUpgrade(id).value.effects, n);
    }
    OpIsMonoid(key);
    FoldCongruent(levels.Keys, (more, key), UpgradeTerm, (levels, key), UpgradeTerm, OpOf(key), Unit(key));
  }

  lemma {:induction false} InertEffectsTotal(key: MetaKey, effects: seq<MetaEffect>, level: nat)
    requires forall j :: 0 <= j < |effects| ==> IsIgnored(effects[j].key)
    ensures EffectsTotal(key, effects, level) == Unit(key)
    decreases |effects|
  {
    if effects != [] {
      InertEffectsTotal(key, effects[..|effects| - 1], level);
    }
  }

  /** Two levels of `power_click_1` multiply click power by 1.5 twice and change nothing else. */
  lemma PowerClickExample()
    ensures MetaBonusesOf(map["power_click_1" := 2]) == DefaultMetaBonuses.(clickPowerMultiplier := 2.25)
  {
    var levels := map["power_click_1" := 2];
    var expected := DefaultMetaBonuses.(clickPowerMultiplier := 2.25);
    forall key
      ensures Field(MetaBonusesOf(levels), key) == Field(expected, key)
    {
      PowerClickResultField(key);
    }
    FieldsDetermine(MetaBonusesOf(levels), expected);
  }

  lemma PowerClickResultField(key: MetaKey)
    ensures Field(MetaBonusesOf(map["power_click_1" := 2]), key) == Field(DefaultMetaBonuses.(clickPowerMultiplier := 2.25), key)
  {
    if !IsIgnored(key) {
      PowerClickField(key);
      MetaBonusesOfFields(map["power_click_1" := 2], key);
    }
  }

  lemma PowerClickField(key: MetaKey)
    ensures FinalField(map["power_click_1" := 2], key) == Field(DefaultMetaBonuses.(clickPowerMultiplier := 2.25), key)
  {
    var u := MetaUpgradeList[0];
    FindAt(0);
    SingleEntryField(u.id, 2, key);
    assert u.effects[..0] == [];
    assert EffectsTotal(key, u.effects, 2) == Combine(key, Unit(key), EffectTerm(key, u.effects[0], 2));
    assert Pow(1.5, 2) == 2.25;
  }

  /** With a single entry, the final value of a field is its start value combined with that entry's term. */
  lemma SingleEntryField(id: string, n: nat, key: MetaKey)
    ensures FinalField(map[id := n], key) == Combine(key, Field(DefaultMetaBonuses, key), UpgradeTerm((map[id := n], key), id))
  {
    var levels := map[id := n];
    assert levels.Keys == {id};
    MetaTotalRemove(levels.Keys, levels, key, id);
    assert levels.Keys - {id} == {};
    OpIsMonoid(key);
    assert MetaTotal({}, levels, key) == Unit(key);
  }

  // Bounds on the bonuses.

  /**
   * The range each key's terms stay in: the cost multiplier in (0, 1], the
   * additive keys non-negative, every other multiplier at least 1.
   */
  predicate InRange(key: MetaKey, x: real)
  {
    if key == BuildingCost then 0.0 < x <= 1.0
    else if IsAdditive(key) then x >= 0.0
    else x >= 1.0
  }

  /** The per-level values of the table respect that range. */
  predicate EffectValueInRange(e: MetaEffect)
  {
    && e.valuePerLevel > 0.0
    && (e.key == BuildingCost ==> e.valuePerLevel <= 1.0)
    && (e.key != BuildingCost && !IsAdditive(e.key) ==> e.valuePerLevel >= 1.0)
  }

  lemma TableEffectsInRange()
    ensures forall i, j :: 0 <= i < |MetaUpgradeList| && 0 <= j < |MetaUpgradeList[i].effects| ==>
      EffectValueInRange(MetaUpgradeList[i].effects[j])
  {
  }

  lemma InRangeClosed(key: MetaKey)
    ensures InRange(key, Unit(key))
    ensures forall a, b :: InRange(key, a) && InRange(key, b) ==> InRange(key, OpOf(key)(a, b))
  {
    forall a, b | InRange(key, a) && InRange(key, b)
      ensures InRange(key, OpOf(key)(a, b))
    {
      if key == BuildingCost {
        assert a * b <= 1.0 * b;
      } else if !IsAdditive(key) {
        assert a * b >= 1.0 * b;
      }
    }
  }

  lemma EffectTermInRange(key: MetaKey, e: MetaEffect, level: nat)
    requires EffectValueInRange(e)
    ensures InRange(key, EffectTerm(key, e, level))
  {
    if e.key == key && !IsIgnored(key) && !IsAdditive(key) {
      if key == BuildingCost {
        PowAtMostOne(e.valuePerLevel, level);
      } else {
        PowAtLeastOne(e.valuePerLevel, level);
      }
    }
  }

  lemma {:induction false} EffectsTotalInRange(key: MetaKey, effects: seq<MetaEffect>, level: nat)
    requires forall j :: 0 <= j < |effects| ==> EffectValueInRange(effects[j])
    ensures InRange(key, EffectsTotal(key, effects, level))
    decreases |effects|
  {
    InRangeClosed(key);
    if effects != [] {
      EffectsTotalInRange(key, effects[..|effects| - 1], level);
      EffectTermInRange(key, effects[|effects| - 1], level);
      assert OpOf(key)(EffectsTotal(key, effects[..|effects| - 1], level), EffectTerm(key, effects[|effects| - 1], level))
        == EffectsTotal(key, effects, level);
    }
  }

  lemma UpgradeTermInRange(levels: map<string, nat>, key: MetaKey, id: string)
    ensures InRange(key, UpgradeTerm((levels, key), id))
  {
    InRangeClosed(key);
    if id in levels && levels[id] != 0 && FindMetaUpgrade(id).Some? {
      var u := FindMetaUpgrade(id).value;
      var i :| 0 <= i < |MetaUpgradeList| && MetaUpgradeList[i] == u;
      TableEffectsInRange();
      EffectsTotalInRange(key, u.effects, levels[id]);
    }
  }

  /**
   * Whatever the levels: the cost multiplier stays in (0, 1], the additive
   * bonuses never fall below their start, every other multiplier is at least 1.
   */
  lemma FinalFieldBounds(levels: map<string, nat>, key: MetaKey)
    ensures key == BuildingCost ==> 0.0 < FinalField(levels, key) <= 1.0
    ensures IsAdditive(key) ==> FinalField(levels, key) >= Field(DefaultMetaBonuses, key)
    ensures key != BuildingCost && !IsAdditive(key) ==> FinalField(levels, key) >= 1.0
  {
    OpIsMonoid(key);
    InRangeClosed(key);
    forall id | id in levels.Keys
      ensures InRange(key, UpgradeTerm((levels, key), id))
    {
      UpgradeTermInRange(levels, key, id);
    }
    FoldPreserves(levels.Keys, (levels, key), UpgradeTerm, OpOf(key), Unit(key), x => InRange(key, x));
  }

  /** The bounds every result of `applyMetaUpgrades` keeps. */
  predicate BonusesInRange(b: MetaBonuses)
  {
    && b.clickPowerMultiplier >= 1.0 && b.buildingProductionMultiplier >= 1.0
    && b.fluxMultiplier >= 1.0 && b.civilizationMultiplier >= 1.0 && b.globalProductionMultiplier >= 1.0
    && 0.0 < b.buildingCostMultiplier <= 1.0
    && b.stageProgressMultiplier >= 1.0
    && b.offlineCapHours >= 8.0 && b.offlineGainsMultiplier >= 1.0 && b.echoesEarnedMultiplier >= 1.0
    && b.traitChoices >= 2.0 && b.anomalyChance >= 0.0 && b.startingSparks >= 0.0
    && b.globalSpeedMultiplier >= 1.0
  }

  /** The range of one field of the result, as `FinalFieldBounds` states it. */
  predicate FieldInRange(key: MetaKey, x: real)
  {
    if key == BuildingCost then 0.0 < x <= 1.0
    else if IsAdditive(key) then x >= Field(DefaultMetaBonuses, key)
    else x >= 1.0
  }

  lemma RangeFromFields(b: MetaBonuses)
    requires forall key :: FieldInRange(key, Field(b, key))
    ensures BonusesInRange(b)
  {
    assert FieldInRange(ClickPower, Field(b, ClickPower)) && FieldInRange(BuildingProduction, Field(b, BuildingProduction));
    assert FieldInRange(FluxMultiplier, Field(b, FluxMultiplier)) && FieldInRange(CivilizationMultiplier, Field(b, CivilizationMultiplier));
    assert FieldInRange(GlobalProduction, Field(b, GlobalProduction)) && FieldInRange(BuildingCost, Field(b, BuildingCost));
    assert FieldInRange(StageProgress, Field(b, StageProgress)) && FieldInRange(OfflineCapHours, Field(b, OfflineCapHours));
    assert FieldInRange(OfflineGains, Field(b, OfflineGains)) && FieldInRange(EchoesEarned, Field(b, EchoesEarned));
    assert FieldInRange(TraitChoices, Field(b, TraitChoices)) && FieldInRange(AnomalyChance, Field(b, AnomalyChance));
    assert FieldInRange(StartingSparks, Field(b, StartingSparks)) && FieldInRange(GlobalSpeed, Field(b, GlobalSpeed));
  }

  /** Whatever the levels, the bonuses stay in range. */
  lemma MetaBonusesInRange(levels: map<string, nat>)
    ensures BonusesInRange(MetaBonusesOf(levels))
  {
    forall key
      ensures FieldInRange(key, Field(MetaBonusesOf(levels), key))
    {
      FieldOfResultInRange(levels, key);
    }
    RangeFromFields(MetaBonusesOf(levels));
  }

  lemma FieldOfResultInRange(levels: map<string, nat>, key: MetaKey)
    ensures FieldInRange(key, Field(MetaBonusesOf(levels), key))
  {
    var x := Field(MetaBonusesOf(levels), key);
    if IsIgnored(key) {
      assert x == 0.0 == Field(DefaultMetaBonuses, key);
    } else {
      MetaBonusesOfFields(levels, key);
      FinalFieldBounds(levels, key);
    }
    BoundsGiveRange(key, x);
  }

  lemma BoundsGiveRange(key: MetaKey, x: real)
    requires key == BuildingCost ==> 0.0 < x <= 1.0
    requires IsAdditive(key) ==> x >= Field(DefaultMetaBonuses, key)
    requires key != BuildingCost && !IsAdditive(key) ==> x >= 1.0
    ensures FieldInRange(key, x)
  {
  }

  // ---------------------------------------------------------------------------
  // Stage bonuses
  // ---------------------------------------------------------------------------

  /** The record `applyStageMultipliers` returns. */
  datatype StageMultipliers = StageMultipliers(
    fluxMultiplier: real,
    civilizationMultiplier: real,
    buildingCostMultiplier: real,
    echoBonus: real)

  const NoStageMultipliers := StageMultipliers(1.0, 1.0, 1.0, 1.0)

  /** `UNIVERSE_STAGES[state.currentStageId]`. */
  function CurrentStage(s: GameState): Option<Stages.UniverseStage>
  {
    if s.currentStageId.None? then None else Stages.FindStage(Stages.ById(s.currentStageId.value))
  }

  /**
   * `applyStageMultipliers`: the current stage's bonuses, each missing one
   * (or a missing stage) read as 1. Every stage carries a bonus object, so
   * the `!currentStage.bonuses` test never fires for a known stage.
   */
  function ApplyStageMultipliers(s: GameState): (r: StageMultipliers)
    ensures CurrentStage(s).None? ==> r == NoStageMultipliers
  {
    match CurrentStage(s)
    case None => NoStageMultipliers
    case Some(stage) =>
      StageMultipliers(
        MultiplierOrOne(stage.bonuses.fluxMultiplier),
        MultiplierOrOne(stage.bonuses.civilizationMultiplier),
        MultiplierOrOne(stage.bonuses.buildingCostReduction),
        MultiplierOrOne(stage.bonuses.echoBonus))
  }

  /** Stage bonuses only help: flux, civilization and echo bonuses are at least 1, the cost multiplier is in (0, 1]. */
  lemma StageMultiplierBounds(s: GameState)
    ensures var r := ApplyStageMultipliers(s);
      && r.fluxMultiplier >= 1.0 && r.civilizationMultiplier >= 1.0 && r.echoBonus >= 1.0
      && 0.0 < r.buildingCostMultiplier <= 1.0
  {
  }

  /** At the stage with index `i` the multipliers are that stage's bonuses, 1 where the stage has none. */
  lemma StageMultipliersAt(s: GameState, i: nat)
    requires i < |Stages.StageOrder| && s.currentStageId == Some(Stages.StageOrder[i].id)
    ensures var b := Stages.StageOrder[i].bonuses;
      ApplyStageMultipliers(s) == StageMultipliers(b.fluxMultiplier.GetOr(1.0), b.civilizationMultiplier.GetOr(1.0),
        b.buildingCostReduction.GetOr(1.0), b.echoBonus.GetOr(1.0))
  {
    Stages.FindStageAt(i);
  }

  /** Only `planetfall` lowers building costs, by 5%; only `ascension` raises echoes, by 20%. */
  lemma StageCostAndEchoBonuses(s: GameState)
    ensures ApplyStageMultipliers(s).buildingCostMultiplier != 1.0 ==>
      s.currentStageId == Some("planetfall") && ApplyStageMultipliers(s).buildingCostMultiplier == 0.95
    ensures ApplyStageMultipliers(s).echoBonus != 1.0 ==>
      s.currentStageId == Some("ascension") && ApplyStageMultipliers(s).echoBonus == 1.2
  {
  }

  // ---------------------------------------------------------------------------
  // Offline gains
  // ---------------------------------------------------------------------------

  /** The record `calculateOfflineGains` returns. */
  datatype OfflineGainsResult = OfflineGainsResult(sparks: int, flux: int, civilization: int, timeAwaySeconds: real)

  /** The sparks per second credited while away: a click power of 1 at a tenth per second. */
  const OfflineSparksPerSecond: real := 0.1

  /** `state.lastUpdateTime || state.lastTickTime`, in ms. */
  function LastUpdate(s: GameState): int
  {
    s.lastUpdateTime.GetOr(s.lastTickTime)
  }

  /** A building's raw output per second if it produces flux, else 0. */
  function FluxRateTerm(buildings: map<string, Building>, key: string): real
  {
    if key in buildings && buildings[key].resourceProduced == Flux
    then buildings[key].baseRate * buildings[key].count as real
    else 0.0
  }

  /** A building's raw output per second if it produces civilization, else 0. */
  function CivilizationRateTerm(buildings: map<string, Building>, key: string): real
  {
    if key in buildings && buildings[key].resourceProduced != Flux
    then buildings[key].baseRate * buildings[key].count as real
    else 0.0
  }

  ghost function OfflineFluxRate(buildings: map<string, Building>): real
  {
    SumOver(buildings.Keys, buildings, FluxRateTerm)
  }

  ghost function OfflineCivilizationRate(buildings: map<string, Building>): real
  {
    SumOver(buildings.Keys, buildings, CivilizationRateTerm)
  }

  /** The seconds since the last update, as `calculateOfflineGains` computes them at `now`. */
  function TimeAwaySeconds(s: GameState, now: int): real
  {
    (now - LastUpdate(s)) as real / 1000.0
  }

  /** The longest absence credited: the offline-cap hours in seconds. */
  function OfflineCapSeconds(b: MetaBonuses): real
  {
    b.offlineCapHours * 3600.0
  }

  /** `Math.min(timeAwaySeconds, maxOfflineSeconds)`. */
  function CappedTimeAway(s: GameState, now: int, b: MetaBonuses): real
  {
    var away := TimeAwaySeconds(s, now);
    var cap := OfflineCapSeconds(b);
    if away < cap then away else cap
  }

  /** `Math.floor(perSecond * cappedTimeAway * offlineGainsMultiplier)`. */
  function Gain(perSecond: real, t: real, m: real): int
  {
    (perSecond * t * m).Floor
  }

  /** The result of `calculateOfflineGains` when the clock reads `now` and the meta bonuses are `b`. */
  ghost function OfflineGainsWith(s: GameState, now: int, b: MetaBonuses): OfflineGainsResult
  {
    var t := CappedTimeAway(s, now, b);
    var m := b.offlineGainsMultiplier;
    OfflineGainsResult(
      Gain(OfflineSparksPerSecond, t, m),
      Gain(OfflineFluxRate(s.buildings), t, m),
      Gain(OfflineCivilizationRate(s.buildings), t, m),
      t)
  }

  /** Both offline rates: one pass over the buildings. */
  method OfflineRates(buildings: map<string, Building>) returns (fluxPerSecond: real, civilizationPerSecond: real)
    ensures fluxPerSecond == OfflineFluxRate(buildings)
    ensures civilizationPerSecond == OfflineCivilizationRate(buildings)
  {
    fluxPerSecond := 0.0;
    civilizationPerSecond := 0.0;
    var remaining := buildings.Keys;
    while remaining != {}
      invariant remaining <= buildings.Keys
      invariant fluxPerSecond + SumOver(remaining, buildings, FluxRateTerm) == OfflineFluxRate(buildings)
      invariant civilizationPerSecond + SumOver(remaining, buildings, CivilizationRateTerm) == OfflineCivilizationRate(buildings)
      decreases remaining
    {
      var key :| key in remaining;
      SumRemove(remaining, buildings, FluxRateTerm, key);
      SumRemove(remaining, buildings, CivilizationRateTerm, key);
      var building := buildings[key];
      var production := building.baseRate * building.count as real;
      if building.resourceProduced == Flux {
        fluxPerSecond := fluxPerSecond + production;
      } else {
        civilizationPerSecond := civilizationPerSecond + production;
      }
      remaining := remaining - {key};
    }
  }

  /** `calculateOfflineGains`, with the clock reading `now` (ms) as a parameter. */
  method CalculateOfflineGains(s: GameState, now: int) returns (gains: OfflineGainsResult)
    ensures gains == OfflineGainsWith(s, now, MetaBonusesOf(MetaLevels(s)))
  {
    var lastUpdate := LastUpdate(s);
    var timeAwaySeconds := (now - lastUpdate) as real / 1000.0;
    var metaBonuses := ApplyMetaUpgrades(s);
    var maxOfflineSeconds := metaBonuses.offlineCapHours * 3600.0;
    var cappedTimeAway := if timeAwaySeconds < maxOfflineSeconds then timeAwaySeconds else maxOfflineSeconds;
    var sparksPerSecond := OfflineSparksPerSecond;
    var fluxPerSecond, civilizationPerSecond := OfflineRates(s.buildings);
    var m := metaBonuses.offlineGainsMultiplier;
    gains := OfflineGainsResult(
      Gain(sparksPerSecond, cappedTimeAway, m),
      Gain(fluxPerSecond, cappedTimeAway, m),
      Gain(civilizationPerSecond, cappedTimeAway, m),
      cappedTimeAway);
    assert cappedTimeAway == CappedTimeAway(s, now, metaBonuses);
    assert gains == OfflineGainsWith(s, now, metaBonuses);
  }

  /** The credited time is the time away, cut at the cap. */
  lemma OfflineTimeCapped(s: GameState, now: int, b: MetaBonuses)
    ensures OfflineGainsWith(s, now, b).timeAwaySeconds <= OfflineCapSeconds(b)
    ensures OfflineGainsWith(s, now, b).timeAwaySeconds <= TimeAwaySeconds(s, now)
    ensures TimeAwaySeconds(s, now) <= OfflineCapSeconds(b) ==> OfflineGainsWith(s, now, b).timeAwaySeconds == TimeAwaySeconds(s, now)
  {
  }

  /** Once the cap is reached, staying away longer earns nothing more. */
  lemma OfflineGainsSaturate(s: GameState, now: int, later: int, b: MetaBonuses)
    requires now <= later && TimeAwaySeconds(s, now) >= OfflineCapSeconds(b)
    ensures OfflineGainsWith(s, later, b) == OfflineGainsWith(s, now, b)
  {
    assert TimeAwaySeconds(s, later) >= TimeAwaySeconds(s, now);
  }

  lemma OfflineRatesNonNegative(buildings: map<string, Building>)
    requires forall key :: key in buildings ==> buildings[key].baseRate >= 0.0
    ensures OfflineFluxRate(buildings) >= 0.0 && OfflineCivilizationRate(buildings) >= 0.0
  {
    SumNonNegative(buildings.Keys, buildings, FluxRateTerm);
    SumNonNegative(buildings.Keys, buildings, CivilizationRateTerm);
  }

  /** With the clock not behind the last update and no negative building rate, no gain is negative. */
  lemma OfflineGainsNonNegative(s: GameState, now: int, b: MetaBonuses)
    requires BonusesInRange(b)
    requires now >= LastUpdate(s)
    requires forall key :: key in s.buildings ==> s.buildings[key].baseRate >= 0.0
    ensures var g := OfflineGainsWith(s, now, b);
      g.sparks >= 0 && g.flux >= 0 && g.civilization >= 0 && g.timeAwaySeconds >= 0.0
  {
    OfflineRatesNonNegative(s.buildings);
    var t := CappedTimeAway(s, now, b);
    assert t >= 0.0;
    GainNonNegative(OfflineSparksPerSecond, t, b.offlineGainsMultiplier);
    GainNonNegative(OfflineFluxRate(s.buildings), t, b.offlineGainsMultiplier);
    GainNonNegative(OfflineCivilizationRate(s.buildings), t, b.offlineGainsMultiplier);
  }

  /** A gain for a longer absence is never smaller. */
  lemma OfflineGainsMonotone(s: GameState, now: int, later: int, b: MetaBonuses)
    requires BonusesInRange(b)
    requires LastUpdate(s) <= now <= later
    requires forall key :: key in s.buildings ==> s.buildings[key].baseRate >= 0.0
    ensures var g := OfflineGainsWith(s, now, b);
      var h := OfflineGainsWith(s, later, b);
      g.sparks <= h.sparks && g.flux <= h.flux && g.civilization <= h.civilization && g.timeAwaySeconds <= h.timeAwaySeconds
  {
    OfflineRatesNonNegative(s.buildings);
    var t := CappedTimeAway(s, now, b);
    var u := CappedTimeAway(s, later, b);
    assert t <= u;
    GainMonotone(OfflineSparksPerSecond, b.offlineGainsMultiplier, t, u);
    GainMonotone(OfflineFluxRate(s.buildings), b.offlineGainsMultiplier, t, u);
    GainMonotone(OfflineCivilizationRate(s.buildings), b.offlineGainsMultiplier, t, u);
  }

  lemma GainNonNegative(rate: real, t: real, m: real)
    requires rate >= 0.0 && t >= 0.0 && m >= 0.0
    ensures Gain(rate, t, m) >= 0
  {
    NonNegativeProduct(rate, t, m);
  }

  lemma GainMonotone(rate: real, m: real, t: real, u: real)
    requires rate >= 0.0 && m >= 0.0 && t <= u
    ensures Gain(rate, t, m) <= Gain(rate, u, m)
  {
    assert rate * t <= rate * u;
    assert (rate * t) * m <= (rate * u) * m;
  }

  /** With the starting bonuses, ten hours away credit the base 8 hours: 2880 sparks. */
  lemma OfflineExample(s: GameState, now: int)
    requires now == LastUpdate(s) + 36000000
    ensures OfflineGainsWith(s, now, DefaultMetaBonuses).timeAwaySeconds == 28800.0
    ensures OfflineGainsWith(s, now, DefaultMetaBonuses).sparks == 2880
  {
  }

  // ---------------------------------------------------------------------------
  // The stage reached
  // ---------------------------------------------------------------------------

  /** The earned flux scaled by the stage-progress bonus. */
  function AdjustedFlux(totalFluxEarned: real, stageProgressMultiplier: real): real
  {
    totalFluxEarned * stageProgressMultiplier
  }

  /** The index of the stage the earned flux, scaled by the stage-progress bonus of `b`, has reached. */
  function StageReachedIndex(s: GameState, b: MetaBonuses): (r: nat)
    ensures r < |Stages.StageOrder|
  {
    Stages.CurrentStageIndex(AdjustedFlux(s.totalFluxEarned, b.stageProgressMultiplier))
  }

  /** `getStageFromFlux`. */
  method GetStageFromFlux(s: GameState) returns (stageId: string)
    ensures stageId == Stages.StageOrder[StageReachedIndex(s, MetaBonusesOf(MetaLevels(s)))].id
  {
    var metaBonuses := ApplyMetaUpgrades(s);
    var adjustedFlux := AdjustedFlux(s.totalFluxEarned, metaBonuses.stageProgressMultiplier);
    var stage := Stages.GetCurrentStage(adjustedFlux);
    stageId := stage.id;
  }

  /** The stage-progress bonus never holds a run back: it reaches at least the stage of its raw flux. */
  lemma StageReachedAtLeastRaw(s: GameState, b: MetaBonuses)
    requires BonusesInRange(b) && s.totalFluxEarned >= 0.0
    ensures StageReachedIndex(s, b) >= Stages.CurrentStageIndex(s.totalFluxEarned)
  {
    ScaleUp(s.totalFluxEarned, b.stageProgressMultiplier);
    Stages.CurrentStageMonotone(s.totalFluxEarned, AdjustedFlux(s.totalFluxEarned, b.stageProgressMultiplier));
  }

  /** With the same bonuses, more earned flux never means an earlier stage. */
  lemma StageReachedMonotone(s: GameState, t: GameState, b: MetaBonuses)
    requires BonusesInRange(b) && s.totalFluxEarned <= t.totalFluxEarned
    ensures StageReachedIndex(s, b) <= StageReachedIndex(t, b)
  {
    var m := b.stageProgressMultiplier;
    assert AdjustedFlux(s.totalFluxEarned, m) <= AdjustedFlux(t.totalFluxEarned, m);
    Stages.CurrentStageMonotone(AdjustedFlux(s.totalFluxEarned, m), AdjustedFlux(t.totalFluxEarned, m));
  }

  /** With the starting bonuses the stage is the one the raw flux has reached. */
  lemma StageReachedWithDefaults(s: GameState)
    ensures StageReachedIndex(s, DefaultMetaBonuses) == Stages.CurrentStageIndex(s.totalFluxEarned)
  {
  }

  // ---------------------------------------------------------------------------
  // Daily tasks
  // ---------------------------------------------------------------------------

  /** Fresh progress records for the drawn tasks. */
  function FreshTaskProgress(tasks: seq<DailyTasks.DailyTask>): (r: seq<TaskProgress>)
  {
    seq(|tasks|, i requires 0 <= i < |tasks| => TaskProgress(tasks[i].id, 0.0, false, false))
  }

  /** Whether `initializeDailyTasks` redraws at `now`: never reset, or a later UTC day. */
  predicate DailyResetDue(s: GameState, now: int)
  {
    s.dailyTasksLastReset.None? || DailyTasks.ShouldResetDailyTasks(s.dailyTasksLastReset.value, now)
  }

  /**
   * `initializeDailyTasks`, with the clock reading `now` and the random
   * order of the draw `shuffle` as parameters.
   */
  function InitializeDailyTasks(s: GameState, now: int, shuffle: seq<nat>): (r: GameState)
    requires DailyTasks.IsShuffle(shuffle)
  {
    if DailyResetDue(s, now) then
      s.(dailyTasks := FreshTaskProgress(DailyTasks.GetRandomDailyTasks(3, shuffle)),
         dailyTasksLastReset := Some(now),
         dailyCollapses := Some(0),
         dailyRareTraitRuns := Some(0),
         dailyBuildingsPurchased := Some(0))
    else s
  }

  /**
   * No reset due: nothing changes. A reset: three fresh, distinct tasks from
   * the table, the reset time is `now`, the daily counters are 0, and
   * nothing else changes.
   */
  lemma InitializeDailyTasksFacts(s: GameState, now: int, shuffle: seq<nat>)
    requires DailyTasks.IsShuffle(shuffle)
    ensures !DailyResetDue(s, now) ==> InitializeDailyTasks(s, now, shuffle) == s
    ensures DailyResetDue(s, now) ==>
      var r := InitializeDailyTasks(s, now, shuffle);
      && |r.dailyTasks| == 3
      && (forall k :: 0 <= k < 3 ==> r.dailyTasks[k].progress == 0.0 && !r.dailyTasks[k].completed && !r.dailyTasks[k].claimed)
      && (forall k :: 0 <= k < 3 ==> exists t :: t in DailyTasks.DailyTaskList && t.id == r.dailyTasks[k].taskId)
      && (forall k, l :: 0 <= k < l < 3 ==> r.dailyTasks[k].taskId != r.dailyTasks[l].taskId)
      && r.dailyTasksLastReset == Some(now)
      && r.dailyCollapses == Some(0) && r.dailyRareTraitRuns == Some(0) && r.dailyBuildingsPurchased == Some(0)
      && r.(dailyTasks := s.dailyTasks, dailyTasksLastReset := s.dailyTasksLastReset, dailyCollapses := s.dailyCollapses,
            dailyRareTraitRuns := s.dailyRareTraitRuns, dailyBuildingsPurchased := s.dailyBuildingsPurchased) == s
  {
    if DailyResetDue(s, now) {
      DailyTasks.RandomTasksFacts(3, shuffle);
      var drawn := DailyTasks.GetRandomDailyTasks(3, shuffle);
      forall k | 0 <= k < 3
        ensures exists t :: t in DailyTasks.DailyTaskList && t.id == FreshTaskProgress(drawn)[k].taskId
      {
        assert drawn[k] in DailyTasks.DailyTaskList;
      }
    }
  }

  /** A second call on the same day, whatever its draw, changes nothing. */
  lemma InitializeDailyTasksIdempotent(s: GameState, now: int, shuffle: seq<nat>, shuffle': seq<nat>)
    requires DailyTasks.IsShuffle(shuffle) && DailyTasks.IsShuffle(shuffle')
    ensures InitializeDailyTasks(InitializeDailyTasks(s, now, shuffle), now, shuffle') == InitializeDailyTasks(s, now, shuffle)
  {
    DailyTasks.ResetTiming(now, now, now);
  }

  /** `Array.prototype.find` by id: the first task with the id. */
  function FindTask(tasks: seq<DailyTasks.DailyTask>, id: string): Option<DailyTasks.DailyTask>
  {
    if tasks == [] then None
    else if tasks[0].id == id then Some(tasks[0])
    else FindTask(tasks[1..], id)
  }

  /** In a sequence without repeated ids, the search finds the one task with the id, or reports there is none. */
  lemma {:induction false} FindTaskUnique(tasks: seq<DailyTasks.DailyTask>, id: string)
    requires forall k, l :: 0 <= k < l < |tasks| ==> tasks[k].id != tasks[l].id
    ensures forall t :: t in tasks && t.id == id ==> FindTask(tasks, id) == Some(t)
    ensures (forall t :: t in tasks ==> t.id != id) ==> FindTask(tasks, id).None?
  {
    if tasks != [] {
      var rest := tasks[1..];
      assert forall k, l :: 0 <= k < l < |rest| ==> rest[k].id != rest[l].id by {
        forall k, l | 0 <= k < l < |rest|
          ensures rest[k].id != rest[l].id
        {
          assert rest[k] == tasks[k + 1] && rest[l] == tasks[l + 1];
        }
      }
      FindTaskUnique(rest, id);
      forall t | t in tasks && t.id == id
        ensures FindTask(tasks, id) == Some(t)
      {
        if t != tasks[0] {
          var k :| 0 <= k < |tasks| && tasks[k] == t;
          assert k > 0 && tasks[0].id != id;
          assert rest[k - 1] == t;
        }
      }
      if forall t :: t in tasks ==> t.id != id {
        assert forall t :: t in rest ==> t in tasks;
      }
    }
  }

  /** Searching the shuffled draw of all five tasks finds what searching the table finds. */
  lemma FindInDrawIsFindInTable(shuffle: seq<nat>, id: string)
    requires DailyTasks.IsShuffle(shuffle)
    ensures FindTask(DailyTasks.GetRandomDailyTasks(5, shuffle), id) == FindTask(DailyTasks.DailyTaskList, id)
  {
    var drawn := DailyTasks.GetRandomDailyTasks(5, shuffle);
    var table := DailyTasks.DailyTaskList;
    DailyTasks.RandomTasksFacts(5, shuffle);
    DailyTasks.TaskTableFacts();
    FindTaskUnique(drawn, id);
    FindTaskUnique(table, id);
    if exists t :: t in table && t.id == id {
      var t :| t in table && t.id == id;
      assert t in drawn;
    } else {
      assert forall t :: t in drawn ==> t in table;
    }
  }

  /** One record after `updateDailyTaskProgress`: completed or unknown ones are left as they are. */
  function UpdatedTask(tp: TaskProgress, s: GameState, shuffle: seq<nat>): TaskProgress
    requires DailyTasks.IsShuffle(shuffle)
  {
    if tp.completed then tp
    else match FindTask(DailyTasks.GetRandomDailyTasks(5, shuffle), tp.taskId)
      case None => tp
      case Some(task) =>
        var progress := DailyTasks.CheckProgress(task, s);
        tp.(progress := progress, completed := progress >= task.target)
  }

  /** `updateDailyTaskProgress`, with the random order of its internal draw as `shuffle`. */
  function UpdateDailyTaskProgress(s: GameState, shuffle: seq<nat>): (r: GameState)
    requires DailyTasks.IsShuffle(shuffle)
  {
    s.(dailyTasks := seq(|s.dailyTasks|, i requires 0 <= i < |s.dailyTasks| => UpdatedTask(s.dailyTasks[i], s, shuffle)))
  }

  /**
   * Only the task records change, one for one: a completed record stays as
   * it is, an unknown one too, and every other record gets its task's
   * current progress and is complete exactly when that progress reaches the
   * target. Ids and claims never change.
   */
  lemma UpdateDailyTaskProgressFacts(s: GameState, shuffle: seq<nat>, i: nat)
    requires DailyTasks.IsShuffle(shuffle) && i < |s.dailyTasks|
    ensures var r := UpdateDailyTaskProgress(s, shuffle);
      var old_ := s.dailyTasks[i];
      var new_ := r.dailyTasks[i];
      && r.(dailyTasks := s.dailyTasks) == s
      && |r.dailyTasks| == |s.dailyTasks|
      && new_.taskId == old_.taskId && new_.claimed == old_.claimed
      && (old_.completed ==> new_ == old_)
      && (FindTask(DailyTasks.DailyTaskList, old_.taskId).None? ==> new_ == old_)
      && (!old_.completed && FindTask(DailyTasks.DailyTaskList, old_.taskId).Some? ==>
            var task := FindTask(DailyTasks.DailyTaskList, old_.taskId).value;
            new_.progress == DailyTasks.CheckProgress(task, s) && (new_.completed <==> new_.progress >= task.target))
  {
    FindInDrawIsFindInTable(shuffle, s.dailyTasks[i].taskId);
  }

  /** The random order of the internal draw does not matter. */
  lemma UpdateIndependentOfShuffle(s: GameState, shuffle: seq<nat>, shuffle': seq<nat>)
    requires DailyTasks.IsShuffle(shuffle) && DailyTasks.IsShuffle(shuffle')
    ensures UpdateDailyTaskProgress(s, shuffle) == UpdateDailyTaskProgress(s, shuffle')
  {
    forall i | 0 <= i < |s.dailyTasks|
      ensures UpdatedTask(s.dailyTasks[i], s, shuffle) == UpdatedTask(s.dailyTasks[i], s, shuffle')
    {
      FindInDrawIsFindInTable(shuffle, s.dailyTasks[i].taskId);
      FindInDrawIsFindInTable(shuffle', s.dailyTasks[i].taskId);
    }
  }

  /** Updating twice is updating once. */
  lemma UpdateIdempotent(s: GameState, shuffle: seq<nat>)
    requires DailyTasks.IsShuffle(shuffle)
    ensures UpdateDailyTaskProgress(UpdateDailyTaskProgress(s, shuffle), shuffle) == UpdateDailyTaskProgress(s, shuffle)
  {
    var r := UpdateDailyTaskProgress(s, shuffle);
    forall i | 0 <= i < |r.dailyTasks|
      ensures UpdatedTask(r.dailyTasks[i], r, shuffle) == r.dailyTasks[i]
    {
      var found := FindTask(DailyTasks.GetRandomDailyTasks(5, shuffle), s.dailyTasks[i].taskId);
      if found.Some? {
        DailyTasks.ProgressReadsOnlyCounters(found.value, s, r);
      }
    }
  }
}
