/**
 * The permanent (meta) upgrades bought with echoes: the table, the price of
 * the next level, affordability, and the prerequisite rule.
 */
module MetaUpgrades {
  import opened Wrappers
  import opened Numeric

  datatype Column = Power | Tempo | Weirdness

  datatype MetaEffectKind = MetaMultiplier | MetaAdditive | MetaSpecial

  /** The effect keys used by the table. */
  datatype MetaKey =
    | ClickPower | BuildingProduction | FluxMultiplier | CivilizationMultiplier | GlobalProduction
    | BuildingCost | StageProgress | OfflineCapHours | OfflineGains | EchoesEarned | GlobalSpeed
    | TraitChoices | AnomalyChance | FastRunBonus | StartingSparks | RandomBuff

  datatype MetaEffect = MetaEffect(kind: MetaEffectKind, key: MetaKey, valuePerLevel: real)

  datatype MetaUpgrade = MetaUpgrade(
    id: string,
    column: Column,
    tier: nat,
    baseCost: real,
    costMultiplier: real,
    maxLevel: nat,
    effects: seq<MetaEffect>,
    prerequisite: Option<string>)

  /** `META_UPGRADES`, in declaration order. */
  const MetaUpgradeList: seq<MetaUpgrade> := [
    MetaUpgrade("power_click_1", Power, 1, 3.0, 2.0, 5,
      [MetaEffect(MetaMultiplier, ClickPower, 1.5)], None),
    MetaUpgrade("power_buildings_1", Power, 2, 5.0, 2.5, 5,
      [MetaEffect(MetaMultiplier, BuildingProduction, 1.25)], None),
    MetaUpgrade("power_flux_1", Power, 3, 10.0, 3.0, 5,
      [MetaEffect(MetaMultiplier, FluxMultiplier, 1.3)], None),
    MetaUpgrade("power_civilization_1", Power, 4, 20.0, 3.0, 3,
      [MetaEffect(MetaMultiplier, CivilizationMultiplier, 1.4)], None),
    MetaUpgrade("power_ultimate", Power, 5, 100.0, 5.0, 1,
      [MetaEffect(MetaMultiplier, GlobalProduction, 2.0)], Some("power_flux_1")),
    MetaUpgrade("tempo_cost_1", Tempo, 1, 3.0, 2.0, 5,
      [MetaEffect(MetaMultiplier, BuildingCost, 0.9)], None),
    MetaUpgrade("tempo_stages_1", Tempo, 2, 5.0, 2.5, 3,
      [MetaEffect(MetaMultiplier, StageProgress, 1.15)], None),
    MetaUpgrade("tempo_offline_1", Tempo, 3, 8.0, 2.0, 5,
      [MetaEffect(MetaAdditive, OfflineCapHours, 2.0), MetaEffect(MetaMultiplier, OfflineGains, 1.2)], None),
    MetaUpgrade("tempo_echoes_1", Tempo, 4, 15.0, 3.0, 4,
      [MetaEffect(MetaMultiplier, EchoesEarned, 1.25)], None),
    MetaUpgrade("tempo_ultimate", Tempo, 5, 120.0, 5.0, 1,
      [MetaEffect(MetaMultiplier, GlobalSpeed, 1.5)], Some("tempo_stages_1")),
    MetaUpgrade("weird_traits_1", Weirdness, 1, 10.0, 5.0, 2,
      [MetaEffect(MetaAdditive, TraitChoices, 1.0)], None),
    MetaUpgrade("weird_anomaly_1", Weirdness, 2, 12.0, 4.0, 3,
      [MetaEffect(MetaAdditive, AnomalyChance, 0.05)], None),
    MetaUpgrade("weird_speed_1", Weirdness, 3, 15.0, 3.0, 3,
      [MetaEffect(MetaSpecial, FastRunBonus, 0.5)], None),
    MetaUpgrade("weird_starting_1", Weirdness, 4, 8.0, 2.0, 5,
      [MetaEffect(MetaAdditive, StartingSparks, 100.0)], None),
    MetaUpgrade("weird_ultimate", Weirdness, 5, 150.0, 10.0, 1,
      [MetaEffect(MetaSpecial, RandomBuff, 1.0)], Some("weird_traits_1"))
  ]

  /** `META_UPGRADES[id]`: the entry with that id, if any. */
  function FindMetaUpgrade(id: string, from: nat := 0): (r: Option<MetaUpgrade>)
    decreases |MetaUpgradeList| - from
    ensures r.Some? ==> r.value in MetaUpgradeList && r.value.id == id
    ensures r.None? ==> forall i :: from <= i < |MetaUpgradeList| ==> MetaUpgradeList[i].id != id
  {
    if from >= |MetaUpgradeList| then None
    else if MetaUpgradeList[from].id == id then Some(MetaUpgradeList[from])
    else FindMetaUpgrade(id, from + 1)
  }

  /** The ids of the table, `Object.keys(META_UPGRADES)` as a set. */
  function MetaUpgradeIds(): set<string>
  {
    set i | 0 <= i < |MetaUpgradeList| :: MetaUpgradeList[i].id
  }

  /** `getMetaUpgradeCost`: the echoes the level after `currentLevel` costs. */
  function GetMetaUpgradeCost(u: MetaUpgrade, currentLevel: nat): int
  {
    GeometricCost(u.baseCost, u.costMultiplier, currentLevel)
  }

  /** `canAffordMetaUpgrade`. */
  function CanAffordMetaUpgrade(u: MetaUpgrade, currentLevel: nat, echoes: int): bool
  {
    if currentLevel >= u.maxLevel then false
    else echoes >= GetMetaUpgradeCost(u, currentLevel)
  }

  /** `purchasedUpgrades[id] || 0`. */
  function LevelOf(levels: map<string, nat>, id: string): nat
  {
    if id in levels then levels[id] else 0
  }

  /** `isMetaUpgradeUnlocked`. */
  function IsMetaUpgradeUnlocked(u: MetaUpgrade, purchasedUpgrades: map<string, nat>): bool
  {
    if u.prerequisite.None? then true
    else LevelOf(purchasedUpgrades, u.prerequisite.value) > 0
  }

  /**
   * For a table entry, affordability only gets easier with more echoes and
   * at a lower level, and an affordable level always costs at least one
   * echo.
   */
  lemma AffordabilityMonotone(u: MetaUpgrade, m: nat, n: nat, e1: int, e2: int)
    requires u in MetaUpgradeList && m <= n && e1 <= e2
    ensures CanAffordMetaUpgrade(u, n, e1) ==> CanAffordMetaUpgrade(u, m, e2)
    ensures CanAffordMetaUpgrade(u, m, e1) ==> 0 < GetMetaUpgradeCost(u, m) <= e1
  {
    MetaCostMonotone(u, m, n);
  }

  /** Raising levels never locks an entry: unlocking is monotone in the level map. */
  lemma UnlockMonotone(u: MetaUpgrade, before: map<string, nat>, after: map<string, nat>)
    requires forall id :: LevelOf(before, id) <= LevelOf(after, id)
    ensures IsMetaUpgradeUnlocked(u, before) ==> IsMetaUpgradeUnlocked(u, after)
  {
    if u.prerequisite.Some? {
      assert LevelOf(before, u.prerequisite.value) <= LevelOf(after, u.prerequisite.value);
    }
  }

  /** What every entry of the table satisfies. */
  predicate EntryWellFormed(u: MetaUpgrade)
  {
    && u.maxLevel >= 1
    && u.baseCost > 0.0
    && u.costMultiplier >= 1.0
    && 1 <= u.tier <= 5
    && |u.effects| >= 1
    && (forall i :: 0 <= i < |u.effects| ==> u.effects[i].valuePerLevel > 0.0)
  }

  /** Every entry has at least one level and one effect, positive per-level values and a non-decreasing price; ids are unique. */
  lemma TableWellFormed()
    ensures |MetaUpgradeList| == 15
    ensures forall i :: 0 <= i < |MetaUpgradeList| ==> EntryWellFormed(MetaUpgradeList[i])
    ensures forall i, j :: 0 <= i < j < |MetaUpgradeList| ==> MetaUpgradeList[i].id != MetaUpgradeList[j].id
  {
    EntriesWellFormed();
    IdsDistinct();
  }

  lemma EntriesWellFormed()
    ensures |MetaUpgradeList| == 15
    ensures forall i :: 0 <= i < |MetaUpgradeList| ==> EntryWellFormed(MetaUpgradeList[i])
  {
  }

  lemma IdsDistinct()
    ensures forall i, j :: 0 <= i < j < |MetaUpgradeList| ==> MetaUpgradeList[i].id != MetaUpgradeList[j].id
  {
  }

  /** Every prerequisite is an entry of the same column with a lower tier. */
  lemma PrerequisitesPointBackwards()
    ensures forall i :: 0 <= i < |MetaUpgradeList| && MetaUpgradeList[i].prerequisite.Some? ==>
      exists j :: 0 <= j < |MetaUpgradeList| && PrerequisiteEntry(MetaUpgradeList[i], MetaUpgradeList[j])
  {
    assert PrerequisiteEntry(MetaUpgradeList[4], MetaUpgradeList[2]);
    assert PrerequisiteEntry(MetaUpgradeList[9], MetaUpgradeList[6]);
    assert PrerequisiteEntry(MetaUpgradeList[14], MetaUpgradeList[10]);
  }

  /** The entries that require `p` sit in its column at a higher tier. */
  lemma DependentsFollow(p: MetaUpgrade)
    requires p in MetaUpgradeList
    ensures forall u :: u in MetaUpgradeList && u.prerequisite == Some(p.id) ==> u.column == p.column && p.tier < u.tier
  {
    PrerequisitesPointBackwards();
    IdsDistinct();
    var k :| 0 <= k < |MetaUpgradeList| && MetaUpgradeList[k] == p;
    forall u | u in MetaUpgradeList && u.prerequisite == Some(p.id)
      ensures u.column == p.column && p.tier < u.tier
    {
      var i :| 0 <= i < |MetaUpgradeList| && MetaUpgradeList[i] == u;
      var j :| 0 <= j < |MetaUpgradeList| && PrerequisiteEntry(u, MetaUpgradeList[j]);
      assert MetaUpgradeList[j].id == p.id == MetaUpgradeList[k].id;
      assert j == k;
    }
  }

  /** `p` is the entry `u` requires: same column, lower tier. */
  predicate PrerequisiteEntry(u: MetaUpgrade, p: MetaUpgrade)
  {
    u.prerequisite == Some(p.id) && p.column == u.column && p.tier < u.tier
  }

  /** Lookup finds exactly the ids of the table. */
  lemma FindMatchesIds(id: string)
    ensures FindMetaUpgrade(id).Some? <==> id in MetaUpgradeIds()
  {
    if id in MetaUpgradeIds() {
      var i :| 0 <= i < |MetaUpgradeList| && MetaUpgradeList[i].id == id;
      assert FindMetaUpgrade(id).Some?;
    }
  }

  /** Looking up the id of the entry at index `i` finds that entry. */
  lemma FindAt(i: nat)
    requires i < |MetaUpgradeList|
    ensures FindMetaUpgrade(MetaUpgradeList[i].id) == Some(MetaUpgradeList[i])
  {
    TableWellFormed();
    var r := FindMetaUpgrade(MetaUpgradeList[i].id);
    assert r.Some?;
    var k :| 0 <= k < |MetaUpgradeList| && MetaUpgradeList[k] == r.value;
    assert k == i;
  }

  /** The price of the next level never falls as the level rises. */
  lemma MetaCostMonotone(u: MetaUpgrade, m: nat, n: nat)
    requires u in MetaUpgradeList && m <= n
    ensures 0 < GetMetaUpgradeCost(u, m) <= GetMetaUpgradeCost(u, n)
  {
    TableWellFormed();
    GeometricCostMonotone(u.baseCost, u.costMultiplier, m, n);
    PowAtLeastOne(u.costMultiplier, m);
    assert u.baseCost * Pow(u.costMultiplier, m) >= u.baseCost * 1.0;
  }
}
