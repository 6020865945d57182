/**
 * The building table, the fresh-run building dictionary, and the two
 * per-building rules: the geometric price and the raw production rate.
 */
module Buildings {
  import opened GameTypes
  import opened Numeric

  /** A table entry: every building field except `count`. */
  datatype BuildingDef = BuildingDef(
    id: string,
    baseRate: real,
    baseCost: real,
    costMultiplier: real,
    resourceProduced: Resource,
    unlockedAt: real)

  /** `BUILDING_DEFINITIONS` as its `Object.entries`: (key, definition) in declaration order. */
  const BuildingDefinitions: seq<(string, BuildingDef)> := [
    ("foundry", BuildingDef("foundry", 0.1, 10.0, 1.15, Flux, 0.0)),
    ("reactor", BuildingDef("reactor", 1.0, 100.0, 1.15, Flux, 0.0)),
    ("lab", BuildingDef("lab", 10.0, 1100.0, 1.15, Flux, 0.0)),
    ("civilization", BuildingDef("civilization", 0.1, 12000.0, 1.15, Civilization, 1000.0)),
    ("world", BuildingDef("world", 100.0, 130000.0, 1.15, Flux, 10000.0)),
    ("megastructure", BuildingDef("megastructure", 1.0, 500000.0, 1.15, Civilization, 100000.0))
  ]

  /** The keys of `BUILDING_DEFINITIONS`. */
  function DefinitionKeys(): set<string>
  {
    set i | 0 <= i < |BuildingDefinitions| :: BuildingDefinitions[i].0
  }

  /** `{ ...def, count }`. */
  function WithCount(d: BuildingDef, count: nat): Building
  {
    Building(d.id, d.baseRate, d.baseCost, d.costMultiplier, count, d.resourceProduced, d.unlockedAt)
  }

  /** The dictionary that assigning `buildings[id] = { ...def, count: 0 }` for each entry of `entries`, in order, builds. */
  function BuildingsFrom(entries: seq<(string, BuildingDef)>): map<string, Building>
    decreases |entries|
  {
    if entries == [] then map[]
    else
      var last := entries[|entries| - 1];
      BuildingsFrom(entries[..|entries| - 1])[last.0 := WithCount(last.1, 0)]
  }

  /** The buildings of a fresh run. */
  function FreshBuildings(): map<string, Building>
  {
    BuildingsFrom(BuildingDefinitions)
  }

  /** `createBuildings`. */
  method CreateBuildings() returns (buildings: map<string, Building>)
    ensures buildings == FreshBuildings()
  {
    buildings := map[];
    for i := 0 to |BuildingDefinitions|
      invariant buildings == BuildingsFrom(BuildingDefinitions[..i])
    {
      var (id, def) := BuildingDefinitions[i];
      buildings := buildings[id := WithCount(def, 0)];
      assert BuildingDefinitions[..i + 1][..i] == BuildingDefinitions[..i];
    }
    assert BuildingDefinitions[..|BuildingDefinitions|] == BuildingDefinitions;
  }

  /** Each entry's key is its `id`; every multiplier is 1.15 and every unlock threshold non-negative. */
  lemma DefinitionTableFacts()
    ensures forall i :: 0 <= i < |BuildingDefinitions| ==>
      && BuildingDefinitions[i].0 == BuildingDefinitions[i].1.id
      && BuildingDefinitions[i].1.costMultiplier == 1.15
      && BuildingDefinitions[i].1.unlockedAt >= 0.0
      && BuildingDefinitions[i].1.baseCost > 0.0
      && BuildingDefinitions[i].1.baseRate > 0.0
    ensures forall i, j :: 0 <= i < j < |BuildingDefinitions| ==> BuildingDefinitions[i].0 != BuildingDefinitions[j].0
  {
  }

  /** What the entries build: exactly their keys, each holding its definition with count 0 (keys distinct). */
  lemma BuildingsFromEntries(entries: seq<(string, BuildingDef)>)
    requires forall i, j :: 0 <= i < j < |entries| ==> entries[i].0 != entries[j].0
    ensures BuildingsFrom(entries).Keys == set i | 0 <= i < |entries| :: entries[i].0
    ensures forall i :: 0 <= i < |entries| ==> BuildingsFrom(entries)[entries[i].0] == WithCount(entries[i].1, 0)
  {
    BuildingsFromKeys(entries);
    BuildingsFromValues(entries);
  }

  lemma {:induction false} BuildingsFromKeys(entries: seq<(string, BuildingDef)>)
    ensures BuildingsFrom(entries).Keys == set i | 0 <= i < |entries| :: entries[i].0
    decreases |entries|
  {
    if entries != [] {
      var init := entries[..|entries| - 1];
      BuildingsFromKeys(init);
      assert (set i | 0 <= i < |entries| :: entries[i].0) == (set i | 0 <= i < |init| :: init[i].0) + {entries[|entries| - 1].0};
    }
  }

  lemma {:induction false} BuildingsFromValues(entries: seq<(string, BuildingDef)>)
    requires forall i, j :: 0 <= i < j < |entries| ==> entries[i].0 != entries[j].0
    ensures forall i :: 0 <= i < |entries| ==> entries[i].0 in BuildingsFrom(entries) && BuildingsFrom(entries)[entries[i].0] == WithCount(entries[i].1, 0)
    decreases |entries|
  {
    if entries != [] {
      var init := entries[..|entries| - 1];
      var last := entries[|entries| - 1];
      BuildingsFromValues(init);
      forall i | 0 <= i < |init|
        ensures BuildingsFrom(entries)[entries[i].0] == WithCount(entries[i].1, 0)
      {
        assert entries[i] == init[i] && entries[i].0 != last.0;
      }
    }
  }

  /** `createBuildings` yields exactly the table's keys, each at count 0 with every other field copied. */
  lemma FreshBuildingsMatchTable()
    ensures FreshBuildings().Keys == DefinitionKeys()
    ensures forall i :: 0 <= i < |BuildingDefinitions| ==>
      FreshBuildings()[BuildingDefinitions[i].0] == WithCount(BuildingDefinitions[i].1, 0)
    ensures forall id :: id in FreshBuildings() ==> FreshBuildings()[id].count == 0 && FreshBuildings()[id].id == id
  {
    DefinitionTableFacts();
    BuildingsFromEntries(BuildingDefinitions);
  }

  /** `getBuildingCost(building, count = building.count)`. */
  function GetBuildingCost(b: Building, count: nat := b.count): int
  {
    GeometricCost(b.baseCost, b.costMultiplier, count)
  }

  /** `getBuildingProduction`: the raw rate, before any modifier. */
  function GetBuildingProduction(b: Building): real
  {
    b.baseRate * b.count as real
  }

  /** The price never falls as more units are owned (non-negative base cost, multiplier at least 1). */
  lemma BuildingCostMonotone(b: Building, m: nat, n: nat)
    requires b.baseCost >= 0.0 && b.costMultiplier >= 1.0 && m <= n
    ensures 0 <= GetBuildingCost(b, m) <= GetBuildingCost(b, n)
  {
    GeometricCostNonNegative(b.baseCost, b.costMultiplier, m);
    GeometricCostMonotone(b.baseCost, b.costMultiplier, m, n);
  }

  /** The first foundry costs 10 and the second floor(10 * 1.15) = 11. */
  lemma FoundryPrices()
    ensures "foundry" in FreshBuildings()
    ensures GetBuildingCost(FreshBuildings()["foundry"]) == 10
    ensures GetBuildingCost(FreshBuildings()["foundry"], 1) == 11
  {
    FreshBuildingsMatchTable();
    assert BuildingDefinitions[0].0 == "foundry";
    assert FreshBuildings()["foundry"] == WithCount(BuildingDefinitions[0].1, 0);
    assert Pow(1.15, 1) == 1.15;
    assert 10.0 * 1.15 == 11.5;
  }

  /** No units, no production; otherwise production scales with the count. */
  lemma ProductionScalesWithCount(b: Building)
    ensures b.count == 0 ==> GetBuildingProduction(b) == 0.0
    ensures b.baseRate >= 0.0 ==> GetBuildingProduction(b) >= 0.0
    ensures GetBuildingProduction(b.(count := b.count + 1)) == GetBuildingProduction(b) + b.baseRate
  {
  }
}
