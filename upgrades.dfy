/**
 * The one-run upgrade table: each upgrade's price, currency, effect and
 * prerequisite, and the rule that decides a prerequisite.
 */
module Upgrades {
  import opened Wrappers
  import opened GameTypes
  import Buildings

  /** An upgrade as `createUpgrades` writes it: not purchased, visible. */
  function Fresh(id: string, cost: real, currency: Currency, effect: UpgradeEffect, prerequisite: Prerequisite): Upgrade
  {
    Upgrade(id, cost, currency, effect, false, true, prerequisite)
  }

  /** The entries of `createUpgrades()`, in declaration order. */
  const UpgradeList: seq<Upgrade> := [
    Fresh("click_power_1", 50.0, PaySparks, UpgradeEffect(Multiplier, TargetSparks, 2.0, None), NoPrerequisite),
    Fresh("click_power_2", 500.0, PaySparks, UpgradeEffect(Multiplier, TargetSparks, 3.0, None), RequiresPurchased("click_power_1")),
    Fresh("foundry_boost_1", 200.0, PayFlux, UpgradeEffect(Multiplier, TargetBuilding, 2.0, Some("foundry")), NoPrerequisite),
    Fresh("reactor_boost_1", 2000.0, PayFlux, UpgradeEffect(Multiplier, TargetBuilding, 2.0, Some("reactor")), NoPrerequisite),
    Fresh("lab_boost_1", 20000.0, PayFlux, UpgradeEffect(Multiplier, TargetBuilding, 2.0, Some("lab")), NoPrerequisite),
    Fresh("global_flux_1", 50000.0, PayFlux, UpgradeEffect(Multiplier, TargetFlux, 1.5, None), NoPrerequisite),
    Fresh("civilization_boost_1", 100.0, PayCivilization, UpgradeEffect(Multiplier, TargetCivilization, 2.0, None), NoPrerequisite),
    Fresh("echo_power_1", 5.0, PayEchoes, UpgradeEffect(Multiplier, TargetGlobal, 1.1, None), NoPrerequisite),
    Fresh("echo_power_2", 20.0, PayEchoes, UpgradeEffect(Multiplier, TargetGlobal, 1.25, None), RequiresPurchased("echo_power_1")),
    Fresh("echo_power_3", 50.0, PayEchoes, UpgradeEffect(Multiplier, TargetGlobal, 1.5, None), RequiresPurchased("echo_power_2"))
  ]

  /** The dictionary the entries `entries` make, each keyed by its id. */
  function UpgradesFrom(entries: seq<Upgrade>): map<string, Upgrade>
  {
    if entries == [] then map[]
    else
      var last := entries[|entries| - 1];
      UpgradesFrom(entries[..|entries| - 1])[last.id := last]
  }

  /** `createUpgrades`. */
  function CreateUpgrades(): map<string, Upgrade>
  {
    UpgradesFrom(UpgradeList)
  }

  /** An upgrade's `prerequisite` closure: `state.upgrades.X?.purchased || false`, or no prerequisite at all. */
  function PrerequisiteHolds(p: Prerequisite, upgrades: map<string, Upgrade>): bool
  {
    match p
    case NoPrerequisite => true
    case RequiresPurchased(x) => x in upgrades && upgrades[x].purchased
  }

  predicate EntryWellFormed(u: Upgrade)
  {
    && u.cost > 0.0
    && !u.purchased && u.visible
    && (u.effect.target == TargetBuilding ==> u.effect.buildingId.Some? && u.effect.buildingId.value in Buildings.DefinitionKeys())
    && (u.costCurrency == PayEchoes ==> u.effect.kind == Multiplier && u.effect.target == TargetGlobal && u.effect.value > 1.0)
  }

  /**
   * Distinct ids; each entry has a positive price, starts unpurchased and
   * visible; building-target upgrades name a defined building; echoes-priced
   * upgrades are global multipliers above 1.
   */
  lemma UpgradeTableFacts()
    ensures |UpgradeList| == 10
    ensures forall i, j :: 0 <= i < j < |UpgradeList| ==> UpgradeList[i].id != UpgradeList[j].id
    ensures forall i :: 0 <= i < |UpgradeList| ==> EntryWellFormed(UpgradeList[i])
  {
    assert Buildings.BuildingDefinitions[0].0 == "foundry";
    assert Buildings.BuildingDefinitions[1].0 == "reactor";
    assert Buildings.BuildingDefinitions[2].0 == "lab";
  }

  lemma UpgradesFromEntries(entries: seq<Upgrade>)
    requires forall i, j :: 0 <= i < j < |entries| ==> entries[i].id != entries[j].id
    ensures UpgradesFrom(entries).Keys == set i | 0 <= i < |entries| :: entries[i].id
    ensures forall i :: 0 <= i < |entries| ==> UpgradesFrom(entries)[entries[i].id] == entries[i]
  {
    UpgradesFromKeys(entries);
    UpgradesFromValues(entries);
  }

  lemma {:induction false} UpgradesFromKeys(entries: seq<Upgrade>)
    ensures UpgradesFrom(entries).Keys == set i | 0 <= i < |entries| :: entries[i].id
  {
    if entries != [] {
      var init := entries[..|entries| - 1];
      UpgradesFromKeys(init);
      assert (set i | 0 <= i < |entries| :: entries[i].id) == (set i | 0 <= i < |init| :: init[i].id) + {entries[|entries| - 1].id};
    }
  }

  lemma {:induction false} UpgradesFromValues(entries: seq<Upgrade>)
    requires forall i, j :: 0 <= i < j < |entries| ==> entries[i].id != entries[j].id
    ensures forall i :: 0 <= i < |entries| ==> entries[i].id in UpgradesFrom(entries) && UpgradesFrom(entries)[entries[i].id] == entries[i]
  {
    if entries != [] {
      var init := entries[..|entries| - 1];
      var last := entries[|entries| - 1];
      UpgradesFromValues(init);
      forall i | 0 <= i < |init|
        ensures UpgradesFrom(entries)[entries[i].id] == entries[i]
      {
        assert entries[i] == init[i] && entries[i].id != last.id;
      }
    }
  }

  /** `createUpgrades()` holds exactly the entries, each under its own id, none purchased, all visible. */
  lemma CreateUpgradesMatchTable()
    ensures CreateUpgrades().Keys == set i | 0 <= i < |UpgradeList| :: UpgradeList[i].id
    ensures forall i :: 0 <= i < |UpgradeList| ==> CreateUpgrades()[UpgradeList[i].id] == UpgradeList[i]
    ensures forall id :: id in CreateUpgrades() ==>
      CreateUpgrades()[id].id == id && !CreateUpgrades()[id].purchased && CreateUpgrades()[id].visible
  {
    UpgradeTableFacts();
    UpgradesFromEntries(UpgradeList);
  }

  /** The prerequisite chains: click_power_1 before click_power_2, and echo_power_1, 2, 3 in turn. */
  lemma PrerequisiteChains(upgrades: map<string, Upgrade>)
    ensures "click_power_2" in CreateUpgrades() && "echo_power_2" in CreateUpgrades() && "echo_power_3" in CreateUpgrades()
    ensures CreateUpgrades()["click_power_2"].prerequisite == RequiresPurchased("click_power_1")
    ensures CreateUpgrades()["echo_power_2"].prerequisite == RequiresPurchased("echo_power_1")
    ensures CreateUpgrades()["echo_power_3"].prerequisite == RequiresPurchased("echo_power_2")
    ensures PrerequisiteHolds(CreateUpgrades()["click_power_2"].prerequisite, upgrades) <==>
      "click_power_1" in upgrades && upgrades["click_power_1"].purchased
    ensures !PrerequisiteHolds(CreateUpgrades()["echo_power_3"].prerequisite, CreateUpgrades())
  {
    CreateUpgradesMatchTable();
    assert UpgradeList[1].id == "click_power_2";
    assert UpgradeList[8].id == "echo_power_2";
    assert UpgradeList[9].id == "echo_power_3";
  }
}
