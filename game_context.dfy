/**
 * The player actions of the game context: each is a state updater that
 * either rejects the action silently (returning the state it was given) or
 * returns the next state. A JavaScript `TypeError` raised inside an updater
 * (a read through a missing field) is the outcome `Threw`.
 */
module GameContext {
  import opened Wrappers
  import opened GameTypes
  import Numeric
  import Logic
  import Buildings
  import Upgrades
  import MetaUpgrades
  import DailyTasks
  import Helpers
  import Achievements
  import Api
  import GameLoop

  /** What an updater that may throw produces. */
  datatype Outcome = Updated(state: GameState) | Threw

  // ---------------------------------------------------------------------------
  // clickForge
  // ---------------------------------------------------------------------------

  /** The spread of a click worth `clickPower` sparks. */
  function Clicked(s: GameState, clickPower: real): GameState
  {
    s.(sparks := s.sparks + clickPower, totalSparksEarned := s.totalSparksEarned + clickPower, totalClicks := s.totalClicks + 1)
  }

  ghost function ClickForgeOf(s: GameState): GameState
  {
    Achievements.CheckAchievementsOf(Clicked(s, Logic.ClickPowerOf(s)))
  }

  /** `clickForge`. */
  method ClickForge(s: GameState) returns (r: GameState)
    ensures r == ClickForgeOf(s)
  {
    var clickPower := Logic.CalculateClickPower(s);
    r := Achievements.CheckAchievements(Clicked(s, clickPower));
  }

  /**
   * A click adds the click power to the sparks and to the sparks total and
   * counts one click; apart from the achievements and shards, nothing else
   * changes.
   */
  lemma ClickFacts(s: GameState)
    ensures var r := ClickForgeOf(s);
      && r.sparks == s.sparks + Logic.ClickPowerOf(s)
      && r.totalSparksEarned == s.totalSparksEarned + Logic.ClickPowerOf(s)
      && r.totalClicks == s.totalClicks + 1
      && r.(achievements := s.achievements, shards := s.shards, sparks := s.sparks,
            totalSparksEarned := s.totalSparksEarned, totalClicks := s.totalClicks) == s
  {
  }

  /** Without purchased upgrades and traits a click is worth one spark. */
  lemma FirstClickIsOneSpark(s: GameState)
    requires forall id :: id in s.upgrades ==> !s.upgrades[id].purchased
    requires s.activeTraits == []
    ensures ClickForgeOf(s).sparks == s.sparks + 1.0
  {
    Logic.ClickPowerBaseline(s);
  }

  // ---------------------------------------------------------------------------
  // buyBuilding
  // ---------------------------------------------------------------------------

  /** The price of the next unit after the trait modifiers. */
  function BuildingPrice(b: Building, activeTraits: seq<string>): int
  {
    Logic.AdjustedCost(Buildings.GetBuildingCost(b) as real, Logic.BuildingPurchase, activeTraits)
  }

  /** The guards of `buyBuilding`: a known building, and sparks covering both the raw and the adjusted price. */
  predicate CanBuyBuilding(s: GameState, id: string)
  {
    id in s.buildings
    && Logic.CanAffordBuilding(s.buildings[id], s)
    && s.sparks >= BuildingPrice(s.buildings[id], s.activeTraits) as real
  }

  /** The spread of a purchase: pay the adjusted price, one more unit. */
  function BoughtBuilding(s: GameState, id: string): GameState
    requires id in s.buildings
  {
    var b := s.buildings[id];
    s.(sparks := s.sparks - BuildingPrice(b, s.activeTraits) as real,
       buildings := s.buildings[id := b.(count := b.count + 1)])
  }

  ghost function BuyBuildingOf(s: GameState, id: string): GameState
  {
    if CanBuyBuilding(s, id) then Achievements.CheckAchievementsOf(BoughtBuilding(s, id)) else s
  }

  /** `buyBuilding`. */
  method BuyBuilding(s: GameState, id: string) returns (r: GameState)
    ensures r == BuyBuildingOf(s, id)
  {
    if id !in s.buildings {
      return s;
    }
    var building := s.buildings[id];
    var cost := Logic.ApplyTraitModifiersToCost(Buildings.GetBuildingCost(building) as real, Logic.BuildingPurchase, s);
    if !Logic.CanAffordBuilding(building, s) || s.sparks < cost as real {
      return s;
    }
    var newState := s.(sparks := s.sparks - cost as real, buildings := s.buildings[id := building.(count := building.count + 1)]);
    r := Achievements.CheckAchievements(newState);
  }

  /**
   * A rejected purchase changes nothing. An accepted one pays the adjusted
   * price, never going below 0 sparks, adds exactly one unit of that
   * building and changes no other field apart from the achievements and
   * shards; in particular the daily building counter is not advanced.
   */
  lemma BuyBuildingFacts(s: GameState, id: string)
    ensures !CanBuyBuilding(s, id) ==> BuyBuildingOf(s, id) == s
    ensures CanBuyBuilding(s, id) ==>
      var b := s.buildings[id];
      var r := BuyBuildingOf(s, id);
      && r.sparks == s.sparks - BuildingPrice(b, s.activeTraits) as real >= 0.0
      && r.buildings == s.buildings[id := b.(count := b.count + 1)]
      && r.buildings[id].count == b.count + 1
      && r.(achievements := s.achievements, shards := s.shards, sparks := s.sparks, buildings := s.buildings) == s
  {
  }

  /**
   * For a building with a non-negative base price and a multiplier of at
   * least 1 the adjusted price never exceeds the raw one, so the raw check
   * alone decides: the purchase goes through exactly when the sparks cover
   * the unmodified price.
   */
  lemma BuildingGuardIsRawPrice(s: GameState, id: string)
    requires id in s.buildings && s.buildings[id].baseCost >= 0.0 && s.buildings[id].costMultiplier >= 1.0
    ensures CanBuyBuilding(s, id) <==> Logic.CanAffordBuilding(s.buildings[id], s)
  {
    var b := s.buildings[id];
    Numeric.GeometricCostNonNegative(b.baseCost, b.costMultiplier, b.count);
    Logic.BuildingCostNeverRaised(Buildings.GetBuildingCost(b) as real, s.activeTraits);
  }

  // ---------------------------------------------------------------------------
  // buyUpgrade
  // ---------------------------------------------------------------------------

  /** The price of an upgrade after the trait modifiers. */
  function UpgradePrice(u: Upgrade, activeTraits: seq<string>): int
  {
    Logic.AdjustedCost(u.cost, Logic.UpgradePurchase, activeTraits)
  }

  /**
   * The guards of `buyUpgrade`: known, not yet purchased, prerequisite met,
   * and its own currency covering both the listed and the adjusted price.
   */
  predicate CanBuyUpgrade(s: GameState, id: string)
  {
    id in s.upgrades
    && !s.upgrades[id].purchased
    && Upgrades.PrerequisiteHolds(s.upgrades[id].prerequisite, s.upgrades)
    && Logic.CanAffordUpgrade(s.upgrades[id], s)
    && Balance(s, s.upgrades[id].costCurrency) >= UpgradePrice(s.upgrades[id], s.activeTraits) as real
  }

  /** `[currencyKey]: prev[currencyKey] - cost`. */
  function Pay(s: GameState, c: Currency, amount: int): GameState
  {
    match c
    case PaySparks => s.(sparks := s.sparks - amount as real)
    case PayFlux => s.(flux := s.flux - amount as real)
    case PayCivilization => s.(civilization := s.civilization - amount as real)
    case PayEchoes => s.(echoes := s.echoes - amount)
  }

  /** `buyUpgrade`. It does not re-check achievements. */
  function BuyUpgrade(s: GameState, id: string): GameState
  {
    if !CanBuyUpgrade(s, id) then s
    else
      var u := s.upgrades[id];
      Pay(s, u.costCurrency, UpgradePrice(u, s.activeTraits)).(upgrades := s.upgrades[id := u.(purchased := true)])
  }

  /** Paying takes the amount from the named balance only. */
  lemma PayFacts(s: GameState, c: Currency, amount: int)
    ensures Balance(Pay(s, c, amount), c) == Balance(s, c) - amount as real
    ensures forall c' :: c' != c ==> Balance(Pay(s, c, amount), c') == Balance(s, c')
    ensures Pay(s, c, amount).(sparks := s.sparks, flux := s.flux, civilization := s.civilization, echoes := s.echoes) == s
  {
  }

  /**
   * A rejected purchase changes nothing. An accepted one takes the adjusted
   * price from the upgrade's own currency only, leaving the other three
   * balances and every other field alone, and marks only that upgrade
   * purchased.
   */
  lemma BuyUpgradeFacts(s: GameState, id: string)
    ensures !CanBuyUpgrade(s, id) ==> BuyUpgrade(s, id) == s
    ensures CanBuyUpgrade(s, id) ==>
      var u := s.upgrades[id];
      var r := BuyUpgrade(s, id);
      && Balance(r, u.costCurrency) == Balance(s, u.costCurrency) - UpgradePrice(u, s.activeTraits) as real >= 0.0
      && (forall c :: c != u.costCurrency ==> Balance(r, c) == Balance(s, c))
      && r.upgrades == s.upgrades[id := u.(purchased := true)]
      && r.(sparks := s.sparks, flux := s.flux, civilization := s.civilization, echoes := s.echoes, upgrades := s.upgrades) == s
  {
    if CanBuyUpgrade(s, id) {
      var u := s.upgrades[id];
      var paid := Pay(s, u.costCurrency, UpgradePrice(u, s.activeTraits));
      PayFacts(s, u.costCurrency, UpgradePrice(u, s.activeTraits));
      assert forall c :: Balance(paid.(upgrades := s.upgrades[id := u.(purchased := true)]), c) == Balance(paid, c);
    }
  }

  /** An upgrade is bought at most once: after a purchase, buying it again is rejected. */
  lemma BuyUpgradeOnce(s: GameState, id: string)
    ensures !CanBuyUpgrade(BuyUpgrade(s, id), id)
  {
    if CanBuyUpgrade(s, id) {
      var u := s.upgrades[id];
      var paid := Pay(s, u.costCurrency, UpgradePrice(u, s.activeTraits));
      var r := paid.(upgrades := s.upgrades[id := u.(purchased := true)]);
      assert r.upgrades[id].purchased;
    }
  }

  /**
   * For an upgrade whose price is a whole number, traits only raise its
   * price, so the adjusted check alone decides whether the currency
   * suffices.
   */
  lemma UpgradeGuardIsAdjustedPrice(s: GameState, id: string)
    requires id in s.upgrades && s.upgrades[id].cost >= 0.0 && s.upgrades[id].cost == s.upgrades[id].cost.Floor as real
    ensures CanBuyUpgrade(s, id) <==>
      && !s.upgrades[id].purchased
      && Upgrades.PrerequisiteHolds(s.upgrades[id].prerequisite, s.upgrades)
      && Balance(s, s.upgrades[id].costCurrency) >= UpgradePrice(s.upgrades[id], s.activeTraits) as real
  {
    var u := s.upgrades[id];
    Logic.UpgradeCostNeverLowered(u.cost, s.activeTraits);
    assert u.cost <= UpgradePrice(u, s.activeTraits) as real;
  }

  // ---------------------------------------------------------------------------
  // selectTraits
  // ---------------------------------------------------------------------------

  predicate NoDuplicates(xs: seq<string>)
  {
    forall i, j :: 0 <= i < j < |xs| ==> xs[i] != xs[j]
  }

  /** The entries of `xs` in order of first appearance: `Array.from(new Set(xs))`. */
  function Dedup(xs: seq<string>): seq<string>
    decreases |xs|
  {
    if xs == [] then []
    else
      var d := Dedup(xs[..|xs| - 1]);
      if xs[|xs| - 1] in d then d else d + [xs[|xs| - 1]]
  }

  /** The result has no repeated entry and the same entries as the input, and a list without repeats is its own result. */
  lemma {:induction false} DedupFacts(xs: seq<string>)
    ensures NoDuplicates(Dedup(xs))
    ensures forall x :: x in Dedup(xs) <==> x in xs
    ensures NoDuplicates(xs) ==> Dedup(xs) == xs
    decreases |xs|
  {
    if xs != [] {
      var init := xs[..|xs| - 1];
      DedupFacts(init);
      assert forall x :: x in xs <==> x in init || x == xs[|xs| - 1];
      if NoDuplicates(xs) {
        assert NoDuplicates(init);
        assert xs[|xs| - 1] !in init;
        assert xs == init + [xs[|xs| - 1]];
      }
    }
  }

  /** Appending entries never reorders or drops the ones already seen. */
  lemma {:induction false} DedupExtends(xs: seq<string>, ys: seq<string>)
    ensures Dedup(xs) <= Dedup(xs + ys)
    decreases |ys|
  {
    if ys == [] {
      assert xs + ys == xs;
    } else {
      var init := ys[..|ys| - 1];
      DedupExtends(xs, init);
      assert (xs + ys)[..|xs + ys| - 1] == xs + init;
    }
  }

  /** The `Set` that `selectTraits` builds: the old discovered traits, then the chosen ones, without repeats. */
  method DiscoveredUnion(discovered: seq<string>, traitIds: seq<string>) returns (r: seq<string>)
    ensures r == Dedup(discovered + traitIds)
  {
    var all := discovered + traitIds;
    var seen: set<string> := {};
    r := [];
    for i := 0 to |all|
      invariant r == Dedup(all[..i])
      invariant forall x :: x in seen <==> x in r
    {
      assert all[..i + 1][..i] == all[..i];
      if all[i] !in seen {
        r := r + [all[i]];
        seen := seen + {all[i]};
      }
    }
    assert all[..|all|] == all;
  }

  ghost function SelectTraitsOf(s: GameState, traitIds: seq<string>): GameState
  {
    Achievements.CheckAchievementsOf(s.(activeTraits := traitIds, discoveredTraits := Dedup(s.discoveredTraits + traitIds)))
  }

  /** `selectTraits`. */
  method SelectTraits(s: GameState, traitIds: seq<string>) returns (r: GameState)
    ensures r == SelectTraitsOf(s, traitIds)
  {
    var discovered := DiscoveredUnion(s.discoveredTraits, traitIds);
    r := Achievements.CheckAchievements(s.(activeTraits := traitIds, discoveredTraits := discovered));
  }

  /**
   * The chosen traits become the active ones; the discovered list holds
   * each old or chosen trait once and nothing else, and it starts with the
   * old list when that had no repeats.
   */
  lemma SelectTraitsFacts(s: GameState, traitIds: seq<string>)
    ensures var r := SelectTraitsOf(s, traitIds);
      && r.activeTraits == traitIds
      && NoDuplicates(r.discoveredTraits)
      && (forall x :: x in r.discoveredTraits <==> x in s.discoveredTraits || x in traitIds)
      && (NoDuplicates(s.discoveredTraits) ==> s.discoveredTraits <= r.discoveredTraits)
  {
    DedupFacts(s.discoveredTraits + traitIds);
    DedupFacts(s.discoveredTraits);
    DedupExtends(s.discoveredTraits, traitIds);
  }

  // ---------------------------------------------------------------------------
  // buyMetaUpgrade
  // ---------------------------------------------------------------------------

  /** The purchase once the level map `levels` and the table entry `u` of `id` are known. */
  function MetaPurchase(s: GameState, levels: map<string, nat>, id: string, u: MetaUpgrades.MetaUpgrade): GameState
  {
    var currentLevel := MetaUpgrades.LevelOf(levels, id);
    var cost := MetaUpgrades.GetMetaUpgradeCost(u, currentLevel);
    if s.echoes < cost || currentLevel >= u.maxLevel then s
    else s.(echoes := s.echoes - cost, metaUpgrades := Some(levels[id := currentLevel + 1]))
  }

  /**
   * `buyMetaUpgrade`. Reading `prev.metaUpgrades[upgradeId]` throws when the
   * state has no level map; the prerequisite is not checked.
   */
  function BuyMetaUpgrade(s: GameState, id: string): Outcome
  {
    if s.metaUpgrades.None? then Threw
    else
      match MetaUpgrades.FindMetaUpgrade(id)
      case None => Updated(s)
      case Some(u) => Updated(MetaPurchase(s, s.metaUpgrades.value, id, u))
  }

  /**
   * With the entry known, the purchase goes through exactly when
   * `canAffordMetaUpgrade` holds at the current level; it then pays that
   * level's price in echoes, raises that one level by one (never past the
   * maximum) and changes nothing else.
   */
  lemma MetaPurchaseFacts(s: GameState, levels: map<string, nat>, id: string, u: MetaUpgrades.MetaUpgrade)
    requires s.metaUpgrades == Some(levels)
    ensures var level := MetaUpgrades.LevelOf(levels, id);
      var bought := MetaUpgrades.CanAffordMetaUpgrade(u, level, s.echoes);
      var r := MetaPurchase(s, levels, id, u);
      && (r == s <==> !bought)
      && (bought ==>
            && r.echoes == s.echoes - MetaUpgrades.GetMetaUpgradeCost(u, level) >= 0
            && r.metaUpgrades == Some(levels[id := level + 1])
            && MetaUpgrades.LevelOf(r.metaUpgrades.value, id) <= u.maxLevel
            && r.(echoes := s.echoes, metaUpgrades := s.metaUpgrades) == s)
  {
    var level := MetaUpgrades.LevelOf(levels, id);
    assert id in levels[id := level + 1] && levels[id := level + 1][id] == level + 1;
    assert id in levels ==> levels[id] == level;
  }

  /**
   * It throws exactly when there is no level map; an id outside the table
   * changes nothing; any other id is `MetaPurchase` on its entry.
   */
  lemma BuyMetaUpgradeFacts(s: GameState, id: string)
    ensures BuyMetaUpgrade(s, id).Threw? <==> s.metaUpgrades.None?
    ensures s.metaUpgrades.Some? && MetaUpgrades.FindMetaUpgrade(id).None? ==> BuyMetaUpgrade(s, id) == Updated(s)
    ensures s.metaUpgrades.Some? && MetaUpgrades.FindMetaUpgrade(id).Some? ==>
      BuyMetaUpgrade(s, id) == Updated(MetaPurchase(s, s.metaUpgrades.value, id, MetaUpgrades.FindMetaUpgrade(id).value))
  {
  }

  /** The prerequisite is not enforced: the locked `weird_ultimate` can be bought with no other level at all. */
  lemma BuyMetaUpgradeSkipsPrerequisite(s: GameState)
    requires s.metaUpgrades == Some(map[]) && s.echoes >= 150
    ensures MetaUpgrades.FindMetaUpgrade("weird_ultimate").Some?
    ensures !MetaUpgrades.IsMetaUpgradeUnlocked(MetaUpgrades.FindMetaUpgrade("weird_ultimate").value, map[])
    ensures BuyMetaUpgrade(s, "weird_ultimate") == Updated(s.(echoes := s.echoes - 150, metaUpgrades := Some(map["weird_ultimate" := 1])))
  {
    MetaUpgrades.FindAt(14);
    assert MetaUpgrades.MetaUpgradeList[14].id == "weird_ultimate";
    assert MetaUpgrades.GetMetaUpgradeCost(MetaUpgrades.MetaUpgradeList[14], 0) == 150;
  }

  /**
   * A meta purchase that goes through unlocks every table entry whose
   * prerequisite is the upgrade bought, and locks nothing that was unlocked.
   * Those entries sit in the bought upgrade's column at a higher tier.
   */
  lemma MetaPurchaseUnlocks(s: GameState, id: string)
    requires s.metaUpgrades.Some?
    requires BuyMetaUpgrade(s, id) != Updated(s)
    ensures MetaUpgrades.FindMetaUpgrade(id).Some?
    ensures BuyMetaUpgrade(s, id).Updated? && BuyMetaUpgrade(s, id).state.metaUpgrades.Some?
    ensures var after := BuyMetaUpgrade(s, id).state.metaUpgrades.value;
      forall u :: u in MetaUpgrades.MetaUpgradeList && u.prerequisite == Some(id) ==> MetaUpgrades.IsMetaUpgradeUnlocked(u, after)
    ensures var after := BuyMetaUpgrade(s, id).state.metaUpgrades.value;
      forall u :: u in MetaUpgrades.MetaUpgradeList && MetaUpgrades.IsMetaUpgradeUnlocked(u, s.metaUpgrades.value) ==>
        MetaUpgrades.IsMetaUpgradeUnlocked(u, after)
    ensures var bought := MetaUpgrades.FindMetaUpgrade(id).value;
      forall u :: u in MetaUpgrades.MetaUpgradeList && u.prerequisite == Some(id) ==> u.column == bought.column && bought.tier < u.tier
  {
    var levels := s.metaUpgrades.value;
    var bought := MetaUpgrades.FindMetaUpgrade(id).value;
    var after := levels[id := MetaUpgrades.LevelOf(levels, id) + 1];
    MetaPurchaseFacts(s, levels, id, bought);
    assert BuyMetaUpgrade(s, id).state.metaUpgrades.value == after;
    assert MetaUpgrades.LevelOf(after, id) > 0;
    forall k
      ensures MetaUpgrades.LevelOf(levels, k) <= MetaUpgrades.LevelOf(after, k)
    {
    }
    forall v | v in MetaUpgrades.MetaUpgradeList
      ensures MetaUpgrades.IsMetaUpgradeUnlocked(v, levels) ==> MetaUpgrades.IsMetaUpgradeUnlocked(v, after)
    {
      MetaUpgrades.UnlockMonotone(v, levels, after);
    }
    MetaUpgrades.DependentsFollow(bought);
  }

  // ---------------------------------------------------------------------------
  // claimDailyTask
  // ---------------------------------------------------------------------------

  /** `findIndex` on the task records by id: the first index with the id. */
  function FindTaskIndex(tasks: seq<TaskProgress>, taskId: string, from: nat := 0): (r: Option<nat>)
    decreases |tasks| - from
    ensures r.Some? ==>
      && from <= r.value < |tasks| && tasks[r.value].taskId == taskId
      && forall k :: from <= k < r.value ==> tasks[k].taskId != taskId
    ensures r.None? ==> forall k :: from <= k < |tasks| ==> tasks[k].taskId != taskId
  {
    if from >= |tasks| then None
    else if tasks[from].taskId == taskId then Some(from)
    else FindTaskIndex(tasks, taskId, from + 1)
  }

  /** The search only looks at the ids. */
  lemma FindTaskIndexReadsIds(tasks: seq<TaskProgress>, tasks': seq<TaskProgress>, taskId: string)
    requires |tasks| == |tasks'| && forall k :: 0 <= k < |tasks| ==> tasks[k].taskId == tasks'[k].taskId
    ensures FindTaskIndex(tasks, taskId) == FindTaskIndex(tasks', taskId)
  {
    var r := FindTaskIndex(tasks, taskId);
    var r' := FindTaskIndex(tasks', taskId);
    if r.Some? && r'.Some? {
      assert !(r.value < r'.value) && !(r'.value < r.value);
    }
  }

  /** Whether a claim goes through: a record with the id, completed, unclaimed, of a task in the table. */
  predicate Claimable(s: GameState, taskId: string)
  {
    var i := FindTaskIndex(s.dailyTasks, taskId);
    && i.Some?
    && s.dailyTasks[i.value].completed && !s.dailyTasks[i.value].claimed
    && Helpers.FindTask(DailyTasks.DailyTaskList, taskId).Some?
  }

  /** The state after a claim: the record is marked claimed and the reward of the task paid. */
  function ClaimOf(s: GameState, taskId: string): GameState
  {
    if !Claimable(s, taskId) then s
    else
      var i := FindTaskIndex(s.dailyTasks, taskId).value;
      var reward := Helpers.FindTask(DailyTasks.DailyTaskList, taskId).value.reward;
      s.(dailyTasks := s.dailyTasks[i := s.dailyTasks[i].(claimed := true)],
         echoes := s.echoes + reward.echoes.GetOr(0),
         sparks := s.sparks + reward.sparks.GetOr(0.0))
  }

  /** `claimDailyTask`: copy the state and the record list, then write the record and add the rewards. */
  method ClaimDailyTask(s: GameState, taskId: string) returns (r: GameState)
    ensures r == ClaimOf(s, taskId)
  {
    r := s;
    var taskIndex := FindTaskIndex(s.dailyTasks, taskId);
    if taskIndex.None? {
      return;
    }
    var task := s.dailyTasks[taskIndex.value];
    if !task.completed || task.claimed {
      return;
    }
    var taskDef := Helpers.FindTask(DailyTasks.DailyTaskList, taskId);
    if taskDef.None? {
      return;
    }
    r := PayReward(s.(dailyTasks := s.dailyTasks[taskIndex.value := task.(claimed := true)]), taskDef.value.reward);
  }

  /** The two `if`s that add the task's echoes and sparks when it has them. */
  method PayReward(s: GameState, reward: DailyTasks.TaskReward) returns (r: GameState)
    ensures r == s.(echoes := s.echoes + reward.echoes.GetOr(0), sparks := s.sparks + reward.sparks.GetOr(0.0))
  {
    var echoes, sparks := s.echoes, s.sparks;
    if reward.echoes.Some? {
      echoes := echoes + reward.echoes.value;
    }
    if reward.sparks.Some? {
      sparks := sparks + reward.sparks.value;
    }
    r := s.(echoes := echoes, sparks := sparks);
  }

  /**
   * A claim that is not allowed changes nothing. An allowed one marks the
   * first record with the id claimed, leaves every other record, and pays
   * the task's echoes and sparks once (the sparks total is not credited).
   * A second claim of the same task is rejected.
   */
  lemma ClaimFacts(s: GameState, taskId: string)
    ensures !Claimable(s, taskId) ==> ClaimOf(s, taskId) == s
    ensures Claimable(s, taskId) ==>
      var i := FindTaskIndex(s.dailyTasks, taskId).value;
      var reward := Helpers.FindTask(DailyTasks.DailyTaskList, taskId).value.reward;
      var r := ClaimOf(s, taskId);
      && |r.dailyTasks| == |s.dailyTasks|
      && r.dailyTasks[i] == s.dailyTasks[i].(claimed := true)
      && (forall k :: 0 <= k < |s.dailyTasks| && k != i ==> r.dailyTasks[k] == s.dailyTasks[k])
      && r.echoes == s.echoes + reward.echoes.GetOr(0)
      && r.sparks == s.sparks + reward.sparks.GetOr(0.0)
      && r.(dailyTasks := s.dailyTasks, echoes := s.echoes, sparks := s.sparks) == s
    ensures !Claimable(ClaimOf(s, taskId), taskId)
  {
    if Claimable(s, taskId) {
      var r := ClaimOf(s, taskId);
      FindTaskIndexReadsIds(s.dailyTasks, r.dailyTasks, taskId);
    }
  }

  /** Claiming the building task pays 2 echoes and 500 sparks. */
  lemma ClaimBuildingTaskReward(s: GameState)
    requires Claimable(s, "buy_buildings")
    ensures ClaimOf(s, "buy_buildings").echoes == s.echoes + 2
    ensures ClaimOf(s, "buy_buildings").sparks == s.sparks + 500.0
  {
    assert Helpers.FindTask(DailyTasks.DailyTaskList, "buy_buildings") == Some(DailyTasks.DailyTaskList[4]);
  }

  // ---------------------------------------------------------------------------
  // The tutorial and the offline-gains flag
  // ---------------------------------------------------------------------------

  /** `completeTutorialStep`: spreading a missing step list throws. */
  function CompleteTutorialStep(s: GameState, step: string): Outcome
  {
    if s.tutorial.None? || s.tutorial.value.completedSteps.None? then Threw
    else
      var t := s.tutorial.value;
      Updated(s.(tutorial := Some(t.(completedSteps := Some(t.completedSteps.value + [step]), currentStep := None))))
  }

  /** `dismissTutorial`: spreading a missing tutorial gives an empty record. */
  function DismissTutorial(s: GameState): GameState
  {
    var t := s.tutorial.GetOr(Tutorial(None, None, None));
    s.(tutorial := Some(t.(dismissed := Some(true), currentStep := None)))
  }

  /** `claimOfflineGains`: only the flag; the gains themselves are not credited here. */
  function ClaimOfflineGains(s: GameState): GameState
  {
    s.(offlineGainsClaimed := Some(true))
  }

  /**
   * Completing a step throws without a step list; otherwise it appends the
   * step, clears the current step and keeps the rest of the tutorial and the
   * state.
   */
  lemma CompleteTutorialStepFacts(s: GameState, step: string)
    ensures CompleteTutorialStep(s, step).Threw? <==> s.tutorial.None? || s.tutorial.value.completedSteps.None?
    ensures CompleteTutorialStep(s, step).Updated? ==>
      var t := CompleteTutorialStep(s, step).state.tutorial;
      && t.Some? && t.value.completedSteps.Some?
      && t.value.completedSteps.value == s.tutorial.value.completedSteps.value + [step]
      && t.value.currentStep.None? && t.value.dismissed == s.tutorial.value.dismissed
      && CompleteTutorialStep(s, step).state.(tutorial := s.tutorial) == s
  {
  }

  /**
   * Dismissing sets the flag and clears the current step; a second dismissal
   * changes nothing; the completed steps are kept; and claiming the offline
   * gains touches only its flag, also idempotently.
   */
  lemma FlagFacts(s: GameState)
    ensures DismissTutorial(s).tutorial.Some? && DismissTutorial(s).tutorial.value.dismissed == Some(true)
    ensures DismissTutorial(s).tutorial.value.currentStep.None?
    ensures s.tutorial.Some? ==> DismissTutorial(s).tutorial.value.completedSteps == s.tutorial.value.completedSteps
    ensures DismissTutorial(DismissTutorial(s)) == DismissTutorial(s)
    ensures DismissTutorial(s).(tutorial := s.tutorial) == s
    ensures ClaimOfflineGains(s).offlineGainsClaimed == Some(true)
    ensures ClaimOfflineGains(ClaimOfflineGains(s)) == ClaimOfflineGains(s)
    ensures ClaimOfflineGains(s).(offlineGainsClaimed := s.offlineGainsClaimed) == s
  {
  }

  // ---------------------------------------------------------------------------
  // collapseUniverse
  // ---------------------------------------------------------------------------

  ghost function CollapseStepOf(s: GameState, now: int): GameState
    requires s.totalFluxEarned >= 0.0 && s.civilization >= 0.0
  {
    Achievements.CheckAchievementsOf(Api.CollapseOf(s, now))
  }

  /** The context's `collapseUniverse`: build the next run, then check the achievements. */
  method Collapse(s: GameState, now: int) returns (r: GameState)
    requires s.totalFluxEarned >= 0.0 && s.civilization >= 0.0
    ensures r == CollapseStepOf(s, now)
  {
    var newState := Api.CollapseUniverse(s, now);
    r := Achievements.CheckAchievements(newState);
  }

  /** The achievement check after a collapse touches only the achievements and shards of the next run. */
  lemma CollapseStepFacts(s: GameState, now: int)
    requires s.totalFluxEarned >= 0.0 && s.civilization >= 0.0
    ensures var c := Api.CollapseOf(s, now);
      var r := CollapseStepOf(s, now);
      && r.(achievements := c.achievements, shards := c.shards) == c
      && r.achievements.Keys == s.achievements.Keys
      && r.echoes == s.echoes + Logic.EchoesFromRun(s)
      && r.runNumber == s.runNumber + 1
  {
    Api.CollapseFields(s, now);
  }

  // ---------------------------------------------------------------------------
  // The daily counters
  // ---------------------------------------------------------------------------

  /** The daily collapse, rare-trait and building counters are missing or 0. */
  predicate CountersIdle(s: GameState)
  {
    s.dailyCollapses.GetOr(0) == 0 && s.dailyRareTraitRuns.GetOr(0) == 0 && s.dailyBuildingsPurchased.GetOr(0) == 0
  }

  /** The actions followed by the achievement check keep the three daily counters idle. */
  lemma CheckedActionsKeepCountersIdle(s: GameState, id: string, traitIds: seq<string>, now: int)
    requires CountersIdle(s)
    ensures CountersIdle(ClickForgeOf(s)) && CountersIdle(BuyBuildingOf(s, id)) && CountersIdle(SelectTraitsOf(s, traitIds))
    ensures s.totalFluxEarned >= 0.0 && s.civilization >= 0.0 ==> CountersIdle(CollapseStepOf(s, now))
  {
    if s.totalFluxEarned >= 0.0 && s.civilization >= 0.0 {
      Api.CollapseFields(s, now);
      Logic.InitialStateFacts(now, s.achievements);
    }
  }

  /** The other actions keep them idle as well: no player action advances a daily counter. */
  lemma OtherActionsKeepCountersIdle(s: GameState, id: string, step: string)
    requires CountersIdle(s)
    ensures CountersIdle(BuyUpgrade(s, id)) && CountersIdle(ClaimOf(s, id))
    ensures BuyMetaUpgrade(s, id).Updated? ==> CountersIdle(BuyMetaUpgrade(s, id).state)
    ensures CompleteTutorialStep(s, step).Updated? ==> CountersIdle(CompleteTutorialStep(s, step).state)
    ensures CountersIdle(DismissTutorial(s)) && CountersIdle(ClaimOfflineGains(s))
  {
    BuyUpgradeFacts(s, id);
  }

  /** Nor does a tick: the daily reset writes 0 and nothing else writes them. */
  lemma TickKeepsCountersIdle(s: GameState, p: Logic.Production, b: Helpers.MetaBonuses, delta: real, found: bool, now: int, shuffle: seq<nat>)
    requires CountersIdle(s) && DailyTasks.IsShuffle(shuffle)
    ensures CountersIdle(GameLoop.TickWith(s, p, b, delta, found, now, shuffle))
  {
    var staged := GameLoop.StageUpdated(GameLoop.Advanced(s, p, delta, if found then 1 else 0, now), b);
    StagedKeepsCounters(s, p, b, delta, if found then 1 else 0, now);
    ResetKeepsCountersIdle(staged, now, shuffle);
    var progressed := Helpers.UpdateDailyTaskProgress(Helpers.InitializeDailyTasks(staged, now, shuffle), shuffle);
    ProgressKeepsCounters(Helpers.InitializeDailyTasks(staged, now, shuffle), shuffle);
    CheckKeepsCounters(progressed);
  }

  lemma StagedKeepsCounters(s: GameState, p: Logic.Production, b: Helpers.MetaBonuses, delta: real, anomaliesGained: int, now: int)
    ensures CountersIdle(GameLoop.StageUpdated(GameLoop.Advanced(s, p, delta, anomaliesGained, now), b)) == CountersIdle(s)
  {
  }

  lemma ResetKeepsCountersIdle(s: GameState, now: int, shuffle: seq<nat>)
    requires CountersIdle(s) && DailyTasks.IsShuffle(shuffle)
    ensures CountersIdle(Helpers.InitializeDailyTasks(s, now, shuffle))
  {
    Helpers.InitializeDailyTasksFacts(s, now, shuffle);
  }

  lemma ProgressKeepsCounters(s: GameState, shuffle: seq<nat>)
    requires DailyTasks.IsShuffle(shuffle)
    ensures CountersIdle(Helpers.UpdateDailyTaskProgress(s, shuffle)) == CountersIdle(s)
  {
  }

  lemma CheckKeepsCounters(s: GameState)
    ensures CountersIdle(Achievements.CheckAchievementsOf(s)) == CountersIdle(s)
  {
  }

  /**
   * While the counters are idle, only the sparks task of the table can be
   * complete: the collapse, rare-trait, stage and building tasks all read
   * a progress below their target.
   */
  lemma OnlySparksTaskCompletes(s: GameState, k: nat)
    requires CountersIdle(s) && k < |DailyTasks.DailyTaskList|
    requires DailyTasks.DailyTaskList[k].source != DailyTasks.SparksEarned
    ensures !DailyTasks.IsDailyTaskComplete(DailyTasks.DailyTaskList[k], DailyTasks.CheckProgress(DailyTasks.DailyTaskList[k], s))
  {
    DailyTasks.TaskTableFacts();
  }
}
