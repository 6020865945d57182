# TimeForge: the progression and economy engine in Dafny

This project models the rules of the TimeForge idle game that turn one game
state into numbers or into the next game state. It covers:

- the content tables: buildings, one-run upgrades, meta (permanent)
  upgrades, universe stages, universe traits and daily tasks;
- the economy: click power, building production, trait-adjusted prices,
  bulk and max buying, the echo payout, achievements, the meta-upgrade
  bonus record, stage bonuses, offline gains, stage from flux, and the
  reset and progress rules of the daily tasks;
- the tick of the game loop, as a class holding the loop's `lastTick` and
  `anomalyTimer` together with the game state;
- the player actions of the game context: click, buying a building, an
  upgrade or a meta upgrade, choosing traits, claiming a daily task, the
  tutorial and offline-gains flags, and the collapse (prestige) that starts
  the next run.

Overview of the representation:

- The game state is one datatype (`GameTypes.GameState`). Buildings,
  upgrades, achievements and meta-upgrade levels are maps.
- JavaScript numbers are `real`. Counts, levels and echoes are integers.
  Times are integers in milliseconds since the epoch.
- The clock, the random draws and the roll of the anomaly check are
  parameters:
  - a sequence of pool indices for `getRandomTraits`;
  - a permutation (`shuffle`) for `getRandomDailyTasks`;
  - a number in `[0, 1)` for the anomaly roll.
- An updater that would throw a `TypeError` returns
  `GameContext.Outcome.Threw`.
- Each step that the source writes as a loop or a sequence of assignments is
  a `method`. It is proved equal to a specification function, and the
  source's promises are proved about that function as lemmas.

The model follows the code where it departs from what a reader might
expect. These behaviours are stated as lemmas:

- The meta-upgrade bonuses and the stage bonuses are not used by click power,
  production, prices, affordability or the echo payout
  (`Logic.ProductionIgnoresMetaAndStage`, `Logic.PricesIgnoreMetaAndStage`).
  The only bonus that is used is `stageProgressMultiplier`, in the stage
  promotion on each tick (`Helpers.StageReachedIndex`, `GameLoop.UpdateStage`).
- A collapse does not carry the meta-upgrade levels. The next run has none,
  so its bonuses are the defaults (`Api.CollapseForgetsMetaBonuses`).
- `canAffordBuilding` checks the unmodified price (`GameContext.BuildingGuardIsRawPrice`).
- `calculateMaxBuy` can return 1001 units (`Purchase.MaxBuyFacts`).
- `calculateMultiBuyCost` with a fractional amount returns that amount as the
  count but charges for every unit its loop starts (`Purchase.FractionalAmountRuns`).
- The `reach_stage` task reads a field the game state never has, so it
  never completes (`DailyTasks.ReachStageNeverCompletes`).
- No action and no tick ever raises the daily collapse, rare-trait or
  building counters. While they are idle, only the sparks task can be
  completed (`GameContext.OnlySparksTaskCompletes`).
- `buyMetaUpgrade` does not check the prerequisite (`GameContext.BuyMetaUpgradeSkipsPrerequisite`).

Files and modules:

- `wrappers.dfy`: `Option`.
- `numeric.dfy`: powers, floor and integer square root, and folds over sets.
- `game_types.dfy`: the entities of `src/types/game.ts`.
- `buildings.dfy`, `upgrades.dfy`, `meta_upgrades.dfy`, `stages.dfy`,
  `daily_tasks.dfy` and `traits.dfy`: the content files.
- `logic.dfy`, `achievements.dfy`, `helpers.dfy` and `purchase.dfy`: the economy.
- `game_loop.dfy`: the tick.
- `game_context.dfy`: the player actions.
- `api.dfy`: the state construction of the collapse.

## Model

| member | source | states |
|---|---|---|
| GameTypes.MultiplierOrOne | src/game/logic.ts:54-58 | The factor applied is never 0. A missing or zero multiplier counts as 1, and any other value is used as it is. |
| Buildings.CreateBuildings | src/game/buildings.ts:66-77 | The loop over the definition entries builds exactly `FreshBuildings()`. |
| Buildings.DefinitionTableFacts | src/game/buildings.ts:3-64 | Each key equals its building's id, every cost multiplier is 1.15, every unlock threshold is non-negative, and the keys are distinct. |
| Buildings.BuildingsFromEntries | src/game/buildings.ts:66-77 | Assigning each entry in turn gives exactly the entries' keys, each holding its definition with count 0. |
| Buildings.FreshBuildingsMatchTable | src/game/buildings.ts:66-77 | `createBuildings` has exactly the table's keys, each at count 0, with its id and every other field copied from the definition. |
| Buildings.BuildingCostMonotone | src/game/buildings.ts:79-81 | For a non-negative base cost and a multiplier of at least 1, the price is non-negative and never falls as the count rises. |
| Buildings.FoundryPrices | src/game/buildings.ts:4-13 | The first foundry costs 10 sparks and the second costs 11. |
| Buildings.GetBuildingCost | src/game/buildings.ts:79-81 | No contract of its own. `Buildings.BuildingCostMonotone` and `Buildings.FoundryPrices` state that the price is non-negative, never falls as the count rises, and is 10 then 11 for the first foundries. |
| Buildings.ProductionScalesWithCount | src/game/buildings.ts:83-85 | Raw production is 0 with no units, non-negative for a non-negative rate, and each further unit adds `baseRate`. |
| Buildings.GetBuildingProduction | src/game/buildings.ts:83-85 | No contract of its own. `Buildings.ProductionScalesWithCount` states that it is 0 with no units and grows by `baseRate` per unit. |
| Upgrades.UpgradeTableFacts | src/game/upgrades.ts:3-158 | The table has ten distinct ids and positive prices. Entries start unpurchased and visible. Building-target upgrades name a defined building, and echo-priced upgrades are global multipliers above 1. |
| Upgrades.UpgradesFromEntries | src/game/upgrades.ts:3-158 | A dictionary built from entries with distinct ids has exactly those ids as keys, each holding its own entry. |
| Upgrades.CreateUpgradesMatchTable | src/game/upgrades.ts:3-158 | `createUpgrades` holds exactly the table entries under their ids, none purchased and all visible. |
| Upgrades.CreateUpgrades | src/game/upgrades.ts:3-158 | No contract of its own. `Upgrades.CreateUpgradesMatchTable` states that it holds exactly the table entries under their ids, none purchased. |
| Upgrades.PrerequisiteChains | src/game/upgrades.ts:32-34 | click_power_2 requires click_power_1, echo_power_2 requires echo_power_1, and echo_power_3 requires echo_power_2. click_power_2's prerequisite holds iff click_power_1 is purchased, and echo_power_3's fails on a fresh table. |
| MetaUpgrades.FindMetaUpgrade | src/game/content/metaUpgrades.ts:22-224 | A lookup that succeeds returns a table entry with the id asked for. A failed lookup means no entry has that id. |
| MetaUpgrades.GetMetaUpgradeCost | src/game/content/metaUpgrades.ts:226-228 | No contract of its own. `MetaUpgrades.MetaCostMonotone` states that the price is positive and never falls as the level rises. |
| MetaUpgrades.CanAffordMetaUpgrade | src/game/content/metaUpgrades.ts:230-233 | No contract of its own. `MetaUpgrades.AffordabilityMonotone` states that more echoes or a lower level never make an entry unaffordable. `GameContext.MetaPurchaseFacts` states that a purchase goes through exactly when it holds. |
| MetaUpgrades.IsMetaUpgradeUnlocked | src/game/content/metaUpgrades.ts:235-238 | No contract of its own. `MetaUpgrades.UnlockMonotone` states that raising levels never locks an entry. `GameContext.MetaPurchaseUnlocks` states that buying an upgrade unlocks the entries that require it. |
| MetaUpgrades.AffordabilityMonotone | src/game/content/metaUpgrades.ts:226-233 | For a table entry, affordable at a level with some echoes means affordable at any lower level with at least as many echoes. An affordable level costs at least one echo and at most the echoes held. |
| MetaUpgrades.UnlockMonotone | src/game/content/metaUpgrades.ts:235-238 | If no level falls, no unlocked entry becomes locked. |
| MetaUpgrades.TableWellFormed | src/game/content/metaUpgrades.ts:22-224 | Fifteen entries with unique ids. Each has a maximum level of at least 1, at least one effect, positive per-level values and a positive base price with a multiplier of at least 1. |
| MetaUpgrades.PrerequisitesPointBackwards | src/game/content/metaUpgrades.ts:87 | Every prerequisite names an entry of the table in the same column with a lower tier. |
| MetaUpgrades.DependentsFollow | src/game/content/metaUpgrades.ts:22-224 | Every entry that requires a given table entry sits in that entry's column at a higher tier. |
| MetaUpgrades.FindMatchesIds | src/game/content/metaUpgrades.ts:22-224 | A lookup succeeds exactly for the ids of the table. |
| MetaUpgrades.FindAt | src/game/content/metaUpgrades.ts:22-224 | Looking up an entry's id finds that entry. |
| MetaUpgrades.MetaCostMonotone | src/game/content/metaUpgrades.ts:226-228 | The price of the next level is positive and never falls as the level rises. |
| Stages.FindStage | src/game/content/stages.ts:10-78 | The one search of the stage table, by id (`UNIVERSE_STAGES[id]`) or by order (`STAGE_ORDER.find`). A lookup that succeeds returns a table stage that matches the key. A failed lookup means no stage matches it. |
| Stages.ScanDown | src/game/content/stages.ts:63-70 | The descending scan ends at a valid stage index. |
| Stages.CurrentStageIndex | src/game/content/stages.ts:63-70 | The stage `getCurrentStage` picks is a valid index of the stage order. |
| Stages.GetCurrentStage | src/game/content/stages.ts:63-70 | The loop returns the stage at `CurrentStageIndex`. |
| Stages.GetNextStage | src/game/content/stages.ts:72-78 | No contract of its own. `Stages.NextStageIsFollowing` and `Stages.UnknownStage` state that it is the stage with the next order, and none after the last stage or for an unknown id. |
| Stages.IsStageUnlocked | src/game/content/stages.ts:80-83 | No contract of its own. `Stages.UnlockedIffReached` and `Stages.UnknownStage` state that a stage is unlocked iff it is at or before the current stage, and an unknown id never is. |
| Stages.StageTableFacts | src/game/content/stages.ts:10-61 | Six stages with orders 0 to 5 in sequence, and thresholds rising strictly from 0. Ids are unique. |
| Stages.FindStageAt | src/game/content/stages.ts:10-61 | Looking up a stage's id finds that stage. |
| Stages.ScanDownIsHighestReached | src/game/content/stages.ts:63-70 | The scan from index `i` returns the highest stage below `i` whose threshold the flux reaches, or the first stage. |
| Stages.CurrentStageIsHighestReached | src/game/content/stages.ts:63-70 | For non-negative flux, the current stage's threshold is reached and every later stage's threshold is not. |
| Stages.CurrentStageMonotone | src/game/content/stages.ts:63-70 | More flux never gives an earlier stage. |
| Stages.UnlockedIffReached | src/game/content/stages.ts:80-83 | For non-negative flux, a stage is unlocked iff it is at or before the current stage, so the current stage itself is unlocked. |
| Stages.UnknownStage | src/game/content/stages.ts:72-83 | An unknown id is never unlocked and has no next stage. |
| Stages.NextStageIsFollowing | src/game/content/stages.ts:72-78 | Each stage except the last is followed by the stage with the next order. The last stage has no next stage. |
| DailyTasks.TaskTableFacts | src/game/content/dailyTasks.ts:14-58 | Five tasks with distinct ids and positive targets. |
| DailyTasks.CheckProgress | src/game/content/dailyTasks.ts:14-58 | No contract of its own. `DailyTasks.ProgressReadsOnlyCounters` and `DailyTasks.ReachStageNeverCompletes` state what each task reads, with missing counters as 0. |
| DailyTasks.ReachStageNeverCompletes | src/game/content/dailyTasks.ts:45-48 | The stage task's progress is always 0, so it never completes. |
| DailyTasks.ProgressReadsOnlyCounters | src/game/content/dailyTasks.ts:14-58 | A task's progress depends only on the sparks total and the daily counters, with missing counters as 0. It is non-negative when those are. |
| DailyTasks.CompletionMonotone | src/game/content/dailyTasks.ts:65-67 | Completion needs progress at least the target, so more progress never undoes it. |
| DailyTasks.IsDailyTaskComplete | src/game/content/dailyTasks.ts:65-67 | No contract of its own. `DailyTasks.CompletionMonotone` states that more progress never undoes completion. |
| DailyTasks.GetRandomDailyTasks | src/game/content/dailyTasks.ts:60-63 | No contract of its own. `DailyTasks.RandomTasksFacts` states that the draw has min(count, 5) distinct table tasks. |
| DailyTasks.ShouldResetDailyTasks | src/game/content/dailyTasks.ts:69-80 | No contract of its own. `DailyTasks.ResetIffLaterDay` and `DailyTasks.ResetTiming` state that a reset is due iff `now` is on a later UTC day. |
| DailyTasks.RandomTasksFacts | src/game/content/dailyTasks.ts:60-63 | A draw of `count` tasks has min(count, 5) tasks, all from the table and none twice. Drawing five or more gives every task. |
| DailyTasks.ResetIffLaterDay | src/game/content/dailyTasks.ts:69-80 | A reset is due iff `now` is on a later UTC day than the last reset. |
| DailyTasks.ResetTiming | src/game/content/dailyTasks.ts:69-80 | A reset is never due on the same UTC day and always due a full day later. Once due, it stays due. |
| Traits.FindInFacts | src/game/traits.ts:3-118 | The table lookup finds an entry with the id asked for, and fails only when no entry has it. |
| Traits.FindTraitFacts | src/game/traits.ts:3-118 | The same, for `TRAITS[id]`. |
| Traits.BuildWeightedPool | src/game/traits.ts:122-136 | The nested loops build the pool in which each trait id appears its rarity weight times, in table order. |
| Traits.WeightedPool | src/game/traits.ts:122-136 | No contract of its own. It specifies `Traits.BuildWeightedPool`. `Traits.PoolLength`, `Traits.PoolCounts` and `Traits.PoolEntriesAreTraits` state its length and contents. |
| Traits.GetRandomTraits | src/game/traits.ts:120-152 | The selection loop keeps each drawn id not yet kept, until min(count, 10) are kept or the draws run out. |
| Traits.DistinctPrefix | src/game/traits.ts:138-149 | No contract of its own. It specifies `Traits.GetRandomTraits`. `Traits.DistinctPrefixFacts` and `Traits.DistinctPrefixFull` state what it keeps. |
| Traits.DistinctPrefixFacts | src/game/traits.ts:138-149 | The kept ids have no duplicates, number at most the limit, and were all drawn. Every drawn id is kept unless the limit was reached. |
| Traits.DistinctPrefixFull | src/game/traits.ts:138-149 | Once the limit is reached, later draws change nothing. |
| Traits.PoolLength | src/game/traits.ts:3-136 | With three common, three uncommon, two rare and two mythic traits the pool has 280 entries. |
| Traits.PoolCounts | src/game/traits.ts:122-136 | The pool holds each trait exactly its rarity weight times (50, 30, 15 or 5). |
| Traits.PoolEntriesAreTraits | src/game/traits.ts:129-136 | Every pool entry is a trait id. |
| Traits.TraitTableFacts | src/game/traits.ts:3-118 | Ten traits with distinct ids, every numeric modifier positive. |
| Traits.RandomTraitsFacts | src/game/traits.ts:120-152 | `getRandomTraits` returns no trait twice, at most `count` and at most ten traits, each a key of the trait table. |
| Logic.InitialStateFacts | src/game/logic.ts:7-39 | A new run owns nothing and has bought nothing: zero resources, run number and clicks, every building of the table at count 0, all upgrades unpurchased, no traits, no meta levels, and the achievement table given. |
| Logic.CreateInitialState | src/game/logic.ts:7-39 | No contract of its own. `Logic.InitialStateFacts` states every field of the new run. |
| Logic.LookUpTraits | src/game/logic.ts:47-60 | One lookup per active trait id, in order: entry `i` is `TRAITS[ids[i]]`, or none for an unknown id. |
| Logic.CalculateClickPower | src/game/logic.ts:41-62 | The two loops compute 1 times every purchased sparks multiplier times every active trait's click multiplier. |
| Logic.ClickPowerOf | src/game/logic.ts:41-62 | No contract of its own. It specifies `Logic.CalculateClickPower`. `Logic.ClickPowerBaseline` and `Logic.PurchaseScalesClickPower` state its base value and how a purchase scales it. |
| Logic.ClickPowerBaseline | src/game/logic.ts:41-62 | With no purchased upgrade and no active trait, click power is exactly 1. |
| Logic.PurchaseScalesClickPower | src/game/logic.ts:41-62 | Buying a sparks multiplier multiplies click power by its value. Buying any other upgrade leaves click power as it is. |
| Logic.CalculateBuildingProduction | src/game/logic.ts:64-114 | The loops compute the raw rate times the building upgrades, trait building factors, trait resource factors, and resource or global upgrades. |
| Logic.BuildingProductionOf | src/game/logic.ts:64-114 | No contract of its own. It specifies `Logic.CalculateBuildingProduction`. `Logic.ProductionIsRawTimesMultiplier`, `Logic.ProductionLinearInCount` and `Logic.BuildingProductionNonNegative` state its shape and sign. |
| Logic.ProductionIsRawTimesMultiplier | src/game/logic.ts:64-114 | Production is the raw rate times a multiplier that depends only on the building's id and resource. |
| Logic.ProductionLinearInCount | src/game/logic.ts:64-114 | Production is 0 with no units, and each further unit adds the same amount. |
| Logic.GetTotalProduction | src/game/logic.ts:116-133 | The loop sums each building's production into the flux or the civilization bucket. |
| Logic.TotalProductionOf | src/game/logic.ts:116-133 | No contract of its own. It specifies `Logic.GetTotalProduction`. `Logic.NoBuildingsNoProduction` and `Logic.ProductionNonNegative` state its base case and sign. |
| Logic.CanAffordUpgrade | src/game/logic.ts:135-138 | No contract of its own. `GameContext.BuyUpgradeFacts` and `Logic.PricesIgnoreMetaAndStage` state how the purchase uses it and that it reads only the named currency and the price. |
| Logic.CanAffordBuilding | src/game/logic.ts:140-143 | No contract of its own. `GameContext.BuildingGuardIsRawPrice` states that it compares the sparks with the unmodified price. |
| Logic.NoBuildingsNoProduction | src/game/logic.ts:116-133 | With no units anywhere, both totals are 0. |
| Logic.BuildingProductionNonNegative | src/game/logic.ts:64-114 | A non-negative rate and multiplier give non-negative production. |
| Logic.ProductionNonNegative | src/game/logic.ts:116-133 | Non-negative rates and multipliers give non-negative totals. |
| Logic.ApplyTraitModifiersToCost | src/game/logic.ts:145-163 | The loop computes the floor of the base price times only the matching kind's trait multipliers. |
| Logic.AdjustedCost | src/game/logic.ts:145-163 | No contract of its own. It specifies `Logic.ApplyTraitModifiersToCost`. `Logic.AdjustedCostWithoutTraits`, `Logic.BuildingCostNeverRaised` and `Logic.UpgradeCostNeverLowered` bound it. |
| Logic.TraitCostFactorBounds | src/game/traits.ts:3-118 | Trait price factors are between 0 and 1 for buildings and at least 1 for upgrades. |
| Logic.AdjustedCostWithoutTraits | src/game/logic.ts:145-163 | With no traits the price is the base price rounded down. |
| Logic.BuildingCostNeverRaised | src/game/logic.ts:145-163 | Traits never raise a building's price, which stays non-negative. |
| Logic.UpgradeCostNeverLowered | src/game/logic.ts:145-163 | Traits never lower an upgrade's price. |
| Logic.EchoesFromRun | src/game/logic.ts:165-175 | No contract of its own. `Logic.EchoesMonotone` and `Logic.EchoesExample` state that it pays at least 1, never less for more progress, and 13 in a worked case. |
| Logic.EchoesMonotone | src/game/logic.ts:165-175 | A collapse pays at least one echo. More flux, civilization or run time never pays fewer. |
| Logic.EchoesExample | src/game/logic.ts:165-175 | 10000 flux, 400 civilization and 120 seconds pay 13 echoes. |
| Logic.ProductionIgnoresMetaAndStage | src/game/logic.ts:41-133 | Click power, building production and total production do not depend on the meta levels or the stage. |
| Logic.PricesIgnoreMetaAndStage | src/game/logic.ts:135-175 | Affordability, trait-adjusted prices and the echo payout do not depend on the meta levels or the stage. |
| Achievements.SumBuildingCounts | src/game/logic.ts:192-196 | The reduction over the buildings computes the total number of units. |
| Achievements.TotalBuildingCount | src/game/logic.ts:192-196 | No contract of its own. It specifies `Achievements.SumBuildingCounts`, which proves the loop equal to it. |
| Achievements.EvaluateAchievement | src/game/logic.ts:181-228 | One pass evaluates an achievement against its counter. It reports whether the achievement unlocks now. |
| Achievements.EvaluateAll | src/game/logic.ts:181-229 | The loop over the achievement ids yields the evaluated map, the old shards plus the rewards of the achievements that unlock now, and a flag that, when false, means no shard was paid. |
| Achievements.CheckAchievements | src/game/logic.ts:177-233 | The loop over the achievement ids computes `CheckAchievementsOf`. |
| Achievements.CheckAchievementsOf | src/game/logic.ts:177-233 | No contract of its own. It specifies `Achievements.CheckAchievements`. `Achievements.CheckAchievementsFacts`, `Achievements.CheckAchievementsFrame` and `Achievements.CheckAchievementsIdempotent` state what it changes. |
| Achievements.CheckAchievementsFacts | src/game/logic.ts:177-233 | The ids are kept and an unlocked achievement never changes. A locked one unlocks iff its counter reaches its target, and on unlocking its progress becomes the counter. Target and reward never change. |
| Achievements.CheckAchievementsFrame | src/game/logic.ts:177-233 | Only the achievements and the shards change. With non-negative rewards the shards never fall, and they stay the same when nothing unlocks. |
| Achievements.EvaluatedIdempotent | src/game/logic.ts:181-228 | Evaluating twice at the same progress is evaluating once, and does not unlock again. |
| Achievements.CheckAchievementsIdempotent | src/game/logic.ts:177-233 | A second check right after the first changes nothing, so no reward is paid twice. |
| Helpers.ApplyEffectFields | src/game/helpers.ts:43-90 | One effect multiplies its field by `valuePerLevel^level` or adds `valuePerLevel*level`, depending on the key, and leaves the other fields alone. |
| Helpers.ApplyEffect | src/game/helpers.ts:43-90 | No contract of its own. `Helpers.ApplyEffectFields` states which field each key changes and how. |
| Helpers.ApplyEffects | src/game/helpers.ts:43-91 | The inner loop applies an upgrade's effects in order, combining each field with their total. |
| Helpers.ApplyMetaUpgrades | src/game/helpers.ts:6-95 | The loops compute `MetaBonusesOf` of the state's levels, a missing level map counting as empty. |
| Helpers.MetaBonusesOf | src/game/helpers.ts:6-95 | No contract of its own. It specifies `Helpers.ApplyMetaUpgrades`. `Helpers.MetaBonusesOfFields`, `Helpers.NoLevelsGiveDefaults` and `Helpers.MetaBonusesInRange` state its fields, defaults and bounds. |
| Helpers.MetaBonusesOfFields | src/game/helpers.ts:22-92 | Each field of the result is its start value combined with every upgrade's contribution. |
| Helpers.NoLevelsGiveDefaults | src/game/helpers.ts:22-41 | Levels that are all 0 give the starting values: multipliers 1, 8 offline hours, 2 trait choices, no anomaly chance and no starting sparks. |
| Helpers.NoMetaUpgradesGiveDefaults | src/game/helpers.ts:22-39 | A state without meta upgrades gets the starting values. |
| Helpers.SpecialUpgradesInert | src/game/helpers.ts:47-90 | The effects of weird_speed_1 and weird_ultimate have keys the switch ignores. |
| Helpers.InertEntry | src/game/helpers.ts:40-41 | Adding a level 0, unknown or ignored-effect upgrade leaves the result unchanged. |
| Helpers.PowerClickExample | src/game/helpers.ts:44-50 | Two levels of power_click_1 give a click multiplier of 2.25 and change nothing else. |
| Helpers.TableEffectsInRange | src/game/content/metaUpgrades.ts:22-224 | Every per-level value in the table is in the range its key allows. |
| Helpers.FinalFieldBounds | src/game/helpers.ts:22-92 | The cost multiplier stays in (0, 1]. Additive fields never drop below their start value. Every other multiplier stays at least 1. |
| Helpers.MetaBonusesInRange | src/game/helpers.ts:6-95 | Whatever the levels, the bonus record stays within those bounds. |
| Helpers.ApplyStageMultipliers | src/game/helpers.ts:97-119 | An unknown stage gives all multipliers 1. |
| Helpers.StageMultiplierBounds | src/game/helpers.ts:97-119 | Flux, civilization and echo bonuses are at least 1, and the cost multiplier is in (0, 1]. |
| Helpers.StageMultipliersAt | src/game/helpers.ts:103-118 | At a given stage the multipliers are that stage's bonuses, with 1 for each missing key. |
| Helpers.StageCostAndEchoBonuses | src/game/content/stages.ts:10-59 | Only planetfall changes the building cost, by 5%, and only ascension changes echoes, by 20%. |
| Helpers.OfflineRates | src/game/helpers.ts:139-149 | The loop sums the raw rate times count of the flux and the civilization buildings. |
| Helpers.CalculateOfflineGains | src/game/helpers.ts:121-162 | The method computes `OfflineGainsWith` the state's meta bonuses. |
| Helpers.OfflineGainsWith | src/game/helpers.ts:121-162 | No contract of its own. It specifies `Helpers.CalculateOfflineGains`. `Helpers.OfflineGainsNonNegative`, `Helpers.OfflineGainsMonotone` and `Helpers.OfflineGainsSaturate` state its sign, growth and cap. |
| Helpers.OfflineTimeCapped | src/game/helpers.ts:133-134 | The credited time is at most the cap and at most the time away, and equals the time away below the cap. |
| Helpers.OfflineGainsSaturate | src/game/helpers.ts:133-160 | Once the cap is reached, staying away longer earns nothing more. |
| Helpers.OfflineRatesNonNegative | src/game/helpers.ts:139-149 | Non-negative building rates give non-negative offline rates. |
| Helpers.OfflineGainsNonNegative | src/game/helpers.ts:121-162 | With the clock not behind the last update and no negative rate, no gain is negative. |
| Helpers.OfflineGainsMonotone | src/game/helpers.ts:121-162 | A longer absence never credits less of any resource. |
| Helpers.GainNonNegative | src/game/helpers.ts:151-159 | A gain from non-negative factors is non-negative. |
| Helpers.GainMonotone | src/game/helpers.ts:151-159 | A gain never falls as the credited time grows. |
| Helpers.OfflineExample | src/game/helpers.ts:121-162 | With the starting bonuses, ten hours away credit 8 hours and 2880 sparks. |
| Helpers.StageReachedIndex | src/game/helpers.ts:164-169 | The stage reached from the scaled flux is a valid stage index. |
| Helpers.GetStageFromFlux | src/game/helpers.ts:164-169 | The method returns the id of the stage reached from the earned flux times the stage-progress bonus. |
| Helpers.StageReachedAtLeastRaw | src/game/helpers.ts:164-169 | The stage-progress bonus never holds a run back: it reaches at least the stage of the raw flux. |
| Helpers.StageReachedMonotone | src/game/helpers.ts:164-169 | With the same bonuses, more earned flux never gives an earlier stage. |
| Helpers.StageReachedWithDefaults | src/game/helpers.ts:164-169 | With the starting bonuses the stage is the one the raw flux reaches. |
| Helpers.InitializeDailyTasksFacts | src/game/helpers.ts:171-192 | No reset leaves the state unchanged. A reset draws three distinct table tasks at progress 0, uncompleted and unclaimed. It also stamps the reset time and zeroes the daily counters. |
| Helpers.InitializeDailyTasks | src/game/helpers.ts:171-192 | No contract of its own. `Helpers.InitializeDailyTasksFacts` and `Helpers.InitializeDailyTasksIdempotent` state the reset and that a second call changes nothing. |
| Helpers.InitializeDailyTasksIdempotent | src/game/helpers.ts:171-192 | A second call at the same time, whatever its draw, changes nothing. |
| Helpers.FindTaskUnique | src/game/helpers.ts:198 | In a list without repeated ids, the search finds the one task with the id, or reports there is none. |
| Helpers.FindInDrawIsFindInTable | src/game/helpers.ts:198 | Searching a shuffled draw of all five tasks finds what searching the table finds. |
| Helpers.UpdateDailyTaskProgressFacts | src/game/helpers.ts:194-215 | The list keeps its length, and completed or unknown records are untouched. Any other record gets the task's progress and is completed iff the progress reaches the target. Nothing else changes. |
| Helpers.UpdateDailyTaskProgress | src/game/helpers.ts:194-215 | No contract of its own. `Helpers.UpdateDailyTaskProgressFacts`, `Helpers.UpdateIndependentOfShuffle` and `Helpers.UpdateIdempotent` state what it changes. |
| Helpers.UpdateIndependentOfShuffle | src/game/helpers.ts:194-215 | The random order of the internal draw does not matter. |
| Helpers.UpdateIdempotent | src/game/helpers.ts:194-215 | Updating twice is updating once. |
| Purchase.CalculateMaxBuy | src/game/purchase.ts:26-50 | The loop returns the maximal affordable count up to the cap and its cost. The cap test comes after the increment. |
| Purchase.CalculateMultiBuyCost | src/game/purchase.ts:4-24 | For `max`, it returns the quote of `calculateMaxBuy`, whose count is whole. For a number, the count is that number, and the cost is the sum of the next `LoopRuns(amount)` unit prices: one per loop round, so a fractional amount pays for the unit it starts and a non-positive one costs nothing. |
| Purchase.CanAffordMultiBuy | src/game/purchase.ts:52-59 | For a number, the sparks cover the price of the `LoopRuns(amount)` units the loop adds up. For `max`, the answer is true whenever the sparks are non-negative, and false when they are negative. |
| Purchase.LoopRuns | src/game/purchase.ts:18 | The number of rounds of `for (let i = 0; i < amount; i++)`: 0 for a non-positive amount, otherwise the least whole number at least the amount. |
| Purchase.WholeAmountRuns | src/game/purchase.ts:18 | A whole amount runs the loop exactly that many times, and a negative one never. |
| Purchase.FractionalAmountRuns | src/game/purchase.ts:17-23 | An amount of 2.5 runs the loop three times and is charged for three units. |
| Purchase.MaxBuyFacts | src/game/purchase.ts:38-47 | A max-buy quote never costs more than the sparks and has at most 1001 units. It buys nothing when the next unit is too expensive. |
| Purchase.MaxBuyUnique | src/game/purchase.ts:26-50 | The quote is determined by the building and the sparks alone. Two states with the same sparks get the same quote, so traits, meta levels and the stage play no part. |
| Purchase.BulkEqualsOneThenRest | src/game/purchase.ts:17-23 | Buying `n + 1` costs one unit at the current count plus `n` more at the next count. |
| Purchase.BulkEqualsSequential | src/game/purchase.ts:17-23 | A bulk price equals the sum of the prices of the same units bought one after another. |
| GameLoop.LotteryChance | src/hooks/useGameLoop.ts:33-41 | The loop over the active traits computes 1% times 10 per cosmic_lottery entry. |
| GameLoop.AnomalyChance | src/hooks/useGameLoop.ts:33-41 | No contract of its own. It specifies `GameLoop.LotteryChance`. `GameLoop.LotteryMultiplies` states that it is 1% times 10 per cosmic_lottery entry. |
| GameLoop.RollAnomaly | src/hooks/useGameLoop.ts:30-48 | The timer gains the elapsed seconds. At a full minute it rolls and restarts at 0. An anomaly is found iff the roll is below the chance. |
| GameLoop.UpdateStage | src/hooks/useGameLoop.ts:61-68 | Both stage fields are set to the stage from flux when it differs from the current stage. |
| GameLoop.NextState | src/hooks/useGameLoop.ts:25-71 | The updater computes `TickWith` for the state's production and meta bonuses. |
| GameLoop.TickWith | src/hooks/useGameLoop.ts:25-71 | No contract of its own. It specifies `GameLoop.NextState` and `GameLoop.Loop.Tick`. `GameLoop.TickResources`, `GameLoop.TickStage` and `GameLoop.TickStageNeverRegresses` state what a tick does. |
| GameLoop.Loop.constructor | src/hooks/useGameLoop.ts:13-14 | The loop starts with `lastTick` at the clock reading and an empty anomaly timer. |
| GameLoop.Loop.Tick | src/hooks/useGameLoop.ts:20-71 | `lastTick` becomes `now` and the timer advances by the elapsed seconds. The state becomes `TickWith` for those seconds and the roll. The timer stays below a minute. |
| GameLoop.StageKeepsProgress | src/hooks/useGameLoop.ts:61-68 | The stage step changes no resource, clock or purchase. |
| GameLoop.TasksKeepProgress | src/hooks/useGameLoop.ts:70-73 | The daily-task and achievement steps change no resource, clock, purchase or stage. |
| GameLoop.TickResources | src/hooks/useGameLoop.ts:25-59 | Flux and its total grow by the flux rate times the elapsed seconds, civilization by its rate, and the run time by the seconds. Sparks stay, at most one anomaly is added, both clocks read `now`, and purchases stay. |
| GameLoop.TickStage | src/hooks/useGameLoop.ts:61-68 | The current stage becomes the stage from the new flux. It is recorded as the highest when it changed; otherwise the highest is kept. |
| GameLoop.TickStageNeverRegresses | src/hooks/useGameLoop.ts:61-68 | With a non-negative flux rate and elapsed time, the stage reached never moves back. |
| GameLoop.TimerFacts | src/hooks/useGameLoop.ts:30-48 | The roll happens once a minute has accumulated and the timer then restarts at 0. The timer never holds a minute or more. |
| GameLoop.AnomalyNeedsMinute | src/hooks/useGameLoop.ts:30-45 | An anomaly needs a full minute. With a minute, a roll below 1% always finds one. Without the lottery trait, a roll of 1% or more never does. With two lottery entries, every roll in `[0, 1)` finds one. |
| GameLoop.LotteryMultiplies | src/hooks/useGameLoop.ts:34-41 | The chance is 1% with no traits, and each cosmic_lottery entry multiplies it by ten. |
| GameLoop.ElapsedTelescopes | src/hooks/useGameLoop.ts:20-22 | The elapsed seconds of consecutive ticks add up to the time from the first reading to the last. |
| GameContext.ClickForge | src/context/GameContext.tsx:125-136 | The updater computes the click on the current click power, then checks achievements. |
| GameContext.ClickForgeOf | src/context/GameContext.tsx:125-136 | No contract of its own. It specifies `GameContext.ClickForge`. `GameContext.ClickFacts` states what a click changes. |
| GameContext.ClickFacts | src/context/GameContext.tsx:125-136 | Sparks and the sparks total grow by the click power and the click count by 1. The achievement check changes only achievements and shards. |
| GameContext.FirstClickIsOneSpark | src/context/GameContext.tsx:125-136 | With no purchased upgrade and no trait, a click is worth one spark. |
| GameContext.BuyBuilding | src/context/GameContext.tsx:138-167 | The updater computes the guarded purchase followed by the achievement check. |
| GameContext.BuyBuildingOf | src/context/GameContext.tsx:138-167 | No contract of its own. It specifies `GameContext.BuyBuilding`. `GameContext.BuyBuildingFacts` states what a purchase changes. |
| GameContext.BuyBuildingFacts | src/context/GameContext.tsx:138-167 | A rejected purchase changes nothing. An accepted one charges the adjusted price, adds one unit of that building only, and changes nothing else before the achievement check. |
| GameContext.BuildingGuardIsRawPrice | src/context/GameContext.tsx:140-151 | Since traits never raise a building price, the guard amounts to `canAffordBuilding` on the unmodified price. |
| GameContext.PayFacts | src/context/GameContext.tsx:184-191 | Paying takes the amount from the named currency only. |
| GameContext.BuyUpgrade | src/context/GameContext.tsx:169-201 | No contract of its own. `GameContext.BuyUpgradeFacts`, `GameContext.BuyUpgradeOnce` and `GameContext.UpgradeGuardIsAdjustedPrice` state when it succeeds and what it changes. |
| GameContext.BuyUpgradeFacts | src/context/GameContext.tsx:169-201 | A purchase is rejected for an unknown, purchased or locked upgrade, or when its currency is below the raw or the adjusted price. A rejected purchase changes nothing. An accepted one charges the adjusted price in that currency and marks the upgrade purchased, and nothing else changes. |
| GameContext.BuyUpgradeOnce | src/context/GameContext.tsx:171-172 | After a purchase, buying the same upgrade again is rejected. |
| GameContext.UpgradeGuardIsAdjustedPrice | src/context/GameContext.tsx:171-187 | For a whole-number price, the two price guards amount to the adjusted price alone. |
| GameContext.DedupFacts | src/context/GameContext.tsx:205-207 | The union has no repeats and the same entries as its input. A list without repeats is its own union. |
| GameContext.Dedup | src/context/GameContext.tsx:205-207 | No contract of its own. `GameContext.DedupFacts` and `GameContext.DedupExtends` state that it keeps the first occurrences in order. |
| GameContext.DedupExtends | src/context/GameContext.tsx:205-207 | Adding entries never reorders or drops the ones already there. |
| GameContext.DiscoveredUnion | src/context/GameContext.tsx:205-207 | The loop computes the old discovered traits followed by the new ones, without repeats. |
| GameContext.SelectTraits | src/context/GameContext.tsx:203-216 | The updater computes the chosen traits and the union, then checks achievements. |
| GameContext.SelectTraitsOf | src/context/GameContext.tsx:203-216 | No contract of its own. It specifies `GameContext.SelectTraits`. `GameContext.SelectTraitsFacts` states what it changes. |
| GameContext.SelectTraitsFacts | src/context/GameContext.tsx:203-216 | The active traits become the chosen list. The discovered traits hold exactly the old and the chosen ids, none twice, and start with the old list when that had no repeats. |
| GameContext.MetaPurchaseFacts | src/context/GameContext.tsx:220-234 | The state changes iff `canAffordMetaUpgrade` holds at the current level. The price of that level is then paid in echoes, which stay non-negative, and that level rises by exactly 1, never past the maximum. Nothing else changes. |
| GameContext.BuyMetaUpgrade | src/context/GameContext.tsx:218-236 | No contract of its own. `GameContext.BuyMetaUpgradeFacts` and `GameContext.BuyMetaUpgradeSkipsPrerequisite` state when it throws, when it succeeds and what it changes. |
| GameContext.BuyMetaUpgradeFacts | src/context/GameContext.tsx:218-236 | Without a level map the updater throws. An unknown id changes nothing. A known one follows the purchase rule. |
| GameContext.BuyMetaUpgradeSkipsPrerequisite | src/context/GameContext.tsx:218-236 | The locked weird_ultimate can be bought for 150 echoes with no other level. |
| GameContext.MetaPurchaseUnlocks | src/context/GameContext.tsx:218-236 | A meta purchase that changes the state unlocks every table entry whose prerequisite is the upgrade bought. It locks no entry that was unlocked. Every such dependent is in the bought upgrade's column at a higher tier. |
| GameContext.FindTaskIndex | src/context/GameContext.tsx:240 | The search returns the first record with the id, or none when no record has it. |
| GameContext.FindTaskIndexReadsIds | src/context/GameContext.tsx:240 | The search reads only the ids. |
| GameContext.ClaimDailyTask | src/context/GameContext.tsx:238-262 | The mutating updater computes `ClaimOf`. |
| GameContext.ClaimOf | src/context/GameContext.tsx:238-262 | No contract of its own. It specifies `GameContext.ClaimDailyTask`. `GameContext.ClaimFacts` states when a claim pays and what it changes. |
| GameContext.PayReward | src/context/GameContext.tsx:253-258 | Adds the reward's echoes and sparks, each only when the task defines it; nothing else changes. |
| GameContext.ClaimFacts | src/context/GameContext.tsx:238-262 | A claim is rejected unless the record exists, is completed and unclaimed, and the task is in the table; then nothing changes. An accepted claim marks that record claimed and pays the task's echoes and sparks, and nothing else changes. A second claim is rejected. |
| GameContext.ClaimBuildingTaskReward | src/game/content/dailyTasks.ts:50-57 | Claiming the building task pays 2 echoes and 500 sparks. |
| GameContext.CompleteTutorialStepFacts | src/context/GameContext.tsx:264-273 | Without a step list the updater throws. Otherwise it appends the step, clears the current step and keeps the rest. |
| GameContext.CompleteTutorialStep | src/context/GameContext.tsx:264-273 | No contract of its own. `GameContext.CompleteTutorialStepFacts` states when it throws and what it changes. |
| GameContext.FlagFacts | src/context/GameContext.tsx:275-291 | Dismissing sets the flag, clears the current step, keeps the steps and is idempotent. Claiming offline gains sets only its flag, idempotently. |
| GameContext.DismissTutorial | src/context/GameContext.tsx:275-284 | No contract of its own. `GameContext.FlagFacts` states that it sets the flag, clears the current step and is idempotent. |
| GameContext.ClaimOfflineGains | src/context/GameContext.tsx:286-291 | No contract of its own. `GameContext.FlagFacts` states that it sets only its flag, idempotently. |
| GameContext.Collapse | src/context/GameContext.tsx:293-296 | The collapse builds the next run, then checks achievements. |
| GameContext.CollapseStepOf | src/context/GameContext.tsx:293-296 | No contract of its own. It specifies `GameContext.Collapse`. `GameContext.CollapseStepFacts` states what it changes. |
| GameContext.CollapseStepFacts | src/context/GameContext.tsx:293-296 | The check after a collapse changes only the new run's achievements and shards. The echoes and the run number are those of the collapse. |
| GameContext.CheckedActionsKeepCountersIdle | src/context/GameContext.tsx:125-216 | Click, building purchase, trait choice and collapse never advance a daily counter. |
| GameContext.OtherActionsKeepCountersIdle | src/context/GameContext.tsx:169-291 | Nor do the upgrade and meta purchases, claims and tutorial flags. |
| GameContext.TickKeepsCountersIdle | src/game/helpers.ts:171-192 | Nor does a tick: the daily reset writes 0 and nothing else writes them. |
| GameContext.OnlySparksTaskCompletes | src/game/content/dailyTasks.ts:14-58 | While the counters are idle, only the sparks task can be complete. |
| Api.CollapseUniverse | src/lib/api.ts:81-105 | The loop over the old upgrade ids computes `CollapseOf`. |
| Api.CollapseOf | src/lib/api.ts:81-105 | No contract of its own. It specifies `Api.CollapseUniverse`. `Api.CollapseFields`, `Api.CollapseUpgrades` and `Api.CollapseForgetsMetaBonuses` state the next run. |
| Api.CollapseFields | src/lib/api.ts:83-95 | Both echo totals grow by the payout, so by at least 1, and the run number by 1. Shards, discovered traits, achievements and settings are kept. The rest is a new run: no resources, units, traits, stage or meta levels. |
| Api.CollapseUpgrades | src/lib/api.ts:97-105 | A table upgrade is purchased after the collapse iff it was purchased and paid in echoes. Its other fields are the initial ones. |
| Api.CollapseForgetsMetaBonuses | src/lib/api.ts:85-95 | The next run's meta bonuses are the starting values, whatever was bought. |

## Left out

- The user interface, the Supabase back end, local storage, analytics, the
  auto-save timer and the React plumbing (`setInterval`, effects, refs as
  hooks) are not modelled. The part of `collapseUniverse` that saves the
  new state is not modelled either.
- Clock readings are integers in milliseconds. ISO date strings and their
  parsing are not modelled. `new Date()` inside `initializeDailyTasks` is
  the tick's `now`.
- `Math.random` is a parameter: pool indices, a permutation of the daily
  tasks, or the anomaly roll. Probabilities are not modelled.
- IEEE floating point is not modelled: numbers are exact reals, and powers
  have natural exponents. `Math.floor(Math.sqrt(x) / k)` is modelled as
  the integer square root of `floor(x)` divided by `k`. The two are equal
  for `x >= 0`.
- Logic.EchoesFromRun: flux or civilization must not be negative. In
  JavaScript a negative value makes the payout `NaN`, which the model does
  not represent.
- `src/game/achievements.ts` is not part of this model. The achievement
  table of `createInitialState` is a parameter.
- Achievements.CheckAchievements: returns a new value. In the source the
  achievement map is shared with the input, so progress written into it
  also shows up in older snapshots. That aliasing is not modelled.
- Api.CollapseUniverse: for an upgrade id that is not in the initial
  table, the source writes `{ purchased: true }`. The model writes the old
  record marked purchased.
- GameContext.ClaimDailyTask: a missing daily-task list is the empty list.
  The `TypeError` the source would throw is not modelled.
- The dynamic `require` of the content modules is a direct reference to
  the tables.
- The prerequisite closures of upgrades and the `checkProgress` closures of
  daily tasks are modelled as data naming what they read.
- Traits.GetRandomTraits: `Math.random` is a finite sequence of pool
  indices. The source keeps drawing until min(count, 10) traits are
  selected. The model stops when the sequence runs out, so it can return
  fewer traits. `Traits.DistinctPrefixFacts` states that every drawn id is
  kept while fewer than the limit are kept.
