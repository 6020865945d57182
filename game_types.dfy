/**
 * The records of the game: buildings, upgrades, achievements, daily-task
 * progress, the tutorial, and the `GameState` snapshot that every rule reads
 * and every transition rebuilds.
 *
 * JavaScript numbers are `real` (exact) where they carry fractions and
 * `int`/`nat` where the game only ever stores whole numbers; timestamps are
 * integer milliseconds. A field that a state may lack (because
 * `createInitialState` never sets it) is an `Option`.
 */
module GameTypes {
  import opened Wrappers

  /** The resource a building produces. */
  datatype Resource = Flux | Civilization

  /** The state field an upgrade is paid from. */
  datatype Currency = PaySparks | PayFlux | PayCivilization | PayEchoes

  /** What an upgrade's effect applies to. */
  datatype Target = TargetSparks | TargetFlux | TargetCivilization | TargetBuilding | TargetGlobal

  datatype EffectKind = Multiplier | Additive | Unlock | Special

  datatype Building = Building(
    id: string,
    baseRate: real,
    baseCost: real,
    costMultiplier: real,
    count: nat,
    resourceProduced: Resource,
    unlockedAt: real)

  datatype UpgradeEffect = UpgradeEffect(kind: EffectKind, target: Target, value: real, buildingId: Option<string>)

  /**
   * The `prerequisite` closure of an upgrade, as data. Every closure in the
   * upgrade table reads `state.upgrades.X?.purchased || false`.
   */
  datatype Prerequisite = NoPrerequisite | RequiresPurchased(upgradeId: string)

  datatype Upgrade = Upgrade(
    id: string,
    cost: real,
    costCurrency: Currency,
    effect: UpgradeEffect,
    purchased: bool,
    visible: bool,
    prerequisite: Prerequisite)

  datatype Achievement = Achievement(id: string, unlocked: bool, progress: real, target: real, rewardShards: real)

  datatype TaskProgress = TaskProgress(taskId: string, progress: real, completed: bool, claimed: bool)

  datatype Tutorial = Tutorial(completedSteps: Option<seq<string>>, currentStep: Option<string>, dismissed: Option<bool>)

  datatype GameState = GameState(
    version: int,
    sparks: real,
    flux: real,
    civilization: real,
    anomalies: int,
    echoes: int,
    totalEchoesEver: int,
    shards: real,
    buildings: map<string, Building>,
    upgrades: map<string, Upgrade>,
    achievements: map<string, Achievement>,
    activeTraits: seq<string>,
    discoveredTraits: seq<string>,
    runNumber: int,
    runStartTime: int,
    lastTickTime: int,
    lastUpdateTime: Option<int>,
    totalRunTime: real,
    totalClicks: int,
    totalSparksEarned: real,
    totalFluxEarned: real,
    currentStageId: Option<string>,
    highestStageReached: Option<string>,
    metaUpgrades: Option<map<string, nat>>,
    dailyTasks: seq<TaskProgress>,
    dailyTasksLastReset: Option<int>,
    dailyCollapses: Option<int>,
    dailyRareTraitRuns: Option<int>,
    dailyBuildingsPurchased: Option<int>,
    tutorial: Option<Tutorial>,
    offlineGainsClaimed: Option<bool>,
    soundOn: bool,
    autoSaveEnabled: bool)

  /**
   * JavaScript's `if (m) x *= m` on an optional multiplier: a missing or zero
   * multiplier counts as 1, so the factor applied is never 0.
   */
  function MultiplierOrOne(m: Option<real>): (r: real)
    ensures r != 0.0
    ensures m.None? || m.value == 0.0 ==> r == 1.0
    ensures m.Some? && m.value != 0.0 ==> r == m.value
  {
    if m.Some? && m.value != 0.0 then m.value else 1.0
  }

  /** The `costCurrency` field of the state, read as a number (`state[upgrade.costCurrency]`). */
  function Balance(s: GameState, c: Currency): real
  {
    match c
    case PaySparks => s.sparks
    case PayFlux => s.flux
    case PayCivilization => s.civilization
    case PayEchoes => s.echoes as real
  }

  /** The upgrade target that names a building's resource. */
  function ResourceTarget(r: Resource): Target
  {
    match r
    case Flux => TargetFlux
    case Civilization => TargetCivilization
  }
}
