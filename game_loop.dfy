/**
 * The per-tick updater of `useGameLoop`. The hook keeps two refs, the time
 * of the last tick and the anomaly timer, and replaces the game state once
 * per tick: production for the elapsed seconds, the anomaly roll once a
 * minute has accumulated, the stage reached, the daily-task reset and
 * progress, and the achievement check.
 *
 * The clock reading is `now` (ms), the value of `Math.random()` is `roll`,
 * and the order the daily-task draws would take is `shuffle`.
 */
module GameLoop {
  import opened Wrappers
  import opened Numeric
  import opened GameTypes
  import Logic
  import Stages
  import DailyTasks
  import Helpers
  import Achievements

  /** Seconds between two clock readings in ms. */
  function Elapsed(from: int, to: int): real
  {
    (to - from) as real / 1000.0
  }

  /** The timer after adding `delta`: back to 0 once it has reached a minute. */
  function TimerAfter(timer: real, delta: real): real
  {
    if timer + delta >= 60.0 then 0.0 else timer + delta
  }

  /** How many entries of `traits` are `id`. */
  function Occurrences(traits: seq<string>, id: string): nat
    decreases |traits|
  {
    if traits == [] then 0
    else Occurrences(traits[..|traits| - 1], id) + (if traits[|traits| - 1] == id then 1 else 0)
  }

  /** The chance of an anomaly per roll: 1%, ten times over for every `cosmic_lottery` entry. */
  function AnomalyChance(traits: seq<string>): real
  {
    0.01 * Pow(10.0, Occurrences(traits, "cosmic_lottery"))
  }

  /** Whether this tick rolls and the roll succeeds. */
  predicate AnomalyFound(timer: real, delta: real, roll: real, traits: seq<string>)
  {
    timer + delta >= 60.0 && roll < AnomalyChance(traits)
  }

  /** `rate * deltaSeconds`. */
  function Gained(rate: real, delta: real): real
  {
    rate * delta
  }

  /** The spread `{ ...prev, flux: ..., lastUpdateTime: ... }` of the tick, for production `p`. */
  function Advanced(prev: GameState, p: Logic.Production, delta: real, anomaliesGained: int, now: int): GameState
  {
    prev.(
      flux := prev.flux + Gained(p.fluxPerSecond, delta),
      civilization := prev.civilization + Gained(p.civilizationPerSecond, delta),
      anomalies := prev.anomalies + anomaliesGained,
      totalFluxEarned := prev.totalFluxEarned + Gained(p.fluxPerSecond, delta),
      totalRunTime := prev.totalRunTime + delta,
      lastTickTime := now,
      lastUpdateTime := Some(now))
  }

  /** The stage step: move to the stage reached (and record it as the highest) when it differs. */
  function StageUpdated(s: GameState, b: Helpers.MetaBonuses): GameState
  {
    var stageId := Stages.StageOrder[Helpers.StageReachedIndex(s, b)].id;
    if Some(stageId) != s.currentStageId then s.(currentStageId := Some(stageId), highestStageReached := Some(stageId))
    else s
  }

  /** The state one tick produces from `prev`, for production `p` and meta bonuses `b`. */
  ghost function TickWith(prev: GameState, p: Logic.Production, b: Helpers.MetaBonuses, delta: real, found: bool, now: int, shuffle: seq<nat>): GameState
    requires DailyTasks.IsShuffle(shuffle)
  {
    var advanced := Advanced(prev, p, delta, if found then 1 else 0, now);
    var staged := StageUpdated(advanced, b);
    Achievements.CheckAchievementsOf(
      Helpers.UpdateDailyTaskProgress(Helpers.InitializeDailyTasks(staged, now, shuffle), shuffle))
  }

  /** `prev.activeTraits.forEach(...)`: the roll's chance. */
  method LotteryChance(traits: seq<string>) returns (totalChance: real)
    ensures totalChance == AnomalyChance(traits)
  {
    totalChance := 0.01;
    for i := 0 to |traits|
      invariant totalChance == 0.01 * Pow(10.0, Occurrences(traits[..i], "cosmic_lottery"))
    {
      assert traits[..i + 1][..i] == traits[..i];
      if traits[i] == "cosmic_lottery" {
        totalChance := totalChance * 10.0;
      }
    }
    assert traits[..|traits|] == traits;
  }

  /** The anomaly step of the tick: the anomalies found and the timer afterwards. */
  method RollAnomaly(anomalyTimer: real, deltaSeconds: real, roll: real, activeTraits: seq<string>) returns (found: bool, timer: real)
    ensures found == AnomalyFound(anomalyTimer, deltaSeconds, roll, activeTraits)
    ensures timer == TimerAfter(anomalyTimer, deltaSeconds)
  {
    timer := anomalyTimer + deltaSeconds;
    found := false;
    if timer >= 60.0 {
      var totalChance := LotteryChance(activeTraits);
      if roll < totalChance {
        found := true;
      }
      timer := 0.0;
    }
  }

  /** The stage step of the tick: `getStageFromFlux` and the move when the stage differs. */
  method UpdateStage(s: GameState) returns (r: GameState)
    ensures r == StageUpdated(s, Helpers.MetaBonusesOf(Helpers.MetaLevels(s)))
  {
    var newStageId := Helpers.GetStageFromFlux(s);
    r := s;
    if Some(newStageId) != s.currentStageId {
      r := s.(currentStageId := Some(newStageId), highestStageReached := Some(newStageId));
    }
  }

  /** The state update of the tick, after the anomaly roll. */
  method NextState(prev: GameState, deltaSeconds: real, found: bool, now: int, shuffle: seq<nat>) returns (r: GameState)
    requires DailyTasks.IsShuffle(shuffle)
    ensures r == TickWith(prev, Logic.TotalProductionOf(prev), Helpers.MetaBonusesOf(Helpers.MetaLevels(prev)), deltaSeconds, found, now, shuffle)
  {
    var production := Logic.GetTotalProduction(prev);
    var advanced := Advanced(prev, production, deltaSeconds, if found then 1 else 0, now);
    assert Helpers.MetaLevels(advanced) == Helpers.MetaLevels(prev);
    var staged := UpdateStage(advanced);
    var initialized := Helpers.InitializeDailyTasks(staged, now, shuffle);
    var updated := Helpers.UpdateDailyTaskProgress(initialized, shuffle);
    r := Achievements.CheckAchievements(updated);
  }

  /** The refs of the hook and the game state it updates. */
  class Loop {
    var lastTick: int
    var anomalyTimer: real
    var state: GameState

    /** The timer stays within a minute. */
    ghost predicate Valid()
      reads this
    {
      0.0 <= anomalyTimer < 60.0
    }

    /** The hook mounted at `now` on state `s`. */
    constructor(now: int, s: GameState)
      ensures lastTick == now && anomalyTimer == 0.0 && state == s
      ensures Valid()
    {
      lastTick := now;
      anomalyTimer := 0.0;
      state := s;
    }

    /** One tick at clock reading `now`. */
    method Tick(now: int, roll: real, shuffle: seq<nat>)
      requires DailyTasks.IsShuffle(shuffle)
      modifies this
      ensures lastTick == now
      ensures anomalyTimer == TimerAfter(old(anomalyTimer), Elapsed(old(lastTick), now))
      ensures state == TickWith(old(state), Logic.TotalProductionOf(old(state)), Helpers.MetaBonusesOf(Helpers.MetaLevels(old(state))),
        Elapsed(old(lastTick), now), AnomalyFound(old(anomalyTimer), Elapsed(old(lastTick), now), roll, old(state).activeTraits),
        now, shuffle)
      ensures old(Valid()) && now >= old(lastTick) ==> Valid()
    {
      var deltaSeconds := Elapsed(lastTick, now);
      lastTick := now;
      var prev := state;
      var found, timer := RollAnomaly(anomalyTimer, deltaSeconds, roll, prev.activeTraits);
      anomalyTimer := timer;
      var newState := NextState(prev, deltaSeconds, found, now, shuffle);
      state := newState;
    }
  }

  /** The fields of the state the stage, daily-task and achievement steps leave alone. */
  predicate SameProgress(a: GameState, b: GameState)
  {
    && a.flux == b.flux && a.totalFluxEarned == b.totalFluxEarned && a.civilization == b.civilization
    && a.totalRunTime == b.totalRunTime && a.sparks == b.sparks && a.totalSparksEarned == b.totalSparksEarned
    && a.anomalies == b.anomalies && a.lastTickTime == b.lastTickTime && a.lastUpdateTime == b.lastUpdateTime
    && a.buildings == b.buildings && a.upgrades == b.upgrades && a.metaUpgrades == b.metaUpgrades
    && a.echoes == b.echoes && a.runNumber == b.runNumber && a.activeTraits == b.activeTraits
  }

  /** The stage step keeps the progress fields. */
  lemma StageKeepsProgress(s: GameState, b: Helpers.MetaBonuses)
    ensures SameProgress(StageUpdated(s, b), s)
  {
  }

  /** The daily-task and achievement steps keep the progress fields and the stage. */
  lemma TasksKeepProgress(s: GameState, now: int, shuffle: seq<nat>)
    requires DailyTasks.IsShuffle(shuffle)
    ensures var r := Achievements.CheckAchievementsOf(Helpers.UpdateDailyTaskProgress(Helpers.InitializeDailyTasks(s, now, shuffle), shuffle));
      SameProgress(r, s) && r.currentStageId == s.currentStageId && r.highestStageReached == s.highestStageReached
  {
    Helpers.InitializeDailyTasksFacts(s, now, shuffle);
  }

  /**
   * What a tick does to the resources: flux and the flux total grow by the
   * flux rate times the elapsed seconds, civilization by its rate, the run
   * time by the elapsed seconds; sparks and the sparks total stay; one
   * anomaly at most is added; both clocks read `now`.
   */
  lemma TickResources(prev: GameState, p: Logic.Production, b: Helpers.MetaBonuses, delta: real, found: bool, now: int, shuffle: seq<nat>)
    requires DailyTasks.IsShuffle(shuffle)
    ensures var r := TickWith(prev, p, b, delta, found, now, shuffle);
      && r.flux == prev.flux + p.fluxPerSecond * delta
      && r.totalFluxEarned == prev.totalFluxEarned + p.fluxPerSecond * delta
      && r.civilization == prev.civilization + p.civilizationPerSecond * delta
      && r.totalRunTime == prev.totalRunTime + delta
      && r.sparks == prev.sparks && r.totalSparksEarned == prev.totalSparksEarned
      && r.anomalies == prev.anomalies + (if found then 1 else 0)
      && r.lastTickTime == now && r.lastUpdateTime == Some(now)
      && r.buildings == prev.buildings && r.upgrades == prev.upgrades && r.metaUpgrades == prev.metaUpgrades
      && r.echoes == prev.echoes && r.runNumber == prev.runNumber && r.activeTraits == prev.activeTraits
  {
    var staged := StageUpdated(Advanced(prev, p, delta, if found then 1 else 0, now), b);
    StageKeepsProgress(Advanced(prev, p, delta, if found then 1 else 0, now), b);
    TasksKeepProgress(staged, now, shuffle);
  }

  /** After a tick the current stage is the stage the new flux total has reached, and it is recorded as the highest when it is new. */
  lemma TickStage(prev: GameState, p: Logic.Production, b: Helpers.MetaBonuses, delta: real, found: bool, now: int, shuffle: seq<nat>)
    requires DailyTasks.IsShuffle(shuffle)
    ensures var advanced := Advanced(prev, p, delta, if found then 1 else 0, now);
      var r := TickWith(prev, p, b, delta, found, now, shuffle);
      var stageId := Stages.StageOrder[Helpers.StageReachedIndex(advanced, b)].id;
      && r.currentStageId == Some(stageId)
      && (prev.currentStageId != Some(stageId) ==> r.highestStageReached == Some(stageId))
      && (prev.currentStageId == Some(stageId) ==> r.highestStageReached == prev.highestStageReached)
  {
    var staged := StageUpdated(Advanced(prev, p, delta, if found then 1 else 0, now), b);
    TasksKeepProgress(staged, now, shuffle);
  }

  /** With a non-negative flux rate and elapsed time, the stage reached never moves back. */
  lemma TickStageNeverRegresses(prev: GameState, p: Logic.Production, b: Helpers.MetaBonuses, delta: real, anomaliesGained: int, now: int)
    requires Helpers.BonusesInRange(b) && p.fluxPerSecond >= 0.0 && delta >= 0.0
    ensures Helpers.StageReachedIndex(Advanced(prev, p, delta, anomaliesGained, now), b) >= Helpers.StageReachedIndex(prev, b)
  {
    var advanced := Advanced(prev, p, delta, anomaliesGained, now);
    assert Gained(p.fluxPerSecond, delta) >= 0.0;
    Helpers.StageReachedMonotone(prev, advanced, b);
  }

  /** The roll happens once a minute has accumulated, the timer then restarts, and a minute is never exceeded. */
  lemma TimerFacts(timer: real, delta: real)
    ensures timer + delta >= 60.0 ==> TimerAfter(timer, delta) == 0.0
    ensures timer + delta < 60.0 ==> TimerAfter(timer, delta) == timer + delta
    ensures 0.0 <= timer && 0.0 <= delta ==> 0.0 <= TimerAfter(timer, delta) < 60.0
  {
  }

  /**
   * An anomaly needs a full minute on the timer. With a minute, a roll below
   * 1% always finds one; without the lottery trait a roll of 1% or more never
   * does; with two lottery entries the chance reaches 1, so every roll in
   * `[0, 1)` finds one.
   */
  lemma AnomalyNeedsMinute(timer: real, delta: real, roll: real, traits: seq<string>)
    ensures AnomalyFound(timer, delta, roll, traits) ==> timer + delta >= 60.0
    ensures timer + delta >= 60.0 && roll < 0.01 ==> AnomalyFound(timer, delta, roll, traits)
    ensures roll >= 0.01 && Occurrences(traits, "cosmic_lottery") == 0 ==> !AnomalyFound(timer, delta, roll, traits)
    ensures timer + delta >= 60.0 && 0.0 <= roll < 1.0 && Occurrences(traits, "cosmic_lottery") >= 2 ==> AnomalyFound(timer, delta, roll, traits)
  {
    var n := Occurrences(traits, "cosmic_lottery");
    PowAtLeastOne(10.0, n);
    if n >= 2 {
      PowMonotone(10.0, 2, n);
      assert Pow(10.0, 2) == 100.0;
    }
  }

  /** Each `cosmic_lottery` entry multiplies the chance by ten; without one it is 1%. */
  lemma LotteryMultiplies(traits: seq<string>, id: string)
    ensures Occurrences([], "cosmic_lottery") == 0 && AnomalyChance([]) == 0.01
    ensures id == "cosmic_lottery" ==> AnomalyChance(traits + [id]) == 10.0 * AnomalyChance(traits)
    ensures id != "cosmic_lottery" ==> AnomalyChance(traits + [id]) == AnomalyChance(traits)
  {
    assert (traits + [id])[..|traits + [id]| - 1] == traits;
  }

  /** Consecutive ticks: the elapsed seconds add up to the time between the first and the last reading. */
  lemma ElapsedTelescopes(a: int, b: int, c: int)
    ensures Elapsed(a, b) + Elapsed(b, c) == Elapsed(a, c)
  {
  }
}
