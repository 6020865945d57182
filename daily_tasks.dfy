/**
 * The daily tasks: their table, how the progress of each is read off the
 * game state, when a task is complete, which tasks a day draws, and when the
 * daily tasks are due for a reset.
 */
module DailyTasks {
  import opened Wrappers
  import opened GameTypes

  /** Which part of the state a task's `checkProgress` reads. */
  datatype ProgressSource = SparksEarned | Collapses | RareTraitRuns | StageOrderReached | BuildingsPurchased

  datatype TaskReward = TaskReward(echoes: Option<int>, sparks: Option<real>)

  datatype DailyTask = DailyTask(id: string, target: real, reward: TaskReward, source: ProgressSource)

  /** `DAILY_TASKS`. */
  const DailyTaskList: seq<DailyTask> := [
    DailyTask("generate_sparks", 10000.0, TaskReward(Some(2), None), SparksEarned),
    DailyTask("collapse_once", 1.0, TaskReward(Some(3), None), Collapses),
    DailyTask("use_rare_trait", 1.0, TaskReward(Some(5), None), RareTraitRuns),
    DailyTask("reach_stage", 1.0, TaskReward(Some(4), None), StageOrderReached),
    DailyTask("buy_buildings", 50.0, TaskReward(Some(2), Some(500.0)), BuildingsPurchased)
  ]

  /** Milliseconds in a UTC day. */
  const DayMs: int := 86400000

  /**
   * A task's `checkProgress`. The counters read with `|| 0` count as 0 when
   * absent. The stage task reads `state.currentStage?.order`, which the game
   * state never carries, so its stage order is always 0 and its progress
   * always 0.
   */
  function CheckProgress(task: DailyTask, s: GameState): real
  {
    match task.source
    case SparksEarned => s.totalSparksEarned
    case Collapses => s.dailyCollapses.GetOr(0) as real
    case RareTraitRuns => s.dailyRareTraitRuns.GetOr(0) as real
    case StageOrderReached => var stageOrder := 0; if stageOrder >= 4 then 1.0 else 0.0
    case BuildingsPurchased => s.dailyBuildingsPurchased.GetOr(0) as real
  }

  /** `isDailyTaskComplete`. */
  function IsDailyTaskComplete(task: DailyTask, progress: real): bool
  {
    progress >= task.target
  }

  /** `shuffle` is an ordering of the indices of `DAILY_TASKS`: each exactly once. */
  predicate IsShuffle(shuffle: seq<nat>)
  {
    && |shuffle| == |DailyTaskList|
    && (forall k :: 0 <= k < |shuffle| ==> shuffle[k] < |DailyTaskList|)
    && (forall k, l :: 0 <= k < l < |shuffle| ==> shuffle[k] != shuffle[l])
    && (forall t :: 0 <= t < |DailyTaskList| ==> t in shuffle)
  }

  /**
   * `getRandomDailyTasks(count)`: the first `count` tasks of `DAILY_TASKS`
   * in a random order. The random order is the parameter `shuffle`.
   */
  function GetRandomDailyTasks(count: nat, shuffle: seq<nat>): (r: seq<DailyTask>)
    requires IsShuffle(shuffle)
  {
    var n := if count < |shuffle| then count else |shuffle|;
    seq(n, k requires 0 <= k < n => DailyTaskList[shuffle[k]])
  }

  /** `lastReset` truncated to midnight UTC of its day. */
  function StartOfUtcDay(t: int): int
  {
    (t / DayMs) * DayMs
  }

  /** `shouldResetDailyTasks`, with the current clock reading as `now` (times in ms since the epoch). */
  function ShouldResetDailyTasks(lastReset: int, now: int): bool
  {
    now >= StartOfUtcDay(lastReset) + DayMs
  }

  /** The five tasks have distinct ids and positive targets. */
  lemma TaskTableFacts()
    ensures |DailyTaskList| == 5
    ensures forall i, j :: 0 <= i < j < |DailyTaskList| ==> DailyTaskList[i].id != DailyTaskList[j].id
    ensures forall i :: 0 <= i < |DailyTaskList| ==> DailyTaskList[i].target > 0.0
  {
  }

  /** The stage task can never be completed. */
  lemma ReachStageNeverCompletes(s: GameState)
    ensures DailyTaskList[3].id == "reach_stage"
    ensures CheckProgress(DailyTaskList[3], s) == 0.0
    ensures !IsDailyTaskComplete(DailyTaskList[3], CheckProgress(DailyTaskList[3], s))
  {
  }

  /** Progress reads only the earned sparks and the daily counters, and is never negative when they are not. */
  lemma ProgressReadsOnlyCounters(task: DailyTask, s: GameState, t: GameState)
    requires s.totalSparksEarned == t.totalSparksEarned
    requires s.dailyCollapses.GetOr(0) == t.dailyCollapses.GetOr(0)
    requires s.dailyRareTraitRuns.GetOr(0) == t.dailyRareTraitRuns.GetOr(0)
    requires s.dailyBuildingsPurchased.GetOr(0) == t.dailyBuildingsPurchased.GetOr(0)
    ensures CheckProgress(task, s) == CheckProgress(task, t)
    ensures (&& s.totalSparksEarned >= 0.0 && s.dailyCollapses.GetOr(0) >= 0 && s.dailyRareTraitRuns.GetOr(0) >= 0
             && s.dailyBuildingsPurchased.GetOr(0) >= 0) ==> CheckProgress(task, s) >= 0.0
  {
  }

  /** Completion is upward closed in the progress. */
  lemma CompletionMonotone(task: DailyTask, p: real, q: real)
    requires p <= q
    ensures IsDailyTaskComplete(task, p) ==> IsDailyTaskComplete(task, q)
  {
  }

  /** A day's draw: as many tasks as asked for (at most five), no task twice, all from the table; asking for five or more draws every task. */
  lemma {:induction false} RandomTasksFacts(count: nat, shuffle: seq<nat>)
    requires IsShuffle(shuffle)
    ensures var r := GetRandomDailyTasks(count, shuffle);
      && |r| == (if count < 5 then count else 5)
      && (forall k :: 0 <= k < |r| ==> r[k] in DailyTaskList)
      && (forall k, l :: 0 <= k < l < |r| ==> r[k].id != r[l].id)
      && (count >= 5 ==> forall t :: t in DailyTaskList ==> t in r)
  {
    TaskTableFacts();
    var r := GetRandomDailyTasks(count, shuffle);
    forall k, l | 0 <= k < l < |r|
      ensures r[k].id != r[l].id
    {
      assert shuffle[k] != shuffle[l];
    }
    if count >= 5 {
      forall t | t in DailyTaskList
        ensures t in r
      {
        var i :| 0 <= i < |DailyTaskList| && DailyTaskList[i] == t;
        assert i in shuffle;
        var k :| 0 <= k < |shuffle| && shuffle[k] == i;
        assert r[k] == t;
      }
    }
  }

  /** A reset is due exactly when `now` falls on a later UTC day than the last reset. */
  lemma ResetIffLaterDay(lastReset: int, now: int)
    ensures ShouldResetDailyTasks(lastReset, now) <==> now / DayMs > lastReset / DayMs
  {
    var q := lastReset / DayMs;
    var p := now / DayMs;
    assert now == p * DayMs + now % DayMs;
    if p > q {
      assert p >= q + 1;
      assert p * DayMs >= (q + 1) * DayMs;
    } else {
      assert p * DayMs <= q * DayMs;
    }
  }

  /** Never due within a day of the last reset's midnight, always due a full day after the last reset, and once due stays due. */
  lemma ResetTiming(lastReset: int, now: int, later: int)
    ensures now / DayMs == lastReset / DayMs ==> !ShouldResetDailyTasks(lastReset, now)
    ensures now >= lastReset + DayMs ==> ShouldResetDailyTasks(lastReset, now)
    ensures now <= later && ShouldResetDailyTasks(lastReset, now) ==> ShouldResetDailyTasks(lastReset, later)
  {
    ResetIffLaterDay(lastReset, now);
    assert lastReset >= StartOfUtcDay(lastReset);
  }
}
