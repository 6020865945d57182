/**
 * `checkAchievements`: after every tick and every collapse each locked
 * achievement re-reads its progress counter, unlocks once the counter
 * reaches its target and pays its shard reward, once.
 *
 * The spread `{ ...state }` copies the state but not its achievement map,
 * so every write lands in the map the input state holds as well. The
 * result therefore carries the progress updates whether or not anything
 * unlocked; what `updatedAny` decides is only whether the shard total of
 * the copy is returned. The model returns values, so it states that
 * directly: the new achievements, and the shards plus the rewards of the
 * achievements unlocked by this call.
 */
module Achievements {
  import opened Numeric
  import opened GameTypes

  /** One building's contribution to the total unit count. */
  function CountTerm(buildings: map<string, Building>, key: string): real
  {
    if key in buildings then buildings[key].count as real else 0.0
  }

  /** The number of building units owned, over all buildings. */
  ghost function TotalBuildingCount(buildings: map<string, Building>): real
  {
    SumOver(buildings.Keys, buildings, CountTerm)
  }

  /** `Object.values(state.buildings).reduce((sum, b) => sum + b.count, 0)`. */
  method SumBuildingCounts(buildings: map<string, Building>) returns (total: real)
    ensures total == TotalBuildingCount(buildings)
  {
    total := 0.0;
    var remaining := buildings.Keys;
    while remaining != {}
      invariant remaining <= buildings.Keys
      invariant total + SumOver(remaining, buildings, CountTerm) == TotalBuildingCount(buildings)
      decreases remaining
    {
      var key :| key in remaining;
      SumRemove(remaining, buildings, CountTerm, key);
      total := total + buildings[key].count as real;
      remaining := remaining - {key};
    }
  }

  /**
   * The counter the switch in `checkAchievements` reads for achievement
   * `id`, given the building unit total; an id the switch does not list
   * keeps its stored progress.
   */
  function ProgressWith(id: string, a: Achievement, s: GameState, unitTotal: real): real
  {
    if id == "first_click" || id == "click_100" then s.totalClicks as real
    else if id == "first_building" then unitTotal
    else if id == "flux_1k" || id == "flux_1m" then s.flux
    else if id == "first_collapse" || id == "collapse_10" then s.runNumber as real
    else if id == "echoes_100" then s.totalEchoesEver as real
    else if id == "trait_discovery" then |s.discoveredTraits| as real
    else a.progress
  }

  ghost function ProgressOf(id: string, a: Achievement, s: GameState): real
  {
    ProgressWith(id, a, s, TotalBuildingCount(s.buildings))
  }

  /** Whether a locked achievement unlocks at progress `p`. */
  predicate Unlocks(a: Achievement, p: real)
  {
    !a.unlocked && p >= a.target
  }

  /** One achievement after evaluation at progress `p`: unlocked ones are left alone. */
  function Evaluated(a: Achievement, p: real): (r: Achievement)
  {
    if a.unlocked then a
    else if p >= a.target then a.(unlocked := true, progress := p)
    else if p != a.progress then a.(progress := p)
    else a
  }

  /** The reward achievement `id` pays in this call: its shards if it unlocks now, else nothing. */
  ghost function RewardTerm(s: GameState, id: string): real
  {
    if id in s.achievements && Unlocks(s.achievements[id], ProgressOf(id, s.achievements[id], s))
    then s.achievements[id].rewardShards
    else 0.0
  }

  ghost function UpdatedAchievements(s: GameState): map<string, Achievement>
  {
    map id | id in s.achievements :: Evaluated(s.achievements[id], ProgressOf(id, s.achievements[id], s))
  }

  /** The state `checkAchievements` returns, progress writes included. */
  ghost function CheckAchievementsOf(s: GameState): GameState
  {
    s.(achievements := UpdatedAchievements(s), shards := s.shards + SumOver(s.achievements.Keys, s, RewardTerm))
  }

  /**
   * The body of the `forEach` callback for one locked or unlocked
   * achievement: the entry to store and whether it unlocked now.
   */
  method EvaluateAchievement(id: string, achievement: Achievement, s: GameState) returns (next: Achievement, unlockedNow: bool)
    ensures next == Evaluated(achievement, ProgressOf(id, achievement, s))
    ensures unlockedNow == Unlocks(achievement, ProgressOf(id, achievement, s))
  {
    next := achievement;
    unlockedNow := false;
    if achievement.unlocked {
      return;
    }
    var unitTotal := 0.0;
    if id == "first_building" {
      unitTotal := SumBuildingCounts(s.buildings);
    }
    var currentProgress := ProgressWith(id, achievement, s, unitTotal);
    if currentProgress >= achievement.target {
      next := achievement.(unlocked := true, progress := currentProgress);
      unlockedNow := true;
    } else if currentProgress != achievement.progress {
      next := achievement.(progress := currentProgress);
    }
  }

  /**
   * The `forEach` over the achievement ids: the evaluated achievements, the
   * shard total plus the rewards paid now, and whether anything unlocked.
   */
  method EvaluateAll(s: GameState) returns (achievements: map<string, Achievement>, shards: real, updatedAny: bool)
    ensures achievements == UpdatedAchievements(s)
    ensures shards == s.shards + SumOver(s.achievements.Keys, s, RewardTerm)
    ensures !updatedAny ==> shards == s.shards
  {
    achievements := s.achievements;
    shards := s.shards;
    updatedAny := false;
    var remaining := s.achievements.Keys;
    ghost var updated := UpdatedAchievements(s);
    while remaining != {}
      invariant remaining <= s.achievements.Keys
      invariant achievements.Keys == s.achievements.Keys
      invariant forall id :: id in remaining ==> achievements[id] == s.achievements[id]
      invariant forall id :: id in s.achievements && id !in remaining ==> achievements[id] == updated[id]
      invariant shards + SumOver(remaining, s, RewardTerm) == s.shards + SumOver(s.achievements.Keys, s, RewardTerm)
      invariant !updatedAny ==> shards == s.shards
      decreases remaining
    {
      var id :| id in remaining;
      SumRemove(remaining, s, RewardTerm, id);
      var achievement := achievements[id];
      var next, unlockedNow := EvaluateAchievement(id, achievement, s);
      if unlockedNow {
        shards := shards + achievement.rewardShards;
        updatedAny := true;
      }
      achievements := achievements[id := next];
      remaining := remaining - {id};
    }
    assert achievements == updated;
  }

  /** `checkAchievements`. */
  method CheckAchievements(s: GameState) returns (r: GameState)
    ensures r == CheckAchievementsOf(s)
  {
    var achievements, shards, updatedAny := EvaluateAll(s);
    if updatedAny {
      r := s.(achievements := achievements, shards := shards);
    } else {
      // The input state, whose achievement map received the progress writes.
      r := s.(achievements := achievements);
    }
  }

  /** The achievement ids are kept; an unlocked achievement never changes; a locked one unlocks exactly when its counter reaches its target. */
  lemma CheckAchievementsFacts(s: GameState, id: string)
    requires id in s.achievements
    ensures var a := s.achievements[id];
      var r := CheckAchievementsOf(s);
      && r.achievements.Keys == s.achievements.Keys
      && (a.unlocked ==> r.achievements[id] == a)
      && (r.achievements[id].unlocked <==> a.unlocked || ProgressOf(id, a, s) >= a.target)
      && (Unlocks(a, ProgressOf(id, a, s)) ==> r.achievements[id].progress == ProgressOf(id, a, s))
      && r.achievements[id].target == a.target && r.achievements[id].rewardShards == a.rewardShards
  {
  }

  /** Nothing outside the achievements and the shard total changes, and the shards grow by the new rewards only. */
  lemma CheckAchievementsFrame(s: GameState)
    requires forall id :: id in s.achievements ==> s.achievements[id].rewardShards >= 0.0
    ensures var r := CheckAchievementsOf(s);
      && r.(achievements := s.achievements, shards := s.shards) == s
      && r.shards >= s.shards
      && ((forall id :: id in s.achievements ==> !Unlocks(s.achievements[id], ProgressOf(id, s.achievements[id], s)))
          ==> r.shards == s.shards)
  {
    SumNonNegative(s.achievements.Keys, s, RewardTerm);
    if forall id :: id in s.achievements ==> !Unlocks(s.achievements[id], ProgressOf(id, s.achievements[id], s)) {
      SumOfZeros(s.achievements.Keys, s, RewardTerm);
    }
  }

  /** Evaluating twice at the same progress is evaluating once. */
  lemma EvaluatedIdempotent(a: Achievement, p: real)
    ensures Evaluated(Evaluated(a, p), p) == Evaluated(a, p)
    ensures !Unlocks(Evaluated(a, p), p)
  {
  }

  /** A second check right after the first changes nothing: no reward is paid twice. */
  lemma CheckAchievementsIdempotent(s: GameState)
    ensures CheckAchievementsOf(CheckAchievementsOf(s)) == CheckAchievementsOf(s)
  {
    var r := CheckAchievementsOf(s);
    assert r.buildings == s.buildings;
    forall id | id in r.achievements
      ensures ProgressOf(id, r.achievements[id], r) == ProgressOf(id, s.achievements[id], s)
      ensures RewardTerm(r, id) == 0.0
    {
      EvaluatedIdempotent(s.achievements[id], ProgressOf(id, s.achievements[id], s));
    }
    SumOfZeros(r.achievements.Keys, r, RewardTerm);
    forall id | id in r.achievements
      ensures UpdatedAchievements(r)[id] == r.achievements[id]
    {
      EvaluatedIdempotent(s.achievements[id], ProgressOf(id, s.achievements[id], s));
    }
    assert UpdatedAchievements(r) == r.achievements;
  }
}
