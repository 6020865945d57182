/**
 * The state construction of `collapseUniverse`: the next run starts from a
 * fresh initial state, receives the echoes this run pays, and carries a
 * fixed list of fields over; the upgrades paid in echoes stay purchased.
 * The clock reading of the initial state is `now`.
 */
module Api {
  import opened GameTypes
  import Logic
  import Buildings
  import Helpers

  /** An upgrade the collapse keeps: purchased, and paid in echoes. */
  predicate Carried(u: Upgrade)
  {
    u.costCurrency == PayEchoes && u.purchased
  }

  /** The ids the upgrade map of the next run holds: the initial ones and the carried ones. */
  function CarriedIds(previous: map<string, Upgrade>, initial: map<string, Upgrade>): set<string>
  {
    initial.Keys + set id | id in previous && Carried(previous[id])
  }

  /**
   * The entry for `id` after the collapse: a carried upgrade is marked
   * purchased (on its initial record when there is one), any other keeps its
   * initial record.
   */
  function CarriedEntry(previous: map<string, Upgrade>, initial: map<string, Upgrade>, id: string): Upgrade
    requires id in CarriedIds(previous, initial)
  {
    if id in previous && Carried(previous[id]) then
      (if id in initial then initial[id] else previous[id]).(purchased := true)
    else initial[id]
  }

  /** The upgrade map the `forEach` over the old upgrades leaves in the new state. */
  function CarriedUpgrades(previous: map<string, Upgrade>, initial: map<string, Upgrade>): map<string, Upgrade>
  {
    map id | id in CarriedIds(previous, initial) :: CarriedEntry(previous, initial, id)
  }

  /** The spread `{ ...createInitialState(), echoes: ..., autoSaveEnabled: ... }`. */
  function NextRunBase(s: GameState, now: int, echoesEarned: int): GameState
  {
    Logic.CreateInitialState(now, s.achievements).(
      echoes := s.echoes + echoesEarned,
      totalEchoesEver := s.totalEchoesEver + echoesEarned,
      shards := s.shards,
      runNumber := s.runNumber + 1,
      discoveredTraits := s.discoveredTraits,
      achievements := s.achievements,
      soundOn := s.soundOn,
      autoSaveEnabled := s.autoSaveEnabled)
  }

  /** The state `collapseUniverse` builds from `s`. */
  function CollapseOf(s: GameState, now: int): GameState
    requires s.totalFluxEarned >= 0.0 && s.civilization >= 0.0
  {
    var base := NextRunBase(s, now, Logic.EchoesFromRun(s));
    base.(upgrades := CarriedUpgrades(s.upgrades, base.upgrades))
  }

  /** `collapseUniverse`, up to the point where the new state is saved. */
  method CollapseUniverse(s: GameState, now: int) returns (r: GameState)
    requires s.totalFluxEarned >= 0.0 && s.civilization >= 0.0
    ensures r == CollapseOf(s, now)
  {
    var echoesEarned := Logic.EchoesFromRun(s);
    var newState := NextRunBase(s, now, echoesEarned);
    var initial := newState.upgrades;
    var upgrades := initial;
    var remaining := s.upgrades.Keys;
    while remaining != {}
      invariant remaining <= s.upgrades.Keys
      invariant forall id :: id in upgrades <==>
        id in initial || (id in s.upgrades && id !in remaining && Carried(s.upgrades[id]))
      invariant forall id :: id in upgrades ==>
        upgrades[id] == if id in remaining then initial[id] else CarriedEntry(s.upgrades, initial, id)
      decreases remaining
    {
      var upgradeId :| upgradeId in remaining;
      var upgrade := s.upgrades[upgradeId];
      if upgrade.costCurrency == PayEchoes && upgrade.purchased {
        var entry := if upgradeId in upgrades then upgrades[upgradeId] else upgrade;
        upgrades := upgrades[upgradeId := entry.(purchased := true)];
      }
      remaining := remaining - {upgradeId};
    }
    assert upgrades == CarriedUpgrades(s.upgrades, initial);
    r := newState.(upgrades := upgrades);
  }

  /**
   * The echoes of the run are paid into both echo totals, which therefore
   * grow by at least one; the run number goes up by one; shards,
   * discovered traits, achievements and the two settings are kept; the
   * rest is the initial state of a new run, meta-upgrade levels included,
   * which are gone.
   */
  lemma CollapseFields(s: GameState, now: int)
    requires s.totalFluxEarned >= 0.0 && s.civilization >= 0.0
    ensures var r := CollapseOf(s, now);
      && r.echoes == s.echoes + Logic.EchoesFromRun(s) > s.echoes
      && r.totalEchoesEver == s.totalEchoesEver + Logic.EchoesFromRun(s) > s.totalEchoesEver
      && r.runNumber == s.runNumber + 1
      && r.shards == s.shards && r.discoveredTraits == s.discoveredTraits && r.achievements == s.achievements
      && r.soundOn == s.soundOn && r.autoSaveEnabled == s.autoSaveEnabled
      && r.sparks == 0.0 && r.flux == 0.0 && r.civilization == 0.0 && r.anomalies == 0
      && r.totalFluxEarned == 0.0 && r.totalSparksEarned == 0.0 && r.totalRunTime == 0.0 && r.totalClicks == 0
      && r.activeTraits == [] && r.runStartTime == now && r.lastTickTime == now
      && r.buildings.Keys == Buildings.DefinitionKeys() && (forall id :: id in r.buildings ==> r.buildings[id].count == 0)
      && r.metaUpgrades.None? && r.currentStageId.None? && r.dailyTasks == []
  {
    Logic.InitialStateFacts(now, s.achievements);
    Logic.EchoesMonotone(s, s);
  }

  /**
   * An upgrade of the table is purchased after the collapse exactly when it
   * was purchased and paid in echoes before; its other fields are the initial
   * ones. A state whose upgrade ids are table ids keeps exactly the table ids.
   */
  lemma CollapseUpgrades(s: GameState, now: int)
    requires s.totalFluxEarned >= 0.0 && s.civilization >= 0.0
    ensures var r := CollapseOf(s, now);
      var initial := Logic.CreateInitialState(now, s.achievements).upgrades;
      && initial.Keys <= r.upgrades.Keys
      && (forall id :: id in initial ==>
            (r.upgrades[id].purchased <==> id in s.upgrades && Carried(s.upgrades[id]))
            && r.upgrades[id].(purchased := false) == initial[id])
      && (s.upgrades.Keys <= initial.Keys ==> r.upgrades.Keys == initial.Keys)
  {
    Logic.InitialStateFacts(now, s.achievements);
  }

  /** Since the levels are gone, the next run's meta bonuses are the defaults whatever was bought. */
  lemma CollapseForgetsMetaBonuses(s: GameState, now: int)
    requires s.totalFluxEarned >= 0.0 && s.civilization >= 0.0
    ensures Helpers.MetaBonusesOf(Helpers.MetaLevels(CollapseOf(s, now))) == Helpers.DefaultMetaBonuses
  {
    Helpers.NoMetaUpgradesGiveDefaults(CollapseOf(s, now));
  }
}
