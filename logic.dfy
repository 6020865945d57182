/**
 * The economy rules of a run: the initial state, click power, building
 * production, trait-adjusted prices, affordability and the echo payout of
 * a collapse.
 */
module Logic {
  import opened Wrappers
  import opened Numeric
  import opened GameTypes
  import Buildings
  import Upgrades
  import Traits

  /**
   * `createInitialState`. The clock reading (`new Date()`) is `now`; the
   * achievement table comes from `createAchievements`, whose file is not
   * part of this model, and is the parameter `achievements`. The fields
   * the source leaves out of the literal are absent (`None`, or `[]` for
   * the daily-task list).
   */
  function CreateInitialState(now: int, achievements: map<string, Achievement>): GameState
  {
    GameState(
      version := 1,
      sparks := 0.0, flux := 0.0, civilization := 0.0, anomalies := 0,
      echoes := 0, totalEchoesEver := 0, shards := 0.0,
      buildings := Buildings.FreshBuildings(),
      upgrades := Upgrades.CreateUpgrades(),
      achievements := achievements,
      activeTraits := [], discoveredTraits := [],
      runNumber := 0, runStartTime := now, lastTickTime := now, lastUpdateTime := None,
      totalRunTime := 0.0,
      totalClicks := 0, totalSparksEarned := 0.0, totalFluxEarned := 0.0,
      currentStageId := None, highestStageReached := None,
      metaUpgrades := None,
      dailyTasks := [], dailyTasksLastReset := None,
      dailyCollapses := None, dailyRareTraitRuns := None, dailyBuildingsPurchased := None,
      tutorial := None, offlineGainsClaimed := None,
      soundOn := true, autoSaveEnabled := true)
  }

  /** A fresh run: nothing owned, nothing bought, no traits, no meta levels, counters at zero. */
  lemma InitialStateFacts(now: int, achievements: map<string, Achievement>)
    ensures var s := CreateInitialState(now, achievements);
      && s.sparks == s.flux == s.civilization == 0.0 && s.echoes == 0 && s.shards == 0.0
      && s.activeTraits == [] && s.runNumber == 0 && s.totalClicks == 0
      && s.buildings.Keys == Buildings.DefinitionKeys()
      && (forall id :: id in s.buildings ==> s.buildings[id].count == 0)
      && (forall id :: id in s.upgrades ==> !s.upgrades[id].purchased)
      && s.metaUpgrades.None?
      && s.achievements == achievements
  {
    Buildings.FreshBuildingsMatchTable();
    Upgrades.CreateUpgradesMatchTable();
  }

  // ---------------------------------------------------------------------------
  // Trait modifiers
  // ---------------------------------------------------------------------------

  /** Which trait modifier a rule reads. */
  datatype TraitModifierKey =
    | SparkClick
    | ResourceOutput(resource: Resource)
    | BuildingOutput(buildingId: string)
    | BuildingCost
    | UpgradeCost

  /** `TRAITS[traitId]` for each active trait id, in order. */
  function LookUpTraits(ids: seq<string>): (r: seq<Option<Traits.Trait>>)
    ensures |r| == |ids|
    ensures forall i :: 0 <= i < |ids| ==> r[i] == Traits.FindTrait(ids[i])
  {
    seq(|ids|, i requires 0 <= i < |ids| => Traits.FindTrait(ids[i]))
  }

  /**
   * The factor one looked-up active trait contributes for `key`: the
   * modifier when the trait exists and the modifier is present and non-zero
   * (`if (m) x *= m`), and 1 otherwise.
   */
  function TraitFactor(key: TraitModifierKey, entry: Option<Traits.Trait>): real
  {
    match entry
    case None => 1.0
    case Some(t) =>
      var m := t.modifiers;
      match key
      case SparkClick => MultiplierOrOne(m.sparkClickMultiplier)
      case ResourceOutput(Flux) => MultiplierOrOne(m.fluxMultiplier)
      case ResourceOutput(Civilization) => MultiplierOrOne(m.civilizationMultiplier)
      case BuildingOutput(id) =>
        if m.buildingMultipliers.Some? && id in m.buildingMultipliers.value
        then MultiplierOrOne(Some(m.buildingMultipliers.value[id]))
        else 1.0
      case BuildingCost => MultiplierOrOne(m.buildingCostMultiplier)
      case UpgradeCost => MultiplierOrOne(m.upgradeCostMultiplier)
  }

  /** The product of the factors of all active traits for `key`. */
  function TraitProduct(ids: seq<string>, key: TraitModifierKey): real
  {
    SeqProduct(LookUpTraits(ids), key, TraitFactor)
  }

  // ---------------------------------------------------------------------------
  // Click power
  // ---------------------------------------------------------------------------

  /** An upgrade's factor in click power: its value if it is a purchased `multiplier` on sparks, else 1. */
  function ClickUpgradeFactor(upgrades: map<string, Upgrade>, id: string): real
  {
    if id in upgrades && upgrades[id].purchased && upgrades[id].effect.target == TargetSparks
       && upgrades[id].effect.kind == Multiplier
    then upgrades[id].effect.value
    else 1.0
  }

  /** Click power: 1 times every purchased sparks multiplier times every active trait's `sparkClickMultiplier`. */
  ghost function ClickPowerOf(s: GameState): real
  {
    ProductOver(s.upgrades.Keys, s.upgrades, ClickUpgradeFactor) * TraitProduct(s.activeTraits, SparkClick)
  }

  /** `calculateClickPower`. */
  method CalculateClickPower(s: GameState) returns (power: real)
    ensures power == ClickPowerOf(s)
  {
    power := 1.0;
    power := ScaleByProduct(power, s.upgrades.Keys, s.upgrades, ClickUpgradeFactor);
    power := ScaleBySeqProduct(power, LookUpTraits(s.activeTraits), SparkClick, TraitFactor);
  }

  /** With no purchased upgrade and no active trait, a click is worth exactly 1 spark. */
  lemma ClickPowerBaseline(s: GameState)
    requires forall id :: id in s.upgrades ==> !s.upgrades[id].purchased
    requires s.activeTraits == []
    ensures ClickPowerOf(s) == 1.0
  {
    ProductOfOnes(s.upgrades.Keys, s.upgrades, ClickUpgradeFactor);
  }

  /**
   * Purchasing an upgrade multiplies click power by its value exactly when
   * it is a sparks `multiplier`; any other upgrade leaves click power alone.
   */
  lemma PurchaseScalesClickPower(s: GameState, id: string)
    requires id in s.upgrades && !s.upgrades[id].purchased
    ensures var u := s.upgrades[id];
      var t := s.(upgrades := s.upgrades[id := u.(purchased := true)]);
      ClickPowerOf(t) ==
        (if u.effect.target == TargetSparks && u.effect.kind == Multiplier then u.effect.value else 1.0) * ClickPowerOf(s)
  {
    var u := s.upgrades[id];
    var t := s.(upgrades := s.upgrades[id := u.(purchased := true)]);
    var v := if u.effect.target == TargetSparks && u.effect.kind == Multiplier then u.effect.value else 1.0;
    var rest := ProductOver(s.upgrades.Keys - {id}, s.upgrades, ClickUpgradeFactor);
    var traits := TraitProduct(s.activeTraits, SparkClick);
    ClickPowerBeforePurchase(s, id);
    ClickPowerAfterPurchase(s, id);
    ScaledProduct(ClickPowerOf(t), ClickPowerOf(s), v, rest, traits);
  }

  lemma ClickPowerBeforePurchase(s: GameState, id: string)
    requires id in s.upgrades && !s.upgrades[id].purchased
    ensures ClickPowerOf(s) == (1.0 * ProductOver(s.upgrades.Keys - {id}, s.upgrades, ClickUpgradeFactor)) * TraitProduct(s.activeTraits, SparkClick)
  {
    ClickPowerSplit(s, id);
  }

  lemma ClickPowerAfterPurchase(s: GameState, id: string)
    requires id in s.upgrades
    ensures var u := s.upgrades[id];
      ClickPowerOf(s.(upgrades := s.upgrades[id := u.(purchased := true)])) ==
        ((if u.effect.target == TargetSparks && u.effect.kind == Multiplier then u.effect.value else 1.0)
          * ProductOver(s.upgrades.Keys - {id}, s.upgrades, ClickUpgradeFactor)) * TraitProduct(s.activeTraits, SparkClick)
  {
    var u := s.upgrades[id];
    PurchasedProduct(s.upgrades, id);
    assert ClickPowerOf(s.(upgrades := s.upgrades[id := u.(purchased := true)])) ==
      ProductOver(s.upgrades[id := u.(purchased := true)].Keys, s.upgrades[id := u.(purchased := true)], ClickUpgradeFactor)
      * TraitProduct(s.activeTraits, SparkClick);
  }

  /** The click-upgrade product once `id` is purchased. */
  lemma PurchasedProduct(upgrades: map<string, Upgrade>, id: string)
    requires id in upgrades
    ensures var u := upgrades[id];
      ProductOver(upgrades[id := u.(purchased := true)].Keys, upgrades[id := u.(purchased := true)], ClickUpgradeFactor) ==
        (if u.effect.target == TargetSparks && u.effect.kind == Multiplier then u.effect.value else 1.0)
          * ProductOver(upgrades.Keys - {id}, upgrades, ClickUpgradeFactor)
  {
    var u := upgrades[id];
    var ups := upgrades[id := u.(purchased := true)];
    assert ups.Keys == upgrades.Keys;
    ProductReplace(upgrades.Keys, upgrades, ups, ClickUpgradeFactor, id);
  }

  lemma ScaledProduct(after: real, before: real, v: real, rest: real, traits: real)
    requires after == (v * rest) * traits && before == (1.0 * rest) * traits
    ensures after == v * before
  {
    MulAssoc(v, rest, traits);
  }

  /** Click power with one upgrade's factor taken out of the product. */
  lemma ClickPowerSplit(s: GameState, id: string)
    requires id in s.upgrades
    ensures ClickPowerOf(s) == (ClickUpgradeFactor(s.upgrades, id) * ProductOver(s.upgrades.Keys - {id}, s.upgrades, ClickUpgradeFactor))
      * TraitProduct(s.activeTraits, SparkClick)
  {
    ProductRemove(s.upgrades.Keys, s.upgrades, ClickUpgradeFactor, id);
  }

  // ---------------------------------------------------------------------------
  // Building production
  // ---------------------------------------------------------------------------

  /** An upgrade's factor for building `ctx.1`: a purchased `multiplier` targeting that building. */
  function BuildingUpgradeFactor(ctx: (map<string, Upgrade>, string), id: string): real
  {
    var (upgrades, buildingId) := ctx;
    if id in upgrades && upgrades[id].purchased && upgrades[id].effect.target == TargetBuilding
       && upgrades[id].effect.buildingId == Some(buildingId) && upgrades[id].effect.kind == Multiplier
    then upgrades[id].effect.value
    else 1.0
  }

  /** An upgrade's factor for a building producing `ctx.1`: a purchased `multiplier` on that resource or global. */
  function ResourceUpgradeFactor(ctx: (map<string, Upgrade>, Resource), id: string): real
  {
    var (upgrades, resource) := ctx;
    if id in upgrades && upgrades[id].purchased
       && (upgrades[id].effect.target == ResourceTarget(resource) || upgrades[id].effect.target == TargetGlobal)
       && upgrades[id].effect.kind == Multiplier
    then upgrades[id].effect.value
    else 1.0
  }

  /**
   * Everything a building's raw rate is multiplied by, in the order
   * `calculateBuildingProduction` applies it: its own upgrades, the traits'
   * building multipliers, the traits' resource multipliers, and the
   * resource and global upgrades. It depends on the building's id and
   * resource only, not on its count.
   */
  ghost function ProductionMultiplierOf(id: string, resource: Resource, s: GameState): real
  {
    ProductOver(s.upgrades.Keys, (s.upgrades, id), BuildingUpgradeFactor)
    * TraitProduct(s.activeTraits, BuildingOutput(id))
    * TraitProduct(s.activeTraits, ResourceOutput(resource))
    * ProductOver(s.upgrades.Keys, (s.upgrades, resource), ResourceUpgradeFactor)
  }

  /** The production rate of building `b` in state `s`: its raw rate times each multiplier in turn. */
  ghost function BuildingProductionOf(b: Building, s: GameState): real
  {
    Buildings.GetBuildingProduction(b)
    * ProductOver(s.upgrades.Keys, (s.upgrades, b.id), BuildingUpgradeFactor)
    * TraitProduct(s.activeTraits, BuildingOutput(b.id))
    * TraitProduct(s.activeTraits, ResourceOutput(b.resourceProduced))
    * ProductOver(s.upgrades.Keys, (s.upgrades, b.resourceProduced), ResourceUpgradeFactor)
  }

  /** `calculateBuildingProduction`. */
  method CalculateBuildingProduction(b: Building, s: GameState) returns (production: real)
    ensures production == BuildingProductionOf(b, s)
  {
    var entries := LookUpTraits(s.activeTraits);
    var raw := Buildings.GetBuildingProduction(b);
    var own := ScaleByProduct(raw, s.upgrades.Keys, (s.upgrades, b.id), BuildingUpgradeFactor);
    var traitBuilding := ScaleBySeqProduct(own, entries, BuildingOutput(b.id), TraitFactor);
    var traitResource := ScaleBySeqProduct(traitBuilding, entries, ResourceOutput(b.resourceProduced), TraitFactor);
    production := ScaleByProduct(traitResource, s.upgrades.Keys, (s.upgrades, b.resourceProduced), ResourceUpgradeFactor);
    ProductionSteps(b, s, own, traitBuilding, traitResource, production);
  }

  /** The four scalings of `calculateBuildingProduction`, in turn, give the production rate. */
  lemma ProductionSteps(b: Building, s: GameState, own: real, traitBuilding: real, traitResource: real, production: real)
    requires own == Buildings.GetBuildingProduction(b) * ProductOver(s.upgrades.Keys, (s.upgrades, b.id), BuildingUpgradeFactor)
    requires traitBuilding == own * SeqProduct(LookUpTraits(s.activeTraits), BuildingOutput(b.id), TraitFactor)
    requires traitResource == traitBuilding * SeqProduct(LookUpTraits(s.activeTraits), ResourceOutput(b.resourceProduced), TraitFactor)
    requires production == traitResource * ProductOver(s.upgrades.Keys, (s.upgrades, b.resourceProduced), ResourceUpgradeFactor)
    ensures production == BuildingProductionOf(b, s)
  {
  }

  /** Production is the raw rate times a multiplier that depends on the building's id and resource only. */
  lemma ProductionIsRawTimesMultiplier(b: Building, s: GameState)
    ensures BuildingProductionOf(b, s) == Buildings.GetBuildingProduction(b) * ProductionMultiplierOf(b.id, b.resourceProduced, s)
  {
    var raw := Buildings.GetBuildingProduction(b);
    var p1 := ProductOver(s.upgrades.Keys, (s.upgrades, b.id), BuildingUpgradeFactor);
    var p2 := TraitProduct(s.activeTraits, BuildingOutput(b.id));
    var p3 := TraitProduct(s.activeTraits, ResourceOutput(b.resourceProduced));
    var p4 := ProductOver(s.upgrades.Keys, (s.upgrades, b.resourceProduced), ResourceUpgradeFactor);
    MulAssoc4(raw, p1, p2, p3, p4);
  }

  /** No units produce nothing; each further unit adds the same amount, its raw rate times the multipliers. */
  lemma ProductionLinearInCount(b: Building, s: GameState)
    ensures b.count == 0 ==> BuildingProductionOf(b, s) == 0.0
    ensures BuildingProductionOf(b.(count := b.count + 1), s)
      == BuildingProductionOf(b, s) + b.baseRate * ProductionMultiplierOf(b.id, b.resourceProduced, s)
  {
    ProductionIsRawTimesMultiplier(b, s);
    ProductionIsRawTimesMultiplier(b.(count := b.count + 1), s);
    var m := ProductionMultiplierOf(b.id, b.resourceProduced, s);
    DistributeUnit(b.baseRate, b.count as real, m);
  }

  /** The production of one building in each resource, as `getTotalProduction` buckets it. */
  ghost function FluxTerm(s: GameState, key: string): real
  {
    if key in s.buildings && s.buildings[key].resourceProduced == Flux then BuildingProductionOf(s.buildings[key], s) else 0.0
  }

  ghost function CivilizationTerm(s: GameState, key: string): real
  {
    if key in s.buildings && s.buildings[key].resourceProduced == Civilization then BuildingProductionOf(s.buildings[key], s) else 0.0
  }

  datatype Production = Production(fluxPerSecond: real, civilizationPerSecond: real)

  /** The flux and civilization per second of all buildings together. */
  ghost function TotalProductionOf(s: GameState): Production
  {
    Production(SumOver(s.buildings.Keys, s, FluxTerm), SumOver(s.buildings.Keys, s, CivilizationTerm))
  }

  /** `getTotalProduction`. */
  method GetTotalProduction(s: GameState) returns (p: Production)
    ensures p == TotalProductionOf(s)
  {
    var fluxPerSecond := 0.0;
    var civilizationPerSecond := 0.0;
    var remaining := s.buildings.Keys;
    while remaining != {}
      invariant remaining <= s.buildings.Keys
      invariant fluxPerSecond + SumOver(remaining, s, FluxTerm) == SumOver(s.buildings.Keys, s, FluxTerm)
      invariant civilizationPerSecond + SumOver(remaining, s, CivilizationTerm) == SumOver(s.buildings.Keys, s, CivilizationTerm)
      decreases remaining
    {
      var key :| key in remaining;
      var building := s.buildings[key];
      var production := CalculateBuildingProduction(building, s);
      SumRemove(remaining, s, FluxTerm, key);
      SumRemove(remaining, s, CivilizationTerm, key);
      if building.resourceProduced == Flux {
        fluxPerSecond := fluxPerSecond + production;
      } else if building.resourceProduced == Civilization {
        civilizationPerSecond := civilizationPerSecond + production;
      }
      remaining := remaining - {key};
    }
    p := Production(fluxPerSecond, civilizationPerSecond);
  }

  /** With no units anywhere, there is no production at all. */
  lemma NoBuildingsNoProduction(s: GameState)
    requires forall key :: key in s.buildings ==> s.buildings[key].count == 0
    ensures TotalProductionOf(s) == Production(0.0, 0.0)
  {
    forall key | key in s.buildings
      ensures FluxTerm(s, key) == 0.0 && CivilizationTerm(s, key) == 0.0
    {
      ProductionLinearInCount(s.buildings[key], s);
    }
    SumOfZeros(s.buildings.Keys, s, FluxTerm);
    SumOfZeros(s.buildings.Keys, s, CivilizationTerm);
  }

  /** One building with a non-negative rate and multiplier produces a non-negative amount. */
  lemma BuildingProductionNonNegative(b: Building, s: GameState)
    requires b.baseRate >= 0.0 && ProductionMultiplierOf(b.id, b.resourceProduced, s) >= 0.0
    ensures BuildingProductionOf(b, s) >= 0.0
  {
    ProductionIsRawTimesMultiplier(b, s);
    NonNegativeProduct(b.baseRate, b.count as real, ProductionMultiplierOf(b.id, b.resourceProduced, s));
  }

  /** Non-negative rates and multipliers give non-negative production. */
  lemma ProductionNonNegative(s: GameState)
    requires forall key :: key in s.buildings ==> s.buildings[key].baseRate >= 0.0
    requires forall key :: key in s.buildings ==> ProductionMultiplierOf(s.buildings[key].id, s.buildings[key].resourceProduced, s) >= 0.0
    ensures TotalProductionOf(s).fluxPerSecond >= 0.0 && TotalProductionOf(s).civilizationPerSecond >= 0.0
  {
    forall key | key in s.buildings
      ensures FluxTerm(s, key) >= 0.0 && CivilizationTerm(s, key) >= 0.0
    {
      BuildingProductionNonNegative(s.buildings[key], s);
    }
    SumNonNegative(s.buildings.Keys, s, FluxTerm);
    SumNonNegative(s.buildings.Keys, s, CivilizationTerm);
  }

  // ---------------------------------------------------------------------------
  // Prices and affordability
  // ---------------------------------------------------------------------------

  datatype CostKind = BuildingPurchase | UpgradePurchase

  function CostKey(kind: CostKind): TraitModifierKey
  {
    match kind
    case BuildingPurchase => BuildingCost
    case UpgradePurchase => UpgradeCost
  }

  /** The trait-adjusted price: the base price times the matching trait multipliers, rounded down. */
  function AdjustedCost(baseCost: real, kind: CostKind, activeTraits: seq<string>): int
  {
    (baseCost * TraitProduct(activeTraits, CostKey(kind))).Floor
  }

  /** `applyTraitModifiersToCost`: the `forEach` over the active traits scales the price by each one's factor. */
  method ApplyTraitModifiersToCost(baseCost: real, kind: CostKind, s: GameState) returns (cost: int)
    ensures cost == AdjustedCost(baseCost, kind, s.activeTraits)
  {
    var c := ScaleBySeqProduct(baseCost, LookUpTraits(s.activeTraits), CostKey(kind), TraitFactor);
    cost := c.Floor;
  }

  /** Trait price factors are at most 1 for buildings and at least 1 for upgrades. */
  lemma TraitCostFactorBounds(traitId: string)
    ensures var entry := Traits.FindTrait(traitId);
      && 0.0 < TraitFactor(BuildingCost, entry) <= 1.0
      && TraitFactor(UpgradeCost, entry) >= 1.0
  {
    Traits.TraitTableFacts();
    Traits.FindTraitFacts(traitId);
    var t := Traits.FindTrait(traitId);
    if t.Some? {
      var i :| 0 <= i < |Traits.TraitList| && Traits.TraitList[i] == t.value;
      assert i == 0 || i == 1 || i == 2 || i == 3 || i == 4 || i == 5 || i == 6 || i == 7 || i == 8 || i == 9;
    }
  }

  /** With no active traits the price is the base price rounded down. */
  lemma AdjustedCostWithoutTraits(baseCost: real, kind: CostKind)
    ensures AdjustedCost(baseCost, kind, []) == baseCost.Floor
  {
    assert LookUpTraits([]) == [];
  }

  /** Traits never raise a building's price. */
  lemma BuildingCostNeverRaised(baseCost: real, activeTraits: seq<string>)
    requires baseCost >= 0.0
    ensures 0 <= AdjustedCost(baseCost, BuildingPurchase, activeTraits) <= baseCost.Floor
  {
    var entries := LookUpTraits(activeTraits);
    forall i | 0 <= i < |entries|
      ensures 0.0 <= TraitFactor(BuildingCost, entries[i]) <= 1.0
    {
      TraitCostFactorBounds(activeTraits[i]);
    }
    SeqProductAtMostOne(entries, BuildingCost, TraitFactor);
    FloorScaledDown(baseCost, TraitProduct(activeTraits, BuildingCost));
  }

  /** Traits never lower an upgrade's price. */
  lemma UpgradeCostNeverLowered(baseCost: real, activeTraits: seq<string>)
    requires baseCost >= 0.0
    ensures AdjustedCost(baseCost, UpgradePurchase, activeTraits) >= baseCost.Floor
  {
    var entries := LookUpTraits(activeTraits);
    forall i | 0 <= i < |entries|
      ensures TraitFactor(UpgradeCost, entries[i]) >= 1.0
    {
      TraitCostFactorBounds(activeTraits[i]);
    }
    SeqProductAtLeastOne(entries, UpgradeCost, TraitFactor);
    FloorScaledUp(baseCost, TraitProduct(activeTraits, UpgradeCost));
  }

  /** `canAffordUpgrade`: the balance of the upgrade's own currency covers its listed price. */
  function CanAffordUpgrade(u: Upgrade, s: GameState): bool
  {
    Balance(s, u.costCurrency) >= u.cost
  }

  /** `canAffordBuilding`: sparks cover the unmodified price of the next unit. */
  function CanAffordBuilding(b: Building, s: GameState): bool
  {
    s.sparks >= Buildings.GetBuildingCost(b) as real
  }

  // ---------------------------------------------------------------------------
  // Echo payout
  // ---------------------------------------------------------------------------

  /**
   * `calculateEchoesFromRun`: floor(sqrt(flux earned) / 10) + floor(sqrt(civilization) / 20)
   * + floor(run seconds / 60), at least 1. For x >= 0, floor(sqrt(x) / k)
   * is the integer square root of floor(x), divided by k and rounded down.
   */
  function EchoesFromRun(s: GameState): int
    requires s.totalFluxEarned >= 0.0 && s.civilization >= 0.0
  {
    var baseEchoes := Isqrt(s.totalFluxEarned.Floor) / 10;
    var civBonus := Isqrt(s.civilization.Floor) / 20;
    var timeBonus := (s.totalRunTime / 60.0).Floor;
    if baseEchoes + civBonus + timeBonus > 1 then baseEchoes + civBonus + timeBonus else 1
  }

  /** A collapse pays at least one echo, and more flux, civilization or run time never pays fewer. */
  lemma EchoesMonotone(s: GameState, t: GameState)
    requires 0.0 <= s.totalFluxEarned <= t.totalFluxEarned
    requires 0.0 <= s.civilization <= t.civilization
    requires s.totalRunTime <= t.totalRunTime
    ensures 1 <= EchoesFromRun(s) <= EchoesFromRun(t)
  {
    FloorMonotone(s.totalFluxEarned, t.totalFluxEarned);
    FloorMonotone(s.civilization, t.civilization);
    FloorMonotone(s.totalRunTime / 60.0, t.totalRunTime / 60.0);
    IsqrtMonotone(s.totalFluxEarned.Floor, t.totalFluxEarned.Floor);
    IsqrtMonotone(s.civilization.Floor, t.civilization.Floor);
  }

  /** 10000 flux, 400 civilization and two minutes pay 10 + 1 + 2 = 13 echoes. */
  lemma EchoesExample(s: GameState)
    requires s.totalFluxEarned == 10000.0 && s.civilization == 400.0 && s.totalRunTime == 120.0
    ensures EchoesFromRun(s) == 13
  {
    var flux, civilization := s.totalFluxEarned.Floor, s.civilization.Floor;
    assert flux == 10000 && civilization == 400;
    IsqrtUnique(flux, 100);
    IsqrtUnique(civilization, 20);
    assert Isqrt(flux) / 10 == 10;
    assert Isqrt(civilization) / 20 == 1;
    assert (s.totalRunTime / 60.0).Floor == 2;
  }

  /** Meta-upgrade levels and the current stage play no part in click power or building production. */
  lemma ProductionIgnoresMetaAndStage(s: GameState, meta: Option<map<string, nat>>, stage: Option<string>, b: Building)
    ensures var t := s.(metaUpgrades := meta, currentStageId := stage, highestStageReached := stage);
      && ClickPowerOf(t) == ClickPowerOf(s)
      && BuildingProductionOf(b, t) == BuildingProductionOf(b, s)
      && TotalProductionOf(t) == TotalProductionOf(s)
  {
    var t := s.(metaUpgrades := meta, currentStageId := stage, highestStageReached := stage);
    SameInputsSameProduction(s, t);
    assert BuildingProductionOf(b, t) == BuildingProductionOf(b, s);
  }

  /** Click power and production read only the upgrades, the active traits and the buildings. */
  lemma SameInputsSameProduction(s: GameState, t: GameState)
    requires t.upgrades == s.upgrades && t.activeTraits == s.activeTraits && t.buildings == s.buildings
    ensures ClickPowerOf(t) == ClickPowerOf(s)
    ensures forall b :: BuildingProductionOf(b, t) == BuildingProductionOf(b, s)
    ensures TotalProductionOf(t) == TotalProductionOf(s)
  {
    forall b
      ensures BuildingProductionOf(b, t) == BuildingProductionOf(b, s)
    {
      SameInputsSameRate(s, t, b);
    }
    forall key | key in s.buildings
      ensures FluxTerm(t, key) == FluxTerm(s, key)
    {
      SameInputsSameRate(s, t, s.buildings[key]);
    }
    forall key | key in s.buildings
      ensures CivilizationTerm(t, key) == CivilizationTerm(s, key)
    {
      SameInputsSameRate(s, t, s.buildings[key]);
    }
    SumCongruent(s.buildings.Keys, t, FluxTerm, s, FluxTerm);
    SumCongruent(s.buildings.Keys, t, CivilizationTerm, s, CivilizationTerm);
  }

  lemma SameInputsSameRate(s: GameState, t: GameState, b: Building)
    requires t.upgrades == s.upgrades && t.activeTraits == s.activeTraits
    ensures BuildingProductionOf(b, t) == BuildingProductionOf(b, s)
  {
  }

  /** Meta-upgrade levels and the current stage play no part in prices, affordability or the echo payout. */
  lemma PricesIgnoreMetaAndStage(s: GameState, meta: Option<map<string, nat>>, stage: Option<string>, b: Building, u: Upgrade, base: real, kind: CostKind)
    requires s.totalFluxEarned >= 0.0 && s.civilization >= 0.0
    ensures var t := s.(metaUpgrades := meta, currentStageId := stage, highestStageReached := stage);
      && AdjustedCost(base, kind, t.activeTraits) == AdjustedCost(base, kind, s.activeTraits)
      && CanAffordBuilding(b, t) == CanAffordBuilding(b, s)
      && CanAffordUpgrade(u, t) == CanAffordUpgrade(u, s)
      && EchoesFromRun(t) == EchoesFromRun(s)
  {
  }
}
