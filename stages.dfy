/**
 * The universe stages a run passes through as its flux grows: the stage
 * table, the stage a flux total has reached, the stage after a given one,
 * and whether a stage is unlocked.
 */
module Stages {
  import opened Wrappers

  /** The optional stage bonuses; a stage without a key leaves it undefined. */
  datatype StageBonuses = StageBonuses(
    fluxMultiplier: Option<real>,
    civilizationMultiplier: Option<real>,
    buildingCostReduction: Option<real>,
    echoBonus: Option<real>)

  datatype UniverseStage = UniverseStage(id: string, order: nat, fluxThreshold: real, bonuses: StageBonuses)

  /**
   * `STAGE_ORDER`: the values of `UNIVERSE_STAGES` sorted by `order`. The
   * table is declared in that order already, so the sort leaves it as it is
   * (`StageTableFacts` shows the orders are 0, 1, ..., 5 in sequence).
   */
  const StageOrder: seq<UniverseStage> := [
    UniverseStage("primordial", 0, 0.0, StageBonuses(None, None, None, None)),
    UniverseStage("starbirth", 1, 500.0, StageBonuses(Some(1.1), None, None, None)),
    UniverseStage("planetfall", 2, 5000.0, StageBonuses(Some(1.15), None, Some(0.95), None)),
    UniverseStage("awakening", 3, 50000.0, StageBonuses(Some(1.2), Some(1.1), None, None)),
    UniverseStage("civilizations", 4, 500000.0, StageBonuses(Some(1.3), Some(1.3), None, None)),
    UniverseStage("ascension", 5, 5000000.0, StageBonuses(Some(1.5), Some(1.5), None, Some(1.2)))
  ]

  /**
   * What a lookup in the stage table compares: the id, as
   * `UNIVERSE_STAGES[id]` does, or the order, as
   * `STAGE_ORDER.find((s) => s.order === order)` does.
   */
  datatype StageKey = ById(id: string) | ByOrder(order: nat)

  predicate Matches(stage: UniverseStage, key: StageKey)
  {
    match key
    case ById(id) => stage.id == id
    case ByOrder(order) => stage.order == order
  }

  /** The first stage from index `from` on that matches `key`, if any. */
  function FindStage(key: StageKey, from: nat := 0): (r: Option<UniverseStage>)
    decreases |StageOrder| - from
    ensures r.Some? ==> r.value in StageOrder && Matches(r.value, key)
    ensures r.None? ==> forall i :: from <= i < |StageOrder| ==> !Matches(StageOrder[i], key)
  {
    if from >= |StageOrder| then None
    else if Matches(StageOrder[from], key) then Some(StageOrder[from])
    else FindStage(key, from + 1)
  }

  /**
   * The index `getCurrentStage` settles on when its downward scan starts just
   * below index `i`: the first index below `i` whose threshold the flux
   * meets, or 0 when none does.
   */
  function ScanDown(totalFlux: real, i: nat): (r: nat)
    requires i <= |StageOrder|
    ensures r < |StageOrder|
  {
    if i == 0 then 0
    else if totalFlux >= StageOrder[i - 1].fluxThreshold then i - 1
    else ScanDown(totalFlux, i - 1)
  }

  /** The index in `StageOrder` of the stage `getCurrentStage(totalFlux)` returns. */
  function CurrentStageIndex(totalFlux: real): (r: nat)
    ensures r < |StageOrder|
  {
    ScanDown(totalFlux, |StageOrder|)
  }

  /** `getCurrentStage`. */
  method GetCurrentStage(totalFlux: real) returns (stage: UniverseStage)
    ensures stage == StageOrder[CurrentStageIndex(totalFlux)]
  {
    var i := |StageOrder| - 1;
    while i >= 0
      invariant -1 <= i < |StageOrder|
      invariant CurrentStageIndex(totalFlux) == ScanDown(totalFlux, i + 1)
    {
      if totalFlux >= StageOrder[i].fluxThreshold {
        return StageOrder[i];
      }
      i := i - 1;
    }
    return StageOrder[0];
  }

  /** `getNextStage`: the stage whose order is one more, or none for an unknown id or the last stage. */
  function GetNextStage(currentStageId: string): Option<UniverseStage>
  {
    match FindStage(ById(currentStageId))
    case None => None
    case Some(current) => FindStage(ByOrder(current.order + 1))
  }

  /** `isStageUnlocked`. */
  function IsStageUnlocked(stageId: string, totalFlux: real): bool
  {
    match FindStage(ById(stageId))
    case None => false
    case Some(stage) => totalFlux >= stage.fluxThreshold
  }

  /** Orders run 0..5 in sequence, thresholds rise strictly from 0, and ids are unique. */
  lemma StageTableFacts()
    ensures |StageOrder| == 6
    ensures StageOrder[0].fluxThreshold == 0.0
    ensures forall i :: 0 <= i < |StageOrder| ==> StageOrder[i].order == i
    ensures forall i, j :: 0 <= i < j < |StageOrder| ==> StageOrder[i].fluxThreshold < StageOrder[j].fluxThreshold
    ensures forall i, j :: 0 <= i < j < |StageOrder| ==> StageOrder[i].id != StageOrder[j].id
  {
  }

  /** Looking up the id of the stage at index `i` finds that stage. */
  lemma FindStageAt(i: nat)
    requires i < |StageOrder|
    ensures FindStage(ById(StageOrder[i].id)) == Some(StageOrder[i])
  {
    StageTableFacts();
  }

  lemma {:induction false} ScanDownIsHighestReached(totalFlux: real, i: nat)
    requires i <= |StageOrder|
    ensures var r := ScanDown(totalFlux, i);
      && (r == 0 || r < i)
      && (r == 0 || totalFlux >= StageOrder[r].fluxThreshold)
      && forall j :: r < j < i ==> totalFlux < StageOrder[j].fluxThreshold
  {
    if i > 0 && totalFlux < StageOrder[i - 1].fluxThreshold {
      ScanDownIsHighestReached(totalFlux, i - 1);
    }
  }

  /**
   * The stage reached is the highest whose threshold the flux meets: its
   * threshold is met (for any non-negative flux) and no later stage's is.
   */
  lemma CurrentStageIsHighestReached(totalFlux: real)
    ensures totalFlux >= 0.0 ==> totalFlux >= StageOrder[CurrentStageIndex(totalFlux)].fluxThreshold
    ensures forall j :: CurrentStageIndex(totalFlux) < j < |StageOrder| ==> totalFlux < StageOrder[j].fluxThreshold
  {
    StageTableFacts();
    ScanDownIsHighestReached(totalFlux, |StageOrder|);
  }

  /** More flux never means an earlier stage. */
  lemma CurrentStageMonotone(f: real, g: real)
    requires f <= g
    ensures CurrentStageIndex(f) <= CurrentStageIndex(g)
  {
    StageTableFacts();
    ScanDownIsHighestReached(f, |StageOrder|);
    ScanDownIsHighestReached(g, |StageOrder|);
  }

  /** For non-negative flux, a stage is unlocked exactly when it is at or before the stage reached. */
  lemma UnlockedIffReached(i: nat, totalFlux: real)
    requires i < |StageOrder| && totalFlux >= 0.0
    ensures IsStageUnlocked(StageOrder[i].id, totalFlux) <==> i <= CurrentStageIndex(totalFlux)
  {
    FindStageAt(i);
    CurrentStageIsHighestReached(totalFlux);
    StageTableFacts();
  }

  /** An unknown id is never unlocked and has no next stage. */
  lemma UnknownStage(id: string, totalFlux: real)
    requires forall i :: 0 <= i < |StageOrder| ==> StageOrder[i].id != id
    ensures !IsStageUnlocked(id, totalFlux)
    ensures GetNextStage(id).None?
  {
    assert FindStage(ById(id)).None?;
  }

  /** Each stage but the last is followed by the next in order; the last has none. */
  lemma NextStageIsFollowing(i: nat)
    requires i < |StageOrder|
    ensures i + 1 < |StageOrder| ==> GetNextStage(StageOrder[i].id) == Some(StageOrder[i + 1])
    ensures i + 1 == |StageOrder| ==> GetNextStage(StageOrder[i].id).None?
  {
    FindStageAt(i);
    StageTableFacts();
    if i + 1 < |StageOrder| {
      var r := FindStage(ByOrder(i + 1));
      assert StageOrder[i + 1].order == i + 1;
      assert r.Some?;
    }
  }
}
