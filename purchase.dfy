/**
 * Bulk buying: the price of the next `n` units of a building, and the
 * largest affordable number of units (at most 1001, see below).
 */
module Purchase {
  import opened GameTypes
  import opened Numeric
  import opened Buildings

  /** `amount: number | 'max'`. A number may be fractional or negative; no caller in the source passes one. */
  datatype Amount = Units(n: real) | MaxAffordable

  /** `{ count, totalCost }`. */
  datatype BulkQuote = BulkQuote(count: int, totalCost: int)

  /** The price of the `n` units bought one after another, starting with `from` already owned. */
  function CostOfNext(b: Building, from: nat, n: nat): int
    decreases n
  {
    if n == 0 then 0 else CostOfNext(b, from, n - 1) + GetBuildingCost(b, from + n - 1)
  }

  /**
   * A correct answer to "how many can I buy with `sparks`": every prefix is
   * affordable, the quoted total is the price of `count` units, and either
   * the next unit would not fit or the 1001-unit cap was hit.
   */
  ghost predicate IsMaxBuy(b: Building, sparks: real, q: BulkQuote)
  {
    && 0 <= q.count <= 1001
    && q.totalCost == CostOfNext(b, b.count, q.count)
    && (forall i: nat :: 0 < i <= q.count ==> CostOfNext(b, b.count, i) as real <= sparks)
    && (q.count <= 1000 ==> CostOfNext(b, b.count, q.count + 1) as real > sparks)
  }

  /** `calculateMaxBuy`. The cap test runs after the increment, so the count can reach 1001. */
  method CalculateMaxBuy(b: Building, s: GameState) returns (q: BulkQuote)
    ensures IsMaxBuy(b, s.sparks, q)
  {
    var availableSparks := s.sparks;
    var count: nat := 0;
    var totalCost := 0;
    while true
      invariant count <= 1000
      invariant totalCost == CostOfNext(b, b.count, count)
      invariant forall i: nat :: 0 < i <= count ==> CostOfNext(b, b.count, i) as real <= availableSparks
      decreases 1000 - count
    {
      var nextCost := GetBuildingCost(b, b.count + count);
      if (totalCost + nextCost) as real > availableSparks {
        break;
      }
      totalCost := totalCost + nextCost;
      count := count + 1;
      if count > 1000 {
        break;
      }
    }
    q := BulkQuote(count, totalCost);
  }

  /**
   * How many times `for (let i = 0; i < amount; i++)` runs: the least whole
   * number at least `amount`, or 0 when `amount` is not positive.
   */
  function LoopRuns(amount: real): (k: nat)
    ensures amount <= 0.0 ==> k == 0
    ensures amount > 0.0 ==> amount <= k as real < amount + 1.0
  {
    if amount <= 0.0 then 0 else -((-amount).Floor)
  }

  /** A whole amount runs the loop exactly that many times. */
  lemma WholeAmountRuns(n: int)
    ensures LoopRuns(n as real) == if n < 0 then 0 else n
  {
  }

  /**
   * A fractional amount is charged for every unit the loop starts: `2.5`
   * runs the loop three times, so the quote says 2.5 units at the price of
   * three.
   */
  lemma FractionalAmountRuns(b: Building)
    ensures LoopRuns(2.5) == 3
    ensures CostOfNext(b, b.count, LoopRuns(2.5))
      == GetBuildingCost(b, b.count) + GetBuildingCost(b, b.count + 1) + GetBuildingCost(b, b.count + 2)
  {
    assert LoopRuns(2.5) == 3;
  }

  /**
   * `calculateMultiBuyCost`. For a number it returns that number as the
   * count, and the price of the `LoopRuns(amount)` units the loop adds up.
   */
  method CalculateMultiBuyCost(b: Building, amount: Amount, s: GameState) returns (count: real, totalCost: int)
    ensures amount.MaxAffordable? ==> count == count.Floor as real && IsMaxBuy(b, s.sparks, BulkQuote(count.Floor, totalCost))
    ensures amount.Units? ==> count == amount.n
    ensures amount.Units? ==> totalCost == CostOfNext(b, b.count, LoopRuns(amount.n))
  {
    if amount.MaxAffordable? {
      var q := CalculateMaxBuy(b, s);
      assert (q.count as real).Floor == q.count;
      return q.count as real, q.totalCost;
    }
    var baseCost := b.baseCost;
    var multiplier := b.costMultiplier;
    var currentCount := b.count;
    totalCost := 0;
    var i: nat := 0;
    while (i as real) < amount.n
      invariant i <= LoopRuns(amount.n)
      invariant totalCost == CostOfNext(b, currentCount, i)
      decreases LoopRuns(amount.n) - i
    {
      var cost := GeometricCost(baseCost, multiplier, currentCount + i);
      totalCost := totalCost + cost;
      i := i + 1;
    }
    count := amount.n;
  }

  /** `canAffordMultiBuy`. */
  method CanAffordMultiBuy(b: Building, amount: Amount, s: GameState) returns (ok: bool)
    ensures amount.Units? ==> (ok <==> s.sparks >= CostOfNext(b, b.count, LoopRuns(amount.n)) as real)
    ensures amount.MaxAffordable? && s.sparks >= 0.0 ==> ok
    ensures amount.MaxAffordable? && s.sparks < 0.0 && b.baseCost >= 0.0 && b.costMultiplier >= 1.0 ==> !ok
  {
    var count, totalCost := CalculateMultiBuyCost(b, amount, s);
    ok := s.sparks >= totalCost as real;
    if amount.MaxAffordable? {
      MaxBuyFacts(b, s.sparks, BulkQuote(count.Floor, totalCost));
      if s.sparks < 0.0 && b.baseCost >= 0.0 && b.costMultiplier >= 1.0 {
        BuildingCostMonotone(b, b.count, b.count);
      }
    }
  }

  /** A max-buy quote never costs more than the sparks available, and it buys nothing when sparks cannot cover the next unit. */
  lemma MaxBuyFacts(b: Building, sparks: real, q: BulkQuote)
    requires IsMaxBuy(b, sparks, q)
    ensures sparks >= 0.0 ==> q.totalCost as real <= sparks
    ensures q.count > 0 ==> q.totalCost as real <= sparks
    ensures q.count <= 1001
    ensures (GetBuildingCost(b) as real > sparks) ==> q == BulkQuote(0, 0)
  {
    if q.count > 0 {
      assert CostOfNext(b, b.count, q.count) as real <= sparks;
    }
    assert CostOfNext(b, b.count, 1) == GetBuildingCost(b);
    assert q.count > 0 ==> CostOfNext(b, b.count, 1) as real <= sparks;
  }

  /**
   * A max-buy quote is determined by the building and the balance alone, so
   * two states with the same sparks get the same quote: traits, meta levels
   * and the stage do not reach it.
   */
  lemma MaxBuyUnique(b: Building, sparks: real, q1: BulkQuote, q2: BulkQuote)
    requires IsMaxBuy(b, sparks, q1) && IsMaxBuy(b, sparks, q2)
    ensures q1 == q2
  {
  }

  /** Buying `n + 1` at once costs the same as buying one unit and then `n` more at the next count. */
  lemma {:induction false} BulkEqualsOneThenRest(b: Building, from: nat, n: nat)
    ensures CostOfNext(b, from, n + 1) == GetBuildingCost(b, from) + CostOfNext(b, from + 1, n)
    decreases n
  {
    if n > 0 {
      BulkEqualsOneThenRest(b, from, n - 1);
    }
  }

  /**
   * The bulk price over `n` units is the sum of the single-unit prices
   * `getBuildingCost` charges at the counts `from, from + 1, ...`: buying
   * one at a time `n` times costs exactly as much as buying `n` at once.
   */
  function SequentialCost(b: Building, from: nat, n: nat): int
    decreases n
  {
    if n == 0 then 0 else GetBuildingCost(b.(count := from)) + SequentialCost(b, from + 1, n - 1)
  }

  lemma {:induction false} BulkEqualsSequential(b: Building, from: nat, n: nat)
    ensures CostOfNext(b, from, n) == SequentialCost(b, from, n)
    decreases n
  {
    if n > 0 {
      BulkEqualsOneThenRest(b, from, n - 1);
      BulkEqualsSequential(b, from + 1, n - 1);
    }
  }
}
