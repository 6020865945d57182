/**
 * Exact arithmetic used by the economy: natural powers, the floored geometric
 * cost `floor(base * mult^n)`, the integer square root, and order-independent
 * folds over the key set of a dictionary.
 */
module Numeric {

  /** `Math.pow(b, n)` for a natural exponent. */
  function Pow(b: real, n: nat): real
    decreases n
  {
    if n == 0 then 1.0 else b * Pow(b, n - 1)
  }

  lemma {:induction false} PowPositive(b: real, n: nat)
    requires b > 0.0
    ensures Pow(b, n) > 0.0
    decreases n
  {
    if n > 0 {
      PowPositive(b, n - 1);
    }
  }

  lemma {:induction false} PowAtLeastOne(b: real, n: nat)
    requires b >= 1.0
    ensures Pow(b, n) >= 1.0
    decreases n
  {
    if n > 0 {
      PowAtLeastOne(b, n - 1);
      assert b * Pow(b, n - 1) >= 1.0 * Pow(b, n - 1);
    }
  }

  /** For a base of at least 1, powers grow with the exponent. */
  lemma {:induction false} PowMonotone(b: real, m: nat, n: nat)
    requires b >= 1.0 && m <= n
    ensures Pow(b, m) <= Pow(b, n)
    decreases n - m
  {
    if m < n {
      PowMonotone(b, m, n - 1);
      PowAtLeastOne(b, n - 1);
      assert Pow(b, n) == b * Pow(b, n - 1) >= 1.0 * Pow(b, n - 1);
    }
  }

  /** `Math.floor(base * Math.pow(mult, n))`: the price after `n` purchases. */
  function GeometricCost(base: real, mult: real, n: nat): int
  {
    (base * Pow(mult, n)).Floor
  }

  /** Prices never fall as the count grows, for a non-negative base and a multiplier of at least 1. */
  lemma GeometricCostMonotone(base: real, mult: real, m: nat, n: nat)
    requires base >= 0.0 && mult >= 1.0 && m <= n
    ensures GeometricCost(base, mult, m) <= GeometricCost(base, mult, n)
  {
    PowMonotone(mult, m, n);
    assert base * Pow(mult, m) <= base * Pow(mult, n);
  }

  lemma GeometricCostNonNegative(base: real, mult: real, n: nat)
    requires base >= 0.0 && mult >= 1.0
    ensures GeometricCost(base, mult, n) >= 0
  {
    PowAtLeastOne(mult, n);
    assert base * Pow(mult, n) >= 0.0;
  }

  /** The integer square root: the largest `r` with `r * r <= n`. */
  function Isqrt(n: nat): (r: nat)
    ensures r * r <= n < (r + 1) * (r + 1)
    decreases n
  {
    if n == 0 then 0
    else
      var r := Isqrt(n - 1);
      if (r + 1) * (r + 1) <= n then r + 1 else r
  }

  lemma SquareMonotone(a: nat, b: nat)
    requires a <= b
    ensures a * a <= b * b
  {
    assert a * a <= a * b <= b * b;
  }

  /** Squares order their roots. */
  lemma SquareOrder(a: nat, b: nat)
    ensures a * a < b * b ==> a < b
  {
    if b <= a {
      SquareMonotone(b, a);
    }
  }

  /** Any `r` bracketing `n` between consecutive squares is the integer square root. */
  lemma IsqrtUnique(n: nat, r: nat)
    requires r * r <= n < (r + 1) * (r + 1)
    ensures Isqrt(n) == r
  {
    var q := Isqrt(n);
    SquareOrder(q, r + 1);
    SquareOrder(r, q + 1);
  }

  lemma IsqrtMonotone(m: nat, n: nat)
    requires m <= n
    ensures Isqrt(m) <= Isqrt(n)
  {
    SquareOrder(Isqrt(m), Isqrt(n) + 1);
  }

  lemma FloorMonotone(x: real, y: real)
    requires x <= y
    ensures x.Floor <= y.Floor
  {
  }

  // ---------------------------------------------------------------------------
  // Folds over a dictionary's keys. JavaScript visits `Object.values(d)` in
  // insertion order; every fold used by the game combines its terms with a
  // commutative, associative operation, so the order does not matter and the
  // fold is defined over the set of keys. `ctx` carries the dictionary (and
  // whatever else the term needs), `f(ctx, k)` is the term of key `k`.
  // ---------------------------------------------------------------------------

  ghost predicate IsCommutativeMonoid<A(!new)>(op: (A, A) -> A, unit: A)
  {
    && (forall a, b :: op(a, b) == op(b, a))
    && (forall a, b, c :: op(op(a, b), c) == op(a, op(b, c)))
    && (forall a :: op(unit, a) == a)
  }

  ghost function Fold<K, C, A>(keys: set<K>, ctx: C, f: (C, K) -> A, op: (A, A) -> A, unit: A): A
    decreases keys
  {
    if keys == {} then unit
    else
      var k :| k in keys;
      op(f(ctx, k), Fold(keys - {k}, ctx, f, op, unit))
  }

  /** Any key can be taken out first: the fold does not depend on the order of the keys. */
  lemma {:induction false} FoldRemove<K, C, A(!new)>(keys: set<K>, ctx: C, f: (C, K) -> A, op: (A, A) -> A, unit: A, k: K)
    requires IsCommutativeMonoid(op, unit)
    requires k in keys
    ensures Fold(keys, ctx, f, op, unit) == op(f(ctx, k), Fold(keys - {k}, ctx, f, op, unit))
    decreases keys
  {
    var j :| j in keys && Fold(keys, ctx, f, op, unit) == op(f(ctx, j), Fold(keys - {j}, ctx, f, op, unit));
    if j != k {
      var rest := keys - {j} - {k};
      assert keys - {k} - {j} == rest;
      FoldRemove(keys - {j}, ctx, f, op, unit, k);
      FoldRemove(keys - {k}, ctx, f, op, unit, j);
      var r := Fold(rest, ctx, f, op, unit);
      calc {
        Fold(keys, ctx, f, op, unit);
        op(f(ctx, j), op(f(ctx, k), r));
        op(op(f(ctx, j), f(ctx, k)), r);
        op(op(f(ctx, k), f(ctx, j)), r);
        op(f(ctx, k), op(f(ctx, j), r));
        op(f(ctx, k), Fold(keys - {k}, ctx, f, op, unit));
      }
    }
  }

  /** A fold whose every term is the unit is the unit. */
  lemma {:induction false} FoldOfUnits<K, C, A(!new)>(keys: set<K>, ctx: C, f: (C, K) -> A, op: (A, A) -> A, unit: A)
    requires IsCommutativeMonoid(op, unit)
    requires forall k :: k in keys ==> f(ctx, k) == unit
    ensures Fold(keys, ctx, f, op, unit) == unit
    decreases keys
  {
    if keys != {} {
      var k :| k in keys;
      FoldRemove(keys, ctx, f, op, unit, k);
      FoldOfUnits(keys - {k}, ctx, f, op, unit);
    }
  }

  /** A property that holds of the unit and of every term, and is closed under `op`, holds of the fold. */
  lemma {:induction false} FoldPreserves<K, C, A(!new)>(keys: set<K>, ctx: C, f: (C, K) -> A, op: (A, A) -> A, unit: A, p: A -> bool)
    requires IsCommutativeMonoid(op, unit)
    requires p(unit)
    requires forall k :: k in keys ==> p(f(ctx, k))
    requires forall a, b :: p(a) && p(b) ==> p(op(a, b))
    ensures p(Fold(keys, ctx, f, op, unit))
    decreases keys
  {
    if keys != {} {
      var k :| k in keys;
      FoldRemove(keys, ctx, f, op, unit, k);
      FoldPreserves(keys - {k}, ctx, f, op, unit, p);
    }
  }

  /** Terms that agree give equal folds. */
  lemma {:induction false} FoldCongruent<K, C, A(!new)>(keys: set<K>, ctx: C, f: (C, K) -> A, ctx': C, g: (C, K) -> A, op: (A, A) -> A, unit: A)
    requires IsCommutativeMonoid(op, unit)
    requires forall k :: k in keys ==> f(ctx, k) == g(ctx', k)
    ensures Fold(keys, ctx, f, op, unit) == Fold(keys, ctx', g, op, unit)
    decreases keys
  {
    if keys != {} {
      var k :| k in keys;
      FoldRemove(keys, ctx, f, op, unit, k);
      FoldRemove(keys, ctx', g, op, unit, k);
      FoldCongruent(keys - {k}, ctx, f, ctx', g, op, unit);
    }
  }

  /** For a base in (0, 1], every power is in (0, 1]. */
  lemma {:induction false} PowAtMostOne(b: real, n: nat)
    requires 0.0 < b <= 1.0
    ensures 0.0 < Pow(b, n) <= 1.0
    decreases n
  {
    if n > 0 {
      PowAtMostOne(b, n - 1);
      assert b * Pow(b, n - 1) <= 1.0 * Pow(b, n - 1);
    }
  }

  function Add(a: real, b: real): real { a + b }
  function Mul(a: real, b: real): real { a * b }

  lemma AddIsMonoid()
    ensures IsCommutativeMonoid(Add, 0.0)
  {
  }

  lemma MulIsMonoid()
    ensures IsCommutativeMonoid(Mul, 1.0)
  {
    forall a: real, b: real, c: real
      ensures Mul(Mul(a, b), c) == Mul(a, Mul(b, c))
    {
      assert (a * b) * c == a * (b * c);
    }
  }

  /** The sum of the terms `f(ctx, k)` over `keys`. */
  ghost function SumOver<K, C>(keys: set<K>, ctx: C, f: (C, K) -> real): real
  {
    Fold(keys, ctx, f, Add, 0.0)
  }

  /** The product of the terms `f(ctx, k)` over `keys`. */
  ghost function ProductOver<K, C>(keys: set<K>, ctx: C, f: (C, K) -> real): real
  {
    Fold(keys, ctx, f, Mul, 1.0)
  }

  lemma SumRemove<K, C>(keys: set<K>, ctx: C, f: (C, K) -> real, k: K)
    requires k in keys
    ensures SumOver(keys, ctx, f) == f(ctx, k) + SumOver(keys - {k}, ctx, f)
  {
    AddIsMonoid();
    FoldRemove(keys, ctx, f, Add, 0.0, k);
  }

  lemma ProductRemove<K, C>(keys: set<K>, ctx: C, f: (C, K) -> real, k: K)
    requires k in keys
    ensures ProductOver(keys, ctx, f) == f(ctx, k) * ProductOver(keys - {k}, ctx, f)
  {
    MulFoldRemove(keys, ctx, f, k);
  }

  lemma MulFoldRemove<K, C>(keys: set<K>, ctx: C, f: (C, K) -> real, k: K)
    requires k in keys
    ensures Fold(keys, ctx, f, Mul, 1.0) == Mul(f(ctx, k), Fold(keys - {k}, ctx, f, Mul, 1.0))
  {
    MulIsMonoid();
    FoldRemove(keys, ctx, f, Mul, 1.0, k);
  }

  lemma SumOfZeros<K, C>(keys: set<K>, ctx: C, f: (C, K) -> real)
    requires forall k :: k in keys ==> f(ctx, k) == 0.0
    ensures SumOver(keys, ctx, f) == 0.0
  {
    AddIsMonoid();
    FoldOfUnits(keys, ctx, f, Add, 0.0);
  }

  lemma ProductOfOnes<K, C>(keys: set<K>, ctx: C, f: (C, K) -> real)
    requires forall k :: k in keys ==> f(ctx, k) == 1.0
    ensures ProductOver(keys, ctx, f) == 1.0
  {
    MulIsMonoid();
    FoldOfUnits(keys, ctx, f, Mul, 1.0);
  }

  lemma {:induction false} SumNonNegative<K, C>(keys: set<K>, ctx: C, f: (C, K) -> real)
    requires forall k :: k in keys ==> f(ctx, k) >= 0.0
    ensures SumOver(keys, ctx, f) >= 0.0
    decreases keys
  {
    if keys != {} {
      var k :| k in keys;
      SumRemove(keys, ctx, f, k);
      SumNonNegative(keys - {k}, ctx, f);
    }
  }

  lemma {:induction false} ProductNonNegative<K, C>(keys: set<K>, ctx: C, f: (C, K) -> real)
    requires forall k :: k in keys ==> f(ctx, k) >= 0.0
    ensures ProductOver(keys, ctx, f) >= 0.0
    decreases keys
  {
    if keys != {} {
      var k :| k in keys;
      ProductRemove(keys, ctx, f, k);
      ProductNonNegative(keys - {k}, ctx, f);
    }
  }

  /** Terms that agree give equal sums. */
  lemma {:induction false} SumCongruent<K, C>(keys: set<K>, ctx: C, f: (C, K) -> real, ctx': C, g: (C, K) -> real)
    requires forall k :: k in keys ==> f(ctx, k) == g(ctx', k)
    ensures SumOver(keys, ctx, f) == SumOver(keys, ctx', g)
    decreases keys
  {
    if keys != {} {
      var k :| k in keys;
      SumRemove(keys, ctx, f, k);
      SumRemove(keys, ctx', g, k);
      SumCongruent(keys - {k}, ctx, f, ctx', g);
    }
  }

  /** Terms that agree give equal products. */
  lemma {:induction false} ProductCongruent<K, C>(keys: set<K>, ctx: C, f: (C, K) -> real, ctx': C, g: (C, K) -> real)
    requires forall k :: k in keys ==> f(ctx, k) == g(ctx', k)
    ensures ProductOver(keys, ctx, f) == ProductOver(keys, ctx', g)
    decreases keys
  {
    if keys != {} {
      var k :| k in keys;
      ProductRemove(keys, ctx, f, k);
      ProductRemove(keys, ctx', g, k);
      ProductCongruent(keys - {k}, ctx, f, ctx', g);
    }
  }

  /** Two contexts that agree on every term but `k`'s share the product of the other terms. */
  lemma ProductReplace<K, C>(keys: set<K>, ctx: C, ctx': C, f: (C, K) -> real, k: K)
    requires k in keys
    requires forall j :: j in keys && j != k ==> f(ctx, j) == f(ctx', j)
    ensures ProductOver(keys, ctx, f) == f(ctx, k) * ProductOver(keys - {k}, ctx, f)
    ensures ProductOver(keys, ctx', f) == f(ctx', k) * ProductOver(keys - {k}, ctx, f)
  {
    ProductRemove(keys, ctx, f, k);
    ProductRemove(keys, ctx', f, k);
    ProductCongruent(keys - {k}, ctx, f, ctx', f);
  }

  lemma MulAssoc(a: real, b: real, c: real)
    ensures (a * b) * c == a * (b * c)
  {
  }

  lemma MulAssoc4(a: real, b: real, c: real, d: real, e: real)
    ensures a * b * c * d * e == a * (b * c * d * e)
  {
    MulAssoc(a, b, c);
    MulAssoc(a, b * c, d);
    MulAssoc(a, b * c * d, e);
  }

  lemma DistributeUnit(r: real, n: real, m: real)
    ensures (r * (n + 1.0)) * m == (r * n) * m + r * m
  {
  }

  lemma NonNegativeProduct(a: real, b: real, c: real)
    requires a >= 0.0 && b >= 0.0 && c >= 0.0
    ensures (a * b) * c >= 0.0
  {
  }

  lemma ScaleDown(a: real, x: real)
    requires a >= 0.0 && 0.0 <= x <= 1.0
    ensures 0.0 <= a * x <= a
  {
  }

  lemma ScaleUp(a: real, x: real)
    requires a >= 0.0 && x >= 1.0
    ensures a * x >= a
  {
  }

  /** Scaling by a factor in [0, 1] and rounding down never exceeds the rounded-down original. */
  lemma FloorScaledDown(a: real, x: real)
    requires a >= 0.0 && 0.0 <= x <= 1.0
    ensures 0 <= (a * x).Floor <= a.Floor
  {
    ScaleDown(a, x);
    FloorMonotone(a * x, a);
  }

  /** Scaling by a factor of at least 1 and rounding down never falls below the rounded-down original. */
  lemma FloorScaledUp(a: real, x: real)
    requires a >= 0.0 && x >= 1.0
    ensures (a * x).Floor >= a.Floor
  {
    ScaleUp(a, x);
    FloorMonotone(a, a * x);
  }

  /** The product of `f(ctx, x)` over a sequence, folded from the left as a `forEach` does. */
  function SeqProduct<C, T>(xs: seq<T>, ctx: C, f: (C, T) -> real): real
    decreases |xs|
  {
    if xs == [] then 1.0 else SeqProduct(xs[..|xs| - 1], ctx, f) * f(ctx, xs[|xs| - 1])
  }

  lemma {:induction false} SeqProductOfOnes<C, T>(xs: seq<T>, ctx: C, f: (C, T) -> real)
    requires forall i :: 0 <= i < |xs| ==> f(ctx, xs[i]) == 1.0
    ensures SeqProduct(xs, ctx, f) == 1.0
    decreases |xs|
  {
    if xs != [] {
      SeqProductOfOnes(xs[..|xs| - 1], ctx, f);
    }
  }

  lemma {:induction false} SeqProductNonNegative<C, T>(xs: seq<T>, ctx: C, f: (C, T) -> real)
    requires forall i :: 0 <= i < |xs| ==> f(ctx, xs[i]) >= 0.0
    ensures SeqProduct(xs, ctx, f) >= 0.0
    decreases |xs|
  {
    if xs != [] {
      SeqProductNonNegative(xs[..|xs| - 1], ctx, f);
    }
  }

  /** Factors in [0, 1] give a product in [0, 1]. */
  lemma {:induction false} SeqProductAtMostOne<C, T>(xs: seq<T>, ctx: C, f: (C, T) -> real)
    requires forall i :: 0 <= i < |xs| ==> 0.0 <= f(ctx, xs[i]) <= 1.0
    ensures 0.0 <= SeqProduct(xs, ctx, f) <= 1.0
    decreases |xs|
  {
    if xs != [] {
      var front := xs[..|xs| - 1];
      SeqProductAtMostOne(front, ctx, f);
      var p := SeqProduct(front, ctx, f);
      var x := f(ctx, xs[|xs| - 1]);
      assert 0.0 <= x <= 1.0;
      assert 0.0 <= p * x <= p * 1.0;
      assert SeqProduct(xs, ctx, f) == p * x;
    }
  }

  /** Factors of at least 1 give a product of at least 1. */
  lemma {:induction false} SeqProductAtLeastOne<C, T>(xs: seq<T>, ctx: C, f: (C, T) -> real)
    requires forall i :: 0 <= i < |xs| ==> f(ctx, xs[i]) >= 1.0
    ensures SeqProduct(xs, ctx, f) >= 1.0
    decreases |xs|
  {
    if xs != [] {
      var front := xs[..|xs| - 1];
      SeqProductAtLeastOne(front, ctx, f);
      var p := SeqProduct(front, ctx, f);
      var x := f(ctx, xs[|xs| - 1]);
      assert p * x >= p * 1.0;
    }
  }

  /** `acc *= f(ctx, k)` for every key: a `forEach` over a dictionary's values. */
  method ScaleByProduct<K, C>(acc: real, keys: set<K>, ctx: C, f: (C, K) -> real) returns (r: real)
    ensures r == acc * ProductOver(keys, ctx, f)
  {
    r := acc;
    var remaining := keys;
    while remaining != {}
      invariant r * ProductOver(remaining, ctx, f) == acc * ProductOver(keys, ctx, f)
      decreases remaining
    {
      var k :| k in remaining;
      ProductRemove(remaining, ctx, f, k);
      var rest := ProductOver(remaining - {k}, ctx, f);
      assert (r * f(ctx, k)) * rest == r * (f(ctx, k) * rest);
      r := r * f(ctx, k);
      remaining := remaining - {k};
    }
    assert ProductOver(remaining, ctx, f) == 1.0;
  }

  /** `acc *= f(ctx, x)` for every element in turn: a `forEach` over an array. */
  method ScaleBySeqProduct<C, T>(acc: real, xs: seq<T>, ctx: C, f: (C, T) -> real) returns (r: real)
    ensures r == acc * SeqProduct(xs, ctx, f)
  {
    r := acc;
    for i := 0 to |xs|
      invariant r == acc * SeqProduct(xs[..i], ctx, f)
    {
      assert xs[..i + 1][..i] == xs[..i];
      assert (acc * SeqProduct(xs[..i], ctx, f)) * f(ctx, xs[i]) == acc * (SeqProduct(xs[..i], ctx, f) * f(ctx, xs[i]));
      r := r * f(ctx, xs[i]);
    }
    assert xs[..|xs|] == xs;
  }
}
