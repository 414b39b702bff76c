/**
 * Pool arithmetic: 64-bit reserves, 128-bit intermediate products, floor division. `B`, `Q`, `L`
 * are a pool's base reserve, quote reserve and liquidity (LP) supply.
 */
module PoolMath {
  import opened Prelude
  import opened Ids
  import opened Records

  // ----- elementary facts about products -----

  lemma MulMono(a: int, b: int, c: int, d: int)
    requires 0 <= b <= a && 0 <= d <= c
    ensures 0 <= b * d <= a * c
  {
    assert b * d <= a * d;
    assert a * d <= a * c;
  }

  lemma MulCancel(a: int, b: int, k: int)
    requires k > 0 && a * k >= b * k
    ensures a >= b
  {
  }

  lemma ProductFits(a: U64, b: U64)
    ensures 0 <= a * b <= MAX_U128
  {
    MulMono(MAX_U64, a, MAX_U64, b);
  }

  /** (xz)(yw) regrouped as (xy)(zw). */
  lemma Regroup(x: int, y: int, z: int, w: int)
    ensures (x * z) * (y * w) == x * y * (z * w)
  {
    calc {
      (x * z) * (y * w);
      x * (z * (y * w));
      { assert z * (y * w) == y * (z * w); }
      x * (y * (z * w));
      x * y * (z * w);
    }
  }

  lemma FloorDiv(n: int, d: int)
    requires n >= 0 && d > 0
    ensures 0 <= n / d && n / d * d <= n < n / d * d + d
  {
    assert n == n / d * d + n % d;
  }

  /** A 128-bit product divided down. */
  function Quotient(a: nat, b: nat, d: nat): nat
    requires d > 0
  {
    MulMono(a, 0, b, 0);
    FloorDiv(a * b, d);
    a * b / d
  }

  // ----- the three quotes -----

  /** LP units minted for a deposit: the smaller amount into an empty pool, else the smaller share. */
  function LiquidityUnits(pool: Id, B: U64, Q: U64, L: U64, base: U64, quote: U64): Result<U64, Error> {
    if L == 0 then Ok(Min(base, quote))
    else if B == 0 || Q == 0 then Err(PoolReserveInsufficient(pool))
    else if base * L > MAX_U128 then Err(PoolReserveOverflow(pool))
    else if quote * L > MAX_U128 then Err(PoolReserveOverflow(pool))
    else
      var units := Min(Quotient(base, L, B), Quotient(quote, L, Q));
      if units > MAX_U64 then Err(PoolReserveOverflow(pool)) else Ok(units)
  }

  /** The share of a reserve that `lp` of `total` LP units redeems. */
  function Proportional(reserve: U64, lp: U64, total: U64, pool: Id): Result<U64, Error> {
    if total == 0 then Err(PoolReserveInsufficient(pool))
    else if reserve * lp > MAX_U128 then Err(PoolReserveOverflow(pool))
    else
      var amount := Quotient(reserve, lp, total);
      if amount > MAX_U64 then Err(PoolReserveOverflow(pool)) else Ok(amount)
  }

  /** Output of an exact-in swap against reserves `rin`, `rout`. */
  function ConstantProductOut(rin: U64, rout: U64, amount: U64, pool: Id): Result<U64, Error> {
    if rin == 0 || rout == 0 then Err(PoolReserveInsufficient(pool))
    else if rout * amount > MAX_U128 then Err(PoolReserveOverflow(pool))
    else if rin + amount > MAX_U128 then Err(PoolReserveOverflow(pool))
    else
      var out := Quotient(rout, amount, rin + amount);
      if out > MAX_U64 then Err(PoolReserveOverflow(pool)) else Ok(out)
  }

  // ----- the backing of an LP unit -----

  /**
   * Reserves (B', Q') with supply L' back each LP unit at least as well as (B, Q) with L: neither the
   * base nor the quote per unit fell.
   */
  predicate BacksAtLeast(B: nat, Q: nat, L: nat, B': nat, Q': nat, L': nat) {
    B' * L >= B * L' && Q' * L >= Q * L'
  }

  /** Reserve product per squared LP unit did not fall. */
  predicate ProductPerUnitKept(B: nat, Q: nat, L: nat, B': nat, Q': nat, L': nat) {
    B' * Q' * (L * L) >= B * Q * (L' * L')
  }

  lemma BackingKeepsProduct(B: nat, Q: nat, L: nat, B': nat, Q': nat, L': nat)
    requires BacksAtLeast(B, Q, L, B', Q', L')
    ensures ProductPerUnitKept(B, Q, L, B', Q', L')
  {
    MulMono(B' * L, B * L', Q' * L, Q * L');
    Regroup(B', Q', L, L);
    Regroup(B, Q, L', L');
  }

  /** The order by product per squared unit is transitive through a live pool. */
  lemma ProductPerUnitTransitive(
      B: nat, Q: nat, L: nat, B1: nat, Q1: nat, L1: nat, B2: nat, Q2: nat, L2: nat)
    requires L1 > 0
    requires ProductPerUnitKept(B, Q, L, B1, Q1, L1)
    requires ProductPerUnitKept(B1, Q1, L1, B2, Q2, L2)
    ensures ProductPerUnitKept(B, Q, L, B2, Q2, L2)
  {
    var k, k1, k2 := B * Q, B1 * Q1, B2 * Q2;
    var s, s1, s2 := L * L, L1 * L1, L2 * L2;
    Chain(k, k1, k2, s, s1, s2);
  }

  lemma Chain(k: nat, k1: nat, k2: nat, s: nat, s1: nat, s2: nat)
    requires s1 > 0 && k1 * s >= k * s1 && k2 * s1 >= k1 * s2
    ensures k2 * s >= k * s2
  {
    calc {
      (k2 * s) * s1;
      (k2 * s1) * s;
    >= { MulMono(k2 * s1, k1 * s2, s, s); }
      (k1 * s2) * s;
      (k1 * s) * s2;
    >= { MulMono(k1 * s, k * s1, s2, s2); }
      (k * s1) * s2;
      (k * s2) * s1;
    }
    MulCancel(k2 * s, k * s2, s1);
  }

  /** What every pool satisfies in every reachable state. */
  predicate Healthy(B: nat, Q: nat, L: nat) {
    L * L <= B * Q && (L == 0 ==> B == 0 && Q == 0)
  }

  lemma SquareAbove(B: nat, Q: nat, L: nat)
    requires L > B && L > Q
    ensures L * L > B * Q
  {
    MulMono(L, B + 1, L, Q + 1);
    assert (B + 1) * (Q + 1) == B * Q + B + Q + 1;
  }

  /** A healthy pool has LP units exactly when it has reserves, and then has both. */
  lemma HealthyReserves(B: nat, Q: nat, L: nat)
    requires Healthy(B, Q, L)
    ensures L == 0 <==> B == 0 && Q == 0
    ensures L > 0 ==> B > 0 && Q > 0
    ensures L <= B || L <= Q
  {
    if L > 0 {
      assert L * L > 0;
    }
    if L > B && L > Q {
      SquareAbove(B, Q, L);
    }
  }

  /** Keeping the product per squared unit keeps a live pool healthy. */
  lemma KeptStaysHealthy(B: nat, Q: nat, L: nat, B': nat, Q': nat, L': nat)
    requires L > 0 && Healthy(B, Q, L)
    requires ProductPerUnitKept(B, Q, L, B', Q', L')
    requires L' == 0 ==> B' == 0 && Q' == 0
    ensures Healthy(B', Q', L')
  {
    MulMono(B * Q, L * L, L' * L', L' * L');
    assert B' * Q' * (L * L) >= (L * L) * (L' * L');
    assert L * L > 0;
    MulCancel(B' * Q', L' * L', L * L);
  }

  // ----- deposits -----

  /** One asset of a deposit: units that cost at least their share do not thin the backing. */
  lemma ShareBacks(reserve: nat, amount: nat, L: nat, lp: nat)
    requires reserve > 0 && lp <= Quotient(amount, L, reserve)
    ensures lp * reserve <= amount * L
    ensures (reserve + amount) * L >= reserve * (L + lp)
  {
    MulMono(amount, 0, L, 0);
    FloorDiv(amount * L, reserve);
    MulMono(Quotient(amount, L, reserve), lp, reserve, reserve);
    assert (reserve + amount) * L == reserve * L + amount * L;
    assert reserve * (L + lp) == reserve * L + lp * reserve;
  }

  /** Depositing into a live pool mints no more than either share, and the backing never falls. */
  lemma DepositBacks(pool: Id, B: U64, Q: U64, L: U64, base: U64, quote: U64, lp: U64)
    requires L > 0 && LiquidityUnits(pool, B, Q, L, base, quote) == Ok(lp)
    ensures lp * B <= base * L && lp * Q <= quote * L
    ensures BacksAtLeast(B, Q, L, B + base, Q + quote, L + lp)
  {
    ShareBacks(B, base, L, lp);
    ShareBacks(Q, quote, L, lp);
  }

  /** A deposit into a live pool mints as many units as both shares pay for. */
  lemma DepositIsMaximal(pool: Id, B: U64, Q: U64, L: U64, base: U64, quote: U64, lp: U64, units: nat)
    requires L > 0 && LiquidityUnits(pool, B, Q, L, base, quote) == Ok(lp)
    requires units * B <= base * L && units * Q <= quote * L
    ensures units <= lp
  {
    AtMostFloor(base * L, B, units);
    AtMostFloor(quote * L, Q, units);
  }

  lemma AtMostFloor(n: int, d: int, x: nat)
    requires d > 0 && x * d <= n
    ensures n >= 0 && x <= n / d
  {
    MulMono(x, 0, d, 0);
    FloorDiv(n, d);
    if x > n / d {
      MulMono(x, n / d + 1, d, d);
      assert false;
    }
  }

  /** A deposit keeps a pool healthy, from empty or live. */
  lemma DepositHealthy(pool: Id, B: U64, Q: U64, L: U64, base: U64, quote: U64, lp: U64)
    requires Healthy(B, Q, L) && base > 0 && quote > 0
    requires LiquidityUnits(pool, B, Q, L, base, quote) == Ok(lp)
    ensures Healthy(B + base, Q + quote, L + lp)
  {
    if L == 0 {
      MulMono(base, lp, quote, lp);
    } else {
      DepositBacks(pool, B, Q, L, base, quote, lp);
      BackingKeepsProduct(B, Q, L, B + base, Q + quote, L + lp);
      KeptStaysHealthy(B, Q, L, B + base, Q + quote, L + lp);
    }
  }

  /** Minting against a healthy pool never fails and never exceeds the larger deposit. */
  lemma DepositInRange(pool: Id, B: U64, Q: U64, L: U64, base: U64, quote: U64)
    requires Healthy(B, Q, L)
    ensures LiquidityUnits(pool, B, Q, L, base, quote).Ok?
    ensures LiquidityUnits(pool, B, Q, L, base, quote).value <= base ||
            LiquidityUnits(pool, B, Q, L, base, quote).value <= quote
  {
    HealthyReserves(B, Q, L);
    if L > 0 {
      ProductFits(base, L);
      ProductFits(quote, L);
      FloorDiv(base * L, B);
      FloorDiv(quote * L, Q);
      if L <= B {
        DivAtMost(base, L, B);
      } else {
        DivAtMost(quote, L, Q);
      }
    }
  }

  lemma DivAtMost(a: nat, n: nat, d: nat)
    requires 0 <= n <= d && d > 0
    ensures 0 <= a * n / d <= a
  {
    MulMono(a, a, d, n);
    FloorDiv(a * n, d);
    MulCancel(a, a * n / d, d);
  }

  /** Once both reserve additions fit 64 bits, so does the new LP supply. */
  lemma SupplyInRange(B: nat, Q: nat, L: nat)
    requires Healthy(B, Q, L) && B <= MAX_U64 && Q <= MAX_U64
    ensures L <= MAX_U64
  {
    HealthyReserves(B, Q, L);
  }

  // ----- withdrawals -----

  /** Redeeming LP units pays at most the exact share of each reserve, and all of it for the last units. */
  lemma WithdrawalBounds(reserve: U64, lp: U64, total: U64, pool: Id)
    requires 0 < lp <= total
    ensures Proportional(reserve, lp, total, pool).Ok?
    ensures var out := Proportional(reserve, lp, total, pool).value;
            out <= reserve && out * total <= reserve * lp && (lp == total ==> out == reserve)
  {
    ProductFits(reserve, lp);
    FloorDiv(reserve * lp, total);
    DivAtMost(reserve, lp, total);
    if lp == total {
      WholeShare(reserve, total);
    }
  }

  /** Redeeming pays the largest amount within the exact share. */
  lemma WithdrawalIsMaximal(reserve: U64, lp: U64, total: U64, pool: Id, amount: nat)
    requires 0 < lp <= total && amount * total <= reserve * lp
    ensures Proportional(reserve, lp, total, pool).Ok? && amount <= Proportional(reserve, lp, total, pool).value
  {
    WithdrawalBounds(reserve, lp, total, pool);
    AtMostFloor(reserve * lp, total, amount);
  }

  lemma WholeShare(reserve: nat, total: nat)
    requires total > 0
    ensures reserve * total / total == reserve
  {
    MulMono(reserve, 0, total, 0);
    FloorDiv(reserve * total, total);
    var share := reserve * total / total;
    MulCancel(reserve, share, total);
    assert (share + 1) * total == share * total + total;
    MulCancel(share + 1, reserve, total);
    if share + 1 == reserve {
      assert false;
    }
  }

  /** A withdrawal never lowers the backing of the units that stay. */
  lemma WithdrawalBacks(B: nat, Q: nat, L: nat, lp: nat, base: nat, quote: nat)
    requires lp <= L && base <= B && quote <= Q
    requires base * L <= B * lp && quote * L <= Q * lp
    ensures BacksAtLeast(B, Q, L, B - base, Q - quote, L - lp)
  {
    assert (B - base) * L == B * L - base * L && B * (L - lp) == B * L - B * lp;
    assert (Q - quote) * L == Q * L - quote * L && Q * (L - lp) == Q * L - Q * lp;
  }

  lemma WithdrawalHealthy(B: U64, Q: U64, L: U64, lp: U64, base: U64, quote: U64, pool: Id)
    requires Healthy(B, Q, L) && 0 < lp <= L
    requires Proportional(B, lp, L, pool) == Ok(base) && Proportional(Q, lp, L, pool) == Ok(quote)
    ensures base <= B && quote <= Q
    ensures BacksAtLeast(B, Q, L, B - base, Q - quote, L - lp)
    ensures Healthy(B - base, Q - quote, L - lp)
  {
    WithdrawalBounds(B, lp, L, pool);
    WithdrawalBounds(Q, lp, L, pool);
    WithdrawalBacks(B, Q, L, lp, base, quote);
    BackingKeepsProduct(B, Q, L, B - base, Q - quote, L - lp);
    KeptStaysHealthy(B, Q, L, B - base, Q - quote, L - lp);
  }

  /** One asset of a deposit redeemed at once: `lp` units cost `amount` and pay at most that. */
  lemma RedeemAtMost(reserve: U64, amount: U64, L: U64, lp: U64, pool: Id)
    requires lp > 0 && lp * reserve <= amount * L
    requires reserve + amount <= MAX_U64 && L + lp <= MAX_U64
    ensures Proportional(reserve + amount, lp, L + lp, pool).Ok?
    ensures Proportional(reserve + amount, lp, L + lp, pool).value <= amount
  {
    WithdrawalBounds(reserve + amount, lp, L + lp, pool);
    assert (reserve + amount) * lp == lp * reserve + amount * lp;
    assert amount * (L + lp) == amount * L + amount * lp;
    MulCancel(amount, Proportional(reserve + amount, lp, L + lp, pool).value, L + lp);
  }

  /** Adding and at once redeeming the minted units returns no more than was put in. */
  lemma DepositThenWithdraw(pool: Id, B: U64, Q: U64, L: U64, base: U64, quote: U64, lp: U64)
    requires Healthy(B, Q, L) && LiquidityUnits(pool, B, Q, L, base, quote) == Ok(lp) && lp > 0
    requires B + base <= MAX_U64 && Q + quote <= MAX_U64 && L + lp <= MAX_U64
    ensures Proportional(B + base, lp, L + lp, pool).Ok? && Proportional(Q + quote, lp, L + lp, pool).Ok?
    ensures Proportional(B + base, lp, L + lp, pool).value <= base
    ensures Proportional(Q + quote, lp, L + lp, pool).value <= quote
  {
    if L > 0 {
      DepositBacks(pool, B, Q, L, base, quote, lp);
    }
    RedeemAtMost(B, base, L, lp, pool);
    RedeemAtMost(Q, quote, L, lp, pool);
  }

  // ----- swaps -----

  /** Against live reserves a swap computes an output strictly below the output reserve, and keeps the product. */
  lemma SwapBounds(rin: U64, rout: U64, amount: U64, pool: Id)
    requires rin > 0 && rout > 0
    ensures ConstantProductOut(rin, rout, amount, pool).Ok?
    ensures var out := ConstantProductOut(rin, rout, amount, pool).value;
            out < rout && out * (rin + amount) <= rout * amount && (rin + amount) * (rout - out) >= rin * rout
  {
    ProductFits(rout, amount);
    FloorDiv(rout * amount, rin + amount);
    var out := rout * amount / (rin + amount);
    assert rout * (rin + amount) == rout * rin + rout * amount;
    assert rout * rin > 0;
    if out >= rout {
      MulMono(out, rout, rin + amount, rin + amount);
      assert false;
    }
    assert (rin + amount) * (rout - out) == rout * rin + rout * amount - out * (rin + amount);
  }

  /** An output is the largest one the product rule allows for the input. */
  lemma SwapIsMaximal(rin: U64, rout: U64, amount: U64, pool: Id, out: nat)
    requires rin > 0 && rout > 0 && out <= rout
    requires (rin + amount) * (rout - out) >= rin * rout
    ensures ConstantProductOut(rin, rout, amount, pool).Ok?
    ensures out <= ConstantProductOut(rin, rout, amount, pool).value
  {
    SwapBounds(rin, rout, amount, pool);
    var d := rin + amount;
    assert d * (rout - out) == rout * rin + rout * amount - out * d;
    FloorDiv(rout * amount, d);
    var best := rout * amount / d;
    if out > best {
      MulMono(out, best + 1, d, d);
      assert false;
    }
  }

  /** Swapping the output straight back returns no more than was put in. */
  lemma SwapBackNeverGains(rin: U64, rout: U64, amount: U64, pool: Id, out: U64)
    requires rin > 0 && rout > 0 && rin + amount <= MAX_U64
    requires ConstantProductOut(rin, rout, amount, pool) == Ok(out)
    ensures out < rout && ConstantProductOut(rout - out, rin + amount, out, pool).Ok?
    ensures ConstantProductOut(rout - out, rin + amount, out, pool).value <= amount
  {
    SwapBounds(rin, rout, amount, pool);
    SwapBounds(rout - out, rin + amount, out, pool);
    var back := ConstantProductOut(rout - out, rin + amount, out, pool).value;
    assert (rout - out + out) * (rin + amount - back) >= rin * rout;
    MulCancel(rin + amount - back, rin, rout);
  }
}
