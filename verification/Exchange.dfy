/**
 * The exchange. Each operation is a quote, which runs every check and computes the amounts, followed
 * by a commit, which writes in the runtime's order and may still be rejected half way.
 */
module Exchange {
  import opened Prelude
  import opened Ids
  import opened Records
  import opened Accounts
  import opened PoolMath

  function CreatePoolStep(l: Ledger, now: nat, tx: Tx): Step<Ledger>
    requires tx.CreatePool?
  {
    if tx.pool != PoolId(tx.base, tx.quote) then Refuse(l, IdMismatch(PoolKind, tx.pool))
    else if tx.base == tx.quote then Refuse(l, PoolInvalidAsset(tx.base))
    else if !AssetExists(l.book, tx.base) then Refuse(l, TokenMissing(tx.base))
    else if !AssetExists(l.book, tx.quote) then Refuse(l, TokenMissing(tx.quote))
    else if tx.account !in l.book.held.units then Refuse(l, BalanceMissing(tx.account))
    else if tx.pool in l.dex.pools then Refuse(l, PoolAlreadyExists(tx.pool))
    else
      Done(l.(dex := l.dex.(pools := l.dex.pools[tx.pool :=
        Pool(tx.base, tx.quote, tx.account, 0, 0, 0, now, now, None, None)])))
  }

  // ----- adding liquidity -----

  /** The LP units a deposit would mint, once every check before the first write has passed. */
  function AddQuote(l: Ledger, tx: Tx): Result<U64, Error>
    requires tx.AddLiquidity?
  {
    if tx.liquidity != LiquidityId(tx.pool, tx.account, Add, tx.baseAmount, tx.quoteAmount, tx.minLp) then
      Err(IdMismatch(AddKind, tx.liquidity))
    else if tx.liquidity in l.dex.log.liquidity then Err(LiquidityAlreadyExists(tx.liquidity))
    else if tx.baseAmount == 0 || tx.quoteAmount == 0 then Err(TokenAmountMustBePositive(tx.liquidity))
    else if tx.pool !in l.dex.pools then Err(PoolMissing(tx.pool))
    else
      var p := l.dex.pools[tx.pool];
      match LiquidityUnits(tx.pool, p.reserveBase, p.reserveQuote, p.lp, tx.baseAmount, tx.quoteAmount)
      case Err(e) => Err(e)
      case Ok(lp) =>
        if lp == 0 || lp < tx.minLp then Err(LiquidityBelowMinimum(tx.liquidity))
        else
          match Availability(l.book, tx.account, p.base, tx.baseAmount)
          case Rejected(e) => Err(e)
          case Applied =>
            match Availability(l.book, tx.account, p.quote, tx.quoteAmount)
            case Rejected(e) => Err(e)
            case Applied => Ok(lp)
  }

  /** The provider's position, or the empty one a first deposit opens. */
  function PositionOf(d: Dex, pool: Id, account: Id, now: nat): Position {
    var id := LpPositionId(pool, account);
    if id in d.positions then d.positions[id] else Position(pool, account, 0, 0, 0, 0, 0, now)
  }

  /**
   * The deposit counters are written one after the other; each overflow rejects and keeps what was
   * written before it.
   */
  function DepositPosition(r: Position, pool: Id, lp: U64, base: U64, quote: U64, now: nat): Step<Position> {
    if r.lp + lp > MAX_U64 then Refuse(r, PoolReserveOverflow(pool))
    else
      var r1 := r.(lp := r.lp + lp);
      if r1.baseIn + base > MAX_U64 then Refuse(r1, PoolReserveOverflow(pool))
      else
        var r2 := r1.(baseIn := r1.baseIn + base);
        if r2.quoteIn + quote > MAX_U64 then Refuse(r2, PoolReserveOverflow(pool))
        else Done(r2.(quoteIn := r2.quoteIn + quote, updatedAt := now))
  }

  /** The reserves, then the position, then the receipt of a deposit. */
  function PoolDeposit(d: Dex, now: nat, tx: Tx, lp: U64): Step<Dex>
    requires tx.AddLiquidity? && tx.pool in d.pools
  {
    var p := d.pools[tx.pool];
    if p.reserveBase + tx.baseAmount > MAX_U64 || p.reserveQuote + tx.quoteAmount > MAX_U64 || p.lp + lp > MAX_U64 then
      Refuse(d, PoolReserveOverflow(tx.pool))
    else
      var p' := p.(reserveBase := p.reserveBase + tx.baseAmount, reserveQuote := p.reserveQuote + tx.quoteAmount,
                   lp := p.lp + lp, updatedAt := now, lastLiquidity := Some(tx.liquidity));
      var r := DepositPosition(PositionOf(d, tx.pool, tx.account, now), tx.pool, lp, tx.baseAmount, tx.quoteAmount, now);
      var receipt := LiquidityReceipt(tx.pool, tx.account, Add, tx.baseAmount, tx.quoteAmount, lp,
                                      p.reserveBase, p.reserveQuote, p'.reserveBase, p'.reserveQuote, now);
      Step(Dex(d.pools[tx.pool := p'], d.positions[LpPositionId(tx.pool, tx.account) := r.state],
               if r.outcome.Rejected? then d.log else d.log.(liquidity := d.log.liquidity[tx.liquidity := receipt])),
           r.outcome)
  }

  /** Both debits, then the exchange. */
  function AddCommit(l: Ledger, now: nat, tx: Tx, lp: U64): Step<Ledger>
    requires tx.AddLiquidity? && tx.pool in l.dex.pools
  {
    var p := l.dex.pools[tx.pool];
    var d1 := Debit(l.book, now, tx.account, p.base, tx.baseAmount);
    if d1.outcome.Rejected? then Refuse(l, d1.outcome.error)
    else
      var d2 := Debit(d1.state, now, tx.account, p.quote, tx.quoteAmount);
      if d2.outcome.Rejected? then Refuse(l.(book := d2.state), d2.outcome.error)
      else
        var pooled := PoolDeposit(l.dex, now, tx, lp);
        Step(l.(book := d2.state, dex := pooled.state), pooled.outcome)
  }

  function AddStep(l: Ledger, now: nat, tx: Tx): Step<Ledger>
    requires tx.AddLiquidity?
  {
    match AddQuote(l, tx)
    case Err(e) => Refuse(l, e)
    case Ok(lp) => AddCommit(l, now, tx, lp)
  }

  // ----- removing liquidity -----

  /** The base and quote amounts a withdrawal would pay, once every check before the first write has passed. */
  function RemoveQuote(l: Ledger, tx: Tx): Result<(U64, U64), Error>
    requires tx.RemoveLiquidity?
  {
    if tx.liquidity != LiquidityId(tx.pool, tx.account, Remove, tx.lp, tx.minBase, tx.minQuote) then
      Err(IdMismatch(RemoveKind, tx.liquidity))
    else if tx.liquidity in l.dex.log.liquidity then Err(LiquidityAlreadyExists(tx.liquidity))
    else if tx.lp == 0 then Err(TokenAmountMustBePositive(tx.liquidity))
    else if tx.pool !in l.dex.pools then Err(PoolMissing(tx.pool))
    else
      var p := l.dex.pools[tx.pool];
      var id := LpPositionId(tx.pool, tx.account);
      if p.lp == 0 then Err(PoolReserveInsufficient(tx.pool))
      else if id !in l.dex.positions then Err(PositionMissing(id))
      else if l.dex.positions[id].lp < tx.lp then Err(PositionInsufficient(id))
      else
        match Proportional(p.reserveBase, tx.lp, p.lp, tx.pool)
        case Err(e) => Err(e)
        case Ok(base) =>
          match Proportional(p.reserveQuote, tx.lp, p.lp, tx.pool)
          case Err(e) => Err(e)
          case Ok(quote) =>
            if base < tx.minBase || quote < tx.minQuote then Err(LiquidityBelowMinimum(tx.liquidity))
            else Ok((base, quote))
  }

  /** The LP units leave the position first; each withdrawn counter that overflows rejects after that. */
  function WithdrawPosition(r: Position, pool: Id, lp: U64, base: U64, quote: U64, now: nat): Step<Position>
    requires lp <= r.lp
  {
    var r1 := r.(lp := r.lp - lp);
    if r1.baseOut + base > MAX_U64 then Refuse(r1, PoolReserveOverflow(pool))
    else
      var r2 := r1.(baseOut := r1.baseOut + base);
      if r2.quoteOut + quote > MAX_U64 then Refuse(r2, PoolReserveOverflow(pool))
      else Done(r2.(quoteOut := r2.quoteOut + quote, updatedAt := now))
  }

  /** The position, then the pool of a withdrawal. */
  function PoolWithdrawal(d: Dex, now: nat, tx: Tx, base: U64, quote: U64): Step<Dex>
    requires tx.RemoveLiquidity? && tx.pool in d.pools && LpPositionId(tx.pool, tx.account) in d.positions
    requires tx.lp <= d.positions[LpPositionId(tx.pool, tx.account)].lp
  {
    var p := d.pools[tx.pool];
    var id := LpPositionId(tx.pool, tx.account);
    var r := WithdrawPosition(d.positions[id], tx.pool, tx.lp, base, quote, now);
    var left := d.(positions := d.positions[id := r.state]);
    if r.outcome.Rejected? then Step(left, r.outcome)
    else if base > p.reserveBase || quote > p.reserveQuote then Refuse(left, PoolReserveInsufficient(tx.pool))
    else
      var p1 := p.(reserveBase := p.reserveBase - base, reserveQuote := p.reserveQuote - quote);
      if tx.lp > p.lp then Refuse(left.(pools := d.pools[tx.pool := p1]), PoolReserveInsufficient(tx.pool))
      else
        Done(left.(pools := d.pools[tx.pool :=
          p1.(lp := p.lp - tx.lp, updatedAt := now, lastLiquidity := Some(tx.liquidity))]))
  }

  /** The exchange, then the two credits, then the receipt. */
  function RemoveCommit(l: Ledger, now: nat, tx: Tx, base: U64, quote: U64): Step<Ledger>
    requires tx.RemoveLiquidity? && tx.pool in l.dex.pools
    requires LpPositionId(tx.pool, tx.account) in l.dex.positions
    requires tx.lp <= l.dex.positions[LpPositionId(tx.pool, tx.account)].lp
  {
    var p := l.dex.pools[tx.pool];
    var drawn := PoolWithdrawal(l.dex, now, tx, base, quote);
    var left := l.(dex := drawn.state);
    if drawn.outcome.Rejected? then Refuse(left, drawn.outcome.error)
    else
      var c1 := Credit(l.book, now, tx.account, p.base, base);
      if c1.outcome.Rejected? then Refuse(left, c1.outcome.error)
      else
        var c2 := Credit(c1.state, now, tx.account, p.quote, quote);
        if c2.outcome.Rejected? then Refuse(left.(book := c2.state), c2.outcome.error)
        else
          var p' := drawn.state.pools[tx.pool];
          Done(left.(book := c2.state, dex := drawn.state.(log := l.dex.log.(liquidity := l.dex.log.liquidity[tx.liquidity :=
            LiquidityReceipt(tx.pool, tx.account, Remove, base, quote, tx.lp,
                             p.reserveBase, p.reserveQuote, p'.reserveBase, p'.reserveQuote, now)]))))
  }

  function RemoveStep(l: Ledger, now: nat, tx: Tx): Step<Ledger>
    requires tx.RemoveLiquidity?
  {
    match RemoveQuote(l, tx)
    case Err(e) => Refuse(l, e)
    case Ok(amounts) => RemoveCommit(l, now, tx, amounts.0, amounts.1)
  }

  // ----- swapping -----

  /** What a swap pays and the reserves it would leave. */
  datatype SwapPlan = SwapPlan(assetOut: Id, out: U64, base: U64, quote: U64)

  function SwapQuote(l: Ledger, tx: Tx): Result<SwapPlan, Error>
    requires tx.SwapExactIn?
  {
    if tx.swap != SwapId(tx.pool, tx.account, tx.assetIn, tx.amount, tx.minOut) then Err(IdMismatch(SwapKind, tx.swap))
    else if tx.swap in l.dex.log.swaps then Err(SwapAlreadyExists(tx.swap))
    else if tx.amount == 0 then Err(TokenAmountMustBePositive(tx.swap))
    else if tx.pool !in l.dex.pools then Err(PoolMissing(tx.pool))
    else
      var p := l.dex.pools[tx.pool];
      match SwapPlanFor(p, tx.pool, tx.assetIn, tx.amount)
      case Err(e) => Err(e)
      case Ok(plan) =>
        if plan.out == 0 || plan.out < tx.minOut then Err(SwapSlippageExceeded(tx.swap))
        else
          match Availability(l.book, tx.account, tx.assetIn, tx.amount)
          case Rejected(e) => Err(e)
          case Applied => Ok(plan)
  }

  function SwapPlanFor(p: Pool, pool: Id, assetIn: Id, amount: U64): Result<SwapPlan, Error> {
    if assetIn == p.base then
      match ConstantProductOut(p.reserveBase, p.reserveQuote, amount, pool)
      case Err(e) => Err(e)
      case Ok(out) =>
        if p.reserveBase + amount > MAX_U64 then Err(PoolReserveOverflow(pool))
        else if out > p.reserveQuote then Err(PoolReserveInsufficient(pool))
        else Ok(SwapPlan(p.quote, out, p.reserveBase + amount, p.reserveQuote - out))
    else if assetIn == p.quote then
      match ConstantProductOut(p.reserveQuote, p.reserveBase, amount, pool)
      case Err(e) => Err(e)
      case Ok(out) =>
        if out > p.reserveBase then Err(PoolReserveInsufficient(pool))
        else if p.reserveQuote + amount > MAX_U64 then Err(PoolReserveOverflow(pool))
        else Ok(SwapPlan(p.base, out, p.reserveBase - out, p.reserveQuote + amount))
    else Err(PoolInvalidAsset(assetIn))
  }

  /** The debit, then the credit, then the pool and the receipt. */
  function SwapCommit(l: Ledger, now: nat, tx: Tx, plan: SwapPlan): Step<Ledger>
    requires tx.SwapExactIn? && tx.pool in l.dex.pools
  {
    var p := l.dex.pools[tx.pool];
    var d := Debit(l.book, now, tx.account, tx.assetIn, tx.amount);
    if d.outcome.Rejected? then Refuse(l, d.outcome.error)
    else
      var c := Credit(d.state, now, tx.account, plan.assetOut, plan.out);
      var paid := l.(book := c.state);
      if c.outcome.Rejected? then Refuse(paid, c.outcome.error)
      else
        var p' := p.(reserveBase := plan.base, reserveQuote := plan.quote, updatedAt := now, lastSwap := Some(tx.swap));
        Done(paid.(dex := l.dex.(
          pools := l.dex.pools[tx.pool := p'],
          log := l.dex.log.(swaps := l.dex.log.swaps[tx.swap :=
            SwapReceipt(tx.pool, tx.account, tx.assetIn, plan.assetOut, tx.amount, plan.out,
                        p.reserveBase, p.reserveQuote, plan.base, plan.quote, now)]))))
  }

  function SwapStep(l: Ledger, now: nat, tx: Tx): Step<Ledger>
    requires tx.SwapExactIn?
  {
    match SwapQuote(l, tx)
    case Err(e) => Refuse(l, e)
    case Ok(plan) => SwapCommit(l, now, tx, plan)
  }
}
