/** When each exchange transaction applies, said without its quote, and what its receipt says. */
module ExchangeDecisions {
  import opened Prelude
  import opened Ids
  import opened Records
  import opened PoolMath
  import opened Accounts
  import opened Exchange
  import opened BookFacts
  import opened DexFacts
  import opened BridgeFacts
  import opened LedgerInvariant
  import opened RoundTrips

  /** With a sound book, an account can pay a positive amount of an asset exactly when it holds it. */
  lemma AvailableIffHeld(b: Book, account: Id, asset: Id, amount: U64)
    requires BookOk(b) && amount > 0
    ensures Availability(b, account, asset, amount).Applied? <==> Holding(b, account, asset) >= amount
  {
  }

  // ----- pools -----

  /** A pool opens exactly for two distinct existing assets, once, under the id of the pair. */
  lemma CreatePoolAppliesIff(l: Ledger, now: nat, tx: Tx)
    requires tx.CreatePool?
    ensures CreatePoolStep(l, now, tx).outcome.Applied? <==>
            && tx.pool == PoolId(tx.base, tx.quote) && tx.base != tx.quote && tx.pool !in l.dex.pools
            && (tx.base == LocalUnit || tx.base in l.book.tokens) && (tx.quote == LocalUnit || tx.quote in l.book.tokens)
            && tx.account in l.book.held.units
  {
  }

  // ----- swaps -----

  /** The output the constant product allows, rounded down. */
  function Output(rin: U64, rout: U64, amount: U64): int
    requires rin > 0
  {
    rout * amount / (rin + amount)
  }

  /** The trade a swap asks for can be made against the pool, and pays enough. */
  predicate Tradable(p: Pool, tx: Tx)
    requires tx.SwapExactIn?
  {
    && (tx.assetIn == p.base || tx.assetIn == p.quote)
    && InReserve(p, tx.assetIn) > 0 && OutReserve(p, tx.assetIn) > 0
    && InReserve(p, tx.assetIn) + tx.amount <= MAX_U64
    && var out := Output(InReserve(p, tx.assetIn), OutReserve(p, tx.assetIn), tx.amount);
       out > 0 && out >= tx.minOut
  }

  lemma PlanIff(p: Pool, tx: Tx)
    requires tx.SwapExactIn? && p.base != p.quote
    ensures (var r := SwapPlanFor(p, tx.pool, tx.assetIn, tx.amount); r.Ok? && r.value.out > 0 && r.value.out >= tx.minOut)
            <==> Tradable(p, tx)
    ensures Tradable(p, tx) ==>
              var plan := SwapPlanFor(p, tx.pool, tx.assetIn, tx.amount).value;
              && plan.out == Output(InReserve(p, tx.assetIn), OutReserve(p, tx.assetIn), tx.amount)
              && plan.assetOut == OtherAsset(p, tx.assetIn)
  {
    if p.reserveBase > 0 && p.reserveQuote > 0 {
      SwapBounds(p.reserveBase, p.reserveQuote, tx.amount, tx.pool);
      SwapBounds(p.reserveQuote, p.reserveBase, tx.amount, tx.pool);
    }
  }

  lemma SwapQuoteIff(l: Ledger, tx: Tx)
    requires LedgerOk(l) && tx.SwapExactIn?
    ensures SwapQuote(l, tx).Ok? <==>
            && tx.swap == SwapId(tx.pool, tx.account, tx.assetIn, tx.amount, tx.minOut) && tx.swap !in l.dex.log.swaps
            && tx.amount > 0 && tx.pool in l.dex.pools && Tradable(l.dex.pools[tx.pool], tx)
            && Holding(l.book, tx.account, tx.assetIn) >= tx.amount
    ensures SwapQuote(l, tx).Ok? ==>
              var p := l.dex.pools[tx.pool];
              && SwapQuote(l, tx).value.out == Output(InReserve(p, tx.assetIn), OutReserve(p, tx.assetIn), tx.amount)
              && SwapQuote(l, tx).value.assetOut == OtherAsset(p, tx.assetIn)
  {
    hide BookOk, DexOk, BridgeOk, SwapPlanFor, Availability, Holding, Tradable, Output, Healthy, AssetExists;
    if tx.amount > 0 {
      AvailableIffHeld(l.book, tx.account, tx.assetIn, tx.amount);
    }
    if tx.pool in l.dex.pools {
      PoolFacts(l, tx.pool);
      PlanIff(l.dex.pools[tx.pool], tx);
    }
  }

  /**
   * A swap applies exactly when its id is its own and new, it trades a positive amount of either asset
   * against live reserves within range for at least its minimum, the trader holds the input, and the
   * output fits the trader's balance.
   */
  lemma SwapAppliesIff(l: Ledger, now: nat, tx: Tx)
    requires LedgerOk(l) && tx.SwapExactIn?
    ensures SwapStep(l, now, tx).outcome.Applied? <==>
            && tx.swap == SwapId(tx.pool, tx.account, tx.assetIn, tx.amount, tx.minOut) && tx.swap !in l.dex.log.swaps
            && tx.amount > 0 && tx.pool in l.dex.pools && Tradable(l.dex.pools[tx.pool], tx)
            && Holding(l.book, tx.account, tx.assetIn) >= tx.amount
            && var p := l.dex.pools[tx.pool];
               Holding(l.book, tx.account, OtherAsset(p, tx.assetIn))
                 + Output(InReserve(p, tx.assetIn), OutReserve(p, tx.assetIn), tx.amount) <= MAX_U64
  {
    hide BookOk, DexOk, BridgeOk, SwapStep, SwapCommit, SwapQuote, Debit, Credit, Holding, Tradable, Output;
    SwapQuoteIff(l, tx);
    match SwapQuote(l, tx) {
      case Err(_) => SwapRefused(l, now, tx);
      case Ok(plan) =>
        SwapStepCommits(l, now, tx, plan);
        SwapPayment(l, now, tx, plan);
        SwapShape(l, now, tx, plan);
    }
  }

  lemma SwapReceiptShape(l: Ledger, now: nat, tx: Tx, plan: SwapPlan)
    requires tx.SwapExactIn? && tx.pool in l.dex.pools && SwapCommit(l, now, tx, plan).outcome.Applied?
    ensures SwapCommit(l, now, tx, plan).state.dex.log.liquidity == l.dex.log.liquidity
    ensures var p := l.dex.pools[tx.pool];
            SwapCommit(l, now, tx, plan).state.dex.log.swaps == l.dex.log.swaps[tx.swap :=
              SwapReceipt(tx.pool, tx.account, tx.assetIn, plan.assetOut, tx.amount, plan.out,
                          p.reserveBase, p.reserveQuote, plan.base, plan.quote, now)]
  {
    hide Debit, Credit;
  }

  /** The receipt of an applied swap tells what moved and the reserves before and after. */
  lemma SwapReceiptTells(l: Ledger, now: nat, tx: Tx)
    requires LedgerOk(l) && tx.SwapExactIn? && SwapStep(l, now, tx).outcome.Applied?
    ensures var l' := SwapStep(l, now, tx).state;
            && tx.pool in l.dex.pools && tx.pool in l'.dex.pools && tx.swap in l'.dex.log.swaps
            && var (p, p', r) := (l.dex.pools[tx.pool], l'.dex.pools[tx.pool], l'.dex.log.swaps[tx.swap]);
               && r.pool == tx.pool && r.trader == tx.account && r.assetIn == tx.assetIn
               && r.assetOut == OtherAsset(p, tx.assetIn) && r.at == now
               && r.baseBefore == p.reserveBase && r.quoteBefore == p.reserveQuote
               && r.baseAfter == p'.reserveBase && r.quoteAfter == p'.reserveQuote
               && r.amountIn == Holding(l.book, tx.account, r.assetIn) - Holding(l'.book, tx.account, r.assetIn)
               && r.amountOut == Holding(l'.book, tx.account, r.assetOut) - Holding(l.book, tx.account, r.assetOut)
  {
    hide BookOk, DexOk, BridgeOk, SwapStep, SwapCommit, SwapQuote, Holding, ConstantProductOut, Debit, Credit, Tradable;
    SwapAppliesIff(l, now, tx);
    SwapQuoteIff(l, tx);
    match SwapQuote(l, tx) {
      case Err(_) => SwapRefused(l, now, tx);
      case Ok(plan) =>
        var p := l.dex.pools[tx.pool];
        SwapStepCommits(l, now, tx, plan);
        SwapReceiptShape(l, now, tx, plan);
        SwapPayment(l, now, tx, plan);
        SwapShape(l, now, tx, plan);
        SwapEffect(l, now, tx, tx.account, tx.assetIn);
        SwapEffect(l, now, tx, tx.account, OtherAsset(p, tx.assetIn));
    }
  }

  // ----- deposits -----

  /** The LP units two amounts pay for: the smaller one into an empty pool, else the smaller share rounded down. */
  function Minted(p: Pool, base: U64, quote: U64): int {
    if p.lp == 0 then if base <= quote then base else quote
    else if p.reserveBase == 0 || p.reserveQuote == 0 then 0
    else
      var (byBase, byQuote) := (base * p.lp / p.reserveBase, quote * p.lp / p.reserveQuote);
      if byBase <= byQuote then byBase else byQuote
  }

  lemma MintedUnits(p: Pool, pool: Id, base: U64, quote: U64)
    requires Healthy(p.reserveBase, p.reserveQuote, p.lp)
    ensures LiquidityUnits(pool, p.reserveBase, p.reserveQuote, p.lp, base, quote).Ok?
    ensures LiquidityUnits(pool, p.reserveBase, p.reserveQuote, p.lp, base, quote).value == Minted(p, base, quote)
  {
    HealthyReserves(p.reserveBase, p.reserveQuote, p.lp);
    DepositInRange(pool, p.reserveBase, p.reserveQuote, p.lp, base, quote);
  }

  lemma AddQuoteIff(l: Ledger, tx: Tx)
    requires LedgerOk(l) && tx.AddLiquidity?
    ensures AddQuote(l, tx).Ok? <==>
            && tx.liquidity == LiquidityId(tx.pool, tx.account, Add, tx.baseAmount, tx.quoteAmount, tx.minLp)
            && tx.liquidity !in l.dex.log.liquidity && tx.baseAmount > 0 && tx.quoteAmount > 0 && tx.pool in l.dex.pools
            && var p := l.dex.pools[tx.pool];
               && Minted(p, tx.baseAmount, tx.quoteAmount) > 0 && Minted(p, tx.baseAmount, tx.quoteAmount) >= tx.minLp
               && Holding(l.book, tx.account, p.base) >= tx.baseAmount
               && Holding(l.book, tx.account, p.quote) >= tx.quoteAmount
    ensures AddQuote(l, tx).Ok? ==> AddQuote(l, tx).value == Minted(l.dex.pools[tx.pool], tx.baseAmount, tx.quoteAmount)
  {
    hide BookOk, DexOk, BridgeOk, Availability, Holding, LiquidityUnits, Minted, Healthy, AssetExists;
    if tx.pool in l.dex.pools {
      var p := l.dex.pools[tx.pool];
      PoolFacts(l, tx.pool);
      MintedUnits(p, tx.pool, tx.baseAmount, tx.quoteAmount);
      if tx.baseAmount > 0 {
        AvailableIffHeld(l.book, tx.account, p.base, tx.baseAmount);
      }
      if tx.quoteAmount > 0 {
        AvailableIffHeld(l.book, tx.account, p.quote, tx.quoteAmount);
      }
    }
  }

  /** The deposit counters of the provider's position take the amounts; a new position has empty ones. */
  predicate DepositCounted(d: Dex, tx: Tx)
    requires tx.AddLiquidity?
  {
    var id := LpPositionId(tx.pool, tx.account);
    id in d.positions ==>
      d.positions[id].baseIn + tx.baseAmount <= MAX_U64 && d.positions[id].quoteIn + tx.quoteAmount <= MAX_U64
  }

  /**
   * A deposit applies exactly when its id is its own and new, it pays a positive amount of both assets
   * the provider holds for at least its minimum of LP units, and reserves and deposit counters take it.
   */
  lemma AddAppliesIff(l: Ledger, now: nat, tx: Tx)
    requires LedgerOk(l) && tx.AddLiquidity?
    ensures AddStep(l, now, tx).outcome.Applied? <==>
            && tx.liquidity == LiquidityId(tx.pool, tx.account, Add, tx.baseAmount, tx.quoteAmount, tx.minLp)
            && tx.liquidity !in l.dex.log.liquidity && tx.baseAmount > 0 && tx.quoteAmount > 0 && tx.pool in l.dex.pools
            && var p := l.dex.pools[tx.pool];
               && Minted(p, tx.baseAmount, tx.quoteAmount) > 0 && Minted(p, tx.baseAmount, tx.quoteAmount) >= tx.minLp
               && Holding(l.book, tx.account, p.base) >= tx.baseAmount
               && Holding(l.book, tx.account, p.quote) >= tx.quoteAmount
               && p.reserveBase + tx.baseAmount <= MAX_U64 && p.reserveQuote + tx.quoteAmount <= MAX_U64
               && DepositCounted(l.dex, tx)
  {
    hide BookOk, DexOk, BridgeOk, AddStep, AddQuote, Holding, Minted, PaidIn, Availability, LiquidityUnits,
         DepositedPosition, Healthy;
    AddQuoteIff(l, tx);
    match AddQuote(l, tx) {
      case Err(_) => AddRefused(l, now, tx);
      case Ok(lp) =>
        if ReserveOverflows(l, tx) {
          AddOverflowOutcome(l, now, tx, lp);
        } else {
          AddPooledOutcome(l, now, tx, lp);
        }
    }
  }

  lemma AddReceiptShape(l: Ledger, now: nat, tx: Tx, lp: U64)
    requires tx.AddLiquidity? && tx.pool in l.dex.pools && AddCommit(l, now, tx, lp).outcome.Applied?
    ensures AddCommit(l, now, tx, lp).state.dex.log.swaps == l.dex.log.swaps
    ensures var p := l.dex.pools[tx.pool];
            && p.reserveBase + tx.baseAmount <= MAX_U64 && p.reserveQuote + tx.quoteAmount <= MAX_U64
            && AddCommit(l, now, tx, lp).state.dex.log.liquidity == l.dex.log.liquidity[tx.liquidity :=
                 LiquidityReceipt(tx.pool, tx.account, Add, tx.baseAmount, tx.quoteAmount, lp, p.reserveBase, p.reserveQuote,
                                  p.reserveBase + tx.baseAmount, p.reserveQuote + tx.quoteAmount, now)]
  {
    hide Debit, DepositPosition;
  }

  /** What a liquidity receipt tells: who, which way, and the pool before and after. */
  predicate Tells(r: LiquidityReceipt, pool: Id, provider: Id, action: Action, p: Pool, p': Pool, now: nat) {
    && r.pool == pool && r.provider == provider && r.action == action && r.at == now
    && r.baseBefore == p.reserveBase && r.quoteBefore == p.reserveQuote
    && r.baseAfter == p'.reserveBase && r.quoteAfter == p'.reserveQuote
  }

  /** The LP units of an account in a pool. */
  function Shares(d: Dex, pool: Id, account: Id): U64 {
    var id := LpPositionId(pool, account);
    if id in d.positions then d.positions[id].lp else 0
  }

  /** An applied deposit adds what it mints to pool and position alike, and its receipt tells so. */
  lemma AddReceiptTells(l: Ledger, now: nat, tx: Tx)
    requires LedgerOk(l) && tx.AddLiquidity? && AddStep(l, now, tx).outcome.Applied?
    ensures var l' := AddStep(l, now, tx).state;
            && tx.pool in l.dex.pools && tx.pool in l'.dex.pools && tx.liquidity in l'.dex.log.liquidity
            && var (p, p', r) := (l.dex.pools[tx.pool], l'.dex.pools[tx.pool], l'.dex.log.liquidity[tx.liquidity]);
               && Tells(r, tx.pool, tx.account, Add, p, p', now)
               && r.baseAmount == p'.reserveBase - p.reserveBase && r.quoteAmount == p'.reserveQuote - p.reserveQuote
               && r.lp == p'.lp - p.lp
               && r.lp == Shares(l'.dex, tx.pool, tx.account) - Shares(l.dex, tx.pool, tx.account)
  {
    hide BookOk, DexOk, BridgeOk, AddStep, AddQuote, AddCommit, Holding, PaidIn, Availability, LiquidityUnits,
         DepositedPosition, DepositCounterOverflows, Healthy;
    match AddQuote(l, tx) {
      case Err(_) => AddRefused(l, now, tx);
      case Ok(lp) =>
        AddStepCommits(l, now, tx, lp);
        AddReceiptShape(l, now, tx, lp);
        AddPooledOutcome(l, now, tx, lp);
        DepositedPositionFacts(l, now, tx, lp);
    }
  }

  // ----- withdrawals -----

  /** The share of a reserve that LP units redeem, rounded down. */
  function Share(reserve: U64, lp: U64, supply: U64): int
    requires supply > 0
  {
    reserve * lp / supply
  }

  lemma RemoveQuoteIff(l: Ledger, tx: Tx)
    requires LedgerOk(l) && tx.RemoveLiquidity?
    ensures RemoveQuote(l, tx).Ok? <==>
            && tx.liquidity == LiquidityId(tx.pool, tx.account, Remove, tx.lp, tx.minBase, tx.minQuote)
            && tx.liquidity !in l.dex.log.liquidity && tx.lp > 0 && tx.pool in l.dex.pools
            && Shares(l.dex, tx.pool, tx.account) >= tx.lp
            && var p := l.dex.pools[tx.pool];
               && p.lp > 0
               && Share(p.reserveBase, tx.lp, p.lp) >= tx.minBase && Share(p.reserveQuote, tx.lp, p.lp) >= tx.minQuote
    ensures RemoveQuote(l, tx).Ok? ==>
              var p := l.dex.pools[tx.pool];
              RemoveQuote(l, tx).value == (Share(p.reserveBase, tx.lp, p.lp), Share(p.reserveQuote, tx.lp, p.lp))
  {
    hide BookOk, DexOk, BridgeOk, Proportional, Share;
    if tx.pool in l.dex.pools && 0 < tx.lp <= Shares(l.dex, tx.pool, tx.account) {
      var p := l.dex.pools[tx.pool];
      PositionOwner(l, tx.pool, tx.account);
      PositionWithinSupply(l, LpPositionId(tx.pool, tx.account));
      ShareIsProportional(p.reserveBase, tx.lp, p.lp, tx.pool);
      ShareIsProportional(p.reserveQuote, tx.lp, p.lp, tx.pool);
    }
  }

  lemma ShareIsProportional(reserve: U64, lp: U64, supply: U64, pool: Id)
    requires 0 < lp <= supply
    ensures Proportional(reserve, lp, supply, pool).Ok?
    ensures Proportional(reserve, lp, supply, pool).value == Share(reserve, lp, supply)
  {
    WithdrawalBounds(reserve, lp, supply, pool);
  }

  /**
   * A withdrawal applies exactly when its id is its own and new, the provider has the LP units, both
   * shares reach their minimums and are not zero, and withdrawal counters and balances take them.
   */
  lemma RemoveAppliesIff(l: Ledger, now: nat, tx: Tx)
    requires LedgerOk(l) && tx.RemoveLiquidity?
    ensures RemoveStep(l, now, tx).outcome.Applied? <==>
            && tx.liquidity == LiquidityId(tx.pool, tx.account, Remove, tx.lp, tx.minBase, tx.minQuote)
            && tx.liquidity !in l.dex.log.liquidity && tx.lp > 0 && tx.pool in l.dex.pools
            && Shares(l.dex, tx.pool, tx.account) >= tx.lp
            && var p := l.dex.pools[tx.pool];
               && p.lp > 0
               && var (base, quote) := (Share(p.reserveBase, tx.lp, p.lp), Share(p.reserveQuote, tx.lp, p.lp));
                  var r := l.dex.positions[LpPositionId(tx.pool, tx.account)];
                  && base > 0 && base >= tx.minBase && quote > 0 && quote >= tx.minQuote
                  && r.baseOut + base <= MAX_U64 && r.quoteOut + quote <= MAX_U64
                  && Holding(l.book, tx.account, p.base) + base <= MAX_U64
                  && Holding(l.book, tx.account, p.quote) + quote <= MAX_U64
  {
    hide BookOk, DexOk, BridgeOk, RemoveStep, RemoveCommit, RemoveQuote, PaidOut, Proportional, Share, Holding,
         WithdrawnPosition, Healthy, BacksAtLeast, Credit, Withdrawn;
    RemoveQuoteIff(l, tx);
    match RemoveQuote(l, tx) {
      case Err(_) => RemoveRefused(l, now, tx);
      case Ok((base, quote)) =>
        RemoveStepCommits(l, now, tx, base, quote);
        WithdrawalFits(l, tx, base, quote);
        if WithdrawalCounterOverflows(l, tx, base, quote) {
          RemoveCounterShape(l, now, tx, base, quote);
        } else {
          PoolFacts(l, tx.pool);
          PositionOwner(l, tx.pool, tx.account);
          RemovePooledShape(l, now, tx, base, quote);
          PaidOutFacts(l.book, now, tx.account, l.dex.pools[tx.pool], base, quote);
        }
    }
  }

  lemma RemoveReceiptShape(l: Ledger, now: nat, tx: Tx, base: U64, quote: U64)
    requires tx.RemoveLiquidity? && tx.pool in l.dex.pools && LpPositionId(tx.pool, tx.account) in l.dex.positions
    requires tx.lp <= l.dex.positions[LpPositionId(tx.pool, tx.account)].lp
    requires RemoveCommit(l, now, tx, base, quote).outcome.Applied?
    ensures RemoveCommit(l, now, tx, base, quote).state.dex.log.swaps == l.dex.log.swaps
    ensures var p := l.dex.pools[tx.pool];
            && base <= p.reserveBase && quote <= p.reserveQuote
            && RemoveCommit(l, now, tx, base, quote).state.dex.log.liquidity == l.dex.log.liquidity[tx.liquidity :=
                 LiquidityReceipt(tx.pool, tx.account, Remove, base, quote, tx.lp, p.reserveBase, p.reserveQuote,
                                  p.reserveBase - base, p.reserveQuote - quote, now)]
  {
    hide Credit, WithdrawPosition;
  }

  /** An applied withdrawal takes the stated LP units from pool and position alike, and its receipt tells so. */
  lemma RemoveReceiptTells(l: Ledger, now: nat, tx: Tx)
    requires LedgerOk(l) && tx.RemoveLiquidity? && RemoveStep(l, now, tx).outcome.Applied?
    ensures var l' := RemoveStep(l, now, tx).state;
            && tx.pool in l.dex.pools && tx.pool in l'.dex.pools && tx.liquidity in l'.dex.log.liquidity
            && var (p, p', r) := (l.dex.pools[tx.pool], l'.dex.pools[tx.pool], l'.dex.log.liquidity[tx.liquidity]);
               && Tells(r, tx.pool, tx.account, Remove, p, p', now)
               && r.baseAmount == p.reserveBase - p'.reserveBase && r.quoteAmount == p.reserveQuote - p'.reserveQuote
               && r.lp == tx.lp == p.lp - p'.lp
               && tx.lp == Shares(l.dex, tx.pool, tx.account) - Shares(l'.dex, tx.pool, tx.account)
  {
    hide BookOk, DexOk, BridgeOk, RemoveStep, RemoveCommit, RemoveQuote, PaidOut, Proportional, WithdrawnPosition, Healthy,
         BacksAtLeast, Credit, Holding, WithdrawalCounterOverflows;
    match RemoveQuote(l, tx) {
      case Err(_) => RemoveRefused(l, now, tx);
      case Ok((base, quote)) =>
        RemoveStepCommits(l, now, tx, base, quote);
        RemoveReceiptShape(l, now, tx, base, quote);
        WithdrawalFits(l, tx, base, quote);
        WithdrawnPositionFacts(l, now, tx, base, quote);
        if WithdrawalCounterOverflows(l, tx, base, quote) {
          RemoveCounterShape(l, now, tx, base, quote);
        } else {
          RemovePooledShape(l, now, tx, base, quote);
        }
    }
  }
}
