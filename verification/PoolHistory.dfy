/** What every pool keeps over whole runs, and that no round trip through it gains. */
module PoolHistory {
  import opened Prelude
  import opened Ids
  import opened Records
  import opened State
  import opened Accounts
  import opened BookFacts
  import opened PoolMath
  import opened Exchange
  import opened DexFacts
  import opened BridgePath
  import opened BridgeFacts
  import opened Machine
  import opened LedgerInvariant

  // ----- the product per squared LP unit -----

  predicate Kept(p: Pool, p': Pool) {
    && p'.base == p.base && p'.quote == p.quote
    && ProductPerUnitKept(p.reserveBase, p.reserveQuote, p.lp, p'.reserveBase, p'.reserveQuote, p'.lp)
  }

  predicate Backed(p: Pool, p': Pool) {
    && p'.base == p.base && p'.quote == p.quote
    && BacksAtLeast(p.reserveBase, p.reserveQuote, p.lp, p'.reserveBase, p'.reserveQuote, p'.lp)
  }

  lemma SamePoolBacked(p: Pool)
    ensures Backed(p, p)
  {
  }

  lemma BackedIsKept(p: Pool, p': Pool)
    requires Backed(p, p')
    ensures Kept(p, p')
  {
    BackingKeepsProduct(p.reserveBase, p.reserveQuote, p.lp, p'.reserveBase, p'.reserveQuote, p'.lp);
  }

  lemma AddBacks(l: Ledger, now: nat, tx: Tx, pool: Id)
    requires LedgerOk(l) && tx.AddLiquidity? && pool in l.dex.pools
    ensures pool in AddStep(l, now, tx).state.dex.pools
    ensures Backed(l.dex.pools[pool], AddStep(l, now, tx).state.dex.pools[pool])
  {
    hide BookOk, DexOk, BridgeOk, AddStep, AddQuote, Availability, LiquidityUnits, Healthy, PaidIn, BacksAtLeast,
         DepositCounterOverflows, DepositedPosition;
    SamePoolBacked(l.dex.pools[pool]);
    match AddQuote(l, tx) {
      case Err(_) => AddRefused(l, now, tx);
      case Ok(lp) =>
        AddQuoteFacts(l, tx, lp);
        if ReserveOverflows(l, tx) {
          AddOverflowOutcome(l, now, tx, lp);
        } else {
          AddPooledOutcome(l, now, tx, lp);
          PoolFacts(l, tx.pool);
          DepositedBacked(l.dex.pools[tx.pool], now, tx, lp);
        }
    }
  }

  lemma DepositedBacked(p: Pool, now: nat, tx: Tx, lp: U64)
    requires tx.AddLiquidity? && Healthy(p.reserveBase, p.reserveQuote, p.lp)
    requires p.reserveBase + tx.baseAmount <= MAX_U64 && p.reserveQuote + tx.quoteAmount <= MAX_U64
    requires p.lp + lp <= MAX_U64
    requires LiquidityUnits(tx.pool, p.reserveBase, p.reserveQuote, p.lp, tx.baseAmount, tx.quoteAmount) == Ok(lp)
    ensures Backed(p, Deposited(p, now, tx, lp))
  {
    hide LiquidityUnits;
    if p.lp > 0 {
      DepositBacks(tx.pool, p.reserveBase, p.reserveQuote, p.lp, tx.baseAmount, tx.quoteAmount, lp);
    }
  }

  lemma RemoveBacks(l: Ledger, now: nat, tx: Tx, pool: Id)
    requires LedgerOk(l) && tx.RemoveLiquidity? && pool in l.dex.pools
    ensures pool in RemoveStep(l, now, tx).state.dex.pools
    ensures Backed(l.dex.pools[pool], RemoveStep(l, now, tx).state.dex.pools[pool])
  {
    hide BookOk, DexOk, BridgeOk, RemoveStep, RemoveCommit, RemoveQuote, Credit, Healthy, PaidOut, BacksAtLeast,
         WithdrawnPosition, WithdrawalCounterOverflows;
    SamePoolBacked(l.dex.pools[pool]);
    match RemoveQuote(l, tx) {
      case Err(_) => RemoveRefused(l, now, tx);
      case Ok((base, quote)) =>
        RemoveStepCommits(l, now, tx, base, quote);
        WithdrawalFits(l, tx, base, quote);
        if WithdrawalCounterOverflows(l, tx, base, quote) {
          RemoveCounterShape(l, now, tx, base, quote);
        } else {
          RemovePooledShape(l, now, tx, base, quote);
        }
    }
  }

  lemma SwapKeeps(l: Ledger, now: nat, tx: Tx, pool: Id)
    requires LedgerOk(l) && tx.SwapExactIn? && pool in l.dex.pools
    ensures pool in SwapStep(l, now, tx).state.dex.pools
    ensures Kept(l.dex.pools[pool], SwapStep(l, now, tx).state.dex.pools[pool])
  {
    hide BookOk, DexOk, BridgeOk, SwapStep, SwapCommit, SwapQuote, SwapPlanFor, Debit, Credit, Availability, Healthy,
         ConstantProductOut, Kept, Backed, Holding;
    SamePoolBacked(l.dex.pools[pool]);
    BackedIsKept(l.dex.pools[pool], l.dex.pools[pool]);
    match SwapQuote(l, tx) {
      case Err(_) => SwapRefused(l, now, tx);
      case Ok(plan) =>
        SwapStepCommits(l, now, tx, plan);
        SwapPayment(l, now, tx, plan);
        SwapShape(l, now, tx, plan);
        SwapQuoteFacts(l, tx, plan);
        PoolFacts(l, tx.pool);
        TradedKept(l.dex.pools[tx.pool], now, tx, plan);
    }
  }

  lemma TradedKept(p: Pool, now: nat, tx: Tx, plan: SwapPlan)
    requires tx.SwapExactIn? && p.base != p.quote && SwapPlanFor(p, tx.pool, tx.assetIn, tx.amount) == Ok(plan)
    ensures Kept(p, Traded(p, now, tx, plan))
  {
    hide SwapPlanFor, ConstantProductOut;
    SwapPlanFacts(p, tx.pool, tx.assetIn, tx.amount, plan);
    MulMono(plan.base * plan.quote, p.reserveBase * p.reserveQuote, p.lp * p.lp, p.lp * p.lp);
  }

  lemma CreatePoolSpares(l: Ledger, now: nat, tx: Tx, pool: Id)
    requires tx.CreatePool? && pool in l.dex.pools
    ensures pool in CreatePoolStep(l, now, tx).state.dex.pools
    ensures CreatePoolStep(l, now, tx).state.dex.pools[pool] == l.dex.pools[pool]
  {
    hide CreatePoolStep, AssetExists;
    CreatePoolShape(l, now, tx);
  }

  lemma OnlyDexTouchesDex(l: Ledger, now: nat, tx: Tx)
    requires IsLedgerTx(tx) && !IsDexTx(tx)
    ensures LedgerStep(l, now, tx).state.dex == l.dex
  {
    hide BookStep, CreditStep, MapAssetStep, MapAccountStep, CreditQuote, Credit, Consume, CreditedBook;
    if tx.CreditBridge? {
      CreditShape(l, now, tx);
    } else if IsBridgeTx(tx) {
      MapShape(l, now, tx);
    }
  }

  /** Pools are never removed; only swaps shift the backing of an LP unit, and no transaction lowers the product per squared unit. */
  lemma PoolStep(c: Core, env: Env, tx: Tx, pool: Id)
    requires LedgerOk(c.ledger) && pool in c.ledger.dex.pools
    ensures var pools := Apply(c, env, tx).state.ledger.dex.pools;
            && pool in pools && Kept(c.ledger.dex.pools[pool], pools[pool])
            && (!tx.SwapExactIn? ==> Backed(c.ledger.dex.pools[pool], pools[pool]))
  {
    hide LedgerOk, LedgerStep, Kept, Backed;
    var p := c.ledger.dex.pools[pool];
    SamePoolBacked(p);
    BackedIsKept(p, p);
    if !IsLedgerTx(tx) {
      OtherTxKeepsLedger(c, env, tx);
    } else if !IsDexTx(tx) {
      OnlyDexTouchesDex(c.ledger, env.now, tx);
    } else {
      DexPoolStep(c.ledger, env.now, tx, pool);
    }
  }

  lemma DexPoolStep(l: Ledger, now: nat, tx: Tx, pool: Id)
    requires LedgerOk(l) && IsDexTx(tx) && pool in l.dex.pools
    ensures var pools := LedgerStep(l, now, tx).state.dex.pools;
            && pool in pools && Kept(l.dex.pools[pool], pools[pool])
            && (!tx.SwapExactIn? ==> Backed(l.dex.pools[pool], pools[pool]))
  {
    hide LedgerOk, Kept, Backed, CreatePoolStep, AddStep, RemoveStep, SwapStep;
    if tx.CreatePool? {
      CreatePoolSpares(l, now, tx, pool);
      SamePoolBacked(l.dex.pools[pool]);
    } else if tx.AddLiquidity? {
      AddBacks(l, now, tx, pool);
    } else if tx.RemoveLiquidity? {
      RemoveBacks(l, now, tx, pool);
    } else {
      SwapKeeps(l, now, tx, pool);
    }
    if !tx.SwapExactIn? {
      BackedIsKept(l.dex.pools[pool], LedgerStep(l, now, tx).state.dex.pools[pool]);
    }
  }

  /** The pool has LP units before the run and after every transaction of it. */
  ghost predicate LiveThroughout(c: Core, events: seq<Event>, pool: Id)
    decreases |events|
  {
    && pool in c.ledger.dex.pools && c.ledger.dex.pools[pool].lp > 0
    && (events == [] || LiveThroughout(Apply(c, events[0].env, events[0].tx).state, events[1..], pool))
  }

  /** Over any run through which a pool stays live, its reserve product per squared LP unit never falls. */
  lemma {:induction false} ProductNeverFalls(c: Core, events: seq<Event>, pool: Id)
    requires LedgerOk(c.ledger) && LiveThroughout(c, events, pool)
    ensures pool in Run(c, events).ledger.dex.pools
    ensures Kept(c.ledger.dex.pools[pool], Run(c, events).ledger.dex.pools[pool])
    decreases |events|
  {
    hide LedgerOk, Apply, Kept, Backed;
    var p := c.ledger.dex.pools[pool];
    if events == [] {
      SamePoolBacked(p);
      BackedIsKept(p, p);
    } else {
      var c1 := Apply(c, events[0].env, events[0].tx).state;
      ApplyKeepsLedgerOk(c, events[0].env, events[0].tx);
      PoolStep(c, events[0].env, events[0].tx, pool);
      ProductNeverFalls(c1, events[1..], pool);
      KeptTransitive(p, c1.ledger.dex.pools[pool], Run(c1, events[1..]).ledger.dex.pools[pool]);
    }
  }

  lemma KeptTransitive(p: Pool, p1: Pool, p2: Pool)
    requires Kept(p, p1) && Kept(p1, p2) && p1.lp > 0
    ensures Kept(p, p2)
  {
    hide ProductPerUnitKept;
    ProductPerUnitTransitive(p.reserveBase, p.reserveQuote, p.lp, p1.reserveBase, p1.reserveQuote, p1.lp,
                             p2.reserveBase, p2.reserveQuote, p2.lp);
  }

  /**
   * A run that leaves the LP supply where it was, in particular any sequence of swaps, cannot leave
   * both reserves at or below their start with one of them lower.
   */
  lemma NoRunDrainsReserves(c: Core, events: seq<Event>, pool: Id)
    requires LedgerOk(c.ledger) && LiveThroughout(c, events, pool)
    requires pool in Run(c, events).ledger.dex.pools
    requires Run(c, events).ledger.dex.pools[pool].lp == c.ledger.dex.pools[pool].lp
    requires Run(c, events).ledger.dex.pools[pool].reserveBase <= c.ledger.dex.pools[pool].reserveBase
    requires Run(c, events).ledger.dex.pools[pool].reserveQuote <= c.ledger.dex.pools[pool].reserveQuote
    ensures Run(c, events).ledger.dex.pools[pool].reserveBase == c.ledger.dex.pools[pool].reserveBase
    ensures Run(c, events).ledger.dex.pools[pool].reserveQuote == c.ledger.dex.pools[pool].reserveQuote
  {
    hide BookOk, BridgeOk, Run, Healthy;
    ProductNeverFalls(c, events, pool);
    PoolFacts(c.ledger, pool);
    var p, p' := c.ledger.dex.pools[pool], Run(c, events).ledger.dex.pools[pool];
    HealthyReserves(p.reserveBase, p.reserveQuote, p.lp);
    SameProductSameReserves(p.reserveBase, p.reserveQuote, p.lp, p'.reserveBase, p'.reserveQuote);
  }

  lemma SameProductSameReserves(B: nat, Q: nat, L: nat, B': nat, Q': nat)
    requires L > 0 && B > 0 && Q > 0 && B' <= B && Q' <= Q && ProductPerUnitKept(B, Q, L, B', Q', L)
    ensures B' == B && Q' == Q
  {
    assert L * L > 0;
    MulCancel(B' * Q', B * Q, L * L);
    if B' < B {
      SmallerProduct(B, Q, B', Q');
      assert false;
    }
    if Q' < Q {
      SmallerProduct(Q, B, Q', B');
      assert false;
    }
  }

  lemma SmallerProduct(B: nat, Q: nat, B': nat, Q': nat)
    requires B' < B && Q' <= Q && Q > 0
    ensures B' * Q' < B * Q
  {
    MulMono(B - 1, B', Q, Q');
    assert (B - 1) * Q == B * Q - Q;
  }

  /** In every reachable state every pool is healthy: L squared is at most the product, and it is empty all or none. */
  lemma PoolsHealthyFromGenesis(events: seq<Event>, pool: Id)
    requires pool in Run(EmptyCore(), events).ledger.dex.pools
    ensures var p := Run(EmptyCore(), events).ledger.dex.pools[pool];
            && p.lp * p.lp <= p.reserveBase * p.reserveQuote
            && (p.lp == 0 <==> p.reserveBase == 0 && p.reserveQuote == 0)
            && (p.lp > 0 ==> p.reserveBase > 0 && p.reserveQuote > 0)
  {
    hide BookOk, BridgeOk, DexOk, Run;
    EmptyLedgerOk();
    RunKeepsLedgerOk(EmptyCore(), events);
    var l := Run(EmptyCore(), events).ledger;
    PoolFacts(l, pool);
    HealthyReserves(l.dex.pools[pool].reserveBase, l.dex.pools[pool].reserveQuote, l.dex.pools[pool].lp);
  }

  // ----- range safety -----

  /**
   * On a sound ledger no pool quote fails for range reasons: minting is always defined and mints at
   * most the larger deposit, a redeemable share never exceeds its reserve, a swap pays strictly less
   * than the reserve it draws on.
   */
  lemma QuotesStayInRange(l: Ledger, pool: Id, account: Id, base: U64, quote: U64, lp: U64, amount: U64)
    requires LedgerOk(l) && pool in l.dex.pools
    ensures var p := l.dex.pools[pool];
            var minted := LiquidityUnits(pool, p.reserveBase, p.reserveQuote, p.lp, base, quote);
            minted.Ok? && (minted.value <= base || minted.value <= quote)
    ensures var p := l.dex.pools[pool];
            LpPositionId(pool, account) in l.dex.positions && 0 < lp <= l.dex.positions[LpPositionId(pool, account)].lp ==>
              && lp <= p.lp
              && Proportional(p.reserveBase, lp, p.lp, pool).Ok? && Proportional(p.reserveQuote, lp, p.lp, pool).Ok?
              && Proportional(p.reserveBase, lp, p.lp, pool).value <= p.reserveBase
              && Proportional(p.reserveQuote, lp, p.lp, pool).value <= p.reserveQuote
    ensures var p := l.dex.pools[pool];
            p.lp > 0 ==>
              && ConstantProductOut(p.reserveBase, p.reserveQuote, amount, pool).Ok?
              && ConstantProductOut(p.reserveBase, p.reserveQuote, amount, pool).value < p.reserveQuote
              && ConstantProductOut(p.reserveQuote, p.reserveBase, amount, pool).Ok?
              && ConstantProductOut(p.reserveQuote, p.reserveBase, amount, pool).value < p.reserveBase
  {
    hide BookOk, BridgeOk, DexOk, Healthy, LiquidityUnits, Proportional, ConstantProductOut;
    PoolFacts(l, pool);
    var p := l.dex.pools[pool];
    DepositInRange(pool, p.reserveBase, p.reserveQuote, p.lp, base, quote);
    HealthyReserves(p.reserveBase, p.reserveQuote, p.lp);
    if p.lp > 0 {
      SwapBounds(p.reserveBase, p.reserveQuote, amount, pool);
      SwapBounds(p.reserveQuote, p.reserveBase, amount, pool);
    }
    var id := LpPositionId(pool, account);
    if id in l.dex.positions && 0 < lp <= l.dex.positions[id].lp {
      PositionOwner(l, pool, account);
      PositionWithinSupply(l, id);
      WithdrawalBounds(p.reserveBase, lp, p.lp, pool);
      WithdrawalBounds(p.reserveQuote, lp, p.lp, pool);
    }
  }
}
