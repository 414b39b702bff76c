/** The LP supply of a pool against the positions in it. */
module Shares {
  import opened Prelude
  import opened Ids
  import opened Records
  import opened State
  import opened Accounts
  import opened BookFacts
  import opened PoolMath
  import opened Exchange
  import opened DexFacts
  import opened BridgeFacts
  import opened Machine
  import opened LedgerInvariant
  import opened PoolHistory

  /** LP units of a pool that belong to no position. */
  ghost function Stray(d: Dex, pool: Id): int
    requires pool in d.pools
  {
    d.pools[pool].lp - Sum(d.positions, SharesIn(pool))
  }

  /** LP units a rejected withdrawal takes from its position without taking them from the pool. */
  function Stranded(l: Ledger, tx: Tx, pool: Id): nat {
    if tx.RemoveLiquidity? && tx.pool == pool && RemoveQuote(l, tx).Ok? &&
       LpPositionId(tx.pool, tx.account) in l.dex.positions &&
       WithdrawalCounterOverflows(l, tx, RemoveQuote(l, tx).value.0, RemoveQuote(l, tx).value.1)
    then tx.lp else 0
  }

  lemma AddStray(l: Ledger, now: nat, tx: Tx, pool: Id)
    requires LedgerOk(l) && tx.AddLiquidity? && pool in l.dex.pools
    ensures pool in AddStep(l, now, tx).state.dex.pools
    ensures Stray(AddStep(l, now, tx).state.dex, pool) == Stray(l.dex, pool)
  {
    hide BookOk, DexOk, BridgeOk, AddStep, AddQuote, Availability, LiquidityUnits, Healthy, PaidIn,
         DepositCounterOverflows, DepositedPosition;
    match AddQuote(l, tx) {
      case Err(_) => AddRefused(l, now, tx);
      case Ok(lp) =>
        AddQuoteFacts(l, tx, lp);
        if ReserveOverflows(l, tx) {
          AddOverflowOutcome(l, now, tx, lp);
        } else {
          AddPooledOutcome(l, now, tx, lp);
          DepositedPositionFacts(l, now, tx, lp);
          PositionFiled(l, tx.pool, tx.account);
          SharesPut(l.dex.positions, LpPositionId(tx.pool, tx.account), DepositedPosition(l, now, tx, lp), pool);
        }
    }
  }

  lemma PositionFiled(l: Ledger, pool: Id, account: Id)
    requires LedgerOk(l)
    ensures LpPositionId(pool, account) in l.dex.positions ==>
              l.dex.positions[LpPositionId(pool, account)].pool == pool && pool in l.dex.pools
  {
  }

  lemma RemoveStray(l: Ledger, now: nat, tx: Tx, pool: Id)
    requires LedgerOk(l) && tx.RemoveLiquidity? && pool in l.dex.pools
    ensures pool in RemoveStep(l, now, tx).state.dex.pools
    ensures Stray(RemoveStep(l, now, tx).state.dex, pool) == Stray(l.dex, pool) + Stranded(l, tx, pool)
  {
    hide BookOk, DexOk, BridgeOk, RemoveStep, RemoveCommit, RemoveQuote, Credit, Healthy, PaidOut, BacksAtLeast,
         WithdrawnPosition, WithdrawalCounterOverflows;
    match RemoveQuote(l, tx) {
      case Err(_) => RemoveRefused(l, now, tx);
      case Ok((base, quote)) =>
        RemoveStepCommits(l, now, tx, base, quote);
        WithdrawalFits(l, tx, base, quote);
        WithdrawnPositionFacts(l, now, tx, base, quote);
        PositionFiled(l, tx.pool, tx.account);
        SharesPut(l.dex.positions, LpPositionId(tx.pool, tx.account), WithdrawnPosition(l, now, tx, base, quote), pool);
        if WithdrawalCounterOverflows(l, tx, base, quote) {
          RemoveCounterShape(l, now, tx, base, quote);
        } else {
          RemovePooledShape(l, now, tx, base, quote);
        }
    }
  }

  lemma SwapStray(l: Ledger, now: nat, tx: Tx, pool: Id)
    requires LedgerOk(l) && tx.SwapExactIn? && pool in l.dex.pools
    ensures pool in SwapStep(l, now, tx).state.dex.pools
    ensures Stray(SwapStep(l, now, tx).state.dex, pool) == Stray(l.dex, pool)
  {
    hide BookOk, DexOk, BridgeOk, SwapStep, SwapCommit, SwapQuote, SwapPlanFor, Debit, Credit, Availability, Healthy,
         Holding;
    match SwapQuote(l, tx) {
      case Err(_) => SwapRefused(l, now, tx);
      case Ok(plan) =>
        SwapStepCommits(l, now, tx, plan);
        SwapPayment(l, now, tx, plan);
        SwapShape(l, now, tx, plan);
    }
  }

  /** A transaction changes a pool's stray LP units exactly by what a withdrawal with an overflowing counter strands. */
  lemma StrayStep(c: Core, env: Env, tx: Tx, pool: Id)
    requires LedgerOk(c.ledger) && pool in c.ledger.dex.pools
    ensures pool in Apply(c, env, tx).state.ledger.dex.pools
    ensures Stray(Apply(c, env, tx).state.ledger.dex, pool) ==
            Stray(c.ledger.dex, pool) + Stranded(c.ledger, tx, pool)
  {
    hide LedgerOk, BookStep, BridgeStep, CreatePoolStep, AddStep, RemoveStep, SwapStep, RemoveQuote,
         WithdrawalCounterOverflows, Stray, AnchorStep;
    if !IsLedgerTx(tx) {
      OtherTxKeepsLedger(c, env, tx);
    } else if !IsDexTx(tx) {
      OnlyDexTouchesDex(c.ledger, env.now, tx);
    } else if tx.CreatePool? {
      CreatePoolSpares(c.ledger, env.now, tx, pool);
      CreatePoolStray(c.ledger, env.now, tx, pool);
    } else if tx.AddLiquidity? {
      AddStray(c.ledger, env.now, tx, pool);
    } else if tx.RemoveLiquidity? {
      RemoveStray(c.ledger, env.now, tx, pool);
    } else {
      SwapStray(c.ledger, env.now, tx, pool);
    }
  }

  lemma CreatePoolStray(l: Ledger, now: nat, tx: Tx, pool: Id)
    requires tx.CreatePool? && pool in l.dex.pools && pool in CreatePoolStep(l, now, tx).state.dex.pools
    ensures Stray(CreatePoolStep(l, now, tx).state.dex, pool) == Stray(l.dex, pool)
  {
    hide CreatePoolStep, AssetExists;
    CreatePoolShape(l, now, tx);
  }

  // ----- runs -----

  /** No transaction of the run strands LP units of the pool. */
  ghost predicate NothingStranded(c: Core, events: seq<Event>, pool: Id)
    decreases |events|
  {
    events == [] ||
    (Stranded(c.ledger, events[0].tx, pool) == 0 &&
     NothingStranded(Apply(c, events[0].env, events[0].tx).state, events[1..], pool))
  }

  /** A pool is created without LP units and without positions. */
  lemma PoolIsBornEmpty(c: Core, env: Env, tx: Tx, pool: Id)
    requires LedgerOk(c.ledger) && pool !in c.ledger.dex.pools && pool in Apply(c, env, tx).state.ledger.dex.pools
    ensures Stray(Apply(c, env, tx).state.ledger.dex, pool) == 0
  {
    hide BookOk, BridgeOk, BookStep, BridgeStep, CreatePoolStep, AddStep, RemoveStep, SwapStep, AnchorStep, LedgerStep,
         AssetExists;
    if !IsLedgerTx(tx) {
      OtherTxKeepsLedger(c, env, tx);
    } else if !IsDexTx(tx) {
      OnlyDexTouchesDex(c.ledger, env.now, tx);
    } else {
      NewPoolIsBornEmpty(c.ledger, env.now, tx, pool);
    }
  }

  lemma NewPoolIsBornEmpty(l: Ledger, now: nat, tx: Tx, pool: Id)
    requires LedgerOk(l) && IsDexTx(tx) && pool !in l.dex.pools && pool in LedgerStep(l, now, tx).state.dex.pools
    ensures Stray(LedgerStep(l, now, tx).state.dex, pool) == 0
  {
    hide BookOk, BridgeOk, CreatePoolStep, AddStep, RemoveStep, SwapStep, AssetExists;
    if tx.CreatePool? {
      CreatePoolShape(l, now, tx);
      NewPoolUncovered(l.dex.positions, l.dex.pools.Keys, l.book.held.units.Keys, pool);
    } else {
      DexKeepsPools(l, now, tx);
    }
  }

  lemma DexKeepsPools(l: Ledger, now: nat, tx: Tx)
    requires LedgerOk(l) && IsDexTx(tx) && !tx.CreatePool?
    ensures LedgerStep(l, now, tx).state.dex.pools.Keys == l.dex.pools.Keys
  {
    hide BookOk, DexOk, BridgeOk, Debit, Credit, DepositPosition, WithdrawPosition, Availability, LiquidityUnits,
         Proportional, SwapPlanFor, PositionOf;
  }

  /** LP units of the pool that the run strands. */
  ghost function RunStranded(c: Core, events: seq<Event>, pool: Id): nat
    decreases |events|
  {
    if events == [] then 0
    else
      Stranded(c.ledger, events[0].tx, pool) +
      RunStranded(Apply(c, events[0].env, events[0].tx).state, events[1..], pool)
  }

  /** Over any run, the LP units outside positions grow by exactly what the run strands. */
  lemma {:induction false} StrayRun(c: Core, events: seq<Event>, pool: Id)
    requires LedgerOk(c.ledger) && pool in Run(c, events).ledger.dex.pools
    ensures Stray(Run(c, events).ledger.dex, pool) ==
            (if pool in c.ledger.dex.pools then Stray(c.ledger.dex, pool) else 0) + RunStranded(c, events, pool)
    decreases |events|
  {
    hide LedgerOk, Apply, Stray, Stranded;
    if events != [] {
      var e := events[0];
      var c1 := Apply(c, e.env, e.tx).state;
      ApplyKeepsLedgerOk(c, e.env, e.tx);
      if pool in c.ledger.dex.pools {
        StrayStep(c, e.env, e.tx, pool);
      } else {
        NoPoolNothingStranded(c.ledger, e.tx, pool);
        if pool in c1.ledger.dex.pools {
          PoolIsBornEmpty(c, e.env, e.tx, pool);
        }
      }
      StrayRun(c1, events[1..], pool);
    }
  }

  lemma NoPoolNothingStranded(l: Ledger, tx: Tx, pool: Id)
    requires pool !in l.dex.pools
    ensures Stranded(l, tx, pool) == 0
  {
    hide Proportional;
  }

  lemma {:induction false} StrandedZero(c: Core, events: seq<Event>, pool: Id)
    ensures RunStranded(c, events, pool) == 0 <==> NothingStranded(c, events, pool)
    decreases |events|
  {
    hide Apply, Stranded;
    if events != [] {
      StrandedZero(Apply(c, events[0].env, events[0].tx).state, events[1..], pool);
    }
  }

  /** A pool that starts with LP supply and positions in step, or does not exist yet, ends so exactly when nothing is stranded. */
  lemma SupplyIsSumOfPositions(c: Core, events: seq<Event>, pool: Id)
    requires LedgerOk(c.ledger) && pool in Run(c, events).ledger.dex.pools
    requires pool in c.ledger.dex.pools ==> Stray(c.ledger.dex, pool) == 0
    ensures Stray(Run(c, events).ledger.dex, pool) == 0 <==> NothingStranded(c, events, pool)
  {
    hide LedgerOk, Run, Stray, RunStranded, NothingStranded;
    StrayRun(c, events, pool);
    StrandedZero(c, events, pool);
  }

  /**
   * In every reachable state token supplies are the sums of their mint receipts, lifetime faucet
   * totals the sums of their faucet records, and LP supplies cover the positions, exactly so if and
   * only if the run stranded nothing.
   */
  lemma CachedTotalsFromGenesis(events: seq<Event>, pool: Id)
    ensures var l := Run(EmptyCore(), events).ledger;
            && SuppliesAgree(l.book.tokens, l.book.log.mints)
            && LifetimesAgree(l.book.held.units, l.book.log.faucets)
            && (pool in l.dex.pools ==>
                && Stray(l.dex, pool) == RunStranded(EmptyCore(), events, pool)
                && (Stray(l.dex, pool) == 0 <==> NothingStranded(EmptyCore(), events, pool)))
  {
    hide Run, NothingStranded, RunStranded, SuppliesAgree, LifetimesAgree, DexOk, BridgeOk, TokenKeys, FaucetKeys,
         TokenNames, MintFiling, MintKeys, Stray;
    EmptyLedgerOk();
    RunKeepsLedgerOk(EmptyCore(), events);
    if pool in Run(EmptyCore(), events).ledger.dex.pools {
      StrayRun(EmptyCore(), events, pool);
      StrandedZero(EmptyCore(), events, pool);
    }
  }
}
