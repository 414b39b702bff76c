/** Which rejected transactions leave a trace. */
module Rejection {
  import opened Prelude
  import opened Ids
  import opened Records
  import opened State
  import opened Accounts
  import opened BookFacts
  import opened PoolMath
  import opened Exchange
  import opened DexFacts
  import opened BridgePath
  import opened BridgeFacts
  import opened WorkLifecycle
  import opened Machine
  import opened LedgerInvariant
  import opened Conservation

  /**
   * The rejected transactions that change the ledger: a faucet whose lifetime counter overflows, a
   * quoted deposit whose reserves or deposit counters overflow, a quoted withdrawal whose withdrawal
   * counters overflow or whose payments are zero or overflow, a quoted swap whose payment overflows.
   */
  predicate LeavesTrace(l: Ledger, tx: Tx) {
    match tx
    case Faucet(_, _, _, _, _) => FaucetLeaks(l.book, tx)
    case AddLiquidity(_, pool, _, _, _, _) =>
      AddQuote(l, tx).Ok? && pool in l.dex.pools && (ReserveOverflows(l, tx) || DepositCounterOverflows(l, tx))
    case RemoveLiquidity(_, pool, account, _, _, _) =>
      && RemoveQuote(l, tx).Ok? && pool in l.dex.pools && LpPositionId(pool, account) in l.dex.positions
      && var (base, quote) := RemoveQuote(l, tx).value;
         var p := l.dex.pools[pool];
         || WithdrawalCounterOverflows(l, tx, base, quote)
         || Unpayable(l.book, account, p.base, base) || Unpayable(l.book, account, p.quote, quote)
    case SwapExactIn(_, _, account, _, _, _) =>
      && SwapQuote(l, tx).Ok?
      && Holding(l.book, account, SwapQuote(l, tx).value.assetOut) + SwapQuote(l, tx).value.out > MAX_U64
    case _ => false
  }

  lemma DifferentTotals(b: Book, b': Book, a: Id)
    requires InAccounts(b, a) != InAccounts(b', a)
    ensures b != b'
  {
  }

  lemma AddTrace(l: Ledger, now: nat, tx: Tx)
    requires LedgerOk(l) && tx.AddLiquidity?
    ensures var s := AddStep(l, now, tx); s.outcome.Rejected? && s.state != l <==> LeavesTrace(l, tx)
  {
    hide BookOk, DexOk, BridgeOk, AddStep, AddQuote, InAccounts, PaidIn, Availability, LiquidityUnits,
         DepositedPosition, DepositCounterOverflows, Healthy;
    match AddQuote(l, tx) {
      case Err(_) => AddRefused(l, now, tx);
      case Ok(lp) =>
        AddQuoteFacts(l, tx, lp);
        PoolFacts(l, tx.pool);
        var p := l.dex.pools[tx.pool];
        PaidInTotal(l.book, now, tx.account, p, tx.baseAmount, tx.quoteAmount, p.base);
        DifferentTotals(l.book, PaidIn(l.book, now, tx.account, p, tx.baseAmount, tx.quoteAmount), p.base);
        if ReserveOverflows(l, tx) {
          AddOverflowOutcome(l, now, tx, lp);
        } else {
          AddPooledOutcome(l, now, tx, lp);
        }
    }
  }

  lemma RemoveTrace(l: Ledger, now: nat, tx: Tx)
    requires LedgerOk(l) && tx.RemoveLiquidity?
    ensures var s := RemoveStep(l, now, tx); s.outcome.Rejected? && s.state != l <==> LeavesTrace(l, tx)
  {
    hide BookOk, DexOk, BridgeOk, RemoveStep, RemoveCommit, RemoveQuote, PaidOut, Unpayable, Proportional,
         WithdrawnPosition, Healthy, BacksAtLeast, WithdrawalCounterOverflows, Credit, Withdrawn;
    match RemoveQuote(l, tx) {
      case Err(_) => RemoveRefused(l, now, tx);
      case Ok((base, quote)) =>
        RemoveStepCommits(l, now, tx, base, quote);
        RemoveQuoteFacts(l, tx, base, quote);
        WithdrawalFits(l, tx, base, quote);
        WithdrawnPositionFacts(l, now, tx, base, quote);
        var id := LpPositionId(tx.pool, tx.account);
        assert l.dex.positions[id := WithdrawnPosition(l, now, tx, base, quote)][id] != l.dex.positions[id];
        if WithdrawalCounterOverflows(l, tx, base, quote) {
          RemoveCounterShape(l, now, tx, base, quote);
        } else {
          PoolFacts(l, tx.pool);
          PositionOwner(l, tx.pool, tx.account);
          RemovePooledShape(l, now, tx, base, quote);
          PaidOutFacts(l.book, now, tx.account, l.dex.pools[tx.pool], base, quote);
        }
    }
  }

  lemma SwapTrace(l: Ledger, now: nat, tx: Tx)
    requires LedgerOk(l) && tx.SwapExactIn?
    ensures var s := SwapStep(l, now, tx); s.outcome.Rejected? && s.state != l <==> LeavesTrace(l, tx)
  {
    hide BookOk, DexOk, BridgeOk, SwapStep, SwapCommit, SwapQuote, InAccounts, SwapPlanFor, Debit, Credit,
         Availability, Holding, Healthy, Traded;
    match SwapQuote(l, tx) {
      case Err(_) => SwapRefused(l, now, tx);
      case Ok(plan) =>
        SwapStepCommits(l, now, tx, plan);
        SwapPayment(l, now, tx, plan);
        SwapShape(l, now, tx, plan);
        SwapQuoteFacts(l, tx, plan);
        BookOkKeys(l.book);
        DebitTotal(l.book, now, tx.account, tx.assetIn, tx.amount, tx.assetIn);
        DifferentTotals(l.book, Debit(l.book, now, tx.account, tx.assetIn, tx.amount).state, tx.assetIn);
    }
  }

  lemma BookTrace(b: Book, now: nat, tx: Tx)
    requires BookOk(b) && IsBookTx(tx)
    ensures var s := BookStep(b, now, tx);
            s.outcome.Rejected? && s.state != b <==> tx.Faucet? && FaucetLeaks(b, tx)
  {
    hide BookOk, FaucetStep, TransferStep, LaunchStep, MintStep, FaucetLeaks, InAccounts;
    if tx.Faucet? {
      FaucetDecides(b, now, tx);
    } else if tx.Transfer? {
      TransferTotal(b, now, tx, LocalUnit);
    } else if tx.LaunchToken? {
      LaunchDecides(b, now, tx);
    } else if tx.MintToken? {
      MintDecides(b, now, tx);
    }
  }

  lemma BridgeTrace(l: Ledger, now: nat, tx: Tx)
    requires IsBridgeTx(tx)
    ensures BridgeStep(l, now, tx).outcome.Rejected? ==> BridgeStep(l, now, tx).state == l
  {
    hide CreditStep, CreditQuote, Consume, CreditedBook, MapAssetStep, MapAccountStep, Credit;
    if tx.CreditBridge? {
      CreditShape(l, now, tx);
    } else {
      MapShape(l, now, tx);
    }
  }

  lemma LedgerTrace(l: Ledger, now: nat, tx: Tx)
    requires LedgerOk(l) && IsLedgerTx(tx)
    ensures var s := LedgerStep(l, now, tx); s.outcome.Rejected? && s.state != l <==> LeavesTrace(l, tx)
  {
    hide BookOk, DexOk, BridgeOk, BookStep, BridgeStep, CreatePoolStep, AddStep, RemoveStep, SwapStep, FaucetLeaks,
         AddQuote, RemoveQuote, SwapQuote, ReserveOverflows, DepositCounterOverflows, WithdrawalCounterOverflows,
         Unpayable, AssetExists;
    if IsBookTx(tx) {
      BookTrace(l.book, now, tx);
    } else if tx.CreatePool? {
      CreatePoolShape(l, now, tx);
    } else if tx.AddLiquidity? {
      AddTrace(l, now, tx);
    } else if tx.RemoveLiquidity? {
      RemoveTrace(l, now, tx);
    } else if tx.SwapExactIn? {
      SwapTrace(l, now, tx);
    } else {
      BridgeTrace(l, now, tx);
    }
  }

  lemma WorkTrace(w: Work, now: nat, root: Digest, tx: Tx)
    requires IsWorkTx(tx)
    ensures WorkStep(w, now, root, tx).outcome.Rejected? ==> WorkStep(w, now, root, tx).state == w
  {
    hide AcceptanceCheck, IsFinalized, HasOpenChallenge, IsFlowPulseTopic, IsFinalityStatus, RootfieldCheck;
  }

  /** A rejected transaction changes the committed state exactly when `LeavesTrace` holds beforehand. */
  lemma RejectionLeavesTraceIff(c: Core, env: Env, tx: Tx)
    requires LedgerOk(c.ledger)
    ensures var s := Apply(c, env, tx); s.outcome.Rejected? && s.state != c <==> LeavesTrace(c.ledger, tx)
  {
    hide LedgerOk, LedgerStep, WorkStep, AddQuote, RemoveQuote, SwapQuote, FaucetLeaks, Unpayable, ReserveOverflows,
         DepositCounterOverflows, WithdrawalCounterOverflows, Holding;
    if IsLedgerTx(tx) {
      LedgerTrace(c.ledger, env.now, tx);
    } else if !tx.AnchorBatch? {
      WorkTrace(c.work, env.now, StateRoot(c), tx);
    }
  }

  /** The book after one account received all the units there can be and passed them to another. */
  function Emptied(a: Id, b: Id): Book {
    var b0 := EmptyLedger().book;
    var b1 := CreateBalanceStep(b0, 1, CreateBalance(a, "")).state;
    var b2 := CreateBalanceStep(b1, 1, CreateBalance(b, "")).state;
    var b3 := FaucetStep(b2, 1, Faucet(Named("first"), a, "", MAX_U64, "")).state;
    TransferStep(b3, 1, Transfer(Named("all"), a, b, MAX_U64, "")).state
  }

  /** A rejection can leave a trace: one more faucet payment is refused, yet the account keeps the unit. */
  lemma RefusedFaucetStillPays(a: Id, b: Id)
    requires a != b
    ensures var s := FaucetStep(Emptied(a, b), 1, Faucet(Named("second"), a, "", 1, ""));
            && s.outcome.Rejected?
            && Holding(Emptied(a, b), a, LocalUnit) == 0 && Holding(s.state, a, LocalUnit) == 1
  {
    assert |"first"| != |"second"|;
  }
}
