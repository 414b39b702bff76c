/** Units of an asset are neither lost nor made, up to exactly stated issuance and loss. */
module Conservation {
  import opened Prelude
  import opened Ids
  import opened Records
  import opened State
  import opened Accounts
  import opened BookFacts
  import opened PoolMath
  import opened Exchange
  import opened DexFacts
  import opened BridgePath
  import opened BridgeFacts
  import opened Machine
  import opened LedgerInvariant

  // ----- totals -----

  function BaseOf(asset: Id): Pool -> nat {
    (p: Pool) => if p.base == asset then p.reserveBase else 0
  }

  function QuoteOf(asset: Id): Pool -> nat {
    (p: Pool) => if p.quote == asset then p.reserveQuote else 0
  }

  function CreditedIn(asset: Id): BridgeCredit -> nat {
    (r: BridgeCredit) => if r.asset == asset then r.amount else 0
  }

  /** Units of an asset in all pools together. */
  ghost function InPools(pools: map<Id, Pool>, asset: Id): nat {
    Sum(pools, BaseOf(asset)) + Sum(pools, QuoteOf(asset))
  }

  /** Units of an asset in accounts and pools together. */
  ghost function Total(l: Ledger, asset: Id): nat {
    InAccounts(l.book, asset) + InPools(l.dex.pools, asset)
  }

  lemma PoolPut(pools: map<Id, Pool>, pool: Id, p: Pool, a: Id)
    requires pool in pools && p.base == pools[pool].base && p.quote == pools[pool].quote
    ensures var old_ := pools[pool];
            InPools(pools[pool := p], a) == InPools(pools, a)
              + (if a == p.base then p.reserveBase - old_.reserveBase else 0)
              + (if a == p.quote then p.reserveQuote - old_.reserveQuote else 0)
  {
    SumPut(pools, pool, p, BaseOf(a));
    SumPut(pools, pool, p, QuoteOf(a));
  }

  lemma PoolNew(pools: map<Id, Pool>, pool: Id, p: Pool, a: Id)
    requires pool !in pools && p.reserveBase == 0 && p.reserveQuote == 0
    ensures InPools(pools[pool := p], a) == InPools(pools, a)
  {
    SumPut(pools, pool, p, BaseOf(a));
    SumPut(pools, pool, p, QuoteOf(a));
  }

  // ----- issuance and loss -----

  predicate IsIssuing(tx: Tx) {
    tx.Faucet? || tx.LaunchToken? || tx.MintToken? || tx.CreditBridge?
  }

  /** What an issuing transaction states it issues. */
  function Stated(tx: Tx, asset: Id): nat {
    if tx.Faucet? && asset == LocalUnit then tx.amount
    else if (tx.LaunchToken? || tx.MintToken?) && asset == tx.token then tx.amount
    else if tx.CreditBridge? && asset == tx.asset then tx.amount
    else 0
  }

  /** What a transaction actually adds: the stated amount when applied, and the faucet's unrecorded payment. */
  function Issued(l: Ledger, now: nat, tx: Tx, asset: Id): nat
    requires IsLedgerTx(tx)
  {
    if LedgerStep(l, now, tx).outcome.Applied? || (tx.Faucet? && FaucetLeaks(l.book, tx)) then Stated(tx, asset) else 0
  }

  /** Units a rejected deposit, withdrawal or swap took and did not pass on. */
  function Lost(l: Ledger, tx: Tx, asset: Id): nat {
    if tx.AddLiquidity? && AddQuote(l, tx).Ok? && tx.pool in l.dex.pools && ReserveOverflows(l, tx) then
      var p := l.dex.pools[tx.pool];
      (if asset == p.base then tx.baseAmount else 0) + (if asset == p.quote then tx.quoteAmount else 0)
    else if tx.RemoveLiquidity? && RemoveQuote(l, tx).Ok? && tx.pool in l.dex.pools &&
            LpPositionId(tx.pool, tx.account) in l.dex.positions then
      var p := l.dex.pools[tx.pool];
      var (base, quote) := RemoveQuote(l, tx).value;
      var first := !Unpayable(l.book, tx.account, p.base, base);
      var second := first && !Unpayable(l.book, tx.account, p.quote, quote);
      if WithdrawalCounterOverflows(l, tx, base, quote) then 0
      else (if !first && asset == p.base then base else 0) + (if !second && asset == p.quote then quote else 0)
    else if tx.SwapExactIn? && SwapQuote(l, tx).Ok? &&
            Holding(l.book, tx.account, SwapQuote(l, tx).value.assetOut) + SwapQuote(l, tx).value.out > MAX_U64 then
      if asset == tx.assetIn then tx.amount else 0
    else 0
  }

  // ----- one step -----

  lemma AddConserves(l: Ledger, now: nat, tx: Tx, a: Id)
    requires LedgerOk(l) && tx.AddLiquidity?
    ensures Total(AddStep(l, now, tx).state, a) + Lost(l, tx, a) == Total(l, a)
  {
    hide BookOk, DexOk, BridgeOk, AddStep, AddQuote, InAccounts, InPools, PaidIn, Availability, LiquidityUnits,
         DepositedPosition, DepositCounterOverflows, Healthy;
    match AddQuote(l, tx) {
      case Err(_) => AddRefused(l, now, tx);
      case Ok(lp) =>
        AddQuoteFacts(l, tx, lp);
        PoolFacts(l, tx.pool);
        var p := l.dex.pools[tx.pool];
        PaidInTotal(l.book, now, tx.account, p, tx.baseAmount, tx.quoteAmount, a);
        if ReserveOverflows(l, tx) {
          AddOverflowOutcome(l, now, tx, lp);
        } else {
          AddPooledOutcome(l, now, tx, lp);
          PoolPut(l.dex.pools, tx.pool, Deposited(p, now, tx, lp), a);
        }
    }
  }

  lemma RemoveConserves(l: Ledger, now: nat, tx: Tx, a: Id)
    requires LedgerOk(l) && tx.RemoveLiquidity?
    ensures Total(RemoveStep(l, now, tx).state, a) + Lost(l, tx, a) == Total(l, a)
  {
    hide BookOk, DexOk, BridgeOk, RemoveStep, RemoveCommit, RemoveQuote, InAccounts, InPools, PaidOut, Unpayable,
         Proportional, WithdrawnPosition, Healthy, BacksAtLeast, WithdrawalCounterOverflows, Credit;
    match RemoveQuote(l, tx) {
      case Err(_) => RemoveRefused(l, now, tx);
      case Ok((base, quote)) =>
        RemoveStepCommits(l, now, tx, base, quote);
        WithdrawalFits(l, tx, base, quote);
        if WithdrawalCounterOverflows(l, tx, base, quote) {
          RemoveCounterShape(l, now, tx, base, quote);
        } else {
          PoolFacts(l, tx.pool);
          PositionOwner(l, tx.pool, tx.account);
          var p := l.dex.pools[tx.pool];
          RemovePooledShape(l, now, tx, base, quote);
          PaidOutTotal(l.book, now, tx.account, p, base, quote, a);
          PoolPut(l.dex.pools, tx.pool, Withdrawn(p, now, tx, base, quote), a);
        }
    }
  }

  /** The accounts after the debit, and after the credit, of a swap. */
  lemma TradeTotal(b: Book, now: nat, account: Id, assetIn: Id, amount: U64, assetOut: Id, out: U64, a: Id)
    requires BookOk(b) && Debit(b, now, account, assetIn, amount).outcome.Applied?
    requires BookOk(Debit(b, now, account, assetIn, amount).state)
    ensures var d := Debit(b, now, account, assetIn, amount).state;
            var c := Credit(d, now, account, assetOut, out);
            && InAccounts(d, a) + (if a == assetIn then amount else 0) == InAccounts(b, a)
            && (c.outcome.Applied? ==> InAccounts(c.state, a) == InAccounts(d, a) + (if a == assetOut then out else 0))
  {
    hide BookOk, InAccounts, Debit, Credit;
    var d := Debit(b, now, account, assetIn, amount).state;
    BookOkKeys(b);
    BookOkKeys(d);
    DebitTotal(b, now, account, assetIn, amount, a);
    if Credit(d, now, account, assetOut, out).outcome.Applied? {
      CreditTotal(d, now, account, assetOut, out, a);
    }
  }

  lemma SwapPools(pools: map<Id, Pool>, now: nat, tx: Tx, plan: SwapPlan, a: Id)
    requires tx.SwapExactIn? && tx.pool in pools && pools[tx.pool].base != pools[tx.pool].quote
    requires SwapPlanFor(pools[tx.pool], tx.pool, tx.assetIn, tx.amount) == Ok(plan)
    ensures InPools(pools[tx.pool := Traded(pools[tx.pool], now, tx, plan)], a) + (if a == plan.assetOut then plan.out else 0)
            == InPools(pools, a) + (if a == tx.assetIn then tx.amount else 0)
  {
    hide SwapPlanFor, ConstantProductOut, InPools;
    SwapPlanFacts(pools[tx.pool], tx.pool, tx.assetIn, tx.amount, plan);
    PoolPut(pools, tx.pool, Traded(pools[tx.pool], now, tx, plan), a);
  }

  lemma SwapConserves(l: Ledger, now: nat, tx: Tx, a: Id)
    requires LedgerOk(l) && tx.SwapExactIn?
    ensures Total(SwapStep(l, now, tx).state, a) + Lost(l, tx, a) == Total(l, a)
  {
    hide BookOk, DexOk, BridgeOk, SwapStep, SwapCommit, SwapQuote, InAccounts, InPools, SwapPlanFor,
         ConstantProductOut, Debit, Credit, Availability, Holding, Healthy;
    match SwapQuote(l, tx) {
      case Err(_) => SwapRefused(l, now, tx);
      case Ok(plan) =>
        SwapStepCommits(l, now, tx, plan);
        SwapPayment(l, now, tx, plan);
        SwapShape(l, now, tx, plan);
        SwapQuoteFacts(l, tx, plan);
        PoolFacts(l, tx.pool);
        TradeTotal(l.book, now, tx.account, tx.assetIn, tx.amount, plan.assetOut, plan.out, a);
        SwapPools(l.dex.pools, now, tx, plan, a);
    }
  }

  lemma BookOkKeys(b: Book)
    requires BookOk(b)
    ensures TokenKeys(b.held.tokens, b.tokens.Keys, b.held.units.Keys)
  {
  }

  lemma CreatePoolConserves(l: Ledger, now: nat, tx: Tx, a: Id)
    requires tx.CreatePool?
    ensures Total(CreatePoolStep(l, now, tx).state, a) == Total(l, a)
  {
    hide CreatePoolStep, InAccounts, InPools, AssetExists;
    CreatePoolShape(l, now, tx);
    if CreatePoolStep(l, now, tx).outcome.Applied? {
      PoolNew(l.dex.pools, tx.pool, Pool(tx.base, tx.quote, tx.account, 0, 0, 0, now, now, None, None), a);
    }
  }

  lemma BookConserves(b: Book, now: nat, tx: Tx, a: Id)
    requires BookOk(b) && IsBookTx(tx)
    ensures var s := BookStep(b, now, tx);
            InAccounts(s.state, a) == InAccounts(b, a) +
              (if s.outcome.Applied? || (tx.Faucet? && FaucetLeaks(b, tx)) then Stated(tx, a) else 0)
  {
    hide BookOk, CreateBalanceStep, FaucetStep, TransferStep, LaunchStep, MintStep, InAccounts, FaucetLeaks;
    if tx.CreateBalance? {
      CreateBalanceTotal(b, now, tx, a);
    } else if tx.Faucet? {
      FaucetTotal(b, now, tx, a);
    } else if tx.Transfer? {
      TransferTotal(b, now, tx, a);
    } else if tx.LaunchToken? {
      LaunchTotal(b, now, tx, a);
    } else {
      MintTotal(b, now, tx, a);
    }
  }

  lemma BridgeConserves(l: Ledger, now: nat, tx: Tx, a: Id)
    requires LedgerOk(l) && IsBridgeTx(tx)
    ensures var s := BridgeStep(l, now, tx);
            Total(s.state, a) == Total(l, a) + (if s.outcome.Applied? then Stated(tx, a) else 0)
  {
    hide BookOk, DexOk, BridgeOk, CreditStep, CreditQuote, Consume, CreditedBook, MapAssetStep, MapAccountStep,
         InAccounts, InPools, Credit;
    if tx.CreditBridge? {
      CreditShape(l, now, tx);
      if CreditStep(l, now, tx).outcome.Applied? {
        CreditedBookTotal(l.book, now, tx, a);
      }
    } else {
      MapShape(l, now, tx);
    }
  }

  /** Exact conservation of every asset by every transaction, applied or rejected. */
  lemma StepConserves(l: Ledger, now: nat, tx: Tx, a: Id)
    requires LedgerOk(l) && IsLedgerTx(tx)
    ensures Total(LedgerStep(l, now, tx).state, a) + Lost(l, tx, a) == Total(l, a) + Issued(l, now, tx, a)
  {
    hide BookOk, DexOk, BridgeOk, BookStep, BridgeStep, CreatePoolStep, AddStep, RemoveStep, SwapStep,
         InAccounts, InPools, FaucetLeaks, AddQuote, RemoveQuote, SwapQuote, ReserveOverflows, Unpayable,
         WithdrawalCounterOverflows;
    if IsBookTx(tx) {
      BookConserves(l.book, now, tx, a);
    } else if tx.CreatePool? {
      CreatePoolConserves(l, now, tx, a);
    } else if tx.AddLiquidity? {
      AddConserves(l, now, tx, a);
    } else if tx.RemoveLiquidity? {
      RemoveConserves(l, now, tx, a);
    } else if tx.SwapExactIn? {
      SwapConserves(l, now, tx, a);
    } else {
      BridgeConserves(l, now, tx, a);
    }
  }

  /** An applied transaction loses nothing. */
  lemma AppliedLosesNothing(l: Ledger, now: nat, tx: Tx, a: Id)
    requires LedgerOk(l) && IsLedgerTx(tx) && LedgerStep(l, now, tx).outcome.Applied?
    ensures Lost(l, tx, a) == 0
  {
    hide BookOk, DexOk, BridgeOk, BookStep, BridgeStep, CreatePoolStep, AddStep, RemoveStep, SwapStep, RemoveCommit,
         AddQuote, RemoveQuote, SwapQuote, Credit, Debit, PaidIn, PaidOut, Healthy, BacksAtLeast, SwapCommit,
         WithdrawalCounterOverflows, ReserveOverflows, Unpayable, Holding, DepositCounterOverflows;
    if tx.AddLiquidity? && AddQuote(l, tx).Ok? {
      AddQuoteFacts(l, tx, AddQuote(l, tx).value);
      if ReserveOverflows(l, tx) {
        AddOverflowOutcome(l, now, tx, AddQuote(l, tx).value);
      }
    } else if tx.RemoveLiquidity? && RemoveQuote(l, tx).Ok? {
      var (base, quote) := RemoveQuote(l, tx).value;
      RemoveStepCommits(l, now, tx, base, quote);
      WithdrawalFits(l, tx, base, quote);
      PoolFacts(l, tx.pool);
      PositionOwner(l, tx.pool, tx.account);
      if WithdrawalCounterOverflows(l, tx, base, quote) {
        RemoveCounterShape(l, now, tx, base, quote);
      } else {
        RemovePooledShape(l, now, tx, base, quote);
        PaidOutFacts(l.book, now, tx.account, l.dex.pools[tx.pool], base, quote);
      }
    } else if tx.SwapExactIn? && SwapQuote(l, tx).Ok? {
      var plan := SwapQuote(l, tx).value;
      SwapStepCommits(l, now, tx, plan);
      SwapPayment(l, now, tx, plan);
      SwapShape(l, now, tx, plan);
    }
  }

  /**
   * The conservation law: an applied non-issuing transaction keeps the total of every asset, a
   * rejected one never raises it, and an applied issuing one adds exactly what it states.
   */
  lemma ConservationLaw(c: Core, env: Env, tx: Tx, a: Id)
    requires LedgerOk(c.ledger)
    ensures var s := Apply(c, env, tx);
            && (!IsIssuing(tx) && s.outcome.Applied? ==> Total(s.state.ledger, a) == Total(c.ledger, a))
            && (!IsIssuing(tx) ==> Total(s.state.ledger, a) <= Total(c.ledger, a))
            && (IsIssuing(tx) && s.outcome.Applied? ==>
                Total(s.state.ledger, a) == Total(c.ledger, a) + Stated(tx, a))
  {
    hide LedgerOk, LedgerStep, Total, Lost;
    if IsLedgerTx(tx) {
      StepConserves(c.ledger, env.now, tx, a);
      if LedgerStep(c.ledger, env.now, tx).outcome.Applied? {
        AppliedLosesNothing(c.ledger, env.now, tx, a);
      }
    } else {
      OtherTxKeepsLedger(c, env, tx);
    }
  }

  // ----- runs -----

  /** Issued over a run. */
  ghost function RunIssued(c: Core, events: seq<Event>, a: Id): nat
    decreases |events|
  {
    if events == [] then 0
    else
      var e := events[0];
      (if IsLedgerTx(e.tx) then Issued(c.ledger, e.env.now, e.tx, a) else 0) +
      RunIssued(Apply(c, e.env, e.tx).state, events[1..], a)
  }

  /** Lost over a run. */
  ghost function RunLost(c: Core, events: seq<Event>, a: Id): nat
    decreases |events|
  {
    if events == [] then 0
    else
      var e := events[0];
      (if IsLedgerTx(e.tx) then Lost(c.ledger, e.tx, a) else 0) + RunLost(Apply(c, e.env, e.tx).state, events[1..], a)
  }

  lemma ApplyConserves(c: Core, env: Env, tx: Tx, a: Id)
    requires LedgerOk(c.ledger)
    ensures Total(Apply(c, env, tx).state.ledger, a) + (if IsLedgerTx(tx) then Lost(c.ledger, tx, a) else 0) ==
            Total(c.ledger, a) + (if IsLedgerTx(tx) then Issued(c.ledger, env.now, tx, a) else 0)
  {
    hide LedgerOk, LedgerStep, Total, Lost, Issued;
    if IsLedgerTx(tx) {
      StepConserves(c.ledger, env.now, tx, a);
    } else {
      OtherTxKeepsLedger(c, env, tx);
    }
  }

  /** Over any run, what exists at the end and what was lost make up what existed before and what was issued. */
  lemma {:induction false} RunConserves(c: Core, events: seq<Event>, a: Id)
    requires LedgerOk(c.ledger)
    ensures Total(Run(c, events).ledger, a) + RunLost(c, events, a) == Total(c.ledger, a) + RunIssued(c, events, a)
    decreases |events|
  {
    hide LedgerOk, Apply, Total, Lost, Issued;
    if events != [] {
      var e := events[0];
      ApplyKeepsLedgerOk(c, e.env, e.tx);
      ApplyConserves(c, e.env, e.tx, a);
      RunConserves(Apply(c, e.env, e.tx).state, events[1..], a);
    }
  }

  // ----- tokens are backed -----

  /** What a token's units may add up to: its recorded supply and the bridge credits in it. */
  ghost function Backing(l: Ledger, token: Id): nat {
    (if token in l.book.tokens then l.book.tokens[token].supply else 0) +
    Sum(l.bridge.credited.credits, CreditedIn(token))
  }

  lemma DexStepKeepsTokens(l: Ledger, now: nat, tx: Tx)
    requires LedgerOk(l) && IsDexTx(tx)
    ensures DexStep(l, now, tx).state.book.tokens == l.book.tokens
  {
    hide BookOk, DexOk, BridgeOk, CreatePoolStep, AddStep, RemoveStep, SwapStep, AssetExists;
    if tx.CreatePool? {
      CreatePoolShape(l, now, tx);
    } else if tx.AddLiquidity? {
      AddKeepsOk(l, now, tx);
    } else if tx.RemoveLiquidity? {
      RemoveKeepsOk(l, now, tx);
    } else {
      SwapKeepsOk(l, now, tx);
    }
  }

  lemma BookBacking(b: Book, now: nat, tx: Tx, t: Id)
    requires BookOk(b) && IsBookTx(tx) && t != LocalUnit
    ensures var s := BookStep(b, now, tx);
            (if t in s.state.tokens then s.state.tokens[t].supply else 0) ==
            (if t in b.tokens then b.tokens[t].supply else 0) + (if s.outcome.Applied? then Stated(tx, t) else 0)
  {
    hide BookOk, LaunchStep, MintStep, Credit;
    if tx.LaunchToken? {
      LaunchDecides(b, now, tx);
      if LaunchStep(b, now, tx).outcome.Applied? {
        LaunchShape(b, now, tx);
      }
    } else if tx.MintToken? {
      MintDecides(b, now, tx);
      if MintStep(b, now, tx).outcome.Applied? {
        MintShape(b, now, tx);
      }
    }
  }

  lemma MovedKeepsTokens(b: Book, b': Book)
    requires OnlyUnitsMoved(b, b')
    ensures b'.tokens == b.tokens
  {
  }

  lemma ConsumeTotal(br: Bridge, now: nat, tx: Tx, owner: string, t: Id)
    requires tx.CreditBridge? && Unconsumed(br, tx).Applied?
    ensures Sum(Consume(br, now, tx, owner).credited.credits, CreditedIn(t)) ==
            Sum(br.credited.credits, CreditedIn(t)) + Stated(tx, t)
  {
    SumPut(br.credited.credits, tx.credit, Consume(br, now, tx, owner).credited.credits[tx.credit], CreditedIn(t));
  }

  lemma CreditBacking(l: Ledger, now: nat, tx: Tx, t: Id)
    requires LedgerOk(l) && IsBridgeTx(tx)
    ensures var s := BridgeStep(l, now, tx);
            && s.state.book.tokens == l.book.tokens
            && Sum(s.state.bridge.credited.credits, CreditedIn(t)) ==
               Sum(l.bridge.credited.credits, CreditedIn(t)) + (if s.outcome.Applied? then Stated(tx, t) else 0)
  {
    hide BookOk, DexOk, BridgeOk, CreditStep, CreditQuote, CreditedBook, MapAssetStep, MapAccountStep, Credit, Consume,
         OnlyUnitsMoved;
    if tx.CreditBridge? {
      CreditShape(l, now, tx);
      if CreditStep(l, now, tx).outcome.Applied? {
        CreditQuoteFacts(l, tx);
        CreditedBookFacts(l.book, now, tx);
        MovedKeepsTokens(l.book, CreditedBook(l.book, now, tx));
        ConsumeTotal(l.bridge, now, tx, CreditOwner(l, tx), t);
      }
    } else {
      MapShape(l, now, tx);
    }
  }

  /** Whatever is issued in a token is matched by its supply or by a bridge credit. */
  lemma IssuanceIsBacked(l: Ledger, now: nat, tx: Tx, t: Id)
    requires LedgerOk(l) && IsLedgerTx(tx) && t != LocalUnit
    ensures Backing(LedgerStep(l, now, tx).state, t) == Backing(l, t) + Issued(l, now, tx, t)
  {
    hide BookOk, DexOk, BridgeOk, BookStep, DexStep, BridgeStep, FaucetLeaks;
    if IsBookTx(tx) {
      BookBacking(l.book, now, tx, t);
    } else if IsDexTx(tx) {
      DexStepKeepsTokens(l, now, tx);
      DexStepKeepsBridge(l, now, tx);
    } else {
      CreditBacking(l, now, tx, t);
    }
  }

  /** In every run a token's units never exceed its supply plus the bridge credits in it. */
  lemma {:induction false} TokensStayBacked(c: Core, events: seq<Event>, t: Id)
    requires LedgerOk(c.ledger) && t != LocalUnit && Total(c.ledger, t) <= Backing(c.ledger, t)
    ensures Total(Run(c, events).ledger, t) <= Backing(Run(c, events).ledger, t)
    decreases |events|
  {
    hide LedgerOk, LedgerStep, Total, Backing, Lost, Issued;
    if events != [] {
      var e := events[0];
      ApplyKeepsLedgerOk(c, e.env, e.tx);
      ApplyConserves(c, e.env, e.tx, t);
      if IsLedgerTx(e.tx) {
        IssuanceIsBacked(c.ledger, e.env.now, e.tx, t);
      } else {
        OtherTxKeepsLedger(c, e.env, e.tx);
      }
      TokensStayBacked(Apply(c, e.env, e.tx).state, events[1..], t);
    }
  }

  /** From genesis: every token, launched or not, is backed in every reachable state. */
  lemma TokensBackedFromGenesis(events: seq<Event>, t: Id)
    requires t != LocalUnit
    ensures Total(Run(EmptyCore(), events).ledger, t) <= Backing(Run(EmptyCore(), events).ledger, t)
  {
    EmptyLedgerOk();
    SumEmpty<Id, TokenBalance>(TokenUnitsOf(t));
    SumEmpty<Id, Pool>(BaseOf(t));
    SumEmpty<Id, Pool>(QuoteOf(t));
    TokensStayBacked(EmptyCore(), events, t);
  }
}
