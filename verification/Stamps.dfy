/**
 * The ledger without block stamps. Every ledger operation commutes with clearing the stamps: none
 * of its decisions, amounts or records depends on the block it runs in.
 */
module Stamps {
  import opened Prelude
  import opened Text
  import opened Ids
  import opened Records
  import opened PoolMath
  import opened Accounts
  import opened Exchange
  import opened DexFacts
  import opened BridgePath
  import opened Machine

  // ----- clearing -----

  function Clear<V>(m: map<Id, V>, f: V -> V): map<Id, V> {
    map k | k in m :: f(m[k])
  }

  lemma ClearPut<V>(m: map<Id, V>, k: Id, v: V, f: V -> V)
    ensures Clear(m[k := v], f) == Clear(m, f)[k := f(v)]
  {
  }

  lemma ClearAt<V>(m: map<Id, V>, k: Id, f: V -> V)
    ensures k in Clear(m, f) <==> k in m
    ensures k in m ==> Clear(m, f)[k] == f(m[k])
  {
  }

  function ClearUnits(): UnitBalance -> UnitBalance {
    (r: UnitBalance) => r.(updatedAt := 0)
  }

  function ClearBalance(): TokenBalance -> TokenBalance {
    (r: TokenBalance) => r.(updatedAt := 0)
  }

  function ClearToken(): Token -> Token {
    (r: Token) => r.(at := 0)
  }

  function ClearFaucet(): FaucetRecord -> FaucetRecord {
    (r: FaucetRecord) => r.(at := 0)
  }

  function ClearTransfer(): TransferRecord -> TransferRecord {
    (r: TransferRecord) => r.(at := 0)
  }

  function ClearMint(): MintReceipt -> MintReceipt {
    (r: MintReceipt) => r.(at := 0)
  }

  function ClearPool(): Pool -> Pool {
    (r: Pool) => r.(createdAt := 0, updatedAt := 0)
  }

  function ClearPosition(): Position -> Position {
    (r: Position) => r.(updatedAt := 0)
  }

  function ClearLiquidity(): LiquidityReceipt -> LiquidityReceipt {
    (r: LiquidityReceipt) => r.(at := 0)
  }

  function ClearSwap(): SwapReceipt -> SwapReceipt {
    (r: SwapReceipt) => r.(at := 0)
  }

  function ClearAsset(): AssetMapping -> AssetMapping {
    (r: AssetMapping) => r.(at := 0)
  }

  function ClearAccount(): AccountMapping -> AccountMapping {
    (r: AccountMapping) => r.(at := 0)
  }

  function ClearCredit(): BridgeCredit -> BridgeCredit {
    (r: BridgeCredit) => r.(at := 0)
  }

  function ClearReceipt(): CreditReceipt -> CreditReceipt {
    (r: CreditReceipt) => r.(at := 0)
  }

  function ClearReplay(): ReplayRecord -> ReplayRecord {
    (r: ReplayRecord) => r.(at := 0)
  }

  function BareBook(b: Book): Book {
    Book(Holdings(Clear(b.held.units, ClearUnits()), Clear(b.held.tokens, ClearBalance())),
         Clear(b.tokens, ClearToken()),
         BookLog(Clear(b.log.faucets, ClearFaucet()), Clear(b.log.transfers, ClearTransfer()), Clear(b.log.mints, ClearMint())))
  }

  function BareDex(d: Dex): Dex {
    Dex(Clear(d.pools, ClearPool()), Clear(d.positions, ClearPosition()),
        DexLog(Clear(d.log.liquidity, ClearLiquidity()), Clear(d.log.swaps, ClearSwap())))
  }

  function BareBridge(br: Bridge): Bridge {
    Bridge(Mappings(Clear(br.mappings.assets, ClearAsset()), Clear(br.mappings.accounts, ClearAccount())),
           Credits(Clear(br.credited.credits, ClearCredit()), Clear(br.credited.receipts, ClearReceipt())),
           Indexes(Clear(br.used.replays, ClearReplay()), br.used.events))
  }

  /** The ledger with every block stamp cleared. */
  function BareLedger(l: Ledger): Ledger {
    Ledger(BareBook(l.book), BareDex(l.dex), BareBridge(l.bridge))
  }

  // ----- the account book -----

  lemma BareHolding(b: Book, account: Id, asset: Id, amount: U64)
    ensures Holding(BareBook(b), account, asset) == Holding(b, account, asset)
    ensures Availability(BareBook(b), account, asset, amount) == Availability(b, account, asset, amount)
    ensures AssetExists(BareBook(b), asset) == AssetExists(b, asset)
  {
    hide Clear;
    ClearAt(b.held.units, account, ClearUnits());
    ClearAt(b.held.tokens, TokenBalanceId(asset, account), ClearBalance());
    ClearAt(b.tokens, asset, ClearToken());
  }

  lemma BareDebit(b: Book, now: nat, account: Id, asset: Id, amount: U64)
    ensures var s := Debit(b, now, account, asset, amount);
            Debit(BareBook(b), 0, account, asset, amount) == Step(BareBook(s.state), s.outcome)
  {
    hide Clear;
    BareHolding(b, account, asset, amount);
    var s := Debit(b, now, account, asset, amount);
    if asset == LocalUnit {
      ClearAt(b.held.units, account, ClearUnits());
      if s.outcome.Applied? {
        ClearPut(b.held.units, account, s.state.held.units[account], ClearUnits());
      }
    } else {
      var id := TokenBalanceId(asset, account);
      ClearAt(b.held.tokens, id, ClearBalance());
      if s.outcome.Applied? {
        ClearPut(b.held.tokens, id, s.state.held.tokens[id], ClearBalance());
      }
    }
  }

  lemma BareCredit(b: Book, now: nat, account: Id, asset: Id, amount: U64)
    ensures var s := Credit(b, now, account, asset, amount);
            Credit(BareBook(b), 0, account, asset, amount) == Step(BareBook(s.state), s.outcome)
  {
    hide Clear;
    var s := Credit(b, now, account, asset, amount);
    ClearAt(b.tokens, asset, ClearToken());
    if asset == LocalUnit {
      ClearAt(b.held.units, account, ClearUnits());
      if s.outcome.Applied? {
        ClearPut(b.held.units, account, s.state.held.units[account], ClearUnits());
      }
    } else {
      var id := TokenBalanceId(asset, account);
      ClearAt(b.held.tokens, id, ClearBalance());
      if s.outcome.Applied? {
        ClearPut(b.held.tokens, id, s.state.held.tokens[id], ClearBalance());
      }
    }
  }

  lemma BareCreateBalance(b: Book, now: nat, tx: Tx)
    requires tx.CreateBalance?
    ensures var s := CreateBalanceStep(b, now, tx);
            CreateBalanceStep(BareBook(b), 0, tx) == Step(BareBook(s.state), s.outcome)
  {
    hide Clear;
    ClearAt(b.held.units, tx.account, ClearUnits());
    ClearPut(b.held.units, tx.account, UnitBalance(tx.owner, 0, 0, None, now, true), ClearUnits());
  }

  lemma BareFaucet(b: Book, now: nat, tx: Tx)
    requires tx.Faucet?
    ensures var s := FaucetStep(b, now, tx);
            FaucetStep(BareBook(b), 0, tx) == Step(BareBook(s.state), s.outcome)
  {
    hide Clear;
    ClearAt(b.held.units, tx.account, ClearUnits());
    ClearAt(b.log.faucets, tx.record, ClearFaucet());
    if tx.account in b.held.units {
      var r := b.held.units[tx.account];
      if r.units + tx.amount <= MAX_U64 {
        var paid := r.(units := r.units + tx.amount);
        if r.lifetime + tx.amount > MAX_U64 {
          ClearPut(b.held.units, tx.account, paid, ClearUnits());
        } else {
          var done := paid.(lifetime := r.lifetime + tx.amount, lastFaucet := Some(tx.record), updatedAt := now);
          ClearPut(b.held.units, tx.account, done, ClearUnits());
          ClearPut(b.log.faucets, tx.record, FaucetRecord(tx.account, tx.recipient, tx.amount, tx.reason, now),
                   ClearFaucet());
        }
      }
    }
  }

  lemma BareTransfer(b: Book, now: nat, tx: Tx)
    requires tx.Transfer?
    ensures var s := TransferStep(b, now, tx);
            TransferStep(BareBook(b), 0, tx) == Step(BareBook(s.state), s.outcome)
  {
    hide Clear;
    var s := TransferStep(b, now, tx);
    ClearAt(b.held.units, tx.source, ClearUnits());
    ClearAt(b.held.units, tx.target, ClearUnits());
    ClearAt(b.log.transfers, tx.transfer, ClearTransfer());
    if s.outcome.Applied? {
      ClearPut(b.log.transfers, tx.transfer, s.state.log.transfers[tx.transfer], ClearTransfer());
      if tx.source == tx.target {
        ClearPut(b.held.units, tx.source, s.state.held.units[tx.source], ClearUnits());
      } else {
        var moved := b.held.units[tx.source].(units := b.held.units[tx.source].units - tx.amount, updatedAt := now);
        ClearPut(b.held.units, tx.source, moved, ClearUnits());
        ClearPut(b.held.units[tx.source := moved], tx.target, s.state.held.units[tx.target], ClearUnits());
      }
    }
  }

  lemma BareSymbols(tokens: map<Id, Token>, symbol: string)
    ensures (exists t :: t in tokens && tokens[t].symbol == symbol) <==>
            (exists t :: t in Clear(tokens, ClearToken()) && Clear(tokens, ClearToken())[t].symbol == symbol)
  {
    if t :| t in tokens && tokens[t].symbol == symbol {
      assert t in Clear(tokens, ClearToken()) && Clear(tokens, ClearToken())[t].symbol == symbol;
    }
  }

  lemma BareLaunch(b: Book, now: nat, tx: Tx)
    requires tx.LaunchToken?
    ensures var s := LaunchStep(b, now, tx);
            LaunchStep(BareBook(b), 0, tx) == Step(BareBook(s.state), s.outcome)
  {
    hide Credit, NormalizeSymbol, Clear;
    BareSymbols(b.tokens, NormalizeSymbol(tx.symbol));
    ClearAt(b.held.units, tx.account, ClearUnits());
    ClearAt(b.tokens, tx.token, ClearToken());
    if tx.account in b.held.units && tx.token !in b.tokens {
      ClearPut(b.tokens, tx.token, LaunchedToken(tx, now), ClearToken());
      var defined := b.(tokens := b.tokens[tx.token := LaunchedToken(tx, now)]);
      assert BareBook(defined) == BareBook(b).(tokens := BareBook(b).tokens[tx.token := LaunchedToken(tx, 0)]);
      BareCredit(defined, now, tx.account, tx.token, tx.amount);
      var mint := InitialMint(tx.token, tx.account, tx.amount);
      ClearPut(b.log.mints, mint, MintReceipt(tx.token, tx.account, tx.amount, mint.reason, now), ClearMint());
    }
  }

  lemma BareMint(b: Book, now: nat, tx: Tx)
    requires tx.MintToken?
    ensures var s := MintStep(b, now, tx);
            MintStep(BareBook(b), 0, tx) == Step(BareBook(s.state), s.outcome)
  {
    hide Credit, Clear;
    BareCredit(b, now, tx.account, tx.token, tx.amount);
    ClearAt(b.held.units, tx.account, ClearUnits());
    ClearAt(b.tokens, tx.token, ClearToken());
    ClearAt(b.log.mints, tx.mint, ClearMint());
    ClearPut(b.log.mints, tx.mint, MintReceipt(tx.token, tx.account, tx.amount, tx.reason, now), ClearMint());
    if tx.token in b.tokens && b.tokens[tx.token].supply + tx.amount <= MAX_U64 {
      ClearPut(b.tokens, tx.token, b.tokens[tx.token].(supply := b.tokens[tx.token].supply + tx.amount), ClearToken());
    }
  }

  lemma BareBookStep(b: Book, now: nat, tx: Tx)
    requires IsBookTx(tx)
    ensures var s := BookStep(b, now, tx);
            BookStep(BareBook(b), 0, tx) == Step(BareBook(s.state), s.outcome)
  {
    hide CreateBalanceStep, FaucetStep, TransferStep, LaunchStep, MintStep, BareBook;
    if tx.CreateBalance? {
      BareCreateBalance(b, now, tx);
    } else if tx.Faucet? {
      BareFaucet(b, now, tx);
    } else if tx.Transfer? {
      BareTransfer(b, now, tx);
    } else if tx.LaunchToken? {
      BareLaunch(b, now, tx);
    } else {
      BareMint(b, now, tx);
    }
  }

  // ----- the exchange -----

  lemma BareCreatePool(l: Ledger, now: nat, tx: Tx)
    requires tx.CreatePool?
    ensures var s := CreatePoolStep(l, now, tx);
            CreatePoolStep(BareLedger(l), 0, tx) == Step(BareLedger(s.state), s.outcome)
  {
    hide AssetExists, Clear, Holding, Availability;
    BareHolding(l.book, tx.account, tx.base, 0);
    BareHolding(l.book, tx.account, tx.quote, 0);
    ClearAt(l.book.held.units, tx.account, ClearUnits());
    ClearAt(l.dex.pools, tx.pool, ClearPool());
    ClearPut(l.dex.pools, tx.pool, Pool(tx.base, tx.quote, tx.account, 0, 0, 0, now, now, None, None), ClearPool());
  }

  lemma BareAddQuote(l: Ledger, tx: Tx)
    requires tx.AddLiquidity?
    ensures AddQuote(BareLedger(l), tx) == AddQuote(l, tx)
  {
    hide Availability, LiquidityUnits, Holding, AssetExists, Clear, BareBook;
    ClearAt(l.dex.pools, tx.pool, ClearPool());
    ClearAt(l.dex.log.liquidity, tx.liquidity, ClearLiquidity());
    if tx.pool in l.dex.pools {
      BareHolding(l.book, tx.account, l.dex.pools[tx.pool].base, tx.baseAmount);
      BareHolding(l.book, tx.account, l.dex.pools[tx.pool].quote, tx.quoteAmount);
    }
  }

  lemma BareDeposit(r: Position, pool: Id, lp: U64, base: U64, quote: U64, now: nat)
    ensures var s := DepositPosition(r, pool, lp, base, quote, now);
            DepositPosition(ClearPosition()(r), pool, lp, base, quote, 0) == Step(ClearPosition()(s.state), s.outcome)
  {
  }

  lemma BareAddCommit(l: Ledger, now: nat, tx: Tx, lp: U64)
    requires tx.AddLiquidity? && tx.pool in l.dex.pools
    ensures var s := AddCommit(l, now, tx, lp);
            AddCommit(BareLedger(l), 0, tx, lp) == Step(BareLedger(s.state), s.outcome)
  {
    hide Debit, DepositPosition, BareBook, BareBridge, Clear;
    var p := l.dex.pools[tx.pool];
    var d1 := Debit(l.book, now, tx.account, p.base, tx.baseAmount);
    BareDebit(l.book, now, tx.account, p.base, tx.baseAmount);
    BareDebit(d1.state, now, tx.account, p.quote, tx.quoteAmount);
    var r := PositionOf(l.dex, tx.pool, tx.account, now);
    BareDeposit(r, tx.pool, lp, tx.baseAmount, tx.quoteAmount, now);
    var s := AddCommit(l, now, tx, lp);
    var id := LpPositionId(tx.pool, tx.account);
    ClearAt(l.dex.pools, tx.pool, ClearPool());
    ClearAt(l.dex.positions, id, ClearPosition());
    ClearPut(l.dex.pools, tx.pool, s.state.dex.pools[tx.pool], ClearPool());
    ClearPut(l.dex.positions, id, DepositPosition(r, tx.pool, lp, tx.baseAmount, tx.quoteAmount, now).state, ClearPosition());
    if s.outcome.Applied? {
      ClearPut(l.dex.log.liquidity, tx.liquidity, s.state.dex.log.liquidity[tx.liquidity], ClearLiquidity());
    }
  }

  lemma BareAdd(l: Ledger, now: nat, tx: Tx)
    requires tx.AddLiquidity?
    ensures var s := AddStep(l, now, tx);
            AddStep(BareLedger(l), 0, tx) == Step(BareLedger(s.state), s.outcome)
  {
    hide AddQuote, AddCommit, BareBook, BareBridge, LiquidityUnits, Availability;
    BareAddQuote(l, tx);
    if AddQuote(l, tx).Ok? {
      AddQuoteFacts(l, tx, AddQuote(l, tx).value);
      BareAddCommit(l, now, tx, AddQuote(l, tx).value);
    }
  }

  lemma BareRemoveQuote(l: Ledger, tx: Tx)
    requires tx.RemoveLiquidity?
    ensures RemoveQuote(BareLedger(l), tx) == RemoveQuote(l, tx)
  {
    hide Proportional, Clear, BareBook, BareBridge;
    ClearAt(l.dex.pools, tx.pool, ClearPool());
    ClearAt(l.dex.positions, LpPositionId(tx.pool, tx.account), ClearPosition());
    ClearAt(l.dex.log.liquidity, tx.liquidity, ClearLiquidity());
  }

  lemma BareWithdraw(r: Position, pool: Id, lp: U64, base: U64, quote: U64, now: nat)
    requires lp <= r.lp
    ensures var s := WithdrawPosition(r, pool, lp, base, quote, now);
            WithdrawPosition(ClearPosition()(r), pool, lp, base, quote, 0) == Step(ClearPosition()(s.state), s.outcome)
  {
  }

  lemma BareRemoveCommit(l: Ledger, now: nat, tx: Tx, base: U64, quote: U64)
    requires tx.RemoveLiquidity? && tx.pool in l.dex.pools
    requires LpPositionId(tx.pool, tx.account) in l.dex.positions
    requires tx.lp <= l.dex.positions[LpPositionId(tx.pool, tx.account)].lp
    ensures var s := RemoveCommit(l, now, tx, base, quote);
            RemoveCommit(BareLedger(l), 0, tx, base, quote) == Step(BareLedger(s.state), s.outcome)
  {
    hide Credit, WithdrawPosition, BareBook, BareBridge, Clear;
    var p := l.dex.pools[tx.pool];
    var id := LpPositionId(tx.pool, tx.account);
    ClearAt(l.dex.pools, tx.pool, ClearPool());
    ClearAt(l.dex.positions, id, ClearPosition());
    BareWithdraw(l.dex.positions[id], tx.pool, tx.lp, base, quote, now);
    var w := WithdrawPosition(l.dex.positions[id], tx.pool, tx.lp, base, quote, now);
    ClearPut(l.dex.positions, id, w.state, ClearPosition());
    if w.outcome.Applied? && base <= p.reserveBase && quote <= p.reserveQuote {
      var s := RemoveCommit(l, now, tx, base, quote);
      ClearPut(l.dex.pools, tx.pool, s.state.dex.pools[tx.pool], ClearPool());
      if tx.lp <= p.lp {
        BareCredit(l.book, now, tx.account, p.base, base);
        BareCredit(Credit(l.book, now, tx.account, p.base, base).state, now, tx.account, p.quote, quote);
        if s.outcome.Applied? {
          ClearPut(l.dex.log.liquidity, tx.liquidity, s.state.dex.log.liquidity[tx.liquidity], ClearLiquidity());
        }
      }
    }
  }

  lemma BareRemove(l: Ledger, now: nat, tx: Tx)
    requires tx.RemoveLiquidity?
    ensures var s := RemoveStep(l, now, tx);
            RemoveStep(BareLedger(l), 0, tx) == Step(BareLedger(s.state), s.outcome)
  {
    hide RemoveQuote, RemoveCommit, BareBook, BareBridge, Proportional;
    BareRemoveQuote(l, tx);
    if RemoveQuote(l, tx).Ok? {
      RemoveQuoteFacts(l, tx, RemoveQuote(l, tx).value.0, RemoveQuote(l, tx).value.1);
      BareRemoveCommit(l, now, tx, RemoveQuote(l, tx).value.0, RemoveQuote(l, tx).value.1);
    }
  }

  lemma BareSwapQuote(l: Ledger, tx: Tx)
    requires tx.SwapExactIn?
    ensures SwapQuote(BareLedger(l), tx) == SwapQuote(l, tx)
    ensures SwapQuote(l, tx).Ok? ==> tx.pool in l.dex.pools
  {
    hide Availability, Holding, ConstantProductOut, AssetExists, Clear, BareBook, BareBridge;
    ClearAt(l.dex.pools, tx.pool, ClearPool());
    ClearAt(l.dex.log.swaps, tx.swap, ClearSwap());
    BareHolding(l.book, tx.account, tx.assetIn, tx.amount);
  }

  lemma BareSwapCommit(l: Ledger, now: nat, tx: Tx, plan: SwapPlan)
    requires tx.SwapExactIn? && tx.pool in l.dex.pools
    ensures var s := SwapCommit(l, now, tx, plan);
            SwapCommit(BareLedger(l), 0, tx, plan) == Step(BareLedger(s.state), s.outcome)
  {
    hide Debit, Credit, BareBook, BareBridge, Clear;
    ClearAt(l.dex.pools, tx.pool, ClearPool());
    BareDebit(l.book, now, tx.account, tx.assetIn, tx.amount);
    BareCredit(Debit(l.book, now, tx.account, tx.assetIn, tx.amount).state, now, tx.account, plan.assetOut, plan.out);
    var s := SwapCommit(l, now, tx, plan);
    ClearPut(l.dex.pools, tx.pool, s.state.dex.pools[tx.pool], ClearPool());
    if s.outcome.Applied? {
      ClearPut(l.dex.log.swaps, tx.swap, s.state.dex.log.swaps[tx.swap], ClearSwap());
    }
  }

  lemma BareSwap(l: Ledger, now: nat, tx: Tx)
    requires tx.SwapExactIn?
    ensures var s := SwapStep(l, now, tx);
            SwapStep(BareLedger(l), 0, tx) == Step(BareLedger(s.state), s.outcome)
  {
    hide SwapQuote, SwapCommit, BareBook, BareBridge;
    BareSwapQuote(l, tx);
    if SwapQuote(l, tx).Ok? {
      BareSwapCommit(l, now, tx, SwapQuote(l, tx).value);
    }
  }

  lemma BareDexStep(l: Ledger, now: nat, tx: Tx)
    requires IsDexTx(tx)
    ensures var s := DexStep(l, now, tx);
            DexStep(BareLedger(l), 0, tx) == Step(BareLedger(s.state), s.outcome)
  {
    hide CreatePoolStep, AddStep, RemoveStep, SwapStep, BareLedger;
    if tx.CreatePool? {
      BareCreatePool(l, now, tx);
    } else if tx.AddLiquidity? {
      BareAdd(l, now, tx);
    } else if tx.RemoveLiquidity? {
      BareRemove(l, now, tx);
    } else {
      BareSwap(l, now, tx);
    }
  }

  // ----- the bridge -----

  lemma BareMapAsset(l: Ledger, now: nat, tx: Tx)
    requires tx.MapBridgeAsset?
    ensures var s := MapAssetStep(l, now, tx);
            MapAssetStep(BareLedger(l), 0, tx) == Step(BareLedger(s.state), s.outcome)
  {
    hide AssetExists, Holding, Availability, Clear, BareBook, BareDex;
    BareHolding(l.book, tx.asset, tx.asset, 0);
    ClearAt(l.bridge.mappings.assets, tx.mapping, ClearAsset());
    ClearPut(l.bridge.mappings.assets, tx.mapping,
             AssetMapping(tx.chain, tx.sourceToken, tx.asset, now, tx.localOnly, tx.productionReady), ClearAsset());
  }

  lemma BareMapAccount(l: Ledger, now: nat, tx: Tx)
    requires tx.MapBridgeAccount?
    ensures var s := MapAccountStep(l, now, tx);
            MapAccountStep(BareLedger(l), 0, tx) == Step(BareLedger(s.state), s.outcome)
  {
    hide Clear, BareBook, BareDex;
    ClearAt(l.bridge.mappings.accounts, tx.mapping, ClearAccount());
    ClearPut(l.bridge.mappings.accounts, tx.mapping,
             AccountMapping(tx.recipient, tx.account, tx.owner, now, tx.localOnly, tx.productionReady), ClearAccount());
  }

  lemma BareQuote(l: Ledger, tx: Tx)
    requires tx.CreditBridge?
    ensures CreditQuote(BareLedger(l), tx) == CreditQuote(l, tx)
  {
    hide CreditForm, Clear, BareDex;
    ClearAt(l.bridge.used.replays, tx.replay, ClearReplay());
    ClearAt(l.bridge.credited.credits, tx.credit, ClearCredit());
    ClearAt(l.bridge.credited.receipts, tx.receipt, ClearReceipt());
    ClearAt(l.bridge.mappings.assets, AssetMappingId(tx.event.chain, tx.sourceToken, tx.asset), ClearAsset());
    ClearAt(l.bridge.mappings.accounts, AccountMappingId(tx.recipient, tx.account), ClearAccount());
    ClearAt(l.book.held.units, tx.account, ClearUnits());
  }

  lemma BareMark(b: Book, account: Id, asset: Id)
    ensures MarkValueBearing(BareBook(b), account, asset) == BareBook(MarkValueBearing(b, account, asset))
  {
    hide Clear;
    if asset == LocalUnit {
      ClearAt(b.held.units, account, ClearUnits());
      if account in b.held.units {
        ClearPut(b.held.units, account, b.held.units[account].(noValue := false), ClearUnits());
      }
    } else {
      var id := TokenBalanceId(asset, account);
      ClearAt(b.held.tokens, id, ClearBalance());
      if id in b.held.tokens {
        ClearPut(b.held.tokens, id, b.held.tokens[id].(noValue := false), ClearBalance());
      }
    }
  }

  lemma BareConsume(br: Bridge, now: nat, tx: Tx, owner: string)
    requires tx.CreditBridge?
    ensures Consume(BareBridge(br), 0, tx, owner) == BareBridge(Consume(br, now, tx, owner))
  {
    hide Clear;
    var br' := Consume(br, now, tx, owner);
    ClearPut(br.credited.credits, tx.credit, br'.credited.credits[tx.credit], ClearCredit());
    ClearPut(br.credited.receipts, tx.receipt, br'.credited.receipts[tx.receipt], ClearReceipt());
    ClearPut(br.used.replays, tx.replay, br'.used.replays[tx.replay], ClearReplay());
  }

  lemma QuotedOwner(l: Ledger, tx: Tx)
    requires tx.CreditBridge? && CreditQuote(l, tx).Applied?
    ensures var id := AccountMappingId(tx.recipient, tx.account);
            && id in l.bridge.mappings.accounts && id in BareLedger(l).bridge.mappings.accounts
            && BareLedger(l).bridge.mappings.accounts[id].owner == l.bridge.mappings.accounts[id].owner
  {
    hide CreditForm, Unconsumed, Clear, BareBook, BareDex;
    ClearAt(l.bridge.mappings.accounts, AccountMappingId(tx.recipient, tx.account), ClearAccount());
  }

  lemma BareCreditStep(l: Ledger, now: nat, tx: Tx)
    requires tx.CreditBridge?
    ensures var s := CreditStep(l, now, tx);
            CreditStep(BareLedger(l), 0, tx) == Step(BareLedger(s.state), s.outcome)
  {
    hide CreditQuote, Credit, MarkValueBearing, Consume, BareBook, BareBridge, BareDex;
    BareQuote(l, tx);
    if CreditQuote(l, tx).Applied? {
      QuotedOwner(l, tx);
      BareCredit(l.book, now, tx.account, tx.asset, tx.amount);
      BareMark(Credit(l.book, now, tx.account, tx.asset, tx.amount).state, tx.account, tx.asset);
      BareConsume(l.bridge, now, tx, l.bridge.mappings.accounts[AccountMappingId(tx.recipient, tx.account)].owner);
    }
  }

  lemma BareLedgerStep(l: Ledger, now: nat, tx: Tx)
    requires IsLedgerTx(tx)
    ensures var s := LedgerStep(l, now, tx);
            LedgerStep(BareLedger(l), 0, tx) == Step(BareLedger(s.state), s.outcome)
  {
    hide BookStep, DexStep, MapAssetStep, MapAccountStep, CreditStep, BareBook, BareDex, BareBridge;
    if IsBookTx(tx) {
      BareBookStep(l.book, now, tx);
    } else if IsDexTx(tx) {
      BareDexStep(l, now, tx);
    } else if tx.MapBridgeAsset? {
      BareMapAsset(l, now, tx);
    } else if tx.MapBridgeAccount? {
      BareMapAccount(l, now, tx);
    } else {
      BareCreditStep(l, now, tx);
    }
  }
}
