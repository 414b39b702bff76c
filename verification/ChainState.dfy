/**
 * The runtime's state as it is kept and changed in place. Each method is proved against the function
 * that specifies it; writes happen in the runtime's order, so what a rejection leaves behind is what
 * the runtime leaves behind.
 */
module ChainStates {
  import opened Prelude
  import opened Text
  import opened Ids
  import opened Records
  import opened State
  import opened PoolMath
  import opened Accounts
  import opened Exchange
  import opened DexFacts
  import opened BridgePath
  import opened WorkLifecycle
  import opened Machine

  class ChainState {
    // account book
    var units: map<Id, UnitBalance>
    var balances: map<Id, TokenBalance>
    var tokens: map<Id, Token>
    var faucets: map<Id, FaucetRecord>
    var transfers: map<Id, TransferRecord>
    var mints: map<Id, MintReceipt>
    // exchange
    var pools: map<Id, Pool>
    var positions: map<Id, Position>
    var liquidity: map<Id, LiquidityReceipt>
    var swaps: map<Id, SwapReceipt>
    // bridge
    var assets: map<Id, AssetMapping>
    var accounts: map<Id, AccountMapping>
    var credits: map<Id, BridgeCredit>
    var creditReceipts: map<Id, CreditReceipt>
    var replays: map<Id, ReplayRecord>
    var events: map<Id, Id>
    // work
    var rootfields: map<Id, Rootfield>
    var agents: map<Id, Agent>
    var passports: map<Id, string>
    var modules: map<Id, VerifierModule>
    var artifacts: map<Id, Artifact>
    var availability: map<Id, AvailabilityProof>
    var memory: map<Id, MemoryCell>
    var receipts: map<Id, WorkReceipt>
    var reports: map<Id, VerifierReport>
    var challenges: map<Id, Challenge>
    var finality: map<Id, FinalityReceipt>
    var observations: map<Id, Observation>
    var importedReports: map<Id, string>
    var anchors: map<Digest, Anchor>
    // chain
    var nextBlock: nat
    var time: nat
    var parent: Digest
    var blocks: seq<Block>
    var pending: seq<Envelope>

    // ----- the state as a value -----

    function BookView(): Book
      reads this`units, this`balances, this`tokens, this`faucets, this`transfers, this`mints
    {
      Book(Holdings(units, balances), tokens, BookLog(faucets, transfers, mints))
    }

    function DexView(): Dex
      reads this`pools, this`positions, this`liquidity, this`swaps
    {
      Dex(pools, positions, DexLog(liquidity, swaps))
    }

    function BridgeView(): Bridge
      reads this`assets, this`accounts, this`credits, this`creditReceipts, this`replays, this`events
    {
      Bridge(Mappings(assets, accounts), Credits(credits, creditReceipts), Indexes(replays, events))
    }

    function LedgerView(): Ledger
      reads this`units, this`balances, this`tokens, this`faucets, this`transfers, this`mints
      reads this`pools, this`positions, this`liquidity, this`swaps
      reads this`assets, this`accounts, this`credits, this`creditReceipts, this`replays, this`events
    {
      Ledger(BookView(), DexView(), BridgeView())
    }

    function RegistryView(): Registry
      reads this`rootfields, this`agents, this`passports, this`modules
    {
      Registry(rootfields, agents, passports, modules)
    }

    function LibraryView(): Library
      reads this`artifacts, this`availability, this`memory
    {
      Library(artifacts, availability, memory)
    }

    function DocketView(): Docket
      reads this`receipts, this`reports, this`challenges, this`finality
    {
      Docket(receipts, reports, challenges, finality)
    }

    function ImportsView(): Imports
      reads this`observations, this`importedReports
    {
      Imports(observations, importedReports)
    }

    function WorkView(): Work
      reads this`rootfields, this`agents, this`passports, this`modules, this`artifacts, this`availability, this`memory
      reads this`receipts, this`reports, this`challenges, this`finality, this`observations, this`importedReports
    {
      Work(RegistryView(), LibraryView(), DocketView(), ImportsView())
    }

    function CoreView(): Core
      reads this`units, this`balances, this`tokens, this`faucets, this`transfers, this`mints
      reads this`pools, this`positions, this`liquidity, this`swaps
      reads this`assets, this`accounts, this`credits, this`creditReceipts, this`replays, this`events
      reads this`rootfields, this`agents, this`passports, this`modules, this`artifacts, this`availability, this`memory
      reads this`receipts, this`reports, this`challenges, this`finality, this`observations, this`importedReports
      reads this`anchors
    {
      Core(LedgerView(), WorkView(), anchors)
    }

    /** What a transaction sees of the chain. */
    function EnvView(): Env
      reads this`nextBlock, this`blocks
    {
      if blocks == [] then Env(nextBlock, 0, 0) else Env(nextBlock, blocks[0].number, blocks[|blocks| - 1].number)
    }

    function View(): Chain
      reads this
    {
      Chain(CoreView(), nextBlock, time, parent, blocks, pending)
    }

    /** `genesis_state` */
    constructor ()
      ensures View() == Genesis()
    {
      units, balances, tokens, faucets, transfers, mints := map[], map[], map[], map[], map[], map[];
      pools, positions, liquidity, swaps := map[], map[], map[], map[];
      assets, accounts, credits, creditReceipts, replays, events := map[], map[], map[], map[], map[], map[];
      rootfields, agents, passports, modules := map[], map[], map[], map[];
      artifacts, availability, memory := map[], map[], map[];
      receipts, reports, challenges, finality := map[], map[], map[], map[];
      observations, importedReports, anchors := map[], map[], map[];
      nextBlock, time, parent, blocks, pending := 1, GENESIS_TIME, GenesisDigest, [], [];
    }

    // ----- account book -----

    /** `debit_asset_units` */
    method DebitAssetUnits(account: Id, asset: Id, amount: U64) returns (r: Outcome)
      modifies this`units, this`balances
      ensures Step(BookView(), r) == Debit(old(BookView()), nextBlock, account, asset, amount)
    {
      r := Availability(BookView(), account, asset, amount);
      if r.Rejected? {
        return;
      }
      if asset == LocalUnit {
        var b := units[account];
        units := units[account := b.(units := b.units - amount, updatedAt := nextBlock)];
      } else {
        var id := TokenBalanceId(asset, account);
        if id !in balances {
          return Rejected(TokenBalanceInsufficient(id));
        }
        var b := balances[id];
        balances := balances[id := b.(units := b.units - amount, updatedAt := nextBlock)];
      }
    }

    /** `credit_asset_units`: a missing token balance is opened before the addition is checked. */
    method CreditAssetUnits(account: Id, asset: Id, amount: U64) returns (r: Outcome)
      modifies this`units, this`balances
      ensures Step(BookView(), r) == Credit(old(BookView()), nextBlock, account, asset, amount)
    {
      if amount == 0 {
        return Rejected(TokenAmountMustBePositive(asset));
      }
      if asset == LocalUnit {
        if account !in units {
          return Rejected(BalanceMissing(account));
        }
        var b := units[account];
        if b.units + amount > MAX_U64 {
          return Rejected(BalanceOverflow(account));
        }
        units := units[account := b.(units := b.units + amount, updatedAt := nextBlock)];
        return Applied;
      }
      r := CreditTokenUnits(account, asset, amount);
    }

    method CreditTokenUnits(account: Id, asset: Id, amount: U64) returns (r: Outcome)
      requires amount > 0 && asset != LocalUnit
      modifies this`balances
      ensures Step(BookView(), r) == Credit(old(BookView()), nextBlock, account, asset, amount)
    {
      if asset !in tokens {
        return Rejected(TokenMissing(asset));
      }
      var id := TokenBalanceId(asset, account);
      if id !in balances {
        balances := balances[id := TokenBalance(asset, account, 0, nextBlock, true)];
      }
      var b := balances[id];
      if b.units + amount > MAX_U64 {
        return Rejected(TokenBalanceOverflow(id));
      }
      var paid := b.(units := b.units + amount, updatedAt := nextBlock);
      PutTwice(old(balances), id, b, paid);
      balances := balances[id := paid];
      r := Applied;
    }

    method CreateBalance(tx: Tx) returns (r: Outcome)
      requires tx.CreateBalance?
      modifies this`units
      ensures Step(BookView(), r) == CreateBalanceStep(old(BookView()), nextBlock, tx)
    {
      if tx.account in units {
        return Rejected(BalanceAlreadyExists(tx.account));
      }
      units := units[tx.account := UnitBalance(tx.owner, 0, 0, None, nextBlock, true)];
      r := Applied;
    }

    method Faucet(tx: Tx) returns (r: Outcome)
      requires tx.Faucet?
      modifies this`units, this`faucets
      ensures Step(BookView(), r) == FaucetStep(old(BookView()), nextBlock, tx)
    {
      if tx.amount == 0 {
        return Rejected(FaucetAmountMustBePositive(tx.record));
      }
      if tx.record in faucets {
        return Rejected(FaucetRecordAlreadyExists(tx.record));
      }
      if tx.account !in units {
        return Rejected(BalanceMissing(tx.account));
      }
      var b := units[tx.account];
      if b.units + tx.amount > MAX_U64 {
        return Rejected(BalanceOverflow(tx.account));
      }
      units := units[tx.account := b.(units := b.units + tx.amount)];
      b := units[tx.account];
      if b.lifetime + tx.amount > MAX_U64 {
        return Rejected(BalanceOverflow(tx.account));
      }
      units := units[tx.account := b.(lifetime := b.lifetime + tx.amount, lastFaucet := Some(tx.record),
                                      updatedAt := nextBlock)];
      assert units == old(units)[tx.account := units[tx.account]];
      faucets := faucets[tx.record := FaucetRecord(tx.account, tx.recipient, tx.amount, tx.reason, nextBlock)];
      r := Applied;
    }

    method Transfer(tx: Tx) returns (r: Outcome)
      requires tx.Transfer?
      modifies this`units, this`transfers
      ensures Step(BookView(), r) == TransferStep(old(BookView()), nextBlock, tx)
    {
      if tx.transfer in transfers {
        return Rejected(TransferAlreadyExists(tx.transfer));
      }
      if tx.amount == 0 {
        return Rejected(FaucetAmountMustBePositive(tx.transfer));
      }
      if tx.source !in units {
        return Rejected(BalanceMissing(tx.source));
      }
      var s := units[tx.source];
      if s.units < tx.amount {
        return Rejected(BalanceInsufficient(tx.source));
      }
      if tx.source == tx.target {
        units := units[tx.source := s.(updatedAt := nextBlock)];
      } else {
        if tx.target !in units {
          return Rejected(BalanceMissing(tx.target));
        }
        var t := units[tx.target];
        if t.units + tx.amount > MAX_U64 {
          return Rejected(BalanceOverflow(tx.target));
        }
        units := units[tx.source := s.(units := s.units - tx.amount, updatedAt := nextBlock)];
        units := units[tx.target := t.(units := t.units + tx.amount, noValue := t.noValue && s.noValue,
                                       updatedAt := nextBlock)];
      }
      transfers := transfers[tx.transfer :=
        TransferRecord(tx.source, tx.target, tx.amount, tx.memo, nextBlock, s.noValue)];
      r := Applied;
    }

    method LaunchToken(tx: Tx) returns (r: Outcome)
      requires tx.LaunchToken?
      modifies this`units, this`balances, this`tokens, this`mints
      ensures Step(BookView(), r) == LaunchStep(old(BookView()), nextBlock, tx)
    {
      hide NormalizeSymbol, Credit;
      var symbol := NormalizeSymbol(tx.symbol);
      if tx.token != TokenId(NormalizeSymbol(symbol)) {
        return Rejected(IdMismatch(TokenKind, tx.token));
      }
      if tx.amount == 0 {
        return Rejected(TokenAmountMustBePositive(tx.token));
      }
      if tx.account !in units {
        return Rejected(BalanceMissing(tx.account));
      }
      if tx.token in tokens {
        return Rejected(TokenAlreadyExists(tx.token));
      }
      if exists t :: t in tokens && tokens[t].symbol == symbol {
        return Rejected(TokenSymbolAlreadyExists(symbol));
      }
      tokens := tokens[tx.token := Token(symbol, tx.name, tx.decimals, tx.account, tx.amount, nextBlock)];
      r := CreditAssetUnits(tx.account, tx.token, tx.amount);
      if r.Applied? {
        var mint := MintId(tx.token, tx.account, tx.amount, "initial-supply");
        mints := mints[mint := MintReceipt(tx.token, tx.account, tx.amount, mint.reason, nextBlock)];
      }
    }

    method MintToken(tx: Tx) returns (r: Outcome)
      requires tx.MintToken?
      modifies this`units, this`balances, this`tokens, this`mints
      ensures Step(BookView(), r) == MintStep(old(BookView()), nextBlock, tx)
    {
      hide Credit;
      if tx.mint != MintId(tx.token, tx.account, tx.amount, tx.reason) {
        return Rejected(IdMismatch(MintKind, tx.mint));
      }
      if tx.amount == 0 {
        return Rejected(TokenAmountMustBePositive(tx.mint));
      }
      if tx.account !in units {
        return Rejected(BalanceMissing(tx.account));
      }
      if tx.mint in mints {
        return Rejected(MintAlreadyExists(tx.mint));
      }
      if tx.token !in tokens {
        return Rejected(TokenMissing(tx.token));
      }
      var t := tokens[tx.token];
      if t.supply + tx.amount > MAX_U64 {
        return Rejected(TokenBalanceOverflow(tx.token));
      }
      r := CreditAssetUnits(tx.account, tx.token, tx.amount);
      if r.Applied? {
        tokens := tokens[tx.token := t.(supply := t.supply + tx.amount)];
        mints := mints[tx.mint := MintReceipt(tx.token, tx.account, tx.amount, tx.reason, nextBlock)];
      }
    }

    // ----- exchange -----

    method CreatePool(tx: Tx) returns (r: Outcome)
      requires tx.CreatePool?
      modifies this`pools
      ensures Step(LedgerView(), r) == CreatePoolStep(old(LedgerView()), nextBlock, tx)
    {
      hide AssetExists;
      if tx.pool != PoolId(tx.base, tx.quote) {
        return Rejected(IdMismatch(PoolKind, tx.pool));
      }
      if tx.base == tx.quote {
        return Rejected(PoolInvalidAsset(tx.base));
      }
      if !AssetExists(BookView(), tx.base) {
        return Rejected(TokenMissing(tx.base));
      }
      if !AssetExists(BookView(), tx.quote) {
        return Rejected(TokenMissing(tx.quote));
      }
      if tx.account !in units {
        return Rejected(BalanceMissing(tx.account));
      }
      if tx.pool in pools {
        return Rejected(PoolAlreadyExists(tx.pool));
      }
      pools := pools[tx.pool := Pool(tx.base, tx.quote, tx.account, 0, 0, 0, nextBlock, nextBlock, None, None)];
      r := Applied;
    }

    /** The position takes the LP units and then each deposit counter; an overflow keeps what is written so far. */
    method DepositIntoPosition(pool: Id, account: Id, lp: U64, base: U64, quote: U64) returns (r: Outcome)
      modifies this`positions
      ensures var s := DepositPosition(PositionOf(old(DexView()), pool, account, nextBlock), pool, lp, base, quote, nextBlock);
              r == s.outcome && positions == old(positions)[LpPositionId(pool, account) := s.state]
    {
      var id := LpPositionId(pool, account);
      if id !in positions {
        positions := positions[id := Position(pool, account, 0, 0, 0, 0, 0, nextBlock)];
      }
      var q := positions[id];
      if q.lp + lp > MAX_U64 {
        return Rejected(PoolReserveOverflow(pool));
      }
      q := q.(lp := q.lp + lp);
      positions := positions[id := q];
      if q.baseIn + base > MAX_U64 {
        return Rejected(PoolReserveOverflow(pool));
      }
      q := q.(baseIn := q.baseIn + base);
      positions := positions[id := q];
      if q.quoteIn + quote > MAX_U64 {
        return Rejected(PoolReserveOverflow(pool));
      }
      positions := positions[id := q.(quoteIn := q.quoteIn + quote, updatedAt := nextBlock)];
      r := Applied;
    }

    /** The checks of a deposit, none of which writes. */
    method QuoteDeposit(tx: Tx) returns (r: Result<U64, Error>)
      requires tx.AddLiquidity?
      ensures r == AddQuote(LedgerView(), tx)
    {
      hide Availability, LiquidityUnits;
      if tx.liquidity != LiquidityId(tx.pool, tx.account, Add, tx.baseAmount, tx.quoteAmount, tx.minLp) {
        return Err(IdMismatch(AddKind, tx.liquidity));
      }
      if tx.liquidity in liquidity {
        return Err(LiquidityAlreadyExists(tx.liquidity));
      }
      if tx.baseAmount == 0 || tx.quoteAmount == 0 {
        return Err(TokenAmountMustBePositive(tx.liquidity));
      }
      if tx.pool !in pools {
        return Err(PoolMissing(tx.pool));
      }
      var p := pools[tx.pool];
      r := LiquidityUnits(tx.pool, p.reserveBase, p.reserveQuote, p.lp, tx.baseAmount, tx.quoteAmount);
      if r.Err? {
        return;
      }
      if r.value == 0 || r.value < tx.minLp {
        return Err(LiquidityBelowMinimum(tx.liquidity));
      }
      var base := Availability(BookView(), tx.account, p.base, tx.baseAmount);
      if base.Rejected? {
        return Err(base.error);
      }
      var quote := Availability(BookView(), tx.account, p.quote, tx.quoteAmount);
      if quote.Rejected? {
        return Err(quote.error);
      }
    }

    /** The two debits of a deposit; the second is not tried when the first is refused. */
    method PayIn(account: Id, p: Pool, base: U64, quote: U64) returns (r: Outcome)
      modifies this`units, this`balances
      ensures var d1 := Debit(old(BookView()), nextBlock, account, p.base, base);
              var d2 := Debit(d1.state, nextBlock, account, p.quote, quote);
              && r == (if d1.outcome.Rejected? then d1.outcome else d2.outcome)
              && BookView() == (if d1.outcome.Rejected? then old(BookView()) else d2.state)
    {
      hide Debit, BookView;
      r := DebitAssetUnits(account, p.base, base);
      if r.Rejected? {
        UndebitedBook(old(BookView()), nextBlock, account, p.base, base);
        return;
      }
      r := DebitAssetUnits(account, p.quote, quote);
    }

    /** The pool, then the position, then the receipt of a deposit. */
    method FillPool(tx: Tx, lp: U64) returns (r: Outcome)
      requires tx.AddLiquidity? && tx.pool in pools
      modifies this`pools, this`positions, this`liquidity
      ensures Step(DexView(), r) == PoolDeposit(old(DexView()), nextBlock, tx, lp)
    {
      hide DepositPosition;
      var p := pools[tx.pool];
      if p.reserveBase + tx.baseAmount > MAX_U64 || p.reserveQuote + tx.quoteAmount > MAX_U64 || p.lp + lp > MAX_U64 {
        return Rejected(PoolReserveOverflow(tx.pool));
      }
      var p' := p.(reserveBase := p.reserveBase + tx.baseAmount, reserveQuote := p.reserveQuote + tx.quoteAmount,
                   lp := p.lp + lp, updatedAt := nextBlock, lastLiquidity := Some(tx.liquidity));
      pools := pools[tx.pool := p'];
      r := DepositIntoPosition(tx.pool, tx.account, lp, tx.baseAmount, tx.quoteAmount);
      if r.Applied? {
        liquidity := liquidity[tx.liquidity :=
          LiquidityReceipt(tx.pool, tx.account, Add, tx.baseAmount, tx.quoteAmount, lp,
                           p.reserveBase, p.reserveQuote, p'.reserveBase, p'.reserveQuote, nextBlock)];
      }
    }

    method AddLiquidity(tx: Tx) returns (r: Outcome)
      requires tx.AddLiquidity?
      modifies this`units, this`balances, this`pools, this`positions, this`liquidity
      ensures Step(LedgerView(), r) == AddStep(old(LedgerView()), nextBlock, tx)
    {
      hide Debit, AddQuote, PoolDeposit, BookView, BridgeView, Availability, LiquidityUnits;
      var quoted := QuoteDeposit(tx);
      if quoted.Err? {
        return Rejected(quoted.error);
      }
      AddQuoteFacts(LedgerView(), tx, quoted.value);
      r := PayIn(tx.account, pools[tx.pool], tx.baseAmount, tx.quoteAmount);
      if r.Applied? {
        r := FillPool(tx, quoted.value);
      }
    }

    /** The LP units leave the position before its withdrawal counters are checked. */
    method WithdrawFromPosition(pool: Id, account: Id, lp: U64, base: U64, quote: U64) returns (r: Outcome)
      requires LpPositionId(pool, account) in positions && lp <= positions[LpPositionId(pool, account)].lp
      modifies this`positions
      ensures var id := LpPositionId(pool, account);
              var s := WithdrawPosition(old(positions)[id], pool, lp, base, quote, nextBlock);
              r == s.outcome && positions == old(positions)[id := s.state]
    {
      var id := LpPositionId(pool, account);
      var q := positions[id];
      q := q.(lp := q.lp - lp);
      positions := positions[id := q];
      if q.baseOut + base > MAX_U64 {
        return Rejected(PoolReserveOverflow(pool));
      }
      q := q.(baseOut := q.baseOut + base);
      positions := positions[id := q];
      if q.quoteOut + quote > MAX_U64 {
        return Rejected(PoolReserveOverflow(pool));
      }
      positions := positions[id := q.(quoteOut := q.quoteOut + quote, updatedAt := nextBlock)];
      r := Applied;
    }

    /** The checks of a withdrawal, none of which writes. */
    method QuoteWithdrawal(tx: Tx) returns (r: Result<(U64, U64), Error>)
      requires tx.RemoveLiquidity?
      ensures r == RemoveQuote(LedgerView(), tx)
    {
      hide Proportional;
      if tx.liquidity != LiquidityId(tx.pool, tx.account, Remove, tx.lp, tx.minBase, tx.minQuote) {
        return Err(IdMismatch(RemoveKind, tx.liquidity));
      }
      if tx.liquidity in liquidity {
        return Err(LiquidityAlreadyExists(tx.liquidity));
      }
      if tx.lp == 0 {
        return Err(TokenAmountMustBePositive(tx.liquidity));
      }
      if tx.pool !in pools {
        return Err(PoolMissing(tx.pool));
      }
      var p := pools[tx.pool];
      if p.lp == 0 {
        return Err(PoolReserveInsufficient(tx.pool));
      }
      var id := LpPositionId(tx.pool, tx.account);
      if id !in positions {
        return Err(PositionMissing(id));
      }
      if positions[id].lp < tx.lp {
        return Err(PositionInsufficient(id));
      }
      var base := Proportional(p.reserveBase, tx.lp, p.lp, tx.pool);
      if base.Err? {
        return Err(base.error);
      }
      var quote := Proportional(p.reserveQuote, tx.lp, p.lp, tx.pool);
      if quote.Err? {
        return Err(quote.error);
      }
      if base.value < tx.minBase || quote.value < tx.minQuote {
        return Err(LiquidityBelowMinimum(tx.liquidity));
      }
      r := Ok((base.value, quote.value));
    }

    /** The two credits of a withdrawal; the second is not tried when the first is refused. */
    method PayOut(account: Id, p: Pool, base: U64, quote: U64) returns (r: Outcome)
      modifies this`units, this`balances
      ensures var c1 := Credit(old(BookView()), nextBlock, account, p.base, base);
              var c2 := Credit(c1.state, nextBlock, account, p.quote, quote);
              && r == (if c1.outcome.Rejected? then c1.outcome else c2.outcome)
              && BookView() == (if c1.outcome.Rejected? then old(BookView()) else c2.state)
    {
      hide Credit, BookView;
      r := CreditAssetUnits(account, p.base, base);
      if r.Rejected? {
        UnpaidBook(old(BookView()), nextBlock, account, p.base, base);
        return;
      }
      r := CreditAssetUnits(account, p.quote, quote);
    }

    /** The position, then the pool of a withdrawal. */
    method DrainPool(tx: Tx, base: U64, quote: U64) returns (r: Outcome)
      requires tx.RemoveLiquidity? && tx.pool in pools && LpPositionId(tx.pool, tx.account) in positions
      requires tx.lp <= positions[LpPositionId(tx.pool, tx.account)].lp
      modifies this`pools, this`positions
      ensures Step(DexView(), r) == PoolWithdrawal(old(DexView()), nextBlock, tx, base, quote)
      ensures tx.pool in pools
    {
      hide WithdrawPosition;
      var p := pools[tx.pool];
      r := WithdrawFromPosition(tx.pool, tx.account, tx.lp, base, quote);
      if r.Rejected? {
        return;
      }
      if base > p.reserveBase || quote > p.reserveQuote {
        return Rejected(PoolReserveInsufficient(tx.pool));
      }
      var p' := p.(reserveBase := p.reserveBase - base, reserveQuote := p.reserveQuote - quote);
      pools := pools[tx.pool := p'];
      if tx.lp > p.lp {
        return Rejected(PoolReserveInsufficient(tx.pool));
      }
      p' := p'.(lp := p.lp - tx.lp, updatedAt := nextBlock, lastLiquidity := Some(tx.liquidity));
      PutTwice(old(pools), tx.pool, pools[tx.pool], p');
      pools := pools[tx.pool := p'];
    }

    method RemoveLiquidity(tx: Tx) returns (r: Outcome)
      requires tx.RemoveLiquidity?
      modifies this`units, this`balances, this`pools, this`positions, this`liquidity
      ensures Step(LedgerView(), r) == RemoveStep(old(LedgerView()), nextBlock, tx)
    {
      hide Credit, RemoveQuote, PoolWithdrawal, BookView, BridgeView, Proportional;
      var quoted := QuoteWithdrawal(tx);
      if quoted.Err? {
        return Rejected(quoted.error);
      }
      var base, quote := quoted.value.0, quoted.value.1;
      RemoveQuoteFacts(LedgerView(), tx, base, quote);
      var p := pools[tx.pool];
      r := DrainPool(tx, base, quote);
      if r.Rejected? {
        return;
      }
      r := PayOut(tx.account, p, base, quote);
      if r.Applied? {
        liquidity := liquidity[tx.liquidity :=
          LiquidityReceipt(tx.pool, tx.account, Remove, base, quote, tx.lp, p.reserveBase, p.reserveQuote,
                           pools[tx.pool].reserveBase, pools[tx.pool].reserveQuote, nextBlock)];
      }
    }

    /** The checks of a swap, none of which writes. */
    method QuoteSwap(tx: Tx) returns (r: Result<SwapPlan, Error>)
      requires tx.SwapExactIn?
      ensures r == SwapQuote(LedgerView(), tx)
    {
      hide Availability, SwapPlanFor;
      if tx.swap != SwapId(tx.pool, tx.account, tx.assetIn, tx.amount, tx.minOut) {
        return Err(IdMismatch(SwapKind, tx.swap));
      }
      if tx.swap in swaps {
        return Err(SwapAlreadyExists(tx.swap));
      }
      if tx.amount == 0 {
        return Err(TokenAmountMustBePositive(tx.swap));
      }
      if tx.pool !in pools {
        return Err(PoolMissing(tx.pool));
      }
      r := SwapPlanFor(pools[tx.pool], tx.pool, tx.assetIn, tx.amount);
      if r.Err? {
        return;
      }
      if r.value.out == 0 || r.value.out < tx.minOut {
        return Err(SwapSlippageExceeded(tx.swap));
      }
      var available := Availability(BookView(), tx.account, tx.assetIn, tx.amount);
      if available.Rejected? {
        return Err(available.error);
      }
    }

    /** The debit and the credit of a swap; the credit is not tried when the debit is refused. */
    method TradeUnits(account: Id, assetIn: Id, amount: U64, assetOut: Id, out: U64) returns (r: Outcome)
      modifies this`units, this`balances
      ensures var d := Debit(old(BookView()), nextBlock, account, assetIn, amount);
              var c := Credit(d.state, nextBlock, account, assetOut, out);
              && r == (if d.outcome.Rejected? then d.outcome else c.outcome)
              && BookView() == (if d.outcome.Rejected? then old(BookView()) else c.state)
    {
      hide Debit, Credit, BookView;
      r := DebitAssetUnits(account, assetIn, amount);
      if r.Rejected? {
        UndebitedBook(old(BookView()), nextBlock, account, assetIn, amount);
        return;
      }
      r := CreditAssetUnits(account, assetOut, out);
    }

    method SwapExactIn(tx: Tx) returns (r: Outcome)
      requires tx.SwapExactIn?
      modifies this`units, this`balances, this`pools, this`swaps
      ensures Step(LedgerView(), r) == SwapStep(old(LedgerView()), nextBlock, tx)
    {
      hide Debit, Credit, SwapQuote, BookView, BridgeView, Availability, SwapPlanFor;
      var quoted := QuoteSwap(tx);
      if quoted.Err? {
        return Rejected(quoted.error);
      }
      var plan := quoted.value;
      SwapQuoteFacts(LedgerView(), tx, plan);
      var p := pools[tx.pool];
      r := TradeUnits(tx.account, tx.assetIn, tx.amount, plan.assetOut, plan.out);
      if r.Rejected? {
        return;
      }
      pools := pools[tx.pool := p.(reserveBase := plan.base, reserveQuote := plan.quote, updatedAt := nextBlock,
                                   lastSwap := Some(tx.swap))];
      swaps := swaps[tx.swap :=
        SwapReceipt(tx.pool, tx.account, tx.assetIn, plan.assetOut, tx.amount, plan.out,
                    p.reserveBase, p.reserveQuote, plan.base, plan.quote, nextBlock)];
    }

    // ----- bridge -----

    method MapAsset(tx: Tx) returns (r: Outcome)
      requires tx.MapBridgeAsset?
      modifies this`assets
      ensures Step(LedgerView(), r) == MapAssetStep(old(LedgerView()), nextBlock, tx)
    {
      hide AssetExists;
      if !ValidMode(tx.localOnly, tx.productionReady) {
        return Rejected(InvalidRuntimeMode(tx.mapping));
      }
      if tx.mapping != AssetMappingId(tx.chain, tx.sourceToken, tx.asset) {
        return Rejected(IdMismatch(AssetMappingKind, tx.mapping));
      }
      if tx.mapping in assets {
        return Rejected(AssetMappingAlreadyExists(tx.mapping));
      }
      if !AssetExists(BookView(), tx.asset) {
        return Rejected(TokenMissing(tx.asset));
      }
      assets := assets[tx.mapping :=
        AssetMapping(tx.chain, tx.sourceToken, tx.asset, nextBlock, tx.localOnly, tx.productionReady)];
      r := Applied;
    }

    method MapAccount(tx: Tx) returns (r: Outcome)
      requires tx.MapBridgeAccount?
      modifies this`accounts
      ensures Step(LedgerView(), r) == MapAccountStep(old(LedgerView()), nextBlock, tx)
    {
      if !ValidMode(tx.localOnly, tx.productionReady) {
        return Rejected(InvalidRuntimeMode(tx.mapping));
      }
      if tx.mapping != AccountMappingId(tx.recipient, tx.account) {
        return Rejected(IdMismatch(AccountMappingKind, tx.mapping));
      }
      if tx.mapping in accounts {
        return Rejected(AccountMappingAlreadyExists(tx.mapping));
      }
      accounts := accounts[tx.mapping :=
        AccountMapping(tx.recipient, tx.account, tx.owner, nextBlock, tx.localOnly, tx.productionReady)];
      r := Applied;
    }

    /** `mark_asset_balance_value_bearing` */
    method MarkBalance(account: Id, asset: Id)
      modifies this`units, this`balances
      ensures BookView() == MarkValueBearing(old(BookView()), account, asset)
    {
      if asset == LocalUnit {
        if account in units {
          units := units[account := units[account].(noValue := false)];
        }
      } else {
        var id := TokenBalanceId(asset, account);
        if id in balances {
          balances := balances[id := balances[id].(noValue := false)];
        }
      }
    }

    /** The checks of a bridge credit, none of which writes. */
    method QuoteCredit(tx: Tx) returns (r: Outcome)
      requires tx.CreditBridge?
      ensures r == CreditQuote(LedgerView(), tx)
    {
      hide CreditForm;
      r := CreditForm(tx);
      if r.Rejected? {
        return;
      }
      if tx.replay in replays {
        return Rejected(ReplayAlreadyConsumed(tx.replay));
      }
      if tx.credit in credits || tx.receipt in creditReceipts {
        return Rejected(CreditAlreadyExists(tx.credit));
      }
      if EventKeyOf(tx.event) in events {
        return Rejected(EventAlreadyConsumed(EventKeyOf(tx.event)));
      }
      r := Mapped(LedgerView(), tx);
    }

    /** The credit, its receipt, the replay index and the event index. */
    method RecordCredit(tx: Tx, owner: string)
      requires tx.CreditBridge?
      modifies this`credits, this`creditReceipts, this`replays, this`events
      ensures BridgeView() == Consume(old(BridgeView()), nextBlock, tx, owner)
    {
      credits := credits[tx.credit :=
        BridgeCredit(tx.receipt, tx.account, owner, tx.recipient, tx.asset, tx.sourceToken, tx.amount,
                     tx.event, tx.observation, tx.replay, tx.memo, nextBlock, tx.localOnly, tx.productionReady,
                     tx.confirmation, tx.cap)];
      creditReceipts := creditReceipts[tx.receipt :=
        CreditReceipt(tx.credit, tx.account, tx.asset, tx.amount, tx.event, tx.replay, nextBlock,
                      tx.localOnly, tx.productionReady, tx.confirmation, tx.cap)];
      replays := replays[tx.replay := ReplayRecord(tx.credit, tx.receipt, tx.event, nextBlock)];
      events := events[EventKeyOf(tx.event) := tx.receipt];
    }

    method CreditBridge(tx: Tx) returns (r: Outcome)
      requires tx.CreditBridge?
      modifies this`units, this`balances, this`credits, this`creditReceipts, this`replays, this`events
      ensures Step(LedgerView(), r) == CreditStep(old(LedgerView()), nextBlock, tx)
    {
      hide CreditQuote, Credit, MarkValueBearing, Consume, BookView, DexView;
      r := QuoteCredit(tx);
      if r.Rejected? {
        return;
      }
      QuotedAccount(LedgerView(), tx);
      var owner := accounts[AccountMappingId(tx.recipient, tx.account)].owner;
      r := CreditAssetUnits(tx.account, tx.asset, tx.amount);
      if r.Rejected? {
        UnpaidBook(old(BookView()), nextBlock, tx.account, tx.asset, tx.amount);
        return;
      }
      if IsLive(tx.localOnly, tx.productionReady) {
        MarkBalance(tx.account, tx.asset);
      }
      RecordCredit(tx, owner);
    }

    // ----- work -----

    method Register(tx: Tx) returns (r: Outcome)
      requires IsRegistryTx(tx)
      modifies this`rootfields, this`agents, this`passports, this`modules
      ensures Step(RegistryView(), r) == RegistryStep(old(RegistryView()), tx)
    {
      match tx {
        case RegisterRootfield(id, body) =>
          if id in rootfields {
            return Rejected(RootfieldAlreadyExists(id));
          }
          rootfields := rootfields[id := Rootfield(body, None, 1, 0, true)];
        case RegisterAgent(id, passportOf, body) =>
          if id in agents {
            return Rejected(AgentAlreadyExists(id));
          }
          if passportOf.Some? && passportOf.value !in passports {
            return Rejected(PassportMissing(passportOf.value));
          }
          agents := agents[id := Agent(body, passportOf, None, true)];
        case RegisterPassport(id, body) =>
          if id in passports {
            return Rejected(PassportAlreadyExists(id));
          }
          passports := passports[id := body];
        case RegisterModule(id, body) =>
          if id in modules {
            return Rejected(ModuleAlreadyExists(id));
          }
          modules := modules[id := VerifierModule(body, true)];
        case CommitRoot(id, root) =>
          r := RootfieldCheck(RegistryView(), id);
          if r.Rejected? {
            return;
          }
          var f := rootfields[id];
          rootfields := rootfields[id := f.(latest := Some(root), pulses := f.pulses + 1, roots := f.roots + 1)];
      }
      r := Applied;
    }

    method SubmitArtifact(tx: Tx) returns (r: Outcome)
      requires tx.SubmitArtifact? || tx.MarkAvailability?
      modifies this`artifacts, this`availability
      ensures Step(WorkView(), r) == ArtifactStep(old(WorkView()), nextBlock, tx)
    {
      hide RootfieldCheck, DocketView, ImportsView, RegistryView;
      r := RootfieldCheck(RegistryView(), tx.rootfield);
      if r.Rejected? {
        return;
      }
      if tx.SubmitArtifact? {
        if tx.artifact in artifacts {
          return Rejected(ArtifactAlreadyExists(tx.artifact));
        }
        artifacts := artifacts[tx.artifact := Artifact(tx.rootfield, tx.commitment, tx.body)];
      } else {
        if tx.proof in availability {
          return Rejected(AvailabilityAlreadyExists(tx.proof));
        }
        if tx.artifact !in artifacts {
          return Rejected(ArtifactMissing(tx.artifact));
        }
        var a := artifacts[tx.artifact];
        if a.rootfield != tx.rootfield {
          return Rejected(ArtifactRootfieldMismatch(tx.artifact));
        }
        availability := availability[tx.proof :=
          AvailabilityProof(tx.artifact, tx.rootfield, a.commitment, tx.body, nextBlock)];
      }
    }

    method UpdateMemory(tx: Tx) returns (r: Outcome)
      requires tx.UpdateMemory?
      modifies this`memory, this`agents
      ensures Step(WorkView(), r) == MemoryStep(old(WorkView()), nextBlock, tx)
    {
      hide RootfieldCheck, AcceptanceCheck, ImportsView;
      r := RootfieldCheck(RegistryView(), tx.rootfield);
      if r.Rejected? {
        return;
      }
      if tx.agent !in agents {
        return Rejected(AgentMissing(tx.agent));
      }
      if !agents[tx.agent].active {
        return Rejected(AgentInactive(tx.agent));
      }
      if tx.receipt !in receipts {
        return Rejected(WorkReceiptMissing(tx.receipt));
      }
      if receipts[tx.receipt].rootfield != tx.rootfield {
        return Rejected(WorkReceiptRootfieldMismatch(tx.receipt));
      }
      r := AcceptanceCheck(reports, tx.receipt);
      if r.Rejected? {
        return;
      }
      var parent, updates := None, 1;
      if tx.cell in memory {
        var cell := memory[tx.cell];
        if cell.agent != tx.agent || cell.rootfield != tx.rootfield {
          return Rejected(MemoryOwnershipMismatch(tx.cell));
        }
        parent, updates := Some(cell.current), cell.updates + 1;
      }
      memory := memory[tx.cell :=
        MemoryCell(tx.agent, tx.rootfield, tx.root, parent, tx.receipt, tx.body, updates, nextBlock)];
      agents := agents[tx.agent := agents[tx.agent].(memoryRoot := Some(tx.root))];
    }

    method SubmitWork(tx: Tx) returns (r: Outcome)
      requires tx.SubmitWork?
      modifies this`receipts
      ensures Step(WorkView(), r) == SubmitWorkStep(old(WorkView()), tx)
    {
      hide RootfieldCheck, RegistryView, ImportsView;
      r := RootfieldCheck(RegistryView(), tx.rootfield);
      if r.Rejected? {
        return;
      }
      if !exists k :: k in artifacts && artifacts[k].rootfield == tx.rootfield && artifacts[k].commitment == tx.commitment {
        return Rejected(CommitmentMissing(tx.commitment));
      }
      if tx.receipt in receipts {
        return Rejected(WorkReceiptAlreadyExists(tx.receipt));
      }
      receipts := receipts[tx.receipt := WorkReceipt(tx.rootfield, tx.commitment, tx.body)];
    }

    method SubmitReport(tx: Tx) returns (r: Outcome)
      requires tx.SubmitReport?
      modifies this`reports
      ensures Step(WorkView(), r) == ReportStep(old(WorkView()), tx)
    {
      hide RootfieldCheck, LibraryView, ImportsView;
      r := RootfieldCheck(RegistryView(), tx.rootfield);
      if r.Rejected? {
        return;
      }
      if tx.verifier !in modules {
        return Rejected(ModuleMissing(tx.verifier));
      }
      if !modules[tx.verifier].active {
        return Rejected(ModuleInactive(tx.verifier));
      }
      if tx.receipt !in receipts {
        return Rejected(WorkReceiptMissing(tx.receipt));
      }
      if receipts[tx.receipt].rootfield != tx.rootfield {
        return Rejected(WorkReceiptRootfieldMismatch(tx.receipt));
      }
      if tx.report in reports {
        return Rejected(ReportAlreadyExists(tx.report));
      }
      reports := reports[tx.report := VerifierReport(tx.rootfield, tx.receipt, tx.verifier, tx.status, tx.body)];
    }

    method OpenOrResolve(tx: Tx) returns (r: Outcome)
      requires tx.OpenChallenge? || tx.ResolveChallenge?
      modifies this`challenges
      ensures Step(DocketView(), r) ==
              if tx.OpenChallenge? then OpenStep(old(DocketView()), nextBlock, tx)
              else ResolveStep(old(DocketView()), nextBlock, tx)
    {
      hide IsFinalized;
      if tx.OpenChallenge? {
        if tx.challenge in challenges {
          return Rejected(ChallengeAlreadyExists(tx.challenge));
        }
        if tx.receipt !in receipts {
          return Rejected(WorkReceiptMissing(tx.receipt));
        }
        if IsFinalized(finality, tx.receipt) {
          return Rejected(WorkReceiptAlreadyFinalized(tx.receipt));
        }
        challenges := challenges[tx.challenge := Challenge(tx.receipt, tx.body, Open, nextBlock)];
      } else {
        if tx.challenge !in challenges {
          return Rejected(ChallengeMissing(tx.challenge));
        }
        if !challenges[tx.challenge].status.Open? {
          return Rejected(ChallengeAlreadyResolved(tx.challenge));
        }
        challenges := challenges[tx.challenge := challenges[tx.challenge].(status := Resolved(tx.resolution, nextBlock))];
      }
      r := Applied;
    }

    method FinalizeWork(tx: Tx) returns (r: Outcome)
      requires tx.FinalizeWork?
      modifies this`finality
      ensures Step(DocketView(), r) == FinalizeStep(old(DocketView()), nextBlock, StateRoot(old(CoreView())), tx)
    {
      hide IsFinalityStatus, AcceptanceCheck, HasOpenChallenge, IsFinalized, ChallengesOn, CoreView;
      if !IsFinalityStatus(tx.status) {
        return Rejected(InvalidFinalityStatus(tx.status));
      }
      if tx.finality in finality {
        return Rejected(FinalityAlreadyExists(tx.finality));
      }
      if tx.receipt !in receipts {
        return Rejected(WorkReceiptMissing(tx.receipt));
      }
      r := AcceptanceCheck(reports, tx.receipt);
      if r.Rejected? {
        return;
      }
      if HasOpenChallenge(challenges, tx.receipt) {
        return Rejected(ChallengeUnresolved(tx.receipt));
      }
      if IsFinalized(finality, tx.receipt) {
        return Rejected(WorkReceiptAlreadyFinalized(tx.receipt));
      }
      finality := finality[tx.finality :=
        FinalityReceipt(tx.receipt, receipts[tx.receipt].rootfield, tx.finalizer, tx.status,
                        |ChallengesOn(challenges, tx.receipt)|, nextBlock, StateRoot(CoreView()))];
    }

    method Import(tx: Tx) returns (r: Outcome)
      requires tx.ImportObservation? || tx.ImportReport?
      modifies this`observations, this`importedReports
      ensures Step(ImportsView(), r) == ImportStep(old(ImportsView()), tx)
    {
      hide IsFlowPulseTopic;
      match tx {
        case ImportObservation(id, signature, body) =>
          if !IsFlowPulseTopic(signature) {
            return Rejected(InvalidEventSignature(signature));
          }
          if id in observations {
            return Rejected(ObservationAlreadyExists(id));
          }
          observations := observations[id := Observation(signature, body)];
        case ImportReport(id, body) =>
          if id in importedReports {
            return Rejected(ImportedReportAlreadyExists(id));
          }
          importedReports := importedReports[id := body];
      }
      r := Applied;
    }

    method AnchorBatch(tx: Tx) returns (r: Outcome)
      requires tx.AnchorBatch?
      modifies this`anchors
      ensures Step(CoreView(), r) == AnchorStep(old(CoreView()), EnvView(), tx)
    {
      hide LedgerView, WorkView;
      var first, last := 0, 0;
      if blocks != [] {
        first, last := blocks[0].number, blocks[|blocks| - 1].number;
      }
      var root := StateRoot(CoreView());
      var id := AnchorDigest(tx.chainId, first, last, root, tx.status);
      if id in anchors {
        return Rejected(AnchorAlreadyExists);
      }
      anchors := anchors[id := Anchor(tx.chainId, first, last, root, tx.status)];
      r := Applied;
    }

    // ----- transactions and blocks -----

    method ApplyBookTransaction(tx: Tx) returns (r: Outcome)
      requires IsBookTx(tx)
      modifies this`units, this`balances, this`tokens, this`faucets, this`transfers, this`mints
      ensures Step(BookView(), r) == BookStep(old(BookView()), nextBlock, tx)
    {
      hide BookView, CreateBalanceStep, FaucetStep, TransferStep, LaunchStep, MintStep;
      if tx.CreateBalance? {
        r := CreateBalance(tx);
      } else if tx.Faucet? {
        r := Faucet(tx);
      } else if tx.Transfer? {
        r := Transfer(tx);
      } else if tx.LaunchToken? {
        r := LaunchToken(tx);
      } else {
        r := MintToken(tx);
      }
    }

    method ApplyLedgerTransaction(tx: Tx) returns (r: Outcome)
      requires IsLedgerTx(tx)
      modifies this`units, this`balances, this`tokens, this`faucets, this`transfers, this`mints
      modifies this`pools, this`positions, this`liquidity, this`swaps
      modifies this`assets, this`accounts, this`credits, this`creditReceipts, this`replays, this`events
      ensures Step(LedgerView(), r) == LedgerStep(old(LedgerView()), nextBlock, tx)
    {
      hide BookView, DexView, BridgeView, BookStep, CreatePoolStep, AddStep, RemoveStep, SwapStep, MapAssetStep,
           MapAccountStep, CreditStep;
      if IsBookTx(tx) {
        r := ApplyBookTransaction(tx);
      } else if tx.CreatePool? {
        r := CreatePool(tx);
      } else if tx.AddLiquidity? {
        r := AddLiquidity(tx);
      } else if tx.RemoveLiquidity? {
        r := RemoveLiquidity(tx);
      } else if tx.SwapExactIn? {
        r := SwapExactIn(tx);
      } else if tx.MapBridgeAsset? {
        r := MapAsset(tx);
      } else if tx.MapBridgeAccount? {
        r := MapAccount(tx);
      } else {
        r := CreditBridge(tx);
      }
    }

    method ApplyWorkTransaction(tx: Tx) returns (r: Outcome)
      requires IsWorkTx(tx)
      modifies this`rootfields, this`agents, this`passports, this`modules, this`artifacts, this`availability, this`memory
      modifies this`receipts, this`reports, this`challenges, this`finality, this`observations, this`importedReports
      ensures Step(WorkView(), r) == WorkStep(old(WorkView()), nextBlock, StateRoot(old(CoreView())), tx)
    {
      hide RegistryView, LibraryView, DocketView, ImportsView, CoreView, RegistryStep, ArtifactStep, MemoryStep,
           SubmitWorkStep, ReportStep, OpenStep, ResolveStep, FinalizeStep, ImportStep;
      if IsRegistryTx(tx) {
        r := Register(tx);
      } else if tx.OpenChallenge? || tx.ResolveChallenge? {
        r := OpenOrResolve(tx);
      } else if tx.FinalizeWork? {
        r := FinalizeWork(tx);
      } else if tx.ImportObservation? || tx.ImportReport? {
        r := Import(tx);
      } else if tx.UpdateMemory? {
        r := UpdateMemory(tx);
      } else if tx.SubmitWork? {
        r := SubmitWork(tx);
      } else if tx.SubmitReport? {
        r := SubmitReport(tx);
      } else {
        r := SubmitArtifact(tx);
      }
    }

    /** `apply_transaction` */
    method ApplyTransaction(tx: Tx) returns (r: Outcome)
      modifies this
      ensures Step(CoreView(), r) == Apply(old(CoreView()), EnvView(), tx)
      ensures unchanged(this`nextBlock, this`time, this`parent, this`blocks, this`pending)
    {
      hide LedgerStep, WorkStep, AnchorStep, LedgerView, WorkView;
      if IsLedgerTx(tx) {
        r := ApplyLedgerTransaction(tx);
      } else if tx.AnchorBatch? {
        r := AnchorBatch(tx);
      } else {
        r := ApplyWorkTransaction(tx);
      }
    }

    /** `queue_transaction` and `queue_authorized_transaction`: returns the transaction id. */
    method QueueTransaction(tx: Tx, signer: Option<string>) returns (id: Digest)
      modifies this`pending
      ensures View() == Queue(old(View()), tx, signer) && id == TxDigest(tx)
    {
      id := TxDigest(tx);
      pending := pending + [Envelope(id, tx, signer)];
    }

    /** Applies a batch in order and keeps going whatever each outcome is. */
    method ApplyBatch(txs: seq<Envelope>) returns (txIds: seq<Digest>, sealed: seq<BlockReceipt>)
      modifies this
      ensures var events := EventsOf(EnvView(), txs);
              && CoreView() == Run(old(CoreView()), events)
              && sealed == ReceiptsOf(txs, Outcomes(old(CoreView()), events)) && txIds == TxIdsOf(txs)
      ensures unchanged(this`nextBlock, this`time, this`parent, this`blocks, this`pending)
    {
      hide Apply, CoreView, Run, Outcomes, EventsOf, ReceiptsOf, TxIdsOf;
      sealed, txIds := [], [];
      ghost var env := EnvView();
      ghost var core := CoreView();
      NoneYet(core, env);
      assert txs[..0] == [];
      for i := 0 to |txs|
        invariant CoreView() == Run(core, EventsOf(env, txs[..i]))
        invariant sealed == ReceiptsOf(txs[..i], Outcomes(core, EventsOf(env, txs[..i])))
        invariant txIds == TxIdsOf(txs[..i])
        invariant unchanged(this`nextBlock, this`time, this`parent, this`blocks, this`pending)
      {
        txIds := txIds + [txs[i].txId];
        var r := ApplyTransaction(txs[i].tx);
        sealed := sealed + [BlockReceipt(txs[i].txId, r, txs[i].signer)];
        OneMore(core, env, txs, i);
      }
      assert txs[..|txs|] == txs;
    }

    /** Links a block to the chain. */
    method Append(block: Block)
      modifies this`nextBlock, this`time, this`parent, this`blocks
      ensures View() == Chain(old(CoreView()), old(nextBlock) + 1, old(time) + 1, block.hash, old(blocks) + [block], pending)
    {
      hide CoreView;
      nextBlock := nextBlock + 1;
      time := time + 1;
      parent := block.hash;
      blocks := blocks + [block];
    }

    /** `build_block`: drains the queue into one block and links it to the chain. */
    method BuildBlock() returns (block: Block)
      modifies this
      ensures View() == Build(old(View())) && block == SealedBlock(old(View()))
    {
      hide CoreView, Apply, Run, Outcomes, EventsOf, ReceiptsOf, TxIdsOf, Seal;
      var txs := pending;
      pending := [];
      var txIds, sealed := ApplyBatch(txs);
      block := Seal(nextBlock, parent, time, txIds, sealed, StateRoot(CoreView()));
      Append(block);
    }

    /** `build_blocks`: refuses a count of zero, else builds that many blocks and returns them in order. */
    method BuildBlocks(count: nat) returns (produced: Option<seq<Block>>)
      modifies this
      ensures View() == BuildTimes(old(View()), count)
      ensures produced.None? <==> count == 0
      ensures produced.Some? ==> |produced.value| == count && blocks == old(blocks) + produced.value
    {
      hide CoreView, BuildTimes, SealedBlock, Run, EventsOf;
      NoBlocks(View());
      if count == 0 {
        return None;
      }
      var made: seq<Block> := [];
      for i := 0 to count
        invariant View() == BuildTimes(old(View()), i) && |made| == i && blocks == old(blocks) + made
      {
        OneMoreBlock(old(View()), i);
        var block := BuildBlock();
        made := made + [block];
      }
      produced := Some(made);
    }
  }

  /** A number of blocks, the first draining the queue and the rest empty. */
  function BuildTimes(ch: Chain, n: nat): Chain {
    if n == 0 then ch else Build(BuildTimes(ch, n - 1))
  }

  lemma NoBlocks(ch: Chain)
    ensures BuildTimes(ch, 0) == ch
  {
  }

  lemma OneMoreBlock(ch: Chain, n: nat)
    ensures BuildTimes(ch, n + 1) == Build(BuildTimes(ch, n))
  {
  }

  lemma PutTwice<V>(m: map<Id, V>, k: Id, v: V, w: V)
    ensures m[k := v][k := w] == m[k := w]
  {
  }

  lemma UnpaidBook(b: Book, now: nat, account: Id, asset: Id, amount: U64)
    requires Credit(b, now, account, asset, amount).outcome.Rejected?
    ensures Credit(b, now, account, asset, amount).state == b
  {
  }

  lemma UndebitedBook(b: Book, now: nat, account: Id, asset: Id, amount: U64)
    requires Debit(b, now, account, asset, amount).outcome.Rejected?
    ensures Debit(b, now, account, asset, amount).state == b
  {
  }

  lemma QuotedAccount(l: Ledger, tx: Tx)
    requires tx.CreditBridge? && CreditQuote(l, tx).Applied?
    ensures AccountMappingId(tx.recipient, tx.account) in l.bridge.mappings.accounts
  {
    hide CreditForm, Unconsumed;
  }

  lemma NoneYet(core: Core, env: Env)
    ensures Run(core, EventsOf(env, [])) == core && Outcomes(core, EventsOf(env, [])) == []
    ensures ReceiptsOf([], []) == [] && TxIdsOf([]) == []
  {
  }

  /** One more transaction of a batch. */
  lemma OneMore(core: Core, env: Env, txs: seq<Envelope>, i: nat)
    requires i < |txs|
    ensures var c := Run(core, EventsOf(env, txs[..i]));
            var s := Apply(c, env, txs[i].tx);
            && Run(core, EventsOf(env, txs[..i + 1])) == s.state
            && Outcomes(core, EventsOf(env, txs[..i + 1])) == Outcomes(core, EventsOf(env, txs[..i])) + [s.outcome]
            && TxIdsOf(txs[..i + 1]) == TxIdsOf(txs[..i]) + [txs[i].txId]
            && ReceiptsOf(txs[..i + 1], Outcomes(core, EventsOf(env, txs[..i + 1]))) ==
               ReceiptsOf(txs[..i], Outcomes(core, EventsOf(env, txs[..i]))) + [BlockReceipt(txs[i].txId, s.outcome, txs[i].signer)]
  {
    hide Apply;
    var last := [Event(env, txs[i].tx)];
    assert EventsOf(env, txs[..i + 1]) == EventsOf(env, txs[..i]) + last;
    RunAppend(core, EventsOf(env, txs[..i]), last);
  }
}
