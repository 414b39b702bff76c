/** What each exchange operation does to a sound ledger, outcome by outcome. */
module DexFacts {
  import opened Prelude
  import opened Ids
  import opened Records
  import opened Accounts
  import opened BookFacts
  import opened PoolMath
  import opened Exchange

  // ----- the invariant -----

  function SharesIn(pool: Id): Position -> nat {
    (r: Position) => if r.pool == pool then r.lp else 0
  }

  ghost predicate KnownAsset(asset: Id, tokens: set<Id>) {
    asset == LocalUnit || asset in tokens
  }

  /** A pool is filed under its pair of distinct, existing assets. */
  ghost predicate PoolKeys(pools: map<Id, Pool>, tokens: set<Id>) {
    forall p :: p in pools ==>
      && p == PoolId(pools[p].base, pools[p].quote) && pools[p].base != pools[p].quote
      && KnownAsset(pools[p].base, tokens) && KnownAsset(pools[p].quote, tokens)
  }

  ghost predicate PoolsHealthy(pools: map<Id, Pool>) {
    forall p :: p in pools ==> Healthy(pools[p].reserveBase, pools[p].reserveQuote, pools[p].lp)
  }

  ghost predicate PositionKeys(positions: map<Id, Position>, pools: set<Id>, accounts: set<Id>) {
    forall id :: id in positions ==>
      && id == LpPositionId(positions[id].pool, positions[id].owner)
      && positions[id].pool in pools && positions[id].owner in accounts
  }

  /** A pool's LP supply covers the positions in it. */
  ghost predicate SharesCovered(pools: map<Id, Pool>, positions: map<Id, Position>) {
    forall p :: p in pools ==> Sum(positions, SharesIn(p)) <= pools[p].lp
  }

  ghost predicate DexOk(l: Ledger) {
    && PoolKeys(l.dex.pools, l.book.tokens.Keys) && PoolsHealthy(l.dex.pools)
    && PositionKeys(l.dex.positions, l.dex.pools.Keys, l.book.held.units.Keys)
    && SharesCovered(l.dex.pools, l.dex.positions)
  }

  lemma SharesPut(m: map<Id, Position>, k: Id, r: Position, pool: Id)
    ensures Sum(m[k := r], SharesIn(pool)) + (if k in m && m[k].pool == pool then m[k].lp else 0) ==
            Sum(m, SharesIn(pool)) + (if r.pool == pool then r.lp else 0)
  {
    SumPut(m, k, r, SharesIn(pool));
  }

  /** Changing one position by no more than its pool's supply keeps every pool covered. */
  lemma SharesStayCovered(pools: map<Id, Pool>, positions: map<Id, Position>, pool: Id, p: Pool, id: Id, r: Position)
    requires SharesCovered(pools, positions) && pool in pools && r.pool == pool
    requires id in positions ==> positions[id].pool == pool
    requires r.lp - (if id in positions then positions[id].lp else 0) <= p.lp - pools[pool].lp
    ensures SharesCovered(pools[pool := p], positions[id := r])
  {
    forall x | x in pools[pool := p]
      ensures Sum(positions[id := r], SharesIn(x)) <= pools[pool := p][x].lp
    {
      SharesPut(positions, id, r, x);
    }
  }

  /** No position exceeds its pool's supply. */
  lemma PositionWithinSupply(l: Ledger, id: Id)
    requires DexOk(l) && id in l.dex.positions
    ensures l.dex.positions[id].pool in l.dex.pools
    ensures l.dex.positions[id].lp <= l.dex.pools[l.dex.positions[id].pool].lp
  {
    SumAtLeast(l.dex.positions, id, SharesIn(l.dex.positions[id].pool));
  }

  lemma PoolFacts(l: Ledger, pool: Id)
    requires DexOk(l) && pool in l.dex.pools
    ensures var p := l.dex.pools[pool];
            && p.base != p.quote && AssetExists(l.book, p.base) && AssetExists(l.book, p.quote)
            && Healthy(p.reserveBase, p.reserveQuote, p.lp)
  {
  }

  /** The exchange stays sound when only held units move. */
  lemma DexOkUnmoved(l: Ledger, l': Ledger)
    requires DexOk(l) && l'.dex == l.dex && OnlyUnitsMoved(l.book, l'.book)
    ensures DexOk(l')
  {
  }

  // ----- adding -----

  /** What a quoted deposit has established. */
  lemma AddQuoteFacts(l: Ledger, tx: Tx, lp: U64)
    requires tx.AddLiquidity? && AddQuote(l, tx) == Ok(lp)
    ensures tx.liquidity !in l.dex.log.liquidity && tx.pool in l.dex.pools
    ensures 0 < tx.baseAmount && 0 < tx.quoteAmount && 0 < lp && tx.minLp <= lp
    ensures var p := l.dex.pools[tx.pool];
            && LiquidityUnits(tx.pool, p.reserveBase, p.reserveQuote, p.lp, tx.baseAmount, tx.quoteAmount) == Ok(lp)
            && Availability(l.book, tx.account, p.base, tx.baseAmount).Applied?
            && Availability(l.book, tx.account, p.quote, tx.quoteAmount).Applied?
  {
  }

  /** The book after both debits of a deposit. */
  function PaidIn(b: Book, now: nat, account: Id, p: Pool, base: U64, quote: U64): Book {
    Debit(Debit(b, now, account, p.base, base).state, now, account, p.quote, quote).state
  }

  /** Holding a positive amount of two distinct assets means holding an account. */
  lemma HolderHasAccount(b: Book, account: Id, asset: Id, amount: U64)
    requires BookOk(b) && amount > 0 && Availability(b, account, asset, amount).Applied?
    ensures account in b.held.units && AssetExists(b, asset) && Holding(b, account, asset) >= amount
  {
  }

  lemma PaidInFacts(b: Book, now: nat, account: Id, p: Pool, base: U64, quote: U64)
    requires BookOk(b) && p.base != p.quote && base > 0 && quote > 0
    requires Availability(b, account, p.base, base).Applied? && Availability(b, account, p.quote, quote).Applied?
    ensures var d := Debit(b, now, account, p.base, base);
            d.outcome.Applied? && Debit(d.state, now, account, p.quote, quote).outcome.Applied?
    ensures BookOk(PaidIn(b, now, account, p, base, quote))
    ensures OnlyUnitsMoved(b, PaidIn(b, now, account, p, base, quote))
    ensures account in b.held.units
  {
    HolderHasAccount(b, account, p.base, base);
    HolderHasAccount(b, account, p.quote, quote);
    DebitDecides(b, now, account, p.base, base);
    DebitFacts(b, now, account, p.base, base);
    var b1 := Debit(b, now, account, p.base, base).state;
    DebitHoldings(b, now, account, p.base, base, account, p.quote);
    DebitDecides(b1, now, account, p.quote, quote);
    DebitFacts(b1, now, account, p.quote, quote);
  }

  lemma PaidInTotal(b: Book, now: nat, account: Id, p: Pool, base: U64, quote: U64, a: Id)
    requires BookOk(b) && p.base != p.quote && base > 0 && quote > 0
    requires Availability(b, account, p.base, base).Applied? && Availability(b, account, p.quote, quote).Applied?
    ensures InAccounts(PaidIn(b, now, account, p, base, quote), a) ==
            InAccounts(b, a) - (if a == p.base then base else 0) - (if a == p.quote then quote else 0)
  {
    PaidInFacts(b, now, account, p, base, quote);
    DebitFacts(b, now, account, p.base, base);
    DebitTotal(b, now, account, p.base, base, a);
    DebitTotal(Debit(b, now, account, p.base, base).state, now, account, p.quote, quote, a);
  }

  /** The reserves cannot take the deposit. */
  predicate ReserveOverflows(l: Ledger, tx: Tx)
    requires tx.AddLiquidity? && tx.pool in l.dex.pools
  {
    || l.dex.pools[tx.pool].reserveBase + tx.baseAmount > MAX_U64
    || l.dex.pools[tx.pool].reserveQuote + tx.quoteAmount > MAX_U64
  }

  /** A cumulative deposit counter of the provider's position cannot take the deposit. */
  predicate DepositCounterOverflows(l: Ledger, tx: Tx)
    requires tx.AddLiquidity?
  {
    var id := LpPositionId(tx.pool, tx.account);
    id in l.dex.positions &&
    (l.dex.positions[id].baseIn + tx.baseAmount > MAX_U64 || l.dex.positions[id].quoteIn + tx.quoteAmount > MAX_U64)
  }

  /** The pool a deposit leaves. */
  function Deposited(p: Pool, now: nat, tx: Tx, lp: U64): Pool
    requires tx.AddLiquidity?
    requires p.reserveBase + tx.baseAmount <= MAX_U64 && p.reserveQuote + tx.quoteAmount <= MAX_U64
    requires p.lp + lp <= MAX_U64
  {
    p.(reserveBase := p.reserveBase + tx.baseAmount, reserveQuote := p.reserveQuote + tx.quoteAmount,
       lp := p.lp + lp, updatedAt := now, lastLiquidity := Some(tx.liquidity))
  }

  /** Once both reserves fit, the LP supply and the provider's LP units fit as well. */
  lemma DepositFits(l: Ledger, now: nat, tx: Tx, lp: U64)
    requires DexOk(l) && tx.AddLiquidity? && AddQuote(l, tx) == Ok(lp) && !ReserveOverflows(l, tx)
    ensures l.dex.pools[tx.pool].lp + lp <= MAX_U64
    ensures PositionOf(l.dex, tx.pool, tx.account, now).lp + lp <= MAX_U64
  {
    hide AddQuote, LiquidityUnits, Healthy;
    AddQuoteFacts(l, tx, lp);
    PoolFacts(l, tx.pool);
    var p := l.dex.pools[tx.pool];
    DepositHealthy(tx.pool, p.reserveBase, p.reserveQuote, p.lp, tx.baseAmount, tx.quoteAmount, lp);
    SupplyInRange(p.reserveBase + tx.baseAmount, p.reserveQuote + tx.quoteAmount, p.lp + lp);
    if LpPositionId(tx.pool, tx.account) in l.dex.positions {
      PositionWithinSupply(l, LpPositionId(tx.pool, tx.account));
    }
  }

  lemma AddOverflowOutcome(l: Ledger, now: nat, tx: Tx, lp: U64)
    requires BookOk(l.book) && DexOk(l) && tx.AddLiquidity? && AddQuote(l, tx) == Ok(lp)
    requires ReserveOverflows(l, tx)
    ensures var s := AddStep(l, now, tx);
            && s.state.book == PaidIn(l.book, now, tx.account, l.dex.pools[tx.pool], tx.baseAmount, tx.quoteAmount)
            && s.state.dex == l.dex && s.state.bridge == l.bridge && s.outcome == Rejected(PoolReserveOverflow(tx.pool))
  {
    hide AddQuote;
    AddQuoteFacts(l, tx, lp);
    PaidInFacts(l.book, now, tx.account, l.dex.pools[tx.pool], tx.baseAmount, tx.quoteAmount);
  }

  /** The position a deposit leaves, whether or not a counter overflowed. */
  function DepositedPosition(l: Ledger, now: nat, tx: Tx, lp: U64): Position
    requires tx.AddLiquidity?
  {
    DepositPosition(PositionOf(l.dex, tx.pool, tx.account, now), tx.pool, lp, tx.baseAmount, tx.quoteAmount, now).state
  }

  lemma DepositHealthyHere(l: Ledger, now: nat, tx: Tx, lp: U64)
    requires DexOk(l) && tx.AddLiquidity? && AddQuote(l, tx) == Ok(lp) && !ReserveOverflows(l, tx)
    requires l.dex.pools[tx.pool].lp + lp <= MAX_U64
    ensures var p := l.dex.pools[tx.pool];
            var p' := Deposited(p, now, tx, lp);
            && Healthy(p'.reserveBase, p'.reserveQuote, p'.lp) && p'.base == p.base && p'.quote == p.quote
            && p'.reserveBase == p.reserveBase + tx.baseAmount && p'.reserveQuote == p.reserveQuote + tx.quoteAmount
            && p'.lp == p.lp + lp
  {
    hide AddQuote, LiquidityUnits, Healthy;
    AddQuoteFacts(l, tx, lp);
    PoolFacts(l, tx.pool);
    var p := l.dex.pools[tx.pool];
    DepositHealthy(tx.pool, p.reserveBase, p.reserveQuote, p.lp, tx.baseAmount, tx.quoteAmount, lp);
  }

  /** The shape of a commit whose debits, reserves and LP units all go through. */
  lemma AddPooledShape(l: Ledger, now: nat, tx: Tx, lp: U64)
    requires tx.AddLiquidity? && tx.pool in l.dex.pools && !ReserveOverflows(l, tx)
    requires var p := l.dex.pools[tx.pool];
             var d := Debit(l.book, now, tx.account, p.base, tx.baseAmount);
             d.outcome.Applied? && Debit(d.state, now, tx.account, p.quote, tx.quoteAmount).outcome.Applied?
    requires l.dex.pools[tx.pool].lp + lp <= MAX_U64
    requires PositionOf(l.dex, tx.pool, tx.account, now).lp + lp <= MAX_U64
    ensures var p := l.dex.pools[tx.pool];
            var s := AddCommit(l, now, tx, lp);
            && s.state.book == PaidIn(l.book, now, tx.account, p, tx.baseAmount, tx.quoteAmount)
            && s.state.bridge == l.bridge
            && s.state.dex.pools == l.dex.pools[tx.pool := Deposited(p, now, tx, lp)]
            && s.state.dex.positions ==
                 l.dex.positions[LpPositionId(tx.pool, tx.account) := DepositedPosition(l, now, tx, lp)]
            && (s.outcome.Applied? <==> !DepositCounterOverflows(l, tx))
            && (s.outcome.Rejected? ==> s.state.dex.log == l.dex.log)
  {
  }

  lemma AddStepCommits(l: Ledger, now: nat, tx: Tx, lp: U64)
    requires tx.AddLiquidity? && AddQuote(l, tx) == Ok(lp)
    ensures tx.pool in l.dex.pools && AddStep(l, now, tx) == AddCommit(l, now, tx, lp)
  {
    hide AddCommit;
  }

  lemma AddPooledOutcome(l: Ledger, now: nat, tx: Tx, lp: U64)
    requires BookOk(l.book) && DexOk(l) && tx.AddLiquidity? && AddQuote(l, tx) == Ok(lp)
    requires !ReserveOverflows(l, tx)
    ensures l.dex.pools[tx.pool].lp + lp <= MAX_U64
    ensures var p := l.dex.pools[tx.pool];
            var s := AddStep(l, now, tx);
            && s.state.book == PaidIn(l.book, now, tx.account, p, tx.baseAmount, tx.quoteAmount)
            && s.state.bridge == l.bridge
            && s.state.dex.pools == l.dex.pools[tx.pool := Deposited(p, now, tx, lp)]
            && s.state.dex.positions ==
                 l.dex.positions[LpPositionId(tx.pool, tx.account) := DepositedPosition(l, now, tx, lp)]
            && (s.outcome.Applied? <==> !DepositCounterOverflows(l, tx))
            && (s.outcome.Rejected? ==> s.state.dex.log == l.dex.log)
  {
    hide *;
    AddStepCommits(l, now, tx, lp);
    AddQuoteFacts(l, tx, lp);
    PoolFacts(l, tx.pool);
    PaidInFacts(l.book, now, tx.account, l.dex.pools[tx.pool], tx.baseAmount, tx.quoteAmount);
    DepositFits(l, now, tx, lp);
    AddPooledShape(l, now, tx, lp);
  }

  lemma DepositPositionFacts(r: Position, pool: Id, lp: U64, base: U64, quote: U64, now: nat)
    requires r.lp + lp <= MAX_U64
    ensures var r' := DepositPosition(r, pool, lp, base, quote, now).state;
            r'.pool == r.pool && r'.owner == r.owner && r'.lp == r.lp + lp
  {
  }

  lemma PositionOfFacts(l: Ledger, pool: Id, account: Id, now: nat)
    requires DexOk(l)
    ensures var r := PositionOf(l.dex, pool, account, now);
            var id := LpPositionId(pool, account);
            && r.pool == pool && r.owner == account
            && r.lp == (if id in l.dex.positions then l.dex.positions[id].lp else 0)
  {
  }

  lemma DepositedPositionFacts(l: Ledger, now: nat, tx: Tx, lp: U64)
    requires DexOk(l) && tx.AddLiquidity? && AddQuote(l, tx) == Ok(lp)
    requires tx.pool in l.dex.pools && !ReserveOverflows(l, tx)
    ensures var r := DepositedPosition(l, now, tx, lp);
            var id := LpPositionId(tx.pool, tx.account);
            && r.pool == tx.pool && r.owner == tx.account
            && r.lp == (if id in l.dex.positions then l.dex.positions[id].lp else 0) + lp
  {
    hide AddQuote, DexOk, DepositPosition, PositionOf, ReserveOverflows;
    DepositFits(l, now, tx, lp);
    PositionOfFacts(l, tx.pool, tx.account, now);
    DepositPositionFacts(PositionOf(l.dex, tx.pool, tx.account, now), tx.pool, lp, tx.baseAmount, tx.quoteAmount, now);
  }

  lemma PoolsAfter(pools: map<Id, Pool>, tokens: set<Id>, pool: Id, p: Pool)
    requires PoolKeys(pools, tokens) && PoolsHealthy(pools) && pool in pools
    requires p.base == pools[pool].base && p.quote == pools[pool].quote
    requires Healthy(p.reserveBase, p.reserveQuote, p.lp)
    ensures PoolKeys(pools[pool := p], tokens) && PoolsHealthy(pools[pool := p])
    ensures pools[pool := p].Keys == pools.Keys
  {
  }

  lemma PositionsAfter(positions: map<Id, Position>, pools: set<Id>, accounts: set<Id>, r: Position)
    requires PositionKeys(positions, pools, accounts) && r.pool in pools && r.owner in accounts
    ensures PositionKeys(positions[LpPositionId(r.pool, r.owner) := r], pools, accounts)
  {
  }

  /** Writing one healthy pool and one of its positions keeps the exchange sound. */
  lemma DexOkAfter(l: Ledger, l': Ledger, pool: Id, p: Pool, r: Position)
    requires DexOk(l) && pool in l.dex.pools
    requires OnlyUnitsMoved(l.book, l'.book)
    requires p.base == l.dex.pools[pool].base && p.quote == l.dex.pools[pool].quote
    requires Healthy(p.reserveBase, p.reserveQuote, p.lp)
    requires r.pool == pool && r.owner in l.book.held.units
    requires var id := LpPositionId(pool, r.owner);
             r.lp - (if id in l.dex.positions then l.dex.positions[id].lp else 0) <= p.lp - l.dex.pools[pool].lp
    requires l'.dex.pools == l.dex.pools[pool := p]
    requires l'.dex.positions == l.dex.positions[LpPositionId(pool, r.owner) := r]
    ensures DexOk(l')
  {
    PoolsAfter(l.dex.pools, l.book.tokens.Keys, pool, p);
    PositionsAfter(l.dex.positions, l.dex.pools.Keys, l.book.held.units.Keys, r);
    SharesStayCovered(l.dex.pools, l.dex.positions, pool, p, LpPositionId(pool, r.owner), r);
  }

  lemma AddRefused(l: Ledger, now: nat, tx: Tx)
    requires tx.AddLiquidity? && AddQuote(l, tx).Err?
    ensures AddStep(l, now, tx).state == l && AddStep(l, now, tx).outcome.Rejected?
  {
    hide AddQuote;
  }

  lemma AddKeepsOk(l: Ledger, now: nat, tx: Tx)
    requires BookOk(l.book) && DexOk(l) && tx.AddLiquidity?
    ensures BookOk(AddStep(l, now, tx).state.book) && DexOk(AddStep(l, now, tx).state)
    ensures OnlyUnitsMoved(l.book, AddStep(l, now, tx).state.book)
  {
    hide *;
    UnmovedItself(l.book);
    match AddQuote(l, tx) {
      case Err(_) => AddRefused(l, now, tx);
      case Ok(lp) =>
        AddQuoteFacts(l, tx, lp);
        PoolFacts(l, tx.pool);
        PaidInFacts(l.book, now, tx.account, l.dex.pools[tx.pool], tx.baseAmount, tx.quoteAmount);
        if ReserveOverflows(l, tx) {
          AddOverflowOutcome(l, now, tx, lp);
          DexOkUnmoved(l, AddStep(l, now, tx).state);
        } else {
          AddPooledOutcome(l, now, tx, lp);
          DepositHealthyHere(l, now, tx, lp);
          DepositedPositionFacts(l, now, tx, lp);
          DexOkAfter(l, AddStep(l, now, tx).state, tx.pool, Deposited(l.dex.pools[tx.pool], now, tx, lp),
                     DepositedPosition(l, now, tx, lp));
        }
    }
  }

  // ----- removing -----

  /** What a quoted withdrawal has established. */
  lemma RemoveQuoteFacts(l: Ledger, tx: Tx, base: U64, quote: U64)
    requires tx.RemoveLiquidity? && RemoveQuote(l, tx) == Ok((base, quote))
    ensures tx.liquidity !in l.dex.log.liquidity && tx.pool in l.dex.pools && 0 < tx.lp
    ensures LpPositionId(tx.pool, tx.account) in l.dex.positions
    ensures tx.lp <= l.dex.positions[LpPositionId(tx.pool, tx.account)].lp
    ensures tx.minBase <= base && tx.minQuote <= quote
    ensures var p := l.dex.pools[tx.pool];
            && p.lp > 0 && Proportional(p.reserveBase, tx.lp, p.lp, tx.pool) == Ok(base)
            && Proportional(p.reserveQuote, tx.lp, p.lp, tx.pool) == Ok(quote)
  {
  }

  lemma RemoveRefused(l: Ledger, now: nat, tx: Tx)
    requires tx.RemoveLiquidity? && RemoveQuote(l, tx).Err?
    ensures RemoveStep(l, now, tx).state == l && RemoveStep(l, now, tx).outcome.Rejected?
  {
    hide RemoveQuote;
  }

  /** A cumulative withdrawal counter of the position cannot take the payment. */
  predicate WithdrawalCounterOverflows(l: Ledger, tx: Tx, base: U64, quote: U64)
    requires tx.RemoveLiquidity? && LpPositionId(tx.pool, tx.account) in l.dex.positions
  {
    var r := l.dex.positions[LpPositionId(tx.pool, tx.account)];
    r.baseOut + base > MAX_U64 || r.quoteOut + quote > MAX_U64
  }

  /** The account cannot be paid the amount: nothing to pay, or the balance would overflow. */
  predicate Unpayable(b: Book, account: Id, asset: Id, amount: U64) {
    amount == 0 || Holding(b, account, asset) + amount > MAX_U64
  }

  function WithdrawnPosition(l: Ledger, now: nat, tx: Tx, base: U64, quote: U64): Position
    requires tx.RemoveLiquidity? && LpPositionId(tx.pool, tx.account) in l.dex.positions
    requires tx.lp <= l.dex.positions[LpPositionId(tx.pool, tx.account)].lp
  {
    WithdrawPosition(l.dex.positions[LpPositionId(tx.pool, tx.account)], tx.pool, tx.lp, base, quote, now).state
  }

  lemma WithdrawnPositionFacts(l: Ledger, now: nat, tx: Tx, base: U64, quote: U64)
    requires tx.RemoveLiquidity? && LpPositionId(tx.pool, tx.account) in l.dex.positions
    requires tx.lp <= l.dex.positions[LpPositionId(tx.pool, tx.account)].lp
    ensures var old_ := l.dex.positions[LpPositionId(tx.pool, tx.account)];
            var r := WithdrawnPosition(l, now, tx, base, quote);
            r.pool == old_.pool && r.owner == old_.owner && r.lp == old_.lp - tx.lp
  {
  }

  function Withdrawn(p: Pool, now: nat, tx: Tx, base: U64, quote: U64): Pool
    requires tx.RemoveLiquidity? && base <= p.reserveBase && quote <= p.reserveQuote && tx.lp <= p.lp
  {
    p.(reserveBase := p.reserveBase - base, reserveQuote := p.reserveQuote - quote, lp := p.lp - tx.lp,
       updatedAt := now, lastLiquidity := Some(tx.liquidity))
  }

  /** A quoted withdrawal never asks for more than the pool has, and leaves it healthy. */
  lemma WithdrawalFits(l: Ledger, tx: Tx, base: U64, quote: U64)
    requires DexOk(l) && tx.RemoveLiquidity? && RemoveQuote(l, tx) == Ok((base, quote))
    ensures tx.pool in l.dex.pools
    ensures var p := l.dex.pools[tx.pool];
            && base <= p.reserveBase && quote <= p.reserveQuote && tx.lp <= p.lp
            && Healthy(p.reserveBase - base, p.reserveQuote - quote, p.lp - tx.lp)
            && BacksAtLeast(p.reserveBase, p.reserveQuote, p.lp, p.reserveBase - base, p.reserveQuote - quote, p.lp - tx.lp)
  {
    hide *;
    RemoveQuoteFacts(l, tx, base, quote);
    PoolFacts(l, tx.pool);
    PositionOwner(l, tx.pool, tx.account);
    PositionWithinSupply(l, LpPositionId(tx.pool, tx.account));
    var p := l.dex.pools[tx.pool];
    WithdrawalHealthy(p.reserveBase, p.reserveQuote, p.lp, tx.lp, base, quote, tx.pool);
  }

  lemma RemoveStepCommits(l: Ledger, now: nat, tx: Tx, base: U64, quote: U64)
    requires tx.RemoveLiquidity? && RemoveQuote(l, tx) == Ok((base, quote))
    ensures tx.pool in l.dex.pools && LpPositionId(tx.pool, tx.account) in l.dex.positions
    ensures tx.lp <= l.dex.positions[LpPositionId(tx.pool, tx.account)].lp
    ensures RemoveStep(l, now, tx) == RemoveCommit(l, now, tx, base, quote)
  {
    hide RemoveCommit;
  }

  lemma RemoveCounterShape(l: Ledger, now: nat, tx: Tx, base: U64, quote: U64)
    requires tx.RemoveLiquidity? && tx.pool in l.dex.pools && LpPositionId(tx.pool, tx.account) in l.dex.positions
    requires tx.lp <= l.dex.positions[LpPositionId(tx.pool, tx.account)].lp
    requires WithdrawalCounterOverflows(l, tx, base, quote)
    ensures var s := RemoveCommit(l, now, tx, base, quote);
            && s.state.book == l.book && s.state.bridge == l.bridge
            && s.state.dex.pools == l.dex.pools && s.state.dex.log == l.dex.log
            && s.state.dex.positions ==
                 l.dex.positions[LpPositionId(tx.pool, tx.account) := WithdrawnPosition(l, now, tx, base, quote)]
            && s.outcome == Rejected(PoolReserveOverflow(tx.pool))
  {
    hide Credit;
  }

  /** The book after paying out a withdrawal: a refused base payment stops both, a refused quote payment only the second. */
  function PaidOut(b: Book, now: nat, account: Id, p: Pool, base: U64, quote: U64): Book {
    var c := Credit(b, now, account, p.base, base);
    if c.outcome.Rejected? then b else Credit(c.state, now, account, p.quote, quote).state
  }

  lemma RemovePooledShape(l: Ledger, now: nat, tx: Tx, base: U64, quote: U64)
    requires tx.RemoveLiquidity? && tx.pool in l.dex.pools && LpPositionId(tx.pool, tx.account) in l.dex.positions
    requires tx.lp <= l.dex.positions[LpPositionId(tx.pool, tx.account)].lp
    requires !WithdrawalCounterOverflows(l, tx, base, quote)
    requires var p := l.dex.pools[tx.pool]; base <= p.reserveBase && quote <= p.reserveQuote && tx.lp <= p.lp
    ensures var p := l.dex.pools[tx.pool];
            var s := RemoveCommit(l, now, tx, base, quote);
            var c := Credit(l.book, now, tx.account, p.base, base);
            && s.state.book == PaidOut(l.book, now, tx.account, p, base, quote) && s.state.bridge == l.bridge
            && s.state.dex.pools == l.dex.pools[tx.pool := Withdrawn(p, now, tx, base, quote)]
            && s.state.dex.positions ==
                 l.dex.positions[LpPositionId(tx.pool, tx.account) := WithdrawnPosition(l, now, tx, base, quote)]
            && (s.outcome.Applied? <==>
                c.outcome.Applied? && Credit(c.state, now, tx.account, p.quote, quote).outcome.Applied?)
            && (s.outcome.Rejected? ==> s.state.dex.log == l.dex.log)
  {
    hide Credit;
  }

  lemma PaidOutFacts(b: Book, now: nat, account: Id, p: Pool, base: U64, quote: U64)
    requires BookOk(b) && account in b.held.units && p.base != p.quote
    requires AssetExists(b, p.base) && AssetExists(b, p.quote)
    ensures BookOk(PaidOut(b, now, account, p, base, quote))
    ensures OnlyUnitsMoved(b, PaidOut(b, now, account, p, base, quote))
    ensures var c := Credit(b, now, account, p.base, base);
            && (c.outcome.Applied? <==> !Unpayable(b, account, p.base, base))
            && (c.outcome.Applied? ==>
                (Credit(c.state, now, account, p.quote, quote).outcome.Applied? <==> !Unpayable(b, account, p.quote, quote)))
  {
    hide Credit, BookOk;
    CreditDecides(b, now, account, p.base, base);
    CreditFacts(b, now, account, p.base, base);
    var c := Credit(b, now, account, p.base, base);
    if c.outcome.Applied? {
      CreditHoldings(b, now, account, p.base, base, account, p.quote);
      CreditDecides(c.state, now, account, p.quote, quote);
      CreditFacts(c.state, now, account, p.quote, quote);
    }
  }

  lemma PaidOutTotal(b: Book, now: nat, account: Id, p: Pool, base: U64, quote: U64, a: Id)
    requires BookOk(b) && account in b.held.units && p.base != p.quote
    requires AssetExists(b, p.base) && AssetExists(b, p.quote)
    ensures var first := !Unpayable(b, account, p.base, base);
            var second := first && !Unpayable(b, account, p.quote, quote);
            InAccounts(PaidOut(b, now, account, p, base, quote), a) ==
            InAccounts(b, a) + (if first && a == p.base then base else 0) + (if second && a == p.quote then quote else 0)
  {
    hide Credit, InAccounts, Unpayable;
    PaidOutFacts(b, now, account, p, base, quote);
    var c := Credit(b, now, account, p.base, base);
    CreditDecides(b, now, account, p.base, base);
    if c.outcome.Applied? {
      CreditTotal(b, now, account, p.base, base, a);
      CreditFacts(b, now, account, p.base, base);
      CreditDecides(c.state, now, account, p.quote, quote);
      if Credit(c.state, now, account, p.quote, quote).outcome.Applied? {
        CreditTotal(c.state, now, account, p.quote, quote, a);
      }
    }
  }

  lemma PositionOwner(l: Ledger, pool: Id, account: Id)
    requires DexOk(l) && LpPositionId(pool, account) in l.dex.positions
    ensures var r := l.dex.positions[LpPositionId(pool, account)];
            r.pool == pool && r.owner == account && account in l.book.held.units
  {
  }

  lemma RemoveKeepsOk(l: Ledger, now: nat, tx: Tx)
    requires BookOk(l.book) && DexOk(l) && tx.RemoveLiquidity?
    ensures BookOk(RemoveStep(l, now, tx).state.book) && DexOk(RemoveStep(l, now, tx).state)
    ensures OnlyUnitsMoved(l.book, RemoveStep(l, now, tx).state.book)
  {
    hide *;
    UnmovedItself(l.book);
    match RemoveQuote(l, tx) {
      case Err(_) => RemoveRefused(l, now, tx);
      case Ok((base, quote)) =>
        RemoveStepCommits(l, now, tx, base, quote);
        RemoveQuoteFacts(l, tx, base, quote);
        WithdrawalFits(l, tx, base, quote);
        PoolFacts(l, tx.pool);
        PositionOwner(l, tx.pool, tx.account);
        WithdrawnPositionFacts(l, now, tx, base, quote);
        var p := l.dex.pools[tx.pool];
        var s := RemoveStep(l, now, tx).state;
        if WithdrawalCounterOverflows(l, tx, base, quote) {
          RemoveCounterShape(l, now, tx, base, quote);
          UnmovedItself(l.book);
          assert l.dex.pools[tx.pool := p] == l.dex.pools;
          DexOkAfter(l, s, tx.pool, p, WithdrawnPosition(l, now, tx, base, quote));
        } else {
          RemovePooledShape(l, now, tx, base, quote);
          PaidOutFacts(l.book, now, tx.account, p, base, quote);
          WithdrawnFacts(p, now, tx, base, quote);
          DexOkAfter(l, s, tx.pool, Withdrawn(p, now, tx, base, quote), WithdrawnPosition(l, now, tx, base, quote));
        }
    }
  }

  lemma UnmovedItself(b: Book)
    ensures OnlyUnitsMoved(b, b)
  {
  }

  lemma WithdrawnFacts(p: Pool, now: nat, tx: Tx, base: U64, quote: U64)
    requires tx.RemoveLiquidity? && base <= p.reserveBase && quote <= p.reserveQuote && tx.lp <= p.lp
    ensures var p' := Withdrawn(p, now, tx, base, quote);
            && p'.base == p.base && p'.quote == p.quote && p'.reserveBase == p.reserveBase - base
            && p'.reserveQuote == p.reserveQuote - quote && p'.lp == p.lp - tx.lp
  {
  }

  // ----- swapping -----

  /** What a quoted swap has established: the plan trades one pool asset for the other by the product rule. */
  lemma SwapQuoteFacts(l: Ledger, tx: Tx, plan: SwapPlan)
    requires tx.SwapExactIn? && SwapQuote(l, tx) == Ok(plan)
    ensures tx.swap !in l.dex.log.swaps && tx.pool in l.dex.pools && 0 < tx.amount && 0 < plan.out && tx.minOut <= plan.out
    ensures Availability(l.book, tx.account, tx.assetIn, tx.amount).Applied?
    ensures SwapPlanFor(l.dex.pools[tx.pool], tx.pool, tx.assetIn, tx.amount) == Ok(plan)
  {
    hide SwapPlanFor, Availability;
  }

  lemma SwapPlanFacts(p: Pool, pool: Id, assetIn: Id, amount: U64, plan: SwapPlan)
    requires p.base != p.quote && SwapPlanFor(p, pool, assetIn, amount) == Ok(plan)
    ensures p.reserveBase > 0 && p.reserveQuote > 0
    ensures assetIn == p.base || assetIn == p.quote
    ensures assetIn == p.base ==> plan.assetOut == p.quote && plan.base == p.reserveBase + amount &&
                                  plan.out < p.reserveQuote && plan.quote == p.reserveQuote - plan.out &&
                                  ConstantProductOut(p.reserveBase, p.reserveQuote, amount, pool) == Ok(plan.out)
    ensures assetIn == p.quote ==> plan.assetOut == p.base && plan.quote == p.reserveQuote + amount &&
                                   plan.out < p.reserveBase && plan.base == p.reserveBase - plan.out &&
                                   ConstantProductOut(p.reserveQuote, p.reserveBase, amount, pool) == Ok(plan.out)
    ensures plan.base * plan.quote >= p.reserveBase * p.reserveQuote
  {
    if assetIn == p.base {
      SwapBounds(p.reserveBase, p.reserveQuote, amount, pool);
    } else {
      SwapBounds(p.reserveQuote, p.reserveBase, amount, pool);
    }
  }

  lemma SwapRefused(l: Ledger, now: nat, tx: Tx)
    requires tx.SwapExactIn? && SwapQuote(l, tx).Err?
    ensures SwapStep(l, now, tx).state == l && SwapStep(l, now, tx).outcome.Rejected?
  {
    hide SwapQuote;
  }

  lemma SwapStepCommits(l: Ledger, now: nat, tx: Tx, plan: SwapPlan)
    requires tx.SwapExactIn? && SwapQuote(l, tx) == Ok(plan)
    ensures tx.pool in l.dex.pools && SwapStep(l, now, tx) == SwapCommit(l, now, tx, plan)
  {
    hide SwapCommit, SwapPlanFor;
  }

  function Traded(p: Pool, now: nat, tx: Tx, plan: SwapPlan): Pool
    requires tx.SwapExactIn?
  {
    p.(reserveBase := plan.base, reserveQuote := plan.quote, updatedAt := now, lastSwap := Some(tx.swap))
  }

  lemma SwapShape(l: Ledger, now: nat, tx: Tx, plan: SwapPlan)
    requires tx.SwapExactIn? && tx.pool in l.dex.pools
    requires Debit(l.book, now, tx.account, tx.assetIn, tx.amount).outcome.Applied?
    ensures var d := Debit(l.book, now, tx.account, tx.assetIn, tx.amount).state;
            var c := Credit(d, now, tx.account, plan.assetOut, plan.out);
            var s := SwapCommit(l, now, tx, plan);
            && s.state.book == c.state && s.state.bridge == l.bridge && s.outcome == c.outcome
            && (c.outcome.Rejected? ==> s.state.dex == l.dex)
            && (c.outcome.Applied? ==>
                s.state.dex.pools == l.dex.pools[tx.pool := Traded(l.dex.pools[tx.pool], now, tx, plan)] &&
                s.state.dex.positions == l.dex.positions)
  {
    hide Debit, Credit;
  }

  /** A swap's debit always goes through; its credit fails exactly when the balance would overflow. */
  lemma SwapPayment(l: Ledger, now: nat, tx: Tx, plan: SwapPlan)
    requires BookOk(l.book) && DexOk(l) && tx.SwapExactIn? && SwapQuote(l, tx) == Ok(plan)
    ensures var d := Debit(l.book, now, tx.account, tx.assetIn, tx.amount);
            var c := Credit(d.state, now, tx.account, plan.assetOut, plan.out);
            && d.outcome.Applied? && BookOk(d.state) && OnlyUnitsMoved(l.book, d.state)
            && BookOk(c.state) && OnlyUnitsMoved(l.book, c.state) && (c.outcome.Rejected? ==> c.state == d.state)
            && (c.outcome.Applied? <==> Holding(l.book, tx.account, plan.assetOut) + plan.out <= MAX_U64)
            && plan.assetOut != tx.assetIn && tx.account in l.book.held.units
  {
    hide SwapQuote, SwapPlanFor, Debit, Credit, Availability, BookOk, DexOk, ConstantProductOut;
    SwapQuoteFacts(l, tx, plan);
    PoolFacts(l, tx.pool);
    SwapPlanFacts(l.dex.pools[tx.pool], tx.pool, tx.assetIn, tx.amount, plan);
    HolderHasAccount(l.book, tx.account, tx.assetIn, tx.amount);
    DebitDecides(l.book, now, tx.account, tx.assetIn, tx.amount);
    DebitFacts(l.book, now, tx.account, tx.assetIn, tx.amount);
    DebitHoldings(l.book, now, tx.account, tx.assetIn, tx.amount, tx.account, plan.assetOut);
    var d := Debit(l.book, now, tx.account, tx.assetIn, tx.amount).state;
    CreditDecides(d, now, tx.account, plan.assetOut, plan.out);
    CreditFacts(d, now, tx.account, plan.assetOut, plan.out);
  }

  lemma SwapKeepsOk(l: Ledger, now: nat, tx: Tx)
    requires BookOk(l.book) && DexOk(l) && tx.SwapExactIn?
    ensures BookOk(SwapStep(l, now, tx).state.book) && DexOk(SwapStep(l, now, tx).state)
    ensures OnlyUnitsMoved(l.book, SwapStep(l, now, tx).state.book)
  {
    hide *;
    UnmovedItself(l.book);
    match SwapQuote(l, tx) {
      case Err(_) => SwapRefused(l, now, tx);
      case Ok(plan) =>
        SwapStepCommits(l, now, tx, plan);
        SwapPayment(l, now, tx, plan);
        SwapShape(l, now, tx, plan);
        var s := SwapStep(l, now, tx);
        if s.outcome.Rejected? {
          DexOkUnmoved(l, s.state);
        } else {
          SwapQuoteFacts(l, tx, plan);
          TradedOk(l, s.state, now, tx, plan);
        }
    }
  }

  lemma TradedHealthy(B: nat, Q: nat, L: nat, B': nat, Q': nat)
    requires Healthy(B, Q, L) && B > 0 && Q > 0 && B' > 0 && Q' > 0 && B' * Q' >= B * Q
    ensures Healthy(B', Q', L)
  {
    HealthyReserves(B, Q, L);
  }

  /** Writing one healthy pool with the same LP supply keeps the exchange sound. */
  lemma RepricedOk(l: Ledger, l': Ledger, pool: Id, p: Pool)
    requires DexOk(l) && pool in l.dex.pools && OnlyUnitsMoved(l.book, l'.book)
    requires p.base == l.dex.pools[pool].base && p.quote == l.dex.pools[pool].quote && p.lp == l.dex.pools[pool].lp
    requires Healthy(p.reserveBase, p.reserveQuote, p.lp)
    requires l'.dex.pools == l.dex.pools[pool := p] && l'.dex.positions == l.dex.positions
    ensures DexOk(l')
  {
    hide PoolKeys, PoolsHealthy, PositionKeys, Healthy;
    PoolsAfter(l.dex.pools, l.book.tokens.Keys, pool, p);
  }

  lemma TradedOk(l: Ledger, l': Ledger, now: nat, tx: Tx, plan: SwapPlan)
    requires DexOk(l) && tx.SwapExactIn? && tx.pool in l.dex.pools && OnlyUnitsMoved(l.book, l'.book)
    requires SwapPlanFor(l.dex.pools[tx.pool], tx.pool, tx.assetIn, tx.amount) == Ok(plan)
    requires l'.dex.pools == l.dex.pools[tx.pool := Traded(l.dex.pools[tx.pool], now, tx, plan)]
    requires l'.dex.positions == l.dex.positions
    ensures DexOk(l')
  {
    hide SwapPlanFor, ConstantProductOut, PoolKeys, PoolsHealthy, PositionKeys, SharesCovered, Healthy, DexOk;
    PoolFacts(l, tx.pool);
    var p := l.dex.pools[tx.pool];
    SwapPlanFacts(p, tx.pool, tx.assetIn, tx.amount, plan);
    TradedHealthy(p.reserveBase, p.reserveQuote, p.lp, plan.base, plan.quote);
    RepricedOk(l, l', tx.pool, Traded(p, now, tx, plan));
  }

  // ----- creating -----

  lemma CreatePoolShape(l: Ledger, now: nat, tx: Tx)
    requires tx.CreatePool?
    ensures var s := CreatePoolStep(l, now, tx);
            && s.state.book == l.book && s.state.bridge == l.bridge && s.state.dex.positions == l.dex.positions
            && (s.outcome.Rejected? ==> s.state == l)
            && (s.outcome.Applied? ==>
                && tx.pool == PoolId(tx.base, tx.quote) && tx.base != tx.quote && tx.pool !in l.dex.pools
                && AssetExists(l.book, tx.base) && AssetExists(l.book, tx.quote)
                && s.state.dex.pools ==
                     l.dex.pools[tx.pool := Pool(tx.base, tx.quote, tx.account, 0, 0, 0, now, now, None, None)])
  {
  }

  lemma CreatePoolKeepsOk(l: Ledger, now: nat, tx: Tx)
    requires DexOk(l) && tx.CreatePool?
    ensures DexOk(CreatePoolStep(l, now, tx).state)
  {
    hide *;
    CreatePoolShape(l, now, tx);
    if CreatePoolStep(l, now, tx).outcome.Applied? {
      NewPoolOk(l, CreatePoolStep(l, now, tx).state, now, tx);
    }
  }

  lemma NewPoolOk(l: Ledger, l': Ledger, now: nat, tx: Tx)
    requires DexOk(l) && tx.CreatePool?
    requires tx.pool == PoolId(tx.base, tx.quote) && tx.base != tx.quote && tx.pool !in l.dex.pools
    requires AssetExists(l.book, tx.base) && AssetExists(l.book, tx.quote)
    requires l'.book == l.book && l'.dex.positions == l.dex.positions
    requires l'.dex.pools == l.dex.pools[tx.pool := Pool(tx.base, tx.quote, tx.account, 0, 0, 0, now, now, None, None)]
    ensures DexOk(l')
  {
    hide PoolKeys, PoolsHealthy, PositionKeys, SharesCovered, Healthy;
    var p := Pool(tx.base, tx.quote, tx.account, 0, 0, 0, now, now, None, None);
    NewPoolFiled(l.dex.pools, l.book.tokens.Keys, p);
    NewPoolPositions(l.dex.positions, l.dex.pools.Keys, l.book.held.units.Keys, tx.pool);
    assert l'.dex.pools.Keys == l.dex.pools.Keys + {tx.pool};
    NewPoolUncovered(l.dex.positions, l.dex.pools.Keys, l.book.held.units.Keys, tx.pool);
    NewPoolCovered(l.dex.pools, l.dex.positions, tx.pool, p);
  }

  lemma NewPoolFiled(pools: map<Id, Pool>, tokens: set<Id>, p: Pool)
    requires PoolKeys(pools, tokens) && PoolsHealthy(pools) && p.base != p.quote
    requires KnownAsset(p.base, tokens) && KnownAsset(p.quote, tokens) && Healthy(p.reserveBase, p.reserveQuote, p.lp)
    ensures PoolKeys(pools[PoolId(p.base, p.quote) := p], tokens) && PoolsHealthy(pools[PoolId(p.base, p.quote) := p])
  {
  }

  lemma NewPoolPositions(positions: map<Id, Position>, pools: set<Id>, accounts: set<Id>, pool: Id)
    requires PositionKeys(positions, pools, accounts)
    ensures PositionKeys(positions, pools + {pool}, accounts)
  {
  }

  lemma NewPoolCovered(pools: map<Id, Pool>, positions: map<Id, Position>, pool: Id, p: Pool)
    requires SharesCovered(pools, positions) && Sum(positions, SharesIn(pool)) <= p.lp
    ensures SharesCovered(pools[pool := p], positions)
  {
  }

  lemma NewPoolUncovered(positions: map<Id, Position>, pools: set<Id>, accounts: set<Id>, pool: Id)
    requires PositionKeys(positions, pools, accounts) && pool !in pools
    ensures Sum(positions, SharesIn(pool)) == 0
  {
    SumZero(positions, SharesIn(pool));
  }
}
