/** What providers and traders can get back: whole transactions against the ledger. */
module RoundTrips {
  import opened Prelude
  import opened Ids
  import opened Records
  import opened Accounts
  import opened BookFacts
  import opened PoolMath
  import opened Exchange
  import opened DexFacts
  import opened BridgeFacts
  import opened LedgerInvariant

  // ----- what one applied transaction moves -----

  /** An applied deposit moves exactly the two stated amounts from the provider into the pool. */
  lemma AddEffect(l: Ledger, now: nat, tx: Tx, x: Id, y: Id)
    requires LedgerOk(l) && tx.AddLiquidity? && AddStep(l, now, tx).outcome.Applied?
    ensures tx.pool in l.dex.pools && AddQuote(l, tx).Ok? && !ReserveOverflows(l, tx)
    ensures var p := l.dex.pools[tx.pool];
            var lp := AddQuote(l, tx).value;
            && p.lp + lp <= MAX_U64
            && AddStep(l, now, tx).state.dex.pools == l.dex.pools[tx.pool := Deposited(p, now, tx, lp)]
            && Holding(AddStep(l, now, tx).state.book, x, y) == Holding(l.book, x, y)
                 - (if x == tx.account && y == p.base then tx.baseAmount else 0)
                 - (if x == tx.account && y == p.quote then tx.quoteAmount else 0)
  {
    hide BookOk, DexOk, BridgeOk, AddStep, AddQuote, Debit, Availability, LiquidityUnits, DepositedPosition,
         DepositCounterOverflows, Healthy, Holding;
    match AddQuote(l, tx) {
      case Err(_) => AddRefused(l, now, tx);
      case Ok(lp) =>
        AddQuoteFacts(l, tx, lp);
        PoolFacts(l, tx.pool);
        var p := l.dex.pools[tx.pool];
        if ReserveOverflows(l, tx) {
          AddOverflowOutcome(l, now, tx, lp);
        } else {
          AddPooledOutcome(l, now, tx, lp);
          PaidInFacts(l.book, now, tx.account, p, tx.baseAmount, tx.quoteAmount);
          var b1 := Debit(l.book, now, tx.account, p.base, tx.baseAmount).state;
          DebitHoldings(l.book, now, tx.account, p.base, tx.baseAmount, x, y);
          DebitHoldings(b1, now, tx.account, p.quote, tx.quoteAmount, x, y);
        }
    }
  }

  /** An applied withdrawal pays the quoted amounts, and only those, to the provider. */
  lemma RemoveEffect(l: Ledger, now: nat, tx: Tx, x: Id, y: Id)
    requires LedgerOk(l) && tx.RemoveLiquidity? && RemoveStep(l, now, tx).outcome.Applied?
    ensures tx.pool in l.dex.pools && RemoveQuote(l, tx).Ok?
    ensures var p := l.dex.pools[tx.pool];
            Holding(RemoveStep(l, now, tx).state.book, x, y) == Holding(l.book, x, y)
              + (if x == tx.account && y == p.base then RemoveQuote(l, tx).value.0 else 0)
              + (if x == tx.account && y == p.quote then RemoveQuote(l, tx).value.1 else 0)
  {
    hide BookOk, DexOk, BridgeOk, RemoveStep, RemoveCommit, RemoveQuote, Credit, Holding, Unpayable, Healthy,
         BacksAtLeast, WithdrawnPosition, WithdrawalCounterOverflows, Proportional;
    match RemoveQuote(l, tx) {
      case Err(_) => RemoveRefused(l, now, tx);
      case Ok((base, quote)) =>
        RemoveStepCommits(l, now, tx, base, quote);
        WithdrawalFits(l, tx, base, quote);
        PoolFacts(l, tx.pool);
        PositionOwner(l, tx.pool, tx.account);
        RemoveQuoteFacts(l, tx, base, quote);
        if WithdrawalCounterOverflows(l, tx, base, quote) {
          RemoveCounterShape(l, now, tx, base, quote);
        } else {
          var p := l.dex.pools[tx.pool];
          RemovePooledShape(l, now, tx, base, quote);
          PaidOutFacts(l.book, now, tx.account, p, base, quote);
          var c := Credit(l.book, now, tx.account, p.base, base);
          CreditHoldings(l.book, now, tx.account, p.base, base, x, y);
          CreditHoldings(c.state, now, tx.account, p.quote, quote, x, y);
        }
    }
  }

  /** The reserve a swap of this asset pays into, and the one it pays from. */
  function InReserve(p: Pool, asset: Id): U64 {
    if asset == p.base then p.reserveBase else p.reserveQuote
  }

  function OutReserve(p: Pool, asset: Id): U64 {
    if asset == p.base then p.reserveQuote else p.reserveBase
  }

  function OtherAsset(p: Pool, asset: Id): Id {
    if asset == p.base then p.quote else p.base
  }

  /** What an applied swap paid. */
  function PaidBy(l: Ledger, tx: Tx): U64
    requires tx.SwapExactIn?
  {
    if SwapQuote(l, tx).Ok? then SwapQuote(l, tx).value.out else 0
  }

  /** An applied swap moves the input into one reserve and the output, as the constant product gives it, out of the other. */
  lemma SwapEffect(l: Ledger, now: nat, tx: Tx, x: Id, y: Id)
    requires LedgerOk(l) && tx.SwapExactIn? && SwapStep(l, now, tx).outcome.Applied?
    ensures tx.pool in l.dex.pools && tx.pool in SwapStep(l, now, tx).state.dex.pools
    ensures var p := l.dex.pools[tx.pool];
            var p' := SwapStep(l, now, tx).state.dex.pools[tx.pool];
            && p.base != p.quote && (tx.assetIn == p.base || tx.assetIn == p.quote)
            && p'.base == p.base && p'.quote == p.quote
            && InReserve(p, tx.assetIn) > 0 && OutReserve(p, tx.assetIn) > 0
            && ConstantProductOut(InReserve(p, tx.assetIn), OutReserve(p, tx.assetIn), tx.amount, tx.pool) == Ok(PaidBy(l, tx))
            && InReserve(p', tx.assetIn) == InReserve(p, tx.assetIn) + tx.amount
            && PaidBy(l, tx) < OutReserve(p, tx.assetIn)
            && OutReserve(p', tx.assetIn) == OutReserve(p, tx.assetIn) - PaidBy(l, tx)
            && Holding(SwapStep(l, now, tx).state.book, x, y) == Holding(l.book, x, y)
                 - (if x == tx.account && y == tx.assetIn then tx.amount else 0)
                 + (if x == tx.account && y == OtherAsset(p, tx.assetIn) then PaidBy(l, tx) else 0)
  {
    hide BookOk, DexOk, BridgeOk, SwapStep, SwapCommit, SwapQuote, SwapPlanFor, Debit, Credit, Availability, Holding,
         ConstantProductOut, Healthy;
    match SwapQuote(l, tx) {
      case Err(_) => SwapRefused(l, now, tx);
      case Ok(plan) =>
        SwapStepCommits(l, now, tx, plan);
        SwapPayment(l, now, tx, plan);
        SwapShape(l, now, tx, plan);
        SwapQuoteFacts(l, tx, plan);
        PoolFacts(l, tx.pool);
        SwapPlanFacts(l.dex.pools[tx.pool], tx.pool, tx.assetIn, tx.amount, plan);
        var d := Debit(l.book, now, tx.account, tx.assetIn, tx.amount).state;
        DebitHoldings(l.book, now, tx.account, tx.assetIn, tx.amount, x, y);
        CreditHoldings(d, now, tx.account, plan.assetOut, plan.out, x, y);
    }
  }

  lemma AddKeepsLedgerOk(l: Ledger, now: nat, tx: Tx)
    requires LedgerOk(l) && tx.AddLiquidity?
    ensures LedgerOk(AddStep(l, now, tx).state)
  {
    hide LedgerOk, AddStep;
    LedgerStepOk(l, now, tx);
  }

  lemma SwapKeepsLedgerOk(l: Ledger, now: nat, tx: Tx)
    requires LedgerOk(l) && tx.SwapExactIn?
    ensures LedgerOk(SwapStep(l, now, tx).state)
  {
    hide LedgerOk, SwapStep;
    LedgerStepOk(l, now, tx);
  }

  // ----- round trips -----

  /** Depositing and at once withdrawing the minted LP units leaves the provider with no more of either asset. */
  lemma AddThenRemove(l: Ledger, now: nat, add: Tx, then_: nat, remove: Tx)
    requires LedgerOk(l) && add.AddLiquidity? && AddStep(l, now, add).outcome.Applied?
    requires remove.RemoveLiquidity? && remove.pool == add.pool && remove.account == add.account
    requires AddQuote(l, add).Ok? && remove.lp == AddQuote(l, add).value
    requires RemoveStep(AddStep(l, now, add).state, then_, remove).outcome.Applied?
    requires add.pool in l.dex.pools
    ensures var l2 := RemoveStep(AddStep(l, now, add).state, then_, remove).state;
            var p := l.dex.pools[add.pool];
            && Holding(l2.book, add.account, p.base) <= Holding(l.book, add.account, p.base)
            && Holding(l2.book, add.account, p.quote) <= Holding(l.book, add.account, p.quote)
  {
    hide LedgerOk, AddStep, AddQuote, RemoveStep, RemoveQuote, Holding, LiquidityUnits, Proportional, Healthy;
    var l1 := AddStep(l, now, add).state;
    var p := l.dex.pools[add.pool];
    AddKeepsLedgerOk(l, now, add);
    var lp := AddQuote(l, add).value;
    AddEffect(l, now, add, add.account, p.base);
    AddEffect(l, now, add, add.account, p.quote);
    RemoveEffect(l1, then_, remove, add.account, p.base);
    RemoveEffect(l1, then_, remove, add.account, p.quote);
    AddQuoteFacts(l, add, lp);
    var (base, quote) := RemoveQuote(l1, remove).value;
    RemoveQuoteFacts(l1, remove, base, quote);
    LedgerPoolFacts(l, add.pool);
    DepositThenWithdraw(add.pool, p.reserveBase, p.reserveQuote, p.lp, add.baseAmount, add.quoteAmount, lp);
  }

  lemma LedgerPoolFacts(l: Ledger, pool: Id)
    requires LedgerOk(l) && pool in l.dex.pools
    ensures var p := l.dex.pools[pool];
            p.base != p.quote && Healthy(p.reserveBase, p.reserveQuote, p.lp)
  {
    hide BookOk, DexOk, BridgeOk, Healthy;
    PoolFacts(l, pool);
  }

  /** Swapping the output straight back returns no more than was put in. */
  lemma SwapThenBack(l: Ledger, now: nat, out: Tx, then_: nat, back: Tx)
    requires LedgerOk(l) && out.SwapExactIn? && SwapStep(l, now, out).outcome.Applied?
    requires out.pool in l.dex.pools
    requires back.SwapExactIn? && back.pool == out.pool && back.account == out.account
    requires back.assetIn == OtherAsset(l.dex.pools[out.pool], out.assetIn) && back.amount == PaidBy(l, out)
    requires SwapStep(SwapStep(l, now, out).state, then_, back).outcome.Applied?
    ensures var l2 := SwapStep(SwapStep(l, now, out).state, then_, back).state;
            && Holding(l2.book, out.account, out.assetIn) <= Holding(l.book, out.account, out.assetIn)
            && Holding(l2.book, out.account, back.assetIn) == Holding(l.book, out.account, back.assetIn)
  {
    hide LedgerOk, SwapStep, Holding, ConstantProductOut, PaidBy;
    var l1 := SwapStep(l, now, out).state;
    var p := l.dex.pools[out.pool];
    SwapKeepsLedgerOk(l, now, out);
    SwapEffect(l, now, out, out.account, out.assetIn);
    SwapEffect(l, now, out, out.account, back.assetIn);
    SwapEffect(l1, then_, back, out.account, out.assetIn);
    SwapEffect(l1, then_, back, out.account, back.assetIn);
    SwapBackNeverGains(InReserve(p, out.assetIn), OutReserve(p, out.assetIn), out.amount, out.pool, PaidBy(l, out));
  }

  // ----- splitting a swap -----

  predicate AllSwaps(txs: seq<Tx>) {
    forall i :: 0 <= i < |txs| ==> txs[i].SwapExactIn?
  }

  /** The ledger after a list of swaps. */
  function SwapAll(l: Ledger, now: nat, txs: seq<Tx>): Ledger
    requires AllSwaps(txs)
    decreases |txs|
  {
    if txs == [] then l else SwapAll(SwapStep(l, now, txs[0]).state, now, txs[1..])
  }

  /** Swaps by one account into one pool in one direction, every one of them applied. */
  ghost predicate SameDirection(l: Ledger, now: nat, txs: seq<Tx>, pool: Id, account: Id, assetIn: Id)
    requires AllSwaps(txs)
    decreases |txs|
  {
    txs != [] ==>
      && txs[0].pool == pool && txs[0].account == account && txs[0].assetIn == assetIn
      && SwapStep(l, now, txs[0]).outcome.Applied?
      && SameDirection(SwapStep(l, now, txs[0]).state, now, txs[1..], pool, account, assetIn)
  }

  function AmountsOf(txs: seq<Tx>): nat
    requires AllSwaps(txs)
  {
    if txs == [] then 0 else txs[0].amount + AmountsOf(txs[1..])
  }

  /** A list of same-direction swaps pays in the sum of the amounts, pays out of the other reserve, and keeps the product. */
  lemma {:induction false} SwapsAccount(l: Ledger, now: nat, txs: seq<Tx>, pool: Id, account: Id, assetIn: Id)
    requires LedgerOk(l) && pool in l.dex.pools && AllSwaps(txs) && SameDirection(l, now, txs, pool, account, assetIn)
    requires assetIn == l.dex.pools[pool].base || assetIn == l.dex.pools[pool].quote
    requires l.dex.pools[pool].base != l.dex.pools[pool].quote
    ensures pool in SwapAll(l, now, txs).dex.pools
    ensures var p := l.dex.pools[pool];
            var l' := SwapAll(l, now, txs);
            var p' := l'.dex.pools[pool];
            var out := OtherAsset(p, assetIn);
            && InReserve(p', assetIn) == InReserve(p, assetIn) + AmountsOf(txs)
            && Holding(l'.book, account, assetIn) == Holding(l.book, account, assetIn) - AmountsOf(txs)
            && Holding(l'.book, account, out) + OutReserve(p', assetIn) ==
               Holding(l.book, account, out) + OutReserve(p, assetIn)
            && InReserve(p', assetIn) * OutReserve(p', assetIn) >= InReserve(p, assetIn) * OutReserve(p, assetIn)
    decreases |txs|
  {
    hide LedgerOk, SwapStep, Holding, ConstantProductOut, PaidBy;
    if txs != [] {
      var tx := txs[0];
      var p := l.dex.pools[pool];
      var l1 := SwapStep(l, now, tx).state;
      SwapEffect(l, now, tx, account, assetIn);
      SwapEffect(l, now, tx, account, OtherAsset(p, assetIn));
      SwapBounds(InReserve(p, assetIn), OutReserve(p, assetIn), tx.amount, pool);
      SwapKeepsLedgerOk(l, now, tx);
      SwapsAccount(l1, now, txs[1..], pool, account, assetIn);
    }
  }

  /** One swap of the whole amount leaves the trader with at least as much as any split into same-direction swaps. */
  lemma SplittingNeverHelps(l: Ledger, now: nat, txs: seq<Tx>, whole: Tx)
    requires LedgerOk(l) && whole.SwapExactIn? && SwapStep(l, now, whole).outcome.Applied?
    requires whole.pool in l.dex.pools
    requires AllSwaps(txs) && SameDirection(l, now, txs, whole.pool, whole.account, whole.assetIn)
    requires whole.amount == AmountsOf(txs)
    ensures var split := SwapAll(l, now, txs).book;
            var once := SwapStep(l, now, whole).state.book;
            var out := OtherAsset(l.dex.pools[whole.pool], whole.assetIn);
            && Holding(split, whole.account, whole.assetIn) == Holding(once, whole.account, whole.assetIn)
            && Holding(split, whole.account, out) <= Holding(once, whole.account, out)
  {
    hide LedgerOk, SwapStep, Holding, ConstantProductOut, PaidBy, SwapAll, SameDirection, AmountsOf;
    var p := l.dex.pools[whole.pool];
    var a := whole.assetIn;
    SwapEffect(l, now, whole, whole.account, a);
    SwapEffect(l, now, whole, whole.account, OtherAsset(p, a));
    SwapsAccount(l, now, txs, whole.pool, whole.account, a);
    var p' := SwapAll(l, now, txs).dex.pools[whole.pool];
    if OutReserve(p', a) <= OutReserve(p, a) {
      SwapIsMaximal(InReserve(p, a), OutReserve(p, a), whole.amount, whole.pool, OutReserve(p, a) - OutReserve(p', a));
    }
  }
}
