/** Runs in which every rejection is clean. */
module CleanRuns {
  import opened Prelude
  import opened Ids
  import opened Records
  import opened State
  import opened Accounts
  import opened BookFacts
  import opened PoolMath
  import opened Exchange
  import opened DexFacts
  import opened BridgePath
  import opened BridgeFacts
  import opened Machine
  import opened LedgerInvariant
  import opened Conservation
  import opened Rejection
  import opened PoolHistory
  import opened Shares

  function FaucetAmount(): FaucetRecord -> nat {
    (r: FaucetRecord) => r.amount
  }

  /** All faucet payments on record. */
  ghost function Fauceted(faucets: map<Id, FaucetRecord>): nat {
    Sum(faucets, FaucetAmount())
  }

  /** The position's cumulative counters can take this transaction, and a withdrawal asks for something. */
  predicate CountersFit(l: Ledger, tx: Tx) {
    match tx
    case AddLiquidity(_, _, _, _, _, _) => !DepositCounterOverflows(l, tx)
    case RemoveLiquidity(_, pool, account, _, minBase, minQuote) =>
      && minBase >= 1 && minQuote >= 1
      && (RemoveQuote(l, tx).Ok? && LpPositionId(pool, account) in l.dex.positions ==>
          !WithdrawalCounterOverflows(l, tx, RemoveQuote(l, tx).value.0, RemoveQuote(l, tx).value.1))
    case _ => true
  }

  /** Every asset's total, with what the transaction states to issue, fits 64 bits; so do the faucet payments. */
  ghost predicate Roomy(l: Ledger, tx: Tx) {
    && (forall a :: Total(l, a) + Stated(tx, a) <= MAX_U64)
    && Fauceted(l.book.log.faucets) + Stated(tx, LocalUnit) <= MAX_U64
  }

  lemma HeldAndPooled(l: Ledger, account: Id, pool: Id)
    requires BookOk(l.book) && pool in l.dex.pools
    ensures var p := l.dex.pools[pool];
            && Holding(l.book, account, p.base) + p.reserveBase <= Total(l, p.base)
            && Holding(l.book, account, p.quote) + p.reserveQuote <= Total(l, p.quote)
  {
    var p := l.dex.pools[pool];
    HoldingInTotal(l.book, account, p.base);
    HoldingInTotal(l.book, account, p.quote);
    SumAtLeast(l.dex.pools, pool, BaseOf(p.base));
    SumAtLeast(l.dex.pools, pool, QuoteOf(p.quote));
  }

  lemma FaucetHasRoom(b: Book, tx: Tx)
    requires BookOk(b) && tx.Faucet? && Fauceted(b.log.faucets) + tx.amount <= MAX_U64
    ensures !FaucetLeaks(b, tx)
  {
    if tx.account in b.held.units {
      SumMonotone(b.log.faucets, PaidTo(tx.account), FaucetAmount());
    }
  }

  lemma AvailableIsHeld(b: Book, account: Id, asset: Id, amount: U64)
    requires Availability(b, account, asset, amount).Applied?
    ensures amount <= Holding(b, account, asset)
  {
  }


  /** With room for the totals and the counters, no transaction can leave a trace of its rejection. */
  lemma RoomMeansNoTrace(l: Ledger, tx: Tx)
    requires LedgerOk(l) && Roomy(l, tx) && CountersFit(l, tx)
    ensures !LeavesTrace(l, tx)
  {
    hide BookOk, DexOk, BridgeOk, AddQuote, RemoveQuote, SwapQuote, FaucetLeaks, DepositCounterOverflows,
         WithdrawalCounterOverflows, Total, Holding, Availability, LiquidityUnits, Proportional, SwapPlanFor,
         ConstantProductOut, Healthy, AssetExists;
    if tx.Faucet? {
      FaucetHasRoom(l.book, tx);
    } else if tx.AddLiquidity? && AddQuote(l, tx).Ok? {
      AddQuoteFacts(l, tx, AddQuote(l, tx).value);
      var p := l.dex.pools[tx.pool];
      HeldAndPooled(l, tx.account, tx.pool);
      AvailableIsHeld(l.book, tx.account, p.base, tx.baseAmount);
      AvailableIsHeld(l.book, tx.account, p.quote, tx.quoteAmount);
    } else if tx.RemoveLiquidity? && RemoveQuote(l, tx).Ok? {
      var (base, quote) := RemoveQuote(l, tx).value;
      WithdrawalFits(l, tx, base, quote);
      RemoveQuoteFacts(l, tx, base, quote);
      HeldAndPooled(l, tx.account, tx.pool);
    } else if tx.SwapExactIn? && SwapQuote(l, tx).Ok? {
      var plan := SwapQuote(l, tx).value;
      SwapQuoteFacts(l, tx, plan);
      PoolFacts(l, tx.pool);
      SwapPlanFacts(l.dex.pools[tx.pool], tx.pool, tx.assetIn, tx.amount, plan);
      HeldAndPooled(l, tx.account, tx.pool);
    }
  }

  // ----- how faucet records grow -----

  lemma BookFauceted(b: Book, now: nat, tx: Tx)
    requires IsBookTx(tx)
    ensures Fauceted(BookStep(b, now, tx).state.log.faucets) <= Fauceted(b.log.faucets) + Stated(tx, LocalUnit)
  {
    hide LaunchStep, MintStep, TransferStep, CreateBalanceStep, LaunchedToken, Stated, Fauceted;
    if tx.Faucet? {
      FaucetRecorded(b, now, tx);
    } else {
      OnlyFaucetsRecord(b, now, tx);
    }
  }

  lemma FaucetRecorded(b: Book, now: nat, tx: Tx)
    requires tx.Faucet?
    ensures Fauceted(FaucetStep(b, now, tx).state.log.faucets) <= Fauceted(b.log.faucets) + Stated(tx, LocalUnit)
  {
    var s := FaucetStep(b, now, tx);
    if s.outcome.Applied? {
      SumPut(b.log.faucets, tx.record, s.state.log.faucets[tx.record], FaucetAmount());
    }
  }

  lemma OnlyFaucetsRecord(b: Book, now: nat, tx: Tx)
    requires IsBookTx(tx) && !tx.Faucet?
    ensures BookStep(b, now, tx).state.log.faucets == b.log.faucets
  {
    hide FaucetStep, Credit;
    if tx.LaunchToken? {
      var defined := b.(tokens := b.tokens[tx.token := LaunchedToken(tx, now)]);
      CreditKeepsLog(defined, now, tx.account, tx.token, tx.amount);
    } else if tx.MintToken? {
      CreditKeepsLog(b, now, tx.account, tx.token, tx.amount);
    }
  }

  lemma CreditKeepsLog(b: Book, now: nat, account: Id, asset: Id, amount: U64)
    ensures Credit(b, now, account, asset, amount).state.log == b.log
  {
  }

  lemma StepFauceted(l: Ledger, now: nat, tx: Tx)
    requires LedgerOk(l) && IsLedgerTx(tx)
    ensures Fauceted(LedgerStep(l, now, tx).state.book.log.faucets) <=
            Fauceted(l.book.log.faucets) + Stated(tx, LocalUnit)
  {
    hide BookOk, DexOk, BridgeOk, BookStep, CreatePoolStep, AddStep, RemoveStep, SwapStep, AssetExists, MapAssetStep,
         MapAccountStep, CreditStep, CreditQuote, Consume, CreditedBook, Credit, Fauceted, Stated;
    if IsBookTx(tx) {
      BookFauceted(l.book, now, tx);
    } else if tx.CreatePool? {
      CreatePoolShape(l, now, tx);
    } else if tx.AddLiquidity? {
      AddKeepsOk(l, now, tx);
    } else if tx.RemoveLiquidity? {
      RemoveKeepsOk(l, now, tx);
    } else if tx.SwapExactIn? {
      SwapKeepsOk(l, now, tx);
    } else if tx.CreditBridge? {
      CreditShape(l, now, tx);
      if CreditStep(l, now, tx).outcome.Applied? {
        CreditQuoteFacts(l, tx);
        CreditedBookFacts(l.book, now, tx);
      }
    } else {
      MapShape(l, now, tx);
    }
  }

  // ----- runs -----

  /** What a list of transactions states to issue in one asset. */
  function StatedBy(events: seq<Event>, a: Id): nat {
    if events == [] then 0 else Stated(events[0].tx, a) + StatedBy(events[1..], a)
  }

  /** What exists plus everything still to be issued fits 64 bits, asset by asset. */
  ghost predicate Budgeted(l: Ledger, events: seq<Event>) {
    && (forall a :: Total(l, a) + StatedBy(events, a) <= MAX_U64)
    && Fauceted(l.book.log.faucets) + StatedBy(events, LocalUnit) <= MAX_U64
  }

  ghost predicate CountersFitThroughout(c: Core, events: seq<Event>)
    decreases |events|
  {
    events == [] ||
    (CountersFit(c.ledger, events[0].tx) &&
     CountersFitThroughout(Apply(c, events[0].env, events[0].tx).state, events[1..]))
  }

  /** Every rejected transaction of the run left the committed state exactly as it found it. */
  ghost predicate RejectsCleanly(c: Core, events: seq<Event>)
    decreases |events|
  {
    events == [] ||
    var s := Apply(c, events[0].env, events[0].tx);
    (s.outcome.Rejected? ==> s.state == c) && RejectsCleanly(s.state, events[1..])
  }

  lemma BudgetedStep(c: Core, events: seq<Event>)
    requires events != [] && LedgerOk(c.ledger) && Budgeted(c.ledger, events)
    ensures Roomy(c.ledger, events[0].tx)
    ensures Budgeted(Apply(c, events[0].env, events[0].tx).state.ledger, events[1..])
  {
    hide LedgerOk, LedgerStep, Total, Stated, Fauceted, Lost;
    var e := events[0];
    var c' := Apply(c, e.env, e.tx).state;
    assert forall a :: StatedBy(events, a) == Stated(e.tx, a) + StatedBy(events[1..], a);
    forall a
      ensures Total(c'.ledger, a) + StatedBy(events[1..], a) <= MAX_U64
    {
      ApplyConserves(c, e.env, e.tx, a);
    }
    if IsLedgerTx(e.tx) {
      StepFauceted(c.ledger, e.env.now, e.tx);
    } else {
      OtherTxKeepsLedger(c, e.env, e.tx);
    }
  }

  /** While stated issuance and position counters fit 64 bits, a run rejects cleanly. */
  lemma {:induction false} BudgetedRunsRejectCleanly(c: Core, events: seq<Event>)
    requires LedgerOk(c.ledger) && Budgeted(c.ledger, events) && CountersFitThroughout(c, events)
    ensures RejectsCleanly(c, events)
    decreases |events|
  {
    hide LedgerOk, Apply, Budgeted, Roomy, CountersFit, LeavesTrace;
    if events != [] {
      var e := events[0];
      BudgetedStep(c, events);
      RoomMeansNoTrace(c.ledger, e.tx);
      RejectionLeavesTraceIff(c, e.env, e.tx);
      ApplyKeepsLedgerOk(c, e.env, e.tx);
      BudgetedRunsRejectCleanly(Apply(c, e.env, e.tx).state, events[1..]);
    }
  }

  // ----- bounding the counters by what is stated -----

  /** What a transaction states to put into a pool, in one of its assets. */
  function Into(tx: Tx, pool: Id, asset: Id): nat {
    match tx
    case AddLiquidity(_, at, _, base, quote, _) =>
      if at == pool && pool.PoolId? then (if asset == pool.base then base else 0) + (if asset == pool.quote then quote else 0)
      else 0
    case SwapExactIn(_, at, _, assetIn, amount, _) => if at == pool && assetIn == asset then amount else 0
    case _ => 0
  }

  function IntoBy(events: seq<Event>, pool: Id, asset: Id): nat {
    if events == [] then 0 else Into(events[0].tx, pool, asset) + IntoBy(events[1..], pool, asset)
  }

  /** A pool's reserves with everything still to come in fit 64 bits. */
  predicate PoolRoom(p: Pool, base: nat, quote: nat) {
    p.reserveBase + base <= MAX_U64 && p.reserveQuote + quote <= MAX_U64
  }

  /** So do a position's counters: deposits can only come in, withdrawals only come out of what came in. */
  predicate PositionRoom(p: Pool, r: Position, base: nat, quote: nat) {
    && p.reserveBase + r.baseOut + base <= MAX_U64 && p.reserveQuote + r.quoteOut + quote <= MAX_U64
    && r.baseIn + base <= MAX_U64 && r.quoteIn + quote <= MAX_U64
  }

  ghost predicate PoolsRoom(pools: map<Id, Pool>, events: seq<Event>) {
    forall x :: x in pools ==> PoolRoom(pools[x], IntoBy(events, x, pools[x].base), IntoBy(events, x, pools[x].quote))
  }

  ghost predicate PositionsRoom(pools: map<Id, Pool>, positions: map<Id, Position>, events: seq<Event>) {
    forall k :: k in positions && positions[k].pool in pools ==>
      var x := positions[k].pool;
      PositionRoom(pools[x], positions[k], IntoBy(events, x, pools[x].base), IntoBy(events, x, pools[x].quote))
  }

  ghost predicate AllRoom(d: Dex, events: seq<Event>) {
    && PoolsRoom(d.pools, events) && PositionsRoom(d.pools, d.positions, events)
    && forall x, a :: IntoBy(events, x, a) <= MAX_U64
  }

  /** Every withdrawal asks for something of both assets. */
  predicate AsksForBoth(tx: Tx) {
    tx.RemoveLiquidity? ==> tx.minBase >= 1 && tx.minQuote >= 1
  }

  lemma IntoHead(events: seq<Event>, pool: Id, asset: Id)
    requires events != []
    ensures IntoBy(events, pool, asset) == Into(events[0].tx, pool, asset) + IntoBy(events[1..], pool, asset)
  {
  }

  /** A step that leaves the exchange alone leaves it room. */
  lemma SameDexRoom(d: Dex, events: seq<Event>)
    requires events != [] && AllRoom(d, events)
    ensures AllRoom(d, events[1..])
  {
    hide IntoBy, Into;
    forall x, a
      ensures IntoBy(events[1..], x, a) <= IntoBy(events, x, a)
    {
      IntoHead(events, x, a);
    }
  }

  /** Writing one pool whose reserves grew by no more than what was stated keeps the room of the rest. */
  lemma PoolWriteRoom(d: Dex, events: seq<Event>, pool: Id, p: Pool)
    requires events != [] && AllRoom(d, events) && pool in d.pools
    requires p.base == d.pools[pool].base && p.quote == d.pools[pool].quote
    requires p.reserveBase <= d.pools[pool].reserveBase + Into(events[0].tx, pool, p.base)
    requires p.reserveQuote <= d.pools[pool].reserveQuote + Into(events[0].tx, pool, p.quote)
    ensures AllRoom(d.(pools := d.pools[pool := p]), events[1..])
  {
    hide IntoBy, Into;
    forall x, a
      ensures IntoBy(events, x, a) == Into(events[0].tx, x, a) + IntoBy(events[1..], x, a)
    {
      IntoHead(events, x, a);
    }
  }

  /** Writing one position with room of its own. */
  lemma PositionWriteRoom(d: Dex, events: seq<Event>, k: Id, r: Position)
    requires AllRoom(d, events) && r.pool in d.pools
    requires PositionRoom(d.pools[r.pool], r, IntoBy(events, r.pool, d.pools[r.pool].base),
                          IntoBy(events, r.pool, d.pools[r.pool].quote))
    ensures AllRoom(d.(positions := d.positions[k := r]), events)
  {
    hide IntoBy;
  }

  lemma RoomOf(d: Dex, events: seq<Event>, pool: Id)
    requires events != [] && AllRoom(d, events) && pool in d.pools
    ensures var p := d.pools[pool];
            var base := Into(events[0].tx, pool, p.base) + IntoBy(events[1..], pool, p.base);
            var quote := Into(events[0].tx, pool, p.quote) + IntoBy(events[1..], pool, p.quote);
            && PoolRoom(p, base, quote)
            && forall k :: k in d.positions && d.positions[k].pool == pool ==> PositionRoom(p, d.positions[k], base, quote)
  {
    hide IntoBy, Into;
    IntoHead(events, pool, d.pools[pool].base);
    IntoHead(events, pool, d.pools[pool].quote);
  }

  /** The counters of a deposit's position, when none of them is full. */
  lemma DepositedCounters(l: Ledger, now: nat, tx: Tx, lp: U64)
    requires tx.AddLiquidity? && !DepositCounterOverflows(l, tx)
    requires PositionOf(l.dex, tx.pool, tx.account, now).lp + lp <= MAX_U64
    ensures var old_ := PositionOf(l.dex, tx.pool, tx.account, now);
            var r := DepositedPosition(l, now, tx, lp);
            && r.baseIn == old_.baseIn + tx.baseAmount && r.quoteIn == old_.quoteIn + tx.quoteAmount
            && r.baseOut == old_.baseOut && r.quoteOut == old_.quoteOut
  {
  }

  lemma AddRoom(l: Ledger, env: Env, events: seq<Event>)
    requires LedgerOk(l) && events != [] && events[0].tx.AddLiquidity? && AllRoom(l.dex, events)
    ensures !DepositCounterOverflows(l, events[0].tx)
    ensures AllRoom(AddStep(l, env.now, events[0].tx).state.dex, events[1..])
  {
    hide BookOk, DexOk, BridgeOk, AddStep, AddQuote, Availability, LiquidityUnits, Healthy, PaidIn, AllRoom, IntoBy,
         DepositedPosition;
    var tx := events[0].tx;
    NoFullCounter(l, events);
    match AddQuote(l, tx) {
      case Err(_) =>
        AddRefused(l, env.now, tx);
        SameDexRoom(l.dex, events);
      case Ok(lp) =>
        AddQuoteFacts(l, tx, lp);
        var p := l.dex.pools[tx.pool];
        PoolIdOf(l, tx.pool);
        RoomOf(l.dex, events, tx.pool);
        AddPooledOutcome(l, env.now, tx, lp);
        DepositFits(l, env.now, tx, lp);
        PoolWriteRoom(l.dex, events, tx.pool, Deposited(p, env.now, tx, lp));
        DepositedPositionFacts(l, env.now, tx, lp);
        DepositedCounters(l, env.now, tx, lp);
        PositionFiled(l, tx.pool, tx.account);
        var d := l.dex.(pools := l.dex.pools[tx.pool := Deposited(p, env.now, tx, lp)]);
        PositionWriteRoom(d, events[1..], LpPositionId(tx.pool, tx.account), DepositedPosition(l, env.now, tx, lp));
        RoomIgnoresLog(d.(positions := AddStep(l, env.now, tx).state.dex.positions), AddStep(l, env.now, tx).state.dex, events[1..]);
    }
  }

  /** Room depends on pools and positions alone. */
  lemma RoomIgnoresLog(d: Dex, d': Dex, events: seq<Event>)
    requires AllRoom(d, events) && d'.pools == d.pools && d'.positions == d.positions
    ensures AllRoom(d', events)
  {
  }

  lemma PoolIdOf(l: Ledger, pool: Id)
    requires LedgerOk(l) && pool in l.dex.pools
    ensures pool == PoolId(l.dex.pools[pool].base, l.dex.pools[pool].quote)
    ensures l.dex.pools[pool].base != l.dex.pools[pool].quote
  {
  }

  lemma NoFullCounter(l: Ledger, events: seq<Event>)
    requires LedgerOk(l) && events != [] && events[0].tx.AddLiquidity? && AllRoom(l.dex, events)
    ensures !DepositCounterOverflows(l, events[0].tx)
  {
    hide LedgerOk, AllRoom, IntoBy;
    var tx := events[0].tx;
    if LpPositionId(tx.pool, tx.account) in l.dex.positions {
      PositionFiled(l, tx.pool, tx.account);
      PoolIdOf(l, tx.pool);
      RoomOf(l.dex, events, tx.pool);
    }
  }

  lemma RemoveRoom(l: Ledger, env: Env, events: seq<Event>)
    requires LedgerOk(l) && events != [] && events[0].tx.RemoveLiquidity? && AllRoom(l.dex, events)
    ensures var tx := events[0].tx;
            RemoveQuote(l, tx).Ok? && LpPositionId(tx.pool, tx.account) in l.dex.positions ==>
              !WithdrawalCounterOverflows(l, tx, RemoveQuote(l, tx).value.0, RemoveQuote(l, tx).value.1)
    ensures AllRoom(RemoveStep(l, env.now, events[0].tx).state.dex, events[1..])
  {
    hide BookOk, DexOk, BridgeOk, RemoveStep, RemoveCommit, RemoveQuote, Credit, PaidOut, Healthy, BacksAtLeast, AllRoom,
         IntoBy, Proportional;
    var tx := events[0].tx;
    match RemoveQuote(l, tx) {
      case Err(_) =>
        RemoveRefused(l, env.now, tx);
        SameDexRoom(l.dex, events);
      case Ok((base, quote)) =>
        RemoveStepCommits(l, env.now, tx, base, quote);
        RemoveQuoteFacts(l, tx, base, quote);
        WithdrawalFits(l, tx, base, quote);
        PositionFiled(l, tx.pool, tx.account);
        RoomOf(l.dex, events, tx.pool);
        RemovePooledShape(l, env.now, tx, base, quote);
        var p' := Withdrawn(l.dex.pools[tx.pool], env.now, tx, base, quote);
        PoolWriteRoom(l.dex, events, tx.pool, p');
        var d := l.dex.(pools := l.dex.pools[tx.pool := p']);
        PositionWriteRoom(d, events[1..], LpPositionId(tx.pool, tx.account), WithdrawnPosition(l, env.now, tx, base, quote));
        var d' := RemoveStep(l, env.now, tx).state.dex;
        RoomIgnoresLog(d.(positions := d'.positions), d', events[1..]);
    }
  }

  lemma SwapRoom(l: Ledger, env: Env, events: seq<Event>)
    requires LedgerOk(l) && events != [] && events[0].tx.SwapExactIn? && AllRoom(l.dex, events)
    ensures AllRoom(SwapStep(l, env.now, events[0].tx).state.dex, events[1..])
  {
    hide BookOk, DexOk, BridgeOk, SwapStep, SwapCommit, SwapQuote, SwapPlanFor, Debit, Credit, Availability, Holding,
         Healthy, AllRoom, IntoBy, ConstantProductOut;
    var tx := events[0].tx;
    match SwapQuote(l, tx) {
      case Err(_) =>
        SwapRefused(l, env.now, tx);
        SameDexRoom(l.dex, events);
      case Ok(plan) =>
        SwapStepCommits(l, env.now, tx, plan);
        SwapPayment(l, env.now, tx, plan);
        SwapShape(l, env.now, tx, plan);
        SwapQuoteFacts(l, tx, plan);
        var p := l.dex.pools[tx.pool];
        PoolIdOf(l, tx.pool);
        SwapPlanFacts(p, tx.pool, tx.assetIn, tx.amount, plan);
        if SwapStep(l, env.now, tx).outcome.Applied? {
          PoolWriteRoom(l.dex, events, tx.pool, Traded(p, env.now, tx, plan));
          var d' := SwapStep(l, env.now, tx).state.dex;
          RoomIgnoresLog(l.dex.(pools := d'.pools), d', events[1..]);
        } else {
          SameDexRoom(l.dex, events);
        }
    }
  }

  lemma CreateRoom(l: Ledger, env: Env, events: seq<Event>)
    requires LedgerOk(l) && events != [] && events[0].tx.CreatePool? && AllRoom(l.dex, events)
    ensures AllRoom(CreatePoolStep(l, env.now, events[0].tx).state.dex, events[1..])
  {
    hide BookOk, BridgeOk, CreatePoolStep, AssetExists, IntoBy, PoolKeys, PoolsHealthy, SharesCovered;
    CreatePoolShape(l, env.now, events[0].tx);
    SameDexRoom(l.dex, events);
  }

  lemma StepRoom(c: Core, events: seq<Event>)
    requires LedgerOk(c.ledger) && events != [] && AsksForBoth(events[0].tx) && AllRoom(c.ledger.dex, events)
    ensures CountersFit(c.ledger, events[0].tx)
    ensures AllRoom(Apply(c, events[0].env, events[0].tx).state.ledger.dex, events[1..])
  {
    hide LedgerOk, BookStep, BridgeStep, CreatePoolStep, AddStep, RemoveStep, SwapStep, AnchorStep, AllRoom, RemoveQuote,
         DepositCounterOverflows, WithdrawalCounterOverflows;
    var e := events[0];
    if !IsLedgerTx(e.tx) {
      OtherTxKeepsLedger(c, e.env, e.tx);
      SameDexRoom(c.ledger.dex, events);
    } else if !IsDexTx(e.tx) {
      OnlyDexTouchesDex(c.ledger, e.env.now, e.tx);
      SameDexRoom(c.ledger.dex, events);
    } else if e.tx.CreatePool? {
      CreateRoom(c.ledger, e.env, events);
    } else if e.tx.AddLiquidity? {
      AddRoom(c.ledger, e.env, events);
    } else if e.tx.RemoveLiquidity? {
      RemoveRoom(c.ledger, e.env, events);
    } else {
      SwapRoom(c.ledger, e.env, events);
    }
  }

  /** What is stated to go into the pools bounds every counter along the run. */
  lemma {:induction false} CountersFitAlong(c: Core, events: seq<Event>)
    requires LedgerOk(c.ledger) && AllRoom(c.ledger.dex, events)
    requires forall i :: 0 <= i < |events| ==> AsksForBoth(events[i].tx)
    ensures CountersFitThroughout(c, events)
    decreases |events|
  {
    hide LedgerOk, Apply, AllRoom, CountersFit, AsksForBoth;
    if events != [] {
      StepRoom(c, events);
      ApplyKeepsLedgerOk(c, events[0].env, events[0].tx);
      CountersFitAlong(Apply(c, events[0].env, events[0].tx).state, events[1..]);
    }
  }

  /**
   * From genesis, conditions on the transactions alone: what they state to issue in each asset, and to
   * put into each pool, fits 64 bits, and withdrawals ask for something. Then every rejection is clean.
   */
  lemma GenesisRunsRejectCleanly(events: seq<Event>)
    requires forall a :: StatedBy(events, a) <= MAX_U64
    requires forall pool, a :: IntoBy(events, pool, a) <= MAX_U64
    requires forall i :: 0 <= i < |events| ==> AsksForBoth(events[i].tx)
    ensures RejectsCleanly(EmptyCore(), events)
  {
    hide CountersFitThroughout, RejectsCleanly, StatedBy, LedgerOk, IntoBy, AsksForBoth;
    EmptyLedgerOk();
    forall a
      ensures Total(EmptyCore().ledger, a) == 0
    {
      SumEmpty<Id, UnitBalance>(UnitsOf());
      SumEmpty<Id, TokenBalance>(TokenUnitsOf(a));
      SumEmpty<Id, Pool>(BaseOf(a));
      SumEmpty<Id, Pool>(QuoteOf(a));
    }
    SumEmpty<Id, FaucetRecord>(FaucetAmount());
    CountersFitAlong(EmptyCore(), events);
    BudgetedRunsRejectCleanly(EmptyCore(), events);
  }
}
