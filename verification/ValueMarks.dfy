/** Which balances are value bearing: only live bridge credits start it, only transfers pass it on, nothing ends it. */
module ValueMarks {
  import opened Prelude
  import opened Text
  import opened Ids
  import opened Records
  import opened State
  import opened Accounts
  import opened Exchange
  import opened BridgePath
  import opened BookFacts
  import opened PoolMath
  import opened DexFacts
  import opened BridgeFacts
  import opened WorkLifecycle
  import opened Machine
  import opened LedgerInvariant

  /** The account's balance of the asset is value bearing. */
  predicate Bears(b: Book, account: Id, asset: Id) {
    if asset == LocalUnit then account in b.held.units && !b.held.units[account].noValue
    else TokenBalanceId(asset, account) in b.held.tokens && !b.held.tokens[TokenBalanceId(asset, account)].noValue
  }

  /** Exactly the same balances are value bearing. */
  ghost predicate SameMarks(b: Book, b': Book) {
    forall x, y :: Bears(b', x, y) <==> Bears(b, x, y)
  }

  // ----- one step -----

  lemma DebitMarks(b: Book, now: nat, account: Id, asset: Id, amount: U64)
    ensures SameMarks(b, Debit(b, now, account, asset, amount).state)
  {
  }

  lemma CreditMarks(b: Book, now: nat, account: Id, asset: Id, amount: U64)
    ensures SameMarks(b, Credit(b, now, account, asset, amount).state)
  {
  }

  /** A transfer makes the target value bearing exactly when the source is; nothing else changes. */
  lemma TransferMarks(b: Book, now: nat, tx: Tx, x: Id, y: Id)
    requires tx.Transfer?
    ensures var s := TransferStep(b, now, tx);
            Bears(s.state, x, y) <==>
            Bears(b, x, y) || (s.outcome.Applied? && x == tx.target && y == LocalUnit && Bears(b, tx.source, LocalUnit))
  {
  }

  lemma SameHeldSameMarks(b: Book, b': Book)
    requires b'.held == b.held
    ensures SameMarks(b, b')
  {
  }

  lemma SameMarksOn(b: Book, b1: Book, b2: Book)
    requires SameMarks(b, b1) && SameMarks(b1, b2)
    ensures SameMarks(b, b2)
  {
    hide Bears;
  }

  lemma LaunchMarks(b: Book, now: nat, tx: Tx)
    requires tx.LaunchToken?
    ensures SameMarks(b, LaunchStep(b, now, tx).state)
  {
    hide Credit, NormalizeSymbol, Bears, LaunchedToken;
    var defined := b.(tokens := b.tokens[tx.token := LaunchedToken(tx, now)]);
    var paid := Credit(defined, now, tx.account, tx.token, tx.amount).state;
    SameHeldSameMarks(b, b);
    SameHeldSameMarks(b, defined);
    CreditMarks(defined, now, tx.account, tx.token, tx.amount);
    SameMarksOn(b, defined, paid);
    SameHeldSameMarks(paid, paid.(log := LaunchStep(b, now, tx).state.log));
    SameMarksOn(b, paid, paid.(log := LaunchStep(b, now, tx).state.log));
  }

  lemma MintMarks(b: Book, now: nat, tx: Tx)
    requires tx.MintToken?
    ensures SameMarks(b, MintStep(b, now, tx).state)
  {
    hide Credit, Bears;
    var paid := Credit(b, now, tx.account, tx.token, tx.amount).state;
    SameHeldSameMarks(b, b);
    CreditMarks(b, now, tx.account, tx.token, tx.amount);
    var s := MintStep(b, now, tx).state;
    if s != b {
      SameHeldSameMarks(paid, s);
      SameMarksOn(b, paid, s);
    }
  }

  /** No other transaction of the book marks or unmarks. */
  lemma BookMarks(b: Book, now: nat, tx: Tx)
    requires IsBookTx(tx) && !tx.Transfer?
    ensures SameMarks(b, BookStep(b, now, tx).state)
  {
    hide TransferStep, LaunchStep, MintStep;
    if tx.LaunchToken? {
      LaunchMarks(b, now, tx);
    } else if tx.MintToken? {
      MintMarks(b, now, tx);
    }
  }

  lemma AddMarks(l: Ledger, now: nat, tx: Tx)
    requires LedgerOk(l) && tx.AddLiquidity?
    ensures SameMarks(l.book, AddStep(l, now, tx).state.book)
  {
    hide BookOk, DexOk, BridgeOk, AddStep, AddQuote, Debit, Availability, LiquidityUnits, DepositedPosition,
         DepositCounterOverflows, Healthy, Bears;
    match AddQuote(l, tx) {
      case Err(_) => AddRefused(l, now, tx);
      case Ok(lp) =>
        AddQuoteFacts(l, tx, lp);
        var p := l.dex.pools[tx.pool];
        DebitMarks(l.book, now, tx.account, p.base, tx.baseAmount);
        DebitMarks(Debit(l.book, now, tx.account, p.base, tx.baseAmount).state, now, tx.account, p.quote, tx.quoteAmount);
        if ReserveOverflows(l, tx) {
          AddOverflowOutcome(l, now, tx, lp);
        } else {
          AddPooledOutcome(l, now, tx, lp);
        }
    }
  }

  lemma RemoveMarks(l: Ledger, now: nat, tx: Tx)
    requires LedgerOk(l) && tx.RemoveLiquidity?
    ensures SameMarks(l.book, RemoveStep(l, now, tx).state.book)
  {
    hide BookOk, DexOk, BridgeOk, RemoveStep, RemoveCommit, RemoveQuote, Credit, Healthy, BacksAtLeast,
         WithdrawnPosition, WithdrawalCounterOverflows, Proportional, Bears;
    match RemoveQuote(l, tx) {
      case Err(_) => RemoveRefused(l, now, tx);
      case Ok((base, quote)) =>
        RemoveStepCommits(l, now, tx, base, quote);
        WithdrawalFits(l, tx, base, quote);
        if WithdrawalCounterOverflows(l, tx, base, quote) {
          RemoveCounterShape(l, now, tx, base, quote);
        } else {
          var p := l.dex.pools[tx.pool];
          RemovePooledShape(l, now, tx, base, quote);
          CreditMarks(l.book, now, tx.account, p.base, base);
          CreditMarks(Credit(l.book, now, tx.account, p.base, base).state, now, tx.account, p.quote, quote);
        }
    }
  }

  lemma SwapMarks(l: Ledger, now: nat, tx: Tx)
    requires LedgerOk(l) && tx.SwapExactIn?
    ensures SameMarks(l.book, SwapStep(l, now, tx).state.book)
  {
    hide BookOk, DexOk, BridgeOk, SwapStep, SwapCommit, SwapQuote, Debit, Credit, Holding, Bears;
    match SwapQuote(l, tx) {
      case Err(_) => SwapRefused(l, now, tx);
      case Ok(plan) =>
        SwapStepCommits(l, now, tx, plan);
        SwapPayment(l, now, tx, plan);
        SwapShape(l, now, tx, plan);
        DebitMarks(l.book, now, tx.account, tx.assetIn, tx.amount);
        CreditMarks(Debit(l.book, now, tx.account, tx.assetIn, tx.amount).state, now, tx.account, plan.assetOut, plan.out);
    }
  }

  lemma DexMarks(l: Ledger, now: nat, tx: Tx)
    requires LedgerOk(l) && IsDexTx(tx)
    ensures SameMarks(l.book, DexStep(l, now, tx).state.book)
  {
    hide LedgerOk, CreatePoolStep, AddStep, RemoveStep, SwapStep, Bears;
    if tx.CreatePool? {
      CreatePoolShape(l, now, tx);
    } else if tx.AddLiquidity? {
      AddMarks(l, now, tx);
    } else if tx.RemoveLiquidity? {
      RemoveMarks(l, now, tx);
    } else {
      SwapMarks(l, now, tx);
    }
  }

  /** The transaction is a bridge credit in live mode. */
  predicate LiveCredit(tx: Tx) {
    tx.CreditBridge? && tx.productionReady && !tx.localOnly
  }

  lemma MarkMarks(b: Book, account: Id, asset: Id, x: Id, y: Id)
    ensures Bears(MarkValueBearing(b, account, asset), x, y) <==>
            Bears(b, x, y) || (x == account && y == asset &&
              (if asset == LocalUnit then account in b.held.units else TokenBalanceId(asset, account) in b.held.tokens))
  {
    var b' := MarkValueBearing(b, account, asset);
    if asset == LocalUnit {
      assert b'.held.tokens == b.held.tokens;
    } else {
      assert b'.held.units == b.held.units;
      assert TokenBalanceId(y, x) == TokenBalanceId(asset, account) <==> x == account && y == asset;
    }
  }

  lemma CreditLeavesBalance(b: Book, now: nat, account: Id, asset: Id, amount: U64)
    requires Credit(b, now, account, asset, amount).outcome.Applied?
    ensures var b' := Credit(b, now, account, asset, amount).state;
            if asset == LocalUnit then account in b'.held.units else TokenBalanceId(asset, account) in b'.held.tokens
  {
  }

  /** An applied live credit makes the credited balance value bearing; a local one changes no mark. */
  lemma BridgeMarks(l: Ledger, now: nat, tx: Tx, x: Id, y: Id)
    requires IsBridgeTx(tx)
    ensures var s := BridgeStep(l, now, tx);
            Bears(s.state.book, x, y) <==>
            Bears(l.book, x, y) || (LiveCredit(tx) && s.outcome.Applied? && x == tx.account && y == tx.asset)
  {
    hide CreditStep, CreditQuote, Consume, Credit, MarkValueBearing, MapAssetStep, MapAccountStep, Bears;
    if tx.CreditBridge? {
      CreditShape(l, now, tx);
      if CreditStep(l, now, tx).outcome.Applied? {
        CreditMarks(l.book, now, tx.account, tx.asset, tx.amount);
        CreditLeavesBalance(l.book, now, tx.account, tx.asset, tx.amount);
        MarkMarks(Credit(l.book, now, tx.account, tx.asset, tx.amount).state, tx.account, tx.asset, x, y);
      }
    } else {
      MapShape(l, now, tx);
    }
  }

  /** An applied transaction marks the balance: a live credit to it, or a transfer to it from a value-bearing source. */
  predicate Marks(b: Book, tx: Tx, x: Id, y: Id) {
    || (LiveCredit(tx) && x == tx.account && y == tx.asset)
    || (tx.Transfer? && x == tx.target && y == LocalUnit && Bears(b, tx.source, LocalUnit))
  }

  lemma SameMarksAt(b: Book, b': Book, x: Id, y: Id)
    requires SameMarks(b, b')
    ensures Bears(b', x, y) <==> Bears(b, x, y)
  {
    hide Bears;
  }

  lemma BookStepMarks(b: Book, now: nat, tx: Tx, x: Id, y: Id)
    requires IsBookTx(tx)
    ensures var s := BookStep(b, now, tx);
            Bears(s.state, x, y) <==> Bears(b, x, y) || (s.outcome.Applied? && Marks(b, tx, x, y))
  {
    hide BookStep, TransferStep, Bears, SameMarks;
    if tx.Transfer? {
      TransferMarks(b, now, tx, x, y);
      TransferIsBookStep(b, now, tx);
    } else {
      BookMarks(b, now, tx);
      SameMarksAt(b, BookStep(b, now, tx).state, x, y);
    }
  }

  lemma DexStepMarks(l: Ledger, now: nat, tx: Tx, x: Id, y: Id)
    requires LedgerOk(l) && IsDexTx(tx)
    ensures Bears(DexStep(l, now, tx).state.book, x, y) <==> Bears(l.book, x, y)
    ensures !Marks(l.book, tx, x, y)
  {
    hide LedgerOk, DexStep, Bears, SameMarks;
    DexMarks(l, now, tx);
    SameMarksAt(l.book, DexStep(l, now, tx).state.book, x, y);
  }

  lemma MarksOnBridge(b: Book, tx: Tx, x: Id, y: Id)
    requires IsBridgeTx(tx)
    ensures Marks(b, tx, x, y) <==> LiveCredit(tx) && x == tx.account && y == tx.asset
  {
    hide Bears;
  }

  lemma BridgeStepMarks(l: Ledger, now: nat, tx: Tx, x: Id, y: Id)
    requires IsBridgeTx(tx)
    ensures var s := BridgeStep(l, now, tx);
            Bears(s.state.book, x, y) <==> Bears(l.book, x, y) || (s.outcome.Applied? && Marks(l.book, tx, x, y))
  {
    hide BridgeStep, Bears, Marks, LiveCredit;
    MarksOnBridge(l.book, tx, x, y);
    BridgeMarks(l, now, tx, x, y);
  }

  lemma LedgerMarks(l: Ledger, now: nat, tx: Tx, x: Id, y: Id)
    requires LedgerOk(l) && IsLedgerTx(tx)
    ensures var s := LedgerStep(l, now, tx);
            Bears(s.state.book, x, y) <==> Bears(l.book, x, y) || (s.outcome.Applied? && Marks(l.book, tx, x, y))
  {
    hide LedgerOk, BookStep, DexStep, BridgeStep, Bears, Marks;
    if IsBookTx(tx) {
      BookStepMarks(l.book, now, tx, x, y);
    } else if IsDexTx(tx) {
      DexStepMarks(l, now, tx, x, y);
    } else {
      BridgeStepMarks(l, now, tx, x, y);
    }
  }

  /** Exactly when a transaction leaves a balance value bearing. */
  lemma ApplyMarks(c: Core, env: Env, tx: Tx, x: Id, y: Id)
    requires LedgerOk(c.ledger)
    ensures var s := Apply(c, env, tx);
            Bears(s.state.ledger.book, x, y) <==>
            Bears(c.ledger.book, x, y) || (s.outcome.Applied? && Marks(c.ledger.book, tx, x, y))
  {
    hide LedgerOk, LedgerStep, WorkStep, AnchorStep, Bears;
    if IsLedgerTx(tx) {
      LedgerMarks(c.ledger, env.now, tx, x, y);
    } else {
      OtherTxKeepsLedger(c, env, tx);
    }
  }

  lemma TransferIsBookStep(b: Book, now: nat, tx: Tx)
    requires tx.Transfer?
    ensures BookStep(b, now, tx) == TransferStep(b, now, tx)
  {
    hide TransferStep;
  }

  // ----- runs -----

  /** A value-bearing balance stays so over any run. */
  lemma {:induction false} MarkedForGood(c: Core, events: seq<Event>, x: Id, y: Id)
    requires LedgerOk(c.ledger) && Bears(c.ledger.book, x, y)
    ensures Bears(Run(c, events).ledger.book, x, y)
    decreases |events|
  {
    hide LedgerOk, Apply, Bears;
    if events != [] {
      ApplyMarks(c, events[0].env, events[0].tx, x, y);
      ApplyKeepsLedgerOk(c, events[0].env, events[0].tx);
      MarkedForGood(Apply(c, events[0].env, events[0].tx).state, events[1..], x, y);
    }
  }

  /** Where no balance is value bearing, a run without live credits leaves none so. */
  lemma {:induction false} OnlyLiveCreditsMark(c: Core, events: seq<Event>, x: Id, y: Id)
    requires LedgerOk(c.ledger) && forall a, b :: !Bears(c.ledger.book, a, b)
    requires forall i :: 0 <= i < |events| && LiveCredit(events[i].tx) ==> Outcomes(c, events)[i].Rejected?
    ensures !Bears(Run(c, events).ledger.book, x, y)
    decreases |events|
  {
    hide LedgerOk, Apply, Bears;
    if events != [] {
      var e := events[0];
      var s := Apply(c, e.env, e.tx);
      assert LiveCredit(e.tx) ==> Outcomes(c, events)[0].Rejected?;
      forall a, b
        ensures !Bears(s.state.ledger.book, a, b)
      {
        ApplyMarks(c, e.env, e.tx, a, b);
      }
      ApplyKeepsLedgerOk(c, e.env, e.tx);
      forall i | 0 <= i < |events[1..]| && LiveCredit(events[1..][i].tx)
        ensures Outcomes(s.state, events[1..])[i].Rejected?
      {
        assert events[1..][i] == events[i + 1];
        assert Outcomes(c, events)[i + 1] == Outcomes(s.state, events[1..])[i];
      }
      OnlyLiveCreditsMark(s.state, events[1..], x, y);
    }
  }

  /** From genesis: without an applied live credit nothing ever bears value. */
  lemma NoValueWithoutLiveCredit(events: seq<Event>, x: Id, y: Id)
    requires forall i :: 0 <= i < |events| && LiveCredit(events[i].tx) ==> Outcomes(EmptyCore(), events)[i].Rejected?
    ensures !Bears(Run(EmptyCore(), events).ledger.book, x, y)
  {
    hide Run, Outcomes, LedgerOk;
    EmptyLedgerOk();
    OnlyLiveCreditsMark(EmptyCore(), events, x, y);
  }
}
