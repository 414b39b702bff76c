/** The ledger invariant and its preservation by every transaction, applied or rejected. */
module LedgerInvariant {
  import opened Prelude
  import opened Ids
  import opened Records
  import opened State
  import opened Accounts
  import opened BookFacts
  import opened PoolMath
  import opened Exchange
  import opened DexFacts
  import opened BridgePath
  import opened BridgeFacts
  import opened Machine

  /** What every reachable ledger satisfies. */
  ghost predicate LedgerOk(l: Ledger) {
    BookOk(l.book) && DexOk(l) && BridgeOk(l.bridge)
  }

  lemma EmptyLedgerOk()
    ensures LedgerOk(EmptyLedger())
  {
  }

  lemma BookStepOk(b: Book, now: nat, tx: Tx)
    requires BookOk(b) && IsBookTx(tx)
    ensures BookOk(BookStep(b, now, tx).state)
  {
    hide BookOk, CreateBalanceStep, FaucetStep, TransferStep, LaunchStep, MintStep;
    if tx.CreateBalance? {
      CreateBalanceOk(b, now, tx);
    } else if tx.Faucet? {
      FaucetOk(b, now, tx);
    } else if tx.Transfer? {
      TransferOk(b, now, tx);
    } else if tx.LaunchToken? {
      LaunchDecides(b, now, tx);
      if LaunchStep(b, now, tx).outcome.Applied? {
        LaunchOk(b, now, tx);
      }
    } else {
      MintOk(b, now, tx);
    }
  }

  /** Accounts and tokens are never removed. */
  ghost predicate BookGrows(b: Book, b': Book) {
    b.held.units.Keys <= b'.held.units.Keys && b.tokens.Keys <= b'.tokens.Keys
  }

  lemma CreditGrows(b: Book, now: nat, account: Id, asset: Id, amount: U64)
    ensures var b' := Credit(b, now, account, asset, amount).state;
            b'.held.units.Keys == b.held.units.Keys && b'.tokens == b.tokens
  {
  }

  lemma BookStepGrows(b: Book, now: nat, tx: Tx)
    requires IsBookTx(tx)
    ensures BookGrows(b, BookStep(b, now, tx).state)
  {
    hide Credit;
    if tx.LaunchToken? {
      var defined := b.(tokens := b.tokens[tx.token := LaunchedToken(tx, now)]);
      CreditGrows(defined, now, tx.account, tx.token, tx.amount);
    } else if tx.MintToken? {
      CreditGrows(b, now, tx.account, tx.token, tx.amount);
    }
  }

  lemma DexOkGrows(l: Ledger, b': Book)
    requires DexOk(l) && BookGrows(l.book, b')
    ensures DexOk(l.(book := b'))
  {
  }

  lemma DexStepOk(l: Ledger, now: nat, tx: Tx)
    requires LedgerOk(l) && IsDexTx(tx)
    ensures LedgerOk(DexStep(l, now, tx).state)
  {
    hide BookOk, DexOk, BridgeOk, CreatePoolStep, AddStep, RemoveStep, SwapStep;
    DexStepKeepsBridge(l, now, tx);
    if tx.CreatePool? {
      CreatePoolKeepsOk(l, now, tx);
      CreatePoolShape(l, now, tx);
    } else if tx.AddLiquidity? {
      AddKeepsOk(l, now, tx);
    } else if tx.RemoveLiquidity? {
      RemoveKeepsOk(l, now, tx);
    } else {
      SwapKeepsOk(l, now, tx);
    }
  }

  lemma DexStepKeepsBridge(l: Ledger, now: nat, tx: Tx)
    requires IsDexTx(tx)
    ensures DexStep(l, now, tx).state.bridge == l.bridge
  {
    hide Debit, Credit, DepositPosition, WithdrawPosition, Availability, LiquidityUnits, Proportional, SwapPlanFor;
  }

  lemma BridgeStepOk(l: Ledger, now: nat, tx: Tx)
    requires LedgerOk(l) && IsBridgeTx(tx)
    ensures LedgerOk(BridgeStep(l, now, tx).state)
  {
    hide BookOk, DexOk, BridgeOk, CreditStep, CreditQuote, Consume, CreditedBook, MapAssetStep, MapAccountStep;
    if tx.CreditBridge? {
      CreditShape(l, now, tx);
      if CreditStep(l, now, tx).outcome.Applied? {
        CreditQuoteFacts(l, tx);
        CreditedBookFacts(l.book, now, tx);
        ConsumeKeepsOk(l.bridge, now, tx, CreditOwner(l, tx));
        DexOkUnmoved(l, CreditStep(l, now, tx).state);
      }
    } else {
      MapShape(l, now, tx);
      var l' := BridgeStep(l, now, tx).state;
      BridgeOkSame(l.bridge, l'.bridge);
      UnmovedItself(l.book);
      DexOkUnmoved(l, l');
    }
  }

  lemma BridgeOkSame(br: Bridge, br': Bridge)
    requires BridgeOk(br) && br'.credited == br.credited && br'.used == br.used
    ensures BridgeOk(br')
  {
  }

  lemma LedgerStepOk(l: Ledger, now: nat, tx: Tx)
    requires LedgerOk(l) && IsLedgerTx(tx)
    ensures LedgerOk(LedgerStep(l, now, tx).state)
  {
    hide BookOk, DexOk, BridgeOk, BookStep, DexStep, BridgeStep, BookGrows;
    if IsBookTx(tx) {
      BookStepOk(l.book, now, tx);
      BookStepGrows(l.book, now, tx);
      DexOkGrows(l, BookStep(l.book, now, tx).state);
    } else if IsDexTx(tx) {
      DexStepOk(l, now, tx);
    } else {
      BridgeStepOk(l, now, tx);
    }
  }

  // ----- runs -----

  lemma ApplyKeepsLedgerOk(c: Core, env: Env, tx: Tx)
    requires LedgerOk(c.ledger)
    ensures LedgerOk(Apply(c, env, tx).state.ledger)
  {
    hide LedgerOk, LedgerStep, AnchorStep;
    if IsLedgerTx(tx) {
      LedgerStepOk(c.ledger, env.now, tx);
    } else {
      OtherTxKeepsLedger(c, env, tx);
    }
  }

  lemma OtherTxKeepsLedger(c: Core, env: Env, tx: Tx)
    requires !IsLedgerTx(tx)
    ensures Apply(c, env, tx).state.ledger == c.ledger
  {
  }

  /** Every ledger reached by any run of transactions satisfies the invariant. */
  lemma {:induction false} RunKeepsLedgerOk(c: Core, events: seq<Event>)
    requires LedgerOk(c.ledger)
    ensures LedgerOk(Run(c, events).ledger)
    decreases |events|
  {
    hide LedgerOk, Apply;
    if events != [] {
      ApplyKeepsLedgerOk(c, events[0].env, events[0].tx);
      RunKeepsLedgerOk(Apply(c, events[0].env, events[0].tx).state, events[1..]);
    }
  }
}
