/** A run from genesis after which a pool has LP units that belong to no position. */
module StrandedRun {
  import opened Prelude
  import opened Text
  import opened Ids
  import opened Records
  import opened State
  import opened PoolMath
  import opened Accounts
  import opened Exchange
  import opened DexFacts
  import opened WorkLifecycle
  import opened Machine
  import opened Shares

  // ----- the run -----

  function Owner(): Id {
    Named("a")
  }

  function Coin(): Id {
    TokenId("T")
  }

  function Pair(): Id {
    PoolId(LocalUnit, Coin())
  }

  function Deposit(amount: U64): Tx {
    AddLiquidity(LiquidityId(Pair(), Owner(), Add, amount, amount, 1), Pair(), Owner(), amount, amount, 1)
  }

  function Withdrawal(lp: U64): Tx {
    RemoveLiquidity(LiquidityId(Pair(), Owner(), Remove, lp, 1, 1), Pair(), Owner(), lp, 1, 1)
  }

  /**
   * One account pools everything there is, withdraws all but one LP unit, deposits one more of each
   * and withdraws again. The last two are rejected: the deposit counters, then the withdrawal
   * counters, are full.
   */
  function Txs(): seq<Tx> {
    [CreateBalance(Owner(), ""), Faucet(Named("f"), Owner(), "", MAX_U64, ""),
     LaunchToken(Coin(), "T", "", 0, Owner(), MAX_U64), CreatePool(Pair(), LocalUnit, Coin(), Owner()),
     Deposit(MAX_U64), Withdrawal(MAX_U64 - 1), Deposit(1), Withdrawal(2)]
  }

  function Events(txs: seq<Tx>): (r: seq<Event>)
    ensures |r| == |txs| && forall i :: 0 <= i < |txs| ==> r[i] == Event(Env(1, 0, 0), txs[i])
  {
    seq(|txs|, i requires 0 <= i < |txs| => Event(Env(1, 0, 0), txs[i]))
  }

  // ----- the ledgers it goes through -----

  /** The book once everything is issued, with what the owner holds of the unit and of the token. */
  function BookAt(units: U64, coins: U64): Book {
    Book(Holdings(map[Owner() := UnitBalance("", units, MAX_U64, Some(Named("f")), 1, true)],
                  map[TokenBalanceId(Coin(), Owner()) := TokenBalance(Coin(), Owner(), coins, 1, true)]),
         map[Coin() := Token("T", "", 0, Owner(), MAX_U64, 1)],
         BookLog(map[Named("f") := FaucetRecord(Owner(), "", MAX_U64, "", 1)], map[],
                 map[InitialMint(Coin(), Owner(), MAX_U64) := MintReceipt(Coin(), Owner(), MAX_U64, "initial-supply", 1)]))
  }

  function PoolAt(reserve: U64, lp: U64, last: Option<Id>): Pool {
    Pool(LocalUnit, Coin(), Owner(), reserve, reserve, lp, 1, 1, last, None)
  }

  function PositionAt(lp: U64, paidIn: U64, paidOut: U64): Position {
    Position(Pair(), Owner(), lp, paidIn, paidIn, paidOut, paidOut, 1)
  }

  function DexAt(p: Pool, positions: map<Id, Position>, log: map<Id, LiquidityReceipt>): Dex {
    Dex(map[Pair() := p], positions, DexLog(log, map[]))
  }

  function LedgerAt(book: Book, dex: Dex): Ledger {
    Ledger(book, dex, EmptyLedger().bridge)
  }

  function Share(): Id {
    LpPositionId(Pair(), Owner())
  }

  // ----- the steps -----

  lemma Issue()
    ensures var b1 := CreateBalanceStep(EmptyLedger().book, 1, Txs()[0]);
            var b2 := FaucetStep(b1.state, 1, Txs()[1]);
            var b3 := LaunchStep(b2.state, 1, Txs()[2]);
            b3.state == BookAt(MAX_U64, MAX_U64)
  {
    hide NormalizeSymbol;
    SymbolT();
    var b2 := FaucetStep(CreateBalanceStep(EmptyLedger().book, 1, Txs()[0]).state, 1, Txs()[1]).state;
    var r := UnitBalance("", MAX_U64, MAX_U64, Some(Named("f")), 1, true);
    assert b2.held.units == map[Owner() := r];
    assert b2.log.faucets == map[Named("f") := FaucetRecord(Owner(), "", MAX_U64, "", 1)];
  }

  lemma SymbolT()
    ensures NormalizeSymbol("T") == "T"
  {
    assert !IsSpace('T');
    assert TrimStart("T") == "T" && TrimEnd("T") == "T";
  }

  lemma OpenPool(b: Book)
    requires Owner() in b.held.units && Coin() in b.tokens
    ensures CreatePoolStep(LedgerAt(b, EmptyLedger().dex), 1, Txs()[3]) ==
            Done(LedgerAt(b, DexAt(PoolAt(0, 0, None), map[], map[])))
  {
  }

  lemma Reput<V>(k: Id, v: V, w: V)
    ensures map[k := v][k := w] == map[k := w]
  {
  }

  lemma DebitAt(units: U64, coins: U64, amount: U64)
    requires amount <= units && amount <= coins
    ensures Debit(BookAt(units, coins), 1, Owner(), LocalUnit, amount) == Done(BookAt(units - amount, coins))
    ensures Debit(BookAt(units, coins), 1, Owner(), Coin(), amount) == Done(BookAt(units, coins - amount))
    ensures Availability(BookAt(units, coins), Owner(), LocalUnit, amount).Applied?
    ensures Availability(BookAt(units, coins), Owner(), Coin(), amount).Applied?
  {
    Reput(Owner(), UnitBalance("", units, MAX_U64, Some(Named("f")), 1, true), UnitBalance("", units - amount, MAX_U64, Some(Named("f")), 1, true));
    Reput(TokenBalanceId(Coin(), Owner()), TokenBalance(Coin(), Owner(), coins, 1, true), TokenBalance(Coin(), Owner(), coins - amount, 1, true));
  }

  lemma CreditAt(units: U64, coins: U64, amount: U64)
    requires 0 < amount && units + amount <= MAX_U64 && coins + amount <= MAX_U64
    ensures Credit(BookAt(units, coins), 1, Owner(), LocalUnit, amount) == Done(BookAt(units + amount, coins))
    ensures Credit(BookAt(units, coins), 1, Owner(), Coin(), amount) == Done(BookAt(units, coins + amount))
  {
    Reput(Owner(), UnitBalance("", units, MAX_U64, Some(Named("f")), 1, true), UnitBalance("", units + amount, MAX_U64, Some(Named("f")), 1, true));
    Reput(TokenBalanceId(Coin(), Owner()), TokenBalance(Coin(), Owner(), coins, 1, true), TokenBalance(Coin(), Owner(), coins + amount, 1, true));
  }

  /** A deposit of the same amount on both sides that passes its checks. */
  lemma DepositRuns(held: U64, p: Pool, positions: map<Id, Position>, log: map<Id, LiquidityReceipt>, amount: U64, lp: U64)
    requires 0 < amount <= held && 0 < lp && p.base == LocalUnit && p.quote == Coin()
    requires Deposit(amount).liquidity !in log
    requires LiquidityUnits(Pair(), p.reserveBase, p.reserveQuote, p.lp, amount, amount) == Ok(lp)
    ensures var d := PoolDeposit(DexAt(p, positions, log), 1, Deposit(amount), lp);
            AddStep(LedgerAt(BookAt(held, held), DexAt(p, positions, log)), 1, Deposit(amount)) ==
            Step(LedgerAt(BookAt(held - amount, held - amount), d.state), d.outcome)
  {
    hide LiquidityUnits, Debit, Availability, BookAt, PoolDeposit;
    DebitAt(held, held, amount);
    DebitCoin(held - amount, held, amount);
  }

  lemma DebitCoin(units: U64, coins: U64, amount: U64)
    requires amount <= coins
    ensures Debit(BookAt(units, coins), 1, Owner(), Coin(), amount) == Done(BookAt(units, coins - amount))
  {
    Reput(TokenBalanceId(Coin(), Owner()), TokenBalance(Coin(), Owner(), coins, 1, true), TokenBalance(Coin(), Owner(), coins - amount, 1, true));
  }

  /** A withdrawal that passes its checks, up to what the exchange makes of it. */
  lemma WithdrawalQuoted(b: Book, d: Dex, lp: U64, amount: U64)
    requires Pair() in d.pools && Share() in d.positions && 0 < lp <= d.positions[Share()].lp && 1 <= amount
    requires Withdrawal(lp).liquidity !in d.log.liquidity && d.pools[Pair()].lp > 0
    requires Proportional(d.pools[Pair()].reserveBase, lp, d.pools[Pair()].lp, Pair()) == Ok(amount)
    requires Proportional(d.pools[Pair()].reserveQuote, lp, d.pools[Pair()].lp, Pair()) == Ok(amount)
    ensures RemoveQuote(LedgerAt(b, d), Withdrawal(lp)) == Ok((amount, amount))
  {
    hide Proportional;
  }

  lemma FirstDeposit()
    ensures var log := map[Deposit(MAX_U64).liquidity := LiquidityReceipt(
              Pair(), Owner(), Add, MAX_U64, MAX_U64, MAX_U64, 0, 0, MAX_U64, MAX_U64, 1)];
            AddStep(LedgerAt(BookAt(MAX_U64, MAX_U64), DexAt(PoolAt(0, 0, None), map[], map[])), 1, Deposit(MAX_U64)) ==
            Done(LedgerAt(BookAt(0, 0), DexAt(PoolAt(MAX_U64, MAX_U64, Some(Deposit(MAX_U64).liquidity)),
                                              map[Share() := PositionAt(MAX_U64, MAX_U64, 0)], log)))
  {
    hide BookAt, AddStep;
    DepositRuns(MAX_U64, PoolAt(0, 0, None), map[], map[], MAX_U64, MAX_U64);
    Reput(Pair(), PoolAt(0, 0, None), PoolAt(MAX_U64, MAX_U64, Some(Deposit(MAX_U64).liquidity)));
    assert map[][Share() := PositionAt(MAX_U64, MAX_U64, 0)] == map[Share() := PositionAt(MAX_U64, MAX_U64, 0)];
  }

  lemma ShareOfAlmostAll()
    ensures Proportional(MAX_U64, MAX_U64 - 1, MAX_U64, Pair()) == Ok(MAX_U64 - 1)
  {
    ProductFits(MAX_U64, MAX_U64 - 1);
    WholeShare(MAX_U64 - 1, MAX_U64);
  }

  lemma FirstWithdrawal(log: map<Id, LiquidityReceipt>)
    requires Withdrawal(MAX_U64 - 1).liquidity !in log
    ensures var before := DexAt(PoolAt(MAX_U64, MAX_U64, Some(Deposit(MAX_U64).liquidity)),
                                map[Share() := PositionAt(MAX_U64, MAX_U64, 0)], log);
            var id := Withdrawal(MAX_U64 - 1).liquidity;
            var log' := log[id := LiquidityReceipt(Pair(), Owner(), Remove, MAX_U64 - 1, MAX_U64 - 1, MAX_U64 - 1,
                                                   MAX_U64, MAX_U64, 1, 1, 1)];
            RemoveStep(LedgerAt(BookAt(0, 0), before), 1, Withdrawal(MAX_U64 - 1)) ==
            Done(LedgerAt(BookAt(MAX_U64 - 1, MAX_U64 - 1),
                          DexAt(PoolAt(1, 1, Some(id)), map[Share() := PositionAt(1, MAX_U64, MAX_U64 - 1)], log')))
  {
    hide BookAt, Credit, RemoveQuote, Proportional;
    var before := DexAt(PoolAt(MAX_U64, MAX_U64, Some(Deposit(MAX_U64).liquidity)),
                        map[Share() := PositionAt(MAX_U64, MAX_U64, 0)], log);
    ShareOfAlmostAll();
    WithdrawalQuoted(BookAt(0, 0), before, MAX_U64 - 1, MAX_U64 - 1);
    CreditAt(0, 0, MAX_U64 - 1);
    CreditCoin(MAX_U64 - 1, 0, MAX_U64 - 1);
    Reput(Pair(), before.pools[Pair()], PoolAt(1, 1, Some(Withdrawal(MAX_U64 - 1).liquidity)));
    Reput(Share(), before.positions[Share()], PositionAt(1, MAX_U64, MAX_U64 - 1));
  }

  lemma CreditCoin(units: U64, coins: U64, amount: U64)
    requires 0 < amount && coins + amount <= MAX_U64
    ensures Credit(BookAt(units, coins), 1, Owner(), Coin(), amount) == Done(BookAt(units, coins + amount))
  {
    Reput(TokenBalanceId(Coin(), Owner()), TokenBalance(Coin(), Owner(), coins, 1, true), TokenBalance(Coin(), Owner(), coins + amount, 1, true));
  }

  /** Refused because a deposit counter is full, after the pool and the position took the LP unit. */
  lemma SecondDeposit(last: Option<Id>, log: map<Id, LiquidityReceipt>)
    requires Deposit(1).liquidity !in log
    ensures var s := AddStep(LedgerAt(BookAt(MAX_U64 - 1, MAX_U64 - 1),
                                      DexAt(PoolAt(1, 1, last), map[Share() := PositionAt(1, MAX_U64, MAX_U64 - 1)], log)),
                             1, Deposit(1));
            && s.outcome.Rejected?
            && s.state == LedgerAt(BookAt(MAX_U64 - 2, MAX_U64 - 2),
                                   DexAt(PoolAt(2, 2, Some(Deposit(1).liquidity)),
                                         map[Share() := PositionAt(2, MAX_U64, MAX_U64 - 1)], log))
  {
    hide BookAt, AddStep;
    assert LiquidityUnits(Pair(), 1, 1, 1, 1, 1) == Ok(1);
    DepositRuns(MAX_U64 - 1, PoolAt(1, 1, last), map[Share() := PositionAt(1, MAX_U64, MAX_U64 - 1)], log, 1, 1);
  }

  /** Refused because a withdrawal counter is full, after the position gave up its LP units. */
  lemma SecondWithdrawal(b: Book, last: Option<Id>, log: map<Id, LiquidityReceipt>)
    requires Withdrawal(2).liquidity !in log
    ensures var s := RemoveStep(LedgerAt(b, DexAt(PoolAt(2, 2, last), map[Share() := PositionAt(2, MAX_U64, MAX_U64 - 1)], log)),
                                1, Withdrawal(2));
            && s.outcome.Rejected?
            && s.state == LedgerAt(b, DexAt(PoolAt(2, 2, last), map[Share() := PositionAt(0, MAX_U64, MAX_U64 - 1)], log))
  {
    hide RemoveQuote, Proportional, Credit;
    var before := DexAt(PoolAt(2, 2, last), map[Share() := PositionAt(2, MAX_U64, MAX_U64 - 1)], log);
    WithdrawalBounds(2, 2, 2, Pair());
    WithdrawalQuoted(b, before, 2, 2);
  }

  // ----- the result -----

  /** The ledger after a list of ledger transactions in block 1. */
  function LedgerRun(l: Ledger, txs: seq<Tx>): Ledger
    requires forall i :: 0 <= i < |txs| ==> IsLedgerTx(txs[i])
    decreases |txs|
  {
    if txs == [] then l else LedgerRun(LedgerStep(l, 1, txs[0]).state, txs[1..])
  }

  lemma {:induction false} RunIsLedgerRun(c: Core, txs: seq<Tx>)
    requires forall i :: 0 <= i < |txs| ==> IsLedgerTx(txs[i])
    ensures Run(c, Events(txs)).ledger == LedgerRun(c.ledger, txs)
    decreases |txs|
  {
    hide LedgerStep, WorkStep, AnchorStep;
    if txs != [] {
      assert Events(txs)[1..] == Events(txs[1..]);
      RunIsLedgerRun(Apply(c, Env(1, 0, 0), txs[0]).state, txs[1..]);
    }
  }

  lemma AllLedgerTxs()
    ensures forall i :: 0 <= i < |Txs()| ==> IsLedgerTx(Txs()[i])
  {
  }

  lemma LastFour(l: Ledger)
    requires l == LedgerAt(BookAt(MAX_U64, MAX_U64), DexAt(PoolAt(0, 0, None), map[], map[]))
    ensures var l1 := AddStep(l, 1, Deposit(MAX_U64)).state;
            var l2 := RemoveStep(l1, 1, Withdrawal(MAX_U64 - 1)).state;
            var l3 := AddStep(l2, 1, Deposit(1)).state;
            var l4 := RemoveStep(l3, 1, Withdrawal(2)).state;
            && l4.dex.pools == map[Pair() := PoolAt(2, 2, Some(Deposit(1).liquidity))]
            && l4.dex.positions == map[Share() := PositionAt(0, MAX_U64, MAX_U64 - 1)]
  {
    hide AddStep, RemoveStep, BookAt, PoolAt, PositionAt;
    FirstDeposit();
    var log1 := map[Deposit(MAX_U64).liquidity := LiquidityReceipt(
      Pair(), Owner(), Add, MAX_U64, MAX_U64, MAX_U64, 0, 0, MAX_U64, MAX_U64, 1)];
    FirstWithdrawal(log1);
    var id := Withdrawal(MAX_U64 - 1).liquidity;
    var log2 := log1[id := LiquidityReceipt(Pair(), Owner(), Remove, MAX_U64 - 1, MAX_U64 - 1, MAX_U64 - 1,
                                            MAX_U64, MAX_U64, 1, 1, 1)];
    SecondDeposit(Some(id), log2);
    SecondWithdrawal(BookAt(MAX_U64 - 2, MAX_U64 - 2), Some(Deposit(1).liquidity), log2);
  }

  /** One more transaction of the list. */
  lemma Peel(l: Ledger, k: nat)
    requires k < |Txs()| && forall i :: 0 <= i < |Txs()| ==> IsLedgerTx(Txs()[i])
    ensures LedgerRun(l, Txs()[k..]) == LedgerRun(LedgerStep(l, 1, Txs()[k]).state, Txs()[k + 1..])
  {
    hide Txs, LedgerStep, IsLedgerTx;
    assert Txs()[k..][1..] == Txs()[k + 1..];
  }

  lemma IssueSteps()
    ensures var l1 := LedgerStep(EmptyLedger(), 1, Txs()[0]).state;
            var l2 := LedgerStep(l1, 1, Txs()[1]).state;
            LedgerStep(l2, 1, Txs()[2]).state == LedgerAt(BookAt(MAX_U64, MAX_U64), EmptyLedger().dex)
  {
    hide CreateBalanceStep, FaucetStep, LaunchStep, BookAt;
    Issue();
  }

  lemma ExchangeSteps(l: Ledger)
    ensures LedgerStep(l, 1, Txs()[3]) == CreatePoolStep(l, 1, Txs()[3])
    ensures LedgerStep(l, 1, Txs()[4]) == AddStep(l, 1, Deposit(MAX_U64))
    ensures LedgerStep(l, 1, Txs()[5]) == RemoveStep(l, 1, Withdrawal(MAX_U64 - 1))
    ensures LedgerStep(l, 1, Txs()[6]) == AddStep(l, 1, Deposit(1))
    ensures LedgerStep(l, 1, Txs()[7]) == RemoveStep(l, 1, Withdrawal(2))
  {
    hide CreatePoolStep, AddStep, RemoveStep;
  }

  lemma LastFive(l: Ledger)
    requires l == LedgerAt(BookAt(MAX_U64, MAX_U64), EmptyLedger().dex)
    requires forall i :: 0 <= i < |Txs()| ==> IsLedgerTx(Txs()[i])
    ensures var l' := LedgerRun(l, Txs()[3..]);
            && l'.dex.pools == map[Pair() := PoolAt(2, 2, Some(Deposit(1).liquidity))]
            && l'.dex.positions == map[Share() := PositionAt(0, MAX_U64, MAX_U64 - 1)]
  {
    hide LedgerStep, CreatePoolStep, AddStep, RemoveStep, BookAt, IsLedgerTx, PoolAt, PositionAt;
    var l3 := LedgerAt(BookAt(MAX_U64, MAX_U64), DexAt(PoolAt(0, 0, None), map[], map[]));
    Peel(l, 3);
    ExchangeSteps(l);
    OpenIssued();
    assert LedgerStep(l, 1, Txs()[3]).state == l3;
    Peel(l3, 4);
    ExchangeSteps(l3);
    var l4 := AddStep(l3, 1, Deposit(MAX_U64)).state;
    Peel(l4, 5);
    ExchangeSteps(l4);
    var l5 := RemoveStep(l4, 1, Withdrawal(MAX_U64 - 1)).state;
    Peel(l5, 6);
    ExchangeSteps(l5);
    var l6 := AddStep(l5, 1, Deposit(1)).state;
    Peel(l6, 7);
    ExchangeSteps(l6);
    assert Txs()[8..] == [];
    LastFour(l3);
  }

  /** The LP supply is not always the sum of the positions: this run from genesis leaves two LP units to nobody. */
  lemma SupplyCanExceedPositions()
    ensures var l := Run(EmptyCore(), Events(Txs())).ledger;
            Pair() in l.dex.pools && l.dex.pools[Pair()].lp == 2 && Stray(l.dex, Pair()) == 2
  {
    hide Run, LedgerRun, LedgerStep, BookAt, Events, IsLedgerTx;
    AllLedgerTxs();
    RunIsLedgerRun(EmptyCore(), Txs());
    var l1 := LedgerStep(EmptyLedger(), 1, Txs()[0]).state;
    var l2 := LedgerStep(l1, 1, Txs()[1]).state;
    assert Txs()[0..] == Txs();
    Peel(EmptyLedger(), 0);
    Peel(l1, 1);
    Peel(l2, 2);
    IssueSteps();
    LastFive(LedgerAt(BookAt(MAX_U64, MAX_U64), EmptyLedger().dex));
    NothingHeld(PositionAt(0, MAX_U64, MAX_U64 - 1));
  }

  lemma OpenIssued()
    ensures CreatePoolStep(LedgerAt(BookAt(MAX_U64, MAX_U64), EmptyLedger().dex), 1, Txs()[3]) ==
            Done(LedgerAt(BookAt(MAX_U64, MAX_U64), DexAt(PoolAt(0, 0, None), map[], map[])))
  {
    hide CreatePoolStep;
    OpenPool(BookAt(MAX_U64, MAX_U64));
  }

  lemma NothingHeld(r: Position)
    requires r.lp == 0
    ensures Sum(map[Share() := r], SharesIn(Pair())) == 0
  {
    SumEmpty<Id, Position>(SharesIn(Pair()));
    SharesPut(map[], Share(), r, Pair());
    assert map[][Share() := r] == map[Share() := r];
  }
}
