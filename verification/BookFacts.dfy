/** What the account book keeps: keys, cached totals and the units in circulation. */
module BookFacts {
  import opened Prelude
  import opened Text
  import opened Ids
  import opened Records
  import opened Accounts

  // ----- weights -----

  function UnitsOf(): UnitBalance -> nat {
    (r: UnitBalance) => r.units
  }

  function TokenUnitsOf(asset: Id): TokenBalance -> nat {
    (r: TokenBalance) => if r.token == asset then r.units else 0
  }

  function MintedOf(token: Id): MintReceipt -> nat {
    (r: MintReceipt) => if r.token == token then r.amount else 0
  }

  function PaidTo(account: Id): FaucetRecord -> nat {
    (r: FaucetRecord) => if r.account == account then r.amount else 0
  }

  lemma UnitsPut(m: map<Id, UnitBalance>, k: Id, r: UnitBalance)
    ensures Sum(m[k := r], UnitsOf()) + (if k in m then m[k].units else 0) == Sum(m, UnitsOf()) + r.units
  {
    SumPut(m, k, r, UnitsOf());
  }

  lemma TokenUnitsPut(m: map<Id, TokenBalance>, k: Id, r: TokenBalance, a: Id)
    ensures Sum(m[k := r], TokenUnitsOf(a)) + (if k in m && m[k].token == a then m[k].units else 0) ==
            Sum(m, TokenUnitsOf(a)) + (if r.token == a then r.units else 0)
  {
    SumPut(m, k, r, TokenUnitsOf(a));
  }

  /** Units of an asset held by all accounts together. */
  ghost function InAccounts(b: Book, asset: Id): nat {
    if asset == LocalUnit then Sum(b.held.units, UnitsOf()) else Sum(b.held.tokens, TokenUnitsOf(asset))
  }

  // ----- the invariant -----

  /** A token balance is filed under its own token and account, and both exist. */
  ghost predicate TokenKeys(balances: map<Id, TokenBalance>, tokens: set<Id>, accounts: set<Id>) {
    forall id :: id in balances ==>
      && id == TokenBalanceId(balances[id].token, balances[id].account)
      && balances[id].token in tokens && balances[id].account in accounts
  }

  ghost predicate TokenNames(tokens: map<Id, Token>) {
    forall t :: t in tokens ==> t == TokenId(tokens[t].symbol)
  }

  /** A mint receipt is filed under its own token. */
  ghost predicate MintFiling(mints: map<Id, MintReceipt>) {
    forall m :: m in mints ==> m.MintId? && m.token == mints[m].token
  }

  ghost predicate MintKeys(mints: map<Id, MintReceipt>, tokens: set<Id>) {
    forall m :: m in mints ==> mints[m].token in tokens
  }

  /** The cached supply of a token is the sum of its mint receipts. */
  ghost predicate SuppliesAgree(tokens: map<Id, Token>, mints: map<Id, MintReceipt>) {
    forall t :: t in tokens ==> tokens[t].supply == Sum(mints, MintedOf(t))
  }

  ghost predicate FaucetKeys(faucets: map<Id, FaucetRecord>, accounts: set<Id>) {
    forall f :: f in faucets ==> faucets[f].account in accounts
  }

  /** The cached lifetime faucet total of an account is the sum of its faucet records. */
  ghost predicate LifetimesAgree(balances: map<Id, UnitBalance>, faucets: map<Id, FaucetRecord>) {
    forall a :: a in balances ==> balances[a].lifetime == Sum(faucets, PaidTo(a))
  }

  ghost predicate BookOk(b: Book) {
    && TokenKeys(b.held.tokens, b.tokens.Keys, b.held.units.Keys)
    && TokenNames(b.tokens) && MintFiling(b.log.mints) && MintKeys(b.log.mints, b.tokens.Keys)
     && SuppliesAgree(b.tokens, b.log.mints)
    && FaucetKeys(b.log.faucets, b.held.units.Keys) && LifetimesAgree(b.held.units, b.log.faucets)
  }

  /** The same accounts with the same lifetime totals. */
  ghost predicate SameLifetimes(m: map<Id, UnitBalance>, n: map<Id, UnitBalance>) {
    n.Keys == m.Keys && forall a :: a in m ==> n[a].lifetime == m[a].lifetime
  }

  /** The book changed in held units only; no account, token or record came or went. */
  ghost predicate OnlyUnitsMoved(b: Book, b': Book) {
    && b'.tokens == b.tokens && b'.log == b.log
    && SameLifetimes(b.held.units, b'.held.units)
  }

  lemma LifetimesStillAgree(m: map<Id, UnitBalance>, n: map<Id, UnitBalance>, faucets: map<Id, FaucetRecord>)
    requires LifetimesAgree(m, faucets) && SameLifetimes(m, n)
    ensures LifetimesAgree(n, faucets)
  {
  }

  lemma UnitsMovedKeepsOk(b: Book, b': Book)
    requires BookOk(b) && OnlyUnitsMoved(b, b')
    requires TokenKeys(b'.held.tokens, b.tokens.Keys, b.held.units.Keys)
    ensures BookOk(b')
  {
    LifetimesStillAgree(b.held.units, b'.held.units, b.log.faucets);
  }

  // ----- debit and credit -----

  lemma DebitMoves(b: Book, now: nat, account: Id, asset: Id, amount: U64)
    ensures OnlyUnitsMoved(b, Debit(b, now, account, asset, amount).state)
  {
  }

  lemma DebitKeys(b: Book, now: nat, account: Id, asset: Id, amount: U64)
    requires TokenKeys(b.held.tokens, b.tokens.Keys, b.held.units.Keys)
    ensures TokenKeys(Debit(b, now, account, asset, amount).state.held.tokens, b.tokens.Keys, b.held.units.Keys)
  {
  }

  lemma DebitFacts(b: Book, now: nat, account: Id, asset: Id, amount: U64)
    requires BookOk(b)
    ensures BookOk(Debit(b, now, account, asset, amount).state)
    ensures OnlyUnitsMoved(b, Debit(b, now, account, asset, amount).state)
  {
    DebitMoves(b, now, account, asset, amount);
    DebitKeys(b, now, account, asset, amount);
    UnitsMovedKeepsOk(b, Debit(b, now, account, asset, amount).state);
  }

  /** A debit is refused without a trace, and is refused exactly when the units are not there. */
  lemma DebitDecides(b: Book, now: nat, account: Id, asset: Id, amount: U64)
    ensures var s := Debit(b, now, account, asset, amount);
            && (s.outcome.Rejected? ==> s.state == b)
            && (amount > 0 ==> (s.outcome.Applied? <==>
                AssetExists(b, asset) && (asset == LocalUnit ==> account in b.held.units) &&
                Holding(b, account, asset) >= amount))
  {
  }

  /** A debit lowers one holding by the amount and no other. */
  lemma DebitHoldings(b: Book, now: nat, account: Id, asset: Id, amount: U64, x: Id, y: Id)
    requires Debit(b, now, account, asset, amount).outcome.Applied?
    ensures Holding(Debit(b, now, account, asset, amount).state, x, y) ==
            Holding(b, x, y) - (if x == account && y == asset then amount else 0)
  {
    var s := Debit(b, now, account, asset, amount).state;
    if asset == LocalUnit {
      assert s.held.tokens == b.held.tokens;
    } else {
      assert s.held.units == b.held.units;
      assert TokenBalanceId(y, x) == TokenBalanceId(asset, account) <==> x == account && y == asset;
    }
  }

  lemma DebitTotal(b: Book, now: nat, account: Id, asset: Id, amount: U64, a: Id)
    requires TokenKeys(b.held.tokens, b.tokens.Keys, b.held.units.Keys)
    requires Debit(b, now, account, asset, amount).outcome.Applied?
    ensures InAccounts(Debit(b, now, account, asset, amount).state, a) ==
            InAccounts(b, a) - (if a == asset then amount else 0)
  {
    if asset == LocalUnit {
      var r := b.held.units[account];
      UnitsPut(b.held.units, account, r.(units := r.units - amount, updatedAt := now));
    } else {
      var id := TokenBalanceId(asset, account);
      var r := b.held.tokens[id];
      TokenUnitsPut(b.held.tokens, id, r.(units := r.units - amount, updatedAt := now), a);
    }
  }

  lemma CreditMoves(b: Book, now: nat, account: Id, asset: Id, amount: U64)
    ensures OnlyUnitsMoved(b, Credit(b, now, account, asset, amount).state)
  {
  }

  lemma CreditKeys(b: Book, now: nat, account: Id, asset: Id, amount: U64)
    requires TokenKeys(b.held.tokens, b.tokens.Keys, b.held.units.Keys) && account in b.held.units
    ensures TokenKeys(Credit(b, now, account, asset, amount).state.held.tokens, b.tokens.Keys, b.held.units.Keys)
  {
  }

  lemma CreditFacts(b: Book, now: nat, account: Id, asset: Id, amount: U64)
    requires BookOk(b) && account in b.held.units
    ensures BookOk(Credit(b, now, account, asset, amount).state)
    ensures OnlyUnitsMoved(b, Credit(b, now, account, asset, amount).state)
  {
    CreditMoves(b, now, account, asset, amount);
    CreditKeys(b, now, account, asset, amount);
    UnitsMovedKeepsOk(b, Credit(b, now, account, asset, amount).state);
  }

  /** A credit is refused without a trace, and is refused exactly when it is empty, unknown or too large. */
  lemma CreditDecides(b: Book, now: nat, account: Id, asset: Id, amount: U64)
    ensures var s := Credit(b, now, account, asset, amount);
            && (s.outcome.Rejected? ==> s.state == b)
            && (s.outcome.Applied? <==>
                amount > 0 && AssetExists(b, asset) && (asset == LocalUnit ==> account in b.held.units) &&
                Holding(b, account, asset) + amount <= MAX_U64)
  {
  }

  /** A credit raises one holding by the amount and no other. */
  lemma CreditHoldings(b: Book, now: nat, account: Id, asset: Id, amount: U64, x: Id, y: Id)
    requires Credit(b, now, account, asset, amount).outcome.Applied?
    ensures Holding(Credit(b, now, account, asset, amount).state, x, y) ==
            Holding(b, x, y) + (if x == account && y == asset then amount else 0)
  {
    var s := Credit(b, now, account, asset, amount).state;
    if asset == LocalUnit {
      assert s.held.tokens == b.held.tokens;
    } else {
      assert s.held.units == b.held.units;
      assert TokenBalanceId(y, x) == TokenBalanceId(asset, account) <==> x == account && y == asset;
    }
  }

  lemma CreditTokenTotal(b: Book, now: nat, account: Id, asset: Id, amount: U64, a: Id)
    requires TokenKeys(b.held.tokens, b.tokens.Keys, b.held.units.Keys) && asset != LocalUnit
    requires Credit(b, now, account, asset, amount).outcome.Applied?
    ensures InAccounts(Credit(b, now, account, asset, amount).state, a) ==
            InAccounts(b, a) + (if a == asset then amount else 0)
  {
    var id := TokenBalanceId(asset, account);
    var r := if id in b.held.tokens then b.held.tokens[id] else TokenBalance(asset, account, 0, now, true);
    TokenUnitsPut(b.held.tokens, id, r.(units := r.units + amount, updatedAt := now), a);
  }

  lemma CreditTotal(b: Book, now: nat, account: Id, asset: Id, amount: U64, a: Id)
    requires TokenKeys(b.held.tokens, b.tokens.Keys, b.held.units.Keys)
    requires Credit(b, now, account, asset, amount).outcome.Applied?
    ensures InAccounts(Credit(b, now, account, asset, amount).state, a) ==
            InAccounts(b, a) + (if a == asset then amount else 0)
  {
    hide TokenKeys;
    if asset == LocalUnit {
      var r := b.held.units[account];
      UnitsPut(b.held.units, account, r.(units := r.units + amount, updatedAt := now));
    } else {
      CreditTokenTotal(b, now, account, asset, amount, a);
    }
  }

  /** No account holds more than the accounts hold together. */
  lemma HoldingInTotal(b: Book, account: Id, asset: Id)
    requires TokenKeys(b.held.tokens, b.tokens.Keys, b.held.units.Keys)
    ensures Holding(b, account, asset) <= InAccounts(b, asset)
  {
    if asset == LocalUnit {
      if account in b.held.units {
        SumAtLeast(b.held.units, account, UnitsOf());
      }
    } else {
      var id := TokenBalanceId(asset, account);
      if id in b.held.tokens {
        SumAtLeast(b.held.tokens, id, TokenUnitsOf(asset));
      }
    }
  }

  // ----- the book's own transactions -----

  lemma CreateBalanceOk(b: Book, now: nat, tx: Tx)
    requires BookOk(b) && tx.CreateBalance?
    ensures BookOk(CreateBalanceStep(b, now, tx).state)
  {
    if tx.account !in b.held.units {
      SumZero(b.log.faucets, PaidTo(tx.account));
    }
  }

  lemma CreateBalanceTotal(b: Book, now: nat, tx: Tx, a: Id)
    requires tx.CreateBalance?
    ensures InAccounts(CreateBalanceStep(b, now, tx).state, a) == InAccounts(b, a)
  {
    if tx.account !in b.held.units {
      UnitsPut(b.held.units, tx.account, UnitBalance(tx.owner, 0, 0, None, now, true));
    }
  }

  /** The faucet pays units it then fails to record exactly when only the lifetime counter overflows. */
  predicate FaucetLeaks(b: Book, tx: Tx)
    requires tx.Faucet?
  {
    && tx.amount > 0 && tx.record !in b.log.faucets && tx.account in b.held.units
    && b.held.units[tx.account].units + tx.amount <= MAX_U64
    && b.held.units[tx.account].lifetime + tx.amount > MAX_U64
  }

  /** A refused faucet changes the book exactly when it leaks. */
  lemma FaucetDecides(b: Book, now: nat, tx: Tx)
    requires tx.Faucet?
    ensures var s := FaucetStep(b, now, tx);
            s.outcome.Rejected? && s.state != b <==> FaucetLeaks(b, tx)
  {
    if FaucetLeaks(b, tx) {
      assert FaucetStep(b, now, tx).state.held.units[tx.account].units != b.held.units[tx.account].units;
    }
  }

  lemma FaucetTotal(b: Book, now: nat, tx: Tx, a: Id)
    requires tx.Faucet?
    ensures var s := FaucetStep(b, now, tx);
            InAccounts(s.state, a) == InAccounts(b, a) +
              (if a == LocalUnit && (s.outcome.Applied? || FaucetLeaks(b, tx)) then tx.amount else 0)
  {
    var s := FaucetStep(b, now, tx);
    if s.outcome.Applied? || FaucetLeaks(b, tx) {
      UnitsPut(b.held.units, tx.account, s.state.held.units[tx.account]);
    }
  }

  lemma LifetimesAfterFaucet(
      m: map<Id, UnitBalance>, n: map<Id, UnitBalance>, faucets: map<Id, FaucetRecord>, id: Id, r: FaucetRecord)
    requires LifetimesAgree(m, faucets) && id !in faucets
    requires r.account in m && n.Keys == m.Keys
    requires forall a :: a in m ==> n[a].lifetime == m[a].lifetime + (if a == r.account then r.amount else 0)
    ensures LifetimesAgree(n, faucets[id := r])
  {
    forall a | a in n
      ensures n[a].lifetime == Sum(faucets[id := r], PaidTo(a))
    {
      SumPut(faucets, id, r, PaidTo(a));
    }
  }

  lemma FaucetKeysAfter(b: Book, now: nat, tx: Tx)
    requires tx.Faucet? && FaucetKeys(b.log.faucets, b.held.units.Keys)
    ensures FaucetKeys(FaucetStep(b, now, tx).state.log.faucets, b.held.units.Keys)
  {
  }

  lemma FaucetOk(b: Book, now: nat, tx: Tx)
    requires BookOk(b) && tx.Faucet?
    ensures BookOk(FaucetStep(b, now, tx).state)
  {
    hide TokenKeys, FaucetKeys, TokenNames, SuppliesAgree, MintFiling, MintKeys;
    var s := FaucetStep(b, now, tx);
    FaucetKeysAfter(b, now, tx);
    assert s.state.held.units.Keys == b.held.units.Keys;
    if s.outcome.Applied? {
      LifetimesAfterFaucet(b.held.units, s.state.held.units, b.log.faucets, tx.record, s.state.log.faucets[tx.record]);
    } else {
      LifetimesStillAgree(b.held.units, s.state.held.units, b.log.faucets);
    }
  }

  lemma TransferMoves(b: Book, now: nat, tx: Tx)
    requires tx.Transfer?
    ensures var s := TransferStep(b, now, tx).state;
            && SameLifetimes(b.held.units, s.held.units) && s.held.tokens == b.held.tokens && s.tokens == b.tokens
            && s.log == b.log.(transfers := s.log.transfers)
  {
    var units := b.held.units;
    var moved := TransferStep(b, now, tx).state.held.units;
    if tx.source in units && tx.target in units {
      assert moved.Keys == units.Keys;
    }
  }

  lemma TransferOk(b: Book, now: nat, tx: Tx)
    requires BookOk(b) && tx.Transfer?
    ensures BookOk(TransferStep(b, now, tx).state)
  {
    TransferMoves(b, now, tx);
    LifetimesStillAgree(b.held.units, TransferStep(b, now, tx).state.held.units, b.log.faucets);
  }

  /** A refused transfer leaves no trace; an applied one keeps the units in circulation. */
  lemma TransferTotal(b: Book, now: nat, tx: Tx, a: Id)
    requires tx.Transfer?
    ensures var s := TransferStep(b, now, tx);
            (s.outcome.Rejected? ==> s.state == b) && InAccounts(s.state, a) == InAccounts(b, a)
  {
    var s := TransferStep(b, now, tx);
    if s.outcome.Applied? {
      var mid := b.held.units[tx.source := s.state.held.units[tx.source]];
      UnitsPut(b.held.units, tx.source, s.state.held.units[tx.source]);
      UnitsPut(mid, tx.target, s.state.held.units[tx.target]);
    }
  }

  /** What a transfer means for every holding. */
  lemma TransferHoldings(b: Book, now: nat, tx: Tx, x: Id, y: Id)
    requires tx.Transfer? && TransferStep(b, now, tx).outcome.Applied?
    ensures Holding(TransferStep(b, now, tx).state, x, y) == Holding(b, x, y)
            + (if y == LocalUnit && x == tx.target then tx.amount else 0)
            - (if y == LocalUnit && x == tx.source then tx.amount else 0)
  {
  }

  /** Before a token is launched nothing refers to it. */
  lemma UnlaunchedIsUnused(b: Book, token: Id)
    requires BookOk(b) && token !in b.tokens && token != LocalUnit
    ensures forall account :: TokenBalanceId(token, account) !in b.held.tokens
    ensures Sum(b.log.mints, MintedOf(token)) == 0 && InAccounts(b, token) == 0
  {
    SumZero(b.log.mints, MintedOf(token));
    SumZero(b.held.tokens, TokenUnitsOf(token));
  }

  /** Launching fails only before the first write, and never because another token took the symbol. */
  lemma LaunchDecides(b: Book, now: nat, tx: Tx)
    requires BookOk(b) && tx.LaunchToken?
    ensures var s := LaunchStep(b, now, tx);
            && (s.outcome.Rejected? ==> s.state == b && !s.outcome.error.TokenSymbolAlreadyExists?)
            && (s.outcome.Applied? ==> tx.token !in b.tokens && tx.token.TokenId? && tx.account in b.held.units)
  {
    NormalizeSymbolIdempotent(tx.symbol);
    if tx.token !in b.tokens && tx.token.TokenId? {
      UnlaunchedIsUnused(b, tx.token);
    }
  }

  lemma SuppliesAfterMint(
      tokens: map<Id, Token>, tokens': map<Id, Token>, mints: map<Id, MintReceipt>, id: Id, r: MintReceipt)
    requires SuppliesAgree(tokens, mints) && id !in mints
    requires tokens'.Keys == tokens.Keys + {r.token}
    requires forall t :: t in tokens && t != r.token ==> tokens'[t].supply == tokens[t].supply
    requires tokens'[r.token].supply == Sum(mints, MintedOf(r.token)) + r.amount
    ensures SuppliesAgree(tokens', mints[id := r])
  {
    forall t | t in tokens'
      ensures tokens'[t].supply == Sum(mints[id := r], MintedOf(t))
    {
      SumPut(mints, id, r, MintedOf(t));
    }
  }

  lemma LaunchShape(b: Book, now: nat, tx: Tx)
    requires tx.LaunchToken? && LaunchStep(b, now, tx).outcome.Applied?
    ensures tx.token == TokenId(NormalizeSymbol(NormalizeSymbol(tx.symbol))) && tx.token !in b.tokens
    ensures tx.account in b.held.units && tx.amount > 0
    ensures var s := LaunchStep(b, now, tx).state;
            var mint := InitialMint(tx.token, tx.account, tx.amount);
            var id := TokenBalanceId(tx.token, tx.account);
            var r := if id in b.held.tokens then b.held.tokens[id] else TokenBalance(tx.token, tx.account, 0, now, true);
            && s.tokens == b.tokens[tx.token := LaunchedToken(tx, now)]
            && r.units + tx.amount <= MAX_U64
            && s.held == b.held.(tokens := b.held.tokens[id := r.(units := r.units + tx.amount, updatedAt := now)])
            && s.log.faucets == b.log.faucets
            && s.log.mints == b.log.mints[mint := MintReceipt(tx.token, tx.account, tx.amount, mint.reason, now)]
  {
    hide NormalizeSymbol, InitialMint, LaunchedToken;
  }

  lemma LaunchTokens(b: Book, now: nat, tx: Tx)
    requires BookOk(b) && tx.LaunchToken? && LaunchStep(b, now, tx).outcome.Applied?
    ensures var s := LaunchStep(b, now, tx).state;
            TokenNames(s.tokens) && MintFiling(s.log.mints) && MintKeys(s.log.mints, s.tokens.Keys)
  {
    hide LaunchStep, NormalizeSymbol, LifetimesAgree, SuppliesAgree, TokenKeys, FaucetKeys;
    LaunchShape(b, now, tx);
    NormalizeSymbolIdempotent(tx.symbol);
  }

  lemma LaunchSupplies(b: Book, now: nat, tx: Tx)
    requires BookOk(b) && tx.LaunchToken? && LaunchStep(b, now, tx).outcome.Applied?
    ensures SuppliesAgree(LaunchStep(b, now, tx).state.tokens, LaunchStep(b, now, tx).state.log.mints)
  {
    hide LaunchStep, NormalizeSymbol, LifetimesAgree, TokenKeys, FaucetKeys, TokenNames;
    LaunchShape(b, now, tx);
    UnlaunchedIsUnused(b, tx.token);
    var s := LaunchStep(b, now, tx).state;
    var mint := InitialMint(tx.token, tx.account, tx.amount);
    MintOfUnlaunched(b, mint);
    SuppliesAfterMint(b.tokens, s.tokens, b.log.mints, mint, s.log.mints[mint]);
  }

  lemma LaunchHeld(b: Book, now: nat, tx: Tx)
    requires BookOk(b) && tx.LaunchToken? && LaunchStep(b, now, tx).outcome.Applied?
    ensures var s := LaunchStep(b, now, tx).state;
            TokenKeys(s.held.tokens, s.tokens.Keys, s.held.units.Keys) && s.held.units == b.held.units
  {
    hide LaunchStep, NormalizeSymbol, LifetimesAgree, FaucetKeys, TokenNames, SuppliesAgree, MintFiling, MintKeys;
    LaunchShape(b, now, tx);
  }

  /** A launch keeps the book sound. */
  lemma LaunchOk(b: Book, now: nat, tx: Tx)
    requires BookOk(b) && tx.LaunchToken? && LaunchStep(b, now, tx).outcome.Applied?
    ensures BookOk(LaunchStep(b, now, tx).state)
  {
    hide LaunchStep, NormalizeSymbol, LifetimesAgree, FaucetKeys, TokenNames, SuppliesAgree, MintFiling, MintKeys,
         TokenKeys;
    LaunchShape(b, now, tx);
    LaunchTokens(b, now, tx);
    LaunchSupplies(b, now, tx);
    LaunchHeld(b, now, tx);
  }

  lemma MintOfUnlaunched(b: Book, mint: Id)
    requires MintFiling(b.log.mints) && MintKeys(b.log.mints, b.tokens.Keys)
    requires mint.MintId? && mint.token !in b.tokens
    ensures mint !in b.log.mints
  {
  }

  lemma LaunchTotal(b: Book, now: nat, tx: Tx, a: Id)
    requires BookOk(b) && tx.LaunchToken?
    ensures var s := LaunchStep(b, now, tx);
            InAccounts(s.state, a) == InAccounts(b, a) + (if s.outcome.Applied? && a == tx.token then tx.amount else 0)
  {
    hide LaunchStep, NormalizeSymbol;
    LaunchDecides(b, now, tx);
    var s := LaunchStep(b, now, tx);
    if s.outcome.Applied? {
      LaunchShape(b, now, tx);
      UnlaunchedIsUnused(b, tx.token);
      TokenUnitsPut(b.held.tokens, TokenBalanceId(tx.token, tx.account),
                    s.state.held.tokens[TokenBalanceId(tx.token, tx.account)], a);
    }
  }

  /** Minting is refused without a trace. */
  lemma MintDecides(b: Book, now: nat, tx: Tx)
    requires tx.MintToken?
    ensures MintStep(b, now, tx).outcome.Rejected? ==> MintStep(b, now, tx).state == b
  {
  }

  lemma MintTokens(b: Book, now: nat, tx: Tx)
    requires tx.MintToken? && MintStep(b, now, tx).outcome.Applied?
    requires TokenNames(b.tokens) && MintFiling(b.log.mints) && MintKeys(b.log.mints, b.tokens.Keys)
    requires SuppliesAgree(b.tokens, b.log.mints)
    ensures var s := MintStep(b, now, tx).state;
            && s.tokens.Keys == b.tokens.Keys && TokenNames(s.tokens) && MintFiling(s.log.mints)
            && MintKeys(s.log.mints, s.tokens.Keys) && SuppliesAgree(s.tokens, s.log.mints)
  {
    hide MintStep, Credit, SuppliesAgree;
    MintShape(b, now, tx);
    MintSupplies(b, now, tx);
  }

  lemma MintSupplies(b: Book, now: nat, tx: Tx)
    requires tx.MintToken? && MintStep(b, now, tx).outcome.Applied? && SuppliesAgree(b.tokens, b.log.mints)
    ensures SuppliesAgree(MintStep(b, now, tx).state.tokens, MintStep(b, now, tx).state.log.mints)
  {
    hide MintStep, Credit;
    MintShape(b, now, tx);
    var s := MintStep(b, now, tx).state;
    SuppliesAfterMint(b.tokens, s.tokens, b.log.mints, tx.mint, s.log.mints[tx.mint]);
  }

  lemma MintOk(b: Book, now: nat, tx: Tx)
    requires BookOk(b) && tx.MintToken?
    ensures BookOk(MintStep(b, now, tx).state)
  {
    hide MintStep, Credit, LifetimesAgree, TokenKeys, SuppliesAgree, FaucetKeys, TokenNames, MintFiling, MintKeys;
    MintDecides(b, now, tx);
    var s := MintStep(b, now, tx);
    if s.outcome.Applied? {
      MintShape(b, now, tx);
      MintTokens(b, now, tx);
      CreditMoves(b, now, tx.account, tx.token, tx.amount);
      CreditKeys(b, now, tx.account, tx.token, tx.amount);
      LifetimesStillAgree(b.held.units, s.state.held.units, b.log.faucets);
    }
  }

  lemma MintShape(b: Book, now: nat, tx: Tx)
    requires tx.MintToken? && MintStep(b, now, tx).outcome.Applied?
    ensures tx.mint == MintId(tx.token, tx.account, tx.amount, tx.reason) && tx.mint !in b.log.mints
    ensures tx.token in b.tokens && tx.account in b.held.units && tx.amount > 0
    ensures b.tokens[tx.token].supply + tx.amount <= MAX_U64
    ensures var s := MintStep(b, now, tx).state;
            && Credit(b, now, tx.account, tx.token, tx.amount).outcome.Applied?
            && s.held == Credit(b, now, tx.account, tx.token, tx.amount).state.held
            && s.tokens == b.tokens[tx.token := b.tokens[tx.token].(supply := b.tokens[tx.token].supply + tx.amount)]
            && s.log.faucets == b.log.faucets
            && s.log.mints == b.log.mints[tx.mint := MintReceipt(tx.token, tx.account, tx.amount, tx.reason, now)]
  {
    hide Credit;
  }

  lemma MintTotal(b: Book, now: nat, tx: Tx, a: Id)
    requires BookOk(b) && tx.MintToken?
    ensures var s := MintStep(b, now, tx);
            InAccounts(s.state, a) == InAccounts(b, a) + (if s.outcome.Applied? && a == tx.token then tx.amount else 0)
  {
    MintDecides(b, now, tx);
    if MintStep(b, now, tx).outcome.Applied? {
      CreditTotal(b, now, tx.account, tx.token, tx.amount, a);
    }
  }
}
