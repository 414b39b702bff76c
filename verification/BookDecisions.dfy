/** When account-book transactions apply, and what their records say. */
module BookDecisions {
  import opened Prelude
  import opened Text
  import opened Ids
  import opened Records
  import opened Accounts
  import opened BookFacts

  lemma CreateBalanceAppliesIff(b: Book, now: nat, tx: Tx)
    requires tx.CreateBalance?
    ensures var s := CreateBalanceStep(b, now, tx);
            && (s.outcome.Applied? <==> tx.account !in b.held.units)
            && (s.outcome.Applied? ==>
                tx.account in s.state.held.units && s.state.held.units[tx.account].owner == tx.owner &&
                Holding(s.state, tx.account, LocalUnit) == 0)
  {
  }

  /** A faucet payment applies exactly when it is positive and new, to an existing account whose balance and lifetime take it. */
  lemma FaucetAppliesIff(b: Book, now: nat, tx: Tx)
    requires tx.Faucet?
    ensures var s := FaucetStep(b, now, tx);
            && (s.outcome.Applied? <==>
                && tx.amount > 0 && tx.record !in b.log.faucets && tx.account in b.held.units
                && b.held.units[tx.account].units + tx.amount <= MAX_U64
                && b.held.units[tx.account].lifetime + tx.amount <= MAX_U64)
            && (s.outcome.Applied? ==>
                && s.state.log.faucets ==
                     b.log.faucets[tx.record := FaucetRecord(tx.account, tx.recipient, tx.amount, tx.reason, now)]
                && s.state.held.units[tx.account].lastFaucet == Some(tx.record)
                && Holding(s.state, tx.account, LocalUnit) == Holding(b, tx.account, LocalUnit) + tx.amount)
  {
  }

  /** A transfer applies exactly when it is positive and new, the source holds it and another target's balance takes it. */
  lemma TransferAppliesIff(b: Book, now: nat, tx: Tx)
    requires tx.Transfer?
    ensures var s := TransferStep(b, now, tx);
            && (s.outcome.Applied? <==>
                && tx.transfer !in b.log.transfers && tx.amount > 0
                && tx.source in b.held.units && b.held.units[tx.source].units >= tx.amount
                && (tx.target != tx.source ==>
                    tx.target in b.held.units && b.held.units[tx.target].units + tx.amount <= MAX_U64))
            && (s.outcome.Applied? ==>
                s.state.log.transfers == b.log.transfers[tx.transfer :=
                  TransferRecord(tx.source, tx.target, tx.amount, tx.memo, now, b.held.units[tx.source].noValue)])
  {
  }

  /** A token launches exactly under the id of its normalized symbol, once, with a positive supply to an existing account. */
  lemma LaunchAppliesIff(b: Book, now: nat, tx: Tx)
    requires BookOk(b) && tx.LaunchToken?
    ensures var s := LaunchStep(b, now, tx);
            && (s.outcome.Applied? <==>
                && tx.token == TokenId(NormalizeSymbol(tx.symbol)) && tx.token !in b.tokens
                && tx.amount > 0 && tx.account in b.held.units)
            && (s.outcome.Applied? ==>
                s.state.tokens == b.tokens[tx.token :=
                  Token(NormalizeSymbol(tx.symbol), tx.name, tx.decimals, tx.account, tx.amount, now)])
  {
    hide NormalizeSymbol, Credit, TokenKeys, SuppliesAgree, LifetimesAgree, FaucetKeys, MintFiling, MintKeys;
    NormalizeSymbolIdempotent(tx.symbol);
    LaunchDecides(b, now, tx);
    if tx.token !in b.tokens && tx.token == TokenId(NormalizeSymbol(tx.symbol)) {
      UnlaunchedIsUnused(b, tx.token);
      NoSuchSymbol(b, NormalizeSymbol(tx.symbol));
      LaunchCredit(b, now, tx);
    }
    if LaunchStep(b, now, tx).outcome.Applied? {
      LaunchShape(b, now, tx);
    }
  }

  lemma NoSuchSymbol(b: Book, symbol: string)
    requires BookOk(b) && TokenId(symbol) !in b.tokens
    ensures !exists t :: t in b.tokens && b.tokens[t].symbol == symbol
  {
    hide TokenKeys, SuppliesAgree, LifetimesAgree, FaucetKeys, MintFiling, MintKeys;
  }

  lemma LaunchCredit(b: Book, now: nat, tx: Tx)
    requires BookOk(b) && tx.LaunchToken? && tx.token !in b.tokens && tx.token.TokenId?
    ensures var defined := b.(tokens := b.tokens[tx.token := LaunchedToken(tx, now)]);
            Credit(defined, now, tx.account, tx.token, tx.amount).outcome.Applied? <==> tx.amount > 0
  {
    hide Credit, NormalizeSymbol, LaunchedToken;
    var defined := b.(tokens := b.tokens[tx.token := LaunchedToken(tx, now)]);
    CreditDecides(defined, now, tx.account, tx.token, tx.amount);
    assert TokenBalanceId(tx.token, tx.account) !in b.held.tokens;
  }

  /** A mint applies exactly under its own id, once, to an existing account of an existing token whose supply and balance take it. */
  lemma MintAppliesIff(b: Book, now: nat, tx: Tx)
    requires tx.MintToken?
    ensures MintStep(b, now, tx).outcome.Applied? <==>
            && tx.mint == MintId(tx.token, tx.account, tx.amount, tx.reason) && tx.mint !in b.log.mints
            && tx.amount > 0 && tx.account in b.held.units && tx.token in b.tokens
            && b.tokens[tx.token].supply + tx.amount <= MAX_U64
            && Holding(b, tx.account, tx.token) + tx.amount <= MAX_U64
  {
    hide Credit;
    CreditDecides(b, now, tx.account, tx.token, tx.amount);
  }
}
