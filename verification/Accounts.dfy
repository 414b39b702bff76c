/** The account book: unit balances, faucet, transfers, tokens and mints. */
module Accounts {
  import opened Prelude
  import opened Text
  import opened Ids
  import opened Records

  predicate AssetExists(b: Book, asset: Id) {
    asset == LocalUnit || asset in b.tokens
  }

  /** Units of an asset an account holds; an account without a record holds nothing. */
  function Holding(b: Book, account: Id, asset: Id): U64 {
    if asset == LocalUnit then
      if account in b.held.units then b.held.units[account].units else 0
    else
      var id := TokenBalanceId(asset, account);
      if id in b.held.tokens then b.held.tokens[id].units else 0
  }

  /** `ensure_asset_units_available` */
  function Availability(b: Book, account: Id, asset: Id, amount: U64): Outcome {
    if asset == LocalUnit && account !in b.held.units then Rejected(BalanceMissing(account))
    else if asset != LocalUnit && asset !in b.tokens then Rejected(TokenMissing(asset))
    else if Holding(b, account, asset) < amount then
      if asset == LocalUnit then Rejected(BalanceInsufficient(account))
      else Rejected(TokenBalanceInsufficient(TokenBalanceId(asset, account)))
    else Applied
  }

  /** `debit_asset_units` */
  function Debit(b: Book, now: nat, account: Id, asset: Id, amount: U64): Step<Book> {
    match Availability(b, account, asset, amount)
    case Rejected(e) => Refuse(b, e)
    case Applied =>
      if asset == LocalUnit then
        var r := b.held.units[account];
        Done(b.(held := b.held.(units := b.held.units[account := r.(units := r.units - amount, updatedAt := now)])))
      else
        var id := TokenBalanceId(asset, account);
        if id !in b.held.tokens then Refuse(b, TokenBalanceInsufficient(id))
        else
          var r := b.held.tokens[id];
          Done(b.(held := b.held.(tokens := b.held.tokens[id := r.(units := r.units - amount, updatedAt := now)])))
  }

  /** `credit_asset_units`: refuses a zero amount, a missing unit account, an unknown token and overflow. */
  function Credit(b: Book, now: nat, account: Id, asset: Id, amount: U64): Step<Book> {
    if amount == 0 then Refuse(b, TokenAmountMustBePositive(asset))
    else if asset == LocalUnit then
      if account !in b.held.units then Refuse(b, BalanceMissing(account))
      else
        var r := b.held.units[account];
        if r.units + amount > MAX_U64 then Refuse(b, BalanceOverflow(account))
        else Done(b.(held := b.held.(units := b.held.units[account := r.(units := r.units + amount, updatedAt := now)])))
    else if asset !in b.tokens then Refuse(b, TokenMissing(asset))
    else
      var id := TokenBalanceId(asset, account);
      var r := if id in b.held.tokens then b.held.tokens[id] else TokenBalance(asset, account, 0, now, true);
      if r.units + amount > MAX_U64 then Refuse(b, TokenBalanceOverflow(id))
      else Done(b.(held := b.held.(tokens := b.held.tokens[id := r.(units := r.units + amount, updatedAt := now)])))
  }

  function CreateBalanceStep(b: Book, now: nat, tx: Tx): Step<Book>
    requires tx.CreateBalance?
  {
    if tx.account in b.held.units then Refuse(b, BalanceAlreadyExists(tx.account))
    else Done(b.(held := b.held.(units := b.held.units[tx.account := UnitBalance(tx.owner, 0, 0, None, now, true)])))
  }

  /** The units are written before the lifetime counter is checked, so that rejection keeps them. */
  function FaucetStep(b: Book, now: nat, tx: Tx): Step<Book>
    requires tx.Faucet?
  {
    if tx.amount == 0 then Refuse(b, FaucetAmountMustBePositive(tx.record))
    else if tx.record in b.log.faucets then Refuse(b, FaucetRecordAlreadyExists(tx.record))
    else if tx.account !in b.held.units then Refuse(b, BalanceMissing(tx.account))
    else
      var r := b.held.units[tx.account];
      if r.units + tx.amount > MAX_U64 then Refuse(b, BalanceOverflow(tx.account))
      else
        var paid := r.(units := r.units + tx.amount);
        if r.lifetime + tx.amount > MAX_U64 then
          Refuse(b.(held := b.held.(units := b.held.units[tx.account := paid])), BalanceOverflow(tx.account))
        else
          Done(b.(
               held := b.held.(units := b.held.units[tx.account := paid.(
                 lifetime := r.lifetime + tx.amount, lastFaucet := Some(tx.record), updatedAt := now)]),
               log := b.log.(faucets := b.log.faucets[tx.record :=
                 FaucetRecord(tx.account, tx.recipient, tx.amount, tx.reason, now)])))
  }

  function TransferStep(b: Book, now: nat, tx: Tx): Step<Book>
    requires tx.Transfer?
  {
    if tx.transfer in b.log.transfers then Refuse(b, TransferAlreadyExists(tx.transfer))
    else if tx.amount == 0 then Refuse(b, FaucetAmountMustBePositive(tx.transfer))
    else if tx.source !in b.held.units then Refuse(b, BalanceMissing(tx.source))
    else
      var s := b.held.units[tx.source];
      if s.units < tx.amount then Refuse(b, BalanceInsufficient(tx.source))
      else
        var recorded := b.log.(transfers := b.log.transfers[tx.transfer :=
          TransferRecord(tx.source, tx.target, tx.amount, tx.memo, now, s.noValue)]);
        if tx.source == tx.target then
          Done(b.(held := b.held.(units := b.held.units[tx.source := s.(updatedAt := now)]), log := recorded))
        else if tx.target !in b.held.units then Refuse(b, BalanceMissing(tx.target))
        else
          var t := b.held.units[tx.target];
          if t.units + tx.amount > MAX_U64 then Refuse(b, BalanceOverflow(tx.target))
          else
            Done(b.(
                 held := b.held.(units := b.held.units
                   [tx.source := s.(units := s.units - tx.amount, updatedAt := now)]
                   [tx.target := t.(units := t.units + tx.amount, noValue := t.noValue && s.noValue, updatedAt := now)]),
                 log := recorded))
  }

  function InitialMint(token: Id, account: Id, amount: U64): Id {
    MintId(token, account, amount, "initial-supply")
  }

  function LaunchedToken(tx: Tx, now: nat): Token
    requires tx.LaunchToken?
  {
    Token(NormalizeSymbol(tx.symbol), tx.name, tx.decimals, tx.account, tx.amount, now)
  }

  function LaunchStep(b: Book, now: nat, tx: Tx): Step<Book>
    requires tx.LaunchToken?
  {
    var symbol := NormalizeSymbol(tx.symbol);
    if tx.token != TokenId(NormalizeSymbol(symbol)) then Refuse(b, IdMismatch(TokenKind, tx.token))
    else if tx.amount == 0 then Refuse(b, TokenAmountMustBePositive(tx.token))
    else if tx.account !in b.held.units then Refuse(b, BalanceMissing(tx.account))
    else if tx.token in b.tokens then Refuse(b, TokenAlreadyExists(tx.token))
    else if exists t :: t in b.tokens && b.tokens[t].symbol == symbol then
      Refuse(b, TokenSymbolAlreadyExists(symbol))
    else
      var defined := b.(tokens := b.tokens[tx.token := LaunchedToken(tx, now)]);
      var credited := Credit(defined, now, tx.account, tx.token, tx.amount);
      match credited.outcome
      case Rejected(e) => credited
      case Applied =>
        var mint := InitialMint(tx.token, tx.account, tx.amount);
        Done(credited.state.(log := b.log.(mints := b.log.mints[mint :=
          MintReceipt(tx.token, tx.account, tx.amount, mint.reason, now)])))
  }

  function MintStep(b: Book, now: nat, tx: Tx): Step<Book>
    requires tx.MintToken?
  {
    if tx.mint != MintId(tx.token, tx.account, tx.amount, tx.reason) then Refuse(b, IdMismatch(MintKind, tx.mint))
    else if tx.amount == 0 then Refuse(b, TokenAmountMustBePositive(tx.mint))
    else if tx.account !in b.held.units then Refuse(b, BalanceMissing(tx.account))
    else if tx.mint in b.log.mints then Refuse(b, MintAlreadyExists(tx.mint))
    else if tx.token !in b.tokens then Refuse(b, TokenMissing(tx.token))
    else
      var t := b.tokens[tx.token];
      if t.supply + tx.amount > MAX_U64 then Refuse(b, TokenBalanceOverflow(tx.token))
      else
        var credited := Credit(b, now, tx.account, tx.token, tx.amount);
        match credited.outcome
        case Rejected(e) => credited
        case Applied =>
          Done(credited.state.(
               tokens := b.tokens[tx.token := t.(supply := t.supply + tx.amount)],
               log := b.log.(mints := b.log.mints[tx.mint :=
                 MintReceipt(tx.token, tx.account, tx.amount, tx.reason, now)])))
  }
}
