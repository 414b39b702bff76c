/** Bridge mappings and the credit of a bridge deposit. */
module BridgePath {
  import opened Text
  import opened Ids
  import opened Records
  import opened Accounts

  predicate ValidMode(localOnly: bool, productionReady: bool) {
    localOnly != productionReady
  }

  predicate IsLive(localOnly: bool, productionReady: bool) {
    !localOnly && productionReady
  }

  predicate IsBaseChain(chain: string) {
    chain == "8453"
  }

  function MapAssetStep(l: Ledger, now: nat, tx: Tx): Step<Ledger>
    requires tx.MapBridgeAsset?
  {
    if !ValidMode(tx.localOnly, tx.productionReady) then Refuse(l, InvalidRuntimeMode(tx.mapping))
    else if tx.mapping != AssetMappingId(tx.chain, tx.sourceToken, tx.asset) then
      Refuse(l, IdMismatch(AssetMappingKind, tx.mapping))
    else if tx.mapping in l.bridge.mappings.assets then Refuse(l, AssetMappingAlreadyExists(tx.mapping))
    else if !AssetExists(l.book, tx.asset) then Refuse(l, TokenMissing(tx.asset))
    else
      Done(l.(bridge := l.bridge.(mappings := l.bridge.mappings.(assets := l.bridge.mappings.assets[tx.mapping :=
        AssetMapping(tx.chain, tx.sourceToken, tx.asset, now, tx.localOnly, tx.productionReady)]))))
  }

  function MapAccountStep(l: Ledger, now: nat, tx: Tx): Step<Ledger>
    requires tx.MapBridgeAccount?
  {
    if !ValidMode(tx.localOnly, tx.productionReady) then Refuse(l, InvalidRuntimeMode(tx.mapping))
    else if tx.mapping != AccountMappingId(tx.recipient, tx.account) then
      Refuse(l, IdMismatch(AccountMappingKind, tx.mapping))
    else if tx.mapping in l.bridge.mappings.accounts then Refuse(l, AccountMappingAlreadyExists(tx.mapping))
    else
      Done(l.(bridge := l.bridge.(mappings := l.bridge.mappings.(accounts := l.bridge.mappings.accounts[tx.mapping :=
        AccountMapping(tx.recipient, tx.account, tx.owner, now, tx.localOnly, tx.productionReady)]))))
  }

  /** `validate_live_bridge_credit` */
  function LiveCheck(tx: Tx): Outcome
    requires tx.CreditBridge?
  {
    if !IsBaseChain(tx.event.chain) then Rejected(WrongSourceChain(tx.event.chain))
    else if tx.confirmation.None? then Rejected(MissingConfirmation(tx.credit))
    else if !tx.confirmation.value.satisfied then Rejected(ConfirmationUnsatisfied(tx.credit))
    else if tx.cap.None? then Rejected(MissingCapProof(tx.credit))
    else
      var cap := tx.cap.value;
      if !cap.approvedLockbox || !cap.operatorAcknowledged || !cap.noSecrets then Rejected(MissingCapProof(tx.credit))
      else if tx.amount > cap.maxDeposit || tx.amount > cap.totalCap then Rejected(ExceedsCap(tx.credit))
      else if forall i :: 0 <= i < |cap.supportedTokens| ==> Lower(cap.supportedTokens[i]) != Lower(tx.sourceToken) then
        Rejected(UnsupportedSourceToken(tx.sourceToken))
      else Applied
  }

  /** The checks that depend on the transaction alone. */
  function CreditForm(tx: Tx): Outcome
    requires tx.CreditBridge?
  {
    if !ValidMode(tx.localOnly, tx.productionReady) then Rejected(InvalidRuntimeMode(tx.credit))
    else if tx.replay !in ReplayKeys(tx.event) then Rejected(IdMismatch(ReplayKind, tx.replay))
    else if tx.credit !in CreditIds(tx.event, tx.observation, tx.replay, tx.recipient, tx.amount) then
      Rejected(IdMismatch(CreditKind, tx.credit))
    else if tx.receipt != tx.credit then Rejected(IdMismatch(CreditReceiptKind, tx.receipt))
    else if tx.amount == 0 then Rejected(CreditAmountMustBePositive(tx.credit))
    else if IsLive(tx.localOnly, tx.productionReady) then LiveCheck(tx)
    else Applied
  }

  /** Nothing the credit names has been consumed before. */
  function Unconsumed(br: Bridge, tx: Tx): Outcome
    requires tx.CreditBridge?
  {
    if tx.replay in br.used.replays then Rejected(ReplayAlreadyConsumed(tx.replay))
    else if tx.credit in br.credited.credits || tx.receipt in br.credited.receipts then Rejected(CreditAlreadyExists(tx.credit))
    else if EventKeyOf(tx.event) in br.used.events then Rejected(EventAlreadyConsumed(EventKeyOf(tx.event)))
    else Applied
  }

  /** The asset and the account the credit names are mapped in the same mode. */
  function Mapped(l: Ledger, tx: Tx): Outcome
    requires tx.CreditBridge?
  {
    var asset := AssetMappingId(tx.event.chain, tx.sourceToken, tx.asset);
    var account := AccountMappingId(tx.recipient, tx.account);
    if asset !in l.bridge.mappings.assets then Rejected(AssetMappingMissing(asset))
    else
      var m := l.bridge.mappings.assets[asset];
      if m.asset != tx.asset then Rejected(AssetMappingMissing(asset))
      else if m.localOnly != tx.localOnly || m.productionReady != tx.productionReady then
        Rejected(UnsupportedAsset(tx.credit))
      else if account !in l.bridge.mappings.accounts then Rejected(AccountMappingMissing(account))
      else
        var a := l.bridge.mappings.accounts[account];
        if a.account != tx.account || a.localOnly != tx.localOnly || a.productionReady != tx.productionReady then
          Rejected(AccountMappingMissing(account))
        else if tx.account !in l.book.held.units then Rejected(BalanceMissing(tx.account))
        else Applied
  }

  function CreditQuote(l: Ledger, tx: Tx): Outcome
    requires tx.CreditBridge?
  {
    match CreditForm(tx)
    case Rejected(e) => Rejected(e)
    case Applied =>
      match Unconsumed(l.bridge, tx)
      case Rejected(e) => Rejected(e)
      case Applied => Mapped(l, tx)
  }

  /** `mark_asset_balance_value_bearing` */
  function MarkValueBearing(b: Book, account: Id, asset: Id): Book {
    if asset == LocalUnit then
      if account in b.held.units then b.(held := b.held.(units := b.held.units[account := b.held.units[account].(noValue := false)]))
      else b
    else
      var id := TokenBalanceId(asset, account);
      if id in b.held.tokens then
        b.(held := b.held.(tokens := b.held.tokens[id := b.held.tokens[id].(noValue := false)]))
      else b
  }

  /** The four indexes of the bridge after consuming one deposit. */
  function Consume(br: Bridge, now: nat, tx: Tx, owner: string): Bridge
    requires tx.CreditBridge?
  {
    Bridge(
      br.mappings,
      Credits(
        br.credited.credits[tx.credit :=
          BridgeCredit(tx.receipt, tx.account, owner, tx.recipient, tx.asset, tx.sourceToken, tx.amount,
                       tx.event, tx.observation, tx.replay, tx.memo, now, tx.localOnly, tx.productionReady,
                       tx.confirmation, tx.cap)],
        br.credited.receipts[tx.receipt :=
          CreditReceipt(tx.credit, tx.account, tx.asset, tx.amount, tx.event, tx.replay, now,
                        tx.localOnly, tx.productionReady, tx.confirmation, tx.cap)]),
      Indexes(
        br.used.replays[tx.replay := ReplayRecord(tx.credit, tx.receipt, tx.event, now)],
        br.used.events[EventKeyOf(tx.event) := tx.receipt]))
  }

  function CreditStep(l: Ledger, now: nat, tx: Tx): Step<Ledger>
    requires tx.CreditBridge?
  {
    match CreditQuote(l, tx)
    case Rejected(e) => Refuse(l, e)
    case Applied =>
      var owner := l.bridge.mappings.accounts[AccountMappingId(tx.recipient, tx.account)].owner;
      var c := Credit(l.book, now, tx.account, tx.asset, tx.amount);
      if c.outcome.Rejected? then Refuse(l, c.outcome.error)
      else
        var book := if IsLive(tx.localOnly, tx.productionReady) then MarkValueBearing(c.state, tx.account, tx.asset)
                    else c.state;
        Done(l.(book := book, bridge := Consume(l.bridge, now, tx, owner)))
  }
}
