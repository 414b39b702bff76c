/** What a bridge credit does to a sound ledger, and how the four bridge indexes stay in step. */
module BridgeFacts {
  import opened Ids
  import opened Records
  import opened Accounts
  import opened BookFacts
  import opened BridgePath

  /** Every credit has exactly one receipt, with the same content. */
  ghost predicate CreditsReceipted(c: Credits) {
    && c.credits.Keys == c.receipts.Keys
    && forall id :: id in c.credits ==>
         && c.credits[id].receipt == id && c.receipts[id].credit == id
         && c.receipts[id].account == c.credits[id].account && c.receipts[id].asset == c.credits[id].asset
         && c.receipts[id].amount == c.credits[id].amount && c.receipts[id].event == c.credits[id].event
         && c.receipts[id].replay == c.credits[id].replay
  }

  /** Replay keys and credits point at each other one to one. */
  ghost predicate ReplaysMatch(credits: map<Id, BridgeCredit>, replays: map<Id, ReplayRecord>) {
    && (forall id :: id in credits ==>
          && credits[id].replay in replays
          && replays[credits[id].replay].credit == id && replays[credits[id].replay].receipt == id
          && replays[credits[id].replay].event == credits[id].event)
    && (forall k :: k in replays ==> replays[k].credit in credits && credits[replays[k].credit].replay == k)
  }

  /** Event references and credits point at each other one to one. */
  ghost predicate EventsMatch(credits: map<Id, BridgeCredit>, events: map<Id, Id>) {
    && (forall id :: id in credits ==>
          EventKeyOf(credits[id].event) in events && events[EventKeyOf(credits[id].event)] == id)
    && (forall e :: e in events ==> events[e] in credits && EventKeyOf(credits[events[e]].event) == e)
  }

  ghost predicate BridgeOk(br: Bridge) {
    && CreditsReceipted(br.credited) && ReplaysMatch(br.credited.credits, br.used.replays)
    && EventsMatch(br.credited.credits, br.used.events)
  }

  /** Consuming a deposit nothing has consumed keeps the four indexes in step. */
  lemma ConsumeKeepsOk(br: Bridge, now: nat, tx: Tx, owner: string)
    requires BridgeOk(br) && tx.CreditBridge? && tx.receipt == tx.credit && Unconsumed(br, tx).Applied?
    ensures BridgeOk(Consume(br, now, tx, owner))
  {
    ConsumeReceipts(br, now, tx, owner);
    ConsumeReplays(br, now, tx, owner);
    ConsumeEvents(br, now, tx, owner);
  }

  lemma ConsumeReceipts(br: Bridge, now: nat, tx: Tx, owner: string)
    requires CreditsReceipted(br.credited) && tx.CreditBridge? && tx.receipt == tx.credit
    ensures CreditsReceipted(Consume(br, now, tx, owner).credited)
  {
  }

  lemma ConsumeReplays(br: Bridge, now: nat, tx: Tx, owner: string)
    requires ReplaysMatch(br.credited.credits, br.used.replays)
    requires tx.CreditBridge? && tx.receipt == tx.credit && Unconsumed(br, tx).Applied?
    ensures var br' := Consume(br, now, tx, owner); ReplaysMatch(br'.credited.credits, br'.used.replays)
  {
  }

  lemma ConsumeEvents(br: Bridge, now: nat, tx: Tx, owner: string)
    requires EventsMatch(br.credited.credits, br.used.events)
    requires tx.CreditBridge? && tx.receipt == tx.credit && Unconsumed(br, tx).Applied?
    ensures var br' := Consume(br, now, tx, owner); EventsMatch(br'.credited.credits, br'.used.events)
  {
  }

  // ----- the step -----

  function CreditOwner(l: Ledger, tx: Tx): string
    requires tx.CreditBridge? && AccountMappingId(tx.recipient, tx.account) in l.bridge.mappings.accounts
  {
    l.bridge.mappings.accounts[AccountMappingId(tx.recipient, tx.account)].owner
  }

  lemma CreditQuoteFacts(l: Ledger, tx: Tx)
    requires tx.CreditBridge? && CreditQuote(l, tx).Applied?
    ensures CreditForm(tx).Applied? && Unconsumed(l.bridge, tx).Applied? && Mapped(l, tx).Applied?
    ensures tx.receipt == tx.credit && tx.amount > 0 && tx.account in l.book.held.units
    ensures AccountMappingId(tx.recipient, tx.account) in l.bridge.mappings.accounts
  {
    hide ReplayKeys, CreditIds, LiveCheck, Unconsumed;
  }

  /** A credit is all or nothing: a refusal leaves the ledger alone, success pays and consumes. */
  lemma CreditShape(l: Ledger, now: nat, tx: Tx)
    requires tx.CreditBridge?
    ensures var s := CreditStep(l, now, tx);
            && (s.outcome.Rejected? ==> s.state == l)
            && (s.outcome.Applied? <==>
                CreditQuote(l, tx).Applied? && Credit(l.book, now, tx.account, tx.asset, tx.amount).outcome.Applied?)
            && (s.outcome.Applied? ==>
                && AccountMappingId(tx.recipient, tx.account) in l.bridge.mappings.accounts
                && s.state.dex == l.dex && s.state.bridge == Consume(l.bridge, now, tx, CreditOwner(l, tx))
                && s.state.book == CreditedBook(l.book, now, tx))
  {
    hide CreditQuote, Credit, MarkValueBearing, Consume;
    if CreditQuote(l, tx).Applied? {
      CreditQuoteFacts(l, tx);
    }
  }

  function CreditedBook(b: Book, now: nat, tx: Tx): Book
    requires tx.CreditBridge?
  {
    var paid := Credit(b, now, tx.account, tx.asset, tx.amount).state;
    if IsLive(tx.localOnly, tx.productionReady) then MarkValueBearing(paid, tx.account, tx.asset) else paid
  }

  /** Marking a balance as bearing value moves nothing. */
  lemma MarkFacts(b: Book, account: Id, asset: Id)
    ensures var b' := MarkValueBearing(b, account, asset);
            && OnlyUnitsMoved(b, b')
            && (TokenKeys(b.held.tokens, b.tokens.Keys, b.held.units.Keys) ==>
                TokenKeys(b'.held.tokens, b.tokens.Keys, b.held.units.Keys))
            && (forall x, y :: Holding(b', x, y) == Holding(b, x, y))
  {
  }

  lemma MarkTotal(b: Book, account: Id, asset: Id, a: Id)
    ensures InAccounts(MarkValueBearing(b, account, asset), a) == InAccounts(b, a)
  {
    var b' := MarkValueBearing(b, account, asset);
    if asset == LocalUnit && account in b.held.units {
      UnitsPut(b.held.units, account, b'.held.units[account]);
    } else if asset != LocalUnit && TokenBalanceId(asset, account) in b.held.tokens {
      TokenUnitsPut(b.held.tokens, TokenBalanceId(asset, account), b'.held.tokens[TokenBalanceId(asset, account)], a);
    }
  }

  lemma CreditedBookFacts(b: Book, now: nat, tx: Tx)
    requires BookOk(b) && tx.CreditBridge? && tx.account in b.held.units
    ensures BookOk(CreditedBook(b, now, tx)) && OnlyUnitsMoved(b, CreditedBook(b, now, tx))
  {
    hide Credit, MarkValueBearing;
    CreditFacts(b, now, tx.account, tx.asset, tx.amount);
    var paid := Credit(b, now, tx.account, tx.asset, tx.amount).state;
    MarkFacts(paid, tx.account, tx.asset);
    UnitsMovedKeepsOk(paid, MarkValueBearing(paid, tx.account, tx.asset));
  }

  lemma CreditedBookTotal(b: Book, now: nat, tx: Tx, a: Id)
    requires BookOk(b) && tx.CreditBridge? && Credit(b, now, tx.account, tx.asset, tx.amount).outcome.Applied?
    ensures InAccounts(CreditedBook(b, now, tx), a) == InAccounts(b, a) + (if a == tx.asset then tx.amount else 0)
  {
    hide Credit, MarkValueBearing, InAccounts;
    CreditTotal(b, now, tx.account, tx.asset, tx.amount, a);
    MarkTotal(Credit(b, now, tx.account, tx.asset, tx.amount).state, tx.account, tx.asset, a);
  }

  /** The credited account gains exactly the amount; no other holding moves. */
  lemma CreditedHoldings(b: Book, now: nat, tx: Tx, x: Id, y: Id)
    requires tx.CreditBridge? && Credit(b, now, tx.account, tx.asset, tx.amount).outcome.Applied?
    ensures Holding(CreditedBook(b, now, tx), x, y) ==
            Holding(b, x, y) + (if x == tx.account && y == tx.asset then tx.amount else 0)
  {
    hide Credit, MarkValueBearing, Holding;
    CreditHoldings(b, now, tx.account, tx.asset, tx.amount, x, y);
    MarkFacts(Credit(b, now, tx.account, tx.asset, tx.amount).state, tx.account, tx.asset);
  }

  lemma MapShape(l: Ledger, now: nat, tx: Tx)
    requires tx.MapBridgeAsset? || tx.MapBridgeAccount?
    ensures var s := if tx.MapBridgeAsset? then MapAssetStep(l, now, tx) else MapAccountStep(l, now, tx);
            && s.state.book == l.book && s.state.dex == l.dex
            && s.state.bridge.credited == l.bridge.credited && s.state.bridge.used == l.bridge.used
            && (s.outcome.Rejected? ==> s.state == l)
  {
  }
}
