/** When bridge transactions apply, and what every credit on record has shown. */
module BridgeDecisions {
  import opened Prelude
  import opened Text
  import opened Ids
  import opened Records
  import opened State
  import opened Accounts
  import opened BookFacts
  import opened BridgePath
  import opened BridgeFacts
  import opened Machine
  import opened LedgerInvariant
  import opened BridgeOnce

  // ----- mappings -----

  lemma MapAssetAppliesIff(l: Ledger, now: nat, tx: Tx)
    requires tx.MapBridgeAsset?
    ensures var s := MapAssetStep(l, now, tx);
            && (s.outcome.Applied? <==>
                && tx.localOnly != tx.productionReady && tx.mapping == AssetMappingId(tx.chain, tx.sourceToken, tx.asset)
                && tx.mapping !in l.bridge.mappings.assets && (tx.asset == LocalUnit || tx.asset in l.book.tokens))
            && (s.outcome.Applied? ==>
                && tx.mapping in s.state.bridge.mappings.assets
                && s.state.bridge.mappings.assets[tx.mapping] ==
                     AssetMapping(tx.chain, tx.sourceToken, tx.asset, now, tx.localOnly, tx.productionReady))
  {
  }

  lemma MapAccountAppliesIff(l: Ledger, now: nat, tx: Tx)
    requires tx.MapBridgeAccount?
    ensures var s := MapAccountStep(l, now, tx);
            && (s.outcome.Applied? <==>
                && tx.localOnly != tx.productionReady && tx.mapping == AccountMappingId(tx.recipient, tx.account)
                && tx.mapping !in l.bridge.mappings.accounts)
            && (s.outcome.Applied? ==>
                && tx.mapping in s.state.bridge.mappings.accounts
                && s.state.bridge.mappings.accounts[tx.mapping] ==
                     AccountMapping(tx.recipient, tx.account, tx.owner, now, tx.localOnly, tx.productionReady))
  {
  }

  // ----- the proofs of a live credit -----

  /** What a live credit must show: the right chain, a satisfied confirmation, and a cap that covers amount and token. */
  predicate Proven(chain: string, sourceToken: string, amount: U64,
                   confirmation: Option<ConfirmationProof>, cap: Option<CapProof>)
  {
    && chain == "8453" && confirmation.Some? && confirmation.value.satisfied
    && cap.Some? && cap.value.approvedLockbox && cap.value.operatorAcknowledged && cap.value.noSecrets
    && amount <= cap.value.maxDeposit && amount <= cap.value.totalCap
    && exists i :: 0 <= i < |cap.value.supportedTokens| && SameLetters(cap.value.supportedTokens[i], sourceToken)
  }

  lemma LiveCheckIff(tx: Tx)
    requires tx.CreditBridge?
    ensures LiveCheck(tx).Applied? <==> Proven(tx.event.chain, tx.sourceToken, tx.amount, tx.confirmation, tx.cap)
  {
    hide Lower, SameLetters;
    if tx.cap.Some? {
      var tokens := tx.cap.value.supportedTokens;
      forall i | 0 <= i < |tokens|
        ensures Lower(tokens[i]) == Lower(tx.sourceToken) <==> SameLetters(tokens[i], tx.sourceToken)
      {
        LowerMeansSameLetters(tokens[i], tx.sourceToken);
      }
    }
  }

  // ----- credits -----

  /** A credit that is well formed on its own: one mode, ids of its own, a positive amount, and its proofs if live. */
  predicate Vouched(credit: Id, receipt: Id, recipient: string, sourceToken: string, amount: U64, event: EventRef,
                    observation: string, replay: Id, localOnly: bool, productionReady: bool,
                    confirmation: Option<ConfirmationProof>, cap: Option<CapProof>)
  {
    && localOnly != productionReady && receipt == credit && amount > 0 && replay in ReplayKeys(event)
    && credit in CreditIds(event, observation, replay, recipient, amount)
    && (productionReady && !localOnly ==> Proven(event.chain, sourceToken, amount, confirmation, cap))
  }

  predicate TxVouched(tx: Tx)
    requires tx.CreditBridge?
  {
    Vouched(tx.credit, tx.receipt, tx.recipient, tx.sourceToken, tx.amount, tx.event, tx.observation, tx.replay,
            tx.localOnly, tx.productionReady, tx.confirmation, tx.cap)
  }

  lemma FormIff(tx: Tx)
    requires tx.CreditBridge?
    ensures CreditForm(tx).Applied? <==> TxVouched(tx)
  {
    hide LiveCheck, Proven, ReplayKeys, CreditIds;
    LiveCheckIff(tx);
  }

  /** The mappings a credit names are there, for its asset and account, in its mode. */
  predicate MappedFor(l: Ledger, tx: Tx)
    requires tx.CreditBridge?
  {
    var (a, c) := (AssetMappingId(tx.event.chain, tx.sourceToken, tx.asset), AccountMappingId(tx.recipient, tx.account));
    && a in l.bridge.mappings.assets && c in l.bridge.mappings.accounts
    && var (m, n) := (l.bridge.mappings.assets[a], l.bridge.mappings.accounts[c]);
       && m.asset == tx.asset && m.localOnly == tx.localOnly && m.productionReady == tx.productionReady
       && n.account == tx.account && n.localOnly == tx.localOnly && n.productionReady == tx.productionReady
  }

  lemma CreditQuoteIff(l: Ledger, tx: Tx)
    requires tx.CreditBridge?
    ensures CreditQuote(l, tx).Applied? <==>
            && TxVouched(tx) && MappedFor(l, tx) && tx.account in l.book.held.units
            && tx.replay !in l.bridge.used.replays && EventKeyOf(tx.event) !in l.bridge.used.events
            && tx.credit !in l.bridge.credited.credits && tx.receipt !in l.bridge.credited.receipts
  {
    hide CreditForm, TxVouched;
    FormIff(tx);
  }

  /**
   * A bridge credit applies exactly when it is well formed and proven, nothing it names was credited
   * before, its mappings and its account are there, and the amount fits the balance of an existing asset.
   */
  lemma BridgeCreditAppliesIff(l: Ledger, now: nat, tx: Tx)
    requires tx.CreditBridge?
    ensures CreditStep(l, now, tx).outcome.Applied? <==>
            && TxVouched(tx) && MappedFor(l, tx) && tx.account in l.book.held.units
            && tx.replay !in l.bridge.used.replays && EventKeyOf(tx.event) !in l.bridge.used.events
            && tx.credit !in l.bridge.credited.credits && tx.receipt !in l.bridge.credited.receipts
            && (tx.asset == LocalUnit || tx.asset in l.book.tokens)
            && Holding(l.book, tx.account, tx.asset) + tx.amount <= MAX_U64
  {
    hide CreditStep, CreditQuote, Credit, Consume, CreditedBook, MappedFor, Holding, ReplayKeys, CreditIds, Proven;
    CreditShape(l, now, tx);
    CreditQuoteIff(l, tx);
    CreditDecides(l.book, now, tx.account, tx.asset, tx.amount);
  }

  // ----- what the keys of a credit fix -----

  /** An event key fixes exactly the chain, contract, transaction and log index as spelled. */
  lemma EventKeyFixesReference(e: EventRef, f: EventRef)
    ensures EventKeyOf(e) == EventKeyOf(f) <==>
            e.chain == f.chain && e.contract == f.contract && e.txHash == f.txHash && e.logIndex == f.logIndex
  {
  }


  lemma BytesFixLetters(s: string, t: string, length: nat)
    requires HexWordBytes(s, length).Some? && HexWordBytes(s, length) == HexWordBytes(t, length)
    ensures SameLetters(s, t)
  {
    hide HexDecode;
    DecodeFixesLetters(s[2..], t[2..]);
    assert forall i :: 2 <= i < |s| ==> s[i] == s[2..][i - 2] && t[i] == t[2..][i - 2];
    assert s[0] == '0' == t[0];
  }

  lemma ChainRefFixes(s: string, t: string)
    requires ChainRefOf(s) == ChainRefOf(t)
    ensures SameChain(s, t)
  {
  }

  /** The same text, or the same number. */
  predicate SameChain(s: string, t: string) {
    s == t || (ParseUint(s, MAX_U128).Some? && ParseUint(s, MAX_U128) == ParseUint(t, MAX_U128))
  }

  /** A replay key fixes its event up to the case of its hex and the spelling of its chain number. */
  lemma ReplayKeyFixesEvent(e: EventRef, f: EventRef, key: Id)
    requires key in ReplayKeys(e) && key in ReplayKeys(f)
    ensures e.logIndex == f.logIndex && SameChain(e.chain, f.chain)
    ensures SameLetters(e.contract, f.contract) && SameLetters(e.txHash, f.txHash)
  {
    hide HexWordBytes, ParseUint, SameLetters, ChainRefOf, Lower;
    LowerMeansSameLetters(e.contract, f.contract);
    LowerMeansSameLetters(e.txHash, f.txHash);
    if key.ReplayKey? {
      ChainRefFixes(e.chain, f.chain);
    } else {
      BytesFixLetters(e.contract, f.contract, 20);
      BytesFixLetters(e.txHash, f.txHash, 32);
    }
  }

  // ----- runs -----

  predicate RecordVouched(id: Id, r: BridgeCredit) {
    Vouched(id, r.receipt, r.recipient, r.sourceToken, r.amount, r.event, r.observation, r.replay,
            r.localOnly, r.productionReady, r.confirmation, r.cap)
  }

  ghost predicate AllVouched(credits: map<Id, BridgeCredit>) {
    forall id :: id in credits ==> RecordVouched(id, credits[id])
  }

  lemma AppliedIsVouched(c: Core, env: Env, tx: Tx)
    requires tx.CreditBridge? && Apply(c, env, tx).outcome.Applied?
    ensures TxVouched(tx)
  {
    hide CreditStep, TxVouched, MappedFor, Holding;
    BridgeCreditAppliesIff(c.ledger, env.now, tx);
  }

  lemma StepVouches(c: Core, env: Env, tx: Tx)
    requires LedgerOk(c.ledger) && AllVouched(c.ledger.bridge.credited.credits)
    ensures AllVouched(Apply(c, env, tx).state.ledger.bridge.credited.credits)
  {
    hide LedgerOk, Apply, Unconsumed, Vouched;
    StepRemembers(c, env, tx);
    if BridgeOnce.Credits(c, env, tx) {
      AppliedIsVouched(c, env, tx);
    }
  }

  lemma {:induction false} RunVouches(c: Core, events: seq<Event>)
    requires LedgerOk(c.ledger) && AllVouched(c.ledger.bridge.credited.credits)
    ensures AllVouched(Run(c, events).ledger.bridge.credited.credits)
    decreases |events|
  {
    hide LedgerOk, Apply, AllVouched;
    if events != [] {
      StepVouches(c, events[0].env, events[0].tx);
      ApplyKeepsLedgerOk(c, events[0].env, events[0].tx);
      RunVouches(Apply(c, events[0].env, events[0].tx).state, events[1..]);
    }
  }

  /** In every reachable state each live credit on record carries its proofs, and they cover its amount and token. */
  lemma LiveCreditsAreProven(events: seq<Event>, id: Id)
    requires id in Run(EmptyCore(), events).ledger.bridge.credited.credits
    ensures var r := Run(EmptyCore(), events).ledger.bridge.credited.credits[id];
            && RecordVouched(id, r)
            && (r.productionReady && !r.localOnly ==>
                && r.event.chain == "8453" && r.confirmation.Some? && r.confirmation.value.satisfied
                && r.cap.Some? && r.cap.value.approvedLockbox && r.cap.value.operatorAcknowledged && r.cap.value.noSecrets
                && r.amount <= r.cap.value.maxDeposit && r.amount <= r.cap.value.totalCap
                && exists i :: 0 <= i < |r.cap.value.supportedTokens| &&
                     SameLetters(r.cap.value.supportedTokens[i], r.sourceToken))
  {
    hide Run, LedgerOk, ReplayKeys, CreditIds, SameLetters;
    EmptyLedgerOk();
    RunVouches(EmptyCore(), events);
  }
}
