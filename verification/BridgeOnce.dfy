/** Every bridge deposit is credited at most once over any run. */
module BridgeOnce {
  import opened Ids
  import opened Records
  import opened State
  import opened Accounts
  import opened BookFacts
  import opened DexFacts
  import opened BridgePath
  import opened BridgeFacts
  import opened Machine
  import opened LedgerInvariant

  /** What has been credited stays on record, unchanged. */
  ghost predicate Remembers(br: Bridge, br': Bridge) {
    && Extends(br.credited.credits, br'.credited.credits) && Extends(br.credited.receipts, br'.credited.receipts)
    && Extends(br.used.replays, br'.used.replays) && Extends(br.used.events, br'.used.events)
  }

  ghost predicate Extends<V>(m: map<Id, V>, n: map<Id, V>) {
    forall k :: k in m ==> k in n && n[k] == m[k]
  }

  /** The credit record a transaction describes. */
  predicate Recorded(r: BridgeCredit, tx: Tx)
    requires tx.CreditBridge?
  {
    && r.receipt == tx.receipt && r.account == tx.account && r.recipient == tx.recipient && r.asset == tx.asset
    && r.sourceToken == tx.sourceToken && r.amount == tx.amount && r.event == tx.event
    && r.observation == tx.observation && r.replay == tx.replay && r.memo == tx.memo
    && r.localOnly == tx.localOnly && r.productionReady == tx.productionReady
    && r.confirmation == tx.confirmation && r.cap == tx.cap
  }

  /** The deposit, its replay key and its credit are all on record as this transaction left them. */
  predicate Consumed(br: Bridge, tx: Tx)
    requires tx.CreditBridge?
  {
    && tx.credit in br.credited.credits && Recorded(br.credited.credits[tx.credit], tx)
    && tx.replay in br.used.replays && br.used.replays[tx.replay].credit == tx.credit
    && EventKeyOf(tx.event) in br.used.events && br.used.events[EventKeyOf(tx.event)] == tx.receipt
  }

  lemma ConsumeRemembers(br: Bridge, now: nat, tx: Tx, owner: string)
    requires tx.CreditBridge? && tx.receipt == tx.credit && Unconsumed(br, tx).Applied?
    ensures Remembers(br, Consume(br, now, tx, owner)) && Consumed(Consume(br, now, tx, owner), tx)
    ensures Consume(br, now, tx, owner).credited.credits.Keys == br.credited.credits.Keys + {tx.credit}
  {
  }

  predicate Credits(c: Core, env: Env, tx: Tx) {
    tx.CreditBridge? && Apply(c, env, tx).outcome.Applied?
  }

  lemma BridgeStepRemembers(l: Ledger, now: nat, tx: Tx)
    requires IsBridgeTx(tx)
    ensures var s := BridgeStep(l, now, tx);
            && Remembers(l.bridge, s.state.bridge)
            && (tx.CreditBridge? && s.outcome.Applied? ==>
                && Consumed(s.state.bridge, tx) && Unconsumed(l.bridge, tx).Applied?
                && s.state.bridge.credited.credits.Keys == l.bridge.credited.credits.Keys + {tx.credit})
            && (!(tx.CreditBridge? && s.outcome.Applied?) ==> s.state.bridge.credited == l.bridge.credited)
  {
    hide CreditStep, CreditQuote, Consume, CreditedBook, MapAssetStep, MapAccountStep, Credit, Unconsumed, Consumed;
    if tx.CreditBridge? {
      CreditShape(l, now, tx);
      if CreditStep(l, now, tx).outcome.Applied? {
        CreditQuoteFacts(l, tx);
        ConsumeRemembers(l.bridge, now, tx, CreditOwner(l, tx));
      }
    } else {
      MapShape(l, now, tx);
    }
  }

  /** No transaction forgets a credit; an applied credit was unconsumed before and is consumed after. */
  lemma StepRemembers(c: Core, env: Env, tx: Tx)
    requires LedgerOk(c.ledger)
    ensures var br := c.ledger.bridge;
            var br' := Apply(c, env, tx).state.ledger.bridge;
            && Remembers(br, br')
            && (Credits(c, env, tx) ==>
                && Consumed(br', tx) && Unconsumed(br, tx).Applied?
                && br'.credited.credits.Keys == br.credited.credits.Keys + {tx.credit})
            && (!Credits(c, env, tx) ==> br'.credited == br.credited)
  {
    hide LedgerOk, BookStep, DexStep, BridgeStep, Remembers, Consumed, Unconsumed;
    if !IsLedgerTx(tx) {
      OtherTxKeepsLedger(c, env, tx);
      Unforgotten(c.ledger.bridge);
    } else if IsBookTx(tx) {
      Unforgotten(c.ledger.bridge);
    } else if IsDexTx(tx) {
      DexStepKeepsBridge(c.ledger, env.now, tx);
      Unforgotten(c.ledger.bridge);
    } else {
      BridgeStepRemembers(c.ledger, env.now, tx);
    }
  }

  lemma Unforgotten(br: Bridge)
    ensures Remembers(br, br)
  {
  }

  lemma RemembersOn(br: Bridge, br1: Bridge, br2: Bridge)
    requires Remembers(br, br1) && Remembers(br1, br2)
    ensures Remembers(br, br2)
  {
  }

  lemma ConsumedForGood(br: Bridge, br': Bridge, tx: Tx)
    requires tx.CreditBridge? && Remembers(br, br') && Consumed(br, tx)
    ensures Consumed(br', tx)
  {
  }

  // ----- runs -----

  lemma {:induction false} RunRemembers(c: Core, events: seq<Event>)
    requires LedgerOk(c.ledger)
    ensures Remembers(c.ledger.bridge, Run(c, events).ledger.bridge)
    decreases |events|
  {
    hide LedgerOk, Apply, Remembers;
    if events == [] {
      Unforgotten(c.ledger.bridge);
    } else {
      var c1 := Apply(c, events[0].env, events[0].tx).state;
      StepRemembers(c, events[0].env, events[0].tx);
      ApplyKeepsLedgerOk(c, events[0].env, events[0].tx);
      RunRemembers(c1, events[1..]);
      RemembersOn(c.ledger.bridge, c1.ledger.bridge, Run(c, events).ledger.bridge);
    }
  }

  /** The i-th transaction of the run is an applied bridge credit. */
  ghost predicate CreditAt(c: Core, events: seq<Event>, i: nat)
    requires i < |events|
  {
    events[i].tx.CreditBridge? && Outcomes(c, events)[i].Applied?
  }

  /** A credit applied in a run stays consumed at its end. */
  lemma {:induction false} CreditedAtEnd(c: Core, events: seq<Event>, i: nat)
    requires LedgerOk(c.ledger) && i < |events| && CreditAt(c, events, i)
    ensures Consumed(Run(c, events).ledger.bridge, events[i].tx)
    decreases |events|
  {
    hide LedgerOk, Apply, Remembers, Consumed, Unconsumed;
    var e := events[0];
    var c1 := Apply(c, e.env, e.tx).state;
    ApplyKeepsLedgerOk(c, e.env, e.tx);
    if i == 0 {
      StepRemembers(c, e.env, e.tx);
      RunRemembers(c1, events[1..]);
      ConsumedForGood(c1.ledger.bridge, Run(c1, events[1..]).ledger.bridge, e.tx);
    } else {
      CreditedAtEnd(c1, events[1..], i - 1);
    }
  }

  /** What is consumed is never credited again. */
  lemma {:induction false} ConsumedIsNotCredited(c: Core, events: seq<Event>, tx: Tx, j: nat)
    requires LedgerOk(c.ledger) && j < |events| && CreditAt(c, events, j)
    requires tx.CreditBridge? && Consumed(c.ledger.bridge, tx)
    ensures events[j].tx.credit != tx.credit && events[j].tx.replay != tx.replay
    ensures EventKeyOf(events[j].tx.event) != EventKeyOf(tx.event)
    decreases |events|
  {
    hide LedgerOk, Apply, Remembers;
    var e := events[0];
    var c1 := Apply(c, e.env, e.tx).state;
    StepRemembers(c, e.env, e.tx);
    if j > 0 {
      ApplyKeepsLedgerOk(c, e.env, e.tx);
      ConsumedForGood(c.ledger.bridge, c1.ledger.bridge, tx);
      ConsumedIsNotCredited(c1, events[1..], tx, j - 1);
    }
  }

  /** Exactly once: two applied credits of a run differ in event reference, replay key and credit id. */
  lemma {:induction false} CreditedAtMostOnce(c: Core, events: seq<Event>, i: nat, j: nat)
    requires LedgerOk(c.ledger) && i < j < |events| && CreditAt(c, events, i) && CreditAt(c, events, j)
    ensures EventKeyOf(events[i].tx.event) != EventKeyOf(events[j].tx.event)
    ensures events[i].tx.replay != events[j].tx.replay
    ensures events[i].tx.credit != events[j].tx.credit
    decreases |events|
  {
    hide LedgerOk, Apply, Remembers, Consumed, Unconsumed;
    var e := events[0];
    var c1 := Apply(c, e.env, e.tx).state;
    ApplyKeepsLedgerOk(c, e.env, e.tx);
    if i == 0 {
      StepRemembers(c, e.env, e.tx);
      ConsumedIsNotCredited(c1, events[1..], e.tx, j - 1);
    } else {
      CreditedAtMostOnce(c1, events[1..], i - 1, j - 1);
    }
  }

  /** The i-th transaction of the run is an applied bridge credit with this id. */
  ghost predicate CreditsIdAt(c: Core, events: seq<Event>, i: nat, id: Id)
    requires i < |events|
  {
    CreditAt(c, events, i) && events[i].tx.credit == id
  }

  lemma {:induction false} CreditIdsAreTheAppliedOnes(c: Core, events: seq<Event>, id: Id)
    requires LedgerOk(c.ledger)
    ensures id in Run(c, events).ledger.bridge.credited.credits <==>
            id in c.ledger.bridge.credited.credits || exists i :: 0 <= i < |events| && CreditsIdAt(c, events, i, id)
    decreases |events|
  {
    hide LedgerOk, Apply, Remembers, Consumed, Unconsumed, CreditAt, CreditsIdAt;
    if events != [] {
      var e := events[0];
      var c1 := Apply(c, e.env, e.tx).state;
      ApplyKeepsLedgerOk(c, e.env, e.tx);
      StepRemembers(c, e.env, e.tx);
      CreditIdsAreTheAppliedOnes(c1, events[1..], id);
      CreditsIdAtHead(c, events, id);
      forall i | 0 <= i < |events[1..]|
        ensures CreditsIdAt(c, events, i + 1, id) == CreditsIdAt(c1, events[1..], i, id)
      {
        CreditsIdAtTail(c, events, i, id);
      }
      if i :| 0 <= i < |events| && CreditsIdAt(c, events, i, id) {
        assert i > 0 ==> CreditsIdAt(c1, events[1..], i - 1, id);
      }
      if i :| 0 <= i < |events[1..]| && CreditsIdAt(c1, events[1..], i, id) {
        assert CreditsIdAt(c, events, i + 1, id);
      }
    }
  }

  /**
   * The credits on record at the end are those on record at the start, unchanged, and those the run
   * applied, as it applied them.
   */
  lemma CreditsAreTheAppliedOnes(c: Core, events: seq<Event>, id: Id)
    requires LedgerOk(c.ledger)
    ensures var before := c.ledger.bridge.credited.credits;
            var after := Run(c, events).ledger.bridge.credited.credits;
            && (id in after <==> id in before || exists i :: 0 <= i < |events| && CreditsIdAt(c, events, i, id))
            && (id in before ==> after[id] == before[id])
            && (forall i :: 0 <= i < |events| && CreditsIdAt(c, events, i, id) ==> Recorded(after[id], events[i].tx))
  {
    hide LedgerOk, Run, Outcomes, Recorded;
    CreditIdsAreTheAppliedOnes(c, events, id);
    RunRemembers(c, events);
    forall i | 0 <= i < |events| && CreditsIdAt(c, events, i, id)
      ensures Recorded(Run(c, events).ledger.bridge.credited.credits[id], events[i].tx)
    {
      CreditedAtEnd(c, events, i);
    }
  }

  lemma CreditsIdAtHead(c: Core, events: seq<Event>, id: Id)
    requires events != []
    ensures CreditsIdAt(c, events, 0, id) <==>
            Credits(c, events[0].env, events[0].tx) && events[0].tx.credit == id
  {
    hide Apply;
  }

  lemma CreditsIdAtTail(c: Core, events: seq<Event>, i: nat, id: Id)
    requires i < |events| - 1
    ensures CreditsIdAt(c, events, i + 1, id) ==
            CreditsIdAt(Apply(c, events[0].env, events[0].tx).state, events[1..], i, id)
  {
    hide Apply;
  }

  /**
   * From genesis the four indexes agree in every reachable state, the credits on record are exactly
   * the applied ones, and each is on record with the contents it was applied with.
   */
  lemma BridgeFromGenesis(events: seq<Event>)
    ensures var br := Run(EmptyCore(), events).ledger.bridge;
            && BridgeOk(br)
            && (forall id :: id in br.credited.credits <==>
                  exists i :: 0 <= i < |events| && CreditsIdAt(EmptyCore(), events, i, id))
            && (forall i :: 0 <= i < |events| && CreditAt(EmptyCore(), events, i) ==> Consumed(br, events[i].tx))
  {
    hide Run, CreditsIdAt, BridgeOk, BookOk, DexOk, Consumed, Outcomes;
    EmptyLedgerOk();
    RunKeepsLedgerOk(EmptyCore(), events);
    forall id
      ensures id in Run(EmptyCore(), events).ledger.bridge.credited.credits <==>
              exists i :: 0 <= i < |events| && CreditsIdAt(EmptyCore(), events, i, id)
    {
      CreditsAreTheAppliedOnes(EmptyCore(), events, id);
    }
    forall i | 0 <= i < |events| && CreditAt(EmptyCore(), events, i)
      ensures Consumed(Run(EmptyCore(), events).ledger.bridge, events[i].tx)
    {
      CreditedAtEnd(EmptyCore(), events, i);
    }
  }
}
