/** Executing an expanded handoff on the ledger. */
module HandoffRun {
  import opened Prelude
  import opened Ids
  import opened Records
  import opened State
  import opened Accounts
  import opened BookFacts
  import opened Exchange
  import opened DexFacts
  import opened BridgePath
  import opened BridgeFacts
  import opened WorkLifecycle
  import opened Machine
  import opened LedgerInvariant
  import opened BridgeDecisions
  import opened Handoff

  // ----- which handoffs -----

  /** An entry of one mode, local or live, with ids the runtime accepts, a positive amount and, if live, its proofs. */
  predicate Good(e: Entry, live: bool) {
    && e.localOnly == !live && e.productionReady == live && e.amount > 0
    && e.replay in ReplayKeys(e.event)
    && e.credit in CreditIds(e.event, e.observation, e.replay, e.recipient, e.amount)
    && (live ==> Proven(e.event.chain, e.sourceToken, e.amount, e.confirmation, e.cap))
  }

  /** No two entries share a credit id, a replay key or an event. */
  predicate Distinct(es: seq<Entry>) {
    forall i, j :: 0 <= i < j < |es| ==>
      && es[i].credit != es[j].credit && es[i].replay != es[j].replay
      && EventKeyOf(es[i].event) != EventKeyOf(es[j].event)
  }

  /** What the entries credit to one recipient. */
  function SumFor(es: seq<Entry>, recipient: string): nat {
    if es == [] then 0
    else SumFor(Most(es), recipient) + if Last(es).recipient == recipient then Last(es).amount else 0
  }

  /** A handoff in one mode whose entries are good and distinct, with sums per recipient that fit 64 bits. */
  ghost predicate Sound(es: seq<Entry>, live: bool) {
    && (forall i :: 0 <= i < |es| ==> Good(es[i], live))
    && Distinct(es)
    && (forall r :: SumFor(es, r) <= MAX_U64)
  }

  function CreditKeys(es: seq<Entry>): set<Id> {
    if es == [] then {} else CreditKeys(Most(es)) + {Last(es).credit}
  }

  function ReplayIds(es: seq<Entry>): set<Id> {
    if es == [] then {} else ReplayIds(Most(es)) + {Last(es).replay}
  }

  function EventIds(es: seq<Entry>): set<Id> {
    if es == [] then {} else EventIds(Most(es)) + {EventKeyOf(Last(es).event)}
  }

  lemma {:induction false} KeysComeFromEntries(es: seq<Entry>, id: Id)
    ensures id in CreditKeys(es) ==> exists i :: 0 <= i < |es| && es[i].credit == id
    ensures id in ReplayIds(es) ==> exists i :: 0 <= i < |es| && es[i].replay == id
    ensures id in EventIds(es) ==> exists i :: 0 <= i < |es| && EventKeyOf(es[i].event) == id
  {
    if es != [] {
      KeysComeFromEntries(Most(es), id);
      assert forall i :: 0 <= i < |Most(es)| ==> Most(es)[i] == es[i];
      assert es[|es| - 1] == Last(es);
    }
  }

  lemma LastIsFresh(before: seq<Entry>, e: Entry)
    requires Distinct(before + [e])
    ensures e.credit !in CreditKeys(before) && e.replay !in ReplayIds(before)
    ensures EventKeyOf(e.event) !in EventIds(before)
  {
    var es := before + [e];
    assert es[|before|] == e;
    assert forall i :: 0 <= i < |before| ==> es[i] == before[i];
    KeysComeFromEntries(before, e.credit);
    KeysComeFromEntries(before, e.replay);
    KeysComeFromEntries(before, EventKeyOf(e.event));
  }

  lemma {:induction false} NoAccountNoSum(es: seq<Entry>, recipient: string)
    requires Named(recipient) !in Holders(es)
    ensures SumFor(es, recipient) == 0
  {
    if es != [] {
      NoAccountNoSum(Most(es), recipient);
    }
  }

  lemma SoundPrefix(es: seq<Entry>, live: bool)
    requires Sound(es, live) && es != []
    ensures Sound(Most(es), live) && Good(Last(es), live) && Most(es) + [Last(es)] == es
  {
    hide Good;
    assert forall i :: 0 <= i < |Most(es)| ==> Most(es)[i] == es[i];
    forall r
      ensures SumFor(Most(es), r) <= MAX_U64
    {
      assert SumFor(Most(es), r) <= SumFor(es, r);
    }
  }

  // ----- the ledger after a handoff -----

  ghost predicate AssetsReady(m: map<Id, AssetMapping>, keys: set<Id>, live: bool) {
    && m.Keys == keys
    && forall k :: k in m ==> m[k].asset == LocalUnit && m[k].localOnly == !live && m[k].productionReady == live
  }

  ghost predicate AccountsReady(m: map<Id, AccountMapping>, keys: set<Id>, live: bool) {
    && m.Keys == keys
    && forall k :: k in m ==>
         k == AccountMappingId(m[k].recipient, m[k].account) && m[k].localOnly == !live && m[k].productionReady == live
  }

  /** The accounts are those named, each holding what the entries credit to it. */
  ghost predicate HoldersReady(units: map<Id, UnitBalance>, keys: set<Id>, es: seq<Entry>) {
    && units.Keys == keys
    && forall r :: Named(r) in units ==> units[Named(r)].units == SumFor(es, r)
  }

  ghost predicate UsedReady(credited: Credits, used: Indexes, es: seq<Entry>) {
    && credited.credits.Keys == CreditKeys(es) && credited.receipts.Keys == CreditKeys(es)
    && used.replays.Keys == ReplayIds(es) && used.events.Keys == EventIds(es)
  }

  /** The mode, the mappings and accounts introduced so far, and the entries credited so far. */
  datatype Progress = Progress(live: bool, assets: set<Id>, accounts: set<Id>, holders: set<Id>, done: seq<Entry>)

  ghost predicate ReadyFor(l: Ledger, p: Progress) {
    && AssetsReady(l.bridge.mappings.assets, p.assets, p.live)
    && AccountsReady(l.bridge.mappings.accounts, p.accounts, p.live)
    && HoldersReady(l.book.held.units, p.holders, p.done) && UsedReady(l.bridge.credited, l.bridge.used, p.done)
  }

  function After(es: seq<Entry>, live: bool): Progress {
    Progress(live, AssetKeys(es), AccountKeys(es), Holders(es), es)
  }

  // ----- one transaction -----

  lemma MapAssetApplies(l: Ledger, now: nat, e: Entry, p: Progress)
    requires ReadyFor(l, p) && Good(e, p.live) && AssetKey(e) !in p.assets
    ensures var s := LedgerStep(l, now, MapAssetTx(e));
            s.outcome.Applied? && ReadyFor(s.state, p.(assets := p.assets + {AssetKey(e)}))
  {
    hide AccountsReady, HoldersReady, UsedReady, ReplayKeys, CreditIds, Proven;
  }

  lemma MapAccountApplies(l: Ledger, now: nat, e: Entry, p: Progress)
    requires ReadyFor(l, p) && Good(e, p.live) && AccountKey(e) !in p.accounts
    ensures var s := LedgerStep(l, now, MapAccountTx(e));
            s.outcome.Applied? && ReadyFor(s.state, p.(accounts := p.accounts + {AccountKey(e)}))
  {
    hide AssetsReady, HoldersReady, UsedReady, ReplayKeys, CreditIds, PilotOwner, Proven;
  }

  lemma CreateApplies(l: Ledger, now: nat, e: Entry, p: Progress)
    requires ReadyFor(l, p) && AccountOf(e) !in p.holders && SumFor(p.done, e.recipient) == 0
    ensures var s := LedgerStep(l, now, CreateTx(e));
            s.outcome.Applied? && ReadyFor(s.state, p.(holders := p.holders + {AccountOf(e)}))
  {
    hide AssetsReady, AccountsReady, UsedReady, PilotOwner, SumFor;
  }

  lemma CreditQuoted(l: Ledger, e: Entry, p: Progress)
    requires ReadyFor(l, p) && Good(e, p.live)
    requires AssetKey(e) in p.assets && AccountKey(e) in p.accounts && AccountOf(e) in p.holders
    requires e.credit !in CreditKeys(p.done) && e.replay !in ReplayIds(p.done)
    requires EventKeyOf(e.event) !in EventIds(p.done)
    ensures CreditQuote(l, CreditTx(e)).Applied?
  {
    hide ReplayKeys, CreditIds, CreditQuote, Proven, CreditKeys, ReplayIds, EventIds, Memo, SumFor;
    CreditQuoteIff(l, CreditTx(e));
  }

  lemma CreditPays(l: Ledger, now: nat, e: Entry, p: Progress)
    requires ReadyFor(l, p) && e.amount > 0 && AccountOf(e) in p.holders
    requires SumFor(p.done + [e], e.recipient) <= MAX_U64
    ensures Credit(l.book, now, AccountOf(e), LocalUnit, e.amount).outcome.Applied?
    ensures HoldersReady(CreditedBook(l.book, now, CreditTx(e)).held.units, p.holders, p.done + [e])
  {
    hide AssetsReady, AccountsReady, UsedReady, Memo;
    assert Most(p.done + [e]) == p.done;
    var units := CreditedBook(l.book, now, CreditTx(e)).held.units;
    assert SumFor(p.done + [e], e.recipient) == SumFor(p.done, e.recipient) + e.amount;
    forall r | Named(r) in units
      ensures units[Named(r)].units == SumFor(p.done + [e], r)
    {
      assert Named(r) in l.book.held.units;
    }
  }

  lemma CreditRecords(br: Bridge, now: nat, e: Entry, owner: string, done: seq<Entry>)
    requires UsedReady(br.credited, br.used, done)
    ensures var br' := Consume(br, now, CreditTx(e), owner);
            br'.mappings == br.mappings && UsedReady(br'.credited, br'.used, done + [e])
  {
    hide Memo;
    assert Most(done + [e]) == done;
  }

  lemma CreditApplies(l: Ledger, now: nat, e: Entry, p: Progress)
    requires ReadyFor(l, p) && Good(e, p.live)
    requires AssetKey(e) in p.assets && AccountKey(e) in p.accounts && AccountOf(e) in p.holders
    requires e.credit !in CreditKeys(p.done) && e.replay !in ReplayIds(p.done)
    requires EventKeyOf(e.event) !in EventIds(p.done) && SumFor(p.done + [e], e.recipient) <= MAX_U64
    ensures var s := LedgerStep(l, now, CreditTx(e));
            s.outcome.Applied? && ReadyFor(s.state, p.(done := p.done + [e]))
  {
    hide CreditQuote, Credit, Consume, CreditStep, ReplayKeys, CreditIds, AssetsReady, AccountsReady, HoldersReady,
         UsedReady, Memo, SumFor, CreditKeys, ReplayIds, EventIds;
    CreditQuoted(l, e, p);
    CreditShape(l, now, CreditTx(e));
    CreditPays(l, now, e, p);
    CreditRecords(l.bridge, now, e, CreditOwner(l, CreditTx(e)), p.done);
  }

  // ----- one entry -----

  function TxsOf(events: seq<Event>): (r: seq<Tx>)
    ensures |r| == |events|
  {
    seq(|events|, i requires 0 <= i < |events| => events[i].tx)
  }

  predicate AllApplied(outcomes: seq<Outcome>) {
    forall i :: 0 <= i < |outcomes| ==> outcomes[i].Applied?
  }

  lemma RunOne(c: Core, events: seq<Event>)
    requires |events| == 1 && IsLedgerTx(events[0].tx)
    ensures var s := LedgerStep(c.ledger, events[0].env.now, events[0].tx);
            Run(c, events).ledger == s.state && Outcomes(c, events) == [s.outcome]
  {
    hide LedgerStep, WorkStep, AnchorStep;
    assert events[1..] == [];
  }

  lemma AssetPartRuns(c: Core, events: seq<Event>, before: seq<Entry>, e: Entry, live: bool)
    requires ReadyFor(c.ledger, After(before, live)) && Good(e, live) && TxsOf(events) == AssetPart(before, e)
    ensures AllApplied(Outcomes(c, events))
    ensures ReadyFor(Run(c, events).ledger, After(before, live).(assets := AssetKeys(before) + {AssetKey(e)}))
  {
    hide ReadyFor, LedgerStep, Apply, Good, AssetKeys, AccountKeys, Holders;
    if AssetKey(e) in AssetKeys(before) {
      assert AssetKeys(before) + {AssetKey(e)} == AssetKeys(before);
    } else {
      assert events[0].tx == TxsOf(events)[0];
      RunOne(c, events);
      MapAssetApplies(c.ledger, events[0].env.now, e, After(before, live));
    }
  }

  lemma AccountPartRuns(c: Core, events: seq<Event>, before: seq<Entry>, e: Entry, p: Progress)
    requires ReadyFor(c.ledger, p) && p.accounts == AccountKeys(before) && Good(e, p.live)
    requires TxsOf(events) == AccountPart(before, e)
    ensures AllApplied(Outcomes(c, events))
    ensures ReadyFor(Run(c, events).ledger, p.(accounts := AccountKeys(before) + {AccountKey(e)}))
  {
    hide ReadyFor, LedgerStep, Apply, Good, AssetKeys, AccountKeys, Holders;
    if AccountKey(e) in AccountKeys(before) {
      assert AccountKeys(before) + {AccountKey(e)} == AccountKeys(before);
    } else {
      assert events[0].tx == TxsOf(events)[0];
      RunOne(c, events);
      MapAccountApplies(c.ledger, events[0].env.now, e, p);
    }
  }

  lemma HolderPartRuns(c: Core, events: seq<Event>, before: seq<Entry>, e: Entry, p: Progress)
    requires ReadyFor(c.ledger, p) && p.holders == Holders(before) && p.done == before
    requires TxsOf(events) == HolderPart(before, e)
    ensures AllApplied(Outcomes(c, events))
    ensures ReadyFor(Run(c, events).ledger, p.(holders := Holders(before) + {AccountOf(e)}))
  {
    hide ReadyFor, LedgerStep, Apply, AssetKeys, AccountKeys, Holders;
    if AccountOf(e) in Holders(before) {
      assert Holders(before) + {AccountOf(e)} == Holders(before);
    } else {
      assert events[0].tx == TxsOf(events)[0];
      RunOne(c, events);
      NoAccountNoSum(before, e.recipient);
      CreateApplies(c.ledger, events[0].env.now, e, p);
    }
  }

  lemma CreditRuns(c: Core, events: seq<Event>, before: seq<Entry>, e: Entry, live: bool)
    requires Sound(before + [e], live) && TxsOf(events) == [CreditTx(e)]
    requires ReadyFor(c.ledger, After(before + [e], live).(done := before))
    ensures AllApplied(Outcomes(c, events)) && ReadyFor(Run(c, events).ledger, After(before + [e], live))
  {
    hide ReadyFor, LedgerStep, Apply, AssetKeys, AccountKeys, Holders, Distinct, CreditKeys, ReplayIds, EventIds,
         CreditTx, Good, Expansion, SumFor;
    assert events[0].tx == TxsOf(events)[0];
    CreditTxIsLedgerTx(e);
    RunOne(c, events);
    LastIsFresh(before, e);
    OneMoreEntry(before, e);
    assert (before + [e])[|before|] == e;
    CreditApplies(c.ledger, events[0].env.now, e, After(before + [e], live).(done := before));
  }

  lemma CreditTxIsLedgerTx(e: Entry)
    ensures IsLedgerTx(CreditTx(e))
  {
  }

  lemma SplitRun(c: Core, events: seq<Event>, n: nat)
    requires n <= |events|
    requires AllApplied(Outcomes(c, events[..n]))
    requires AllApplied(Outcomes(Run(c, events[..n]), events[n..]))
    ensures AllApplied(Outcomes(c, events)) && Run(c, events) == Run(Run(c, events[..n]), events[n..])
  {
    hide Run, Apply;
    assert events == events[..n] + events[n..];
    RunAppend(c, events[..n], events[n..]);
  }

  lemma TxsSplit(events: seq<Event>, xs: seq<Tx>, ys: seq<Tx>)
    requires TxsOf(events) == xs + ys
    ensures TxsOf(events[..|xs|]) == xs && TxsOf(events[|xs|..]) == ys
  {
    forall i | 0 <= i < |xs|
      ensures TxsOf(events[..|xs|])[i] == xs[i]
    {
      assert TxsOf(events)[i] == xs[i];
    }
    forall i | 0 <= i < |ys|
      ensures TxsOf(events[|xs|..])[i] == ys[i]
    {
      assert TxsOf(events)[|xs| + i] == ys[i];
    }
  }

  /** Everything one entry adds applies, and leaves the ledger ready for the next. */
  lemma AddedRuns(c: Core, events: seq<Event>, before: seq<Entry>, e: Entry, live: bool)
    requires Sound(before + [e], live) && Good(e, live) && ReadyFor(c.ledger, After(before, live)) && TxsOf(events) == Added(before, e)
    ensures AllApplied(Outcomes(c, events)) && ReadyFor(Run(c, events).ledger, After(before + [e], live))
  {
    hide ReadyFor, Run, Outcomes, Good, Sound, AllApplied, TxsOf, AssetKeys, AccountKeys, Holders, AssetPart,
         AccountPart, HolderPart, CreditTx, Expansion, AssetKey, AccountKey, AccountOf, Apply;
    var (x, y, z) := (AssetPart(before, e), AccountPart(before, e), HolderPart(before, e));
    assert Added(before, e) == x + (y + (z + [CreditTx(e)]));
    TxsSplit(events, x, y + (z + [CreditTx(e)]));
    var rest := events[|x|..];
    TxsSplit(rest, y, z + [CreditTx(e)]);
    var tail := rest[|y|..];
    TxsSplit(tail, z, [CreditTx(e)]);
    AssetPartRuns(c, events[..|x|], before, e, live);
    var c1 := Run(c, events[..|x|]);
    var p1 := After(before, live).(assets := AssetKeys(before) + {AssetKey(e)});
    AccountPartRuns(c1, rest[..|y|], before, e, p1);
    var c2 := Run(c1, rest[..|y|]);
    var p2 := p1.(accounts := AccountKeys(before) + {AccountKey(e)});
    HolderPartRuns(c2, tail[..|z|], before, e, p2);
    var c3 := Run(c2, tail[..|z|]);
    OneMoreEntry(before, e);
    CreditRuns(c3, tail[|z|..], before, e, live);
    SplitRun(c2, tail, |z|);
    SplitRun(c1, rest, |y|);
    SplitRun(c, events, |x|);
  }

  // ----- the whole handoff -----

  /** From a ledger nothing has touched, every transaction of a sound handoff applies. */
  lemma {:induction false} ExpansionRuns(c: Core, events: seq<Event>, es: seq<Entry>, live: bool)
    requires ReadyFor(c.ledger, After([], live)) && Sound(es, live) && TxsOf(events) == Expansion(es)
    ensures AllApplied(Outcomes(c, events)) && ReadyFor(Run(c, events).ledger, After(es, live))
    decreases |es|
  {
    hide ReadyFor, Apply, Sound, After, Added, TxsOf;
    if es == [] {
      assert events == [];
    } else {
      SoundPrefix(es, live);
      TxsSplit(events, Expansion(Most(es)), Added(Most(es), Last(es)));
      var n := |Expansion(Most(es))|;
      ExpansionRuns(c, events[..n], Most(es), live);
      AddedRuns(Run(c, events[..n]), events[n..], Most(es), Last(es), live);
      SplitRun(c, events, n);
    }
  }

  lemma GenesisIsReady(live: bool)
    ensures ReadyFor(EmptyCore().ledger, After([], live))
  {
  }

  /** End to end: from genesis a sound handoff applies in full and each recipient holds the sum of its credits. */
  lemma HandoffFromGenesis(entries: seq<Entry>, live: bool, events: seq<Event>, recipient: string)
    requires Sound(Live(entries), live) && TxsOf(events) == Expansion(Live(entries))
    ensures AllApplied(Outcomes(EmptyCore(), events))
    ensures Holding(Run(EmptyCore(), events).ledger.book, Named(recipient), LocalUnit) == SumFor(Live(entries), recipient)
  {
    hide Run, Outcomes, Sound, TxsOf, AllApplied, Expansion, Live;
    GenesisIsReady(live);
    ExpansionRuns(EmptyCore(), events, Live(entries), live);
    HeldAfter(Run(EmptyCore(), events).ledger, Live(entries), live, recipient);
  }

  lemma HeldAfter(l: Ledger, es: seq<Entry>, live: bool, recipient: string)
    requires ReadyFor(l, After(es, live))
    ensures Holding(l.book, Named(recipient), LocalUnit) == SumFor(es, recipient)
  {
    if Named(recipient) !in Holders(es) {
      NoAccountNoSum(es, recipient);
    }
  }

  // ----- resubmission -----

  /** Everything the entries introduce is there, and their replay keys are used. */
  ghost predicate HandedOff(l: Ledger, es: seq<Entry>) {
    && AssetKeys(es) <= l.bridge.mappings.assets.Keys && AccountKeys(es) <= l.bridge.mappings.accounts.Keys
    && Holders(es) <= l.book.held.units.Keys && ReplayIds(es) <= l.bridge.used.replays.Keys
  }

  /** Mappings, accounts and used replay keys are never removed. */
  ghost predicate Keeps(l: Ledger, l': Ledger) {
    && l.bridge.mappings.assets.Keys <= l'.bridge.mappings.assets.Keys
    && l.bridge.mappings.accounts.Keys <= l'.bridge.mappings.accounts.Keys
    && l.book.held.units.Keys <= l'.book.held.units.Keys && l.bridge.used.replays.Keys <= l'.bridge.used.replays.Keys
  }

  lemma MapKeeps(l: Ledger, now: nat, tx: Tx)
    requires tx.MapBridgeAsset? || tx.MapBridgeAccount?
    ensures Keeps(l, if tx.MapBridgeAsset? then MapAssetStep(l, now, tx).state else MapAccountStep(l, now, tx).state)
  {
    hide AssetExists;
  }

  lemma CreditKeeps(l: Ledger, now: nat, tx: Tx)
    requires LedgerOk(l) && tx.CreditBridge?
    ensures Keeps(l, CreditStep(l, now, tx).state)
  {
    hide BookOk, DexOk, BridgeOk, CreditStep, CreditQuote, CreditedBook, Credit, Unconsumed;
    CreditShape(l, now, tx);
    if CreditStep(l, now, tx).outcome.Applied? {
      CreditQuoteFacts(l, tx);
      CreditedBookFacts(l.book, now, tx);
    }
  }

  lemma DexKeeps(l: Ledger, now: nat, tx: Tx)
    requires LedgerOk(l) && IsDexTx(tx)
    ensures Keeps(l, DexStep(l, now, tx).state)
  {
    hide BookOk, DexOk, BridgeOk, CreatePoolStep, AddStep, RemoveStep, SwapStep, AssetExists;
    DexStepKeepsBridge(l, now, tx);
    if tx.CreatePool? {
      CreatePoolShape(l, now, tx);
    } else if tx.AddLiquidity? {
      AddKeepsOk(l, now, tx);
    } else if tx.RemoveLiquidity? {
      RemoveKeepsOk(l, now, tx);
    } else {
      SwapKeepsOk(l, now, tx);
    }
  }

  lemma ApplyKeeps(c: Core, env: Env, tx: Tx)
    requires LedgerOk(c.ledger)
    ensures Keeps(c.ledger, Apply(c, env, tx).state.ledger)
  {
    hide LedgerOk, BookStep, DexStep, MapAssetStep, MapAccountStep, CreditStep, WorkStep, AnchorStep;
    if !IsLedgerTx(tx) {
      OtherTxKeepsLedger(c, env, tx);
    } else if IsBookTx(tx) {
      BookStepGrows(c.ledger.book, env.now, tx);
    } else if IsDexTx(tx) {
      DexKeeps(c.ledger, env.now, tx);
    } else if tx.CreditBridge? {
      CreditKeeps(c.ledger, env.now, tx);
    } else {
      MapKeeps(c.ledger, env.now, tx);
    }
  }

  /** What is handed off stays so over any run. */
  lemma {:induction false} HandedOffForGood(c: Core, events: seq<Event>, es: seq<Entry>)
    requires LedgerOk(c.ledger) && HandedOff(c.ledger, es)
    ensures HandedOff(Run(c, events).ledger, es)
    decreases |events|
  {
    hide LedgerOk, Apply, AssetKeys, AccountKeys, Holders, ReplayIds;
    if events != [] {
      ApplyKeeps(c, events[0].env, events[0].tx);
      ApplyKeepsLedgerOk(c, events[0].env, events[0].tx);
      HandedOffForGood(Apply(c, events[0].env, events[0].tx).state, events[1..], es);
    }
  }

  lemma ReadyIsHandedOff(l: Ledger, es: seq<Entry>, live: bool)
    requires ReadyFor(l, After(es, live))
    ensures HandedOff(l, es)
  {
    hide AssetKeys, AccountKeys, Holders, ReplayIds, CreditKeys, EventIds, SumFor;
  }

  /** Once a handoff is done, each of its transactions is refused and changes nothing. */
  lemma {:induction false} DoneIsRefused(l: Ledger, now: nat, es: seq<Entry>, k: nat)
    requires HandedOff(l, es) && k < |Expansion(es)|
    ensures IsLedgerTx(Expansion(es)[k])
    ensures var s := LedgerStep(l, now, Expansion(es)[k]); s.outcome.Rejected? && s.state == l
  {
    hide Added, LedgerStep, AssetKey, AccountKey, AccountOf;
    var n := |Expansion(Most(es))|;
    if k < n {
      DoneIsRefused(l, now, Most(es), k);
    } else {
      assert Expansion(es)[k] == Added(Most(es), Last(es))[k - n];
      AddedIsRefused(l, now, Most(es), Last(es), k - n);
    }
  }

  lemma AddedIsRefused(l: Ledger, now: nat, before: seq<Entry>, e: Entry, k: nat)
    requires k < |Added(before, e)|
    requires AssetKey(e) in l.bridge.mappings.assets && AccountKey(e) in l.bridge.mappings.accounts
    requires AccountOf(e) in l.book.held.units && e.replay in l.bridge.used.replays
    ensures IsLedgerTx(Added(before, e)[k])
    ensures var s := LedgerStep(l, now, Added(before, e)[k]); s.outcome.Rejected? && s.state == l
  {
    hide AssetKeys, AccountKeys, Holders, LedgerStep, AssetKey, AccountKey, AccountOf, Memo, PilotOwner;
    assert Added(before, e)[k] in {MapAssetTx(e), MapAccountTx(e), CreateTx(e), CreditTx(e)};
    MappedIsRefused(l, now, e);
    CreateRefused(l, now, e);
    CreditRefused(l, now, e);
  }

  lemma MappedIsRefused(l: Ledger, now: nat, e: Entry)
    requires AssetKey(e) in l.bridge.mappings.assets && AccountKey(e) in l.bridge.mappings.accounts
    ensures var s := LedgerStep(l, now, MapAssetTx(e)); s.outcome.Rejected? && s.state == l
    ensures var s := LedgerStep(l, now, MapAccountTx(e)); s.outcome.Rejected? && s.state == l
  {
    hide PilotOwner, AssetExists;
  }

  lemma CreateRefused(l: Ledger, now: nat, e: Entry)
    requires AccountOf(e) in l.book.held.units
    ensures var s := LedgerStep(l, now, CreateTx(e)); s.outcome.Rejected? && s.state == l
  {
    hide PilotOwner;
  }

  lemma CreditRefused(l: Ledger, now: nat, e: Entry)
    requires e.replay in l.bridge.used.replays
    ensures var s := LedgerStep(l, now, CreditTx(e)); s.outcome.Rejected? && s.state == l
  {
    hide CreditForm, Mapped, Memo, Credit;
  }

  ghost predicate AllRefused(c: Core, events: seq<Event>) {
    forall i :: 0 <= i < |events| ==>
      IsLedgerTx(events[i].tx) &&
      var s := LedgerStep(c.ledger, events[i].env.now, events[i].tx); s.outcome.Rejected? && s.state == c.ledger
  }

  lemma {:induction false} RefusedRunsChangeNothing(c: Core, events: seq<Event>)
    requires AllRefused(c, events)
    ensures Run(c, events) == c && forall i :: 0 <= i < |events| ==> Outcomes(c, events)[i].Rejected?
    decreases |events|
  {
    hide LedgerStep, WorkStep, AnchorStep;
    if events != [] {
      assert AllRefused(c, events[1..]);
      RefusedRunsChangeNothing(c, events[1..]);
    }
  }

  /** Wherever a handoff has been done, submitting it again is refused throughout and changes nothing. */
  lemma AgainChangesNothing(c: Core, es: seq<Entry>, again: seq<Event>)
    requires HandedOff(c.ledger, es) && TxsOf(again) == Expansion(es)
    ensures Run(c, again) == c && forall i :: 0 <= i < |again| ==> Outcomes(c, again)[i].Rejected?
  {
    hide Run, Outcomes, Expansion, LedgerStep, Apply, HandedOff, IsLedgerTx;
    forall i | 0 <= i < |again|
      ensures IsLedgerTx(again[i].tx)
      ensures var s := LedgerStep(c.ledger, again[i].env.now, again[i].tx); s.outcome.Rejected? && s.state == c.ledger
    {
      assert again[i].tx == TxsOf(again)[i];
      DoneIsRefused(c.ledger, again[i].env.now, es, i);
    }
    RefusedRunsChangeNothing(c, again);
  }

  /**
   * After a sound handoff ran from genesis, and whatever ran since, submitting it again changes no
   * committed state.
   */
  lemma ResubmissionChangesNothing(entries: seq<Entry>, live: bool, first: seq<Event>, since: seq<Event>, again: seq<Event>)
    requires Sound(Live(entries), live)
    requires TxsOf(first) == Expansion(Live(entries)) && TxsOf(again) == Expansion(Live(entries))
    ensures var c := Run(EmptyCore(), first + since);
            && Run(c, again) == c
            && forall i :: 0 <= i < |again| ==> Outcomes(c, again)[i].Rejected?
  {
    hide Run, Outcomes, AllApplied, Expansion, Live, Apply, ReadyFor, Sound, HandedOff, LedgerOk, TxsOf;
    var es := Live(entries);
    GenesisIsReady(live);
    ExpansionRuns(EmptyCore(), first, es, live);
    ReadyIsHandedOff(Run(EmptyCore(), first).ledger, es, live);
    EmptyLedgerOk();
    RunKeepsLedgerOk(EmptyCore(), first);
    HandedOffForGood(Run(EmptyCore(), first), since, es);
    RunAppend(EmptyCore(), first, since);
    AgainChangesNothing(Run(EmptyCore(), first + since), es, again);
  }
}
