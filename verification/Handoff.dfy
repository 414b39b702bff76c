/** Expanding a bridge handoff into transactions. */
module Handoff {
  import opened Prelude
  import opened Ids
  import opened Records

  /** A parsed credit of a handoff. */
  datatype Entry = Entry(
    status: string, localOnly: bool, productionReady: bool, event: EventRef, sourceToken: string,
    recipient: string, amount: U64, credit: Id, observation: string, replay: Id,
    confirmation: Option<ConfirmationProof>, cap: Option<CapProof>)

  function PilotOwner(): string {
    "operator:bridge:pilot"
  }

  function AccountOf(e: Entry): Id {
    Named(e.recipient)
  }

  function AssetKey(e: Entry): Id {
    AssetMappingId(e.event.chain, e.sourceToken, LocalUnit)
  }

  function AccountKey(e: Entry): Id {
    AccountMappingId(e.recipient, AccountOf(e))
  }

  function MapAssetTx(e: Entry): Tx {
    MapBridgeAsset(AssetKey(e), e.event.chain, e.sourceToken, LocalUnit, e.localOnly, e.productionReady)
  }

  function MapAccountTx(e: Entry): Tx {
    MapBridgeAccount(AccountKey(e), e.recipient, AccountOf(e), PilotOwner(), e.localOnly, e.productionReady)
  }

  function CreateTx(e: Entry): Tx {
    CreateBalance(AccountOf(e), PilotOwner())
  }

  function Memo(e: Entry): string {
    if e.productionReady && !e.localOnly then "live Base bridge credit" else "explicit mock bridge handoff credit"
  }

  function CreditTx(e: Entry): Tx {
    CreditBridge(e.credit, e.credit, AccountOf(e), e.recipient, LocalUnit, e.sourceToken, e.amount, e.event,
                 e.observation, e.replay, Memo(e), e.localOnly, e.productionReady, e.confirmation, e.cap)
  }

  // ----- what the expansion is -----

  function Most(es: seq<Entry>): seq<Entry>
    requires es != []
  {
    es[..|es| - 1]
  }

  function Last(es: seq<Entry>): Entry
    requires es != []
  {
    es[|es| - 1]
  }

  function AssetKeys(es: seq<Entry>): set<Id> {
    if es == [] then {} else AssetKeys(Most(es)) + {AssetKey(Last(es))}
  }

  function AccountKeys(es: seq<Entry>): set<Id> {
    if es == [] then {} else AccountKeys(Most(es)) + {AccountKey(Last(es))}
  }

  function Holders(es: seq<Entry>): set<Id> {
    if es == [] then {} else Holders(Most(es)) + {AccountOf(Last(es))}
  }

  /** The entries that are not rejected. */
  function Live(es: seq<Entry>): seq<Entry> {
    if es == [] then []
    else Live(Most(es)) + if Last(es).status == "rejected" then [] else [Last(es)]
  }

  /** The mapping of an asset no earlier entry has mapped. */
  function AssetPart(before: seq<Entry>, e: Entry): seq<Tx> {
    if AssetKey(e) in AssetKeys(before) then [] else [MapAssetTx(e)]
  }

  function AccountPart(before: seq<Entry>, e: Entry): seq<Tx> {
    if AccountKey(e) in AccountKeys(before) then [] else [MapAccountTx(e)]
  }

  function HolderPart(before: seq<Entry>, e: Entry): seq<Tx> {
    if AccountOf(e) in Holders(before) then [] else [CreateTx(e)]
  }

  /** What an entry adds to the expansion: whatever it needs and nobody introduced, then its credit. */
  function Added(before: seq<Entry>, e: Entry): seq<Tx> {
    AssetPart(before, e) + AccountPart(before, e) + HolderPart(before, e) + [CreditTx(e)]
  }

  function Expansion(es: seq<Entry>): seq<Tx> {
    if es == [] then [] else Expansion(Most(es)) + Added(Most(es), Last(es))
  }

  lemma OneMoreEntry(before: seq<Entry>, e: Entry)
    ensures Expansion(before + [e]) == Expansion(before) + Added(before, e)
    ensures AssetKeys(before + [e]) == AssetKeys(before) + {AssetKey(e)}
    ensures AccountKeys(before + [e]) == AccountKeys(before) + {AccountKey(e)}
    ensures Holders(before + [e]) == Holders(before) + {AccountOf(e)}
  {
    hide Added, AssetKey, AccountKey, AccountOf;
    assert Most(before + [e]) == before;
  }

  lemma LiveSoFar(entries: seq<Entry>, i: nat)
    requires i < |entries|
    ensures Live(entries[..i + 1]) ==
            if entries[i].status == "rejected" then Live(entries[..i]) else Live(entries[..i]) + [entries[i]]
  {
    assert Most(entries[..i + 1]) == entries[..i];
  }

  /** `bridge_handoff_transactions` over parsed entries: three seen-sets decide what is new. */
  method Expand(entries: seq<Entry>) returns (txs: seq<Tx>)
    ensures txs == Expansion(Live(entries))
  {
    hide Live, Expansion, AssetKeys, AccountKeys, Holders, MapAssetTx, MapAccountTx, CreateTx, CreditTx, AssetKey,
         AccountKey, AccountOf;
    NothingYet();
    txs := [];
    var assets: set<Id>, accounts: set<Id>, holders: set<Id> := {}, {}, {};
    assert entries[..0] == [];
    for i := 0 to |entries|
      invariant txs == Expansion(Live(entries[..i]))
      invariant assets == AssetKeys(Live(entries[..i])) && accounts == AccountKeys(Live(entries[..i]))
      invariant holders == Holders(Live(entries[..i]))
    {
      var e := entries[i];
      LiveSoFar(entries, i);
      if e.status == "rejected" {
        continue;
      }
      ghost var before, done := Live(entries[..i]), txs;
      OneMoreEntry(before, e);
      if AssetKey(e) !in assets {
        assets := assets + {AssetKey(e)};
        txs := txs + [MapAssetTx(e)];
      }
      assert txs == done + AssetPart(before, e);
      if AccountKey(e) !in accounts {
        accounts := accounts + {AccountKey(e)};
        txs := txs + [MapAccountTx(e)];
      }
      assert txs == done + (AssetPart(before, e) + AccountPart(before, e));
      if AccountOf(e) !in holders {
        holders := holders + {AccountOf(e)};
        txs := txs + [CreateTx(e)];
      }
      assert txs == done + (AssetPart(before, e) + AccountPart(before, e) + HolderPart(before, e));
      txs := txs + [CreditTx(e)];
      assert txs == done + Added(before, e);
    }
    assert entries[..|entries|] == entries;
  }

  lemma NothingYet()
    ensures Live([]) == [] && Expansion([]) == []
    ensures AssetKeys([]) == {} && AccountKeys([]) == {} && Holders([]) == {}
  {
  }

  // ----- what the expansion guarantees -----

  function CreditsIn(txs: seq<Tx>): seq<Tx> {
    if txs == [] then []
    else CreditsIn(txs[..|txs| - 1]) + if txs[|txs| - 1].CreditBridge? then [txs[|txs| - 1]] else []
  }

  lemma {:induction false} CreditsInAppend(xs: seq<Tx>, ys: seq<Tx>)
    ensures CreditsIn(xs + ys) == CreditsIn(xs) + CreditsIn(ys)
    decreases |ys|
  {
    if ys == [] {
      assert xs + ys == xs;
    } else {
      assert (xs + ys)[..|xs + ys| - 1] == xs + ys[..|ys| - 1];
      CreditsInAppend(xs, ys[..|ys| - 1]);
    }
  }

  lemma AddedCredit(before: seq<Entry>, e: Entry)
    ensures CreditsIn(Added(before, e)) == [CreditTx(e)]
  {
    hide AssetKeys, AccountKeys, Holders, AssetKey, AccountKey, AccountOf, Memo;
    var xs := AssetPart(before, e) + AccountPart(before, e) + HolderPart(before, e);
    NoCredits(xs);
    CreditsInAppend(xs, [CreditTx(e)]);
  }

  /** One credit per live entry, in order. */
  lemma {:induction false} OneCreditPerEntry(es: seq<Entry>)
    ensures |CreditsIn(Expansion(es))| == |es|
    ensures forall i :: 0 <= i < |es| ==> CreditsIn(Expansion(es))[i] == CreditTx(es[i])
  {
    hide Added, CreditTx;
    if es != [] {
      OneCreditPerEntry(Most(es));
      AddedCredit(Most(es), Last(es));
      CreditsInAppend(Expansion(Most(es)), Added(Most(es), Last(es)));
    }
  }

  lemma {:induction false} NoCredits(txs: seq<Tx>)
    requires forall i :: 0 <= i < |txs| ==> !txs[i].CreditBridge?
    ensures CreditsIn(txs) == []
  {
    if txs != [] {
      NoCredits(txs[..|txs| - 1]);
    }
  }

  /** The transaction introduces this asset mapping, account mapping or account. */
  predicate Introduces(tx: Tx, id: Id) {
    match tx
    case MapBridgeAsset(mapping, _, _, _, _, _) => mapping == id
    case MapBridgeAccount(mapping, _, _, _, _, _) => mapping == id
    case CreateBalance(account, _) => account == id
    case _ => false
  }

  function Known(es: seq<Entry>): set<Id> {
    AssetKeys(es) + AccountKeys(es) + Holders(es)
  }

  /** The three kinds of id are apart. */
  lemma {:induction false} KeyKinds(es: seq<Entry>, id: Id)
    ensures id in AssetKeys(es) ==> id.AssetMappingId?
    ensures id in AccountKeys(es) ==> id.AccountMappingId?
    ensures id in Holders(es) ==> id.Named?
  {
    if es != [] {
      KeyKinds(Most(es), id);
    }
  }

  /** What an added transaction introduces is needed by the entry and new. */
  lemma AddedIntroduces(before: seq<Entry>, e: Entry, k: nat, id: Id)
    requires k < |Added(before, e)| && Introduces(Added(before, e)[k], id)
    ensures id in {AssetKey(e), AccountKey(e), AccountOf(e)} && id !in Known(before)
  {
    hide AssetKeys, AccountKeys, Holders, Memo, PilotOwner;
    KeyKinds(before, id);
  }

  lemma AddedOnce(before: seq<Entry>, e: Entry, j: nat, k: nat, id: Id)
    requires j < k < |Added(before, e)| && Introduces(Added(before, e)[j], id)
    ensures !Introduces(Added(before, e)[k], id)
  {
    hide AssetKeys, AccountKeys, Holders, Memo, PilotOwner;
  }

  /** Whatever an entry needs is known before or added. */
  lemma AddedCovers(before: seq<Entry>, e: Entry, id: Id) returns (k: nat)
    requires id in {AssetKey(e), AccountKey(e), AccountOf(e)} && id !in Known(before)
    ensures k < |Added(before, e)| - 1 && Introduces(Added(before, e)[k], id)
  {
    hide AssetKeys, AccountKeys, Holders, Memo, PilotOwner;
    var a, b := |AssetPart(before, e)|, |AccountPart(before, e)|;
    k := if id == AssetKey(e) then 0 else if id == AccountKey(e) then a else a + b;
  }

  lemma AddedEndsInCredit(before: seq<Entry>, e: Entry, k: nat)
    requires k < |Added(before, e)| && Added(before, e)[k].CreditBridge?
    ensures k == |Added(before, e)| - 1 && Added(before, e)[k] == CreditTx(e)
  {
    hide AssetKeys, AccountKeys, Holders, Memo, PilotOwner;
  }

  /** What the expansion introduces is what its entries name. */
  lemma {:induction false} IntroducesKnown(es: seq<Entry>, p: nat, id: Id)
    requires p < |Expansion(es)| && Introduces(Expansion(es)[p], id)
    ensures id in Known(es)
  {
    hide Added, Introduces, AssetKey, AccountKey, AccountOf;
    var n := |Expansion(Most(es))|;
    if p < n {
      IntroducesKnown(Most(es), p, id);
    } else {
      AddedIntroduces(Most(es), Last(es), p - n, id);
    }
  }

  /** Each asset mapping, account mapping and account is introduced at most once. */
  lemma {:induction false} IntroducedOnce(es: seq<Entry>, p: nat, q: nat, id: Id)
    requires p < q < |Expansion(es)| && Introduces(Expansion(es)[p], id)
    ensures !Introduces(Expansion(es)[q], id)
  {
    hide Added, Introduces, Known;
    var n := |Expansion(Most(es))|;
    if q < n {
      IntroducedOnce(Most(es), p, q, id);
    } else if p < n {
      IntroducesKnown(Most(es), p, id);
      if Introduces(Expansion(es)[q], id) {
        AddedIntroduces(Most(es), Last(es), q - n, id);
      }
    } else {
      AddedOnce(Most(es), Last(es), p - n, q - n, id);
    }
  }

  /** What is named is introduced somewhere. */
  lemma {:induction false} KnownIsIntroduced(es: seq<Entry>, id: Id) returns (q: nat)
    requires id in Known(es)
    ensures q < |Expansion(es)| && Introduces(Expansion(es)[q], id)
  {
    hide Added, Introduces, AssetKey, AccountKey, AccountOf;
    if id in Known(Most(es)) {
      q := KnownIsIntroduced(Most(es), id);
    } else {
      var k := AddedCovers(Most(es), Last(es), id);
      q := |Expansion(Most(es))| + k;
    }
  }

  /** The ids a credit needs: its asset mapping, its account mapping and its account. */
  function Needs(tx: Tx): set<Id>
    requires tx.CreditBridge?
  {
    {AssetMappingId(tx.event.chain, tx.sourceToken, tx.asset), AccountMappingId(tx.recipient, tx.account), tx.account}
  }

  /** Everything a credit needs is introduced before it. */
  lemma {:induction false} IntroducedBeforeNeeded(es: seq<Entry>, p: nat, id: Id) returns (q: nat)
    requires p < |Expansion(es)| && Expansion(es)[p].CreditBridge? && id in Needs(Expansion(es)[p])
    ensures q < p && Introduces(Expansion(es)[q], id)
  {
    hide Added, Introduces;
    var (before, e) := (Most(es), Last(es));
    var n := |Expansion(before)|;
    if p < n {
      q := IntroducedBeforeNeeded(before, p, id);
    } else {
      AddedEndsInCredit(before, e, p - n);
      if id in Known(before) {
        q := KnownIsIntroduced(before, id);
      } else {
        var k := AddedCovers(before, e, id);
        q := n + k;
      }
    }
  }
}
