/** One transaction, and one block, as functions on the state. */
module Machine {
  import opened Prelude
  import opened Records
  import opened State
  import opened Accounts
  import opened Exchange
  import opened BridgePath
  import opened WorkLifecycle

  /** What a transaction sees of the chain: the number of the block being built and the anchored range. */
  datatype Env = Env(now: nat, first: nat, last: nat)

  predicate IsBookTx(tx: Tx) {
    tx.CreateBalance? || tx.Faucet? || tx.Transfer? || tx.LaunchToken? || tx.MintToken?
  }

  predicate IsDexTx(tx: Tx) {
    tx.CreatePool? || tx.AddLiquidity? || tx.RemoveLiquidity? || tx.SwapExactIn?
  }

  predicate IsBridgeTx(tx: Tx) {
    tx.MapBridgeAsset? || tx.MapBridgeAccount? || tx.CreditBridge?
  }

  predicate IsLedgerTx(tx: Tx) {
    IsBookTx(tx) || IsDexTx(tx) || IsBridgeTx(tx)
  }

  function BookStep(b: Book, now: nat, tx: Tx): Step<Book>
    requires IsBookTx(tx)
  {
    if tx.CreateBalance? then CreateBalanceStep(b, now, tx)
    else if tx.Faucet? then FaucetStep(b, now, tx)
    else if tx.Transfer? then TransferStep(b, now, tx)
    else if tx.LaunchToken? then LaunchStep(b, now, tx)
    else MintStep(b, now, tx)
  }

  function DexStep(l: Ledger, now: nat, tx: Tx): Step<Ledger>
    requires IsDexTx(tx)
  {
    if tx.CreatePool? then CreatePoolStep(l, now, tx)
    else if tx.AddLiquidity? then AddStep(l, now, tx)
    else if tx.RemoveLiquidity? then RemoveStep(l, now, tx)
    else SwapStep(l, now, tx)
  }

  function BridgeStep(l: Ledger, now: nat, tx: Tx): Step<Ledger>
    requires IsBridgeTx(tx)
  {
    if tx.MapBridgeAsset? then MapAssetStep(l, now, tx)
    else if tx.MapBridgeAccount? then MapAccountStep(l, now, tx)
    else CreditStep(l, now, tx)
  }

  function LedgerStep(l: Ledger, now: nat, tx: Tx): Step<Ledger>
    requires IsLedgerTx(tx)
  {
    if IsBookTx(tx) then
      var s := BookStep(l.book, now, tx);
      Step(l.(book := s.state), s.outcome)
    else if IsDexTx(tx) then DexStep(l, now, tx)
    else BridgeStep(l, now, tx)
  }

  function AnchorStep(c: Core, env: Env, tx: Tx): Step<Core>
    requires tx.AnchorBatch?
  {
    var anchor := Anchor(tx.chainId, env.first, env.last, StateRoot(c), tx.status);
    var id := AnchorDigest(anchor.chainId, anchor.first, anchor.last, anchor.root, anchor.status);
    if id in c.anchors then Refuse(c, AnchorAlreadyExists)
    else Done(c.(anchors := c.anchors[id := anchor]))
  }

  /** `apply_transaction` */
  function Apply(c: Core, env: Env, tx: Tx): Step<Core> {
    if IsLedgerTx(tx) then
      var s := LedgerStep(c.ledger, env.now, tx);
      Step(c.(ledger := s.state), s.outcome)
    else if tx.AnchorBatch? then AnchorStep(c, env, tx)
    else
      var s := WorkStep(c.work, env.now, StateRoot(c), tx);
      Step(c.(work := s.state), s.outcome)
  }

  // ----- runs -----

  /** A transaction together with what it saw of the chain. */
  datatype Event = Event(env: Env, tx: Tx)

  /** The state after a list of transactions, applied or rejected. */
  function Run(c: Core, events: seq<Event>): Core
    decreases |events|
  {
    if events == [] then c
    else Run(Apply(c, events[0].env, events[0].tx).state, events[1..])
  }

  function Outcomes(c: Core, events: seq<Event>): (r: seq<Outcome>)
    ensures |r| == |events|
    decreases |events|
  {
    if events == [] then []
    else
      var s := Apply(c, events[0].env, events[0].tx);
      [s.outcome] + Outcomes(s.state, events[1..])
  }

  lemma {:induction false} RunAppend(c: Core, before: seq<Event>, after: seq<Event>)
    ensures Run(c, before + after) == Run(Run(c, before), after)
    ensures Outcomes(c, before + after) == Outcomes(c, before) + Outcomes(Run(c, before), after)
    decreases |before|
  {
    if before == [] {
      assert before + after == after;
    } else {
      assert (before + after)[1..] == before[1..] + after;
      RunAppend(Apply(c, before[0].env, before[0].tx).state, before[1..], after);
    }
  }

  // ----- blocks -----

  function Envelop(tx: Tx, signer: Option<string>): Envelope {
    Envelope(TxDigest(tx), tx, signer)
  }

  /** `queue_transaction` and `queue_authorized_transaction` */
  function Queue(ch: Chain, tx: Tx, signer: Option<string>): Chain {
    ch.(pending := ch.pending + [Envelop(tx, signer)])
  }

  function EnvOf(ch: Chain): Env {
    if ch.blocks == [] then Env(ch.nextBlock, 0, 0)
    else Env(ch.nextBlock, ch.blocks[0].number, ch.blocks[|ch.blocks| - 1].number)
  }

  function EventsOf(env: Env, batch: seq<Envelope>): (r: seq<Event>)
    ensures |r| == |batch|
    ensures forall i :: 0 <= i < |batch| ==> r[i] == Event(env, batch[i].tx)
  {
    seq(|batch|, i requires 0 <= i < |batch| => Event(env, batch[i].tx))
  }

  function ReceiptsOf(batch: seq<Envelope>, outcomes: seq<Outcome>): (r: seq<BlockReceipt>)
    requires |batch| == |outcomes|
    ensures |r| == |batch|
  {
    seq(|batch|, i requires 0 <= i < |batch| => BlockReceipt(batch[i].txId, outcomes[i], batch[i].signer))
  }

  function TxIdsOf(batch: seq<Envelope>): (r: seq<Digest>)
    ensures |r| == |batch|
  {
    seq(|batch|, i requires 0 <= i < |batch| => batch[i].txId)
  }

  /** A block sealed with the digest of everything else in it. */
  function Seal(number: nat, parent: Digest, time: nat, txIds: seq<Digest>, receipts: seq<BlockReceipt>, root: Digest): Block {
    Block(number, parent, time, txIds, receipts, root, BlockDigest(number, parent, time, txIds, receipts, root))
  }

  /** The block that seals the pending batch. */
  function SealedBlock(ch: Chain): Block {
    var events := EventsOf(EnvOf(ch), ch.pending);
    var receipts := ReceiptsOf(ch.pending, Outcomes(ch.core, events));
    var root := StateRoot(Run(ch.core, events));
    Seal(ch.nextBlock, ch.parent, ch.time, TxIdsOf(ch.pending), receipts, root)
  }

  /** `build_block` */
  function Build(ch: Chain): Chain {
    var block := SealedBlock(ch);
    Chain(Run(ch.core, EventsOf(EnvOf(ch), ch.pending)), ch.nextBlock + 1, ch.time + 1, block.hash,
          ch.blocks + [block], [])
  }
}
