/** The chain of blocks: numbering, links, receipts, and what the tip commits to. */
module ChainShape {
  import opened Prelude
  import opened Records
  import opened State
  import opened WorkLifecycle
  import opened Machine

  /** What the block after these links to. */
  function TipOf(blocks: seq<Block>): Digest {
    if blocks == [] then GenesisDigest else blocks[|blocks| - 1].hash
  }

  ghost predicate ReceiptsMatch(b: Block) {
    && |b.receipts| == |b.txIds|
    && forall j :: 0 <= j < |b.txIds| ==> b.receipts[j].txId == b.txIds[j]
  }

  /** The block's hash is the digest of everything else in it. */
  predicate SealHolds(b: Block) {
    b.hash == BlockDigest(b.number, b.parent, b.time, b.txIds, b.receipts, b.root)
  }

  ghost predicate Linked(blocks: seq<Block>) {
    forall i :: 0 <= i < |blocks| ==>
      && blocks[i].number == i + 1 && blocks[i].time == GENESIS_TIME + i
      && blocks[i].parent == TipOf(blocks[..i])
      && SealHolds(blocks[i]) && ReceiptsMatch(blocks[i])
  }

  ghost predicate WellFormed(ch: Chain) {
    && Linked(ch.blocks)
    && ch.nextBlock == |ch.blocks| + 1 && ch.time == GENESIS_TIME + |ch.blocks|
    && ch.parent == TipOf(ch.blocks)
    && (ch.blocks != [] ==> ch.blocks[|ch.blocks| - 1].root == StateRoot(ch.core))
    && (forall j :: 0 <= j < |ch.pending| ==> ch.pending[j].txId == TxDigest(ch.pending[j].tx))
  }

  lemma {:induction false} LinkedMore(blocks: seq<Block>, b: Block)
    requires Linked(blocks) && b.number == |blocks| + 1 && b.time == GENESIS_TIME + |blocks|
    requires b.parent == TipOf(blocks) && SealHolds(b) && ReceiptsMatch(b)
    ensures Linked(blocks + [b])
  {
    hide SealHolds, ReceiptsMatch;
    var more := blocks + [b];
    forall i | 0 <= i < |more|
      ensures more[i].parent == TipOf(more[..i])
    {
      assert more[..i] == blocks[..i];
      assert blocks[..|blocks|] == blocks;
    }
  }

  lemma GenesisWellFormed()
    ensures WellFormed(Genesis())
  {
  }

  /** Queueing keeps the chain well formed: the last root still commits to the state, whatever is pending. */
  lemma QueueKeepsWellFormed(ch: Chain, tx: Tx, signer: Option<string>)
    requires WellFormed(ch)
    ensures WellFormed(Queue(ch, tx, signer))
  {
    hide Linked;
  }

  lemma BuildKeepsWellFormed(ch: Chain)
    requires WellFormed(ch)
    ensures WellFormed(Build(ch))
  {
    hide Linked, Run, Outcomes, EventsOf, EnvOf;
    LinkedMore(ch.blocks, SealedBlock(ch));
  }

  // ----- every reachable chain -----

  datatype Move = Submit(tx: Tx, signer: Option<string>) | Seal

  function Act(ch: Chain, a: Move): Chain {
    match a
    case Submit(tx, signer) => Queue(ch, tx, signer)
    case Seal => Build(ch)
  }

  function ActAll(ch: Chain, actions: seq<Move>): Chain
    decreases |actions|
  {
    if actions == [] then ch else ActAll(Act(ch, actions[0]), actions[1..])
  }

  /** Every chain reachable by submitting and sealing is well formed. */
  lemma {:induction false} ReachableWellFormed(ch: Chain, actions: seq<Move>)
    requires WellFormed(ch)
    ensures WellFormed(ActAll(ch, actions))
    decreases |actions|
  {
    hide WellFormed, Queue, Build;
    if actions != [] {
      match actions[0] {
        case Submit(tx, signer) => QueueKeepsWellFormed(ch, tx, signer);
        case Seal => BuildKeepsWellFormed(ch);
      }
      ReachableWellFormed(Act(ch, actions[0]), actions[1..]);
    }
  }

  lemma ReachableFromGenesis(actions: seq<Move>)
    ensures WellFormed(ActAll(Genesis(), actions))
  {
    hide WellFormed, ActAll, Genesis;
    GenesisWellFormed();
    ReachableWellFormed(Genesis(), actions);
  }

  // ----- the tip commits to everything -----

  lemma LinkedPrefix(blocks: seq<Block>, n: nat)
    requires Linked(blocks) && n <= |blocks|
    ensures Linked(blocks[..n])
  {
    hide SealHolds, ReceiptsMatch;
    forall i | 0 <= i < n
      ensures blocks[..n][..i] == blocks[..i]
    {
    }
  }

  lemma TipIsSealed(blocks: seq<Block>)
    requires Linked(blocks)
    ensures TipOf(blocks).GenesisDigest? <==> blocks == []
  {
    hide ReceiptsMatch;
    if blocks != [] {
      assert SealHolds(blocks[|blocks| - 1]);
    }
  }

  /** Two linked block lists with the same tip are the same list. */
  lemma {:induction false} TipBindsBlocks(xs: seq<Block>, ys: seq<Block>)
    requires Linked(xs) && Linked(ys) && TipOf(xs) == TipOf(ys)
    ensures xs == ys
    decreases |xs|
  {
    hide ReceiptsMatch, SealHolds, Linked;
    TipIsSealed(xs);
    TipIsSealed(ys);
    if xs != [] && ys != [] {
      var (m, n) := (|xs| - 1, |ys| - 1);
      LastLinked(xs);
      LastLinked(ys);
      SealBinds(xs[m], ys[n]);
      TipBindsBlocks(xs[..m], ys[..n]);
      assert xs == xs[..m] + [xs[m]] && ys == ys[..n] + [ys[n]];
    }
  }

  lemma SealBinds(a: Block, b: Block)
    requires SealHolds(a) && SealHolds(b) && a.hash == b.hash
    ensures a == b
  {
  }

  lemma LastLinked(blocks: seq<Block>)
    requires Linked(blocks) && blocks != []
    ensures var n := |blocks| - 1;
            Linked(blocks[..n]) && SealHolds(blocks[n]) && blocks[n].parent == TipOf(blocks[..n])
  {
    hide SealHolds, ReceiptsMatch;
    LinkedPrefix(blocks, |blocks| - 1);
  }

  /** The parent hash of a well-formed chain past genesis fixes its height, its whole history and its state. */
  lemma TipBindsChain(a: Chain, b: Chain)
    requires WellFormed(a) && WellFormed(b) && a.parent == b.parent && a.blocks != []
    ensures a.(pending := []) == b.(pending := [])
  {
    hide Linked;
    TipBindsBlocks(a.blocks, b.blocks);
  }

  // ----- anchors -----

  /** An anchor's id can never be taken: it commits to the state that would have to hold it. */
  lemma AnchorIsFresh(c: Core, env: Env, tx: Tx)
    requires tx.AnchorBatch?
    ensures AnchorDigest(tx.chainId, env.first, env.last, StateRoot(c), tx.status) !in c.anchors
    ensures Apply(c, env, tx).outcome.Applied?
  {
    hide LedgerStep;
    var id := AnchorDigest(tx.chainId, env.first, env.last, StateRoot(c), tx.status);
    if id in c.anchors {
      assert false;
    }
  }

  /** The first block number of a range that ends here: none, or the first block. */
  function FirstOf(last: nat): nat {
    if last == 0 then 0 else 1
  }

  /** An anchor taken in a well-formed chain covers exactly the blocks sealed so far and the state it was taken in. */
  lemma AnchorCovers(ch: Chain, tx: Tx)
    requires WellFormed(ch) && tx.AnchorBatch?
    ensures var (last, root) := (|ch.blocks|, StateRoot(ch.core));
            Apply(ch.core, EnvOf(ch), tx) == Done(ch.core.(anchors := ch.core.anchors[
              AnchorDigest(tx.chainId, FirstOf(last), last, root, tx.status) :=
              Anchor(tx.chainId, FirstOf(last), last, root, tx.status)]))
  {
    hide LedgerStep;
    AnchorIsFresh(ch.core, EnvOf(ch), tx);
    EnvNumbers(ch);
  }

  lemma EnvNumbers(ch: Chain)
    requires WellFormed(ch)
    ensures EnvOf(ch) == Env(ch.nextBlock, FirstOf(|ch.blocks|), |ch.blocks|)
  {
    hide SealHolds, ReceiptsMatch;
  }

  /** Every anchor is filed under the digest of its contents and covers the blocks up to one before the next. */
  ghost predicate AnchorsFiled(anchors: map<Digest, Anchor>, next: nat) {
    forall id :: id in anchors ==>
      var a := anchors[id];
      && id == AnchorDigest(a.chainId, a.first, a.last, a.root, a.status)
      && a.last < next && a.first == FirstOf(a.last)
  }

  lemma StepFilesAnchors(c: Core, env: Env, tx: Tx, next: nat)
    requires AnchorsFiled(c.anchors, next) && env.last < next && env.first == FirstOf(env.last)
    ensures AnchorsFiled(Apply(c, env, tx).state.anchors, next)
  {
    hide LedgerStep, WorkStep;
  }

  lemma {:induction false} BatchFilesAnchors(c: Core, env: Env, batch: seq<Envelope>, next: nat)
    requires AnchorsFiled(c.anchors, next) && env.last < next && env.first == FirstOf(env.last)
    ensures AnchorsFiled(Run(c, EventsOf(env, batch)).anchors, next)
    decreases |batch|
  {
    hide Apply, AnchorsFiled;
    if batch != [] {
      StepFilesAnchors(c, env, batch[0].tx, next);
      assert EventsOf(env, batch)[1..] == EventsOf(env, batch[1..]);
      BatchFilesAnchors(Apply(c, env, batch[0].tx).state, env, batch[1..], next);
    }
  }

  lemma BuildFilesAnchors(ch: Chain)
    requires WellFormed(ch) && AnchorsFiled(ch.core.anchors, ch.nextBlock)
    ensures AnchorsFiled(Build(ch).core.anchors, Build(ch).nextBlock)
  {
    hide Run, Outcomes, EventsOf, EnvOf, Linked;
    EnvNumbers(ch);
    BatchFilesAnchors(ch.core, EnvOf(ch), ch.pending, ch.nextBlock);
  }

  /** Every anchor of a reachable chain covers a range of its blocks, from the first one on. */
  lemma {:induction false} ReachableAnchors(ch: Chain, moves: seq<Move>)
    requires WellFormed(ch) && AnchorsFiled(ch.core.anchors, ch.nextBlock)
    ensures AnchorsFiled(ActAll(ch, moves).core.anchors, ActAll(ch, moves).nextBlock)
    decreases |moves|
  {
    hide WellFormed, Build, AnchorsFiled;
    if moves != [] {
      match moves[0] {
        case Submit(tx, signer) => QueueKeepsWellFormed(ch, tx, signer);
        case Seal =>
          BuildKeepsWellFormed(ch);
          BuildFilesAnchors(ch);
      }
      ReachableAnchors(Act(ch, moves[0]), moves[1..]);
    }
  }

  lemma AnchorsFromGenesis(moves: seq<Move>)
    ensures AnchorsFiled(ActAll(Genesis(), moves).core.anchors, |ActAll(Genesis(), moves).blocks| + 1)
  {
    hide ActAll, Linked;
    GenesisWellFormed();
    ReachableWellFormed(Genesis(), moves);
    ReachableAnchors(Genesis(), moves);
  }
}
