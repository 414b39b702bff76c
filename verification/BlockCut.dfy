/**
 * Cutting a list of transactions into blocks differently changes no outcome and no content: the
 * chain refines a machine that has no blocks at all.
 */
module BlockCut {
  import opened Prelude
  import opened Ids
  import opened Records
  import opened State
  import opened WorkLifecycle
  import opened Machine
  import opened Stamps
  import opened ChainShape

  // ----- work without stamps and recorded roots -----

  function ClearProof(): AvailabilityProof -> AvailabilityProof {
    (r: AvailabilityProof) => r.(at := 0)
  }

  function ClearCell(): MemoryCell -> MemoryCell {
    (r: MemoryCell) => r.(updatedAt := 0)
  }

  function ClearChallenge(): Challenge -> Challenge {
    (r: Challenge) => r.(openedAt := 0, status := if r.status.Resolved? then r.status.(at := 0) else Open)
  }

  function ClearFinality(): FinalityReceipt -> FinalityReceipt {
    (r: FinalityReceipt) => r.(at := 0, root := GenesisDigest)
  }

  function BareLibrary(b: Library): Library {
    Library(b.artifacts, Clear(b.availability, ClearProof()), Clear(b.memory, ClearCell()))
  }

  function BareDocket(d: Docket): Docket {
    Docket(d.receipts, d.reports, Clear(d.challenges, ClearChallenge()), Clear(d.finality, ClearFinality()))
  }

  function BareWork(w: Work): Work {
    Work(w.registry, BareLibrary(w.library), BareDocket(w.docket), w.imports)
  }

  /** The committed state without block stamps, recorded state roots and anchors. */
  function Bare(c: Core): Core {
    Core(BareLedger(c.ledger), BareWork(c.work), map[])
  }

  lemma BareFinalized(finality: map<Id, FinalityReceipt>, receipt: Id)
    ensures IsFinalized(Clear(finality, ClearFinality()), receipt) == IsFinalized(finality, receipt)
  {
    var bare := Clear(finality, ClearFinality());
    if k :| k in finality && finality[k].receipt == receipt {
      assert k in bare && bare[k].receipt == receipt;
    }
  }

  lemma BareChallenged(challenges: map<Id, Challenge>, receipt: Id)
    ensures HasOpenChallenge(Clear(challenges, ClearChallenge()), receipt) == HasOpenChallenge(challenges, receipt)
    ensures ChallengesOn(Clear(challenges, ClearChallenge()), receipt) == ChallengesOn(challenges, receipt)
  {
    var bare := Clear(challenges, ClearChallenge());
    if k :| k in challenges && challenges[k].receipt == receipt && challenges[k].status.Open? {
      assert k in bare && bare[k].receipt == receipt && bare[k].status.Open?;
    }
  }

  lemma BareOpen(d: Docket, now: nat, tx: Tx)
    requires tx.OpenChallenge?
    ensures var s := OpenStep(d, now, tx); OpenStep(BareDocket(d), 0, tx) == Step(BareDocket(s.state), s.outcome)
  {
    hide Clear, IsFinalized;
    ClearAt(d.challenges, tx.challenge, ClearChallenge());
    BareFinalized(d.finality, tx.receipt);
    ClearPut(d.challenges, tx.challenge, Challenge(tx.receipt, tx.body, Open, now), ClearChallenge());
  }

  lemma BareResolve(d: Docket, now: nat, tx: Tx)
    requires tx.ResolveChallenge?
    ensures var s := ResolveStep(d, now, tx); ResolveStep(BareDocket(d), 0, tx) == Step(BareDocket(s.state), s.outcome)
  {
    hide Clear;
    ClearAt(d.challenges, tx.challenge, ClearChallenge());
    if tx.challenge in d.challenges {
      ClearPut(d.challenges, tx.challenge, d.challenges[tx.challenge].(status := Resolved(tx.resolution, now)),
               ClearChallenge());
    }
  }

  lemma BareFinalize(d: Docket, now: nat, root: Digest, tx: Tx)
    requires tx.FinalizeWork?
    ensures var s := FinalizeStep(d, now, root, tx);
            FinalizeStep(BareDocket(d), 0, GenesisDigest, tx) == Step(BareDocket(s.state), s.outcome)
  {
    hide Clear, IsFinalized, HasOpenChallenge, ChallengesOn, AcceptanceCheck, IsFinalityStatus;
    ClearAt(d.finality, tx.finality, ClearFinality());
    BareFinalized(d.finality, tx.receipt);
    BareChallenged(d.challenges, tx.receipt);
    var s := FinalizeStep(d, now, root, tx);
    if s.outcome.Applied? {
      ClearPut(d.finality, tx.finality, s.state.finality[tx.finality], ClearFinality());
    }
  }

  lemma BareMemory(w: Work, now: nat, tx: Tx)
    requires tx.UpdateMemory?
    ensures var s := MemoryStep(w, now, tx); MemoryStep(BareWork(w), 0, tx) == Step(BareWork(s.state), s.outcome)
  {
    hide Clear, AcceptanceCheck, RootfieldCheck, BareDocket;
    assert BareDocket(w.docket).receipts == w.docket.receipts && BareDocket(w.docket).reports == w.docket.reports by {
      BareDocketKeeps(w.docket);
    }
    ClearAt(w.library.memory, tx.cell, ClearCell());
    var s := MemoryStep(w, now, tx);
    if s.outcome.Applied? {
      ClearPut(w.library.memory, tx.cell, s.state.library.memory[tx.cell], ClearCell());
    }
  }

  lemma BareDocketKeeps(d: Docket)
    ensures BareDocket(d).receipts == d.receipts && BareDocket(d).reports == d.reports
  {
  }

  lemma BareArtifact(w: Work, now: nat, tx: Tx)
    requires tx.SubmitArtifact? || tx.MarkAvailability?
    ensures var s := ArtifactStep(w, now, tx); ArtifactStep(BareWork(w), 0, tx) == Step(BareWork(s.state), s.outcome)
  {
    hide Clear, RootfieldCheck, BareDocket;
    var s := ArtifactStep(w, now, tx);
    if tx.MarkAvailability? {
      ClearAt(w.library.availability, tx.proof, ClearProof());
      if s.outcome.Applied? {
        ClearPut(w.library.availability, tx.proof, s.state.library.availability[tx.proof], ClearProof());
      }
    }
  }

  lemma BareReports(w: Work, tx: Tx)
    requires tx.SubmitWork? || tx.SubmitReport?
    ensures var s := if tx.SubmitWork? then SubmitWorkStep(w, tx) else ReportStep(w, tx);
            (if tx.SubmitWork? then SubmitWorkStep(BareWork(w), tx) else ReportStep(BareWork(w), tx)) ==
            Step(BareWork(s.state), s.outcome)
  {
    hide Clear, RootfieldCheck;
  }

  lemma BareWorkStep(w: Work, now: nat, root: Digest, tx: Tx)
    requires IsWorkTx(tx)
    ensures var s := WorkStep(w, now, root, tx);
            WorkStep(BareWork(w), 0, GenesisDigest, tx) == Step(BareWork(s.state), s.outcome)
  {
    hide RegistryStep, OpenStep, ResolveStep, FinalizeStep, ImportStep, MemoryStep, SubmitWorkStep, ReportStep,
         ArtifactStep, BareLibrary, BareDocket;
    if tx.OpenChallenge? {
      BareOpen(w.docket, now, tx);
    } else if tx.ResolveChallenge? {
      BareResolve(w.docket, now, tx);
    } else if tx.FinalizeWork? {
      BareFinalize(w.docket, now, root, tx);
    } else if tx.UpdateMemory? {
      BareMemory(w, now, tx);
    } else if tx.SubmitWork? || tx.SubmitReport? {
      BareReports(w, tx);
    } else if tx.SubmitArtifact? || tx.MarkAvailability? {
      BareArtifact(w, now, tx);
    }
  }

  // ----- the machine without blocks -----

  /** One transaction on a state that knows nothing of blocks: an anchor adds nothing. */
  function BareApply(c: Core, tx: Tx): Step<Core> {
    if IsLedgerTx(tx) then
      var s := LedgerStep(c.ledger, 0, tx);
      Step(c.(ledger := s.state), s.outcome)
    else if tx.AnchorBatch? then Done(c)
    else
      var s := WorkStep(c.work, 0, GenesisDigest, tx);
      Step(c.(work := s.state), s.outcome)
  }

  function BareRun(c: Core, txs: seq<Envelope>): Core
    decreases |txs|
  {
    if txs == [] then c else BareRun(BareApply(c, txs[0].tx).state, txs[1..])
  }

  function BareReceipts(c: Core, txs: seq<Envelope>): (r: seq<BlockReceipt>)
    ensures |r| == |txs|
    decreases |txs|
  {
    if txs == [] then []
    else
      var s := BareApply(c, txs[0].tx);
      [BlockReceipt(txs[0].txId, s.outcome, txs[0].signer)] + BareReceipts(s.state, txs[1..])
  }

  /** Whatever block it is applied in, a transaction does to the bare state what the block-free machine does. */
  lemma ApplyRefines(c: Core, env: Env, tx: Tx)
    ensures var s := Apply(c, env, tx); BareApply(Bare(c), tx) == Step(Bare(s.state), s.outcome)
  {
    hide LedgerStep, WorkStep, BareLedger, BareWork, AnchorStep;
    if IsLedgerTx(tx) {
      BareLedgerStep(c.ledger, env.now, tx);
    } else if tx.AnchorBatch? {
      AnchorOnlyAnchors(c, env, tx);
    } else {
      BareWorkStep(c.work, env.now, StateRoot(c), tx);
    }
  }

  lemma AnchorOnlyAnchors(c: Core, env: Env, tx: Tx)
    requires tx.AnchorBatch?
    ensures var s := Apply(c, env, tx);
            s.state.ledger == c.ledger && s.state.work == c.work && s.outcome.Applied?
  {
    hide LedgerStep, WorkStep;
    AnchorIsFresh(c, env, tx);
  }

  /** A batch applied in one block gives the bare state and the receipts of the block-free machine. */
  lemma {:induction false} BatchRefines(c: Core, env: Env, batch: seq<Envelope>)
    ensures Bare(Run(c, EventsOf(env, batch))) == BareRun(Bare(c), batch)
    ensures ReceiptsOf(batch, Outcomes(c, EventsOf(env, batch))) == BareReceipts(Bare(c), batch)
    decreases |batch|
  {
    hide Apply, Bare, BareApply;
    var events := EventsOf(env, batch);
    if batch != [] {
      var c1 := Apply(c, env, batch[0].tx).state;
      assert events[1..] == EventsOf(env, batch[1..]);
      ApplyRefines(c, env, batch[0].tx);
      BatchRefines(c1, env, batch[1..]);
      ReceiptsCons(c, env, batch);
    }
  }

  lemma ReceiptsCons(c: Core, env: Env, batch: seq<Envelope>)
    requires batch != []
    ensures var s := Apply(c, env, batch[0].tx);
            ReceiptsOf(batch, Outcomes(c, EventsOf(env, batch))) ==
            [BlockReceipt(batch[0].txId, s.outcome, batch[0].signer)] +
            ReceiptsOf(batch[1..], Outcomes(s.state, EventsOf(env, batch[1..])))
  {
    hide Apply;
    assert EventsOf(env, batch)[1..] == EventsOf(env, batch[1..]);
  }

  lemma {:induction false} BareAppend(c: Core, xs: seq<Envelope>, ys: seq<Envelope>)
    ensures BareRun(c, xs + ys) == BareRun(BareRun(c, xs), ys)
    ensures BareReceipts(c, xs + ys) == BareReceipts(c, xs) + BareReceipts(BareRun(c, xs), ys)
    decreases |xs|
  {
    hide BareApply;
    if xs == [] {
      assert xs + ys == ys;
    } else {
      assert (xs + ys)[1..] == xs[1..] + ys;
      BareAppend(BareApply(c, xs[0].tx).state, xs[1..], ys);
    }
  }

  // ----- chains -----

  /** The receipts of all blocks, in order. */
  function AllReceipts(blocks: seq<Block>): seq<BlockReceipt> {
    if blocks == [] then [] else AllReceipts(blocks[..|blocks| - 1]) + blocks[|blocks| - 1].receipts
  }

  /** What a list of actions submits, in order. */
  function Submitted(actions: seq<Move>): seq<Envelope> {
    if actions == [] then []
    else (match actions[0] case Submit(tx, signer) => [Envelop(tx, signer)] case Seal => []) + Submitted(actions[1..])
  }

  /** The chain has sealed `done`, in whatever blocks, and holds the rest pending. */
  ghost predicate HasSealed(ch: Chain, done: seq<Envelope>) {
    && Bare(ch.core) == BareRun(Bare(EmptyCore()), done)
    && AllReceipts(ch.blocks) == BareReceipts(Bare(EmptyCore()), done)
  }

  lemma SealMore(ch: Chain, done: seq<Envelope>)
    requires HasSealed(ch, done)
    ensures HasSealed(Build(ch), done + ch.pending) && Build(ch).pending == []
  {
    hide Bare, BareRun, BareReceipts, Run, Outcomes, EnvOf;
    BatchRefines(ch.core, EnvOf(ch), ch.pending);
    BareAppend(Bare(EmptyCore()), done, ch.pending);
    assert Build(ch).blocks[..|Build(ch).blocks| - 1] == ch.blocks;
  }

  /** A reached chain has sealed a prefix of what was submitted and holds the rest pending. */
  lemma {:induction false} ReachedHasSealed(ch: Chain, done: seq<Envelope>, actions: seq<Move>) returns (sealed: seq<Envelope>)
    requires HasSealed(ch, done)
    ensures HasSealed(ActAll(ch, actions), sealed)
    ensures sealed + ActAll(ch, actions).pending == done + ch.pending + Submitted(actions)
    decreases |actions|
  {
    hide HasSealed, Build, EventsOf;
    if actions == [] {
      sealed := done;
    } else {
      var next := Act(ch, actions[0]);
      match actions[0] {
        case Submit(tx, signer) =>
          QueueHasSealed(ch, done, tx, signer);
          sealed := ReachedHasSealed(next, done, actions[1..]);
          assert done + (ch.pending + [Envelop(tx, signer)]) + Submitted(actions[1..]) ==
                 done + ch.pending + Submitted(actions);
        case Seal =>
          SealMore(ch, done);
          sealed := ReachedHasSealed(next, done + ch.pending, actions[1..]);
          assert done + ch.pending + [] + Submitted(actions[1..]) == done + ch.pending + Submitted(actions);
      }
    }
  }

  lemma QueueHasSealed(ch: Chain, done: seq<Envelope>, tx: Tx, signer: Option<string>)
    requires HasSealed(ch, done)
    ensures HasSealed(Queue(ch, tx, signer), done)
  {
    hide Bare, BareRun, BareReceipts;
  }

  lemma GenesisHasSealed()
    ensures HasSealed(Genesis(), [])
  {
    hide Bare;
  }

  /**
   * Block-cut invariance: two histories that submit the same transactions and seal them all, in
   * whatever blocks, give every transaction the same receipt and end in the same bare state.
   */
  lemma CutsDoNotMatter(some: seq<Move>, other: seq<Move>)
    requires Submitted(some) == Submitted(other)
    requires ActAll(Genesis(), some).pending == [] && ActAll(Genesis(), other).pending == []
    ensures AllReceipts(ActAll(Genesis(), some).blocks) == AllReceipts(ActAll(Genesis(), other).blocks)
    ensures Bare(ActAll(Genesis(), some).core) == Bare(ActAll(Genesis(), other).core)
  {
    hide Bare, ActAll, Submitted, AllReceipts, BareRun, BareReceipts;
    GenesisHasSealed();
    var sealed := ReachedHasSealed(Genesis(), [], some);
    var sealed' := ReachedHasSealed(Genesis(), [], other);
    var none: seq<Envelope> := [];
    assert none + none + Submitted(some) == Submitted(some) && none + none + Submitted(other) == Submitted(other);
    assert sealed + none == sealed && sealed' + none == sealed';
  }
}
