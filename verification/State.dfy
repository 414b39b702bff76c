/**
 * The whole committed state, its digests, and the block chain around it. A digest is idealised as a
 * free constructor over what is hashed; the state root is the digest of the committed state.
 */
module State {
  import opened Prelude
  import opened Ids
  import opened Records

  datatype Rootfield = Rootfield(body: string, latest: Option<string>, pulses: nat, roots: nat, active: bool)
  datatype Agent = Agent(body: string, passportOf: Option<Id>, memoryRoot: Option<string>, active: bool)
  datatype Artifact = Artifact(rootfield: Id, commitment: string, body: string)
  datatype AvailabilityProof = AvailabilityProof(
    artifact: Id, rootfield: Id, commitment: string, body: string, at: nat)
  datatype VerifierModule = VerifierModule(body: string, active: bool)
  datatype WorkReceipt = WorkReceipt(rootfield: Id, commitment: string, body: string)
  datatype VerifierReport = VerifierReport(rootfield: Id, receipt: Id, verifier: Id, status: string, body: string)
  datatype MemoryCell = MemoryCell(
    agent: Id, rootfield: Id, current: string, parent: Option<string>, receipt: Id, body: string,
    updates: nat, updatedAt: nat)
  datatype ChallengeStatus = Open | Resolved(resolution: string, at: nat)
  datatype Challenge = Challenge(receipt: Id, body: string, status: ChallengeStatus, openedAt: nat)
  datatype FinalityReceipt = FinalityReceipt(
    receipt: Id, rootfield: Id, finalizer: string, status: string, challengeCount: nat, at: nat, root: Digest)
  datatype Observation = Observation(signature: string, body: string)

  datatype Registry = Registry(
    rootfields: map<Id, Rootfield>, agents: map<Id, Agent>, passports: map<Id, string>, modules: map<Id, VerifierModule>)
  datatype Library = Library(
    artifacts: map<Id, Artifact>, availability: map<Id, AvailabilityProof>, memory: map<Id, MemoryCell>)
  /** Work receipts and what was said about them. */
  datatype Docket = Docket(
    receipts: map<Id, WorkReceipt>, reports: map<Id, VerifierReport>,
    challenges: map<Id, Challenge>, finality: map<Id, FinalityReceipt>)
  datatype Imports = Imports(observations: map<Id, Observation>, reports: map<Id, string>)
  datatype Work = Work(registry: Registry, library: Library, docket: Docket, imports: Imports)

  datatype Anchor = Anchor(chainId: string, first: nat, last: nat, root: Digest, status: string)

  /** The state the state root commits to. */
  datatype Core = Core(ledger: Ledger, work: Work, anchors: map<Digest, Anchor>)

  datatype Digest =
    | GenesisDigest
    | TxDigest(tx: Tx)
    | StateRoot(core: Core)
    | BlockDigest(number: nat, parent: Digest, time: nat, txIds: seq<Digest>, receipts: seq<BlockReceipt>, root: Digest)
    | AnchorDigest(chainId: string, first: nat, last: nat, root: Digest, status: string)

  datatype BlockReceipt = BlockReceipt(txId: Digest, outcome: Outcome, signer: Option<string>)

  datatype Block = Block(
    number: nat, parent: Digest, time: nat, txIds: seq<Digest>, receipts: seq<BlockReceipt>, root: Digest, hash: Digest)

  datatype Envelope = Envelope(txId: Digest, tx: Tx, signer: Option<string>)

  datatype Chain = Chain(
    core: Core, nextBlock: nat, time: nat, parent: Digest, blocks: seq<Block>, pending: seq<Envelope>)

  const GENESIS_TIME: nat := 1_778_688_000

  function EmptyLedger(): Ledger {
    Ledger(Book(Holdings(map[], map[]), map[], BookLog(map[], map[], map[])),
           Dex(map[], map[], DexLog(map[], map[])),
           Bridge(Mappings(map[], map[]), Credits(map[], map[]), Indexes(map[], map[])))
  }

  function EmptyWork(): Work {
    Work(Registry(map[], map[], map[], map[]), Library(map[], map[], map[]),
         Docket(map[], map[], map[], map[]), Imports(map[], map[]))
  }

  function EmptyCore(): Core {
    Core(EmptyLedger(), EmptyWork(), map[])
  }

  function Genesis(): Chain {
    Chain(EmptyCore(), 1, GENESIS_TIME, GenesisDigest, [], [])
  }
}
