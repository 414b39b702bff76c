/**
 * The records the runtime stores, its errors and its transactions. Fields named `at`, `createdAt`,
 * `updatedAt`, `openedAt` hold the number of the block being built. `body` stands for the text
 * fields of a record that no decision reads.
 */
module Records {
  import opened Prelude
  import opened Ids

  // ----- account book -----

  datatype UnitBalance = UnitBalance(
    owner: string, units: U64, lifetime: U64, lastFaucet: Option<Id>, updatedAt: nat, noValue: bool)
  datatype FaucetRecord = FaucetRecord(account: Id, recipient: string, amount: U64, reason: string, at: nat)
  datatype TransferRecord = TransferRecord(
    source: Id, target: Id, amount: U64, memo: string, at: nat, noValue: bool)
  datatype Token = Token(symbol: string, name: string, decimals: nat, launcher: Id, supply: U64, at: nat)
  datatype TokenBalance = TokenBalance(token: Id, account: Id, units: U64, updatedAt: nat, noValue: bool)
  datatype MintReceipt = MintReceipt(token: Id, account: Id, amount: U64, reason: string, at: nat)

  /** Who holds what. */
  datatype Holdings = Holdings(units: map<Id, UnitBalance>, tokens: map<Id, TokenBalance>)
  datatype BookLog = BookLog(
    faucets: map<Id, FaucetRecord>, transfers: map<Id, TransferRecord>, mints: map<Id, MintReceipt>)
  datatype Book = Book(held: Holdings, tokens: map<Id, Token>, log: BookLog)

  // ----- exchange -----

  datatype Pool = Pool(
    base: Id, quote: Id, creator: Id, reserveBase: U64, reserveQuote: U64, lp: U64,
    createdAt: nat, updatedAt: nat, lastLiquidity: Option<Id>, lastSwap: Option<Id>)
  datatype Position = Position(
    pool: Id, owner: Id, lp: U64, baseIn: U64, quoteIn: U64, baseOut: U64, quoteOut: U64, updatedAt: nat)
  datatype LiquidityReceipt = LiquidityReceipt(
    pool: Id, provider: Id, action: Action, baseAmount: U64, quoteAmount: U64, lp: U64,
    baseBefore: U64, quoteBefore: U64, baseAfter: U64, quoteAfter: U64, at: nat)
  datatype SwapReceipt = SwapReceipt(
    pool: Id, trader: Id, assetIn: Id, assetOut: Id, amountIn: U64, amountOut: U64,
    baseBefore: U64, quoteBefore: U64, baseAfter: U64, quoteAfter: U64, at: nat)

  datatype DexLog = DexLog(liquidity: map<Id, LiquidityReceipt>, swaps: map<Id, SwapReceipt>)
  datatype Dex = Dex(pools: map<Id, Pool>, positions: map<Id, Position>, log: DexLog)

  // ----- bridge -----

  datatype ConfirmationProof = ConfirmationProof(depth: U64, satisfied: bool)
  datatype CapProof = CapProof(
    approvedLockbox: bool, operatorAcknowledged: bool, noSecrets: bool,
    maxDeposit: U64, totalCap: U64, supportedTokens: seq<string>)
  datatype AssetMapping = AssetMapping(
    chain: string, sourceToken: string, asset: Id, at: nat, localOnly: bool, productionReady: bool)
  datatype AccountMapping = AccountMapping(
    recipient: string, account: Id, owner: string, at: nat, localOnly: bool, productionReady: bool)
  datatype BridgeCredit = BridgeCredit(
    receipt: Id, account: Id, owner: string, recipient: string, asset: Id, sourceToken: string,
    amount: U64, event: EventRef, observation: string, replay: Id, memo: string, at: nat,
    localOnly: bool, productionReady: bool,
    confirmation: Option<ConfirmationProof>, cap: Option<CapProof>)
  datatype CreditReceipt = CreditReceipt(
    credit: Id, account: Id, asset: Id, amount: U64, event: EventRef, replay: Id, at: nat,
    localOnly: bool, productionReady: bool,
    confirmation: Option<ConfirmationProof>, cap: Option<CapProof>)
  datatype ReplayRecord = ReplayRecord(credit: Id, receipt: Id, event: EventRef, at: nat)

  datatype Mappings = Mappings(assets: map<Id, AssetMapping>, accounts: map<Id, AccountMapping>)
  datatype Credits = Credits(credits: map<Id, BridgeCredit>, receipts: map<Id, CreditReceipt>)
  datatype Indexes = Indexes(replays: map<Id, ReplayRecord>, events: map<Id, Id>)
  datatype Bridge = Bridge(mappings: Mappings, credited: Credits, used: Indexes)

  /** Everything that holds or moves units. */
  datatype Ledger = Ledger(book: Book, dex: Dex, bridge: Bridge)

  // ----- outcomes -----

  datatype Error =
    | IdMismatch(kind: IdKind, actual: Id)
    | BalanceAlreadyExists(id: Id) | BalanceMissing(id: Id) | BalanceOverflow(id: Id) | BalanceInsufficient(id: Id)
    | FaucetRecordAlreadyExists(id: Id) | FaucetAmountMustBePositive(id: Id)
    | TransferAlreadyExists(id: Id)
    | TokenAlreadyExists(id: Id) | TokenSymbolAlreadyExists(symbol: string) | TokenMissing(id: Id)
    | TokenAmountMustBePositive(id: Id) | TokenBalanceOverflow(id: Id) | TokenBalanceInsufficient(id: Id)
    | MintAlreadyExists(id: Id)
    | PoolAlreadyExists(id: Id) | PoolMissing(id: Id) | PoolInvalidAsset(id: Id)
    | PoolReserveInsufficient(id: Id) | PoolReserveOverflow(id: Id)
    | LiquidityAlreadyExists(id: Id) | LiquidityBelowMinimum(id: Id)
    | PositionMissing(id: Id) | PositionInsufficient(id: Id)
    | SwapAlreadyExists(id: Id) | SwapSlippageExceeded(id: Id)
    | AssetMappingAlreadyExists(id: Id) | AssetMappingMissing(id: Id)
    | AccountMappingAlreadyExists(id: Id) | AccountMappingMissing(id: Id)
    | CreditAlreadyExists(id: Id) | CreditAmountMustBePositive(id: Id)
    | ReplayAlreadyConsumed(id: Id) | EventAlreadyConsumed(id: Id)
    | InvalidRuntimeMode(id: Id) | WrongSourceChain(chain: string)
    | MissingConfirmation(id: Id) | ConfirmationUnsatisfied(id: Id) | MissingCapProof(id: Id)
    | UnsupportedAsset(id: Id) | UnsupportedSourceToken(sourceToken: string) | ExceedsCap(id: Id)
    | RootfieldAlreadyExists(id: Id) | RootfieldMissing(id: Id) | RootfieldInactive(id: Id)
    | AgentAlreadyExists(id: Id) | AgentMissing(id: Id) | AgentInactive(id: Id)
    | PassportAlreadyExists(id: Id) | PassportMissing(id: Id)
    | MemoryOwnershipMismatch(id: Id)
    | ArtifactAlreadyExists(id: Id) | ArtifactMissing(id: Id) | CommitmentMissing(commitment: string)
    | ArtifactRootfieldMismatch(id: Id) | AvailabilityAlreadyExists(id: Id)
    | WorkReceiptAlreadyExists(id: Id) | WorkReceiptMissing(id: Id) | WorkReceiptRootfieldMismatch(id: Id)
    | WorkReceiptNotAccepted(id: Id) | WorkReceiptFailed(id: Id) | WorkReceiptAlreadyFinalized(id: Id)
    | InvalidFinalityStatus(status: string)
    | ReportAlreadyExists(id: Id)
    | ModuleAlreadyExists(id: Id) | ModuleMissing(id: Id) | ModuleInactive(id: Id)
    | FinalityAlreadyExists(id: Id)
    | ChallengeAlreadyExists(id: Id) | ChallengeMissing(id: Id) | ChallengeAlreadyResolved(id: Id)
    | ChallengeUnresolved(id: Id)
    | ObservationAlreadyExists(id: Id) | ImportedReportAlreadyExists(id: Id)
    | AnchorAlreadyExists | InvalidEventSignature(signature: string)

  datatype Outcome = Applied | Rejected(error: Error)

  /** A new state together with the outcome; a rejection may still have changed the state. */
  datatype Step<+S> = Step(state: S, outcome: Outcome)

  function Done<S>(s: S): Step<S> {
    Step(s, Applied)
  }

  function Refuse<S>(s: S, e: Error): Step<S> {
    Step(s, Rejected(e))
  }

  // ----- transactions -----

  datatype Tx =
    | RegisterRootfield(rootfield: Id, body: string)
    | RegisterAgent(agent: Id, passportOf: Option<Id>, body: string)
    | CreateBalance(account: Id, owner: string)
    | Faucet(record: Id, account: Id, recipient: string, amount: U64, reason: string)
    | Transfer(transfer: Id, source: Id, target: Id, amount: U64, memo: string)
    | LaunchToken(token: Id, symbol: string, name: string, decimals: nat, account: Id, amount: U64)
    | MintToken(mint: Id, token: Id, account: Id, amount: U64, reason: string)
    | CreatePool(pool: Id, base: Id, quote: Id, account: Id)
    | AddLiquidity(liquidity: Id, pool: Id, account: Id, baseAmount: U64, quoteAmount: U64, minLp: U64)
    | RemoveLiquidity(liquidity: Id, pool: Id, account: Id, lp: U64, minBase: U64, minQuote: U64)
    | SwapExactIn(swap: Id, pool: Id, account: Id, assetIn: Id, amount: U64, minOut: U64)
    | MapBridgeAsset(mapping: Id, chain: string, sourceToken: string, asset: Id,
                     localOnly: bool, productionReady: bool)
    | MapBridgeAccount(mapping: Id, recipient: string, account: Id, owner: string,
                       localOnly: bool, productionReady: bool)
    | CreditBridge(credit: Id, receipt: Id, account: Id, recipient: string, asset: Id,
                   sourceToken: string, amount: U64, event: EventRef, observation: string,
                   replay: Id, memo: string, localOnly: bool, productionReady: bool,
                   confirmation: Option<ConfirmationProof>, cap: Option<CapProof>)
    | RegisterPassport(passport: Id, body: string)
    | CommitRoot(rootfield: Id, root: string)
    | SubmitArtifact(artifact: Id, rootfield: Id, commitment: string, body: string)
    | MarkAvailability(proof: Id, artifact: Id, rootfield: Id, body: string)
    | SubmitWork(receipt: Id, rootfield: Id, commitment: string, body: string)
    | SubmitReport(report: Id, rootfield: Id, receipt: Id, verifier: Id, status: string, body: string)
    | RegisterModule(verifier: Id, body: string)
    | UpdateMemory(cell: Id, agent: Id, rootfield: Id, receipt: Id, root: string, body: string)
    | OpenChallenge(challenge: Id, receipt: Id, body: string)
    | ResolveChallenge(challenge: Id, resolution: string)
    | FinalizeWork(finality: Id, receipt: Id, finalizer: string, status: string)
    | AnchorBatch(chainId: string, status: string)
    | ImportObservation(observationId: Id, signature: string, body: string)
    | ImportReport(report: Id, body: string)
}
