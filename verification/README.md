# FlowMemory local runtime: a verified model

This project models the FlowMemory local runtime and the commitments around it, and proves what they
promise over whole runs.

* **The ledger.** A chain state is changed by 28 kinds of transaction: unit accounts and tokens, a
  constant-product exchange, a bridge-credit path, and the life of work receipts, reports, challenges and
  finality. Every transaction gives an outcome, applied or rejected, and a new state. A rejected
  transaction keeps whatever it had written before the failing check, as the runtime does.
* **Peers and handoffs.** A node adopts the best chain among its peers. A bridge handoff is expanded into
  transactions that the ledger then runs.
* **Commitments.** Artifact manifests, their Merkle root, and the word encoding under the hashes.

`ChainState.dfy` holds the state as the runtime keeps it, a class whose maps are reassigned in place; each
of its methods is proved equal to a function on values. The functions are in `Accounts`, `Exchange`,
`BridgePath`, `WorkLifecycle` and `Machine`; everything else is proved about them. `BookFacts`, `DexFacts`
and `BridgeFacts` say what one operation does to a sound ledger, `LedgerInvariant` puts them together, and
the remaining modules hold one theorem family each. The `Decisions` modules say exactly when each kind of
transaction applies, without naming the checks it runs.

Amounts are naturals below 2^64 with every check written out. A hash is a free constructor over what is
hashed, so equal hashes mean equal contents. `Run` applies any list of transactions, each in any block.

Four properties one might expect are false of the runtime. Each has a lemma that shows the failure and one
that says exactly when the property holds:

* A rejection changes nothing: `Rejection.RefusedFaucetStillPays`, `Rejection.RejectionLeavesTraceIff`.
* An LP supply is the sum of its positions: `StrandedRun.SupplyCanExceedPositions`, `Shares.SupplyIsSumOfPositions`.
* Equal Merkle roots mean equal lists: `Merkle.RawListsCanCollide`, `Merkle.RootBindsAtEqualLength`.
* Both encoders read the same hex words: `Encoding.ZeroAddressDiffers`, `Encoding.HexWordsAgree`.

## Model

| member | source | states |
|---|---|---|
| ChainStates.ChainState.constructor | crates/flowmemory-local-runtime/src/model.rs:1153-1197 | a new state is the genesis chain: nothing recorded, block 1 next |
| ChainStates.ChainState.DebitAssetUnits | crates/flowmemory-local-runtime/src/model.rs:3260-3285 | takes the units from the account or refuses and changes nothing |
| ChainStates.ChainState.CreditAssetUnits | crates/flowmemory-local-runtime/src/model.rs:3287-3328 | adds the units; refuses zero, a missing unit account, an unknown token and overflow |
| ChainStates.ChainState.CreateBalance | crates/flowmemory-local-runtime/src/model.rs:1776-1794 | opens an empty account once |
| ChainStates.ChainState.Faucet | crates/flowmemory-local-runtime/src/model.rs:1795-1838 | pays and records; pays without recording when only the lifetime counter overflows |
| ChainStates.ChainState.Transfer | crates/flowmemory-local-runtime/src/model.rs:1839-1926 | moves units between accounts, including to itself, with every refusal in order |
| ChainStates.ChainState.LaunchToken | crates/flowmemory-local-runtime/src/model.rs:1927-2000 | defines a token under a fresh symbol and pays its initial supply with a mint receipt |
| ChainStates.ChainState.MintToken | crates/flowmemory-local-runtime/src/model.rs:2001-2049 | pays more of a token and raises its supply by the same amount |
| ChainStates.ChainState.CreatePool | crates/flowmemory-local-runtime/src/model.rs:2050-2090 | opens an empty pool for two distinct existing assets |
| ChainStates.ChainState.QuoteDeposit | crates/flowmemory-local-runtime/src/model.rs:2099-2139 | the checks of a deposit and the LP units it would mint |
| ChainStates.ChainState.AddLiquidity | crates/flowmemory-local-runtime/src/model.rs:2091-2219 | debits, then reserves, then position, then receipt; each late refusal keeps what is written |
| ChainStates.ChainState.QuoteWithdrawal | crates/flowmemory-local-runtime/src/model.rs:2228-2278 | the checks of a withdrawal and the two amounts it would pay |
| ChainStates.ChainState.RemoveLiquidity | crates/flowmemory-local-runtime/src/model.rs:2220-2346 | position, then pool, then the two credits, then receipt; each late refusal keeps what is written |
| ChainStates.ChainState.QuoteSwap | crates/flowmemory-local-runtime/src/model.rs:2355-2405 | the checks of a swap, what it pays and the reserves it leaves |
| ChainStates.ChainState.SwapExactIn | crates/flowmemory-local-runtime/src/model.rs:2347-2437 | debit, then credit, then pool and receipt; a refused credit keeps the debit |
| ChainStates.ChainState.MapAsset | crates/flowmemory-local-runtime/src/model.rs:2438-2476 | records an asset mapping once, under its own id |
| ChainStates.ChainState.MapAccount | crates/flowmemory-local-runtime/src/model.rs:2477-2508 | records an account mapping once, under its own id |
| ChainStates.ChainState.QuoteCredit | crates/flowmemory-local-runtime/src/model.rs:2530-2641 | the checks of a bridge credit: form, nothing consumed before, mapped in the same mode |
| ChainStates.ChainState.CreditBridge | crates/flowmemory-local-runtime/src/model.rs:2509-2715 | pays the credit and fills all four indexes, or changes nothing |
| ChainStates.ChainState.Register | crates/flowmemory-local-runtime/src/model.rs:1727-1775 | registers rootfields, agents, passports and modules once, and commits roots to active rootfields |
| ChainStates.ChainState.SubmitArtifact | crates/flowmemory-local-runtime/src/model.rs:2757-2812 | records artifacts and their availability in their own active rootfield |
| ChainStates.ChainState.SubmitWork | crates/flowmemory-local-runtime/src/model.rs:2813-2844 | records work only on a known artifact commitment |
| ChainStates.ChainState.SubmitReport | crates/flowmemory-local-runtime/src/model.rs:2845-2880 | records a report by an active verifier on existing work |
| ChainStates.ChainState.UpdateMemory | crates/flowmemory-local-runtime/src/model.rs:2905-2952 | updates a cell of its own agent on accepted work and remembers the root it replaced |
| ChainStates.ChainState.OpenOrResolve | crates/flowmemory-local-runtime/src/model.rs:2953-3003 | opens a challenge on work not yet final; resolves an open one once |
| ChainStates.ChainState.FinalizeWork | crates/flowmemory-local-runtime/src/model.rs:3004-3051 | finalizes accepted, unchallenged work once, with its challenge count and the state root |
| ChainStates.ChainState.AnchorBatch | crates/flowmemory-local-runtime/src/model.rs:3052-3061 | records an anchor of the current state and block range |
| ChainStates.ChainState.Import | crates/flowmemory-local-runtime/src/model.rs:3062-3092 | imports observations with the right topic, and reports, once each |
| ChainStates.ChainState.ApplyTransaction | crates/flowmemory-local-runtime/src/model.rs:1725-3095 | dispatches every kind, equal to the step function of the whole committed state |
| ChainStates.ChainState.QueueTransaction | crates/flowmemory-local-runtime/src/model.rs:1208-1229 | appends the transaction to the queue under its own id |
| ChainStates.ChainState.BuildBlock | crates/flowmemory-local-runtime/src/model.rs:1678-1723 | drains the queue in order, whatever the outcomes, and links one sealed block |
| ChainStates.ChainState.BuildBlocks | crates/flowmemory-local-runtime/src/cli.rs:548-560 | refuses zero, else appends exactly that many blocks and returns them in order |
| LedgerInvariant.RunKeepsLedgerOk | crates/flowmemory-local-runtime/src/model.rs:1725-3095 | every run keeps the ledger sound: accounts, tokens, pools, positions and bridge indexes agree |
| PoolMath.DepositBacks | crates/flowmemory-local-runtime/src/model.rs:3335-3356 | a deposit never lowers the base or quote behind an LP unit |
| PoolMath.DepositIsMaximal | crates/flowmemory-local-runtime/src/model.rs:3335-3356 | a deposit mints as many LP units as both amounts pay for |
| PoolMath.WithdrawalBounds | crates/flowmemory-local-runtime/src/model.rs:3358-3372 | a withdrawal pays at most its exact share, and the whole reserve for the last units |
| PoolMath.WithdrawalIsMaximal | crates/flowmemory-local-runtime/src/model.rs:3358-3372 | a withdrawal pays the largest amount within its exact share |
| PoolMath.WithdrawalHealthy | crates/flowmemory-local-runtime/src/model.rs:2263-2311 | a withdrawal never lowers what is behind the units that stay |
| PoolMath.SwapBounds | crates/flowmemory-local-runtime/src/model.rs:3392-3409 | a swap pays strictly less than the output reserve and keeps the product |
| PoolMath.SwapIsMaximal | crates/flowmemory-local-runtime/src/model.rs:3392-3409 | a swap pays the largest output that keeps the product |
| PoolMath.SwapBackNeverGains | crates/flowmemory-local-runtime/src/model.rs:3392-3409 | swapping the output back never returns more than was put in |
| PoolHistory.ProductNeverFalls | crates/flowmemory-local-runtime/src/model.rs:2091-2437 | over any run with a live pool, reserve product per squared LP unit never falls |
| PoolHistory.NoRunDrainsReserves | crates/flowmemory-local-runtime/src/model.rs:2347-2437 | no run with the LP supply back where it was lowers one reserve without raising the other |
| PoolHistory.PoolsHealthyFromGenesis | crates/flowmemory-local-runtime/src/model.rs:2091-2437 | in every reachable state LP squared is at most the product, and LP is zero exactly when both reserves are |
| PoolHistory.QuotesStayInRange | crates/flowmemory-local-runtime/src/model.rs:3330-3409 | on a sound ledger no product, narrowing or subtraction of the pool arithmetic fails |
| DexFacts.DepositFits | crates/flowmemory-local-runtime/src/model.rs:2156-2190 | once both reserves fit, the LP supply and the position's LP units fit |
| Conservation.ConservationLaw | crates/flowmemory-local-runtime/src/model.rs:1795-2437 | applied non-issuing transactions keep every asset's total, rejected ones never raise it, issuing ones add what they state |
| Conservation.StepConserves | crates/flowmemory-local-runtime/src/model.rs:1795-2715 | every transaction, applied or rejected, accounts exactly for what it issues and loses |
| Conservation.RunConserves | crates/flowmemory-local-runtime/src/model.rs:1678-1723 | over any run, what exists and what was lost make up what existed and what was issued |
| Conservation.TokensBackedFromGenesis | crates/flowmemory-local-runtime/src/model.rs:1927-2049 | in every reachable state a token's units never exceed its supply plus bridge credits in it |
| Rejection.RejectionLeavesTraceIff | crates/flowmemory-local-runtime/src/model.rs:1686-1697 | a rejected transaction changes the state exactly in the listed overflow and zero-payment cases |
| Rejection.RefusedFaucetStillPays | crates/flowmemory-local-runtime/src/model.rs:1816-1823 | a concrete refused faucet payment that the account keeps |
| CleanRuns.RoomMeansNoTrace | crates/flowmemory-local-runtime/src/model.rs:2143-2198 | with totals and counters within 64 bits and minimums of at least 1, no rejection leaves a trace |
| CleanRuns.CountersFitAlong | crates/flowmemory-local-runtime/src/model.rs:2160-2296 | what is stated to go into the pools bounds every deposit and withdrawal counter along the run |
| CleanRuns.GenesisRunsRejectCleanly | crates/flowmemory-local-runtime/src/model.rs:1678-1723 | from genesis, when stated issuance per asset and stated inflow per pool fit 64 bits and withdrawals ask for something, every rejection is clean |
| Shares.StrayStep | crates/flowmemory-local-runtime/src/model.rs:2280-2311 | LP units outside positions change exactly by what a withdrawal with an overflowing counter strands |
| StrandedRun.SupplyCanExceedPositions | crates/flowmemory-local-runtime/src/model.rs:2091-2346 | a concrete run from genesis after which a pool has two LP units that belong to no position |
| Shares.StrayRun | crates/flowmemory-local-runtime/src/model.rs:2280-2311 | over any run the LP units outside positions grow by exactly what the run strands |
| Shares.SupplyIsSumOfPositions | crates/flowmemory-local-runtime/src/model.rs:2160-2311 | LP supply and positions end in step if and only if the run strands nothing |
| Shares.CachedTotalsFromGenesis | crates/flowmemory-local-runtime/src/model.rs:1816-2311 | in every reachable state supplies and lifetime totals agree with the records, and LP supplies exceed positions by exactly what was stranded |
| RoundTrips.AddEffect | crates/flowmemory-local-runtime/src/model.rs:2091-2219 | an applied deposit moves exactly the stated amounts, and no other holding |
| RoundTrips.RemoveEffect | crates/flowmemory-local-runtime/src/model.rs:2220-2346 | an applied withdrawal pays exactly the quoted amounts, and no other holding moves |
| RoundTrips.SwapEffect | crates/flowmemory-local-runtime/src/model.rs:2347-2437 | an applied swap moves the input in and the constant-product output out, and nothing else |
| RoundTrips.AddThenRemove | crates/flowmemory-local-runtime/src/model.rs:2091-2346 | depositing and withdrawing the minted units returns no more of either asset |
| RoundTrips.SwapThenBack | crates/flowmemory-local-runtime/src/model.rs:2347-2437 | swapping out and straight back returns no more than was put in |
| RoundTrips.SplittingNeverHelps | crates/flowmemory-local-runtime/src/model.rs:2347-2437 | on the ledger, one swap pays at least as much as any split of it |
| ExchangeDecisions.CreatePoolAppliesIff | crates/flowmemory-local-runtime/src/model.rs:2050-2090 | exactly when a pool opens |
| ExchangeDecisions.SwapAppliesIff | crates/flowmemory-local-runtime/src/model.rs:2347-2437 | exactly when a swap applies: either asset, live reserves, enough output, input held, output fits |
| ExchangeDecisions.AddAppliesIff | crates/flowmemory-local-runtime/src/model.rs:2091-2219 | exactly when a deposit applies: enough LP units minted, both amounts held, reserves and counters take it |
| ExchangeDecisions.RemoveAppliesIff | crates/flowmemory-local-runtime/src/model.rs:2220-2346 | exactly when a withdrawal applies: LP units held, shares reach their minimums and are not zero, counters and balances take them |
| ExchangeDecisions.SwapReceiptTells | crates/flowmemory-local-runtime/src/model.rs:2418-2435 | a swap receipt states what moved and the reserves before and after |
| ExchangeDecisions.AddReceiptTells | crates/flowmemory-local-runtime/src/model.rs:2200-2217 | a deposit adds the minted units to pool and position alike and its receipt states the pool before and after |
| ExchangeDecisions.RemoveReceiptTells | crates/flowmemory-local-runtime/src/model.rs:2327-2344 | a withdrawal takes its units from pool and position alike and its receipt states the pool before and after |
| BookFacts.TransferHoldings | crates/flowmemory-local-runtime/src/model.rs:1839-1926 | an applied transfer moves exactly the amount from source to target |
| BookDecisions.CreateBalanceAppliesIff | crates/flowmemory-local-runtime/src/model.rs:1776-1794 | exactly when an account opens, empty and under its owner |
| BookDecisions.FaucetAppliesIff | crates/flowmemory-local-runtime/src/model.rs:1795-1838 | exactly when a faucet payment applies, and the record it leaves |
| BookDecisions.TransferAppliesIff | crates/flowmemory-local-runtime/src/model.rs:1839-1926 | exactly when a transfer applies, and the record it leaves |
| BookDecisions.LaunchAppliesIff | crates/flowmemory-local-runtime/src/model.rs:1927-2000 | exactly when a token launches: under the id of its normalized symbol, once |
| BookDecisions.MintAppliesIff | crates/flowmemory-local-runtime/src/model.rs:2001-2049 | exactly when a mint applies |
| ValueMarks.ApplyMarks | crates/flowmemory-local-runtime/src/model.rs:1839-1926 | a balance becomes value bearing exactly by a live credit or by a transfer from a value-bearing source |
| ValueMarks.MarkedForGood | crates/flowmemory-local-runtime/src/model.rs:3190-3201 | a value-bearing balance stays so over any run |
| ValueMarks.NoValueWithoutLiveCredit | crates/flowmemory-local-runtime/src/model.rs:2643-2646 | from genesis, without an applied live credit no balance ever bears value |
| BridgeFacts.ConsumeKeepsOk | crates/flowmemory-local-runtime/src/model.rs:2655-2714 | consuming a fresh deposit keeps credits, receipts, replay and event index one to one |
| BridgeFacts.CreditedHoldings | crates/flowmemory-local-runtime/src/model.rs:2643-2653 | the credited account gains exactly the amount and no other holding moves |
| BridgeOnce.CreditedAtMostOnce | crates/flowmemory-local-runtime/src/model.rs:2582-2603 | two applied credits of any run differ in event reference, replay key and credit id |
| BridgeOnce.CreditsAreTheAppliedOnes | crates/flowmemory-local-runtime/src/model.rs:2655-2714 | the credits on record after a run are those before it, unchanged, and those it applied, with their contents |
| BridgeOnce.BridgeFromGenesis | crates/flowmemory-local-runtime/src/model.rs:2509-2715 | in every reachable state the four bridge indexes agree and hold exactly the applied credits, with their contents |
| BridgeDecisions.LiveCheckIff | crates/flowmemory-local-runtime/src/model.rs:3138-3188 | a live credit passes exactly with the right chain, a satisfied confirmation and a cap that covers amount and token |
| BridgeDecisions.BridgeCreditAppliesIff | crates/flowmemory-local-runtime/src/model.rs:2509-2653 | exactly when a bridge credit applies |
| BridgeDecisions.LiveCreditsAreProven | crates/flowmemory-local-runtime/src/model.rs:2571-2580 | in every reachable state each live credit on record carries proofs that cover its amount and token |
| BridgeDecisions.MapAssetAppliesIff | crates/flowmemory-local-runtime/src/model.rs:2438-2476 | exactly when an asset mapping is recorded, and what it says |
| BridgeDecisions.MapAccountAppliesIff | crates/flowmemory-local-runtime/src/model.rs:2477-2508 | exactly when an account mapping is recorded, and what it says |
| BridgeDecisions.EventKeyFixesReference | crates/flowmemory-local-runtime/src/model.rs:1366-1381 | an event key fixes chain, contract, transaction and log index as spelled |
| BridgeDecisions.ReplayKeyFixesEvent | crates/flowmemory-local-runtime/src/model.rs:1383-1440 | a replay key fixes its event up to the case of its hex and the spelling of its chain number |
| Finality.FinalityIsStable | crates/flowmemory-local-runtime/src/model.rs:2953-3051 | over any run work is finalized once, and stays accepted, unchallenged and with its challenge count |
| Finality.FinalityFromGenesis | crates/flowmemory-local-runtime/src/model.rs:2953-3051 | the same between any two reachable states, with finality receipts unchanged |
| WorkDecisions.AcceptanceMeans | crates/flowmemory-local-runtime/src/model.rs:3817-3847 | one failing report vetoes any number of accepting ones; without an accepting one nothing passes |
| WorkDecisions.FinalizeAppliesIff | crates/flowmemory-local-runtime/src/model.rs:3004-3051 | exactly when work is finalized |
| WorkDecisions.FinalityHasCause | crates/flowmemory-local-runtime/src/model.rs:3004-3051 | every finality receipt of a reachable state was added, as it stands, when its work was accepted, not failed and unchallenged |
| WorkDecisions.OpenAppliesIff | crates/flowmemory-local-runtime/src/model.rs:2953-2987 | exactly when a challenge opens, and that it then is open |
| WorkDecisions.ResolveAppliesIff | crates/flowmemory-local-runtime/src/model.rs:2988-3003 | exactly when a challenge is resolved, and that it then is closed |
| WorkDecisions.OpenChallengeHolds | crates/flowmemory-local-runtime/src/model.rs:2953-3051 | until it is resolved an open challenge stays open and every attempt to finalize its work is refused |
| WorkDecisions.MemoryAppliesIff | crates/flowmemory-local-runtime/src/model.rs:2905-2952 | exactly when a memory cell is updated |
| WorkCounts.ApplyCell | crates/flowmemory-local-runtime/src/model.rs:2905-2952 | an applied update adds one to a cell's count, sets its root and remembers the root it replaced; nothing else changes the cell |
| WorkCounts.CellCountsUpdates | crates/flowmemory-local-runtime/src/model.rs:2905-2952 | over any run a cell's count grows by exactly the updates applied to it |
| WorkCounts.RootfieldCountsRoots | crates/flowmemory-local-runtime/src/model.rs:2740-2756 | over any run a rootfield's count grows by exactly the roots committed, with one pulse more than roots |
| WorkDecisions.RegisterAppliesIff | crates/flowmemory-local-runtime/src/model.rs:1727-1775 | exactly when each kind of record registers or a root is committed |
| WorkDecisions.ArtifactAppliesIff | crates/flowmemory-local-runtime/src/model.rs:2757-2812 | exactly when an artifact or its availability is recorded, and with which commitment |
| WorkDecisions.SubmitWorkAppliesIff | crates/flowmemory-local-runtime/src/model.rs:2813-2844 | exactly when a work receipt is recorded, and what it says |
| WorkDecisions.ReportAppliesIff | crates/flowmemory-local-runtime/src/model.rs:2845-2880 | exactly when a verifier report is recorded, and what it says |
| WorkDecisions.ImportAppliesIff | crates/flowmemory-local-runtime/src/model.rs:3062-3092 | exactly when an observation or report is imported |
| ChainShape.ReachableFromGenesis | crates/flowmemory-local-runtime/src/model.rs:1678-1723 | numbers and times are consecutive, parents link, receipts match ids, the last root is the state's, whatever is pending |
| ChainShape.TipBindsChain | crates/flowmemory-local-runtime/src/model.rs:1701-1720 | the tip hash fixes the height, the whole history and the committed state |
| ChainShape.AnchorIsFresh | crates/flowmemory-local-runtime/src/model.rs:3411-3515 | a new anchor's id is never taken, so anchoring always applies |
| ChainShape.AnchorCovers | crates/flowmemory-local-runtime/src/model.rs:3411-3425 | an anchor covers exactly the blocks sealed so far and the state it was taken in |
| ChainShape.AnchorsFromGenesis | crates/flowmemory-local-runtime/src/model.rs:3052-3061 | every anchor of a reachable chain is filed under its own digest and covers a range of its blocks from the first one on |
| Stamps.BareLedgerStep | crates/flowmemory-local-runtime/src/model.rs:1776-2715 | no ledger decision, amount or record depends on the block a transaction runs in |
| BlockCut.ApplyRefines | crates/flowmemory-local-runtime/src/model.rs:1725-3095 | apart from stamps, recorded roots and anchors, a transaction does what a machine without blocks does |
| BlockCut.CutsDoNotMatter | crates/flowmemory-local-runtime/src/model.rs:1678-1723 | however a list of transactions is cut into blocks, receipts and content are the same |
| PeerSync.BetterIsStrictWeakOrder | crates/flowmemory-local-runtime/src/cli.rs:928-941 | adoption is a strict weak order on height, then state root |
| PeerSync.Node.SyncFromPeers | crates/flowmemory-local-runtime/src/cli.rs:900-926 | one pass over the peers; an unreadable file is an error that keeps earlier adoptions |
| PeerSync.SyncPicksOffered | crates/flowmemory-local-runtime/src/cli.rs:900-926 | the result is the node's own state or a better offered one, reported truthfully |
| PeerSync.SyncPicksBest | crates/flowmemory-local-runtime/src/cli.rs:900-941 | no state offered on the same chain beats the result |
| PeerSync.SyncPicksHighestThenFirst | crates/flowmemory-local-runtime/src/cli.rs:900-941 | no candidate is higher than the result, and past genesis none of its height has a root that sorts before its root; at height 0 the node keeps its state |
| PeerSync.OnePeerAdoptedIff | crates/flowmemory-local-runtime/src/cli.rs:928-941 | exactly when one peer's state is adopted |
| PeerSync.LexLessMeans | crates/flowmemory-local-runtime/src/cli.rs:937-939 | the order of roots is that of the first differing character, a proper prefix first |
| PeerSync.HeightNeverDrops | crates/flowmemory-local-runtime/src/cli.rs:900-941 | the height never drops, also when a file cannot be read |
| PeerSync.OrderDoesNotMatter | crates/flowmemory-local-runtime/src/cli.rs:900-941 | height and root of the result do not depend on the order of the peers |
| PeerSync.OrderDoesNotMatterForState | crates/flowmemory-local-runtime/src/cli.rs:900-941 | past genesis, when different roots among the candidates print differently, the adopted committed state does not depend on the order either |
| PeerSync.SecondSyncAdoptsNothing | crates/flowmemory-local-runtime/src/cli.rs:900-941 | a second pass over the same peers adopts nothing |
| Handoff.Expand | crates/flowmemory-local-runtime/src/cli.rs:1160-1271 | three seen-sets give the expansion of the entries that are not rejected |
| Handoff.OneCreditPerEntry | crates/flowmemory-local-runtime/src/cli.rs:1244-1268 | one credit per entry, in order |
| Handoff.IntroducedOnce | crates/flowmemory-local-runtime/src/cli.rs:1216-1242 | each asset mapping, account mapping and account is introduced at most once |
| Handoff.IntroducedBeforeNeeded | crates/flowmemory-local-runtime/src/cli.rs:1216-1268 | everything a credit needs is introduced before it |
| HandoffRun.HandoffFromGenesis | crates/flowmemory-local-runtime/src/cli.rs:1154-1271 | a sound handoff in one mode, local or live, applies in full and each recipient holds the sum of its credits |
| HandoffRun.ResubmissionChangesNothing | crates/flowmemory-local-runtime/src/model.rs:2582-2603 | whatever ran since, running the same handoff again is refused throughout and changes no committed state |
| Merkle.MerkleRoot | crypto/src/merkle.js:30-47 | the level-by-level loop ends and gives the recursive tree |
| Merkle.PairedKeepsTree | crypto/src/merkle.js:35-45 | pairing neighbours and promoting an odd node keeps the tree |
| Merkle.LeavesOfTree | crypto/src/merkle.js:10-47 | the leaves read off the root are the leaf list |
| Merkle.RootBindsLeaves | crypto/src/merkle.js:10-47 | the root fixes number, order and content of the leaves |
| Merkle.RootBindsAtEqualLength | crypto/src/merkle.js:19-47 | for raw hashes equal roots mean equal lists exactly at equal length |
| Merkle.RawListsCanCollide | crypto/src/merkle.js:19-47 | raw hash lists of different length can share a root |
| Merkle.BuildManifest | crypto/src/merkle.js:49-69 | entries carry index, running offset, length and hash of their chunk |
| Merkle.EntriesDoNotOverlap | crypto/src/merkle.js:49-69 | no byte is covered by two entries |
| Merkle.CoveredByte | crypto/src/merkle.js:49-69 | a covered byte is in the artifact and is the covering chunk's byte |
| Merkle.EntriesCover | crypto/src/merkle.js:49-69 | every byte of the artifact is covered |
| Merkle.SplitIsPower | crypto/src/merkle.js:35-45 | the reference tree splits at a power of two |
| Merkle.ArtifactFromChunks | crypto/src/merkle.js:93-121 | the content root is the tree over the manifest's leaf hashes, and the artifact root commits to manifest, content, sizes, media type and metadata |
| Merkle.ContentRootBindsChunks | crypto/src/merkle.js:93-96 | the content root fixes the chunks |
| Merkle.ArtifactRootBindsArtifact | crypto/src/merkle.js:71-121 | artifact roots are equal exactly when chunks, chunk size, media type and metadata are |
| Encoding.UintBe | crypto/src/encoding.js:63-78 | succeeds exactly for non-negative values that fit, with their big-endian bytes |
| Encoding.UintToWord | crypto/src/encoding.js:46-61 | a 32-byte word exactly for values that fit 256 bits, decoding to the value |
| Encoding.DecodeEncoded | crypto/src/encoding.js:63-78 | big-endian decoding undoes encoding |
| Encoding.EncodeDecoded | crypto/src/encoding.js:63-78 | encoding undoes big-endian decoding |
| Encoding.ConcatBytes | crypto/src/encoding.js:35-44 | filling one buffer at a running offset gives the concatenation |
| Encoding.AbiEncodeStatic | crypto/src/encoding.js:89-103 | refused exactly when a field is, else the concatenated words |
| Encoding.EncodingLength | crypto/src/encoding.js:89-103 | 32 bytes per field |
| Encoding.EncodingBindsMeanings | crypto/src/encoding.js:80-103 | for fixed types equal encodings mean equal decoded values |
| Encoding.HexFieldWord | crypto/src/encoding.js:80-87 | an address or bytes32 is encoded exactly when it has the right number of hex digits, and its word is the number they stand for |
| Encoding.UintWordsAgree | crates/flowmemory-local-runtime/src/model.rs:1468-1472 | both encoders give the same word for every number below 2^128 |
| Encoding.HexWordsAgree | crates/flowmemory-local-runtime/src/model.rs:1478-1489 | both encoders read a hex word alike exactly when it starts with `0x` or neither reads it |
| Encoding.BareWordsDiffer | crypto/src/encoding.js:80-87 | every address or word of bare hex digits is read by the JavaScript side only |
| Encoding.ZeroAddressDiffers | crypto/src/encoding.js:80-83 | the zero address without prefix is one of them |
| Text.NormalizeSymbolIdempotent | crates/flowmemory-local-runtime/src/model.rs:1231-1242 | normalizing a symbol twice is normalizing it once |
| Text.NormalizeSymbolMeans | crates/flowmemory-local-runtime/src/model.rs:1231-1233 | a normalized symbol is the symbol between its outer white space, letter for letter in upper case |
| Text.HexDecodeMeans | crypto/src/encoding.js:12-24 | decoded bytes, read as one number, are the number the digits stand for |
| Text.HexDigitMeans | crypto/src/encoding.js:17-20 | a digit's value is its place among the sixteen digits, in either case |
| Text.DecodePrinted | crypto/src/encoding.js:8-25 | decoding printed bytes gives them back |
| Text.ParsePrinted | crates/flowmemory-local-runtime/src/model.rs:1474-1476 | a printed number parses to itself exactly within the limit |
| Text.LowerMeansSameLetters | crates/flowmemory-local-runtime/src/model.rs:1506-1508 | lower-casing identifies exactly the strings that differ in ASCII case only |

## Left out

- Keccak, signatures, the vault and authorization digests: hashes are free constructors, an authorization is carried as its signer.
- JSON parsing, files, inbox moves, the node loop, status summaries and the demo transaction lists: parsed values and in-memory states are the starting point.
- Operator keys, configuration, chain id and genesis hash inside the state root: constants of a chain.
- ChainStates.ChainState.AnchorBatch: the id covers the state root and the block range; the per-map roots and the previous anchor id in it are functions of that state and add nothing to it.
- Free text no decision reads (uris, metadata hashes, memos of work records) is one `body` field; constant `no_value` flags and error text beyond the named id are dropped.
- Block numbers, logical times and pulse counters are unbounded naturals: their 64-bit wrap-around is not modelled.
- The reserved name of the local test unit is the constructor `LocalUnit`; a missing parent root of a memory cell is `None` instead of the zero hash.
- Letter case of bridge event references: two spellings of one event are two references, as the runtime's own key has it.
- Case folding and trimming cover ASCII case and the Unicode white space characters, not the rest of Unicode.
- Raw JavaScript values: an unsigned field holds the integer its value converts to, and a chunk is its bytes.
- Storage receipts, canonical JSON and the other object hashes in `crypto/src`: field lists over one hash helper; artifact metadata is its canonical text.
- Envelope, pilot and wallet validators, the hardware simulator, the control plane, the dashboard and the scripts.
- HandoffRun.HandoffFromGenesis: all entries share one mode, local or live; handoffs that mix modes are not covered.
