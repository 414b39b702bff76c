/**
 * Identifiers of ledger objects. An identifier is either a name chosen by the sender or the hash of
 * a tagged record; a hash is idealised as a free constructor over the record's fields, so equal
 * hashes mean equal fields.
 */
module Ids {
  import opened Prelude
  import opened Text

  datatype Action = Add | Remove

  /** A source chain id as hashed into bridge keys: a number when it parses as one. */
  datatype ChainRef = NumberedChain(number: nat) | TextChain(text: string)

  /** Where a bridge deposit was observed. */
  datatype EventRef = EventRef(
    chain: string, contract: string, txHash: string, logIndex: U64, deposit: string)

  /** `LocalUnit` is the name reserved for the unit asset, `Named` any other name. */
  datatype Id =
    | LocalUnit
    | Named(text: string)
    | TokenId(symbol: string)
    | TokenBalanceId(token: Id, account: Id)
    | MintId(token: Id, account: Id, amount: nat, reason: string)
    | PoolId(base: Id, quote: Id)
    | LpPositionId(pool: Id, account: Id)
    | LiquidityId(pool: Id, account: Id, action: Action, first: nat, second: nat, third: nat)
    | SwapId(pool: Id, account: Id, asset: Id, amount: nat, minimum: nat)
    | AssetMappingId(chain: string, sourceToken: string, asset: Id)
    | AccountMappingId(recipient: string, account: Id)
    | EventKey(chain: string, contract: string, txHash: string, logIndex: nat)
    | ReplayKey(chainRef: ChainRef, contract: string, txHash: string, logIndex: nat, deposit: string)
    | SourceEventReplayKey(number: nat, lockbox: seq<Byte>, txBytes: seq<Byte>, logIndex: nat)
    | CreditId(observation: string, deposit: string, replay: Id, chainRef: ChainRef,
               contract: string, txHash: string, logIndex: nat)
    | AmountCreditId(observationBytes: seq<Byte>, recipientBytes: seq<Byte>, number: nat, amount: nat)

  const LOCAL_CHAIN_ID: nat := 31337

  /** The kinds of id the runtime recomputes and compares. */
  datatype IdKind =
    | TokenKind | MintKind | PoolKind | AddKind | RemoveKind | SwapKind
    | AssetMappingKind | AccountMappingKind | ReplayKind | CreditKind | CreditReceiptKind

  function ChainRefOf(chain: string): ChainRef {
    match ParseUint(chain, MAX_U64)
    case Some(n) => NumberedChain(n)
    case None => TextChain(chain)
  }

  function EventKeyOf(e: EventRef): Id {
    EventKey(e.chain, e.contract, e.txHash, e.logIndex)
  }

  /** Bytes of a `0x`-prefixed hex string of exactly `length` bytes. */
  function HexWordBytes(value: string, length: nat): Option<seq<Byte>> {
    if "0x" <= value || "0X" <= value then
      match HexDecode(value[2..])
      case Some(bytes) => if |bytes| == length then Some(bytes) else None
      case None => None
    else None
  }

  /** The replay keys a credit for event `e` may carry. */
  function ReplayKeys(e: EventRef): set<Id> {
    {ReplayKey(ChainRefOf(e.chain), Lower(e.contract), Lower(e.txHash), e.logIndex, Lower(e.deposit))} +
    match (ParseUint(e.chain, MAX_U128), HexWordBytes(e.contract, 20), HexWordBytes(e.txHash, 32))
    case (Some(n), Some(lockbox), Some(tx)) => {SourceEventReplayKey(n, lockbox, tx, e.logIndex)}
    case _ => {}
  }

  /** The credit ids a credit may carry once its replay key is fixed. */
  function CreditIds(e: EventRef, observation: string, replay: Id, recipient: string, amount: U64): set<Id> {
    {CreditId(Lower(observation), Lower(e.deposit), replay, ChainRefOf(e.chain),
              Lower(e.contract), Lower(e.txHash), e.logIndex)} +
    match (HexWordBytes(observation, 32), HexWordBytes(recipient, 32))
    case (Some(o), Some(r)) => {AmountCreditId(o, r, LOCAL_CHAIN_ID, amount)}
    case _ => {}
  }
}
