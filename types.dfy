/**
 * Value types of the block-acceptance core: transactions, blocks, the
 * outcome of a push, the node's configuration constants and the external
 * services (cryptography, stores, contract engine, difficulty function),
 * which enter the model as uninterpreted functions.
 */
module Types {

  datatype Option<+T> = None | Some(value: T)

  datatype Result<+T, +E> = Success(value: T) | Failure(error: E)

  /** Seconds a timestamp may run ahead of the local clock (MAX_TIMESTAMP_DIFFERENCE). */
  const MAX_TIMESTAMP_DIFFERENCE: int := 15

  /** The only block version accepted (getBlockVersion). */
  const BLOCK_VERSION: int := 3

  /** Sixty days in seconds: the age limit of a referenced transaction chain. */
  const REFERENCE_WINDOW: int := 60 * 1440 * 60

  /** Hops a reference chain may take before it counts as unresolved. */
  const MAX_REFERENCE_HOPS: nat := 10

  const TWO_63: int := 0x8000_0000_0000_0000
  const TWO_64: int := 0x1_0000_0000_0000_0000

  /** Java `long`. */
  type Int64 = x: int | -TWO_63 <= x < TWO_63

  type Digest = seq<bv8>
  type PeerId = int

  /** Java's two's-complement wrap-around of a `long` result. */
  function Wrap64(x: int): (r: Int64)
    ensures (r - x) % TWO_64 == 0
    ensures -TWO_63 <= x < TWO_63 ==> r == x
  {
    (x + TWO_63) % TWO_64 - TWO_63
  }

  const TWO_31: int := 0x8000_0000
  const TWO_32: int := 0x1_0000_0000

  /** Java's narrowing of a `long` to an `int` (Long.intValue): the low 32 bits, two's complement. */
  function Wrap32(x: int): (r: int)
    ensures -TWO_31 <= r < TWO_31
    ensures (r - x) % TWO_32 == 0
    ensures -TWO_31 <= x < TWO_31 ==> r == x
  {
    (x + TWO_31) % TWO_32 - TWO_31
  }

  /** Convert.safeSubtract: the exact difference, or None where Java throws ArithmeticException. */
  function SafeSubtract(a: Int64, b: Int64): (r: Option<Int64>)
    ensures r.Some? <==> -TWO_63 <= a - b < TWO_63
    ensures r.Some? ==> r.value == a - b
  {
    if -TWO_63 <= a - b < TWO_63 then Some(a - b) else None
  }

  /** The key under which TransactionType.isDuplicate groups a transaction. */
  datatype DedupKey = DedupKey(typeTag: int, key: string)

  datatype Transaction = Transaction(
    id: int,
    amount: Int64,
    fee: Int64,
    timestamp: int,
    expiration: int,
    version: int,
    fullHash: Digest,
    referencedFullHash: Option<Digest>,
    signed: bool,
    dedupKey: Option<DedupKey>,
    size: nat)

  datatype Block = Block(
    id: int,
    version: int,
    timestamp: int,
    previousBlockId: int,
    previousBlockHash: Digest,
    totalAmount: Int64,
    totalFee: Int64,
    payloadLength: nat,
    payloadHash: Digest,
    generatorKey: seq<bv8>,
    generationSignature: Digest,
    transactions: seq<Transaction>,
    atBytes: Option<seq<bv8>>,
    height: int,
    cumulativeDifficulty: int,
    verified: bool,
    peer: Option<PeerId>)

  /** The closed set of ways pushBlock refuses a block. */
  datatype Rejection =
    | OutOfOrder                    // BlockOutOfOrderException
    | NotAccepted                   // BlockNotAcceptedException
    | TxNotAccepted(tx: Transaction) // TransactionNotAcceptedException
    | Overflow                      // ArithmeticException from Convert.safeSubtract

  /** What transactionService.validate reports. */
  datatype Validity = Valid | NotCurrentlyValid | Invalid

  /** Totals an automated-transaction block contributes. */
  datatype AtTotals = AtTotals(amount: Int64, fees: Int64)

  /** AT_Controller.getCurrentBlockATs: the bytes (possibly null) and their totals. */
  datatype AtBlock = AtBlock(bytes: Option<seq<bv8>>, amount: Int64, fees: Int64)

  /** Values from Constants and the node's properties. */
  datatype Config = Config(
    genesisId: int,
    maxRollback: nat,
    maxTransactions: nat,
    maxPayloadLength: nat,
    referencedFullHashBlock: int,
    automatedTransactionBlock: int,
    trimDerivedTables: bool)

  /**
   * The external services, taken as given functions. A service that reads
   * ledger state (accounts, ATs, subscriptions, economic clustering) takes
   * the chain whose blocks produced that state as its first argument.
   */
  datatype Env = Env(
    blockHash: Block -> Digest,                        // sha256 of a block's bytes
    payloadDigest: seq<Transaction> -> Digest,         // sequential sha256 of transaction bytes
    verifyGenerationSignature: Block -> bool,
    verifyBlockSignature: Block -> bool,
    preVerify: Block -> bool,
    transactionVersion: int -> int,                    // version required after a height
    verifyPublicKey: (seq<Block>, Transaction) -> bool,
    verifyFork: (seq<Block>, Transaction) -> bool,     // economic clustering
    validate: (seq<Block>, Transaction) -> Validity,
    fullHashToId: Digest -> int,
    applyUnconfirmed: (seq<Block>, seq<Transaction>, Transaction) -> bool, // given the ones applied before
    validateATs: (seq<Block>, Option<seq<bv8>>, int) -> Option<AtTotals>, // None: AT_Exception
    subscriptionsEnabled: bool,
    subscriptionFee: (seq<Block>, int) -> Int64,       // subscriptionService.applyUnconfirmed
    subscriptionCalculateFees: (seq<Block>, int) -> Int64, // subscriptionService.calculateFees
    currentBlockATs: (seq<Block>, int, int) -> AtBlock, // byte budget, height
    generationSignature: Block -> Digest,              // from the previous block
    signedId: Block -> int,                            // id of the block once signed
    sortTransactions: seq<Transaction> -> seq<Transaction>, // Transaction's natural order
    difficultyIncrement: (Block, Block) -> nat)        // base-target weight given the predecessor

  /** A block with its linkage fields cleared: what a block is before setPrevious. */
  function Unlinked(b: Block): Block {
    b.(height := 0, cumulativeDifficulty := 0)
  }

  /**
   * setPrevious / calculateBaseTarget: the block's height and cumulative
   * difficulty, computed from its predecessor.
   */
  function Link(env: Env, b: Block, prev: Block): (r: Block)
    ensures Unlinked(r) == Unlinked(b)
    ensures r.height == prev.height + 1
    ensures r.cumulativeDifficulty >= prev.cumulativeDifficulty
  {
    b.(height := prev.height + 1,
       cumulativeDifficulty := prev.cumulativeDifficulty + env.difficultyIncrement(Unlinked(b), prev))
  }

  /** Linking is idempotent: a block linked to a predecessor stays as it is when linked again. */
  lemma LinkIdempotent(env: Env, b: Block, prev: Block)
    ensures Link(env, Link(env, b, prev), prev) == Link(env, b, prev)
  {
  }

  function Last<T>(s: seq<T>): T
    requires |s| > 0
  {
    s[|s| - 1]
  }

  /** The predecessor of `bs[i]` in a run of blocks that follows `prev`. */
  function PredecessorIn(prev: Block, bs: seq<Block>, i: nat): Block
    requires i < |bs|
  {
    if i == 0 then prev else bs[i - 1]
  }

  /** `b` names `prev` as its predecessor and carries the linkage computed from it. */
  predicate LinkedTo(env: Env, b: Block, prev: Block) {
    b.previousBlockId == prev.id && b == Link(env, b, prev)
  }

  /** Each block of `bs` is linked to the one before it, the first to `prev`. */
  ghost predicate ChainedFrom(env: Env, prev: Block, bs: seq<Block>) {
    forall i {:trigger PredecessorIn(prev, bs, i)} :: 0 <= i < |bs| ==> LinkedTo(env, bs[i], PredecessorIn(prev, bs, i))
  }

  ghost predicate DistinctIds(c: seq<Block>) {
    forall i, j :: 0 <= i < j < |c| ==> c[i].id != c[j].id
  }

  /** The durable chain: genesis first at height 0, every later block linked to the one before. */
  ghost predicate ValidChain(env: Env, cfg: Config, c: seq<Block>) {
    && |c| >= 1
    && c[0].id == cfg.genesisId
    && c[0].height == 0
    && ChainedFrom(env, c[0], c[1..])
    && DistinctIds(c)
  }

  function BlockIds(c: seq<Block>): set<int> {
    set i | 0 <= i < |c| :: c[i].id
  }

  /** Ids of every transaction stored with the chain (transactionDb.hasTransaction). */
  function TxIds(c: seq<Block>): set<int> {
    set i, j | 0 <= i < |c| && 0 <= j < |c[i].transactions| :: c[i].transactions[j].id
  }

  /** Every transaction stored with the chain, by full hash (findTransactionByFullHash). */
  function TxIndex(c: seq<Block>): map<Digest, Transaction>
    decreases |c|
  {
    if c == [] then map[] else TxIndex(c[..|c| - 1]) + IndexTransactions(Last(c).transactions)
  }

  function IndexTransactions(ts: seq<Transaction>): map<Digest, Transaction>
    decreases |ts|
  {
    if ts == [] then map[] else IndexTransactions(ts[..|ts| - 1])[Last(ts).fullHash := Last(ts)]
  }

  /** The transactions of a list of blocks, block by block. */
  function AllTransactions(bs: seq<Block>): seq<Transaction>
    decreases |bs|
  {
    if bs == [] then [] else bs[0].transactions + AllTransactions(bs[1..])
  }
}
