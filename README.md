# Block processing of a Burst node, modelled in Dafny

This project models the sequential decision logic of `BlockchainProcessorImpl`,
the component of a Burst node that accepts blocks onto the chain, rolls the
chain back, switches to a better fork, builds new blocks and synchronises with
peers. It also proves properties of that model.

- **The chain.** The durable chain is a sequence of blocks, genesis first and
  the tip last. The download cache is a second sequence: the blocks staged
  after the tip.
- **The processor.** The class `Processor.BlockchainProcessor` holds the
  chain, the cache, the trim height, the blacklisted peers, the unconfirmed
  pool, the transactions queued for re-admission (`processLater`), the block
  importer's last id and the last feeder. Its methods are the processor's
  operations, each run to completion.
- **Services.** Everything the processor calls but does not decide, such as
  hashes, signatures, stores, the automated-transaction (AT) controller,
  subscriptions, economic clustering and the difficulty function, is a given
  function in `Types.Env`. A service that reads ledger state takes the chain
  that produced that state as its first argument.
- **Constants.** The values from `Constants` and the node's properties are
  fields of `Types.Config`. The exception is the values the code spells out
  itself: version 3, the 15-second slack, the 60-day reference window, ten
  reference hops, 20 milestone ids and 1440 next blocks.
- **Java arithmetic.** A Java `long` sum wraps around (`Types.Wrap64`), and
  narrowing to `int` keeps the low 32 bits (`Types.Wrap32`).
  `Convert.safeSubtract` becomes an `Option`: its `ArithmeticException` is the
  rejection `Overflow`. `Overflow` is kept apart from the three
  `BlockNotAcceptedException` kinds, because only `pushBlock`'s own handler
  catches it. In the importer it is caught only by the thread's catch-all
  handler, which ends the run; the next run starts again from the tip. It
  escapes `processFork` and `generateBlock`.

The modules follow the source's parts:

- `Types`: values, services and linking.
- `References`: `hasAllReferencedTransactions`.
- `Validation`: the checks of `pushBlock` and `accept`, as functions.
- `Rollback`: `getMinRollbackHeight`, the trim listener and the order of detached blocks.
- `Packing`: the selection loop of `generateBlock`.
- `Generation`: the block `generateBlock` builds.
- `Sync`: the ancestor search and the download loop.
- `Processor`: the stateful object.

The loops the source writes as loops are methods with loop invariants. Each is
proved against a recursive function, or against a predicate that states its
whole outcome as a relation between the state before and after (a
`Processor.Snapshot` of the chain, the cache, the trim height, the
blacklist, the queue and the importer's last id). The properties are lemmas
about those functions and predicates.

Three behaviours of the code that a reader might not expect. The model
follows the code in each:

- **A bad fork is replayed over.** When a pushed fork ends below the former
  cumulative difficulty (667-674), the code pops it off, sets
  `pushedForkBlocks` to 0 and so falls into the restore branch (677). The
  node's own blocks are therefore pushed back, rather than the node being
  left at the fork block. `Processor.BlockchainProcessor.SettleFork` and
  `Settled` state this.
- **Equal difficulty keeps a fork.** A downloaded fork is refused (480), and a
  pushed fork undone (667), only when its cumulative difficulty is strictly
  lower. A fork of equal difficulty is kept.
- **An incomplete fork download is dropped.** A download in fork mode that
  stops early returns before `processFork` (435, 443, 460). Blocks already linked
  onto the cache tip stay staged (450-451).

## Model

| member | source | states |
|---|---|---|
| Types.Wrap64 | src/brs/BlockchainProcessorImpl.java:931-932 | the result is a Java `long`, congruent to the exact value modulo 2^64, and equal to it when the value fits |
| Types.Wrap32 | src/brs/BlockchainProcessorImpl.java:350 | `intValue` keeps the value's low 32 bits: the result is an `int`, congruent modulo 2^32, and unchanged when the value already fits |
| Types.SafeSubtract | src/brs/BlockchainProcessorImpl.java:944-946 | succeeds exactly when the difference fits a `long`, and then yields the difference; otherwise this is the ArithmeticException |
| Types.Link | src/brs/BlockchainProcessorImpl.java:446-449 | a linked block differs from the parsed one only in height and cumulative difficulty; its height is one above its predecessor's and its difficulty no lower |
| Types.LinkIdempotent | src/brs/BlockchainProcessorImpl.java:446-449 | linking a block to the predecessor it is already linked to changes nothing |
| References.Resolve | src/brs/BlockchainProcessorImpl.java:1230-1235 | a reference resolves exactly when its full hash is stored and, with subscriptions disabled, the stored transaction is signed; it yields that transaction |
| References.HasAllReferenced | src/brs/BlockchainProcessorImpl.java:1226-1238 | the reference walk the block generator applies to a pool entry, as a recursive function that stops after ten hops; HasAllReferencedMeansResolvedChain states what it means |
| References.HasAllReferencedMeansResolvedChain | src/brs/BlockchainProcessorImpl.java:1226-1238 | the walk succeeds exactly when the chain of references resolves hop by hop, within fewer than 10 - count hops, to a transaction that references nothing and is less than sixty days older than the starting timestamp |
| Validation.CheckHeader | src/brs/BlockchainProcessorImpl.java:820-847 | passes exactly when every header condition holds. A wrong previous id is out of order; once the id, version and previous hash match, a timestamp outside (tip, now+15] is out of order; a zero or stored id is refused; every other failure is not-accepted |
| Validation.HeaderAdmissible | src/brs/BlockchainProcessorImpl.java:820-847 | the header conditions of pushBlock, as one predicate: the block names the tip, has version 3 and the tip's hash, a timestamp in (tip, now+15], a non-zero id not yet stored, and valid generation and block signatures |
| Validation.CheckTransaction | src/brs/BlockchainProcessorImpl.java:867-929 | a transaction from beyond now+15 is out of order; it passes exactly when every per-transaction condition holds and its key is new; every other failure carries that very transaction; on success its key is recorded |
| Validation.TxAdmissible | src/brs/BlockchainProcessorImpl.java:867-929 | the per-transaction conditions of pushBlock other than the duplicate rule, as one predicate: timestamp within 15 seconds of now and of the block, not expired at the block, a non-zero id not yet stored, its reference resolved, the version for the height, a valid public key, the fork check from the AT height on, and validation |
| Validation.CheckTransactions | src/brs/BlockchainProcessorImpl.java:867-934 | the loop's result is the scan of all the block's transactions |
| Validation.ScanTransactions | src/brs/BlockchainProcessorImpl.java:867-934 | the transaction loop of pushBlock as a recursive function over the block's transactions, accumulating totals and duplicate keys; ScanSucceedsIffAllAdmissible and ScanRejectsFirstFailing state what it computes |
| Validation.ScanSucceedsIffAllAdmissible | src/brs/BlockchainProcessorImpl.java:867-934 | the transaction loop succeeds exactly when every transaction passes and no two share a duplicate key; its totals are then the wrapped sums of amounts and fees, and the recorded keys are those of the transactions |
| Validation.ScanRejectsFirstFailing | src/brs/BlockchainProcessorImpl.java:867-929 | a refused loop names the first failing transaction: all before it pass with distinct keys, and the rejection is out of order or carries that transaction |
| Validation.ScanFailureSticks | src/brs/BlockchainProcessorImpl.java:867-929 | once a prefix of the loop is refused, the whole loop is refused with the same rejection |
| Validation.CheckTotals | src/brs/BlockchainProcessorImpl.java:936-946 | passes exactly when neither sum exceeds its declared total, the payload digest matches and both remainders fit a `long`; it yields the remainders; an overflow comes only after the other checks pass |
| Validation.FirstDoubleSpend | src/brs/BlockchainProcessorImpl.java:977-982 | the first transaction that applyUnconfirmed refuses, given those before it; all earlier ones apply, and none is found exactly when all apply |
| Validation.ApplyAll | src/brs/BlockchainProcessorImpl.java:977-982 | the loop stops at the first double spend |
| Validation.CheckContracts | src/brs/BlockchainProcessorImpl.java:986-1009 | passes exactly when the AT payload validates at the new height and the remainders equal the AT amount, and the AT fee plus (when enabled) the subscription fee; every failure is not-accepted |
| Validation.AcceptVerdict | src/brs/BlockchainProcessorImpl.java:974-1009 | a double spend is refused with that transaction; otherwise the contract check decides |
| Validation.PushVerdict | src/brs/BlockchainProcessorImpl.java:811-1009 | an accepted block is the candidate linked to the tip, and appending it to a valid chain leaves a valid chain |
| Validation.PushVerdictHeader | src/brs/BlockchainProcessorImpl.java:820-847 | an accepted block meets every header condition, and a failed header check is the rejection |
| Validation.ValidChainExtends | src/brs/BlockchainProcessorImpl.java:820-841 | a block naming the tip, with an id not yet stored, extends a valid chain once linked |
| Validation.AcceptedBlockBalances | src/brs/BlockchainProcessorImpl.java:867-1009 | an accepted block holds only transactions that pass, with distinct keys and no double spend; its digest matches; its declared totals minus the wrapped sums are exactly the AT amount and the AT plus subscription fee |
| Validation.RejectedTransactionBelongsToBlock | src/brs/BlockchainProcessorImpl.java:867-982 | a transaction-not-accepted rejection names a transaction of the block |
| Rollback.MinRollbackHeight | src/brs/BlockchainProcessorImpl.java:723-726 | 0 without trimming; the last trim height when positive; otherwise max(height - maxRollback, 0); never below the trim height when trimming |
| Rollback.TrimHeightAfter | src/brs/BlockchainProcessorImpl.java:155 | max(height - maxRollback, 0) |
| Rollback.TrimAfterAccept | src/brs/BlockchainProcessorImpl.java:152-160 | with trimming on, a block at a multiple of 1440 moves the trim height to its new value; otherwise the trim height is kept |
| Rollback.TrimAfterBlocks | src/brs/BlockchainProcessorImpl.java:152-160 | the trim listener run for a sequence of accepted blocks one after another; non-negative when it starts non-negative |
| Rollback.LastMark | src/brs/BlockchainProcessorImpl.java:155 | the position of the last block at a multiple of 1440, with no such block after it; none exactly when no block is at such a height |
| Rollback.TrimAfterBlocksLastMark | src/brs/BlockchainProcessorImpl.java:152-160 | after a run of accepted blocks, the trim height is the one set at the last block at a multiple of 1440 when trimming is on, and otherwise the one before the run |
| Rollback.RollbackWindowAfterTrim | src/brs/BlockchainProcessorImpl.java:152-160 | right after a trim that recorded a positive height, rollback is allowed down to maxRollback below the trimming block, whatever the height later is |
| Rollback.ReplayOrderRestoresSuffix | src/brs/BlockchainProcessorImpl.java:678-681 | replaying the tip-first list from its end gives back the detached blocks in chain order |
| Rollback.HeightIsPosition | src/brs/BlockchainProcessorImpl.java:948 | on a valid chain each block's height is its position |
| Rollback.TipIsGenesisIffAlone | src/brs/BlockchainProcessorImpl.java:1054-1056 | on a valid chain the tip is genesis exactly when the chain holds genesis alone |
| Packing.Step | src/brs/BlockchainProcessorImpl.java:1100-1149 | a visit takes the transaction exactly when every filter passes and it validates. The key is recorded exactly when the duplicate check is reached. An invalid transaction is evicted, and totals change only when the transaction is taken |
| Packing.StepKeepsSound | src/brs/BlockchainProcessorImpl.java:1100-1149 | a visit keeps the caps, the no-repeat and distinct-key rules, the sums and the eligibility of the selected transactions |
| Packing.Pass | src/brs/BlockchainProcessorImpl.java:1100-1149 | a pass only adds, and only from the pool; it keeps the loop sound; a pass that adds nothing leaves the totals |
| Packing.PassWhenFull | src/brs/BlockchainProcessorImpl.java:1102-1104 | with the transaction cap reached, a pass changes nothing |
| Packing.Pack | src/brs/BlockchainProcessorImpl.java:1095-1154 | repeating passes keeps the loop sound and takes only from the pool |
| Packing.PackIsFixpoint | src/brs/BlockchainProcessorImpl.java:1151-1153 | the selection is a fixed point: one more pass would take nothing |
| Packing.SelectionBounds | src/brs/BlockchainProcessorImpl.java:1095-1154 | at most the maximum number of transactions and payload bytes, no transaction twice, each from the pool, eligible and valid, distinct keys, totals equal to the wrapped sums, and only invalid transactions evicted |
| Packing.Visit | src/brs/BlockchainProcessorImpl.java:1100-1149 | the visit with its `continue`s computes the visit step |
| Packing.SelectTransactions | src/brs/BlockchainProcessorImpl.java:1095-1154 | the nested loops compute the passes-to-fixpoint selection |
| Packing.ReferencedOnly | src/brs/BlockchainProcessorImpl.java:1074-1081 | holds exactly the pool entries whose reference chains resolve |
| Packing.ReferencedOnlyExtends | src/brs/BlockchainProcessorImpl.java:1074-1081 | the filter grows entry by entry in pool order: the filter of a longer prefix is that of the shorter one followed by the next entry exactly when its references resolve |
| Packing.FilterReferenced | src/brs/BlockchainProcessorImpl.java:1074-1081 | the filtering loop yields that filter |
| Sync.FirstKnown | src/brs/BlockchainProcessorImpl.java:547-558 | the first id the cache knows, all before it unknown |
| Sync.FirstUnknown | src/brs/BlockchainProcessorImpl.java:584-590 | the first id the cache does not know, all before it known |
| Sync.MilestoneSearch | src/brs/BlockchainProcessorImpl.java:510-561 | the milestone search over the peer's replies, as a recursive function; MilestoneSearchSound and MilestoneSearchFinds state what it yields |
| Sync.MilestoneSearchSound | src/brs/BlockchainProcessorImpl.java:510-561 | the milestone search yields nothing, genesis or a block the cache knows. It blacklists only for a reply of more than 20 ids, and then yields nothing. A peer with no more to give is never reported as having more |
| Sync.MilestoneStop | src/brs/BlockchainProcessorImpl.java:524-558 | the position of the first reply that is missing, has no or too many ids, or holds a known id; every reply before it holds only unknown ids |
| Sync.MilestoneSearchFinds | src/brs/BlockchainProcessorImpl.java:510-561 | the reply the search stops at decides: missing reply or id list gives nothing, an empty list genesis, more than 20 ids nothing and a blacklisting, otherwise the first known id of that reply. peerHasMore is cleared exactly when a reply read carries `last`, or the deciding reply finds a known id and carries `last` or is the first reply holding several ids, the first known |
| Sync.CommonMilestone | src/brs/BlockchainProcessorImpl.java:510-561 | the request loop computes the milestone search |
| Sync.CommonSearchSound | src/brs/BlockchainProcessorImpl.java:563-594 | the refined common block is nothing, the starting block or a known block; it blacklists only for a reply of more than 1440 ids, and then yields nothing |
| Sync.CommonSearch | src/brs/BlockchainProcessorImpl.java:563-594 | the block-by-block search over the peer's replies, as a recursive function; CommonSearchSound and CommonSearchFinds state what it yields |
| Sync.CommonStop | src/brs/BlockchainProcessorImpl.java:568-590 | the position of the first reply that is missing, empty, too long or holds an unknown id; every reply before it holds only known ids |
| Sync.CommonSearchFinds | src/brs/BlockchainProcessorImpl.java:563-594 | the reply the search stops at decides: missing or empty gives nothing, more than 1440 ids nothing and a blacklisting, otherwise the id just before its first unknown id, or the block the request named when that is its first id |
| Sync.CommonBlock | src/brs/BlockchainProcessorImpl.java:563-594 | the request loop computes the block-by-block search |
| Sync.NextBlocks | src/brs/BlockchainProcessorImpl.java:596-622 | the reply's blocks when present and at most 1440; more than 1440 blacklists the peer |
| Sync.LinkAll | src/brs/BlockchainProcessorImpl.java:429-469 | a completed download links every element; a stopped one links fewer |
| Sync.LinkAllChains | src/brs/BlockchainProcessorImpl.java:429-469 | the downloaded blocks kept are linked onto the common block at consecutive heights; each is the parsed block stamped with the peer and linked to its predecessor |
| Sync.LinkAllStops | src/brs/BlockchainProcessorImpl.java:429-469 | the download stops at the first element that is null, unparsable or not naming its predecessor; only a parse failure blacklists |
| Sync.LinkDownloaded | src/brs/BlockchainProcessorImpl.java:429-469 | the download loop computes that linkage |
| Generation.Selection | src/brs/BlockchainProcessorImpl.java:1074-1154 | the filtered and selected transactions stay within the payload cap |
| Generation.Candidate | src/brs/BlockchainProcessorImpl.java:1071-1206 | the block generateBlock builds from the chain, the pool, the time and the key: the assembled block over the selection (Assemble, CandidateTotals) |
| Generation.Assemble | src/brs/BlockchainProcessorImpl.java:1156-1206 | the built block is out of order for pushBlock exactly when the tip is not older than now; otherwise only its id and signatures can fail the header. Its payload hash digests its own transactions, which are the selection in natural order. AT bytes add their length, keeping the cap when within budget |
| Generation.AssembledExactTotals | src/brs/BlockchainProcessorImpl.java:1156-1185 | for a selection whose totals are the wrapped sums over what it selected, in all four cases of subscriptions and AT bytes the block's amount is the wrapped sum of the selected amounts plus the AT amount when there are AT bytes, and its fee the wrapped sum of the selected fees plus the subscription fees when enabled plus the AT fees when there are AT bytes |
| Generation.SelectionTotals | src/brs/BlockchainProcessorImpl.java:1095-1154 | the selection's totals are the wrapped sums over the selected transactions |
| Generation.CandidateTotals | src/brs/BlockchainProcessorImpl.java:1095-1185 | the selection comes from the pool and its references resolve. Without subscriptions or AT bytes, the block's totals are the wrapped sums and its payload length the selection's size, within the cap |
| Processor.Without | src/brs/BlockchainProcessorImpl.java:1140 | a transaction is kept exactly when it was in the pool and is not removed; the result is no longer than the pool |
| Processor.FirstFollowing | src/brs/BlockchainProcessorImpl.java:260 | the first staged block naming the given id as predecessor, or none |
| Processor.FollowerIsHead | src/brs/BlockchainProcessorImpl.java:260-268 | a staged follower that pushBlock accepts is the cache's head, already linked, and the rest stays linked behind it |
| Processor.ReplayedBlockFits | src/brs/BlockchainProcessorImpl.java:678-681 | a detached block that pushBlock accepts again comes back unchanged |
| Processor.ForkRun | src/brs/BlockchainProcessorImpl.java:650-660 | the fork loop as a recursive function: from the chain, each fork block that names the tip is pushed with the push verdict, a refusal stops the run; ForkRunShape, ForkRunAccepted, ForkRunOrdered, ForkRunStops, ForkRunPlaced and ForkRunAll state what it yields |
| Processor.ImportVerdict | src/brs/BlockchainProcessorImpl.java:264-269 | the importer's verdict on a staged block: a block neither verified nor passing preVerify is refused as not accepted; otherwise it is the push verdict |
| Processor.Stepped | src/brs/BlockchainProcessorImpl.java:258-279 | one importer pass as a relation between snapshots: idle, with nothing changed, when no staged block follows the last id; otherwise the verdict on that block decides: accepted, it is the cache's head and moves onto the chain with the trim listener run and the last id moved; refused, the cache is emptied and the sender blacklisted; an overflow empties the cache and restarts from the tip |
| Processor.AfterImports | src/brs/BlockchainProcessorImpl.java:258-279 | the state after the importer took the first n staged blocks onto the chain: chain extended, cache shortened, trim listener run for each, last id at the last one imported |
| Processor.ImportedInOrder | src/brs/BlockchainProcessorImpl.java:258-279 | each of the first n staged blocks was accepted on the chain the imports before it left, the first one following the importer's last block |
| Processor.Draining | src/brs/BlockchainProcessorImpl.java:626-635 | the wait part-way: n staged blocks imported in order and nothing else changed |
| Processor.Drained | src/brs/BlockchainProcessorImpl.java:626-635 | how the wait ends: the blocks imported in order, then either a stall (nothing follows the last id, with blocks left), an empty cache, or a refused follower emptying the cache with its sender blacklisted, or an overflow restarting the importer from the tip |
| Processor.DrainStep | src/brs/BlockchainProcessorImpl.java:258-279 | one importer pass during the wait either moves the wait on by exactly one imported block or ends it as Drained says, with `drained` false exactly for a stall |
| Processor.ReplayAccepted | src/brs/BlockchainProcessorImpl.java:679-681 | each block put back, from a given position on, was accepted by pushBlock, unchanged, on the blocks below it |
| Processor.ReplayAcceptedNext | src/brs/BlockchainProcessorImpl.java:679-681 | one more block that pushBlock accepts extends the run of accepted blocks put back |
| Processor.Replayed | src/brs/BlockchainProcessorImpl.java:677-686 | the restore loop's outcome: the chain is the old chain cut after the fork block plus the blocks replayed, each of them accepted by pushBlock on the blocks below it (ReplayAccepted), stopped only by a block pushBlock refuses; the outcome is Aborted exactly when that refusal is an overflow, and Restored with the count replayed otherwise |
| Processor.Settled | src/brs/BlockchainProcessorImpl.java:648-692 | processFork after the rollback: the fork run is ForkRun; an overflow escapes; the fork is kept exactly when it pushed something and does not end lower, queueing the displaced transactions tip first; the peer is blacklisted exactly when, without an overflow, the run was refused or the fork is lower; a lower fork is rolled back, aborting below the minimum height its trim allows; otherwise the chain is replayed (Replayed); the trim listener runs for every block pushed |
| Processor.Resolved | src/brs/BlockchainProcessorImpl.java:637-692 | a fork block not on the chain, or below the minimum rollback height, aborts with nothing changed; otherwise the outcome is Settled |
| Processor.ForkEnded | src/brs/BlockchainProcessorImpl.java:624-693 | processFork: the wait ends as Drained says; a stall changes nothing more, otherwise the fork is Resolved from the state the wait left |
| Processor.Downloaded | src/brs/BlockchainProcessorImpl.java:410-487 | the download: with no blocks or no start block, only an over-cap answer blacklists; onto the cache tip the blocks that link are staged; a fork that stopped linking gives no progress; a complete fork below the former difficulty is refused with the peer blacklisted; any other is processed as ForkEnded says. A peer whose blocks stop the linking for a fault is blacklisted, and no one else |
| Processor.ForkRunShape | src/brs/BlockchainProcessorImpl.java:650-660 | every block the fork run pushes comes with the position of the fork block it came from, at or after where the run started |
| Processor.ForkRunAccepted | src/brs/BlockchainProcessorImpl.java:650-660 | each block the fork run pushed is what pushBlock accepted for its fork block on the chain as the run had left it |
| Processor.ForkRunOrdered | src/brs/BlockchainProcessorImpl.java:650-660 | the fork run takes fork blocks in the fork's order |
| Processor.ForkRunStops | src/brs/BlockchainProcessorImpl.java:652-659 | a run ended by a rejection ends at a fork block naming the tip the run reached, which pushBlock refuses with that rejection |
| Processor.ForkRunPlaced | src/brs/BlockchainProcessorImpl.java:650-660 | the blocks the run pushed follow the chain it started on, each the linked form of its fork block, in fork order |
| Processor.ForkRunAll | src/brs/BlockchainProcessorImpl.java:650-660 | a fork whose blocks name one another in turn from the tip, run without a rejection, is pushed in full and its last block becomes the tip |
| Processor.BlockchainProcessor.BlockFor | src/brs/BlockchainProcessorImpl.java:418 | a block is found exactly when the cache or chain knows the id, and it carries that id |
| Processor.BlockchainProcessor.CanBeFork | src/brs/BlockchainProcessorImpl.java:394 | the proposed common block is known and at most maxRollback below the cache tip |
| Processor.BlockchainProcessor.CacheTip | src/brs/BlockchainProcessorImpl.java:375 | downloadCache.getLastBlock: the last staged block, or the tip when nothing is staged |
| Processor.BlockchainProcessor.Known | src/brs/BlockchainProcessorImpl.java:547 | downloadCache.hasBlock: the ids of the chain and the staged blocks |
| Processor.BlockchainProcessor.MinRollback | src/brs/BlockchainProcessorImpl.java:723-726 | getMinRollbackHeight on the processor's chain and trim height |
| Processor.BlockchainProcessor.SearchBlames | src/brs/BlockchainProcessorImpl.java:378-408 | whether the common-block search blacklists the peer; only an answer over its cap is blamed, off genesis, and no common block is found then |
| Processor.BlockchainProcessor.PushBlock | src/brs/BlockchainProcessorImpl.java:811-972 | the outcome is the push verdict. Acceptance appends the linked block and applies the trim listener. A rejection leaves chain and trim height and empties the cache. Nothing else changes |
| Processor.BlockchainProcessor.PopLastBlock | src/brs/BlockchainProcessorImpl.java:1053-1065 | genesis is never popped; otherwise the tip is removed and the new tip returned |
| Processor.BlockchainProcessor.PopOffTo | src/brs/BlockchainProcessorImpl.java:1023-1047 | refused below the minimum rollback height; a block not on the chain pops nothing; otherwise the chain ends at that block and the blocks above it are returned tip first |
| Processor.BlockchainProcessor.PopDownTo | src/brs/BlockchainProcessorImpl.java:1033-1040 | the pop loop stops at the target and returns the detached blocks tip first |
| Processor.BlockchainProcessor.ImportStep | src/brs/BlockchainProcessorImpl.java:258-279 | the pass does what Stepped says, with the chain and cache still linked; the pool and the feeder record are unchanged |
| Processor.BlockchainProcessor.ImportFollower | src/brs/BlockchainProcessorImpl.java:266-276 | the push of the found follower: imported only as the cache's head and only when pushBlock accepts it; otherwise refused with the push verdict's rejection, or restarted from the tip when that rejection is an overflow |
| Processor.BlockchainProcessor.AbandonFollower | src/brs/BlockchainProcessorImpl.java:273-276 | an overflow ends the run and the next one starts from the tip's id, with no peer blacklisted; any other rejection blacklists the block's sender and keeps the last id |
| Processor.BlockchainProcessor.ProcessPeerBlock | src/brs/BlockchainProcessorImpl.java:729-749 | an announced block is staged, linked to the cache tip, exactly when it names that tip |
| Processor.BlockchainProcessor.DrainCache | src/brs/BlockchainProcessorImpl.java:626-635 | the wait does what Drained says: the staged blocks it imports are each accepted (ImportVerdict) on the chain the imports before it left, and the trim listener runs for each; it ends exactly when the cache is empty, and a refused follower ends it with its sender blacklisted, or on an overflow with the importer restarted from the tip |
| Processor.BlockchainProcessor.DrainOne | src/brs/BlockchainProcessorImpl.java:626-635 | one importer pass during the wait moves it on by one block (Draining) or ends it (Drained) |
| Processor.BlockchainProcessor.PushFork | src/brs/BlockchainProcessorImpl.java:650-660 | the chain becomes the old chain followed by the fork run's blocks (ForkRun), and the trim height is the listener run over exactly those blocks (TrimAfterBlocks). An overflow escapes. The peer is blacklisted exactly when another rejection ended the run |
| Processor.BlockchainProcessor.PushForkLoop | src/brs/BlockchainProcessorImpl.java:650-660 | the loop pushes exactly the blocks ForkRun pushes, in its order, stops with ForkRun's rejection, and leaves the trim height TrimAfterBlocks gives for those blocks |
| Processor.BlockchainProcessor.ForkTurn | src/brs/BlockchainProcessorImpl.java:651-658 | one turn of the fork loop keeps the loop in step with ForkRun, the chain and the trim height, or ends it with ForkRun's rejection |
| Processor.BlockchainProcessor.PushIfNamed | src/brs/BlockchainProcessorImpl.java:651-658 | a fork block is pushed exactly when it names the tip. When pushBlock accepts it, the chain grows by the linked block and the trim listener runs for its height. Otherwise, and when it is not named, chain and trim height stay, and a refusal is reported |
| Processor.BlockchainProcessor.Restore | src/brs/BlockchainProcessorImpl.java:677-686 | the detached blocks come back in chain order, each accepted by pushBlock on the blocks below it (ReplayAccepted), until the first one pushBlock refuses, which is reported as an overflow exactly when it is one; the trim height is the listener run over the blocks that came back |
| Processor.BlockchainProcessor.PushBack | src/brs/BlockchainProcessorImpl.java:679-685 | one detached block is pushed back: it comes back unchanged exactly when pushBlock accepts it, with the trim listener run; otherwise the refusal is reported and the chain stays |
| Processor.BlockchainProcessor.RestoreTurn | src/brs/BlockchainProcessorImpl.java:679-685 | one turn of the restore loop: what PushBack does, and the blocks put back so far stay accepted (ReplayAccepted) with the new one included |
| Processor.BlockchainProcessor.ProcessFork | src/brs/BlockchainProcessorImpl.java:624-693 | the outcome is what ForkEnded says of the state before and after |
| Processor.BlockchainProcessor.ResolveFork | src/brs/BlockchainProcessorImpl.java:637-692 | the outcome is what Resolved says of the state before and after; it is never Stalled and leaves the cache empty |
| Processor.BlockchainProcessor.SettleFork | src/brs/BlockchainProcessorImpl.java:648-692 | from the state `s0` rolled back to the fork block, the outcome is what Settled says; it is Aborted, Switched or Restored and leaves the cache empty |
| Processor.BlockchainProcessor.Replay | src/brs/BlockchainProcessorImpl.java:677-692 | the restore branch does what Replayed says: the old chain is cut after the fork block and replayed, each block accepted by pushBlock, until pushBlock refuses a block, an overflow aborting; the trim height is the listener run over the replayed blocks; the cache is emptied |
| Processor.BlockchainProcessor.ForkAttempt | src/brs/BlockchainProcessorImpl.java:648-674 | the pushed blocks are the fork run (ForkRun), placed in fork order, and the trim height is the listener run over them. An overflow aborts with them on the chain. A fork that does not end lower keeps them. A lower one is popped back to the fork block, its blocks dropped tip first and their transactions queued; it aborts instead exactly when the fork block is below the minimum rollback height computed with that trim height. The peer is blacklisted exactly when, without an overflow, the run was refused or the fork is lower |
| Processor.BlockchainProcessor.GenerateBlock | src/brs/BlockchainProcessorImpl.java:1071-1222 | the outcome is the push verdict on the block built from the pool, which is appended on success. Invalid transactions leave the pool, and so does the one a transaction rejection names. The cache is emptied |
| Processor.BlockchainProcessor.AssembleBlock | src/brs/BlockchainProcessorImpl.java:1074-1206 | the built block and selection are the assembled block and the selection, and nothing changes |
| Processor.BlockchainProcessor.SyncRound | src/brs/BlockchainProcessorImpl.java:337-372 | records the feeder's narrowed height when the peer reports one. A peer that does not claim a higher difficulty than the cache tip changes nothing else. Otherwise the search finds what DownloadFrom says and blacklists the peer exactly when SearchBlames says (the state `mid`); without a common block nothing more changes, and with one the download is as Downloaded says |
| Processor.BlockchainProcessor.Download | src/brs/BlockchainProcessorImpl.java:348-487 | the feeder is recorded; the search finds DownloadFrom's common block and blacklists exactly when SearchBlames says, leaving `mid`; without a common block nothing else changes; otherwise the download is as Downloaded says from `mid` |
| Processor.BlockchainProcessor.Locate | src/brs/BlockchainProcessorImpl.java:348-408 | the feeder is recorded, DownloadFrom's common block is found, and the peer is blacklisted exactly when SearchBlames says |
| Processor.BlockchainProcessor.FindCommon | src/brs/BlockchainProcessorImpl.java:374-408 | the common block and the save-in-cache flag found are DownloadFrom's; the peer is blacklisted exactly when SearchBlames says, and nothing else changes |
| Processor.BlockchainProcessor.DownloadFrom | src/brs/BlockchainProcessorImpl.java:374-408 | the common block found is known and has a block; saving into the cache means it is the cache tip, and a cache tip at genesis always gives genesis with saving; a fork start passes canBeFork |
| Processor.BlockchainProcessor.Fetch | src/brs/BlockchainProcessorImpl.java:410-487 | the download from the state `s0` does what Downloaded says |
| Processor.BlockchainProcessor.StageBlocks | src/brs/BlockchainProcessorImpl.java:450-451 | the run is appended to the cache, which stays linked |
| Processor.BlockchainProcessor.OfferFork | src/brs/BlockchainProcessorImpl.java:474-486 | a fork is refused exactly when its last block falls below the former difficulty, and then only the peer is blacklisted; otherwise it is processed, with the outcome ForkEnded says |

## Left out

- Threads: their scheduling, sleeps, interrupts, the GPU semaphore and `System.exit` are not modelled. Each thread appears as one step: `ImportStep`, `SyncRound`, and the wait of `DrainCache`, which ends or stalls.
- The proof-of-capacity verification thread and OpenCL batch verification are not modelled; they are hardware code. `preVerify` is a given predicate.
- Cryptography is given functions: SHA-256, the block and generation signatures, signing and block ids, and the generation signature.
- The database, the stores and their begin/commit/rollback are left out. Atomicity is modelled instead: a refused push leaves the chain and trim height as they were.
- The derived tables and their trim and rollback calls are left out; only the recorded trim height is modelled.
- Peer transport and JSON are left out. A peer's answers are given as sequences, in request order, and `Block.parseBlock` yields a parsed block, null or an error.
- Listeners other than the trim listener, statistics, `Peers.sendToSomePeers` and logging are left out.
- The genesis block's construction, `fullReset`, `scan`, `forceScanAtStart` and `validateAtNextScan` are left out. The constructor takes a valid initial chain instead.
- The download cache implementation (`DownloadCacheImpl`) is not part of this model. Its behaviour is assumed:
  - it is the staged sequence;
  - `hasBlock` is membership among chain and cache ids;
  - `getBlock` is the newest block with that id;
  - `getNextBlock` is the first staged block naming the given predecessor;
  - `canBeFork` means the block is known and at most `maxRollback` below the cache tip.
- The cache's size caps, `isFull`, and the `getMoreBlocks` switch are left out: each only ends an iteration of the download thread early.
- Timestamps are unbounded integers; Java `int` overflow of timestamps is not modelled.
- The block id, when unsigned, and the `TreeSet` of `generateBlock` are modelled as a sequence in the order of selection. Membership there is by equality, not by `compareTo`. The block's transactions are that selection sorted (`sortTransactions`).
- `Generation.Assemble`: the subscription fee is a given function of the chain and time. The code computes it after provisionally applying the selected transactions, and that provisional state is not modelled.
- `requeueAllUnconfirmedTransactions` and `processLater` are left out beyond recording what is queued (`requeued`).
- The `Block` constructor's validation failure in `generateBlock`, which the source says cannot happen, is not modelled.
- `Processor.BlockchainProcessor.ResolveFork`: a fork block not on the chain makes the source dereference null. It is modelled as the outcome `Aborted` with chain and queue unchanged, like a fork block below the minimum rollback height.
- `References.HasAllReferenced`: the walk stops after ten hops, while the source recurses until a transaction without a reference and only then tests the count (1227-1237). The two differ only on a cycle of references, where the source overflows its stack.
- `Processor.BlockchainProcessor.ForkAttempt`: the check that the tip is the fork block after the rollback (649) always holds there. The model drops that check.
- `Processor.BlockchainProcessor.PopLastBlock`: the source throws on genesis, and the model returns `None`. `popOffTo`'s loop never calls it on genesis.
- `Processor.BlockchainProcessor.SyncRound`: the thread ends after a refused fork (484) and after every early return. The model reports this as the outcome of one iteration.
- `Processor.BlockchainProcessor.Fetch`: the catch-all handler of the download loop (461-464), which logs and goes on with the next element, is not modelled; a parse failure is the only failure modelled there.
- `Processor.BlockchainProcessor.ProcessFork`: `Stalled` stands for a wait that never ends while the importer finds nothing to import. Time passing and other threads emptying the cache are not modelled.
- `generateBlock`'s `nonce` argument (1071, 1196) is not modelled: it only goes into the block, and no decision here depends on it.
- A single clock reading `now` serves all of one operation. The source reads the clock again in `pushBlock`.
- `Processor.Without`: the contract states which transactions are kept, not that their order is; the function keeps the pool's order.
- Rollbacks do not lower the recorded trim height: `popOffTo` and `popLastBlock` leave it as it is (the source only moves it in the trim listener, 152-160). Every contract that speaks of the trim height follows this.
