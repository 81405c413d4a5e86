/**
 * The decision part of pushBlock and accept: which candidate block is
 * accepted on top of a chain, and with which rejection every other one is
 * refused. Checks run in the source's order, so the first failing check
 * decides the rejection.
 */
module Validation {
  import opened Types
  import opened References

  // ---------------------------------------------------------------- header

  /** The header conditions of pushBlock, all of them met. */
  predicate HeaderAdmissible(env: Env, tip: Block, b: Block, now: int, storedIds: set<int>) {
    && b.previousBlockId == tip.id
    && b.version == BLOCK_VERSION
    && env.blockHash(tip) == b.previousBlockHash
    && tip.timestamp < b.timestamp <= now + MAX_TIMESTAMP_DIFFERENCE
    && b.id != 0 && b.id !in storedIds
    && env.verifyGenerationSignature(b)
    && env.verifyBlockSignature(b)
  }

  /** The header checks in order; None when all pass. */
  function CheckHeader(env: Env, tip: Block, b: Block, now: int, storedIds: set<int>): (r: Option<Rejection>)
    ensures r.None? <==> HeaderAdmissible(env, tip, b, now, storedIds)
    ensures r.Some? ==> r.value == OutOfOrder || r.value == NotAccepted
    ensures b.previousBlockId != tip.id ==> r == Some(OutOfOrder)
    ensures r == Some(OutOfOrder) ==>
              b.previousBlockId != tip.id || b.timestamp <= tip.timestamp ||
              b.timestamp > now + MAX_TIMESTAMP_DIFFERENCE
    ensures b.previousBlockId == tip.id && (b.id == 0 || b.id in storedIds) ==> r.Some?
    ensures && b.previousBlockId == tip.id && b.version == BLOCK_VERSION && env.blockHash(tip) == b.previousBlockHash
            && !(tip.timestamp < b.timestamp <= now + MAX_TIMESTAMP_DIFFERENCE)
            ==> r == Some(OutOfOrder)
  {
    if tip.id != b.previousBlockId then Some(OutOfOrder)
    else if b.version != BLOCK_VERSION then Some(NotAccepted)
    else if b.version != 1 && env.blockHash(tip) != b.previousBlockHash then Some(NotAccepted)
    else if b.timestamp > now + MAX_TIMESTAMP_DIFFERENCE || b.timestamp <= tip.timestamp then Some(OutOfOrder)
    else if b.id == 0 || b.id in storedIds then Some(NotAccepted)
    else if !env.verifyGenerationSignature(b) then Some(NotAccepted)
    else if !env.verifyBlockSignature(b) then Some(NotAccepted)
    else None
  }

  // ---------------------------------------------------------- transactions

  /** What the per-transaction checks see of the chain and the block. */
  datatype TxContext = TxContext(
    now: int,
    blockTimestamp: int,
    prevHeight: int,
    storedTxIds: set<int>,
    db: map<Digest, Transaction>,
    ledger: seq<Block>)

  /** The reference rule: by id before the full-hash height, by the whole chain walk from it on. */
  predicate ReferenceResolved(env: Env, cfg: Config, c: TxContext, t: Transaction) {
    t.referencedFullHash.None? ||
    (if c.prevHeight < cfg.referencedFullHashBlock
     then env.fullHashToId(t.referencedFullHash.value) in c.storedTxIds
     else HasAllReferenced(t, t.timestamp, 0, c.db, env.subscriptionsEnabled))
  }

  /** Every per-transaction condition except the duplicate rule, which depends on the block so far. */
  predicate TxAdmissible(env: Env, cfg: Config, c: TxContext, t: Transaction) {
    && t.timestamp <= c.now + MAX_TIMESTAMP_DIFFERENCE
    && t.timestamp <= c.blockTimestamp + MAX_TIMESTAMP_DIFFERENCE
    && t.expiration >= c.blockTimestamp
    && t.id !in c.storedTxIds
    && ReferenceResolved(env, cfg, c, t)
    && t.version == env.transactionVersion(c.prevHeight)
    && env.verifyPublicKey(c.ledger, t)
    && (c.prevHeight >= cfg.automatedTransactionBlock ==> env.verifyFork(c.ledger, t))
    && t.id != 0
    && env.validate(c.ledger, t) == Valid
  }

  /** isDuplicate: the transaction's key was already recorded for this block. */
  predicate KeyTaken(t: Transaction, dups: set<DedupKey>) {
    t.dedupKey.Some? && t.dedupKey.value in dups
  }

  /** isDuplicate's side effect: the key is recorded. */
  function RecordKey(t: Transaction, dups: set<DedupKey>): set<DedupKey> {
    if t.dedupKey.Some? then dups + {t.dedupKey.value} else dups
  }

  /**
   * The checks of one transaction, in the source's order. A transaction
   * from the future is out of order; every other failure is a
   * transaction-not-accepted carrying that very transaction.
   */
  function CheckTransaction(env: Env, cfg: Config, c: TxContext, t: Transaction, dups: set<DedupKey>)
    : (r: Result<set<DedupKey>, Rejection>)
    ensures r.Failure? ==> r.error == OutOfOrder || r.error == TxNotAccepted(t)
    ensures r == Failure(OutOfOrder) <==> t.timestamp > c.now + MAX_TIMESTAMP_DIFFERENCE
    ensures r.Success? <==> TxAdmissible(env, cfg, c, t) && !KeyTaken(t, dups)
    ensures r.Success? ==> r.value == RecordKey(t, dups)
  {
    if t.timestamp > c.now + MAX_TIMESTAMP_DIFFERENCE then Failure(OutOfOrder)
    else if t.timestamp > c.blockTimestamp + MAX_TIMESTAMP_DIFFERENCE || t.expiration < c.blockTimestamp then
      Failure(TxNotAccepted(t))
    else if t.id in c.storedTxIds then Failure(TxNotAccepted(t))
    else if !ReferenceResolved(env, cfg, c, t) then Failure(TxNotAccepted(t))
    else if t.version != env.transactionVersion(c.prevHeight) then Failure(TxNotAccepted(t))
    else if !env.verifyPublicKey(c.ledger, t) then Failure(TxNotAccepted(t))
    else if c.prevHeight >= cfg.automatedTransactionBlock && !env.verifyFork(c.ledger, t) then Failure(TxNotAccepted(t))
    else if t.id == 0 then Failure(TxNotAccepted(t))
    else if KeyTaken(t, dups) then Failure(TxNotAccepted(t))
    else if env.validate(c.ledger, t) != Valid then Failure(TxNotAccepted(t))
    else Success(RecordKey(t, dups))
  }

  /** The running totals of the transaction loop (Java `long`s) and the recorded duplicate keys. */
  datatype ScanState = ScanState(amount: Int64, fee: Int64, dups: set<DedupKey>)

  /** The transaction loop of pushBlock over the first `|txs|` transactions of the block. */
  function ScanTransactions(env: Env, cfg: Config, c: TxContext, txs: seq<Transaction>): Result<ScanState, Rejection>
    decreases |txs|
  {
    if txs == [] then Success(ScanState(0, 0, {}))
    else
      match ScanTransactions(env, cfg, c, txs[..|txs| - 1])
      case Failure(e) => Failure(e)
      case Success(s) =>
        var t := Last(txs);
        match CheckTransaction(env, cfg, c, t, s.dups)
        case Failure(e) => Failure(e)
        case Success(d) => Success(ScanState(Wrap64(s.amount + t.amount), Wrap64(s.fee + t.fee), d))
  }

  function SumAmounts(txs: seq<Transaction>): int
    decreases |txs|
  {
    if txs == [] then 0 else SumAmounts(txs[..|txs| - 1]) + Last(txs).amount
  }

  function SumFees(txs: seq<Transaction>): int
    decreases |txs|
  {
    if txs == [] then 0 else SumFees(txs[..|txs| - 1]) + Last(txs).fee
  }

  function KeysOf(txs: seq<Transaction>): set<DedupKey> {
    set i | 0 <= i < |txs| && txs[i].dedupKey.Some? :: txs[i].dedupKey.value
  }

  /** No two transactions of the sequence share a duplicate-detection key. */
  predicate DistinctKeys(txs: seq<Transaction>) {
    forall i, j :: 0 <= i < j < |txs| && txs[i].dedupKey.Some? ==> txs[i].dedupKey != txs[j].dedupKey
  }

  /** One more transaction keeps the keys distinct exactly when its key is not among those before it. */
  lemma DistinctKeysAppend(s: seq<Transaction>, t: Transaction)
    ensures DistinctKeys(s + [t]) <==> DistinctKeys(s) && !KeyTaken(t, KeysOf(s))
  {
    var s' := s + [t];
    if DistinctKeys(s) && !KeyTaken(t, KeysOf(s)) {
      forall i, j | 0 <= i < j < |s'| && s'[i].dedupKey.Some?
        ensures s'[i].dedupKey != s'[j].dedupKey
      {
        if j == |s| {
          assert s'[i].dedupKey.value in KeysOf(s);
        } else {
          assert s'[i] == s[i] && s'[j] == s[j];
        }
      }
    }
    if DistinctKeys(s') {
      forall i, j | 0 <= i < j < |s| && s[i].dedupKey.Some?
        ensures s[i].dedupKey != s[j].dedupKey
      {
        assert s'[i] == s[i] && s'[j] == s[j];
      }
      forall i | 0 <= i < |s| && s[i].dedupKey.Some? ensures s[i].dedupKey != t.dedupKey {
        assert s'[i] == s[i] && s'[|s|] == t;
      }
    }
  }

  /** Adding one to a long sum wraps the same way as wrapping the exact sum. */
  lemma {:induction false} Wrap64OfSum(a: int, b: int)
    ensures Wrap64(Wrap64(a) + b) == Wrap64(a + b)
  {
    var w := Wrap64(a);
    var q := (a + TWO_63) / TWO_64;
    assert w == a - q * TWO_64;
    assert w + b + TWO_63 == (a + b + TWO_63) - q * TWO_64;
    ModShift(a + b + TWO_63, q);
  }

  lemma ModShift(x: int, q: int)
    ensures (x - q * TWO_64) % TWO_64 == x % TWO_64
  {
    var r := x % TWO_64;
    var d := x / TWO_64;
    assert x == d * TWO_64 + r;
    assert x - q * TWO_64 == (d - q) * TWO_64 + r;
  }

  /**
   * The transaction loop succeeds exactly when every transaction passes its
   * checks and no two share a duplicate key; then its totals are the
   * wrapped sums of the amounts and fees and the recorded keys are the
   * keys of the transactions.
   */
  lemma {:induction false} ScanSucceedsIffAllAdmissible(env: Env, cfg: Config, c: TxContext, txs: seq<Transaction>)
    ensures ScanTransactions(env, cfg, c, txs).Success? <==>
            (forall i :: 0 <= i < |txs| ==> TxAdmissible(env, cfg, c, txs[i])) && DistinctKeys(txs)
    ensures ScanTransactions(env, cfg, c, txs).Success? ==>
            var s := ScanTransactions(env, cfg, c, txs).value;
            s.amount == Wrap64(SumAmounts(txs)) && s.fee == Wrap64(SumFees(txs)) && s.dups == KeysOf(txs)
    decreases |txs|
  {
    if txs != [] {
      ScanSucceedsIffAllAdmissible(env, cfg, c, txs[..|txs| - 1]);
      ScanIffStep(env, cfg, c, txs);
      ScanTotalsStep(env, cfg, c, txs);
    }
  }

  /** The first half of what ScanSucceedsIffAllAdmissible states of `txs`. */
  ghost predicate ScanIff(env: Env, cfg: Config, c: TxContext, txs: seq<Transaction>) {
    ScanTransactions(env, cfg, c, txs).Success? <==>
      (forall i :: 0 <= i < |txs| ==> TxAdmissible(env, cfg, c, txs[i])) && DistinctKeys(txs)
  }

  /** The second half of what ScanSucceedsIffAllAdmissible states of `txs`. */
  ghost predicate ScanTotals(env: Env, cfg: Config, c: TxContext, txs: seq<Transaction>) {
    ScanTransactions(env, cfg, c, txs).Success? ==>
      var s := ScanTransactions(env, cfg, c, txs).value;
      s.amount == Wrap64(SumAmounts(txs)) && s.fee == Wrap64(SumFees(txs)) && s.dups == KeysOf(txs)
  }

  /** One more transaction: the iff for all of `txs` but its last carries over to `txs`. */
  lemma ScanIffStep(env: Env, cfg: Config, c: TxContext, txs: seq<Transaction>)
    requires txs != []
    requires ScanIff(env, cfg, c, txs[..|txs| - 1]) && ScanTotals(env, cfg, c, txs[..|txs| - 1])
    ensures ScanIff(env, cfg, c, txs)
  {
    var p, t := txs[..|txs| - 1], Last(txs);
    assert txs == p + [t];
    assert forall i :: 0 <= i < |p| ==> txs[i] == p[i];
    DistinctKeysAppend(p, t);
  }

  /** One more transaction: the totals for all of `txs` but its last carry over to `txs`. */
  lemma ScanTotalsStep(env: Env, cfg: Config, c: TxContext, txs: seq<Transaction>)
    requires txs != [] && ScanTotals(env, cfg, c, txs[..|txs| - 1])
    ensures ScanTotals(env, cfg, c, txs)
  {
    var p, t := txs[..|txs| - 1], Last(txs);
    assert txs == p + [t];
    AppendKeys(p, t);
    if ScanTransactions(env, cfg, c, p).Success? {
      Wrap64OfSum(SumAmounts(p), t.amount);
      Wrap64OfSum(SumFees(p), t.fee);
    }
  }

  lemma AppendKeys(s: seq<Transaction>, t: Transaction)
    ensures KeysOf(s + [t]) == RecordKey(t, KeysOf(s))
  {
    var s' := s + [t];
    assert forall k :: k in KeysOf(s') ==> k in RecordKey(t, KeysOf(s));
    forall k | k in RecordKey(t, KeysOf(s)) ensures k in KeysOf(s') {
      if k in KeysOf(s) {
        var i :| 0 <= i < |s| && s[i].dedupKey.Some? && s[i].dedupKey.value == k;
        assert s'[i] == s[i];
      } else {
        assert s'[|s|] == t;
      }
    }
  }

  /**
   * A refused transaction loop names the first transaction that fails: all
   * before it pass, their keys are distinct, and the rejection is out of
   * order or carries exactly that transaction.
   */
  lemma {:induction false} ScanRejectsFirstFailing(env: Env, cfg: Config, c: TxContext, txs: seq<Transaction>)
    requires ScanTransactions(env, cfg, c, txs).Failure?
    ensures exists i :: 0 <= i < |txs| && FirstFailure(env, cfg, c, txs, i, ScanTransactions(env, cfg, c, txs).error)
    decreases |txs|
  {
    var p := txs[..|txs| - 1];
    assert p == txs[..|txs| - 1];
    if ScanTransactions(env, cfg, c, p).Failure? {
      ScanRejectsFirstFailing(env, cfg, c, p);
      var i :| 0 <= i < |p| && FirstFailure(env, cfg, c, p, i, ScanTransactions(env, cfg, c, p).error);
      assert p[..i] == txs[..i];
      assert FirstFailure(env, cfg, c, txs, i, ScanTransactions(env, cfg, c, txs).error);
    } else {
      ScanSucceedsIffAllAdmissible(env, cfg, c, p);
      var i := |txs| - 1;
      assert txs[..i] == p;
      assert FirstFailure(env, cfg, c, txs, i, ScanTransactions(env, cfg, c, txs).error);
    }
  }

  /** `txs[i]` is the first transaction to fail, with rejection `e`. */
  predicate FirstFailure(env: Env, cfg: Config, c: TxContext, txs: seq<Transaction>, i: nat, e: Rejection)
    requires i < |txs|
  {
    && (forall j :: 0 <= j < i ==> TxAdmissible(env, cfg, c, txs[j]))
    && DistinctKeys(txs[..i])
    && !(TxAdmissible(env, cfg, c, txs[i]) && !KeyTaken(txs[i], KeysOf(txs[..i])))
    && (e == OutOfOrder || e == TxNotAccepted(txs[i]))
  }

  /** If a prefix of the loop is refused, so is the whole loop, for the same reason. */
  lemma {:induction false} ScanFailureSticks(env: Env, cfg: Config, c: TxContext, txs: seq<Transaction>, k: nat)
    requires k <= |txs|
    requires ScanTransactions(env, cfg, c, txs[..k]).Failure?
    ensures ScanTransactions(env, cfg, c, txs) == ScanTransactions(env, cfg, c, txs[..k])
    decreases |txs| - k
  {
    if k < |txs| {
      assert txs[..k + 1][..k] == txs[..k];
      ScanFailureSticks(env, cfg, c, txs, k + 1);
    } else {
      assert txs[..k] == txs;
    }
  }

  /** The transaction loop of pushBlock (867-934). */
  method CheckTransactions(env: Env, cfg: Config, c: TxContext, txs: seq<Transaction>)
    returns (r: Result<ScanState, Rejection>)
    ensures r == ScanTransactions(env, cfg, c, txs)
  {
    var dups: set<DedupKey> := {};
    var amount: Int64 := 0;
    var fee: Int64 := 0;
    var i := 0;
    while i < |txs|
      invariant 0 <= i <= |txs|
      invariant ScanTransactions(env, cfg, c, txs[..i]) == Success(ScanState(amount, fee, dups))
    {
      var t := txs[i];
      assert txs[..i + 1][..i] == txs[..i];
      var checked := CheckTransaction(env, cfg, c, t, dups);
      if checked.Failure? {
        ScanFailureSticks(env, cfg, c, txs, i + 1);
        return Failure(checked.error);
      }
      dups := checked.value;
      amount := Wrap64(amount + t.amount);
      fee := Wrap64(fee + t.fee);
      i := i + 1;
    }
    assert txs[..i] == txs;
    r := Success(ScanState(amount, fee, dups));
  }

  // ----------------------------------------------------------------- totals

  /**
   * The aggregate checks (936-946): the sums may not exceed the declared
   * totals, the payload digest must match, and the remainders are the
   * declared totals minus the sums, or an overflow.
   */
  function CheckTotals(b: Block, s: ScanState, digest: Digest): (r: Result<(Int64, Int64), Rejection>)
    ensures r.Success? <==> s.amount <= b.totalAmount && s.fee <= b.totalFee && digest == b.payloadHash &&
                             -TWO_63 <= b.totalAmount - s.amount < TWO_63 && -TWO_63 <= b.totalFee - s.fee < TWO_63
    ensures r.Success? ==> r.value == (b.totalAmount - s.amount, b.totalFee - s.fee)
    ensures r.Failure? ==> r.error == NotAccepted || r.error == Overflow
    ensures r == Failure(Overflow) ==> s.amount <= b.totalAmount && s.fee <= b.totalFee && digest == b.payloadHash
  {
    if s.amount > b.totalAmount || s.fee > b.totalFee then Failure(NotAccepted)
    else if digest != b.payloadHash then Failure(NotAccepted)
    else
      match SafeSubtract(b.totalAmount, s.amount)
      case None => Failure(Overflow)
      case Some(ra) =>
        match SafeSubtract(b.totalFee, s.fee)
        case None => Failure(Overflow)
        case Some(rf) => Success((ra, rf))
  }

  // ----------------------------------------------------------------- accept

  /** applyUnconfirmed succeeds for `txs[i]` after the ones before it were applied. */
  predicate Applies(env: Env, ledger: seq<Block>, txs: seq<Transaction>, i: nat)
    requires i < |txs|
  {
    env.applyUnconfirmed(ledger, txs[..i], txs[i])
  }

  /** The index of the first transaction, from `from` on, that applyUnconfirmed refuses (a double spend). */
  function FirstDoubleSpend(env: Env, ledger: seq<Block>, txs: seq<Transaction>, from: nat): (r: Option<nat>)
    requires from <= |txs|
    ensures r.Some? ==> from <= r.value < |txs| && !Applies(env, ledger, txs, r.value) &&
                        forall j :: from <= j < r.value ==> Applies(env, ledger, txs, j)
    ensures r.None? ==> forall j :: from <= j < |txs| ==> Applies(env, ledger, txs, j)
    decreases |txs| - from
  {
    if from == |txs| then None
    else if !Applies(env, ledger, txs, from) then Some(from)
    else FirstDoubleSpend(env, ledger, txs, from + 1)
  }

  /** The loop of accept (977-982) applying every transaction provisionally. */
  method ApplyAll(env: Env, ledger: seq<Block>, txs: seq<Transaction>) returns (bad: Option<nat>)
    ensures bad == FirstDoubleSpend(env, ledger, txs, 0)
  {
    var i := 0;
    while i < |txs|
      invariant 0 <= i <= |txs|
      invariant FirstDoubleSpend(env, ledger, txs, 0) == FirstDoubleSpend(env, ledger, txs, i)
    {
      if !env.applyUnconfirmed(ledger, txs[..i], txs[i]) {
        return Some(i);
      }
      i := i + 1;
    }
    bad := None;
  }

  /** The fee the AT engine and, when enabled, the subscriptions contribute (998-1003). */
  function ContractFee(env: Env, ledger: seq<Block>, b: Block, at: AtTotals): Int64 {
    if env.subscriptionsEnabled then Wrap64(at.fees + env.subscriptionFee(ledger, b.timestamp)) else at.fees
  }

  /**
   * accept, after the transactions were applied: the AT payload must
   * validate at the new height, and the remainders must be exactly what
   * the ATs and subscriptions contribute.
   */
  function CheckContracts(env: Env, ledger: seq<Block>, b: Block, remainingAmount: Int64, remainingFee: Int64, height: int)
    : (r: Option<Rejection>)
    ensures r.None? <==> env.validateATs(ledger, b.atBytes, height).Some? &&
                         remainingAmount == env.validateATs(ledger, b.atBytes, height).value.amount &&
                         remainingFee == ContractFee(env, ledger, b, env.validateATs(ledger, b.atBytes, height).value)
    ensures r.Some? ==> r.value == NotAccepted
  {
    match env.validateATs(ledger, b.atBytes, height)
    case None => Some(NotAccepted)
    case Some(at) =>
      if remainingAmount != at.amount then Some(NotAccepted)
      else if remainingFee != ContractFee(env, ledger, b, at) then Some(NotAccepted)
      else None
  }

  /** accept (974-1021) on the block already linked to the tip, at height `height`. */
  function AcceptVerdict(env: Env, ledger: seq<Block>, b: Block, remainingAmount: Int64, remainingFee: Int64, height: int)
    : (r: Option<Rejection>)
    ensures FirstDoubleSpend(env, ledger, b.transactions, 0).Some? ==>
              r == Some(TxNotAccepted(b.transactions[FirstDoubleSpend(env, ledger, b.transactions, 0).value]))
    ensures FirstDoubleSpend(env, ledger, b.transactions, 0).None? ==> r == CheckContracts(env, ledger, b, remainingAmount, remainingFee, height)
  {
    match FirstDoubleSpend(env, ledger, b.transactions, 0)
    case Some(i) => Some(TxNotAccepted(b.transactions[i]))
    case None => CheckContracts(env, ledger, b, remainingAmount, remainingFee, height)
  }

  // -------------------------------------------------------------- pushBlock

  /** What the transaction checks see when `b` is pushed onto `chain`. */
  function ContextFor(chain: seq<Block>, b: Block, now: int): TxContext
    requires |chain| >= 1
  {
    TxContext(now, b.timestamp, Last(chain).height, TxIds(chain), TxIndex(chain), chain)
  }

  /**
   * The verdict of pushBlock on `b` against `chain`: the block linked to
   * the tip, or the rejection of the first check that fails.
   */
  function PushVerdict(env: Env, cfg: Config, chain: seq<Block>, b: Block, now: int): (r: Result<Block, Rejection>)
    requires |chain| >= 1
    ensures r.Success? ==> r.value == Link(env, b, Last(chain))
    ensures ValidChain(env, cfg, chain) && r.Success? ==> ValidChain(env, cfg, chain + [r.value])
  {
    var tip := Last(chain);
    match CheckHeader(env, tip, b, now, BlockIds(chain))
    case Some(e) => Failure(e)
    case None =>
      var c := ContextFor(chain, b, now);
      match ScanTransactions(env, cfg, c, b.transactions)
      case Failure(e) => Failure(e)
      case Success(s) =>
        match CheckTotals(b, s, env.payloadDigest(b.transactions))
        case Failure(e) => Failure(e)
        case Success(rem) =>
          var linked := Link(env, b, tip);
          match AcceptVerdict(env, chain, linked, rem.0, rem.1, tip.height + 1)
          case Some(e) => Failure(e)
          case None =>
            ValidChainExtends(env, cfg, chain, b);
            Success(linked)
  }

  /**
   * The header decides first: a block pushBlock accepts meets every header
   * condition, and a header check that fails is the rejection.
   */
  lemma PushVerdictHeader(env: Env, cfg: Config, chain: seq<Block>, b: Block, now: int)
    requires |chain| >= 1
    ensures PushVerdict(env, cfg, chain, b, now).Success? ==> HeaderAdmissible(env, Last(chain), b, now, BlockIds(chain))
    ensures CheckHeader(env, Last(chain), b, now, BlockIds(chain)).Some? ==>
              PushVerdict(env, cfg, chain, b, now) == Failure(CheckHeader(env, Last(chain), b, now, BlockIds(chain)).value)
  {
  }

  /** A block naming the tip, with a fresh id and linked to the tip, extends a valid chain. */
  lemma ValidChainExtends(env: Env, cfg: Config, chain: seq<Block>, b: Block)
    requires |chain| >= 1
    requires b.previousBlockId == Last(chain).id && b.id !in BlockIds(chain)
    ensures ValidChain(env, cfg, chain) ==> ValidChain(env, cfg, chain + [Link(env, b, Last(chain))])
  {
    if ValidChain(env, cfg, chain) {
      var l := Link(env, b, Last(chain));
      var c := chain + [l];
      LinkIdempotent(env, b, Last(chain));
      assert c[1..] == chain[1..] + [l];
      ChainedFromAppend(env, chain[0], chain[1..], l);
      DistinctIdsAppend(chain, l);
    }
  }

  lemma ChainedFromAppend(env: Env, first: Block, tail: seq<Block>, l: Block)
    requires ChainedFrom(env, first, tail)
    requires LinkedTo(env, l, if tail == [] then first else Last(tail))
    ensures ChainedFrom(env, first, tail + [l])
  {
    var tail' := tail + [l];
    forall i | 0 <= i < |tail'|
      ensures LinkedTo(env, tail'[i], PredecessorIn(first, tail', i))
    {
      if i < |tail| {
        assert tail'[i] == tail[i];
        assert PredecessorIn(first, tail', i) == PredecessorIn(first, tail, i);
        assert LinkedTo(env, tail[i], PredecessorIn(first, tail, i));
      } else {
        assert tail'[i] == l;
        assert PredecessorIn(first, tail', i) == if tail == [] then first else Last(tail);
      }
    }
  }

  lemma DistinctIdsAppend(chain: seq<Block>, l: Block)
    requires DistinctIds(chain) && l.id !in BlockIds(chain)
    ensures DistinctIds(chain + [l])
  {
    var c := chain + [l];
    forall i, j | 0 <= i < j < |c| ensures c[i].id != c[j].id {
      if j == |c| - 1 {
        assert c[i].id in BlockIds(chain);
      } else {
        assert c[i] == chain[i] && c[j] == chain[j];
      }
    }
  }

  /**
   * An accepted block balances: every transaction passed its checks, no
   * two share a duplicate key, nobody double-spends, the payload digest
   * matches, and the declared totals minus the (wrapped) sums are exactly
   * the AT amount and the AT-plus-subscription fee.
   */
  lemma AcceptedBlockBalances(env: Env, cfg: Config, chain: seq<Block>, b: Block, now: int)
    requires |chain| >= 1
    requires PushVerdict(env, cfg, chain, b, now).Success?
    ensures var c := ContextFor(chain, b, now);
            forall i :: 0 <= i < |b.transactions| ==> TxAdmissible(env, cfg, c, b.transactions[i])
    ensures DistinctKeys(b.transactions)
    ensures forall i :: 0 <= i < |b.transactions| ==> Applies(env, chain, b.transactions, i)
    ensures env.payloadDigest(b.transactions) == b.payloadHash
    ensures var at := env.validateATs(chain, b.atBytes, Last(chain).height + 1);
            && Wrap64(SumAmounts(b.transactions)) <= b.totalAmount
            && Wrap64(SumFees(b.transactions)) <= b.totalFee
            && at.Some?
            && b.totalAmount - Wrap64(SumAmounts(b.transactions)) == at.value.amount
            && b.totalFee - Wrap64(SumFees(b.transactions)) == ContractFee(env, chain, b, at.value)
  {
    var c := ContextFor(chain, b, now);
    ScanSucceedsIffAllAdmissible(env, cfg, c, b.transactions);
    assert AcceptVerdict(env, chain, Link(env, b, Last(chain)), b.totalAmount - Wrap64(SumAmounts(b.transactions)),
                         b.totalFee - Wrap64(SumFees(b.transactions)), Last(chain).height + 1).None?;
  }

  /** A transaction-not-accepted rejection names a transaction of the block itself. */
  lemma RejectedTransactionBelongsToBlock(env: Env, cfg: Config, chain: seq<Block>, b: Block, now: int)
    requires |chain| >= 1
    requires PushVerdict(env, cfg, chain, b, now).Failure?
    ensures PushVerdict(env, cfg, chain, b, now).error.TxNotAccepted? ==>
              PushVerdict(env, cfg, chain, b, now).error.tx in b.transactions
  {
    var c := ContextFor(chain, b, now);
    if CheckHeader(env, Last(chain), b, now, BlockIds(chain)).None? {
      var scan := ScanTransactions(env, cfg, c, b.transactions);
      if scan.Failure? {
        ScanRejectsFirstFailing(env, cfg, c, b.transactions);
      }
    }
  }
}
