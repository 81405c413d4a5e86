/**
 * The block generateBlock builds on the tip: the transactions the
 * selection loop takes from the unconfirmed pool, the subscription and
 * contract contributions to its totals, and the header fields that tie it
 * to the tip.
 */
module Generation {
  import opened Types
  import opened References
  import opened Validation
  import opened Packing

  /** The selection on top of `chain` at time `now`, from the pool entries whose references resolve (1074-1154). */
  function Selection(env: Env, cfg: Config, chain: seq<Block>, pool: seq<Transaction>, now: int): (r: PackState)
    requires |chain| >= 1
    ensures r.payload <= cfg.maxPayloadLength
  {
    var ctx := PackContext(Last(chain).height, now, chain);
    assert Sound(env, cfg, ctx, Start);
    Pack(env, cfg, ctx, Start, ReferencedOnly(pool, TxIndex(chain), env.subscriptionsEnabled))
  }

  /**
   * The block assembled from the selection `sel` (1156-1206): the totals
   * take the subscription fees when subscriptions are enabled and the
   * contracts' totals when the contract engine yields bytes, each addition
   * a Java `long` one; the block is signed and then linked to the tip.
   *
   * Its header names the tip, carries the one accepted version and the
   * tip's hash, and is stamped `now`: pushBlock refuses it as out of order
   * exactly when the tip is not older than `now`, and otherwise only its
   * id and signatures can fail the header checks. Its payload hash is the
   * digest of its own transactions, so the digest check of the aggregate
   * checks passes. With contract bytes the payload length adds their size,
   * and stays within the cap when the engine keeps to its byte budget.
   */
  function Assemble(env: Env, cfg: Config, chain: seq<Block>, sel: PackState, now: int, publicKey: seq<bv8>): (c: Block)
    requires |chain| >= 1 && sel.payload <= cfg.maxPayloadLength
    ensures var h := CheckHeader(env, Last(chain), c, now, BlockIds(chain));
            && (h == Some(OutOfOrder) <==> now <= Last(chain).timestamp)
            && (h.None? <==> Last(chain).timestamp < now && c.id != 0 && c.id !in BlockIds(chain) &&
                             env.verifyGenerationSignature(c) && env.verifyBlockSignature(c))
    ensures c.payloadHash == env.payloadDigest(c.transactions)
    ensures c.transactions == env.sortTransactions(sel.selected)
    ensures var at := env.currentBlockATs(chain, cfg.maxPayloadLength - sel.payload, Last(chain).height + 1);
            && c.atBytes == at.bytes
            && (at.bytes.None? ==> c.payloadLength == sel.payload)
            && (at.bytes.Some? ==> c.payloadLength == sel.payload + |at.bytes.value|)
            && (at.bytes.Some? && |at.bytes.value| <= cfg.maxPayloadLength - sel.payload ==>
                  c.payloadLength <= cfg.maxPayloadLength)
  {
    var tip := Last(chain);
    var fee := if env.subscriptionsEnabled then Wrap64(sel.fee + env.subscriptionCalculateFees(chain, now)) else sel.fee;
    var at := env.currentBlockATs(chain, cfg.maxPayloadLength - sel.payload, tip.height + 1);
    var txs := env.sortTransactions(sel.selected);
    var unsigned := Block(0, BLOCK_VERSION, now, tip.id, env.blockHash(tip),
                          if at.bytes.Some? then Wrap64(sel.amount + at.amount) else sel.amount,
                          if at.bytes.Some? then Wrap64(fee + at.fees) else fee,
                          if at.bytes.Some? then sel.payload + |at.bytes.value| else sel.payload,
                          env.payloadDigest(txs), publicKey, env.generationSignature(tip),
                          txs, at.bytes, 0, 0, false, None);
    Link(env, unsigned.(id := env.signedId(unsigned)), tip)
  }

  /** The block generateBlock hands to pushBlock when the pool is `pool`. */
  function Candidate(env: Env, cfg: Config, chain: seq<Block>, pool: seq<Transaction>, now: int, publicKey: seq<bv8>): Block
    requires |chain| >= 1
  {
    Assemble(env, cfg, chain, Selection(env, cfg, chain, pool, now), now, publicKey)
  }

  /**
   * Without subscriptions and without contract bytes, the candidate's
   * totals are the wrapped sums over the selected transactions and its
   * payload length their total size, within the payload cap; the selected
   * transactions come from the pool and their references resolve.
   */
  lemma CandidateTotals(env: Env, cfg: Config, chain: seq<Block>, pool: seq<Transaction>, now: int, publicKey: seq<bv8>)
    requires |chain| >= 1
    ensures var sel := Selection(env, cfg, chain, pool, now);
            var c := Candidate(env, cfg, chain, pool, now, publicKey);
            && sel.payload == SumSizes(sel.selected)
            && (forall t :: t in sel.selected ==>
                  t in pool && HasAllReferenced(t, t.timestamp, 0, TxIndex(chain), env.subscriptionsEnabled))
            && (!env.subscriptionsEnabled && c.atBytes.None? ==>
                  c.totalAmount == Wrap64(SumAmounts(sel.selected)) && c.totalFee == Wrap64(SumFees(sel.selected)) &&
                  c.payloadLength == SumSizes(sel.selected) <= cfg.maxPayloadLength)
  {
    var ctx := PackContext(Last(chain).height, now, chain);
    var q := ReferencedOnly(pool, TxIndex(chain), env.subscriptionsEnabled);
    SelectionBounds(env, cfg, ctx, q);
  }

  /**
   * In every case of subscriptions and contract bytes: when a selection's
   * totals are the wrapped sums over what it selected (as SelectionTotals
   * shows for the candidate's selection), the block assembled from it has
   * as amount the wrapped sum of the selected amounts plus the contracts'
   * amount when there are bytes, and as fee the wrapped sum of the selected
   * fees plus the subscription fees when subscriptions are enabled plus the
   * contracts' fees when there are bytes.
   */
  lemma AssembledExactTotals(env: Env, cfg: Config, chain: seq<Block>, sel: PackState, now: int, publicKey: seq<bv8>)
    requires |chain| >= 1 && sel.payload <= cfg.maxPayloadLength
    requires sel.amount == Wrap64(SumAmounts(sel.selected)) && sel.fee == Wrap64(SumFees(sel.selected))
    ensures var c := Assemble(env, cfg, chain, sel, now, publicKey);
            var at := env.currentBlockATs(chain, cfg.maxPayloadLength - sel.payload, Last(chain).height + 1);
            && c.totalAmount == Wrap64(SumAmounts(sel.selected) + (if at.bytes.Some? then at.amount else 0))
            && c.totalFee == Wrap64(SumFees(sel.selected)
                                    + (if env.subscriptionsEnabled then env.subscriptionCalculateFees(chain, now) else 0)
                                    + (if at.bytes.Some? then at.fees else 0))
  {
    AssembledAmount(env, cfg, chain, sel, now, publicKey, SumAmounts(sel.selected));
    AssembledFee(env, cfg, chain, sel, now, publicKey, SumFees(sel.selected));
  }

  /** The selection's totals are the wrapped sums over what it selected. */
  lemma SelectionTotals(env: Env, cfg: Config, chain: seq<Block>, pool: seq<Transaction>, now: int)
    requires |chain| >= 1
    ensures var sel := Selection(env, cfg, chain, pool, now);
            sel.amount == Wrap64(SumAmounts(sel.selected)) && sel.fee == Wrap64(SumFees(sel.selected))
  {
    var ctx := PackContext(Last(chain).height, now, chain);
    SelectionBounds(env, cfg, ctx, ReferencedOnly(pool, TxIndex(chain), env.subscriptionsEnabled));
  }

  /**
   * When the selection's amount is the wrapped sum `amount`, the assembled
   * block's amount adds the contracts' amount when there are contract
   * bytes, as one wrapped sum (1156-1206).
   */
  lemma AssembledAmount(env: Env, cfg: Config, chain: seq<Block>, sel: PackState, now: int, publicKey: seq<bv8>,
                        amount: int)
    requires |chain| >= 1 && sel.payload <= cfg.maxPayloadLength
    requires sel.amount == Wrap64(amount)
    ensures var at := env.currentBlockATs(chain, cfg.maxPayloadLength - sel.payload, Last(chain).height + 1);
            Assemble(env, cfg, chain, sel, now, publicKey).totalAmount ==
              Wrap64(amount + (if at.bytes.Some? then at.amount else 0))
  {
    var at := env.currentBlockATs(chain, cfg.maxPayloadLength - sel.payload, Last(chain).height + 1);
    Wrap64OfSum(amount, if at.bytes.Some? then at.amount else 0);
  }

  /**
   * When the selection's fee is the wrapped sum `fees`, the assembled
   * block's fee adds the subscription fees when subscriptions are enabled
   * and the contracts' fees when there are contract bytes, as one wrapped
   * sum (1156-1206).
   */
  lemma AssembledFee(env: Env, cfg: Config, chain: seq<Block>, sel: PackState, now: int, publicKey: seq<bv8>,
                     fees: int)
    requires |chain| >= 1 && sel.payload <= cfg.maxPayloadLength
    requires sel.fee == Wrap64(fees)
    ensures var at := env.currentBlockATs(chain, cfg.maxPayloadLength - sel.payload, Last(chain).height + 1);
            Assemble(env, cfg, chain, sel, now, publicKey).totalFee ==
              Wrap64(fees + (if env.subscriptionsEnabled then env.subscriptionCalculateFees(chain, now) else 0)
                          + (if at.bytes.Some? then at.fees else 0))
  {
    var at := env.currentBlockATs(chain, cfg.maxPayloadLength - sel.payload, Last(chain).height + 1);
    var sub := if env.subscriptionsEnabled then env.subscriptionCalculateFees(chain, now) else 0;
    Wrap64OfSum(fees, sub);
    Wrap64OfSum(fees + sub, if at.bytes.Some? then at.fees else 0);
  }
}
