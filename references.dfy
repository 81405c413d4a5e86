/**
 * hasAllReferencedTransactions: a transaction may name an earlier one by
 * full hash; the named one may in turn name another. The walk along that
 * chain must reach, within ten hops, a transaction that names nothing and
 * is less than sixty days older than the timestamp the walk started from.
 */
module References {
  import opened Types

  /**
   * One hop: the stored transaction whose full hash `t` references. While
   * subscriptions are disabled a stored transaction without a signature
   * counts as missing.
   */
  function Resolve(t: Transaction, db: map<Digest, Transaction>, subscriptions: bool): (r: Option<Transaction>)
    requires t.referencedFullHash.Some?
    ensures r.Some? <==> t.referencedFullHash.value in db &&
                         (subscriptions || db[t.referencedFullHash.value].signed)
    ensures r.Some? ==> r.value == db[t.referencedFullHash.value]
  {
    var h := t.referencedFullHash.value;
    if h in db && (subscriptions || db[h].signed) then Some(db[h]) else None
  }

  /**
   * The walk itself, `count` hops already taken. The source recurses
   * without looking at `count` until it reaches a transaction that
   * references nothing, and then demands `count < 10`; stopping as soon as
   * ten hops are taken gives the same answer on every walk that ends.
   */
  function HasAllReferenced(t: Transaction, timestamp: int, count: nat,
                            db: map<Digest, Transaction>, subscriptions: bool): bool
    decreases MAX_REFERENCE_HOPS - count
  {
    if t.referencedFullHash.None? then
      timestamp - t.timestamp < REFERENCE_WINDOW && count < MAX_REFERENCE_HOPS
    else if count >= MAX_REFERENCE_HOPS then
      false
    else
      match Resolve(t, db, subscriptions)
      case None => false
      case Some(u) => HasAllReferenced(u, timestamp, count + 1, db, subscriptions)
  }

  /** The transaction reached after `n` hops from `t`, if every hop resolves. */
  function Walk(t: Transaction, n: nat, db: map<Digest, Transaction>, subscriptions: bool): Option<Transaction>
    decreases n
  {
    if n == 0 then Some(t)
    else if t.referencedFullHash.None? then None
    else
      match Resolve(t, db, subscriptions)
      case None => None
      case Some(u) => Walk(u, n - 1, db, subscriptions)
  }

  /** After `k` hops the walk stands on a transaction that references nothing and is recent enough. */
  predicate EndsAt(t: Transaction, k: nat, timestamp: int, db: map<Digest, Transaction>, subscriptions: bool) {
    var w := Walk(t, k, db, subscriptions);
    w.Some? && w.value.referencedFullHash.None? && timestamp - w.value.timestamp < REFERENCE_WINDOW
  }

  /**
   * The reference chain of `t` resolves completely in fewer than
   * `10 - count` hops and ends at a transaction recent enough, and only then.
   */
  lemma {:induction false} HasAllReferencedMeansResolvedChain(t: Transaction, timestamp: int, count: nat,
                                                               db: map<Digest, Transaction>, subscriptions: bool)
    ensures HasAllReferenced(t, timestamp, count, db, subscriptions) <==>
            exists k: nat :: count + k < MAX_REFERENCE_HOPS && EndsAt(t, k, timestamp, db, subscriptions)
    decreases MAX_REFERENCE_HOPS - count
  {
    if t.referencedFullHash.None? {
      assert forall k: nat :: k > 0 ==> Walk(t, k, db, subscriptions).None?;
      if HasAllReferenced(t, timestamp, count, db, subscriptions) {
        assert EndsAt(t, 0, timestamp, db, subscriptions);
      }
    } else if count >= MAX_REFERENCE_HOPS {
    } else {
      assert !EndsAt(t, 0, timestamp, db, subscriptions);
      match Resolve(t, db, subscriptions)
      case None =>
        assert forall k: nat :: k > 0 ==> Walk(t, k, db, subscriptions).None?;
      case Some(u) =>
        HasAllReferencedMeansResolvedChain(u, timestamp, count + 1, db, subscriptions);
        assert forall k: nat :: k > 0 ==> Walk(t, k, db, subscriptions) == Walk(u, k - 1, db, subscriptions);
        if HasAllReferenced(t, timestamp, count, db, subscriptions) {
          var k': nat :| count + 1 + k' < MAX_REFERENCE_HOPS && EndsAt(u, k', timestamp, db, subscriptions);
          assert EndsAt(t, k' + 1, timestamp, db, subscriptions);
        } else {
          forall k: nat | count + k < MAX_REFERENCE_HOPS
            ensures !EndsAt(t, k, timestamp, db, subscriptions)
          {
            if k > 0 {
              assert !EndsAt(u, k - 1, timestamp, db, subscriptions);
            }
          }
        }
    }
  }

  /** Every entry of the chain's transaction index is stored under its own full hash. */
  lemma {:induction false} TxIndexKeyedByFullHash(c: seq<Block>)
    ensures forall h :: h in TxIndex(c) ==> TxIndex(c)[h].fullHash == h
    decreases |c|
  {
    if c != [] {
      TxIndexKeyedByFullHash(c[..|c| - 1]);
      IndexTransactionsKeyedByFullHash(Last(c).transactions);
    }
  }

  lemma {:induction false} IndexTransactionsKeyedByFullHash(ts: seq<Transaction>)
    ensures forall h :: h in IndexTransactions(ts) ==> IndexTransactions(ts)[h].fullHash == h
    decreases |ts|
  {
    if ts != [] {
      IndexTransactionsKeyedByFullHash(ts[..|ts| - 1]);
    }
  }
}
