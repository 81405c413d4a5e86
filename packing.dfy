/**
 * The selection loop of generateBlock: unconfirmed transactions are taken
 * greedily, pass after pass over the pool, under a cap on their number and
 * on their payload bytes, until a pass adds nothing.
 */
module Packing {
  import opened Types
  import opened References
  import opened Validation

  /** What the selection sees: the tip's height, the new block's timestamp and the chain itself. */
  datatype PackContext = PackContext(height: int, blockTimestamp: int, ledger: seq<Block>)

  /**
   * The loop's variables: the selected transactions in the order they were
   * taken, the payload bytes and the (Java `long`) totals, the duplicate
   * keys recorded so far, and the transactions found invalid, which the
   * source removes from the unconfirmed pool.
   */
  datatype PackState = PackState(
    selected: seq<Transaction>,
    payload: nat,
    amount: Int64,
    fee: Int64,
    dups: set<DedupKey>,
    evicted: set<Transaction>)

  const Start: PackState := PackState([], 0, 0, 0, {}, {})

  /** The filters a transaction must pass before the duplicate check (1112-1129). */
  predicate Eligible(env: Env, cfg: Config, ctx: PackContext, t: Transaction) {
    && t.version == env.transactionVersion(ctx.height)
    && t.timestamp <= ctx.blockTimestamp + MAX_TIMESTAMP_DIFFERENCE
    && t.expiration >= ctx.blockTimestamp
    && (ctx.height >= cfg.automatedTransactionBlock ==> env.verifyFork(ctx.ledger, t))
  }

  /** `t` is taken when it is visited in state `st`. */
  predicate Admits(env: Env, cfg: Config, ctx: PackContext, st: PackState, t: Transaction) {
    && |st.selected| < cfg.maxTransactions
    && t !in st.selected
    && st.payload + t.size <= cfg.maxPayloadLength
    && Eligible(env, cfg, ctx, t)
    && !KeyTaken(t, st.dups)
    && env.validate(ctx.ledger, t) == Valid
  }

  /** The visit of `t` reaches isDuplicate, which records the key, and validation. */
  predicate ReachesKeyCheck(env: Env, cfg: Config, ctx: PackContext, st: PackState, t: Transaction) {
    && |st.selected| < cfg.maxTransactions
    && t !in st.selected
    && st.payload + t.size <= cfg.maxPayloadLength
    && Eligible(env, cfg, ctx, t)
    && !KeyTaken(t, st.dups)
  }

  function SumSizes(txs: seq<Transaction>): nat
    decreases |txs|
  {
    if txs == [] then 0 else SumSizes(txs[..|txs| - 1]) + Last(txs).size
  }

  /** No transaction is selected twice. */
  predicate NoRepeats(txs: seq<Transaction>) {
    forall i, j :: 0 <= i < j < |txs| ==> txs[i] != txs[j]
  }

  /** What holds of the loop's variables between two visits. */
  predicate Sound(env: Env, cfg: Config, ctx: PackContext, st: PackState) {
    && |st.selected| <= cfg.maxTransactions
    && st.payload == SumSizes(st.selected) <= cfg.maxPayloadLength
    && st.amount == Wrap64(SumAmounts(st.selected))
    && st.fee == Wrap64(SumFees(st.selected))
    && NoRepeats(st.selected)
    && DistinctKeys(st.selected)
    && KeysOf(st.selected) <= st.dups
    && (forall i :: 0 <= i < |st.selected| ==>
          Eligible(env, cfg, ctx, st.selected[i]) && env.validate(ctx.ledger, st.selected[i]) == Valid)
    && (forall t :: t in st.evicted ==> env.validate(ctx.ledger, t) == Invalid)
  }

  /** One visit of the inner loop (1100-1149), checks in the source's order. */
  function Step(env: Env, cfg: Config, ctx: PackContext, st: PackState, t: Transaction): (r: PackState)
    ensures r.selected == (if Admits(env, cfg, ctx, st, t) then st.selected + [t] else st.selected)
    ensures r.payload == (if Admits(env, cfg, ctx, st, t) then st.payload + t.size else st.payload)
    ensures r.dups == (if ReachesKeyCheck(env, cfg, ctx, st, t) then RecordKey(t, st.dups) else st.dups)
    ensures r.evicted == (if ReachesKeyCheck(env, cfg, ctx, st, t) && env.validate(ctx.ledger, t) == Invalid
                          then st.evicted + {t} else st.evicted)
    ensures !Admits(env, cfg, ctx, st, t) ==> r.amount == st.amount && r.fee == st.fee
  {
    if |st.selected| >= cfg.maxTransactions then st
    else if t in st.selected || st.payload + t.size > cfg.maxPayloadLength then st
    else if t.version != env.transactionVersion(ctx.height) then st
    else if t.timestamp > ctx.blockTimestamp + MAX_TIMESTAMP_DIFFERENCE || t.expiration < ctx.blockTimestamp then st
    else if ctx.height >= cfg.automatedTransactionBlock && !env.verifyFork(ctx.ledger, t) then st
    else if KeyTaken(t, st.dups) then st
    else
      var marked := st.(dups := RecordKey(t, st.dups));
      match env.validate(ctx.ledger, t)
      case NotCurrentlyValid => marked
      case Invalid => marked.(evicted := st.evicted + {t})
      case Valid =>
        marked.(selected := st.selected + [t], payload := st.payload + t.size,
                amount := Wrap64(st.amount + t.amount), fee := Wrap64(st.fee + t.fee))
  }

  /** A visit keeps the loop's variables sound. */
  lemma StepKeepsSound(env: Env, cfg: Config, ctx: PackContext, st: PackState, t: Transaction)
    requires Sound(env, cfg, ctx, st)
    ensures Sound(env, cfg, ctx, Step(env, cfg, ctx, st, t))
  {
    var r := Step(env, cfg, ctx, st, t);
    if Admits(env, cfg, ctx, st, t) {
      AddingKeepsSound(env, cfg, ctx, st, t);
      assert r == Added(st, t);
    } else {
      assert r.selected == st.selected && r.payload == st.payload;
      assert st.dups <= r.dups;
    }
  }

  /** The state after `t` is taken. */
  function Added(st: PackState, t: Transaction): PackState {
    st.(selected := st.selected + [t], payload := st.payload + t.size,
        amount := Wrap64(st.amount + t.amount), fee := Wrap64(st.fee + t.fee),
        dups := RecordKey(t, st.dups))
  }

  lemma AddingKeepsSound(env: Env, cfg: Config, ctx: PackContext, st: PackState, t: Transaction)
    requires Sound(env, cfg, ctx, st) && Admits(env, cfg, ctx, st, t)
    ensures Sound(env, cfg, ctx, Added(st, t))
  {
    var s := st.selected;
    var s' := s + [t];
    assert s'[..|s|] == s;
    Wrap64OfSum(SumAmounts(s), t.amount);
    Wrap64OfSum(SumFees(s), t.fee);
    AppendKeys(s, t);
    assert !KeyTaken(t, KeysOf(s));
    DistinctKeysAppend(s, t);
    NoRepeatsAppend(s, t);
    forall i | 0 <= i < |s'|
      ensures Eligible(env, cfg, ctx, s'[i]) && env.validate(ctx.ledger, s'[i]) == Valid
    {
      if i < |s| {
        assert s'[i] == s[i];
      }
    }
  }

  /** A transaction not yet selected can be appended without repeating one. */
  lemma NoRepeatsAppend(s: seq<Transaction>, t: Transaction)
    requires NoRepeats(s) && t !in s
    ensures NoRepeats(s + [t])
  {
    var s' := s + [t];
    forall i, j | 0 <= i < j < |s'| ensures s'[i] != s'[j] {
      if j == |s| {
        assert s'[i] in s;
      } else {
        assert s'[i] == s[i] && s'[j] == s[j];
      }
    }
  }

  /** One pass of the inner loop over the pool, front to back. */
  function Pass(env: Env, cfg: Config, ctx: PackContext, st: PackState, q: seq<Transaction>): (r: PackState)
    ensures Sound(env, cfg, ctx, st) ==> Sound(env, cfg, ctx, r)
    ensures st.selected <= r.selected
    ensures st.dups <= r.dups
    ensures forall t :: t in r.selected ==> t in st.selected || t in q
    ensures |r.selected| == |st.selected| ==> r.payload == st.payload && r.amount == st.amount && r.fee == st.fee
    decreases |q|
  {
    if q == [] then st
    else
      var next := Step(env, cfg, ctx, st, q[0]);
      assert Sound(env, cfg, ctx, st) ==> Sound(env, cfg, ctx, next) by {
        if Sound(env, cfg, ctx, st) {
          StepKeepsSound(env, cfg, ctx, st, q[0]);
        }
      }
      Pass(env, cfg, ctx, next, q[1..])
  }

  /** Once the cap on the number of transactions is reached, a pass changes nothing: the source's `break`. */
  lemma {:induction false} PassWhenFull(env: Env, cfg: Config, ctx: PackContext, st: PackState, q: seq<Transaction>)
    requires |st.selected| >= cfg.maxTransactions
    ensures Pass(env, cfg, ctx, st, q) == st
    decreases |q|
  {
    if q != [] {
      PassWhenFull(env, cfg, ctx, st, q[1..]);
    }
  }

  /** Passes repeated until one adds nothing (1095-1154); the result is the state after that last pass. */
  function Pack(env: Env, cfg: Config, ctx: PackContext, st: PackState, pool: seq<Transaction>): (r: PackState)
    requires Sound(env, cfg, ctx, st)
    ensures Sound(env, cfg, ctx, r)
    ensures st.selected <= r.selected
    ensures forall t :: t in r.selected ==> t in st.selected || t in pool
    decreases cfg.maxTransactions - |st.selected|
  {
    var next := Pass(env, cfg, ctx, st, pool);
    if |next.selected| == |st.selected| then next
    else Pack(env, cfg, ctx, next, pool)
  }

  /**
   * A pass that adds nothing from one state adds nothing from a state with
   * the same selection and more recorded keys.
   */
  lemma {:induction false} NoGrowthWithMoreKeys(env: Env, cfg: Config, ctx: PackContext,
                                                a: PackState, b: PackState, q: seq<Transaction>)
    requires a.selected == b.selected && a.payload == b.payload && a.dups <= b.dups
    requires Pass(env, cfg, ctx, a, q).selected == a.selected
    ensures Pass(env, cfg, ctx, b, q).selected == b.selected
    decreases |q|
  {
    if q != [] {
      var a1, b1 := Step(env, cfg, ctx, a, q[0]), Step(env, cfg, ctx, b, q[0]);
      assert Pass(env, cfg, ctx, a, q) == Pass(env, cfg, ctx, a1, q[1..]);
      assert a1.selected == a.selected;
      if KeyTaken(q[0], a.dups) {
        assert KeyTaken(q[0], b.dups);
      }
      NoGrowthWithMoreKeys(env, cfg, ctx, a1, b1, q[1..]);
    }
  }

  /**
   * The selection is a fixed point: one more pass over the pool from the
   * final state would take no further transaction.
   */
  lemma {:induction false} PackIsFixpoint(env: Env, cfg: Config, ctx: PackContext, st: PackState, pool: seq<Transaction>)
    requires Sound(env, cfg, ctx, st)
    ensures var r := Pack(env, cfg, ctx, st, pool);
            Pass(env, cfg, ctx, r, pool).selected == r.selected
    decreases cfg.maxTransactions - |st.selected|
  {
    var next := Pass(env, cfg, ctx, st, pool);
    if |next.selected| == |st.selected| {
      assert next.selected == st.selected;
      NoGrowthWithMoreKeys(env, cfg, ctx, st, next, pool);
    } else {
      PackIsFixpoint(env, cfg, ctx, next, pool);
    }
  }

  /**
   * What the selection of generateBlock promises: at most the maximum
   * number of transactions and payload bytes, no transaction twice, every
   * one from the pool, eligible and valid, distinct duplicate keys, and
   * totals that are the (wrapped) sums over the selection.
   */
  lemma SelectionBounds(env: Env, cfg: Config, ctx: PackContext, pool: seq<Transaction>)
    ensures var r := Pack(env, cfg, ctx, Start, pool);
            && |r.selected| <= cfg.maxTransactions
            && SumSizes(r.selected) == r.payload <= cfg.maxPayloadLength
            && NoRepeats(r.selected)
            && DistinctKeys(r.selected)
            && r.amount == Wrap64(SumAmounts(r.selected))
            && r.fee == Wrap64(SumFees(r.selected))
            && (forall t :: t in r.selected ==> t in pool && Eligible(env, cfg, ctx, t) && env.validate(ctx.ledger, t) == Valid)
            && (forall t :: t in r.evicted ==> env.validate(ctx.ledger, t) == Invalid)
  {
    assert Sound(env, cfg, ctx, Start);
    var r := Pack(env, cfg, ctx, Start, pool);
    forall t | t in r.selected
      ensures Eligible(env, cfg, ctx, t) && env.validate(ctx.ledger, t) == Valid
    {
      var i :| 0 <= i < |r.selected| && r.selected[i] == t;
    }
  }

  /** One visit of the inner loop as the source writes it, each `continue` a return. */
  method Visit(env: Env, cfg: Config, ctx: PackContext, cur: PackState, t: Transaction) returns (next: PackState)
    requires |cur.selected| < cfg.maxTransactions
    ensures next == Step(env, cfg, ctx, cur, t)
  {
    next := cur;
    if t in cur.selected || cur.payload + t.size > cfg.maxPayloadLength {
      return;
    }
    if t.version != env.transactionVersion(ctx.height) {
      return;
    }
    if t.timestamp > ctx.blockTimestamp + MAX_TIMESTAMP_DIFFERENCE || t.expiration < ctx.blockTimestamp {
      return;
    }
    if ctx.height >= cfg.automatedTransactionBlock && !env.verifyFork(ctx.ledger, t) {
      return;
    }
    if KeyTaken(t, cur.dups) {
      return;
    }
    var validity := env.validate(ctx.ledger, t);
    if validity == NotCurrentlyValid {
      next := cur.(dups := RecordKey(t, cur.dups));
    } else if validity == Invalid {
      next := cur.(dups := RecordKey(t, cur.dups), evicted := cur.evicted + {t});
    } else {
      next := cur.(selected := cur.selected + [t], payload := cur.payload + t.size,
                   amount := Wrap64(cur.amount + t.amount), fee := Wrap64(cur.fee + t.fee),
                   dups := RecordKey(t, cur.dups));
    }
  }

  /** The selection loop as the source writes it: an outer loop of passes and an inner loop over the pool. */
  method SelectTransactions(env: Env, cfg: Config, ctx: PackContext, pool: seq<Transaction>)
    returns (st: PackState)
    ensures st == Pack(env, cfg, ctx, Start, pool)
  {
    st := Start;
    while st.payload <= cfg.maxPayloadLength && |st.selected| <= cfg.maxTransactions
      invariant Sound(env, cfg, ctx, st)
      invariant Pack(env, cfg, ctx, Start, pool) == Pack(env, cfg, ctx, st, pool)
      decreases cfg.maxTransactions - |st.selected|
    {
      var before := |st.selected|;
      var cur := st;
      var i := 0;
      while i < |pool|
        invariant 0 <= i <= |pool|
        invariant Sound(env, cfg, ctx, cur)
        invariant Pass(env, cfg, ctx, st, pool) == Pass(env, cfg, ctx, cur, pool[i..])
      {
        var t := pool[i];
        assert pool[i..][1..] == pool[i + 1..];
        if |cur.selected| >= cfg.maxTransactions {
          PassWhenFull(env, cfg, ctx, cur, pool[i..]);
          break;
        }
        StepKeepsSound(env, cfg, ctx, cur, t);
        cur := Visit(env, cfg, ctx, cur, t);
        i := i + 1;
      }
      if i == |pool| {
        assert pool[i..] == [];
      }
      if |cur.selected| == before {
        st := cur;
        break;
      }
      st := cur;
    }
  }

  /** The unconfirmed transactions whose reference chains resolve, in pool order (1074-1081). */
  function ReferencedOnly(pool: seq<Transaction>, db: map<Digest, Transaction>, subscriptions: bool)
    : (r: seq<Transaction>)
    ensures forall t :: t in r <==> t in pool && HasAllReferenced(t, t.timestamp, 0, db, subscriptions)
    ensures |r| <= |pool|
    decreases |pool|
  {
    if pool == [] then []
    else
      var rest := ReferencedOnly(pool[..|pool| - 1], db, subscriptions);
      var t := Last(pool);
      assert forall u :: u in pool <==> u in pool[..|pool| - 1] || u == t;
      if HasAllReferenced(t, t.timestamp, 0, db, subscriptions) then rest + [t] else rest
  }

  /** The filter over one more pool entry keeps that entry exactly when its references resolve. */
  lemma ReferencedOnlyExtends(pool: seq<Transaction>, i: nat, db: map<Digest, Transaction>, subscriptions: bool)
    requires i < |pool|
    ensures ReferencedOnly(pool[..i + 1], db, subscriptions) ==
            ReferencedOnly(pool[..i], db, subscriptions) +
            (if HasAllReferenced(pool[i], pool[i].timestamp, 0, db, subscriptions) then [pool[i]] else [])
  {
    assert pool[..i + 1][..i] == pool[..i];
  }

  /** The filtering iterator drained into a list. */
  method FilterReferenced(pool: seq<Transaction>, db: map<Digest, Transaction>, subscriptions: bool)
    returns (r: seq<Transaction>)
    ensures r == ReferencedOnly(pool, db, subscriptions)
  {
    r := [];
    var i := 0;
    while i < |pool|
      invariant 0 <= i <= |pool|
      invariant r == ReferencedOnly(pool[..i], db, subscriptions)
    {
      var t := pool[i];
      ReferencedOnlyExtends(pool, i, db, subscriptions);
      if HasAllReferenced(t, t.timestamp, 0, db, subscriptions) {
        r := r + [t];
      }
      i := i + 1;
    }
    assert pool[..i] == pool;
  }
}
