/**
 * Rollback support: the lowest height the chain may be rolled back to,
 * the position of a block on the chain, and the order in which detached
 * blocks are handed back (tip first).
 */
module Rollback {
  import opened Types

  /**
   * getMinRollbackHeight: 0 while derived tables are not trimmed;
   * otherwise the height of the last trim when there was one, else
   * `maxRollback` below the current height (never below 0).
   */
  function MinRollbackHeight(trim: bool, lastTrimHeight: int, height: int, maxRollback: nat): (r: int)
    ensures !trim ==> r == 0
    ensures trim && lastTrimHeight > 0 ==> r == lastTrimHeight
    ensures trim && lastTrimHeight <= 0 ==> r >= 0 && r >= height - maxRollback && (r == 0 || r == height - maxRollback)
    ensures trim ==> r >= lastTrimHeight
  {
    if trim then
      (if lastTrimHeight > 0 then lastTrimHeight
       else if height - maxRollback > 0 then height - maxRollback else 0)
    else 0
  }

  /** The height the trim listener records after a block at a multiple of 1440 (155). */
  function TrimHeightAfter(height: int, maxRollback: nat): (r: int)
    ensures r >= 0 && r >= height - maxRollback
    ensures r == 0 || r == height - maxRollback
  {
    if height - maxRollback > 0 then height - maxRollback else 0
  }

  /**
   * Right after a trim, rollback is allowed down to exactly the trimmed
   * height: `maxRollback` blocks below the trimming block, and never below 0.
   */
  lemma RollbackWindowAfterTrim(height: int, maxRollback: nat, laterHeight: int)
    requires TrimHeightAfter(height, maxRollback) > 0
    ensures MinRollbackHeight(true, TrimHeightAfter(height, maxRollback), laterHeight, maxRollback)
            == height - maxRollback
  {
  }

  /** The position of the block with id `id` on the chain, searching from the genesis end. */
  function IndexOfId(c: seq<Block>, id: int): (r: nat)
    requires id in BlockIds(c)
    ensures r < |c| && c[r].id == id
    ensures forall j :: 0 <= j < r ==> c[j].id != id
    decreases |c|
  {
    if c[0].id == id then 0
    else
      assert id in BlockIds(c[1..]) by {
        var i :| 0 <= i < |c| && c[i].id == id;
        assert c[1..][i - 1] == c[i];
      }
      1 + IndexOfId(c[1..], id)
  }

  /** On a chain of distinct ids, the block with id `id` stands at one position only. */
  lemma IndexOfIdUnique(c: seq<Block>, id: int, k: nat)
    requires DistinctIds(c) && k < |c| && c[k].id == id
    ensures id in BlockIds(c) && IndexOfId(c, id) == k
  {
  }

  /** A sequence in reverse order: the tip-first order of detached blocks. */
  function Reversed<T>(s: seq<T>): (r: seq<T>)
    ensures |r| == |s|
    decreases |s|
  {
    if s == [] then [] else [Last(s)] + Reversed(s[..|s| - 1])
  }

  /** Position `k` of the reversed sequence holds position `|s| - 1 - k` of the original. */
  lemma {:induction false} ReversedAt<T>(s: seq<T>, k: nat)
    requires k < |s|
    ensures Reversed(s)[k] == s[|s| - 1 - k]
    decreases |s|
  {
    if k > 0 {
      ReversedAt(s[..|s| - 1], k - 1);
    }
  }

  /** A sequence holding the elements of `s` from the last to the first is its reverse. */
  lemma ReversedIsMirror<T>(s: seq<T>, m: seq<T>)
    requires |m| == |s| && forall i :: 0 <= i < |m| ==> m[i] == s[|s| - 1 - i]
    ensures m == Reversed(s)
  {
    forall i | 0 <= i < |m| ensures m[i] == Reversed(s)[i] {
      ReversedAt(s, i);
    }
  }

  /** Detaching one more block puts it behind the ones detached before it. */
  lemma ReversedFromOneEarlier<T>(s: seq<T>, n: nat)
    requires 0 < n <= |s|
    ensures Reversed(s[n - 1..]) == Reversed(s[n..]) + [s[n - 1]]
  {
    var a, b := Reversed(s[n - 1..]), Reversed(s[n..]) + [s[n - 1]];
    forall k | 0 <= k < |a| ensures a[k] == b[k] {
      ReversedAt(s[n - 1..], k);
      if k < |a| - 1 {
        ReversedAt(s[n..], k);
      }
    }
  }

  /**
   * Replaying the detached blocks from the last one detached to the first
   * (the reverse of the tip-first list) gives back the detached part of the
   * chain in its original order.
   */
  lemma {:induction false} ReplayOrderRestoresSuffix<T>(s: seq<T>)
    ensures Reversed(Reversed(s)) == s
    decreases |s|
  {
    if s != [] {
      var r := Reversed(s);
      forall k | 0 <= k < |s| ensures Reversed(r)[k] == s[k] {
        ReversedAt(r, k);
        ReversedAt(s, |s| - 1 - k);
      }
    }
  }

  /** The trim listener of AFTER_BLOCK_APPLY (152-160): at every 1440th height the trim height moves up. */
  function TrimAfterAccept(trim: bool, lastTrimHeight: int, height: int, maxRollback: nat): (r: int)
    ensures !trim || height % 1440 != 0 ==> r == lastTrimHeight
    ensures trim && height % 1440 == 0 ==> r == TrimHeightAfter(height, maxRollback)
    ensures lastTrimHeight >= 0 ==> r >= 0
  {
    if trim && height % 1440 == 0 then TrimHeightAfter(height, maxRollback) else lastTrimHeight
  }

  /** The trim listener run for the blocks `bs`, accepted one after another. */
  function TrimAfterBlocks(trim: bool, lastTrimHeight: int, bs: seq<Block>, maxRollback: nat): (r: int)
    ensures lastTrimHeight >= 0 ==> r >= 0
    decreases |bs|
  {
    if bs == [] then lastTrimHeight
    else TrimAfterAccept(trim, TrimAfterBlocks(trim, lastTrimHeight, bs[..|bs| - 1], maxRollback), Last(bs).height, maxRollback)
  }

  /** One more accepted block runs the listener once more. */
  lemma TrimAfterBlocksAppend(trim: bool, lastTrimHeight: int, bs: seq<Block>, b: Block, maxRollback: nat)
    ensures TrimAfterBlocks(trim, lastTrimHeight, bs + [b], maxRollback) ==
            TrimAfterAccept(trim, TrimAfterBlocks(trim, lastTrimHeight, bs, maxRollback), b.height, maxRollback)
  {
    assert (bs + [b])[..|bs|] == bs;
  }

  /** The position of the last block of `bs` at a height that is a multiple of 1440, where the listener trims. */
  function LastMark(bs: seq<Block>): (r: Option<nat>)
    ensures r.Some? ==> r.value < |bs| && bs[r.value].height % 1440 == 0 &&
                        forall j :: r.value < j < |bs| ==> bs[j].height % 1440 != 0
    ensures r.None? ==> forall j :: 0 <= j < |bs| ==> bs[j].height % 1440 != 0
    decreases |bs|
  {
    if bs == [] then None
    else if Last(bs).height % 1440 == 0 then Some(|bs| - 1)
    else
      var r := LastMark(bs[..|bs| - 1]);
      assert forall j :: 0 <= j < |bs| - 1 ==> bs[..|bs| - 1][j] == bs[j];
      r
  }

  /**
   * After a run of accepted blocks, the trim height is the one the listener
   * set at the last block of the run whose height is a multiple of 1440;
   * with trimming off, or without such a block, it is the one before the run.
   */
  lemma {:induction false} TrimAfterBlocksLastMark(trim: bool, lastTrimHeight: int, bs: seq<Block>, maxRollback: nat)
    ensures TrimAfterBlocks(trim, lastTrimHeight, bs, maxRollback) ==
            if trim && LastMark(bs).Some? then TrimHeightAfter(bs[LastMark(bs).value].height, maxRollback)
            else lastTrimHeight
    decreases |bs|
  {
    if bs != [] {
      var front := bs[..|bs| - 1];
      TrimAfterBlocksLastMark(trim, lastTrimHeight, front, maxRollback);
      if Last(bs).height % 1440 != 0 && LastMark(front).Some? {
        assert front[LastMark(front).value] == bs[LastMark(front).value];
      }
    }
  }

  // ------------------------------------------------------------- the chain

  /** On a valid chain every block stands at the position its height names. */
  lemma {:induction false} HeightIsPosition(env: Env, cfg: Config, c: seq<Block>, i: nat)
    requires ValidChain(env, cfg, c) && i < |c|
    ensures c[i].height == i
    decreases i
  {
    if i > 0 {
      HeightIsPosition(env, cfg, c, i - 1);
      assert LinkedTo(env, c[1..][i - 1], PredecessorIn(c[0], c[1..], i - 1));
    }
  }

  /** Each block of a valid chain is linked to the block before it. */
  lemma LinkedToPredecessor(env: Env, cfg: Config, c: seq<Block>, i: nat)
    requires ValidChain(env, cfg, c) && 0 < i < |c|
    ensures LinkedTo(env, c[i], c[i - 1])
  {
    assert LinkedTo(env, c[1..][i - 1], PredecessorIn(c[0], c[1..], i - 1));
  }

  /** Cutting blocks off the tip of a valid chain, down to genesis at the least, leaves a valid chain. */
  lemma ValidChainPrefix(env: Env, cfg: Config, c: seq<Block>, k: nat)
    requires ValidChain(env, cfg, c) && 1 <= k <= |c|
    ensures ValidChain(env, cfg, c[..k])
  {
    var p := c[..k];
    forall i | 0 <= i < |p[1..]| ensures LinkedTo(env, p[1..][i], PredecessorIn(p[0], p[1..], i)) {
      assert p[1..][i] == c[1..][i];
      assert PredecessorIn(p[0], p[1..], i) == PredecessorIn(c[0], c[1..], i);
    }
  }

  /** On a valid chain the tip is the genesis block exactly when the chain holds genesis alone. */
  lemma TipIsGenesisIffAlone(env: Env, cfg: Config, c: seq<Block>)
    requires ValidChain(env, cfg, c)
    ensures Last(c).id == cfg.genesisId <==> |c| == 1
  {
  }
}
