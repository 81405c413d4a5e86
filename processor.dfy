/**
 * BlockchainProcessorImpl as one object: the durable chain (tip last), the
 * download cache's staged blocks after it, the trim height, the peers
 * blacklisted, and the unconfirmed-transaction pool as far as block
 * processing touches it. Each method is one operation of the processor,
 * run to completion; the three worker threads appear as single steps.
 */
module Processor {
  import opened Types
  import opened References
  import opened Validation
  import opened Rollback
  import opened Packing
  import opened Sync
  import opened Generation

  /** How processFork ends. */
  datatype ForkOutcome =
    | Stalled              // the wait for the cache to drain never ends
    | Aborted              // an exception escapes processFork
    | Switched(pushed: nat) // the fork replaced the chain above the common block
    | Restored(replayed: nat) // the chain's own blocks were pushed back, this many of them

  /** What one step of blockImporterThread does. */
  datatype ImportOutcome =
    | Idle                 // no staged block follows the importer's last block
    | Imported(block: Block)
    | Refused(error: Rejection)
    | Restarted            // an ArithmeticException ends the run; the pool runs it again from the tip

  /** How one iteration of getMoreBlocksThread ends. */
  datatype SyncOutcome =
    | NoProgress           // the iteration returned early
    | Staged(count: nat)   // blocks added to the cache
    | ForkRejected         // the fork's difficulty fell short: the thread stops
    | ForkProcessed(fork: ForkOutcome)

  /** What a peer answers in one iteration of the download loop, request by request. */
  datatype PeerReplies = PeerReplies(
    id: PeerId,
    height: Option<int>,                  // blockchainHeight; None: null response or field absent
    cumulativeDifficulty: Option<int>,
    milestones: seq<Option<MilestoneReply>>,
    nextBlockIds: seq<Option<seq<int>>>,
    nextBlocks: Option<seq<Parsed>>)

  /** `s` with every element of `gone` removed, order kept (removeUnconfirmedTransaction). */
  function Without(s: seq<Transaction>, gone: set<Transaction>): (r: seq<Transaction>)
    ensures forall t :: t in r <==> t in s && t !in gone
    ensures |r| <= |s|
    decreases |s|
  {
    if s == [] then []
    else
      var rest := Without(s[..|s| - 1], gone);
      assert forall u :: u in s <==> u in s[..|s| - 1] || u == Last(s);
      if Last(s) in gone then rest else rest + [Last(s)]
  }

  /** downloadCache.getNextBlock: the position of the first staged block naming `id` as its predecessor. */
  function FirstFollowing(bs: seq<Block>, id: int): (r: Option<nat>)
    ensures r.Some? ==> r.value < |bs| && bs[r.value].previousBlockId == id &&
                        forall j :: 0 <= j < r.value ==> bs[j].previousBlockId != id
    ensures r.None? ==> forall j :: 0 <= j < |bs| ==> bs[j].previousBlockId != id
    decreases |bs|
  {
    if bs == [] then None
    else if bs[0].previousBlockId == id then Some(0)
    else match FirstFollowing(bs[1..], id)
      case None => None
      case Some(i) => Some(i + 1)
  }

  /** The position of the last block with id `id`. */
  function LatestWithId(bs: seq<Block>, id: int): (r: Option<nat>)
    ensures r.Some? ==> r.value < |bs| && bs[r.value].id == id && forall j :: r.value < j < |bs| ==> bs[j].id != id
    ensures r.None? <==> id !in BlockIds(bs)
    decreases |bs|
  {
    if bs == [] then None
    else if Last(bs).id == id then Some(|bs| - 1)
    else
      assert BlockIds(bs) == BlockIds(bs[..|bs| - 1]) + {Last(bs).id} by {
        forall x | x in BlockIds(bs) ensures x in BlockIds(bs[..|bs| - 1]) + {Last(bs).id} {
          var i :| 0 <= i < |bs| && bs[i].id == x;
          if i < |bs| - 1 {
            assert bs[..|bs| - 1][i] == bs[i];
          }
        }
      }
      LatestWithId(bs[..|bs| - 1], id)
  }

  /** The peers blacklistClean (302-312) blames for a block: the one that sent it, when known. */
  function Sender(b: Block): set<PeerId> {
    if b.peer.Some? then {b.peer.value} else {}
  }

  /**
   * Only the first staged block can be accepted by the importer: the one it
   * finds is pushed successfully only when it is the head of the cache,
   * and then it is already linked, and the rest stays linked behind it.
   */
  lemma FollowerIsHead(env: Env, cfg: Config, chain: seq<Block>, staged: seq<Block>, lastId: int, now: int)
    requires |chain| >= 1 && ChainedFrom(env, Last(chain), staged)
    requires FirstFollowing(staged, lastId).Some?
    requires PushVerdict(env, cfg, chain, staged[FirstFollowing(staged, lastId).value], now).Success?
    ensures FirstFollowing(staged, lastId) == Some(0)
    ensures PushVerdict(env, cfg, chain, staged[0], now) == Success(staged[0])
    ensures ChainedFrom(env, staged[0], staged[1..])
  {
    PushVerdictHeader(env, cfg, chain, staged[FirstFollowing(staged, lastId).value], now);
    assert LinkedTo(env, staged[0], PredecessorIn(Last(chain), staged, 0));
    ChainedFromTail(env, Last(chain), staged);
  }

  /**
   * From position `n0` on, `c` holds the fork blocks `picked` names, in
   * the order of the fork, each linked to the block before it.
   */
  ghost predicate PlacedFrom(env: Env, c: seq<Block>, n0: nat, picked: seq<nat>, forkBlocks: seq<Block>) {
    && 1 <= n0 && |c| == n0 + |picked|
    && (forall i :: 0 <= i < |picked| ==>
          picked[i] < |forkBlocks| && c[n0 + i] == Link(env, forkBlocks[picked[i]], c[n0 + i - 1]))
    && (forall a, b :: 0 <= a < b < |picked| ==> picked[a] < picked[b])
  }

  /** Pushing one more fork block places it after the ones placed before. */
  lemma PlacedAppend(env: Env, c: seq<Block>, n0: nat, picked: seq<nat>, forkBlocks: seq<Block>, j: nat, l: Block)
    requires PlacedFrom(env, c, n0, picked, forkBlocks)
    requires forall i :: 0 <= i < |picked| ==> picked[i] < j
    requires j < |forkBlocks| && l == Link(env, forkBlocks[j], Last(c))
    ensures PlacedFrom(env, c + [l], n0, picked + [j], forkBlocks)
    ensures (c + [l])[..n0] == c[..n0]
  {
    var c', p' := c + [l], picked + [j];
    forall i | 0 <= i < |p'|
      ensures p'[i] < |forkBlocks| && c'[n0 + i] == Link(env, forkBlocks[p'[i]], c'[n0 + i - 1])
    {
      if i < |picked| {
        assert p'[i] == picked[i] && c'[n0 + i] == c[n0 + i] && c'[n0 + i - 1] == c[n0 + i - 1];
      }
    }
  }

  /** A block of a valid chain pushed back onto the chain below it comes back unchanged. */
  lemma ReplayedBlockFits(env: Env, cfg: Config, full: seq<Block>, k: nat, now: int)
    requires ValidChain(env, cfg, full) && 1 <= k < |full|
    ensures PushVerdict(env, cfg, full[..k], full[k], now).Success? ==>
              PushVerdict(env, cfg, full[..k], full[k], now).value == full[k] &&
              full[..k] + [full[k]] == full[..k + 1]
  {
    LinkedToPredecessor(env, cfg, full, k);
    assert Last(full[..k]) == full[k - 1];
  }

  /** A block pushed onto `c` runs the trim listener once more for the blocks above position `m`. */
  lemma TrimAfterPush(cfg: Config, t0: int, c: seq<Block>, m: nat, l: Block)
    requires m <= |c|
    ensures TrimAfterBlocks(cfg.trimDerivedTables, t0, (c + [l])[m..], cfg.maxRollback) ==
            TrimAfterAccept(cfg.trimDerivedTables, TrimAfterBlocks(cfg.trimDerivedTables, t0, c[m..], cfg.maxRollback),
                            l.height, cfg.maxRollback)
  {
    assert (c + [l])[m..] == c[m..] + [l];
    TrimAfterBlocksAppend(cfg.trimDerivedTables, t0, c[m..], l, cfg.maxRollback);
  }

  /** What processFork's fork loop does: the blocks it pushed, their positions in the fork, and the rejection that ended it. */
  datatype ForkRunResult = ForkRunResult(blocks: seq<Block>, picked: seq<nat>, stop: Option<Rejection>)

  /**
   * The fork loop of processFork (650-660) from fork block `j` on, on the
   * chain `c`: a block that does not name the tip is passed over, one that
   * pushBlock accepts is appended, and the first one it refuses ends the
   * loop with that rejection.
   */
  function ForkRun(env: Env, cfg: Config, c: seq<Block>, forkBlocks: seq<Block>, j: nat, now: int): (r: ForkRunResult)
    requires |c| >= 1
    decreases |forkBlocks| - j
  {
    if j >= |forkBlocks| then ForkRunResult([], [], None)
    else if Last(c).id != forkBlocks[j].previousBlockId then ForkRun(env, cfg, c, forkBlocks, j + 1, now)
    else match PushVerdict(env, cfg, c, forkBlocks[j], now)
      case Failure(e) => ForkRunResult([], [], Some(e))
      case Success(l) =>
        var rest := ForkRun(env, cfg, c + [l], forkBlocks, j + 1, now);
        ForkRunResult([l] + rest.blocks, [j] + rest.picked, rest.stop)
  }

  /** Every block ForkRun pushes comes with the index of the fork block it came from, at or after `j`. */
  lemma {:induction false} ForkRunShape(env: Env, cfg: Config, c: seq<Block>, forkBlocks: seq<Block>, j: nat, now: int)
    requires |c| >= 1
    ensures var r := ForkRun(env, cfg, c, forkBlocks, j, now);
            && |r.blocks| == |r.picked|
            && forall i :: 0 <= i < |r.picked| ==> j <= r.picked[i] < |forkBlocks|
    decreases |forkBlocks| - j
  {
    if j < |forkBlocks| {
      if Last(c).id != forkBlocks[j].previousBlockId {
        ForkRunShape(env, cfg, c, forkBlocks, j + 1, now);
      } else if PushVerdict(env, cfg, c, forkBlocks[j], now).Success? {
        ForkRunShape(env, cfg, c + [PushVerdict(env, cfg, c, forkBlocks[j], now).value], forkBlocks, j + 1, now);
      }
    }
  }

  /** A run `blocks`/`picked` already made, followed by the run `r`. */
  function Then(blocks: seq<Block>, picked: seq<nat>, r: ForkRunResult): ForkRunResult {
    ForkRunResult(blocks + r.blocks, picked + r.picked, r.stop)
  }

  /** A run with nothing before it. */
  lemma ThenNothing(r: ForkRunResult)
    ensures Then([], [], r) == r
  {
    assert [] + r.blocks == r.blocks && [] + r.picked == r.picked;
  }

  /** Runs made one after the other. */
  lemma ThenAssoc(a: seq<Block>, p: seq<nat>, b: seq<Block>, q: seq<nat>, r: ForkRunResult)
    ensures Then(a, p, Then(b, q, r)) == Then(a + b, p + q, r)
  {
    assert a + (b + r.blocks) == (a + b) + r.blocks;
    assert p + (q + r.picked) == (p + q) + r.picked;
  }

  /** Every block of a run `r` on `c` was accepted by pushBlock on the chain as the run had left it. */
  ghost predicate RunAccepted(env: Env, cfg: Config, c: seq<Block>, forkBlocks: seq<Block>, r: ForkRunResult, now: int)
    requires |c| >= 1
  {
    && |r.blocks| == |r.picked|
    && (forall i :: 0 <= i < |r.picked| ==> r.picked[i] < |forkBlocks|)
    && forall i :: 0 <= i < |r.blocks| ==>
      PushVerdict(env, cfg, c + r.blocks[..i], forkBlocks[r.picked[i]], now) == Success(r.blocks[i])
  }

  /** Every block of a fork run was accepted on the chain as the run had left it. */
  lemma {:induction false} ForkRunAccepted(env: Env, cfg: Config, c: seq<Block>, forkBlocks: seq<Block>, j: nat, now: int)
    requires |c| >= 1
    ensures RunAccepted(env, cfg, c, forkBlocks, ForkRun(env, cfg, c, forkBlocks, j, now), now)
    decreases |forkBlocks| - j
  {
    var r := ForkRun(env, cfg, c, forkBlocks, j, now);
    ForkRunShape(env, cfg, c, forkBlocks, j, now);
    if j < |forkBlocks| && Last(c).id != forkBlocks[j].previousBlockId {
      assert r == ForkRun(env, cfg, c, forkBlocks, j + 1, now);
      ForkRunAccepted(env, cfg, c, forkBlocks, j + 1, now);
    } else if j < |forkBlocks| && PushVerdict(env, cfg, c, forkBlocks[j], now).Success? {
      var l := PushVerdict(env, cfg, c, forkBlocks[j], now).value;
      var rest := ForkRun(env, cfg, c + [l], forkBlocks, j + 1, now);
      assert r == ForkRunResult([l] + rest.blocks, [j] + rest.picked, rest.stop);
      ForkRunAccepted(env, cfg, c + [l], forkBlocks, j + 1, now);
      forall i | 0 <= i < |r.blocks|
        ensures PushVerdict(env, cfg, c + r.blocks[..i], forkBlocks[r.picked[i]], now) == Success(r.blocks[i])
      {
        if i > 0 {
          AcceptedShift(env, cfg, c, l, forkBlocks, rest, i, now);
        } else {
          assert c + r.blocks[..0] == c;
        }
      }
    }
  }

  /** One step of the fork loop: a block that does not name the tip is passed over. */
  lemma ForkRunSkips(env: Env, cfg: Config, c: seq<Block>, forkBlocks: seq<Block>, j: nat, now: int)
    requires |c| >= 1 && j < |forkBlocks| && Last(c).id != forkBlocks[j].previousBlockId
    ensures ForkRun(env, cfg, c, forkBlocks, j, now) == ForkRun(env, cfg, c, forkBlocks, j + 1, now)
  {
  }

  /** One step of the fork loop: a block that names the tip is pushed, and a refusal ends the loop. */
  lemma ForkRunPushes(env: Env, cfg: Config, c: seq<Block>, forkBlocks: seq<Block>, j: nat, now: int)
    requires |c| >= 1 && j < |forkBlocks| && Last(c).id == forkBlocks[j].previousBlockId
    ensures var v := PushVerdict(env, cfg, c, forkBlocks[j], now);
            ForkRun(env, cfg, c, forkBlocks, j, now) ==
              if v.Failure? then ForkRunResult([], [], Some(v.error))
              else Then([v.value], [j], ForkRun(env, cfg, c + [v.value], forkBlocks, j + 1, now))
  {
  }

  /** The fork loop's bookkeeping after pushBlock accepts fork block `j` as `l`, `done` having been pushed before. */
  lemma ForkRunAdvance(env: Env, cfg: Config, whole: ForkRunResult, c: seq<Block>, done: seq<Block>, picked: seq<nat>,
                       forkBlocks: seq<Block>, j: nat, l: Block, now: int)
    requires |c| >= 1 && j < |forkBlocks| && Last(c).id == forkBlocks[j].previousBlockId
    requires PushVerdict(env, cfg, c, forkBlocks[j], now) == Success(l)
    requires whole == Then(done, picked, ForkRun(env, cfg, c, forkBlocks, j, now))
    ensures whole == Then(done + [l], picked + [j], ForkRun(env, cfg, c + [l], forkBlocks, j + 1, now))
  {
    ForkRunPushes(env, cfg, c, forkBlocks, j, now);
    ThenAssoc(done, picked, [l], [j], ForkRun(env, cfg, c + [l], forkBlocks, j + 1, now));
  }

  /** The fork loop's bookkeeping when pushBlock refuses fork block `j`, `done` having been pushed before. */
  lemma ForkRunEnds(env: Env, cfg: Config, whole: ForkRunResult, c: seq<Block>, done: seq<Block>, picked: seq<nat>,
                    forkBlocks: seq<Block>, j: nat, e: Rejection, now: int)
    requires |c| >= 1 && j < |forkBlocks| && Last(c).id == forkBlocks[j].previousBlockId
    requires PushVerdict(env, cfg, c, forkBlocks[j], now) == Failure(e)
    requires whole == Then(done, picked, ForkRun(env, cfg, c, forkBlocks, j, now))
    ensures whole.blocks == done && whole.stop == Some(e) && whole.picked == picked
  {
    ForkRunPushes(env, cfg, c, forkBlocks, j, now);
    assert done + [] == done;
  }

  /** The positions `p` are strictly increasing. */
  ghost predicate Increasing(p: seq<nat>) {
    forall a, b :: 0 <= a < b < |p| ==> p[a] < p[b]
  }

  /** The `i`-th block of a run that starts with `l` is the (i-1)-th of the run after `l`. */
  lemma AcceptedShift(env: Env, cfg: Config, c: seq<Block>, l: Block, forkBlocks: seq<Block>, rest: ForkRunResult, i: nat, now: int)
    requires |c| >= 1 && |rest.blocks| == |rest.picked| && 0 < i <= |rest.blocks|
    requires forall i :: 0 <= i < |rest.picked| ==> rest.picked[i] < |forkBlocks|
    requires RunAccepted(env, cfg, c + [l], forkBlocks, rest, now)
    ensures PushVerdict(env, cfg, c + ([l] + rest.blocks)[..i], forkBlocks[rest.picked[i - 1]], now) == Success(rest.blocks[i - 1])
  {
    PrefixShift(c, l, rest.blocks, i);
    assert PushVerdict(env, cfg, (c + [l]) + rest.blocks[..i - 1], forkBlocks[rest.picked[i - 1]], now) == Success(rest.blocks[i - 1]);
  }

  /** Taking `i` blocks of a run that starts with `l` takes `l` and `i - 1` blocks of the rest. */
  lemma PrefixShift(c: seq<Block>, l: Block, rest: seq<Block>, i: nat)
    requires 0 < i <= |rest| + 1
    ensures c + ([l] + rest)[..i] == (c + [l]) + rest[..i - 1]
  {
    assert ([l] + rest)[..i] == [l] + rest[..i - 1];
  }

  /** A fork run takes the fork blocks in the fork's order. */
  lemma {:induction false} ForkRunOrdered(env: Env, cfg: Config, c: seq<Block>, forkBlocks: seq<Block>, j: nat, now: int)
    requires |c| >= 1
    ensures Increasing(ForkRun(env, cfg, c, forkBlocks, j, now).picked)
    decreases |forkBlocks| - j
  {
    if j < |forkBlocks| && Last(c).id != forkBlocks[j].previousBlockId {
      assert ForkRun(env, cfg, c, forkBlocks, j, now) == ForkRun(env, cfg, c, forkBlocks, j + 1, now);
      ForkRunOrdered(env, cfg, c, forkBlocks, j + 1, now);
    } else if j < |forkBlocks| && PushVerdict(env, cfg, c, forkBlocks[j], now).Success? {
      var l := PushVerdict(env, cfg, c, forkBlocks[j], now).value;
      var rest := ForkRun(env, cfg, c + [l], forkBlocks, j + 1, now);
      assert ForkRun(env, cfg, c, forkBlocks, j, now).picked == [j] + rest.picked;
      ForkRunShape(env, cfg, c + [l], forkBlocks, j + 1, now);
      ForkRunOrdered(env, cfg, c + [l], forkBlocks, j + 1, now);
    }
  }

  /** A fork run that ends with a rejection ends with pushBlock refusing a fork block that names the tip. */
  lemma {:induction false} ForkRunStops(env: Env, cfg: Config, c: seq<Block>, forkBlocks: seq<Block>, j: nat, now: int)
    requires |c| >= 1
    ensures var r := ForkRun(env, cfg, c, forkBlocks, j, now);
            r.stop.Some? ==>
              exists m :: j <= m < |forkBlocks| && forkBlocks[m].previousBlockId == Last(c + r.blocks).id &&
                          PushVerdict(env, cfg, c + r.blocks, forkBlocks[m], now) == Failure(r.stop.value)
    decreases |forkBlocks| - j
  {
    var r := ForkRun(env, cfg, c, forkBlocks, j, now);
    if j < |forkBlocks| && Last(c).id != forkBlocks[j].previousBlockId {
      ForkRunStops(env, cfg, c, forkBlocks, j + 1, now);
    } else if j < |forkBlocks| {
      match PushVerdict(env, cfg, c, forkBlocks[j], now)
      case Failure(e) =>
        assert c + r.blocks == c;
      case Success(l) =>
        var rest := ForkRun(env, cfg, c + [l], forkBlocks, j + 1, now);
        ForkRunStops(env, cfg, c + [l], forkBlocks, j + 1, now);
        assert c + r.blocks == (c + [l]) + rest.blocks;
    }
  }

  /** A fork run places the blocks it pushed after the chain it started on, in the fork's order. */
  lemma ForkRunPlaced(env: Env, cfg: Config, c: seq<Block>, forkBlocks: seq<Block>, now: int)
    requires |c| >= 1
    ensures var r := ForkRun(env, cfg, c, forkBlocks, 0, now);
            PlacedFrom(env, c + r.blocks, |c|, r.picked, forkBlocks)
  {
    var r := ForkRun(env, cfg, c, forkBlocks, 0, now);
    ForkRunShape(env, cfg, c, forkBlocks, 0, now);
    ForkRunAccepted(env, cfg, c, forkBlocks, 0, now);
    ForkRunOrdered(env, cfg, c, forkBlocks, 0, now);
    var full := c + r.blocks;
    forall i | 0 <= i < |r.picked|
      ensures r.picked[i] < |forkBlocks| && full[|c| + i] == Link(env, forkBlocks[r.picked[i]], full[|c| + i - 1])
    {
      assert PushVerdict(env, cfg, c + r.blocks[..i], forkBlocks[r.picked[i]], now) == Success(r.blocks[i]);
      assert Last(c + r.blocks[..i]) == full[|c| + i - 1];
    }
  }

  /**
   * A fork whose blocks name one another in turn, the first naming the
   * tip, is pushed in full when the run meets no rejection: the tip then
   * is the fork's last block.
   */
  lemma {:induction false} ForkRunAll(env: Env, cfg: Config, c: seq<Block>, forkBlocks: seq<Block>, j: nat, now: int)
    requires |c| >= 1 && j < |forkBlocks| && forkBlocks[j].previousBlockId == Last(c).id
    requires forall i :: j < i < |forkBlocks| ==> forkBlocks[i].previousBlockId == forkBlocks[i - 1].id
    requires ForkRun(env, cfg, c, forkBlocks, j, now).stop.None?
    ensures var r := ForkRun(env, cfg, c, forkBlocks, j, now);
            |r.blocks| == |forkBlocks| - j && Last(r.blocks).id == Last(forkBlocks).id
    decreases |forkBlocks| - j
  {
    match PushVerdict(env, cfg, c, forkBlocks[j], now)
    case Success(l) =>
      assert Unlinked(l) == Unlinked(forkBlocks[j]);
      if j + 1 < |forkBlocks| {
        ForkRunAll(env, cfg, c + [l], forkBlocks, j + 1, now);
      }
  }

  /** The state processFork and getMoreBlocksThread act on, as one value: all but the unconfirmed pool and the feeder record. */
  datatype Snapshot = Snapshot(chain: seq<Block>, staged: seq<Block>, trim: int, blacklisted: set<PeerId>,
                               requeued: seq<Transaction>, importerLastId: int)

  /**
   * What processFork found after the wait (`mid`, `imported` blocks having
   * been imported during it), and what its fork loop pushed.
   */
  datatype ForkTrace = ForkTrace(mid: Snapshot, imported: nat, picked: seq<nat>, forkChain: seq<Block>)

  /**
   * The importer's verdict on a staged block (264-270): one not yet
   * verified whose pre-verification fails is refused; any other is what
   * pushBlock makes of it.
   */
  function ImportVerdict(env: Env, cfg: Config, c: seq<Block>, b: Block, now: int): (r: Result<Block, Rejection>)
    requires |c| >= 1
    ensures r.Success? ==> (b.verified || env.preVerify(b)) && r == PushVerdict(env, cfg, c, b, now)
    ensures r.Failure? ==> r == Failure(NotAccepted) || r == PushVerdict(env, cfg, c, b, now)
  {
    if !b.verified && !env.preVerify(b) then Failure(NotAccepted) else PushVerdict(env, cfg, c, b, now)
  }

  /**
   * How the wait at the start of processFork (626-635) takes the state
   * `s0` to `s1`, the importer running meanwhile: the first `imported`
   * staged blocks were imported, in order, each accepted on the chain the
   * imports before it had left, with the trim listener run for each; the
   * wait ends (`drained`) exactly when the cache is empty. It stalls when
   * no staged block follows the importer's last block. It ends when a
   * block is refused: its sender is blacklisted and the cache emptied, or,
   * for an arithmetic overflow, the cache is emptied and the importer
   * starts again from the tip.
   */
  ghost predicate Drained(env: Env, cfg: Config, s0: Snapshot, s1: Snapshot, drained: bool, imported: nat, now: int) {
    && |s0.chain| >= 1 && imported <= |s0.staged|
    && ImportedInOrder(env, cfg, s0, imported, now)
    && (drained <==> s1.staged == [])
    && var m := AfterImports(cfg, s0, imported);
       if !drained then s1 == m && FirstFollowing(m.staged, m.importerLastId).None?
       else if m.staged == [] then s1 == m
       else
         && FirstFollowing(m.staged, m.importerLastId).Some?
         && var b := m.staged[FirstFollowing(m.staged, m.importerLastId).value];
            var v := ImportVerdict(env, cfg, m.chain, b, now);
            && v.Failure?
            && s1 == if v.error == Overflow then m.(staged := [], importerLastId := Last(m.chain).id)
                     else m.(staged := [], blacklisted := m.blacklisted + Sender(b))
  }

  /**
   * The state `s0` after the importer took its first `n` staged blocks onto
   * the chain, running the trim listener for each.
   */
  function AfterImports(cfg: Config, s0: Snapshot, n: nat): Snapshot
    requires n <= |s0.staged|
  {
    s0.(chain := s0.chain + s0.staged[..n], staged := s0.staged[n..],
        trim := TrimAfterBlocks(cfg.trimDerivedTables, s0.trim, s0.staged[..n], cfg.maxRollback),
        importerLastId := if n == 0 then s0.importerLastId else s0.staged[n - 1].id)
  }

  /**
   * The first `n` staged blocks of `s0` were imported in order: each was
   * accepted on the chain the imports before it had left, and the first
   * follows the importer's last block.
   */
  ghost predicate ImportedInOrder(env: Env, cfg: Config, s0: Snapshot, n: nat, now: int)
    requires |s0.chain| >= 1 && n <= |s0.staged|
  {
    && (forall i :: 0 <= i < n ==>
          ImportVerdict(env, cfg, s0.chain + s0.staged[..i], s0.staged[i], now) == Success(s0.staged[i]))
    && (n > 0 ==> s0.staged[0].previousBlockId == s0.importerLastId)
  }

  /**
   * The wait at the start of processFork part-way: `imported` staged blocks
   * of `s0` have been imported, in order, and nothing else has changed.
   */
  ghost predicate Draining(env: Env, cfg: Config, s0: Snapshot, s: Snapshot, imported: nat, now: int) {
    && |s0.chain| >= 1 && imported <= |s0.staged|
    && ImportedInOrder(env, cfg, s0, imported, now)
    && s == AfterImports(cfg, s0, imported)
  }

  /**
   * One pass of the importer (258-279) taking `s` to `s1`: without a staged
   * block that follows its last block it is Idle. The block it finds is
   * imported when ImportVerdict accepts it, and then it is the head of the
   * cache and comes onto the chain unchanged, with the trim listener run.
   * Refused, it empties the cache and blacklists its sender; an arithmetic
   * overflow empties the cache and restarts the importer from the tip.
   */
  ghost predicate Stepped(env: Env, cfg: Config, s: Snapshot, s1: Snapshot, r: ImportOutcome, now: int)
    requires |s.chain| >= 1
  {
    var next := FirstFollowing(s.staged, s.importerLastId);
    if next.None? then r == Idle && s1 == s
    else
      var b := s.staged[next.value];
      var v := ImportVerdict(env, cfg, s.chain, b, now);
      if v.Success? then
        && v.value == b && next.value == 0 && b.previousBlockId == s.importerLastId && r == Imported(b)
        && s1 == s.(chain := s.chain + [b], staged := s.staged[1..], importerLastId := b.id,
                    trim := TrimAfterAccept(cfg.trimDerivedTables, s.trim, b.height, cfg.maxRollback))
      else if v.error == Overflow then r == Restarted && s1 == s.(staged := [], importerLastId := Last(s.chain).id)
      else r == Refused(v.error) && s1 == s.(staged := [], blacklisted := s.blacklisted + Sender(b))
  }

  /** The wait starts with nothing imported. */
  lemma DrainStarts(env: Env, cfg: Config, s0: Snapshot, now: int)
    requires |s0.chain| >= 1
    ensures Draining(env, cfg, s0, s0, 0, now)
  {
    assert s0.staged[..0] == [] && s0.staged[0..] == s0.staged;
  }

  /** One pass of the importer during the wait: it stalls it, ends it, or moves it on by one block. */
  lemma DrainStep(env: Env, cfg: Config, s0: Snapshot, s: Snapshot, s1: Snapshot, r: ImportOutcome, imported: nat, now: int)
    requires Draining(env, cfg, s0, s, imported, now) && s.staged != []
    requires Stepped(env, cfg, s, s1, r, now)
    ensures !r.Imported? ==> Drained(env, cfg, s0, s1, r != Idle, imported, now)
    ensures r.Imported? ==> Draining(env, cfg, s0, s1, imported + 1, now)
  {
    if FirstFollowing(s.staged, s.importerLastId).None? {
      DrainStalls(env, cfg, s0, s, imported, now);
    } else if r.Imported? {
      DrainAdvance(env, cfg, s0, s, s1, imported, now);
    } else {
      DrainRefused(env, cfg, s0, s, s1, imported, now);
    }
  }

  /** The import of the head of the cache moves the wait on by one block. */
  lemma DrainAdvance(env: Env, cfg: Config, s0: Snapshot, s: Snapshot, s1: Snapshot, imported: nat, now: int)
    requires Draining(env, cfg, s0, s, imported, now) && s.staged != []
    requires s.staged[0].previousBlockId == s.importerLastId
    requires ImportVerdict(env, cfg, s.chain, s.staged[0], now) == Success(s.staged[0])
    requires s1 == s.(chain := s.chain + [s.staged[0]], staged := s.staged[1..], importerLastId := s.staged[0].id,
                      trim := TrimAfterAccept(cfg.trimDerivedTables, s.trim, s.staged[0].height, cfg.maxRollback))
    ensures Draining(env, cfg, s0, s1, imported + 1, now)
  {
    var st := s0.staged;
    assert s.staged[0] == st[imported];
    VerdictsExtend(env, cfg, s0.chain, st, imported, now);
    ImportAppends(s0.chain, st, imported, s.chain);
    TrimAfterBlocksNext(cfg, s0.trim, st, imported, s.trim);
    assert s1 == AfterImports(cfg, s0, imported + 1);
  }

  /** Importing the next staged block appends it to the chain and drops it from the cache. */
  lemma ImportAppends(c0: seq<Block>, st: seq<Block>, n: nat, c: seq<Block>)
    requires n < |st| && c == c0 + st[..n]
    ensures c + [st[n]] == c0 + st[..n + 1]
    ensures st[n..][1..] == st[n + 1..]
  {
    assert st[..n + 1] == st[..n] + [st[n]];
  }

  /** The trim after the first `n + 1` staged blocks is the listener run once more on the trim after `n`. */
  lemma TrimAfterBlocksNext(cfg: Config, t0: int, st: seq<Block>, n: nat, t: int)
    requires n < |st| && t == TrimAfterBlocks(cfg.trimDerivedTables, t0, st[..n], cfg.maxRollback)
    ensures TrimAfterAccept(cfg.trimDerivedTables, t, st[n].height, cfg.maxRollback) ==
            TrimAfterBlocks(cfg.trimDerivedTables, t0, st[..n + 1], cfg.maxRollback)
  {
    assert st[..n + 1] == st[..n] + [st[n]];
    TrimAfterBlocksAppend(cfg.trimDerivedTables, t0, st[..n], st[n], cfg.maxRollback);
  }

  /** The imports before position `n` and the one at `n` are the imports before `n + 1`. */
  lemma VerdictsExtend(env: Env, cfg: Config, c0: seq<Block>, st: seq<Block>, n: nat, now: int)
    requires |c0| >= 1 && n < |st|
    requires forall i :: 0 <= i < n ==> ImportVerdict(env, cfg, c0 + st[..i], st[i], now) == Success(st[i])
    requires ImportVerdict(env, cfg, c0 + st[..n], st[n], now) == Success(st[n])
    ensures forall i :: 0 <= i < n + 1 ==> ImportVerdict(env, cfg, c0 + st[..i], st[i], now) == Success(st[i])
  {
  }

  /** The wait stalls when no staged block follows the importer's last block. */
  lemma DrainStalls(env: Env, cfg: Config, s0: Snapshot, s: Snapshot, imported: nat, now: int)
    requires Draining(env, cfg, s0, s, imported, now) && s.staged != []
    requires FirstFollowing(s.staged, s.importerLastId).None?
    ensures Drained(env, cfg, s0, s, false, imported, now)
  {
  }

  /** The wait ends when the cache is empty. */
  lemma DrainEmpties(env: Env, cfg: Config, s0: Snapshot, s: Snapshot, imported: nat, now: int)
    requires Draining(env, cfg, s0, s, imported, now) && s.staged == []
    ensures Drained(env, cfg, s0, s, true, imported, now)
  {
  }

  /** The wait ends on a refused block, with the cache emptied. */
  lemma DrainRefused(env: Env, cfg: Config, s0: Snapshot, s: Snapshot, s1: Snapshot, imported: nat, now: int)
    requires Draining(env, cfg, s0, s, imported, now) && s.staged != []
    requires FirstFollowing(s.staged, s.importerLastId).Some?
    requires var b := s.staged[FirstFollowing(s.staged, s.importerLastId).value];
             var v := ImportVerdict(env, cfg, s.chain, b, now);
             && v.Failure?
             && s1 == if v.error == Overflow then s.(staged := [], importerLastId := Last(s.chain).id)
                      else s.(staged := [], blacklisted := s.blacklisted + Sender(b))
    ensures Drained(env, cfg, s0, s1, true, imported, now)
  {
  }

  /**
   * The blocks of `full` at positions `m` up to `n` were pushed back one
   * after another, each accepted by pushBlock, unchanged, on the blocks
   * below it.
   */
  ghost predicate ReplayAccepted(env: Env, cfg: Config, full: seq<Block>, m: nat, n: nat, now: int)
    requires 1 <= m && n <= |full|
  {
    forall j {:trigger PushVerdict(env, cfg, full[..j], full[j], now)} ::
      m <= j < n ==> PushVerdict(env, cfg, full[..j], full[j], now) == Success(full[j])
  }

  /** One more block accepted extends the accepted replay. */
  lemma ReplayAcceptedNext(env: Env, cfg: Config, full: seq<Block>, m: nat, n: nat, now: int)
    requires 1 <= m <= n < |full| && ReplayAccepted(env, cfg, full, m, n, now)
    requires PushVerdict(env, cfg, full[..n], full[n], now) == Success(full[n])
    ensures ReplayAccepted(env, cfg, full, m, n + 1, now)
  {
  }

  /**
   * The restore loop of processFork (677-686) on `base` cut after position
   * `k`, ending on the chain `c`: the detached blocks came back in order
   * until pushBlock refused one, each of them accepted by pushBlock on the
   * blocks below it. The outcome is Restored, with the count
   * replayed, unless that refusal was an arithmetic overflow, which escapes.
   */
  ghost predicate Replayed(env: Env, cfg: Config, r: ForkOutcome, base: seq<Block>, k: nat, c: seq<Block>, now: int) {
    && k + 1 <= |c| <= |base| && c == base[..|c|]
    && (r.Restored? || r.Aborted?)
    && (r.Restored? ==> |c| == k + 1 + r.replayed)
    && (|c| < |base| ==> PushVerdict(env, cfg, c, base[|c|], now).Failure?)
    && (r.Aborted? <==> |c| < |base| && PushVerdict(env, cfg, c, base[|c|], now) == Failure(Overflow))
    && var accepted := ReplayAccepted(env, cfg, base, k + 1, |c|, now); accepted
  }

  /**
   * How processFork takes the state `s0` to `s1` once it has rolled back
   * to the fork block, at position `k` of `s0.chain`; `forkChain` is what
   * the fork loop pushed onto the fork block (the fork blocks `picked`
   * names, as ForkRun says).
   *
   * An arithmetic overflow in the fork loop escapes. Otherwise the fork is
   * kept exactly when it pushed something and its last block has no less
   * cumulative difficulty than the former tip; the chain then is the old
   * one up to the fork block followed by `forkChain`, and the transactions
   * of the blocks it displaced are queued, tip first, for re-admission. A
   * refusal in the fork loop, or a fork that ends lower (a bad fork),
   * blacklists the peer, and nothing else does. A bad fork is rolled back
   * again, which is refused below the minimum height (computed with the
   * trim height the fork's blocks left) and then escapes; its transactions
   * are queued, tip first. A fork not kept is followed by the replay of
   * the chain's own blocks (Replayed). The trim listener runs for every
   * block pushed, and a rollback never lowers the trim height.
   */
  ghost predicate Settled(env: Env, cfg: Config, r: ForkOutcome, s0: Snapshot, k: nat, s1: Snapshot, now: int,
                          peer: PeerId, forkBlocks: seq<Block>, picked: seq<nat>, forkChain: seq<Block>)
    requires k < |s0.chain|
  {
    var base := s0.chain;
    var run := ForkRun(env, cfg, base[..k + 1], forkBlocks, 0, now);
    var crash := run.stop == Some(Overflow);
    var bad := forkChain != [] && Last(forkChain).cumulativeDifficulty < Last(base).cumulativeDifficulty;
    var pushedTrim := TrimAfterBlocks(cfg.trimDerivedTables, s0.trim, forkChain, cfg.maxRollback);
    var refusedAgain :=
      bad && base[k].height < MinRollbackHeight(cfg.trimDerivedTables, pushedTrim, Last(forkChain).height, cfg.maxRollback);
    && forkChain == run.blocks && picked == run.picked
    && PlacedFrom(env, base[..k + 1] + forkChain, k + 1, picked, forkBlocks)
    && s1.staged == [] && s1.importerLastId == s0.importerLastId
    && s1.blacklisted == (if !crash && (run.stop.Some? || bad) then s0.blacklisted + {peer} else s0.blacklisted)
    && (r.Switched? <==> !crash && forkChain != [] && !bad)
    && if crash || refusedAgain || r.Switched? then
         && s1.chain == base[..k + 1] + forkChain && s1.trim == pushedTrim
         && if r.Switched? then
              r.pushed == |forkChain| && s1.requeued == s0.requeued + AllTransactions(Reversed(base[k + 1..]))
            else r == Aborted && s1.requeued == s0.requeued
       else
         && Replayed(env, cfg, r, base, k, s1.chain, now) && k + 1 <= |s1.chain|
         && s1.trim == TrimAfterBlocks(cfg.trimDerivedTables, pushedTrim, s1.chain[k + 1..], cfg.maxRollback)
         && s1.requeued == (if bad then s0.requeued + AllTransactions(Reversed(forkChain)) else s0.requeued)
  }

  /**
   * How processFork takes `s0` to `s1` once the cache is empty: a fork
   * block not on the chain, or below the minimum rollback height, aborts
   * with nothing changed; otherwise the rollback happens and the outcome
   * is Settled.
   */
  ghost predicate Resolved(env: Env, cfg: Config, r: ForkOutcome, s0: Snapshot, s1: Snapshot, now: int,
                           peer: PeerId, forkBlocks: seq<Block>, forkId: int, picked: seq<nat>, forkChain: seq<Block>)
    requires |s0.chain| >= 1
  {
    if forkId in BlockIds(s0.chain) &&
       s0.chain[IndexOfId(s0.chain, forkId)].height >=
         MinRollbackHeight(cfg.trimDerivedTables, s0.trim, Last(s0.chain).height, cfg.maxRollback)
    then Settled(env, cfg, r, s0, IndexOfId(s0.chain, forkId), s1, now, peer, forkBlocks, picked, forkChain)
    else r == Aborted && s1 == s0
  }

  /**
   * How processFork takes `s0` to `s1`: the wait for the cache ends in
   * `t.mid` (Drained); when it stalls nothing more happens, and otherwise
   * the fork is Resolved from there.
   */
  ghost predicate ForkEnded(env: Env, cfg: Config, r: ForkOutcome, s0: Snapshot, t: ForkTrace, s1: Snapshot, now: int,
                            peer: PeerId, forkBlocks: seq<Block>, forkId: int)
  {
    && Drained(env, cfg, s0, t.mid, r != Stalled, t.imported, now)
    && (r == Stalled ==> s1 == t.mid)
    && (r != Stalled ==>
          |t.mid.chain| >= 1 && Resolved(env, cfg, r, t.mid, s1, now, peer, forkBlocks, forkId, t.picked, t.forkChain))
  }

  /**
   * How the download of getMoreBlocksThread (410-487) from `p` onto
   * `start` (the block found for the common block, if any) takes `s0` to
   * `s1`. Without blocks, or without a start block, nothing happens but
   * the blacklisting of a peer whose answer is over the cap. Onto the
   * cache tip the blocks that link are staged, and a peer whose blocks
   * stop the linking for a fault is blacklisted. Otherwise a fork that
   * stopped linking ends the round; a completed fork is refused, with the
   * peer blacklisted, when its last block falls below `curCD`, and
   * processed (ForkEnded) when it does not.
   */
  ghost predicate Downloaded(env: Env, cfg: Config, r: SyncOutcome, p: PeerReplies, commonBlockId: int,
                             start: Option<Block>, save: bool, curCD: int, now: int,
                             s0: Snapshot, trace: ForkTrace, s1: Snapshot)
  {
    var nb := NextBlocks(p.nextBlocks);
    if nb.0.None? || nb.0.value == [] || start.None? then
      r == NoProgress && s1 == s0.(blacklisted := if nb.1 then s0.blacklisted + {p.id} else s0.blacklisted)
    else
      var run := LinkAll(env, start.value, nb.0.value, p.id);
      var bl := if run.1.Stopped? && run.1.blacklist then s0.blacklisted + {p.id} else s0.blacklisted;
      if save then r == Staged(|run.0|) && s1 == s0.(staged := s0.staged + run.0, blacklisted := bl)
      else if run.1.Stopped? then r == NoProgress && s1 == s0.(blacklisted := bl)
      else if Last(run.0).cumulativeDifficulty < curCD then
        r == ForkRejected && s1 == s0.(blacklisted := s0.blacklisted + {p.id})
      else
        && r.ForkProcessed?
        && var processed := ForkEnded(env, cfg, r.fork, s0, trace, s1, now, p.id, run.0, commonBlockId);
           processed
  }

  class BlockchainProcessor {
    const env: Env
    const cfg: Config
    /** The durable chain, genesis first, tip last. */
    var chain: seq<Block>
    /** The download cache: blocks waiting for import, after the tip. */
    var staged: seq<Block>
    var lastTrimHeight: int
    var blacklisted: set<PeerId>
    /** The unconfirmed pool, in the order getAllUnconfirmedTransactions yields it. */
    var unconfirmed: seq<Transaction>
    /** Transactions handed to processLater. */
    var requeued: seq<Transaction>
    /** The importer thread's `lastId`: the block it imported last. */
    var importerLastId: int
    var lastFeeder: Option<PeerId>
    var lastFeederHeight: int

    ghost predicate Valid()
      reads this`chain, this`lastTrimHeight
    {
      ValidChain(env, cfg, chain) && lastTrimHeight >= 0
    }

    /** The staged blocks continue the chain: each names and is linked to the one before, the first to the tip. */
    ghost predicate CacheLinked()
      reads this`chain, this`staged
    {
      |chain| >= 1 && ChainedFrom(env, Last(chain), staged)
    }

    /** The state the chain operations leave alone: peers, pools, the importer's and the feeder's records. */
    function Others(): (set<PeerId>, seq<Transaction>, seq<Transaction>, int, Option<PeerId>, int)
      reads this
    {
      (blacklisted, unconfirmed, requeued, importerLastId, lastFeeder, lastFeederHeight)
    }

    /** downloadCache.getLastBlock: the last staged block, or the tip. */
    function CacheTip(): Block
      reads this`chain, this`staged
      requires |chain| >= 1
    {
      if staged == [] then Last(chain) else Last(staged)
    }

    /** downloadCache.hasBlock. */
    function Known(): set<int>
      reads this`chain, this`staged
    {
      BlockIds(chain) + BlockIds(staged)
    }

    /**
     * downloadCache.getBlock: the block with id `id` among the staged
     * blocks and the chain, the newest first.
     */
    function BlockFor(id: int): (r: Option<Block>)
      reads this`chain, this`staged
      ensures r.Some? <==> id in Known()
      ensures r.Some? ==> r.value.id == id
    {
      assert BlockIds(chain + staged) == Known() by {
        var c := chain + staged;
        forall x | x in BlockIds(c) ensures x in Known() {
          var i :| 0 <= i < |c| && c[i].id == x;
          if i < |chain| {
            assert c[i] == chain[i];
          } else {
            assert c[i] == staged[i - |chain|];
          }
        }
        forall x | x in Known() ensures x in BlockIds(c) {
          if x in BlockIds(chain) {
            var i :| 0 <= i < |chain| && chain[i].id == x;
            assert c[i] == chain[i];
          } else {
            var i :| 0 <= i < |staged| && staged[i].id == x;
            assert c[|chain| + i] == staged[i];
          }
        }
      }
      match LatestWithId(chain + staged, id)
      case None => None
      case Some(i) => Some((chain + staged)[i])
    }

    /** The cache tip is the block the cache returns for its own id. */
    lemma CacheTipFound()
      requires |chain| >= 1
      ensures BlockFor(CacheTip().id) == Some(CacheTip())
    {
      assert Last(chain + staged) == CacheTip();
    }

    /**
     * downloadCache.canBeFork: the proposed common block is known and at
     * most maxRollback blocks below the cache tip.
     */
    function CanBeFork(id: int): (r: bool)
      reads this`chain, this`staged
      requires |chain| >= 1
      ensures r <==> id in Known() && CacheTip().height - BlockFor(id).value.height <= cfg.maxRollback
    {
      match BlockFor(id)
      case None => false
      case Some(b) => CacheTip().height - b.height <= cfg.maxRollback
    }

    /** The processor's state as one value (all but the unconfirmed pool and the feeder record). */
    function State(): Snapshot
      reads this`chain, this`staged, this`lastTrimHeight, this`blacklisted, this`requeued, this`importerLastId
    {
      Snapshot(chain, staged, lastTrimHeight, blacklisted, requeued, importerLastId)
    }

    /** getMinRollbackHeight (723-726). */
    function MinRollback(): int
      reads this`chain, this`lastTrimHeight
      requires |chain| >= 1
    {
      MinRollbackHeight(cfg.trimDerivedTables, lastTrimHeight, Last(chain).height, cfg.maxRollback)
    }

    /** A node whose chain is `initial` (as the genesis setup leaves it) and whose cache is empty. */
    constructor(env: Env, cfg: Config, initial: seq<Block>)
      requires ValidChain(env, cfg, initial)
      ensures Valid() && CacheLinked()
      ensures this.env == env && this.cfg == cfg
      ensures chain == initial && staged == [] && lastTrimHeight == 0
      ensures blacklisted == {} && unconfirmed == [] && requeued == []
      ensures importerLastId == Last(initial).id && lastFeeder == None
    {
      this.env := env;
      this.cfg := cfg;
      chain := initial;
      staged := [];
      lastTrimHeight := 0;
      blacklisted := {};
      unconfirmed := [];
      requeued := [];
      importerLastId := Last(initial).id;
      lastFeeder := None;
      lastFeederHeight := 0;
    }

    /**
     * pushBlock with accept (811-1021): the block is linked to the tip and
     * appended, or the chain stays as it was and the cache is emptied. On
     * success the trim listener may move the trim height.
     */
    method PushBlock(b: Block, now: int) returns (r: Result<Block, Rejection>)
      requires Valid()
      modifies this
      ensures Valid()
      ensures r == PushVerdict(env, cfg, old(chain), b, now)
      ensures r.Success? ==> chain == old(chain) + [r.value] && staged == old(staged) &&
                             lastTrimHeight == TrimAfterAccept(cfg.trimDerivedTables, old(lastTrimHeight),
                                                               r.value.height, cfg.maxRollback)
      ensures r.Failure? ==> chain == old(chain) && staged == [] && lastTrimHeight == old(lastTrimHeight)
      ensures Others() == old(Others())
    {
      var previous := Last(chain);
      ghost var verdict := PushVerdict(env, cfg, chain, b, now);
      var header := CheckHeader(env, previous, b, now, BlockIds(chain));
      if header.Some? {
        staged := [];
        return Failure(header.value);
      }
      var ctx := ContextFor(chain, b, now);
      var scan := CheckTransactions(env, cfg, ctx, b.transactions);
      if scan.Failure? {
        assert verdict == Failure(scan.error);
        staged := [];
        return Failure(scan.error);
      }
      var totals := CheckTotals(b, scan.value, env.payloadDigest(b.transactions));
      if totals.Failure? {
        assert verdict == Failure(totals.error);
        staged := [];
        return Failure(totals.error);
      }
      var linked := Link(env, b, previous);
      var before := chain;
      chain := chain + [linked];
      var bad := ApplyAll(env, before, linked.transactions);
      assert verdict == match AcceptVerdict(env, before, linked, totals.value.0, totals.value.1, previous.height + 1)
                        case Some(e) => Failure(e)
                        case None => Success(linked);
      if bad.Some? {
        chain := before;
        staged := [];
        return Failure(TxNotAccepted(linked.transactions[bad.value]));
      }
      var contracts := CheckContracts(env, before, linked, totals.value.0, totals.value.1, previous.height + 1);
      if contracts.Some? {
        chain := before;
        staged := [];
        return Failure(contracts.value);
      }
      lastTrimHeight := TrimAfterAccept(cfg.trimDerivedTables, lastTrimHeight, linked.height, cfg.maxRollback);
      r := Success(linked);
    }

    /** popLastBlock (1053-1065): the tip is removed and its predecessor returned; genesis is never removed. */
    method PopLastBlock() returns (r: Option<Block>)
      requires Valid()
      modifies this
      ensures Valid()
      ensures old(Last(chain)).id == cfg.genesisId ==> r.None? && chain == old(chain)
      ensures old(Last(chain)).id != cfg.genesisId ==>
                |old(chain)| >= 2 && chain == old(chain)[..|old(chain)| - 1] && r == Some(Last(chain))
      ensures staged == old(staged) && lastTrimHeight == old(lastTrimHeight)
      ensures Others() == old(Others())
    {
      TipIsGenesisIffAlone(env, cfg, chain);
      if Last(chain).id == cfg.genesisId {
        return None;
      }
      ValidChainPrefix(env, cfg, chain, |chain| - 1);
      chain := chain[..|chain| - 1];
      r := Some(Last(chain));
    }

    /**
     * popOffTo (1023-1047): refused below the minimum rollback height; a
     * block not on the chain pops nothing; otherwise the chain is cut back
     * to that block and the blocks above it are returned, tip first.
     */
    method PopOffTo(target: Block) returns (r: Option<seq<Block>>)
      requires Valid()
      modifies this
      ensures Valid()
      ensures target.height < old(MinRollback()) ==> r.None? && chain == old(chain)
      ensures target.height >= old(MinRollback()) && target.id !in BlockIds(old(chain)) ==>
                r == Some([]) && chain == old(chain)
      ensures target.height >= old(MinRollback()) && target.id in BlockIds(old(chain)) ==>
                var k := IndexOfId(old(chain), target.id);
                chain == old(chain)[..k + 1] && r == Some(Reversed(old(chain)[k + 1..]))
      ensures staged == old(staged) && lastTrimHeight == old(lastTrimHeight)
      ensures Others() == old(Others())
    {
      if target.height < MinRollback() {
        return None;
      }
      if target.id !in BlockIds(chain) {
        return Some([]);
      }
      var popped := PopDownTo(target);
      r := Some(popped);
    }
  
    /** The loop of popOffTo: pop until the target block, or genesis, is the tip. */
    method PopDownTo(target: Block) returns (popped: seq<Block>)
      requires Valid() && target.id in BlockIds(chain)
      modifies this
      ensures Valid()
      ensures var k := IndexOfId(old(chain), target.id);
              chain == old(chain)[..k + 1] && popped == Reversed(old(chain)[k + 1..])
      ensures staged == old(staged) && lastTrimHeight == old(lastTrimHeight)
      ensures Others() == old(Others())
    {
      ghost var c0 := chain;
      ghost var k := IndexOfId(chain, target.id);
      ghost var n := |chain|;
      var block := Last(chain);
      popped := [];
      while block.id != target.id && block.id != cfg.genesisId
        invariant Valid()
        invariant k < n <= |c0| && |chain| == n && chain == c0[..n] && block == c0[n - 1]
        invariant popped == Reversed(c0[n..])
        invariant staged == old(staged) && lastTrimHeight == old(lastTrimHeight)
        invariant Others() == old(Others())
        decreases n
      {
        assert n - 1 != k;
        ReversedFromOneEarlier(c0, n);
        popped := popped + [block];
        assert Last(chain) == block;
        var previous := PopLastBlock();
        n := n - 1;
        assert chain == c0[..n] && previous == Some(Last(chain));
        block := previous.value;
      }
      if block.id == target.id {
        IndexOfIdUnique(c0, target.id, n - 1);
      } else {
        TipIsGenesisIffAlone(env, cfg, chain);
      }
      assert n == k + 1;
    }

    /**
     * One pass of blockImporterThread's inner loop (258-279): the staged
     * block that follows the importer's last block is pre-verified when it
     * is not yet, and pushed. A refusal blacklists its sender and empties
     * the cache; an arithmetic overflow ends the run, and the next run starts from the tip.
     */
    method ImportStep(now: int) returns (r: ImportOutcome)
      requires Valid() && CacheLinked()
      modifies this
      ensures Valid() && CacheLinked()
      ensures Stepped(env, cfg, old(State()), State(), r, now)
      ensures unconfirmed == old(unconfirmed)
      ensures lastFeeder == old(lastFeeder) && lastFeederHeight == old(lastFeederHeight)
    {
      var next := FirstFollowing(staged, importerLastId);
      if next.None? {
        return Idle;
      }
      var block := staged[next.value];
      if !block.verified && !env.preVerify(block) {
        blacklisted := blacklisted + Sender(block);
        staged := [];
        return Refused(NotAccepted);
      }
      r := ImportFollower(next.value, now);
    }

    /** The push of ImportStep, once the block is found and pre-verified. */
    method ImportFollower(i: nat, now: int) returns (r: ImportOutcome)
      requires Valid() && CacheLinked()
      requires FirstFollowing(staged, importerLastId) == Some(i)
      modifies this
      ensures Valid() && CacheLinked()
      ensures r.Imported? || r.Refused? || r == Restarted
      ensures r.Imported? ==>
                && i == 0 && r.block == old(staged)[0]
                && PushVerdict(env, cfg, old(chain), r.block, now) == Success(r.block)
                && chain == old(chain) + [r.block] && staged == old(staged)[1..]
                && lastTrimHeight == TrimAfterAccept(cfg.trimDerivedTables, old(lastTrimHeight), r.block.height, cfg.maxRollback)
                && importerLastId == r.block.id && blacklisted == old(blacklisted)
      ensures r.Refused? || r == Restarted ==>
                chain == old(chain) && staged == [] && lastTrimHeight == old(lastTrimHeight)
      ensures r.Refused? ==>
                && PushVerdict(env, cfg, old(chain), old(staged)[i], now) == Failure(r.error)
                && r.error != Overflow && importerLastId == old(importerLastId)
                && blacklisted == old(blacklisted) + Sender(old(staged)[i])
      ensures r == Restarted ==>
                PushVerdict(env, cfg, old(chain), old(staged)[i], now) == Failure(Overflow) &&
                importerLastId == Last(chain).id && blacklisted == old(blacklisted)
      ensures unconfirmed == old(unconfirmed) && requeued == old(requeued)
      ensures lastFeeder == old(lastFeeder) && lastFeederHeight == old(lastFeederHeight)
    {
      var block := staged[i];
      ghost var s0, c0 := staged, chain;
      var pushed := PushBlock(block, now);
      if pushed.Failure? {
        r := AbandonFollower(block, pushed.error);
        return;
      }
      FollowerIsHead(env, cfg, c0, s0, importerLastId, now);
      importerLastId := block.id;
      staged := staged[1..];
      r := Imported(block);
    }

    /**
     * A follower the push refused. An arithmetic overflow escapes to the
     * catch-all handler of the thread (297), which ends the run; the pool
     * runs it again, and the new run starts from the tip (255). Any other
     * rejection blacklists the block's sender (273-276).
     */
    method AbandonFollower(block: Block, e: Rejection) returns (r: ImportOutcome)
      requires Valid() && staged == []
      modifies this
      ensures Valid() && staged == [] && chain == old(chain) && lastTrimHeight == old(lastTrimHeight)
      ensures e == Overflow ==> r == Restarted && importerLastId == Last(chain).id && blacklisted == old(blacklisted)
      ensures e != Overflow ==> r == Refused(e) && importerLastId == old(importerLastId) &&
                                blacklisted == old(blacklisted) + Sender(block)
      ensures unconfirmed == old(unconfirmed) && requeued == old(requeued)
      ensures lastFeeder == old(lastFeeder) && lastFeederHeight == old(lastFeederHeight)
    {
      if e == Overflow {
        importerLastId := Last(chain).id;
        return Restarted;
      }
      blacklisted := blacklisted + Sender(block);
      r := Refused(e);
    }

    /**
     * processPeerBlock (729-749): an announced block is staged only when it
     * names the cache's last block, and then with the next height and its
     * cumulative difficulty computed from that block.
     */
    method ProcessPeerBlock(announced: Option<Block>)
      requires Valid() && CacheLinked()
      modifies this
      ensures Valid() && CacheLinked()
      ensures if announced.Some? && announced.value.previousBlockId == old(CacheTip()).id
              then staged == old(staged) + [Link(env, announced.value, old(CacheTip()))]
              else staged == old(staged)
      ensures chain == old(chain) && lastTrimHeight == old(lastTrimHeight) && Others() == old(Others())
    {
      if announced.None? {
        return;
      }
      var tip := CacheTip();
      var b := announced.value;
      if tip.id == b.previousBlockId {
        var l := Link(env, b, tip);
        LinkIdempotent(env, b, tip);
        ChainedFromAppend(env, Last(chain), staged, l);
        staged := staged + [l];
      }
    }

    /** One pass of the importer during the wait: it stalls it, ends it, or moves it on by one block. */
    method DrainOne(ghost s0: Snapshot, ghost imported: nat, now: int) returns (r: ImportOutcome)
      requires Valid() && CacheLinked() && staged != []
      requires Draining(env, cfg, s0, State(), imported, now)
      modifies this
      ensures Valid() && CacheLinked()
      ensures !r.Imported? ==> Drained(env, cfg, s0, State(), r != Idle, imported, now)
      ensures r.Imported? ==> Draining(env, cfg, s0, State(), imported + 1, now) && |staged| < |old(staged)|
      ensures unconfirmed == old(unconfirmed)
      ensures lastFeeder == old(lastFeeder) && lastFeederHeight == old(lastFeederHeight)
    {
      ghost var s := State();
      r := ImportStep(now);
      DrainStep(env, cfg, s0, s, State(), r, imported, now);
    }

    /**
     * The wait at the start of processFork (626-635): the importer runs
     * until the cache is empty; when it finds nothing to import while
     * blocks remain, the wait does not end. What it leaves is Drained.
     */
    method DrainCache(now: int) returns (drained: bool, ghost imported: nat)
      requires Valid() && CacheLinked()
      modifies this
      ensures Valid() && CacheLinked()
      ensures Drained(env, cfg, old(State()), State(), drained, imported, now)
      ensures unconfirmed == old(unconfirmed)
      ensures lastFeeder == old(lastFeeder) && lastFeederHeight == old(lastFeederHeight)
    {
      ghost var s0 := State();
      imported := 0;
      DrainStarts(env, cfg, s0, now);
      var step := Idle;
      while staged != []
        invariant Valid() && CacheLinked()
        invariant Draining(env, cfg, s0, State(), imported, now)
        invariant unconfirmed == old(unconfirmed)
        invariant lastFeeder == old(lastFeeder) && lastFeederHeight == old(lastFeederHeight)
        decreases |staged|
      {
        step := DrainOne(s0, imported, now);
        if !step.Imported? {
          return step != Idle, imported;
        }
        imported := imported + 1;
      }
      DrainEmpties(env, cfg, s0, State(), imported, now);
      drained := true;
    }

    /**
     * The fork loop of processFork (650-660): every fork block that names
     * the tip is pushed; the first refusal blacklists the peer and ends the
     * loop, an arithmetic overflow escapes it. The loop does what ForkRun
     * says, and the trim listener runs for every block it pushes.
     */
    method PushFork(peer: PeerId, forkBlocks: seq<Block>, now: int)
      returns (pushed: nat, crashed: bool, ghost picked: seq<nat>)
      requires Valid() && staged == []
      modifies this
      ensures Valid() && staged == []
      ensures var run := ForkRun(env, cfg, old(chain), forkBlocks, 0, now);
              && chain == old(chain) + run.blocks && pushed == |run.blocks| && picked == run.picked
              && lastTrimHeight == TrimAfterBlocks(cfg.trimDerivedTables, old(lastTrimHeight), run.blocks, cfg.maxRollback)
              && (crashed <==> run.stop == Some(Overflow))
              && blacklisted == if run.stop.Some? && !crashed then old(blacklisted) + {peer} else old(blacklisted)
      ensures PlacedFrom(env, chain, |old(chain)|, picked, forkBlocks)
      ensures unconfirmed == old(unconfirmed) && requeued == old(requeued)
      ensures importerLastId == old(importerLastId)
      ensures lastFeeder == old(lastFeeder) && lastFeederHeight == old(lastFeederHeight)
    {
      var refused;
      pushed, refused, picked := PushForkLoop(forkBlocks, now);
      crashed := false;
      if refused.Some? {
        if refused.value == Overflow {
          crashed := true;
        } else {
          blacklisted := blacklisted + {peer};
        }
      }
    }

    /** The loop of PushFork: it pushes what ForkRun says and stops where it stops. */
    method PushForkLoop(forkBlocks: seq<Block>, now: int)
      returns (pushed: nat, refused: Option<Rejection>, ghost picked: seq<nat>)
      requires Valid() && staged == []
      modifies this
      ensures Valid() && staged == [] && Others() == old(Others())
      ensures var run := ForkRun(env, cfg, old(chain), forkBlocks, 0, now);
              && chain == old(chain) + run.blocks && pushed == |run.blocks| && picked == run.picked
              && refused == run.stop
              && lastTrimHeight == TrimAfterBlocks(cfg.trimDerivedTables, old(lastTrimHeight), run.blocks, cfg.maxRollback)
      ensures PlacedFrom(env, chain, |old(chain)|, picked, forkBlocks)
    {
      ghost var whole := ForkRun(env, cfg, chain, forkBlocks, 0, now);
      ForkRunPlaced(env, cfg, chain, forkBlocks, now);
      ghost var done := [];
      ThenNothing(whole);
      pushed, picked := 0, [];
      var j := 0;
      refused := None;
      while j < |forkBlocks|
        invariant 0 <= j <= |forkBlocks| && refused.None?
        invariant Valid() && staged == [] && Others() == old(Others())
        invariant chain == old(chain) + done && pushed == |done|
        invariant lastTrimHeight == TrimAfterBlocks(cfg.trimDerivedTables, old(lastTrimHeight), done, cfg.maxRollback)
        invariant whole == Then(done, picked, ForkRun(env, cfg, chain, forkBlocks, j, now))
      {
        var one;
        one, refused := ForkTurn(whole, old(chain), old(lastTrimHeight), done, picked, forkBlocks, j, now);
        if refused.Some? {
          break;
        }
        if one {
          pushed, picked, done := pushed + 1, picked + [j], done + [Last(chain)];
        }
        j := j + 1;
      }
      assert done + [] == done;
    }

    /**
     * One turn of the fork loop kept in step with ForkRun: `whole` is the
     * run, `done` and `picked` what the turns before pushed onto `c0`.
     */
    method ForkTurn(ghost whole: ForkRunResult, ghost c0: seq<Block>, ghost t0: int, ghost done: seq<Block>,
                    ghost picked: seq<nat>, forkBlocks: seq<Block>, j: nat, now: int)
      returns (pushedOne: bool, refused: Option<Rejection>)
      requires j < |forkBlocks| && Valid() && staged == [] && chain == c0 + done
      requires lastTrimHeight == TrimAfterBlocks(cfg.trimDerivedTables, t0, done, cfg.maxRollback)
      requires whole == Then(done, picked, ForkRun(env, cfg, chain, forkBlocks, j, now))
      modifies this
      ensures Valid() && staged == [] && Others() == old(Others())
      ensures refused.Some? ==>
                && chain == old(chain) && lastTrimHeight == old(lastTrimHeight)
                && whole.blocks == done && whole.stop == refused && whole.picked == picked
      ensures refused.None? ==>
                var done' := if pushedOne then done + [Last(chain)] else done;
                && chain == c0 + done'
                && lastTrimHeight == TrimAfterBlocks(cfg.trimDerivedTables, t0, done', cfg.maxRollback)
                && whole == Then(done', if pushedOne then picked + [j] else picked, ForkRun(env, cfg, chain, forkBlocks, j + 1, now))
    {
      var named;
      named, refused := PushIfNamed(forkBlocks[j], now);
      pushedOne := named && refused.None?;
      if !named {
        ForkRunSkips(env, cfg, chain, forkBlocks, j, now);
      } else if refused.Some? {
        ForkRunEnds(env, cfg, whole, chain, done, picked, forkBlocks, j, refused.value, now);
      } else {
        ForkRunAdvance(env, cfg, whole, c0 + done, done, picked, forkBlocks, j, Last(chain), now);
        TrimAfterBlocksAppend(cfg.trimDerivedTables, t0, done, Last(chain), cfg.maxRollback);
      }
    }

    /** One turn of the fork loop (651-658): the block is pushed when it names the tip. */
    method PushIfNamed(block: Block, now: int) returns (named: bool, refused: Option<Rejection>)
      requires Valid() && staged == []
      modifies this
      ensures Valid() && staged == [] && Others() == old(Others())
      ensures named <==> Last(old(chain)).id == block.previousBlockId
      ensures !named ==> refused.None? && chain == old(chain) && lastTrimHeight == old(lastTrimHeight)
      ensures named ==> match PushVerdict(env, cfg, old(chain), block, now)
                        case Failure(e) => refused == Some(e) && chain == old(chain) && lastTrimHeight == old(lastTrimHeight)
                        case Success(l) =>
                          && refused.None? && chain == old(chain) + [l]
                          && lastTrimHeight == TrimAfterAccept(cfg.trimDerivedTables, old(lastTrimHeight), l.height, cfg.maxRollback)
    {
      named, refused := false, None;
      if Last(chain).id == block.previousBlockId {
        named := true;
        var result := PushBlock(block, now);
        if result.Failure? {
          refused := Some(result.error);
        }
      }
    }

    /**
     * The restore loop of processFork (677-686): the detached blocks, held
     * tip first in `mine`, are pushed back from the last one detached, until
     * one is refused. `full` is the chain they were detached from. Every
     * block put back was accepted by pushBlock on the blocks below it, and
     * the trim listener runs for it.
     */
    method Restore(ghost full: seq<Block>, mine: seq<Block>, now: int) returns (n: nat, crashed: bool)
      requires Valid() && staged == []
      requires ValidChain(env, cfg, full) && |chain| <= |full| && chain == full[..|chain|]
      requires mine == Reversed(full[|chain|..])
      modifies this
      ensures Valid() && staged == []
      ensures |old(chain)| + n <= |full| && chain == full[..|old(chain)| + n]
      ensures |chain| < |full| ==> PushVerdict(env, cfg, chain, full[|chain|], now).Failure? &&
                                   (crashed <==> PushVerdict(env, cfg, chain, full[|chain|], now).error == Overflow)
      ensures |chain| == |full| ==> !crashed
      ensures var accepted := ReplayAccepted(env, cfg, full, |old(chain)|, |chain|, now); accepted
      ensures lastTrimHeight == TrimAfterBlocks(cfg.trimDerivedTables, old(lastTrimHeight), chain[|old(chain)|..], cfg.maxRollback)
      ensures Others() == old(Others())
    {
      ghost var m := |chain|;
      n, crashed := 0, false;
      var i := |mine|;
      while i > 0
        invariant 0 <= i <= |mine| && n == |mine| - i
        invariant Valid() && staged == [] && Others() == old(Others())
        invariant chain == full[..m + n]
        invariant var accepted := ReplayAccepted(env, cfg, full, m, |chain|, now); accepted
        invariant lastTrimHeight == TrimAfterBlocks(cfg.trimDerivedTables, old(lastTrimHeight), chain[m..], cfg.maxRollback)
        decreases i
      {
        i := i - 1;
        var block := mine[i];
        ReversedAt(full[m..], i);
        var refused := RestoreTurn(full, m, old(lastTrimHeight), block, now);
        if refused.Some? {
          crashed := refused.value == Overflow;
          return;
        }
        n := n + 1;
      }
    }

    /** A turn of the restore loop that keeps the replay accepted so far accepted. */
    method RestoreTurn(ghost full: seq<Block>, ghost m: nat, ghost t0: int, block: Block, now: int)
      returns (refused: Option<Rejection>)
      requires Valid() && staged == [] && ValidChain(env, cfg, full)
      requires 1 <= m <= |chain| < |full| && chain == full[..|chain|] && block == full[|chain|]
      requires lastTrimHeight == TrimAfterBlocks(cfg.trimDerivedTables, t0, chain[m..], cfg.maxRollback)
      requires ReplayAccepted(env, cfg, full, m, |chain|, now)
      modifies this
      ensures Valid() && staged == [] && Others() == old(Others())
      ensures refused.None? <==> PushVerdict(env, cfg, old(chain), block, now).Success?
      ensures refused.Some? ==> refused == Some(PushVerdict(env, cfg, old(chain), block, now).error) && chain == old(chain)
      ensures refused.None? ==> chain == full[..|old(chain)| + 1]
      ensures lastTrimHeight == TrimAfterBlocks(cfg.trimDerivedTables, t0, chain[m..], cfg.maxRollback)
      ensures |chain| <= |full| && ReplayAccepted(env, cfg, full, m, |chain|, now)
    {
      refused := PushBack(full, m, t0, block, now);
      if refused.None? {
        ReplayAcceptedNext(env, cfg, full, m, |old(chain)|, now);
      }
    }

    /**
     * One turn of the restore loop (679-685): the next detached block,
     * `full[|chain|]`, is pushed back; accepted, it comes back unchanged and
     * the trim listener runs for it.
     */
    method PushBack(ghost full: seq<Block>, ghost m: nat, ghost t0: int, block: Block, now: int)
      returns (refused: Option<Rejection>)
      requires Valid() && staged == [] && ValidChain(env, cfg, full)
      requires 1 <= m <= |chain| < |full| && chain == full[..|chain|] && block == full[|chain|]
      requires lastTrimHeight == TrimAfterBlocks(cfg.trimDerivedTables, t0, chain[m..], cfg.maxRollback)
      modifies this
      ensures Valid() && staged == [] && Others() == old(Others())
      ensures refused.None? <==> PushVerdict(env, cfg, old(chain), block, now).Success?
      ensures refused.Some? ==> refused == Some(PushVerdict(env, cfg, old(chain), block, now).error) && chain == old(chain)
      ensures refused.None? ==> chain == full[..|old(chain)| + 1] && PushVerdict(env, cfg, old(chain), block, now) == Success(block)
      ensures lastTrimHeight == TrimAfterBlocks(cfg.trimDerivedTables, t0, chain[m..], cfg.maxRollback)
    {
      ReplayedBlockFits(env, cfg, full, |chain|, now);
      TrimAfterPush(cfg, t0, chain, m, block);
      var result := PushBlock(block, now);
      refused := if result.Failure? then Some(result.error) else None;
    }

    /**
     * processFork (624-693): wait for the cache to drain, then resolve the
     * fork against the chain the import left (ForkEnded).
     */
    method ProcessFork(peer: PeerId, forkBlocks: seq<Block>, forkId: int, now: int)
      returns (r: ForkOutcome, ghost trace: ForkTrace)
      requires Valid() && CacheLinked()
      modifies this
      ensures Valid() && CacheLinked()
      ensures ForkEnded(env, cfg, r, old(State()), trace, State(), now, peer, forkBlocks, forkId)
      ensures unconfirmed == old(unconfirmed)
      ensures lastFeeder == old(lastFeeder) && lastFeederHeight == old(lastFeederHeight)
    {
      var drained;
      ghost var imported;
      drained, imported := DrainCache(now);
      ghost var mid := State();
      if !drained {
        return Stalled, ForkTrace(mid, imported, [], []);
      }
      ghost var picked, forkChain;
      r, picked, forkChain := ResolveFork(peer, forkBlocks, forkId, now);
      trace := ForkTrace(mid, imported, picked, forkChain);
    }

    /**
     * processFork once the cache is empty (637-692): roll back to the fork
     * block, push the fork, and keep it unless it pushed nothing or ended
     * below the former cumulative difficulty; otherwise roll back again and
     * replay the blocks detached first. The cache is emptied at the end. A
     * fork block that is not on the chain, a rollback below the minimum
     * height and an arithmetic overflow abort the processing (Resolved).
     */
    method ResolveFork(peer: PeerId, forkBlocks: seq<Block>, forkId: int, now: int)
      returns (r: ForkOutcome, ghost picked: seq<nat>, ghost forkChain: seq<Block>)
      requires Valid() && staged == []
      modifies this
      ensures Valid() && staged == [] && r != Stalled
      ensures Resolved(env, cfg, r, old(State()), State(), now, peer, forkBlocks, forkId, picked, forkChain)
      ensures unconfirmed == old(unconfirmed)
      ensures lastFeeder == old(lastFeeder) && lastFeederHeight == old(lastFeederHeight)
    {
      ghost var s0 := State();
      picked, forkChain := [], [];
      if forkId !in BlockIds(chain) {
        return Aborted, picked, forkChain;   // blockchain.getBlock yields null, and popOffTo dereferences it
      }
      var forkBlock := chain[IndexOfId(chain, forkId)];
      ghost var k := IndexOfId(chain, forkId);
      var curCumulativeDifficulty := Last(chain).cumulativeDifficulty;
      var popped := PopOffTo(forkBlock);
      if popped.None? {
        return Aborted, picked, forkChain;
      }
      var mine := popped.value;
      r, picked, forkChain := SettleFork(peer, forkBlocks, forkBlock, curCumulativeDifficulty, mine, s0, k, now);
    }

    /**
     * processFork after the first rollback (648-690): `s0` is the state
     * before it, `k` the fork block's position and `mine` the blocks it
     * detached, tip first. A fork that pushed something and kept the
     * cumulative difficulty stays, and the transactions of `mine` are
     * queued for re-admission; otherwise the blocks of `mine` are replayed
     * (Settled).
     */
    method SettleFork(peer: PeerId, forkBlocks: seq<Block>, forkBlock: Block, curCumulativeDifficulty: int,
                      mine: seq<Block>, ghost s0: Snapshot, ghost k: nat, now: int)
      returns (r: ForkOutcome, ghost picked: seq<nat>, ghost forkChain: seq<Block>)
      requires Valid() && staged == [] && s0.staged == []
      requires ValidChain(env, cfg, s0.chain) && k < |s0.chain| && chain == s0.chain[..k + 1] && Last(chain) == forkBlock
      requires mine == Reversed(s0.chain[k + 1..]) && curCumulativeDifficulty == Last(s0.chain).cumulativeDifficulty
      requires lastTrimHeight == s0.trim && blacklisted == s0.blacklisted && requeued == s0.requeued
      requires importerLastId == s0.importerLastId
      modifies this
      ensures Valid() && staged == [] && (r.Aborted? || r.Switched? || r.Restored?)
      ensures Settled(env, cfg, r, s0, k, State(), now, peer, forkBlocks, picked, forkChain)
      ensures unconfirmed == old(unconfirmed)
      ensures lastFeeder == old(lastFeeder) && lastFeederHeight == old(lastFeederHeight)
    {
      var pushed, aborted, dropped;
      pushed, aborted, dropped, picked, forkChain := ForkAttempt(peer, forkBlocks, forkBlock, curCumulativeDifficulty, now);
      if aborted {
        return Aborted, picked, forkChain;
      }
      if pushed == 0 {
        r := Replay(mine, s0.chain, k, now);
      } else {
        requeued := requeued + AllTransactions(mine);
        r := Switched(pushed);
        staged := [];
      }
    }

    /** The restore branch of processFork (677-686), then the cache reset (692). */
    method Replay(mine: seq<Block>, ghost base: seq<Block>, ghost k: nat, now: int) returns (r: ForkOutcome)
      requires Valid() && staged == []
      requires ValidChain(env, cfg, base) && k < |base| && chain == base[..k + 1]
      requires mine == Reversed(base[k + 1..])
      modifies this
      ensures Valid() && staged == []
      ensures Replayed(env, cfg, r, base, k, chain, now)
      ensures lastTrimHeight == TrimAfterBlocks(cfg.trimDerivedTables, old(lastTrimHeight), chain[k + 1..], cfg.maxRollback)
      ensures Others() == old(Others())
    {
      var n, crashed := Restore(base, mine, now);
      if crashed {
        return Aborted;
      }
      r := Restored(n);
      staged := [];
    }

    /**
     * The fork attempt of processFork (648-674), with the fork block at the
     * tip (popOffTo leaves it there, so the check at 649 holds): push the
     * fork, and when it pushed something yet ended below the former
     * cumulative difficulty `curCumulativeDifficulty`, blacklist the peer,
     * roll back to the fork block again and queue the transactions of the
     * blocks this detaches (`dropped`) for re-admission. That rollback is
     * refused, and the attempt aborted, below the minimum height the trim
     * height left by the fork's blocks allows.
     */
    method ForkAttempt(peer: PeerId, forkBlocks: seq<Block>, forkBlock: Block, curCumulativeDifficulty: int, now: int)
      returns (pushed: nat, aborted: bool, dropped: seq<Block>, ghost picked: seq<nat>, ghost forkChain: seq<Block>)
      requires Valid() && staged == [] && Last(chain) == forkBlock
      modifies this
      ensures Valid() && staged == []
      ensures var run := ForkRun(env, cfg, old(chain), forkBlocks, 0, now);
              forkChain == run.blocks && picked == run.picked
      ensures PlacedFrom(env, old(chain) + forkChain, |old(chain)|, picked, forkBlocks)
      ensures lastTrimHeight == TrimAfterBlocks(cfg.trimDerivedTables, old(lastTrimHeight), forkChain, cfg.maxRollback)
      ensures var run := ForkRun(env, cfg, old(chain), forkBlocks, 0, now);
              var crash := run.stop == Some(Overflow);
              var bad := forkChain != [] && Last(forkChain).cumulativeDifficulty < curCumulativeDifficulty;
              && (crash ==> aborted && chain == old(chain) + forkChain && dropped == [])
              && (!crash && !bad ==> !aborted && chain == old(chain) + forkChain && pushed == |forkChain| && dropped == [])
              && (!crash && bad ==>
                    (aborted <==> forkBlock.height < MinRollbackHeight(cfg.trimDerivedTables, lastTrimHeight,
                                                                       Last(forkChain).height, cfg.maxRollback)))
              && (!crash && bad && !aborted ==> chain == old(chain) && pushed == 0 && dropped == Reversed(forkChain))
              && (!crash && bad && aborted ==> chain == old(chain) + forkChain && dropped == [])
              && blacklisted == if !crash && (run.stop.Some? || bad) then old(blacklisted) + {peer} else old(blacklisted)
      ensures requeued == old(requeued) + AllTransactions(dropped)
      ensures unconfirmed == old(unconfirmed) && importerLastId == old(importerLastId)
      ensures lastFeeder == old(lastFeeder) && lastFeederHeight == old(lastFeederHeight)
    {
      ghost var k := |chain| - 1;
      var crashed;
      pushed, crashed, picked := PushFork(peer, forkBlocks, now);
      forkChain := chain[k + 1..];
      assert chain == old(chain) + forkChain;
      dropped := [];
      if crashed {
        return pushed, true, dropped, picked, forkChain;
      }
      if pushed > 0 && Last(chain).cumulativeDifficulty < curCumulativeDifficulty {
        assert Last(forkChain) == Last(chain);
        blacklisted := blacklisted + {peer};
        IndexOfIdUnique(chain, forkBlock.id, k);
        var again := PopOffTo(forkBlock);
        if again.None? {
          return pushed, true, dropped, picked, forkChain;
        }
        pushed, dropped := 0, again.value;
        requeued := requeued + AllTransactions(dropped);
      }
      aborted := false;
    }

    /**
     * generateBlock (1071-1222): the block Candidate describes is built
     * from the unconfirmed pool and pushed. The transactions the selection
     * found invalid leave the pool, and so does the one a
     * TransactionNotAcceptedException names; an accepted block empties the
     * cache, as a refused one already has.
     */
    method GenerateBlock(now: int, publicKey: seq<bv8>) returns (r: Result<Block, Rejection>)
      requires Valid()
      modifies this
      ensures Valid() && staged == []
      ensures r == PushVerdict(env, cfg, old(chain), Candidate(env, cfg, old(chain), old(unconfirmed), now, publicKey), now)
      ensures r.Success? ==> chain == old(chain) + [r.value] &&
                             lastTrimHeight == TrimAfterAccept(cfg.trimDerivedTables, old(lastTrimHeight),
                                                               r.value.height, cfg.maxRollback)
      ensures r.Failure? ==> chain == old(chain) && lastTrimHeight == old(lastTrimHeight)
      ensures var kept := Without(old(unconfirmed), Selection(env, cfg, old(chain), old(unconfirmed), now).evicted);
              unconfirmed == if r.Failure? && r.error.TxNotAccepted? then Without(kept, {r.error.tx}) else kept
      ensures blacklisted == old(blacklisted) && requeued == old(requeued)
      ensures importerLastId == old(importerLastId)
      ensures lastFeeder == old(lastFeeder) && lastFeederHeight == old(lastFeederHeight)
    {
      var block, sel := AssembleBlock(now, publicKey);
      unconfirmed := Without(unconfirmed, sel.evicted);
      r := PushBlock(block, now);
      if r.Success? {
        staged := [];
      } else if r.error.TxNotAccepted? {
        unconfirmed := Without(unconfirmed, {r.error.tx});
      }
    }

    /**
     * The part of generateBlock that builds the block (1074-1206): the
     * filtering and selection loops, then the block Assemble describes.
     * It changes nothing.
     */
    method AssembleBlock(now: int, publicKey: seq<bv8>) returns (block: Block, sel: PackState)
      requires Valid()
      ensures sel == Selection(env, cfg, chain, unconfirmed, now)
      ensures block == Assemble(env, cfg, chain, sel, now, publicKey)
    {
      var tip := Last(chain);
      var pool := FilterReferenced(unconfirmed, TxIndex(chain), env.subscriptionsEnabled);
      sel := SelectTransactions(env, cfg, PackContext(tip.height, now, chain), pool);
      block := Assemble(env, cfg, chain, sel, now, publicKey);
    }

    /** The peer answers with a height and claims a higher cumulative difficulty than the cache tip (348-376). */
    predicate Claims(p: PeerReplies)
      reads this`chain, this`staged
      requires |chain| >= 1
    {
      p.height.Some? && p.cumulativeDifficulty.Some? && p.cumulativeDifficulty.value > CacheTip().cumulativeDifficulty
    }

    /**
     * Where one round of getMoreBlocksThread downloads from (378-408): the
     * common block and whether the blocks go to the cache (saveInCache), or
     * None when the round returns before the download. The milestone search
     * is skipped when the cache tip is genesis; the block-by-block search
     * refines a common block that is not the cache tip when canBeFork
     * allows it.
     */
    function DownloadFrom(p: PeerReplies): (r: Option<(int, bool)>)
      reads this`chain, this`staged, this`lastTrimHeight
      requires Valid()
      ensures r.Some? ==> r.value.0 in Known() && BlockFor(r.value.0).Some?
      ensures r.Some? && r.value.1 ==> r.value.0 == CacheTip().id
      ensures CacheTip().id == cfg.genesisId ==> r == Some((cfg.genesisId, true))
      ensures r.Some? && !r.value.1 ==> CanBeFork(MilestoneSearch(Known(), cfg.genesisId, p.milestones, None, true).commonId)
    {
      var tip := CacheTip().id;
      CacheTipFound();
      if tip == cfg.genesisId then Some((tip, true))
      else
        var m := MilestoneSearch(Known(), cfg.genesisId, p.milestones, None, true);
        if m.commonId == 0 || !m.peerHasMore then None
        else if m.commonId == tip then Some((tip, true))
        else if !CanBeFork(m.commonId) then None
        else
          var c := CommonSearch(Known(), p.nextBlockIds, m.commonId);
          CommonSearchSound(Known(), p.nextBlockIds, m.commonId);
          if c.commonId == 0 then None else Some((c.commonId, false))
    }

    /**
     * Whether the common-block search of getMoreBlocksThread (378-408)
     * blacklists the peer: off genesis, when the milestone search does, or
     * when the block-by-block search it goes on to does. Only an answer
     * over its cap is blamed, and no common block is found then.
     */
    function SearchBlames(p: PeerReplies): (r: bool)
      reads this`chain, this`staged, this`lastTrimHeight
      requires Valid()
      ensures r ==> CacheTip().id != cfg.genesisId && DownloadFrom(p).None?
      ensures r ==>
                (exists k :: 0 <= k < |p.milestones| && p.milestones[k].Some? && p.milestones[k].value.ids.Some? &&
                             |p.milestones[k].value.ids.value| > MAX_MILESTONE_IDS) ||
                (exists k :: 0 <= k < |p.nextBlockIds| && p.nextBlockIds[k].Some? &&
                             |p.nextBlockIds[k].value| > MAX_NEXT_BLOCKS)
    {
      var tip := CacheTip().id;
      if tip == cfg.genesisId then false
      else
        var m := MilestoneSearch(Known(), cfg.genesisId, p.milestones, None, true);
        MilestoneSearchSound(Known(), cfg.genesisId, p.milestones, None, true);
        if m.blacklist then true
        else if m.commonId == 0 || !m.peerHasMore || m.commonId == tip || !CanBeFork(m.commonId) then false
        else
          CommonSearchSound(Known(), p.nextBlockIds, m.commonId);
          CommonSearch(Known(), p.nextBlockIds, m.commonId).blacklist
    }

    /**
     * One iteration of getMoreBlocksThread (337-487) with `peer` the peer
     * picked (None: no peer connected): the peer's height is recorded, a
     * peer that does not claim a higher cumulative difficulty than the
     * cache tip is left with nothing changed, the common block is searched
     * for (DownloadFrom, leaving the state `mid`), and the blocks after it
     * are downloaded (Downloaded).
     */
    method SyncRound(peer: Option<PeerReplies>, now: int)
      returns (r: SyncOutcome, ghost from: Option<(int, bool)>, ghost mid: Snapshot, ghost trace: ForkTrace)
      requires Valid() && CacheLinked()
      modifies this
      ensures Valid() && CacheLinked()
      ensures peer.None? || peer.value.height.None? ==>
                r == NoProgress && lastFeeder == old(lastFeeder) && lastFeederHeight == old(lastFeederHeight)
      ensures peer.Some? && peer.value.height.Some? ==>
                lastFeeder == Some(peer.value.id) && lastFeederHeight == Wrap32(peer.value.height.value)
      ensures from == if peer.Some? && old(Claims(peer.value)) then old(DownloadFrom(peer.value)) else None
      ensures mid == if peer.Some? && old(Claims(peer.value)) && old(SearchBlames(peer.value))
                     then old(State()).(blacklisted := old(blacklisted) + {peer.value.id})
                     else old(State())
      ensures from.None? ==> r == NoProgress && State() == mid
      ensures from.Some? ==>
                Downloaded(env, cfg, r, peer.value, from.value.0, old(BlockFor(from.value.0)), from.value.1,
                           old(CacheTip()).cumulativeDifficulty, now, mid, trace, State())
      ensures unconfirmed == old(unconfirmed)
    {
      mid := State();
      trace, from := ForkTrace(mid, 0, [], []), None;
      if peer.None? {
        return NoProgress, from, mid, trace;
      }
      var p := peer.value;
      if p.height.None? {
        return NoProgress, from, mid, trace;
      }
      var curCumulativeDifficulty := CacheTip().cumulativeDifficulty;
      if p.cumulativeDifficulty.None? || p.cumulativeDifficulty.value <= curCumulativeDifficulty {
        lastFeeder, lastFeederHeight := Some(p.id), Wrap32(p.height.value);
        return NoProgress, from, mid, trace;
      }
      r, from, mid, trace := Download(p, curCumulativeDifficulty, now);
    }

    /**
     * The rest of one round of getMoreBlocksThread (348-487) with a peer
     * that claims a higher cumulative difficulty than the cache tip,
     * `curCumulativeDifficulty`: the peer is recorded as the feeder, the
     * common block is searched for (DownloadFrom; the search leaves `mid`)
     * and the blocks after it are downloaded (Downloaded).
     */
    method Download(p: PeerReplies, curCumulativeDifficulty: int, now: int)
      returns (r: SyncOutcome, ghost from: Option<(int, bool)>, ghost mid: Snapshot, ghost trace: ForkTrace)
      requires Valid() && CacheLinked() && curCumulativeDifficulty == CacheTip().cumulativeDifficulty
      requires p.height.Some?
      modifies this
      ensures Valid() && CacheLinked()
      ensures from == old(DownloadFrom(p))
      ensures mid == if old(SearchBlames(p)) then old(State()).(blacklisted := old(blacklisted) + {p.id}) else old(State())
      ensures from.None? ==> r == NoProgress && State() == mid
      ensures from.Some? ==>
                Downloaded(env, cfg, r, p, from.value.0, old(BlockFor(from.value.0)), from.value.1, curCumulativeDifficulty,
                           now, mid, trace, State())
      ensures unconfirmed == old(unconfirmed)
      ensures lastFeeder == Some(p.id) && lastFeederHeight == Wrap32(p.height.value)
    {
      var found := Locate(p);
      from, mid := found, State();
      trace := ForkTrace(mid, 0, [], []);
      if found.None? {
        return NoProgress, from, mid, trace;
      }
      r, trace := Fetch(p, found.value.0, found.value.1, curCumulativeDifficulty, now, BlockFor(found.value.0), mid);
    }

    /**
     * The start of the round (360-408): the peer is recorded as the
     * feeder, then the common block is searched for.
     */
    method Locate(p: PeerReplies) returns (found: Option<(int, bool)>)
      requires Valid() && CacheLinked() && p.height.Some?
      modifies this`lastFeeder, this`lastFeederHeight, this`blacklisted
      ensures Valid() && CacheLinked()
      ensures found == old(DownloadFrom(p)) && found == DownloadFrom(p)
      ensures State() == if old(SearchBlames(p)) then old(State()).(blacklisted := old(blacklisted) + {p.id}) else old(State())
      ensures found.Some? ==> BlockFor(found.value.0) == old(BlockFor(found.value.0))
      ensures lastFeeder == Some(p.id) && lastFeederHeight == Wrap32(p.height.value)
    {
      lastFeeder, lastFeederHeight := Some(p.id), Wrap32(p.height.value);
      found := FindCommon(p);
    }

    /**
     * The common-block search of getMoreBlocksThread (368-408): the
     * milestone search, then, off the cache tip, the search over the
     * peer's next block ids. What it finds is what DownloadFrom says, and
     * the peer is blacklisted exactly when SearchBlames says.
     */
    method FindCommon(p: PeerReplies) returns (found: Option<(int, bool)>)
      requires Valid()
      modifies this`blacklisted
      ensures found == DownloadFrom(p)
      ensures State() == old(State()).(blacklisted := if SearchBlames(p) then old(blacklisted) + {p.id} else old(blacklisted))
    {
      var commonBlockId := cfg.genesisId;
      var cacheLastBlockId := CacheTip().id;
      var peerHasMore := true;
      if cacheLastBlockId != cfg.genesisId {
        var milestone := CommonMilestone(Known(), cfg.genesisId, p.milestones);
        if milestone.blacklist {
          blacklisted := blacklisted + {p.id};
        }
        commonBlockId, peerHasMore := milestone.commonId, milestone.peerHasMore;
        if commonBlockId == 0 || !peerHasMore {
          return None;
        }
      }
      var saveInCache := true;
      if commonBlockId != cacheLastBlockId {
        if !CanBeFork(commonBlockId) {
          return None;
        }
        var refined := CommonBlock(Known(), p.nextBlockIds, commonBlockId);
        if refined.blacklist {
          blacklisted := blacklisted + {p.id};
        }
        commonBlockId := refined.commonId;
        if commonBlockId == 0 || !peerHasMore {
          return None;
        }
        saveInCache := false;
      }
      found := Some((commonBlockId, saveInCache));
    }

    /**
     * The download of getMoreBlocksThread (410-487) from the state `s0`:
     * the blocks after the common block are linked onto it. Onto the cache
     * tip they are staged, as far as they link; otherwise they form a
     * fork, which is refused, with the peer blacklisted and the thread
     * ended, when its last block falls below `curCumulativeDifficulty`, and
     * handed to processFork otherwise (Downloaded).
     */
    method Fetch(p: PeerReplies, commonBlockId: int, saveInCache: bool, curCumulativeDifficulty: int, now: int,
                 ghost start: Option<Block>, ghost s0: Snapshot)
      returns (r: SyncOutcome, ghost trace: ForkTrace)
      requires Valid() && CacheLinked()
      requires saveInCache ==> commonBlockId == CacheTip().id
      requires start == BlockFor(commonBlockId) && s0 == State()
      modifies this
      ensures Valid() && CacheLinked()
      ensures Downloaded(env, cfg, r, p, commonBlockId, start, saveInCache, curCumulativeDifficulty, now, s0, trace, State())
      ensures unconfirmed == old(unconfirmed)
      ensures lastFeeder == old(lastFeeder) && lastFeederHeight == old(lastFeederHeight)
    {
      trace := ForkTrace(s0, 0, [], []);
      var (nextBlocks, rogue) := NextBlocks(p.nextBlocks);
      if rogue {
        blacklisted := blacklisted + {p.id};
      }
      if nextBlocks.None? || nextBlocks.value == [] {
        return NoProgress, trace;
      }
      var lastBlock := BlockFor(commonBlockId);
      if lastBlock.None? {
        return NoProgress, trace;
      }
      var linked, outcome := LinkDownloaded(env, lastBlock.value, nextBlocks.value, p.id);
      if outcome.Stopped? && outcome.blacklist {
        blacklisted := blacklisted + {p.id};
      }
      if saveInCache {
        CacheTipFound();
        LinkAllChains(env, lastBlock.value, nextBlocks.value, p.id);
        StageBlocks(linked);
        return Staged(|linked|), trace;
      }
      if outcome.Stopped? {
        return NoProgress, trace;
      }
      r, trace := OfferFork(p.id, linked, commonBlockId, curCumulativeDifficulty, now);
    }

    /** downloadCache.addBlock for each block of a run linked onto the cache tip (450-451). */
    method StageBlocks(linked: seq<Block>)
      requires Valid() && CacheLinked() && ChainedFrom(env, CacheTip(), linked)
      modifies this
      ensures Valid() && CacheLinked()
      ensures staged == old(staged) + linked
      ensures chain == old(chain) && lastTrimHeight == old(lastTrimHeight) && Others() == old(Others())
    {
      ChainedFromConcat(env, Last(chain), staged, linked);
      staged := staged + linked;
    }

    /**
     * The end of the download loop in fork mode (474-486): a fork whose
     * last block falls below `curCumulativeDifficulty` is refused and the
     * peer blacklisted; any other goes to processFork (ForkEnded).
     */
    method OfferFork(peer: PeerId, forkBlocks: seq<Block>, forkId: int, curCumulativeDifficulty: int, now: int)
      returns (r: SyncOutcome, ghost trace: ForkTrace)
      requires Valid() && CacheLinked() && forkBlocks != []
      modifies this
      ensures Valid() && CacheLinked()
      ensures r.ForkRejected? || r.ForkProcessed?
      ensures r.ForkRejected? <==> Last(forkBlocks).cumulativeDifficulty < curCumulativeDifficulty
      ensures r == ForkRejected ==> State() == old(State()).(blacklisted := old(blacklisted) + {peer})
      ensures r.ForkProcessed? ==> ForkEnded(env, cfg, r.fork, old(State()), trace, State(), now, peer, forkBlocks, forkId)
      ensures unconfirmed == old(unconfirmed)
      ensures lastFeeder == old(lastFeeder) && lastFeederHeight == old(lastFeederHeight)
    {
      trace := ForkTrace(State(), 0, [], []);
      if Last(forkBlocks).cumulativeDifficulty < curCumulativeDifficulty {
        blacklisted := blacklisted + {peer};
        return ForkRejected, trace;
      }
      var fork;
      fork, trace := ProcessFork(peer, forkBlocks, forkId, now);
      r := ForkProcessed(fork);
    }
  }
}
