/**
 * The download side of getMoreBlocksThread: the search for the highest
 * block shared with a peer, first by milestones and then block by block,
 * the cap on the blocks a peer may send, and the linkage of downloaded
 * blocks onto the common block. A peer's replies are given in the order
 * the requests are sent; a missing reply is a null response.
 */
module Sync {
  import opened Types

  /** Most milestone ids a reply may carry (538). */
  const MAX_MILESTONE_IDS: nat := 20
  /** Most block ids, or blocks, a reply may carry (578, 612). */
  const MAX_NEXT_BLOCKS: nat := 1440

  /** A getMilestoneBlockIds reply: the id list (None when absent) and the `last` flag. */
  datatype MilestoneReply = MilestoneReply(ids: Option<seq<int>>, last: bool)

  /** The outcome of a search: the common block id (0: none found), peerHasMore, and whether the peer is blacklisted. */
  datatype Search = Search(commonId: int, peerHasMore: bool, blacklist: bool)

  /** The position of the first id the cache knows, if any. */
  function FirstKnown(ids: seq<int>, known: set<int>): (r: Option<nat>)
    ensures r.Some? ==> r.value < |ids| && ids[r.value] in known &&
                        forall j :: 0 <= j < r.value ==> ids[j] !in known
    ensures r.None? ==> forall j :: 0 <= j < |ids| ==> ids[j] !in known
    decreases |ids|
  {
    if ids == [] then None
    else if ids[0] in known then Some(0)
    else match FirstKnown(ids[1..], known)
      case None => None
      case Some(i) => Some(i + 1)
  }

  /** The position of the first id the cache does not know, if any. */
  function FirstUnknown(ids: seq<int>, known: set<int>): (r: Option<nat>)
    ensures r.Some? ==> r.value < |ids| && ids[r.value] !in known &&
                        forall j :: 0 <= j < r.value ==> ids[j] in known
    ensures r.None? ==> forall j :: 0 <= j < |ids| ==> ids[j] in known
    decreases |ids|
  {
    if ids == [] then None
    else if ids[0] !in known then Some(0)
    else match FirstUnknown(ids[1..], known)
      case None => None
      case Some(i) => Some(i + 1)
  }

  /**
   * getCommonMilestoneBlockId (510-561) over the remaining replies.
   * `lastMilestone` is None until an unknown milestone was seen
   * (the request then names the cache's last block instead).
   */
  function MilestoneSearch(known: set<int>, genesisId: int, replies: seq<Option<MilestoneReply>>,
                           lastMilestone: Option<int>, more: bool): Search
    decreases |replies|
  {
    if replies == [] || replies[0].None? || replies[0].value.ids.None? then Search(0, more, false)
    else
      var reply := replies[0].value;
      var ids := reply.ids.value;
      if ids == [] then Search(genesisId, more, false)
      else if |ids| > MAX_MILESTONE_IDS then Search(0, more, true)
      else
        var more' := if reply.last then false else more;
        match FirstKnown(ids, known)
        case Some(i) =>
          Search(ids[i], if lastMilestone.None? && i == 0 && |ids| > 1 then false else more', false)
        case None => MilestoneSearch(known, genesisId, replies[1..], Some(Last(ids)), more')
  }

  /**
   * The milestone search finds the genesis block, a block the cache knows,
   * or nothing; and it blacklists the peer only for a reply of more than
   * twenty ids, finding nothing then.
   */
  lemma {:induction false} MilestoneSearchSound(known: set<int>, genesisId: int, replies: seq<Option<MilestoneReply>>,
                                                lastMilestone: Option<int>, more: bool)
    ensures var r := MilestoneSearch(known, genesisId, replies, lastMilestone, more);
            && (r.commonId == 0 || r.commonId == genesisId || r.commonId in known)
            && (r.blacklist ==>
                  r.commonId == 0 &&
                  exists k :: 0 <= k < |replies| && replies[k].Some? && replies[k].value.ids.Some? &&
                              |replies[k].value.ids.value| > MAX_MILESTONE_IDS)
            && (!more ==> !r.peerHasMore)
    decreases |replies|
  {
    if !(replies == [] || replies[0].None? || replies[0].value.ids.None?) {
      var ids := replies[0].value.ids.value;
      if ids != [] && |ids| <= MAX_MILESTONE_IDS && FirstKnown(ids, known).None? {
        var more' := if replies[0].value.last then false else more;
        MilestoneSearchSound(known, genesisId, replies[1..], Some(Last(ids)), more');
        var r := MilestoneSearch(known, genesisId, replies[1..], Some(Last(ids)), more');
        if r.blacklist {
          var k :| 0 <= k < |replies[1..]| && replies[1..][k].Some? && replies[1..][k].value.ids.Some? &&
                   |replies[1..][k].value.ids.value| > MAX_MILESTONE_IDS;
          assert replies[k + 1] == replies[1..][k];
        }
      }
    }
  }

  /** A milestone reply the search reads through: ids present, within the cap, none of them known. */
  predicate MilestoneUnmatched(reply: Option<MilestoneReply>, known: set<int>) {
    && reply.Some? && reply.value.ids.Some?
    && 0 < |reply.value.ids.value| <= MAX_MILESTONE_IDS
    && forall i :: 0 <= i < |reply.value.ids.value| ==> reply.value.ids.value[i] !in known
  }

  /** The position of the first reply the milestone search does not read through. */
  function MilestoneStop(known: set<int>, replies: seq<Option<MilestoneReply>>): (k: nat)
    ensures k <= |replies|
    ensures forall j :: 0 <= j < k ==> MilestoneUnmatched(replies[j], known)
    ensures k < |replies| ==> !MilestoneUnmatched(replies[k], known)
    decreases |replies|
  {
    if replies == [] || !MilestoneUnmatched(replies[0], known) then 0
    else
      var k' := MilestoneStop(known, replies[1..]);
      assert forall j :: 0 < j <= k' ==> replies[j] == replies[1..][j - 1];
      1 + k'
  }

  /**
   * Whether the reply the milestone search stops at clears peerHasMore:
   * it finds a known id and either carries the `last` flag, or is the
   * first reply (sent with the cache's last block) and holds more than one
   * id, the first of them known.
   */
  predicate MilestoneClears(known: set<int>, replies: seq<Option<MilestoneReply>>, k: nat, lastMilestone: Option<int>) {
    && k < |replies| && replies[k].Some? && replies[k].value.ids.Some?
    && var ids := replies[k].value.ids.value;
    && 0 < |ids| <= MAX_MILESTONE_IDS
    && FirstKnown(ids, known).Some?
    && (replies[k].value.last ||
        (k == 0 && lastMilestone.None? && FirstKnown(ids, known) == Some(0) && |ids| > 1))
  }

  /**
   * What the milestone search finds. Every id of the replies it reads
   * through is unknown; the reply it stops at decides: no reply or no id
   * list finds nothing, an empty list finds genesis, a list of more than 20
   * ids blacklists the peer and finds nothing, and otherwise the result is
   * the first known id of that reply. peerHasMore stays as it was exactly
   * when no reply read carries the `last` flag and the deciding reply does
   * not clear it.
   */
  lemma {:induction false} MilestoneSearchFinds(known: set<int>, genesisId: int, replies: seq<Option<MilestoneReply>>,
                                                lastMilestone: Option<int>, more: bool)
    ensures var r := MilestoneSearch(known, genesisId, replies, lastMilestone, more);
            var k := MilestoneStop(known, replies);
            && (k == |replies| || replies[k].None? || replies[k].value.ids.None? ==> r.commonId == 0 && !r.blacklist)
            && (k < |replies| && replies[k].Some? && replies[k].value.ids.Some? ==>
                  var ids := replies[k].value.ids.value;
                  && (ids == [] ==> r.commonId == genesisId && !r.blacklist)
                  && (|ids| > MAX_MILESTONE_IDS ==> r.commonId == 0 && r.blacklist)
                  && (0 < |ids| <= MAX_MILESTONE_IDS ==>
                        FirstKnown(ids, known).Some? && r.commonId == ids[FirstKnown(ids, known).value] && !r.blacklist))
            && (r.peerHasMore <==>
                  more && (forall j :: 0 <= j < k ==> !replies[j].value.last) &&
                  !MilestoneClears(known, replies, k, lastMilestone))
    decreases |replies|
  {
    if replies != [] && MilestoneUnmatched(replies[0], known) {
      var ids := replies[0].value.ids.value;
      var more' := if replies[0].value.last then false else more;
      assert FirstKnown(ids, known).None?;
      MilestoneSearchFinds(known, genesisId, replies[1..], Some(Last(ids)), more');
      var k' := MilestoneStop(known, replies[1..]);
      assert MilestoneStop(known, replies) == 1 + k';
      assert forall j :: 0 < j <= k' ==> replies[j] == replies[1..][j - 1];
      assert MilestoneClears(known, replies, 1 + k', lastMilestone) <==>
             MilestoneClears(known, replies[1..], k', Some(Last(ids)));
    }
  }

  /** The loop of getCommonMilestoneBlockId as the source writes it. */
  method CommonMilestone(known: set<int>, genesisId: int, replies: seq<Option<MilestoneReply>>)
    returns (r: Search)
    ensures r == MilestoneSearch(known, genesisId, replies, None, true)
  {
    var lastMilestone: Option<int> := None;
    var more := true;
    var k := 0;
    while true
      invariant 0 <= k <= |replies|
      invariant MilestoneSearch(known, genesisId, replies, None, true) ==
                MilestoneSearch(known, genesisId, replies[k..], lastMilestone, more)
      decreases |replies| - k
    {
      if k == |replies| || replies[k].None? || replies[k].value.ids.None? {
        return Search(0, more, false);
      }
      var reply := replies[k].value;
      var ids := reply.ids.value;
      if ids == [] {
        return Search(genesisId, more, false);
      }
      if |ids| > MAX_MILESTONE_IDS {
        return Search(0, more, true);
      }
      if reply.last {
        more := false;
      }
      var j := 0;
      ghost var before := lastMilestone;
      while j < |ids|
        invariant 0 <= j <= |ids|
        invariant forall i :: 0 <= i < j ==> ids[i] !in known
        invariant lastMilestone == if j == 0 then before else Some(ids[j - 1])
      {
        if ids[j] in known {
          if lastMilestone.None? && |ids| > 1 {
            more := false;
          }
          assert FirstKnown(ids, known) == Some(j);
          assert replies[k..][0] == replies[k];
          return Search(ids[j], more, false);
        }
        lastMilestone := Some(ids[j]);
        j := j + 1;
      }
      assert FirstKnown(ids, known).None?;
      assert replies[k..][0] == replies[k] && replies[k..][1..] == replies[k + 1..];
      k := k + 1;
    }
  }

  /**
   * getCommonBlockId (563-594): walk the peer's next-block ids from
   * `common`; the last id known before the first unknown one is the result.
   */
  function CommonSearch(known: set<int>, replies: seq<Option<seq<int>>>, common: int): Search
    decreases |replies|
  {
    if replies == [] || replies[0].None? || replies[0].value == [] then Search(0, true, false)
    else
      var ids := replies[0].value;
      if |ids| > MAX_NEXT_BLOCKS then Search(0, true, true)
      else
        match FirstUnknown(ids, known)
        case Some(i) => Search(if i == 0 then common else ids[i - 1], true, false)
        case None => CommonSearch(known, replies[1..], Last(ids))
  }

  /**
   * The refined common block is the starting block or one the cache knows,
   * or nothing; and a blacklisting answers a reply of more than 1440 ids.
   */
  lemma {:induction false} CommonSearchSound(known: set<int>, replies: seq<Option<seq<int>>>, common: int)
    ensures var r := CommonSearch(known, replies, common);
            && (r.commonId == 0 || r.commonId == common || r.commonId in known)
            && (r.blacklist ==>
                  r.commonId == 0 &&
                  exists k :: 0 <= k < |replies| && replies[k].Some? && |replies[k].value| > MAX_NEXT_BLOCKS)
    decreases |replies|
  {
    if !(replies == [] || replies[0].None? || replies[0].value == []) {
      var ids := replies[0].value;
      if |ids| <= MAX_NEXT_BLOCKS && FirstUnknown(ids, known).None? {
        CommonSearchSound(known, replies[1..], Last(ids));
        var r := CommonSearch(known, replies[1..], Last(ids));
        if r.blacklist {
          var k :| 0 <= k < |replies[1..]| && replies[1..][k].Some? && |replies[1..][k].value| > MAX_NEXT_BLOCKS;
          assert replies[k + 1] == replies[1..][k];
        }
      }
    }
  }

  /** A next-block-ids reply the search reads through: present, within the cap, every id known. */
  predicate CommonUnmatched(reply: Option<seq<int>>, known: set<int>) {
    && reply.Some? && 0 < |reply.value| <= MAX_NEXT_BLOCKS
    && forall i :: 0 <= i < |reply.value| ==> reply.value[i] in known
  }

  /** The position of the first reply the block-by-block search does not read through. */
  function CommonStop(known: set<int>, replies: seq<Option<seq<int>>>): (k: nat)
    ensures k <= |replies|
    ensures forall j :: 0 <= j < k ==> CommonUnmatched(replies[j], known)
    ensures k < |replies| ==> !CommonUnmatched(replies[k], known)
    decreases |replies|
  {
    if replies == [] || !CommonUnmatched(replies[0], known) then 0
    else
      var k' := CommonStop(known, replies[1..]);
      assert forall j :: 0 < j <= k' ==> replies[j] == replies[1..][j - 1];
      1 + k'
  }

  /**
   * What the block-by-block search finds. Every id of the replies it reads
   * through is known; the reply it stops at decides: no reply or an empty
   * one finds nothing, a reply of more than 1440 ids blacklists the peer
   * and finds nothing, and otherwise the result is the id just before the
   * first unknown one, or, when that is the reply's first id, the block
   * the request named (the start, or the last id of the previous reply).
   */
  lemma {:induction false} CommonSearchFinds(known: set<int>, replies: seq<Option<seq<int>>>, common: int)
    ensures var r := CommonSearch(known, replies, common);
            var k := CommonStop(known, replies);
            var named := if k == 0 then common else Last(replies[k - 1].value);
            && (k == |replies| || replies[k].None? || replies[k].value == [] ==> r == Search(0, true, false))
            && (k < |replies| && replies[k].Some? && |replies[k].value| > MAX_NEXT_BLOCKS ==> r == Search(0, true, true))
            && (k < |replies| && replies[k].Some? && 0 < |replies[k].value| <= MAX_NEXT_BLOCKS ==>
                  var ids := replies[k].value;
                  && FirstUnknown(ids, known).Some?
                  && r == Search(if FirstUnknown(ids, known).value == 0 then named
                                 else ids[FirstUnknown(ids, known).value - 1], true, false))
    decreases |replies|
  {
    if replies != [] && CommonUnmatched(replies[0], known) {
      var ids := replies[0].value;
      assert FirstUnknown(ids, known).None?;
      CommonSearchFinds(known, replies[1..], Last(ids));
      var k' := CommonStop(known, replies[1..]);
      assert CommonStop(known, replies) == 1 + k';
      assert forall j :: 0 < j <= k' ==> replies[j] == replies[1..][j - 1];
      if k' > 0 {
        assert replies[k'] == replies[1..][k' - 1];
      }
    }
  }

  /** The loop of getCommonBlockId as the source writes it. */
  method CommonBlock(known: set<int>, replies: seq<Option<seq<int>>>, start: int) returns (r: Search)
    ensures r == CommonSearch(known, replies, start)
  {
    var common := start;
    var k := 0;
    while true
      invariant 0 <= k <= |replies|
      invariant CommonSearch(known, replies, start) == CommonSearch(known, replies[k..], common)
      decreases |replies| - k
    {
      if k == |replies| || replies[k].None? || replies[k].value == [] {
        return Search(0, true, false);
      }
      var ids := replies[k].value;
      if |ids| > MAX_NEXT_BLOCKS {
        return Search(0, true, true);
      }
      assert replies[k..][0] == replies[k];
      var j := 0;
      var before := common;
      while j < |ids|
        invariant 0 <= j <= |ids|
        invariant forall i :: 0 <= i < j ==> ids[i] in known
        invariant common == if j == 0 then before else ids[j - 1]
      {
        if ids[j] !in known {
          assert FirstUnknown(ids, known) == Some(j);
          return Search(common, true, false);
        }
        common := ids[j];
        j := j + 1;
      }
      assert replies[k..][1..] == replies[k + 1..];
      k := k + 1;
    }
  }

  /** getNextBlocks (596-622): the reply's blocks, or None for a null reply and for one over the cap (blacklisting). */
  function NextBlocks<T>(reply: Option<seq<T>>): (r: (Option<seq<T>>, bool))
    ensures r.1 <==> reply.Some? && |reply.value| > MAX_NEXT_BLOCKS
    ensures r.0.Some? <==> reply.Some? && |reply.value| <= MAX_NEXT_BLOCKS
    ensures r.0.Some? ==> r.0.value == reply.value
  {
    match reply
    case None => (None, false)
    case Some(bs) => if |bs| > MAX_NEXT_BLOCKS then (None, true) else (Some(bs), false)
  }

  /** What Block.parseBlock makes of one element of the reply. */
  datatype Parsed = Parsed(block: Block) | ParseNull | ParseError

  /** How the download loop ends: every block linked, or stopped (and whether the peer is blacklisted). */
  datatype Linkage = Completed | Stopped(blacklist: bool)

  /**
   * The download loop (429-469): each parsed block must name the previous
   * one (the common block first); it then gets the next height, the
   * peer that sent it and its cumulative difficulty.
   */
  function LinkAll(env: Env, prev: Block, items: seq<Parsed>, peer: PeerId): (r: (seq<Block>, Linkage))
    ensures |r.0| <= |items|
    ensures r.1 == Completed ==> |r.0| == |items|
    ensures r.1.Stopped? ==> |r.0| < |items|
    decreases |items|
  {
    if items == [] then ([], Completed)
    else match items[0]
      case ParseNull => ([], Stopped(false))
      case ParseError => ([], Stopped(true))
      case Parsed(b) =>
        if prev.id != b.previousBlockId then ([], Stopped(false))
        else
          var rest := LinkAll(env, Link(env, b.(peer := Some(peer)), prev), items[1..], peer);
          ([Link(env, b.(peer := Some(peer)), prev)] + rest.0, rest.1)
  }

  /**
   * The downloaded blocks kept form a run linked onto the common block, at
   * consecutive heights after it, each the parsed block stamped with the
   * sending peer and linked to its predecessor.
   */
  lemma {:induction false} LinkAllChains(env: Env, prev: Block, items: seq<Parsed>, peer: PeerId)
    ensures var bs := LinkAll(env, prev, items, peer).0;
            && ChainedFrom(env, prev, bs)
            && (forall i :: 0 <= i < |bs| ==> bs[i].height == prev.height + 1 + i)
            && (forall i :: 0 <= i < |bs| ==>
                  items[i].Parsed? && bs[i] == Link(env, items[i].block.(peer := Some(peer)), PredecessorIn(prev, bs, i)))
    decreases |items|
  {
    if items != [] && items[0].Parsed? && prev.id == items[0].block.previousBlockId {
      var b := items[0].block;
      var l := Link(env, b.(peer := Some(peer)), prev);
      var rest := LinkAll(env, l, items[1..], peer).0;
      LinkAllChains(env, l, items[1..], peer);
      LinkIdempotent(env, b.(peer := Some(peer)), prev);
      ChainedFromCons(env, prev, l, rest);
      var bs := [l] + rest;
      forall i | 0 < i < |bs|
        ensures bs[i].height == prev.height + 1 + i
        ensures items[i].Parsed? && bs[i] == Link(env, items[i].block.(peer := Some(peer)), PredecessorIn(prev, bs, i))
      {
        assert bs[i] == rest[i - 1] && items[i] == items[1..][i - 1];
        assert PredecessorIn(prev, bs, i) == PredecessorIn(l, rest, i - 1);
      }
    }
  }

  /**
   * The download stops at the first element that is not a parsed block
   * naming its predecessor; only a parse error blacklists the peer.
   */
  lemma {:induction false} LinkAllStops(env: Env, prev: Block, items: seq<Parsed>, peer: PeerId)
    ensures var r := LinkAll(env, prev, items, peer);
            r.1.Stopped? ==>
              var tip := if r.0 == [] then prev else Last(r.0);
              match items[|r.0|]
              case Parsed(b) => b.previousBlockId != tip.id && !r.1.blacklist
              case ParseNull => !r.1.blacklist
              case ParseError => r.1.blacklist
    decreases |items|
  {
    if items != [] && items[0].Parsed? && prev.id == items[0].block.previousBlockId {
      var l := Link(env, items[0].block.(peer := Some(peer)), prev);
      LinkAllStops(env, l, items[1..], peer);
      var rest := LinkAll(env, l, items[1..], peer);
      if rest.1.Stopped? {
        assert items[1 + |rest.0|] == items[1..][|rest.0|];
        if rest.0 != [] {
          assert Last([l] + rest.0) == Last(rest.0);
        }
      }
    }
  }

  /** Dropping the first block of a linked run leaves a run linked from that block. */
  lemma ChainedFromTail(env: Env, prev: Block, bs: seq<Block>)
    requires ChainedFrom(env, prev, bs) && |bs| > 0
    ensures ChainedFrom(env, bs[0], bs[1..])
  {
    forall i | 0 <= i < |bs[1..]| ensures LinkedTo(env, bs[1..][i], PredecessorIn(bs[0], bs[1..], i)) {
      assert bs[1..][i] == bs[i + 1];
      assert PredecessorIn(bs[0], bs[1..], i) == PredecessorIn(prev, bs, i + 1);
    }
  }

  lemma ChainedFromCons(env: Env, prev: Block, l: Block, rest: seq<Block>)
    requires LinkedTo(env, l, prev) && ChainedFrom(env, l, rest)
    ensures ChainedFrom(env, prev, [l] + rest)
  {
    var s := [l] + rest;
    forall i | 0 <= i < |s| ensures LinkedTo(env, s[i], PredecessorIn(prev, s, i)) {
      if i > 0 {
        assert s[i] == rest[i - 1];
        assert PredecessorIn(prev, s, i) == PredecessorIn(l, rest, i - 1);
      }
    }
  }

  /** A run linked onto the end of a linked run extends it. */
  lemma ChainedFromConcat(env: Env, prev: Block, a: seq<Block>, b: seq<Block>)
    requires ChainedFrom(env, prev, a) && ChainedFrom(env, if a == [] then prev else Last(a), b)
    ensures ChainedFrom(env, prev, a + b)
  {
    var s := a + b;
    forall i | 0 <= i < |s| ensures LinkedTo(env, s[i], PredecessorIn(prev, s, i)) {
      if i < |a| {
        assert s[i] == a[i] && PredecessorIn(prev, s, i) == PredecessorIn(prev, a, i);
      } else {
        assert s[i] == b[i - |a|];
        assert PredecessorIn(prev, s, i) == PredecessorIn(if a == [] then prev else Last(a), b, i - |a|);
      }
    }
  }

  /** The download loop as the source writes it. */
  method LinkDownloaded(env: Env, start: Block, items: seq<Parsed>, peer: PeerId)
    returns (linked: seq<Block>, outcome: Linkage)
    ensures (linked, outcome) == LinkAll(env, start, items, peer)
  {
    linked := [];
    var last := start;
    var i := 0;
    assert items[0..] == items;
    assert [] + LinkAll(env, start, items, peer).0 == LinkAll(env, start, items, peer).0;
    while i < |items|
      invariant 0 <= i <= |items| && |linked| == i
      invariant last == if i == 0 then start else Last(linked)
      invariant LinkAll(env, start, items, peer) ==
                (var rest := LinkAll(env, last, items[i..], peer); (linked + rest.0, rest.1))
    {
      assert items[i..][0] == items[i] && items[i..][1..] == items[i + 1..];
      match items[i]
      case ParseNull =>
        assert linked + [] == linked;
        return linked, Stopped(false);
      case ParseError =>
        assert linked + [] == linked;
        return linked, Stopped(true);
      case Parsed(b) =>
        if last.id != b.previousBlockId {
          assert linked + [] == linked;
          return linked, Stopped(false);
        }
        var block := Link(env, b.(peer := Some(peer)), last);
        assert (linked + [block]) + LinkAll(env, block, items[i + 1..], peer).0 ==
               linked + ([block] + LinkAll(env, block, items[i + 1..], peer).0);
        linked := linked + [block];
        last := block;
        i := i + 1;
    }
    assert items[i..] == [];
    assert linked + [] == linked;
    outcome := Completed;
  }
}
