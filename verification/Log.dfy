/** The logging layer over the buffer cache. Its methods are proved against the
    write sequences of module Crash: whatever block they stop at, including a
    kernel panic, the writes they have issued are a prefix of those sequences. */
module Log {
  import opened Wrappers
  import opened Param
  import Counting
  import opened Disk
  import opened Crash
  import opened Bio

  /** The transaction that is open in memory: the logged blocks with the contents
      their last holders left in the cache. */
  ghost function Txn(lh: seq<nat>, latest: Image): (t: seq<Write>)
    requires forall k :: 0 <= k < |lh| ==> lh[k] < |latest|
    ensures |t| == |lh| && forall k :: 0 <= k < |lh| ==> t[k] == Write(lh[k], latest[lh[k]])
    ensures Numbers(t) == lh
  {
    var t := seq(|lh|, k requires 0 <= k < |lh| => Write(lh[k], latest[lh[k]]));
    assert Numbers(t) == lh;
    t
  }

  ghost predicate HeadOk(lay: Layout, lh: seq<nat>) {
    lay.Valid() && |lh| <= lay.Capacity() && forall k :: 0 <= k < |lh| ==> lay.Home(lh[k])
  }

  /** Every logged block is listed once and pinned. */
  ghost predicate AllPinned(bufs: seq<Buf>, pins: seq<nat>, bs: seq<nat>)
    requires |pins| < |bufs|
  {
    Distinct(bs) && forall k :: 0 <= k < |bs| ==> Pinned(bufs, pins, bs[k])
  }

  /** How many pins there are on all buffers together. */
  ghost function Total(pins: seq<nat>): nat {
    if pins == [] then 0 else Total(pins[..|pins| - 1]) + pins[|pins| - 1]
  }

  lemma {:induction false} TotalAt(pins: seq<nat>, i: nat, v: nat)
    requires i < |pins|
    ensures Total(pins[i := v]) == Total(pins) - pins[i] + v
  {
    var n := |pins| - 1;
    if i == n {
      assert pins[i := v][..n] == pins[..n];
    } else {
      TotalAt(pins[..n], i, v);
      assert pins[i := v][..n] == pins[..n][i := v];
    }
  }

  /** Without pins in total there is no pin on any buffer. */
  lemma {:induction false} TotalNone(pins: seq<nat>, i: nat)
    requires Total(pins) == 0 && i < |pins|
    ensures pins[i] == 0
  {
    if i < |pins| - 1 {
      TotalNone(pins[..|pins| - 1], i);
    }
  }

  /** Nobody else holds the blocks that the log is about to copy. */
  ghost predicate Ready(lay: Layout, lh: seq<nat>, bufs: seq<Buf>) {
    (forall b :: lay.InLog(b) ==> Free(bufs, b)) && forall k :: 0 <= k < |lh| ==> Free(bufs, lh[k])
  }

  /** With fewer pins than buffers, one can be recycled; without pins, all can. */
  lemma SpareIf(bufs: seq<Buf>, pins: seq<nat>)
    requires Quiet(bufs, pins)
    ensures Total(pins) < NBUF ==> Spare(bufs)
    ensures Total(pins) == 0 ==> Unused(bufs)
  {
    if forall i :: 0 <= i < NBUF ==> pins[i] > 0 {
      TotalAtLeast(pins);
    } else {
      var i :| 0 <= i < NBUF && pins[i] == 0;
      assert bufs[i].refcnt == 0;
    }
    if Total(pins) == 0 {
      forall i | 0 <= i < NBUF ensures bufs[i].refcnt == 0 {
        TotalNone(pins, i);
      }
    }
  }

  lemma {:induction false} TotalAtLeast(pins: seq<nat>)
    requires forall i :: 0 <= i < |pins| ==> pins[i] > 0
    ensures Total(pins) >= |pins|
  {
    if pins != [] {
      TotalAtLeast(pins[..|pins| - 1]);
    }
  }

  /** The buffer that holds a logged block. */
  lemma Holders(bufs: seq<Buf>, pins: seq<nat>, lh: seq<nat>, n: nat) returns (at: seq<nat>)
    requires |pins| == NBUF < |bufs| && AllPinned(bufs, pins, lh) && n <= |lh|
    ensures |at| == n && forall k :: 0 <= k < n ==> at[k] < NBUF && Matches(bufs[at[k]], ROOTDEV, lh[k]) && pins[at[k]] > 0
  {
    if n == 0 {
      at := [];
    } else {
      at := Holders(bufs, pins, lh, n - 1);
      assert Pinned(bufs, pins, lh[n - 1]);
      var i :| 0 <= i < |pins| && Matches(bufs[i], ROOTDEV, lh[n - 1]) && bufs[i].valid && pins[i] > 0;
      at := at + [i];
    }
  }

  /** With as many logged blocks as buffers, every buffer holds one of them. */
  lemma CacheFull(bufs: seq<Buf>, pins: seq<nat>, lh: seq<nat>, i: nat)
    requires |pins| == NBUF < |bufs| && AllPinned(bufs, pins, lh) && |lh| == NBUF && i < NBUF
    ensures bufs[i].dev == ROOTDEV && bufs[i].blockno in lh && pins[i] > 0
  {
    var at := Holders(bufs, pins, lh, NBUF);
    hide AllPinned;
    forall j, k | 0 <= j < k < NBUF ensures at[j] != at[k] {
      DistinctAt(bufs, pins, lh, j, k);
    }
    if i in at {
      var k :| 0 <= k < NBUF && at[k] == i;
    } else {
      Counting.Pigeonhole(at + [i], NBUF);
    }
  }

  lemma DistinctAt(bufs: seq<Buf>, pins: seq<nat>, lh: seq<nat>, j: nat, k: nat)
    requires |pins| < |bufs| && AllPinned(bufs, pins, lh) && j < k < |lh|
    ensures lh[j] != lh[k]
  {
  }

  /** So no block of the log is cached and none can be read. */
  lemma NoRoom(lay: Layout, bufs: seq<Buf>, pins: seq<nat>, lh: seq<nat>, b: nat)
    requires |bufs| == NBUF + 1 && bufs[HEAD].dev == 0 && Quiet(bufs, pins) && AllPinned(bufs, pins, lh) && |lh| == NBUF && HeadOk(lay, lh) && lay.InLog(b)
    ensures !Spare(bufs) && !Cached(bufs, ROOTDEV, b)
  {
    forall i | 0 <= i < NBUF ensures bufs[i].refcnt > 0 && !Matches(bufs[i], ROOTDEV, b) {
      CacheFull(bufs, pins, lh, i);
    }
  }

  /** Between operations, with pins as the only references, there is room for a commit
      exactly if the log holds fewer blocks than there are buffers. */
  lemma QuietRoom(lay: Layout, bufs: seq<Buf>, pins: seq<nat>, lh: seq<nat>)
    requires |bufs| == NBUF + 1 && bufs[HEAD].dev == 0 && Quiet(bufs, pins) && AllPinned(bufs, pins, lh) && Total(pins) == |lh| && HeadOk(lay, lh)
    ensures Spare(bufs) || AllCached(bufs, lay.start, |lh| + 1) <==> |lh| < NBUF
  {
    hide Quiet, AllPinned, Spare, Cached, Total, HeadOk;
    SpareIf(bufs, pins);
    if |lh| >= NBUF {
      LogFits(lay, lh);
      NoRoom(lay, bufs, pins, lh, lay.start);
    }
  }

  lemma LogFits(lay: Layout, lh: seq<nat>)
    requires HeadOk(lay, lh)
    ensures |lh| <= NBUF && lay.InLog(lay.start)
  {
  }

  /** The n blocks from b on are in the cache. */
  ghost predicate AllCached(bufs: seq<Buf>, b: nat, n: nat) { forall c :: b <= c < b + n ==> Cached(bufs, ROOTDEV, c) }

  lemma FirstCached(bufs: seq<Buf>, b: nat, n: nat)
    ensures AllCached(bufs, b, n + 1) <==> Cached(bufs, ROOTDEV, b) && AllCached(bufs, b + 1, n)
    ensures AllCached(bufs, b + 1, 0)
  {
    hide Cached;
  }

  /** While nothing is unpinned, whether there is room for the block b + k does not change. */
  lemma NextCached(bufs: seq<Buf>, pins: seq<nat>, bs: seq<Buf>, pins': seq<nat>, b: nat, k: nat)
    requires Steady(bufs, pins, bs, pins', []) && pins' == pins && bufs[HEAD].dev == 0 && bs[HEAD].dev == 0
    ensures Spare(bs) || Cached(bs, ROOTDEV, b + k) <==> Spare(bufs) || Cached(bufs, ROOTDEV, b + k)
    ensures AllCached(bufs, b, k + 1) <==> AllCached(bufs, b, k) && Cached(bufs, ROOTDEV, b + k)
    ensures forall n :: n > k && AllCached(bufs, b, n) ==> Cached(bufs, ROOTDEV, b + k)
  {
    hide Cached, Spare, Steady;
    SteadySpare(bufs, pins, bs, pins', []);
    if !Spare(bufs) {
      SteadyCached(bufs, pins, bs, pins', [], b + k);
    }
  }

  /** If there was room for the n blocks from b on, none of which is unpinned, there still
      is, and an unused cache stays unused. */
  lemma StillRoom(bufs: seq<Buf>, pins: seq<nat>, bs: seq<Buf>, pins': seq<nat>, un: seq<nat>, b: nat, n: nat, k: nat)
    requires Steady(bufs, pins, bs, pins', un) && bufs[HEAD].dev == 0 && bs[HEAD].dev == 0 && k < n && b + k !in un
    ensures Spare(bufs) || AllCached(bufs, b, n) ==> Spare(bs) || Cached(bs, ROOTDEV, b + k)
    ensures Unused(bufs) ==> Unused(bs) && Spare(bs)
  {
    UnusedStill(bufs, pins, bs, pins', un);
    hide Cached, Spare, Steady, Unused;
    SteadySpare(bufs, pins, bs, pins', un);
    if !Spare(bufs) {
      SteadyCached(bufs, pins, bs, pins', un, b + k);
    }
  }

  lemma StillAll(bufs: seq<Buf>, pins: seq<nat>, bs: seq<Buf>, pins': seq<nat>, b: nat, n: nat)
    requires Steady(bufs, pins, bs, pins', []) && bufs[HEAD].dev == 0 && bs[HEAD].dev == 0
    ensures Spare(bufs) || AllCached(bufs, b, n) ==> Spare(bs) || AllCached(bs, b, n)
  {
    hide Cached, Spare, Steady;
    SteadySpare(bufs, pins, bs, pins', []);
    if !Spare(bufs) && AllCached(bufs, b, n) {
      forall c | b <= c < b + n ensures Cached(bs, ROOTDEV, c) {
        SteadyCached(bufs, pins, bs, pins', [], c);
      }
    }
  }

  lemma UnusedSpare(bufs: seq<Buf>)
    requires Unused(bufs)
    ensures Spare(bufs)
  {
    assert bufs[0].refcnt == 0;
  }

  lemma UnusedStill(bufs: seq<Buf>, pins: seq<nat>, bs: seq<Buf>, pins': seq<nat>, un: seq<nat>)
    requires Steady(bufs, pins, bs, pins', un)
    ensures Unused(bufs) ==> Unused(bs) && Spare(bs)
  {
    forall i | 0 <= i < NBUF ensures bs[i].refcnt <= bufs[i].refcnt {
      assert SteadyAt(bufs[i], pins[i], bs[i], pins'[i], un);
    }
    assert Unused(bufs) ==> bs[0].refcnt == 0;
  }

  lemma ListedPinned(bufs: seq<Buf>, pins: seq<nat>, lh: seq<nat>, k: nat)
    requires |pins| < |bufs| && AllPinned(bufs, pins, lh) && k < |lh|
    ensures Pinned(bufs, pins, lh[k])
  {
  }

  lemma StillPinned(bufs: seq<Buf>, bufs': seq<Buf>, pins: seq<nat>, lh: seq<nat>)
    requires |pins| < |bufs| && |pins| < |bufs'| && AllPinned(bufs, pins, lh) && forall c :: Pinned(bufs, pins, c) ==> Pinned(bufs', pins, c)
    ensures AllPinned(bufs', pins, lh)
  {
    hide Pinned;
  }

  lemma Sentinel(bufs: seq<Buf>, order: seq<nat>, stamp: seq<nat>, clock: nat)
    requires Shape(bufs, order, stamp, clock)
    ensures |bufs| == NBUF + 1 && bufs[HEAD].dev == 0
  {
  }

  /** No buffer is referenced. */
  ghost predicate Unused(bufs: seq<Buf>) { |bufs| > NBUF && forall i :: 0 <= i < NBUF ==> bufs[i].refcnt == 0 }

  lemma PinnedAt(bufs: seq<Buf>, pins: seq<nat>, b: nat, i: nat)
    requires Unique(bufs) && i < |pins| < |bufs| && Matches(bufs[i], ROOTDEV, b) && Pinned(bufs, pins, b)
    ensures pins[i] > 0
  {
    var j :| 0 <= j < |pins| && Matches(bufs[j], ROOTDEV, b) && bufs[j].valid && pins[j] > 0;
    assert SameBlock(bufs[i], bufs[j]) && SameBlock(bufs[j], bufs[i]);
  }

  class Log {
    const lay: Layout
    const cache: Bcache
    var outstanding: nat   // how many FS system calls are executing
    var committing: bool
    var lh: seq<nat>       // lh.block[0..lh.n]

    ghost predicate Valid()
      reads this`lh, cache, cache.disk
    {
      cache.Valid() && HeadOk(lay, lh) && |cache.disk.blocks| == lay.size
    }

    constructor (lay: Layout, cache: Bcache)
      requires cache.Valid() && lay.Valid() && |cache.disk.blocks| == lay.size
      ensures Valid() && this.lay == lay && this.cache == cache
      ensures lh == [] && outstanding == 0 && !committing
    {
      this.lay, this.cache := lay, cache;
      lh, outstanding, committing := [], 0, false;
    }

    /** One turn of write_log's loop. */
    method WriteLogBlock(tail: nat) returns (ok: bool)
      requires Valid() && tail < |lh| && Pinned(cache.bufs, cache.pins, lh[tail])
      requires Free(cache.bufs, lay.start + 1 + tail) && Free(cache.bufs, lh[tail])
      modifies cache, cache.disk
      ensures ok ==> Valid() && cache.pins == old(cache.pins)
      ensures ok ==> KeepsFree(old(cache.bufs), cache.bufs)
      ensures ok ==> forall c :: Pinned(old(cache.bufs), cache.pins, c) ==> Pinned(cache.bufs, cache.pins, c)
      ensures ok <==> Spare(old(cache.bufs)) || Cached(old(cache.bufs), ROOTDEV, lay.start + 1 + tail)
      ensures ok ==> Steady(old(cache.bufs), old(cache.pins), cache.bufs, cache.pins, [])
      ensures var w := Write(lay.start + 1 + tail, old(cache.latest)[lh[tail]]);
        Wrote(if ok then [w] else [], old(cache.disk.blocks), old(cache.disk.writes), cache.disk.blocks, cache.disk.writes)
        && (ok ==> cache.latest == Put(old(cache.latest), w))
    {
      hide Shape, Transparent, Free, Pinned, Distinct, Grabs, Drops, Spare, Cached, Steady;
      var r := cache.BreadPair(lay.start + 1 + tail, lh[tail]);
      if r.None? {
        return false;
      }
      var to, from := r.value.0, r.value.1;
      PinnedAt(cache.bufs, cache.pins, lh[tail], from);
      ApplyOne(cache.disk.blocks, Write(lay.start + 1 + tail, cache.bufs[from].data));
      ghost var bs := cache.bufs;
      cache.SetData(to, cache.bufs[from].data);
      SetDataFrees(bs, to, cache.bufs[from].data, cache.pins);
      cache.WriteAndRelease(to, from, false);
      TurnSteady(old(cache.bufs), bs, bs[from].data, cache.bufs, old(cache.pins), to, from, false, []);
      ok := true;
    }

    /** One turn of install_trans's loop. */
    method InstallBlock(tail: nat, recovering: bool) returns (ok: bool)
      requires Valid() && tail < |lh| && (!recovering ==> Pinned(cache.bufs, cache.pins, lh[tail]))
      requires Free(cache.bufs, lay.start + 1 + tail) && Free(cache.bufs, lh[tail])
      requires cache.latest[lay.start + 1 + tail] == cache.disk.blocks[lay.start + 1 + tail]
      modifies cache, cache.disk
      ensures ok ==> Valid() && KeepsFree(old(cache.bufs), cache.bufs)
      ensures ok && !recovering ==> forall c :: Pinned(old(cache.bufs), old(cache.pins), c) && c != lh[tail] ==> Pinned(cache.bufs, cache.pins, c)
      ensures ok ==> Total(cache.pins) == Total(old(cache.pins)) - (if recovering then 0 else 1)
      ensures recovering && Unused(old(cache.bufs)) ==> ok
      ensures !recovering ==> (ok <==> Spare(old(cache.bufs)) || Cached(old(cache.bufs), ROOTDEV, lay.start + 1 + tail))
      ensures ok ==> Steady(old(cache.bufs), old(cache.pins), cache.bufs, cache.pins, lh) && (recovering ==> cache.pins == old(cache.pins))
      ensures var w := Write(lh[tail], old(cache.latest)[lay.start + 1 + tail]);
        Wrote(if ok then [w] else [], old(cache.disk.blocks), old(cache.disk.writes), cache.disk.blocks, cache.disk.writes)
        && (ok ==> cache.latest == Put(old(cache.latest), w))
    {
      hide Shape, Transparent, Free, Pinned, Distinct, Total, Grabs, Drops, Spare, Cached, Steady;
      var r := cache.BreadPair(lay.start + 1 + tail, lh[tail]);
      if r.None? {
        return false;
      }
      var lbuf, dbuf := r.value.0, r.value.1;
      ApplyOne(cache.disk.blocks, Write(lh[tail], cache.bufs[lbuf].data));
      if !recovering {
        PinnedAt(cache.bufs, cache.pins, lh[tail], dbuf);
        TotalAt(cache.pins, dbuf, cache.pins[dbuf] - 1);
      }
      ghost var bs := cache.bufs;
      cache.SetData(dbuf, cache.bufs[lbuf].data);
      SetDataFrees(bs, dbuf, cache.bufs[lbuf].data, cache.pins);
      cache.WriteAndRelease(dbuf, lbuf, !recovering);
      GrabsSwap(old(cache.bufs), bs, lbuf, dbuf);
      TurnSteady(old(cache.bufs), bs, bs[lbuf].data, cache.bufs, old(cache.pins), dbuf, lbuf, !recovering, lh);
      ok := true;
    }

    /** write_head */
    method WriteHead() returns (ok: bool)
      requires Valid() && Free(cache.bufs, lay.start)
      modifies cache, cache.disk
      ensures ok ==> Valid() && cache.pins == old(cache.pins) && KeepsFree(old(cache.bufs), cache.bufs)
      ensures ok ==> forall c :: Pinned(old(cache.bufs), cache.pins, c) ==> Pinned(cache.bufs, cache.pins, c)
      ensures ok <==> Spare(old(cache.bufs)) || Cached(old(cache.bufs), ROOTDEV, lay.start)
      ensures ok ==> Steady(old(cache.bufs), old(cache.pins), cache.bufs, cache.pins, [])
      ensures var w := HeadWrite(lay, old(cache.latest)[lay.start], lh);
        Wrote(if ok then [w] else [], old(cache.disk.blocks), old(cache.disk.writes), cache.disk.blocks, cache.disk.writes)
        && (ok ==> cache.latest == Put(old(cache.latest), w))
    {
      hide Shape, Transparent, Free, Pinned, Distinct, Spare, Cached, Steady;
      var r := cache.Bread(lay.start);
      if r.None? {
        return false;
      }
      var i := r.value;
      ghost var bs := cache.bufs;
      var h := EncodeHeader(cache.bufs[i].data, lh);
      ApplyOne(cache.disk.blocks, Write(lay.start, h));
      cache.SetData(i, h);
      SetDataFrees(bs, i, h, cache.pins);
      ok := cache.Bwrite(i);
      ok := cache.Brelse(i);
      OneSteady(old(cache.bufs), bs[i], h, cache.bufs, cache.pins, i);
    }

    /** write_log: k blocks reached the log, all of them unless bget panicked. */
    method WriteLog() returns (ok: bool, ghost k: nat)
      requires Valid() && AllPinned(cache.bufs, cache.pins, lh) && Ready(lay, lh, cache.bufs)
      modifies cache, cache.disk
      ensures k <= |lh| && (ok ==> k == |lh|)
      ensures ok ==> Valid() && AllPinned(cache.bufs, cache.pins, lh) && Ready(lay, lh, cache.bufs) && cache.pins == old(cache.pins)
      ensures ok ==> KeepsFree(old(cache.bufs), cache.bufs)
      ensures ok <==> |lh| == 0 || Spare(old(cache.bufs)) || AllCached(old(cache.bufs), lay.start + 1, |lh|)
      ensures ok ==> Steady(old(cache.bufs), old(cache.pins), cache.bufs, cache.pins, [])
      ensures var ws := LogWrites(lay, Txn(lh, old(cache.latest)))[..k];
        Wrote(ws, old(cache.disk.blocks), old(cache.disk.writes), cache.disk.blocks, cache.disk.writes)
        && (ok ==> cache.latest == Apply(old(cache.latest), ws))
    {
      hide Shape, Unique, Transparent, Counted, Free, Pinned, Distinct, Apply, Spare, Cached, Ready, KeepsFree, AllPinned, AllCached, Steady;
      KeepsSelf(cache.bufs);
      Sentinel(cache.bufs, cache.order, cache.stamp, cache.clock);
      SteadySelf(cache.bufs, cache.pins, []);
      FirstCached(cache.bufs, lay.start, 0);
      ghost var ws := LogWrites(lay, Txn(lh, cache.latest));
      var tail := 0;
      k := 0;
      while tail < |lh|
        invariant 0 <= tail == k <= |lh|
        invariant Valid() && AllPinned(cache.bufs, cache.pins, lh) && cache.pins == old(cache.pins)
        invariant Ready(lay, lh, cache.bufs) && KeepsFree(old(cache.bufs), cache.bufs)
        invariant Steady(old(cache.bufs), old(cache.pins), cache.bufs, cache.pins, [])
        invariant Spare(old(cache.bufs)) || AllCached(old(cache.bufs), lay.start + 1, k)
        invariant Wrote(ws[..k], old(cache.disk.blocks), old(cache.disk.writes), cache.disk.blocks, cache.disk.writes)
        invariant cache.latest == Apply(old(cache.latest), ws[..k])
      {
        LogAreaWritesKeepHome(lay, old(cache.latest), ws[..k]);
        ApplyNext(old(cache.latest), ws, k);
        ApplyNext(old(cache.disk.blocks), ws, k);
        Sentinel(cache.bufs, cache.order, cache.stamp, cache.clock);
        NextCached(old(cache.bufs), old(cache.pins), cache.bufs, cache.pins, lay.start + 1, tail);
        ReadyAt(lay, lh, cache.bufs, tail);
        ListedPinned(cache.bufs, cache.pins, lh, tail);
        ghost var bs := cache.bufs;
        ok := WriteLogBlock(tail);
        if !ok {
          return;
        }
        ReadyStill(lay, lh, old(cache.bufs), bs, cache.bufs);
        StillPinned(bs, cache.bufs, cache.pins, lh);
        SteadyThen(old(cache.bufs), old(cache.pins), bs, cache.pins, cache.bufs, cache.pins, []);
        tail, k := tail + 1, k + 1;
      }
      ok := true;
    }

    /** install_trans: k home blocks were written from the log, all of them unless
        bget panicked. */
    method InstallTrans(recovering: bool) returns (ok: bool, ghost k: nat)
      requires Valid() && Ready(lay, lh, cache.bufs) && Synced(lay, |lh|, cache.latest, cache.disk.blocks)
      requires !recovering ==> AllPinned(cache.bufs, cache.pins, lh)
      modifies cache, cache.disk
      ensures k <= |lh| && (ok ==> k == |lh|)
      ensures ok ==> Valid() && Ready(lay, lh, cache.bufs) && KeepsFree(old(cache.bufs), cache.bufs)
      ensures ok ==> Total(cache.pins) == Total(old(cache.pins)) - (if recovering then 0 else |lh|)
      ensures recovering && Unused(old(cache.bufs)) ==> ok
      ensures !recovering && (Spare(old(cache.bufs)) || AllCached(old(cache.bufs), lay.start + 1, |lh|)) ==> ok
      ensures ok ==> Steady(old(cache.bufs), old(cache.pins), cache.bufs, cache.pins, lh)
      ensures var ws := Installs(lay, lh, old(cache.latest))[..k];
        Wrote(ws, old(cache.disk.blocks), old(cache.disk.writes), cache.disk.blocks, cache.disk.writes)
        && (ok ==> cache.latest == Apply(old(cache.latest), ws))
    {
      hide Shape, Unique, Transparent, Counted, Free, Pinned, Apply, Total, Spare, Cached, Unused, Ready, KeepsFree, AllCached, Steady;
      KeepsSelf(cache.bufs);
      Sentinel(cache.bufs, cache.order, cache.stamp, cache.clock);
      SteadySelf(cache.bufs, cache.pins, lh);
      ghost var ws := Installs(lay, lh, cache.latest);
      var tail := 0;
      k := 0;
      while tail < |lh|
        invariant 0 <= tail == k <= |lh|
        invariant Valid() && Ready(lay, lh, cache.bufs) && KeepsFree(old(cache.bufs), cache.bufs)
        invariant !recovering ==> forall j :: k <= j < |lh| ==> Pinned(cache.bufs, cache.pins, lh[j])
        invariant Total(cache.pins) == Total(old(cache.pins)) - (if recovering then 0 else k)
        invariant Steady(old(cache.bufs), old(cache.pins), cache.bufs, cache.pins, lh)
        invariant Wrote(ws[..k], old(cache.disk.blocks), old(cache.disk.writes), cache.disk.blocks, cache.disk.writes)
        invariant cache.latest == Apply(old(cache.latest), ws[..k])
      {
        InstallsKeepLog(lay, lh, old(cache.latest), old(cache.latest), k);
        InstallsKeepLog(lay, lh, old(cache.latest), old(cache.disk.blocks), k);
        ApplyNext(old(cache.latest), ws, k);
        ApplyNext(old(cache.disk.blocks), ws, k);
        Sentinel(cache.bufs, cache.order, cache.stamp, cache.clock);
        StillRoom(old(cache.bufs), old(cache.pins), cache.bufs, cache.pins, lh, lay.start + 1, |lh|, tail);
        ReadyAt(lay, lh, cache.bufs, tail);
        ghost var bs, ps := cache.bufs, cache.pins;
        ok := InstallBlock(tail, recovering);
        if !ok {
          return;
        }
        ReadyStill(lay, lh, old(cache.bufs), bs, cache.bufs);
        SteadyThen(old(cache.bufs), old(cache.pins), bs, ps, cache.bufs, cache.pins, lh);
        tail, k := tail + 1, k + 1;
      }
      ok := true;
    }

    /** The first half of commit: write_log, then the write_head that commits. */
    method CommitPoint() returns (ok: bool, ghost k: nat)
      requires Valid() && AllPinned(cache.bufs, cache.pins, lh) && Ready(lay, lh, cache.bufs)
      requires cache.latest[lay.start] == cache.disk.blocks[lay.start]
      modifies cache, cache.disk
      ensures k <= |lh| + 1 && (ok ==> k == |lh| + 1)
      ensures ok ==> Valid() && AllPinned(cache.bufs, cache.pins, lh) && Ready(lay, lh, cache.bufs) && cache.pins == old(cache.pins)
      ensures ok ==> KeepsFree(old(cache.bufs), cache.bufs)
      ensures ok <==> Spare(old(cache.bufs)) || AllCached(old(cache.bufs), lay.start, |lh| + 1)
      ensures ok ==> Steady(old(cache.bufs), old(cache.pins), cache.bufs, cache.pins, [])
      ensures ok ==> Synced(lay, |lh|, cache.latest, cache.disk.blocks)
      ensures var ws := CommitPrefix(lay, old(cache.latest)[lay.start], Txn(lh, old(cache.latest)));
        Wrote(ws[..k], old(cache.disk.blocks), old(cache.disk.writes), cache.disk.blocks, cache.disk.writes)
        && (ok ==> cache.latest == Apply(old(cache.latest), ws))
    {
      hide Shape, Unique, Transparent, Counted, Free, Pinned, Apply, Distinct, EncodeHeader, HeaderBlocks, Spare, Cached, AllCached, Steady, AllPinned, Ready, KeepsFree, LogWrites;
      ghost var t := Txn(lh, cache.latest);
      ghost var d, e := cache.latest, cache.disk.blocks;
      Sentinel(cache.bufs, cache.order, cache.stamp, cache.clock);
      FirstCached(cache.bufs, lay.start, |lh|);
      ok, k := WriteLog();
      CommitPrefixCut(lay, d, t, k);
      CommitPrefixCut(lay, e, t, k);
      if ok {
        Sentinel(cache.bufs, cache.order, cache.stamp, cache.clock);
        NextCached(old(cache.bufs), old(cache.pins), cache.bufs, cache.pins, lay.start, 0);
        ReadyHead(lay, lh, cache.bufs);
        ghost var bs := cache.bufs;
        ok := WriteHead();
        if ok {
          ReadyStill(lay, lh, old(cache.bufs), bs, cache.bufs);
          StillPinned(bs, cache.bufs, cache.pins, lh);
          SteadyThen(old(cache.bufs), old(cache.pins), bs, cache.pins, cache.bufs, cache.pins, []);
          k := k + 1;
          CommitPrefixSynced(lay, d, e, t);
        }
      }
    }

    /** The second half of commit, and the whole of recovery after read_head:
        install_trans, then the write_head that clears the log. */
    method InstallAndClear(recovering: bool) returns (ok: bool, ghost k: nat)
      requires Valid() && Ready(lay, lh, cache.bufs) && Synced(lay, |lh|, cache.latest, cache.disk.blocks)
      requires !recovering ==> AllPinned(cache.bufs, cache.pins, lh)
      modifies this`lh, cache, cache.disk
      ensures k <= |old(lh)| + 1 && (ok ==> k == |old(lh)| + 1)
      ensures ok ==> Valid() && lh == [] && KeepsFree(old(cache.bufs), cache.bufs)
      ensures ok ==> Total(cache.pins) == Total(old(cache.pins)) - (if recovering then 0 else |old(lh)|)
      ensures recovering && Unused(old(cache.bufs)) ==> ok
      ensures !recovering && (Spare(old(cache.bufs)) || AllCached(old(cache.bufs), lay.start, |old(lh)| + 1)) ==> ok
      ensures ok ==> Steady(old(cache.bufs), old(cache.pins), cache.bufs, cache.pins, old(lh))
      ensures var ws := Installs(lay, old(lh), old(cache.latest)) + [HeadWrite(lay, old(cache.latest)[lay.start], [])];
        Wrote(ws[..k], old(cache.disk.blocks), old(cache.disk.writes), cache.disk.blocks, cache.disk.writes)
        && (ok ==> cache.latest == Apply(old(cache.latest), ws))
    {
      hide Shape, Unique, Transparent, Counted, Free, Pinned, Apply, EncodeHeader, HeaderBlocks, Spare, Cached, AllCached, Steady, Total, Unused, AllPinned, KeepsFree;
      ghost var d, e := cache.latest, cache.disk.blocks;
      ghost var ts := Installs(lay, lh, d);
      ghost var ws := ts + [HeadWrite(lay, d[lay.start], [])];
      InstallsKeepLog(lay, lh, d, d, |lh|);
      Sentinel(cache.bufs, cache.order, cache.stamp, cache.clock);
      FirstCached(cache.bufs, lay.start, |lh|);
      ok, k := InstallTrans(recovering);
      assert ws[..k] == ts[..k];
      if ok {
        ApplyNext(d, ws, k);
        ApplyNext(e, ws, k);
        assert ws[..k + 1] == ws;
        Sentinel(cache.bufs, cache.order, cache.stamp, cache.clock);
        StillRoom(old(cache.bufs), old(cache.pins), cache.bufs, cache.pins, lh, lay.start, |lh| + 1, 0);
        ReadyHead(lay, lh, cache.bufs);
        ghost var bs, ps := cache.bufs, cache.pins;
        lh := [];
        ok := WriteHead();
        if ok {
          SteadyMore(bs, ps, cache.bufs, cache.pins, old(lh));
          SteadyThen(old(cache.bufs), old(cache.pins), bs, ps, cache.bufs, cache.pins, old(lh));
          KeepsThen(old(cache.bufs), bs, cache.bufs);
          k := k + 1;
        }
      }
    }

    /** commit(): k of the block writes of CommitWrites were issued, all of them
        unless bget panicked; the transaction is what the cache holds for the logged
        blocks, and afterwards each of them has one pin less. */
    method Commit() returns (ok: bool, ghost k: nat)
      requires Valid() && AllPinned(cache.bufs, cache.pins, lh) && Ready(lay, lh, cache.bufs)
      requires cache.latest[lay.start] == cache.disk.blocks[lay.start]
      modifies this`lh, cache, cache.disk
      ensures ok ==> Valid() && lh == [] && KeepsFree(old(cache.bufs), cache.bufs)
      ensures ok ==> Total(cache.pins) == Total(old(cache.pins)) - |old(lh)|
      ensures ok ==> cache.latest[lay.start] == cache.disk.blocks[lay.start]
      ensures ok <==> |old(lh)| == 0 || Spare(old(cache.bufs)) || AllCached(old(cache.bufs), lay.start, |old(lh)| + 1)
      ensures ok ==> Steady(old(cache.bufs), old(cache.pins), cache.bufs, cache.pins, old(lh))
      ensures var t := Txn(old(lh), old(cache.latest));
        var ws := CommitWrites(lay, old(cache.latest)[lay.start], t);
        k <= |ws| && (ok ==> k == |ws|)
      ensures var ws := CommitWrites(lay, old(cache.latest)[lay.start], Txn(old(lh), old(cache.latest)));
        Wrote(ws[..k], old(cache.disk.blocks), old(cache.disk.writes), cache.disk.blocks, cache.disk.writes)
      ensures var ws := CommitWrites(lay, old(cache.latest)[lay.start], Txn(old(lh), old(cache.latest)));
        (ok ==> cache.latest == Apply(old(cache.latest), ws))
    {
      hide Shape, Unique, Transparent, Counted, Free, Pinned, Apply, Distinct, EncodeHeader, HeaderBlocks, LogWrites, Spare, Cached, AllCached, Steady, Total, AllPinned, Ready, KeepsFree;
      ok, k := true, 0;
      if |lh| == 0 {
        assert Txn(lh, cache.latest) == [];
        KeepsSelf(cache.bufs);
        SteadySelf(cache.bufs, cache.pins, lh);
        return;
      }
      ghost var t := Txn(lh, cache.latest);
      ghost var d, e, w := cache.latest, cache.disk.blocks, cache.disk.writes;
      Sentinel(cache.bufs, cache.order, cache.stamp, cache.clock);
      ok, k := CommitPoint();
      CommitPrefixOf(lay, d, t, k, 0);
      if ok {
        CommitPrefixHolds(lay, d, t);
        ghost var e1, w1 := cache.disk.blocks, cache.disk.writes;
        ghost var bs, j := cache.bufs, 0;
        Sentinel(cache.bufs, cache.order, cache.stamp, cache.clock);
        StillAll(old(cache.bufs), old(cache.pins), cache.bufs, cache.pins, lay.start, |lh| + 1);
        ok, j := InstallAndClear(false);
        CommitPrefixOf(lay, d, t, k, j);
        WroteThen(CommitPrefix(lay, d[lay.start], t)[..k], (t + [HeadWrite(lay, HeadWrite(lay, d[lay.start], Numbers(t)).data, [])])[..j],
          e, w, e1, w1, cache.disk.blocks, cache.disk.writes);
        k := k + j;
        if ok {
          SteadyMore(old(cache.bufs), old(cache.pins), bs, old(cache.pins), old(lh));
          SteadyThen(old(cache.bufs), old(cache.pins), bs, old(cache.pins), cache.bufs, cache.pins, old(lh));
          KeepsThen(old(cache.bufs), bs, cache.bufs);
          ApplyAt(d, e, CommitWrites(lay, d[lay.start], t), lay.start);
          ApplyAt(e, d, CommitWrites(lay, d[lay.start], t), lay.start);
        }
      }
    }

    /** log_write for a buffer the caller holds: record the block once and pin it.
        False is one of the two panics, whose tests come before absorption. */
    method LogWrite(i: nat) returns (ok: bool)
      requires Valid() && AllPinned(cache.bufs, cache.pins, lh)
      requires i < NBUF && Holds(cache.bufs, i, cache.bufs[i].blockno, cache.bufs[i].data) && lay.Home(cache.bufs[i].blockno)
      modifies this`lh, cache`bufs, cache`pins
      ensures Valid() && ok == (|old(lh)| < LOGSIZE && |old(lh)| < lay.nlog - 1 && outstanding >= 1)
      ensures !ok ==> lh == old(lh) && cache.bufs == old(cache.bufs) && cache.pins == old(cache.pins)
      ensures ok ==> lh == Absorb(old(lh), old(cache.bufs)[i].blockno) && AllPinned(cache.bufs, cache.pins, lh)
      ensures ok ==> Total(cache.pins) - |lh| == Total(old(cache.pins)) - |old(lh)|
      ensures ok ==> cache.pins == if old(cache.bufs)[i].blockno in old(lh) then old(cache.pins) else old(cache.pins)[i := old(cache.pins)[i] + 1]
      ensures ok ==> cache.bufs[i].refcnt >= 2
      ensures var b := old(cache.bufs)[i];
        ok ==> cache.bufs == if b.blockno in old(lh) then old(cache.bufs) else old(cache.bufs)[i := b.(refcnt := b.refcnt + 1)]
    {
      hide Shape, Transparent, Total;
      if |lh| >= LOGSIZE || |lh| >= lay.nlog - 1 || outstanding < 1 {
        return false;
      }
      var b := cache.bufs[i].blockno;
      var k := 0;
      while k < |lh| && lh[k] != b
        invariant 0 <= k <= |lh| && forall j :: 0 <= j < k ==> lh[j] != b
      {
        k := k + 1;
      }
      ok := true;
      if k == |lh| {
        ghost var bs, ps := cache.bufs, cache.pins;
        cache.Bpin(i);
        BpinPins(bs, ps, i);
        TotalAt(ps, i, ps[i] + 1);
        lh := lh + [b];
      } else {
        PinnedAt(cache.bufs, cache.pins, b, i);
      }
    }

    /** One turn of begin_op's loop; false means it goes back to sleep. */
    method BeginOp() returns (admitted: bool)
      modifies this`outstanding
      ensures admitted == (!committing && |lh| + (old(outstanding) + 1) * MAXOPBLOCKS <= LOGSIZE)
      ensures outstanding == if admitted then old(outstanding) + 1 else old(outstanding)
    {
      if committing || |lh| + (outstanding + 1) * MAXOPBLOCKS > LOGSIZE {
        return false;
      }
      outstanding := outstanding + 1;
      admitted := true;
    }

    /** end_op up to the release of the lock: the last operation takes the commit.
        None is the panic "log.committing". */
    method EndOp() returns (r: Option<bool>)
      requires outstanding >= 1
      modifies this`outstanding, this`committing
      ensures outstanding == old(outstanding) - 1
      ensures r.None? <==> old(committing)
      ensures r.Some? ==> (r.value <==> outstanding == 0) && committing == r.value
    {
      outstanding := outstanding - 1;
      if committing {
        return None;
      }
      if outstanding == 0 {
        committing := true;
        return Some(true);
      }
      return Some(false);
    }

    /** recover_from_log: with the log header that the disk holds. */
    method RecoverFromLog() returns (ok: bool, ghost k: nat)
      requires Valid() && lh == []
      requires GoodImage(lay, cache.disk.blocks) && cache.latest == cache.disk.blocks
      requires forall b :: Free(cache.bufs, b)
      modifies this`lh, cache, cache.disk
      ensures ok ==> Valid() && lh == [] && KeepsFree(old(cache.bufs), cache.bufs) && Total(cache.pins) == Total(old(cache.pins))
      ensures Unused(old(cache.bufs)) ==> ok
      ensures ok ==> exists un :: Steady(old(cache.bufs), old(cache.pins), cache.bufs, cache.pins, un)
      ensures var ws := RecoveryWrites(lay, old(cache.disk.blocks));
        k <= |ws| && (ok ==> k == |ws|)
        && Wrote(ws[..k], old(cache.disk.blocks), old(cache.disk.writes), cache.disk.blocks, cache.disk.writes)
        && (ok ==> cache.latest == cache.disk.blocks)
    {
      hide Shape, Unique, Transparent, Counted, Free, Pinned, Apply, EncodeHeader, Spare, Cached, Unused, Steady, Total, KeepsFree;
      k := 0;
      if Unused(cache.bufs) {
        UnusedSpare(cache.bufs);
      }
      ok := ReadHead();
      if ok {
        ghost var bs, un := cache.bufs, lh;
        UnusedStill(old(cache.bufs), old(cache.pins), bs, cache.pins, []);
        KeepsReady(lay, lh, old(cache.bufs), bs);
        assert Installs(lay, lh, cache.latest) == LogTxn(lay, cache.disk.blocks);
        ghost var ws := RecoveryWrites(lay, cache.disk.blocks);
        ok, k := InstallAndClear(true);
        assert ok ==> ws[..k] == ws;
        if ok {
          SteadyMore(old(cache.bufs), old(cache.pins), bs, old(cache.pins), un);
          SteadyThen(old(cache.bufs), old(cache.pins), bs, old(cache.pins), cache.bufs, cache.pins, un);
          KeepsThen(old(cache.bufs), bs, cache.bufs);
        }
      }
    }

    /** read_head */
    method ReadHead() returns (ok: bool)
      requires Valid() && GoodHeader(lay, cache.latest[lay.start])
      requires Free(cache.bufs, lay.start) && cache.latest[lay.start] == cache.disk.blocks[lay.start]
      modifies this`lh, cache
      ensures cache.pins == old(cache.pins) && (ok <==> Spare(old(cache.bufs)) || Cached(old(cache.bufs), ROOTDEV, lay.start))
      ensures ok ==> Steady(old(cache.bufs), old(cache.pins), cache.bufs, cache.pins, [])
      ensures ok ==> Valid() && KeepsFree(old(cache.bufs), cache.bufs) && cache.latest == old(cache.latest)
      ensures ok ==> lh == HeaderBlocks(cache.latest[lay.start])
      ensures !ok ==> lh == old(lh)
    {
      hide Shape, Transparent, Free, Pinned, Spare, Cached, Steady;
      var r := cache.Bread(lay.start);
      if r.None? {
        return false;
      }
      ghost var read := cache.bufs[r.value];
      var h := cache.bufs[r.value].data;
      lh := [];
      var n := h[0];
      var bs: seq<nat> := [];
      for i := 0 to n
        invariant bs == HeaderBlocks(h)[..i]
      {
        bs := bs + [h[i + 1]];
      }
      lh := bs;
      ok := cache.Brelse(r.value);
      OneSteady(old(cache.bufs), read, read.data, cache.bufs, cache.pins, r.value);
    }
  }

  lemma KeepsSelf(bufs: seq<Buf>)
    ensures KeepsFree(bufs, bufs)
  {
  }

  lemma KeepsThen(bufs: seq<Buf>, mid: seq<Buf>, bs: seq<Buf>)
    requires KeepsFree(bufs, mid) && KeepsFree(mid, bs)
    ensures KeepsFree(bufs, bs)
  {
    hide Free;
  }

  lemma KeepsReady(lay: Layout, lh: seq<nat>, bufs: seq<Buf>, bs: seq<Buf>)
    requires KeepsFree(bufs, bs) && forall b :: Free(bufs, b)
    ensures Ready(lay, lh, bs)
  {
    hide Free;
  }

  lemma ReadyHead(lay: Layout, lh: seq<nat>, bufs: seq<Buf>)
    requires Ready(lay, lh, bufs) && lay.Valid()
    ensures Free(bufs, lay.start)
  {
    hide Free;
    assert lay.InLog(lay.start);
  }

  lemma ReadyAt(lay: Layout, lh: seq<nat>, bufs: seq<Buf>, k: nat)
    requires Ready(lay, lh, bufs) && HeadOk(lay, lh) && k < |lh|
    ensures Free(bufs, lay.start + 1 + k) && Free(bufs, lh[k])
  {
    hide Free;
  }

  lemma ReadyStill(lay: Layout, lh: seq<nat>, bufs: seq<Buf>, mid: seq<Buf>, bs: seq<Buf>)
    requires Ready(lay, lh, mid) && KeepsFree(bufs, mid) && KeepsFree(mid, bs)
    ensures Ready(lay, lh, bs) && KeepsFree(bufs, bs)
  {
    hide Free;
  }

  lemma WroteThen(xs: seq<Write>, ys: seq<Write>, d: Image, w: seq<Write>, d': Image, w': seq<Write>, d'': Image, w'': seq<Write>)
    requires Wrote(xs, d, w, d', w') && Wrote(ys, d', w', d'', w'')
    ensures Wrote(xs + ys, d, w, d'', w'')
  {
    ApplyConcat(d, xs, ys);
  }

  lemma CommitPrefixOf(lay: Layout, d: Image, t: seq<Write>, k: nat, j: nat)
    requires lay.Valid() && |d| == lay.size && IsTxn(lay, t) && t != []
    requires k <= |t| + 1 && j <= |t| + 1 && (k < |t| + 1 ==> j == 0)
    ensures var head := HeadWrite(lay, d[lay.start], Numbers(t));
      var tail := t + [HeadWrite(lay, head.data, [])];
      var pre := CommitPrefix(lay, d[lay.start], t);
      var ws := CommitWrites(lay, d[lay.start], t);
      |ws| == |pre| + |tail| && ws[..k + j] == pre[..k] + tail[..j]
      && Apply(d, ws[..k + j]) == Apply(Apply(d, pre[..k]), tail[..j])
      && (j == 0 ==> ws[..k] == pre[..k])
      && (j == |t| + 1 ==> tail[..j] == tail && ws[..k + j] == ws && pre[..k] == pre)
  {
    var head := HeadWrite(lay, d[lay.start], Numbers(t));
    var tail := t + [HeadWrite(lay, head.data, [])];
    var pre := CommitPrefix(lay, d[lay.start], t);
    assert CommitWrites(lay, d[lay.start], t) == pre + tail;
    hide Apply, EncodeHeader, LogWrites, CommitWrites, CommitPrefix, HeadWrite;
    CutInTwo(pre, tail, k, j);
    ApplyConcat(d, pre[..k], tail[..j]);
  }

  lemma CutInTwo(xs: seq<Write>, ys: seq<Write>, k: nat, j: nat)
    requires k <= |xs| && j <= |ys| && (k < |xs| ==> j == 0)
    ensures (xs + ys)[..k + j] == xs[..k] + ys[..j] && (j == 0 ==> (xs + ys)[..k] == xs[..k])
    ensures k == |xs| && j == |ys| ==> ys[..j] == ys && (xs + ys)[..k + j] == xs + ys && xs[..k] == xs
  {
  }

  /** Log absorption: a block is listed once. */
  function Absorb(lh: seq<nat>, b: nat): seq<nat> {
    if b in lh then lh else lh + [b]
  }

  lemma BpinPins(bufs: seq<Buf>, pins: seq<nat>, i: nat)
    requires i < |pins| < |bufs| && bufs[i].dev == ROOTDEV && bufs[i].valid
    ensures var bs, ps := bufs[i := bufs[i].(refcnt := bufs[i].refcnt + 1)], pins[i := pins[i] + 1];
      Pinned(bs, ps, bufs[i].blockno) && forall c :: Pinned(bufs, pins, c) ==> Pinned(bs, ps, c)
  {
    var bs, ps := bufs[i := bufs[i].(refcnt := bufs[i].refcnt + 1)], pins[i := pins[i] + 1];
    assert Matches(bs[i], ROOTDEV, bufs[i].blockno);
    forall c | Pinned(bufs, pins, c) ensures Pinned(bs, ps, c) {
      var j :| 0 <= j < |pins| && Matches(bufs[j], ROOTDEV, c) && bufs[j].valid && pins[j] > 0;
      assert Matches(bs[j], ROOTDEV, c);
    }
  }

  /** The writes of commit() up to its first header write. */
  function CommitPrefix(lay: Layout, h: Block, t: seq<Write>): (ws: seq<Write>)
    requires lay.Valid() && IsTxn(lay, t)
    ensures |ws| == |t| + 1
  {
    LogWrites(lay, t) + [HeadWrite(lay, h, Numbers(t))]
  }

  lemma CommitPrefixCut(lay: Layout, d: Image, t: seq<Write>, k: nat)
    requires lay.Valid() && |d| == lay.size && IsTxn(lay, t) && k <= |t|
    ensures var ws := CommitPrefix(lay, d[lay.start], t);
      var e := Apply(d, LogWrites(lay, t)[..k]);
      ws[..k] == LogWrites(lay, t)[..k] && e[lay.start] == d[lay.start]
    ensures k == |t| ==>
      var head := HeadWrite(lay, d[lay.start], Numbers(t));
      var ws := CommitPrefix(lay, d[lay.start], t);
      var e := Apply(d, LogWrites(lay, t)[..k]);
      ws == LogWrites(lay, t)[..k] + [head] == ws[..k + 1] && Apply(d, ws) == Apply(e, [head]) == Put(e, head)
  {
    var ls := LogWrites(lay, t)[..k];
    var ws := CommitPrefix(lay, d[lay.start], t);
    if k == |t| {
      ApplyNext(d, ws, |t|);
    }
    assert ws[..k] == ls;
    assert !Touches(ls, lay.start);
    ApplyAt(d, d, ls, lay.start);
  }

  lemma PrefixLast(lay: Layout, d: Image, t: seq<Write>, i: nat)
    requires lay.Valid() && |d| == lay.size && IsTxn(lay, t) && i <= |t|
    ensures var ws := CommitPrefix(lay, d[lay.start], t); ws[i].blockno < |d| && Apply(d, ws)[ws[i].blockno] == ws[i].data
    ensures var w := CommitPrefix(lay, d[lay.start], t)[i]; w == if i == |t| then HeadWrite(lay, d[lay.start], Numbers(t)) else Write(lay.start + 1 + i, t[i].data)
  {
    hide Apply, EncodeHeader;
    ApplyLast(d, CommitPrefix(lay, d[lay.start], t), i);
  }

  /** Once the header is written, the log blocks hold the transaction. */
  lemma CommitPrefixHolds(lay: Layout, d: Image, t: seq<Write>)
    requires lay.Valid() && |d| == lay.size && IsTxn(lay, t)
    ensures var e := Apply(d, CommitPrefix(lay, d[lay.start], t));
      e[lay.start] == HeadWrite(lay, d[lay.start], Numbers(t)).data
      && (forall k :: 0 <= k < |t| ==> e[lay.start + 1 + k] == t[k].data)
      && Installs(lay, Numbers(t), e) == t
  {
    hide Apply, CommitPrefix, EncodeHeader;
    var e := Apply(d, CommitPrefix(lay, d[lay.start], t));
    PrefixLast(lay, d, t, |t|);
    forall k | 0 <= k < |t| ensures e[lay.start + 1 + k] == t[k].data {
      PrefixLast(lay, d, t, k);
    }
    InstallsBack(lay, t, e);
  }

  lemma CommitPrefixSynced(lay: Layout, d: Image, e: Image, t: seq<Write>)
    requires lay.Valid() && |d| == |e| == lay.size && IsTxn(lay, t) && d[lay.start] == e[lay.start]
    ensures var ws := CommitPrefix(lay, d[lay.start], t); Synced(lay, |t|, Apply(d, ws), Apply(e, ws))
  {
    hide Apply, CommitPrefix, EncodeHeader;
    var ws := CommitPrefix(lay, d[lay.start], t);
    forall b | lay.start <= b <= lay.start + |t| ensures Apply(d, ws)[b] == Apply(e, ws)[b] {
      var i := if b == lay.start then |t| else b - lay.start - 1;
      PrefixLast(lay, d, t, i);
      PrefixLast(lay, e, t, i);
    }
  }

  lemma InstallsBack(lay: Layout, t: seq<Write>, e: Image)
    requires lay.start + |t| < |e| && forall k :: 0 <= k < |t| ==> e[lay.start + 1 + k] == t[k].data
    ensures Installs(lay, Numbers(t), e) == t
  {
    var r := Installs(lay, Numbers(t), e);
    hide Installs, Numbers;
    forall k: nat | k < |t| ensures r[k] == t[k] {
      assert Numbers(t)[k] == t[k].blockno;
    }
  }

  /** The first n log blocks are on disk as the cache has them. */
  ghost predicate Synced(lay: Layout, n: nat, latest: Image, disk: Image) {
    |latest| == |disk| && lay.start + n < |disk|
    && forall b :: lay.start <= b <= lay.start + n ==> latest[b] == disk[b]
  }

  /** The home writes that install_trans issues when the cache reads `latest`. */
  ghost function Installs(lay: Layout, lh: seq<nat>, latest: Image): (t: seq<Write>)
    requires lay.start + |lh| < |latest|
    ensures |t| == |lh| && forall k :: 0 <= k < |lh| ==> t[k] == Write(lh[k], latest[lay.start + 1 + k])
  {
    seq(|lh|, k requires 0 <= k < |lh| => Write(lh[k], latest[lay.start + 1 + k]))
  }

  lemma InstallsKeepLog(lay: Layout, lh: seq<nat>, latest: Image, d: Image, k: nat)
    requires HeadOk(lay, lh) && k <= |lh| && |latest| == |d| == lay.size
    ensures forall b: nat :: lay.InLog(b) ==> Apply(d, Installs(lay, lh, latest)[..k])[b] == d[b]
  {
    var ws := Installs(lay, lh, latest)[..k];
    forall b: nat | lay.InLog(b) ensures Apply(d, ws)[b] == d[b] {
      assert !Touches(ws, b);
      ApplyAt(d, d, ws, b);
    }
  }

  ghost predicate KeepsFree(bufs: seq<Buf>, bs: seq<Buf>) {
    forall c :: Free(bufs, c) ==> Free(bs, c)
  }

  /** The writes `ws` were issued between two states of the device. */
  ghost predicate Wrote(ws: seq<Write>, d: Image, writes: seq<Write>, d': Image, writes': seq<Write>) {
    d' == Apply(d, ws) && writes' == writes + ws
  }
}
