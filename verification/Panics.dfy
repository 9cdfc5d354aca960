/** Two ways for commit to find no buffer, each reached from boot through the methods of the
    log and the cache, by operations that keep to their reservations. */
module Panics {
  import opened Wrappers
  import opened Param
  import Counting
  import opened Disk
  import opened Crash
  import opened Bio
  import opened Log
  import opened Journal

  /** A list of blocks that fits into the log. */
  ghost predicate Fits(lay: Layout, bs: seq<nat>) {
    lay.Valid() && Distinct(bs) && |bs| <= lay.Capacity() && forall k :: 0 <= k < |bs| ==> lay.Home(bs[k])
  }

  /** Change the blocks one after the other. */
  method LogAll(log: Log, bs: seq<nat>, data: Block)
    requires Open(log) && Quiet(log.cache.bufs, log.cache.pins) && log.lh == [] && log.outstanding >= 1 && Fits(log.lay, bs)
    modifies log`lh, log.cache
    ensures Open(log) && Quiet(log.cache.bufs, log.cache.pins) && log.lh == bs
  {
    hide Open, Quiet, Free, Rests, Spare, Cached;
    for k := 0 to |bs|
      invariant Open(log) && Quiet(log.cache.bufs, log.cache.pins) && log.lh == bs[..k]
    {
      QuietOpen(log, bs[k]);
      ghost var bufs, pins := log.cache.bufs, log.cache.pins;
      assert bs[k] !in bs[..k] && bs[..k] + [bs[k]] == bs[..k + 1];
      var ok := Update(log, Write(bs[k], data));
      RestsQuiet(bufs, pins, log.cache.bufs, log.cache.pins);
    }
    assert bs[..|bs|] == bs;
  }

  /** Boot; as many operations as may run at once begin, log the blocks between them, and
      end. The last one takes the commit. */
  method Fill(disk: Device, lay: Layout, bs: seq<nat>, data: Block) returns (log: Log)
    requires GoodImage(lay, disk.blocks) && Fits(lay, bs)
    modifies disk
    ensures fresh(log) && fresh(log.cache) && log.cache.disk == disk && log.lay == lay
    ensures Open(log) && Quiet(log.cache.bufs, log.cache.pins) && log.lh == bs && log.committing && log.outstanding == 0
  {
    hide Open, Quiet, Fits;
    log := Boot(disk, lay);
    for k := 0 to 3
      invariant Open(log) && Quiet(log.cache.bufs, log.cache.pins) && log.lh == [] && !log.committing && log.outstanding == k
    {
      var admitted := log.BeginOp();
      assert admitted;
    }
    LogAll(log, bs, data);
    for k := 0 to 3
      invariant Open(log) && Quiet(log.cache.bufs, log.cache.pins) && log.lh == bs && log.committing == (k == 3) && log.outstanding == 3 - k
    {
      var r := log.EndOp();
    }
  }

  /** A log larger than all reservations: every buffer is pinned. */
  method FullLog(disk: Device, lay: Layout, bs: seq<nat>, data: Block) returns (ok: bool)
    requires GoodImage(lay, disk.blocks) && Fits(lay, bs) && |bs| == NBUF
    modifies disk
    ensures !ok
  {
    hide Open, Quiet, Fits, MayCommit, AllFree;
    var log := Fill(disk, lay, bs, data);
    QuietCommit(log);
    ghost var ws;
    ok, ws := CommitOpen(log);
  }

  /** The log that mkfs makes: all buffers but one are pinned, and a process that reads a
      file holds that one. */
  method HeldBuffer(disk: Device, lay: Layout, bs: seq<nat>, b: nat, data: Block) returns (ok: bool)
    requires GoodImage(lay, disk.blocks) && Fits(lay, bs) && |bs| == NBUF - 1 && lay.Home(b) && b !in bs
    modifies disk
    ensures !ok
  {
    hide Open, Quiet, Fits, MayCommit, Spare, Cached, Held, Free;
    var log := Fill(disk, lay, bs, data);
    QuietOpen(log, b);
    QuietReaders(log);
    var r, held := TakeBlock(log, map[], b);
    forall k | 0 <= k < |bs| ensures Free(log.cache.bufs, bs[k]) {
      HeldFree(lay, log.cache.bufs, log.cache.latest, held, bs[k]);
    }
    HeldAt(lay, log.cache.bufs, log.cache.latest, held, b);
    NoneLeft(log, held[b], b);
    ghost var ws;
    ok, ws := CommitOpen(log);
  }

  lemma QuietReaders(log: Log)
    requires Open(log) && Quiet(log.cache.bufs, log.cache.pins)
    ensures Held(log.lay, log.cache.bufs, log.cache.latest, map[])
  {
    hide Shape, Quiet, Free, Clean, Transparent, Total, Unique, AllPinned, LogFree, Held;
    var c := log.cache;
    Sentinel(c.bufs, c.order, c.stamp, c.clock);
    QuietHeld(log.lay, c.bufs, c.pins, c.latest);
  }

  /** All buffers are pinned or the one that is held. */
  lemma NoneLeft(log: Log, i: nat, b: nat)
    requires Open(log) && |log.lh| == NBUF - 1 && b !in log.lh && log.lay.Home(b) && i < NBUF < |log.cache.bufs| && Matches(log.cache.bufs[i], ROOTDEV, b) && log.cache.bufs[i].locked
    ensures !MayCommit(log.lay, log.cache.bufs, |log.lh|)
  {
    hide Shape, Free, Clean, Transparent, Total, Unique, LogFree, Pending;
    var c := log.cache;
    Sentinel(c.bufs, c.order, c.stamp, c.clock);
    forall j | 0 <= j < NBUF ensures c.bufs[j].refcnt > 0 && !Matches(c.bufs[j], ROOTDEV, log.lay.start) {
      CacheFullBut(c.bufs, c.pins, log.lh, i, b, j);
    }
    assert !Cached(c.bufs, ROOTDEV, log.lay.start);
  }

  lemma CacheFullBut(bufs: seq<Buf>, pins: seq<nat>, lh: seq<nat>, i: nat, b: nat, j: nat)
    requires |pins| == NBUF < |bufs| && AllPinned(bufs, pins, lh) && |lh| == NBUF - 1 && i < NBUF && j < NBUF && Matches(bufs[i], ROOTDEV, b) && b !in lh
    ensures j == i || (bufs[j].blockno in lh && pins[j] > 0)
  {
    var at := Holders(bufs, pins, lh, NBUF - 1);
    hide AllPinned;
    forall k, l | 0 <= k < l < NBUF - 1 ensures at[k] != at[l] {
      DistinctAt(bufs, pins, lh, k, l);
    }
    if j in at {
      var k :| 0 <= k < NBUF - 1 && at[k] == j;
    } else if j != i {
      Counting.Pigeonhole(at + [i, j], NBUF);
    }
  }
}
