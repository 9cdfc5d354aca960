/** The log in use: booting, and any sequence of operations that begin, log blocks and
    end. Wherever such a run stops, by a panic or a power failure between two writes,
    booting again finds all operations up to some commit and nothing of the later ones. */
module Journal {
  import opened Wrappers
  import opened Param
  import opened Disk
  import opened Crash
  import opened Bio
  import opened Log

  // ----- what a commit achieves -----

  /** Home blocks that differ between cache and disk are in the log. */
  ghost predicate Pending(lay: Layout, lh: seq<nat>, latest: Image, disk: Image) {
    |latest| == |disk| == lay.size && forall b: nat :: lay.Home(b) && latest[b] != disk[b] ==> b in lh
  }

  /** Writing what is there changes nothing. */
  lemma {:induction false} ApplyOwn(l: Image, t: seq<Write>)
    requires forall i :: 0 <= i < |t| ==> t[i].blockno < |l| && t[i].data == l[t[i].blockno]
    ensures Apply(l, t) == l
    decreases |t|
  {
    if t != [] {
      var n := |t| - 1;
      ApplyOwn(l, t[..n]);
      assert l[t[n].blockno := t[n].data] == l;
    }
  }

  /** Installing the open transaction makes the disk agree with the cache. */
  lemma InstalledAgrees(lay: Layout, d: Image, l: Image, lh: seq<nat>)
    requires HeadOk(lay, lh) && Pending(lay, lh, l, d)
    ensures SameHome(lay, Apply(d, Txn(lh, l)), l)
  {
    var t := Txn(lh, l);
    hide Apply, Txn, HeadOk;
    ApplyOwn(l, t);
    forall b | 0 <= b < lay.size && !lay.InLog(b) ensures Apply(d, t)[b] == l[b] {
      ApplyAt(d, l, t, b);
      ApplyAt(l, d, t, b);
      if b in lh {
        var k :| 0 <= k < |lh| && lh[k] == b;
        assert t[k].blockno == b;
      }
    }
  }

  lemma RecoverableSame(lay: Layout, d: Image, h: Image, g: Image)
    requires Recoverable(lay, d, h) && SameHome(lay, h, g)
    ensures Recoverable(lay, d, g)
  {
    hide Apply, LogTxn;
  }

  lemma CleanSame(lay: Layout, d: Image, h: Image, g: Image)
    requires Clean(lay, d, h) && SameHome(lay, h, g)
    ensures Clean(lay, d, g)
  {
  }

  /** After k of its writes a commit has left the disk at its old home state or at that of
      the cache, depending on the header write; after all of them the disk is clean. */
  lemma CommitOutcome(lay: Layout, d: Image, l: Image, lh: seq<nat>, k: nat)
    requires HeadOk(lay, lh) && Pending(lay, lh, l, d) && Clean(lay, d, d) && IsTxn(lay, Txn(lh, l))
    requires k <= |CommitWrites(lay, d[lay.start], Txn(lh, l))|
    ensures var ws := CommitWrites(lay, d[lay.start], Txn(lh, l));
      Recoverable(lay, Apply(d, ws[..k]), if |lh| < k then l else d)
      && (k == |ws| ==> Clean(lay, Apply(d, ws), l))
  {
    var t := Txn(lh, l);
    CommitCut(lay, d, d, t, k);
    InstalledAgrees(lay, d, l, lh);
    hide Apply, CommitWrites, Recoverable, Clean, HeadOk, Pending, IsTxn;
    var ws := CommitWrites(lay, d[lay.start], t);
    if |lh| < k {
      RecoverableSame(lay, Apply(d, ws[..k]), Apply(d, t), l);
    }
    if k == |ws| {
      CleanSame(lay, Apply(d, ws), Apply(d, t), l);
    }
  }

  lemma TxnFits(lay: Layout, lh: seq<nat>, l: Image)
    requires HeadOk(lay, lh) && |l| == lay.size
    ensures IsTxn(lay, Txn(lh, l))
  {
  }

  /** A commit writes to the log, then home, then to the log. */
  lemma CommitShape(lay: Layout, h: Block, t: seq<Write>) returns (pre: seq<Write>, clear: seq<Write>)
    requires lay.Valid() && IsTxn(lay, t) && t != []
    ensures CommitWrites(lay, h, t) == (pre + t) + clear
    ensures forall i :: 0 <= i < |pre| ==> lay.InLog(pre[i].blockno)
    ensures |clear| == 1 && clear[0].blockno == lay.start
  {
    hide EncodeHeader;
    pre := CommitPrefix(lay, h, t);
    clear := [HeadWrite(lay, HeadWrite(lay, h, Numbers(t)).data, [])];
  }

  /** What the cache holds for the home blocks is not changed by a commit. */
  lemma CommitKeepsLatest(lay: Layout, h: Block, l: Image, lh: seq<nat>)
    requires HeadOk(lay, lh) && |l| == lay.size && IsTxn(lay, Txn(lh, l))
    ensures SameHome(lay, Apply(l, CommitWrites(lay, h, Txn(lh, l))), l)
  {
    var t := Txn(lh, l);
    ApplyOwn(l, t);
    SameHomeSelf(lay, l);
    if t != [] {
      var pre, clear := CommitShape(lay, h, t);
      hide Apply, EncodeHeader, SameHome, HeadOk, Txn, CommitWrites, IsTxn;
      LogAreaWritesKeepHome(lay, l, pre);
      ApplyConcat(l, pre + t, clear);
      ApplyConcat(l, pre, t);
      SameHomeApply(lay, Apply(l, pre), l, t);
      ClearKeepsHome(lay, Apply(Apply(l, pre), t), clear);
      SameHomeThen(lay, Apply(l, (pre + t) + clear), Apply(Apply(l, pre), t), l);
    }
  }

  lemma ClearKeepsHome(lay: Layout, d: Image, clear: seq<Write>)
    requires lay.Valid() && |d| == lay.size && |clear| == 1 && clear[0].blockno == lay.start
    ensures SameHome(lay, Apply(d, clear), d)
  {
    LogAreaWritesKeepHome(lay, d, clear);
  }

  lemma SameHomeSelf(lay: Layout, d: Image)
    requires |d| == lay.size
    ensures SameHome(lay, d, d)
  {
  }

  // ----- the log between two calls -----

  /** Buffers may be held and referenced by anyone, but log blocks by nobody. */
  ghost predicate Open(log: Log)
    reads log`lh, log.cache, log.cache.disk
  {
    log.Valid() && AllPinned(log.cache.bufs, log.cache.pins, log.lh) && Total(log.cache.pins) == |log.lh|
    && LogFree(log.lay, log.cache.bufs)
    && Pending(log.lay, log.lh, log.cache.latest, log.cache.disk.blocks)
    && Clean(log.lay, log.cache.disk.blocks, log.cache.disk.blocks)
    && log.cache.latest[log.lay.start] == log.cache.disk.blocks[log.lay.start]
  }

  ghost predicate LogFree(lay: Layout, bufs: seq<Buf>) { forall b :: lay.InLog(b) ==> Free(bufs, b) }

  lemma QuietFree(bufs: seq<Buf>, pins: seq<nat>, b: nat)
    requires |bufs| == NBUF + 1 && bufs[HEAD].dev == 0 && Quiet(bufs, pins)
    ensures Free(bufs, b)
  {
  }

  /** References that are not pins, and what is held, are as before. */
  ghost predicate Rests(bufs: seq<Buf>, pins: seq<nat>, bs: seq<Buf>, pins': seq<nat>) {
    |bs| == |bufs| == NBUF + 1 && |pins'| == |pins| == NBUF && bufs[HEAD].dev == bs[HEAD].dev == 0
    && forall i :: 0 <= i < NBUF ==> RestsAt(bufs[i], pins[i], bs[i], pins'[i])
  }

  ghost predicate RestsAt(b: Buf, p: nat, b': Buf, p': nat) {
    b'.refcnt - p' == b.refcnt - p && b'.locked == b.locked && (b.locked ==> Core(b') == Core(b)) && (b.refcnt > p ==> SameBlock(b', b))
  }

  lemma SteadyRests(bufs: seq<Buf>, pins: seq<nat>, bs: seq<Buf>, pins': seq<nat>, un: seq<nat>)
    requires Steady(bufs, pins, bs, pins', un) && bufs[HEAD].dev == bs[HEAD].dev == 0
    ensures Rests(bufs, pins, bs, pins')
  {
    forall i | 0 <= i < NBUF ensures RestsAt(bufs[i], pins[i], bs[i], pins'[i]) {
      assert SteadyAt(bufs[i], pins[i], bs[i], pins'[i], un);
    }
  }

  lemma RestsQuiet(bufs: seq<Buf>, pins: seq<nat>, bs: seq<Buf>, pins': seq<nat>)
    requires Rests(bufs, pins, bs, pins') && Quiet(bufs, pins)
    ensures Quiet(bs, pins')
  {
    forall i | 0 <= i < NBUF ensures !bs[i].locked && bs[i].refcnt == pins'[i] {
      assert RestsAt(bufs[i], pins[i], bs[i], pins'[i]);
    }
  }

  lemma RestsFree(bufs: seq<Buf>, pins: seq<nat>, bs: seq<Buf>, pins': seq<nat>)
    requires Rests(bufs, pins, bs, pins')
    ensures KeepsFree(bufs, bs)
  {
    forall c | Free(bufs, c) ensures Free(bs, c) {
      forall i | 0 <= i < |bs| && Matches(bs[i], ROOTDEV, c) ensures !bs[i].locked {
        assert i < NBUF && RestsAt(bufs[i], pins[i], bs[i], pins'[i]);
        if bs[i].locked {
          SameMatch(bufs[i], bs[i], c);
        }
      }
    }
  }

  lemma SameMatch(b: Buf, b': Buf, c: nat)
    requires Core(b') == Core(b)
    ensures Matches(b', ROOTDEV, c) <==> Matches(b, ROOTDEV, c)
    ensures b'.locked == b.locked && b'.valid == b.valid && b'.data == b.data && b'.dev == b.dev && b'.blockno == b.blockno && b'.refcnt == b.refcnt
  {
    assert Core(b').dev == b'.dev && Core(b').blockno == b'.blockno && Core(b').locked == b'.locked && Core(b').valid == b'.valid
      && Core(b').data == b'.data && Core(b').refcnt == b'.refcnt;
  }

  /** One buffer was read, changed, logged and released. */
  lemma UpdateRests(bufs: seq<Buf>, read: Buf, data: Block, logged: seq<Buf>, bs: seq<Buf>, pins: seq<nat>, pins': seq<nat>, i: nat, pinned: bool)
    requires |bufs| == |bs| == NBUF + 1 && |pins| == NBUF && i < NBUF && GrabsOne(bufs[i], read) && bufs[HEAD].dev == bs[HEAD].dev == 0
    requires logged == if pinned then bufs[i := read.(data := data)] else bufs[i := read.(data := data, refcnt := read.refcnt + 1)]
    requires pins' == if pinned then pins else pins[i := pins[i] + 1]
    requires forall j :: 0 <= j <= NBUF && j != i ==> Core(bs[j]) == Core(logged[j])
    requires Core(bs[i]) == Core(logged[i]).(locked := false, refcnt := logged[i].refcnt - 1)
    ensures Rests(bufs, pins, bs, pins')
  {
    forall j | 0 <= j < NBUF ensures RestsAt(bufs[j], pins[j], bs[j], pins'[j]) {
      assert Core(bs[j]).refcnt == bs[j].refcnt && Core(bs[j]).locked == bs[j].locked;
      if j != i {
        SameMatch(bufs[j], bs[j], 0);
      }
    }
  }

  /** The way the file system changes a block: bread, change the data, log_write, brelse.
      It panics exactly if bget finds no buffer or under the tests of log_write. */
  method Update(log: Log, w: Write) returns (ok: bool)
    requires Open(log) && log.lay.Home(w.blockno) && Free(log.cache.bufs, w.blockno)
    modifies log`lh, log.cache
    ensures ok <==> (Spare(old(log.cache.bufs)) || Cached(old(log.cache.bufs), ROOTDEV, w.blockno)) && MayLog(log, old(log.lh))
    ensures ok ==> Open(log) && log.cache.latest == Put(old(log.cache.latest), w) && log.lh == Absorb(old(log.lh), w.blockno)
    ensures ok ==> Rests(old(log.cache.bufs), old(log.cache.pins), log.cache.bufs, log.cache.pins)
  {
    hide Shape, Unique, Transparent, Counted, Pinned, Total, Free, Clean, Distinct, Spare, Cached, Rests, KeepsFree;
    var c := log.cache;
    ghost var bs, ps := c.bufs, c.pins;
    Sentinel(c.bufs, c.order, c.stamp, c.clock);
    var r := c.Bread(w.blockno);
    if r.None? {
      return false;
    }
    var i := r.value;
    ghost var read := c.bufs;
    c.SetData(i, w.data);
    SetDataFrees(read, i, w.data, c.pins);
    ok := log.LogWrite(i);
    if !ok {
      return;
    }
    ghost var logged := c.bufs;
    ok := c.Brelse(i);
    Sentinel(c.bufs, c.order, c.stamp, c.clock);
    UpdateRests(bs, read[i], w.data, logged, c.bufs, ps, c.pins, i, w.blockno in old(log.lh));
    RestsFree(bs, ps, c.bufs, c.pins);
    LogStill(log.lay, bs, c.bufs);
    assert log.Valid();
    assert AllPinned(c.bufs, c.pins, log.lh);
    assert Total(c.pins) == |log.lh|;
    assert Pending(log.lay, log.lh, c.latest, c.disk.blocks);
    assert Clean(log.lay, c.disk.blocks, c.disk.blocks);
    assert c.latest == Put(old(c.latest), w);
  }

  /** The tests of log_write. */
  ghost predicate MayLog(log: Log, lh: seq<nat>)
    reads log`outstanding
  {
    |lh| < LOGSIZE && |lh| < log.lay.nlog - 1 && log.outstanding >= 1
  }

  /** With pins as the only references, passing these tests leaves a buffer to be had. */
  lemma QuietUpdate(bufs: seq<Buf>, pins: seq<nat>, lh: seq<nat>)
    requires Quiet(bufs, pins) && Total(pins) == |lh| && |lh| < LOGSIZE
    ensures Spare(bufs)
  {
    hide Quiet, Total, Spare;
    SpareIf(bufs, pins);
  }

  lemma QuietOpen(log: Log, b: nat)
    requires Open(log) && Quiet(log.cache.bufs, log.cache.pins)
    ensures Free(log.cache.bufs, b) && (|log.lh| < LOGSIZE ==> Spare(log.cache.bufs))
  {
    hide Shape, Quiet, Free, Clean, Transparent, Total, Unique, Pending, Spare, AllPinned, LogFree;
    var c := log.cache;
    Sentinel(c.bufs, c.order, c.stamp, c.clock);
    QuietFree(c.bufs, c.pins, b);
    if |log.lh| < LOGSIZE {
      QuietUpdate(c.bufs, c.pins, log.lh);
    }
  }

  /** Only a home block was taken. */
  lemma LogBut(lay: Layout, bufs: seq<Buf>, bs: seq<Buf>, b: nat)
    requires LogFree(lay, bufs) && lay.Home(b) && forall c :: c != b && Free(bufs, c) ==> Free(bs, c)
    ensures LogFree(lay, bs)
  {
    hide Free;
  }

  lemma LogStill(lay: Layout, bufs: seq<Buf>, bs: seq<Buf>)
    requires LogFree(lay, bufs) && KeepsFree(bufs, bs)
    ensures LogFree(lay, bs)
  {
    hide Free;
  }

  /** commit() between two calls, when nobody holds a logged block. It panics exactly if
      blocks are logged, every buffer is referenced and a log block is not cached. Every
      cut of its writes leaves the disk recoverable. */
  method CommitOpen(log: Log) returns (ok: bool, ghost ws: seq<Write>)
    requires Open(log) && AllFree(log.cache.bufs, log.lh)
    modifies log`lh, log.cache, log.cache.disk
    ensures ok <==> MayCommit(log.lay, old(log.cache.bufs), |old(log.lh)|)
    ensures log.cache.disk.blocks == Apply(old(log.cache.disk.blocks), ws) && log.cache.disk.writes == old(log.cache.disk.writes) + ws
    ensures forall j :: 0 <= j <= |ws| ==>
      Recoverable(log.lay, Apply(old(log.cache.disk.blocks), ws[..j]), if |old(log.lh)| < j then old(log.cache.latest) else old(log.cache.disk.blocks))
    ensures ok ==> Open(log) && log.lh == [] && SameHome(log.lay, log.cache.latest, old(log.cache.latest))
    ensures ok ==> Clean(log.lay, log.cache.disk.blocks, old(log.cache.latest)) && (ws == [] || |ws| > |old(log.lh)|)
    ensures ok ==> Rests(old(log.cache.bufs), old(log.cache.pins), log.cache.bufs, log.cache.pins)
  {
    hide Shape, Unique, Transparent, Counted, Pinned, Total, Free, Clean, Recoverable, Distinct, Apply, CommitWrites, SameHome, Pending, IsTxn, Txn, AllPinned, KeepsFree, Rests, Steady, Spare, Cached;
    ghost var lay, d, l, lh, bs, ps := log.lay, log.cache.disk.blocks, log.cache.latest, log.lh, log.cache.bufs, log.cache.pins;
    TxnFits(lay, lh, l);
    ghost var k;
    Sentinel(bs, log.cache.order, log.cache.stamp, log.cache.clock);
    ok, k := log.Commit();
    ws := CommitWrites(lay, d[lay.start], Txn(lh, l))[..k];
    CommitCuts(lay, d, l, lh, k);
    if ok {
      CommitDone(lay, d, l, lh);
      NoneLogged(log.cache.bufs, log.cache.pins);
      LogStill(lay, bs, log.cache.bufs);
      Sentinel(log.cache.bufs, log.cache.order, log.cache.stamp, log.cache.clock);
      SteadyRests(bs, ps, log.cache.bufs, log.cache.pins, lh);
    }
  }

  ghost predicate AllFree(bufs: seq<Buf>, lh: seq<nat>) { forall k :: 0 <= k < |lh| ==> Free(bufs, lh[k]) }

  /** There is room for a commit of n blocks. */
  ghost predicate MayCommit(lay: Layout, bufs: seq<Buf>, n: nat) { n == 0 || Spare(bufs) || AllCached(bufs, lay.start, n + 1) }

  /** With pins as the only references there is room exactly if fewer blocks are logged than
      there are buffers. */
  lemma QuietCommit(log: Log)
    requires Open(log) && Quiet(log.cache.bufs, log.cache.pins)
    ensures MayCommit(log.lay, log.cache.bufs, |log.lh|) <==> |log.lh| < NBUF
    ensures AllFree(log.cache.bufs, log.lh)
  {
    hide Shape, Quiet, Free, Clean, Transparent, Total, Unique, Pending, Spare, AllCached, AllPinned;
    var c := log.cache;
    Sentinel(c.bufs, c.order, c.stamp, c.clock);
    QuietRoom(log.lay, c.bufs, c.pins, log.lh);
    forall k | 0 <= k < |log.lh| ensures Free(c.bufs, log.lh[k]) {
      QuietFree(c.bufs, c.pins, log.lh[k]);
    }
  }

  lemma NoneLogged(bufs: seq<Buf>, pins: seq<nat>)
    requires |pins| < |bufs|
    ensures AllPinned(bufs, pins, [])
  {
  }

  lemma CutTwice(ws: seq<Write>, k: nat, j: nat)
    requires j <= k <= |ws|
    ensures ws[..k][..j] == ws[..j]
  {
  }

  lemma CommitCuts(lay: Layout, d: Image, l: Image, lh: seq<nat>, k: nat)
    requires HeadOk(lay, lh) && Pending(lay, lh, l, d) && Clean(lay, d, d) && IsTxn(lay, Txn(lh, l))
    requires k <= |CommitWrites(lay, d[lay.start], Txn(lh, l))|
    ensures var ws := CommitWrites(lay, d[lay.start], Txn(lh, l))[..k];
      forall j :: 0 <= j <= k ==> Recoverable(lay, Apply(d, ws[..j]), if |lh| < j then l else d)
  {
    var all := CommitWrites(lay, d[lay.start], Txn(lh, l));
    hide Apply, CommitWrites, Recoverable, Clean, HeadOk, Pending, IsTxn, Txn;
    forall j | 0 <= j <= k ensures Recoverable(lay, Apply(d, all[..k][..j]), if |lh| < j then l else d) {
      CommitOutcome(lay, d, l, lh, j);
      CutTwice(all, k, j);
    }
  }

  lemma CommitDone(lay: Layout, d: Image, l: Image, lh: seq<nat>)
    requires HeadOk(lay, lh) && Pending(lay, lh, l, d) && Clean(lay, d, d) && IsTxn(lay, Txn(lh, l))
    ensures var ws := CommitWrites(lay, d[lay.start], Txn(lh, l));
      ws[..|ws|] == ws && Clean(lay, Apply(d, ws), l) && SameHome(lay, Apply(l, ws), l)
      && Clean(lay, Apply(d, ws), Apply(d, ws)) && Pending(lay, [], Apply(l, ws), Apply(d, ws)) && (ws == [] || |ws| > |lh|)
  {
    var ws := CommitWrites(lay, d[lay.start], Txn(lh, l));
    CommitKeepsLatest(lay, d[lay.start], l, lh);
    hide Apply, CommitWrites, Recoverable, Clean, HeadOk, Pending, IsTxn, SameHome, Txn;
    CommitOutcome(lay, d, l, lh, |ws|);
    Reopened(lay, Apply(d, ws), Apply(l, ws), l);
    CommitLength(lay, d[lay.start], Txn(lh, l));
  }

  lemma Reopened(lay: Layout, d: Image, l: Image, h: Image)
    requires Clean(lay, d, h) && SameHome(lay, l, h)
    ensures Clean(lay, d, d) && Pending(lay, [], l, d)
  {
  }

  // ----- references -----

  /** The buffers that somebody refers to beside pins and holders, and their blocks. */
  ghost function LooseIdx(bufs: seq<Buf>, pins: seq<nat>): set<nat>
    requires |bufs| == NBUF + 1 && |pins| == NBUF
  {
    set i: nat | i < NBUF && Loose(bufs[i], pins[i]) > 0
  }

  ghost function LooseBlocks(bufs: seq<Buf>, pins: seq<nat>): set<nat>
    requires |bufs| == NBUF + 1 && |pins| == NBUF
  {
    set i: nat | i < NBUF && Loose(bufs[i], pins[i]) > 0 && bufs[i].dev == ROOTDEV :: bufs[i].blockno
  }

  function Loose(b: Buf, p: nat): int { b.refcnt - p - if b.locked then 1 else 0 }

  ghost predicate LooseKept(bufs: seq<Buf>, pins: seq<nat>, bs: seq<Buf>, pins': seq<nat>) {
    |bufs| == |bs| == NBUF + 1 && |pins| == |pins'| == NBUF && LooseIdx(bs, pins') == LooseIdx(bufs, pins) && LooseBlocks(bs, pins') == LooseBlocks(bufs, pins)
  }

  lemma LooseSame(bufs: seq<Buf>, pins: seq<nat>, bs: seq<Buf>, pins': seq<nat>)
    requires |bufs| == |bs| == NBUF + 1 && |pins| == |pins'| == NBUF
    requires forall i :: 0 <= i < NBUF ==> Loose(bs[i], pins'[i]) == Loose(bufs[i], pins[i]) && (Loose(bufs[i], pins[i]) > 0 ==> SameBlock(bs[i], bufs[i]))
    ensures LooseKept(bufs, pins, bs, pins')
  {
    hide Loose;
  }

  lemma LooseSelf(bufs: seq<Buf>, pins: seq<nat>)
    requires |bufs| == NBUF + 1 && |pins| == NBUF
    ensures LooseKept(bufs, pins, bufs, pins)
  {
  }

  lemma CountedAt(bufs: seq<Buf>, pins: seq<nat>, i: nat)
    requires Counted(bufs, pins) && i < NBUF
    ensures pins[i] + (if bufs[i].locked then 1 else 0) <= bufs[i].refcnt
  {
  }

  lemma RestsLoose(bufs: seq<Buf>, pins: seq<nat>, bs: seq<Buf>, pins': seq<nat>)
    requires Rests(bufs, pins, bs, pins')
    ensures LooseKept(bufs, pins, bs, pins')
  {
    forall i | 0 <= i < NBUF ensures Loose(bs[i], pins'[i]) == Loose(bufs[i], pins[i]) && (Loose(bufs[i], pins[i]) > 0 ==> SameBlock(bs[i], bufs[i])) {
      assert RestsAt(bufs[i], pins[i], bs[i], pins'[i]);
    }
    LooseSame(bufs, pins, bs, pins');
  }

  lemma TakenLoose(bufs: seq<Buf>, pins: seq<nat>, i: nat, x: Buf)
    requires |bufs| == NBUF + 1 && |pins| == NBUF && i < NBUF && GrabsOne(bufs[i], x) && pins[i] <= bufs[i].refcnt
    ensures LooseKept(bufs, pins, bufs[i := x], pins)
  {
    LooseSame(bufs, pins, bufs[i := x], pins);
  }

  lemma GivenLoose(bufs: seq<Buf>, pins: seq<nat>, bs: seq<Buf>, i: nat)
    requires |bufs| == |bs| == NBUF + 1 && |pins| == NBUF && i < NBUF && bufs[i].locked
    requires forall j :: 0 <= j <= NBUF && j != i ==> Core(bs[j]) == Core(bufs[j])
    requires bufs[i].refcnt > 0 && Core(bs[i]) == Core(bufs[i]).(locked := false, refcnt := bufs[i].refcnt - 1)
    ensures LooseKept(bufs, pins, bs, pins)
  {
    forall j | 0 <= j < NBUF ensures Loose(bs[j], pins[j]) == Loose(bufs[j], pins[j]) && SameBlock(bs[j], bufs[j]) {
      assert Core(bs[j]).refcnt == bs[j].refcnt && Core(bs[j]).locked == bs[j].locked && Core(bs[j]).dev == bs[j].dev && Core(bs[j]).blockno == bs[j].blockno;
      if j != i {
        SameMatch(bufs[j], bs[j], 0);
      }
    }
    LooseSame(bufs, pins, bs, pins);
  }

  // ----- processes that hold buffers -----

  /** Block b is held by some process, in buffer held[b], with the contents it found; nothing
      else is held. */
  ghost predicate Held(lay: Layout, bufs: seq<Buf>, latest: Image, held: map<nat, nat>) {
    |bufs| == NBUF + 1 && bufs[HEAD].dev == 0 && |latest| == lay.size
    && (forall b :: b in held ==> lay.Home(b) && Holds(bufs, held[b], b, latest[b]))
    && forall i :: 0 <= i < NBUF && bufs[i].locked ==> bufs[i].blockno in held && held[bufs[i].blockno] == i
  }

  lemma HeldFree(lay: Layout, bufs: seq<Buf>, latest: Image, held: map<nat, nat>, b: nat)
    requires Held(lay, bufs, latest, held) && b !in held
    ensures Free(bufs, b)
  {
  }

  lemma HeldAt(lay: Layout, bufs: seq<Buf>, latest: Image, held: map<nat, nat>, b: nat)
    requires Held(lay, bufs, latest, held) && b in held
    ensures lay.Home(b) && b < |latest| && Holds(bufs, held[b], b, latest[b])
  {
  }

  lemma HeldRests(lay: Layout, bufs: seq<Buf>, pins: seq<nat>, bs: seq<Buf>, pins': seq<nat>, latest: Image, latest': Image, held: map<nat, nat>)
    requires Held(lay, bufs, latest, held) && Rests(bufs, pins, bs, pins') && |latest'| == |latest|
    requires forall b :: b in held && b < |latest| ==> latest'[b] == latest[b]
    ensures Held(lay, bs, latest', held)
  {
    forall b | b in held ensures lay.Home(b) && Holds(bs, held[b], b, latest'[b]) {
      assert Holds(bufs, held[b], b, latest[b]) && RestsAt(bufs[held[b]], pins[held[b]], bs[held[b]], pins'[held[b]]);
      SameMatch(bufs[held[b]], bs[held[b]], b);
    }
    forall i | 0 <= i < NBUF && bs[i].locked ensures bs[i].blockno in held && held[bs[i].blockno] == i {
      assert RestsAt(bufs[i], pins[i], bs[i], pins'[i]);
      SameMatch(bufs[i], bs[i], 0);
    }
  }

  lemma HeldMore(lay: Layout, bufs: seq<Buf>, latest: Image, held: map<nat, nat>, b: nat, i: nat, x: Buf)
    requires Held(lay, bufs, latest, held) && i < NBUF && lay.Home(b) && b !in held && !bufs[i].locked && Holds(bufs[i := x], i, b, latest[b])
    ensures Held(lay, bufs[i := x], latest, held[b := i])
  {
    var bs := bufs[i := x];
    forall c | c in held[b := i] ensures lay.Home(c) && Holds(bs, held[b := i][c], c, latest[c]) {
      assert c == b || Holds(bufs, held[c], c, latest[c]);
    }
  }

  lemma HeldLess(lay: Layout, bufs: seq<Buf>, bs: seq<Buf>, latest: Image, held: map<nat, nat>, b: nat)
    requires Held(lay, bufs, latest, held) && b in held && |bs| == |bufs| && bs[HEAD].dev == 0 && !bs[held[b]].locked
    requires forall j :: 0 <= j <= NBUF && j != held[b] ==> Core(bs[j]) == Core(bufs[j])
    ensures Held(lay, bs, latest, held - {b})
  {
    forall c | c in held - {b} ensures lay.Home(c) && Holds(bs, held[c], c, latest[c]) {
      assert Holds(bufs, held[c], c, latest[c]) && Holds(bufs, held[b], b, latest[b]);
      SameMatch(bufs[held[c]], bs[held[c]], c);
    }
    forall i | 0 <= i < NBUF && bs[i].locked ensures bs[i].blockno in held - {b} && held[bs[i].blockno] == i {
      SameMatch(bufs[i], bs[i], b);
    }
  }

  /** How a step ends. A process that has to wait for a block another one holds, has not
      made its step; a panic stops the machine. */
  datatype Outcome = Done | Waits | Panic

  /** bread of a block that stays held. It panics exactly if bget finds no buffer. */
  method TakeBlock(log: Log, held: map<nat, nat>, b: nat) returns (r: Outcome, held': map<nat, nat>)
    requires Open(log) && Held(log.lay, log.cache.bufs, log.cache.latest, held) && log.lay.Home(b)
    modifies log.cache`bufs
    ensures r.Waits? <==> b in held
    ensures r.Panic? <==> b !in held && !Spare(old(log.cache.bufs)) && !Cached(old(log.cache.bufs), ROOTDEV, b)
    ensures r.Done? ==> Open(log) && Held(log.lay, log.cache.bufs, log.cache.latest, held') && held'.Keys == held.Keys + {b}
    ensures r.Done? ==> held'[b] < NBUF < |log.cache.bufs| && log.cache.bufs == old(log.cache.bufs)[held'[b] := log.cache.bufs[held'[b]]]
    ensures LooseKept(old(log.cache.bufs), log.cache.pins, log.cache.bufs, log.cache.pins)
    ensures !r.Done? ==> log.cache.bufs == old(log.cache.bufs) && held' == held
  {
    hide Shape, Unique, Transparent, Counted, Pinned, Total, Free, Clean, Spare, Cached, Held, Pending, HeadOk, AllPinned, LogFree, LooseKept;
    held' := held;
    LooseSelf(log.cache.bufs, log.cache.pins);
    if b in held {
      return Waits, held;
    }
    HeldFree(log.lay, log.cache.bufs, log.cache.latest, held, b);
    ghost var bs := log.cache.bufs;
    var i := log.cache.Bread(b);
    if i.None? {
      return Panic, held;
    }
    StillPinned(bs, log.cache.bufs, log.cache.pins, log.lh);
    LogBut(log.lay, bs, log.cache.bufs, b);
    HeldMore(log.lay, bs, log.cache.latest, held, b, i.value, log.cache.bufs[i.value]);
    CountedAt(bs, log.cache.pins, i.value);
    TakenLoose(bs, log.cache.pins, i.value, log.cache.bufs[i.value]);
    held' := held[b := i.value];
    r := Done;
  }

  /** brelse of a block that was held; without one there is nothing to release. */
  method GiveBlock(log: Log, held: map<nat, nat>, b: nat) returns (held': map<nat, nat>)
    requires Open(log) && Held(log.lay, log.cache.bufs, log.cache.latest, held)
    modifies log.cache
    ensures Open(log) && Held(log.lay, log.cache.bufs, log.cache.latest, held') && held' == held - {b}
    ensures log.cache.latest == old(log.cache.latest) && log.cache.pins == old(log.cache.pins)
    ensures LooseKept(old(log.cache.bufs), log.cache.pins, log.cache.bufs, log.cache.pins)
  {
    hide Shape, Unique, Transparent, Counted, Pinned, Total, Free, Clean, Held, Pending, HeadOk, AllPinned, LogFree, KeepsFree, LooseKept;
    held' := held - {b};
    LooseSelf(log.cache.bufs, log.cache.pins);
    if b !in held {
      assert held' == held;
      return;
    }
    var c, i := log.cache, held[b];
    HeldAt(log.lay, c.bufs, c.latest, held, b);
    if c.bufs[i].refcnt == 1 {
      LastIsClean(log, i, b);
    }
    ghost var bs := c.bufs;
    CountedAt(bs, c.pins, i);
    var ok := c.Brelse(i);
    GivenLoose(bs, c.pins, c.bufs, i);
    assert c.latest == old(c.latest);
    Sentinel(c.bufs, c.order, c.stamp, c.clock);
    HeldLess(log.lay, bs, c.bufs, c.latest, held, b);
    StillPinned(bs, c.bufs, c.pins, log.lh);
    LogBut(log.lay, bs, c.bufs, b);
  }

  /** A block that only its reader refers to is not logged, so the disk has it. */
  lemma LastIsClean(log: Log, i: nat, b: nat)
    requires Open(log) && log.lay.Home(b) && Holds(log.cache.bufs, i, b, log.cache.latest[b]) && log.cache.bufs[i].refcnt == 1
    ensures log.cache.latest[b] == log.cache.disk.blocks[b]
  {
    hide Shape, Transparent, Total, Free, Clean, LogFree, Pinned;
    if b in log.lh {
      var k :| 0 <= k < |log.lh| && log.lh[k] == b;
      PinnedAt(log.cache.bufs, log.cache.pins, b, i);
    }
  }

  lemma CleanRecoverable(lay: Layout, d: Image, h: Image)
    requires Clean(lay, d, h)
    ensures Recoverable(lay, d, h)
  {
    assert LogTxn(lay, d) == [];
  }

  /** Booting: binit, then recover_from_log. It never panics, whatever the disk's log holds,
      and installs the transaction that had been committed. */
  method Boot(disk: Device, lay: Layout) returns (log: Log)
    requires GoodImage(lay, disk.blocks)
    modifies disk
    ensures fresh(log) && fresh(log.cache) && log.cache.disk == disk && log.lay == lay
    ensures Open(log) && log.lh == [] && log.outstanding == 0 && !log.committing && log.cache.latest == disk.blocks
    ensures Quiet(log.cache.bufs, log.cache.pins) && Held(lay, log.cache.bufs, log.cache.latest, map[])
    ensures disk.blocks == Apply(old(disk.blocks), RecoveryWrites(lay, old(disk.blocks)))
    ensures disk.writes == old(disk.writes) + RecoveryWrites(lay, old(disk.blocks))
    ensures forall h :: Recoverable(lay, old(disk.blocks), h) ==> Clean(lay, disk.blocks, h)
  {
    hide Shape, Unique, Transparent, Counted, Quiet, Unused, Steady, Total, Apply, Free, Recoverable, Clean, RecoveryWrites, SameHome, Pinned, AllPinned, KeepsFree, HeadOk, Pending, Held, LogFree, Cached;
    ghost var d := disk.blocks;
    var cache := new Bcache(disk);
    log := new Log(lay, cache);
    ghost var bs, ps := cache.bufs, cache.pins;
    Sentinel(bs, cache.order, cache.stamp, cache.clock);
    FreshCache(bs, ps);
    var ok; ghost var k;
    ok, k := log.RecoverFromLog();
    Sentinel(cache.bufs, cache.order, cache.stamp, cache.clock);
    ghost var un :| Steady(bs, ps, cache.bufs, cache.pins, un);
    SteadySpare(bs, ps, cache.bufs, cache.pins, un);
    ghost var ws := RecoveryWrites(lay, d);
    assert ws[..|ws|] == ws;
    forall h | Recoverable(lay, d, h) ensures Clean(lay, disk.blocks, h) {
      RecoveryCut(lay, d, h, |ws|);
    }
    Booted(lay, d, disk.blocks);
    QuietHeld(lay, cache.bufs, cache.pins, cache.latest);
    NoneLogged(cache.bufs, cache.pins);
  }

  lemma FreshCache(bufs: seq<Buf>, pins: seq<nat>)
    requires |bufs| == NBUF + 1 && bufs[HEAD].dev == 0 && pins == seq(NBUF, _ => 0)
    requires forall i :: 0 <= i < NBUF ==> bufs[i].refcnt == 0 && !bufs[i].locked
    ensures Quiet(bufs, pins) && Unused(bufs) && Total(pins) == 0 && forall b :: Free(bufs, b)
  {
    NoPins();
    forall b: nat ensures Free(bufs, b) {
      QuietFree(bufs, pins, b);
    }
  }

  lemma QuietHeld(lay: Layout, bufs: seq<Buf>, pins: seq<nat>, latest: Image)
    requires |bufs| == NBUF + 1 && bufs[HEAD].dev == 0 && Quiet(bufs, pins) && |latest| == lay.size
    ensures Held(lay, bufs, latest, map[]) && LogFree(lay, bufs)
  {
    forall b: nat ensures Free(bufs, b) {
      QuietFree(bufs, pins, b);
    }
  }

  lemma NoPins()
    ensures Total(seq(NBUF, _ => 0)) == 0
  {
    NoPinsUpTo(NBUF);
  }

  lemma {:induction false} NoPinsUpTo(n: nat)
    ensures Total(seq(n, _ => 0)) == 0
  {
    if n > 0 {
      NoPinsUpTo(n - 1);
      assert seq(n, _ => 0)[..n - 1] == seq(n - 1, _ => 0);
    }
  }

  lemma Booted(lay: Layout, d: Image, e: Image)
    requires GoodImage(lay, d) && e == Apply(d, RecoveryWrites(lay, d))
    ensures Clean(lay, e, e) && Pending(lay, [], e, e)
  {
    var h := Apply(d, LogTxn(lay, d));
    SameHomeSelf(lay, h);
    RecoveryCut(lay, d, h, |RecoveryWrites(lay, d)|);
  }
}
