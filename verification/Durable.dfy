/** filewrite on top of the log: each chunk is one operation that logs the blocks writei
    changed. Wherever the power fails, the recovered disk is the one after a whole number of
    chunks. */
module Durable {
  import opened Wrappers
  import opened Param
  import D = Disk
  import opened Crash
  import B = Bio
  import L = Log
  import J = Journal
  import F = Fs
  import opened File

  // ----- the file system as blocks on disk -----

  /** Inodes, free map and data lie behind the log, in this order. */
  predicate Laid(a: F.Area, lay: Layout) {
    lay.Valid() && a.size == lay.size && lay.start + lay.nlog <= a.inodestart
    && a.inodestart + (a.inodes + F.IPB - 1) / F.IPB <= a.bmapstart && a.bmapstart + (a.size + F.BPB - 1) / F.BPB <= a.meta <= a.size
  }

  function AreaOf(fs: F.FileSystem): F.Area
    reads fs`d
  {
    F.Area(fs.meta, |fs.d.blocks|, |fs.d.inodes|, fs.bmapstart, fs.inodestart)
  }

  /** A dinode is 16 words; the first two hold what the model of files leaves out. */
  function InodeWord(ip: F.Inode, k: nat): D.Word
    requires k < 16
  {
    if k == 2 then ip.size % 0x1_0000_0000 else if k >= 3 then ip.addrs[k - 3] % 0x1_0000_0000 else 0
  }

  function ByteAt(bm: seq<bv8>, i: nat): F.Byte { if i < |bm| then bm[i] as int else 0 }

  function MapWord(bm: seq<bv8>, i: nat): D.Word {
    F.Join(ByteAt(bm, i), ByteAt(bm, i + 1), ByteAt(bm, i + 2), ByteAt(bm, i + 3))
  }

  function WordAt(d: F.Disk, a: F.Area, b: nat, k: nat): D.Word
    requires b < |d.blocks| && k < D.WORDS
  {
    if a.meta <= b then F.Word(d.blocks[b], k)
    else if a.bmapstart <= b then MapWord(d.bm, (b - a.bmapstart) * F.BSIZE + 4 * k)
    else if a.inodestart <= b && (b - a.inodestart) * F.IPB + k / 16 < |d.inodes| then InodeWord(d.inodes[(b - a.inodestart) * F.IPB + k / 16], k % 16)
    else 0
  }

  function BlockOf(d: F.Disk, a: F.Area, b: nat): (r: D.Block)
    requires b < |d.blocks|
    ensures forall k :: 0 <= k < D.WORDS ==> r[k] == WordAt(d, a, b, k)
  {
    seq(D.WORDS, k requires 0 <= k < D.WORDS => WordAt(d, a, b, k))
  }

  function Image(d: F.Disk, a: F.Area): (r: D.Image)
    ensures |r| == |d.blocks| && forall b :: 0 <= b < |r| ==> r[b] == BlockOf(d, a, b)
  {
    seq(|d.blocks|, b requires 0 <= b < |d.blocks| => BlockOf(d, a, b))
  }

  /** A block that was not logged holds what it held. */
  lemma Local(d: F.Disk, e: F.Disk, a: F.Area, logged: set<nat>, n: nat, b: nat)
    requires F.Covers(logged, d, e, n, a.bmapstart) && a.inodestart + n / F.IPB in logged && b < |d.blocks| && b !in logged
    ensures BlockOf(e, a, b) == BlockOf(d, a, b)
  {
    forall k | 0 <= k < D.WORDS ensures WordAt(e, a, b, k) == WordAt(d, a, b, k) {
      LocalWord(d, e, a, logged, n, b, k);
    }
  }

  lemma LocalWord(d: F.Disk, e: F.Disk, a: F.Area, logged: set<nat>, n: nat, b: nat, k: nat)
    requires F.Covers(logged, d, e, n, a.bmapstart) && a.inodestart + n / F.IPB in logged && b < |d.blocks| && b !in logged && k < D.WORDS
    ensures WordAt(e, a, b, k) == WordAt(d, a, b, k)
  {
    hide F.Word, F.Join;
    if a.meta <= b {
    } else if a.bmapstart <= b {
      var i := (b - a.bmapstart) * F.BSIZE + 4 * k;
      forall j: nat | i <= j < i + 4 ensures ByteAt(e.bm, j) == ByteAt(d.bm, j) {
        assert F.MapBlock(j) == b - a.bmapstart;
      }
    } else if a.inodestart <= b {
      var m := (b - a.inodestart) * F.IPB + k / 16;
      assert m / F.IPB == b - a.inodestart;
    }
  }

  /** What can be logged lies outside the log. */
  lemma LoggableHome(a: F.Area, lay: Layout, b: nat)
    requires Laid(a, lay) && F.Loggable(b, a)
    ensures lay.Home(b)
  {
  }

  // ----- one operation -----

  /** The log between operations, with nobody holding a buffer. */
  ghost predicate Idle(log: L.Log)
    reads log, log.cache, log.cache.disk
  {
    J.Open(log) && B.Quiet(log.cache.bufs, log.cache.pins) && log.lh == [] && log.outstanding == 0 && !log.committing && log.lay.nlog > MAXOPBLOCKS
  }

  /** Every home block is in place, except those in `rest`. */
  ghost predicate Agrees(lay: Layout, latest: D.Image, image: D.Image, rest: set<nat>) {
    |latest| == |image| == lay.size && forall b: nat :: lay.Home(b) && b !in rest ==> latest[b] == image[b]
  }

  /** begin_op, the changes that make the blocks `bs` what they are in `image`, end_op. It
      does not panic. Had the power failed after j of its disk writes cs, booting would find
      the old blocks for j <= n and the new ones otherwise. */
  method Operation(log: L.Log, bs: set<nat>, image: D.Image) returns (ghost cs: seq<D.Write>, ghost n: nat)
    requires Idle(log) && |bs| <= MAXOPBLOCKS && (forall b :: b in bs ==> log.lay.Home(b)) && Agrees(log.lay, log.cache.latest, image, bs)
    modifies log, log.cache, log.cache.disk
    ensures Idle(log) && Agrees(log.lay, log.cache.latest, image, {}) && Clean(log.lay, log.cache.disk.blocks, image)
    ensures log.cache.disk.blocks == D.Apply(old(log.cache.disk.blocks), cs) && log.cache.disk.writes == old(log.cache.disk.writes) + cs
    ensures forall j :: 0 <= j <= |cs| ==> Recoverable(log.lay, D.Apply(old(log.cache.disk.blocks), cs[..j]), if n < j then image else old(log.cache.latest))
  {
    hide J.Open, B.Quiet, Clean, Recoverable, D.Apply, Agrees, SameHome, J.MayCommit, J.AllFree, J.Rests;
    ghost var lay, d, l := log.lay, log.cache.disk.blocks, log.cache.latest;
    DiskAgrees(log);
    var admitted := log.BeginOp();
    ChangeAll(log, bs, image);
    var last := log.EndOp();
    J.QuietCommit(log);
    ghost var bufs, pins, l1 := log.cache.bufs, log.cache.pins, log.cache.latest;
    n := |log.lh|;
    AgreeHome(lay, l1, image);
    var ok;
    ok, cs := J.CommitOpen(log);
    J.RestsQuiet(bufs, pins, log.cache.bufs, log.cache.pins);
    log.committing := false;
    forall j | 0 <= j <= |cs| ensures Recoverable(lay, D.Apply(d, cs[..j]), if n < j then image else l) {
      J.RecoverableSame(lay, D.Apply(d, cs[..j]), if n < j then l1 else d, if n < j then image else l);
    }
    J.CleanSame(lay, log.cache.disk.blocks, l1, image);
    HomeAgrees(lay, log.cache.latest, l1, image);
  }

  lemma DiskAgrees(log: L.Log)
    requires Idle(log)
    ensures SameHome(log.lay, log.cache.disk.blocks, log.cache.latest)
  {
    hide B.Shape, B.Quiet, B.Transparent, B.Unique, B.Counted, L.Total;
  }

  lemma AgreeHome(lay: Layout, l: D.Image, image: D.Image)
    requires Agrees(lay, l, image, {})
    ensures SameHome(lay, l, image)
  {
  }

  lemma HomeAgrees(lay: Layout, l: D.Image, m: D.Image, image: D.Image)
    requires SameHome(lay, l, m) && Agrees(lay, m, image, {})
    ensures Agrees(lay, l, image, {})
  {
  }

  lemma AgreePut(lay: Layout, l: D.Image, image: D.Image, rest: set<nat>, b: nat)
    requires Agrees(lay, l, image, rest) && b in rest && lay.Home(b)
    ensures Agrees(lay, D.Put(l, D.Write(b, image[b])), image, rest - {b})
  {
  }

  lemma AgreeSize(lay: Layout, l: D.Image, image: D.Image, rest: set<nat>)
    requires Agrees(lay, l, image, rest)
    ensures |image| == lay.size
  {
  }

  /** The changes of an operation, in any order. */
  method ChangeAll(log: L.Log, bs: set<nat>, image: D.Image)
    requires J.Open(log) && B.Quiet(log.cache.bufs, log.cache.pins) && log.lh == [] && log.outstanding == 1 && log.lay.nlog > MAXOPBLOCKS
    requires |bs| <= MAXOPBLOCKS && (forall b :: b in bs ==> log.lay.Home(b)) && Agrees(log.lay, log.cache.latest, image, bs)
    modifies log`lh, log.cache
    ensures J.Open(log) && B.Quiet(log.cache.bufs, log.cache.pins) && |log.lh| <= MAXOPBLOCKS && Agrees(log.lay, log.cache.latest, image, {})
  {
    hide J.Open, B.Quiet, Agrees, J.Rests, B.Spare, B.Cached, B.Free, D.Put;
    var rest := bs;
    while rest != {}
      invariant rest <= bs && |log.lh| + |rest| <= |bs|
      invariant J.Open(log) && B.Quiet(log.cache.bufs, log.cache.pins) && Agrees(log.lay, log.cache.latest, image, rest)
      decreases |rest|
    {
      var b :| b in rest;
      AgreeSize(log.lay, log.cache.latest, image, rest);
      J.QuietOpen(log, b);
      ghost var bufs, pins, l := log.cache.bufs, log.cache.pins, log.cache.latest;
      var ok := J.Update(log, D.Write(b, image[b]));
      J.RestsQuiet(bufs, pins, log.cache.bufs, log.cache.pins);
      AgreePut(log.lay, l, image, rest, b);
      assert |rest - {b}| == |rest| - 1;
      rest := rest - {b};
    }
  }

  // ----- a write in chunks -----

  /** After j of the disk writes ws the disk recovers to that of state cuts[j]. */
  ghost predicate Survives(lay: Layout, d: D.Image, ws: seq<D.Write>, ds: seq<F.Disk>, a: F.Area, cuts: seq<nat>) {
    |cuts| == |ws| + 1
    && (forall j :: 0 <= j <= |ws| ==> cuts[j] < |ds| && Recoverable(lay, D.Apply(d, ws[..j]), Image(ds[cuts[j]], a)))
    && (forall j, k :: 0 <= j < k <= |ws| ==> cuts[j] <= cuts[k])
  }

  lemma SurvivesNext(lay: Layout, d: D.Image, ws: seq<D.Write>, ds: seq<F.Disk>, a: F.Area, cuts: seq<nat>, l: D.Image, cs: seq<D.Write>, n: nat, e: F.Disk) returns (more: seq<nat>)
    requires Survives(lay, d, ws, ds, a, cuts) && ds != [] && SameHome(lay, l, Image(ds[|ds| - 1], a))
    requires forall j :: 0 <= j <= |cs| ==> Recoverable(lay, D.Apply(D.Apply(d, ws), cs[..j]), if n < j then Image(e, a) else l)
    ensures Survives(lay, d, ws + cs, ds + [e], a, cuts + more) && |more| == |cs|
  {
    hide D.Apply, Recoverable, SameHome, Image;
    more := seq(|cs|, j requires 0 <= j < |cs| => if n < j + 1 then |ds| else |ds| - 1);
    var all, all', es := ws + cs, cuts + more, ds + [e];
    forall j | 0 <= j <= |all| ensures all'[j] < |es| && Recoverable(lay, D.Apply(d, all[..j]), Image(es[all'[j]], a)) {
      if j <= |ws| {
        assert all[..j] == ws[..j];
      } else {
        var k := j - |ws|;
        assert all[..j] == ws + cs[..k];
        D.ApplyConcat(d, ws, cs[..k]);
        if n >= k {
          J.RecoverableSame(lay, D.Apply(D.Apply(d, ws), cs[..k]), l, Image(ds[|ds| - 1], a));
        }
      }
    }
  }

  /** File n has the bytes in it, at off; otherwise the files are the same. */
  ghost predicate Holds(d: F.Disk, e: F.Disk, n: nat, off: nat, bytes: seq<F.Byte>) {
    if bytes == [] then SameFiles(d, e) else Spliced(d, e, n, off, bytes)
  }

  /** State k has k whole chunks in the file, the last one what was written. */
  ghost predicate Chunked(ds: seq<F.Disk>, n: nat, off: nat, src: seq<F.Byte>, lens: seq<nat>) {
    0 < |ds| == |lens|
    && (forall k :: 0 <= k < |ds| ==> lens[k] <= |src| && Holds(ds[0], ds[k], n, off, src[..lens[k]]))
    && (forall k :: 0 <= k < |ds| - 1 ==> lens[k] == k * CHUNK)
  }

  lemma ChunkedNext(ds: seq<F.Disk>, n: nat, off: nat, src: seq<F.Byte>, lens: seq<nat>, e: F.Disk, i: nat, r: nat)
    requires Chunked(ds, n, off, src, lens) && n < |ds[0].inodes| && i == lens[|ds| - 1] == (|ds| - 1) * CHUNK && i + r <= |src|
    requires Spliced(ds[|ds| - 1], e, n, off + i, src[i..i + r])
    ensures Chunked(ds + [e], n, off, src, lens + [i + r])
  {
    hide Spliced, SameFiles;
    SplicedThen(ds[0], ds[|ds| - 1], e, n, off, src, i, r);
    var es, ls := ds + [e], lens + [i + r];
    forall k | 0 <= k < |es| ensures ls[k] <= |src| && Holds(es[0], es[k], n, off, src[..ls[k]]) {
      if k < |ds| {
        assert es[k] == ds[k] && ls[k] == lens[k];
      }
    }
  }

  /** The image that writei leaves differs from the old one in logged blocks only. */
  lemma WroteAgrees(lay: Layout, latest: D.Image, d: F.Disk, e: F.Disk, a: F.Area, logged: set<nat>, n: nat)
    requires Laid(a, lay) && |d.blocks| == a.size && Agrees(lay, latest, Image(d, a), {}) && F.Covers(logged, d, e, n, a.bmapstart) && a.inodestart + n / F.IPB in logged
    ensures Agrees(lay, latest, Image(e, a), logged)
  {
    hide BlockOf;
    forall b: nat | lay.Home(b) && b !in logged ensures latest[b] == Image(e, a)[b] {
      Local(d, e, a, logged, n, b);
    }
  }

  lemma AllHome(lay: Layout, a: F.Area, logged: set<nat>)
    requires Laid(a, lay) && F.Inside(logged, a)
    ensures forall b :: b in logged ==> lay.Home(b)
  {
    hide Laid, F.Loggable;
    forall b | b in logged ensures lay.Home(b) {
      LoggableHome(a, lay, b);
    }
  }

  /** The log holds the file system. */
  ghost predicate Ready(f: OpenFile, log: L.Log)
    reads f, f.fs, log, log.cache, log.cache.disk
  {
    f.fs.Valid() && f.inum < |f.fs.d.inodes| && F.NoHoles(f.fs.d) && Laid(AreaOf(f.fs), log.lay) && Idle(log)
    && Agrees(log.lay, log.cache.latest, Image(f.fs.d, AreaOf(f.fs)), {})
  }

  /** One chunk with its operation: begin_op, writei, end_op. */
  method ChunkOp(f: OpenFile, log: L.Log, src: seq<F.Byte>) returns (r: int, ghost cs: seq<D.Write>, ghost n: nat)
    requires Ready(f, log) && |src| <= CHUNK
    modifies f`off, f.fs, log, log.cache, log.cache.disk
    ensures Ready(f, log) && AreaOf(f.fs) == old(AreaOf(f.fs)) && Clean(log.lay, log.cache.disk.blocks, Image(f.fs.d, AreaOf(f.fs)))
    ensures r == -1 ==> f.fs.d == old(f.fs.d) && f.off == old(f.off)
    ensures r != -1 ==> 0 <= r <= |src| && f.off == old(f.off) + r && Spliced(old(f.fs.d), f.fs.d, f.inum, old(f.off), src[..r])
    ensures r == -1 <==> old(f.off) > old(f.fs.d).inodes[f.inum].size || old(f.off) + |src| > F.MAXBYTES
    ensures 0 <= r < |src| ==> F.Full(f.fs.d)
    ensures log.cache.disk.blocks == D.Apply(old(log.cache.disk.blocks), cs) && log.cache.disk.writes == old(log.cache.disk.writes) + cs
    ensures forall j :: 0 <= j <= |cs| ==>
      Recoverable(log.lay, D.Apply(old(log.cache.disk.blocks), cs[..j]), if n < j then Image(f.fs.d, AreaOf(f.fs)) else old(log.cache.latest))
  {
    hide Idle, Agrees, Image, Laid, Clean, Recoverable, D.Apply, Spliced, F.Owned, F.Covers, F.Full, F.Placed, F.NoHole, F.Inside;
    ghost var d, a := f.fs.d, AreaOf(f.fs);
    r := f.WriteChunk(src);
    var bs: set<nat> := {};
    if r != -1 {
      bs := f.fs.logged;
      CoversSize(bs, d, f.fs.d, f.inum, a.bmapstart);
      WroteAgrees(log.lay, log.cache.latest, d, f.fs.d, a, bs, f.inum);
      AllHome(log.lay, a, bs);
    }
    cs, n := Operation(log, bs, Image(f.fs.d, AreaOf(f.fs)));
  }

  lemma CoversSize(logged: set<nat>, d: F.Disk, e: F.Disk, n: nat, bmapstart: nat)
    requires F.Covers(logged, d, e, n, bmapstart)
    ensures |e.blocks| == |d.blocks| && |e.inodes| == |d.inodes|
  {
  }

  lemma StartSurvives(f: OpenFile, log: L.Log)
    requires Ready(f, log)
    ensures Survives(log.lay, log.cache.disk.blocks, [], [f.fs.d], AreaOf(f.fs), [0]) && Clean(log.lay, log.cache.disk.blocks, Image(f.fs.d, AreaOf(f.fs)))
    ensures SameHome(log.lay, log.cache.latest, Image(f.fs.d, AreaOf(f.fs)))
  {
    var d, image := log.cache.disk.blocks, Image(f.fs.d, AreaOf(f.fs));
    DiskAgrees(log);
    AgreeHome(log.lay, log.cache.latest, image);
    IdleClean(log);
    hide Ready, Idle, Clean, Recoverable, SameHome, Image, D.Apply;
    J.CleanSame(log.lay, d, d, log.cache.latest);
    J.CleanSame(log.lay, d, log.cache.latest, image);
    J.CleanRecoverable(log.lay, d, image);
    var none: seq<D.Write> := [];
    assert none[..0] == none;
  }

  lemma IdleClean(log: L.Log)
    requires Idle(log)
    ensures Clean(log.lay, log.cache.disk.blocks, log.cache.disk.blocks)
  {
    hide B.Shape, B.Quiet, B.Transparent, B.Unique, B.Counted, L.Total;
  }

  lemma ReadyHome(f: OpenFile, log: L.Log)
    requires Ready(f, log)
    ensures SameHome(log.lay, log.cache.latest, Image(f.fs.d, AreaOf(f.fs)))
  {
    AgreeHome(log.lay, log.cache.latest, Image(f.fs.d, AreaOf(f.fs)));
  }

  lemma ChunkedSame(ds: seq<F.Disk>, n: nat, off: nat, src: seq<F.Byte>, lens: seq<nat>)
    requires Chunked(ds, n, off, src, lens) && lens[|ds| - 1] == (|ds| - 1) * CHUNK
    ensures Chunked(ds + [ds[|ds| - 1]], n, off, src, lens + [lens[|ds| - 1]])
  {
    hide Holds;
  }

  lemma ChunkedStart(d: F.Disk, n: nat, off: nat, src: seq<F.Byte>)
    requires F.NoHoles(d)
    ensures Chunked([d], n, off, src, [0])
  {
    SameSelf(d);
    assert src[..0] == [];
  }

  /** What is known of a write so far: the disks after each chunk, how many bytes they have
      of it, the disk writes, and which disk each cut of them recovers to. */
  datatype Track = Track(ds: seq<F.Disk>, lens: seq<nat>, ws: seq<D.Write>, cuts: seq<nat>) {
    ghost predicate Some() { 0 < |ds| == |lens| }
    function Last(): F.Disk requires 0 < |ds| { ds[|ds| - 1] }
    function Len(): nat requires 0 < |lens| { lens[|lens| - 1] }
  }

  ghost predicate Sound(d: F.Disk, a: F.Area) {
    |d.blocks| == a.size && |d.inodes| == a.inodes && F.NoHoles(d) && exists ow :: F.Owned(d, a.meta, ow)
  }

  ghost predicate Tracked(lay: Layout, a: F.Area, d: D.Image, n: nat, off: nat, src: seq<F.Byte>, t: Track) {
    t.Some() && Chunked(t.ds, n, off, src, t.lens) && Survives(lay, d, t.ws, t.ds, a, t.cuts) && forall k :: 0 <= k < |t.ds| ==> Sound(t.ds[k], a)
  }

  lemma TrackedNext(lay: Layout, a: F.Area, d: D.Image, n: nat, off: nat, src: seq<F.Byte>, t: Track, i: nat, r: int, e: F.Disk, l: D.Image, cs: seq<D.Write>, m: nat) returns (t': Track)
    requires Tracked(lay, a, d, n, off, src, t) && n < |t.ds[0].inodes| && t.Len() == i == (|t.ds| - 1) * CHUNK && -1 <= r && i + r <= |src|
    requires Sound(e, a) && if r == -1 then e == t.Last() else Spliced(t.Last(), e, n, off + i, src[i..i + r])
    requires SameHome(lay, l, Image(t.Last(), a))
    requires forall j :: 0 <= j <= |cs| ==> Recoverable(lay, D.Apply(D.Apply(d, t.ws), cs[..j]), if m < j then Image(e, a) else l)
    ensures Tracked(lay, a, d, n, off, src, t') && t'.ds == t.ds + [e] && t'.lens == t.lens + [i + if r > 0 then r else 0] && t'.ws == t.ws + cs
  {
    hide Recoverable, D.Apply, Spliced, Survives, Chunked, SameHome, Image, Sound;
    var more := SurvivesNext(lay, d, t.ws, t.ds, a, t.cuts, l, cs, m, e);
    t' := Track(t.ds + [e], t.lens + [i + if r > 0 then r else 0], t.ws + cs, t.cuts + more);
    if r == -1 {
      ChunkedSame(t.ds, n, off, src, t.lens);
    } else {
      ChunkedNext(t.ds, n, off, src, t.lens, e, i, r);
    }
  }

  /** A write of src at off that began on a disk with blocks d, written by w, and has come to
      the end of t. */
  ghost predicate Going(f: OpenFile, log: L.Log, src: seq<F.Byte>, off: nat, d: D.Image, w: seq<D.Write>, t: Track)
    reads f, f.fs, log, log.cache, log.cache.disk
  {
    Ready(f, log) && Clean(log.lay, log.cache.disk.blocks, Image(f.fs.d, AreaOf(f.fs)))
    && log.cache.disk.blocks == D.Apply(d, t.ws) && log.cache.disk.writes == w + t.ws
    && Tracked(log.lay, AreaOf(f.fs), d, f.inum, off, src, t) && t.Some() && t.Last() == f.fs.d && f.off == off + t.Len()
  }

  method NextChunk(f: OpenFile, log: L.Log, src: seq<F.Byte>, i: nat, n1: nat, ghost off: nat, ghost d: D.Image, ghost w: seq<D.Write>, ghost t: Track)
    returns (r: int, ghost t': Track)
    requires Going(f, log, src, off, d, w, t) && t.Some() && i + n1 <= |src| && n1 <= CHUNK && t.Len() == i == (|t.ds| - 1) * CHUNK
    modifies f`off, f.fs, log, log.cache, log.cache.disk
    ensures Going(f, log, src, off, d, w, t') && AreaOf(f.fs) == old(AreaOf(f.fs))
    ensures t'.Some() && -1 <= r <= n1 && t'.Len() == i + (if r > 0 then r else 0) && |t'.ds| == |t.ds| + 1 && t'.ds[0] == t.ds[0]
    ensures r != n1 ==> Stopped(f, n1 - if r > 0 then r else 0)
  {
    hide Ready, Clean, Recoverable, D.Apply, Spliced, Tracked, SameHome, Image, F.Full, Sound;
    ReadyHome(f, log);
    ReadySize(f, log);
    TrackedSize(log.lay, AreaOf(f.fs), d, f.inum, off, src, t);
    ghost var a, l, cs, n := AreaOf(f.fs), log.cache.latest, [], 0;
    r, cs, n := ChunkOp(f, log, src[i..i + n1]);
    if r != -1 {
      assert src[i..i + n1][..r] == src[i..i + r];
    }
    ReadySize(f, log);
    t' := TrackedNext(log.lay, a, d, f.inum, off, src, t, i, r, f.fs.d, l, cs, n);
    D.ApplyConcat(d, t.ws, cs);
    assert w + t.ws + cs == w + (t.ws + cs);
  }

  /** Why a chunk of which n bytes are still to be written ends early: the disk is full, the
      offset lies behind the end of the file, or the chunk would pass the maximum size. */
  ghost predicate Stopped(f: OpenFile, n: nat)
    reads f, f.fs
  {
    F.Full(f.fs.d) || (f.inum < |f.fs.d.inodes| && f.off > f.fs.d.inodes[f.inum].size) || f.off + n > F.MAXBYTES
  }

  lemma TrackedSize(lay: Layout, a: F.Area, d: D.Image, n: nat, off: nat, src: seq<F.Byte>, t: Track)
    requires Tracked(lay, a, d, n, off, src, t)
    ensures t.Some() && |t.ds[0].inodes| == a.inodes
  {
    hide Chunked, Survives;
    assert Sound(t.ds[0], a);
  }

  lemma ReadySize(f: OpenFile, log: L.Log)
    requires Ready(f, log)
    ensures f.inum < |f.fs.d.inodes| && Sound(f.fs.d, AreaOf(f.fs))
  {
    hide Idle, Agrees, Laid, F.Owned, F.NoHoles;
  }

  lemma GoingStart(f: OpenFile, log: L.Log, src: seq<F.Byte>)
    requires Ready(f, log)
    ensures Going(f, log, src, f.off, log.cache.disk.blocks, log.cache.disk.writes, Track([f.fs.d], [0], [], [0]))
  {
    StartSurvives(f, log);
    ChunkedStart(f.fs.d, f.inum, f.off, src);
    ReadySize(f, log);
    hide Ready, Clean, Survives, Chunked, Image, Sound;
    assert log.cache.disk.writes + [] == log.cache.disk.writes;
  }

  /** filewrite with its operations. Had the power failed after j of the disk writes t.ws,
      booting would find disk t.ds[t.cuts[j]], on which the file has a whole number of
      chunks, or all that was written; later cuts find no less. */
  method WriteDurably(f: OpenFile, log: L.Log, src: seq<F.Byte>) returns (ret: int, ghost t: Track)
    requires Ready(f, log)
    modifies f`off, f.fs, log, log.cache, log.cache.disk
    ensures Going(f, log, src, old(f.off), old(log.cache.disk.blocks), old(log.cache.disk.writes), t) && AreaOf(f.fs) == old(AreaOf(f.fs))
    ensures t.Some() && t.ds[0] == old(f.fs.d) && t.Len() <= |src| && ret == if t.Len() == |src| then |src| else -1
    ensures ret == -1 ==> Stopped(f, F.Min(|src| - t.Len(), CHUNK))
  {
    hide Ready, Going, AreaOf, Stopped;
    GoingStart(f, log, src);
    var i := 0;
    t := Track([f.fs.d], [0], [], [0]);
    while i < |src|
      invariant 0 <= i <= |src| && AreaOf(f.fs) == old(AreaOf(f.fs))
      invariant Going(f, log, src, old(f.off), old(log.cache.disk.blocks), old(log.cache.disk.writes), t)
      invariant t.Some() && t.ds[0] == old(f.fs.d) && t.Len() == i && (i < |src| ==> i == (|t.ds| - 1) * CHUNK)
      decreases |src| - i
    {
      var n1 := F.Min(|src| - i, CHUNK);
      var r;
      r, t := NextChunk(f, log, src, i, n1, old(f.off), old(log.cache.disk.blocks), old(log.cache.disk.writes), t);
      if r != n1 {
        StoppedMore(f, n1 - t.Len() + i, F.Min(|src| - t.Len(), CHUNK));
        break;
      }
      i := i + r;
    }
    ret := if i == |src| then |src| else -1;
  }

  lemma StoppedMore(f: OpenFile, n: nat, m: nat)
    requires Stopped(f, n) && n <= m
    ensures Stopped(f, m)
  {
  }

  // ----- reading the recovered disk -----

  /** Two file systems with the same blocks. */
  ghost predicate Alike(d: F.Disk, e: F.Disk, a: F.Area, lay: Layout) {
    Laid(a, lay) && |d.blocks| == |e.blocks| == a.size && |d.inodes| == |e.inodes| == a.inodes && SameHome(lay, Image(d, a), Image(e, a))
  }

  lemma AlikeWord(d: F.Disk, e: F.Disk, a: F.Area, lay: Layout, b: nat, k: nat)
    requires Alike(d, e, a, lay) && a.inodestart <= b < a.size && k < D.WORDS
    ensures WordAt(d, a, b, k) == WordAt(e, a, b, k)
  {
    hide WordAt;
    assert Image(d, a)[b] == Image(e, a)[b];
    assert BlockOf(d, a, b)[k] == BlockOf(e, a, b)[k];
  }

  lemma AlikeBlock(d: F.Disk, e: F.Disk, a: F.Area, lay: Layout, b: nat)
    requires Alike(d, e, a, lay) && a.meta <= b < a.size
    ensures d.blocks[b] == e.blocks[b]
  {
    var x, y := d.blocks[b], e.blocks[b];
    forall j: nat | j < F.NINDIRECT ensures F.Word(x, j) == F.Word(y, j) {
      MetaHigh(a, lay);
      AlikeWord(d, e, a, lay, b, j);
    }
    hide Alike;
    forall i | 0 <= i < F.BSIZE ensures x[i] == y[i] {
      assert F.Word(x, i / 4) == F.Word(y, i / 4);
      JoinSame(x[i / 4 * 4], x[i / 4 * 4 + 1], x[i / 4 * 4 + 2], x[i / 4 * 4 + 3], y[i / 4 * 4], y[i / 4 * 4 + 1], y[i / 4 * 4 + 2], y[i / 4 * 4 + 3]);
      assert i == i / 4 * 4 || i == i / 4 * 4 + 1 || i == i / 4 * 4 + 2 || i == i / 4 * 4 + 3;
    }
  }

  lemma MetaHigh(a: F.Area, lay: Layout)
    requires Laid(a, lay)
    ensures a.inodestart <= a.bmapstart <= a.meta
  {
  }

  lemma JoinSame(a: F.Byte, b: F.Byte, c: F.Byte, d: F.Byte, a': F.Byte, b': F.Byte, c': F.Byte, d': F.Byte)
    requires F.Join(a, b, c, d) == F.Join(a', b', c', d')
    ensures a == a' && b == b' && c == c' && d == d'
  {
  }

  lemma AlikeInode(d: F.Disk, e: F.Disk, a: F.Area, lay: Layout, m: nat, x: nat)
    requires Alike(d, e, a, lay) && m < a.inodes && 2 <= x < 16
    ensures |d.inodes| == |e.inodes| == a.inodes && InodeWord(d.inodes[m], x) == InodeWord(e.inodes[m], x)
  {
    var b, k := a.inodestart + m / F.IPB, m % F.IPB * 16 + x;
    assert b < a.bmapstart && k / 16 == m % F.IPB && k % 16 == x && (b - a.inodestart) * F.IPB + k / 16 == m;
    AlikeWord(d, e, a, lay, b, k);
  }

  lemma AddrSmall(d: F.Disk, meta: nat, owner: map<nat, F.Slot>, m: nat, i: nat)
    requires F.Owned(d, meta, owner) && m < |d.inodes| && i <= F.NDIRECT
    ensures d.inodes[m].addrs[i] < 0x1_0000_0000 && (d.inodes[m].addrs[i] == 0 || meta <= d.inodes[m].addrs[i] < |d.blocks|)
  {
    var s := if i < F.NDIRECT then F.Direct(m, i) else F.Indirect(m);
    assert F.Addr(d, s) == d.inodes[m].addrs[i];
    hide F.Addr, F.Used;
    if F.Addr(d, s) != 0 {
      F.AddrHigh(d, meta, owner, s);
    }
  }

  lemma InodesSame(d: F.Disk, e: F.Disk, a: F.Area, lay: Layout, ow: map<nat, F.Slot>, ow': map<nat, F.Slot>, m: nat)
    requires Alike(d, e, a, lay) && F.Owned(d, a.meta, ow) && F.Owned(e, a.meta, ow') && F.SizeOk(d, m) && F.SizeOk(e, m)
    ensures d.inodes[m] == e.inodes[m]
  {
    AlikeSizes(d, e, a, lay);
    hide F.Owned, Alike;
    AlikeInode(d, e, a, lay, m, 2);
    ModSame(d.inodes[m].size, e.inodes[m].size);
    forall i: nat | i <= F.NDIRECT ensures d.inodes[m].addrs[i] == e.inodes[m].addrs[i] {
      AddrsSame(d, e, a, lay, ow, ow', m, i);
    }
  }

  lemma AlikeSizes(d: F.Disk, e: F.Disk, a: F.Area, lay: Layout)
    requires Alike(d, e, a, lay)
    ensures |d.blocks| == |e.blocks| == a.size && |d.inodes| == |e.inodes| == a.inodes
  {
  }

  lemma ModSame(x: nat, y: nat)
    requires x < 0x1_0000_0000 && y < 0x1_0000_0000 && x % 0x1_0000_0000 == y % 0x1_0000_0000
    ensures x == y
  {
  }

  lemma AddrsSame(d: F.Disk, e: F.Disk, a: F.Area, lay: Layout, ow: map<nat, F.Slot>, ow': map<nat, F.Slot>, m: nat, i: nat)
    requires Alike(d, e, a, lay) && F.Owned(d, a.meta, ow) && F.Owned(e, a.meta, ow') && m < a.inodes == |d.inodes| == |e.inodes| && i <= F.NDIRECT
    ensures d.inodes[m].addrs[i] == e.inodes[m].addrs[i]
  {
    hide F.Owned, Alike;
    AlikeInode(d, e, a, lay, m, i + 3);
    AddrSmall(d, a.meta, ow, m, i);
    AddrSmall(e, a.meta, ow', m, i);
    ModSame(d.inodes[m].addrs[i], e.inodes[m].addrs[i]);
  }

  lemma AddrSame(d: F.Disk, e: F.Disk, a: F.Area, lay: Layout, ow: map<nat, F.Slot>, m: nat, bn: nat)
    requires Alike(d, e, a, lay) && F.Owned(d, a.meta, ow) && F.IsFile(d, m, bn) && d.inodes[m] == e.inodes[m]
    ensures F.BlockAddr(d, m, bn) == F.BlockAddr(e, m, bn)
  {
    hide F.Owned, F.Word;
    AddrSmall(d, a.meta, ow, m, F.NDIRECT);
    var ind := d.inodes[m].Ind();
    if 0 < ind < |d.blocks| {
      AlikeBlock(d, e, a, lay, ind);
    }
  }

  /** A file reads the same from file systems with the same blocks. */
  lemma ReadsSame(d: F.Disk, e: F.Disk, a: F.Area, lay: Layout, ow: map<nat, F.Slot>, ow': map<nat, F.Slot>)
    requires Alike(d, e, a, lay) && F.Owned(d, a.meta, ow) && F.Owned(e, a.meta, ow')
    requires forall m :: 0 <= m < a.inodes ==> F.SizeOk(d, m) && F.SizeOk(e, m)
    ensures SameFiles(d, e)
  {
    hide F.Owned;
    forall m | 0 <= m < a.inodes ensures F.Content(e, m) == F.Content(d, m) {
      InodesSame(d, e, a, lay, ow, ow', m);
      forall k | 0 <= k < d.inodes[m].size ensures F.Cell(e, m, k) == F.Cell(d, m, k) {
        CellSame(d, e, a, lay, ow, m, k);
      }
    }
  }

  lemma CellSame(d: F.Disk, e: F.Disk, a: F.Area, lay: Layout, ow: map<nat, F.Slot>, m: nat, k: nat)
    requires Alike(d, e, a, lay) && F.Owned(d, a.meta, ow) && m < a.inodes && d.inodes[m] == e.inodes[m] && k < F.MAXBYTES
    ensures F.Cell(e, m, k) == F.Cell(d, m, k)
  {
    var bn := k / F.BSIZE;
    AddrSame(d, e, a, lay, ow, m, bn);
    F.BlockAddrIs(d, m, bn);
    hide F.Owned, F.BlockAddr, F.Addr;
    if F.BlockAddr(d, m, bn) != 0 {
      F.AddrHigh(d, a.meta, ow, F.DataSlot(m, bn));
      AlikeBlock(d, e, a, lay, F.BlockAddr(d, m, bn));
    }
  }

  /** What booting finds after any cut of filewrite's disk writes: the file with a whole
      number of chunks, or with all that was written, and every other file as it was. */
  lemma WholeChunks(lay: Layout, a: F.Area, d: D.Image, n: nat, off: nat, src: seq<F.Byte>, t: Track, j: nat, e: F.Disk) returns (k: nat)
    requires Tracked(lay, a, d, n, off, src, t) && Laid(a, lay) && j <= |t.ws| && Sound(e, a) && Recoverable(lay, D.Apply(d, t.ws[..j]), Image(e, a))
    ensures k < |t.ds| == |t.lens| && t.lens[k] <= |src| && Holds(t.ds[0], e, n, off, src[..t.lens[k]]) && (k < |t.ds| - 1 ==> t.lens[k] == k * CHUNK)
  {
    k := t.cuts[j];
    var c := t.ds[k];
    RecoveredOne(lay, D.Apply(d, t.ws[..j]), Image(c, a), Image(e, a));
    hide Laid, Survives, SameHome, Recoverable, Image, D.Apply, F.Owned;
    assert Sound(c, a) && Holds(t.ds[0], c, n, off, src[..t.lens[k]]);
    hide Tracked, Chunked, Holds;
    var ow :| F.Owned(c, a.meta, ow);
    var ow' :| F.Owned(e, a.meta, ow');
    forall m | 0 <= m < a.inodes ensures F.SizeOk(c, m) && F.SizeOk(e, m) {
      assert F.NoHole(c, m) && F.NoHole(e, m);
    }
    ReadsSame(c, e, a, lay, ow, ow');
    HoldsSame(t.ds[0], c, e, n, off, src[..t.lens[k]]);
  }

  lemma RecoveredOne(lay: Layout, d: D.Image, h: D.Image, g: D.Image)
    requires Recoverable(lay, d, h) && Recoverable(lay, d, g)
    ensures SameHome(lay, h, g)
  {
    hide D.Apply, LogTxn;
  }

  lemma HoldsSame(d: F.Disk, c: F.Disk, e: F.Disk, n: nat, off: nat, bytes: seq<F.Byte>)
    requires Holds(d, c, n, off, bytes) && SameFiles(c, e)
    ensures Holds(d, e, n, off, bytes)
  {
    hide F.Content, F.Splice;
  }
}
