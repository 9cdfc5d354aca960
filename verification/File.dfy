/** filewrite cuts a write into chunks, one transaction each, so that no transaction
    logs more blocks than begin_op reserved for it. */
module File {
  import opened Param
  import opened Fs

  const CHUNK: nat := ((MAXOPBLOCKS - 1 - 1 - 2) / 2) * BSIZE

  /** Every chunk fits its reservation, whatever its offset. */
  lemma ChunkFits(off: nat, len: nat)
    requires len <= CHUNK
    ensures WriteBound(off, len) <= MAXOPBLOCKS
  {
    if len > 0 {
      var o := off % BSIZE;
      assert (off + len - 1) / BSIZE == off / BSIZE + (o + len - 1) / BSIZE;
    }
  }

  /** One byte more than a chunk breaks the bound where the write reaches the indirect
      block; module Worst has the disks on which both bounds are met. */
  lemma ChunkLargest(len: nat)
    ensures (forall off: nat :: WriteBound(off, len) <= MAXOPBLOCKS) <==> len <= CHUNK
    ensures WriteBound(NDIRECT * BSIZE - 512, CHUNK) == MAXOPBLOCKS && WriteBound(9 * BSIZE, CHUNK + 1) == MAXOPBLOCKS + 1
  {
    if len <= CHUNK {
      forall off: nat ensures WriteBound(off, len) <= MAXOPBLOCKS {
        ChunkFits(off, len);
      }
    } else {
      assert WriteBound(9 * BSIZE, len) > MAXOPBLOCKS;
    }
  }

  lemma SpliceSplice(s: seq<Byte>, off: nat, a: seq<Byte>, b: seq<Byte>)
    requires off <= |s|
    ensures off + |a| <= |Splice(s, off, a)|
    ensures Splice(Splice(s, off, a), off + |a|, b) == Splice(s, off, a + b)
  {
  }

  lemma SpliceNone(s: seq<Byte>, off: nat)
    requires off <= |s|
    ensures Splice(s, off, []) == s
  {
  }

  /** What was written is what a read of the same range returns. */
  lemma ReadBack(s: seq<Byte>, off: nat, a: seq<Byte>)
    requires off <= |s|
    ensures Splice(s, off, a)[off..off + |a|] == a
  {
  }

  /** An open file: the inode behind it and the offset that reads and writes move. */
  class OpenFile {
    const fs: FileSystem
    const inum: nat
    var off: nat

    constructor (fs: FileSystem, inum: nat)
      ensures this.fs == fs && this.inum == inum && off == 0
    {
      this.fs, this.inum, off := fs, inum, 0;
    }

    /** One transaction of filewrite's loop: begin_op, writei, end_op. */
    method WriteChunk(src: seq<Byte>) returns (r: int)
      requires fs.Valid() && inum < |fs.d.inodes| && NoHoles(fs.d) && |src| <= CHUNK
      modifies this`off, fs
      ensures fs.Valid() && |fs.d.inodes| == |old(fs.d).inodes| && NoHoles(fs.d)
      ensures |fs.logged| <= MAXOPBLOCKS
      ensures r == -1 ==> fs.d == old(fs.d) && off == old(off)
      ensures r != -1 ==> Covers(fs.logged, old(fs.d), fs.d, inum, fs.bmapstart) && fs.inodestart + inum / IPB in fs.logged
      ensures r == -1 <==> old(off) > old(fs.d).inodes[inum].size || old(off) + |src| > MAXBYTES
      ensures r != -1 ==> 0 <= r <= |src| && off == old(off) + r && Spliced(old(fs.d), fs.d, inum, old(off), src[..r])
      ensures r != -1 ==> Placed(old(fs.d), fs.d, inum, old(off), old(off) + r)
      ensures 0 <= r < |src| ==> Full(fs.d) && (r == 0 || (old(off) + r) % BSIZE == 0)
    {
      hide Owned, NoHole, Covers, Placed, Full;
      fs.logged := {};  // begin_op: a new reservation
      r := fs.Writei(inum, src, off);
      assert fs.logged - {} == fs.logged;
      ChunkFits(off, |src|);
      if r > 0 {
        off := off + r;
      }
    }

    /** filewrite on an inode. `sizes` are the numbers of blocks that its transactions
        logged. */
    method FileWrite(src: seq<Byte>) returns (ret: int, ghost sizes: seq<nat>)
      requires fs.Valid() && inum < |fs.d.inodes| && NoHoles(fs.d)
      modifies this`off, fs
      ensures fs.Valid() && |fs.d.inodes| == |old(fs.d).inodes| && NoHoles(fs.d)
      ensures forall i :: 0 <= i < |sizes| ==> sizes[i] <= MAXOPBLOCKS
      ensures ret == (if off == old(off) + |src| then |src| else -1)
      ensures old(off) <= off <= old(off) + |src|
      ensures off > old(off) ==> Spliced(old(fs.d), fs.d, inum, old(off), src[..off - old(off)])
      ensures off == old(off) ==> SameFiles(old(fs.d), fs.d)
      ensures ret == -1 ==> off < old(off) + |src|
      ensures ret == -1 ==> Full(fs.d) || off > fs.d.inodes[inum].size || off + Min(old(off) + |src| - off, CHUNK) > MAXBYTES
    {
      hide Owned, NoHole, Spliced, SameFiles, Full, Covers, Placed;
      sizes := [];
      var i := 0;
      ghost var d0 := fs.d;
      SameSelf(d0);
      while i < |src|
        invariant 0 <= i <= |src| && off == old(off) + i
        invariant fs.Valid() && |fs.d.inodes| == |d0.inodes| && NoHoles(fs.d)
        invariant forall j :: 0 <= j < |sizes| ==> sizes[j] <= MAXOPBLOCKS
        invariant i > 0 ==> Spliced(d0, fs.d, inum, old(off), src[..i])
        invariant i == 0 ==> SameFiles(d0, fs.d)
        decreases |src| - i
      {
        var n1 := Min(|src| - i, CHUNK);
        ghost var mid := fs.d;
        var r := WriteChunk(src[i..i + n1]);
        sizes := sizes + [|fs.logged|];
        if r != -1 {
          assert src[i..i + n1][..r] == src[i..i + r];
          SplicedThen(d0, mid, fs.d, inum, old(off), src, i, r);
        }
        if r != n1 {
          break;
        }
        i := i + r;
      }
      ret := if i == |src| then |src| else -1;
    }
  }

  ghost predicate SameFiles(d: Disk, e: Disk) {
    |e.inodes| == |d.inodes|
    && forall m :: 0 <= m < |d.inodes| ==> SizeOk(d, m) && SizeOk(e, m) && Content(e, m) == Content(d, m)
  }

  /** File n has `bytes` written into it at off; the other files read as before. */
  ghost predicate Spliced(d: Disk, e: Disk, n: nat, off: nat, bytes: seq<Byte>) {
    |e.inodes| == |d.inodes| && SizeOk(d, n) && SizeOk(e, n) && off <= d.inodes[n].size
    && Content(e, n) == Splice(Content(d, n), off, bytes)
    && forall m :: 0 <= m < |d.inodes| && m != n ==> SizeOk(d, m) && SizeOk(e, m) && Content(e, m) == Content(d, m)
  }

  lemma SameSelf(d: Disk)
    requires NoHoles(d)
    ensures SameFiles(d, d)
  {
    forall m | 0 <= m < |d.inodes| ensures SizeOk(d, m) { assert NoHole(d, m); }
  }

  lemma SplicedThen(d: Disk, e: Disk, f: Disk, n: nat, off: nat, src: seq<Byte>, i: nat, r: nat)
    requires n < |d.inodes| && i + r <= |src| && Spliced(e, f, n, off + i, src[i..i + r])
    requires if i > 0 then Spliced(d, e, n, off, src[..i]) else SameFiles(d, e)
    ensures Spliced(d, f, n, off, src[..i + r])
    ensures i + r == 0 ==> SameFiles(d, f)
  {
    hide Content;
    assert src[..i] + src[i..i + r] == src[..i + r];
    SpliceSplice(Content(d, n), off, src[..i], src[i..i + r]);
    SpliceNone(Content(d, n), off);
  }
}
