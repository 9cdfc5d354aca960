/** The block and inode layers: the bitmap allocator, the direct and indirect block
    map of a file, and byte-granular reads and writes. */
module Fs {
  import opened Wrappers
  import opened Param
  import Counting

  const BSIZE: nat := 1024
  const NDIRECT: nat := 12
  const NINDIRECT: nat := 256      // BSIZE / sizeof(uint)
  const MAXFILE: nat := 268        // NDIRECT + NINDIRECT
  const BPB: nat := 8192           // bitmap bits per block
  const IPB: nat := 16             // inodes per block

  type Byte = x: int | 0 <= x < 256
  type Block = b: seq<Byte> | |b| == BSIZE witness seq(BSIZE, _ => 0)

  function Zero(): Block { seq(BSIZE, _ => 0) }

  // ----- the free map: one bit per block -----

  function Mask(i: nat): bv8
    requires i < 8
  {
    match i
    case 0 => 1 case 1 => 2 case 2 => 4 case 3 => 8
    case 4 => 16 case 5 => 32 case 6 => 64 case 7 => 128
  }

  predicate Bit(x: bv8, i: nat) requires i < 8 { x & Mask(i) != 0 }
  function WithBit(x: bv8, i: nat): bv8 requires i < 8 { x | Mask(i) }
  function WithoutBit(x: bv8, i: nat): bv8 requires i < 8 { x & !Mask(i) }

  lemma BitOps(x: bv8, i: nat, j: nat)
    requires i < 8 && j < 8
    ensures Bit(WithBit(x, i), j) <==> i == j || Bit(x, j)
    ensures Bit(WithoutBit(x, i), j) <==> i != j && Bit(x, j)
  {
  }

  predicate Used(bm: seq<bv8>, b: nat)
    requires b / 8 < |bm|
  {
    Bit(bm[b / 8], b % 8)
  }

  function SetBit(bm: seq<bv8>, b: nat): (r: seq<bv8>)
    requires b / 8 < |bm|
    ensures |r| == |bm|
  {
    bm[b / 8 := WithBit(bm[b / 8], b % 8)]
  }

  function ClearBit(bm: seq<bv8>, b: nat): (r: seq<bv8>)
    requires b / 8 < |bm|
    ensures |r| == |bm|
  {
    bm[b / 8 := WithoutBit(bm[b / 8], b % 8)]
  }

  /** Setting or clearing one bit changes the state of that block alone. */
  lemma OneBit(bm: seq<bv8>, b: nat, c: nat)
    requires b / 8 < |bm| && c / 8 < |bm|
    ensures Used(SetBit(bm, b), c) <==> c == b || Used(bm, c)
    ensures Used(ClearBit(bm, b), c) <==> c != b && Used(bm, c)
  {
    hide Bit, WithBit, WithoutBit;
    BitOps(bm[b / 8], b % 8, c % 8);
  }

  // ----- words of an indirect block -----

  function Word(b: Block, j: nat): (w: nat)
    requires j < NINDIRECT
    ensures w < 0x1_0000_0000
  {
    Join(b[4 * j], b[4 * j + 1], b[4 * j + 2], b[4 * j + 3])
  }

  function Join(a: int, b: int, c: int, d: int): int { a + 0x100 * b + 0x1_0000 * c + 0x100_0000 * d }

  function SetWord(b: Block, j: nat, w: nat): (r: Block)
    requires j < NINDIRECT && w < 0x1_0000_0000
  {
    b[4 * j := w % 0x100][4 * j + 1 := w / 0x100 % 0x100][4 * j + 2 := w / 0x1_0000 % 0x100][4 * j + 3 := w / 0x100_0000]
  }

  lemma SplitJoin(w: nat)
    ensures Join(w % 0x100, w / 0x100 % 0x100, w / 0x1_0000 % 0x100, w / 0x100_0000) == w
  {
    assert w / 0x1_0000 == w / 0x100 / 0x100 && w / 0x100_0000 == w / 0x100 / 0x100 / 0x100;
  }

  lemma WordOfSetWord(b: Block, j: nat, w: nat, k: nat)
    requires j < NINDIRECT && k < NINDIRECT && w < 0x1_0000_0000
    ensures Word(SetWord(b, j, w), k) == if k == j then w else Word(b, k)
  {
    hide Join;
    SplitJoin(w);
  }

  // ----- ownership -----

  type Addrs = a: seq<nat> | |a| == NDIRECT + 1 witness seq(NDIRECT + 1, _ => 0)

  datatype Inode = Inode(size: nat, addrs: Addrs) {
    function Ind(): nat { addrs[NDIRECT] }  // the indirect block
  }

  datatype Disk = Disk(bm: seq<bv8>, blocks: seq<Block>, inodes: seq<Inode>)

  /** A place that can hold a block number. */
  datatype Slot = Direct(inum: nat, i: nat) | Indirect(inum: nat) | Entry(inum: nat, j: nat)

  predicate IsSlot(d: Disk, s: Slot) {
    s.inum < |d.inodes| && (s.Direct? ==> s.i < NDIRECT) && (s.Entry? ==> s.j < NINDIRECT)
  }

  /** The file system covers |blocks| blocks; the first `meta` of them hold boot
      block, log, inodes and free map. */
  predicate Shape(d: Disk, meta: nat) {
    0 < meta <= |d.blocks| < 0x1_0000_0000 && |d.blocks| <= 8 * |d.bm|
  }

  /** The block number in a slot, 0 for none. */
  function Addr(d: Disk, s: Slot): nat
    requires IsSlot(d, s)
  {
    var ip := d.inodes[s.inum];
    match s
    case Direct(_, i) => ip.addrs[i]
    case Indirect(_) => ip.Ind()
    case Entry(_, j) => if 0 < ip.Ind() < |d.blocks| then Word(d.blocks[ip.Ind()], j) else 0
  }

  /** Every slot that is not empty owns its block, every owned block is a data block
      held by exactly its slot, and the free map marks the owned blocks and the
      blocks in front of the data area. */
  ghost predicate Owned(d: Disk, meta: nat, owner: map<nat, Slot>) {
    Shape(d, meta)
    && (forall s :: IsSlot(d, s) && Addr(d, s) != 0 ==> Addr(d, s) in owner && owner[Addr(d, s)] == s)
    && (forall b :: b in owner ==> meta <= b < |d.blocks| && IsSlot(d, owner[b]) && Addr(d, owner[b]) == b)
    && (forall b :: 0 <= b < |d.blocks| ==> (Used(d.bm, b) <==> b < meta || b in owner))
  }

  /** No block is free. */
  ghost predicate Full(d: Disk) {
    |d.blocks| <= 8 * |d.bm| && forall c :: 0 <= c < |d.blocks| ==> Used(d.bm, c)
  }

  /** balloc's effect: mark the block and zero it. */
  function Alloc(d: Disk, b: nat): Disk
    requires b / 8 < |d.bm| && b < |d.blocks|
  {
    d.(bm := SetBit(d.bm, b), blocks := d.blocks[b := Zero()])
  }

  function Store(d: Disk, s: Slot, b: nat): Disk
    requires IsSlot(d, s) && b < 0x1_0000_0000 && (s.Entry? ==> 0 < d.inodes[s.inum].Ind() < |d.blocks|)
  {
    var ip := d.inodes[s.inum];
    match s
    case Direct(n, i) => d.(inodes := d.inodes[n := ip.(addrs := ip.addrs[i := b])])
    case Indirect(n) => d.(inodes := d.inodes[n := ip.(addrs := ip.addrs[NDIRECT := b])])
    case Entry(n, j) => d.(blocks := d.blocks[ip.Ind() := SetWord(d.blocks[ip.Ind()], j, b)])
  }

  lemma ZeroWord(j: nat)
    requires j < NINDIRECT
    ensures Word(Zero(), j) == 0
  {
  }

  ghost predicate CanFill(d: Disk, meta: nat, owner: map<nat, Slot>, s: Slot, b: nat) {
    Owned(d, meta, owner) && IsSlot(d, s) && Addr(d, s) == 0
    && (s.Entry? ==> 0 < d.inodes[s.inum].Ind() < |d.blocks|)
    && b < |d.blocks| && !Used(d.bm, b)
  }

  lemma FreeHigh(d: Disk, meta: nat, owner: map<nat, Slot>, b: nat)
    requires Owned(d, meta, owner) && b < |d.blocks| && !Used(d.bm, b)
    ensures meta <= b
  {
  }

  lemma AddrHigh(d: Disk, meta: nat, owner: map<nat, Slot>, s: Slot)
    requires Owned(d, meta, owner) && IsSlot(d, s) && Addr(d, s) != 0
    ensures meta <= Addr(d, s) < |d.blocks|
  {
    hide Addr, Used;
  }

  /** Two inodes never share an indirect block, and it is marked in the free map. */
  lemma IndirectApart(d: Disk, meta: nat, owner: map<nat, Slot>, n: nat, m: nat)
    requires Owned(d, meta, owner) && n < |d.inodes| && m < |d.inodes| && d.inodes[n].Ind() != 0
    ensures n != m ==> d.inodes[n].Ind() != d.inodes[m].Ind()
    ensures meta <= d.inodes[n].Ind() < |d.blocks| && Used(d.bm, d.inodes[n].Ind())
  {
    assert Addr(d, Indirect(n)) in owner && owner[Addr(d, Indirect(n))] == Indirect(n);
    assert Addr(d, Indirect(m)) != 0 ==> owner[Addr(d, Indirect(m))] == Indirect(m);
  }

  /** Filling one slot changes what that slot holds and no other. */
  lemma FillAddr(d: Disk, meta: nat, owner: map<nat, Slot>, s: Slot, b: nat, r: Slot)
    requires CanFill(d, meta, owner, s, b) && IsSlot(d, r)
    ensures var e := Store(Alloc(d, b), s, b);
      IsSlot(e, r) && Addr(e, r) == if r == s then b else Addr(d, r)
  {
    hide Word, SetWord, Zero, Used, SetBit;
    if r.Entry? {
      ZeroWord(r.j);
      if d.inodes[r.inum].Ind() != 0 {
        IndirectApart(d, meta, owner, r.inum, s.inum);
        if s.Entry? {
          WordOfSetWord(d.blocks[d.inodes[s.inum].Ind()], s.j, b, r.j);
        }
      }
    }
  }

  /** Allocating a free block into an empty slot keeps ownership exact. */
  lemma FillOwned(d: Disk, meta: nat, owner: map<nat, Slot>, s: Slot, b: nat)
    requires CanFill(d, meta, owner, s, b)
    ensures Owned(Store(Alloc(d, b), s, b), meta, owner[b := s])
  {
    hide Addr, Used, SetBit, SetWord;
    var e := Store(Alloc(d, b), s, b);
    assert forall r :: IsSlot(e, r) <==> IsSlot(d, r);
    forall r | IsSlot(d, r) ensures Addr(e, r) == if r == s then b else Addr(d, r) {
      FillAddr(d, meta, owner, s, b, r);
    }
    forall c | 0 <= c < |d.blocks| ensures Used(e.bm, c) <==> c == b || Used(d.bm, c) {
      OneBit(d.bm, b, c);
    }
  }

  // ----- the block map of a file -----

  predicate IsFile(d: Disk, n: nat, bn: nat) { n < |d.inodes| && bn < MAXFILE }

  function DataSlot(n: nat, bn: nat): (s: Slot)
    requires bn < MAXFILE
  {
    if bn < NDIRECT then Direct(n, bn) else Entry(n, bn - NDIRECT)
  }

  /** The block that holds block bn of file n, 0 for none. */
  function BlockAddr(d: Disk, n: nat, bn: nat): nat
    requires IsFile(d, n, bn)
  {
    Addr(d, DataSlot(n, bn))
  }

  lemma BlockAddrIs(d: Disk, n: nat, bn: nat)
    requires IsFile(d, n, bn)
    ensures BlockAddr(d, n, bn) == Addr(d, DataSlot(n, bn)) && IsSlot(d, DataSlot(n, bn))
  {
  }

  lemma TurnInside(d: Disk, owner: map<nat, Slot>, logged: set<nat>, a: Area, n: nat, bn: nat)
    requires Owned(d, a.meta, owner) && Inside(logged, a) && a.size == |d.blocks| && IsFile(d, n, bn) && BlockAddr(d, n, bn) != 0
    ensures Inside(logged + {BlockAddr(d, n, bn)}, a)
  {
    hide Owned, Addr;
    AddrHigh(d, a.meta, owner, DataSlot(n, bn));
    InsideMore(logged, logged + {BlockAddr(d, n, bn)}, a, BlockAddr(d, n, bn), 0);
  }

  /** A data block belongs to one block of one file and is no indirect block. */
  lemma DataApart(d: Disk, meta: nat, owner: map<nat, Slot>, n: nat, bn: nat, s: Slot)
    requires Owned(d, meta, owner) && IsFile(d, n, bn) && BlockAddr(d, n, bn) != 0 && IsSlot(d, s)
    ensures meta <= BlockAddr(d, n, bn) < |d.blocks| && Used(d.bm, BlockAddr(d, n, bn))
    ensures s != DataSlot(n, bn) ==> Addr(d, s) != BlockAddr(d, n, bn)
  {
    hide Addr, Used;
    assert IsSlot(d, DataSlot(n, bn));
  }

  /** e is d after bmap(n, bn): at most that block of that file appears, zeroed; all
      other blocks of all files and their contents stay. */
  ghost predicate Grown(d: Disk, e: Disk, n: nat, bn: nat)
    requires IsFile(d, n, bn)
  {
    |e.inodes| == |d.inodes| && |e.blocks| == |d.blocks|
    && (forall m :: 0 <= m < |d.inodes| ==> e.inodes[m].size == d.inodes[m].size)
    && (forall m, k :: IsFile(d, m, k) ==> BlockKept(d, e, m, k) || (m == n && k == bn && BlockFresh(d, e, n, bn)))
  }

  ghost predicate BlockKept(d: Disk, e: Disk, m: nat, k: nat)
    requires IsFile(d, m, k) && IsFile(e, m, k)
  {
    BlockAddr(e, m, k) == BlockAddr(d, m, k)
    && (0 < BlockAddr(d, m, k) < |d.blocks| == |e.blocks| ==> e.blocks[BlockAddr(d, m, k)] == d.blocks[BlockAddr(d, m, k)])
  }

  ghost predicate BlockFresh(d: Disk, e: Disk, n: nat, bn: nat)
    requires IsFile(d, n, bn) && IsFile(e, n, bn)
  {
    BlockAddr(d, n, bn) == 0 && 0 < BlockAddr(e, n, bn) < |e.blocks| && e.blocks[BlockAddr(e, n, bn)] == Zero()
  }

  lemma FillBlock(d: Disk, meta: nat, owner: map<nat, Slot>, s: Slot, b: nat, m: nat, k: nat)
    requires CanFill(d, meta, owner, s, b) && IsFile(d, m, k) && 0 < b
    ensures var e := Store(Alloc(d, b), s, b);
      if s == DataSlot(m, k) then BlockFresh(d, e, m, k) else BlockKept(d, e, m, k)
  {
    hide Used, SetBit, SetWord, Addr;
    FillAddr(d, meta, owner, s, b, DataSlot(m, k));
    if s.Entry? {
      IndirectApart(d, meta, owner, s.inum, s.inum);
    }
    if BlockAddr(d, m, k) != 0 {
      DataApart(d, meta, owner, m, k, Indirect(s.inum));
      IndOf(d, s.inum);
    }
  }

  lemma IndOf(d: Disk, n: nat)
    requires n < |d.inodes|
    ensures Addr(d, Indirect(n)) == d.inodes[n].Ind()
  {
  }

  /** Filling the slot of block bn, or the indirect block in front of it. */
  lemma FillGrown(d: Disk, meta: nat, owner: map<nat, Slot>, s: Slot, b: nat, n: nat, bn: nat)
    requires CanFill(d, meta, owner, s, b) && IsFile(d, n, bn) && 0 < b
    requires s == DataSlot(n, bn) || s == Indirect(n)
    ensures Grown(d, Store(Alloc(d, b), s, b), n, bn)
  {
    hide Used, SetBit, SetWord, Addr, BlockKept, BlockFresh;
    var e := Store(Alloc(d, b), s, b);
    forall m, k | IsFile(d, m, k)
      ensures IsFile(e, m, k) && (BlockKept(d, e, m, k) || (m == n && k == bn && BlockFresh(d, e, n, bn)))
    {
      FillBlock(d, meta, owner, s, b, m, k);
    }
  }

  lemma GrownThen(d: Disk, e: Disk, f: Disk, n: nat, bn: nat)
    requires IsFile(d, n, bn) && Grown(d, e, n, bn) && Grown(e, f, n, bn) && BlockAddr(e, n, bn) == 0
    ensures Grown(d, f, n, bn)
  {
    hide Addr;
    forall m, k | IsFile(d, m, k)
      ensures BlockKept(d, f, m, k) || (m == n && k == bn && BlockFresh(d, f, n, bn))
    {
      assert IsFile(e, m, k);
    }
  }

  // ----- what log_write has been told -----

  /** Every block that differs between d and e has been logged, except that the inode of
      file n is still to be written back; no other inode differs. */
  ghost predicate Covers(logged: set<nat>, d: Disk, e: Disk, n: nat, bmapstart: nat) {
    |e.blocks| == |d.blocks| && |e.bm| == |d.bm| && |e.inodes| == |d.inodes|
    && (forall b :: 0 <= b < |d.blocks| ==> e.blocks[b] == d.blocks[b] || b in logged)
    && (forall i :: 0 <= i < |d.bm| ==> e.bm[i] == d.bm[i] || bmapstart + MapBlock(i) in logged)
    && (forall m :: 0 <= m < |d.inodes| && m != n ==> e.inodes[m] == d.inodes[m])
  }

  /** The block of the free map that byte i lies in. */
  function MapBlock(i: nat): nat { i / BSIZE }

  lemma MapBlockOf(b: nat)
    ensures MapBlock(b / 8) == b / BPB
  {
  }

  lemma CoversSelf(logged: set<nat>, d: Disk, n: nat, bmapstart: nat)
    ensures Covers(logged, d, d, n, bmapstart)
  {
  }

  lemma CoversThen(l: set<nat>, l': set<nat>, d: Disk, e: Disk, f: Disk, n: nat, bmapstart: nat)
    requires Covers(l, d, e, n, bmapstart) && Covers(l', e, f, n, bmapstart) && l <= l'
    ensures Covers(l', d, f, n, bmapstart)
  {
  }

  lemma InodeCovers(l: set<nat>, l': set<nat>, d: Disk, e: Disk, f: Disk, n: nat, bmapstart: nat)
    requires Covers(l, d, e, n, bmapstart) && l <= l' && n < |e.inodes| && |f.inodes| == |e.inodes|
    requires f == e.(inodes := e.inodes[n := f.inodes[n]])
    ensures Covers(l', d, f, n, bmapstart)
  {
  }

  lemma PatchCovers(l: set<nat>, d: Disk, e: Disk, n: nat, b: nat, o: nat, bytes: seq<Byte>, bmapstart: nat)
    requires Covers(l, d, e, n, bmapstart) && b < |e.blocks| && o + |bytes| <= BSIZE
    ensures Covers(l + {b}, d, PatchDisk(e, b, o, bytes), n, bmapstart)
  {
    hide Patch;
  }

  lemma FillCovers(d: Disk, s: Slot, b: nat, logged: set<nat>, bmapstart: nat)
    requires IsSlot(d, s) && b / 8 < |d.bm| && b < |d.blocks| < 0x1_0000_0000 && (s.Entry? ==> 0 < d.inodes[s.inum].Ind() < |d.blocks|)
    requires b in logged && bmapstart + b / BPB in logged && (s.Entry? ==> d.inodes[s.inum].Ind() in logged)
    ensures Covers(logged, d, Store(Alloc(d, b), s, b), s.inum, bmapstart)
  {
    hide Zero, SetWord, WithBit;
    MapBlockOf(b);
  }

  lemma FreeCovers(d: Disk, b: nat, logged: set<nat>, n: nat, bmapstart: nat)
    requires b / 8 < |d.bm| && bmapstart + b / BPB in logged
    ensures Covers(logged, d, d.(bm := ClearBit(d.bm, b)), n, bmapstart)
  {
    hide WithoutBit;
    MapBlockOf(b);
  }

  /** Where data, free map and inodes lie. */
  datatype Area = Area(meta: nat, size: nat, inodes: nat, bmapstart: nat, inodestart: nat)

  predicate Loggable(b: nat, a: Area) {
    a.meta <= b < a.size || (a.bmapstart <= b && (b - a.bmapstart) * BPB < a.size) || (a.inodestart <= b && (b - a.inodestart) * IPB < a.inodes)
  }

  ghost predicate Inside(logged: set<nat>, a: Area) { forall b :: b in logged ==> Loggable(b, a) }

  lemma InsideMore(logged: set<nat>, l: set<nat>, a: Area, b: nat, ind: nat)
    requires Inside(logged, a) && a.meta <= b < a.size && (ind == 0 || a.meta <= ind < a.size) && l <= logged + {a.bmapstart + b / BPB, b} + (if ind == 0 then {} else {ind})
    ensures Inside(l, a)
  {
    assert b / BPB * BPB <= b;
  }

  lemma InsideInode(logged: set<nat>, a: Area, n: nat)
    requires Inside(logged, a) && n < a.inodes
    ensures Inside(logged + {a.inodestart + n / IPB}, a)
  {
    assert n / IPB * IPB <= n;
  }

  // ----- the file system -----

  class FileSystem {
    var d: Disk
    const meta: nat                  // first data block
    const bmapstart: nat
    const inodestart: nat
    ghost var owner: map<nat, Slot>
    var logged: set<nat>             // blocks passed to log_write

    ghost predicate Valid()
      reads this
    {
      Owned(d, meta, owner) && Inside(logged, Area(meta, |d.blocks|, |d.inodes|, bmapstart, inodestart))
    }

    constructor (image: Disk, meta: nat, bmapstart: nat, inodestart: nat, ghost owner: map<nat, Slot>)
      requires Owned(image, meta, owner)
      ensures Valid() && d == image && this.owner == owner && logged == {}
      ensures this.meta == meta && this.bmapstart == bmapstart && this.inodestart == inodestart
    {
      d, this.meta, this.bmapstart, this.inodestart := image, meta, bmapstart, inodestart;
      this.owner, logged := owner, {};
    }

    /** balloc: the first free block, marked and zeroed; 0 if there is none. */
    method Balloc() returns (r: nat)
      requires Valid()
      modifies this`d, this`logged
      ensures r == 0 ==> d == old(d) && logged == old(logged) && Full(d)
      ensures r != 0 ==> r < |old(d).blocks| && !Used(old(d).bm, r) && d == Alloc(old(d), r)
      ensures r != 0 ==> forall c :: 0 <= c < r ==> Used(old(d).bm, c)
      ensures r != 0 ==> logged == old(logged) + {bmapstart + r / BPB, r}
    {
      hide Addr, Used, SetBit, IsSlot;
      var b := 0;
      while b < |d.blocks|
        invariant d == old(d) && logged == old(logged)
        invariant forall c :: 0 <= c < b && c < |d.blocks| ==> Used(d.bm, c)
      {
        var bi := 0;
        while bi < BPB && b + bi < |d.blocks|
          invariant 0 <= bi <= BPB && d == old(d) && logged == old(logged)
          invariant forall c :: 0 <= c < b + bi && c < |d.blocks| ==> Used(d.bm, c)
        {
          if !Used(d.bm, b + bi) {
            r := b + bi;
            d := d.(bm := SetBit(d.bm, r));
            logged := logged + {bmapstart + r / BPB};
            d := d.(blocks := d.blocks[r := Zero()]);
            logged := logged + {r};
            return;
          }
          bi := bi + 1;
        }
        b := b + BPB;
      }
      r := 0;
    }

    /** Allocate a block for an empty slot: balloc, then store its number, logging
        the indirect block if the slot lies in one. 0 if the disk is full. */
    method FillSlot(s: Slot) returns (b: nat)
      requires Valid() && IsSlot(d, s) && Addr(d, s) == 0 && (s.Entry? ==> d.inodes[s.inum].Ind() != 0)
      modifies this
      ensures Valid()
      ensures b == 0 ==> d == old(d) && owner == old(owner) && logged == old(logged) && Full(d)
      ensures b != 0 ==> CanFill(old(d), meta, old(owner), s, b) && d == Store(Alloc(old(d), b), s, b) && owner == old(owner)[b := s]
      ensures b != 0 ==> logged <= old(logged) + {bmapstart + b / BPB, b, old(d).inodes[s.inum].Ind()}
      ensures b != 0 && !s.Entry? ==> logged == old(logged) + {bmapstart + b / BPB, b}
      ensures old(logged) <= logged && Covers(logged, old(d), d, s.inum, bmapstart)
    {
      hide Addr, Used, SetBit, SetWord, Zero, Covers, Inside;
      if s.Entry? {
        IndirectApart(d, meta, owner, s.inum, s.inum);
      }
      ghost var before := d;
      b := Balloc();
      if b != 0 {
        FillOwned(before, meta, owner, s, b);
        d := Store(d, s, b);
        owner := owner[b := s];
        if s.Entry? {
          logged := logged + {d.inodes[s.inum].Ind()};
        }
        FillCovers(before, s, b, logged, bmapstart);
        FreeHigh(before, meta, old(owner), b);
        InsideMore(old(logged), logged, Area(meta, |d.blocks|, |d.inodes|, bmapstart, inodestart), b, if s.Entry? then before.inodes[s.inum].Ind() else 0);
      } else {
        CoversSelf(logged, d, s.inum, bmapstart);
      }
    }

    /** The part of bmap that fills one empty slot on the way to block bn. */
    method FillFor(s: Slot, n: nat, bn: nat) returns (b: nat)
      requires Valid() && IsFile(d, n, bn) && (s == Indirect(n) || (s == DataSlot(n, bn) && (bn >= NDIRECT ==> d.inodes[n].Ind() != 0)))
      requires Addr(d, s) == 0
      modifies this
      ensures Valid() && |d.inodes| == |old(d).inodes| && Grown(old(d), d, n, bn) && b == Addr(d, s)
      ensures s == Indirect(n) ==> BlockAddr(d, n, bn) == BlockAddr(old(d), n, bn)
      ensures s != Indirect(n) ==> d.inodes[n].Ind() == old(d).inodes[n].Ind()
      ensures b == 0 ==> logged == old(logged) && d == old(d) && Full(d)
      ensures b != 0 ==> logged <= old(logged) + {bmapstart + b / BPB, b, d.inodes[n].Ind()}
      ensures b != 0 && (s == Indirect(n) || bn < NDIRECT) ==> logged <= old(logged) + {bmapstart + b / BPB, b}
      ensures old(logged) <= logged && Covers(logged, old(d), d, n, bmapstart)
    {
      hide Inside, Covers, Addr, Used, SetBit, SetWord, Zero, Owned, BlockKept, BlockFresh;
      ghost var before, own := d, owner;
      IndOf(d, n);
      b := FillSlot(s);
      if b == 0 {
        GrownSelf(d, n, bn);
      } else {
        FillGrown(before, meta, own, s, b, n, bn);
        FillAddr(before, meta, own, s, b, s);
        FillAddr(before, meta, own, s, b, DataSlot(n, bn));
        FillAddr(before, meta, own, s, b, Indirect(n));
        IndOf(d, n);
      }
    }

    /** bmap's branch for blocks behind the direct ones. */
    method BmapIndirect(n: nat, bn: nat) returns (addr: nat, ghost bits: set<nat>)
      requires Valid() && IsFile(d, n, bn) && bn >= NDIRECT
      modifies this
      ensures Valid() && |d.inodes| == |old(d).inodes|
      ensures Grown(old(d), d, n, bn) && addr == BlockAddr(d, n, bn)
      ensures BlockAddr(old(d), n, bn) != 0 ==> d == old(d) && owner == old(owner) && logged == old(logged) && bits == {}
      ensures logged <= old(logged) + bits + Some0(addr) + Some0(d.inodes[n].Ind()) && |bits| <= NewBits(old(d), d, n, bn)
      ensures old(d).inodes[n].Ind() != 0 ==> d.inodes[n].Ind() == old(d).inodes[n].Ind()
      ensures addr == 0 ==> Full(d)
      ensures old(logged) <= logged && Covers(logged, old(d), d, n, bmapstart)
    {
      hide Inside, Used, SetBit, SetWord, Zero, Owned, Grown, CanFill, Word, Full, Covers;
      bits := {};
      GrownSelf(d, n, bn);
      CoversSelf(logged, d, n, bmapstart);
      var ind := d.inodes[n].Ind();
      ghost var start := d;
      if ind == 0 {
        ind := FillFor(Indirect(n), n, bn);
        if ind == 0 {
          return 0, bits;
        }
        bits := {bmapstart + ind / BPB};
      }
      IndirectApart(d, meta, owner, n, n);
      addr := Word(d.blocks[ind], bn - NDIRECT);
      if addr == 0 {
        ghost var mid, l := d, logged;
        addr := FillFor(Entry(n, bn - NDIRECT), n, bn);
        GrownThen(start, mid, d, n, bn);
        CoversThen(l, logged, start, mid, d, n, bmapstart);
        bits := if addr == 0 then bits else bits + {bmapstart + addr / BPB};
      }
    }

    /** bmap: the block holding block bn of file n, allocated if there is none; 0 if
        the disk is full, None for the panic "bmap: out of range". `bits` are the
        free-map blocks it logged. */
    method Bmap(n: nat, bn: nat) returns (r: Option<nat>, ghost bits: set<nat>)
      requires Valid() && n < |d.inodes|
      modifies this
      ensures Valid() && (r.None? <==> bn >= MAXFILE) && |d.inodes| == |old(d).inodes|
      ensures r.None? ==> d == old(d)
      ensures r.Some? ==> Grown(old(d), d, n, bn) && r.value == BlockAddr(d, n, bn)
      ensures r.Some? && BlockAddr(old(d), n, bn) != 0 ==> d == old(d) && owner == old(owner) && logged == old(logged) && bits == {}
      ensures r.Some? ==> logged <= old(logged) + bits + Some0(r.value) + Some0(d.inodes[n].Ind()) && |bits| <= NewBits(old(d), d, n, bn)
      ensures r == Some(0) ==> Full(d)
      ensures r.Some? && bn < NDIRECT ==> logged <= old(logged) + bits + Some0(r.value) && d.inodes[n].Ind() == old(d).inodes[n].Ind()
      ensures old(d).inodes[n].Ind() != 0 ==> d.inodes[n].Ind() == old(d).inodes[n].Ind()
      ensures old(logged) <= logged && Covers(logged, old(d), d, n, bmapstart)
    {
      hide Inside, Used, SetBit, SetWord, Zero, Owned, Grown, CanFill, Word, Full, Covers;
      bits := {};
      CoversSelf(logged, d, n, bmapstart);
      if bn >= MAXFILE {
        return None, bits;
      }
      var addr;
      if bn < NDIRECT {
        addr := d.inodes[n].addrs[bn];
        GrownSelf(d, n, bn);
        if addr == 0 {
          addr := FillFor(Direct(n, bn), n, bn);
          bits := if addr == 0 then {} else {bmapstart + addr / BPB};
        }
      } else {
        addr, bits := BmapIndirect(n, bn);
      }
      r := Some(addr);
    }

    /** bfree; false is the panic "freeing free block". */
    method Bfree(b: nat) returns (ok: bool)
      requires b / 8 < |d.bm|
      modifies this`d, this`logged
      ensures ok == Used(old(d).bm, b)
      ensures d == if ok then old(d).(bm := ClearBit(old(d).bm, b)) else old(d)
      ensures logged == if ok then old(logged) + {bmapstart + b / BPB} else old(logged)
    {
      if !Used(d.bm, b) {
        return false;
      }
      d := d.(bm := ClearBit(d.bm, b));
      logged := logged + {bmapstart + b / BPB};
      ok := true;
    }

    /** itrunc's turn for one slot. */
    method FreeSlot(ghost d0: Disk, s: Slot, b: nat) returns (ok: bool)
      requires Owned(d0, meta, owner) && IsSlot(d0, s) && b == Addr(d0, s)
      requires |d.blocks| == |d0.blocks| && Freed(d0, d.bm, meta, owner, s.inum, Rank(s))
      modifies this`d, this`logged
      ensures ok && Freed(d0, d.bm, meta, owner, s.inum, Rank(s) + 1)
      ensures d == old(d).(bm := d.bm)
      ensures Covers(logged, old(d), d, s.inum, bmapstart)
      ensures old(logged) <= logged && logged == old(logged) + if b == 0 then {} else {bmapstart + b / BPB}
    {
      hide Inside, Addr, Used, Owned, ClearBit, IsSlot, Freed, Covers;
      FreeNext(d0, d.bm, meta, owner, s);
      ok := true;
      if b != 0 {
        ok := Bfree(b);
        FreeCovers(old(d), b, logged, s.inum, bmapstart);
      } else {
        CoversSelf(logged, d, s.inum, bmapstart);
      }
    }

    /** itrunc: the file gives back every block it owns, also those behind its size,
        and ends up empty; no other file loses a block. It never frees a free block. */
    method Itrunc(n: nat) returns (ok: bool)
      requires Valid() && n < |d.inodes|
      modifies this
      ensures ok && Valid()
      ensures owner == map b | b in old(owner) && old(owner)[b].inum != n :: old(owner)[b]
      ensures d.blocks == old(d).blocks && |d.inodes| == |old(d).inodes|
      ensures d.inodes == old(d).inodes[n := EmptyInode()]
      ensures Covers(logged, old(d), d, n, bmapstart)
      ensures logged == old(logged) + MapsOf(old(owner), n, bmapstart) + {inodestart + n / IPB}
    {
      hide Inside, Addr, Used, Owned, Freed, Word, Covers, FreedMaps, MapsOf;
      ghost var d0, l0 := d, logged;
      FreedNone(d0, meta, owner, n);
      ok := TruncDirect(n);
      ghost var d1 := d;
      IndOf(d0, n);
      if d.inodes[n].Ind() != 0 {
        ghost var l1 := logged;
        ok := TruncIndirect(d0, l0, n);
        ghost var d2, l2 := d, logged;
        ok := FreeSlot(d0, Indirect(n), d.inodes[n].Ind());
        FreedMapsNext(d0, meta, owner, Indirect(n), bmapstart);
        CoversThen(l2, logged, d1, d2, d, n, bmapstart);
        CoversThen(l1, logged, d0, d1, d, n, bmapstart);
        ghost var d4 := d;
        d := d.(inodes := d.inodes[n := d.inodes[n].(addrs := d.inodes[n].addrs[NDIRECT := 0])]);
        InodeCovers(logged, logged, d0, d4, d, n, bmapstart);
      } else {
        FreedEntries(d0, d.bm, meta, owner, n);
        MapsEntries(d0, meta, owner, n, bmapstart);
      }
      MapsAll(d0, meta, owner, n, bmapstart);
      ghost var d3 := d;
      d := d.(inodes := d.inodes[n := d.inodes[n].(size := 0)]);
      ghost var l3 := logged;
      logged := logged + {inodestart + n / IPB};
      InodeCovers(l3, logged, d0, d3, d, n, bmapstart);
      assert d.inodes[n].addrs == EmptyInode().addrs;
      assert d.inodes == d0.inodes[n := EmptyInode()];
      TruncOwned(d0, meta, owner, n, d.bm);
      assert logged == l0 + MapsOf(owner, n, bmapstart) + {inodestart + n / IPB};
      InsideMaps(d0, meta, owner, l0, Area(meta, |d.blocks|, |d.inodes|, bmapstart, inodestart), n);
      owner := map b | b in owner && owner[b].inum != n :: owner[b];
    }

    method TruncDirect(n: nat) returns (ok: bool)
      requires Valid() && n < |d.inodes| && Freed(d, d.bm, meta, owner, n, 0)
      modifies this`d, this`logged
      ensures ok && Freed(old(d), d.bm, meta, owner, n, NDIRECT)
      ensures d.blocks == old(d).blocks && |d.inodes| == |old(d).inodes|
      ensures d.inodes == old(d).inodes[n := d.inodes[n]] && d.inodes[n].size == old(d).inodes[n].size
      ensures forall k :: 0 <= k < NDIRECT ==> d.inodes[n].addrs[k] == 0
      ensures d.inodes[n].Ind() == old(d).inodes[n].Ind()
      ensures logged == old(logged) + FreedMaps(owner, n, NDIRECT, bmapstart) && Covers(logged, old(d), d, n, bmapstart)
    {
      hide Inside, Addr, Used, Owned, Freed, Word, Covers, FreedMaps;
      ok := true;
      CoversSelf(logged, d, n, bmapstart);
      FreedMapsNone(owner, n, bmapstart);
      for i := 0 to NDIRECT
        invariant ok && Freed(old(d), d.bm, meta, owner, n, i)
        invariant logged == old(logged) + FreedMaps(owner, n, i, bmapstart) && Covers(logged, old(d), d, n, bmapstart)
        invariant d.blocks == old(d).blocks && |d.inodes| == |old(d).inodes|
        invariant d.inodes == old(d).inodes[n := d.inodes[n]] && d.inodes[n].size == old(d).inodes[n].size
        invariant forall k :: 0 <= k < i ==> d.inodes[n].addrs[k] == 0
        invariant forall k :: i <= k <= NDIRECT ==> d.inodes[n].addrs[k] == old(d).inodes[n].addrs[k]
      {
        DirectOf(old(d), n, i);
        ghost var d1, l := d, logged;
        ok := FreeSlot(old(d), Direct(n, i), d.inodes[n].addrs[i]);
        FreedMapsNext(old(d), meta, owner, Direct(n, i), bmapstart);
        CoversThen(l, logged, old(d), d1, d, n, bmapstart);
        ghost var d2 := d;
        d := d.(inodes := d.inodes[n := d.inodes[n].(addrs := d.inodes[n].addrs[i := 0])]);
        InodeCovers(logged, logged, old(d), d2, d, n, bmapstart);
      }
    }

    method TruncIndirect(ghost d0: Disk, ghost l0: set<nat>, n: nat) returns (ok: bool)
      requires Owned(d0, meta, owner) && n < |d0.inodes| == |d.inodes| && d.blocks == d0.blocks
      requires d.inodes[n].Ind() == d0.inodes[n].Ind() != 0 && Freed(d0, d.bm, meta, owner, n, NDIRECT)
      requires logged == l0 + FreedMaps(owner, n, NDIRECT, bmapstart)
      modifies this`d, this`logged
      ensures ok && Freed(d0, d.bm, meta, owner, n, MAXFILE) && d == old(d).(bm := d.bm)
      ensures logged == l0 + FreedMaps(owner, n, MAXFILE, bmapstart)
      ensures old(logged) <= logged && Covers(logged, old(d), d, n, bmapstart)
    {
      hide Inside, Addr, Used, Owned, Freed, Word, Covers, FreedMaps;
      CoversSelf(logged, d, n, bmapstart);
      IndirectApart(d0, meta, owner, n, n);
      var a := d.blocks[d.inodes[n].Ind()];
      ok := true;
      for j := 0 to NINDIRECT
        invariant ok && Freed(d0, d.bm, meta, owner, n, NDIRECT + j) && d == old(d).(bm := d.bm)
        invariant logged == l0 + FreedMaps(owner, n, NDIRECT + j, bmapstart)
        invariant old(logged) <= logged && Covers(logged, old(d), d, n, bmapstart)
      {
        EntryOf(d0, n, j);
        ghost var d1, l := d, logged;
        ok := FreeSlot(d0, Entry(n, j), Word(a, j));
        FreedMapsNext(d0, meta, owner, Entry(n, j), bmapstart);
        CoversThen(l, logged, old(d), d1, d, n, bmapstart);
      }
    }

    /** One turn of writei's loop: the part of `src` that falls into the block of
        offset off. 0 if the disk is full. */
    method WriteTurn(n: nat, off: nat, src: seq<Byte>) returns (m: nat, ghost bits: set<nat>)
      requires Valid() && n < |d.inodes| && off + |src| <= MAXBYTES && src != []
      modifies this
      ensures Valid() && |d.inodes| == |old(d).inodes|
      ensures m == 0 || m == Min(|src|, BSIZE - off % BSIZE)
      ensures Changed(old(d), d, n, off, src[..m])
      ensures m == 0 <==> BlockAddr(d, n, off / BSIZE) == 0
      ensures m == 0 ==> Full(d)
      ensures |bits| <= NewBits(old(d), d, n, off / BSIZE)
      ensures TurnLogged(old(logged), logged, bits, BlockAddr(d, n, off / BSIZE), old(d).inodes[n].Ind(), d.inodes[n].Ind(), off / BSIZE)
      ensures old(logged) <= logged && Covers(logged, old(d), d, n, bmapstart)
      ensures Placed(old(d), d, n, off, off + m)
    {
      hide Inside, Covers, Addr, Used, Owned, Grown, Changed, BlockAddr, Patch, Full, Placed;
      var r;
      r, bits := Bmap(n, off / BSIZE);
      GrownChanges(old(d), d, n, off / BSIZE, off);
      if r.value == 0 {
        GrownPlaced(old(d), d, n, off, 0);
        return 0, bits;
      }
      m := Min(|src|, BSIZE - off % BSIZE);
      ghost var mid := d;
      PatchOwned(d, meta, owner, n, off / BSIZE, off % BSIZE, src[..m]);
      PatchChanges(d, meta, owner, n, off, src[..m]);
      d := PatchDisk(d, r.value, off % BSIZE, src[..m]);
      ghost var l := logged;
      logged := logged + {r.value};
      TurnInside(mid, owner, l, Area(meta, |d.blocks|, |d.inodes|, bmapstart, inodestart), n, off / BSIZE);
      GrownPlaced(old(d), mid, n, off, m);
      PatchPlaced(old(d), mid, meta, owner, n, off, src[..m]);
      PatchCovers(l, old(d), mid, n, r.value, off % BSIZE, src[..m], bmapstart);
      ChangedThen(old(d), mid, d, n, off, [], src[..m]);
      assert [] + src[..m] == src[..m];
      ChangedAddr(mid, d, n, off, src[..m], off / BSIZE);
    }

    /** writei from a kernel buffer. -1 for an offset behind the end or a write that
        would pass the maximum size; otherwise the number of bytes written, fewer
        than asked only when the disk is full. */
    method Writei(n: nat, src: seq<Byte>, off: nat) returns (r: int)
      requires Valid() && n < |d.inodes| && NoHoles(d)
      modifies this
      ensures Valid() && |d.inodes| == |old(d).inodes| && NoHoles(d)
      ensures r == -1 <==> off > old(d).inodes[n].size || off + |src| > MAXBYTES
      ensures r == -1 ==> d == old(d) && logged == old(logged)
      ensures r != -1 ==> 0 <= r <= |src| && SizeOk(d, n) && SizeOk(old(d), n) && Content(d, n) == Splice(Content(old(d), n), off, src[..r])
      ensures r != -1 ==> forall m :: 0 <= m < |d.inodes| && m != n ==> SizeOk(d, m) && SizeOk(old(d), m) && Content(d, m) == Content(old(d), m)
      ensures 0 <= r < |src| ==> Full(d) && (r == 0 || (off + r) % BSIZE == 0)
      ensures |logged - old(logged)| <= WriteBound(off, |src|)
      ensures r != -1 ==> Covers(logged, old(d), d, n, bmapstart) && inodestart + n / IPB in logged
      ensures r != -1 ==> Placed(old(d), d, n, off, off + r)
    {
      hide Inside, Placed, Covers, Addr, Used, Owned, Changed, BlockAddr, Full, Tally, NoHole, Cell;
      if off > d.inodes[n].size || off + |src| > MAXBYTES {
        assert logged - old(logged) == {};
        return -1;
      }
      ghost var d0, logged0 := d, logged;
      ghost var data, bits, turns;
      r, data, bits, turns := WriteLoop(n, src, off);
      TallyTotal(logged0, logged, data, bits, d0.inodes[n].Ind(), d.inodes[n].Ind(), turns, off, |src|, inodestart + n / IPB);
      ghost var d1, logged1 := d, logged;
      Finish(d0, n, off, src[..r]);
      InodeCovers(logged1, logged, d0, d1, d, n, bmapstart);
      ResizePlaced(d0, d1, n, off, off + r, d.inodes[n].size);
    }

    /** writei's loop. */
    method WriteLoop(n: nat, src: seq<Byte>, off: nat) returns (tot: nat, ghost data: set<nat>, ghost bits: set<nat>, ghost turns: nat)
      requires Valid() && n < |d.inodes| && NoHoles(d) && off <= d.inodes[n].size && off + |src| <= MAXBYTES
      modifies this
      ensures Valid() && |d.inodes| == |old(d).inodes| && tot <= |src|
      ensures Changed(old(d), d, n, off, src[..tot]) && MappedRange(d, n, off, off + tot)
      ensures Tally(old(logged), logged, data, bits, old(d).inodes[n].Ind(), d.inodes[n].Ind(), turns, off % BSIZE != 0, Reaches(off, |src|))
      ensures turns <= Span(off, |src|) && (src == [] ==> logged == old(logged)) && (tot < |src| ==> Full(d) && (tot == 0 || (off + tot) % BSIZE == 0))
      ensures Covers(logged, old(d), d, n, bmapstart) && Placed(old(d), d, n, off, off + tot)
    {
      hide Inside, Placed, Covers, Addr, Used, Owned, Changed, BlockAddr, Full, Tally, NoHole, Cell;
      tot, data, bits, turns := 0, {}, {}, 0;
      ChangedSelf(d, n, off);
      CoversSelf(logged, d, n, bmapstart);
      PlacedSelf(d, n, off);
      TallyStart(logged, d.inodes[n].Ind(), off % BSIZE != 0, Reaches(off, |src|));
      while tot < |src|
        invariant tot <= |src| && Valid() && |d.inodes| == |old(d).inodes|
        invariant Changed(old(d), d, n, off, src[..tot]) && MappedRange(d, n, off, off + tot)
        invariant Tally(old(logged), logged, data, bits, old(d).inodes[n].Ind(), d.inodes[n].Ind(), turns, off % BSIZE != 0, Reaches(off, |src|))
        invariant turns == 0 ==> tot == 0 && (src == [] ==> logged == old(logged))
        invariant 0 < turns && tot < |src| ==> off + tot == (off / BSIZE + turns) * BSIZE
        invariant turns <= Span(off, |src|)
        invariant Covers(logged, old(d), d, n, bmapstart) && Placed(old(d), d, n, off, off + tot)
        decreases |src| - tot
      {
        var m;
        m, data, bits := WriteStep(old(d), old(logged), n, off, src, tot, data, bits, turns);
        if m == 0 {
          break;
        }
        tot, turns := tot + m, turns + 1;
      }
    }

    /** readi into a kernel buffer: the bytes of the file from off on, as many as are
        asked for and exist. It allocates nothing and logs nothing. */
    method Readi(n: nat, off: nat, len: nat) returns (out: seq<Byte>)
      requires Valid() && NoHole(d, n) && SizeOk(d, n)
      modifies this
      ensures d == old(d) && owner == old(owner) && logged == old(logged)
      ensures off > d.inodes[n].size || off + len >= 0x1_0000_0000 ==> out == []
      ensures off <= d.inodes[n].size && off + len < 0x1_0000_0000 ==> out == Content(d, n)[off..Min(off + len, d.inodes[n].size)]
    {
      hide Inside, Owned, NoHole, Content, Cell;
      out := [];
      if off > d.inodes[n].size || off + len >= 0x1_0000_0000 {  // off + n < off in 32 bits
        return;
      }
      var want := if off + len > d.inodes[n].size then d.inodes[n].size - off else len;
      while |out| < want
        invariant |out| <= want && d == old(d) && owner == old(owner) && logged == old(logged)
        invariant out == Content(d, n)[off..off + |out|]
        decreases want - |out|
      {
        var pos := off + |out|;
        var m := Min(want - |out|, BSIZE - pos % BSIZE);
        var part := ReadTurn(n, pos, m);
        SliceNext(Content(d, n), off, pos, m);
        out := out + part;
      }
    }

    method ReadTurn(n: nat, pos: nat, m: nat) returns (part: seq<Byte>)
      requires Valid() && NoHole(d, n) && SizeOk(d, n) && pos + m <= d.inodes[n].size && 0 < m <= BSIZE - pos % BSIZE
      modifies this
      ensures d == old(d) && owner == old(owner) && logged == old(logged)
      ensures part == Content(d, n)[pos..pos + m]
    {
      hide Inside, Addr, Used, Owned, Grown, NoHole, BlockAddr;
      CoveredBlock(d, n, pos);
      var r, _ := Bmap(n, pos / BSIZE);
      DataApart(d, meta, owner, n, pos / BSIZE, Indirect(n));
      BlockSlice(d, n, pos, m);
      part := d.blocks[r.value][pos % BSIZE..pos % BSIZE + m];
    }

    /** The end of writei: update the size if it grew, and the inode. */
    method Finish(ghost d0: Disk, n: nat, off: nat, bytes: seq<Byte>)
      requires Valid() && NoHoles(d0) && n < |d.inodes| == |d0.inodes| && off <= d0.inodes[n].size && off + |bytes| <= MAXBYTES
      requires Changed(d0, d, n, off, bytes) && MappedRange(d, n, off, off + |bytes|)
      modifies this`d, this`logged
      ensures Valid() && |d.inodes| == |d0.inodes| && NoHoles(d) && d == Resize(old(d), n, d.inodes[n].size)
      ensures SizeOk(d, n) && SizeOk(d0, n) && Content(d, n) == Splice(Content(d0, n), off, bytes)
      ensures forall m :: 0 <= m < |d.inodes| && m != n ==> SizeOk(d, m) && SizeOk(d0, m) && Content(d, m) == Content(d0, m)
      ensures logged == old(logged) + {inodestart + n / IPB} && (Full(old(d)) ==> Full(d))
    {
      hide Inside, Addr, Used, Owned, BlockAddr, NoHole, Cell;
      ghost var size := Max(d0.inodes[n].size, off + |bytes|);
      WriteContent(d0, d, n, off, bytes);
      WriteNoHole(d0, d, n, off, bytes);
      forall m | 0 <= m < |d.inodes| && m != n
        ensures SizeOk(Resize(d, n, size), m) && SizeOk(d0, m) && Content(Resize(d, n, size), m) == Content(d0, m) && NoHole(Resize(d, n, size), m)
      {
        WriteOthers(d0, d, n, off, bytes, size, m);
      }
      ResizeOwned(d, meta, owner, n, size);
      ghost var e := Resize(d, n, size);
      if off + |bytes| > d.inodes[n].size {
        d := d.(inodes := d.inodes[n := d.inodes[n].(size := off + |bytes|)]);
      } else {
        assert d.inodes[n := d.inodes[n]] == d.inodes;
      }
      assert d == e;
      InsideInode(logged, Area(meta, |d.blocks|, |d.inodes|, bmapstart, inodestart), n);
      logged := logged + {inodestart + n / IPB};
    }

    /** A turn of the loop with its bookkeeping. */
    method WriteStep(ghost d0: Disk, ghost logged0: set<nat>, n: nat, off: nat, src: seq<Byte>, tot: nat,
                     ghost data: set<nat>, ghost bits: set<nat>, ghost turns: nat)
      returns (m: nat, ghost data': set<nat>, ghost bits': set<nat>)
      requires Valid() && n < |d.inodes| == |d0.inodes| && NoHoles(d0) && off <= d0.inodes[n].size
      requires tot < |src| && off + |src| <= MAXBYTES
      requires Changed(d0, d, n, off, src[..tot]) && MappedRange(d, n, off, off + tot)
      requires Tally(logged0, logged, data, bits, d0.inodes[n].Ind(), d.inodes[n].Ind(), turns, off % BSIZE != 0, Reaches(off, |src|))
      requires turns == 0 ==> tot == 0
      requires Covers(logged, d0, d, n, bmapstart) && Placed(d0, d, n, off, off + tot)
      requires 0 < turns ==> off + tot == (off / BSIZE + turns) * BSIZE && turns <= Span(off, |src|)
      modifies this
      ensures Valid() && |d.inodes| == |d0.inodes|
      ensures tot + m <= |src| && Changed(d0, d, n, off, src[..tot + m]) && MappedRange(d, n, off, off + tot + m)
      ensures m == 0 ==> Full(d)
      ensures var t := if m == 0 then turns else turns + 1;
        Tally(logged0, logged, data', bits', d0.inodes[n].Ind(), d.inodes[n].Ind(), t, off % BSIZE != 0, Reaches(off, |src|))
      ensures m > 0 && tot + m < |src| ==> off + tot + m == (off / BSIZE + turns + 1) * BSIZE
      ensures m > 0 ==> turns + 1 <= Span(off, |src|)
      ensures Covers(logged, d0, d, n, bmapstart) && Placed(d0, d, n, off, off + tot + m)
    {
      hide Inside, Placed, Covers, Addr, Used, Owned, Changed, BlockAddr, Full, Tally, NoHole, Cell, Reaches, TurnLogged, Span, MappedRange;
      ghost var more;
      m, more := WriteTurn(n, off + tot, src[tot..]);
      ghost var bn := (off + tot) / BSIZE;
      ghost var addr := BlockAddr(d, n, bn);
      ChangedThen(d0, old(d), d, n, off, src[..tot], src[tot..][..m]);
      CoversThen(old(logged), logged, d0, old(d), d, n, bmapstart);
      PlacedThen(d0, old(d), d, n, off, off + tot, off + tot + m);
      assert src[..tot] + src[tot..][..m] == src[..tot + m];
      MappedMore(old(d), d, n, off, tot, src[tot..][..m]);
      if turns == 0 && off % BSIZE != 0 {
        FirstMapped(d0, old(d), n, off, src[..tot]);
      }
      data', bits' := data + Some0(addr), bits + more;
      if m > 0 {
        TurnEnds(off, tot, |src|, turns, m);
      }
      TallyNext(logged0, old(logged), logged, data, bits, more, d0.inodes[n].Ind(), old(d).inodes[n].Ind(), d.inodes[n].Ind(),
        turns, off % BSIZE != 0, off, tot, |src|, addr, BlockAddr(old(d), n, bn) == 0 && addr != 0);
    }
  }

  /** The blocks that bytes off..off+len lie in. */
  function Span(off: nat, len: nat): nat {
    if len == 0 then 0 else (off + len - 1) / BSIZE - off / BSIZE + 1
  }

  /** Part of the range lies behind the direct blocks. */
  predicate Reaches(off: nat, len: nat) { off + len > NDIRECT * BSIZE }

  /** What one turn logs: free-map blocks, the data block and, behind the direct blocks
      only, the indirect block. */
  ghost predicate TurnLogged(logged: set<nat>, logged': set<nat>, more: set<nat>, addr: nat, ind: nat, ind': nat, bn: nat) {
    logged' <= logged + more + Some0(addr) + (if bn < NDIRECT then {} else Some0(ind')) && (ind != 0 || bn < NDIRECT ==> ind' == ind)
  }

  /** Where the loop stands after a turn of m bytes. */
  lemma TurnEnds(off: nat, tot: nat, len: nat, turns: nat, m: nat)
    requires tot < len && m == Min(len - tot, BSIZE - (off + tot) % BSIZE) && (turns == 0 ==> tot == 0)
    requires 0 < turns ==> off + tot == (off / BSIZE + turns) * BSIZE
    ensures tot + m < len ==> off + tot + m == (off / BSIZE + turns + 1) * BSIZE
    ensures turns + 1 <= Span(off, len)
  {
  }

  /** How many blocks a write of len bytes at off can log: its data blocks, a
      free-map block for each but a partly filled first one, the indirect block with
      its free-map block if it goes that far, and the inode. */
  function WriteBound(off: nat, len: nat): nat {
    if len == 0 then 1
    else 2 * Span(off, len) - (if off % BSIZE != 0 then 1 else 0) + (if Reaches(off, len) then 2 else 0) + 1
  }

  /** What has been logged after some turns. */
  ghost predicate Tally(logged0: set<nat>, logged: set<nat>, data: set<nat>, bits: set<nat>, ind0: nat, ind: nat, turns: nat, part: bool, far: bool) {
    logged <= logged0 + data + bits + (if far then Some0(ind) else {}) && |data| <= turns && (ind0 != 0 || !far ==> ind == ind0)
    && |bits| + (if turns > 0 && part then 1 else 0) <= turns + (if ind0 == 0 && ind != 0 then 1 else 0)
  }

  lemma TallyStart(logged: set<nat>, ind: nat, part: bool, far: bool)
    ensures Tally(logged, logged, {}, {}, ind, ind, 0, part, far)
  {
  }

  lemma TallyNext(logged0: set<nat>, logged: set<nat>, logged': set<nat>, data: set<nat>, bits: set<nat>, more: set<nat>,
                  ind0: nat, ind: nat, ind': nat, turns: nat, part: bool, off: nat, tot: nat, len: nat, addr: nat, isNew: bool)
    requires tot < len && Tally(logged0, logged, data, bits, ind0, ind, turns, part, Reaches(off, len))
    requires TurnLogged(logged, logged', more, addr, ind, ind', (off + tot) / BSIZE)
    requires |more| <= (if isNew then 1 else 0) + (if ind == 0 && ind' != 0 then 1 else 0)
    requires isNew ==> addr != 0
    requires addr != 0 && turns == 0 && part ==> !isNew
    ensures Tally(logged0, logged', data + Some0(addr), bits + more, ind0, ind', if addr == 0 then turns else turns + 1, part, Reaches(off, len))
  {
    SumCard(bits, more);
    SumCard(data, Some0(addr));
  }

  lemma SumCard<T>(a: set<T>, b: set<T>)
    ensures |a + b| <= |a| + |b|
  {
    assert |a + b| + |a * b| == |a| + |b|;
  }

  lemma TallyTotal(logged0: set<nat>, logged: set<nat>, data: set<nat>, bits: set<nat>, ind0: nat, ind: nat, turns: nat, off: nat, len: nat, inode: nat)
    requires Tally(logged0, logged, data, bits, ind0, ind, turns, off % BSIZE != 0, Reaches(off, len))
    requires turns <= Span(off, len) && (len == 0 ==> logged == logged0)
    ensures |logged + {inode} - logged0| <= WriteBound(off, len)
  {
    if len == 0 {
      Counting.SubsetSize(logged + {inode} - logged0, {inode});
    } else {
      var far := if Reaches(off, len) then Some0(ind) else {};
      SumCard(data, bits);
      SumCard(data + bits, far);
      SumCard(data + bits + far, {inode});
      Counting.SubsetSize(logged + {inode} - logged0, data + bits + far + {inode});
    }
  }

  function Min(a: nat, b: nat): nat { if a < b then a else b }

  lemma ChangedAddr(d: Disk, e: Disk, n: nat, off: nat, bytes: seq<Byte>, bn: nat)
    requires Changed(d, e, n, off, bytes) && IsFile(d, n, bn) && BlockAddr(d, n, bn) != 0
    ensures BlockAddr(e, n, bn) == BlockAddr(d, n, bn)
  {
    hide Addr, Cell;
  }

  function EmptyInode(): Inode { Inode(0, seq(NDIRECT + 1, _ => 0)) }

  lemma DirectOf(d: Disk, n: nat, i: nat)
    requires n < |d.inodes| && i < NDIRECT
    ensures Addr(d, Direct(n, i)) == d.inodes[n].addrs[i]
  {
  }

  lemma EntryOf(d: Disk, n: nat, j: nat)
    requires n < |d.inodes| && j < NINDIRECT && 0 < d.inodes[n].Ind() < |d.blocks|
    ensures Addr(d, Entry(n, j)) == Word(d.blocks[d.inodes[n].Ind()], j)
  {
  }

  /** The order in which itrunc visits the slots of a file. */
  function Rank(s: Slot): nat {
    match s
    case Direct(_, i) => i
    case Entry(_, j) => NDIRECT + j
    case Indirect(_) => MAXFILE
  }

  /** The free map after itrunc has visited the slots of file n of rank below p. */
  ghost predicate Freed(d0: Disk, bm: seq<bv8>, meta: nat, owner: map<nat, Slot>, n: nat, p: nat) {
    |bm| == |d0.bm| && |d0.blocks| <= 8 * |bm|
    && forall c :: 0 <= c < |d0.blocks| ==>
      (Used(bm, c) <==> c < meta || (c in owner && !(owner[c].inum == n && Rank(owner[c]) < p)))
  }

  lemma FreeNext(d0: Disk, bm: seq<bv8>, meta: nat, owner: map<nat, Slot>, s: Slot)
    requires Owned(d0, meta, owner) && IsSlot(d0, s) && Freed(d0, bm, meta, owner, s.inum, Rank(s))
    ensures Addr(d0, s) == 0 ==> Freed(d0, bm, meta, owner, s.inum, Rank(s) + 1)
    ensures Addr(d0, s) != 0 ==> Addr(d0, s) / 8 < |bm| && Used(bm, Addr(d0, s))
    ensures Addr(d0, s) != 0 ==> Freed(d0, ClearBit(bm, Addr(d0, s)), meta, owner, s.inum, Rank(s) + 1)
  {
    hide Addr, Used, ClearBit;
    var b := Addr(d0, s);
    if b != 0 {
      forall c | 0 <= c < |d0.blocks| ensures Used(ClearBit(bm, b), c) <==> c != b && Used(bm, c) {
        OneBit(bm, b, c);
      }
    }
    forall c | 0 <= c < |d0.blocks| && c in owner && owner[c].inum == s.inum && Rank(owner[c]) == Rank(s)
      ensures b != 0 && c == b
    {
      assert owner[c] == s;
    }
  }

  /** The blocks of the free map that hold the bits of inode n's blocks, of those in the
      first p slots and of all. */
  ghost function FreedMaps(owner: map<nat, Slot>, n: nat, p: nat, bmapstart: nat): set<nat> {
    set b | b in owner && owner[b].inum == n && Rank(owner[b]) < p :: bmapstart + b / BPB
  }

  ghost function MapsOf(owner: map<nat, Slot>, n: nat, bmapstart: nat): set<nat> {
    set b | b in owner && owner[b].inum == n :: bmapstart + b / BPB
  }

  lemma FreedMapsNone(owner: map<nat, Slot>, n: nat, bmapstart: nat)
    ensures FreedMaps(owner, n, 0, bmapstart) == {}
  {
  }

  lemma FreedMapsNext(d0: Disk, meta: nat, owner: map<nat, Slot>, s: Slot, bmapstart: nat)
    requires Owned(d0, meta, owner) && IsSlot(d0, s)
    ensures FreedMaps(owner, s.inum, Rank(s) + 1, bmapstart)
      == FreedMaps(owner, s.inum, Rank(s), bmapstart) + if Addr(d0, s) == 0 then {} else {bmapstart + Addr(d0, s) / BPB}
  {
    hide Addr, Used;
    var p, b0 := Rank(s), Addr(d0, s);
    forall b | b in owner && owner[b].inum == s.inum && Rank(owner[b]) == p ensures owner[b] == s && b == b0 {
      RankOne(d0, owner[b], s);
    }
  }

  lemma RankOne(d: Disk, s: Slot, t: Slot)
    requires IsSlot(d, s) && IsSlot(d, t) && s.inum == t.inum && Rank(s) == Rank(t)
    ensures s == t
  {
  }

  lemma MapsAll(d0: Disk, meta: nat, owner: map<nat, Slot>, n: nat, bmapstart: nat)
    requires Owned(d0, meta, owner)
    ensures FreedMaps(owner, n, MAXFILE + 1, bmapstart) == MapsOf(owner, n, bmapstart)
  {
    hide Addr, Used;
    forall b | b in owner ensures Rank(owner[b]) < MAXFILE + 1 {
      assert IsSlot(d0, owner[b]);
    }
  }

  lemma MapsEntries(d0: Disk, meta: nat, owner: map<nat, Slot>, n: nat, bmapstart: nat)
    requires Owned(d0, meta, owner) && n < |d0.inodes| && d0.inodes[n].Ind() == 0
    ensures FreedMaps(owner, n, MAXFILE + 1, bmapstart) == FreedMaps(owner, n, NDIRECT, bmapstart)
  {
    hide Used;
    forall c | c in owner && owner[c].inum == n ensures owner[c].Direct? && Rank(owner[c]) < NDIRECT {
      assert Addr(d0, owner[c]) == c;
    }
  }

  lemma InsideMaps(d: Disk, meta: nat, owner: map<nat, Slot>, logged: set<nat>, a: Area, n: nat)
    requires Owned(d, meta, owner) && Inside(logged, a) && a.size == |d.blocks| && n < a.inodes
    ensures Inside(logged + MapsOf(owner, n, a.bmapstart) + {a.inodestart + n / IPB}, a)
  {
    forall b | b in owner ensures Loggable(a.bmapstart + b / BPB, a) {
      assert b / BPB * BPB <= b;
    }
    InsideInode(logged + MapsOf(owner, n, a.bmapstart), a, n);
  }

  /** What itrunc logs beside the inode's block fits into the blocks of the free map. */
  lemma MapsBound(d: Disk, meta: nat, owner: map<nat, Slot>, n: nat, bmapstart: nat)
    requires Owned(d, meta, owner)
    ensures |MapsOf(owner, n, bmapstart)| <= (|d.blocks| + BPB - 1) / BPB
  {
    hide Addr, Used;
    var all := Counting.Range(bmapstart, (|d.blocks| + BPB - 1) / BPB);
    forall b | b in owner ensures bmapstart + b / BPB in all {
      assert b / BPB < (|d.blocks| + BPB - 1) / BPB;
    }
    Counting.SubsetSize(MapsOf(owner, n, bmapstart), all);
  }

  /** The transaction of iput and itrunc stays within its reservation exactly if the bits of
      the file's blocks lie in fewer than MAXOPBLOCKS blocks of the free map, as on every
      disk with so few of them. */
  lemma TruncFits(d: Disk, meta: nat, owner: map<nat, Slot>, n: nat, bmapstart: nat, inode: nat)
    requires Owned(d, meta, owner) && inode !in MapsOf(owner, n, bmapstart)
    ensures |MapsOf(owner, n, bmapstart) + {inode}| <= MAXOPBLOCKS <==> |MapsOf(owner, n, bmapstart)| < MAXOPBLOCKS
    ensures |d.blocks| <= (MAXOPBLOCKS - 1) * BPB ==> |MapsOf(owner, n, bmapstart) + {inode}| <= MAXOPBLOCKS
  {
    MapsBound(d, meta, owner, n, bmapstart);
    assert |MapsOf(owner, n, bmapstart) + {inode}| == |MapsOf(owner, n, bmapstart)| + 1;
  }

  lemma FreedNone(d: Disk, meta: nat, owner: map<nat, Slot>, n: nat)
    requires Owned(d, meta, owner)
    ensures Freed(d, d.bm, meta, owner, n, 0)
  {
    hide Addr, Used;
  }

  /** Without an indirect block there is nothing behind the direct slots. */
  lemma FreedEntries(d0: Disk, bm: seq<bv8>, meta: nat, owner: map<nat, Slot>, n: nat)
    requires Owned(d0, meta, owner) && n < |d0.inodes| && d0.inodes[n].Ind() == 0
    requires Freed(d0, bm, meta, owner, n, NDIRECT)
    ensures Freed(d0, bm, meta, owner, n, MAXFILE + 1)
  {
    hide Used;
    forall c | c in owner && owner[c].inum == n ensures owner[c].Direct? {
      assert Addr(d0, owner[c]) == c;
    }
  }

  lemma TruncOwned(d0: Disk, meta: nat, owner: map<nat, Slot>, n: nat, bm: seq<bv8>)
    requires Owned(d0, meta, owner) && n < |d0.inodes| && Freed(d0, bm, meta, owner, n, MAXFILE + 1)
    ensures Owned(d0.(bm := bm, inodes := d0.inodes[n := EmptyInode()]), meta, map b | b in owner && owner[b].inum != n :: owner[b])
  {
    hide Used, Word;
    var e := d0.(bm := bm, inodes := d0.inodes[n := EmptyInode()]);
    forall s | IsSlot(e, s) ensures IsSlot(d0, s) && Addr(e, s) == if s.inum == n then 0 else Addr(d0, s) {
    }
    forall c | c in owner && owner[c].inum == n ensures Rank(owner[c]) < MAXFILE + 1 {
      assert IsSlot(d0, owner[c]);
    }
  }

  lemma GrownSelf(d: Disk, n: nat, bn: nat)
    requires IsFile(d, n, bn)
    ensures Grown(d, d, n, bn)
  {
    assert forall m, k :: IsFile(d, m, k) ==> BlockKept(d, d, m, k);
  }

  function Some0(b: nat): set<nat> { if b == 0 then {} else {b} }

  /** How many free-map blocks bmap can log: one per block that appeared. */
  function NewBits(d: Disk, e: Disk, n: nat, bn: nat): nat
    requires IsFile(d, n, bn) && IsFile(e, n, bn)
  {
    (if BlockAddr(d, n, bn) == 0 && BlockAddr(e, n, bn) != 0 then 1 else 0)
    + (if d.inodes[n].Ind() == 0 && e.inodes[n].Ind() != 0 then 1 else 0)
  }

  // ----- the bytes of a file -----

  const MAXBYTES: nat := 274432  // MAXFILE * BSIZE

  /** Byte k of file n; a block that is not there reads as zeros. */
  ghost function Cell(d: Disk, n: nat, k: nat): Byte
    requires n < |d.inodes| && k < MAXBYTES
  {
    var b := BlockAddr(d, n, k / BSIZE);
    if 0 < b < |d.blocks| then d.blocks[b][k % BSIZE] else 0
  }

  ghost predicate SizeOk(d: Disk, n: nat) { n < |d.inodes| && d.inodes[n].size <= MAXBYTES }

  lemma SliceNext(c: seq<Byte>, a: nat, b: nat, m: nat)
    requires a <= b <= b + m <= |c|
    ensures c[a..b] + c[b..b + m] == c[a..b + m]
  {
  }

  /** The file as a flat sequence of bytes. */
  ghost function Content(d: Disk, n: nat): (c: seq<Byte>)
    requires SizeOk(d, n)
    ensures |c| == d.inodes[n].size && forall k :: 0 <= k < |c| ==> c[k] == Cell(d, n, k)
  {
    seq(d.inodes[n].size, k requires 0 <= k < d.inodes[n].size => Cell(d, n, k))
  }

  /** Every block that the size covers is there. */
  ghost predicate NoHole(d: Disk, n: nat) {
    SizeOk(d, n) && forall bn :: 0 <= bn && bn * BSIZE < d.inodes[n].size ==> BlockAddr(d, n, bn) != 0
  }

  /** e is d with the bytes of file n from off on replaced by `bytes`; blocks may
      appear in file n, and nothing else changes. Sizes are not updated yet. */
  ghost predicate Changed(d: Disk, e: Disk, n: nat, off: nat, bytes: seq<Byte>) {
    |e.inodes| == |d.inodes|
    && (forall m :: 0 <= m < |d.inodes| ==> e.inodes[m].size == d.inodes[m].size)
    && (forall m, k :: 0 <= m < |d.inodes| && 0 <= k < MAXBYTES ==>
          Cell(e, m, k) == if m == n && off <= k < off + |bytes| then bytes[k - off] else Cell(d, m, k))
    && (forall m, bn :: IsFile(d, m, bn) && (m != n || BlockAddr(d, m, bn) != 0) ==> BlockAddr(e, m, bn) == BlockAddr(d, m, bn))
  }

  /** File n keeps its blocks and gets new ones only where bytes lo..hi lie. */
  ghost predicate Placed(d: Disk, e: Disk, n: nat, lo: nat, hi: nat) {
    n < |d.inodes| == |e.inodes|
    && forall bn: nat :: IsFile(d, n, bn) ==>
      BlockAddr(e, n, bn) == BlockAddr(d, n, bn) || (BlockAddr(d, n, bn) == 0 && lo < (bn + 1) * BSIZE && bn * BSIZE < hi)
  }

  lemma PlacedSelf(d: Disk, n: nat, off: nat)
    requires n < |d.inodes|
    ensures Placed(d, d, n, off, off)
  {
    hide BlockAddr;
  }

  lemma PlacedThen(d: Disk, e: Disk, f: Disk, n: nat, lo: nat, mid: nat, hi: nat)
    requires Placed(d, e, n, lo, mid) && Placed(e, f, n, mid, hi) && lo <= mid <= hi
    ensures Placed(d, f, n, lo, hi)
  {
    hide BlockAddr;
    forall bn: nat | IsFile(d, n, bn)
      ensures BlockAddr(f, n, bn) == BlockAddr(d, n, bn) || (BlockAddr(d, n, bn) == 0 && lo < (bn + 1) * BSIZE && bn * BSIZE < hi)
    {
      assert IsFile(e, n, bn);
    }
  }

  lemma GrownPlaced(d: Disk, e: Disk, n: nat, off: nat, m: nat)
    requires IsFile(d, n, off / BSIZE) && Grown(d, e, n, off / BSIZE) && (m == 0 ==> BlockAddr(e, n, off / BSIZE) == 0)
    ensures Placed(d, e, n, off, off + m)
  {
    hide BlockAddr;
    forall bn: nat | IsFile(d, n, bn)
      ensures BlockAddr(e, n, bn) == BlockAddr(d, n, bn) || (BlockAddr(d, n, bn) == 0 && off < (bn + 1) * BSIZE && bn * BSIZE < off + m)
    {
      assert BlockKept(d, e, n, bn) || (bn == off / BSIZE && BlockFresh(d, e, n, bn));
    }
  }

  lemma PatchPlaced(d: Disk, e: Disk, meta: nat, owner: map<nat, Slot>, n: nat, off: nat, bytes: seq<Byte>)
    requires Owned(e, meta, owner) && Placed(d, e, n, off, off + |bytes|) && off < MAXBYTES && off % BSIZE + |bytes| <= BSIZE
    requires BlockAddr(e, n, off / BSIZE) != 0
    ensures BlockAddr(e, n, off / BSIZE) < |e.blocks|
    ensures Placed(d, PatchDisk(e, BlockAddr(e, n, off / BSIZE), off % BSIZE, bytes), n, off, off + |bytes|)
  {
    hide Addr, Owned, Patch;
    PatchAddr(e, meta, owner, n, off / BSIZE, off % BSIZE, bytes, DataSlot(n, off / BSIZE));
    forall bn: nat | IsFile(d, n, bn)
      ensures BlockAddr(PatchDisk(e, BlockAddr(e, n, off / BSIZE), off % BSIZE, bytes), n, bn) == BlockAddr(e, n, bn)
    {
      PatchAddr(e, meta, owner, n, off / BSIZE, off % BSIZE, bytes, DataSlot(n, bn));
    }
  }

  lemma ResizePlaced(d: Disk, e: Disk, n: nat, lo: nat, hi: nat, size: nat)
    requires Placed(d, e, n, lo, hi)
    ensures Placed(d, Resize(e, n, size), n, lo, hi)
  {
    hide Addr;
    forall bn: nat | IsFile(d, n, bn) ensures BlockAddr(Resize(e, n, size), n, bn) == BlockAddr(e, n, bn) {
      ResizeAddr(e, n, size, DataSlot(n, bn));
    }
  }

  lemma GrownChanges(d: Disk, e: Disk, n: nat, bn: nat, off: nat)
    requires IsFile(d, n, bn) && Grown(d, e, n, bn)
    ensures Changed(d, e, n, off, [])
  {
    hide Addr, BlockAddr;
    forall m, k | 0 <= m < |d.inodes| && 0 <= k < MAXBYTES ensures Cell(e, m, k) == Cell(d, m, k) {
      assert IsFile(d, m, k / BSIZE);
    }
  }

  lemma ChangedThen(d: Disk, e: Disk, f: Disk, n: nat, off: nat, a: seq<Byte>, b: seq<Byte>)
    requires Changed(d, e, n, off, a) && Changed(e, f, n, off + |a|, b)
    ensures Changed(d, f, n, off, a + b)
  {
    hide Cell, BlockAddr;
  }

  /** Overwrite part of a block. */
  function Patch(b: Block, o: nat, bytes: seq<Byte>): (r: Block)
    requires o + |bytes| <= BSIZE
    ensures forall i :: 0 <= i < BSIZE ==> r[i] == if o <= i < o + |bytes| then bytes[i - o] else b[i]
  {
    b[..o] + bytes + b[o + |bytes|..]
  }

  function PatchDisk(d: Disk, b: nat, o: nat, bytes: seq<Byte>): Disk
    requires b < |d.blocks| && o + |bytes| <= BSIZE
  {
    d.(blocks := d.blocks[b := Patch(d.blocks[b], o, bytes)])
  }

  /** Patching a data block leaves every block number in place. */
  lemma PatchAddr(d: Disk, meta: nat, owner: map<nat, Slot>, n: nat, bn: nat, o: nat, bytes: seq<Byte>, s: Slot)
    requires Owned(d, meta, owner) && IsFile(d, n, bn) && BlockAddr(d, n, bn) != 0 && o + |bytes| <= BSIZE && IsSlot(d, s)
    ensures BlockAddr(d, n, bn) < |d.blocks|
    ensures Addr(PatchDisk(d, BlockAddr(d, n, bn), o, bytes), s) == Addr(d, s)
  {
    hide Word, Used;
    DataApart(d, meta, owner, n, bn, Indirect(s.inum));
  }

  lemma PatchOwned(d: Disk, meta: nat, owner: map<nat, Slot>, n: nat, bn: nat, o: nat, bytes: seq<Byte>)
    requires Owned(d, meta, owner) && IsFile(d, n, bn) && BlockAddr(d, n, bn) != 0 && o + |bytes| <= BSIZE
    ensures BlockAddr(d, n, bn) < |d.blocks| && Owned(PatchDisk(d, BlockAddr(d, n, bn), o, bytes), meta, owner)
  {
    hide Addr, Used, Patch;
    DataApart(d, meta, owner, n, bn, Indirect(n));
    var e := PatchDisk(d, BlockAddr(d, n, bn), o, bytes);
    forall s | IsSlot(d, s) ensures IsSlot(e, s) && Addr(e, s) == Addr(d, s) {
      PatchAddr(d, meta, owner, n, bn, o, bytes, s);
    }
  }

  lemma PatchCell(d: Disk, meta: nat, owner: map<nat, Slot>, n: nat, off: nat, bytes: seq<Byte>, m: nat, k: nat)
    requires Owned(d, meta, owner) && n < |d.inodes| && off < MAXBYTES && off % BSIZE + |bytes| <= BSIZE
    requires BlockAddr(d, n, off / BSIZE) != 0 && m < |d.inodes| && k < MAXBYTES
    ensures BlockAddr(d, n, off / BSIZE) < |d.blocks|
    ensures Cell(PatchDisk(d, BlockAddr(d, n, off / BSIZE), off % BSIZE, bytes), m, k)
         == if m == n && off <= k < off + |bytes| then bytes[k - off] else Cell(d, m, k)
  {
    hide Addr, Used;
    DataApart(d, meta, owner, n, off / BSIZE, DataSlot(m, k / BSIZE));
    PatchAddr(d, meta, owner, n, off / BSIZE, off % BSIZE, bytes, DataSlot(m, k / BSIZE));
  }

  lemma PatchChanges(d: Disk, meta: nat, owner: map<nat, Slot>, n: nat, off: nat, bytes: seq<Byte>)
    requires Owned(d, meta, owner) && n < |d.inodes| && off < MAXBYTES && off % BSIZE + |bytes| <= BSIZE
    requires BlockAddr(d, n, off / BSIZE) != 0
    ensures BlockAddr(d, n, off / BSIZE) < |d.blocks|
    ensures Changed(d, PatchDisk(d, BlockAddr(d, n, off / BSIZE), off % BSIZE, bytes), n, off, bytes)
  {
    hide Addr, Used, Cell, Patch, Owned;
    PatchCell(d, meta, owner, n, off, bytes, n, off);
    var e := PatchDisk(d, BlockAddr(d, n, off / BSIZE), off % BSIZE, bytes);
    forall m, k | 0 <= m < |d.inodes| && 0 <= k < MAXBYTES
      ensures Cell(e, m, k) == if m == n && off <= k < off + |bytes| then bytes[k - off] else Cell(d, m, k)
    {
      PatchCell(d, meta, owner, n, off, bytes, m, k);
    }
    forall m, bn | IsFile(d, m, bn) ensures BlockAddr(e, m, bn) == BlockAddr(d, m, bn) {
      PatchAddr(d, meta, owner, n, off / BSIZE, off % BSIZE, bytes, DataSlot(m, bn));
    }
  }

  // ----- growing the size at the end of a write -----

  ghost predicate NoHoles(d: Disk) { forall m :: 0 <= m < |d.inodes| ==> NoHole(d, m) }

  function Resize(d: Disk, n: nat, size: nat): Disk
    requires n < |d.inodes|
  {
    d.(inodes := d.inodes[n := d.inodes[n].(size := size)])
  }

  lemma ResizeAddr(d: Disk, n: nat, size: nat, s: Slot)
    requires n < |d.inodes| && IsSlot(d, s)
    ensures IsSlot(Resize(d, n, size), s) && Addr(Resize(d, n, size), s) == Addr(d, s)
  {
  }

  lemma ResizeOwned(d: Disk, meta: nat, owner: map<nat, Slot>, n: nat, size: nat)
    requires Owned(d, meta, owner) && n < |d.inodes|
    ensures Owned(Resize(d, n, size), meta, owner)
  {
    hide Addr, Used;
    var e := Resize(d, n, size);
    forall s | IsSlot(d, s) ensures Addr(e, s) == Addr(d, s) { ResizeAddr(d, n, size, s); }
    assert forall s :: IsSlot(e, s) <==> IsSlot(d, s);
  }

  lemma ResizeCell(d: Disk, n: nat, size: nat, m: nat, k: nat)
    requires n < |d.inodes| && m < |d.inodes| && k < MAXBYTES
    ensures Cell(Resize(d, n, size), m, k) == Cell(d, m, k)
    ensures BlockAddr(Resize(d, n, size), m, k / BSIZE) == BlockAddr(d, m, k / BSIZE)
  {
    hide Addr;
    ResizeAddr(d, n, size, DataSlot(m, k / BSIZE));
  }

  function Splice(s: seq<Byte>, off: nat, bytes: seq<Byte>): (r: seq<Byte>)
    requires off <= |s|
  {
    s[..off] + bytes + (if off + |bytes| < |s| then s[off + |bytes|..] else [])
  }

  ghost predicate MappedRange(d: Disk, n: nat, lo: nat, hi: nat) {
    n < |d.inodes| && hi <= MAXBYTES && forall k :: lo <= k < hi ==> BlockAddr(d, n, k / BSIZE) != 0
  }

  function Max(a: nat, b: nat): nat { if a < b then b else a }

  /** The flat file after a write: the bytes are replaced, the size grows to cover
      them, and no hole appears. */
  lemma WriteContent(d0: Disk, d: Disk, n: nat, off: nat, bytes: seq<Byte>)
    requires NoHoles(d0) && n < |d0.inodes| && off <= d0.inodes[n].size && off + |bytes| <= MAXBYTES
    requires Changed(d0, d, n, off, bytes)
    ensures var e := Resize(d, n, Max(d0.inodes[n].size, off + |bytes|));
      SizeOk(e, n) && SizeOk(d0, n) && Content(e, n) == Splice(Content(d0, n), off, bytes)
  {
    hide Cell, BlockAddr;
    assert NoHole(d0, n);
    var e := Resize(d, n, Max(d0.inodes[n].size, off + |bytes|));
    var t := Splice(Content(d0, n), off, bytes);
    forall k | 0 <= k < |t| ensures Content(e, n)[k] == t[k] {
      ResizeCell(d, n, Max(d0.inodes[n].size, off + |bytes|), n, k);
      assert Cell(d, n, k) == if off <= k < off + |bytes| then bytes[k - off] else Cell(d0, n, k);
    }
  }

  /** Every other file reads as before. */
  lemma WriteOthers(d0: Disk, d: Disk, n: nat, off: nat, bytes: seq<Byte>, size: nat, m: nat)
    requires NoHoles(d0) && n < |d0.inodes| && m < |d0.inodes| && m != n
    requires Changed(d0, d, n, off, bytes)
    ensures var e := Resize(d, n, size);
      SizeOk(e, m) && SizeOk(d0, m) && Content(e, m) == Content(d0, m) && NoHole(e, m)
  {
    hide Cell, BlockAddr;
    assert NoHole(d0, m);
    var e := Resize(d, n, size);
    forall k | 0 <= k < d0.inodes[m].size ensures Cell(e, m, k) == Cell(d0, m, k) {
      ResizeCell(d, n, size, m, k);
    }
    forall bn | 0 <= bn && bn * BSIZE < e.inodes[m].size ensures BlockAddr(e, m, bn) != 0 {
      ResizeCell(d, n, size, m, bn * BSIZE);
      assert IsFile(d0, m, bn) && BlockAddr(d, m, bn) == BlockAddr(d0, m, bn);
    }
  }

  lemma WriteNoHole(d0: Disk, d: Disk, n: nat, off: nat, bytes: seq<Byte>)
    requires NoHoles(d0) && n < |d0.inodes| && off <= d0.inodes[n].size && off + |bytes| <= MAXBYTES
    requires Changed(d0, d, n, off, bytes) && MappedRange(d, n, off, off + |bytes|)
    ensures NoHole(Resize(d, n, Max(d0.inodes[n].size, off + |bytes|)), n)
  {
    hide Cell, BlockAddr;
    assert NoHole(d0, n);
    var size := Max(d0.inodes[n].size, off + |bytes|);
    var e := Resize(d, n, size);
    forall bn | 0 <= bn && bn * BSIZE < size ensures BlockAddr(e, n, bn) != 0 {
      ResizeCell(d, n, size, n, bn * BSIZE);
      if bn * BSIZE < d0.inodes[n].size {
        assert BlockAddr(d, n, bn) == BlockAddr(d0, n, bn);
      } else {
        assert off <= bn * BSIZE < off + |bytes|;
        assert BlockAddr(d, n, bn * BSIZE / BSIZE) != 0;
      }
    }
  }

  lemma ChangedSelf(d: Disk, n: nat, off: nat)
    ensures Changed(d, d, n, off, [])
  {
    hide Cell, BlockAddr;
  }

  lemma MappedMore(d: Disk, e: Disk, n: nat, off: nat, tot: nat, bytes: seq<Byte>)
    requires MappedRange(d, n, off, off + tot) && Changed(d, e, n, off + tot, bytes) && off + tot + |bytes| <= MAXBYTES
    requires (off + tot) % BSIZE + |bytes| <= BSIZE && (bytes != [] ==> BlockAddr(e, n, (off + tot) / BSIZE) != 0)
    ensures MappedRange(e, n, off, off + tot + |bytes|)
  {
    hide Addr, Cell, BlockAddr;
    forall k | off <= k < off + tot + |bytes| ensures BlockAddr(e, n, k / BSIZE) != 0 {
      if k < off + tot {
        assert IsFile(d, n, k / BSIZE);
      } else {
        assert k / BSIZE == (off + tot) / BSIZE;
      }
    }
  }

  /** A write that starts inside a block finds that block in place. */
  lemma FirstMapped(d0: Disk, d: Disk, n: nat, off: nat, bytes: seq<Byte>)
    requires NoHoles(d0) && n < |d0.inodes| && off <= d0.inodes[n].size && off % BSIZE != 0 && off < MAXBYTES
    requires Changed(d0, d, n, off, bytes)
    ensures BlockAddr(d, n, off / BSIZE) != 0
  {
    hide Addr, Cell, BlockAddr;
    assert NoHole(d0, n);
    assert off / BSIZE * BSIZE < d0.inodes[n].size;
    assert IsFile(d0, n, off / BSIZE);
  }

  lemma CoveredBlock(d: Disk, n: nat, k: nat)
    requires NoHole(d, n) && k < d.inodes[n].size
    ensures IsFile(d, n, k / BSIZE) && BlockAddr(d, n, k / BSIZE) != 0
  {
    hide Addr;
    assert k / BSIZE * BSIZE < d.inodes[n].size;
  }

  lemma BlockSlice(d: Disk, n: nat, k: nat, m: nat)
    requires SizeOk(d, n) && k + m <= d.inodes[n].size && 0 < m <= BSIZE - k % BSIZE
    requires 0 < BlockAddr(d, n, k / BSIZE) < |d.blocks|
    ensures d.blocks[BlockAddr(d, n, k / BSIZE)][k % BSIZE..k % BSIZE + m] == Content(d, n)[k..k + m]
  {
    hide Addr, BlockAddr;
    var b := d.blocks[BlockAddr(d, n, k / BSIZE)];
    forall j | k <= j < k + m ensures Cell(d, n, j) == b[k % BSIZE + (j - k)] {
      SameBlock(k, j);
    }
  }

  lemma SameBlock(k: nat, j: nat)
    requires k <= j < k + (BSIZE - k % BSIZE)
    ensures j / BSIZE == k / BSIZE && j % BSIZE == k % BSIZE + (j - k)
  {
  }
}
