/** The bounds on what a write logs are met: by a full chunk that starts in the last direct
    block of a file, and, one above MAXOPBLOCKS, by one byte more than a chunk. Each needs
    a disk whose last free blocks lie in different blocks of the free map. */
module Worst {
  import opened Param
  import opened Fs
  import opened File
  import Counting

  /** A chunk of CHUNK bytes, or a longer one, with the disk made for it. */
  datatype Scene = Exact | Longer {
    function Off(): nat { if Exact? then 11776 else 9216 }   // NDIRECT * BSIZE - 512, 9 * BSIZE
    function Len(): nat { if Exact? then CHUNK else CHUNK + 1 }
    function Have(): nat { if Exact? then NDIRECT else 9 }    // blocks the file has
    function Top(): nat { if Exact? then 24577 else 32769 }  // blocks on the disk
    function First(): nat { 8191 - Have() }                  // first data block
    function Map(): nat { First() - 5 }                      // first block of the free map
    function Files(): nat { (Map() - INODES) * IPB }         // inodes, in the blocks before
  }

  const INODES: nat := 32   // first inode block, behind boot block, superblock and log

  /** The free blocks: one in each block of the free map. */
  predicate Spare(sc: Scene, b: nat) {
    b == 8191 || b == 16383 || b == 16384 || b == 24576 || (sc.Longer? && b == 32768)
  }

  predicate Held(sc: Scene, b: nat) { sc.First() <= b < sc.Top() && !Spare(sc, b) }

  /** Direct block i of file m. File 0 is the one written to; the others fill the disk. */
  function BlockOf(sc: Scene, m: nat, i: nat): nat {
    if i >= NDIRECT then 0
    else if m == 0 then (if i < sc.Have() then sc.First() + i else 0)
    else if m < 684 then (if 8180 + 12 * m + i < 16383 then 8180 + 12 * m + i else 0)
    else if m < 1367 then (if 8177 + 12 * m + i < 24576 then 8177 + 12 * m + i else 0)
    else (if sc.Longer? && 8173 + 12 * m + i < 32768 then 8173 + 12 * m + i else 0)
  }

  function SlotOf(sc: Scene, b: nat): (s: Slot)
    requires Held(sc, b)
    ensures s.Direct?
  {
    if b < 8191 then Direct(0, b - sc.First())
    else if b < 16383 then Direct((b - 8180) / 12, (b - 8180) % 12)
    else if b < 24576 then Direct((b - 8177) / 12, (b - 8177) % 12)
    else Direct((b - 8173) / 12, (b - 8173) % 12)
  }

  lemma SlotBlock(sc: Scene, m: nat, i: nat)
    requires i < NDIRECT && BlockOf(sc, m, i) != 0
    ensures Held(sc, BlockOf(sc, m, i)) && SlotOf(sc, BlockOf(sc, m, i)) == Direct(m, i)
  {
  }

  lemma BlockSlot(sc: Scene, b: nat)
    requires Held(sc, b)
    ensures var s := SlotOf(sc, b); s.inum < sc.Files() && s.i < NDIRECT && BlockOf(sc, s.inum, s.i) == b
  {
  }

  function FileOf(sc: Scene, m: nat): Inode {
    Inode(if m == 0 then sc.Off() else 0, seq(NDIRECT + 1, i requires 0 <= i <= NDIRECT => BlockOf(sc, m, i)))
  }

  function Ones(): seq<bv8> { seq(4097, _ => 255) }

  function FreeMap(sc: Scene): (bm: seq<bv8>)
    ensures |bm| == 4097
  {
    var bm := ClearBit(ClearBit(ClearBit(ClearBit(Ones(), 8191), 16383), 16384), 24576);
    if sc.Longer? then ClearBit(bm, 32768) else bm
  }

  function Stale(): Block { seq(BSIZE, _ => 7) }

  function Image(sc: Scene): (d: Disk)
    ensures |d.blocks| == sc.Top() && |d.inodes| == sc.Files() && d.bm == FreeMap(sc)
    ensures forall b :: 0 <= b < sc.Top() ==> d.blocks[b] == if Spare(sc, b) then Stale() else Zero()
    ensures forall m :: 0 <= m < sc.Files() ==> d.inodes[m] == FileOf(sc, m)
  {
    Disk(FreeMap(sc), seq(sc.Top(), b => if b >= 0 && Spare(sc, b) then Stale() else Zero()),
         seq(sc.Files(), m requires 0 <= m < sc.Files() => FileOf(sc, m)))
  }

  ghost function Owners(sc: Scene): map<nat, Slot> { map b: nat | sc.First() <= b < sc.Top() && !Spare(sc, b) :: SlotOf(sc, b) }

  lemma MapUsed(sc: Scene, b: nat)
    requires b < sc.Top()
    ensures Used(FreeMap(sc), b) <==> !Spare(sc, b)
  {
    assert Used(Ones(), b) by { AllBits(b % 8); }
    hide Used, ClearBit;
    var m1 := ClearBit(Ones(), 8191);
    var m2 := ClearBit(m1, 16383);
    var m3 := ClearBit(m2, 16384);
    var m4 := ClearBit(m3, 24576);
    OneBit(Ones(), 8191, b);
    OneBit(m1, 16383, b);
    OneBit(m2, 16384, b);
    OneBit(m3, 24576, b);
    OneBit(m4, 32768, b);
  }

  lemma AllBits(i: nat)
    requires i < 8
    ensures Bit(255, i)
  {
  }

  lemma ImageAddr(sc: Scene, s: Slot)
    requires IsSlot(Image(sc), s)
    ensures Addr(Image(sc), s) == if s.Direct? then BlockOf(sc, s.inum, s.i) else 0
  {
    hide Image, BlockOf;
    assert Image(sc).inodes[s.inum] == FileOf(sc, s.inum);
    assert FileOf(sc, s.inum).Ind() == 0 by { NoInd(sc, s.inum); }
  }

  lemma NoInd(sc: Scene, m: nat)
    ensures BlockOf(sc, m, NDIRECT) == 0
  {
  }

  lemma ImageOwned(sc: Scene)
    ensures Owned(Image(sc), sc.First(), Owners(sc))
  {
    hide Image, Addr, Used, FreeMap, BlockOf, SlotOf, Spare;
    var d, ow := Image(sc), Owners(sc);
    forall s | IsSlot(d, s) && Addr(d, s) != 0 ensures Addr(d, s) in ow && ow[Addr(d, s)] == s {
      ImageAddr(sc, s);
      SlotBlock(sc, s.inum, s.i);
    }
    forall b | b in ow ensures sc.First() <= b < |d.blocks| && IsSlot(d, ow[b]) && Addr(d, ow[b]) == b {
      BlockSlot(sc, b);
      ImageAddr(sc, ow[b]);
    }
    forall b | 0 <= b < |d.blocks| ensures Used(d.bm, b) <==> b < sc.First() || b in ow {
      MapUsed(sc, b);
      SpareHigh(sc, b);
    }
  }

  lemma SpareHigh(sc: Scene, b: nat)
    ensures Spare(sc, b) ==> sc.First() <= b
  {
  }

  lemma ImageNoHoles(sc: Scene)
    ensures NoHoles(Image(sc))
  {
    hide Image, Addr;
    var d := Image(sc);
    forall m | 0 <= m < |d.inodes| ensures NoHole(d, m) {
      assert d.inodes[m] == FileOf(sc, m);
      forall bn | 0 <= bn && bn * BSIZE < d.inodes[m].size ensures BlockAddr(d, m, bn) != 0 {
        ImageAddr(sc, Direct(0, bn));
      }
    }
  }

  // ----- after the write -----

  function Data(sc: Scene): seq<Byte> { seq(sc.Len(), _ => 1) }

  /** What Writei promises of the disk it leaves behind, after r bytes. */
  ghost predicate Written(sc: Scene, e: Disk, owner: map<nat, Slot>, logged: set<nat>, r: nat) {
    Owned(e, sc.First(), owner) && NoHoles(e) && r <= sc.Len() && (r < sc.Len() ==> Full(e) && (r == 0 || (sc.Off() + r) % BSIZE == 0))
    && Covers(logged, Image(sc), e, 0, sc.Map()) && INODES in logged && Placed(Image(sc), e, 0, sc.Off(), sc.Off() + r)
    && SizeOk(e, 0) && SizeOk(Image(sc), 0) && sc.Off() <= |Content(Image(sc), 0)|
    && Content(e, 0) == Splice(Content(Image(sc), 0), sc.Off(), Data(sc)[..r])
  }

  /** The blocks that were taken still are, by the slots that had them. */
  lemma StillHeld(sc: Scene, e: Disk, owner: map<nat, Slot>, logged: set<nat>, r: nat, m: nat, i: nat)
    requires Written(sc, e, owner, logged, r) && m < sc.Files() && i < NDIRECT
    ensures |e.inodes| == sc.Files() && (m > 0 || i < sc.Have() ==> Addr(e, Direct(m, i)) == BlockOf(sc, m, i))
    ensures m > 0 ==> e.inodes[m].Ind() == 0
  {
    hide Image, Owned, NoHoles, Full, Content, Splice;
    assert Image(sc).inodes[m] == FileOf(sc, m);
    NoInd(sc, m);
    if m == 0 && i < sc.Have() {
      ImageAddr(sc, Direct(0, i));
      assert IsFile(Image(sc), 0, i);
    }
  }

  /** A slot of the file that was empty before. */
  predicate NewSlot(sc: Scene, s: Slot) { s.inum == 0 && (s.Direct? ==> sc.Have() <= s.i < NDIRECT) }

  /** Only the spare blocks can have gone into such a slot. */
  lemma MustBeSpare(sc: Scene, e: Disk, owner: map<nat, Slot>, logged: set<nat>, r: nat, s: Slot)
    requires Written(sc, e, owner, logged, r) && IsSlot(e, s) && NewSlot(sc, s) && Addr(e, s) != 0
    ensures Spare(sc, Addr(e, s)) && Addr(e, s) < |e.blocks| == sc.Top() && Addr(e, s) in owner && owner[Addr(e, s)] == s
  {
    var b := Addr(e, s);
    HeldBy(sc, e, owner, logged, r, s);
    hide Written, Image, Addr, Spare;
    if !Spare(sc, b) {
      BlockSlot(sc, b);
      var t := SlotOf(sc, b);
      SlotBlock(sc, t.inum, t.i);
      OldSlot(sc, t.inum, t.i);
      StillHeld(sc, e, owner, logged, r, t.inum, t.i);
      HeldBy(sc, e, owner, logged, r, t);
    }
  }

  lemma OldSlot(sc: Scene, m: nat, i: nat)
    requires i < NDIRECT && BlockOf(sc, m, i) != 0
    ensures m > 0 || i < sc.Have()
  {
  }

  lemma HeldBy(sc: Scene, e: Disk, owner: map<nat, Slot>, logged: set<nat>, r: nat, s: Slot)
    requires Written(sc, e, owner, logged, r) && IsSlot(e, s) && Addr(e, s) != 0
    ensures sc.First() <= Addr(e, s) < |e.blocks| == sc.Top() && Addr(e, s) in owner && owner[Addr(e, s)] == s
  {
    hide Image, Addr, NoHoles, Full, Placed;
  }

  /** A block of the file appears only where bytes were written. */
  lemma NewNear(sc: Scene, e: Disk, owner: map<nat, Slot>, logged: set<nat>, r: nat, bn: nat)
    requires Written(sc, e, owner, logged, r) && sc.Have() <= bn < MAXFILE && 0 < |e.inodes| && BlockAddr(e, 0, bn) != 0
    ensures bn * BSIZE < sc.Off() + r
  {
    hide Image, Owned, NoHoles, Full, Content, Splice, Covers, Addr;
    assert IsFile(Image(sc), 0, bn);
    ImageAddr(sc, DataSlot(0, bn));
  }

  /** Who holds a spare block that is no longer free. */
  lemma SpareHeld(sc: Scene, e: Disk, owner: map<nat, Slot>, logged: set<nat>, r: nat, b: nat)
    requires Written(sc, e, owner, logged, r) && Spare(sc, b) && b in owner
    ensures IsSlot(e, owner[b]) && Addr(e, owner[b]) == b && NewSlot(sc, owner[b])
    ensures owner[b].Direct? ==> owner[b].i * BSIZE < sc.Off() + r
    ensures owner[b].Entry? ==> (NDIRECT + owner[b].j) * BSIZE < sc.Off() + r
  {
    var s := owner[b];
    OwnerHolds(sc, e, owner, logged, r, b);
    hide Written, Image, Addr;
    StillHeld(sc, e, owner, logged, r, s.inum, if s.Direct? then s.i else 0);
    if s.Direct? && (s.inum > 0 || s.i < sc.Have()) {
      SlotBlock(sc, s.inum, s.i);
    } else if s.Direct? {
      NewNear(sc, e, owner, logged, r, s.i);
    } else {
      OtherEmpty(e, s);
      if s.Entry? {
        NewNear(sc, e, owner, logged, r, NDIRECT + s.j);
      }
    }
  }

  lemma OwnerHolds(sc: Scene, e: Disk, owner: map<nat, Slot>, logged: set<nat>, r: nat, b: nat)
    requires Written(sc, e, owner, logged, r) && b in owner
    ensures IsSlot(e, owner[b]) && Addr(e, owner[b]) == b && sc.First() <= b && owner[b].inum < |e.inodes| == sc.Files()
  {
    hide Image, NoHoles, Full, Placed, Addr;
  }

  lemma OtherEmpty(e: Disk, s: Slot)
    requires IsSlot(e, s) && Addr(e, s) != 0 && !s.Direct? && (s.inum > 0 ==> e.inodes[s.inum].Ind() == 0)
    ensures s.inum == 0
  {
  }

  /** The slots a write that ended early can have filled, one fewer than spare blocks. */
  predicate EarlySlot(sc: Scene, s: Slot) {
    s == Indirect(0) || (if sc.Exact? then s == Entry(0, 0) || s == Entry(0, 1) else s == Direct(0, 9) || s == Direct(0, 10) || s == Direct(0, 11))
  }

  lemma TooFew(sc: Scene, a: Slot, b: Slot, c: Slot, d: Slot, e: Slot)
    requires EarlySlot(sc, a) && EarlySlot(sc, b) && EarlySlot(sc, c) && EarlySlot(sc, d) && (sc.Longer? ==> EarlySlot(sc, e))
    ensures a == b || a == c || a == d || b == c || b == d || c == d || (sc.Longer? && (a == e || b == e || c == e || d == e))
  {
  }

  /** So the write did not end early. */
  lemma AllWritten(sc: Scene, e: Disk, owner: map<nat, Slot>, logged: set<nat>, r: nat)
    requires Written(sc, e, owner, logged, r)
    ensures r == sc.Len()
  {
    hide Written, Addr;
    if r != sc.Len() {
      EarlyHolder(sc, e, owner, logged, r, 8191);
      EarlyHolder(sc, e, owner, logged, r, 16383);
      EarlyHolder(sc, e, owner, logged, r, 16384);
      EarlyHolder(sc, e, owner, logged, r, 24576);
      var last := if sc.Longer? then 32768 else 24576;
      EarlyHolder(sc, e, owner, logged, r, last);
      TooFew(sc, owner[8191], owner[16383], owner[16384], owner[24576], owner[last]);
    }
  }

  lemma EarlyHolder(sc: Scene, e: Disk, owner: map<nat, Slot>, logged: set<nat>, r: nat, b: nat)
    requires Written(sc, e, owner, logged, r) && r != sc.Len() && Spare(sc, b)
    ensures b in owner && EarlySlot(sc, owner[b]) && IsSlot(e, owner[b]) && Addr(e, owner[b]) == b
  {
    Early(sc, e, owner, logged, r, b);
    hide Written, Addr;
    SpareHeld(sc, e, owner, logged, r, b);
  }

  /** A write that ends early ends at a block boundary, with no free block left. */
  lemma Early(sc: Scene, e: Disk, owner: map<nat, Slot>, logged: set<nat>, r: nat, b: nat)
    requires Written(sc, e, owner, logged, r) && r != sc.Len() && Spare(sc, b)
    ensures b in owner && sc.Off() + r <= if sc.Exact? then 14 * BSIZE else NDIRECT * BSIZE
  {
    hide Image, Owned, NoHoles, Full, Content, Splice, Placed;
    FullMeans(sc, e, owner, b);
  }

  lemma FullMeans(sc: Scene, e: Disk, owner: map<nat, Slot>, b: nat)
    requires Owned(e, sc.First(), owner) && Full(e) && |e.blocks| == sc.Top() && Spare(sc, b)
    ensures b in owner
  {
    hide Addr, Used;
  }

  /** A byte of the range is in place. */
  lemma DataAt(sc: Scene, e: Disk, owner: map<nat, Slot>, logged: set<nat>, k: nat)
    requires Written(sc, e, owner, logged, sc.Len()) && sc.Off() <= k < sc.Off() + sc.Len()
    ensures var b := BlockAddr(e, 0, k / BSIZE); 0 < b < |e.blocks| == sc.Top() && e.blocks[b][k % BSIZE] == 1
  {
    hide Image, Full, Placed, BlockAddr, NoHole;
    assert NoHole(e, 0);
    assert Content(e, 0)[k] == 1;
    assert Cell(e, 0, k) == 1;
    CoveredBlock(e, 0, k);
    DataApart(e, sc.First(), owner, 0, k / BSIZE, Indirect(0));
  }

  /** Block bn of the range was empty before. */
  predicate NewBlock(sc: Scene, bn: nat) { if sc.Exact? then bn == 12 || bn == 13 || bn == 14 else bn == 9 || bn == 10 || bn == 11 || bn == 12 }

  lemma DataLogged(sc: Scene, e: Disk, owner: map<nat, Slot>, logged: set<nat>, bn: nat)
    requires Written(sc, e, owner, logged, sc.Len()) && NewBlock(sc, bn)
    ensures 0 < |e.inodes|
    ensures var b := BlockAddr(e, 0, bn); Spare(sc, b) && b in owner && owner[b] == DataSlot(0, bn) && b in logged && sc.Map() + b / BPB in logged
  {
    hide Written, Addr;
    StillHeld(sc, e, owner, logged, sc.Len(), 0, 0);
    DataAt(sc, e, owner, logged, bn * BSIZE);
    var b := BlockAddr(e, 0, bn);
    MustBeSpare(sc, e, owner, logged, sc.Len(), DataSlot(0, bn));
    assert e.blocks[b] != Stale();
    StaleLogged(sc, e, owner, logged, b);
    BitLogged(sc, e, owner, logged, b);
  }

  lemma StaleLogged(sc: Scene, e: Disk, owner: map<nat, Slot>, logged: set<nat>, b: nat)
    requires Written(sc, e, owner, logged, sc.Len()) && b < |e.blocks| && Spare(sc, b) && e.blocks[b] != Stale()
    ensures b in logged
  {
    hide Image, Owned, NoHoles, Full, Content, Splice, Placed, FreeMap;
  }

  /** The indirect block was logged: it holds a block number now. */
  lemma IndirectLogged(sc: Scene, e: Disk, owner: map<nat, Slot>, logged: set<nat>)
    requires Written(sc, e, owner, logged, sc.Len())
    ensures 0 < |e.inodes|
    ensures var b := e.inodes[0].Ind(); Spare(sc, b) && b in owner && owner[b] == Indirect(0) && b in logged && sc.Map() + b / BPB in logged
  {
    hide Written, Addr, Word, Stale;
    DataLogged(sc, e, owner, logged, NDIRECT);
    EntryInd(e);
    IndOf(e, 0);
    MustBeSpare(sc, e, owner, logged, sc.Len(), Indirect(0));
    StaleWord();
    StaleLogged(sc, e, owner, logged, e.inodes[0].Ind());
    BitLogged(sc, e, owner, logged, e.inodes[0].Ind());
  }

  lemma EntryInd(e: Disk)
    requires 0 < |e.inodes| && BlockAddr(e, 0, NDIRECT) != 0
    ensures 0 < e.inodes[0].Ind() < |e.blocks| && Word(e.blocks[e.inodes[0].Ind()], 0) == BlockAddr(e, 0, NDIRECT)
  {
  }

  lemma StaleWord()
    ensures Word(Stale(), 0) == 0x707_0707
  {
  }

  /** A spare block that is taken had its free-map block logged. */
  lemma BitLogged(sc: Scene, e: Disk, owner: map<nat, Slot>, logged: set<nat>, b: nat)
    requires Written(sc, e, owner, logged, sc.Len()) && Spare(sc, b) && b in owner
    ensures sc.Map() + b / BPB in logged
  {
    hide Image, Addr, NoHoles, Full, Placed, FreeMap, Content, Splice;
    MapUsed(sc, b);
    MapBlockOf(b);
    assert Used(e.bm, b);
    assert e.bm[b / 8] != FreeMap(sc)[b / 8];
  }

  /** The block in which the chunk starts was there before, and was logged. */
  lemma LastDirect(e: Disk, owner: map<nat, Slot>, logged: set<nat>)
    requires Written(Exact, e, owner, logged, CHUNK)
    ensures 0 < |e.inodes| && BlockAddr(e, 0, 11) == 8190 && 8190 in logged
  {
    hide Image, Owned, NoHoles, Full, Placed, FreeMap, Content, Splice, Addr;
    StillHeld(Exact, e, owner, logged, CHUNK, 0, 11);
    DataAt(Exact, e, owner, logged, 11776);
    assert e.blocks[8190] != Zero();
  }

  lemma InodeLogged(sc: Scene, e: Disk, owner: map<nat, Slot>, logged: set<nat>, r: nat)
    requires Written(sc, e, owner, logged, r)
    ensures INODES in logged
  {
  }

  // ----- counting -----

  /** A spare block that was logged with its free-map block. */
  predicate Logs(sc: Scene, b: nat, logged: set<nat>) { Spare(sc, b) && b in logged && sc.Map() + b / BPB in logged }

  const SPARE4: set<nat> := {8191, 16383, 16384, 24576}
  const SPARE5: set<nat> := {8191, 16383, 16384, 24576, 32768}

  /** What a full chunk logs: four data blocks, the indirect block, the four free-map
      blocks for the three data blocks that are new and the indirect block, and the inode. */
  ghost function TenBlocks(e: Disk): set<nat>
    requires 0 < |e.inodes|
  {
    {BlockAddr(e, 0, 11), BlockAddr(e, 0, 12), BlockAddr(e, 0, 13), BlockAddr(e, 0, 14), e.inodes[0].Ind(), INODES, 8174, 8175, 8176, 8177}
  }

  lemma FullChunkLogs(e: Disk, owner: map<nat, Slot>, logged: set<nat>, r: nat)
    requires Written(Exact, e, owner, logged, r)
    ensures r == CHUNK && 0 < |e.inodes| && TenBlocks(e) <= logged && |TenBlocks(e)| == 10
  {
    hide Written, Addr, BlockAddr;
    AllWritten(Exact, e, owner, logged, r);
    DataLogged(Exact, e, owner, logged, 12);
    DataLogged(Exact, e, owner, logged, 13);
    DataLogged(Exact, e, owner, logged, 14);
    IndirectLogged(Exact, e, owner, logged);
    LastDirect(e, owner, logged);
    InodeLogged(Exact, e, owner, logged, r);
    FourSpares(BlockAddr(e, 0, 12), BlockAddr(e, 0, 13), BlockAddr(e, 0, 14), e.inodes[0].Ind(), logged);
  }

  lemma FourSpares(a: nat, b: nat, c: nat, i: nat, logged: set<nat>)
    requires a != b && a != c && a != i && b != c && b != i && c != i
    requires Logs(Exact, a, logged) && Logs(Exact, b, logged) && Logs(Exact, c, logged) && Logs(Exact, i, logged)
    ensures {8174, 8175, 8176, 8177} <= logged && |{8190, a, b, c, i, INODES, 8174, 8175, 8176, 8177}| == 10
  {
    hide Logs;
    FourAre(a, b, c, i, logged);
    AllLogs(Exact, {a, b, c, i}, logged);
    assert {8190, a, b, c, i, INODES, 8174, 8175, 8176, 8177} == {a, b, c, i} + {8190, INODES, 8174, 8175, 8176, 8177};
    Six();
  }

  lemma FourAre(a: nat, b: nat, c: nat, i: nat, logged: set<nat>)
    requires a != b && a != c && a != i && b != c && b != i && c != i
    requires Logs(Exact, a, logged) && Logs(Exact, b, logged) && Logs(Exact, c, logged) && Logs(Exact, i, logged)
    ensures {a, b, c, i} == SPARE4
  {
    assert |{a, b, c, i}| == 4 && |SPARE4| == 4;
    assert a in SPARE4 && b in SPARE4 && c in SPARE4 && i in SPARE4;
    Counting.SubsetSame({a, b, c, i}, SPARE4);
  }

  /** The free-map blocks of the spare blocks. */
  lemma AllLogs(sc: Scene, s: set<nat>, logged: set<nat>)
    requires s == (if sc.Exact? then SPARE4 else SPARE5) && forall x: nat :: x in s ==> Logs(sc, x, logged)
    ensures {sc.Map(), sc.Map() + 1, sc.Map() + 2, sc.Map() + 3} <= logged && (sc.Longer? ==> sc.Map() + 4 in logged)
  {
    assert Logs(sc, 8191, logged) && Logs(sc, 16383, logged) && Logs(sc, 16384, logged) && Logs(sc, 24576, logged);
    assert sc.Longer? ==> Logs(sc, 32768, logged);
  }

  lemma Six()
    ensures |SPARE4 + {8190, INODES, 8174, 8175, 8176, 8177}| == 10
  {
    assert |{8190, INODES, 8174, 8175, 8176, 8177}| == 6 && |SPARE4| == 4;
    assert SPARE4 !! {8190, INODES, 8174, 8175, 8176, 8177};
  }

  /** What one byte more logs, aligned: four data blocks, all new, the indirect block, five
      free-map blocks and the inode. */
  ghost function ElevenBlocks(e: Disk): set<nat>
    requires 0 < |e.inodes|
  {
    {BlockAddr(e, 0, 9), BlockAddr(e, 0, 10), BlockAddr(e, 0, 11), BlockAddr(e, 0, 12), e.inodes[0].Ind(), INODES, 8177, 8178, 8179, 8180, 8181}
  }

  lemma LongerLogs(e: Disk, owner: map<nat, Slot>, logged: set<nat>, r: nat)
    requires Written(Longer, e, owner, logged, r)
    ensures r == CHUNK + 1 && 0 < |e.inodes| && ElevenBlocks(e) <= logged && |ElevenBlocks(e)| == 11
  {
    hide Written, Addr, BlockAddr;
    AllWritten(Longer, e, owner, logged, r);
    DataLogged(Longer, e, owner, logged, 9);
    DataLogged(Longer, e, owner, logged, 10);
    DataLogged(Longer, e, owner, logged, 11);
    DataLogged(Longer, e, owner, logged, 12);
    IndirectLogged(Longer, e, owner, logged);
    InodeLogged(Longer, e, owner, logged, r);
    FiveSpares(BlockAddr(e, 0, 9), BlockAddr(e, 0, 10), BlockAddr(e, 0, 11), BlockAddr(e, 0, 12), e.inodes[0].Ind(), logged);
  }

  lemma FiveSpares(a: nat, b: nat, c: nat, d: nat, i: nat, logged: set<nat>)
    requires a != b && a != c && a != d && a != i && b != c && b != d && b != i && c != d && c != i && d != i
    requires Logs(Longer, a, logged) && Logs(Longer, b, logged) && Logs(Longer, c, logged) && Logs(Longer, d, logged) && Logs(Longer, i, logged)
    ensures {8177, 8178, 8179, 8180, 8181} <= logged && |{a, b, c, d, i, INODES, 8177, 8178, 8179, 8180, 8181}| == 11
  {
    hide Logs;
    FiveAre(a, b, c, d, i, logged);
    AllLogs(Longer, {a, b, c, d, i}, logged);
    assert {a, b, c, d, i, INODES, 8177, 8178, 8179, 8180, 8181} == {a, b, c, d, i} + {INODES, 8177, 8178, 8179, 8180, 8181};
    SixMore();
  }

  lemma FiveAre(a: nat, b: nat, c: nat, d: nat, i: nat, logged: set<nat>)
    requires a != b && a != c && a != d && a != i && b != c && b != d && b != i && c != d && c != i && d != i
    requires Logs(Longer, a, logged) && Logs(Longer, b, logged) && Logs(Longer, c, logged) && Logs(Longer, d, logged) && Logs(Longer, i, logged)
    ensures {a, b, c, d, i} == SPARE5
  {
    assert |{a, b, c, d, i}| == 5 && |SPARE5| == 5;
    InFive(a);
    InFive(b);
    InFive(c);
    InFive(d);
    InFive(i);
    Counting.SubsetSame({a, b, c, d, i}, SPARE5);
  }

  lemma InFive(b: nat)
    ensures Spare(Longer, b) ==> b in SPARE5
  {
  }

  lemma SixMore()
    ensures |SPARE5 + {INODES, 8177, 8178, 8179, 8180, 8181}| == 11
  {
    assert |{INODES, 8177, 8178, 8179, 8180, 8181}| == 6 && |SPARE5| == 5;
    assert SPARE5 !! {INODES, 8177, 8178, 8179, 8180, 8181};
  }

  /** A file system with the disk of a scene. */
  method Build(sc: Scene) returns (fs: FileSystem)
    ensures fresh(fs) && fs.Valid() && NoHoles(fs.d) && fs.d == Image(sc) && fs.meta == sc.First() && fs.bmapstart == sc.Map() && fs.inodestart == INODES && fs.logged == {}
  {
    ImageOwned(sc);
    ImageNoHoles(sc);
    hide Image, Owned, NoHoles, Owners;
    fs := new FileSystem(Image(sc), sc.First(), sc.Map(), INODES, Owners(sc));
  }

  /** There is a disk on which filewrite's chunk logs exactly MAXOPBLOCKS blocks. */
  method WorstChunk() returns (f: OpenFile)
    ensures fresh(f) && fresh(f.fs) && f.fs.Valid() && 0 < |f.fs.d.inodes| && |f.fs.logged| == MAXOPBLOCKS && f.fs.logged == TenBlocks(f.fs.d)
  {
    hide Image, Owned, NoHoles, Covers, Placed, Full, Content, Splice, BlockAddr;
    var fs := Build(Exact);
    f := new OpenFile(fs, 0);
    f.off := 11776;
    assert fs.d.inodes[0] == FileOf(Exact, 0);
    var r := f.WriteChunk(Data(Exact));
    FullChunkLogs(fs.d, fs.owner, fs.logged, r);
    Counting.SubsetSame(TenBlocks(fs.d), fs.logged);
  }

  /** And one on which one byte more would log more than begin_op reserves: CHUNK is the
      largest chunk size that keeps to the reservation. */
  method LongerChunk() returns (fs: FileSystem)
    ensures fresh(fs) && fs.Valid() && 0 < |fs.d.inodes| && |fs.logged| == MAXOPBLOCKS + 1 && fs.logged == ElevenBlocks(fs.d)
  {
    hide Image, Owned, NoHoles, Covers, Placed, Full, Content, Splice, BlockAddr;
    fs := Build(Longer);
    assert fs.d.inodes[0] == FileOf(Longer, 0);
    var r := fs.Writei(0, Data(Longer), 9216);
    LongerLogs(fs.d, fs.owner, fs.logged, r);
    assert fs.logged - {} == fs.logged;
    Counting.SubsetSame(ElevenBlocks(fs.d), fs.logged);
  }
}
