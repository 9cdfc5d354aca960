/** Which buffers are referenced, told from the log, the holders and the other references. */
module Refs {
  import opened Param
  import Counting
  import opened Disk
  import opened Crash
  import opened Bio
  import opened Log
  import opened Journal

  function Elems(lh: seq<nat>): set<nat> { set b | b in lh }

  /** The buffers that are referenced. */
  ghost function UsedIdx(bufs: seq<Buf>): set<nat>
    requires |bufs| == NBUF + 1
  {
    set i: nat | i < NBUF && bufs[i].refcnt > 0
  }

  lemma SpareUsed(bufs: seq<Buf>)
    requires |bufs| == NBUF + 1
    ensures Spare(bufs) <==> |UsedIdx(bufs)| < NBUF
  {
    var all := Counting.Range(0, NBUF);
    if Spare(bufs) {
      var i :| 0 <= i < NBUF && i < |bufs| && bufs[i].refcnt == 0;
      assert UsedIdx(bufs) <= all - {i};
      Counting.SubsetSize(UsedIdx(bufs), all - {i});
    } else {
      assert UsedIdx(bufs) == all;
    }
  }

  /** As many pins as there are distinct pinned buffers, at least. */
  lemma {:induction false} PinsAtLeast(pins: seq<nat>, s: set<nat>)
    requires forall i :: i in s ==> i < |pins| && pins[i] > 0
    ensures |s| <= Total(pins)
    decreases |pins|
  {
    if pins == [] {
      assert s == {};
    } else {
      var n := |pins| - 1;
      PinsAtLeast(pins[..n], s - {n});
      assert s <= (s - {n}) + {n};
      Counting.SubsetSize(s, (s - {n}) + {n});
    }
  }

  /** A pinned buffer holds a logged block. */
  lemma PinnedListed(bufs: seq<Buf>, pins: seq<nat>, lh: seq<nat>, i: nat)
    requires |pins| == NBUF < |bufs| && AllPinned(bufs, pins, lh) && Total(pins) == |lh| && i < NBUF && pins[i] > 0
    ensures bufs[i].dev == ROOTDEV && bufs[i].blockno in lh
  {
    var at := Holders(bufs, pins, lh, |lh|);
    if i in at {
      var k :| 0 <= k < |at| && at[k] == i;
    } else {
      forall j, k | 0 <= j < k < |at| ensures at[j] != at[k] {
        DistinctAt(bufs, pins, lh, j, k);
      }
      var s := Counting.Elements(at);
      hide AllPinned;
      assert |s + {i}| == |at| + 1;
      PinsAtLeast(pins, s + {i});
    }
  }

  /** What is known of the cache between two steps. */
  ghost predicate Known(lay: Layout, lh: seq<nat>, bufs: seq<Buf>, pins: seq<nat>, latest: Image, held: map<nat, nat>) {
    |bufs| == NBUF + 1 && |pins| == NBUF && Unique(bufs) && Counted(bufs, pins) && AllPinned(bufs, pins, lh) && Total(pins) == |lh| && Held(lay, bufs, latest, held)
  }

  /** A block that is logged or held is in a referenced buffer. */
  lemma InBuffer(lay: Layout, lh: seq<nat>, bufs: seq<Buf>, pins: seq<nat>, latest: Image, held: map<nat, nat>, b: nat) returns (i: nat)
    requires Known(lay, lh, bufs, pins, latest, held) && (b in lh || b in held)
    ensures i < NBUF && Matches(bufs[i], ROOTDEV, b) && bufs[i].refcnt > 0
  {
    hide Total, Unique;
    if b in held {
      assert Holds(bufs, held[b], b, latest[b]);
      i := held[b];
      CountedAt(bufs, pins, i);
    } else {
      var k :| 0 <= k < |lh| && lh[k] == b;
      assert Pinned(bufs, pins, lh[k]);
      i :| 0 <= i < |pins| && Matches(bufs[i], ROOTDEV, b) && bufs[i].valid && pins[i] > 0;
      CountedAt(bufs, pins, i);
    }
  }

  /** A referenced buffer that nobody else refers to holds a block that is logged or held. */
  lemma OwnBlock(lay: Layout, lh: seq<nat>, bufs: seq<Buf>, pins: seq<nat>, latest: Image, held: map<nat, nat>, i: nat)
    requires Known(lay, lh, bufs, pins, latest, held) && i < NBUF && bufs[i].refcnt > 0 && Loose(bufs[i], pins[i]) <= 0
    ensures bufs[i].dev == ROOTDEV && (bufs[i].blockno in lh || bufs[i].blockno in held)
  {
    hide Total, Unique, AllPinned;
    if bufs[i].locked {
      assert Holds(bufs, held[bufs[i].blockno], bufs[i].blockno, latest[bufs[i].blockno]);
    } else {
      PinnedListed(bufs, pins, lh, i);
    }
  }

  lemma SameBuffer(bufs: seq<Buf>, i: nat, j: nat)
    requires Unique(bufs) && i < |bufs| && j < |bufs| && bufs[i].dev == bufs[j].dev == ROOTDEV && bufs[i].blockno == bufs[j].blockno
    ensures i == j
  {
    assert SameBlock(bufs[i], bufs[j]) && SameBlock(bufs[j], bufs[i]);
  }

  /** The blocks that are logged or held, without those that others refer to. */
  ghost function OwnBlocks(lh: seq<nat>, bufs: seq<Buf>, pins: seq<nat>, held: map<nat, nat>): set<nat>
    requires |bufs| == NBUF + 1 && |pins| == NBUF
  {
    (Elems(lh) + held.Keys) - LooseBlocks(bufs, pins)
  }

  /** The block of each referenced buffer that nobody else refers to. */
  ghost function OwnMap(bufs: seq<Buf>, pins: seq<nat>): map<nat, nat>
    requires |bufs| == NBUF + 1 && |pins| == NBUF
  {
    map i | i in UsedIdx(bufs) - LooseIdx(bufs, pins) :: bufs[i].blockno
  }

  lemma OwnMapAt(lay: Layout, lh: seq<nat>, bufs: seq<Buf>, pins: seq<nat>, latest: Image, held: map<nat, nat>, i: nat)
    requires Known(lay, lh, bufs, pins, latest, held) && i in OwnMap(bufs, pins)
    ensures i < NBUF && bufs[i].dev == ROOTDEV && bufs[i].blockno in OwnBlocks(lh, bufs, pins, held)
  {
    assert |bufs| == NBUF + 1;
    hide Known, Loose;
    OwnBlock(lay, lh, bufs, pins, latest, held, i);
    OwnNotLoose(lay, lh, bufs, pins, latest, held, i);
  }

  lemma OwnMapOnto(lay: Layout, lh: seq<nat>, bufs: seq<Buf>, pins: seq<nat>, latest: Image, held: map<nat, nat>, b: nat)
    requires Known(lay, lh, bufs, pins, latest, held) && b in OwnBlocks(lh, bufs, pins, held)
    ensures b in OwnMap(bufs, pins).Values
  {
    assert |bufs| == NBUF + 1;
    hide Known, Loose;
    var i := InBuffer(lay, lh, bufs, pins, latest, held, b);
    assert i in UsedIdx(bufs) && i !in LooseIdx(bufs, pins);
    assert OwnMap(bufs, pins)[i] == b;
  }

  lemma OwnMapOne(lay: Layout, lh: seq<nat>, bufs: seq<Buf>, pins: seq<nat>, latest: Image, held: map<nat, nat>)
    requires Known(lay, lh, bufs, pins, latest, held)
    ensures var f := OwnMap(bufs, pins); (forall i, j :: i in f && j in f && i != j ==> f[i] != f[j]) && f.Values == OwnBlocks(lh, bufs, pins, held)
  {
    assert |bufs| == NBUF + 1 && Unique(bufs);
    hide Known, LooseIdx, UsedIdx, OwnBlocks, Unique;
    var f := OwnMap(bufs, pins);
    forall i | i in f ensures i < NBUF && bufs[i].dev == ROOTDEV && f[i] in OwnBlocks(lh, bufs, pins, held) {
      OwnMapAt(lay, lh, bufs, pins, latest, held, i);
    }
    forall i, j | i in f && j in f && i != j ensures f[i] != f[j] {
      if f[i] == f[j] {
        SameBuffer(bufs, i, j);
      }
    }
    forall b | b in OwnBlocks(lh, bufs, pins, held) ensures b in f.Values {
      OwnMapOnto(lay, lh, bufs, pins, latest, held, b);
    }
  }

  /** How many buffers are referenced: those with other references, and one for each further
      block that is logged or held. */
  lemma UsedSize(lay: Layout, lh: seq<nat>, bufs: seq<Buf>, pins: seq<nat>, latest: Image, held: map<nat, nat>)
    requires Known(lay, lh, bufs, pins, latest, held)
    ensures |UsedIdx(bufs)| == |LooseIdx(bufs, pins)| + |OwnBlocks(lh, bufs, pins, held)|
  {
    assert |bufs| == NBUF + 1;
    hide Known, OwnBlocks;
    var used, loose := UsedIdx(bufs), LooseIdx(bufs, pins);
    forall i | i in loose ensures i in used {
      CountedNone(bufs, pins, i);
    }
    OwnMapOne(lay, lh, bufs, pins, latest, held);
    hide UsedIdx, LooseIdx;
    Counting.SameSize(OwnMap(bufs, pins));
    assert OwnMap(bufs, pins).Keys == used - loose;
    assert used == loose + (used - loose);
  }

  lemma CountedNone(bufs: seq<Buf>, pins: seq<nat>, i: nat)
    requires |bufs| == NBUF + 1 && |pins| == NBUF && i < NBUF && Loose(bufs[i], pins[i]) > 0
    ensures bufs[i].refcnt > 0
  {
  }

  lemma OwnNotLoose(lay: Layout, lh: seq<nat>, bufs: seq<Buf>, pins: seq<nat>, latest: Image, held: map<nat, nat>, i: nat)
    requires Known(lay, lh, bufs, pins, latest, held) && i < NBUF && bufs[i].dev == ROOTDEV && Loose(bufs[i], pins[i]) <= 0
    ensures bufs[i].blockno !in LooseBlocks(bufs, pins)
  {
    hide Total, AllPinned, Held, Loose;
    forall j: nat | j < NBUF && Loose(bufs[j], pins[j]) > 0 && bufs[j].dev == ROOTDEV ensures bufs[j].blockno != bufs[i].blockno {
      if bufs[j].blockno == bufs[i].blockno {
        SameBuffer(bufs, i, j);
      }
    }
  }

  /** Whether there is a buffer to be had, and, if not, which blocks are cached. */
  lemma RefsIff(lay: Layout, lh: seq<nat>, bufs: seq<Buf>, pins: seq<nat>, latest: Image, held: map<nat, nat>)
    requires Known(lay, lh, bufs, pins, latest, held)
    ensures Spare(bufs) <==> |LooseIdx(bufs, pins)| + |OwnBlocks(lh, bufs, pins, held)| < NBUF
    ensures !Spare(bufs) ==> forall b: nat :: Cached(bufs, ROOTDEV, b) <==> b in lh || b in held || b in LooseBlocks(bufs, pins)
  {
    assert |bufs| == NBUF + 1;
    hide Known, Cached, LooseIdx, LooseBlocks, OwnBlocks, UsedIdx, Spare;
    SpareUsed(bufs);
    UsedSize(lay, lh, bufs, pins, latest, held);
    if !Spare(bufs) {
      forall b: nat ensures Cached(bufs, ROOTDEV, b) <==> b in lh || b in held || b in LooseBlocks(bufs, pins) {
        CachedIff(lay, lh, bufs, pins, latest, held, b);
      }
    }
  }

  lemma CachedIff(lay: Layout, lh: seq<nat>, bufs: seq<Buf>, pins: seq<nat>, latest: Image, held: map<nat, nat>, b: nat)
    requires Known(lay, lh, bufs, pins, latest, held) && !Spare(bufs)
    ensures Cached(bufs, ROOTDEV, b) <==> b in lh || b in held || b in LooseBlocks(bufs, pins)
  {
    assert |bufs| == NBUF + 1 && bufs[HEAD].dev == 0;
    hide Known;
    if b in lh || b in held {
      var i := InBuffer(lay, lh, bufs, pins, latest, held, b);
      assert bufs[i].dev == ROOTDEV && bufs[i].blockno == b;
    } else if Cached(bufs, ROOTDEV, b) {
      var i :| 0 <= i < |bufs| && bufs[i].dev == ROOTDEV && bufs[i].blockno == b;
      assert bufs[i].refcnt > 0;
      if Loose(bufs[i], pins[i]) <= 0 {
        OwnBlock(lay, lh, bufs, pins, latest, held, i);
      }
    }
  }
}
