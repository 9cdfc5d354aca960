/** The buffer cache: NBUF buffers in a ring ordered by how recently they were
    released. Every method that holds bcache.lock is one atomic step, so an
    invariant kept by each of them holds in every interleaving. */
module Bio {
  import opened Wrappers
  import opened Param
  import opened Disk

  const HEAD: nat := NBUF    // index of bcache.head, the ring's sentinel
  const ROOTDEV: nat := 1    // the one device the driver serves

  datatype Buf = Buf(
    valid: bool, dev: nat, blockno: nat, locked: bool, refcnt: nat,
    prev: nat, next: nat, data: Block)

  // ----- the ring -----

  /** The ring as a list that starts and ends at the sentinel. */
  ghost function Ring(head: nat, order: seq<nat>): (r: seq<nat>)
    ensures |r| == |order| + 2 && r[0] == r[|order| + 1] == head
    ensures forall k :: 0 <= k < |order| ==> r[k + 1] == order[k]
  {
    [head] + order + [head]
  }

  ghost predicate Distinct(order: seq<nat>) {
    forall k, l :: 0 <= k < l < |order| ==> order[k] != order[l]
  }

  /** next and prev lead through `order`, most recently released first. */
  ghost predicate Linked(bufs: seq<Buf>, head: nat, order: seq<nat>) {
    head < |bufs| && head !in order && Distinct(order)
    && (forall k :: 0 <= k < |order| ==> order[k] < |bufs|)
    && forall k :: 0 <= k <= |order| ==> Hop(bufs, Ring(head, order)[k], Ring(head, order)[k + 1])
  }

  ghost predicate Hop(bufs: seq<Buf>, i: nat, j: nat) {
    i < |bufs| && j < |bufs| && bufs[i].next == j && bufs[j].prev == i
  }

  /** A buffer without its links. */
  function Core(b: Buf): Buf { b.(prev := 0, next := 0) }

  predicate SameCore(bufs: seq<Buf>, bs: seq<Buf>) {
    |bs| == |bufs| && forall j :: 0 <= j < |bufs| ==> Core(bs[j]) == Core(bufs[j])
  }

  function SetNext(bufs: seq<Buf>, i: nat, j: nat): (r: seq<Buf>)
    requires i < |bufs|
    ensures SameCore(bufs, r)
  {
    bufs[i := bufs[i].(next := j)]
  }

  function SetPrev(bufs: seq<Buf>, i: nat, j: nat): (r: seq<Buf>)
    requires i < |bufs|
    ensures SameCore(bufs, r)
  {
    bufs[i := bufs[i].(prev := j)]
  }

  predicate InRange(bufs: seq<Buf>, i: nat) {
    i < |bufs| && bufs[i].next < |bufs| && bufs[i].prev < |bufs|
  }

  /** b->next->prev = b->prev; b->prev->next = b->next */
  function Unlink(bufs: seq<Buf>, i: nat): (r: seq<Buf>)
    requires InRange(bufs, i)
    ensures SameCore(bufs, r)
  {
    var bs := SetPrev(bufs, bufs[i].next, bufs[i].prev);
    SetNext(bs, bs[i].prev, bs[i].next)
  }

  /** b->next = head.next; b->prev = &head; head.next->prev = b; head.next = b */
  function Insert(bufs: seq<Buf>, head: nat, i: nat): (r: seq<Buf>)
    requires i < |bufs| && InRange(bufs, head)
    ensures SameCore(bufs, r)
  {
    var bs := SetNext(bufs, i, bufs[head].next);
    var bs := SetPrev(bs, i, head);
    var bs := SetPrev(bs, bs[head].next, i);
    SetNext(bs, head, i)
  }

  lemma InsertLinks(bufs: seq<Buf>, head: nat, order: seq<nat>, i: nat)
    requires Linked(bufs, head, order) && i < |bufs| && i != head && i !in order
    ensures InRange(bufs, head) && Linked(Insert(bufs, head, i), head, [i] + order)
  {
    var r, o := Ring(head, order), [i] + order;
    var s := Ring(head, o);
    assert Hop(bufs, r[0], r[1]) && Hop(bufs, r[|order|], r[|order| + 1]);
    var bs := Insert(bufs, head, i);
    forall k | 0 <= k <= |o| ensures Hop(bs, s[k], s[k + 1]) {
      if k > 1 {
        assert Hop(bufs, r[k - 1], r[k]);
        assert s[k] == r[k - 1] && s[k + 1] == r[k];
      }
    }
  }

  /** Taking the buffer at position p out of the ring. */
  lemma UnlinkLinks(bufs: seq<Buf>, head: nat, order: seq<nat>, p: nat)
    requires Linked(bufs, head, order) && p < |order|
    ensures InRange(bufs, order[p]) && Linked(Unlink(bufs, order[p]), head, order[..p] + order[p + 1..])
  {
    var r, o := Ring(head, order), order[..p] + order[p + 1..];
    var s := Ring(head, o);
    assert Hop(bufs, r[p], r[p + 1]) && Hop(bufs, r[p + 1], r[p + 2]);
    var bs := Unlink(bufs, order[p]);
    forall k | 0 <= k <= |o| ensures Hop(bs, s[k], s[k + 1]) {
      if k < p {
        assert s[k] == r[k] && s[k + 1] == r[k + 1];
        assert Hop(bufs, r[k], r[k + 1]);
      } else if k > p {
        assert s[k] == r[k + 1] && s[k + 1] == r[k + 2];
        assert Hop(bufs, r[k + 1], r[k + 2]);
      } else {
        assert s[k] == r[p] && s[k + 1] == r[p + 2];
      }
    }
  }

  // ----- the invariant of the cache -----

  /** stamp[i] is the time of buffer i's last release; the ring is sorted by it. */
  ghost predicate Recency(order: seq<nat>, stamp: seq<nat>, clock: nat) {
    (forall k :: 0 <= k < |order| ==> order[k] < |stamp| && stamp[order[k]] < clock)
    && (forall k, l :: 0 <= k < l < |order| ==> stamp[order[l]] < stamp[order[k]])
  }

  /** One buffer per block, for real devices: unused buffers all carry (0,0). */
  ghost predicate Unique(bufs: seq<Buf>) {
    forall i, j :: 0 <= i < j < |bufs| && bufs[i].dev != 0 ==> !SameBlock(bufs[i], bufs[j])
  }

  ghost predicate SameBlock(a: Buf, b: Buf) { a.dev == b.dev && a.blockno == b.blockno }

  ghost predicate Cached(bufs: seq<Buf>, dev: nat, blockno: nat) {
    exists i :: 0 <= i < |bufs| && bufs[i].dev == dev && bufs[i].blockno == blockno
  }

  /** `latest[b]` is what block b held when it was last released. A buffer nobody
      holds agrees with it, an unread one leaves it to the disk, and only a buffer
      that is on disk may have no references, because it can be recycled. */
  ghost predicate BufOk(b: Buf, disk: Image, latest: Image) {
    |disk| == |latest|
    && (b.locked ==> 0 < b.refcnt)
    && (b.dev == ROOTDEV ==>
          b.blockno < |disk|
          && (b.valid && !b.locked ==> b.data == latest[b.blockno])
          && (!b.valid ==> disk[b.blockno] == latest[b.blockno])
          && (b.valid && b.refcnt == 0 ==> b.data == disk[b.blockno]))
  }

  ghost predicate Transparent(bufs: seq<Buf>, disk: Image, latest: Image) {
    |disk| == |latest|
    && (forall i :: 0 <= i < |bufs| ==> BufOk(bufs[i], disk, latest))
    && (forall b :: 0 <= b < |disk| && !Cached(bufs, ROOTDEV, b) ==> disk[b] == latest[b])
  }

  ghost predicate Shape(bufs: seq<Buf>, order: seq<nat>, stamp: seq<nat>, clock: nat) {
    |bufs| == NBUF + 1 && |order| == |stamp| == NBUF
    && Linked(bufs, HEAD, order) && Recency(order, stamp, clock)
    && (forall i :: 0 <= i < NBUF ==> i in order) && bufs[HEAD].dev == 0
  }

  /** A step that changes one buffer's fields other than its links and its block,
      with the disk and the latest contents of that block. */
  lemma UpdateShape(bufs: seq<Buf>, i: nat, b: Buf, order: seq<nat>, stamp: seq<nat>, clock: nat)
    requires Shape(bufs, order, stamp, clock) && i < NBUF
    requires b.prev == bufs[i].prev && b.next == bufs[i].next
    ensures Shape(bufs[i := b], order, stamp, clock)
  {
    var r := Ring(HEAD, order);
    forall k | 0 <= k <= |order| ensures Hop(bufs[i := b], r[k], r[k + 1]) {
      assert Hop(bufs, r[k], r[k + 1]);
    }
  }

  lemma UpdateTransparent(bufs: seq<Buf>, i: nat, b: Buf, disk: Image, latest: Image, disk': Image, latest': Image)
    requires Unique(bufs) && Transparent(bufs, disk, latest) && i < |bufs| && SameBlock(bufs[i], b)
    requires |disk'| == |disk| && |latest'| == |latest| && BufOk(b, disk', latest')
    requires forall n :: 0 <= n < |disk| && !(b.dev == ROOTDEV && b.blockno == n) ==> disk'[n] == disk[n] && latest'[n] == latest[n]
    ensures Unique(bufs[i := b]) && Transparent(bufs[i := b], disk', latest')
  {
    var bs := bufs[i := b];
    assert forall j :: 0 <= j < |bufs| ==> SameBlock(bs[j], bufs[j]);
    forall j | 0 <= j < |bs| ensures BufOk(bs[j], disk', latest') {
      assert BufOk(bufs[j], disk, latest);
    }
    forall n | 0 <= n < |disk| && !Cached(bs, ROOTDEV, n) ensures disk'[n] == latest'[n] {
      assert bs[i] == b;
      assert !Cached(bufs, ROOTDEV, n);
    }
  }

  /** Recycling a buffer without references for a block that is not cached. */
  lemma RecycleTransparent(bufs: seq<Buf>, i: nat, b: Buf, disk: Image, latest: Image)
    requires Unique(bufs) && Transparent(bufs, disk, latest) && i < |bufs| && bufs[i].refcnt == 0
    requires (b.dev != 0 ==> !Cached(bufs, b.dev, b.blockno)) && !b.valid && !b.locked && (b.dev == ROOTDEV ==> b.blockno < |disk|)
    ensures Unique(bufs[i := b]) && Transparent(bufs[i := b], disk, latest)
  {
    var bs := bufs[i := b];
    assert BufOk(bufs[i], disk, latest);
    forall n | 0 <= n < |disk| && !Cached(bs, ROOTDEV, n) ensures disk[n] == latest[n] {
      if bufs[i].dev != ROOTDEV || bufs[i].blockno != n {
        assert forall j :: 0 <= j < |bufs| && j != i ==> bs[j] == bufs[j];
        assert !Cached(bufs, ROOTDEV, n);
      }
    }
  }

  /** brelse's relinking: the released buffer becomes the most recent one. */
  lemma ReleaseShape(bufs: seq<Buf>, i: nat, order: seq<nat>, stamp: seq<nat>, clock: nat, p: nat)
    requires Shape(bufs, order, stamp, clock) && p < NBUF && order[p] == i
    ensures InRange(bufs, i) && InRange(Unlink(bufs, i), HEAD)
    ensures Shape(Insert(Unlink(bufs, i), HEAD, i), [i] + (order[..p] + order[p + 1..]), stamp[i := clock], clock + 1)
  {
    UnlinkLinks(bufs, HEAD, order, p);
    var o := order[..p] + order[p + 1..];
    InsertLinks(Unlink(bufs, i), HEAD, o, i);
    forall j | 0 <= j < NBUF ensures j in [i] + o {
      assert j in order;
      assert order == order[..p] + [i] + order[p + 1..];
    }
  }

  /** References cover the pins and the holder. */
  ghost predicate Counted(bufs: seq<Buf>, pins: seq<nat>) {
    |bufs| == NBUF + 1 && |pins| == NBUF
    && forall i :: 0 <= i < NBUF ==> pins[i] + (if bufs[i].locked then 1 else 0) <= bufs[i].refcnt
  }

  /** Nobody holds block b. */
  ghost predicate Free(bufs: seq<Buf>, b: nat) {
    forall i :: 0 <= i < |bufs| && Matches(bufs[i], ROOTDEV, b) ==> !bufs[i].locked
  }

  /** Block b is held in the cache by a pin. */
  ghost predicate Pinned(bufs: seq<Buf>, pins: seq<nat>, b: nat)
    requires |pins| < |bufs|
  {
    exists i :: 0 <= i < |pins| && Matches(bufs[i], ROOTDEV, b) && bufs[i].valid && pins[i] > 0
  }

  // ----- references -----

  /** Nobody holds a buffer, and pins are the only references. */
  ghost predicate Quiet(bufs: seq<Buf>, pins: seq<nat>) {
    |pins| == NBUF < |bufs| && forall i :: 0 <= i < NBUF ==> !bufs[i].locked && bufs[i].refcnt == pins[i]
  }

  /** Some buffer can be recycled. */
  ghost predicate Spare(bufs: seq<Buf>) { exists i :: 0 <= i < NBUF && i < |bufs| && bufs[i].refcnt == 0 }

  /** Buffers a and b have been taken, or given back, and nothing else differs; `unpin` is
      one reference less to a. */
  ghost predicate Grabs(bufs: seq<Buf>, bs: seq<Buf>, a: nat, b: nat) {
    |bs| == |bufs| == NBUF + 1 && forall i :: 0 <= i < NBUF ==>
      if i == a || i == b then GrabsOne(bufs[i], bs[i]) else bs[i] == bufs[i]
  }

  ghost predicate GrabsOne(b: Buf, b': Buf) {
    b'.refcnt == b.refcnt + 1 && b'.locked && !b.locked && (b.refcnt > 0 ==> SameBlock(b', b))
  }

  ghost predicate Drops(bufs: seq<Buf>, bs: seq<Buf>, a: nat, b: nat, unpin: bool) {
    |bs| == |bufs| == NBUF + 1 && forall i :: 0 <= i < NBUF ==>
      if i == a || i == b then DropsOne(bufs[i], bs[i], if unpin && i == a then 2 else 1) else Core(bs[i]) == Core(bufs[i])
  }

  ghost predicate DropsOne(b: Buf, b': Buf, n: nat) { b'.refcnt == b.refcnt - n && !b'.locked && SameBlock(b', b) }

  lemma GrabsSwap(bufs: seq<Buf>, bs: seq<Buf>, a: nat, b: nat)
    requires Grabs(bufs, bs, a, b)
    ensures Grabs(bufs, bs, b, a)
  {
  }

  /** What a turn of the log leaves alone: references that are not pins, holders and what
      they hold, and the block of every buffer that is still referenced. Pins go only from
      buffers of the blocks `un`. */
  ghost predicate Steady(bufs: seq<Buf>, pins: seq<nat>, bs: seq<Buf>, pins': seq<nat>, un: seq<nat>) {
    |bs| == |bufs| == NBUF + 1 && |pins'| == |pins| == NBUF
    && forall i :: 0 <= i < NBUF ==> SteadyAt(bufs[i], pins[i], bs[i], pins'[i], un)
  }

  ghost predicate SteadyAt(b: Buf, p: nat, b': Buf, p': nat, un: seq<nat>) {
    b'.refcnt - p' == b.refcnt - p && p' <= p <= b.refcnt && b'.locked == b.locked && (p' == p || b.blockno in un)
    && (b'.refcnt > 0 ==> SameBlock(b', b)) && (b.locked ==> Core(b') == Core(b))
  }

  lemma SteadySelf(bufs: seq<Buf>, pins: seq<nat>, un: seq<nat>)
    requires Counted(bufs, pins)
    ensures Steady(bufs, pins, bufs, pins, un)
  {
  }

  lemma SteadyThen(bufs: seq<Buf>, pins: seq<nat>, mid: seq<Buf>, ps: seq<nat>, bs: seq<Buf>, pins': seq<nat>, un: seq<nat>)
    requires Steady(bufs, pins, mid, ps, un) && Steady(mid, ps, bs, pins', un)
    ensures Steady(bufs, pins, bs, pins', un)
  {
    forall i | 0 <= i < NBUF ensures SteadyAt(bufs[i], pins[i], bs[i], pins'[i], un) {
      assert SteadyAt(bufs[i], pins[i], mid[i], ps[i], un) && SteadyAt(mid[i], ps[i], bs[i], pins'[i], un);
    }
  }

  lemma SteadyMore(bufs: seq<Buf>, pins: seq<nat>, bs: seq<Buf>, pins': seq<nat>, un: seq<nat>)
    requires Steady(bufs, pins, bs, pins', [])
    ensures Steady(bufs, pins, bs, pins', un)
  {
    forall i | 0 <= i < NBUF ensures SteadyAt(bufs[i], pins[i], bs[i], pins'[i], un) {
      assert SteadyAt(bufs[i], pins[i], bs[i], pins'[i], []);
    }
  }

  /** Two buffers were taken, the first was changed, and both were given back. */
  lemma TurnSteady(bufs: seq<Buf>, mid: seq<Buf>, data: Block, bs: seq<Buf>, pins: seq<nat>, a: nat, b: nat, unpin: bool, un: seq<nat>)
    requires Counted(bufs, pins) && a < NBUF && b < NBUF && a != b && Grabs(bufs, mid, a, b) && (unpin ==> pins[a] > 0 && mid[a].blockno in un)
    requires Drops(mid[a := mid[a].(data := data)], bs, a, b, unpin)
    ensures Steady(bufs, pins, bs, if unpin then pins[a := pins[a] - 1] else pins, un)
  {
    hide SameBlock, Core;
    var ps := if unpin then pins[a := pins[a] - 1] else pins;
    forall i | 0 <= i < NBUF ensures SteadyAt(bufs[i], pins[i], bs[i], ps[i], un) {
      if i == a || i == b {
        TurnAt(bufs[i], mid[i], if i == a then data else mid[i].data, bs[i], pins[i], unpin && i == a, un);
      } else {
        CoreSteady(bufs[i], bs[i], pins[i], un);
      }
    }
  }

  lemma TurnAt(b: Buf, m: Buf, data: Block, b': Buf, p: nat, unpin: bool, un: seq<nat>)
    requires p <= b.refcnt && GrabsOne(b, m) && DropsOne(m.(data := data), b', if unpin then 2 else 1) && (unpin ==> p > 0 && m.blockno in un)
    ensures SteadyAt(b, p, b', if unpin then p - 1 else p, un)
  {
  }

  lemma CoreSteady(b: Buf, b': Buf, p: nat, un: seq<nat>)
    requires Core(b') == Core(b) && p <= b.refcnt
    ensures SteadyAt(b, p, b', p, un)
  {
    assert Core(b').refcnt == b'.refcnt && Core(b').locked == b'.locked && Core(b').dev == b'.dev && Core(b').blockno == b'.blockno;
  }

  /** The same for one buffer. */
  lemma OneSteady(bufs: seq<Buf>, read: Buf, data: Block, bs: seq<Buf>, pins: seq<nat>, i: nat)
    requires Counted(bufs, pins) && i < NBUF && |bs| == |bufs| && GrabsOne(bufs[i], read) && DropsOne(read.(data := data), bs[i], 1)
    requires forall j :: 0 <= j < NBUF && j != i ==> Core(bs[j]) == Core(bufs[j])
    ensures Steady(bufs, pins, bs, pins, [])
  {
    hide SameBlock, Core;
    forall j | 0 <= j < NBUF ensures SteadyAt(bufs[j], pins[j], bs[j], pins[j], []) {
      if j == i {
        TurnAt(bufs[j], read, data, bs[j], pins[j], false, []);
      } else {
        CoreSteady(bufs[j], bs[j], pins[j], []);
      }
    }
  }

  lemma SteadySpare(bufs: seq<Buf>, pins: seq<nat>, bs: seq<Buf>, pins': seq<nat>, un: seq<nat>)
    requires Steady(bufs, pins, bs, pins', un)
    ensures Spare(bufs) ==> Spare(bs)
    ensures Quiet(bufs, pins) ==> Quiet(bs, pins')
    ensures pins' == pins && Spare(bs) ==> Spare(bufs)
  {
    forall i | 0 <= i < NBUF ensures SteadyAt(bufs[i], pins[i], bs[i], pins'[i], un) {
    }
    if Spare(bufs) {
      var i :| 0 <= i < NBUF && i < |bufs| && bufs[i].refcnt == 0;
      assert bs[i].refcnt == 0;
    }
    if pins' == pins && Spare(bs) {
      var i :| 0 <= i < NBUF && i < |bs| && bs[i].refcnt == 0;
      assert bufs[i].refcnt == 0;
    }
  }

  /** Without a buffer to recycle, a block that is not unpinned stays cached. */
  lemma SteadyCached(bufs: seq<Buf>, pins: seq<nat>, bs: seq<Buf>, pins': seq<nat>, un: seq<nat>, b: nat)
    requires Steady(bufs, pins, bs, pins', un) && !Spare(bufs) && bufs[HEAD].dev == 0 && bs[HEAD].dev == 0 && b !in un
    ensures Cached(bufs, ROOTDEV, b) ==> Cached(bs, ROOTDEV, b)
    ensures pins' == pins && Cached(bs, ROOTDEV, b) ==> Cached(bufs, ROOTDEV, b)
  {
    if Cached(bufs, ROOTDEV, b) {
      var i :| 0 <= i < |bufs| && bufs[i].dev == ROOTDEV && bufs[i].blockno == b;
      assert bufs[i].refcnt > 0 && SteadyAt(bufs[i], pins[i], bs[i], pins'[i], un);
    }
    if pins' == pins && Cached(bs, ROOTDEV, b) {
      var i :| 0 <= i < |bs| && bs[i].dev == ROOTDEV && bs[i].blockno == b;
      assert bufs[i].refcnt > 0 && SteadyAt(bufs[i], pins[i], bs[i], pins'[i], un);
    }
  }

  // ----- the cache -----

  class Bcache {
    const disk: Device
    var bufs: seq<Buf>          // bcache.buf[NBUF] and, at HEAD, bcache.head
    ghost var order: seq<nat>   // the ring, most recently released first
    ghost var stamp: seq<nat>   // when each buffer was last released
    ghost var clock: nat
    ghost var pins: seq<nat>    // how often each buffer is pinned
    ghost var latest: Image     // what each block held when it was last released

    ghost predicate Valid()
      reads this, disk
    {
      |latest| == |disk.blocks| && |bufs| == NBUF + 1 && |pins| == NBUF
      && Shape(bufs, order, stamp, clock) && Unique(bufs)
      && Transparent(bufs, disk.blocks, latest) && Counted(bufs, pins)
    }

    /** binit */
    constructor (d: Device)
      ensures Valid() && disk == d && latest == d.blocks
      ensures forall i :: 0 <= i < NBUF ==> bufs[i].refcnt == 0 && !bufs[i].locked
      ensures pins == seq(NBUF, _ => 0)
    {
      disk, latest, clock := d, d.blocks, NBUF;
      var bs; ghost var o, t;
      bs, o, t := LinkAll();
      EmptyCache(bs, d.blocks);
      bufs, order, stamp, pins := bs, o, t, seq(NBUF, _ => 0);
    }
    /** bget's first loop: is the block already cached? */
    method FindCached(dev: nat, blockno: nat) returns (r: Option<nat>)
      requires Valid()
      ensures r.Some? ==> r.value < NBUF && Matches(bufs[r.value], dev, blockno)
      ensures r.None? ==> forall i :: 0 <= i < NBUF ==> !Matches(bufs[i], dev, blockno)
    {
      RingAt(bufs, HEAD, order, 0);
      var b := bufs[HEAD].next;
      ghost var k := 1;
      while b != HEAD
        invariant 1 <= k <= NBUF + 1 && b == Ring(HEAD, order)[k]
        invariant forall j :: 0 <= j < k - 1 ==> !Matches(bufs[order[j]], dev, blockno)
        decreases NBUF - k
      {
        RingAt(bufs, HEAD, order, k);
        if bufs[b].dev == dev && bufs[b].blockno == blockno {
          return Some(b);
        }
        b, k := bufs[b].next, k + 1;
      }
      RingAt(bufs, HEAD, order, k);
      forall i | 0 <= i < NBUF ensures !Matches(bufs[i], dev, blockno) {
        var j := Position(order, i);
      }
      return None;
    }

    /** bget's second loop: the least recently released buffer without references. */
    method LeastRecent() returns (r: Option<nat>)
      requires Valid()
      ensures r.Some? ==> r.value < NBUF && bufs[r.value].refcnt == 0
      ensures r.Some? ==> forall i :: 0 <= i < NBUF && i != r.value && bufs[i].refcnt == 0 ==> stamp[r.value] < stamp[i]
      ensures r.None? ==> forall i :: 0 <= i < NBUF ==> bufs[i].refcnt > 0
    {
      RingAt(bufs, HEAD, order, NBUF + 1);
      var b := bufs[HEAD].prev;
      ghost var k := NBUF;
      while b != HEAD
        invariant 0 <= k <= NBUF && b == Ring(HEAD, order)[k]
        invariant forall j :: k <= j < NBUF ==> bufs[order[j]].refcnt > 0
        decreases k
      {
        RingAt(bufs, HEAD, order, k);
        if bufs[b].refcnt == 0 {
          forall i | 0 <= i < NBUF && i != b && bufs[i].refcnt == 0 ensures stamp[b] < stamp[i] {
            var j := Position(order, i);
          }
          return Some(b);
        }
        b, k := bufs[b].prev, k - 1;
      }
      RingAt(bufs, HEAD, order, k);
      forall i | 0 <= i < NBUF ensures bufs[i].refcnt > 0 {
        var j := Position(order, i);
      }
      return None;
    }

    /** bget under bcache.lock: take a reference to the block's buffer, recycling the
        least recently released one if the block is not cached. None is the panic
        "bget: no buffers". */
    method Bget(dev: nat, blockno: nat) returns (r: Option<nat>)
      requires Valid() && (dev == ROOTDEV ==> blockno < |disk.blocks|)
      modifies this`bufs
      ensures Valid()
      ensures r.None? ==> bufs == old(bufs) && forall i :: 0 <= i < NBUF ==> !Matches(bufs[i], dev, blockno) && bufs[i].refcnt > 0
      ensures r.Some? ==> r.value < NBUF && Matches(bufs[r.value], dev, blockno)
      ensures r.Some? ==> bufs == old(bufs)[r.value := bufs[r.value]]
      ensures r.Some? && Matches(old(bufs)[r.value], dev, blockno) ==>
        bufs[r.value] == old(bufs)[r.value].(refcnt := old(bufs)[r.value].refcnt + 1)
      ensures r.Some? && !Matches(old(bufs)[r.value], dev, blockno) ==>
        bufs[r.value] == old(bufs)[r.value].(dev := dev, blockno := blockno, valid := false, refcnt := 1)
        && old(bufs)[r.value].refcnt == 0
        && forall i :: 0 <= i < NBUF && i != r.value && old(bufs)[i].refcnt == 0 ==> stamp[r.value] < stamp[i]
    {
      r := FindCached(dev, blockno);
      if r.Some? {
        var b := bufs[r.value].(refcnt := bufs[r.value].refcnt + 1);
        UpdateShape(bufs, r.value, b, order, stamp, clock);
        UpdateTransparent(bufs, r.value, b, disk.blocks, latest, disk.blocks, latest);
        bufs := bufs[r.value := b];
        return;
      }
      r := LeastRecent();
      if r.Some? {
        var b := bufs[r.value].(dev := dev, blockno := blockno, valid := false, refcnt := 1);
        UpdateShape(bufs, r.value, b, order, stamp, clock);
        RecycleTransparent(bufs, r.value, b, disk.blocks, latest);
        bufs := bufs[r.value := b];
      }
    }

    /** bread: a locked buffer holding what the last holder left in the block. The
        sleep inside acquiresleep ends when nobody holds the block. */
    method Bread(blockno: nat) returns (r: Option<nat>)
      requires Valid() && blockno < |disk.blocks| && Free(bufs, blockno)
      modifies this`bufs
      ensures Valid()
      ensures r.None? ==> bufs == old(bufs) && forall i :: 0 <= i < NBUF ==> !Matches(bufs[i], ROOTDEV, blockno) && bufs[i].refcnt > 0
      ensures r.Some? ==> r.value < NBUF && Matches(bufs[r.value], ROOTDEV, blockno)
      ensures r.Some? ==> bufs[r.value].locked && bufs[r.value].valid && bufs[r.value].data == latest[blockno]
      ensures r.Some? ==> bufs == old(bufs)[r.value := bufs[r.value]] && !old(bufs)[r.value].locked
      ensures r.Some? ==> bufs[r.value].refcnt == old(bufs)[r.value].refcnt + 1
      ensures r.Some? <==> Spare(old(bufs)) || Cached(old(bufs), ROOTDEV, blockno)
      ensures r.Some? ==> GrabsOne(old(bufs)[r.value], bufs[r.value])
      ensures forall c :: c != blockno && Free(old(bufs), c) ==> Free(bufs, c)
      ensures forall c :: Pinned(old(bufs), pins, c) ==> Pinned(bufs, pins, c)
    {
      r := Bget(ROOTDEV, blockno);
      if r.Some? {
        var i := r.value;
        var b := bufs[i].(locked := true);
        if !b.valid {
          b := b.(data := disk.blocks[blockno], valid := true);  // virtio_disk_rw(b, 0)
        }
        UpdateShape(bufs, i, b, order, stamp, clock);
        UpdateTransparent(bufs, i, b, disk.blocks, latest, disk.blocks, latest);
        bufs := bufs[i := b];
      }
    }

    /** The holder changes b->data. */
    method SetData(i: nat, data: Block)
      requires Valid() && i < NBUF && bufs[i].locked && bufs[i].valid
      modifies this`bufs
      ensures Valid() && bufs == old(bufs)[i := old(bufs)[i].(data := data)]
    {
      var b := bufs[i].(data := data);
      UpdateShape(bufs, i, b, order, stamp, clock);
      UpdateTransparent(bufs, i, b, disk.blocks, latest, disk.blocks, latest);
      bufs := bufs[i := b];
    }

    /** bwrite; false is the panic for a buffer that is not held. */
    method Bwrite(i: nat) returns (ok: bool)
      requires Valid() && i < NBUF && bufs[i].dev == ROOTDEV && bufs[i].valid
      modifies disk
      ensures Valid() && ok == bufs[i].locked && bufs[i].blockno < |disk.blocks|
      ensures ok ==> disk.blocks == Put(old(disk.blocks), Write(bufs[i].blockno, bufs[i].data))
      ensures ok ==> disk.writes == old(disk.writes) + [Write(bufs[i].blockno, bufs[i].data)]
      ensures !ok ==> disk.blocks == old(disk.blocks) && disk.writes == old(disk.writes)
    {
      if !bufs[i].locked {
        return false;
      }
      ghost var d := Put(disk.blocks, Write(bufs[i].blockno, bufs[i].data));
      UpdateTransparent(bufs, i, bufs[i], disk.blocks, latest, d, latest);
      disk.WriteBlock(bufs[i].blockno, bufs[i].data);
      ok := true;
    }

    method Bpin(i: nat)
      requires Valid() && i < NBUF
      modifies this`bufs, this`pins
      ensures Valid() && bufs == old(bufs)[i := old(bufs)[i].(refcnt := old(bufs)[i].refcnt + 1)]
      ensures pins == old(pins)[i := old(pins)[i] + 1]
    {
      var b := bufs[i].(refcnt := bufs[i].refcnt + 1);
      UpdateShape(bufs, i, b, order, stamp, clock);
      UpdateTransparent(bufs, i, b, disk.blocks, latest, disk.blocks, latest);
      bufs, pins := bufs[i := b], pins[i := pins[i] + 1];
    }

    /** bunpin: whoever unpins last must have written the buffer. */
    method Bunpin(i: nat)
      requires Valid() && i < NBUF && pins[i] > 0
      requires bufs[i].refcnt == 1 && bufs[i].valid && bufs[i].dev == ROOTDEV ==> bufs[i].data == disk.blocks[bufs[i].blockno]
      modifies this`bufs, this`pins
      ensures Valid() && bufs == old(bufs)[i := old(bufs)[i].(refcnt := old(bufs)[i].refcnt - 1)]
      ensures pins == old(pins)[i := old(pins)[i] - 1]
    {
      var b := bufs[i].(refcnt := bufs[i].refcnt - 1);
      UpdateShape(bufs, i, b, order, stamp, clock);
      UpdateTransparent(bufs, i, b, disk.blocks, latest, disk.blocks, latest);
      bufs, pins := bufs[i := b], pins[i := pins[i] - 1];
    }

    /** The relinking inside brelse. */
    method MoveToFront(i: nat)
      requires Valid() && i < NBUF
      modifies this`bufs, this`order, this`stamp, this`clock
      ensures Valid() && order[0] == i
      ensures SameCore(old(bufs), bufs) && stamp == old(stamp)[i := old(clock)] && clock == old(clock) + 1
    {
      hide Transparent, Unique, Insert, Unlink;
      ghost var p := PlaceOf(bufs, order, stamp, clock, i);
      ReleaseShape(bufs, i, order, stamp, clock, p);
      RelinkTransparent(bufs, Insert(Unlink(bufs, i), HEAD, i), disk.blocks, latest);
      bufs := Insert(Unlink(bufs, i), HEAD, i);
      order, stamp, clock := [i] + (order[..p] + order[p + 1..]), stamp[i := clock], clock + 1;
    }

    /** brelse: the contents become the block's latest, and the last reference moves
        the buffer to the front of the ring. A modified buffer must be written or
        pinned first. */
    method Brelse(i: nat) returns (ok: bool)
      requires Valid() && i < NBUF && bufs[i].dev == ROOTDEV && bufs[i].valid
      requires bufs[i].refcnt == 1 ==> bufs[i].data == disk.blocks[bufs[i].blockno]
      modifies this`bufs, this`order, this`stamp, this`clock, this`latest
      ensures Valid() && ok == old(bufs)[i].locked
      ensures !ok ==> bufs == old(bufs) && latest == old(latest)
      ensures ok ==> latest == old(latest)[old(bufs)[i].blockno := old(bufs)[i].data]
      ensures ok ==> forall j :: 0 <= j <= NBUF && j != i ==> Core(bufs[j]) == Core(old(bufs)[j])
      ensures ok ==> Core(bufs[i]) == Core(old(bufs)[i]).(locked := false, refcnt := old(bufs)[i].refcnt - 1)
      ensures ok && bufs[i].refcnt == 0 ==> order[0] == i && stamp == old(stamp)[i := old(clock)]
      ensures !ok || bufs[i].refcnt > 0 ==> order == old(order) && stamp == old(stamp)
      ensures ok ==> forall c :: c == old(bufs)[i].blockno || Free(old(bufs), c) ==> Free(bufs, c)
      ensures ok ==> forall c :: Pinned(old(bufs), pins, c) ==> Pinned(bufs, pins, c)
    {
      if !bufs[i].locked {
        return false;
      }
      var b := bufs[i].(locked := false, refcnt := bufs[i].refcnt - 1);
      UpdateShape(bufs, i, b, order, stamp, clock);
      ghost var l := latest[b.blockno := b.data];
      UpdateTransparent(bufs, i, b, disk.blocks, latest, disk.blocks, l);
      latest := l;
      bufs := bufs[i := b];
      if b.refcnt == 0 {
        MoveToFront(i);
      }
      ReleaseFrees(old(bufs), bufs, pins, i);
      ok := true;
    }

    /** Read two blocks, in order. None is the panic inside bget. */
    method BreadPair(a: nat, b: nat) returns (r: Option<(nat, nat)>)
      requires Valid() && a < |disk.blocks| && b < |disk.blocks| && a != b
      requires Free(bufs, a) && Free(bufs, b)
      modifies this`bufs
      ensures r.Some? ==> Valid() && Holds(bufs, r.value.0, a, latest[a]) && Holds(bufs, r.value.1, b, latest[b])
      ensures r.Some? ==> forall c :: c != a && c != b && Free(old(bufs), c) ==> Free(bufs, c)
      ensures r.Some? ==> forall c :: Pinned(old(bufs), pins, c) ==> Pinned(bufs, pins, c)
      ensures r.Some? ==> Grabs(old(bufs), bufs, r.value.0, r.value.1)
      ensures Pinned(old(bufs), pins, b) ==> (r.Some? <==> Spare(old(bufs)) || Cached(old(bufs), ROOTDEV, a))
      ensures (forall i :: 0 <= i < NBUF ==> old(bufs)[i].refcnt == 0) ==> r.Some?
    {
      hide Shape, Transparent, Free, Pinned, Cached;
      var first := Bread(a);
      if first.None? {
        NoSpare(bufs);
        assert old(bufs)[0].refcnt > 0;
        return None;
      }
      ghost var mid := bufs;
      var second := Bread(b);
      if second.None? {
        NotPinned(mid, pins, b);
        assert old(bufs)[if first.value == 0 then 1 else 0].refcnt > 0;
        return None;
      }
      r := Some((first.value, second.value));
    }

    /** bwrite(w); then, when installing, bunpin(w); brelse(o); brelse(w). */
    method WriteAndRelease(w: nat, o: nat, unpin: bool)
      requires Valid() && w != o && w < NBUF && o < NBUF
      requires Holds(bufs, w, bufs[w].blockno, bufs[w].data) && Holds(bufs, o, bufs[o].blockno, bufs[o].data)
      requires pins[o] > 0 || bufs[o].data == disk.blocks[bufs[o].blockno]
      requires unpin ==> pins[w] > 0
      modifies this, disk
      ensures Valid()
      ensures var x := Write(old(bufs)[w].blockno, old(bufs)[w].data);
        disk.blocks == Put(old(disk.blocks), x) && disk.writes == old(disk.writes) + [x]
        && latest == Put(old(latest)[old(bufs)[o].blockno := old(bufs)[o].data], x)
      ensures pins == if unpin then old(pins)[w := old(pins)[w] - 1] else old(pins)
      ensures forall c :: c == old(bufs)[w].blockno || c == old(bufs)[o].blockno || Free(old(bufs), c) ==> Free(bufs, c)
      ensures forall c :: Pinned(old(bufs), old(pins), c) && (unpin ==> c != old(bufs)[w].blockno) ==> Pinned(bufs, pins, c)
      ensures Drops(old(bufs), bufs, w, o, unpin)
    {
      hide Shape, Transparent, Free, Pinned;
      assert bufs[w].blockno != bufs[o].blockno by {
        assert !SameBlock(bufs[if w < o then w else o], bufs[if w < o then o else w]);
      }
      assert bufs[o].blockno < |disk.blocks| by { InDisk(bufs, disk.blocks, latest, o); }
      var ok := Bwrite(w);
      if unpin {
        ghost var bs, ps := bufs, pins;
        Bunpin(w);
        UnpinFrees(bs, ps, w);
      }
      ok := Brelse(o);
      ok := Brelse(w);
    }
  }

  lemma NoSpare(bufs: seq<Buf>)
    requires |bufs| > NBUF && forall i :: 0 <= i < NBUF ==> bufs[i].refcnt > 0
    ensures !Spare(bufs)
  {
  }

  lemma NotPinned(bufs: seq<Buf>, pins: seq<nat>, b: nat)
    requires |pins| == NBUF < |bufs| && forall i :: 0 <= i < NBUF ==> !Matches(bufs[i], ROOTDEV, b)
    ensures !Pinned(bufs, pins, b)
  {
  }

  /** Buffer i is held for block b and contains `data`. */
  ghost predicate Holds(bufs: seq<Buf>, i: nat, b: nat, data: Block) {
    i < NBUF < |bufs| && Matches(bufs[i], ROOTDEV, b) && bufs[i].locked && bufs[i].valid && bufs[i].data == data
  }

  lemma InDisk(bufs: seq<Buf>, disk: Image, latest: Image, i: nat)
    requires Transparent(bufs, disk, latest) && i < |bufs| && bufs[i].dev == ROOTDEV
    ensures bufs[i].blockno < |disk|
  {
    assert BufOk(bufs[i], disk, latest);
  }

  lemma UnpinFrees(bufs: seq<Buf>, pins: seq<nat>, i: nat)
    requires i < |pins| < |bufs| && bufs[i].refcnt > 0 && pins[i] > 0
    ensures var bs, ps := bufs[i := bufs[i].(refcnt := bufs[i].refcnt - 1)], pins[i := pins[i] - 1];
      (forall c :: Free(bufs, c) ==> Free(bs, c))
      && forall c :: Pinned(bufs, pins, c) && c != bufs[i].blockno ==> Pinned(bs, ps, c)
  {
    var bs, ps := bufs[i := bufs[i].(refcnt := bufs[i].refcnt - 1)], pins[i := pins[i] - 1];
    forall c | Pinned(bufs, pins, c) && c != bufs[i].blockno ensures Pinned(bs, ps, c) {
      var j :| 0 <= j < |pins| && Matches(bufs[j], ROOTDEV, c) && bufs[j].valid && pins[j] > 0;
      assert Matches(bs[j], ROOTDEV, c);
    }
    forall c | Free(bufs, c) ensures Free(bs, c) {
      forall j | 0 <= j < |bs| && Matches(bs[j], ROOTDEV, c) ensures !bs[j].locked {
        assert Matches(bufs[j], ROOTDEV, c);
      }
    }
  }

  lemma SetDataFrees(bufs: seq<Buf>, i: nat, data: Block, pins: seq<nat>)
    requires i < |bufs| && |pins| < |bufs|
    ensures forall c :: Free(bufs, c) ==> Free(bufs[i := bufs[i].(data := data)], c)
    ensures forall c :: Pinned(bufs, pins, c) ==> Pinned(bufs[i := bufs[i].(data := data)], pins, c)
  {
    var bs := bufs[i := bufs[i].(data := data)];
    forall c | Pinned(bufs, pins, c) ensures Pinned(bs, pins, c) {
      var j :| 0 <= j < |pins| && Matches(bufs[j], ROOTDEV, c) && bufs[j].valid && pins[j] > 0;
      assert Matches(bs[j], ROOTDEV, c);
    }
    forall c | Free(bufs, c) ensures Free(bs, c) {
      forall j | 0 <= j < |bs| && Matches(bs[j], ROOTDEV, c) ensures !bs[j].locked {
        assert Matches(bufs[j], ROOTDEV, c);
      }
    }
  }

  lemma ReleaseFrees(bufs: seq<Buf>, bs: seq<Buf>, pins: seq<nat>, i: nat)
    requires Unique(bufs) && i < |bufs| == |bs| && |pins| < |bufs| && bufs[i].dev == ROOTDEV
    requires forall j :: 0 <= j < |bufs| && j != i ==> Core(bs[j]) == Core(bufs[j])
    requires Core(bs[i]) == Core(bufs[i]).(locked := false, refcnt := bs[i].refcnt)
    ensures forall c :: c == bufs[i].blockno || Free(bufs, c) ==> Free(bs, c)
    ensures forall c :: Pinned(bufs, pins, c) ==> Pinned(bs, pins, c)
  {
    assert forall j :: 0 <= j < |bufs| ==> SameBlock(bs[j], bufs[j]) && bs[j].valid == bufs[j].valid && (bs[j].locked ==> j != i && bufs[j].locked);
    forall c | Pinned(bufs, pins, c) ensures Pinned(bs, pins, c) {
      var j :| 0 <= j < |pins| && Matches(bufs[j], ROOTDEV, c) && bufs[j].valid && pins[j] > 0;
      assert SameBlock(bs[j], bufs[j]);
      assert Matches(bs[j], ROOTDEV, c);
    }
    forall c | c == bufs[i].blockno || Free(bufs, c) ensures Free(bs, c) {
      forall j | 0 <= j < |bs| && Matches(bs[j], ROOTDEV, c) ensures !bs[j].locked {
        assert SameBlock(bs[j], bufs[j]);
      }
    }
  }

  lemma RelinkTransparent(bufs: seq<Buf>, bs: seq<Buf>, disk: Image, latest: Image)
    requires Unique(bufs) && Transparent(bufs, disk, latest)
    requires SameCore(bufs, bs)
    ensures Unique(bs) && Transparent(bs, disk, latest)
  {
    forall j | 0 <= j < |bs| ensures SameBlock(bs[j], bufs[j]) && BufOk(bs[j], disk, latest) {
      assert Core(bs[j]) == Core(bufs[j]) && BufOk(bufs[j], disk, latest);
    }
    forall n | 0 <= n < |disk| && !Cached(bs, ROOTDEV, n) ensures disk[n] == latest[n] {
      assert !Cached(bufs, ROOTDEV, n);
    }
  }

  lemma PlaceOf(bufs: seq<Buf>, order: seq<nat>, stamp: seq<nat>, clock: nat, i: nat) returns (p: nat)
    requires Shape(bufs, order, stamp, clock) && i < NBUF
    ensures p < |order| == NBUF && order[p] == i && |stamp| == NBUF
  {
    p := Position(order, i);
  }

  lemma Position(order: seq<nat>, i: nat) returns (j: nat)
    requires i in order
    ensures j < |order| && order[j] == i
  {
    j :| j < |order| && order[j] == i;
  }

  /** binit's loop: put the buffers one after the other behind the sentinel. */
  method LinkAll() returns (bufs: seq<Buf>, ghost order: seq<nat>, ghost stamp: seq<nat>)
    ensures Shape(bufs, order, stamp, NBUF)
    ensures forall j :: 0 <= j <= NBUF ==> bufs[j] == EmptyBuf(bufs[j].prev, bufs[j].next)
  {
    bufs := seq(NBUF + 1, _ => EmptyBuf(HEAD, HEAD));
    order, stamp := [], [];
    for i := 0 to NBUF
      invariant |bufs| == NBUF + 1 && |order| == |stamp| == i
      invariant forall k :: 0 <= k < i ==> order[k] == i - 1 - k && stamp[k] == k
      invariant forall k :: 0 <= k < i ==> k in order
      invariant forall j :: 0 <= j <= NBUF ==> bufs[j] == EmptyBuf(bufs[j].prev, bufs[j].next)
      invariant Linked(bufs, HEAD, order)
    {
      InsertLinks(bufs, HEAD, order, i);
      bufs := Insert(bufs, HEAD, i);
      order, stamp := [i as nat] + order, stamp + [i as nat];
    }
  }

  lemma RingAt(bufs: seq<Buf>, head: nat, order: seq<nat>, k: nat)
    requires Linked(bufs, head, order) && k <= |order| + 1
    ensures k <= |order| ==> bufs[Ring(head, order)[k]].next == Ring(head, order)[k + 1]
    ensures k > 0 ==> bufs[Ring(head, order)[k]].prev == Ring(head, order)[k - 1]
    ensures Ring(head, order)[k] == head <==> k == 0 || k == |order| + 1
  {
    if k <= |order| { assert Hop(bufs, Ring(head, order)[k], Ring(head, order)[k + 1]); }
    if k > 0 { assert Hop(bufs, Ring(head, order)[k - 1], Ring(head, order)[k]); }
  }

  predicate Matches(b: Buf, dev: nat, blockno: nat) { b.dev == dev && b.blockno == blockno }

  function EmptyBuf(prev: nat, next: nat): Buf {
    Buf(false, 0, 0, false, 0, prev, next, seq(WORDS, _ => 0))
  }

  lemma EmptyCache(bufs: seq<Buf>, disk: Image)
    requires forall j :: 0 <= j < |bufs| ==> bufs[j] == EmptyBuf(bufs[j].prev, bufs[j].next)
    ensures Unique(bufs) && Transparent(bufs, disk, disk)
  {
    forall j | 0 <= j < |bufs| ensures BufOk(bufs[j], disk, disk) && bufs[j].dev == 0 {
      assert bufs[j] == EmptyBuf(bufs[j].prev, bufs[j].next);
    }
  }
}
