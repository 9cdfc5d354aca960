/** The virtio block driver's queue against a device that completes requests in any
    order. Requests wait in the available ring, then in the device, then in the used
    ring, and then for the process that issued them. */
module Virtio {
  import opened Wrappers
  import Counting

  const NUM: nat := 8
  const WRAP: nat := 0x1_0000        // the ring indices are 16 bits wide
  const F_NEXT: nat := 1
  const F_WRITE: nat := 2
  const BSIZE: nat := 1024

  /** What a descriptor's address points at: a command header, a buffer's data, or a
      status byte. */
  datatype Ptr = Nil | Op(i: nat) | Data(b: nat) | Status(i: nat)

  datatype Desc = Desc(addr: Ptr, len: nat, flags: nat, next: nat)

  datatype BlkReq = BlkReq(out: bool, sector: nat)   // type and sector of a command

  datatype Info = Info(b: Option<nat>, status: nat)

  /** A request in flight, known by its first descriptor. */
  datatype Req = Req(b: nat, write: bool, sector: nat, mid: nat, tail: nat)

  // ----- descriptors -----

  predicate Chained(desc: seq<Desc>, ops: seq<BlkReq>, info: seq<Info>, h: nat, r: Req) {
    |desc| == |ops| == |info| == NUM && h < NUM && r.mid < NUM && r.tail < NUM && h != r.mid && h != r.tail && r.mid != r.tail
    && ops[h] == BlkReq(r.write, r.sector) && info[h].b == Some(r.b)
    && desc[h] == Desc(Op(h), 16, F_NEXT, r.mid)
    && desc[r.mid] == Desc(Data(r.b), BSIZE, if r.write then F_NEXT else F_WRITE + F_NEXT, r.tail)
    && desc[r.tail] == Desc(Status(h), 1, F_WRITE, 0)
  }

  /** Each descriptor is free or part of exactly one chain in flight. */
  ghost predicate Partition(free: seq<bool>, owner: seq<Option<nat>>, chains: map<nat, Req>) {
    |free| == |owner| == NUM
    && (forall i :: 0 <= i < NUM ==> (free[i] <==> owner[i].None?))
    && (forall i :: 0 <= i < NUM && owner[i].Some? ==> owner[i].value in chains && Member(owner[i].value, chains[owner[i].value], i))
    && (forall h, i :: h in chains && 0 <= i < NUM && Member(h, chains[h], i) ==> owner[i] == Some(h))
  }

  predicate Member(h: nat, r: Req, i: nat) { i == h || i == r.mid || i == r.tail }

  ghost predicate AllChained(desc: seq<Desc>, ops: seq<BlkReq>, info: seq<Info>, chains: map<nat, Req>) {
    |desc| == |ops| == |info| == NUM && forall h :: h in chains ==> Chained(desc, ops, info, h, chains[h])
  }

  // ----- where the requests are -----

  /** Queued in the available ring, taken by the device, done in the used ring, seen by
      the interrupt handler; and how many have been queued, taken, done and seen ever. */
  datatype Flight = Flight(queued: seq<nat>, taken: seq<nat>, done: seq<nat>, seen: seq<nat>, nAvail: nat, nTaken: nat, nUsed: nat, nSeen: nat)

  function Queued(f: Flight, h: nat): Flight { f.(queued := f.queued + [h], nAvail := f.nAvail + 1) }

  function Heads(f: Flight): seq<nat> { f.queued + f.taken + f.done + f.seen }

  function Waiting(f: Flight): seq<nat> { f.queued + f.taken + f.done }

  ghost predicate NoDup(s: seq<nat>) { forall i, j :: 0 <= i < j < |s| ==> s[i] != s[j] }

  ghost predicate Located(f: Flight, chains: map<nat, Req>) {
    NoDup(Heads(f)) && (forall h :: h in Heads(f) <==> h in chains)
    && f.nAvail == f.nTaken + |f.queued| && f.nTaken == f.nUsed + |f.taken| && f.nUsed == f.nSeen + |f.done|
  }

  function Slot(n: nat): (r: nat)
    ensures r < NUM
  {
    n % NUM
  }

  ghost predicate InRing(ring: seq<nat>, from: nat, entries: seq<nat>) {
    |ring| == NUM && |entries| <= NUM && forall i :: 0 <= i < |entries| ==> ring[Slot(from + i)] == entries[i]
  }

  // ----- at most two requests -----

  /** Three chains would need nine descriptors. */
  lemma AtMostTwo(desc: seq<Desc>, ops: seq<BlkReq>, info: seq<Info>, free: seq<bool>, owner: seq<Option<nat>>, chains: map<nat, Req>, f: Flight)
    requires Partition(free, owner, chains) && AllChained(desc, ops, info, chains) && Located(f, chains)
    ensures |Heads(f)| <= 2
  {
    var s := Heads(f);
    if |s| > 2 {
      assert s[0] in chains && s[1] in chains && s[2] in chains && s[0] != s[1] && s[0] != s[2] && s[1] != s[2];
      NineDistinct(desc, ops, info, free, owner, chains, s[0], s[1], s[2]);
    }
  }

  lemma NineDistinct(desc: seq<Desc>, ops: seq<BlkReq>, info: seq<Info>, free: seq<bool>, owner: seq<Option<nat>>, chains: map<nat, Req>, a: nat, b: nat, c: nat)
    requires Partition(free, owner, chains) && AllChained(desc, ops, info, chains) && a in chains && b in chains && c in chains
    ensures a == b || a == c || b == c
  {
    var ra, rb, rc := chains[a], chains[b], chains[c];
    assert Chained(desc, ops, info, a, ra) && Chained(desc, ops, info, b, rb) && Chained(desc, ops, info, c, rc);
    var t := [a, ra.mid, ra.tail, b, rb.mid, rb.tail, c, rc.mid, rc.tail];
    forall i | 0 <= i < 9 ensures t[i] < NUM && owner[t[i]] == Some(if i < 3 then a else if i < 6 then b else c) {
      assert Member(a, ra, a) && Member(a, ra, ra.mid) && Member(a, ra, ra.tail);
      assert Member(b, rb, b) && Member(b, rb, rb.mid) && Member(b, rb, rb.tail);
      assert Member(c, rc, c) && Member(c, rc, rc.mid) && Member(c, rc, rc.tail);
    }
    if a != b && a != c && b != c {
      Counting.Pigeonhole(t, NUM);
    }
  }

  // ----- rings -----

  lemma SlotsApart(a: nat, b: nat)
    requires a < b < a + NUM
    ensures Slot(a) != Slot(b)
  {
  }

  /** The 16-bit index names the same slot as the true count. */
  lemma SlotWrap(n: nat)
    ensures Slot(n % WRAP) == Slot(n)
  {
    assert WRAP % NUM == 0 && n == n / WRAP * WRAP + n % WRAP;
    assert n / WRAP * WRAP == (n / WRAP * 0x2000) * NUM;
  }

  lemma RingPut(ring: seq<nat>, from: nat, entries: seq<nat>, x: nat)
    requires InRing(ring, from, entries) && |entries| < NUM
    ensures InRing(ring[Slot(from + |entries|) := x], from, entries + [x])
  {
    var r, e := ring[Slot(from + |entries|) := x], entries + [x];
    forall i | 0 <= i < |e| ensures r[Slot(from + i)] == e[i] {
      if i < |entries| {
        SlotsApart(from + i, from + |entries|);
      }
    }
  }

  lemma RingGet(ring: seq<nat>, from: nat, entries: seq<nat>)
    requires InRing(ring, from, entries) && |entries| > 0
    ensures ring[Slot(from)] == entries[0] && InRing(ring, from + 1, entries[1..])
  {
    assert ring[Slot(from + 0)] == entries[0];
    forall i | 0 <= i < |entries| - 1 ensures ring[Slot(from + 1 + i)] == entries[1..][i] {
      assert ring[Slot(from + (i + 1))] == entries[i + 1];
    }
  }

  /** With fewer than WRAP in between, equal indices mean equal counts. */
  lemma SameIndex(a: nat, b: nat)
    requires a <= b < a + WRAP
    ensures a % WRAP == b % WRAP <==> a == b
  {
  }

  lemma NextIndex(n: nat)
    ensures Bump(n % WRAP) == (n + 1) % WRAP
  {
  }

  // ----- the books -----

  /** b->disk is 1 exactly for the buffers of requests not yet seen, and has gone from 1
      to 0 once for each of the others. */
  ghost predicate Counted(busy: set<nat>, submitted: multiset<nat>, completed: multiset<nat>) {
    forall b :: submitted[b] == completed[b] + if b in busy then 1 else 0
  }

  ghost predicate Buffers(f: Flight, chains: map<nat, Req>, busy: set<nat>)
    requires forall h :: h in Heads(f) <==> h in chains
  {
    (forall i :: 0 <= i < |Waiting(f)| ==> HeadIn(f, Waiting(f)[i]) && chains[Waiting(f)[i]].b in busy)
    && (forall i :: 0 <= i < |f.seen| ==> HeadIn(f, f.seen[i]) && chains[f.seen[i]].b !in busy)
    && (forall b :: b in busy ==> exists h :: h in chains && chains[h].b == b)
    && (forall g, h :: g in chains && h in chains && g != h ==> chains[g].b != chains[h].b)
  }

  function Bump(n: nat): nat { (n + 1) % WRAP }

  predicate HeadIn(f: Flight, h: nat) { h in Heads(f) }

  ghost predicate Rings(f: Flight, availRing: seq<nat>, availIdx: nat, devIdx: nat, usedRing: seq<nat>, usedDev: nat, usedIdx: nat) {
    InRing(availRing, f.nTaken, f.queued) && InRing(usedRing, f.nSeen, f.done)
    && availIdx == f.nAvail % WRAP && devIdx == f.nTaken % WRAP && usedDev == f.nUsed % WRAP && usedIdx == f.nSeen % WRAP
  }

  /** Which chain a descriptor belongs to, the requests in flight and where they are, and
      how often each buffer has been submitted and completed. */
  datatype Book = Book(owner: seq<Option<nat>>, chains: map<nat, Req>, f: Flight, submitted: multiset<nat>, completed: multiset<nat>)

  class Disk {
    var desc: seq<Desc>
    var free: seq<bool>
    var ops: seq<BlkReq>
    var info: seq<Info>
    var availRing: seq<nat>
    var availIdx: nat            // avail->idx
    var usedRing: seq<nat>       // written by the device
    var usedDev: nat             // used->idx, written by the device
    var usedIdx: nat             // used_idx: how far the driver has looked
    var devIdx: nat              // how far the device has looked in avail
    var busy: set<nat>           // buffers with b->disk == 1
    ghost var g: Book

    ghost predicate Valid()
      reads this
    {
      Partition(free, g.owner, g.chains) && AllChained(desc, ops, info, g.chains) && Located(g.f, g.chains) && Buffers(g.f, g.chains, busy)
      && Rings(g.f, availRing, availIdx, devIdx, usedRing, usedDev, usedIdx) && Counted(busy, g.submitted, g.completed)
    }

    constructor ()
      ensures Valid() && g.chains == map[] && busy == {} && g.submitted == g.completed == multiset{}
    {
      desc, free, ops := seq(NUM, _ => Desc(Nil, 0, 0, 0)), seq(NUM, _ => true), seq(NUM, _ => BlkReq(false, 0));
      info, availRing, usedRing := seq(NUM, _ => Info(None, 0)), seq(NUM, _ => 0), seq(NUM, _ => 0);
      availIdx, usedDev, usedIdx, devIdx, busy := 0, 0, 0, 0, {};
      g := Book(seq(NUM, _ => None), map[], Flight([], [], [], [], 0, 0, 0, 0), multiset{}, multiset{});
    }

    /** alloc_desc: the first free descriptor, marked as used. */
    method AllocDesc() returns (i: Option<nat>)
      requires |free| == NUM
      modifies this`free
      ensures |free| == NUM
      ensures i.None? <==> forall k :: 0 <= k < NUM ==> !old(free)[k]
      ensures i.None? ==> free == old(free)
      ensures i.Some? ==> i.value < NUM && old(free)[i.value] && free == old(free)[i.value := false]
      ensures i.Some? ==> forall k :: 0 <= k < i.value ==> !old(free)[k]
    {
      var k := 0;
      while k < NUM
        invariant 0 <= k <= NUM && free == old(free) && forall j :: 0 <= j < k ==> !free[j]
      {
        if free[k] {
          free := free[k := false];
          return Some(k);
        }
        k := k + 1;
      }
      i := None;
    }

    /** free_desc; false is one of its panics. */
    method FreeDesc(i: nat) returns (ok: bool)
      requires |free| == |desc| == NUM
      modifies this`free, this`desc
      ensures ok == (i < NUM && !old(free)[i]) && |free| == |desc| == NUM
      ensures ok ==> free == old(free)[i := true] && desc == old(desc)[i := Desc(Nil, 0, 0, 0)]
      ensures !ok ==> free == old(free) && desc == old(desc)
    {
      if i >= NUM || free[i] {
        return false;
      }
      desc := desc[i := Desc(Nil, 0, 0, 0)];
      free := free[i := true];
      ok := true;
    }

    /** alloc3_desc: three descriptors, or none and nothing changed but the contents of
        free descriptors. */
    method Alloc3Desc() returns (idx: seq<nat>)
      requires |free| == |desc| == NUM
      modifies this`free, this`desc
      ensures |free| == |desc| == NUM && (|idx| == 3 || idx == [])
      ensures |idx| == 3 ==> AreFree(old(free), idx) && free == Marked(old(free), idx) && desc == old(desc)
      ensures idx == [] ==> free == old(free) && forall k :: 0 <= k < NUM && !free[k] ==> desc[k] == old(desc)[k]
      ensures idx == [] ==> !ThreeFree(old(free))
    {
      idx := [];
      while |idx| < 3
        invariant |idx| <= 3 && |free| == NUM && AreFree(old(free), idx) && free == Marked(old(free), idx) && desc == old(desc)
      {
        var i := AllocDesc();
        if i.None? {
          TooFew(old(free), idx);
          var j := 0;
          while j < |idx|
            invariant 0 <= j <= |idx| < 3 && |free| == |desc| == NUM && free == Marked(old(free), idx[j..])
            invariant forall k :: 0 <= k < NUM && !old(free)[k] ==> desc[k] == old(desc)[k]
          {
            MarkedBack(old(free), idx, j);
            var ok := FreeDesc(idx[j]);
            j := j + 1;
          }
          assert idx[|idx|..] == [];
          return [];
        }
        MarkedMore(old(free), idx, i.value);
        idx := idx + [i.value];
      }
    }

    /** virtio_disk_rw up to the wait: None if three descriptors are not to be had. The
        caller holds the buffer's lock, so the buffer is not in flight. */
    method Submit(b: nat, blockno: nat, write: bool) returns (head: Option<nat>, ghost r: Req)
      requires Valid() && forall h :: h in g.chains ==> g.chains[h].b != b
      modifies this
      ensures Valid()
      ensures head.None? <==> !ThreeFree(old(free))
      ensures head.None? ==> g.chains == old(g.chains) && g.f == old(g.f) && busy == old(busy) && g.submitted == old(g.submitted) && g.completed == old(g.completed) && free == old(free)
      ensures head.Some? ==> head.value !in old(g.chains) && g.chains == old(g.chains)[head.value := r] && r == Req(b, write, blockno * 2 % 0x1_0000_0000, r.mid, r.tail)
      ensures head.Some? ==> g.f == Queued(old(g.f), head.value) && busy == old(busy) + {b} && g.submitted == old(g.submitted) + multiset{b} && g.completed == old(g.completed)
    {
      hide Partition, Chained, Located, Buffers, Rings, Counted, AllChained, ThreeFree, AreFree, Formatted, Publishable, Queued;
      PartitionSizes(free, g.owner, g.chains, desc, ops, info);
      var sector := blockno * 2 % 0x1_0000_0000;   // 32-bit arithmetic
      var idx := Alloc3Desc();
      if idx == [] {
        SameChained(old(desc), desc, ops, info, free, g.owner, g.chains);
        head, r := None, Req(b, write, sector, 0, 0);
        return;
      }
      var h, q := idx[0], Req(b, write, sector, idx[1], idx[2]);
      r := q;
      assert idx == [h, r.mid, r.tail];
      IdxFacts(old(free), h, r);
      ThreeFound(old(free), h, r.mid, r.tail);
      Format(h, q);
      SubmitOk(old(free), old(desc), old(ops), old(info), free, desc, ops, info, g.owner, g.chains, g.f, availRing, availIdx, devIdx, usedRing, usedDev, usedIdx,
        busy, g.submitted, g.completed, h, r);
      Publish(h, q);
      head := Some(h);
    }

    /** Mark the buffer, enter the chain into the available ring and step the index. */
    method Publish(h: nat, r: Req)
      requires Publishable(free, desc, ops, info, g.owner, g.chains, g.f, availRing, availIdx, devIdx, usedRing, usedDev, usedIdx, busy, g.submitted, g.completed, h, r)
      modifies this
      ensures g.completed == old(g.completed)
      ensures Valid() && h !in old(g.chains) && g.chains == old(g.chains)[h := r] && busy == old(busy) + {r.b} && g.submitted == old(g.submitted) + multiset{r.b}
      ensures g.f == Queued(old(g.f), h)
    {
      hide Partition, Located, Buffers, Rings, Counted, AllChained, Owned, Slot, Queued, Bump, Publishable;
      PublishFacts(free, desc, ops, info, g.owner, g.chains, g.f, availRing, availIdx, devIdx, usedRing, usedDev, usedIdx, busy, g.submitted, g.completed, h, r);
      busy := busy + {r.b};
      availRing := availRing[Slot(availIdx) := h];
      availIdx := Bump(availIdx);
      g := Book(Owned(g.owner, h, r, Some(h)), g.chains[h := r], Queued(g.f, h), g.submitted + multiset{r.b}, g.completed);
    }

    /** Fill in the three descriptors, the command and the status byte. */
    method Format(h: nat, r: Req)
      requires |desc| == |ops| == |info| == NUM && h < NUM && r.mid < NUM && r.tail < NUM && h != r.mid && h != r.tail && r.mid != r.tail
      modifies this`desc, this`ops, this`info
      ensures Formatted(old(desc), old(ops), old(info), desc, ops, info, h, r)
    {
      ops := ops[h := BlkReq(r.write, r.sector)];
      desc := desc[h := Desc(Op(h), 16, F_NEXT, r.mid)];
      desc := desc[r.mid := Desc(Data(r.b), BSIZE, if r.write then F_NEXT else F_WRITE + F_NEXT, r.tail)];
      info := info[h := Info(Some(r.b), 0xff)];
      desc := desc[r.tail := Desc(Status(h), 1, F_WRITE, 0)];
    }

    /** The device takes the next request from the available ring and reads its chain;
        None if there is none. */
    method DeviceTake() returns (head: Option<nat>)
      requires Valid()
      modifies this`devIdx, this`g
      ensures Valid()
      ensures head.None? <==> old(g).f.queued == []
      ensures head.None? ==> g == old(g)
      ensures head.Some? ==> head.value == old(g).f.queued[0] && g == old(g).(f := Taken(old(g).f))
      ensures head.Some? ==> head.value in g.chains && Chained(desc, ops, info, head.value, g.chains[head.value])
    {
      hide Partition, Chained, Buffers, Counted, Located, Rings;
      TakeRing(desc, ops, info, free, g.owner, g.chains, g.f, availRing, availIdx, devIdx, usedRing, usedDev, usedIdx);
      if devIdx == availIdx {
        return None;
      }
      head := Some(availRing[Slot(devIdx)]);
      TakenLocated(g.f, g.chains, busy);
      devIdx := Bump(devIdx);
      g := g.(f := Taken(g.f));
    }

    /** The device completes a request it has taken, any of them, with a status. */
    method DeviceDone(h: nat, status: nat, ghost j: nat)
      requires Valid() && j < |g.f.taken| && h == g.f.taken[j]
      modifies this`usedRing, this`usedDev, this`info, this`g
      ensures Valid() && g == old(g).(f := Finished(old(g).f, j)) && |info| == |old(info)| == NUM && h < NUM && info[h].status == status
      ensures forall i :: 0 <= i < NUM && i != h ==> info[i] == old(info)[i]
    {
      hide Partition, Buffers, Counted, Located, Rings, AllChained;
      DoneRing(desc, ops, info, free, g.owner, g.chains, g.f, availRing, availIdx, devIdx, usedRing, usedDev, usedIdx, j);
      FinishedLocated(g.f, g.chains, busy, j);
      StatusChained(desc, ops, info, g.chains, h, status);
      PartitionSizes(free, g.owner, g.chains, desc, ops, info);
      info := info[h := info[h].(status := status)];
      usedRing := usedRing[Slot(usedDev) := h];
      usedDev := Bump(usedDev);
      g := g.(f := Finished(g.f, j));
    }

    /** One turn of the loop in virtio_disk_intr; false is its panic. */
    method IntrTurn() returns (ok: bool)
      requires Valid() && usedIdx != usedDev
      modifies this`usedIdx, this`busy, this`g
      ensures Valid() && old(g).f.done != [] && old(g).f.done[0] in g.chains && old(g).f.done[0] < |info| && ok == (info[old(g).f.done[0]].status == 0)
      ensures !ok ==> g == old(g) && busy == old(busy)
      ensures var b := g.chains[old(g).f.done[0]].b;
        ok ==> b in old(busy) && busy == old(busy) - {b} && g == old(g).(f := Noticed(old(g).f), completed := old(g).completed + multiset{b})
    {
      hide Partition, Chained, Buffers, Counted, Located, Rings;
      SeenRing(desc, ops, info, free, g.owner, g.chains, g.f, availRing, availIdx, devIdx, usedRing, usedDev, usedIdx);
      NoticedBuffers(g.f, g.chains, busy);
      var id := usedRing[Slot(usedIdx)];
      InfoOf(desc, ops, info, g.chains, id);
      if info[id].status != 0 {
        return false;
      }
      var b := info[id].b.value;
      SeenCount(busy, g.submitted, g.completed, b);
      busy := busy - {b};
      usedIdx := Bump(usedIdx);
      g := g.(f := Noticed(g.f), completed := g.completed + multiset{b});
      ok := true;
    }

    /** virtio_disk_intr: see all the device has done. False is the panic, which happens
        exactly if one of those requests has a status other than 0. */
    method Intr() returns (ok: bool)
      requires Valid()
      modifies this`usedIdx, this`busy, this`g
      ensures Valid() && g == old(g).(f := g.f, completed := g.completed)
      ensures ok <==> AllZero(old(g).f.done, info)
      ensures ok ==> g.f == AllNoticed(old(g).f) && forall i :: 0 <= i < |old(g).f.done| ==> old(g).f.done[i] in g.chains && g.chains[old(g).f.done[i]].b !in busy
    {
      hide Partition, Chained, Buffers, Counted, Located, Rings, AllZero, AllChained, Seen;
      ghost var f0 := g.f;
      SeenStart(f0, info, g.chains, busy);
      while usedIdx != usedDev
        invariant Valid() && g == old(g).(f := g.f, completed := g.completed) && Seen(f0, g.f, info, g.chains, busy)
        decreases |g.f.done|
      {
        ghost var f1, busy1 := g.f, busy;
        ok := IntrTurn();
        SeenNext(f0, f1, info, g.chains, busy1);
        if !ok {
          return;
        }
      }
      SeenRing(desc, ops, info, free, g.owner, g.chains, g.f, availRing, availIdx, devIdx, usedRing, usedDev, usedIdx);
      SeenEnd(f0, g.f, info, g.chains, busy);
      ok := true;
    }

    /** free_chain; false is a panic of free_desc. */
    method FreeChain(h: nat, ghost r: Req) returns (ok: bool)
      requires |free| == |info| == NUM && h < NUM && Chained(desc, ops, info[h := info[h].(b := Some(r.b))], h, r) && !free[h] && !free[r.mid] && !free[r.tail]
      modifies this`free, this`desc
      ensures ok && |free| == |desc| == NUM
      ensures forall i :: 0 <= i < NUM ==> free[i] == (old(free)[i] || Member(h, r, i)) && (!Member(h, r, i) ==> desc[i] == old(desc)[i])
    {
      var i := h;
      ghost var left := 3;
      while true
        invariant 0 < left <= 3 && i == (if left == 3 then h else if left == 2 then r.mid else r.tail)
        invariant |free| == |desc| == NUM
        invariant forall k :: 0 <= k < NUM ==> free[k] == (old(free)[k] || (k == h && left < 3) || (k == r.mid && left < 2))
        invariant forall k :: 0 <= k < NUM && !((k == h && left < 3) || (k == r.mid && left < 2)) ==> desc[k] == old(desc)[k]
        decreases left
      {
        var flag, nxt := desc[i].flags, desc[i].next;
        ok := FreeDesc(i);
        if flag % 2 == 1 {   // flag & VRING_DESC_F_NEXT
          i := nxt;
          left := left - 1;
        } else {
          break;
        }
      }
    }

    /** The end of virtio_disk_rw, when b->disk is 0: give the descriptors back. The
        buffer has by then been completed exactly as often as submitted. */
    method Finish(h: nat) returns (ok: bool)
      requires Valid() && h in g.chains && g.chains[h].b !in busy
      modifies this
      ensures Valid() && ok && busy == old(busy) && g == old(g).(owner := g.owner, chains := old(g).chains - {h}, f := g.f)
      ensures g.submitted[old(g).chains[h].b] == g.completed[old(g).chains[h].b]
      ensures |old(free)| == |free| == NUM && forall i :: 0 <= i < NUM ==> free[i] == (old(free)[i] || Member(h, old(g).chains[h], i))
    {
      hide Partition, Buffers, Counted, Located, Rings, AllChained, Chained, Member;
      ghost var r := g.chains[h];
      ghost var j := InSeen(g.f, g.chains, busy, h);
      RetireFacts(desc, ops, info, free, g.owner, g.chains, h);
      info := info[h := info[h].(b := None)];
      ok := FreeChain(h, r);
      RetirePartition(old(free), free, g.owner, g.chains, h);
      RetireChained(old(desc), desc, ops, old(info), info, old(free), g.owner, g.chains, h);
      RetireBuffers(g.f, g.chains, busy, h, j);
      RetireRings(g.f, availRing, availIdx, devIdx, usedRing, usedDev, usedIdx, j);
      CountedAt(busy, g.submitted, g.completed, r.b);
      g := g.(owner := Owned(g.owner, h, r, None), chains := g.chains - {h}, f := Gone(g.f, j));
    }
  }

  // ----- marking descriptors -----

  ghost predicate AreFree(free: seq<bool>, idx: seq<nat>) { NoDup(idx) && forall k :: 0 <= k < |idx| ==> idx[k] < |free| && free[idx[k]] }

  function Marked(free: seq<bool>, idx: seq<nat>): (r: seq<bool>)
    ensures |r| == |free| && forall k :: 0 <= k < |free| ==> r[k] == (free[k] && k !in idx)
  {
    seq(|free|, k requires 0 <= k < |free| => free[k] && k !in idx)
  }

  ghost predicate ThreeFree(free: seq<bool>) {
    exists a, b, c :: 0 <= a < b < c < |free| && free[a] && free[b] && free[c]
  }

  lemma MarkedMore(free: seq<bool>, idx: seq<nat>, i: nat)
    requires AreFree(free, idx) && i < |free| && Marked(free, idx)[i]
    ensures AreFree(free, idx + [i]) && Marked(free, idx + [i]) == Marked(free, idx)[i := false]
  {
  }

  lemma MarkedBack(free: seq<bool>, idx: seq<nat>, j: nat)
    requires AreFree(free, idx) && j < |idx|
    ensures idx[j] < |free| && free[idx[j]] && !Marked(free, idx[j..])[idx[j]] && Marked(free, idx[j + 1..]) == Marked(free, idx[j..])[idx[j] := true]
  {
    assert idx[j..][0] == idx[j];
    assert forall k :: k in idx[j..] <==> k == idx[j] || k in idx[j + 1..];
    assert idx[j] !in idx[j + 1..];
  }

  lemma TooFew(free: seq<bool>, idx: seq<nat>)
    requires AreFree(free, idx) && |idx| < 3 && forall k :: 0 <= k < |free| ==> !Marked(free, idx)[k]
    ensures !ThreeFree(free)
  {
    forall k | 0 <= k < |free| && free[k] ensures k in idx {
      assert !Marked(free, idx)[k];
    }
  }

  // ----- a new request -----

  function Owned(owner: seq<Option<nat>>, h: nat, r: Req, o: Option<nat>): (w: seq<Option<nat>>)
    ensures |w| == |owner| && forall i :: 0 <= i < |owner| ==> w[i] == if Member(h, r, i) then o else owner[i]
  {
    seq(|owner|, i requires 0 <= i < |owner| => if Member(h, r, i) then o else owner[i])
  }

  lemma SubmitPartition(free: seq<bool>, owner: seq<Option<nat>>, chains: map<nat, Req>, h: nat, r: Req)
    requires Partition(free, owner, chains) && AreFree(free, [h, r.mid, r.tail])
    ensures h !in chains && Partition(Marked(free, [h, r.mid, r.tail]), Owned(owner, h, r, Some(h)), chains[h := r])
  {
    var idx := [h, r.mid, r.tail];
    assert idx[0] == h && idx[1] == r.mid && idx[2] == r.tail;
    if h in chains {
      assert Member(h, chains[h], h);
    }
    var free', owner', chains' := Marked(free, idx), Owned(owner, h, r, Some(h)), chains[h := r];
    forall i | 0 <= i < NUM ensures free'[i] <==> owner'[i].None? {
      assert i in idx <==> Member(h, r, i);
    }
    forall g, i | g in chains' && 0 <= i < NUM && Member(g, chains'[g], i) ensures owner'[i] == Some(g) {
      if g != h {
        assert owner[i] == Some(g) && !free[i];
      }
    }
  }

  lemma SubmitChained(desc: seq<Desc>, ops: seq<BlkReq>, info: seq<Info>, free: seq<bool>, owner: seq<Option<nat>>, chains: map<nat, Req>,
      desc': seq<Desc>, ops': seq<BlkReq>, info': seq<Info>, h: nat, r: Req)
    requires Partition(free, owner, chains) && AllChained(desc, ops, info, chains) && AreFree(free, [h, r.mid, r.tail])
    requires Chained(desc', ops', info', h, r)
    requires |desc'| == |desc| && forall i :: 0 <= i < NUM && !Member(h, r, i) ==> desc'[i] == desc[i]
    requires |ops'| == |ops| && |info'| == |info| && forall i :: 0 <= i < NUM && i != h ==> ops'[i] == ops[i] && info'[i] == info[i]
    ensures AllChained(desc', ops', info', chains[h := r])
  {
    var idx := [h, r.mid, r.tail];
    assert idx[0] == h && idx[1] == r.mid && idx[2] == r.tail;
    forall g | g in chains && g != h ensures Chained(desc', ops', info', g, chains[g]) {
      assert Chained(desc, ops, info, g, chains[g]);
      var q := chains[g];
      assert Member(g, q, g) && Member(g, q, q.mid) && Member(g, q, q.tail);
      assert !free[g] && !free[q.mid] && !free[q.tail];
    }
  }

  lemma SubmitLocated(f: Flight, chains: map<nat, Req>, h: nat, r: Req)
    requires Located(f, chains) && h !in chains
    ensures Located(Queued(f, h), chains[h := r])
  {
    var f' := Queued(f, h);
    assert Heads(f') == f.queued + ([h] + (f.taken + f.done + f.seen)) && Heads(f) == f.queued + (f.taken + f.done + f.seen);
    InsertNoDup(f.queued, f.taken + f.done + f.seen, h);
  }

  lemma InsertNoDup(a: seq<nat>, b: seq<nat>, h: nat)
    requires NoDup(a + b) && h !in a + b
    ensures NoDup(a + ([h] + b)) && forall x :: x in a + ([h] + b) <==> x == h || x in a + b
  {
    var s, t := a + ([h] + b), a + b;
    forall i, j | 0 <= i < j < |s| ensures s[i] != s[j] {
      var i', j' := if i < |a| then i else i - 1, if j < |a| then j else j - 1;
      if i != |a| && j != |a| {
        assert s[i] == t[i'] && s[j] == t[j'];
      } else if i == |a| {
        assert s[j] == t[j'];
      } else {
        assert s[i] == t[i'];
      }
    }
  }

  lemma SubmitBuffers(f: Flight, chains: map<nat, Req>, busy: set<nat>, h: nat, r: Req)
    requires Located(f, chains) && Buffers(f, chains, busy) && h !in chains && forall g :: g in chains ==> chains[g].b != r.b
    ensures var f', chains' := Queued(f, h), chains[h := r]; Located(f', chains') && Buffers(f', chains', busy + {r.b})
  {
    SubmitLocated(f, chains, h, r);
    hide Located;
    var f', chains' := Queued(f, h), chains[h := r];
    assert Waiting(f') == f.queued + ([h] + (f.taken + f.done));
    forall i | 0 <= i < |Waiting(f')| ensures HeadIn(f', Waiting(f')[i]) && chains'[Waiting(f')[i]].b in busy + {r.b} {
      WaitsHead(f', i);
      if i != |f.queued| {
        assert Waiting(f')[i] == Waiting(f)[if i < |f.queued| then i else i - 1];
      }
    }
    forall i | 0 <= i < |f.seen| ensures HeadIn(f', f.seen[i]) && chains'[f.seen[i]].b !in busy + {r.b} {
      assert HeadIn(f, f.seen[i]);
    }
    forall b | b in busy + {r.b} ensures exists g :: g in chains' && chains'[g].b == b {
      if b == r.b {
        assert h in chains' && chains'[h].b == b;
      } else {
        var g :| g in chains && chains[g].b == b;
        assert g in chains' && chains'[g].b == b;
      }
    }
  }

  lemma WaitsHead(f: Flight, i: nat)
    requires i < |Waiting(f)|
    ensures HeadIn(f, Waiting(f)[i])
  {
    assert Heads(f)[i] == Waiting(f)[i];
  }

  // ----- moving requests on -----

  lemma {:induction false} CountOnce(s: seq<nat>, x: nat)
    requires NoDup(s)
    ensures multiset(s)[x] <= 1
  {
    if s != [] {
      var t := s[..|s| - 1];
      assert s == t + [s[|s| - 1]];
      CountOnce(t, x);
      if x == s[|s| - 1] {
        assert x !in t;
      }
    }
  }

  lemma CountTwice(s: seq<nat>, i: nat, j: nat)
    requires i < j < |s| && s[i] == s[j]
    ensures multiset(s)[s[i]] >= 2
  {
    assert s == s[..j] + [s[j]] + s[j + 1..];
    assert s[i] in s[..j];
  }

  lemma Permuted(s: seq<nat>, t: seq<nat>)
    requires NoDup(s) && multiset(s) == multiset(t)
    ensures NoDup(t) && forall x :: x in t <==> x in s
  {
    forall i, j | 0 <= i < j < |t| ensures t[i] != t[j] {
      CountOnce(s, t[i]);
      if t[i] == t[j] {
        CountTwice(t, i, j);
      }
    }
    forall x ensures x in t <==> x in s {
      assert x in t <==> x in multiset(t);
      assert x in s <==> x in multiset(s);
    }
  }

  function Taken(f: Flight): Flight
    requires f.queued != []
  {
    f.(queued := f.queued[1..], taken := f.taken + [f.queued[0]], nTaken := f.nTaken + 1)
  }

  function Finished(f: Flight, j: nat): Flight
    requires j < |f.taken|
  {
    f.(taken := f.taken[..j] + f.taken[j + 1..], done := f.done + [f.taken[j]], nUsed := f.nUsed + 1)
  }

  function Noticed(f: Flight): Flight
    requires f.done != []
  {
    f.(done := f.done[1..], seen := f.seen + [f.done[0]], nSeen := f.nSeen + 1)
  }

  lemma TakenPerm(f: Flight)
    requires f.queued != []
    ensures multiset(Heads(Taken(f))) == multiset(Heads(f)) && multiset(Waiting(Taken(f))) == multiset(Waiting(f))
  {
    assert f.queued == [f.queued[0]] + f.queued[1..];
  }

  lemma FinishedPerm(f: Flight, j: nat)
    requires j < |f.taken|
    ensures multiset(Heads(Finished(f, j))) == multiset(Heads(f)) && multiset(Waiting(Finished(f, j))) == multiset(Waiting(f))
  {
    assert f.taken == f.taken[..j] + [f.taken[j]] + f.taken[j + 1..];
  }

  lemma NoticedPerm(f: Flight)
    requires f.done != []
    ensures multiset(Heads(Noticed(f))) == multiset(Heads(f))
  {
    assert f.done == [f.done[0]] + f.done[1..];
  }

  /** A step inside the device, or by it, leaves who waits as it is. */
  lemma SameWaiting(f: Flight, f': Flight, chains: map<nat, Req>, busy: set<nat>)
    requires Located(f, chains) && Buffers(f, chains, busy) && f'.seen == f.seen
    requires multiset(Heads(f')) == multiset(Heads(f)) && multiset(Waiting(f')) == multiset(Waiting(f))
    requires f'.nAvail == f'.nTaken + |f'.queued| && f'.nTaken == f'.nUsed + |f'.taken| && f'.nUsed == f'.nSeen + |f'.done|
    ensures Located(f', chains) && Buffers(f', chains, busy)
  {
    Permuted(Heads(f), Heads(f'));
    forall i | 0 <= i < |Waiting(f')| ensures HeadIn(f', Waiting(f')[i]) && chains[Waiting(f')[i]].b in busy {
      WaitsHead(f', i);
      assert Waiting(f')[i] in multiset(Waiting(f')) && Waiting(f')[i] in Waiting(f);
    }
    forall i | 0 <= i < |f'.seen| ensures HeadIn(f', f'.seen[i]) && chains[f'.seen[i]].b !in busy {
      assert HeadIn(f, f.seen[i]);
    }
  }

  lemma NoticedBuffers(f: Flight, chains: map<nat, Req>, busy: set<nat>)
    requires Located(f, chains) && Buffers(f, chains, busy) && f.done != []
    ensures f.done[0] in chains && chains[f.done[0]].b in busy
    ensures Located(Noticed(f), chains) && Buffers(Noticed(f), chains, busy - {chains[f.done[0]].b})
  {
    var f', h := Noticed(f), f.done[0];
    NoticedPerm(f);
    Permuted(Heads(f), Heads(f'));
    var n := |f.queued| + |f.taken|;
    assert Waiting(f)[n] == h && Heads(f)[n] == h;
    assert HeadIn(f, Waiting(f)[n]);
    var b := chains[h].b;
    forall i | 0 <= i < |Waiting(f')| ensures HeadIn(f', Waiting(f')[i]) && chains[Waiting(f')[i]].b in busy - {b} {
      WaitsHead(f', i);
      var k := if i < n then i else i + 1;
      assert Waiting(f')[i] == Waiting(f)[k] && Heads(f)[k] == Waiting(f)[k] && HeadIn(f, Waiting(f)[k]);
      assert Waiting(f)[k] != h;
    }
    forall i | 0 <= i < |f'.seen| ensures HeadIn(f', f'.seen[i]) && chains[f'.seen[i]].b !in busy - {b} {
      SeenHead(f', i);
      if i < |f.seen| {
        assert HeadIn(f, f.seen[i]);
      }
    }
  }

  lemma SeenHead(f: Flight, i: nat)
    requires i < |f.seen|
    ensures HeadIn(f, f.seen[i])
  {
    assert Heads(f)[|Waiting(f)| + i] == f.seen[i];
  }

  // ----- the methods' obligations -----

  lemma PartitionSizes(free: seq<bool>, owner: seq<Option<nat>>, chains: map<nat, Req>, desc: seq<Desc>, ops: seq<BlkReq>, info: seq<Info>)
    requires Partition(free, owner, chains) && AllChained(desc, ops, info, chains)
    ensures |free| == |owner| == |desc| == |ops| == |info| == NUM
  {
  }

  lemma SameChained(desc: seq<Desc>, desc': seq<Desc>, ops: seq<BlkReq>, info: seq<Info>, free: seq<bool>, owner: seq<Option<nat>>, chains: map<nat, Req>)
    requires Partition(free, owner, chains) && AllChained(desc, ops, info, chains) && |desc'| == NUM
    requires forall k :: 0 <= k < NUM && !free[k] ==> desc'[k] == desc[k]
    ensures AllChained(desc', ops, info, chains)
  {
    forall g | g in chains ensures Chained(desc', ops, info, g, chains[g]) {
      assert Chained(desc, ops, info, g, chains[g]);
      var q := chains[g];
      assert Member(g, q, g) && Member(g, q, q.mid) && Member(g, q, q.tail);
    }
  }

  lemma IdxFacts(free: seq<bool>, h: nat, r: Req)
    requires |free| == NUM && AreFree(free, [h, r.mid, r.tail])
    ensures h < NUM && r.mid < NUM && r.tail < NUM && h != r.mid && h != r.tail && r.mid != r.tail
  {
    var idx := [h, r.mid, r.tail];
    assert idx[0] == h && idx[1] == r.mid && idx[2] == r.tail;
  }

  lemma ThreeFound(free: seq<bool>, a: nat, b: nat, c: nat)
    requires AreFree(free, [a, b, c])
    ensures ThreeFree(free)
  {
    var idx := [a, b, c];
    assert idx[0] == a && idx[1] == b && idx[2] == c;
    var lo := if a < b && a < c then a else if b < c then b else c;
    var hi := if a > b && a > c then a else if b > c then b else c;
    assert free[lo] && free[a + b + c - lo - hi] && free[hi];
  }

  lemma NotBusy(f: Flight, chains: map<nat, Req>, busy: set<nat>, b: nat)
    requires Located(f, chains) && Buffers(f, chains, busy) && forall g :: g in chains ==> chains[g].b != b
    ensures b !in busy
  {
  }

  lemma SubmitCount(busy: set<nat>, submitted: multiset<nat>, completed: multiset<nat>, b: nat)
    requires Counted(busy, submitted, completed) && b !in busy
    ensures Counted(busy + {b}, submitted + multiset{b}, completed)
  {
  }

  lemma SeenCount(busy: set<nat>, submitted: multiset<nat>, completed: multiset<nat>, b: nat)
    requires Counted(busy, submitted, completed) && b in busy
    ensures Counted(busy - {b}, submitted, completed + multiset{b})
  {
  }

  lemma SubmitRing(desc: seq<Desc>, ops: seq<BlkReq>, info: seq<Info>, free: seq<bool>, owner: seq<Option<nat>>, chains: map<nat, Req>, f: Flight,
      availRing: seq<nat>, availIdx: nat, devIdx: nat, usedRing: seq<nat>, usedDev: nat, usedIdx: nat, h: nat)
    requires Partition(free, owner, chains) && AllChained(desc, ops, info, chains) && Located(f, chains)
    requires Rings(f, availRing, availIdx, devIdx, usedRing, usedDev, usedIdx)
    ensures |availRing| == NUM
    ensures Rings(Queued(f, h), availRing[Slot(availIdx) := h], Bump(availIdx), devIdx, usedRing, usedDev, usedIdx)
  {
    AtMostTwo(desc, ops, info, free, owner, chains, f);
    SlotWrap(f.nAvail);
    NextIndex(f.nAvail);
    RingPut(availRing, f.nTaken, f.queued, h);
  }

  lemma TakeRing(desc: seq<Desc>, ops: seq<BlkReq>, info: seq<Info>, free: seq<bool>, owner: seq<Option<nat>>, chains: map<nat, Req>, f: Flight,
      availRing: seq<nat>, availIdx: nat, devIdx: nat, usedRing: seq<nat>, usedDev: nat, usedIdx: nat)
    requires Partition(free, owner, chains) && AllChained(desc, ops, info, chains) && Located(f, chains)
    requires Rings(f, availRing, availIdx, devIdx, usedRing, usedDev, usedIdx)
    ensures |availRing| == NUM && (devIdx == availIdx <==> f.queued == [])
    ensures f.queued != [] ==> availRing[Slot(devIdx)] == f.queued[0] && f.queued[0] in chains
    ensures f.queued != [] ==> Rings(Taken(f), availRing, availIdx, Bump(devIdx), usedRing, usedDev, usedIdx)
  {
    AtMostTwo(desc, ops, info, free, owner, chains, f);
    hide Partition, AllChained, Slot, Bump, NoDup;
    SameIndex(f.nTaken, f.nAvail);
    SlotWrap(f.nTaken);
    NextIndex(f.nTaken);
    if f.queued != [] {
      RingGet(availRing, f.nTaken, f.queued);
      assert Heads(f)[0] == f.queued[0];
    }
  }

  lemma TakenLocated(f: Flight, chains: map<nat, Req>, busy: set<nat>)
    requires Located(f, chains) && Buffers(f, chains, busy) && f.queued != []
    ensures Located(Taken(f), chains) && Buffers(Taken(f), chains, busy)
  {
    TakenPerm(f);
    SameWaiting(f, Taken(f), chains, busy);
  }

  lemma DoneRing(desc: seq<Desc>, ops: seq<BlkReq>, info: seq<Info>, free: seq<bool>, owner: seq<Option<nat>>, chains: map<nat, Req>, f: Flight,
      availRing: seq<nat>, availIdx: nat, devIdx: nat, usedRing: seq<nat>, usedDev: nat, usedIdx: nat, j: nat)
    requires Partition(free, owner, chains) && AllChained(desc, ops, info, chains) && Located(f, chains) && j < |f.taken|
    requires Rings(f, availRing, availIdx, devIdx, usedRing, usedDev, usedIdx)
    ensures |usedRing| == NUM && f.taken[j] in chains && f.taken[j] < |info|
    ensures Rings(Finished(f, j), availRing, availIdx, devIdx, usedRing[Slot(usedDev) := f.taken[j]], Bump(usedDev), usedIdx)
  {
    AtMostTwo(desc, ops, info, free, owner, chains, f);
    SlotWrap(f.nUsed);
    NextIndex(f.nUsed);
    RingPut(usedRing, f.nSeen, f.done, f.taken[j]);
    assert Heads(f)[|f.queued| + j] == f.taken[j];
    assert Chained(desc, ops, info, f.taken[j], chains[f.taken[j]]);
  }

  lemma FinishedLocated(f: Flight, chains: map<nat, Req>, busy: set<nat>, j: nat)
    requires Located(f, chains) && Buffers(f, chains, busy) && j < |f.taken|
    ensures Located(Finished(f, j), chains) && Buffers(Finished(f, j), chains, busy)
  {
    FinishedPerm(f, j);
    SameWaiting(f, Finished(f, j), chains, busy);
  }

  lemma SeenRing(desc: seq<Desc>, ops: seq<BlkReq>, info: seq<Info>, free: seq<bool>, owner: seq<Option<nat>>, chains: map<nat, Req>, f: Flight,
      availRing: seq<nat>, availIdx: nat, devIdx: nat, usedRing: seq<nat>, usedDev: nat, usedIdx: nat)
    requires Partition(free, owner, chains) && AllChained(desc, ops, info, chains) && Located(f, chains)
    requires Rings(f, availRing, availIdx, devIdx, usedRing, usedDev, usedIdx)
    ensures |usedRing| == NUM && (usedIdx == usedDev <==> f.done == [])
    ensures f.done != [] ==> usedRing[Slot(usedIdx)] == f.done[0]
    ensures f.done != [] ==> Rings(Noticed(f), availRing, availIdx, devIdx, usedRing, usedDev, Bump(usedIdx))
  {
    AtMostTwo(desc, ops, info, free, owner, chains, f);
    SameIndex(f.nSeen, f.nUsed);
    SlotWrap(f.nSeen);
    NextIndex(f.nSeen);
    if f.done != [] {
      RingGet(usedRing, f.nSeen, f.done);
    }
  }

  lemma InfoOf(desc: seq<Desc>, ops: seq<BlkReq>, info: seq<Info>, chains: map<nat, Req>, h: nat)
    requires AllChained(desc, ops, info, chains) && h in chains
    ensures h < |info| && info[h].b == Some(chains[h].b)
  {
    assert Chained(desc, ops, info, h, chains[h]);
  }

  lemma StatusChained(desc: seq<Desc>, ops: seq<BlkReq>, info: seq<Info>, chains: map<nat, Req>, h: nat, status: nat)
    requires AllChained(desc, ops, info, chains) && h < |info|
    ensures AllChained(desc, ops, info[h := info[h].(status := status)], chains)
  {
    forall g | g in chains ensures Chained(desc, ops, info[h := info[h].(status := status)], g, chains[g]) {
      assert Chained(desc, ops, info, g, chains[g]);
    }
  }

  ghost predicate Formatted(desc: seq<Desc>, ops: seq<BlkReq>, info: seq<Info>, desc': seq<Desc>, ops': seq<BlkReq>, info': seq<Info>, h: nat, r: Req) {
    Chained(desc', ops', info', h, r) && |desc| == |ops| == |info| == NUM
    && (forall i :: 0 <= i < NUM && !Member(h, r, i) ==> desc'[i] == desc[i])
    && (forall i :: 0 <= i < NUM && i != h ==> ops'[i] == ops[i] && info'[i] == info[i])
  }

  /** The chain is formatted: entering it keeps everything in order. */
  ghost predicate Publishable(free: seq<bool>, desc: seq<Desc>, ops: seq<BlkReq>, info: seq<Info>, owner: seq<Option<nat>>, chains: map<nat, Req>, f: Flight,
      availRing: seq<nat>, availIdx: nat, devIdx: nat, usedRing: seq<nat>, usedDev: nat, usedIdx: nat,
      busy: set<nat>, submitted: multiset<nat>, completed: multiset<nat>, h: nat, r: Req) {
    var f', chains' := Queued(f, h), chains[h := r];
    |availRing| == NUM && h !in chains && Partition(free, Owned(owner, h, r, Some(h)), chains') && AllChained(desc, ops, info, chains') && Located(f', chains')
    && Buffers(f', chains', busy + {r.b}) && Counted(busy + {r.b}, submitted + multiset{r.b}, completed)
    && Rings(f', availRing[Slot(availIdx) := h], Bump(availIdx), devIdx, usedRing, usedDev, usedIdx)
  }

  lemma SubmitOk(free: seq<bool>, desc: seq<Desc>, ops: seq<BlkReq>, info: seq<Info>, free': seq<bool>, desc': seq<Desc>, ops': seq<BlkReq>, info': seq<Info>,
      owner: seq<Option<nat>>, chains: map<nat, Req>, f: Flight, availRing: seq<nat>, availIdx: nat, devIdx: nat, usedRing: seq<nat>, usedDev: nat, usedIdx: nat,
      busy: set<nat>, submitted: multiset<nat>, completed: multiset<nat>, h: nat, r: Req)
    requires Partition(free, owner, chains) && AllChained(desc, ops, info, chains) && Located(f, chains) && Buffers(f, chains, busy)
    requires Rings(f, availRing, availIdx, devIdx, usedRing, usedDev, usedIdx) && Counted(busy, submitted, completed)
    requires AreFree(free, [h, r.mid, r.tail]) && free' == Marked(free, [h, r.mid, r.tail]) && Formatted(desc, ops, info, desc', ops', info', h, r)
    requires forall g :: g in chains ==> chains[g].b != r.b
    ensures Publishable(free', desc', ops', info', owner, chains, f, availRing, availIdx, devIdx, usedRing, usedDev, usedIdx, busy, submitted, completed, h, r)
  {
    SubmitPartition(free, owner, chains, h, r);
    SubmitChained(desc, ops, info, free, owner, chains, desc', ops', info', h, r);
    hide Partition, Located, Buffers, Rings, Counted, AllChained, Formatted, Owned, AreFree, Marked;
    NotBusy(f, chains, busy, r.b);
    SubmitBuffers(f, chains, busy, h, r);
    SubmitCount(busy, submitted, completed, r.b);
    SubmitRing(desc, ops, info, free, owner, chains, f, availRing, availIdx, devIdx, usedRing, usedDev, usedIdx, h);
  }

  lemma PublishFacts(free: seq<bool>, desc: seq<Desc>, ops: seq<BlkReq>, info: seq<Info>, owner: seq<Option<nat>>, chains: map<nat, Req>, f: Flight,
      availRing: seq<nat>, availIdx: nat, devIdx: nat, usedRing: seq<nat>, usedDev: nat, usedIdx: nat,
      busy: set<nat>, submitted: multiset<nat>, completed: multiset<nat>, h: nat, r: Req)
    requires Publishable(free, desc, ops, info, owner, chains, f, availRing, availIdx, devIdx, usedRing, usedDev, usedIdx, busy, submitted, completed, h, r)
    ensures |availRing| == NUM && h !in chains && Partition(free, Owned(owner, h, r, Some(h)), chains[h := r]) && AllChained(desc, ops, info, chains[h := r]) && Located(Queued(f, h), chains[h := r])
    ensures Buffers(Queued(f, h), chains[h := r], busy + {r.b}) && Counted(busy + {r.b}, submitted + multiset{r.b}, completed)
    ensures Rings(Queued(f, h), availRing[Slot(availIdx) := h], Bump(availIdx), devIdx, usedRing, usedDev, usedIdx)
  {
  }

  // ----- the interrupt -----

  ghost predicate AllZero(heads: seq<nat>, info: seq<Info>) { forall i :: 0 <= i < |heads| ==> heads[i] < |info| && info[heads[i]].status == 0 }

  function AllNoticed(f: Flight): Flight { f.(done := [], seen := f.seen + f.done, nSeen := f.nSeen + |f.done|) }

  /** Part of the way through the loop. */
  ghost predicate Seen(f0: Flight, f: Flight, info: seq<Info>, chains: map<nat, Req>, busy: set<nat>) {
    var n := |f0.done| - |f.done|;
    n >= 0 && f == f0.(done := f0.done[n..], seen := f0.seen + f0.done[..n], nSeen := f0.nSeen + n)
    && AllZero(f0.done[..n], info) && forall i :: 0 <= i < n ==> f0.done[i] in chains && chains[f0.done[i]].b !in busy
  }

  lemma SeenStart(f: Flight, info: seq<Info>, chains: map<nat, Req>, busy: set<nat>)
    ensures Seen(f, f, info, chains, busy)
  {
    assert f.done[0..] == f.done && f.seen + f.done[..0] == f.seen;
  }

  lemma SeenNext(f0: Flight, f: Flight, info: seq<Info>, chains: map<nat, Req>, busy: set<nat>)
    requires Seen(f0, f, info, chains, busy) && f.done != [] && f.done[0] in chains && f.done[0] < |info|
    ensures info[f.done[0]].status != 0 ==> !AllZero(f0.done, info)
    ensures info[f.done[0]].status == 0 ==> Seen(f0, Noticed(f), info, chains, busy - {chains[f.done[0]].b})
  {
    var n := |f0.done| - |f.done|;
    assert f.done[0] == f0.done[n] && f.done[1..] == f0.done[n + 1..] && f0.done[..n] + [f0.done[n]] == f0.done[..n + 1];
    assert f0.seen + f0.done[..n] + [f0.done[n]] == f0.seen + f0.done[..n + 1];
  }

  lemma SeenEnd(f0: Flight, f: Flight, info: seq<Info>, chains: map<nat, Req>, busy: set<nat>)
    requires Seen(f0, f, info, chains, busy) && f.done == []
    ensures f == AllNoticed(f0) && AllZero(f0.done, info) && forall i :: 0 <= i < |f0.done| ==> f0.done[i] in chains && chains[f0.done[i]].b !in busy
  {
    assert f0.done[..|f0.done|] == f0.done && f0.done[|f0.done|..] == [];
  }

  // ----- the end of a request -----

  function Gone(f: Flight, j: nat): Flight
    requires j < |f.seen|
  {
    f.(seen := f.seen[..j] + f.seen[j + 1..])
  }

  lemma InSeen(f: Flight, chains: map<nat, Req>, busy: set<nat>, h: nat) returns (j: nat)
    requires Located(f, chains) && Buffers(f, chains, busy) && h in chains && chains[h].b !in busy
    ensures j < |f.seen| && f.seen[j] == h
  {
    assert h in Heads(f);
    var i :| 0 <= i < |Heads(f)| && Heads(f)[i] == h;
    forall k | 0 <= k < |Waiting(f)| ensures Heads(f)[k] != h {
      assert Heads(f)[k] == Waiting(f)[k];
    }
    j := i - |Waiting(f)|;
  }

  lemma RetireFacts(desc: seq<Desc>, ops: seq<BlkReq>, info: seq<Info>, free: seq<bool>, owner: seq<Option<nat>>, chains: map<nat, Req>, h: nat)
    requires Partition(free, owner, chains) && AllChained(desc, ops, info, chains) && h in chains
    ensures |free| == |info| == NUM && h < NUM && chains[h].mid < NUM && chains[h].tail < NUM && !free[h] && !free[chains[h].mid] && !free[chains[h].tail]
    ensures var info' := info[h := info[h].(b := None)]; Chained(desc, ops, info'[h := info'[h].(b := Some(chains[h].b))], h, chains[h])
  {
    var r := chains[h];
    assert Chained(desc, ops, info, h, r);
    assert Member(h, r, h) && Member(h, r, r.mid) && Member(h, r, r.tail);
  }

  lemma RetirePartition(free: seq<bool>, free': seq<bool>, owner: seq<Option<nat>>, chains: map<nat, Req>, h: nat)
    requires Partition(free, owner, chains) && h in chains && |free'| == NUM
    requires forall i :: 0 <= i < NUM ==> free'[i] == (free[i] || Member(h, chains[h], i))
    ensures Partition(free', Owned(owner, h, chains[h], None), chains - {h})
  {
    hide Member;
    var owner', chains' := Owned(owner, h, chains[h], None), chains - {h};
    forall g, i | g in chains' && 0 <= i < NUM && Member(g, chains'[g], i) ensures owner'[i] == Some(g) {
      assert owner[i] == Some(g);
      assert !Member(h, chains[h], i);
    }
  }

  lemma RetireChained(desc: seq<Desc>, desc': seq<Desc>, ops: seq<BlkReq>, info: seq<Info>, info': seq<Info>, free: seq<bool>, owner: seq<Option<nat>>, chains: map<nat, Req>, h: nat)
    requires Partition(free, owner, chains) && AllChained(desc, ops, info, chains) && h in chains && |desc'| == NUM && h < NUM && info' == info[h := info[h].(b := None)]
    requires forall i :: 0 <= i < NUM && !Member(h, chains[h], i) ==> desc'[i] == desc[i]
    ensures AllChained(desc', ops, info', chains - {h})
  {
    forall g | g in chains - {h} ensures Chained(desc', ops, info', g, chains[g]) {
      var q := chains[g];
      assert Chained(desc, ops, info, g, q);
      assert Member(g, q, g) && Member(g, q, q.mid) && Member(g, q, q.tail);
      assert owner[g] == Some(g) && owner[q.mid] == Some(g) && owner[q.tail] == Some(g);
    }
  }

  lemma RetireLocated(f: Flight, chains: map<nat, Req>, h: nat, j: nat)
    requires Located(f, chains) && j < |f.seen| && f.seen[j] == h
    ensures Located(Gone(f, j), chains - {h})
  {
    var k := |Waiting(f)| + j;
    assert Heads(f)[k] == h && Heads(Gone(f, j)) == Heads(f)[..k] + Heads(f)[k + 1..];
    DropNoDup(Heads(f), k);
  }

  lemma RetireBuffers(f: Flight, chains: map<nat, Req>, busy: set<nat>, h: nat, j: nat)
    requires Located(f, chains) && Buffers(f, chains, busy) && j < |f.seen| && f.seen[j] == h && h in chains && chains[h].b !in busy
    ensures Located(Gone(f, j), chains - {h}) && Buffers(Gone(f, j), chains - {h}, busy)
  {
    var f' := Gone(f, j);
    RetireLocated(f, chains, h, j);
    hide NoDup;
    forall i | 0 <= i < |Waiting(f')| ensures HeadIn(f', Waiting(f')[i]) && chains[Waiting(f')[i]].b in busy {
      WaitsHead(f', i);
      assert Waiting(f')[i] == Waiting(f)[i];
    }
    forall i | 0 <= i < |f'.seen| ensures HeadIn(f', f'.seen[i]) && chains[f'.seen[i]].b !in busy {
      SeenHead(f', i);
      assert f'.seen[i] == f.seen[if i < j then i else i + 1];
    }
    forall b | b in busy ensures exists g :: g in chains - {h} && chains[g].b == b {
      var g :| g in chains && chains[g].b == b;
      assert g in chains - {h};
    }
  }

  lemma DropNoDup(s: seq<nat>, k: nat)
    requires NoDup(s) && k < |s|
    ensures var t := s[..k] + s[k + 1..]; NoDup(t) && forall x :: x in t <==> x in s && x != s[k]
  {
    var t := s[..k] + s[k + 1..];
    forall i | 0 <= i < |t| ensures t[i] == s[if i < k then i else i + 1] {}
    forall x | x in s && x != s[k] ensures x in t {
      var i :| 0 <= i < |s| && s[i] == x;
      assert t[if i < k then i else i - 1] == x;
    }
  }

  lemma RetireRings(f: Flight, availRing: seq<nat>, availIdx: nat, devIdx: nat, usedRing: seq<nat>, usedDev: nat, usedIdx: nat, j: nat)
    requires Rings(f, availRing, availIdx, devIdx, usedRing, usedDev, usedIdx) && j < |f.seen|
    ensures Rings(Gone(f, j), availRing, availIdx, devIdx, usedRing, usedDev, usedIdx)
  {
  }

  lemma CountedAt(busy: set<nat>, submitted: multiset<nat>, completed: multiset<nat>, b: nat)
    requires Counted(busy, submitted, completed) && b !in busy
    ensures submitted[b] == completed[b]
  {
  }
}
