/** User memory: unmapping, growing with rollback, copying and freeing whole address
    spaces, all conserving page frames. */
module Uvm {
  import opened Wrappers
  import opened Vm
  import Counting

  // ----- mapping ranges -----

  /** Pages page..page+n of `root` map to n consecutive frames; every other page of every
      page table maps as before. */
  ghost predicate Mapped(fs: seq<Frame>, ow: seq<Role>, fs': seq<Frame>, root: nat, page: nat, n: nat, frame: nat, perm: nat) {
    forall r, q :: IsRoot(ow, r) && 0 <= q < MAXPAGE ==>
      Look(fs', r, q) == if r == root && page <= q < page + n then Pte(frame + (q - page), WithV(perm)) else Look(fs, r, q)
  }

  /** mappages over n pages. None is a panic. It stops at the first page that is mapped
      already, which is another, or for which a table is missing when memory has run out;
      the pages in front of that one stay mapped. */
  method Mappages(m: Memory, root: nat, page: nat, n: nat, frame: nat, perm: nat) returns (r: MapResult, ghost done: nat)
    requires m.Valid() && IsRoot(m.owner, root) && page + n <= MAXPAGE && perm < 1024 && Rwx(perm)
    modifies m
    ensures m.Valid() && IsRoot(m.owner, root) && KeepsData(old(m.frames), old(m.owner), m.frames) && Took(old(m.owner), m.owner, root)
    ensures done <= n && Mapped(old(m.frames), old(m.owner), m.frames, root, page, done, frame, perm)
    ensures (r.Ok? <==> 0 < n == done) && (r.NoSize? <==> n == 0)
    ensures r.Remap? ==> V(Look(old(m.frames), root, page + done))
    ensures r.NoMemory? ==> m.list == [] && Look(old(m.frames), root, page + done) == 0
    ensures forall q :: page <= q < page + done ==> !V(Look(old(m.frames), root, q))
  {
    hide Look, V, Ppn, Flags, Rwx, Nodes, Places, FreeList, Pte, WithV, SameLooks, Looks, Mapped, Took, TookBut, KeepsData;
    ghost var fs, ow := m.frames, m.owner;
    MappedNone(fs, ow, root, page, frame, perm);
    var a := page;
    done := 0;
    if n == 0 {
      return NoSize, done;
    }
    while true
      invariant page <= a < page + n && done == a - page && m.Valid() && IsRoot(m.owner, root)
      invariant KeepsData(fs, ow, m.frames) && Took(ow, m.owner, root) && Mapped(fs, ow, m.frames, root, page, done, frame, perm)
      invariant forall q :: page <= q < a ==> !V(Look(fs, root, q))
      decreases page + n - a
    {
      ghost var mid, mow := m.frames, m.owner;
      MappedAt(fs, ow, mid, root, page, done, frame, perm);
      r := m.MapPage(root, a, frame + (a - page), perm, false);
      if !r.Ok? {
        MappedStop(fs, ow, mid, mow, m.frames, m.owner, root, page, done, frame, perm);
        return;
      }
      MappedNext(fs, ow, mid, mow, m.frames, m.owner, root, page, done, frame, perm);
      done := done + 1;
      if a == page + n - 1 {
        break;
      }
      a := a + 1;
    }
  }

  lemma MappedNone(fs: seq<Frame>, ow: seq<Role>, root: nat, page: nat, frame: nat, perm: nat)
    requires |fs| == |ow|
    ensures Mapped(fs, ow, fs, root, page, 0, frame, perm) && Took(ow, ow, root) && KeepsData(fs, ow, fs)
  {
    hide Look;
  }

  lemma MappedAt(fs: seq<Frame>, ow: seq<Role>, mid: seq<Frame>, root: nat, page: nat, n: nat, frame: nat, perm: nat)
    requires Mapped(fs, ow, mid, root, page, n, frame, perm) && IsRoot(ow, root) && page + n < MAXPAGE
    ensures Look(mid, root, page + n) == Look(fs, root, page + n)
  {
    hide Look;
  }

  lemma MappedNext(fs: seq<Frame>, ow: seq<Role>, mid: seq<Frame>, mow: seq<Role>, fs': seq<Frame>, ow': seq<Role>, root: nat, page: nat, n: nat, frame: nat, perm: nat)
    requires Mapped(fs, ow, mid, root, page, n, frame, perm) && Took(ow, mow, root) && KeepsData(fs, ow, mid)
    requires Looks(mid, mow, fs', root, page + n, Pte(frame + n, WithV(perm))) && TookBut(mow, ow', root, 0) && KeepsData(mid, mow, fs')
    ensures Mapped(fs, ow, fs', root, page, n + 1, frame, perm) && Took(ow, ow', root) && KeepsData(fs, ow, fs')
  {
    hide Look, Pte, WithV;
    forall r, q | IsRoot(ow, r) && 0 <= q < MAXPAGE
      ensures Look(fs', r, q) == if r == root && page <= q < page + n + 1 then Pte(frame + (q - page), WithV(perm)) else Look(fs, r, q)
    {
      assert IsRoot(mow, r);
    }
  }

  lemma MappedStop(fs: seq<Frame>, ow: seq<Role>, mid: seq<Frame>, mow: seq<Role>, fs': seq<Frame>, ow': seq<Role>, root: nat, page: nat, n: nat, frame: nat, perm: nat)
    requires Mapped(fs, ow, mid, root, page, n, frame, perm) && Took(ow, mow, root) && KeepsData(fs, ow, mid)
    requires SameLooks(mid, mow, fs') && Took(mow, ow', root) && KeepsData(mid, mow, fs')
    ensures Mapped(fs, ow, fs', root, page, n, frame, perm) && Took(ow, ow', root) && KeepsData(fs, ow, fs')
  {
    hide Look, Pte, WithV;
    forall r, q | IsRoot(ow, r) && 0 <= q < MAXPAGE
      ensures Look(fs', r, q) == if r == root && page <= q < page + n then Pte(frame + (q - page), WithV(perm)) else Look(fs, r, q)
    {
      assert IsRoot(mow, r);
    }
  }

  // ----- unmapping -----

  /** Pages lo..hi of `root` are unmapped; every other page of every page table maps
      as before. */
  ghost predicate Unmapped(fs: seq<Frame>, ow: seq<Role>, fs': seq<Frame>, root: nat, lo: nat, hi: nat) {
    forall r, q :: IsRoot(ow, r) && 0 <= q < MAXPAGE ==> Look(fs', r, q) == if r == root && lo <= q < hi then 0 else Look(fs, r, q)
  }

  ghost predicate Owns(fs: seq<Frame>, ow: seq<Role>, root: nat, lo: nat, hi: nat) {
    forall q :: lo <= q < hi ==> OwnPage(fs, ow, root, q)
  }

  ghost predicate Maps(fs: seq<Frame>, root: nat, lo: nat, hi: nat) {
    forall q :: lo <= q < hi ==> V(Look(fs, root, q))
  }

  lemma UnmapNext(fs: seq<Frame>, ow: seq<Role>, mid: seq<Frame>, mow: seq<Role>, fs': seq<Frame>, root: nat, lo: nat, a: nat)
    requires lo <= a < MAXPAGE && Unmapped(fs, ow, mid, root, lo, a) && Looks(mid, mow, fs', root, a, 0)
    requires exists freed :: Gave(ow, mow, root, lo, a, freed)
    ensures Unmapped(fs, ow, fs', root, lo, a + 1)
  {
    hide Look;
    forall r, q | IsRoot(ow, r) && 0 <= q < MAXPAGE ensures Look(fs', r, q) == if r == root && lo <= q < a + 1 then 0 else Look(fs, r, q) {
      assert IsRoot(mow, r);
    }
  }

  lemma GaveNext(ow: seq<Role>, mow: seq<Role>, ow': seq<Role>, root: nat, lo: nat, a: nat, freed: bool)
    requires lo <= a && Gave(ow, mow, root, lo, a, freed) && Gave(mow, ow', root, a, a + 1, freed)
    ensures Gave(ow, ow', root, lo, a + 1, freed)
  {
  }

  lemma KeepsNext(fs: seq<Frame>, ow: seq<Role>, mid: seq<Frame>, mow: seq<Role>, fs': seq<Frame>, root: nat, lo: nat, a: nat, freed: bool)
    requires lo <= a && Gave(ow, mow, root, lo, a, freed) && KeepsOthers(fs, ow, mid, root, lo, a) && KeepsOthers(mid, mow, fs', root, a, a + 1)
    ensures KeepsOthers(fs, ow, fs', root, lo, a + 1)
  {
  }

  /** What is mapped in pages lo..hi are frames of their own. */
  ghost predicate OwnsMapped(fs: seq<Frame>, ow: seq<Role>, root: nat, lo: nat, hi: nat) {
    forall q :: lo <= q < hi && V(Look(fs, root, q)) ==> OwnPage(fs, ow, root, q)
  }

  lemma StillOwns(fs: seq<Frame>, ow: seq<Role>, mid: seq<Frame>, mow: seq<Role>, root: nat, lo: nat, a: nat, freed: bool)
    requires |mid| == |mow| && IsRoot(ow, root) && lo <= a < MAXPAGE && Unmapped(fs, ow, mid, root, lo, a) && Gave(ow, mow, root, lo, a, freed)
    ensures Look(mid, root, a) == Look(fs, root, a)
    ensures OwnPage(fs, ow, root, a) ==> OwnPage(mid, mow, root, a)
  {
    hide Look, V, Ppn;
  }

  /** uvmunmap over n pages. False is a panic, which happens exactly if not all of them
      are mapped. */
  method Uvmunmap(m: Memory, root: nat, page: nat, n: nat, doFree: bool) returns (ok: bool)
    requires m.Valid() && IsRoot(m.owner, root) && page + n <= MAXPAGE
    requires doFree ==> OwnsMapped(m.frames, m.owner, root, page, page + n)
    modifies m
    ensures m.Valid() && IsRoot(m.owner, root)
    ensures ok ==> Unmapped(old(m.frames), old(m.owner), m.frames, root, page, page + n)
    ensures ok ==> Gave(old(m.owner), m.owner, root, page, page + n, doFree)
    ensures ok ==> KeepsOthers(old(m.frames), old(m.owner), m.frames, root, page, page + n)
    ensures ok <==> Maps(old(m.frames), root, page, page + n)
  {
    hide Look, V, Ppn, Nodes, Places, FreeList, OwnPage, Unmapped, Gave, KeepsOthers;
    ghost var fs, ow := m.frames, m.owner;
    UnmapNone(fs, ow, root, page, doFree);
    var a := page;
    while a < page + n
      invariant page <= a <= page + n && m.Valid() && IsRoot(m.owner, root)
      invariant Unmapped(fs, ow, m.frames, root, page, a) && Gave(ow, m.owner, root, page, a, doFree)
      invariant KeepsOthers(fs, ow, m.frames, root, page, a) && Maps(fs, root, page, a)
    {
      ghost var mid, mow := m.frames, m.owner;
      StillOwns(fs, ow, mid, mow, root, page, a, doFree);
      ok := m.UnmapPage(root, a, doFree);
      if !ok {
        return false;
      }
      UnmapNext(fs, ow, mid, mow, m.frames, root, page, a);
      GaveNext(ow, mow, m.owner, root, page, a, doFree);
      KeepsNext(fs, ow, mid, mow, m.frames, root, page, a, doFree);
      a := a + 1;
    }
    ok := true;
  }

  lemma UnmapNone(fs: seq<Frame>, ow: seq<Role>, root: nat, page: nat, freed: bool)
    requires |fs| == |ow|
    ensures Unmapped(fs, ow, fs, root, page, page) && Gave(ow, ow, root, page, page, freed) && KeepsOthers(fs, ow, fs, root, page, page)
  {
    hide Look;
  }

  // ----- growing -----

  function PgUp(sz: nat): nat { (sz + PGSIZE - 1) / PGSIZE }  // PGROUNDUP(sz) / PGSIZE

  /** An address space with n user pages: each has a frame of its own, and between
      them and the trapframe nothing is mapped. */
  ghost predicate Space(fs: seq<Frame>, ow: seq<Role>, root: nat, n: nat) {
    IsRoot(ow, root) && n <= TRAPFRAME && Owns(fs, ow, root, 0, n) && forall q :: n <= q < TRAPFRAME ==> Look(fs, root, q) == 0
  }

  /** The page has these contents and these permissions. */
  ghost predicate PageIs(fs: seq<Frame>, root: nat, page: nat, bytes: seq<Byte>, flags: nat) {
    Ppn(Look(fs, root, page)) < |fs| && fs[Ppn(Look(fs, root, page))] == Page(bytes) && Flags(Look(fs, root, page)) == flags
  }

  function Bytes(fs: seq<Frame>, root: nat, page: nat): seq<Byte> {
    if Ppn(Look(fs, root, page)) < |fs| && fs[Ppn(Look(fs, root, page))].Page? then fs[Ppn(Look(fs, root, page))].bytes else []
  }

  /** What a new page is made from: a page of another address space, or zeros. */
  datatype Origin = Zeros(perm: nat) | Copy(from: nat)

  ghost predicate NewPage(fs: seq<Frame>, o: Origin, fs': seq<Frame>, root: nat, page: nat) {
    match o
    case Zeros(perm) => PageIs(fs', root, page, Filled(0), WithV(perm))
    case Copy(from) => PageIs(fs', root, page, Bytes(fs, from, page), Flags(Look(fs, from, page)))
  }

  /** The frames that changed hands came from the free list and became interior nodes
      of `root` or its pages lo..hi. */
  ghost predicate TookPages(ow: seq<Role>, ow': seq<Role>, root: nat, lo: nat, hi: nat) {
    |ow'| == |ow| && forall f :: 0 <= f < |ow| ==> ow'[f] == ow[f] || (ow[f].Free? && NewRole(ow'[f], root, lo, hi))
  }

  predicate NewRole(r: Role, root: nat, lo: nat, hi: nat) {
    (r.Node? && r.root == root && r.level < 2) || (r.Leaf? && r.root == root && lo <= r.page < hi)
  }

  /** One turn of uvmalloc or uvmcopy: a new frame with the given bytes for one more
      page. On failure the frame is given back. */
  method AddPage(m: Memory, root: nat, page: nat, bytes: seq<Byte>, perm: nat) returns (ok: bool)
    requires m.Valid() && IsRoot(m.owner, root) && page < MAXPAGE && Look(m.frames, root, page) == 0 && perm < 1024 && Rwx(perm) && |bytes| == PGSIZE
    modifies m
    ensures m.Valid() && IsRoot(m.owner, root) && KeepsData(old(m.frames), old(m.owner), m.frames)
    ensures ok ==> OwnPage(m.frames, m.owner, root, page) && PageIs(m.frames, root, page, bytes, WithV(perm))
    ensures ok ==> Looks(old(m.frames), old(m.owner), m.frames, root, page, Look(m.frames, root, page))
    ensures ok ==> TookPages(old(m.owner), m.owner, root, page, page + 1)
    ensures !ok ==> SameLooks(old(m.frames), old(m.owner), m.frames) && Took(old(m.owner), m.owner, root)
    ensures ok <==> 1 + TablesFor(old(m.owner), root, page) <= |old(m.list)|
    ensures ok ==> |m.list| == |old(m.list)| - 1 - TablesFor(old(m.owner), root, page) && Gained(old(m.owner), m.owner, root, page, page + 1)
  {
    hide Look, V, Ppn, Flags, Rwx, Nodes, Places, FreeList, SameLooks, Looks, Pte, WithV, TablesFor, Gained, Has;
    var mem := m.Kalloc();
    if mem == 0 {
      return false;
    }
    SameTables(old(m.owner), m.owner, root, page);
    ghost var fs1, ow1 := m.frames, m.owner;
    SameLookAt(old(m.frames), old(m.owner), fs1, root, page);
    m.Store(mem, bytes);
    SameLookAt(fs1, ow1, m.frames, root, page);
    SameLooksThen(old(m.frames), old(m.owner), fs1, ow1, m.frames);
    ghost var fs2, ow2 := m.frames, m.owner;
    ZeroPte();
    PteOf(mem, perm);
    var r := m.MapPage(root, page, mem, perm, true);
    if !r.Ok? {
      ghost var fs3, ow3 := m.frames, m.owner;
      SameLooksThen(old(m.frames), old(m.owner), fs2, ow2, fs3);
      ok := m.Kfree(mem);
      SameLooksThen(old(m.frames), old(m.owner), fs3, ow3, m.frames);
      return false;
    }
    LooksFrom(old(m.frames), old(m.owner), fs2, ow2, m.frames, root, page, Pte(mem, WithV(perm)));
    GainedFrom(old(m.owner), ow2, m.owner, root, page, page + 1);
    ok := true;
  }

  // ----- how many frames a growth takes -----

  /** The tables that a growth from page lo on makes for page q: those on the way to it that
      were not there and are not on the way to the page before. */
  ghost function NewTables(ow: seq<Role>, root: nat, lo: nat, q: nat): nat {
    NewTable(ow, root, lo, q, 1) + NewTable(ow, root, lo, q, 0)
  }

  ghost function NewTable(ow: seq<Role>, root: nat, lo: nat, q: nat, level: nat): nat {
    if !Has(ow, Node(root, level, Prefix(level, q))) && (q <= lo || Prefix(level, q) != Prefix(level, q - 1)) then 1 else 0
  }

  /** The frames for pages lo..hi: one for each page, and the tables. */
  ghost function FramesFor(ow: seq<Role>, root: nat, lo: nat, hi: nat): nat
    decreases hi
  {
    if hi <= lo then 0 else FramesFor(ow, root, lo, hi - 1) + 1 + NewTables(ow, root, lo, hi - 1)
  }

  /** Three frames per page are always enough. */
  lemma {:induction false} ThreeEach(ow: seq<Role>, root: nat, lo: nat, hi: nat)
    requires lo <= hi
    ensures hi - lo <= FramesFor(ow, root, lo, hi) <= 3 * (hi - lo)
    decreases hi
  {
    if lo < hi {
      ThreeEach(ow, root, lo, hi - 1);
    }
  }

  lemma {:induction false} FramesMore(ow: seq<Role>, root: nat, lo: nat, a: nat, b: nat)
    requires a <= b
    ensures FramesFor(ow, root, lo, a) <= FramesFor(ow, root, lo, b)
    decreases b
  {
    if a < b {
      FramesMore(ow, root, lo, a, b - 1);
    }
  }

  lemma GainedNone(ow: seq<Role>, root: nat, lo: nat)
    ensures Gained(ow, ow, root, lo, lo)
  {
    hide Has;
  }

  lemma GainedFrom(ow: seq<Role>, mow: seq<Role>, ow': seq<Role>, root: nat, lo: nat, hi: nat)
    requires Gained(mow, ow', root, lo, hi) && forall level: nat, prefix: nat :: Has(mow, Node(root, level, prefix)) <==> Has(ow, Node(root, level, prefix))
    ensures Gained(ow, ow', root, lo, hi)
  {
    hide Has, OnWay;
  }

  lemma PrefixLast(level: nat, lo: nat, a: nat)
    requires level < 2
    ensures OnWay(level, Prefix(level, a), lo, a) <==> lo < a && Prefix(level, a - 1) == Prefix(level, a)
  {
    if OnWay(level, Prefix(level, a), lo, a) {
      var q :| lo <= q < a && Prefix(level, q) == Prefix(level, a);
      assert Prefix(level, q) <= Prefix(level, a - 1) <= Prefix(level, a);
    }
  }

  lemma TablesAfter(ow: seq<Role>, mow: seq<Role>, root: nat, lo: nat, a: nat)
    requires lo <= a && Gained(ow, mow, root, lo, a)
    ensures TablesFor(mow, root, a) == NewTables(ow, root, lo, a)
  {
    hide Has, OnWay, Prefix;
    PrefixLast(0, lo, a);
    PrefixLast(1, lo, a);
  }

  lemma OnWayMore(level: nat, prefix: nat, lo: nat, a: nat)
    requires lo <= a
    ensures OnWay(level, prefix, lo, a + 1) <==> OnWay(level, prefix, lo, a) || OnWay(level, prefix, a, a + 1)
  {
    hide Prefix;
  }

  lemma GainedMore(ow: seq<Role>, mow: seq<Role>, ow': seq<Role>, root: nat, lo: nat, a: nat)
    requires lo <= a && Gained(ow, mow, root, lo, a) && Gained(mow, ow', root, a, a + 1)
    ensures Gained(ow, ow', root, lo, a + 1)
  {
    hide Has, OnWay;
    forall level: nat, prefix: nat | level < 2 ensures Has(ow', Node(root, level, prefix)) <==> Has(ow, Node(root, level, prefix)) || OnWay(level, prefix, lo, a + 1) {
      OnWayMore(level, prefix, lo, a);
    }
  }

  lemma SameLooksThen(fs: seq<Frame>, ow: seq<Role>, mid: seq<Frame>, mow: seq<Role>, fs': seq<Frame>)
    requires SameLooks(fs, ow, mid) && SameLooks(mid, mow, fs') && |mow| == |ow|
    requires forall f :: 0 <= f < |ow| && ow[f].Node? ==> mow[f] == ow[f]
    ensures SameLooks(fs, ow, fs')
  {
    hide Look;
    forall r, q | IsRoot(ow, r) && 0 <= q < MAXPAGE ensures Look(fs', r, q) == Look(fs, r, q) {
      assert IsRoot(mow, r);
    }
  }

  lemma LooksFrom(fs: seq<Frame>, ow: seq<Role>, mid: seq<Frame>, mow: seq<Role>, fs': seq<Frame>, root: nat, page: nat, p: nat)
    requires SameLooks(fs, ow, mid) && Looks(mid, mow, fs', root, page, p) && |mow| == |ow| && IsRoot(ow, root) && page < MAXPAGE
    requires forall f :: 0 <= f < |ow| && ow[f].Node? ==> mow[f] == ow[f]
    ensures Looks(fs, ow, fs', root, page, p) && Look(fs', root, page) == p
  {
    hide Look;
    forall r, q | IsRoot(ow, r) && 0 <= q < MAXPAGE ensures Look(fs', r, q) == if r == root && q == page then p else Look(fs, r, q) {
      assert IsRoot(mow, r);
    }
    assert IsRoot(mow, root);
  }

  /** Pages lo..hi of `root` are new, owned and as their origin says; all else maps as
      before. */
  ghost predicate Grew(fs: seq<Frame>, ow: seq<Role>, fs': seq<Frame>, ow': seq<Role>, root: nat, lo: nat, hi: nat, o: Origin) {
    (forall r, q :: IsRoot(ow, r) && 0 <= q < MAXPAGE && !(r == root && lo <= q < hi) ==> Look(fs', r, q) == Look(fs, r, q))
    && (forall q :: lo <= q < hi ==> OwnPage(fs', ow', root, q) && NewPage(fs, o, fs', root, q))
    && TookPages(ow, ow', root, lo, hi) && KeepsData(fs, ow, fs')
  }

  lemma GrewNone(fs: seq<Frame>, ow: seq<Role>, root: nat, lo: nat, o: Origin)
    requires |fs| == |ow|
    ensures Grew(fs, ow, fs, ow, root, lo, lo, o)
  {
    hide Look;
  }

  /** A page that was there before a turn is there after it. */
  lemma OwnKept(fs: seq<Frame>, ow: seq<Role>, fs': seq<Frame>, ow': seq<Role>, root: nat, q: nat)
    requires |fs| == |ow| == |fs'| == |ow'| && OwnPage(fs, ow, root, q) && Look(fs', root, q) == Look(fs, root, q)
    requires ow'[Ppn(Look(fs, root, q))] == Leaf(root, q) && fs'[Ppn(Look(fs, root, q))] == fs[Ppn(Look(fs, root, q))]
    ensures OwnPage(fs', ow', root, q)
    ensures forall src, o :: NewPage(src, o, fs, root, q) ==> NewPage(src, o, fs', root, q)
  {
    hide Look, V, Ppn, Flags;
  }

  lemma GrewNext(fs: seq<Frame>, ow: seq<Role>, mid: seq<Frame>, mow: seq<Role>, fs': seq<Frame>, ow': seq<Role>, root: nat, lo: nat, a: nat, o: Origin)
    requires lo <= a < MAXPAGE && IsRoot(ow, root) && IsRoot(mow, root) && |mid| == |mow| && |fs'| == |ow'| && Grew(fs, ow, mid, mow, root, lo, a, o)
    requires KeepsData(mid, mow, fs') && TookPages(mow, ow', root, a, a + 1)
    requires OwnPage(fs', ow', root, a) && NewPage(fs, o, fs', root, a) && Looks(mid, mow, fs', root, a, Look(fs', root, a))
    ensures Grew(fs, ow, fs', ow', root, lo, a + 1, o)
  {
    hide Look, V, Ppn, NewPage;
    forall q | lo <= q < a + 1 ensures OwnPage(fs', ow', root, q) && NewPage(fs, o, fs', root, q) {
      if q < a {
        OwnKept(mid, mow, fs', ow', root, q);
      }
    }
    forall r, q | IsRoot(ow, r) && 0 <= q < MAXPAGE && !(r == root && lo <= q < a + 1) ensures Look(fs', r, q) == Look(fs, r, q) {
      assert IsRoot(mow, r);
    }
  }

  /** Unmapping what a failed growth had added restores every mapping, and the only
      frames that stay with `root` are interior nodes. */
  lemma RolledBack(fs: seq<Frame>, ow: seq<Role>, mid: seq<Frame>, mow: seq<Role>, fs': seq<Frame>, ow': seq<Role>, root: nat, lo: nat, a: nat, o: Origin)
    requires Places(fs, ow) && lo <= a <= MAXPAGE && IsRoot(ow, root)
    requires Grew(fs, ow, mid, mow, root, lo, a, o) && forall q :: lo <= q < a ==> Look(fs, root, q) == 0
    requires Unmapped(mid, mow, fs', root, lo, a) && Gave(mow, ow', root, lo, a, true) && KeepsOthers(mid, mow, fs', root, lo, a)
    ensures SameLooks(fs, ow, fs') && Took(ow, ow', root) && KeepsData(fs, ow, fs')
  {
    hide Look, V, Ppn, NewPage;
    ZeroPte();
    forall f | 0 <= f < |ow| && ow[f].Leaf? && ow[f].root == root ensures !(lo <= ow[f].page < a) {
      assert Placed(fs, ow, f);
    }
    forall r, q | IsRoot(ow, r) && 0 <= q < MAXPAGE ensures Look(fs', r, q) == Look(fs, r, q) {
      assert IsRoot(mow, r);
    }
  }

  /** As many pages with frames of their own as there are frames, at most. */
  lemma PagesBounded(fs: seq<Frame>, ow: seq<Role>, root: nat, n: nat)
    requires Owns(fs, ow, root, 0, n) && |fs| == |ow|
    ensures n <= |ow|
  {
    hide Look, V, Ppn;
    var fr := seq(n, q requires 0 <= q < n => assert OwnPage(fs, ow, root, q); Ppn(Look(fs, root, q)));
    forall q | 0 <= q < n ensures fr[q] < |ow| && ow[fr[q]] == Leaf(root, q) {
      assert OwnPage(fs, ow, root, q);
    }
    Counting.Pigeonhole(fr, |ow|);
  }

  /** Give back the pages of a growth that ran out of memory. */
  method RollBack(m: Memory, root: nat, first: nat, a: nat, ghost fs: seq<Frame>, ghost ow: seq<Role>, ghost mid: seq<Frame>, ghost mow: seq<Role>, ghost o: Origin)
    requires m.Valid() && IsRoot(m.owner, root) && first <= a <= TRAPFRAME && Space(fs, ow, root, first) && Nodes(fs, ow) && Places(fs, ow)
    requires |mid| == |mow| && IsRoot(mow, root) && Grew(fs, ow, mid, mow, root, first, a, o)
    requires KeepsData(mid, mow, m.frames) && Took(mow, m.owner, root) && SameLooks(mid, mow, m.frames)
    modifies m
    ensures m.Valid() && Space(m.frames, m.owner, root, first)
    ensures SameLooks(fs, ow, m.frames) && Took(ow, m.owner, root) && KeepsData(fs, ow, m.frames)
  {
    hide Look, V, Ppn, Nodes, Places, FreeList, OwnPage, Grew, Space, SameLooks, Took, KeepsData, Owns, OwnsMapped, Maps, Unmapped, Gave, KeepsOthers;
    SpaceRoot(fs, ow, root, first);
    ghost var fs', ow' := m.frames, m.owner;
    GrewFailed(fs, ow, mid, mow, fs', ow', root, first, a, o);
    var ok := Uvmunmap(m, root, first, a - first, true);
    RolledBack(fs, ow, fs', ow', m.frames, m.owner, root, first, a, o);
    SpaceSame(fs, ow, m.frames, m.owner, root, first);
  }

  /** uvmalloc: grow from oldsz to newsz bytes. 0 means out of memory: fewer frames are free
      than the new pages and the tables missing on the way to them take. Then every mapping
      is as before and no frame has left the free list except for interior nodes. Growth cannot reach the trapframe, whatever newsz asks for: the frames
      run out first. */
  method Uvmalloc(m: Memory, root: nat, oldsz: nat, newsz: nat, xperm: nat) returns (r: nat)
    requires m.Valid() && Space(m.frames, m.owner, root, PgUp(oldsz)) && xperm in {0, PTE_W, PTE_X, PTE_W + PTE_X}
    modifies m
    ensures m.Valid()
    ensures newsz < oldsz ==> r == oldsz && m.frames == old(m.frames) && m.owner == old(m.owner)
    ensures newsz == 0 ==> m.frames == old(m.frames) && m.owner == old(m.owner)
    ensures newsz >= oldsz ==> r == if FramesFor(old(m.owner), root, PgUp(oldsz), PgUp(newsz)) <= |old(m.list)| then newsz else 0
    ensures newsz >= oldsz && r != 0 ==> Space(m.frames, m.owner, root, PgUp(newsz))
    ensures newsz >= oldsz && r != 0 ==>
      Grew(old(m.frames), old(m.owner), m.frames, m.owner, root, PgUp(oldsz), PgUp(newsz), Zeros(PTE_R + PTE_U + xperm))
    ensures newsz > 0 && r == 0 ==> Space(m.frames, m.owner, root, PgUp(oldsz))
    ensures newsz > 0 && r == 0 ==> SameLooks(old(m.frames), old(m.owner), m.frames)
    ensures newsz > 0 && r == 0 ==> Took(old(m.owner), m.owner, root) && KeepsData(old(m.frames), old(m.owner), m.frames)
  {
    hide Look, V, Ppn, Nodes, Places, FreeList, OwnPage, Grew, Space, SameLooks, Took, KeepsData, Owns, TablesFor, NewTables, Gained, Has;
    if newsz < oldsz {
      return oldsz;
    }
    ghost var fs, ow, o := m.frames, m.owner, Zeros(PTE_R + PTE_U + xperm);
    var first := PgUp(oldsz);
    SpaceRoot(fs, ow, root, first);
    GrewNone(fs, ow, root, first, o);
    GainedNone(ow, root, first);
    var a := first;
    while a * PGSIZE < newsz
      invariant first <= a && (a == first || a <= PgUp(newsz)) && m.Valid() && IsRoot(m.owner, root)
      invariant Grew(fs, ow, m.frames, m.owner, root, first, a, o) && Space(m.frames, m.owner, root, a)
      invariant newsz == 0 ==> m.frames == fs && m.owner == ow
      invariant |m.list| == |old(m.list)| - FramesFor(ow, root, first, a) && Gained(ow, m.owner, root, first, a)
      decreases newsz - a * PGSIZE
    {
      SpaceTop(m.frames, m.owner, root, a);
      TablesAfter(ow, m.owner, root, first, a);
      FramesMore(ow, root, first, a + 1, PgUp(newsz));
      ghost var mid, mow := m.frames, m.owner;
      PermOk(xperm);
      var ok := AddPage(m, root, a, Filled(0), PTE_R + PTE_U + xperm);
      if !ok {
        RollBack(m, root, first, a, fs, ow, mid, mow, o);
        return 0;
      }
      SpaceNext(mid, mow, m.frames, m.owner, root, a);
      GrewNext(fs, ow, mid, mow, m.frames, m.owner, root, first, a, o);
      GainedMore(ow, mow, m.owner, root, first, a);
      a := a + 1;
    }
    PgUpIs(a, newsz, oldsz);
    r := newsz;
  }

  lemma PermOk(xperm: nat)
    requires xperm in {0, PTE_W, PTE_X, PTE_W + PTE_X}
    ensures PTE_R + PTE_U + xperm < 1024 && Rwx(PTE_R + PTE_U + xperm)
  {
  }

  lemma PgUpIs(a: nat, newsz: nat, oldsz: nat)
    requires newsz >= oldsz && PgUp(oldsz) <= a && (a == PgUp(oldsz) || a <= PgUp(newsz)) && a * PGSIZE >= newsz
    ensures a == PgUp(newsz)
  {
  }

  lemma SpaceRoot(fs: seq<Frame>, ow: seq<Role>, root: nat, n: nat)
    requires Space(fs, ow, root, n)
    ensures IsRoot(ow, root) && n <= TRAPFRAME && forall q :: n <= q < TRAPFRAME ==> Look(fs, root, q) == 0
  {
    hide Look;
  }

  /** The next page of an address space is below the trapframe and not mapped. */
  lemma SpaceTop(fs: seq<Frame>, ow: seq<Role>, root: nat, n: nat)
    requires Space(fs, ow, root, n) && |fs| == |ow| <= MAXFRAMES
    ensures n < TRAPFRAME && Look(fs, root, n) == 0
  {
    hide Look;
    PagesBounded(fs, ow, root, n);
  }

  lemma SpaceNext(fs: seq<Frame>, ow: seq<Role>, fs': seq<Frame>, ow': seq<Role>, root: nat, n: nat)
    requires Space(fs, ow, root, n) && |fs| == |ow| == |fs'| == |ow'| && n < TRAPFRAME && IsRoot(ow', root)
    requires OwnPage(fs', ow', root, n) && Looks(fs, ow, fs', root, n, Look(fs', root, n))
    requires TookPages(ow, ow', root, n, n + 1) && KeepsData(fs, ow, fs')
    ensures Space(fs', ow', root, n + 1)
  {
    hide Look, V, Ppn;
    forall q | 0 <= q < n + 1 ensures OwnPage(fs', ow', root, q) {
      if q < n {
        OwnKept(fs, ow, fs', ow', root, q);
      }
    }
  }

  lemma SpaceSame(fs: seq<Frame>, ow: seq<Role>, fs': seq<Frame>, ow': seq<Role>, root: nat, n: nat)
    requires Space(fs, ow, root, n) && |fs'| == |ow'| && SameLooks(fs, ow, fs') && Took(ow, ow', root) && KeepsData(fs, ow, fs')
    ensures Space(fs', ow', root, n)
  {
    hide Look, V, Ppn;
    forall q | 0 <= q < n ensures OwnPage(fs', ow', root, q) {
      assert OwnPage(fs, ow, root, q);
      OwnKept(fs, ow, fs', ow', root, q);
    }
  }

  lemma GrewFailed(fs: seq<Frame>, ow: seq<Role>, mid: seq<Frame>, mow: seq<Role>, fs': seq<Frame>, ow': seq<Role>, root: nat, lo: nat, a: nat, o: Origin)
    requires lo <= a <= MAXPAGE && IsRoot(ow, root) && IsRoot(mow, root) && |mid| == |mow| && |fs'| == |ow'| && Grew(fs, ow, mid, mow, root, lo, a, o)
    requires KeepsData(mid, mow, fs') && Took(mow, ow', root) && SameLooks(mid, mow, fs')
    ensures Grew(fs, ow, fs', ow', root, lo, a, o) && OwnsMapped(fs', ow', root, lo, a) && Maps(fs', root, lo, a)
  {
    hide Look, V, Ppn, NewPage;
    forall q | lo <= q < a ensures OwnPage(fs', ow', root, q) && NewPage(fs, o, fs', root, q) && V(Look(fs', root, q)) {
      OwnKept(mid, mow, fs', ow', root, q);
    }
    forall r, q | IsRoot(ow, r) && 0 <= q < MAXPAGE && !(r == root && lo <= q < a) ensures Look(fs', r, q) == Look(fs, r, q) {
      assert IsRoot(mow, r);
    }
  }

  // ----- shrinking and copying -----

  /** uvmdealloc: shrink from oldsz to newsz bytes. None is uvmunmap's panic. It happens
      exactly if a page between the two sizes is not mapped, so oldsz must not be larger
      than the process. */
  method Uvmdealloc(m: Memory, root: nat, oldsz: nat, newsz: nat) returns (r: Option<nat>)
    requires m.Valid() && IsRoot(m.owner, root) && PgUp(oldsz) <= MAXPAGE && OwnsMapped(m.frames, m.owner, root, 0, PgUp(oldsz))
    modifies m
    ensures m.Valid() && IsRoot(m.owner, root)
    ensures newsz >= oldsz ==> r == Some(oldsz) && m.frames == old(m.frames) && m.owner == old(m.owner)
    ensures newsz < oldsz ==> (r.Some? <==> Maps(old(m.frames), root, PgUp(newsz), PgUp(oldsz)))
    ensures newsz < oldsz && r.Some? ==> r == Some(newsz) && Unmapped(old(m.frames), old(m.owner), m.frames, root, PgUp(newsz), PgUp(oldsz))
    ensures newsz < oldsz && r.Some? ==> Gave(old(m.owner), m.owner, root, PgUp(newsz), PgUp(oldsz), true)
    ensures newsz < oldsz && r.Some? ==> KeepsOthers(old(m.frames), old(m.owner), m.frames, root, PgUp(newsz), PgUp(oldsz))
    ensures newsz < oldsz && r.Some? && old(Space(m.frames, m.owner, root, PgUp(oldsz))) ==> Space(m.frames, m.owner, root, PgUp(newsz))
  {
    hide Look, V, Ppn, Nodes, Places, FreeList, OwnPage, Space, Unmapped, Gave, KeepsOthers;
    if newsz >= oldsz {
      return Some(oldsz);
    }
    ghost var fs, ow := m.frames, m.owner;
    UnmapNone(fs, ow, root, PgUp(newsz), true);
    if PgUp(newsz) < PgUp(oldsz) {
      var ok := Uvmunmap(m, root, PgUp(newsz), PgUp(oldsz) - PgUp(newsz), true);
      if !ok {
        return None;
      }
    }
    if Space(fs, ow, root, PgUp(oldsz)) {
      Shrunk(fs, ow, m.frames, m.owner, root, PgUp(newsz), PgUp(oldsz));
    }
    r := Some(newsz);
  }

  lemma Shrunk(fs: seq<Frame>, ow: seq<Role>, fs': seq<Frame>, ow': seq<Role>, root: nat, lo: nat, hi: nat)
    requires Space(fs, ow, root, hi) && lo <= hi && |fs'| == |ow'| && Unmapped(fs, ow, fs', root, lo, hi) && Gave(ow, ow', root, lo, hi, true)
    ensures Space(fs', ow', root, lo)
  {
    hide Look, V, Ppn;
    forall q | 0 <= q < lo ensures OwnPage(fs', ow', root, q) {
      assert OwnPage(fs, ow, root, q);
    }
  }

  /** Each user page of `to` has the bytes and permissions of the same page of `from`, in
      another frame. */
  ghost predicate Copied(fs: seq<Frame>, ow: seq<Role>, from: nat, to: nat, n: nat) {
    forall q :: 0 <= q < n ==> SamePage(fs, ow, from, to, q)
  }

  ghost predicate SamePage(fs: seq<Frame>, ow: seq<Role>, from: nat, to: nat, q: nat) {
    Bytes(fs, to, q) == Bytes(fs, from, q) && |Bytes(fs, to, q)| == PGSIZE
    && Flags(Look(fs, to, q)) == Flags(Look(fs, from, q)) && Ppn(Look(fs, to, q)) != Ppn(Look(fs, from, q))
  }

  /** What uvmcopy comes to: a copy, -1 without memory, or its panic over a page of the
      parent that is not mapped. */
  datatype CopyResult = Done | OutOfMemory | Missing

  /** uvmcopy: copy a parent's memory to a child with an empty address space. It succeeds
      exactly if every page below sz is mapped and the frames for them and their tables are
      free, and panics exactly if it comes to a page that is not mapped. Without memory the
      child is empty again and all it keeps is interior nodes. */
  method Uvmcopy(m: Memory, from: nat, to: nat, sz: nat) returns (r: CopyResult)
    requires m.Valid() && from != to && IsRoot(m.owner, from) && OwnsMapped(m.frames, m.owner, from, 0, PgUp(sz)) && Space(m.frames, m.owner, to, 0)
    modifies m
    ensures m.Valid()
    ensures r.Done? <==> Maps(old(m.frames), from, 0, PgUp(sz)) && FramesFor(old(m.owner), to, 0, PgUp(sz)) <= |old(m.list)|
    ensures r.Missing? <==> exists u :: 0 <= u < PgUp(sz) && Missed(old(m.frames), old(m.owner), |old(m.list)|, from, to, u)
    ensures r.Done? ==> Space(m.frames, m.owner, to, PgUp(sz)) && Copied(m.frames, m.owner, from, to, PgUp(sz))
    ensures r.Done? ==> Grew(old(m.frames), old(m.owner), m.frames, m.owner, to, 0, PgUp(sz), Copy(from))
    ensures r.OutOfMemory? ==> Space(m.frames, m.owner, to, 0) && SameLooks(old(m.frames), old(m.owner), m.frames)
    ensures r.OutOfMemory? ==> Took(old(m.owner), m.owner, to) && KeepsData(old(m.frames), old(m.owner), m.frames)
  {
    hide Look, V, Ppn, Flags, Rwx, Nodes, Places, FreeList, OwnPage, Grew, Space, SameLooks, Took, KeepsData, Owns, Copied, Bytes, PageIs, WithV, IsSlot, OwnsMapped, TablesFor, NewTables, Gained, Has, FramesFor, Missed;
    ghost var fs, ow, o := m.frames, m.owner, Copy(from);
    SpaceRoot(fs, ow, to, 0);
    GrewNone(fs, ow, to, 0, o);
    GainedNone(ow, to, 0);
    NoFrames(ow, to);
    var i := 0;
    while i * PGSIZE < sz
      invariant 0 <= i <= PgUp(sz) && m.Valid() && IsRoot(m.owner, to) && IsRoot(m.owner, from) && Maps(fs, from, 0, i)
      invariant Grew(fs, ow, m.frames, m.owner, to, 0, i, o) && Space(m.frames, m.owner, to, i)
      invariant |m.list| == |old(m.list)| - FramesFor(ow, to, 0, i) && Gained(ow, m.owner, to, 0, i)
      decreases sz - i * PGSIZE
    {
      SpaceTop(m.frames, m.owner, to, i);
      TablesAfter(ow, m.owner, to, 0, i);
      CopyStep(fs, ow, |old(m.list)|, from, to, PgUp(sz), i);
      SourceLook(fs, ow, m.frames, m.owner, from, to, i);
      ghost var mid, mow := m.frames, m.owner;
      var slot := m.Walk(from, i, false);
      if slot.None? {
        ZeroPte();
        return Missing;
      }
      SlotLook(m.frames, m.owner, from, i, slot.value);
      var pte := m.frames[slot.value.0].ptes[slot.value.1];
      if !V(pte) {
        return Missing;
      }
      SourcePage(fs, ow, m.frames, m.owner, from, to, PgUp(sz), i);
      var ok := AddPage(m, to, i, m.frames[Ppn(pte)].bytes, Flags(pte));
      if !ok {
        RollBack(m, to, 0, i, fs, ow, mid, mow, o);
        return OutOfMemory;
      }
      SpaceNext(mid, mow, m.frames, m.owner, to, i);
      GrewNext(fs, ow, mid, mow, m.frames, m.owner, to, 0, i, o);
      GainedMore(ow, mow, m.owner, to, 0, i);
      i := i + 1;
    }
    PgUpIs(i, sz, 0);
    NoneMissed(fs, ow, |old(m.list)|, from, to, PgUp(sz));
    SpaceRoot(m.frames, m.owner, to, i);
    CopiedAll(fs, ow, m.frames, m.owner, from, to, PgUp(sz));
    r := Done;
  }

  /** Page u of the parent is the first that is not mapped, and the frames last up to it. */
  ghost predicate Missed(fs: seq<Frame>, ow: seq<Role>, free: nat, from: nat, to: nat, u: nat) {
    Maps(fs, from, 0, u) && !V(Look(fs, from, u)) && FramesFor(ow, to, 0, u) <= free
  }

  lemma NoFrames(ow: seq<Role>, root: nat)
    ensures FramesFor(ow, root, 0, 0) == 0
  {
  }

  /** What the i-th turn of the copy decides. */
  lemma CopyStep(fs: seq<Frame>, ow: seq<Role>, free: nat, from: nat, to: nat, n: nat, i: nat)
    requires i < n && Maps(fs, from, 0, i) && FramesFor(ow, to, 0, i) <= free
    ensures !V(Look(fs, from, i)) ==> Missed(fs, ow, free, from, to, i) && !Maps(fs, from, 0, n)
    ensures FramesFor(ow, to, 0, i + 1) == FramesFor(ow, to, 0, i) + 1 + NewTables(ow, to, 0, i)
    ensures FramesFor(ow, to, 0, i + 1) <= FramesFor(ow, to, 0, n)
    ensures V(Look(fs, from, i)) && FramesFor(ow, to, 0, i + 1) > free ==> !exists u :: 0 <= u < n && Missed(fs, ow, free, from, to, u)
  {
    hide Look, V, NewTables;
    FramesMore(ow, to, 0, i + 1, n);
    if V(Look(fs, from, i)) && FramesFor(ow, to, 0, i + 1) > free {
      forall u | 0 <= u < n ensures !Missed(fs, ow, free, from, to, u) {
        if i < u {
          FramesMore(ow, to, 0, i + 1, u);
        }
      }
    }
  }

  lemma NoneMissed(fs: seq<Frame>, ow: seq<Role>, free: nat, from: nat, to: nat, n: nat)
    requires Maps(fs, from, 0, n)
    ensures !exists u :: 0 <= u < n && Missed(fs, ow, free, from, to, u)
  {
    hide Look, V, FramesFor;
  }

  lemma SlotLook(fs: seq<Frame>, ow: seq<Role>, root: nat, page: nat, slot: (nat, nat))
    requires IsSlot(fs, ow, slot.0, slot.1, root, page)
    ensures slot.0 < |fs| && fs[slot.0].Table? && slot.1 < |fs[slot.0].ptes| && fs[slot.0].ptes[slot.1] == Look(fs, root, page)
  {
  }

  /** While the copy runs, the parent's page is still what it was. */
  lemma SourcePage(fs: seq<Frame>, ow: seq<Role>, mid: seq<Frame>, mow: seq<Role>, from: nat, to: nat, n: nat, i: nat)
    requires IsRoot(ow, from) && OwnsMapped(fs, ow, from, 0, n) && i < n && i < MAXPAGE && V(Look(fs, from, i)) && Look(mid, from, i) == Look(fs, from, i)
    requires KeepsData(fs, ow, mid) && Places(fs, ow) && Nodes(fs, ow)
    ensures var p := Look(fs, from, i); V(p) && Rwx(Flags(p)) && Flags(p) < 1024 && WithV(Flags(p)) == Flags(p)
    ensures var p := Look(fs, from, i); Ppn(p) < |mid| && mid[Ppn(p)] == Page(Bytes(fs, from, i)) && |mid[Ppn(p)].bytes| == PGSIZE
  {
    assert OwnPage(fs, ow, from, i);
    LeafRwx(fs, ow, from, i);
    SourceBytes(fs, ow, mid, from, i);
  }

  lemma SourceLook(fs: seq<Frame>, ow: seq<Role>, mid: seq<Frame>, mow: seq<Role>, from: nat, to: nat, i: nat)
    requires from != to && IsRoot(ow, from) && i < MAXPAGE && Grew(fs, ow, mid, mow, to, 0, i, Copy(from))
    ensures Look(mid, from, i) == Look(fs, from, i) && KeepsData(fs, ow, mid)
  {
    hide Look, V, Ppn;
  }

  lemma SourceBytes(fs: seq<Frame>, ow: seq<Role>, mid: seq<Frame>, from: nat, i: nat)
    requires OwnPage(fs, ow, from, i) && KeepsData(fs, ow, mid) && Places(fs, ow) && Look(mid, from, i) == Look(fs, from, i)
    ensures var p := Look(mid, from, i); Ppn(p) < |mid| && mid[Ppn(p)] == Page(Bytes(fs, from, i)) && |mid[Ppn(p)].bytes| == PGSIZE
  {
    hide Look, V, Ppn;
    assert Placed(fs, ow, Ppn(Look(fs, from, i)));
  }

  lemma LeafRwx(fs: seq<Frame>, ow: seq<Role>, root: nat, page: nat)
    requires Nodes(fs, ow) && IsRoot(ow, root) && page < MAXPAGE && V(Look(fs, root, page))
    ensures var p := Look(fs, root, page); Rwx(p) && Rwx(Flags(p)) && Flags(p) < 1024 && WithV(Flags(p)) == Flags(p)
  {
    PageIndex(page);
    WalkPath(fs, ow, root, page);
    var low := Child(fs, Child(fs, root, page / 0x4_0000), page / 512 % 512);
    assert NodeOk(fs, ow, low);
    hide NodeOk, Look, Child;
    assert EntryOk(fs, ow, low, page % 512);
  }

  lemma CopiedAll(fs: seq<Frame>, ow: seq<Role>, fs': seq<Frame>, ow': seq<Role>, from: nat, to: nat, n: nat)
    requires from != to && IsRoot(ow, from) && n <= MAXPAGE && OwnsMapped(fs, ow, from, 0, n) && Maps(fs, from, 0, n)
    requires Grew(fs, ow, fs', ow', to, 0, n, Copy(from)) && Places(fs, ow)
    ensures Copied(fs', ow', from, to, n)
  {
    hide Look, V, Ppn, Flags;
    forall q | 0 <= q < n ensures SamePage(fs', ow', from, to, q) {
      assert OwnPage(fs, ow, from, q);
      assert OwnPage(fs', ow', to, q) && NewPage(fs, Copy(from), fs', to, q);
      assert Placed(fs, ow, Ppn(Look(fs, from, q)));
    }
  }
}
