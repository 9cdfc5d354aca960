/** Copying between the kernel and user virtual addresses. */
module UserCopy {
  import opened Wrappers
  import opened Vm
  import opened Uvm

  function PageOf(va: nat): nat { va / PGSIZE }
  function Off(va: nat): nat { va % PGSIZE }

  /** A user page, writable if `write`. */
  predicate May(fs: seq<Frame>, root: nat, page: nat, write: bool) {
    page < MAXPAGE && V(Look(fs, root, page)) && U(Look(fs, root, page)) && (write ==> W(Look(fs, root, page)))
  }

  ghost predicate MayAll(fs: seq<Frame>, root: nat, va: nat, n: nat, write: bool) {
    forall a: nat :: va <= a < va + n ==> May(fs, root, PageOf(a), write)
  }

  /** No frame is shared by user pages. */
  ghost predicate UserPages(fs: seq<Frame>, ow: seq<Role>, root: nat) {
    forall q :: 0 <= q < MAXPAGE && May(fs, root, q, false) ==> OwnPage(fs, ow, root, q)
  }

  /** The byte at a virtual address. */
  function At(fs: seq<Frame>, root: nat, va: nat): Byte {
    if Off(va) < |Bytes(fs, root, PageOf(va))| then Bytes(fs, root, PageOf(va))[Off(va)] else 0
  }

  /** Bytes va..va+|src| hold src; no other byte of the address space, nor any frame that
      is not part of it, has changed. */
  ghost predicate Wrote(fs: seq<Frame>, ow: seq<Role>, fs': seq<Frame>, root: nat, va: nat, src: seq<Byte>) {
    |fs'| == |fs| == |ow| && SameLooks(fs, ow, fs')
    && (forall a: nat :: OwnPage(fs, ow, root, PageOf(a)) ==> At(fs', root, a) == if va <= a < va + |src| then src[a - va] else At(fs, root, a))
    && (forall f :: 0 <= f < |fs| && !(ow[f].Leaf? && ow[f].root == root) ==> fs'[f] == fs[f])
  }

  // ----- one page -----

  function Patch(b: seq<Byte>, off: nat, chunk: seq<Byte>): (r: seq<Byte>)
    requires off + |chunk| <= |b|
    ensures |r| == |b| && forall k :: 0 <= k < |b| ==> r[k] == if off <= k < off + |chunk| then chunk[k - off] else b[k]
  {
    b[..off] + chunk + b[off + |chunk|..]
  }

  /** Changing the bytes of a leaf changes no mapping and no role. */
  lemma DataOk(fs: seq<Frame>, ow: seq<Role>, c: nat, bytes: seq<Byte>)
    requires Nodes(fs, ow) && Places(fs, ow) && c < |fs| && ow[c].Leaf? && |bytes| == PGSIZE
    ensures Nodes(fs[c := Page(bytes)], ow) && Places(fs[c := Page(bytes)], ow) && SameLooks(fs, ow, fs[c := Page(bytes)])
  {
    hide V, Ppn, Flags, Look;
    var fs' := fs[c := Page(bytes)];
    forall root, page | IsRoot(ow, root) && 0 <= page < MAXPAGE ensures Look(fs', root, page) == Look(fs, root, page) {
      LookSame(fs, ow, fs', root, page);
    }
    forall f | 0 <= f < |fs| ensures NodeOk(fs', ow, f) && Placed(fs', ow, f) {
      DataFrame(fs, ow, c, bytes, f);
    }
  }

  lemma DataFrame(fs: seq<Frame>, ow: seq<Role>, c: nat, bytes: seq<Byte>, f: nat)
    requires Nodes(fs, ow) && Places(fs, ow) && c < |fs| && ow[c].Leaf? && |bytes| == PGSIZE && f < |fs|
    ensures NodeOk(fs[c := Page(bytes)], ow, f) && Placed(fs[c := Page(bytes)], ow, f)
  {
    hide V, Ppn, Flags, Rwx, Look;
    var fs' := fs[c := Page(bytes)];
    assert NodeOk(fs, ow, f) && Placed(fs, ow, f);
    if ow[f].Leaf? {
      LookSame(fs, ow, fs', ow[f].root, ow[f].page);
    }
    if ow[f].Node? {
      forall i | 0 <= i < ENTRIES ensures EntryOk(fs', ow, f, i) {
        assert EntryOk(fs, ow, f, i);
      }
      if ow[f].level == 0 {
        ChildNode(fs, ow, ow[f].root, ow[f].prefix / 512);
      }
    }
  }

  lemma Split(va: nat)
    ensures va == PageOf(va) * PGSIZE + Off(va) && Off(va) < PGSIZE
  {
  }

  lemma Joined(page: nat, off: nat)
    requires off < PGSIZE
    ensures PageOf(page * PGSIZE + off) == page && Off(page * PGSIZE + off) == off
  {
  }

  /** How much of a copy is left to do in the page of va. */
  function Turn(va: nat, len: nat): (n: nat)
    ensures n <= len && Off(va) + n <= PGSIZE && (len > 0 ==> n > 0)
    ensures n < len ==> Off(va + n) == 0
    ensures forall a: nat :: va <= a < va + n ==> PageOf(a) == PageOf(va)
  {
    if PGSIZE - Off(va) > len then len else PGSIZE - Off(va)
  }

  /** A user page is a frame of its own holding a page of bytes. */
  lemma UserPage(fs: seq<Frame>, ow: seq<Role>, root: nat, page: nat)
    requires Places(fs, ow) && OwnPage(fs, ow, root, page)
    ensures var c := Ppn(Look(fs, root, page)); c < |fs| && ow[c] == Leaf(root, page) && fs[c] == Page(Bytes(fs, root, page))
    ensures |Bytes(fs, root, page)| == PGSIZE && IsRoot(ow, root) && page < MAXPAGE
  {
    hide Look, V, Ppn;
    assert Placed(fs, ow, Ppn(Look(fs, root, page)));
  }

  /** What one turn of copyout does to the address space. */
  lemma PatchAt(fs: seq<Frame>, ow: seq<Role>, root: nat, va: nat, chunk: seq<Byte>, a: nat)
    requires Nodes(fs, ow) && Places(fs, ow) && OwnPage(fs, ow, root, PageOf(va)) && OwnPage(fs, ow, root, PageOf(a)) && Off(va) + |chunk| <= PGSIZE
    ensures Ppn(Look(fs, root, PageOf(va))) < |fs| && |Bytes(fs, root, PageOf(va))| == PGSIZE
    ensures At(fs[Ppn(Look(fs, root, PageOf(va))) := Page(Patch(Bytes(fs, root, PageOf(va)), Off(va), chunk))], root, a)
         == if va <= a < va + |chunk| then chunk[a - va] else At(fs, root, a)
  {
    hide Look, V, Ppn, PageOf, Off, OwnPage, Nodes, Places, Bytes, SameLooks, Patch;
    UserPage(fs, ow, root, PageOf(va));
    UserPage(fs, ow, root, PageOf(a));
    var c, b := Ppn(Look(fs, root, PageOf(va))), Patch(Bytes(fs, root, PageOf(va)), Off(va), chunk);
    DataOk(fs, ow, c, b);
    SameLookAt(fs, ow, fs[c := Page(b)], root, PageOf(a));
    BytesAfter(fs, c, b, root, PageOf(a));
    Near(va, a, |chunk|);
  }

  lemma BytesAfter(fs: seq<Frame>, c: nat, b: seq<Byte>, root: nat, page: nat)
    requires c < |fs| && Look(fs[c := Page(b)], root, page) == Look(fs, root, page)
    ensures Bytes(fs[c := Page(b)], root, page) == if Ppn(Look(fs, root, page)) == c then b else Bytes(fs, root, page)
  {
    hide Look, Ppn;
  }

  /** A range within one page, in offsets. */
  lemma Near(va: nat, a: nat, n: nat)
    requires Off(va) + n <= PGSIZE
    ensures Off(a) < PGSIZE && (va <= a < va + n ==> PageOf(a) == PageOf(va) && Off(a) - Off(va) == a - va)
    ensures PageOf(a) == PageOf(va) && Off(va) <= Off(a) < Off(va) + n ==> va <= a < va + n
  {
    hide PageOf, Off;
    Split(va);
    Split(a);
  }

  lemma WroteNone(fs: seq<Frame>, ow: seq<Role>, root: nat, va: nat)
    requires |fs| == |ow|
    ensures Wrote(fs, ow, fs, root, va, [])
  {
    hide Look, At, OwnPage;
  }

  /** A user page stays one while others are written. */
  lemma StillUser(fs: seq<Frame>, ow: seq<Role>, mid: seq<Frame>, root: nat, page: nat)
    requires |fs| == |mid| == |ow| && SameLooks(fs, ow, mid) && IsRoot(ow, root) && page < MAXPAGE
    ensures Look(mid, root, page) == Look(fs, root, page) && (OwnPage(fs, ow, root, page) <==> OwnPage(mid, ow, root, page))
  {
    hide Look, V, Ppn;
  }

  lemma WroteNext(fs: seq<Frame>, ow: seq<Role>, mid: seq<Frame>, root: nat, va: nat, done: seq<Byte>, chunk: seq<Byte>)
    requires Nodes(mid, ow) && Places(mid, ow) && Wrote(fs, ow, mid, root, va, done) && Places(fs, ow)
    requires OwnPage(fs, ow, root, PageOf(va + |done|)) && Off(va + |done|) + |chunk| <= PGSIZE
    ensures var page := PageOf(va + |done|);
      Ppn(Look(mid, root, page)) < |mid| && mid[Ppn(Look(mid, root, page))].Page? && |Bytes(mid, root, page)| == PGSIZE
      && Wrote(fs, ow, mid[Ppn(Look(mid, root, page)) := Page(Patch(Bytes(mid, root, page), Off(va + |done|), chunk))], root, va, done + chunk)
  {
    hide Look, V, Ppn, PageOf, Off, OwnPage, Nodes, Places, At, Bytes;
    var at := va + |done|;
    var page := PageOf(at);
    UserPage(fs, ow, root, page);
    StillUser(fs, ow, mid, root, page);
    UserPage(mid, ow, root, page);
    var c := Ppn(Look(mid, root, page));
    var fs' := mid[c := Page(Patch(Bytes(mid, root, page), Off(at), chunk))];
    DataOk(mid, ow, c, Patch(Bytes(mid, root, page), Off(at), chunk));
    SameLooksThen(fs, ow, mid, ow, fs');
    forall a: nat | OwnPage(fs, ow, root, PageOf(a))
      ensures At(fs', root, a) == if va <= a < va + |done + chunk| then (done + chunk)[a - va] else At(fs, root, a)
    {
      UserPage(fs, ow, root, PageOf(a));
      StillUser(fs, ow, mid, root, PageOf(a));
      PatchAt(mid, ow, root, at, chunk, a);
    }
  }

  /** memmove into part of a leaf frame. */
  method Memmove(m: Memory, c: nat, off: nat, chunk: seq<Byte>)
    requires m.Valid() && c < |m.owner| && m.owner[c].Leaf? && m.frames[c].Page? && |m.frames[c].bytes| == PGSIZE && off + |chunk| <= PGSIZE
    modifies m`frames
    ensures m.Valid() && m.frames == old(m.frames)[c := Page(Patch(old(m.frames)[c].bytes, off, chunk))]
  {
    hide Nodes, Places, FreeList, Look, SameLooks;
    var frame := Page(Patch(m.frames[c].bytes, off, chunk));
    DataOk(m.frames, m.owner, c, frame.bytes);
    FreeKept(m.frames, m.owner, m.frames[c := frame], m.owner, m.freelist, m.list);
    m.frames := m.frames[c := frame];
  }

  lemma WroteLook(fs: seq<Frame>, ow: seq<Role>, mid: seq<Frame>, root: nat, va: nat, done: seq<Byte>, page: nat)
    requires Wrote(fs, ow, mid, root, va, done) && IsRoot(ow, root) && page < MAXPAGE
    ensures Look(mid, root, page) == Look(fs, root, page)
  {
    hide Look, At, OwnPage;
  }

  lemma SlotMay(fs: seq<Frame>, ow: seq<Role>, root: nat, page: nat, slot: Option<(nat, nat)>)
    requires (slot.None? ==> Look(fs, root, page) == 0) && (slot.Some? ==> IsSlot(fs, ow, slot.value.0, slot.value.1, root, page))
    ensures slot.None? ==> !V(Look(fs, root, page))
    ensures slot.Some? ==> slot.value.0 < |fs| && fs[slot.value.0].Table? && slot.value.1 < |fs[slot.value.0].ptes|
    ensures slot.Some? ==> fs[slot.value.0].ptes[slot.value.1] == Look(fs, root, page)
  {
    ZeroPte();
  }

  lemma UserPagesAt(fs: seq<Frame>, ow: seq<Role>, root: nat, page: nat)
    requires UserPages(fs, ow, root) && May(fs, root, page, false)
    ensures OwnPage(fs, ow, root, page)
  {
  }

  lemma StillBytes(fs: seq<Frame>, root: nat, page: nat)
    requires Ppn(Look(fs, root, page)) < |fs| && fs[Ppn(Look(fs, root, page))].Page?
    ensures fs[Ppn(Look(fs, root, page))].bytes == Bytes(fs, root, page)
  {
    hide Look;
  }

  /** copyout. It fails exactly if some page of the range is not a writable user page,
      and then has written all bytes in front of the first such page. */
  method Copyout(m: Memory, root: nat, dstva: nat, src: seq<Byte>) returns (ok: bool, ghost done: nat)
    requires m.Valid() && IsRoot(m.owner, root) && UserPages(m.frames, m.owner, root)
    modifies m
    ensures m.Valid() && m.owner == old(m.owner) && done <= |src| && Wrote(old(m.frames), m.owner, m.frames, root, dstva, src[..done])
    ensures ok <==> MayAll(old(m.frames), root, dstva, |src|, true)
    ensures if ok then done == |src| else done < |src| && !May(old(m.frames), root, PageOf(dstva + done), true)
    ensures MayAll(old(m.frames), root, dstva, done, true)
  {
    hide Look, V, Ppn, Flags, U, W, Nodes, Places, FreeList, Wrote, PageOf, Off, OwnPage, UserPages, IsSlot, SameLooks, Bytes;
    ghost var fs, ow := m.frames, m.owner;
    WroteNone(fs, ow, root, dstva);
    var k: nat := 0;
    done := 0;
    assert src[..0] == [];
    while k < |src|
      invariant k <= |src| && m.Valid() && m.owner == ow && done == k
      invariant Wrote(fs, ow, m.frames, root, dstva, src[..k]) && MayAll(fs, root, dstva, k, true)
    {
      var page := PageOf(dstva + k);
      if page >= MAXPAGE {
        return false, k;
      }
      WroteLook(fs, ow, m.frames, root, dstva, src[..k], page);
      var slot := m.Walk(root, page, false);
      SlotMay(m.frames, ow, root, page, slot);
      if slot.None? {
        return false, k;
      }
      var pte := m.frames[slot.value.0].ptes[slot.value.1];
      if !V(pte) || !U(pte) || !W(pte) {
        return false, k;
      }
      UserPagesAt(fs, ow, root, page);
      var n := Turn(dstva + k, |src| - k);
      WroteNext(fs, ow, m.frames, root, dstva, src[..k], src[k..k + n]);
      assert src[..k] + src[k..k + n] == src[..k + n];
      UserPage(fs, ow, root, page);
      StillBytes(m.frames, root, page);
      Memmove(m, Ppn(pte), Off(dstva + k), src[k..k + n]);
      k := k + n;
      done := k;
    }
    ok := true;
    assert src[..k] == src;
  }

  /** copyin. It fails exactly if some page of the range is not a user page; otherwise
      it returns the bytes of the range. */
  method Copyin(m: Memory, root: nat, srcva: nat, len: nat) returns (ok: bool, dst: seq<Byte>)
    requires m.Valid() && IsRoot(m.owner, root) && UserPages(m.frames, m.owner, root)
    modifies m
    ensures m.Valid() && m.frames == old(m.frames) && m.owner == old(m.owner)
    ensures ok <==> MayAll(m.frames, root, srcva, len, false)
    ensures ok ==> |dst| == len
    ensures forall a :: srcva <= a < srcva + |dst| ==> dst[a - srcva] == At(m.frames, root, a)
  {
    hide Look, V, Ppn, Flags, U, W, Nodes, Places, FreeList, PageOf, Off, OwnPage, UserPages, IsSlot, SameLooks, Bytes, At;
    ghost var fs, ow := m.frames, m.owner;
    var k: nat := 0;
    dst := [];
    while k < len
      invariant k <= len && m.Valid() && m.owner == ow && m.frames == fs && |dst| == k && MayAll(fs, root, srcva, k, false)
      invariant forall a :: srcva <= a < srcva + k ==> dst[a - srcva] == At(fs, root, a)
    {
      var page := PageOf(srcva + k);
      if page >= MAXPAGE {
        return false, dst;
      }
      var slot := m.Walk(root, page, false);
      SlotMay(m.frames, ow, root, page, slot);
      if slot.None? {
        return false, dst;
      }
      var pte := m.frames[slot.value.0].ptes[slot.value.1];
      if !V(pte) || !U(pte) {
        return false, dst;
      }
      UserPagesAt(fs, ow, root, page);
      UserPage(fs, ow, root, page);
      var n := Turn(srcva + k, len - k);
      PageSlice(fs, root, srcva + k, n);
      dst := dst + m.frames[Ppn(pte)].bytes[Off(srcva + k)..Off(srcva + k) + n];
      k := k + n;
    }
    ok := true;
  }

  lemma PageSlice(fs: seq<Frame>, root: nat, va: nat, n: nat)
    requires |Bytes(fs, root, PageOf(va))| == PGSIZE && Off(va) + n <= PGSIZE
    ensures forall a :: va <= a < va + n ==> Bytes(fs, root, PageOf(va))[Off(va)..Off(va) + n][a - va] == At(fs, root, a)
  {
    hide Bytes, PageOf, Off;
    forall a: nat | va <= a < va + n ensures Bytes(fs, root, PageOf(va))[Off(va)..Off(va) + n][a - va] == At(fs, root, a) {
      Split(va);
      Split(a);
    }
  }

  /** What copyout wrote, copyin reads back, and it does not fail. */
  lemma OutIn(fs: seq<Frame>, ow: seq<Role>, fs': seq<Frame>, root: nat, va: nat, src: seq<Byte>)
    requires Places(fs, ow) && IsRoot(ow, root) && UserPages(fs, ow, root) && MayAll(fs, root, va, |src|, true) && Wrote(fs, ow, fs', root, va, src)
    ensures MayAll(fs', root, va, |src|, false) && UserPages(fs', ow, root)
    ensures forall a :: va <= a < va + |src| ==> At(fs', root, a) == src[a - va]
  {
    hide Look, At, V, U, W, Ppn, PageOf;
    forall a: nat | va <= a < va + |src| ensures At(fs', root, a) == src[a - va] && May(fs', root, PageOf(a), false) {
      assert May(fs, root, PageOf(a), true) && May(fs, root, PageOf(a), false);
      assert OwnPage(fs, ow, root, PageOf(a));
    }
    forall q | 0 <= q < MAXPAGE && May(fs', root, q, false) ensures OwnPage(fs', ow, root, q) {
      StillUser(fs, ow, fs', root, q);
      assert May(fs, root, q, false);
    }
  }
}
