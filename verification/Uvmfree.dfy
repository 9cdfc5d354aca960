/** Making and freeing whole page tables. */
module Uvmfree {
  import opened Wrappers
  import opened Vm
  import opened Uvm

  // ----- the part of a page table below one of its nodes -----

  function Up(prefix: nat, k: nat): nat { if k == 0 then prefix else if k == 1 then prefix / 512 else prefix / 0x4_0000 }

  /** Frame f is a node at or below the node (level, prefix) of `root`. */
  ghost predicate Sub(t: seq<Role>, f: nat, root: nat, level: nat, prefix: nat) {
    f < |t| && t[f].Node? && t[f].root == root && t[f].level <= level && Up(t[f].prefix, level - t[f].level) == prefix
  }

  /** The entry of a node at `level` through which node f is reached. */
  ghost function Via(t: seq<Role>, f: nat, level: nat): nat
    requires f < |t| && t[f].Node? && t[f].level < level
  {
    Up(t[f].prefix, level - 1 - t[f].level) % 512
  }

  lemma SubVia(t: seq<Role>, f: nat, root: nat, level: nat, prefix: nat, i: nat)
    requires 0 < level <= 2 && i < 512
    ensures Sub(t, f, root, level - 1, prefix * 512 + i) <==> Sub(t, f, root, level, prefix) && t[f].level < level && Via(t, f, level) == i
  {
  }

  /** Only one frame plays a given node. */
  lemma OneNode(fs: seq<Frame>, t: seq<Role>, f: nat, g: nat)
    requires Nodes(fs, t) && Places(fs, t) && f < |t| && g < |t| && t[f].Node? && t[f] == t[g]
    ensures f == g
  {
    hide V, Ppn, Flags, Child, Look;
    assert Placed(fs, t, f) && Placed(fs, t, g) && NodeOk(fs, t, f) && NodeOk(fs, t, g);
  }

  /** A node below another is reached through one of its entries. */
  lemma Reached(fs: seq<Frame>, t: seq<Role>, pt: nat, f: nat)
    requires Nodes(fs, t) && Places(fs, t) && pt < |t| && t[pt].Node?
    requires Sub(t, f, t[pt].root, t[pt].level, t[pt].prefix) && t[f].level < t[pt].level
    ensures Child(fs, pt, Via(t, f, t[pt].level)) != 0
  {
    hide V, Ppn, Flags, Child, Look;
    assert Placed(fs, t, f) && Placed(fs, t, pt) && NodeOk(fs, t, pt);
  }

  /** No page is mapped through the nodes at or below (level, prefix). */
  ghost predicate NoLeaf(fs: seq<Frame>, t: seq<Role>, root: nat, level: nat, prefix: nat) {
    forall f: nat, i :: Sub(t, f, root, level, prefix) && t[f].level == 0 && 0 <= i < ENTRIES ==> !V(Entry(fs, f, i))
  }

  /** The nodes at or below (level, prefix) are out of the page table but still as they
      were in it. */
  ghost predicate Standing(fs: seq<Frame>, ow: seq<Role>, fs0: seq<Frame>, t: seq<Role>, root: nat, level: nat, prefix: nat) {
    |fs| == |ow| == |fs0| == |t| && forall f: nat :: Sub(t, f, root, level, prefix) ==> ow[f].Other? && fs[f] == fs0[f]
  }

  /** Those of them below entries in front of i. */
  ghost predicate Gone(t: seq<Role>, f: nat, root: nat, level: nat, prefix: nat, i: nat) {
    Sub(t, f, root, level, prefix) && t[f].level < level && Via(t, f, level) < i
  }

  /** Between two turns: the nodes below earlier entries are free, and nothing else
      changed but the node's own earlier entries. */
  ghost predicate Freeing(fs: seq<Frame>, ow: seq<Role>, fs': seq<Frame>, ow': seq<Role>, fs0: seq<Frame>, t: seq<Role>, pt: nat, i: nat) {
    |fs| == |ow| == |fs'| == |ow'| == |t| == |fs0| && pt < |t| && t[pt].Node? && fs'[pt].Table? && fs0[pt].Table?
    && |fs'[pt].ptes| == |fs0[pt].ptes| == ENTRIES && ow'[pt].Other?
    && (forall j :: i <= j < ENTRIES ==> fs'[pt].ptes[j] == fs0[pt].ptes[j])
    && (forall f :: 0 <= f < |t| ==> ow'[f] == if Gone(t, f, t[pt].root, t[pt].level, t[pt].prefix, i) then Free else ow[f])
    && (forall f :: 0 <= f < |t| && f != pt && !Gone(t, f, t[pt].root, t[pt].level, t[pt].prefix, i) ==> fs'[f] == fs[f])
  }

  ghost predicate NoLeafYet(fs0: seq<Frame>, t: seq<Role>, pt: nat, i: nat) {
    pt < |t| && t[pt].Node?
    && (forall f: nat, j :: Gone(t, f, t[pt].root, t[pt].level, t[pt].prefix, i) && t[f].level == 0 && 0 <= j < ENTRIES ==> !V(Entry(fs0, f, j)))
    && (t[pt].level == 0 ==> forall j :: 0 <= j < i ==> !V(Entry(fs0, pt, j)))
  }

  /** After freewalk: the nodes at or below (level, prefix) are free, all else is as it
      was. */
  ghost predicate Freed(fs: seq<Frame>, ow: seq<Role>, fs': seq<Frame>, ow': seq<Role>, t: seq<Role>, root: nat, level: nat, prefix: nat) {
    |fs| == |ow| == |fs'| == |ow'| == |t|
    && (forall f :: 0 <= f < |t| ==> ow'[f] == if Sub(t, f, root, level, prefix) then Free else ow[f])
    && (forall f :: 0 <= f < |t| && !Sub(t, f, root, level, prefix) ==> fs'[f] == fs[f])
  }

  lemma FreeingStart(fs: seq<Frame>, ow: seq<Role>, fs0: seq<Frame>, t: seq<Role>, pt: nat)
    requires Nodes(fs0, t) && pt < |t| && t[pt].Node? && Standing(fs, ow, fs0, t, t[pt].root, t[pt].level, t[pt].prefix)
    ensures Freeing(fs, ow, fs, ow, fs0, t, pt, 0) && NoLeafYet(fs0, t, pt, 0)
  {
    hide V, Entry, EntryOk;
    assert NodeOk(fs0, t, pt);
    assert Sub(t, pt, t[pt].root, t[pt].level, t[pt].prefix);
  }

  lemma FreeingChild(fs: seq<Frame>, ow: seq<Role>, fs': seq<Frame>, ow': seq<Role>, fs0: seq<Frame>, t: seq<Role>, pt: nat, i: nat)
    requires Freeing(fs, ow, fs', ow', fs0, t, pt, i) && i < ENTRIES && 0 < t[pt].level <= 2
    requires Standing(fs, ow, fs0, t, t[pt].root, t[pt].level, t[pt].prefix)
    ensures Standing(fs', ow', fs0, t, t[pt].root, t[pt].level - 1, t[pt].prefix * 512 + i)
  {
    hide Via, Up;
    forall f: nat | Sub(t, f, t[pt].root, t[pt].level - 1, t[pt].prefix * 512 + i) ensures ow'[f].Other? && fs'[f] == fs0[f] {
      SubVia(t, f, t[pt].root, t[pt].level, t[pt].prefix, i);
    }
  }

  /** Entry i leads nowhere. */
  lemma FreeingSkip(fs: seq<Frame>, ow: seq<Role>, fs': seq<Frame>, ow': seq<Role>, fs0: seq<Frame>, t: seq<Role>, pt: nat, i: nat)
    requires Nodes(fs0, t) && Places(fs0, t) && Freeing(fs, ow, fs', ow', fs0, t, pt, i) && NoLeafYet(fs0, t, pt, i)
    requires i < ENTRIES && t[pt].level <= 2 && !V(fs0[pt].ptes[i])
    ensures Freeing(fs, ow, fs', ow', fs0, t, pt, i + 1) && NoLeafYet(fs0, t, pt, i + 1)
  {
    hide Via, Up, V, Ppn, Flags, NodeOk, Placed, Child, Entry;
    EntryAt(fs0, pt, i);
    NotChild(fs0, pt, i);
    forall f: nat ensures Gone(t, f, t[pt].root, t[pt].level, t[pt].prefix, i + 1) <==> Gone(t, f, t[pt].root, t[pt].level, t[pt].prefix, i) {
      if Sub(t, f, t[pt].root, t[pt].level, t[pt].prefix) && t[f].level < t[pt].level && Via(t, f, t[pt].level) == i {
        Reached(fs0, t, pt, f);
        assert false;
      }
    }
  }

  /** The nodes below entry i have been freed and the entry cleared. */
  lemma FreeingNext(fs: seq<Frame>, ow: seq<Role>, mid: seq<Frame>, mow: seq<Role>, fs': seq<Frame>, ow': seq<Role>, fs0: seq<Frame>, t: seq<Role>, pt: nat, i: nat)
    requires Freeing(fs, ow, mid, mow, fs0, t, pt, i) && NoLeafYet(fs0, t, pt, i) && i < ENTRIES && 0 < t[pt].level <= 2
    requires Freed(mid, mow, fs', ow', t, t[pt].root, t[pt].level - 1, t[pt].prefix * 512 + i)
    requires NoLeaf(fs0, t, t[pt].root, t[pt].level - 1, t[pt].prefix * 512 + i)
    ensures fs'[pt].Table? && i < |fs'[pt].ptes|
    ensures Freeing(fs, ow, SetEntry(fs', pt, i, 0), ow', fs0, t, pt, i + 1) && NoLeafYet(fs0, t, pt, i + 1)
  {
    hide Via, Up, V, Entry;
    forall f: nat
      ensures Sub(t, f, t[pt].root, t[pt].level - 1, t[pt].prefix * 512 + i)
         <==> Gone(t, f, t[pt].root, t[pt].level, t[pt].prefix, i + 1) && !Gone(t, f, t[pt].root, t[pt].level, t[pt].prefix, i)
    {
      SubVia(t, f, t[pt].root, t[pt].level, t[pt].prefix, i);
    }
  }

  /** All entries are done: what is left is the node itself. */
  lemma FreeingEnd(fs: seq<Frame>, ow: seq<Role>, mid: seq<Frame>, mow: seq<Role>, fs': seq<Frame>, ow': seq<Role>, fs0: seq<Frame>, t: seq<Role>, pt: nat)
    requires Nodes(fs0, t) && Places(fs0, t) && Freeing(fs, ow, mid, mow, fs0, t, pt, ENTRIES) && NoLeafYet(fs0, t, pt, ENTRIES)
    requires |fs'| == |fs| && fs' == mid[pt := fs'[pt]] && ow' == mow[pt := Free]
    ensures Freed(fs, ow, fs', ow', t, t[pt].root, t[pt].level, t[pt].prefix) && NoLeaf(fs0, t, t[pt].root, t[pt].level, t[pt].prefix)
  {
    hide V, Ppn, Flags, NodeOk, Placed, Child, Entry;
    forall f: nat
      ensures Sub(t, f, t[pt].root, t[pt].level, t[pt].prefix) <==> f == pt || Gone(t, f, t[pt].root, t[pt].level, t[pt].prefix, ENTRIES)
    {
      if Sub(t, f, t[pt].root, t[pt].level, t[pt].prefix) && t[f].level == t[pt].level {
        OneNode(fs0, t, f, pt);
      }
    }
  }

  lemma LeafBelow(fs0: seq<Frame>, t: seq<Role>, root: nat, level: nat, prefix: nat, i: nat)
    requires 0 < level <= 2 && i < ENTRIES && !NoLeaf(fs0, t, root, level - 1, prefix * 512 + i)
    ensures !NoLeaf(fs0, t, root, level, prefix)
  {
    hide V, Entry, Via, Up;
    var f: nat, j :| Sub(t, f, root, level - 1, prefix * 512 + i) && t[f].level == 0 && 0 <= j < ENTRIES && V(Entry(fs0, f, j));
    SubVia(t, f, root, level, prefix, i);
  }

  lemma LeafHere(fs0: seq<Frame>, t: seq<Role>, pt: nat, i: nat)
    requires Nodes(fs0, t) && pt < |t| && t[pt].Node? && fs0[pt].Table? && i < |fs0[pt].ptes| == ENTRIES && V(fs0[pt].ptes[i])
    ensures Rwx(fs0[pt].ptes[i]) <==> t[pt].level == 0
    ensures t[pt].level == 0 ==> !NoLeaf(fs0, t, t[pt].root, t[pt].level, t[pt].prefix)
    ensures t[pt].level > 0 ==> Ppn(fs0[pt].ptes[i]) < |t| && t[Ppn(fs0[pt].ptes[i])] == Node(t[pt].root, t[pt].level - 1, t[pt].prefix * 512 + i)
  {
    assert NodeOk(fs0, t, pt) && EntryOk(fs0, t, pt, i);
    EntryAt(fs0, pt, i);
    assert Sub(t, pt, t[pt].root, t[pt].level, t[pt].prefix);
  }

  /** freewalk on a node taken out of its page table. False is the panic "freewalk:
      leaf", which happens exactly if a page is still mapped at or below the node. The
      page table as it was, its roles and the node's place in it are only there for the
      proof. */
  method Freewalk(m: Memory, pt: nat, ghost fs0: seq<Frame>, ghost t: seq<Role>) returns (ok: bool)
    requires m.Valid() && Nodes(fs0, t) && Places(fs0, t) && pt < |t| && t[pt].Node? && t[pt].level <= 2
    requires forall f :: 0 <= f < |t| && t[f].Node? ==> m.lo <= f
    requires Standing(m.frames, m.owner, fs0, t, t[pt].root, t[pt].level, t[pt].prefix)
    modifies m
    ensures m.Valid() && |m.owner| == |old(m.owner)| && SameLooks(old(m.frames), old(m.owner), m.frames)
    ensures forall r :: IsRoot(old(m.owner), r) ==> IsRoot(m.owner, r)
    ensures ok <==> NoLeaf(fs0, t, t[pt].root, t[pt].level, t[pt].prefix)
    ensures ok ==> Freed(old(m.frames), old(m.owner), m.frames, m.owner, t, t[pt].root, t[pt].level, t[pt].prefix)
    decreases t[pt].level
  {
    hide Nodes, Places, FreeList, Look, V, Ppn, Flags, Rwx, Sub, NoLeaf, Standing, Freed, Gone, Freeing, NoLeafYet, SameLooks;
    ghost var fs, ow := m.frames, m.owner;
    FreeingStart(fs, ow, fs0, t, pt);
    SameLooksSelf(fs, ow);
    var i := 0;
    while i < ENTRIES
      invariant 0 <= i <= ENTRIES && m.Valid() && Freeing(fs, ow, m.frames, m.owner, fs0, t, pt, i) && NoLeafYet(fs0, t, pt, i)
      invariant |m.owner| == |ow| && SameLooks(fs, ow, m.frames) && forall r :: IsRoot(ow, r) ==> IsRoot(m.owner, r)
    {
      FreeingAt(fs, ow, m.frames, m.owner, fs0, t, pt, i);
      var pte := m.frames[pt].ptes[i];
      if V(pte) {
        LeafHere(fs0, t, pt, i);
      }
      if V(pte) && !Rwx(pte) {
        FreeingChild(fs, ow, m.frames, m.owner, fs0, t, pt, i);
        ghost var mid, mow := m.frames, m.owner;
        ok := Freewalk(m, Ppn(pte), fs0, t);
        SameLooksOn(fs, ow, mid, mow, m.frames);
        if !ok {
          LeafBelow(fs0, t, t[pt].root, t[pt].level, t[pt].prefix, i);
          return;
        }
        FreeingNext(fs, ow, mid, mow, m.frames, m.owner, fs0, t, pt, i);
        mid, mow := m.frames, m.owner;
        FreeingAt(fs, ow, SetEntry(mid, pt, i, 0), mow, fs0, t, pt, i + 1);
        ClearEntry(m, pt, i);
        SameLooksOn(fs, ow, mid, mow, m.frames);
      } else if V(pte) {
        return false;
      } else {
        FreeingSkip(fs, ow, m.frames, m.owner, fs0, t, pt, i);
      }
      i := i + 1;
    }
    ghost var mid, mow := m.frames, m.owner;
    FreeingAt(fs, ow, mid, mow, fs0, t, pt, i);
    ok := m.Kfree(pt);
    SameLooksOn(fs, ow, mid, mow, m.frames);
    FreeingEnd(fs, ow, mid, mow, m.frames, m.owner, fs0, t, pt);
  }

  lemma FreeingAt(fs: seq<Frame>, ow: seq<Role>, fs': seq<Frame>, ow': seq<Role>, fs0: seq<Frame>, t: seq<Role>, pt: nat, i: nat)
    requires Freeing(fs, ow, fs', ow', fs0, t, pt, i)
    ensures |fs| == |ow| == |fs'| == |ow'| == |fs0| == |t| && pt < |t| && fs'[pt].Table? && |fs'[pt].ptes| == ENTRIES && ow'[pt].Other?
    ensures fs0[pt].Table? && |fs0[pt].ptes| == ENTRIES && (i < ENTRIES ==> fs'[pt].ptes[i] == fs0[pt].ptes[i])
  {
  }

  lemma SameLooksSelf(fs: seq<Frame>, ow: seq<Role>)
    ensures SameLooks(fs, ow, fs)
  {
    hide Look;
  }

  lemma SameLooksOn(fs: seq<Frame>, ow: seq<Role>, mid: seq<Frame>, mow: seq<Role>, fs': seq<Frame>)
    requires SameLooks(fs, ow, mid) && SameLooks(mid, mow, fs') && forall r :: IsRoot(ow, r) ==> IsRoot(mow, r)
    ensures SameLooks(fs, ow, fs')
  {
    hide Look;
    forall r, q | IsRoot(ow, r) && 0 <= q < MAXPAGE ensures Look(fs', r, q) == Look(fs, r, q) {
      assert IsRoot(mow, r);
    }
  }

  /** pagetable[i] = 0 in a page-table page that is no longer part of a page table. */
  method ClearEntry(m: Memory, pt: nat, i: nat)
    requires m.Valid() && pt < |m.owner| && m.owner[pt].Other? && m.frames[pt].Table? && i < |m.frames[pt].ptes|
    modifies m`frames
    ensures m.Valid() && m.frames == SetEntry(old(m.frames), pt, i, 0) && SameLooks(old(m.frames), m.owner, m.frames)
  {
    hide Nodes, Places, Look, FreeList;
    var frame := Table(m.frames[pt].ptes[i := 0]);
    assert m.owner[pt := Other] == m.owner;
    RetypeOk(m.frames, m.owner, pt, frame, Other);
    FreeKept(m.frames, m.owner, m.frames[pt := frame], m.owner, m.freelist, m.list);
    m.frames := m.frames[pt := frame];
  }

  // ----- whole page tables -----

  predicate Of(r: Role, root: nat) { (r.Node? || r.Leaf?) && r.root == root }

  /** The frames of `root` are taken out of the page tables. */
  function Orphaned(ow: seq<Role>, root: nat): (r: seq<Role>)
    ensures |r| == |ow| && forall f :: 0 <= f < |ow| ==> r[f] == if Of(ow[f], root) then Other else ow[f]
  {
    seq(|ow|, f requires 0 <= f < |ow| => if Of(ow[f], root) then Other else ow[f])
  }

  ghost predicate Bare(fs: seq<Frame>, root: nat) { forall q :: 0 <= q < MAXPAGE ==> !V(Look(fs, root, q)) }

  lemma OrphanOk(fs: seq<Frame>, ow: seq<Role>, root: nat)
    requires Nodes(fs, ow) && Places(fs, ow) && IsRoot(ow, root)
    ensures Standing(fs, Orphaned(ow, root), fs, ow, root, 2, 0)
    ensures Nodes(fs, Orphaned(ow, root)) && Places(fs, Orphaned(ow, root))
  {
    hide V, Ppn, Flags, Rwx, Look, Child;
    var ow' := Orphaned(ow, root);
    forall f | 0 <= f < |fs| ensures NodeOk(fs, ow', f) && Placed(fs, ow', f) {
      assert NodeOk(fs, ow, f) && Placed(fs, ow, f);
      if ow'[f].Node? {
        forall i | 0 <= i < ENTRIES ensures EntryOk(fs, ow', f, i) {
          assert EntryOk(fs, ow, f, i);
        }
      }
    }
  }

  /** Mapped pages are exactly the valid entries of lowest-level nodes. */
  lemma BareNoLeaf(fs: seq<Frame>, ow: seq<Role>, root: nat)
    requires Nodes(fs, ow) && Places(fs, ow) && IsRoot(ow, root)
    ensures Bare(fs, root) <==> NoLeaf(fs, ow, root, 2, 0)
  {
    hide V, Ppn, Flags, Look;
    forall f: nat, i | Sub(ow, f, root, 2, 0) && ow[f].level == 0 && 0 <= i < ENTRIES
      ensures ow[f].prefix * 512 + i < MAXPAGE && Entry(fs, f, i) == Look(fs, root, ow[f].prefix * 512 + i)
    {
      NodePage(fs, ow, f, i);
    }
    forall q | 0 <= q < MAXPAGE && V(Look(fs, root, q)) ensures !NoLeaf(fs, ow, root, 2, 0) {
      PageNode(fs, ow, root, q);
    }
  }

  lemma NodePage(fs: seq<Frame>, ow: seq<Role>, f: nat, i: nat)
    requires Nodes(fs, ow) && Places(fs, ow) && f < |ow| && ow[f].Node? && ow[f].level == 0 && i < ENTRIES && ow[f].prefix < 0x4_0000
    ensures ow[f].prefix * 512 + i < MAXPAGE && Entry(fs, f, i) == Look(fs, ow[f].root, ow[f].prefix * 512 + i)
  {
    hide V, Ppn, Flags, Look;
    var root, page := ow[f].root, ow[f].prefix * 512 + i;
    assert NodeOk(fs, ow, f) && Placed(fs, ow, f) && NodeOk(fs, ow, root) && EntryOk(fs, ow, root, ow[f].prefix / 512);
    PrefixIndex(ow[f].prefix, i);
    SlotOf(fs, ow, root, page, f);
  }

  lemma PageNode(fs: seq<Frame>, ow: seq<Role>, root: nat, page: nat)
    requires Nodes(fs, ow) && IsRoot(ow, root) && page < MAXPAGE && V(Look(fs, root, page))
    ensures !NoLeaf(fs, ow, root, 2, 0)
  {
    hide V, Ppn, Flags, Child, NodeOk;
    ZeroPte();
    PageIndex(page);
    WalkPath(fs, ow, root, page);
    var low := Child(fs, Child(fs, root, page / 0x4_0000), page / 512 % 512);
    assert Sub(ow, low, root, 2, 0) && V(Entry(fs, low, page % 512));
  }

  /** uvmcreate: a new page table with nothing mapped; 0 if out of memory. */
  method Uvmcreate(m: Memory) returns (root: nat)
    requires m.Valid()
    modifies m
    ensures m.Valid() && SameLooks(old(m.frames), old(m.owner), m.frames)
    ensures root == 0 <==> old(m.list) == []
    ensures root == 0 ==> m.frames == old(m.frames) && m.owner == old(m.owner)
    ensures root != 0 ==> root < |old(m.owner)| && old(m.owner)[root].Free? && m.owner == old(m.owner)[root := Node(root, 2, 0)]
    ensures root != 0 ==> Space(m.frames, m.owner, root, 0) && Bare(m.frames, root) && KeepsData(old(m.frames), old(m.owner), m.frames)
  {
    hide Nodes, Places, Look, FreeList, V;
    root := m.Kalloc();
    if root != 0 {
      ghost var mid, mow := m.frames, m.owner;
      var frame := Table(seq(ENTRIES, _ => 0));
      RetypeOk(m.frames, m.owner, root, frame, Other);
      assert m.owner[root := Other] == m.owner;
      NewRootOk(m.frames[root := frame], m.owner, root);
      FreeKept(m.frames, m.owner, m.frames[root := frame], m.owner[root := Node(root, 2, 0)], m.freelist, m.list);
      m.frames := m.frames[root := frame];
      m.owner := m.owner[root := Node(root, 2, 0)];
      SameLooksOn(old(m.frames), old(m.owner), mid, mow, m.frames);
    }
  }

  lemma NewRootOk(fs: seq<Frame>, ow: seq<Role>, root: nat)
    requires Nodes(fs, ow) && Places(fs, ow) && 0 < root < |fs| && ow[root].Other? && fs[root] == Table(seq(ENTRIES, _ => 0))
    ensures Nodes(fs, ow[root := Node(root, 2, 0)]) && Places(fs, ow[root := Node(root, 2, 0)])
    ensures forall q :: 0 <= q < MAXPAGE ==> Look(fs, root, q) == 0 && !V(0)
  {
    hide Ppn, Flags, Rwx;
    ZeroPte();
    var ow' := ow[root := Node(root, 2, 0)];
    forall f | 0 <= f < |fs| ensures NodeOk(fs, ow', f) && Placed(fs, ow', f) {
      hide Look, Child;
      assert NodeOk(fs, ow, f) && Placed(fs, ow, f);
      if ow'[f].Node? {
        forall i | 0 <= i < ENTRIES ensures EntryOk(fs, ow', f, i) {
          if f != root {
            assert EntryOk(fs, ow, f, i);
          }
        }
      }
    }
  }

  /** Exactly the first n pages are mapped. */
  ghost predicate MapsJust(fs: seq<Frame>, root: nat, n: nat) { forall q :: 0 <= q < MAXPAGE ==> (V(Look(fs, root, q)) <==> q < n) }

  /** uvmfree: free the user pages and the page table. False is a panic, of uvmunmap if
      a page below sz is not mapped or of freewalk if one above is. Otherwise every
      frame of the page table, leaf or node, is free again and nothing else changed. */
  method Uvmfree(m: Memory, root: nat, sz: nat) returns (ok: bool)
    requires m.Valid() && IsRoot(m.owner, root) && PgUp(sz) <= MAXPAGE && OwnsMapped(m.frames, m.owner, root, 0, PgUp(sz))
    modifies m
    ensures m.Valid()
    ensures ok <==> MapsJust(old(m.frames), root, PgUp(sz))
    ensures ok ==> |m.owner| == |old(m.owner)|
    ensures ok ==> forall f :: 0 <= f < |m.owner| ==> m.owner[f] == if Of(old(m.owner)[f], root) then Free else old(m.owner)[f]
    ensures ok ==> KeepsOthers(old(m.frames), old(m.owner), m.frames, root, 0, MAXPAGE)
    ensures ok ==> forall r, q :: IsRoot(old(m.owner), r) && r != root && 0 <= q < MAXPAGE ==> Look(m.frames, r, q) == Look(old(m.frames), r, q)
  {
    hide Nodes, Places, FreeList, Look, V, NoLeaf, Freed, Standing, SameLooks, Sub, OwnPage;
    ghost var fs, ow := m.frames, m.owner;
    ok := Uvmunmap(m, root, 0, PgUp(sz), true);
    if !ok {
      return;
    }
    ghost var fs1, ow1 := m.frames, m.owner;
    BareIff(fs, ow, fs1, root, PgUp(sz));
    BareNoLeaf(fs1, ow1, root);
    OrphanOk(fs1, ow1, root);
    FreeKept(fs1, ow1, fs1, Orphaned(ow1, root), m.freelist, m.list);
    m.owner := Orphaned(ow1, root);
    ok := Freewalk(m, root, fs1, ow1);
    if ok {
      FreedRoles(fs, ow, fs1, ow1, m.frames, m.owner, root, PgUp(sz));
      FreedLooks(fs, ow, fs1, ow1, m.frames, root, PgUp(sz));
    }
  }

  lemma BareIff(fs: seq<Frame>, ow: seq<Role>, fs': seq<Frame>, root: nat, n: nat)
    requires IsRoot(ow, root) && n <= MAXPAGE && Unmapped(fs, ow, fs', root, 0, n) && Maps(fs, root, 0, n)
    ensures Bare(fs', root) <==> MapsJust(fs, root, n)
  {
    hide Look, V;
    ZeroPte();
    if Bare(fs', root) {
      forall q | 0 <= q < MAXPAGE ensures V(Look(fs, root, q)) <==> q < n {
        assert !V(Look(fs', root, q));
      }
    }
  }

  lemma FreedRoles(fs: seq<Frame>, ow: seq<Role>, fs1: seq<Frame>, ow1: seq<Role>, fs': seq<Frame>, ow': seq<Role>, root: nat, n: nat)
    requires n <= MAXPAGE && Places(fs1, ow1) && Nodes(fs1, ow1) && IsRoot(ow1, root) && Bare(fs1, root)
    requires Gave(ow, ow1, root, 0, n, true) && KeepsOthers(fs, ow, fs1, root, 0, n)
    requires Freed(fs1, Orphaned(ow1, root), fs', ow', ow1, root, 2, 0)
    ensures forall f :: 0 <= f < |ow'| ==> ow'[f] == if Of(ow[f], root) then Free else ow[f]
    ensures KeepsOthers(fs, ow, fs', root, 0, MAXPAGE)
  {
    hide Look, V, Ppn;
    forall f | 0 <= f < |ow1| && Of(ow1[f], root) ensures ow1[f].Node? && Sub(ow1, f, root, 2, 0) {
      hide Child;
      assert Placed(fs1, ow1, f) && NodeOk(fs1, ow1, f) && NodeOk(fs1, ow1, root);
      PrefixSmall(fs1, ow1, f);
    }
  }

  lemma PrefixSmall(fs: seq<Frame>, ow: seq<Role>, f: nat)
    requires Nodes(fs, ow) && Places(fs, ow) && f < |ow| && ow[f].Node?
    ensures ow[f].level <= 2 && Up(ow[f].prefix, 2 - ow[f].level) == 0
  {
    hide V, Ppn, Flags, Look;
    assert Placed(fs, ow, f) && NodeOk(fs, ow, f) && NodeOk(fs, ow, ow[f].root);
  }

  lemma FreedLooks(fs: seq<Frame>, ow: seq<Role>, fs1: seq<Frame>, ow1: seq<Role>, fs': seq<Frame>, root: nat, n: nat)
    requires Unmapped(fs, ow, fs1, root, 0, n) && Gave(ow, ow1, root, 0, n, true) && SameLooks(fs1, Orphaned(ow1, root), fs')
    ensures forall r, q :: IsRoot(ow, r) && r != root && 0 <= q < MAXPAGE ==> Look(fs', r, q) == Look(fs, r, q)
  {
    hide Look;
    forall r, q | IsRoot(ow, r) && r != root && 0 <= q < MAXPAGE ensures Look(fs', r, q) == Look(fs, r, q) {
      assert IsRoot(ow1, r) && IsRoot(Orphaned(ow1, root), r);
    }
  }

  /** A page table made by uvmcreate, grown by uvmalloc, as far as memory goes, and freed by
      uvmfree leaves every frame with the owner it had before, and all other page tables
      as they were. */
  method CreateGrowFree(m: Memory, sz: nat, xperm: nat) returns (ok: bool)
    requires m.Valid() && xperm in {0, PTE_W, PTE_X, PTE_W + PTE_X}
    modifies m
    ensures ok && m.Valid() && m.owner == old(m.owner) && SameLooks(old(m.frames), old(m.owner), m.frames)
  {
    ghost var fs, ow := m.frames, m.owner;
    assert Places(fs, ow);
    hide Look, V, Ppn, Nodes, Places, FreeList, OwnPage, Bare, Space, KeepsData, KeepsOthers, OwnsMapped, MapsJust, SameLooks, TookPages;
    ok := true;
    var root := Uvmcreate(m);
    if root == 0 {
      return;
    }
    ghost var fs1, ow1 := m.frames, m.owner;
    var n := Grow(m, root, sz, xperm);
    ghost var fs2, ow2 := m.frames, m.owner;
    ok := Uvmfree(m, root, n);
    GivenBack(fs, ow, root, ow1, ow2, m.owner, PgUp(n));
    LooksBack(fs, ow, fs1, ow1, fs2, ow2, m.frames, root, PgUp(n));
  }

  /** uvmalloc on an empty page table; n is the size it has then. */
  method Grow(m: Memory, root: nat, sz: nat, xperm: nat) returns (n: nat)
    requires m.Valid() && Space(m.frames, m.owner, root, 0) && Bare(m.frames, root) && xperm in {0, PTE_W, PTE_X, PTE_W + PTE_X}
    modifies m
    ensures m.Valid() && (n == 0 || n == sz) && PgUp(n) <= MAXPAGE && IsRoot(m.owner, root)
    ensures OwnsMapped(m.frames, m.owner, root, 0, PgUp(n)) && MapsJust(m.frames, root, PgUp(n)) && TookPages(old(m.owner), m.owner, root, 0, PgUp(n))
    ensures forall r, q :: IsRoot(old(m.owner), r) && r != root && 0 <= q < MAXPAGE ==> Look(m.frames, r, q) == Look(old(m.frames), r, q)
  {
    hide Look, V, Ppn, Nodes, Places, FreeList, OwnPage, Bare, Space, KeepsData, Grew, Took, Owns, OwnsMapped, MapsJust, SameLooks, TookPages;
    SpaceRoot(m.frames, m.owner, root, 0);
    assert PgUp(0) == 0;
    var r := Uvmalloc(m, root, 0, sz, xperm);
    n := if r == 0 then 0 else sz;
    if sz == 0 {
      Same(m.frames, m.owner, root);
    }
    Grown(old(m.frames), old(m.owner), m.frames, m.owner, root, n, Zeros(PTE_R + PTE_U + xperm));
  }

  lemma Same(fs: seq<Frame>, ow: seq<Role>, root: nat)
    ensures SameLooks(fs, ow, fs) && Took(ow, ow, root)
  {
    hide Look;
  }

  /** What uvmalloc has made of an empty page table is what uvmfree takes. */
  lemma Grown(fs: seq<Frame>, ow: seq<Role>, fs': seq<Frame>, ow': seq<Role>, root: nat, n: nat, o: Origin)
    requires Bare(fs, root) && IsRoot(ow, root) && Space(fs', ow', root, PgUp(n))
    requires if n == 0 then SameLooks(fs, ow, fs') && Took(ow, ow', root) else Grew(fs, ow, fs', ow', root, 0, PgUp(n), o)
    ensures OwnsMapped(fs', ow', root, 0, PgUp(n)) && MapsJust(fs', root, PgUp(n)) && TookPages(ow, ow', root, 0, PgUp(n)) && PgUp(n) <= MAXPAGE && IsRoot(ow', root)
    ensures forall r, q :: IsRoot(ow, r) && r != root && 0 <= q < MAXPAGE ==> Look(fs', r, q) == Look(fs, r, q)
  {
    hide Look, V, Ppn;
    assert PgUp(0) == 0;
    forall q | 0 <= q < MAXPAGE ensures V(Look(fs', root, q)) <==> q < PgUp(n) {
      assert !V(Look(fs, root, q));
      if q < PgUp(n) {
        assert OwnPage(fs', ow', root, q);
      } else {
        assert Look(fs', root, q) == Look(fs, root, q);
      }
    }
  }

  lemma GivenBack(fs: seq<Frame>, ow: seq<Role>, root: nat, ow1: seq<Role>, ow2: seq<Role>, ow3: seq<Role>, n: nat)
    requires root < |ow| && ow[root].Free? && ow1 == ow[root := Node(root, 2, 0)] && TookPages(ow1, ow2, root, 0, n)
    requires |ow3| == |ow| && forall f :: 0 <= f < |ow| ==> ow3[f] == if Of(ow2[f], root) then Free else ow2[f]
    requires Places(fs, ow)
    ensures ow3 == ow
  {
    hide Look, Child, V, Ppn;
    forall f | 0 <= f < |ow| ensures ow3[f] == ow[f] {
      assert Placed(fs, ow, f);
    }
  }

  lemma LooksBack(fs: seq<Frame>, ow: seq<Role>, fs1: seq<Frame>, ow1: seq<Role>, fs2: seq<Frame>, ow2: seq<Role>, fs3: seq<Frame>, root: nat, n: nat)
    requires root < |ow| && ow[root].Free? && ow1 == ow[root := Node(root, 2, 0)] && SameLooks(fs, ow, fs1) && TookPages(ow1, ow2, root, 0, n)
    requires forall r, q :: IsRoot(ow1, r) && r != root && 0 <= q < MAXPAGE ==> Look(fs2, r, q) == Look(fs1, r, q)
    requires forall r, q :: IsRoot(ow2, r) && r != root && 0 <= q < MAXPAGE ==> Look(fs3, r, q) == Look(fs2, r, q)
    ensures SameLooks(fs, ow, fs3)
  {
    hide Look;
    forall r, q | IsRoot(ow, r) && 0 <= q < MAXPAGE ensures Look(fs3, r, q) == Look(fs, r, q) {
      assert IsRoot(ow1, r) && r != root && IsRoot(ow2, r);
    }
  }

  /** uvmdealloc with an old size above the process's size, here of a process without
      memory, does panic. */
  method DeallocPanics(m: Memory) returns (r: Option<nat>)
    requires m.Valid() && m.list != []
    modifies m
    ensures r == None
  {
    hide Look, V, Ppn, Nodes, Places, FreeList, OwnPage, KeepsData, SameLooks;
    var root := Uvmcreate(m);
    assert !V(Look(m.frames, root, 0));
    r := Uvmdealloc(m, root, PGSIZE, 0);
  }
}
