/** Sv39 page tables kept in the page frames they map, and the allocator of those
    frames. Frame f is the page of physical memory at address f * PGSIZE. */
module Vm {
  import opened Wrappers

  const PGSIZE: nat := 4096
  const ENTRIES: nat := 512          // PTEs in a page-table page
  const MAXPAGE: nat := 0x400_0000   // MAXVA / PGSIZE
  const TRAPFRAME: nat := MAXPAGE - 2
  const MAXFRAMES: nat := 0x8_8000   // PHYSTOP / PGSIZE

  const PTE_V: nat := 1
  const PTE_R: nat := 2
  const PTE_W: nat := 4
  const PTE_X: nat := 8
  const PTE_U: nat := 16

  type Byte = x: int | 0 <= x < 256

  // ----- page-table entries: frame number above ten flag bits -----

  function Pte(frame: nat, flags: nat): nat { frame * 1024 + flags }
  function Ppn(pte: nat): nat { pte / 1024 }
  function Flags(pte: nat): nat { pte % 1024 }
  predicate V(pte: nat) { Flags(pte) % 2 == 1 }
  predicate W(pte: nat) { Flags(pte) / 4 % 2 == 1 }
  predicate U(pte: nat) { Flags(pte) / 16 % 2 == 1 }
  predicate Rwx(pte: nat) { Flags(pte) / 2 % 8 != 0 }   // pte & (PTE_R|PTE_W|PTE_X)

  lemma PteFields(frame: nat, flags: nat)
    requires flags < 1024
    ensures Ppn(Pte(frame, flags)) == frame && Flags(Pte(frame, flags)) == flags
  {
  }

  // ----- memory -----

  datatype Frame =
    | Run(next: nat)                 // free: linked by struct run, 0 ends the list
    | Table(ptes: seq<nat>)
    | Page(bytes: seq<Byte>)

  /** What a frame is used for. A page table's interior node covers the virtual pages
      whose leading index bits are `prefix`. */
  datatype Role =
    | Free
    | Node(root: nat, level: nat, prefix: nat)
    | Leaf(root: nat, page: nat)
    | Other                          // kernel stacks, trapframes, pipes, the kernel itself

  /** The frame that entry i of a page-table page leads to. */
  function Child(fs: seq<Frame>, f: nat, i: nat): (c: nat)
    ensures c < |fs| || c == 0
  {
    if f < |fs| && fs[f].Table? && i < |fs[f].ptes| && V(fs[f].ptes[i]) && Ppn(fs[f].ptes[i]) < |fs| then Ppn(fs[f].ptes[i]) else 0
  }

  function Entry(fs: seq<Frame>, f: nat, i: nat): nat {
    if f < |fs| && fs[f].Table? && i < |fs[f].ptes| then fs[f].ptes[i] else 0
  }

  /** The PTE of a virtual page, 0 if a table on the way is missing. */
  function Look(fs: seq<Frame>, root: nat, page: nat): nat {
    var mid := Child(fs, root, page / 0x4_0000);
    if mid == 0 then 0 else
      var low := Child(fs, mid, page / 512 % 512);
      if low == 0 then 0 else Entry(fs, low, page % 512)
  }

  // ----- invariant -----

  /** Entry i of an interior node: it leads to the node for that prefix, or, on the
      lowest level, is a leaf. The upper half of the root is above MAXVA and unused. */
  predicate EntryOk(fs: seq<Frame>, ow: seq<Role>, f: nat, i: nat)
    requires |fs| == |ow| && f < |fs| && ow[f].Node? && fs[f].Table? && i < |fs[f].ptes|
  {
    var p := fs[f].ptes[i];
    V(p) ==>
      if ow[f].level > 0 then
        Flags(p) == PTE_V && 0 < Ppn(p) < |fs| && ow[Ppn(p)] == Node(ow[f].root, ow[f].level - 1, ow[f].prefix * 512 + i) && (ow[f].level == 2 ==> i < 256)
      else
        Rwx(p)
  }

  predicate NodeOk(fs: seq<Frame>, ow: seq<Role>, f: nat)
    requires |fs| == |ow| && f < |fs|
  {
    ow[f].Node? ==>
      fs[f].Table? && |fs[f].ptes| == ENTRIES && ow[f].level <= 2
      && (ow[f].level == 2 ==> ow[f].root == f && ow[f].prefix == 0)
      && forall i :: 0 <= i < ENTRIES ==> EntryOk(fs, ow, f, i)
  }

  predicate IsRoot(ow: seq<Role>, root: nat) { 0 < root < |ow| && ow[root] == Node(root, 2, 0) }

  /** Every owned frame is reachable where its role says. */
  predicate Placed(fs: seq<Frame>, ow: seq<Role>, f: nat)
    requires |fs| == |ow| && f < |fs|
  {
    match ow[f]
    case Node(root, level, prefix) =>
      0 < f && IsRoot(ow, root) && (level == 1 ==> Child(fs, root, prefix) == f)
      && (level == 0 ==> Child(fs, root, prefix / 512) != 0 && Child(fs, Child(fs, root, prefix / 512), prefix % 512) == f)
    case Leaf(root, page) =>
      IsRoot(ow, root) && page < MAXPAGE && V(Look(fs, root, page)) && Ppn(Look(fs, root, page)) == f && fs[f].Page? && |fs[f].bytes| == PGSIZE
    case _ => true
  }

  function After(list: seq<nat>, k: nat): nat { if k + 1 < |list| then list[k + 1] else 0 }

  ghost predicate Chain(fs: seq<Frame>, ow: seq<Role>, head: nat, list: seq<nat>)
    requires |fs| == |ow|
  {
    head == (if list == [] then 0 else list[0])
    && forall k :: 0 <= k < |list| ==> 0 < list[k] < |fs| && ow[list[k]] == Free && fs[list[k]] == Run(After(list, k))
  }

  ghost predicate NoDup(list: seq<nat>) { forall k, l :: 0 <= k < l < |list| ==> list[k] != list[l] }

  ghost predicate AllListed(ow: seq<Role>, list: seq<nat>) { forall f :: 0 <= f < |ow| && ow[f] == Free ==> f in list }

  /** The free list: threaded through the free frames, each of them once. */
  ghost predicate FreeList(fs: seq<Frame>, ow: seq<Role>, head: nat, list: seq<nat>)
    requires |fs| == |ow|
  {
    Chain(fs, ow, head, list) && NoDup(list) && AllListed(ow, list)
  }

  ghost predicate Nodes(fs: seq<Frame>, ow: seq<Role>) {
    |fs| == |ow| <= MAXFRAMES && forall f :: 0 <= f < |fs| ==> NodeOk(fs, ow, f)
  }

  ghost predicate Places(fs: seq<Frame>, ow: seq<Role>) {
    |fs| == |ow| && forall f :: 0 <= f < |fs| ==> Placed(fs, ow, f)
  }

  // ----- walking -----

  lemma PageIndex(page: nat)
    requires page < MAXPAGE
    ensures page / 0x4_0000 < 256 && page / 512 % 512 < 512 && page % 512 < 512
    ensures page / 0x4_0000 * 512 + page / 512 % 512 == page / 512 && page / 512 * 512 + page % 512 == page
    ensures page / 512 / 512 == page / 0x4_0000
  {
  }

  /** A step from an interior node leads to the node for the longer prefix. */
  lemma ChildNode(fs: seq<Frame>, ow: seq<Role>, f: nat, i: nat)
    requires Nodes(fs, ow) && f < |fs| && ow[f].Node? && ow[f].level > 0
    ensures Child(fs, f, i) != 0 <==> V(Entry(fs, f, i))
    ensures Child(fs, f, i) != 0 ==> 0 < Child(fs, f, i) < |fs| && Child(fs, f, i) == Ppn(Entry(fs, f, i))
    ensures Child(fs, f, i) != 0 ==> ow[Child(fs, f, i)] == Node(ow[f].root, ow[f].level - 1, ow[f].prefix * 512 + i)
  {
    assert NodeOk(fs, ow, f);
    if i < ENTRIES {
      hide V, Ppn, Flags;
      assert EntryOk(fs, ow, f, i);
    }
  }

  /** The tables on the way to a page carry its prefixes: distinct pages, and pages
      of distinct page tables, use distinct leaf slots. */
  lemma WalkPath(fs: seq<Frame>, ow: seq<Role>, root: nat, page: nat)
    requires Nodes(fs, ow) && IsRoot(ow, root) && page < MAXPAGE
    ensures var mid := Child(fs, root, page / 0x4_0000);
      mid != 0 ==> mid < |fs| && ow[mid] == Node(root, 1, page / 0x4_0000)
    ensures var mid := Child(fs, root, page / 0x4_0000);
      var low := Child(fs, mid, page / 512 % 512);
      mid != 0 && low != 0 ==> low < |fs| && ow[low] == Node(root, 0, page / 512) && Look(fs, root, page) == Entry(fs, low, page % 512)
  {
    hide V, Ppn, Flags, Entry, NodeOk;
    PageIndex(page);
    var mid := Child(fs, root, page / 0x4_0000);
    ChildNode(fs, ow, root, page / 0x4_0000);
    if mid != 0 {
      ChildNode(fs, ow, mid, page / 512 % 512);
    }
  }

  /** Changing frames that are no interior nodes does not change any mapping. */
  lemma LookSame(fs: seq<Frame>, ow: seq<Role>, fs': seq<Frame>, root: nat, page: nat)
    requires Nodes(fs, ow) && IsRoot(ow, root) && page < MAXPAGE && |fs'| == |fs|
    requires forall f :: 0 <= f < |fs| && ow[f].Node? ==> fs'[f] == fs[f]
    ensures Look(fs', root, page) == Look(fs, root, page)
  {
    hide V, Ppn, Flags, NodeOk;
    WalkPath(fs, ow, root, page);
  }

  // ----- changes of memory and what they keep -----

  /** A frame that is neither free, node nor leaf changes its content or joins or
      leaves the free list. */
  lemma RetypeOk(fs: seq<Frame>, ow: seq<Role>, c: nat, frame: Frame, role: Role)
    requires Nodes(fs, ow) && Places(fs, ow) && c < |fs| && (ow[c].Free? || ow[c].Other?) && (role.Free? || role.Other?)
    ensures Nodes(fs[c := frame], ow[c := role]) && Places(fs[c := frame], ow[c := role])
    ensures forall root, page :: IsRoot(ow, root) && 0 <= page < MAXPAGE ==> Look(fs[c := frame], root, page) == Look(fs, root, page)
  {
    hide V, Ppn, Flags, Look;
    var fs', ow' := fs[c := frame], ow[c := role];
    forall root, page | IsRoot(ow, root) && 0 <= page < MAXPAGE ensures Look(fs', root, page) == Look(fs, root, page) {
      LookSame(fs, ow, fs', root, page);
    }
    forall f | 0 <= f < |fs| ensures NodeOk(fs', ow', f) && Placed(fs', ow', f) {
      RetypeFrame(fs, ow, c, frame, role, f);
    }
  }

  lemma RetypeFrame(fs: seq<Frame>, ow: seq<Role>, c: nat, frame: Frame, role: Role, f: nat)
    requires Nodes(fs, ow) && Places(fs, ow) && c < |fs| && (ow[c].Free? || ow[c].Other?) && (role.Free? || role.Other?) && f < |fs|
    ensures NodeOk(fs[c := frame], ow[c := role], f) && Placed(fs[c := frame], ow[c := role], f)
  {
    hide V, Ppn, Flags, Rwx, Look;
    var fs', ow' := fs[c := frame], ow[c := role];
    assert NodeOk(fs, ow, f) && Placed(fs, ow, f);
    if f != c && ow[f].Leaf? {
      LookSame(fs, ow, fs', ow[f].root, ow[f].page);
    }
    if ow[f].Node? {
      forall i | 0 <= i < ENTRIES ensures EntryOk(fs', ow', f, i) {
        assert EntryOk(fs, ow, f, i);
      }
      if ow[f].level == 0 {
        ChildNode(fs, ow, ow[f].root, ow[f].prefix / 512);
      }
    }
  }

  function SetEntry(fs: seq<Frame>, f: nat, i: nat, p: nat): seq<Frame>
    requires f < |fs| && fs[f].Table? && i < |fs[f].ptes|
  {
    fs[f := Table(fs[f].ptes[i := p])]
  }

  /** Writing a lowest-level entry changes the mapping of exactly one page of one page
      table. */
  lemma SetLeafLook(fs: seq<Frame>, ow: seq<Role>, f: nat, i: nat, p: nat, root: nat, page: nat)
    requires Nodes(fs, ow) && Places(fs, ow) && f < |fs| && ow[f].Node? && ow[f].level == 0 && fs[f].Table? && i < ENTRIES
    requires |fs[f].ptes| == ENTRIES && IsRoot(ow, root) && page < MAXPAGE
    ensures Look(SetEntry(fs, f, i, p), root, page)
         == if root == ow[f].root && page == ow[f].prefix * 512 + i then p else Look(fs, root, page)
  {
    hide V, Ppn, Flags, NodeOk;
    PageIndex(page);
    PrefixIndex(ow[f].prefix, i);
    WalkPath(fs, ow, root, page);
    assert Placed(fs, ow, f);
    var fs' := SetEntry(fs, f, i, p);
    var mid := Child(fs, root, page / 0x4_0000);
    assert root != f && Child(fs', root, page / 0x4_0000) == mid;
    if mid != 0 {
      var low := Child(fs, mid, page / 512 % 512);
      assert mid != f && Child(fs', mid, page / 512 % 512) == low;
    }
  }

  lemma PrefixIndex(prefix: nat, i: nat)
    requires i < ENTRIES
    ensures (prefix * 512 + i) / 512 == prefix && (prefix * 512 + i) % 512 == i && (prefix * 512 + i) / 0x4_0000 == prefix / 512
  {
  }

  /** Zero the fresh table and hang it into entry i of node f. */
  function Attach(fs: seq<Frame>, f: nat, i: nat, c: nat): seq<Frame>
    requires f < |fs| && fs[f].Table? && i < |fs[f].ptes| && c < |fs| && c != f
  {
    SetEntry(fs[c := Table(seq(ENTRIES, _ => 0))], f, i, Pte(c, PTE_V))
  }

  ghost predicate CanAttach(fs: seq<Frame>, ow: seq<Role>, f: nat, i: nat, c: nat) {
    Nodes(fs, ow) && Places(fs, ow) && f < |fs| && ow[f].Node? && 0 < ow[f].level && fs[f].Table? && |fs[f].ptes| == ENTRIES
    && i < ENTRIES && (ow[f].level == 2 ==> i < 256) && !V(fs[f].ptes[i]) && 0 < c < |fs| && ow[c].Other?
  }

  function AttachRole(ow: seq<Role>, f: nat, i: nat): Role
    requires f < |ow| && ow[f].Node? && 0 < ow[f].level
  {
    Node(ow[f].root, ow[f].level - 1, ow[f].prefix * 512 + i)
  }

  lemma AttachChild(fs: seq<Frame>, ow: seq<Role>, f: nat, i: nat, c: nat, g: nat, j: nat)
    requires CanAttach(fs, ow, f, i, c) && g < |fs| && ow[g].Node?
    ensures Child(Attach(fs, f, i, c), g, j) == if g == f && j == i then c else Child(fs, g, j)
    ensures Child(Attach(fs, f, i, c), c, j) == 0 && Entry(Attach(fs, f, i, c), c, j) == 0
    ensures g != f ==> Entry(Attach(fs, f, i, c), g, j) == Entry(fs, g, j)
  {
    PteFields(c, PTE_V);
  }

  lemma AttachLook(fs: seq<Frame>, ow: seq<Role>, f: nat, i: nat, c: nat, root: nat, page: nat)
    requires CanAttach(fs, ow, f, i, c) && IsRoot(ow, root) && page < MAXPAGE
    ensures Look(Attach(fs, f, i, c), root, page) == Look(fs, root, page)
  {
    hide V, Ppn, Flags, Pte, Entry, Child, NodeOk, Places;
    var mid := Child(fs, root, page / 0x4_0000);
    AttachChild(fs, ow, f, i, c, root, page / 0x4_0000);
    WalkPath(fs, ow, root, page);
    assert root == f && page / 0x4_0000 == i ==> mid == 0 by { NotChild(fs, f, i); }
    if mid != 0 {
      var low := Child(fs, mid, page / 512 % 512);
      AttachChild(fs, ow, f, i, c, mid, page / 512 % 512);
      assert mid == f && page / 512 % 512 == i ==> low == 0 by { NotChild(fs, f, i); }
      if low != 0 {
        AttachChild(fs, ow, f, i, c, low, page % 512);
      } else {
        AttachChild(fs, ow, f, i, c, mid, page % 512);
      }
    } else {
      AttachChild(fs, ow, f, i, c, root, page / 512 % 512);
    }
  }

  lemma NotChild(fs: seq<Frame>, f: nat, i: nat)
    requires f < |fs| && fs[f].Table? && i < |fs[f].ptes| && !V(fs[f].ptes[i])
    ensures Child(fs, f, i) == 0
  {
  }

  lemma AttachNodeOk(fs: seq<Frame>, ow: seq<Role>, f: nat, i: nat, c: nat, g: nat)
    requires CanAttach(fs, ow, f, i, c) && g < |fs|
    ensures NodeOk(Attach(fs, f, i, c), ow[c := AttachRole(ow, f, i)], g)
  {
    var fs', ow' := Attach(fs, f, i, c), ow[c := AttachRole(ow, f, i)];
    assert NodeOk(fs, ow, g) && NodeOk(fs, ow, f);
    PteFields(c, PTE_V);
    if ow'[g].Node? {
      forall j | 0 <= j < ENTRIES ensures EntryOk(fs', ow', g, j) {
        hide Ppn, Flags, Pte;
        if g != c {
          assert EntryOk(fs, ow, g, j);
        }
      }
    }
  }

  lemma AttachPlaced(fs: seq<Frame>, ow: seq<Role>, f: nat, i: nat, c: nat, g: nat)
    requires CanAttach(fs, ow, f, i, c) && g < |fs|
    ensures Placed(Attach(fs, f, i, c), ow[c := AttachRole(ow, f, i)], g)
  {
    hide V, Ppn, Flags, Pte, Entry, Child, Look, Attach;
    var fs', ow' := Attach(fs, f, i, c), ow[c := AttachRole(ow, f, i)];
    assert Placed(fs, ow, g) && Placed(fs, ow, f) && NodeOk(fs, ow, f) && NodeOk(fs, ow, g);
    NotChild(fs, f, i);
    PrefixIndex(ow[f].prefix, i);
    AttachSize(fs, f, i, c);
    if g == c {
      AttachChild(fs, ow, f, i, c, f, i);
      AttachChild(fs, ow, f, i, c, ow[f].root, ow[f].prefix);
    } else if ow[g].Node? {
      AttachChild(fs, ow, f, i, c, ow[g].root, ow[g].prefix);
      AttachChild(fs, ow, f, i, c, ow[g].root, ow[g].prefix / 512);
      if ow[g].level == 0 {
        ChildNode(fs, ow, ow[g].root, ow[g].prefix / 512);
        AttachChild(fs, ow, f, i, c, Child(fs, ow[g].root, ow[g].prefix / 512), ow[g].prefix % 512);
      }
    } else if ow[g].Leaf? {
      AttachLook(fs, ow, f, i, c, ow[g].root, ow[g].page);
    }
  }

  lemma AttachSize(fs: seq<Frame>, f: nat, i: nat, c: nat)
    requires f < |fs| && fs[f].Table? && i < |fs[f].ptes| && c < |fs| && c != f
    ensures |Attach(fs, f, i, c)| == |fs| && forall g :: 0 <= g < |fs| && g != f && g != c ==> Attach(fs, f, i, c)[g] == fs[g]
  {
  }

  lemma AttachOk(fs: seq<Frame>, ow: seq<Role>, f: nat, i: nat, c: nat)
    requires CanAttach(fs, ow, f, i, c)
    ensures Nodes(Attach(fs, f, i, c), ow[c := AttachRole(ow, f, i)]) && Places(Attach(fs, f, i, c), ow[c := AttachRole(ow, f, i)])
    ensures forall root, page :: IsRoot(ow, root) && 0 <= page < MAXPAGE ==> Look(Attach(fs, f, i, c), root, page) == Look(fs, root, page)
  {
    hide NodeOk, Placed, Attach, Look;
    AttachSize(fs, f, i, c);
    var fs', ow' := Attach(fs, f, i, c), ow[c := AttachRole(ow, f, i)];
    forall g | 0 <= g < |fs| ensures NodeOk(fs', ow', g) && Placed(fs', ow', g) {
      AttachNodeOk(fs, ow, f, i, c, g);
      AttachPlaced(fs, ow, f, i, c, g);
    }
    forall root, page | IsRoot(ow, root) && 0 <= page < MAXPAGE ensures Look(fs', root, page) == Look(fs, root, page) {
      AttachLook(fs, ow, f, i, c, root, page);
    }
  }

  // ----- leaves -----

  /** The lowest-level slot of a page. */
  ghost predicate IsSlot(fs: seq<Frame>, ow: seq<Role>, f: nat, i: nat, root: nat, page: nat) {
    |fs| == |ow| && f < |fs| && ow[f] == Node(root, 0, page / 512) && i == page % 512 && page < MAXPAGE
    && fs[f].Table? && |fs[f].ptes| == ENTRIES && fs[f].ptes[i] == Look(fs, root, page)
  }

  /** Who owns what after entry (root, page) becomes p: the frame that was mapped
      there loses its role, and `c`, if any, becomes the page's leaf. */
  function LeafRole(ow: seq<Role>, root: nat, page: nat, f: nat, c: nat): Role
    requires f < |ow|
  {
    if f == c && c != 0 then Leaf(root, page) else if ow[f] == Leaf(root, page) then Other else ow[f]
  }

  function LeafRoles(ow: seq<Role>, root: nat, page: nat, c: nat): (r: seq<Role>)
    ensures |r| == |ow|
    ensures forall f :: 0 <= f < |ow| ==> r[f] == LeafRole(ow, root, page, f, c)
  {
    seq(|ow|, f requires 0 <= f < |ow| => LeafRole(ow, root, page, f, c))
  }

  ghost predicate CanSet(fs: seq<Frame>, ow: seq<Role>, f: nat, i: nat, root: nat, page: nat, p: nat, c: nat) {
    Nodes(fs, ow) && Places(fs, ow) && IsSlot(fs, ow, f, i, root, page)
    && (V(p) ==> Rwx(p))
    && (c != 0 ==> c < |fs| && ow[c].Other? && V(p) && Ppn(p) == c && fs[c].Page? && |fs[c].bytes| == PGSIZE)
  }

  lemma SetFrameOk(fs: seq<Frame>, ow: seq<Role>, f: nat, i: nat, root: nat, page: nat, p: nat, c: nat, g: nat)
    requires CanSet(fs, ow, f, i, root, page, p, c) && g < |fs|
    ensures NodeOk(SetEntry(fs, f, i, p), LeafRoles(ow, root, page, c), g)
  {
    hide V, Ppn, Flags, Rwx, Look;
    var fs', ow' := SetEntry(fs, f, i, p), LeafRoles(ow, root, page, c);
    assert NodeOk(fs, ow, g);
    if ow'[g].Node? {
      forall j | 0 <= j < ENTRIES ensures EntryOk(fs', ow', g, j) {
        assert EntryOk(fs, ow, g, j);
      }
    }
  }

  lemma SetPlaced(fs: seq<Frame>, ow: seq<Role>, f: nat, i: nat, root: nat, page: nat, p: nat, c: nat, g: nat)
    requires CanSet(fs, ow, f, i, root, page, p, c) && g < |fs|
    ensures Placed(SetEntry(fs, f, i, p), LeafRoles(ow, root, page, c), g)
  {
    hide V, Ppn, Flags, Rwx, Look, Entry;
    var fs', ow' := SetEntry(fs, f, i, p), LeafRoles(ow, root, page, c);
    assert Placed(fs, ow, g) && Placed(fs, ow, f) && NodeOk(fs, ow, g);
    PageIndex(page);
    if ow'[g].Leaf? {
      SetLeafLook(fs, ow, f, i, p, ow'[g].root, ow'[g].page);
    } else if ow'[g].Node? {
      if ow[g].level == 0 {
        ChildNode(fs, ow, ow[g].root, ow[g].prefix / 512);
      }
    }
  }

  /** Writing the slot of a page: that page's mapping becomes p and no other mapping
      changes; ownership follows. */
  lemma SetOk(fs: seq<Frame>, ow: seq<Role>, f: nat, i: nat, root: nat, page: nat, p: nat, c: nat)
    requires CanSet(fs, ow, f, i, root, page, p, c)
    ensures Nodes(SetEntry(fs, f, i, p), LeafRoles(ow, root, page, c)) && Places(SetEntry(fs, f, i, p), LeafRoles(ow, root, page, c))
    ensures forall r, q :: IsRoot(ow, r) && 0 <= q < MAXPAGE ==>
      Look(SetEntry(fs, f, i, p), r, q) == if r == root && q == page then p else Look(fs, r, q)
  {
    hide NodeOk, Placed, Look, V, Ppn, Flags, Rwx;
    PageIndex(page);
    forall g | 0 <= g < |fs|
      ensures NodeOk(SetEntry(fs, f, i, p), LeafRoles(ow, root, page, c), g) && Placed(SetEntry(fs, f, i, p), LeafRoles(ow, root, page, c), g)
    {
      SetFrameOk(fs, ow, f, i, root, page, p, c, g);
      SetPlaced(fs, ow, f, i, root, page, p, c, g);
    }
    forall r, q | IsRoot(ow, r) && 0 <= q < MAXPAGE
      ensures Look(SetEntry(fs, f, i, p), r, q) == if r == root && q == page then p else Look(fs, r, q)
    {
      SetLeafLook(fs, ow, f, i, p, r, q);
    }
  }

  // ----- the allocator -----

  ghost predicate SameLooks(fs: seq<Frame>, ow: seq<Role>, fs': seq<Frame>) {
    forall root, page :: IsRoot(ow, root) && 0 <= page < MAXPAGE ==> Look(fs', root, page) == Look(fs, root, page)
  }

  /** Steps that leave the free frames alone leave the free list alone. */
  lemma FreeKept(fs: seq<Frame>, ow: seq<Role>, fs': seq<Frame>, ow': seq<Role>, head: nat, list: seq<nat>)
    requires |fs| == |ow| == |fs'| == |ow'| && FreeList(fs, ow, head, list)
    requires forall f :: 0 <= f < |fs| ==> (ow[f].Free? ==> ow'[f].Free? && fs'[f] == fs[f]) && (ow'[f].Free? ==> ow[f].Free?)
    ensures FreeList(fs', ow', head, list)
  {
  }

  lemma FreePop(fs: seq<Frame>, ow: seq<Role>, head: nat, list: seq<nat>, frame: Frame)
    requires |fs| == |ow| && FreeList(fs, ow, head, list) && list != []
    ensures head == list[0] && 0 < head < |fs| && fs[head].Run? && ow[head].Free?
    ensures FreeList(fs[head := frame], ow[head := Other], fs[head].next, list[1..])
  {
    var fs', ow', l := fs[head := frame], ow[head := Other], list[1..];
    assert list[0] == head && fs[list[0]].Run? && forall k :: 0 <= k < |l| ==> l[k] == list[k + 1];
    forall f | 0 <= f < |ow'| && ow'[f] == Free ensures f in l {
      assert f in list;
    }
  }

  lemma FreePush(fs: seq<Frame>, ow: seq<Role>, head: nat, list: seq<nat>, f: nat)
    requires |fs| == |ow| && FreeList(fs, ow, head, list) && 0 < f < |fs| && !ow[f].Free?
    ensures FreeList(fs[f := Run(head)], ow[f := Free], f, [f] + list)
  {
    hide Chain, NoDup, AllListed;
    PushChain(fs, ow, head, list, f);
    PushNoDup(list, f);
    PushListed(ow, list, f);
  }

  lemma PushNoDup(list: seq<nat>, f: nat)
    requires NoDup(list) && f !in list
    ensures NoDup([f] + list)
  {
  }

  lemma PushListed(ow: seq<Role>, list: seq<nat>, f: nat)
    requires AllListed(ow, list) && f < |ow|
    ensures AllListed(ow[f := Free], [f] + list)
  {
  }

  lemma PushChain(fs: seq<Frame>, ow: seq<Role>, head: nat, list: seq<nat>, f: nat)
    requires |fs| == |ow| && Chain(fs, ow, head, list) && 0 < f < |fs| && !ow[f].Free?
    ensures Chain(fs[f := Run(head)], ow[f := Free], f, [f] + list) && f !in list
  {
    var fs', ow', l := fs[f := Run(head)], ow[f := Free], [f] + list;
    forall k | 0 <= k < |l| ensures 0 < l[k] < |fs'| && ow'[l[k]] == Free && fs'[l[k]] == Run(After(l, k)) {
      if k > 0 {
        assert l[k] == list[k - 1] && fs[list[k - 1]] == Run(After(list, k - 1));
      }
    }
  }

  /** The index into the level's table, and the indices in front of it. */
  function PX(level: nat, page: nat): nat {
    if level == 2 then page / 0x4_0000 else if level == 1 then page / 512 % 512 else page % 512
  }

  function Prefix(level: nat, page: nat): nat {
    if level == 2 then 0 else if level == 1 then page / 0x4_0000 else page / 512
  }

  lemma PrefixStep(level: nat, page: nat)
    requires 0 < level <= 2 && page < MAXPAGE
    ensures PX(level, page) < ENTRIES && (level == 2 ==> PX(level, page) < 256)
    ensures Prefix(level - 1, page) == Prefix(level, page) * 512 + PX(level, page)
  {
    PageIndex(page);
  }

  /** The only frames to change hands went from the free list to interior nodes of
      `root`. */
  ghost predicate Took(ow: seq<Role>, ow': seq<Role>, root: nat) {
    |ow'| == |ow| && forall f :: 0 <= f < |ow| ==> ow'[f] == ow[f] || (ow[f].Free? && ow'[f].Node? && ow'[f].root == root && ow'[f].level < 2)
  }

  /** Pages and kernel frames keep their contents. */
  ghost predicate KeepsData(fs: seq<Frame>, ow: seq<Role>, fs': seq<Frame>) {
    |fs| == |ow| == |fs'| && forall f :: 0 <= f < |fs| && (ow[f].Leaf? || ow[f].Other?) ==> fs'[f] == fs[f]
  }

  /** A lowest-level node that carries the page's prefix holds the page's slot. */
  lemma SlotOf(fs: seq<Frame>, ow: seq<Role>, root: nat, page: nat, f: nat)
    requires Nodes(fs, ow) && Places(fs, ow) && f < |fs| && ow[f] == Node(root, 0, page / 512) && page < MAXPAGE
    ensures IsSlot(fs, ow, f, page % 512, root, page)
  {
    hide V, Ppn, Flags;
    PageIndex(page);
    assert NodeOk(fs, ow, f) && Placed(fs, ow, f);
  }

  function Filled(b: Byte): seq<Byte> { seq(PGSIZE, _ => b) }

  class Memory {
    var frames: seq<Frame>
    var freelist: nat           // first free frame, 0 for none
    const lo: nat               // first frame behind the kernel
    ghost var owner: seq<Role>
    ghost var list: seq<nat>

    ghost predicate Valid()
      reads this
    {
      0 < lo && |frames| == |owner| <= MAXFRAMES && Nodes(frames, owner) && Places(frames, owner) && FreeList(frames, owner, freelist, list)
      && (forall f :: 0 <= f < |owner| && !owner[f].Other? ==> lo <= f)
    }

    constructor (frames: seq<Frame>, lo: nat)
      requires 0 < lo && |frames| <= MAXFRAMES
      ensures Valid() && this.frames == frames && list == [] && owner == seq(|frames|, _ => Other)
    {
      this.frames, this.lo, freelist := frames, lo, 0;
      owner, list := seq(|frames|, _ => Other), [];
    }

    /** kalloc: the first free frame, filled with junk; 0 if there is none. */
    method Kalloc() returns (f: nat)
      requires Valid()
      modifies this
      ensures Valid()
      ensures f == 0 <==> old(list) == []
      ensures f == 0 ==> frames == old(frames) && owner == old(owner) && list == old(list)
      ensures f != 0 ==> f < |old(frames)| && old(owner)[f].Free? && owner == old(owner)[f := Other] && list == old(list)[1..]
      ensures f != 0 ==> frames == old(frames)[f := Page(Filled(5))]
      ensures SameLooks(old(frames), old(owner), frames)
    {
      hide Nodes, Places, Look, NoDup, AllListed;
      f := freelist;
      if f != 0 {
        FreePop(frames, owner, freelist, list, Page(Filled(5)));
        RetypeOk(frames, owner, f, Page(Filled(5)), Other);
        freelist := frames[f].next;
        frames, owner, list := frames[f := Page(Filled(5))], owner[f := Other], list[1..];
      }
    }

    /** kfree; false is the panic for a frame outside the managed memory. */
    method Kfree(f: nat) returns (ok: bool)
      requires Valid() && (f < |owner| ==> owner[f].Other?)
      modifies this
      ensures Valid() && |frames| == |old(frames)| && ok == (lo <= f < |frames|)
      ensures !ok ==> frames == old(frames) && owner == old(owner) && list == old(list)
      ensures ok ==> f < |old(owner)| && f < |old(frames)|
      ensures ok ==> owner == old(owner)[f := Free] && list == [f] + old(list) && frames == old(frames)[f := Run(old(freelist))]
      ensures SameLooks(old(frames), old(owner), frames)
    {
      hide Nodes, Places, Look, FreeList;
      if f < lo || f >= |frames| {
        return false;
      }
      RetypeOk(frames, owner, f, Run(freelist), Free);
      FreePush(frames, owner, freelist, list, f);
      frames, owner, list := frames[f := Run(freelist)], owner[f := Free], [f] + list;
      freelist := f;
      ok := true;
    }

    /** memset or memmove of a whole frame the caller holds. */
    method Store(f: nat, bytes: seq<Byte>)
      requires Valid() && f < |owner| && owner[f].Other?
      modifies this`frames
      ensures Valid() && frames == old(frames)[f := Page(bytes)] && SameLooks(old(frames), owner, frames)
    {
      hide Nodes, Places, Look, FreeList;
      assert owner[f := Other] == owner;
      RetypeOk(frames, owner, f, Page(bytes), Other);
      FreeKept(frames, owner, frames[f := Page(bytes)], owner, freelist, list);
      frames := frames[f := Page(bytes)];
    }

    /** freerange: hand the frames from `from` up to `to` to the allocator. */
    method Freerange(from: nat, to: nat)
      requires Valid() && lo <= from && to <= |frames| && forall f :: from <= f < to ==> owner[f].Other?
      modifies this
      ensures Valid() && |frames| == |old(frames)|
      ensures forall f :: 0 <= f < |owner| ==> owner[f] == if from <= f < to then Free else old(owner)[f]
    {
      hide Nodes, Places, Look, FreeList, SameLooks;
      var p := from;
      while p < to
        invariant from <= p && (p <= to || p == from) && Valid() && |frames| == |old(frames)|
        invariant forall f :: 0 <= f < |owner| ==> owner[f] == if from <= f < p then Free else old(owner)[f]
      {
        var ok := Kfree(p);
        p := p + 1;
      }
    }

    /** One turn of walk's loop: from the page-table page of a level to the next. 0 if
        it is missing and may not or cannot be made. */
    method Descend(root: nat, page: nat, level: nat, pt: nat, alloc: bool) returns (next: nat)
      requires Valid() && IsRoot(owner, root) && page < MAXPAGE && 0 < level <= 2
      requires pt < |frames| && owner[pt] == Node(root, level, Prefix(level, page))
      modifies this
      ensures Valid() && SameLooks(old(frames), old(owner), frames) && Took(old(owner), owner, root)
      ensures KeepsData(old(frames), old(owner), frames)
      ensures next != 0 ==> next < |frames| && owner[next] == Node(root, level - 1, Prefix(level - 1, page))
      ensures next == 0 ==> frames == old(frames) && owner == old(owner) && list == old(list) && Child(frames, pt, PX(level, page)) == 0
      ensures next == 0 && alloc ==> list == []
      ensures var x := Node(root, level - 1, Prefix(level - 1, page));
        (next != 0 <==> Has(old(owner), x) || (alloc && old(list) != []))
        && (if next == 0 || Has(old(owner), x) then owner == old(owner) && list == old(list)
            else old(list) != [] && list == old(list)[1..] && next < |old(owner)| && old(owner)[next].Free? && owner == old(owner)[next := x])
      ensures !alloc ==> frames == old(frames) && owner == old(owner) && list == old(list) && next == Child(frames, pt, PX(level, page))
    {
      hide Look, FreeList, Places, V, Ppn, Flags, EntryOk, Child, Entry, Has;
      PrefixStep(level, page);
      var i := PX(level, page);
      assert NodeOk(frames, owner, pt);
      ChildNode(frames, owner, pt, i);
      ChildHas(frames, owner, root, page, level, pt);
      var pte := frames[pt].ptes[i];
      EntryAt(frames, pt, i);
      if V(pte) {
        return Ppn(pte);
      }
      if !alloc {
        return 0;
      }
      next := Kalloc();
      if next != 0 {
        AttachFree(frames, owner, freelist, list, pt, i, next);
        AttachOk(frames, owner, pt, i, next);
        owner := owner[next := AttachRole(owner, pt, i)];
        frames := frames[next := Table(seq(ENTRIES, _ => 0))];
        frames := SetEntry(frames, pt, i, Pte(next, PTE_V));
      }
    }

    /** walk: the slot of a page's PTE. None if a table is missing and, when asked to
        allocate, memory has run out. */
    method Walk(root: nat, page: nat, alloc: bool) returns (r: Option<(nat, nat)>)
      requires Valid() && IsRoot(owner, root) && page < MAXPAGE
      modifies this
      ensures Valid() && SameLooks(old(frames), old(owner), frames) && Took(old(owner), owner, root)
      ensures KeepsData(old(frames), old(owner), frames)
      ensures r.Some? ==> IsSlot(frames, owner, r.value.0, r.value.1, root, page)
      ensures r.None? ==> Look(frames, root, page) == 0 && (alloc ==> list == [])
      ensures r.Some? <==> TablesFor(old(owner), root, page) == 0 || (alloc && TablesFor(old(owner), root, page) <= |old(list)|)
      ensures r.Some? ==> |list| == |old(list)| - TablesFor(old(owner), root, page) && Gained(old(owner), owner, root, page, page + 1)
      ensures !alloc ==> frames == old(frames) && owner == old(owner) && list == old(list)
    {
      hide Look, FreeList, Places, Nodes, V, Ppn, Flags, Child, Entry, IsSlot, Has;
      var pt: nat, level: nat := root, 2;
      while level > 0
        invariant level <= 2 && Valid() && IsRoot(owner, root)
        invariant pt < |frames| && owner[pt] == Node(root, level, Prefix(level, page))
        invariant SameLooks(old(frames), old(owner), frames) && Took(old(owner), owner, root)
        invariant KeepsData(old(frames), old(owner), frames)
        invariant !alloc ==> frames == old(frames) && owner == old(owner) && list == old(list)
        invariant |list| == |old(list)| - TablesTo(old(owner), root, page, level) && (!alloc ==> TablesTo(old(owner), root, page, level) == 0)
        invariant GainedTo(old(owner), owner, root, page, level)
      {
        GainedAt(old(owner), owner, root, page, level);
        ghost var ow := owner;
        var next := Descend(root, page, level, pt, alloc);
        if next == 0 {
          MissingTable(frames, owner, root, page, level, pt);
          return None;
        }
        GainedNext(old(owner), ow, owner, root, page, level, next);
        pt, level := next, level - 1;
      }
      SlotOf(frames, owner, root, page, pt);
      GainedAll(old(owner), owner, root, page);
      r := Some((pt, page % 512));
    }

    /** Store a PTE into the slot of a page. With `c`, the frame it maps becomes the
        page's own. */
    method SetSlot(f: nat, i: nat, ghost root: nat, ghost page: nat, p: nat, ghost c: nat)
      requires Valid() && CanSet(frames, owner, f, i, root, page, p, c) && (c != 0 ==> lo <= c)
      modifies this
      ensures Valid() && owner == LeafRoles(old(owner), root, page, c) && list == old(list)
      ensures frames == SetEntry(old(frames), f, i, p) && Looks(old(frames), old(owner), frames, root, page, p)
      ensures KeepsData(old(frames), old(owner), frames)
    {
      hide Look, V, Ppn, Flags, Rwx, Nodes, Places, FreeList;
      SetOk(frames, owner, f, i, root, page, p, c);
      FreeKept(frames, owner, SetEntry(frames, f, i, p), LeafRoles(owner, root, page, c), freelist, list);
      owner := LeafRoles(owner, root, page, c);
      frames := SetEntry(frames, f, i, p);
    }

    /** One turn of mappages: map a page to a frame. */
    method MapPage(root: nat, page: nat, frame: nat, perm: nat, ghost own: bool) returns (r: MapResult)
      requires Valid() && IsRoot(owner, root) && page < MAXPAGE && perm < 1024 && Rwx(perm)
      requires own ==> IsPage(frames, owner, frame) && lo <= frame
      modifies this
      ensures Valid() && IsRoot(owner, root) && KeepsData(old(frames), old(owner), frames)
      ensures r.Ok? ==> Looks(old(frames), old(owner), frames, root, page, Pte(frame, WithV(perm)))
      ensures r.Ok? ==> TookBut(old(owner), owner, root, if own then frame else 0) && (own ==> owner[frame] == Leaf(root, page))
      ensures !r.Ok? ==> SameLooks(old(frames), old(owner), frames) && Took(old(owner), owner, root)
      ensures r.NoMemory? ==> list == [] && Look(old(frames), root, page) == 0
      ensures r.NoMemory? <==> TablesFor(old(owner), root, page) > |old(list)|
      ensures !r.NoMemory? ==> |list| == |old(list)| - TablesFor(old(owner), root, page) && Gained(old(owner), owner, root, page, page + 1)
      ensures (V(Look(old(frames), root, page)) <==> r.Remap?) && !r.NoSize?
    {
      hide Look, V, Ppn, Flags, Rwx, Nodes, Places, FreeList, Pte, SameLooks, LeafRole, Has, Gained, TablesFor;
      var slot := Walk(root, page, true);
      SameLookAt(old(frames), old(owner), frames, root, page);
      ZeroPte();
      if slot.None? {
        return NoMemory;
      }
      if V(frames[slot.value.0].ptes[slot.value.1]) {
        return Remap;
      }
      PteOf(frame, perm);
      ghost var mid, ow := frames, owner;
      SetSlot(slot.value.0, slot.value.1, root, page, Pte(frame, WithV(perm)), if own then frame else 0);
      LooksAfter(old(frames), old(owner), mid, ow, frames, root, page, Pte(frame, WithV(perm)));
      MapRoles(old(owner), ow, owner, old(frames), root, page, if own then frame else 0);
      GainedLeaf(old(owner), ow, root, page, if own then frame else 0);
      r := Ok;
    }

    /** One turn of uvmunmap. False is one of its panics: nothing is mapped there. */
    method UnmapPage(root: nat, page: nat, doFree: bool) returns (ok: bool)
      requires Valid() && IsRoot(owner, root) && page < MAXPAGE && (doFree && V(Look(frames, root, page)) ==> OwnPage(frames, owner, root, page))
      modifies this
      ensures Valid() && IsRoot(owner, root) && ok == V(Look(old(frames), root, page))
      ensures !ok ==> frames == old(frames) && owner == old(owner) && list == old(list)
      ensures ok ==> Looks(old(frames), old(owner), frames, root, page, 0)
      ensures ok ==> Gave(old(owner), owner, root, page, page + 1, doFree) && KeepsOthers(old(frames), old(owner), frames, root, page, page + 1)
    {
      hide Look, V, Ppn, Flags, Rwx, Nodes, Places, FreeList, SameLooks, LeafRole;
      var slot := Walk(root, page, false);
      ZeroPte();
      if slot.None? {
        return false;
      }
      var pte := frames[slot.value.0].ptes[slot.value.1];
      if !V(pte) {
        return false;
      }
      SetSlot(slot.value.0, slot.value.1, root, page, 0, 0);
      ghost var mid, ow := frames, owner;
      ClearRoles(old(frames), old(owner), root, page);
      if doFree {
        ok := Kfree(Ppn(pte));
        LooksSame(old(frames), old(owner), mid, ow, frames, root, page);
      }
      ok := true;
    }
  }

  // ----- how many tables are missing -----

  ghost predicate Has(ow: seq<Role>, x: Role) { exists f :: 0 <= f < |ow| && ow[f] == x }

  /** The page-table pages that page lacks: on the way to the level, and all of them. */
  ghost function TablesTo(ow: seq<Role>, root: nat, page: nat, level: nat): nat {
    (if level <= 1 && !Has(ow, Node(root, 1, Prefix(1, page))) then 1 else 0) + (if level == 0 && !Has(ow, Node(root, 0, Prefix(0, page))) then 1 else 0)
  }

  ghost function TablesFor(ow: seq<Role>, root: nat, page: nat): nat { TablesTo(ow, root, page, 0) }

  /** The tables of a page table are those from before and those on the way to pages lo..hi. */
  ghost predicate Gained(ow: seq<Role>, ow': seq<Role>, root: nat, lo: nat, hi: nat) {
    forall level: nat, prefix: nat :: level < 2 ==> (Has(ow', Node(root, level, prefix)) <==> Has(ow, Node(root, level, prefix)) || OnWay(level, prefix, lo, hi))
  }

  predicate OnWay(level: nat, prefix: nat, lo: nat, hi: nat) { exists q :: lo <= q < hi && Prefix(level, q) == prefix }

  ghost predicate GainedTo(ow: seq<Role>, ow': seq<Role>, root: nat, page: nat, level: nat) {
    forall l: nat, prefix: nat :: l < 2 ==>
      (Has(ow', Node(root, l, prefix)) <==> Has(ow, Node(root, l, prefix)) || (level <= l && prefix == Prefix(l, page)))
  }

  lemma ChildHas(fs: seq<Frame>, ow: seq<Role>, root: nat, page: nat, level: nat, pt: nat)
    requires Nodes(fs, ow) && Places(fs, ow) && IsRoot(ow, root) && page < MAXPAGE && 0 < level <= 2
    requires pt < |fs| && ow[pt] == Node(root, level, Prefix(level, page))
    ensures Child(fs, pt, PX(level, page)) != 0 <==> Has(ow, Node(root, level - 1, Prefix(level - 1, page)))
  {
    PrefixStep(level, page);
    PageIndex(page);
    hide V, Ppn, Flags, Child, Entry;
    ChildNode(fs, ow, pt, PX(level, page));
    assert NodeOk(fs, ow, pt) && Placed(fs, ow, pt);
    if Has(ow, Node(root, level - 1, Prefix(level - 1, page))) {
      var f :| 0 <= f < |ow| && ow[f] == Node(root, level - 1, Prefix(level - 1, page));
      assert Placed(fs, ow, f);
    }
  }

  lemma HasSet(ow: seq<Role>, f: nat, r: Role, x: Role)
    requires f < |ow| && ow[f] != x
    ensures Has(ow[f := r], x) <==> Has(ow, x) || r == x
  {
    if Has(ow, x) {
      var g :| 0 <= g < |ow| && ow[g] == x;
      assert ow[f := r][g] == x;
    }
    assert ow[f := r][f] == r;
  }

  lemma GainedAt(ow: seq<Role>, ow': seq<Role>, root: nat, page: nat, level: nat)
    requires 0 < level <= 2 && GainedTo(ow, ow', root, page, level)
    ensures Has(ow', Node(root, level - 1, Prefix(level - 1, page))) <==> Has(ow, Node(root, level - 1, Prefix(level - 1, page)))
    ensures TablesTo(ow, root, page, level - 1) == TablesTo(ow, root, page, level) + if Has(ow, Node(root, level - 1, Prefix(level - 1, page))) then 0 else 1
    ensures TablesTo(ow, root, page, level) + (if Has(ow, Node(root, level - 1, Prefix(level - 1, page))) then 0 else 1) <= TablesFor(ow, root, page)
  {
    hide Has, Prefix;
  }

  lemma GainedNext(ow: seq<Role>, mow: seq<Role>, ow': seq<Role>, root: nat, page: nat, level: nat, next: nat)
    requires 0 < level <= 2 && GainedTo(ow, mow, root, page, level)
    requires var x := Node(root, level - 1, Prefix(level - 1, page));
      if Has(mow, x) then ow' == mow else next < |mow| && mow[next].Free? && ow' == mow[next := x]
    ensures GainedTo(ow, ow', root, page, level - 1)
  {
    hide Has, Prefix;
    var x := Node(root, level - 1, Prefix(level - 1, page));
    forall l: nat, prefix: nat | l < 2
      ensures Has(ow', Node(root, l, prefix)) <==> Has(ow, Node(root, l, prefix)) || (level - 1 <= l && prefix == Prefix(l, page))
    {
      if !Has(mow, x) {
        HasSet(mow, next, x, Node(root, l, prefix));
      }
    }
  }

  lemma OnWayOne(level: nat, prefix: nat, page: nat)
    ensures OnWay(level, prefix, page, page + 1) <==> prefix == Prefix(level, page)
  {
    hide Prefix;
    assert page <= page < page + 1;
  }

  lemma GainedAll(ow: seq<Role>, ow': seq<Role>, root: nat, page: nat)
    requires GainedTo(ow, ow', root, page, 0)
    ensures Gained(ow, ow', root, page, page + 1)
  {
    hide Has, Prefix, OnWay;
    forall level: nat, prefix: nat | level < 2
      ensures Has(ow', Node(root, level, prefix)) <==> Has(ow, Node(root, level, prefix)) || OnWay(level, prefix, page, page + 1)
    {
      OnWayOne(level, prefix, page);
    }
  }

  /** Roles of pages do not matter. */
  lemma HasTables(ow: seq<Role>, ow': seq<Role>, x: Role)
    requires |ow'| == |ow| && x.Node? && forall f :: 0 <= f < |ow| && (ow[f].Node? || ow'[f].Node?) ==> ow'[f] == ow[f]
    ensures Has(ow', x) <==> Has(ow, x)
  {
    if Has(ow, x) {
      var f :| 0 <= f < |ow| && ow[f] == x;
      assert ow'[f] == x;
    }
    if Has(ow', x) {
      var f :| 0 <= f < |ow'| && ow'[f] == x;
      assert ow[f] == x;
    }
  }

  /** The same tables, and what follows for the tables that a page lacks. */
  lemma SameTables(ow: seq<Role>, ow': seq<Role>, root: nat, page: nat)
    requires |ow'| == |ow| && forall f :: 0 <= f < |ow| && (ow[f].Node? || ow'[f].Node?) ==> ow'[f] == ow[f]
    ensures TablesFor(ow', root, page) == TablesFor(ow, root, page)
    ensures forall level: nat, prefix: nat :: Has(ow', Node(root, level, prefix)) <==> Has(ow, Node(root, level, prefix))
  {
    hide Has, Prefix;
    forall level: nat, prefix: nat ensures Has(ow', Node(root, level, prefix)) <==> Has(ow, Node(root, level, prefix)) {
      HasTables(ow, ow', Node(root, level, prefix));
    }
  }

  lemma GainedLeaf(ow: seq<Role>, mow: seq<Role>, root: nat, page: nat, c: nat)
    requires Gained(ow, mow, root, page, page + 1) && (c != 0 ==> c < |mow| && !mow[c].Node?)
    ensures Gained(ow, LeafRoles(mow, root, page, c), root, page, page + 1)
  {
    hide Has, OnWay;
    SameTables(mow, LeafRoles(mow, root, page, c), root, page);
  }

  /** The page is mapped to a frame of its own. */
  ghost predicate OwnPage(fs: seq<Frame>, ow: seq<Role>, root: nat, page: nat) {
    |fs| == |ow| && V(Look(fs, root, page)) && Ppn(Look(fs, root, page)) < |ow| && ow[Ppn(Look(fs, root, page))] == Leaf(root, page)
  }

  /** The frames of pages lo..hi left `root`, to the free list or to the caller. */
  ghost predicate Gave(ow: seq<Role>, ow': seq<Role>, root: nat, lo: nat, hi: nat, freed: bool) {
    |ow'| == |ow| && forall f :: 0 <= f < |ow| ==>
      ow'[f] == if ow[f].Leaf? && ow[f].root == root && lo <= ow[f].page < hi then (if freed then Free else Other) else ow[f]
  }

  ghost predicate KeepsOthers(fs: seq<Frame>, ow: seq<Role>, fs': seq<Frame>, root: nat, lo: nat, hi: nat) {
    |fs| == |ow| == |fs'|
    && forall f :: 0 <= f < |fs| && (ow[f].Other? || (ow[f].Leaf? && !(ow[f].root == root && lo <= ow[f].page < hi))) ==> fs'[f] == fs[f]
  }

  lemma ClearRoles(fs: seq<Frame>, ow: seq<Role>, root: nat, page: nat)
    requires |fs| == |ow| && Places(fs, ow)
    ensures Gave(ow, LeafRoles(ow, root, page, 0), root, page, page + 1, false)
    ensures OwnPage(fs, ow, root, page) ==> Gave(ow, LeafRoles(ow, root, page, 0)[Ppn(Look(fs, root, page)) := Free], root, page, page + 1, true)
  {
    hide Look, V, Ppn;
    forall f | 0 <= f < |ow| ensures ow[f] == Leaf(root, page) ==> f == Ppn(Look(fs, root, page)) {
      assert Placed(fs, ow, f);
    }
  }

  lemma LooksSame(fs: seq<Frame>, ow: seq<Role>, mid: seq<Frame>, mow: seq<Role>, fs': seq<Frame>, root: nat, page: nat)
    requires Looks(fs, ow, mid, root, page, 0) && SameLooks(mid, mow, fs') && |ow| == |mow| && mow == LeafRoles(ow, root, page, 0)
    ensures Looks(fs, ow, fs', root, page, 0)
  {
    hide Look;
    forall r, q | IsRoot(ow, r) && 0 <= q < MAXPAGE ensures Look(fs', r, q) == if r == root && q == page then 0 else Look(fs, r, q) {
      assert IsRoot(mow, r);
    }
  }

  datatype MapResult = Ok | NoMemory | Remap | NoSize  // the panics "mappages: remap" and "mappages: size"

  function WithV(perm: nat): nat { if perm % 2 == 1 then perm else perm + 1 }  // perm | PTE_V

  predicate IsPage(fs: seq<Frame>, ow: seq<Role>, f: nat) {
    0 < f < |fs| == |ow| && ow[f].Other? && fs[f].Page? && |fs[f].bytes| == PGSIZE
  }

  /** Page `page` of `root` maps to p; every other page of every page table maps as
      before. */
  ghost predicate Looks(fs: seq<Frame>, ow: seq<Role>, fs': seq<Frame>, root: nat, page: nat, p: nat) {
    forall r, q :: IsRoot(ow, r) && 0 <= q < MAXPAGE ==> Look(fs', r, q) == if r == root && q == page then p else Look(fs, r, q)
  }

  ghost predicate TookBut(ow: seq<Role>, ow': seq<Role>, root: nat, c: nat) {
    |ow'| == |ow| && forall f :: 0 <= f < |ow| && (f != c || c == 0) ==> ow'[f] == ow[f] || (ow[f].Free? && ow'[f].Node? && ow'[f].root == root && ow'[f].level < 2)
  }

  lemma ZeroPte()
    ensures !V(0)
  {
  }

  lemma PteOf(frame: nat, perm: nat)
    requires perm < 1024 && Rwx(perm)
    ensures var p := Pte(frame, WithV(perm)); V(p) && Rwx(p) && Ppn(p) == frame && Flags(p) == WithV(perm)
  {
    PteFields(frame, WithV(perm));
  }

  lemma SameLookAt(fs: seq<Frame>, ow: seq<Role>, fs': seq<Frame>, root: nat, page: nat)
    requires SameLooks(fs, ow, fs') && IsRoot(ow, root) && page < MAXPAGE
    ensures Look(fs', root, page) == Look(fs, root, page)
  {
    hide Look;
  }

  lemma LooksAfter(fs: seq<Frame>, ow: seq<Role>, mid: seq<Frame>, mow: seq<Role>, fs': seq<Frame>, root: nat, page: nat, p: nat)
    requires SameLooks(fs, ow, mid) && Took(ow, mow, root) && Looks(mid, mow, fs', root, page, p)
    ensures Looks(fs, ow, fs', root, page, p)
  {
    hide Look;
    forall r, q | IsRoot(ow, r) && 0 <= q < MAXPAGE ensures Look(fs', r, q) == if r == root && q == page then p else Look(fs, r, q) {
      assert IsRoot(mow, r);
    }
  }

  lemma MapRoles(ow: seq<Role>, mow: seq<Role>, ow': seq<Role>, fs: seq<Frame>, root: nat, page: nat, c: nat)
    requires |fs| == |ow| && Places(fs, ow) && IsRoot(ow, root) && !V(Look(fs, root, page))
    requires Took(ow, mow, root) && ow' == LeafRoles(mow, root, page, c) && (c != 0 ==> c < |ow| && ow[c].Other?)
    ensures TookBut(ow, ow', root, c) && IsRoot(ow', root) && (c != 0 ==> ow'[c] == Leaf(root, page))
  {
    hide Look, V, Ppn;
    forall f | 0 <= f < |ow| ensures ow[f] != Leaf(root, page) {
      assert Placed(fs, ow, f);
    }
  }

  lemma EntryAt(fs: seq<Frame>, f: nat, i: nat)
    requires f < |fs| && fs[f].Table? && i < |fs[f].ptes|
    ensures Entry(fs, f, i) == fs[f].ptes[i]
  {
  }

  lemma AttachFree(fs: seq<Frame>, ow: seq<Role>, head: nat, list: seq<nat>, f: nat, i: nat, c: nat)
    requires CanAttach(fs, ow, f, i, c) && FreeList(fs, ow, head, list)
    ensures |Attach(fs, f, i, c)| == |fs| && FreeList(Attach(fs, f, i, c), ow[c := AttachRole(ow, f, i)], head, list)
  {
    hide FreeList, Attach;
    AttachSize(fs, f, i, c);
    FreeKept(fs, ow, Attach(fs, f, i, c), ow[c := AttachRole(ow, f, i)], head, list);
  }

  lemma MissingTable(fs: seq<Frame>, ow: seq<Role>, root: nat, page: nat, level: nat, pt: nat)
    requires Nodes(fs, ow) && Places(fs, ow) && IsRoot(ow, root) && page < MAXPAGE && 0 < level <= 2
    requires pt < |fs| && ow[pt] == Node(root, level, Prefix(level, page)) && Child(fs, pt, PX(level, page)) == 0
    ensures Look(fs, root, page) == 0
  {
    hide V, Ppn, Flags;
    assert NodeOk(fs, ow, pt) && Placed(fs, ow, pt);
  }
}
