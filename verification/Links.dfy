/** Directories and link counts: create, link and unlink on inodes and directory entries. */
module Links {
  import opened Wrappers

  const ROOT: nat := 1

  datatype Kind = Free | Dir | File | Device

  datatype Ent = Ent(inum: nat, name: string)   // inum 0 is an empty slot

  datatype INode = INode(kind: Kind, nlink: int, ents: seq<Ent>)

  // ----- counting -----

  /** The entries not named "." that point to inode i. */
  function Points(ents: seq<Ent>, i: nat): nat {
    if ents == [] then 0
    else Points(ents[..|ents| - 1], i) + if ents[|ents| - 1].inum == i && ents[|ents| - 1].name != "." then 1 else 0
  }

  predicate Linked(x: INode) { x.kind == Dir && x.nlink > 0 }

  function Part(x: INode, i: nat): nat { if Linked(x) then Points(x.ents, i) else 0 }

  /** The entries not named "." that point to inode i from directories that are linked. */
  function Refs(s: seq<INode>, i: nat): nat { if s == [] then 0 else Refs(s[..|s| - 1], i) + Part(s[|s| - 1], i) }

  function Hit(e: Ent, i: nat): nat { if e.inum == i && e.name != "." then 1 else 0 }

  lemma {:induction false} PointsSet(ents: seq<Ent>, k: nat, e: Ent, i: nat)
    requires k < |ents|
    ensures Points(ents[k := e], i) == Points(ents, i) - Hit(ents[k], i) + Hit(e, i)
  {
    var n := |ents| - 1;
    if k == n {
      assert ents[k := e][..n] == ents[..n];
    } else {
      PointsSet(ents[..n], k, e, i);
      assert ents[k := e][..n] == ents[..n][k := e];
    }
  }

  lemma PointsAdd(ents: seq<Ent>, e: Ent, i: nat)
    ensures Points(ents + [e], i) == Points(ents, i) + Hit(e, i)
  {
    assert (ents + [e])[..|ents|] == ents;
  }

  lemma {:induction false} PointsNone(ents: seq<Ent>, i: nat)
    requires forall k :: 0 <= k < |ents| ==> Hit(ents[k], i) == 0
    ensures Points(ents, i) == 0
  {
    if ents != [] {
      PointsNone(ents[..|ents| - 1], i);
    }
  }

  /** One entry is a hit, all others are not. */
  lemma {:induction false} PointsOne(ents: seq<Ent>, i: nat, k: nat)
    requires k < |ents| && Hit(ents[k], i) == 1 && forall j :: 0 <= j < |ents| && j != k ==> Hit(ents[j], i) == 0
    ensures Points(ents, i) == 1
  {
    var n := |ents| - 1;
    if k == n {
      PointsNone(ents[..n], i);
    } else {
      PointsOne(ents[..n], i, k);
    }
  }

  lemma {:induction false} PointsSome(ents: seq<Ent>, i: nat, k: nat)
    requires k < |ents| && Hit(ents[k], i) == 1
    ensures Points(ents, i) >= 1
  {
    if k < |ents| - 1 {
      PointsSome(ents[..|ents| - 1], i, k);
    }
  }

  lemma {:induction false} RefsSet(s: seq<INode>, d: nat, x: INode, i: nat)
    requires d < |s|
    ensures Refs(s[d := x], i) == Refs(s, i) - Part(s[d], i) + Part(x, i)
  {
    var n := |s| - 1;
    if d == n {
      assert s[d := x][..n] == s[..n];
    } else {
      RefsSet(s[..n], d, x, i);
      assert s[d := x][..n] == s[..n][d := x];
    }
  }

  lemma {:induction false} RefsAtLeast(s: seq<INode>, d: nat, i: nat)
    requires d < |s|
    ensures Refs(s, i) >= Part(s[d], i)
  {
    if d < |s| - 1 {
      RefsAtLeast(s[..|s| - 1], d, i);
    }
  }

  lemma {:induction false} RefsNone(s: seq<INode>, i: nat)
    requires forall d :: 0 <= d < |s| ==> Part(s[d], i) == 0
    ensures Refs(s, i) == 0
  {
    if s != [] {
      RefsNone(s[..|s| - 1], i);
    }
  }

  lemma {:induction false} RefsOne(s: seq<INode>, d: nat, i: nat)
    requires d < |s| && forall e :: 0 <= e < |s| && e != d ==> Part(s[e], i) == 0
    ensures Refs(s, i) == Part(s[d], i)
  {
    var n := |s| - 1;
    if d == n {
      RefsNone(s[..n], i);
    } else {
      RefsOne(s[..n], d, i);
    }
  }

  // ----- invariant -----

  /** Link counts are right, and nothing points to a free inode. */
  ghost predicate Counted(s: seq<INode>) { forall i :: 1 <= i < |s| ==> s[i].nlink == Refs(s, i) }

  ghost predicate Unique(ents: seq<Ent>) {
    forall j, k :: 0 <= j < k < |ents| && ents[j].inum != 0 && ents[k].inum != 0 ==> ents[j].name != ents[k].name
  }

  /** A directory's entries: "." and ".." first, names unique; only those two once it is
      unlinked. */
  ghost predicate DirOk(s: seq<INode>, d: nat)
    requires d < |s|
  {
    s[d].kind == Dir ==>
      |s[d].ents| >= 2 && s[d].ents[0] == Ent(d, ".") && s[d].ents[1].name == ".." && s[d].ents[1].inum != 0 && Unique(s[d].ents)
      && (forall k :: 0 <= k < |s[d].ents| ==> s[d].ents[k].inum < |s|)
      && (s[d].nlink == 0 ==> forall k :: 2 <= k < |s[d].ents| ==> s[d].ents[k].inum == 0)
  }

  /** What a linked directory's entries lead to is allocated; a subdirectory is in one
      place, up[y], and its ".." leads back there. */
  ghost predicate DownOk(s: seq<INode>, up: seq<(nat, nat)>, d: nat)
    requires d < |s| == |up|
  {
    Linked(s[d]) ==> forall k :: 2 <= k < |s[d].ents| && 0 < s[d].ents[k].inum < |s| && s[s[d].ents[k].inum].kind == Dir ==> up[s[d].ents[k].inum] == (d, k)
  }

  ghost predicate UpOk(s: seq<INode>, up: seq<(nat, nat)>, y: nat)
    requires y < |s| == |up|
  {
    Linked(s[y]) && y != ROOT ==>
      var (p, k) := up[y];
      p < |s| && p != y && Linked(s[p]) && 2 <= k < |s[p].ents| && s[p].ents[k].inum == y && |s[y].ents| >= 2 && s[y].ents[1].inum == p
  }

  ghost predicate Tree(s: seq<INode>, up: seq<(nat, nat)>) {
    |s| == |up| > ROOT && s[0].kind == Free && Linked(s[ROOT]) && |s[ROOT].ents| >= 2 && s[ROOT].ents[1].inum == ROOT && up[ROOT] == (0, 0)
    && (forall d :: 0 <= d < |s| ==> DirOk(s, d)) && (forall d :: 0 <= d < |s| ==> DownOk(s, up, d)) && (forall y :: 0 <= y < |s| ==> UpOk(s, up, y))
    && (forall i :: 0 <= i < |s| && s[i].kind == Free ==> s[i] == INode(Free, 0, []))
  }

  // ----- changing one entry -----

  function PutEnt(x: INode, k: nat, e: Ent): INode
    requires k <= |x.ents|
  {
    x.(ents := if k < |x.ents| then x.ents[k := e] else x.ents + [e])
  }

  /** An empty slot, or the place behind the last entry. */
  predicate EmptySlot(ents: seq<Ent>, k: nat) { k <= |ents| && (k < |ents| ==> ents[k].inum == 0) }

  ghost predicate Absent(ents: seq<Ent>, name: string) { forall k :: 0 <= k < |ents| && ents[k].inum != 0 ==> ents[k].name != name }

  lemma PutPart(x: INode, k: nat, e: Ent, i: nat)
    requires Linked(x) && k <= |x.ents| && i != 0
    ensures Part(PutEnt(x, k, e), i) == Part(x, i) + Hit(e, i) - if k < |x.ents| then Hit(x.ents[k], i) else 0
  {
    if k < |x.ents| {
      PointsSet(x.ents, k, e, i);
    } else {
      PointsAdd(x.ents, e, i);
    }
  }

  lemma PutUnique(ents: seq<Ent>, k: nat, e: Ent)
    requires Unique(ents) && k <= |ents| && (e.inum != 0 ==> Absent(ents, e.name))
    ensures Unique(if k < |ents| then ents[k := e] else ents + [e])
  {
  }

  /** "." and ".." are taken, so a new name is neither, and a new entry comes behind. */
  lemma NewName(s: seq<INode>, d: nat, k: nat, name: string)
    requires d < |s| && DirOk(s, d) && s[d].kind == Dir && d != 0 && Absent(s[d].ents, name) && EmptySlot(s[d].ents, k)
    ensures name != "." && name != ".." && k >= 2
  {
  }

  // ----- a new link to a file -----

  function LinkTo(s: seq<INode>, d: nat, k: nat, name: string, i: nat): seq<INode>
    requires d < |s| && i < |s| && k <= |s[d].ents| && i != d
  {
    s[i := s[i].(nlink := s[i].nlink + 1)][d := PutEnt(s[d], k, Ent(i, name))]
  }

  lemma LinkCounted(s: seq<INode>, d: nat, k: nat, name: string, i: nat)
    requires Counted(s) && 1 <= d < |s| && 1 <= i < |s| && i != d && Linked(s[d]) && s[i].kind != Dir && EmptySlot(s[d].ents, k) && name != "."
    ensures Counted(LinkTo(s, d, k, name, i))
  {
    var s1 := s[i := s[i].(nlink := s[i].nlink + 1)];
    var s' := LinkTo(s, d, k, name, i);
    forall j | 1 <= j < |s'| ensures s'[j].nlink == Refs(s', j) {
      RefsSet(s, i, s1[i], j);
      RefsSet(s1, d, s'[d], j);
      PutPart(s[d], k, Ent(i, name), j);
    }
  }

  /** The exact condition: in a directory that is itself unlinked the count goes wrong. */
  lemma LinkUncounted(s: seq<INode>, d: nat, k: nat, name: string, i: nat)
    requires Counted(s) && 1 <= d < |s| && 1 <= i < |s| && i != d && !Linked(s[d]) && s[i].kind != Dir && k <= |s[d].ents|
    ensures !Counted(LinkTo(s, d, k, name, i))
  {
    var s1 := s[i := s[i].(nlink := s[i].nlink + 1)];
    var s' := LinkTo(s, d, k, name, i);
    RefsSet(s, i, s1[i], i);
    RefsSet(s1, d, s'[d], i);
    assert s'[i].nlink != Refs(s', i);
  }

  // ----- steps that keep the tree -----

  /** An entry other than "." and ".." is set or cleared; neither what it led to nor what
      it leads to is a directory in the tree. */
  ghost predicate CanPut(s: seq<INode>, d: nat, k: nat, e: Ent) {
    1 <= d < |s| && Linked(s[d]) && 2 <= k <= |s[d].ents| && e.inum < |s|
    && (k < |s[d].ents| && 0 < s[d].ents[k].inum < |s| ==> !Linked(s[s[d].ents[k].inum]))
    && (e.inum != 0 ==> Absent(s[d].ents, e.name) && s[e.inum].kind != Dir)
  }

  lemma PutDirOk(s: seq<INode>, d: nat, k: nat, e: Ent, x: nat)
    requires x < |s| && CanPut(s, d, k, e) && DirOk(s, x)
    ensures DirOk(s[d := PutEnt(s[d], k, e)], x)
  {
    if x == d {
      PutUnique(s[d].ents, k, e);
    }
    hide Unique, Absent;
  }

  lemma PutDown(s: seq<INode>, up: seq<(nat, nat)>, d: nat, k: nat, e: Ent, x: nat)
    requires x < |s| == |up| && CanPut(s, d, k, e) && DownOk(s, up, x)
    ensures DownOk(s[d := PutEnt(s[d], k, e)], up, x)
  {
    hide Absent;
  }

  lemma PutUp(s: seq<INode>, up: seq<(nat, nat)>, d: nat, k: nat, e: Ent, x: nat)
    requires 1 <= x < |s| == |up| && CanPut(s, d, k, e) && UpOk(s, up, x)
    ensures UpOk(s[d := PutEnt(s[d], k, e)], up, x)
  {
    hide Absent;
  }

  lemma TreePut(s: seq<INode>, up: seq<(nat, nat)>, d: nat, k: nat, e: Ent)
    requires Tree(s, up) && CanPut(s, d, k, e)
    ensures Tree(s[d := PutEnt(s[d], k, e)], up)
  {
    var s' := s[d := PutEnt(s[d], k, e)];
    forall x | 0 <= x < |s'| ensures DirOk(s', x) && DownOk(s', up, x) && UpOk(s', up, x) {
      assert DirOk(s, x) && DownOk(s, up, x) && UpOk(s, up, x);
      hide DirOk, DownOk, UpOk, CanPut;
      PutDirOk(s, d, k, e, x);
      PutDown(s, up, d, k, e, x);
      if x > 0 {
        PutUp(s, up, d, k, e, x);
      } else {
        ZeroUp(s', up);
      }
    }
  }

  lemma ZeroUp(s: seq<INode>, up: seq<(nat, nat)>)
    requires |s| == |up| > 0 && s[0].kind == Free
    ensures UpOk(s, up, 0)
  {
  }

  /** A link count changes, but not whether a directory is linked. */
  lemma TreeNlink(s: seq<INode>, up: seq<(nat, nat)>, i: nat, n: int)
    requires Tree(s, up) && 1 <= i < |s| && s[i].kind != Free && (s[i].kind == Dir ==> s[i].nlink > 0 && n > 0)
    ensures Tree(s[i := s[i].(nlink := n)], up)
  {
    var s' := s[i := s[i].(nlink := n)];
    forall x | 0 <= x < |s'| ensures DirOk(s', x) && DownOk(s', up, x) && UpOk(s', up, x) {
      assert DirOk(s, x) && DownOk(s, up, x) && UpOk(s, up, x);
      hide Unique;
    }
  }

  /** An empty directory leaves the tree. */
  lemma TreeKill(s: seq<INode>, up: seq<(nat, nat)>, y: nat)
    requires Tree(s, up) && ROOT < y < |s| && Linked(s[y]) && forall k :: 2 <= k < |s[y].ents| ==> s[y].ents[k].inum == 0
    ensures Tree(s[y := s[y].(nlink := 0)], up)
  {
    var s' := s[y := s[y].(nlink := 0)];
    forall x | 0 <= x < |s'| ensures DirOk(s', x) && DownOk(s', up, x) && UpOk(s', up, x) {
      assert DirOk(s, x) && DownOk(s, up, x) && UpOk(s, up, x);
      hide Unique;
    }
  }

  /** A free inode becomes a file, or an unlinked inode becomes free. */
  lemma TreeSet(s: seq<INode>, up: seq<(nat, nat)>, n: nat, x: INode)
    requires Tree(s, up) && ROOT < n < |s| && !Linked(s[n]) && x.kind != Dir && (x.kind == Free ==> x == INode(Free, 0, []))
    ensures Tree(s[n := x], up)
  {
    var s' := s[n := x];
    forall z | 0 <= z < |s'| ensures DirOk(s', z) && DownOk(s', up, z) && UpOk(s', up, z) {
      assert DirOk(s, z) && DownOk(s, up, z) && UpOk(s, up, z);
      hide Unique;
    }
  }

  function NewDir(n: nat, d: nat): INode { INode(Dir, 1, [Ent(n, "."), Ent(d, "..")]) }

  /** A free inode that one entry leads to becomes a directory there. */
  lemma TreeNewDir(s: seq<INode>, up: seq<(nat, nat)>, n: nat, d: nat, k: nat)
    requires Tree(s, up) && ROOT < n < |s| && s[n].kind == Free && 1 <= d < |s| && Linked(s[d]) && 2 <= k < |s[d].ents| && s[d].ents[k].inum == n
    requires forall x, j :: 0 <= x < |s| && Linked(s[x]) && 2 <= j < |s[x].ents| && s[x].ents[j].inum == n ==> x == d && j == k
    ensures Tree(s[n := NewDir(n, d)], up[n := (d, k)])
  {
    var s', up' := s[n := NewDir(n, d)], up[n := (d, k)];
    forall x | 0 <= x < |s'| ensures DirOk(s', x) && DownOk(s', up', x) && UpOk(s', up', x) {
      assert DirOk(s, x) && DownOk(s, up, x) && UpOk(s, up, x);
      hide Unique;
      if x == n {
        NewUnique(n, d);
      }
    }
  }

  lemma NewUnique(n: nat, d: nat)
    ensures Unique(NewDir(n, d).ents)
  {
  }

  // ----- steps that keep the counts -----

  function CreateIn(s: seq<INode>, d: nat, k: nat, name: string, n: nat, x: INode, more: int): seq<INode>
    requires d < |s| && n < |s| && k <= |s[d].ents| && n != d
  {
    s[d := PutEnt(s[d], k, Ent(n, name)).(nlink := s[d].nlink + more)][n := x]
  }

  lemma CreateRefs(s: seq<INode>, d: nat, k: nat, name: string, n: nat, x: INode, more: int, j: nat)
    requires 1 <= d < |s| && 1 <= n < |s| && n != d && k <= |s[d].ents| && j >= 1
    ensures var d' := PutEnt(s[d], k, Ent(n, name)).(nlink := s[d].nlink + more);
      Refs(CreateIn(s, d, k, name, n, x, more), j) == Refs(s, j) - Part(s[d], j) + Part(d', j) - Part(s[n], j) + Part(x, j)
  {
    var d' := PutEnt(s[d], k, Ent(n, name)).(nlink := s[d].nlink + more);
    RefsSet(s, d, d', j);
    RefsSet(s[d := d'], n, x, j);
  }

  lemma NewDirPart(n: nat, d: nat, j: nat)
    ensures Part(NewDir(n, d), j) == if j == d then 1 else 0
  {
    var e := NewDir(n, d).ents;
    assert e[..1] == [e[0]] && [e[0]][..0] == [];
    assert Points(e[..1], j) == Hit(e[0], j);
  }

  lemma NlinkPart(x: INode, n: int, j: nat)
    requires Linked(x) && n > 0
    ensures Part(x.(nlink := n), j) == Part(x, j)
  {
  }

  lemma CreateFileCounted(s: seq<INode>, d: nat, k: nat, name: string, n: nat, x: INode)
    requires Counted(s) && 1 <= d < |s| && 1 <= n < |s| && n != d && Linked(s[d]) && EmptySlot(s[d].ents, k) && name != "."
    requires s[n] == INode(Free, 0, []) && x.kind != Dir && x.nlink == 1
    ensures Counted(CreateIn(s, d, k, name, n, x, 0))
  {
    var s' := CreateIn(s, d, k, name, n, x, 0);
    forall j | 1 <= j < |s'| ensures s'[j].nlink == Refs(s', j) {
      CreateRefs(s, d, k, name, n, x, 0, j);
      PutPart(s[d], k, Ent(n, name), j);
    }
  }

  lemma CreateDirCounted(s: seq<INode>, d: nat, k: nat, name: string, n: nat)
    requires Counted(s) && 1 <= d < |s| && 1 <= n < |s| && n != d && Linked(s[d]) && EmptySlot(s[d].ents, k) && name != "."
    requires s[n] == INode(Free, 0, [])
    ensures Counted(CreateIn(s, d, k, name, n, NewDir(n, d), 1))
  {
    var s' := CreateIn(s, d, k, name, n, NewDir(n, d), 1);
    forall j | 1 <= j < |s'| ensures s'[j].nlink == Refs(s', j) {
      CreateRefs(s, d, k, name, n, NewDir(n, d), 1, j);
      PutPart(s[d], k, Ent(n, name), j);
      NlinkPart(PutEnt(s[d], k, Ent(n, name)), s[d].nlink + 1, j);
      NewDirPart(n, d, j);
    }
  }

  /** In a directory that is itself unlinked, creating breaks the counts. */
  lemma CreateFileUncounted(s: seq<INode>, d: nat, k: nat, name: string, n: nat, x: INode)
    requires Counted(s) && 1 <= d < |s| && 1 <= n < |s| && n != d && !Linked(s[d]) && k <= |s[d].ents|
    requires s[n] == INode(Free, 0, []) && x.kind != Dir && x.nlink == 1
    ensures !Counted(CreateIn(s, d, k, name, n, x, 0))
  {
    var s' := CreateIn(s, d, k, name, n, x, 0);
    CreateRefs(s, d, k, name, n, x, 0, n);
    assert s'[n].nlink != Refs(s', n);
  }

  lemma CreateDirUncounted(s: seq<INode>, d: nat, k: nat, name: string, n: nat)
    requires Counted(s) && 1 <= d < |s| && 1 <= n < |s| && n != d && s[d].kind == Dir && s[d].nlink == 0 && DirOk(s, d) && EmptySlot(s[d].ents, k) && k >= 2 && name != "."
    requires s[n] == INode(Free, 0, [])
    ensures !Counted(CreateIn(s, d, k, name, n, NewDir(n, d), 1))
  {
    var s' := CreateIn(s, d, k, name, n, NewDir(n, d), 1);
    var p := s[d].ents[1].inum;
    CreateRefs(s, d, k, name, n, NewDir(n, d), 1, p);
    PutPart(s[d].(nlink := 1), k, Ent(n, name), p);
    PointsSome(s[d].ents, p, 1);
    NewDirPart(n, d, p);
    assert s'[p].nlink != Refs(s', p);
  }

  function UnlinkFrom(s: seq<INode>, d: nat, k: nat, i: nat, less: int, nlink: int): seq<INode>
    requires d < |s| && i < |s| && k < |s[d].ents| && i != d
  {
    s[d := PutEnt(s[d], k, Ent(0, "")).(nlink := s[d].nlink - less)][i := s[i].(nlink := nlink)]
  }

  lemma UnlinkRefs(s: seq<INode>, d: nat, k: nat, i: nat, less: int, nlink: int, j: nat)
    requires 1 <= d < |s| && 1 <= i < |s| && i != d && k < |s[d].ents|
    ensures var d' := PutEnt(s[d], k, Ent(0, "")).(nlink := s[d].nlink - less);
      Refs(UnlinkFrom(s, d, k, i, less, nlink), j) == Refs(s, j) - Part(s[d], j) + Part(d', j) - Part(s[i], j) + Part(s[i].(nlink := nlink), j)
  {
    var d' := PutEnt(s[d], k, Ent(0, "")).(nlink := s[d].nlink - less);
    RefsSet(s, d, d', j);
    RefsSet(s[d := d'], i, s[i].(nlink := nlink), j);
  }

  lemma UnlinkFileCounted(s: seq<INode>, d: nat, k: nat, i: nat)
    requires Counted(s) && 1 <= d < |s| && 1 <= i < |s| && i != d && Linked(s[d]) && k < |s[d].ents| && s[d].ents[k].inum == i && s[d].ents[k].name != "."
    requires s[i].kind != Dir
    ensures Counted(UnlinkFrom(s, d, k, i, 0, s[i].nlink - 1))
  {
    var s' := UnlinkFrom(s, d, k, i, 0, s[i].nlink - 1);
    forall j | 1 <= j < |s'| ensures s'[j].nlink == Refs(s', j) {
      UnlinkRefs(s, d, k, i, 0, s[i].nlink - 1, j);
      PutPart(s[d], k, Ent(0, ""), j);
    }
  }

  /** All an empty directory has besides "." is "..". */
  lemma EmptyDirPart(s: seq<INode>, i: nat, j: nat)
    requires i < |s| && DirOk(s, i) && Linked(s[i]) && j >= 1 && forall k :: 2 <= k < |s[i].ents| ==> s[i].ents[k].inum == 0
    ensures Part(s[i], j) == if s[i].ents[1].inum == j then 1 else 0
  {
    if s[i].ents[1].inum == j {
      PointsOne(s[i].ents, j, 1);
    } else {
      PointsNone(s[i].ents, j);
    }
  }

  lemma UnlinkDirCounted(s: seq<INode>, d: nat, k: nat, i: nat)
    requires Counted(s) && 1 <= d < |s| && 1 <= i < |s| && i != d && Linked(s[d]) && k < |s[d].ents| && s[d].ents[k].inum == i && s[d].ents[k].name != "."
    requires DirOk(s, i) && Linked(s[i]) && s[i].nlink == 1 && s[i].ents[1].inum == d && s[d].nlink > 1
    requires forall m :: 2 <= m < |s[i].ents| ==> s[i].ents[m].inum == 0
    ensures Counted(UnlinkFrom(s, d, k, i, 1, 0))
  {
    var s' := UnlinkFrom(s, d, k, i, 1, 0);
    forall j | 1 <= j < |s'| ensures s'[j].nlink == Refs(s', j) {
      hide DirOk;
      UnlinkRefs(s, d, k, i, 1, 0, j);
      PutPart(s[d], k, Ent(0, ""), j);
      NlinkPart(PutEnt(s[d], k, Ent(0, "")), s[d].nlink - 1, j);
      EmptyDirPart(s, i, j);
    }
  }

  // ----- an empty directory has one link -----

  /** The only entry that leads to an empty directory is its own in its parent. */
  lemma OnlyEntry(s: seq<INode>, up: seq<(nat, nat)>, i: nat, e: nat, k: nat)
    requires Tree(s, up) && ROOT < i < |s| && Linked(s[i]) && (forall m :: 2 <= m < |s[i].ents| ==> s[i].ents[m].inum == 0)
    requires e < |s| && Linked(s[e]) && k < |s[e].ents| && Hit(s[e].ents[k], i) == 1
    ensures (e, k) == up[i]
  {
    assert DirOk(s, e) && DownOk(s, up, e) && UpOk(s, up, e);
  }

  lemma EmptyDirOnce(s: seq<INode>, up: seq<(nat, nat)>, i: nat)
    requires Tree(s, up) && Counted(s) && ROOT < i < |s| && Linked(s[i]) && forall m :: 2 <= m < |s[i].ents| ==> s[i].ents[m].inum == 0
    ensures s[i].nlink == 1
  {
    assert UpOk(s, up, i);
    var (p, k) := up[i];
    assert DirOk(s, p);
    forall e | 0 <= e < |s| && e != p ensures Part(s[e], i) == 0 {
      if Linked(s[e]) {
        forall m | 0 <= m < |s[e].ents| ensures Hit(s[e].ents[m], i) == 0 {
          if Hit(s[e].ents[m], i) == 1 {
            OnlyEntry(s, up, i, e, m);
          }
        }
        PointsNone(s[e].ents, i);
      }
    }
    forall m | 0 <= m < |s[p].ents| && m != k ensures Hit(s[p].ents[m], i) == 0 {
      if Hit(s[p].ents[m], i) == 1 {
        OnlyEntry(s, up, i, p, m);
      }
    }
    assert s[p].ents[0].name == "." && s[p].ents[0].inum != 0;
    PointsOne(s[p].ents, i, k);
    RefsOne(s, p, i);
  }

  lemma {:induction false} RefsTwo(s: seq<INode>, a: nat, b: nat, i: nat)
    requires a < b < |s|
    ensures Refs(s, i) >= Part(s[a], i) + Part(s[b], i)
  {
    var n := |s| - 1;
    if b == n {
      RefsAtLeast(s[..n], a, i);
    } else {
      RefsTwo(s[..n], a, b, i);
    }
  }

  /** The parent of an empty directory keeps a link when that goes: its own entry, or
      root's "..". */
  lemma ParentTwice(s: seq<INode>, up: seq<(nat, nat)>, i: nat, d: nat)
    requires Tree(s, up) && Counted(s) && ROOT < i < |s| && Linked(s[i]) && forall m :: 2 <= m < |s[i].ents| ==> s[i].ents[m].inum == 0
    requires 1 <= d < |s| && Linked(s[d]) && |s[i].ents| >= 2 && s[i].ents[1].inum == d
    ensures s[d].nlink > 1
  {
    assert DirOk(s, i) && DirOk(s, d) && UpOk(s, up, d);
    var q, k := if d == ROOT then ROOT else up[d].0, if d == ROOT then 1 else up[d].1;
    assert DirOk(s, q);
    PointsSome(s[i].ents, d, 1);
    assert s[q].ents[k].name != "." by {
      assert s[q].ents[0].inum != 0 && s[q].ents[k].inum != 0 && s[q].ents[0].name == ".";
    }
    PointsSome(s[q].ents, d, k);
    if q < i {
      RefsTwo(s, q, i, d);
    } else {
      RefsTwo(s, i, q, d);
    }
  }

  function Made(n: nat): (s: seq<INode>)
    ensures |s| == n && forall i :: 0 <= i < n ==> s[i] == if i == ROOT then NewDir(ROOT, ROOT) else INode(Free, 0, [])
  {
    seq(n, i => if i == ROOT then NewDir(ROOT, ROOT) else INode(Free, 0, []))
  }

  lemma MadeOk(n: nat, up: seq<(nat, nat)>)
    requires n > ROOT && |up| == n && forall i :: 0 <= i < n ==> up[i] == (0, 0)
    ensures Tree(Made(n), up) && Counted(Made(n))
  {
    var s := Made(n);
    NewUnique(ROOT, ROOT);
    forall j | 1 <= j < n ensures s[j].nlink == Refs(s, j) {
      RefsOne(s, ROOT, j);
      NewDirPart(ROOT, ROOT, j);
    }
    forall x | 0 <= x < n ensures DirOk(s, x) && DownOk(s, up, x) && UpOk(s, up, x) {}
  }

  /** Names that can go into a new root directory. */
  ghost predicate NewNames(names: seq<string>) {
    (forall i :: 0 <= i < |names| ==> names[i] != "." && names[i] != "..") && forall i, j :: 0 <= i < j < |names| ==> names[i] != names[j]
  }

  /** mkfs adds one file after the other. */
  function MadeWith(n: nat, names: seq<string>): (s: seq<INode>)
    requires |names| + 2 <= n
    ensures |s| == n && |s[ROOT].ents| == 2 + |names| && forall i :: 2 + |names| <= i < n ==> s[i] == INode(Free, 0, [])
  {
    if names == [] then Made(n) else
      var m := |names| - 1;
      CreateIn(MadeWith(n, names[..m]), ROOT, m + 2, names[m], m + 2, INode(File, 1, []), 0)
  }

  lemma {:induction false} MadeWithOk(n: nat, names: seq<string>, up: seq<(nat, nat)>)
    requires |names| + 2 <= n && NewNames(names) && |up| == n && forall i :: 0 <= i < n ==> up[i] == (0, 0)
    ensures var s := MadeWith(n, names); Tree(s, up) && Counted(s)
    decreases |names|
  {
    hide Tree, Counted;
    if names == [] {
      MadeOk(n, up);
    } else {
      var m := |names| - 1;
      MadeWithOk(n, names[..m], up);
      RootNames(n, names[..m]);
      TreeRoot(MadeWith(n, names[..m]), up);
      CreateKeeps(MadeWith(n, names[..m]), up, ROOT, m + 2, names[m], m + 2, File);
    }
  }

  lemma {:induction false} RootNames(n: nat, names: seq<string>)
    requires |names| + 2 <= n
    ensures var e := MadeWith(n, names)[ROOT].ents;
      e[0].name == "." && e[1].name == ".." && forall k :: 2 <= k < 2 + |names| ==> e[k].name == names[k - 2]
    decreases |names|
  {
    if names != [] {
      RootNames(n, names[..|names| - 1]);
    }
  }

  lemma TreeRoot(s: seq<INode>, up: seq<(nat, nat)>)
    requires Tree(s, up)
    ensures Linked(s[ROOT])
  {
  }

  /** An inode is allocated exactly if a link or a process refers to it. */
  ghost predicate Kept(s: seq<INode>, held: seq<nat>) { |held| == |s| && forall i :: 1 <= i < |s| ==> KeptOne(s[i], held[i]) }

  ghost predicate KeptOne(x: INode, held: nat) { x.nlink >= 0 && (x.kind == Free <==> x.nlink == 0 && held == 0) }

  lemma {:induction false} MadeKept(n: nat, names: seq<string>)
    requires |names| + 2 <= n
    ensures Kept(MadeWith(n, names), seq(n, _ => 0))
    decreases |names|
  {
    if names != [] {
      MadeKept(n, names[..|names| - 1]);
    }
  }

  ghost predicate HasFree(s: seq<INode>) { exists i :: 1 <= i < |s| && s[i].kind == Free }

  ghost predicate HasGap(ents: seq<Ent>) { exists m :: 0 <= m < |ents| && ents[m].inum == 0 }

  class Namespace {
    var inodes: seq<INode>
    var held: seq<nat>               // references from open files and current directories
    ghost var up: seq<(nat, nat)>

    ghost predicate Valid()
      reads this
    {
      Tree(inodes, up) && Counted(inodes) && Kept(inodes, held)
    }

    /** What mkfs makes: a root directory with a file for each name, and free inodes. */
    constructor (n: nat, names: seq<string>)
      requires |names| + 2 <= n && NewNames(names)
      ensures Valid() && inodes == MadeWith(n, names) && held == seq(n, _ => 0)
    {
      inodes, held, up := MadeWith(n, names), seq(n, _ => 0), seq(n, _ => (0, 0));
      MadeWithOk(n, names, seq(n, _ => (0, 0)));
      MadeKept(n, names);
    }

    /** A process opens the inode or makes it its current directory. */
    method Hold(i: nat)
      requires Valid() && 1 <= i < |inodes| && inodes[i].kind != Free
      modifies this`held
      ensures Valid() && held == old(held)[i := old(held)[i] + 1]
    {
      held := held[i := held[i] + 1];
    }

    /** iput of such a reference: the last one frees an inode without links. */
    method Drop(i: nat)
      requires Valid() && 1 <= i < |inodes| && held[i] > 0
      modifies this`held, this`inodes
      ensures Valid() && held == old(held)[i := old(held)[i] - 1]
      ensures inodes == if old(inodes)[i].nlink == 0 && held[i] == 0 then old(inodes)[i := INode(Free, 0, [])] else old(inodes)
    {
      held := held[i := held[i] - 1];
      if i > ROOT {
        IputKeeps(inodes, up, i);
      }
      hide Counted, DirOk, DownOk, UpOk;
      Iput(i);
    }

    /** dirlookup: the slot of a name. */
    method DirLookup(d: nat, name: string) returns (k: Option<nat>)
      requires d < |inodes|
      ensures k.None? <==> Absent(inodes[d].ents, name)
      ensures k.Some? ==> k.value < |inodes[d].ents| && inodes[d].ents[k.value].inum != 0 && inodes[d].ents[k.value].name == name
    {
      var j := 0;
      while j < |inodes[d].ents|
        invariant 0 <= j <= |inodes[d].ents| && forall m :: 0 <= m < j && inodes[d].ents[m].inum != 0 ==> inodes[d].ents[m].name != name
      {
        if inodes[d].ents[j].inum != 0 && inodes[d].ents[j].name == name {
          return Some(j);
        }
        j := j + 1;
      }
      k := None;
    }

    /** dirlink: enter (name, i) into the first empty slot, or at the end if there is room.
        Fails, with nothing changed, exactly if the name is there or the directory would
        have to grow and cannot. */
    method DirLink(d: nat, name: string, i: nat, room: bool) returns (ok: bool, ghost k: nat)
      requires d < |inodes|
      modifies this`inodes
      ensures ok <==> Absent(old(inodes)[d].ents, name) && (room || HasGap(old(inodes)[d].ents))
      ensures !ok ==> inodes == old(inodes)
      ensures ok ==> EmptySlot(old(inodes)[d].ents, k) && inodes == old(inodes)[d := PutEnt(old(inodes)[d], k, Ent(i, name))]
    {
      var found := DirLookup(d, name);
      if found.Some? {
        return false, 0;
      }
      var j := 0;
      while j < |inodes[d].ents| && inodes[d].ents[j].inum != 0
        invariant 0 <= j <= |inodes[d].ents| && forall m :: 0 <= m < j ==> inodes[d].ents[m].inum != 0
      {
        j := j + 1;
      }
      if j == |inodes[d].ents| && !room {
        return false, 0;
      }
      inodes := inodes[d := PutEnt(inodes[d], j, Ent(i, name))];
      return true, j;
    }

    /** isdirempty: nothing but "." and "..". */
    method IsDirEmpty(d: nat) returns (empty: bool)
      requires d < |inodes|
      ensures empty <==> forall k :: 2 <= k < |inodes[d].ents| ==> inodes[d].ents[k].inum == 0
    {
      var j := 2;
      while j < |inodes[d].ents|
        invariant 2 <= j && forall k :: 2 <= k < j && k < |inodes[d].ents| ==> inodes[d].ents[k].inum == 0
      {
        if inodes[d].ents[j].inum != 0 {
          return false;
        }
        j := j + 1;
      }
      empty := true;
    }

    /** ialloc: the first free inode. */
    method FindFree() returns (n: Option<nat>)
      ensures n.Some? <==> HasFree(inodes)
      ensures n.Some? ==> 1 <= n.value < |inodes| && inodes[n.value].kind == Free
    {
      var i := 1;
      while i < |inodes|
        invariant 1 <= i && forall m :: 1 <= m < i && m < |inodes| ==> inodes[m].kind != Free
      {
        if inodes[i].kind == Free {
          return Some(i);
        }
        i := i + 1;
      }
      n := None;
    }

    /** iput of the operation's own reference: an inode that no entry and no process refers
        to is freed. */
    method Iput(i: nat)
      requires i < |inodes| == |held|
      modifies this`inodes
      ensures inodes == if old(inodes)[i].nlink == 0 && held[i] == 0 then old(inodes)[i := INode(Free, 0, [])] else old(inodes)
    {
      if inodes[i].nlink == 0 && held[i] == 0 {
        inodes := inodes[i := INode(Free, 0, [])];
      }
    }

    /** sys_link: another name for file i in directory d. On failure everything is as
        before; otherwise link counts stay right exactly if d is itself linked. */
    method Link(i: nat, d: nat, name: string, room: bool) returns (ok: bool)
      requires Valid() && 1 <= i < |inodes| && 1 <= d < |inodes| && inodes[i].kind != Free && inodes[d].kind == Dir
      modifies this`inodes
      ensures !ok ==> inodes == old(inodes)
      ensures ok <==> old(inodes)[i].kind != Dir && Absent(old(inodes)[d].ents, name) && (room || HasGap(old(inodes)[d].ents))
      ensures ok ==> exists k :: EmptySlot(old(inodes)[d].ents, k) && inodes == LinkTo(old(inodes), d, k, name, i)
      ensures ok ==> (Counted(inodes) <==> Linked(old(inodes)[d]))
      ensures Kept(inodes, held)
      ensures ok && Linked(old(inodes)[d]) ==> Valid()
    {
      hide Tree, Counted, Absent;
      if inodes[i].kind == Dir {
        return false;
      }
      ghost var s := inodes;
      inodes := inodes[i := inodes[i].(nlink := inodes[i].nlink + 1)];
      ghost var k;
      ok, k := DirLink(d, name, i, room);
      if !ok {
        inodes := inodes[i := inodes[i].(nlink := inodes[i].nlink - 1)];
        assert inodes == s;
        return;
      }
      LinkKeeps(s, up, d, k, name, i);
    }

    /** sys_unlink: remove a name, and the inode with its last reference. None is a failure
        that changes nothing; the panic on a link count below 1 cannot happen. */
    method Unlink(d: nat, name: string) returns (gone: Option<nat>)
      requires Valid() && 1 <= d < |inodes| && inodes[d].kind == Dir
      modifies this`inodes
      ensures Valid()
      ensures gone.None? ==> inodes == old(inodes)
      ensures gone.None? <==> name == "." || name == ".." || Absent(old(inodes)[d].ents, name) || HoldsDir(old(inodes), d, name)
      ensures gone.Some? ==> gone.value < |inodes| && Absent(inodes[d].ents, name) && !Absent(old(inodes)[d].ents, name)
      ensures gone.Some? ==> exists k :: Removed(old(inodes), inodes, held, d, k, name, gone.value)
    {
      hide Tree, Counted, Absent;
      if name == "." || name == ".." {
        return None;
      }
      var k := DirLookup(d, name);
      if k.None? {
        return None;
      }
      var i := inodes[d].ents[k.value].inum;
      UnlinkTarget(inodes, up, d, k.value);
      HoldsIff(inodes, up, d, k.value, name);
      if inodes[i].nlink < 1 {
        assert false;   // panic("unlink: nlink < 1")
      }
      if inodes[i].kind == Dir {
        var empty := IsDirEmpty(i);
        if !empty {
          return None;
        }
        EmptyDirOnce(inodes, up, i);
      }
      ghost var s := inodes;
      var dir := inodes[i].kind == Dir;
      UnlinkKeeps(s, up, d, k.value, i, name);
      inodes := inodes[d := PutEnt(inodes[d], k.value, Ent(0, ""))];
      if dir {
        inodes := inodes[d := inodes[d].(nlink := inodes[d].nlink - 1)];
      }
      inodes := inodes[i := inodes[i].(nlink := inodes[i].nlink - 1)];
      ghost var s1 := UnlinkFrom(s, d, k.value, i, if dir then 1 else 0, s[i].nlink - 1);
      assert inodes == s1;
      IputKeeps(s1, up, i);
      Iput(i);
      assert Removed(s, inodes, held, d, k.value, name, i);
      gone := Some(i);
    }

    /** The first entries of a new directory. */
    method DotEntries(n: nat, d: nat, roomDot: bool, roomUp: bool) returns (ok: bool)
      requires 0 < n < |inodes| && inodes[n] == INode(Dir, 1, [])
      modifies this`inodes
      ensures |inodes| == |old(inodes)| && inodes == old(inodes)[n := inodes[n]]
      ensures ok <==> roomDot && roomUp
      ensures ok ==> inodes[n] == NewDir(n, d)
    {
      ghost var k;
      ok, k := DirLink(n, ".", n, roomDot);
      if ok {
        assert inodes[n].ents == [Ent(n, ".")];
        ok, k := DirLink(n, "..", d, roomUp);
      }
    }

    /** create for a name that is not there. */
    method CreateNew(d: nat, name: string, kind: Kind, roomDot: bool, roomUp: bool, room: bool) returns (r: Option<nat>)
      requires Valid() && 1 <= d < |inodes| && inodes[d].kind == Dir && kind != Free && Absent(inodes[d].ents, name)
      modifies this`inodes, this`up
      ensures r.None? ==> inodes == old(inodes) && up == old(up)
      ensures r.Some? <==> HasFree(old(inodes)) && (kind == Dir ==> roomDot && roomUp) && (room || HasGap(old(inodes)[d].ents))
      ensures r.Some? ==> 1 <= r.value < |old(inodes)| && old(inodes)[r.value].kind == Free && r.value != d
      ensures r.Some? ==> exists k :: EmptySlot(old(inodes)[d].ents, k) && inodes == CreateIn(old(inodes), d, k, name, r.value, Fresh(r.value, d, kind), if kind == Dir then 1 else 0)
      ensures r.Some? ==> (Counted(inodes) <==> Linked(old(inodes)[d]))
      ensures Kept(inodes, held)
      ensures r.Some? && Linked(old(inodes)[d]) ==> Valid()
    {
      hide Tree, Counted, Absent, Kept, CreateIn, Linked, HasFree, HasGap;
      var n := FindFree();
      if n.None? {
        return None;
      }
      ghost var s := inodes;
      FreeRecord(s, up, n.value);
      KeptAt(s, held, n.value);
      inodes := inodes[n.value := INode(kind, 1, [])];
      var ok := true;
      ghost var slot;
      if kind == Dir {
        ok := DotEntries(n.value, d, roomDot, roomUp);
      }
      if ok {
        ok, slot := DirLink(d, name, n.value, room);
      }
      if !ok {
        inodes := inodes[n.value := inodes[n.value].(nlink := 0)];
        Iput(n.value);
        assert inodes == s;
        return None;
      }
      if kind == Dir {
        inodes := inodes[d := inodes[d].(nlink := inodes[d].nlink + 1)];
        up := up[n.value := (d, slot)];
      }
      CreatedIs(s, inodes, d, slot, name, n.value, kind);
      CreateKept(s, held, d, slot, name, n.value, kind);
      CreateKeeps(s, old(up), d, slot, name, n.value, kind);
      r := n;
    }

    /** create: a new file, device or directory, or the file that is there. None is a
        failure and changes nothing, whether an inode, an entry of the new directory or the
        entry in d could not be had. Otherwise link counts stay right exactly if d is
        itself linked. For a name that is there the answer is its inode, if that is a file
        or device and a file is asked for. rooms: whether the new directory and d can grow. */
    method Create(d: nat, name: string, kind: Kind, roomDot: bool, roomUp: bool, room: bool) returns (r: Option<nat>, made: bool)
      requires Valid() && 1 <= d < |inodes| && inodes[d].kind == Dir && kind != Free
      modifies this`inodes, this`up
      ensures !made ==> inodes == old(inodes) && up == old(up)
      ensures made <==> Absent(old(inodes)[d].ents, name) && HasFree(old(inodes)) && (kind == Dir ==> roomDot && roomUp) && (room || HasGap(old(inodes)[d].ents))
      ensures Absent(old(inodes)[d].ents, name) ==> (r.Some? <==> made)
      ensures forall k: nat :: Names(old(inodes), d, k, name) ==> r == OpenOld(old(inodes), old(inodes)[d].ents[k].inum, kind)
      ensures made ==> r.Some? && 1 <= r.value < |old(inodes)| && old(inodes)[r.value].kind == Free && r.value != d
      ensures made ==> exists k :: EmptySlot(old(inodes)[d].ents, k) && inodes == CreateIn(old(inodes), d, k, name, r.value, Fresh(r.value, d, kind), if kind == Dir then 1 else 0)
      ensures made ==> (Counted(inodes) <==> Linked(old(inodes)[d]))
      ensures Kept(inodes, held)
      ensures made && Linked(old(inodes)[d]) ==> Valid()
    {
      hide Tree, Counted, Absent, Kept, CreateIn, Linked, HasFree, HasGap;
      var k := DirLookup(d, name);
      if k.None? {
        NoName(inodes, d, name);
        r := CreateNew(d, name, kind, roomDot, roomUp, room);
        return r, r.Some?;
      }
      var i := inodes[d].ents[k.value].inum;
      EntryBound(inodes, up, d, k.value);
      OneName(inodes, up, d, k.value, name);
      if kind == File && (inodes[i].kind == File || inodes[i].kind == Device) {
        return Some(i), false;
      }
      return None, false;
    }
  }

  function Fresh(n: nat, d: nat, kind: Kind): INode { if kind == Dir then NewDir(n, d) else INode(kind, 1, []) }

  lemma KeptAt(s: seq<INode>, held: seq<nat>, n: nat)
    requires Kept(s, held) && 1 <= n < |s| && s[n].kind == Free
    ensures |held| == |s| && held[n] == 0
  {
  }

  lemma CreatedIs(s: seq<INode>, s': seq<INode>, d: nat, k: nat, name: string, n: nat, kind: Kind)
    requires d < |s| && n < |s| && n != d && EmptySlot(s[d].ents, k)
    requires var t := s[n := Fresh(n, d, kind)]; var u := t[d := PutEnt(t[d], k, Ent(n, name))];
      s' == if kind == Dir then u[d := u[d].(nlink := u[d].nlink + 1)] else u
    ensures s' == CreateIn(s, d, k, name, n, Fresh(n, d, kind), if kind == Dir then 1 else 0)
  {
  }

  lemma CreateKept(s: seq<INode>, held: seq<nat>, d: nat, k: nat, name: string, n: nat, kind: Kind)
    requires Kept(s, held) && 1 <= d < |s| && 1 <= n < |s| && n != d && s[d].kind != Free && kind != Free && EmptySlot(s[d].ents, k)
    ensures Kept(CreateIn(s, d, k, name, n, Fresh(n, d, kind), if kind == Dir then 1 else 0), held)
  {
  }

  /** Slot k of directory d is in use for this name. */
  ghost predicate Names(s: seq<INode>, d: nat, k: nat, name: string) {
    d < |s| && k < |s[d].ents| && s[d].ents[k].inum != 0 && s[d].ents[k].name == name
  }

  /** What create answers for a name that leads to inode i. */
  function OpenOld(s: seq<INode>, i: nat, kind: Kind): Option<nat> {
    if kind == File && i < |s| && (s[i].kind == File || s[i].kind == Device) then Some(i) else None
  }

  lemma OneName(s: seq<INode>, up: seq<(nat, nat)>, d: nat, k: nat, name: string)
    requires Tree(s, up) && 1 <= d < |s| && s[d].kind == Dir && Names(s, d, k, name)
    ensures forall j: nat :: Names(s, d, j, name) ==> j == k
  {
    assert DirOk(s, d);
  }

  lemma NoName(s: seq<INode>, d: nat, name: string)
    requires d < |s| && Absent(s[d].ents, name)
    ensures forall k: nat :: !Names(s, d, k, name)
  {
  }

  /** The name leads to a directory that holds more than "." and "..". */
  ghost predicate HoldsDir(s: seq<INode>, d: nat, name: string)
    requires d < |s|
  {
    exists k :: 0 <= k < |s[d].ents| && s[d].ents[k].inum != 0 && s[d].ents[k].name == name && FullDir(s, s[d].ents[k].inum)
  }

  ghost predicate FullDir(s: seq<INode>, i: nat) {
    i < |s| && s[i].kind == Dir && exists m :: 2 <= m < |s[i].ents| && s[i].ents[m].inum != 0
  }

  /** A name leads to one place. */
  lemma HoldsIff(s: seq<INode>, up: seq<(nat, nat)>, d: nat, k: nat, name: string)
    requires Tree(s, up) && 1 <= d < |s| && s[d].kind == Dir && k < |s[d].ents| && s[d].ents[k].inum != 0 && s[d].ents[k].name == name
    ensures HoldsDir(s, d, name) <==> FullDir(s, s[d].ents[k].inum)
  {
    assert DirOk(s, d);
    hide Tree, FullDir;
    if HoldsDir(s, d, name) {
      var j :| 0 <= j < |s[d].ents| && s[d].ents[j].inum != 0 && s[d].ents[j].name == name && FullDir(s, s[d].ents[j].inum);
      assert j == k;
    }
  }

  /** What unlink has done: the entry is empty, the counts are one less, and the inode is
      free if nothing refers to it. */
  ghost predicate Removed(s: seq<INode>, s': seq<INode>, held: seq<nat>, d: nat, k: nat, name: string, i: nat) {
    d < |s| && i < |s| == |held| && k < |s[d].ents| && s[d].ents[k] == Ent(i, name) && i != d &&
    var s1 := UnlinkFrom(s, d, k, i, if s[i].kind == Dir then 1 else 0, s[i].nlink - 1);
    s' == if s1[i].nlink == 0 && held[i] == 0 then s1[i := INode(Free, 0, [])] else s1
  }

  lemma LinkKeeps(s: seq<INode>, up: seq<(nat, nat)>, d: nat, k: nat, name: string, i: nat)
    requires Tree(s, up) && Counted(s) && 1 <= d < |s| && 1 <= i < |s| && i != d && s[d].kind == Dir && s[i].kind != Dir && s[i].kind != Free
    requires EmptySlot(s[d].ents, k) && Absent(s[d].ents, name)
    ensures Counted(LinkTo(s, d, k, name, i)) <==> Linked(s[d])
    ensures Linked(s[d]) ==> Tree(LinkTo(s, d, k, name, i), up)
  {
    assert DirOk(s, d);
    NewName(s, d, k, name);
    if Linked(s[d]) {
      LinkCounted(s, d, k, name, i);
      TreeNlink(s, up, i, s[i].nlink + 1);
      TreePut(s[i := s[i].(nlink := s[i].nlink + 1)], up, d, k, Ent(i, name));
    } else {
      LinkUncounted(s, d, k, name, i);
    }
  }

  lemma EntryBound(s: seq<INode>, up: seq<(nat, nat)>, d: nat, k: nat)
    requires Tree(s, up) && d < |s| && s[d].kind == Dir && k < |s[d].ents|
    ensures s[d].ents[k].inum < |s|
  {
    assert DirOk(s, d);
  }

  lemma FreeRecord(s: seq<INode>, up: seq<(nat, nat)>, n: nat)
    requires Tree(s, up) && n < |s| && s[n].kind == Free
    ensures s[n] == INode(Free, 0, []) && n != ROOT && |up| == |s|
  {
  }

  lemma CreateKeeps(s: seq<INode>, up: seq<(nat, nat)>, d: nat, k: nat, name: string, n: nat, kind: Kind)
    requires Tree(s, up) && Counted(s) && 1 <= d < |s| && s[d].kind == Dir && 1 <= n < |s| && s[n].kind == Free && kind != Free && |up| == |s|
    requires EmptySlot(s[d].ents, k) && Absent(s[d].ents, name)
    ensures var s' := CreateIn(s, d, k, name, n, Fresh(n, d, kind), if kind == Dir then 1 else 0);
      (Counted(s') <==> Linked(s[d])) && (Linked(s[d]) ==> Tree(s', if kind == Dir then up[n := (d, k)] else up))
  {
    FreeRecord(s, up, n);
    assert DirOk(s, d);
    NewName(s, d, k, name);
    hide Tree, Counted, DirOk, Absent;
    if !Linked(s[d]) {
      if kind == Dir {
        NotNegative(s, d);
        CreateDirUncounted(s, d, k, name, n);
      } else {
        CreateFileUncounted(s, d, k, name, n, Fresh(n, d, kind));
      }
    } else if kind == Dir {
      CreateDirCounted(s, d, k, name, n);
      CreateDirTree(s, up, d, k, name, n);
    } else {
      CreateFileCounted(s, d, k, name, n, Fresh(n, d, kind));
      NoDirYet(s, d, k, name, n);
      TreePut(s, up, d, k, Ent(n, name));
      TreeSet(s[d := PutEnt(s[d], k, Ent(n, name))], up, n, Fresh(n, d, kind));
      assert s[d] == s[d].(nlink := s[d].nlink + 0);
    }
  }

  lemma NotNegative(s: seq<INode>, d: nat)
    requires Counted(s) && 1 <= d < |s| && s[d].kind == Dir && !Linked(s[d])
    ensures s[d].nlink == 0
  {
  }

  lemma NoDirYet(s: seq<INode>, d: nat, k: nat, name: string, n: nat)
    requires 1 <= d < |s| && Linked(s[d]) && EmptySlot(s[d].ents, k) && k >= 2 && Absent(s[d].ents, name) && n < |s| && s[n].kind == Free
    ensures CanPut(s, d, k, Ent(n, name))
  {
  }

  lemma CreateDirTree(s: seq<INode>, up: seq<(nat, nat)>, d: nat, k: nat, name: string, n: nat)
    requires Tree(s, up) && Counted(s) && 1 <= d < |s| && Linked(s[d]) && ROOT < n < |s| && s[n] == INode(Free, 0, []) && |up| == |s|
    requires EmptySlot(s[d].ents, k) && k >= 2 && Absent(s[d].ents, name)
    ensures Tree(CreateIn(s, d, k, name, n, NewDir(n, d), 1), up[n := (d, k)])
  {
    NoDirYet(s, d, k, name, n);
    TreePut(s, up, d, k, Ent(n, name));
    var s1 := s[d := PutEnt(s[d], k, Ent(n, name))];
    forall x, j | 0 <= x < |s1| && Linked(s1[x]) && 2 <= j < |s1[x].ents| && s1[x].ents[j].inum == n ensures x == d && j == k {
      if !(x == d && j == k) {
        NoEntry(s, up, n, x, j);
      }
    }
    hide Tree, Counted, Absent;
    TreeNewDir(s1, up, n, d, k);
    var s2 := s1[n := NewDir(n, d)];
    TreeNlink(s2, up[n := (d, k)], d, s[d].nlink + 1);
    assert s2[d := s2[d].(nlink := s[d].nlink + 1)] == CreateIn(s, d, k, name, n, NewDir(n, d), 1);
  }

  /** Nothing leads to an inode without links. */
  lemma NoEntry(s: seq<INode>, up: seq<(nat, nat)>, n: nat, x: nat, j: nat)
    requires Tree(s, up) && Counted(s) && 1 <= n < |s| && s[n].nlink == 0 && x < |s| && Linked(s[x]) && 2 <= j < |s[x].ents|
    ensures s[x].ents[j].inum != n
  {
    assert DirOk(s, x);
    if s[x].ents[j].inum == n {
      PointsSome(s[x].ents, n, j);
      RefsAtLeast(s, x, n);
    }
  }

  /** What a name other than "." and ".." leads to. */
  lemma UnlinkTarget(s: seq<INode>, up: seq<(nat, nat)>, d: nat, k: nat)
    requires Tree(s, up) && Counted(s) && 1 <= d < |s| && s[d].kind == Dir && k < |s[d].ents| && s[d].ents[k].inum != 0
    requires s[d].ents[k].name != "." && s[d].ents[k].name != ".."
    ensures k >= 2 && Linked(s[d]) && ROOT < s[d].ents[k].inum < |s| && s[d].ents[k].inum != d
    ensures s[s[d].ents[k].inum].nlink >= 1 && s[s[d].ents[k].inum].kind != Free
    ensures s[s[d].ents[k].inum].kind == Dir ==> |s[s[d].ents[k].inum].ents| >= 2 && s[s[d].ents[k].inum].ents[1].inum == d
  {
    assert DirOk(s, d) && DownOk(s, up, d) && UpOk(s, up, d);
    var i := s[d].ents[k].inum;
    PointsSome(s[d].ents, i, k);
    RefsAtLeast(s, d, i);
    assert s[d].nlink == Refs(s, d);
    assert UpOk(s, up, i) && DirOk(s, i);
  }

  lemma UnlinkKeeps(s: seq<INode>, up: seq<(nat, nat)>, d: nat, k: nat, i: nat, name: string)
    requires Tree(s, up) && Counted(s) && 1 <= d < |s| && Linked(s[d]) && 2 <= k < |s[d].ents| && s[d].ents[k] == Ent(i, name) && name != "." && ROOT < i < |s| && i != d
    requires s[i].nlink >= 1 && s[i].kind != Free
    requires s[i].kind == Dir ==> s[i].nlink == 1 && |s[i].ents| >= 2 && s[i].ents[1].inum == d && forall m :: 2 <= m < |s[i].ents| ==> s[i].ents[m].inum == 0
    ensures var s1 := UnlinkFrom(s, d, k, i, if s[i].kind == Dir then 1 else 0, s[i].nlink - 1);
      Tree(s1, up) && Counted(s1) && Absent(s1[d].ents, name) && !Absent(s[d].ents, name) && Linked(s1[d])
  {
    assert DirOk(s, d) && DirOk(s, i);
    hide Tree, Counted;
    if s[i].kind == Dir {
      ParentTwice(s, up, i, d);
      UnlinkDirCounted(s, d, k, i);
      TreeKill(s, up, i);
      var s2 := s[i := s[i].(nlink := 0)];
      TreePut(s2, up, d, k, Ent(0, ""));
      var s3 := s2[d := PutEnt(s2[d], k, Ent(0, ""))];
      TreeNlink(s3, up, d, s[d].nlink - 1);
      assert s3[d := s3[d].(nlink := s[d].nlink - 1)] == UnlinkFrom(s, d, k, i, 1, 0);
    } else {
      UnlinkFileCounted(s, d, k, i);
      TreeNlink(s, up, i, s[i].nlink - 1);
      var s2 := s[i := s[i].(nlink := s[i].nlink - 1)];
      TreePut(s2, up, d, k, Ent(0, ""));
      assert s2[d := PutEnt(s2[d], k, Ent(0, ""))] == UnlinkFrom(s, d, k, i, 0, s[i].nlink - 1);
    }
  }

  lemma IputKeeps(s: seq<INode>, up: seq<(nat, nat)>, i: nat)
    requires Tree(s, up) && Counted(s) && ROOT < i < |s|
    ensures s[i].nlink == 0 ==> Tree(s[i := INode(Free, 0, [])], up) && Counted(s[i := INode(Free, 0, [])])
  {
    if s[i].nlink == 0 {
      TreeSet(s, up, i, INode(Free, 0, []));
      var s' := s[i := INode(Free, 0, [])];
      forall j | 1 <= j < |s'| ensures s'[j].nlink == Refs(s', j) {
        RefsSet(s, i, INode(Free, 0, []), j);
      }
    }
  }

  /** The failing case arises: a process keeps a directory open, its name is removed, and a
      file is created in it. */
  method OpenUnlinked() returns (ns: Namespace, d: nat)
    ensures fresh(ns) && d < |ns.inodes| && ns.inodes[d].kind == Dir && ns.inodes[d].nlink == 0 && !Counted(ns.inodes)
  {
    hide Tree, Counted, Kept;
    ns := new Namespace(4, []);
    ghost var s0 := ns.inodes;
    assert s0 == Made(4) && s0[2].kind == Free;
    var r, made := ns.Create(ROOT, "a", Dir, true, true, true);
    d := r.value;
    ghost var s1 := ns.inodes;
    OneMore(s0, s1, d);
    ns.Hold(d);
    var gone := ns.Unlink(ROOT, "a");
    assert s1[ROOT].ents[2] == Ent(d, "a");
    ghost var s2 := ns.inodes;
    OneLess(s1, s2, ns.held, d, gone.value);
    assert s2[if d == 2 then 3 else 2].kind == Free;
    var file, isNew := ns.Create(d, "b", File, true, true, true);
  }

  lemma OneMore(s: seq<INode>, s': seq<INode>, d: nat)
    requires s == Made(4) && 1 <= d < 4 && s[d].kind == Free && d != ROOT
    requires exists k :: EmptySlot(s[ROOT].ents, k) && s' == CreateIn(s, ROOT, k, "a", d, NewDir(d, ROOT), 1)
    ensures |s'| == 4 && s'[ROOT].ents == NewDir(ROOT, ROOT).ents + [Ent(d, "a")] && s'[ROOT].kind == Dir && s'[d] == NewDir(d, ROOT)
    ensures forall i :: 2 <= i < 4 && i != d ==> s'[i].kind == Free
    ensures !Absent(s'[ROOT].ents, "a") && !HoldsDir(s', ROOT, "a")
  {
    var k :| EmptySlot(s[ROOT].ents, k) && s' == CreateIn(s, ROOT, k, "a", d, NewDir(d, ROOT), 1);
    assert k == 2;
    assert s'[ROOT].ents[2] == Ent(d, "a");
  }

  lemma OneLess(s: seq<INode>, s': seq<INode>, held: seq<nat>, d: nat, i: nat)
    requires |s| == 4 && 2 <= d < 4 && s[ROOT].ents == NewDir(ROOT, ROOT).ents + [Ent(d, "a")] && s[d] == NewDir(d, ROOT) && |held| == 4 && held[d] > 0
    requires exists k :: Removed(s, s', held, ROOT, k, "a", i)
    ensures |s'| == 4 && s'[d] == NewDir(d, ROOT).(nlink := 0) && forall j :: 2 <= j < 4 && j != d ==> s'[j] == s[j]
    ensures Absent(s'[d].ents, "b")
  {
    var k :| Removed(s, s', held, ROOT, k, "a", i);
    assert k == 2 && i == d;
  }
}
