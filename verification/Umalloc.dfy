/** The user-level allocator: a circular, address-ordered list of free blocks. Addresses
    and sizes count units of one header. */
module Umalloc {
  import opened Wrappers

  const UNIT: nat := 16          // sizeof(Header)
  const UINTLIMIT: nat := 0x1_0000_0000
  const INTLIMIT: nat := 0x8000_0000
  const MINCORE: nat := 4096     // units morecore asks for at least

  // ----- the free list -----

  /** The block after index k, around the circle. */
  function After(ring: seq<nat>, k: nat): nat
    requires k < |ring|
  {
    if k == |ring| - 1 then ring[0] else ring[k + 1]
  }

  predicate Linked(ring: seq<nat>, ptr: map<nat, nat>) { forall k :: 0 <= k < |ring| ==> ring[k] in ptr && ptr[ring[k]] == After(ring, k) }

  predicate Known(s: seq<nat>, size: map<nat, nat>) { forall k :: 0 <= k < |s| ==> s[k] in size }

  /** In address order, with a gap after each block: no two free blocks touch. */
  predicate Ordered(ring: seq<nat>, size: map<nat, nat>)
    requires Known(ring, size)
  {
    forall j, k :: 0 <= j < k < |ring| ==> ring[j] + size[ring[j]] < ring[k]
  }

  predicate Sized(ring: seq<nat>, size: map<nat, nat>, base: nat)
    requires Known(ring, size)
  {
    |ring| > 0 && ring[0] == base && size[base] == 0 && forall k :: 0 < k < |ring| ==> size[ring[k]] > 0
  }

  predicate Below(ring: seq<nat>, size: map<nat, nat>, top: nat)
    requires Known(ring, size)
  {
    forall k :: 0 <= k < |ring| ==> ring[k] + size[ring[k]] <= top
  }

  // ----- live blocks -----

  predicate Apart(a: nat, b: nat, size: map<nat, nat>)
    requires a in size && b in size
  {
    a + size[a] <= b || b + size[b] <= a
  }

  predicate LiveApart(lives: seq<nat>, size: map<nat, nat>)
    requires Known(lives, size)
  {
    forall i, j :: 0 <= i < j < |lives| ==> Apart(lives[i], lives[j], size)
  }

  predicate FreeApart(ring: seq<nat>, lives: seq<nat>, size: map<nat, nat>)
    requires Known(ring, size) && Known(lives, size)
  {
    forall k, i :: 0 <= k < |ring| && 0 <= i < |lives| ==> Apart(ring[k], lives[i], size)
  }

  predicate Bounded(s: seq<nat>, size: map<nat, nat>, base: nat, top: nat)
    requires Known(s, size)
  {
    forall k :: 0 <= k < |s| ==> base < s[k] && size[s[k]] > 0 && s[k] + size[s[k]] <= top
  }

  function Sum(s: seq<nat>, size: map<nat, nat>): nat
    requires Known(s, size)
  {
    if s == [] then 0 else assert s[|s| - 1] in size; Sum(s[..|s| - 1], size) + size[s[|s| - 1]]
  }

  lemma KnownConcat(a: seq<nat>, b: seq<nat>, size: map<nat, nat>)
    requires Known(a, size) && Known(b, size)
    ensures Known(a + b, size)
  {
  }

  lemma KnownPart(s: seq<nat>, size: map<nat, nat>, i: nat, j: nat)
    requires Known(s, size) && i <= j <= |s|
    ensures Known(s[i..j], size)
  {
  }

  lemma SumFront(s: seq<nat>, size: map<nat, nat>)
    requires Known(s, size) && s != []
    ensures Known(s[..|s| - 1], size) && s[|s| - 1] in size && Sum(s, size) == Sum(s[..|s| - 1], size) + size[s[|s| - 1]]
  {
  }

  lemma {:induction false} SumConcat(a: seq<nat>, b: seq<nat>, size: map<nat, nat>)
    requires Known(a, size) && Known(b, size)
    ensures Known(a + b, size) && Sum(a + b, size) == Sum(a, size) + Sum(b, size)
    decreases |b|
  {
    KnownConcat(a, b, size);
    if b == [] {
      assert a + b == a;
    } else {
      hide Known, Sum;
      var i := b[..|b| - 1];
      SumFront(b, size);
      SumFront(a + b, size);
      assert (a + b)[..|a + b| - 1] == a + i;
      SumConcat(a, i, size);
    }
  }

  lemma {:induction false} SumSame(s: seq<nat>, size: map<nat, nat>, size': map<nat, nat>)
    requires Known(s, size) && forall k :: 0 <= k < |s| ==> s[k] in size' && size'[s[k]] == size[s[k]]
    ensures Known(s, size') && Sum(s, size') == Sum(s, size)
  {
    if s != [] {
      SumSame(s[..|s| - 1], size, size');
    }
  }

  lemma SumOne(x: nat, size: map<nat, nat>)
    requires x in size
    ensures Known([x], size) && Sum([x], size) == size[x]
  {
    assert [x][..0] == [];
  }

  /** The list, the live blocks and the memory obtained so far. */
  datatype Heap = Heap(ring: seq<nat>, lives: seq<nat>, top: nat, got: nat)

  ghost predicate Shape(h: Heap, ptr: map<nat, nat>, size: map<nat, nat>, base: nat) {
    Known(h.ring, size) && Known(h.lives, size) && Linked(h.ring, ptr) && Sized(h.ring, size, base) && Ordered(h.ring, size)
    && Below(h.ring, size, h.top)
  }

  /** Every unit that sbrk gave belongs to one free or one live block. */
  ghost predicate Sound(h: Heap, ptr: map<nat, nat>, size: map<nat, nat>, base: nat) {
    Shape(h, ptr, size, base) && LiveApart(h.lives, size) && FreeApart(h.ring, h.lives, size) && Bounded(h.lives, size, base, h.top)
    && Sum(h.ring, size) + Sum(h.lives, size) == h.got
  }

  // ----- free -----

  /** Block bp lies behind ring[k] and in front of what follows it. */
  predicate Gap(ring: seq<nat>, k: nat, bp: nat) { k < |ring| && ring[k] < bp && (k + 1 < |ring| ==> bp < ring[k + 1]) }

  predicate Up(ring: seq<nat>, k: nat, bp: nat, size: map<nat, nat>)
    requires k < |ring| && bp in size
  {
    k + 1 < |ring| && bp + size[bp] == ring[k + 1]
  }

  predicate Down(ring: seq<nat>, k: nat, bp: nat, size: map<nat, nat>)
    requires k < |ring| && ring[k] in size
  {
    ring[k] + size[ring[k]] == bp
  }

  /** Blocks a..b of the list make way for one block lo. */
  function Replaced(ring: seq<nat>, a: nat, b: nat, lo: nat): seq<nat>
    requires a <= b <= |ring|
  {
    ring[..a] + [lo] + ring[b..]
  }

  lemma ReplaceLinked(ring: seq<nat>, ptr: map<nat, nat>, ptr': map<nat, nat>, a: nat, b: nat, lo: nat)
    requires Linked(ring, ptr) && 1 <= a <= b <= |ring|
    requires forall k :: (0 <= k < a - 1 || b <= k < |ring|) ==> ring[k] in ptr' && ptr'[ring[k]] == ptr[ring[k]]
    requires ring[a - 1] in ptr' && ptr'[ring[a - 1]] == lo && lo in ptr' && ptr'[lo] == if b < |ring| then ring[b] else ring[0]
    ensures Linked(Replaced(ring, a, b, lo), ptr')
  {
    var r := Replaced(ring, a, b, lo);
    forall k | 0 <= k < |r| ensures r[k] in ptr' && ptr'[r[k]] == After(r, k) {
      if k < a - 1 {
        assert ptr[ring[k]] == After(ring, k);
      } else if k > a {
        assert r[k] == ring[k - a - 1 + b] && ptr[ring[k - a - 1 + b]] == After(ring, k - a - 1 + b);
      }
    }
  }

  lemma ReplaceOrdered(ring: seq<nat>, size: map<nat, nat>, size': map<nat, nat>, base: nat, top: nat, a: nat, b: nat, lo: nat)
    requires Known(ring, size) && Ordered(ring, size) && Sized(ring, size, base) && Below(ring, size, top) && 1 <= a <= b <= |ring|
    requires forall k :: (0 <= k < a || b <= k < |ring|) ==> ring[k] in size' && size'[ring[k]] == size[ring[k]]
    requires lo in size' && size'[lo] > 0 && lo + size'[lo] <= top && ring[a - 1] + size[ring[a - 1]] < lo && (b < |ring| ==> lo + size'[lo] < ring[b])
    ensures var r := Replaced(ring, a, b, lo); Known(r, size') && Ordered(r, size') && Sized(r, size', base) && Below(r, size', top)
  {
    var r := Replaced(ring, a, b, lo);
    forall k | 0 <= k < |r| ensures r[k] in size' && (k > 0 ==> size'[r[k]] > 0) && r[k] + size'[r[k]] <= top {
      if k > a {
        assert r[k] == ring[k - a - 1 + b];
      }
    }
    forall j, k | 0 <= j < k < |r| ensures r[j] + size'[r[j]] < r[k] {
      if j < a && k == a && j < a - 1 {
        assert ring[j] + size[ring[j]] < ring[a - 1];
      }
      if k > a {
        assert r[k] == ring[k - a - 1 + b];
        if j > a {
          assert r[j] == ring[j - a - 1 + b];
        }
      }
    }
  }

  lemma ReplaceSum(ring: seq<nat>, size: map<nat, nat>, size': map<nat, nat>, a: nat, b: nat, lo: nat)
    requires Known(ring, size) && a <= b <= |ring| && lo in size'
    requires forall k :: (0 <= k < a || b <= k < |ring|) ==> ring[k] in size' && size'[ring[k]] == size[ring[k]]
    ensures var r := Replaced(ring, a, b, lo); Known(r, size') && Known(ring[a..b], size) && Sum(r, size') + Sum(ring[a..b], size) == Sum(ring, size) + size'[lo]
  {
    var front, mid, back := ring[..a], ring[a..b], ring[b..];
    KnownPart(ring, size, 0, a);
    KnownPart(ring, size, a, b);
    KnownPart(ring, size, b, |ring|);
    SumSame(front, size, size');
    SumSame(back, size, size');
    SumOne(lo, size');
    hide Known, Sum;
    SumConcat(front, [lo], size');
    SumConcat(front + [lo], back, size');
    SumConcat(front, mid, size);
    SumConcat(front + mid, back, size);
    assert front + mid + back == ring;
  }

  function Without(s: seq<nat>, i: nat): seq<nat>
    requires i < |s|
  {
    s[..i] + s[i + 1..]
  }

  lemma WithoutSum(s: seq<nat>, size: map<nat, nat>, i: nat)
    requires Known(s, size) && i < |s|
    ensures Known(Without(s, i), size) && Sum(Without(s, i), size) + size[s[i]] == Sum(s, size)
  {
    KnownPart(s, size, 0, i);
    KnownPart(s, size, i + 1, |s|);
    SumOne(s[i], size);
    hide Known, Sum;
    SumConcat(s[..i], s[i + 1..], size);
    SumConcat(s[..i], [s[i]], size);
    SumConcat(s[..i] + [s[i]], s[i + 1..], size);
    assert s[..i] + [s[i]] + s[i + 1..] == s;
  }

  /** The block that a freed block becomes part of, and the part of the list it takes the
      place of. */
  datatype Merge = Merge(a: nat, b: nat, lo: nat, end: nat)

  function Merged(ring: seq<nat>, k: nat, bp: nat, size: map<nat, nat>): Merge
    requires k < |ring| && Known(ring, size) && bp in size
  {
    Merge(if Down(ring, k, bp, size) then k else k + 1, if Up(ring, k, bp, size) then k + 2 else k + 1,
      if Down(ring, k, bp, size) then ring[k] else bp, if Up(ring, k, bp, size) then ring[k + 1] + size[ring[k + 1]] else bp + size[bp])
  }

  /** The freed block lies between its neighbours; the merged block reaches none. */
  lemma MergeFits(h: Heap, ptr: map<nat, nat>, size: map<nat, nat>, base: nat, i: nat, k: nat)
    requires Sound(h, ptr, size, base) && i < |h.lives| && Gap(h.ring, k, h.lives[i])
    ensures var m := Merged(h.ring, k, h.lives[i], size);
      1 <= m.a <= m.b <= |h.ring| && h.ring[m.a - 1] + size[h.ring[m.a - 1]] < m.lo <= h.lives[i] && h.lives[i] + size[h.lives[i]] <= m.end <= h.top
      && (m.b < |h.ring| ==> m.end < h.ring[m.b])
  {
    hide Sum, Linked, LiveApart;
    var bp := h.lives[i];
    assert Apart(h.ring[k], bp, size);
    if k + 1 < |h.ring| {
      assert Apart(h.ring[k + 1], bp, size);
    }
  }

  /** The merged block is as long as the blocks it is made of. */
  lemma MergeSum(ring: seq<nat>, size: map<nat, nat>, bp: nat, k: nat)
    requires k < |ring| && Known(ring, size) && bp in size
    ensures var m := Merged(ring, k, bp, size); m.a <= m.b <= |ring| && Known(ring[m.a..m.b], size)
    ensures var m := Merged(ring, k, bp, size); m.end - m.lo == Sum(ring[m.a..m.b], size) + size[bp]
  {
    var m := Merged(ring, k, bp, size);
    assert ring[m.a..m.b] == (if m.a == k then [ring[k]] else []) + (if m.b == k + 2 then [ring[k + 1]] else []);
    SumNone(size);
    hide Sum;
    SumOne(ring[k], size);
    if m.b == k + 2 {
      SumOne(ring[k + 1], size);
      SumConcat([ring[k]], [ring[k + 1]], size);
    }
  }

  lemma SumNone(size: map<nat, nat>)
    ensures Sum([], size) == 0
  {
  }

  /** What free leaves in memory. */
  ghost predicate FreedMaps(ring: seq<nat>, bp: nat, k: nat, size: map<nat, nat>, ptr: map<nat, nat>, size': map<nat, nat>, ptr': map<nat, nat>)
    requires k < |ring| && Known(ring, size) && bp in size
  {
    var m := Merged(ring, k, bp, size);
    (forall x :: x in size && x != m.lo && x != bp ==> x in size' && size'[x] == size[x])
    && (forall x :: x in ptr && x != m.lo && x != bp && x != ring[k] ==> x in ptr' && ptr'[x] == ptr[x])
    && m.lo in size' && m.lo + size'[m.lo] == m.end && m.lo in ptr' && ptr'[m.lo] == (if m.b < |ring| then ring[m.b] else ring[0])
    && (!Down(ring, k, bp, size) ==> ring[k] in ptr' && ptr'[ring[k]] == bp)
  }

  ghost predicate FreedAs(h: Heap, size: map<nat, nat>, ptr: map<nat, nat>, size': map<nat, nat>, ptr': map<nat, nat>, i: nat, k: nat)
    requires i < |h.lives| && k < |h.ring| && Known(h.ring, size) && Known(h.lives, size)
  {
    FreedMaps(h.ring, h.lives[i], k, size, ptr, size', ptr')
  }

  ghost function FreedHeap(h: Heap, size: map<nat, nat>, i: nat, k: nat): Heap
    requires i < |h.lives| && k < |h.ring| && Known(h.ring, size) && Known(h.lives, size)
    requires var m := Merged(h.ring, k, h.lives[i], size); m.a <= m.b <= |h.ring|
  {
    var m := Merged(h.ring, k, h.lives[i], size);
    h.(ring := Replaced(h.ring, m.a, m.b, m.lo), lives := Without(h.lives, i))
  }

  lemma OtherFree(h: Heap, ptr: map<nat, nat>, size: map<nat, nat>, base: nat, i: nat, k: nat, j: nat)
    requires Sound(h, ptr, size, base) && i < |h.lives| && Gap(h.ring, k, h.lives[i]) && j < |h.ring|
    requires var m := Merged(h.ring, k, h.lives[i], size); j < m.a || m.b <= j
    ensures h.ring[j] != h.lives[i] && h.ring[j] != Merged(h.ring, k, h.lives[i], size).lo && (j != k ==> h.ring[j] != h.ring[k])
  {
    hide Sum, Linked, LiveApart, FreeApart;
    if j < k {
      assert h.ring[j] + size[h.ring[j]] < h.ring[k];
    } else if j > k {
      assert h.ring[k] + size[h.ring[k]] < h.ring[j];
      if j > k + 1 {
        assert h.ring[k + 1] + size[h.ring[k + 1]] < h.ring[j];
      }
    }
  }

  lemma OtherLive(h: Heap, ptr: map<nat, nat>, size: map<nat, nat>, base: nat, i: nat, k: nat, j: nat)
    requires Sound(h, ptr, size, base) && i < |h.lives| && Gap(h.ring, k, h.lives[i]) && j < |h.lives| && j != i
    ensures h.lives[j] != h.lives[i] && h.lives[j] != Merged(h.ring, k, h.lives[i], size).lo
    ensures var m := Merged(h.ring, k, h.lives[i], size); m.end <= h.lives[j] || h.lives[j] + size[h.lives[j]] <= m.lo
  {
    MergeFits(h, ptr, size, base, i, k);
    hide Sum, Linked;
    assert j < i ==> Apart(h.lives[j], h.lives[i], size);
    assert i < j ==> Apart(h.lives[i], h.lives[j], size);
    assert Apart(h.ring[k], h.lives[j], size);
    if k + 1 < |h.ring| {
      assert Apart(h.ring[k + 1], h.lives[j], size);
    }
  }

  lemma FreedShape(h: Heap, ptr: map<nat, nat>, size: map<nat, nat>, base: nat, ptr': map<nat, nat>, size': map<nat, nat>, i: nat, k: nat)
    requires Sound(h, ptr, size, base) && i < |h.lives| && Gap(h.ring, k, h.lives[i]) && FreedAs(h, size, ptr, size', ptr', i, k)
    ensures var m := Merged(h.ring, k, h.lives[i], size);
      1 <= m.a <= m.b <= |h.ring| && Known(Without(h.lives, i), size') && Shape(FreedHeap(h, size, i, k), ptr', size', base)
  {
    MergeFits(h, ptr, size, base, i, k);
    var m := Merged(h.ring, k, h.lives[i], size);
    forall j | (0 <= j < m.a || m.b <= j < |h.ring|)
      ensures h.ring[j] in size' && size'[h.ring[j]] == size[h.ring[j]] && h.ring[j] in ptr' && (j != k ==> ptr'[h.ring[j]] == ptr[h.ring[j]])
    {
      OtherFree(h, ptr, size, base, i, k, j);
    }
    LivesKept(h, ptr, size, base, ptr', size', i, k);
    assert ptr[h.ring[m.a - 1]] == After(h.ring, m.a - 1);
    assert ptr'[h.ring[m.a - 1]] == m.lo;
    hide Sum, LiveApart, FreeApart, Bounded, Ordered, Linked, Below, Replaced, Gap;
    ReplaceLinked(h.ring, ptr, ptr', m.a, m.b, m.lo);
    ReplaceOrdered(h.ring, size, size', base, h.top, m.a, m.b, m.lo);
  }

  lemma LivesKept(h: Heap, ptr: map<nat, nat>, size: map<nat, nat>, base: nat, ptr': map<nat, nat>, size': map<nat, nat>, i: nat, k: nat)
    requires Sound(h, ptr, size, base) && i < |h.lives| && Gap(h.ring, k, h.lives[i]) && FreedAs(h, size, ptr, size', ptr', i, k)
    ensures Known(Without(h.lives, i), size')
    ensures forall j :: 0 <= j < |Without(h.lives, i)| ==> size'[Without(h.lives, i)[j]] == size[Without(h.lives, i)[j]]
  {
    var w := Without(h.lives, i);
    forall j | 0 <= j < |w| ensures w[j] in size' && size'[w[j]] == size[w[j]] {
      OtherLive(h, ptr, size, base, i, k, if j < i then j else j + 1);
    }
  }

  lemma FreeSizeKept(h: Heap, ptr: map<nat, nat>, size: map<nat, nat>, base: nat, ptr': map<nat, nat>, size': map<nat, nat>, i: nat, k: nat, z: nat)
    requires Sound(h, ptr, size, base) && i < |h.lives| && Gap(h.ring, k, h.lives[i]) && FreedAs(h, size, ptr, size', ptr', i, k) && z < |h.ring|
    requires var m := Merged(h.ring, k, h.lives[i], size); z < m.a || m.b <= z
    ensures h.ring[z] in size' && size'[h.ring[z]] == size[h.ring[z]]
  {
    OtherFree(h, ptr, size, base, i, k, z);
    hide Sound, Gap, Merged, Known;
  }

  lemma LiveSizeKept(h: Heap, ptr: map<nat, nat>, size: map<nat, nat>, base: nat, ptr': map<nat, nat>, size': map<nat, nat>, i: nat, k: nat, j: nat)
    requires Sound(h, ptr, size, base) && i < |h.lives| && Gap(h.ring, k, h.lives[i]) && FreedAs(h, size, ptr, size', ptr', i, k) && j < |h.lives| && j != i
    ensures h.lives[j] in size' && size'[h.lives[j]] == size[h.lives[j]]
  {
    OtherLive(h, ptr, size, base, i, k, j);
    hide Sound, Gap, Merged, Known;
  }

  /** The merged block and the untouched free blocks keep clear of the live blocks. */
  lemma MergedApart(h: Heap, ptr: map<nat, nat>, size: map<nat, nat>, base: nat, ptr': map<nat, nat>, size': map<nat, nat>, i: nat, k: nat, j: nat)
    requires Sound(h, ptr, size, base) && i < |h.lives| && Gap(h.ring, k, h.lives[i]) && FreedAs(h, size, ptr, size', ptr', i, k) && j < |h.lives| && j != i
    ensures var lo := Merged(h.ring, k, h.lives[i], size).lo; lo in size' && h.lives[j] in size' && Apart(lo, h.lives[j], size')
  {
    OtherLive(h, ptr, size, base, i, k, j);
    LiveSizeKept(h, ptr, size, base, ptr', size', i, k, j);
    hide Sound, Gap, Merged, Known;
  }

  lemma KeptApart(h: Heap, ptr: map<nat, nat>, size: map<nat, nat>, base: nat, ptr': map<nat, nat>, size': map<nat, nat>, i: nat, k: nat, z: nat, j: nat)
    requires Sound(h, ptr, size, base) && i < |h.lives| && Gap(h.ring, k, h.lives[i]) && FreedAs(h, size, ptr, size', ptr', i, k) && z < |h.ring|
    requires j < |h.lives| && j != i && var m := Merged(h.ring, k, h.lives[i], size); z < m.a || m.b <= z
    ensures h.ring[z] in size' && h.lives[j] in size' && Apart(h.ring[z], h.lives[j], size')
  {
    assert Apart(h.ring[z], h.lives[j], size);
    FreeSizeKept(h, ptr, size, base, ptr', size', i, k, z);
    LiveSizeKept(h, ptr, size, base, ptr', size', i, k, j);
    hide Sound, Gap, Merged, Known, FreedAs;
  }

  lemma ReplacedAt(ring: seq<nat>, a: nat, b: nat, lo: nat, x: nat)
    requires a <= b <= |ring| && x < |Replaced(ring, a, b, lo)|
    ensures x != a ==> (if x < a then x else x - a - 1 + b) < |ring|
    ensures Replaced(ring, a, b, lo)[x] == if x == a then lo else ring[if x < a then x else x - a - 1 + b]
  {
  }

  lemma WithoutAt(s: seq<nat>, i: nat, y: nat)
    requires i < |s| && y < |Without(s, i)|
    ensures (if y < i then y else y + 1) < |s| && Without(s, i)[y] == s[if y < i then y else y + 1]
  {
  }

  lemma FreedApart(h: Heap, ptr: map<nat, nat>, size: map<nat, nat>, base: nat, ptr': map<nat, nat>, size': map<nat, nat>, i: nat, k: nat, x: nat, y: nat)
    requires Sound(h, ptr, size, base) && i < |h.lives| && Gap(h.ring, k, h.lives[i]) && FreedAs(h, size, ptr, size', ptr', i, k)
    requires var m := Merged(h.ring, k, h.lives[i], size); 1 <= m.a <= m.b <= |h.ring| && x < |Replaced(h.ring, m.a, m.b, m.lo)|
    requires y < |Without(h.lives, i)|
    ensures var m := Merged(h.ring, k, h.lives[i], size); var r, w := Replaced(h.ring, m.a, m.b, m.lo), Without(h.lives, i);
      r[x] in size' && w[y] in size' && Apart(r[x], w[y], size')
  {
    var m := Merged(h.ring, k, h.lives[i], size);
    hide Sound, Gap, Merged, Known, FreedAs, Apart, Replaced, Without;
    var j := if y < i then y else y + 1;
    ReplacedAt(h.ring, m.a, m.b, m.lo, x);
    WithoutAt(h.lives, i, y);
    if x == m.a {
      MergedApart(h, ptr, size, base, ptr', size', i, k, j);
    } else {
      KeptApart(h, ptr, size, base, ptr', size', i, k, if x < m.a then x else x - m.a - 1 + m.b, j);
    }
  }

  lemma FreedSound(h: Heap, ptr: map<nat, nat>, size: map<nat, nat>, base: nat, ptr': map<nat, nat>, size': map<nat, nat>, i: nat, k: nat)
    requires Sound(h, ptr, size, base) && i < |h.lives| && Gap(h.ring, k, h.lives[i]) && FreedAs(h, size, ptr, size', ptr', i, k)
    ensures var m := Merged(h.ring, k, h.lives[i], size); 1 <= m.a <= m.b <= |h.ring|
    ensures Sound(FreedHeap(h, size, i, k), ptr', size', base)
  {
    FreedShape(h, ptr, size, base, ptr', size', i, k);
    LivesKept(h, ptr, size, base, ptr', size', i, k);
    var m := Merged(h.ring, k, h.lives[i], size);
    var r, w := Replaced(h.ring, m.a, m.b, m.lo), Without(h.lives, i);
    forall x, y | 0 <= x < |r| && 0 <= y < |w| ensures Apart(r[x], w[y], size') {
      FreedApart(h, ptr, size, base, ptr', size', i, k, x, y);
    }
    FreedSum(h, ptr, size, base, ptr', size', i, k);
    FreedLives(h.lives, size, size', base, h.top, i);
  }

  lemma FreedLives(lives: seq<nat>, size: map<nat, nat>, size': map<nat, nat>, base: nat, top: nat, i: nat)
    requires Known(lives, size) && i < |lives| && LiveApart(lives, size) && Bounded(lives, size, base, top)
    requires forall j :: 0 <= j < |Without(lives, i)| ==> Without(lives, i)[j] in size' && size'[Without(lives, i)[j]] == size[Without(lives, i)[j]]
    ensures var w := Without(lives, i); Known(w, size') && LiveApart(w, size') && Bounded(w, size', base, top)
  {
    var w := Without(lives, i);
    forall x, y | 0 <= x < y < |w| ensures Apart(w[x], w[y], size') {
      assert Apart(lives[if x < i then x else x + 1], lives[if y < i then y else y + 1], size);
    }
  }

  lemma FreedSum(h: Heap, ptr: map<nat, nat>, size: map<nat, nat>, base: nat, ptr': map<nat, nat>, size': map<nat, nat>, i: nat, k: nat)
    requires Sound(h, ptr, size, base) && i < |h.lives| && Gap(h.ring, k, h.lives[i]) && FreedAs(h, size, ptr, size', ptr', i, k)
    ensures var m := Merged(h.ring, k, h.lives[i], size); 1 <= m.a <= m.b <= |h.ring|
    ensures var f := FreedHeap(h, size, i, k); Known(f.ring, size') && Known(f.lives, size') && Sum(f.ring, size') + Sum(f.lives, size') == h.got
  {
    MergeFits(h, ptr, size, base, i, k);
    MergeSum(h.ring, size, h.lives[i], k);
    LivesKept(h, ptr, size, base, ptr', size', i, k);
    var m := Merged(h.ring, k, h.lives[i], size);
    forall j | (0 <= j < m.a || m.b <= j < |h.ring|) ensures h.ring[j] in size' && size'[h.ring[j]] == size[h.ring[j]] {
      OtherFree(h, ptr, size, base, i, k, j);
    }
    hide Sum, LiveApart, FreeApart, Bounded, Ordered, Linked;
    ReplaceSum(h.ring, size, size', m.a, m.b, m.lo);
    WithoutSum(h.lives, size, i);
    SumSame(Without(h.lives, i), size, size');
  }

  // ----- walking the circle -----

  function Succ(j: nat, n: nat): nat
    requires j < n
  {
    if j == n - 1 then 0 else j + 1
  }

  /** Steps from index j to index k, going round. */
  function Dist(j: nat, k: nat, n: nat): nat
    requires j < n && k < n
  {
    if j <= k then k - j else k + n - j
  }

  lemma {:induction false} GapExists(ring: seq<nat>, bp: nat, n: nat) returns (k: nat)
    requires 0 < n <= |ring| && ring[0] < bp && (n < |ring| ==> bp < ring[n]) && forall j :: 0 <= j < |ring| ==> ring[j] != bp
    ensures Gap(ring, k, bp)
  {
    if ring[n - 1] < bp {
      k := n - 1;
    } else {
      k := GapExists(ring, bp, n - 1);
    }
  }

  class Allocator {
    const base: nat              // &base, below the heap
    var ptr: map<nat, nat>       // s.ptr of the header at a unit address
    var size: map<nat, nat>      // s.size
    var freep: nat               // 0 before the first malloc
    ghost var heap: Heap

    ghost predicate Valid()
      reads this
    {
      0 < base < heap.top &&
      if freep == 0 then heap.ring == [] && heap.lives == [] && heap.got == 0
      else Sound(heap, ptr, size, base) && freep in heap.ring
    }

    constructor (base: nat, top: nat)
      requires 0 < base < top
      ensures Valid() && this.base == base && freep == 0 && heap == Heap([], [], top, 0)
    {
      this.base, freep, heap := base, 0, Heap([], [], top, 0);
      ptr, size := map[], map[];
    }

    /** The search loop of free: the free block behind which bp belongs. */
    method FindGap(bp: nat) returns (p: nat, ghost i: nat, ghost k: nat)
      requires Valid() && freep != 0 && bp in heap.lives
      ensures Gap(heap.ring, k, bp) && p == heap.ring[k] && i < |heap.lives| && heap.lives[i] == bp
    {
      hide Sound, Rising, Gap;
      ghost var ring, n := heap.ring, |heap.ring|;
      i := RingRises(heap, ptr, size, base, bp);
      ghost var goal := GapExists(ring, bp, n);
      k :| 0 <= k < n && ring[k] == freep;
      p := freep;
      while !(bp > p && bp < ptr[p])
        invariant 0 <= k < n && p == ring[k] && p in ptr && ptr[p] == After(ring, k)
        decreases Dist(k, goal, n)
      {
        StopsAtGap(ring, k, bp);
        StopsAtGap(ring, goal, bp);
        if p >= ptr[p] && (bp > p || bp < ptr[p]) {
          return;
        }
        k := Succ(k, n);
        p := ptr[p];
      }
      StopsAtGap(ring, k, bp);
    }

    /** free. The block joins the free blocks it touches; i is its place among the live
        blocks and k the free block in front of it. */
    method Free(ap: nat) returns (ghost i: nat, ghost k: nat)
      requires Valid() && ap > 0 && ap - 1 in heap.lives
      modifies this
      ensures Valid() && freep != 0 && FreeStep(old(heap), old(size), heap, size, ap - 1, i, k)
      ensures Adds(old(heap).ring, old(size), heap.ring, size, ap - 1)
    {
      var bp := ap - 1;
      var p;
      p, i, k := FindGap(bp);
      ghost var ptr0, size0, h := ptr, size, heap;
      FreeFacts(h, ptr, size, base, i, k);
      hide Known, Sound, Gap, After, FreeStep, SizeAfter, PtrAfter, Adds;
      Relink(p, bp);
      freep := p;
      heap := FreeDone(h, ptr0, size0, base, i, k, ptr, size);
    }

    /** Make the first n units of need live: all of free block j, or its tail. */
    method Take(prevp: nat, p: nat, n: nat, ghost j: nat) returns (r: nat)
      requires Valid() && freep != 0 && 0 < j < |heap.ring| && p == heap.ring[j] && prevp == heap.ring[j - 1] && p in size && 0 < n <= size[p]
      modifies this
      ensures Valid() && r > 0 && heap.lives == old(heap).lives + [r - 1] && r - 1 in size && size[r - 1] == n
      ensures heap.got == old(heap).got && heap.top == old(heap).top
      ensures p <= r - 1 && r - 1 + n == p + old(size)[p]
      ensures forall x :: x in old(heap).lives ==> x in size && x in old(size) && size[x] == old(size)[x]
    {
      hide Sound, SplitSize;
      TakeFacts(heap, ptr, size, base, j);
      ghost var h, size0 := heap, size;
      if size[p] == n {
        UnlinkSound(heap, ptr, size, base, j);
        ptr := ptr[prevp := ptr[p]];
        heap := h.(ring := Without(h.ring, j), lives := h.lives + [p]);
        assert heap.ring[j - 1] == prevp;
        r := p + 1;
      } else {
        SplitSound(heap, ptr, size, base, j, n);
        SplitKept(heap, ptr, size, base, j, n);
        r := p + size[p] - n + 1;
        heap := h.(lives := h.lives + [r - 1]);
        size := SplitSize(size, p, n);
      }
      freep := prevp;
    }

    /** morecore: at least MINCORE units more, linked in by free. w is the free block they
        end up in. They are memory of the process exactly if sbrk's argument is not cut
        off. */
    method Morecore(nu: nat, sbrk: Option<nat>) returns (ok: bool, ghost w: nat)
      requires Valid() && freep != 0 && 0 < nu && nu * UNIT < 2 * UINTLIMIT && (sbrk.Some? ==> heap.top <= sbrk.value)
      modifies this
      ensures Valid() && freep != 0 && ok == sbrk.Some?
      ensures !ok ==> heap == old(heap) && size == old(size) && ptr == old(ptr) && freep == old(freep)
      ensures ok ==> heap.lives == old(heap).lives && heap.got == old(heap).got + Core(nu) && heap.top == sbrk.value + Core(nu)
      ensures ok ==> (heap.top * UNIT <= sbrk.value * UNIT + SbrkArg(nu) <==> Core(nu) * UNIT < INTLIMIT)
      ensures ok ==> w < |heap.ring| && heap.ring[w] in size && size[heap.ring[w]] >= nu
      ensures forall x :: x in old(heap).lives ==> x in size && x in old(size) && size[x] == old(size)[x]
    {
      hide Sound, FreeStep;
      w := 0;
      LivesIn(heap, ptr, size, base);
      if sbrk.None? {
        return false, 0;
      }
      var hp := sbrk.value;
      SbrkArgIs(nu, hp);
      ghost var h, size0 := heap, size;
      GrowSound(heap, ptr, size, base, hp, Core(nu));
      LivesBelow(heap, ptr, size, base, hp);
      size := size[hp := Core(nu)];
      heap := Heap(h.ring, h.lives + [hp], hp + Core(nu), h.got + Core(nu));
      ghost var h1, size1 := heap, size;
      ghost var ptr1 := ptr;
      assert hp == heap.lives[|h.lives|];
      ghost var i, k;
      i, k := Free(hp + 1);
      w := GrownInto(h1, ptr1, size1, base, heap, size, hp, i, k, |h.lives|);
      ok := true;
    }

    /** The first call sets up the list with the empty block base. */
    method Start()
      requires Valid()
      modifies this
      ensures Valid() && freep != 0 && heap.lives == old(heap).lives && heap.top == old(heap).top && heap.got == old(heap).got
      ensures forall n :: n > 0 ==> (Fits(heap.ring, size, n) <==> Fits(old(heap).ring, old(size), n))
      ensures forall x :: x in heap.lives ==> x in size && x in old(size) && size[x] == old(size)[x]
    {
      hide Sound, Fits;
      if freep == 0 {
        freep := base;
        ptr, size := ptr[base := base], size[base := 0];
        heap := heap.(ring := [base]);
        InitSound(base, heap.top, ptr, size);
        forall n: nat | n > 0 ensures Fits(heap.ring, size, n) <==> Fits(old(heap).ring, old(size), n) {
          InitFits(base, size, old(size), n);
        }
      }
      LivesIn(heap, ptr, size, base);
    }

    /** malloc. It asks for more memory exactly if no free block is large enough, and
        returns 0 exactly if that fails; otherwise it returns a new live block of the
        size asked for. What it asked for is memory of the process exactly if it is less
        than an int can say. sbrk is the end of the process's memory, if it can grow. */
    method Malloc(nbytes: nat, sbrk: Option<nat>) returns (r: nat, ghost asked: bool)
      requires Valid() && nbytes < UINTLIMIT && (sbrk.Some? ==> heap.top <= sbrk.value)
      modifies this
      ensures Valid()
      ensures asked <==> !Fits(old(heap).ring, old(size), Units(nbytes))
      ensures r == 0 <==> asked && sbrk.None?
      ensures r == 0 ==> heap.lives == old(heap).lives && !Fits(heap.ring, size, Units(nbytes))
      ensures r != 0 ==> heap.lives == old(heap).lives + [r - 1] && r - 1 in size && size[r - 1] == Units(nbytes)
      ensures heap.got == old(heap).got + if asked && r != 0 then Core(Units(nbytes)) else 0
      ensures asked && r != 0 ==> (heap.top * UNIT <= sbrk.value * UNIT + SbrkArg(Units(nbytes)) <==> Core(Units(nbytes)) * UNIT < INTLIMIT)
      ensures forall x :: x in old(heap).lives ==> x in size && x in old(size) && size[x] == old(size)[x]
    {
      hide Sound, Fits, Units, Cursor, Seen, Core, HasFit, Kept, SbrkArg;
      var n := Units(nbytes);
      UnitsEnough(nbytes);
      Start();
      ghost var h, size0 := heap, size;
      asked := false;
      ghost var j: nat, w: nat := 0, 0;
      ghost var f: nat := Begin(heap, ptr, size, base, freep, n);
      KeptSelf(h, ptr, size0, base);
      j := Succ(f, |heap.ring|);
      var prevp := freep;
      var p := ptr[prevp];
      while true
        invariant Valid() && freep != 0 && Cursor(heap.ring, size, ptr, freep, f, j, prevp, p, n)
        invariant !asked ==> heap == h && size == size0
        invariant asked ==> sbrk.Some? && heap.got == h.got + Core(n) && !Fits(h.ring, size0, n) && HasFit(heap.ring, size, w, n)
        invariant asked ==> (heap.top * UNIT <= sbrk.value * UNIT + SbrkArg(n) <==> Core(n) * UNIT < INTLIMIT)
        invariant heap.lives == h.lives && Kept(h.lives, size0, size)
        decreases if asked then 0 else 1, Left(j, f, |heap.ring|)
      {
        At(heap, ptr, size, base, freep, f, j, prevp, p, n);
        if size[p] >= n {
          ghost var size1 := size;
          r := Take(prevp, p, n, j);
          KeptOn(h.lives, size0, size1, size);
          return;
        }
        Miss(heap, ptr, size, base, freep, f, j, prevp, p, n, w);
        if p == freep {
          ghost var size1 := size;
          asked := true;
          var ok;
          ok, w := Morecore(n, sbrk);
          if !ok {
            return 0, true;
          }
          KeptOn(h.lives, size0, size1, size);
          IsHasFit(heap.ring, size, w, n);
          p := freep;
          f := Begin(heap, ptr, size, base, freep, n);
          j := f;
        }
        prevp, p := p, ptr[p];
        j := Succ(j, |heap.ring|);
      }
    }

    /** Link bp in behind p, joining it with its neighbours. */
    method Relink(p: nat, bp: nat)
      requires p in ptr && p in size && bp in size && bp != p && ptr[p] in ptr && ptr[p] in size
      modifies this`ptr, this`size
      ensures size == SizeAfter(bp, p, old(ptr)[p], old(size)) && ptr == PtrAfter(bp, p, old(ptr)[p], old(size), old(ptr))
    {
      var next := ptr[p];
      if bp + size[bp] == next {
        size := size[bp := size[bp] + size[next]];
        ptr := ptr[bp := ptr[next]];
      } else {
        ptr := ptr[bp := next];
      }
      if p + size[p] == bp {
        size := size[p := size[p] + size[bp]];
        ptr := ptr[p := ptr[bp]];
      } else {
        ptr := ptr[p := bp];
      }
    }
  }

  predicate InBlock(x: nat, size: map<nat, nat>, u: nat) { x in size && x <= u < x + size[x] }

  ghost predicate InFree(ring: seq<nat>, size: map<nat, nat>, u: nat) { exists k :: 0 <= k < |ring| && InBlock(ring[k], size, u) }

  /** The free units are those from before and those of block bp. */
  ghost predicate Adds(ring: seq<nat>, size: map<nat, nat>, ring': seq<nat>, size': map<nat, nat>, bp: nat) {
    forall u :: InFree(ring', size', u) <==> InFree(ring, size, u) || InBlock(bp, size, u)
  }

  lemma UnitsOut(h: Heap, ptr: map<nat, nat>, size: map<nat, nat>, base: nat, ptr': map<nat, nat>, size': map<nat, nat>, i: nat, k: nat, x: nat, u: nat)
    requires Sound(h, ptr, size, base) && i < |h.lives| && Gap(h.ring, k, h.lives[i]) && FreedAs(h, size, ptr, size', ptr', i, k)
    requires var m := Merged(h.ring, k, h.lives[i], size); 1 <= m.a <= m.b <= |h.ring| && x < |Replaced(h.ring, m.a, m.b, m.lo)|
    requires var m := Merged(h.ring, k, h.lives[i], size); InBlock(Replaced(h.ring, m.a, m.b, m.lo)[x], size', u)
    ensures InFree(h.ring, size, u) || InBlock(h.lives[i], size, u)
  {
    var m := Merged(h.ring, k, h.lives[i], size);
    ReplacedAt(h.ring, m.a, m.b, m.lo, x);
    if x == m.a {
      assert m.lo + size'[m.lo] == m.end;
      hide FreedAs, Sound, Replaced;
      if Down(h.ring, k, h.lives[i], size) && u < h.lives[i] {
        assert InBlock(h.ring[k], size, u);
      }
      if Up(h.ring, k, h.lives[i], size) && u >= h.ring[k + 1] {
        assert InBlock(h.ring[k + 1], size, u);
      }
    } else {
      hide Sound, Gap, Merged, FreedAs, Replaced;
      var z := if x < m.a then x else x - m.a - 1 + m.b;
      FreeSizeKept(h, ptr, size, base, ptr', size', i, k, z);
      KnownAt(h, ptr, size, base, z);
      assert InBlock(h.ring[z], size, u);
    }
  }

  lemma KnownAt(h: Heap, ptr: map<nat, nat>, size: map<nat, nat>, base: nat, z: nat)
    requires Sound(h, ptr, size, base) && z < |h.ring|
    ensures h.ring[z] in size
  {
    hide Sum;
  }

  lemma MergedIn(ring: seq<nat>, size: map<nat, nat>, bp: nat, k: nat, z: nat, u: nat)
    requires k < |ring| && Known(ring, size) && bp in size && z < |ring| && InBlock(ring[z], size, u) && ring[k] < bp
    requires var m := Merged(ring, k, bp, size); m.a <= z < m.b
    ensures var m := Merged(ring, k, bp, size); m.lo <= u < m.end
  {
  }

  lemma UnitsIn(h: Heap, ptr: map<nat, nat>, size: map<nat, nat>, base: nat, ptr': map<nat, nat>, size': map<nat, nat>, i: nat, k: nat, z: nat, u: nat)
    requires Sound(h, ptr, size, base) && i < |h.lives| && Gap(h.ring, k, h.lives[i]) && FreedAs(h, size, ptr, size', ptr', i, k)
    requires var m := Merged(h.ring, k, h.lives[i], size); 1 <= m.a <= m.b <= |h.ring|
    requires z < |h.ring| && InBlock(h.ring[z], size, u)
    ensures var m := Merged(h.ring, k, h.lives[i], size); InFree(Replaced(h.ring, m.a, m.b, m.lo), size', u)
  {
    var m := Merged(h.ring, k, h.lives[i], size);
    var r := Replaced(h.ring, m.a, m.b, m.lo);
    assert m.lo in size' && m.lo + size'[m.lo] == m.end;
    if m.a <= z < m.b {
      hide Sound, Merged, FreedAs;
      MergedIn(h.ring, size, h.lives[i], k, z, u);
      assert r[m.a] == m.lo && InBlock(m.lo, size', u);
    } else {
      hide Sound, Gap, Merged, FreedAs, Known;
      FreeSizeKept(h, ptr, size, base, ptr', size', i, k, z);
      var x := if z < m.a then z else z - m.b + m.a + 1;
      assert r[x] == h.ring[z];
      assert InBlock(r[x], size', u);
    }
  }

  lemma FreedUnits(h: Heap, ptr: map<nat, nat>, size: map<nat, nat>, base: nat, ptr': map<nat, nat>, size': map<nat, nat>, i: nat, k: nat)
    requires Sound(h, ptr, size, base) && i < |h.lives| && Gap(h.ring, k, h.lives[i]) && FreedAs(h, size, ptr, size', ptr', i, k)
    requires var m := Merged(h.ring, k, h.lives[i], size); 1 <= m.a <= m.b <= |h.ring|
    ensures Adds(h.ring, size, FreedHeap(h, size, i, k).ring, size', h.lives[i])
  {
    var m := Merged(h.ring, k, h.lives[i], size);
    var r := Replaced(h.ring, m.a, m.b, m.lo);
    MergeFits(h, ptr, size, base, i, k);
    assert r[m.a] == m.lo && m.lo in size' && m.lo + size'[m.lo] == m.end;
    hide Sound, Gap, Merged, FreedAs, Replaced, Known;
    forall u ensures InFree(r, size', u) <==> InFree(h.ring, size, u) || InBlock(h.lives[i], size, u) {
      if InFree(r, size', u) {
        var x :| 0 <= x < |r| && InBlock(r[x], size', u);
        UnitsOut(h, ptr, size, base, ptr', size', i, k, x, u);
      }
      if InFree(h.ring, size, u) {
        var z :| 0 <= z < |h.ring| && InBlock(h.ring[z], size, u);
        UnitsIn(h, ptr, size, base, ptr', size', i, k, z, u);
      }
      if InBlock(h.lives[i], size, u) {
        assert InBlock(r[m.a], size', u);
      }
    }
  }

  ghost predicate FreeStep(h: Heap, size: map<nat, nat>, h': Heap, size': map<nat, nat>, bp: nat, i: nat, k: nat) {
    Known(h.ring, size) && Known(h.lives, size) && i < |h.lives| && h.lives[i] == bp && Gap(h.ring, k, bp) &&
    var m := Merged(h.ring, k, bp, size);
    m.a <= m.b <= |h.ring| && h' == FreedHeap(h, size, i, k) && m.lo in size' && m.lo + size'[m.lo] == m.end
    && forall x :: x in h'.lives ==> x in size && x in size' && size'[x] == size[x]
  }

  function SizeAfter(bp: nat, p: nat, next: nat, size: map<nat, nat>): map<nat, nat>
    requires bp in size && p in size && next in size
  {
    var size1 := if bp + size[bp] == next then size[bp := size[bp] + size[next]] else size;
    if p + size1[p] == bp then size1[p := size1[p] + size1[bp]] else size1
  }

  function PtrAfter(bp: nat, p: nat, next: nat, size: map<nat, nat>, ptr: map<nat, nat>): map<nat, nat>
    requires bp in size && p in size && next in ptr
  {
    var ptr1 := if bp + size[bp] == next then ptr[bp := ptr[next]] else ptr[bp := next];
    if p + size[p] == bp then ptr1[p := ptr1[bp]] else ptr1[p := bp]
  }

  /** The assignments of free do what FreedMaps says, in all four cases. */
  lemma FreeMaps(ring: seq<nat>, ptr: map<nat, nat>, size: map<nat, nat>, bp: nat, k: nat)
    requires Known(ring, size) && Linked(ring, ptr) && Gap(ring, k, bp) && ring[0] < bp && bp in size && After(ring, k) in size && After(ring, k) in ptr
    ensures FreedMaps(ring, bp, k, size, ptr, SizeAfter(bp, ring[k], After(ring, k), size), PtrAfter(bp, ring[k], After(ring, k), size, ptr))
  {
    if k + 1 < |ring| {
      assert ptr[ring[k + 1]] == After(ring, k + 1);
    }
  }

  lemma FreeDone(h: Heap, ptr: map<nat, nat>, size: map<nat, nat>, base: nat, i: nat, k: nat, ptr': map<nat, nat>, size': map<nat, nat>) returns (h': Heap)
    requires Sound(h, ptr, size, base) && i < |h.lives| && Gap(h.ring, k, h.lives[i]) && base < h.top
    requires h.lives[i] in size && h.ring[k] in size && After(h.ring, k) in size && After(h.ring, k) in ptr
    requires size' == SizeAfter(h.lives[i], h.ring[k], After(h.ring, k), size) && ptr' == PtrAfter(h.lives[i], h.ring[k], After(h.ring, k), size, ptr)
    ensures Sound(h', ptr', size', base) && FreeStep(h, size, h', size', h.lives[i], i, k) && h.ring[k] in h'.ring && base < h'.top
    ensures Adds(h.ring, size, h'.ring, size', h.lives[i])
  {
    var _ := RingRises(h, ptr, size, base, h.lives[i]);
    FreeFacts(h, ptr, size, base, i, k);
    assert Linked(h.ring, ptr);
    hide Sum, SizeAfter, PtrAfter, Gap, Rising, Sound, Known, Linked, FreedMaps, FreeStep, After, Adds;
    FreeMaps(h.ring, ptr, size, h.lives[i], k);
    FreedSound(h, ptr, size, base, ptr', size', i, k);
    FreedEnds(h, ptr, size, base, ptr', size', i, k);
    h' := FreedHeap(h, size, i, k);
    IsFreeStep(h, size, size', i, k);
    FreedUnits(h, ptr, size, base, ptr', size', i, k);
  }

  lemma IsFreeStep(h: Heap, size: map<nat, nat>, size': map<nat, nat>, i: nat, k: nat)
    requires Known(h.ring, size) && Known(h.lives, size) && i < |h.lives| && Gap(h.ring, k, h.lives[i])
    requires var m := Merged(h.ring, k, h.lives[i], size); m.a <= m.b <= |h.ring| && m.lo in size' && m.lo + size'[m.lo] == m.end
    requires forall x :: x in Without(h.lives, i) ==> x in size && x in size' && size'[x] == size[x]
    ensures FreeStep(h, size, FreedHeap(h, size, i, k), size', h.lives[i], i, k)
  {
    hide Known, Gap, Merged, Without;
  }

  lemma FreeFacts(h: Heap, ptr: map<nat, nat>, size: map<nat, nat>, base: nat, i: nat, k: nat)
    requires Sound(h, ptr, size, base) && i < |h.lives| && Gap(h.ring, k, h.lives[i])
    ensures Known(h.ring, size) && Known(h.lives, size) && k < |h.ring| && h.lives[i] in size && h.lives[i] != h.ring[k]
    ensures h.ring[k] in size && h.ring[k] in ptr && ptr[h.ring[k]] == After(h.ring, k) && After(h.ring, k) in size && After(h.ring, k) in ptr
    ensures base < h.top ==> h.ring[k] != 0 || base == 0
    ensures h.ring[k] >= base
  {
    hide Sum, LiveApart, FreeApart;
    assert k > 0 ==> h.ring[0] + size[h.ring[0]] < h.ring[k];
  }

  lemma FreedEnds(h: Heap, ptr: map<nat, nat>, size: map<nat, nat>, base: nat, ptr': map<nat, nat>, size': map<nat, nat>, i: nat, k: nat)
    requires Sound(h, ptr, size, base) && i < |h.lives| && Gap(h.ring, k, h.lives[i]) && FreedAs(h, size, ptr, size', ptr', i, k)
    ensures var m := Merged(h.ring, k, h.lives[i], size); m.a <= m.b <= |h.ring| && m.lo in size' && m.lo + size'[m.lo] == m.end
    ensures h.ring[k] in FreedHeap(h, size, i, k).ring
    ensures forall x :: x in Without(h.lives, i) ==> x in size && x in size' && size'[x] == size[x]
  {
    MergeFits(h, ptr, size, base, i, k);
    LivesKept(h, ptr, size, base, ptr', size', i, k);
    var m := Merged(h.ring, k, h.lives[i], size);
    hide Sum, LiveApart, FreeApart, Ordered, Linked;
    var r := Replaced(h.ring, m.a, m.b, m.lo);
    assert r[if m.a == k then m.a else k] == h.ring[k];
    forall x | x in Without(h.lives, i) ensures x in size {
      var j :| 0 <= j < |Without(h.lives, i)| && Without(h.lives, i)[j] == x;
    }
  }

  predicate Rising(ring: seq<nat>) { forall j, k :: 0 <= j < k < |ring| ==> ring[j] < ring[k] }

  lemma RingRises(h: Heap, ptr: map<nat, nat>, size: map<nat, nat>, base: nat, bp: nat) returns (i: nat)
    requires Sound(h, ptr, size, base) && bp in h.lives
    ensures i < |h.lives| && h.lives[i] == bp && Linked(h.ring, ptr)
    ensures Rising(h.ring) && |h.ring| > 0 && h.ring[0] < bp && forall j :: 0 <= j < |h.ring| ==> h.ring[j] != bp
  {
    hide Sum, Linked, LiveApart;
    i :| 0 <= i < |h.lives| && h.lives[i] == bp;
    forall j | 0 <= j < |h.ring| ensures h.ring[j] != bp {
      assert Apart(h.ring[j], h.lives[i], size);
    }
  }

  /** The two tests of the loop hold together exactly at the gap, also at the end of the
      list. */
  lemma StopsAtGap(ring: seq<nat>, k: nat, bp: nat)
    requires Rising(ring) && k < |ring| && ring[0] < bp && forall j :: 0 <= j < |ring| ==> ring[j] != bp
    ensures var p, nx := ring[k], After(ring, k); Gap(ring, k, bp) <==> (bp > p && bp < nx) || (p >= nx && (bp > p || bp < nx))
  {
    if k == |ring| - 1 && k > 0 {
      assert ring[0] < ring[k];
    }
  }

  // ----- malloc -----

  lemma {:induction false} AppendSum(s: seq<nat>, x: nat, size: map<nat, nat>)
    requires Known(s, size) && x in size
    ensures Known(s + [x], size) && Sum(s + [x], size) == Sum(s, size) + size[x]
  {
    SumOne(x, size);
    SumConcat(s, [x], size);
  }

  lemma InitSound(base: nat, top: nat, ptr: map<nat, nat>, size: map<nat, nat>)
    requires base < top && base in ptr && ptr[base] == base && base in size && size[base] == 0
    ensures Sound(Heap([base], [], top, 0), ptr, size, base)
  {
    SumOne(base, size);
    SumNone(size);
  }

  /** A whole free block becomes live. */
  lemma UnlinkSound(h: Heap, ptr: map<nat, nat>, size: map<nat, nat>, base: nat, j: nat)
    requires Sound(h, ptr, size, base) && 0 < j < |h.ring|
    ensures h.ring[j - 1] in ptr && h.ring[j] in ptr && ptr[h.ring[j - 1]] == h.ring[j]
    ensures Sound(h.(ring := Without(h.ring, j), lives := h.lives + [h.ring[j]]), ptr[h.ring[j - 1] := ptr[h.ring[j]]], size, base)
  {
    var ring, x := h.ring, h.ring[j];
    assert ptr[ring[j - 1]] == After(ring, j - 1) && ptr[x] == After(ring, j);
    var ptr', r, l := ptr[ring[j - 1] := ptr[x]], Without(ring, j), h.lives + [x];
    UnlinkLinked(ring, ptr, size, j);
    UnlinkOrdered(ring, size, base, h.top, j);
    UnlinkApart(h, ptr, size, base, j);
    hide Sum;
    WithoutSum(ring, size, j);
    AppendSum(h.lives, x, size);
  }

  lemma UnlinkAt(ring: seq<nat>, ptr: map<nat, nat>, size: map<nat, nat>, j: nat, k: nat)
    requires Known(ring, size) && Ordered(ring, size) && Linked(ring, ptr) && 0 < j < |ring| && k < |ring| - 1 && ring[j] in ptr
    ensures k < |Without(ring, j)|
    ensures var r, ptr' := Without(ring, j), ptr[ring[j - 1] := ptr[ring[j]]]; r[k] in ptr' && ptr'[r[k]] == After(r, k)
  {
    hide Ordered, Linked, Without, After, Known;
    var o := if k < j then k else k + 1;
    WithoutAfter(ring, j, k);
    WithoutAt(ring, j, k);
    if o != j - 1 {
      OtherThan(ring, size, o, j - 1);
    }
    LinkAt(ring, ptr, o);
    LinkAt(ring, ptr, j);
  }

  lemma LinkAt(ring: seq<nat>, ptr: map<nat, nat>, k: nat)
    requires Linked(ring, ptr) && k < |ring|
    ensures ring[k] in ptr && ptr[ring[k]] == After(ring, k)
  {
    hide After;
  }

  lemma UnlinkLinked(ring: seq<nat>, ptr: map<nat, nat>, size: map<nat, nat>, j: nat)
    requires Known(ring, size) && Ordered(ring, size) && Linked(ring, ptr) && 0 < j < |ring|
    ensures ring[j] in ptr && Linked(Without(ring, j), ptr[ring[j - 1] := ptr[ring[j]]])
  {
    LinkAt(ring, ptr, j);
    hide After, Ordered;
    forall k | 0 <= k < |ring| - 1
      ensures Without(ring, j)[k] in ptr[ring[j - 1] := ptr[ring[j]]] && ptr[ring[j - 1] := ptr[ring[j]]][Without(ring, j)[k]] == After(Without(ring, j), k)
    {
      UnlinkAt(ring, ptr, size, j, k);
    }
  }

  lemma WithoutAfter(ring: seq<nat>, j: nat, k: nat)
    requires 0 < j < |ring| && k < |ring| - 1
    ensures k < |Without(ring, j)| && After(Without(ring, j), k) == After(ring, if k == j - 1 then j else if k < j then k else k + 1)
  {
  }

  lemma OtherThan(ring: seq<nat>, size: map<nat, nat>, a: nat, b: nat)
    requires Known(ring, size) && Ordered(ring, size) && a < |ring| && b < |ring| && a != b
    ensures ring[a] != ring[b]
  {
    if a < b {
      assert ring[a] + size[ring[a]] < ring[b];
    } else {
      assert ring[b] + size[ring[b]] < ring[a];
    }
  }

  lemma UnlinkOrdered(ring: seq<nat>, size: map<nat, nat>, base: nat, top: nat, j: nat)
    requires Known(ring, size) && Ordered(ring, size) && Sized(ring, size, base) && Below(ring, size, top) && 0 < j < |ring|
    ensures var r := Without(ring, j); Known(r, size) && Ordered(r, size) && Sized(r, size, base) && Below(r, size, top)
  {
    var r := Without(ring, j);
    forall k | 0 <= k < |r| ensures r[k] == ring[if k < j then k else k + 1] {}
  }

  lemma UnlinkApart(h: Heap, ptr: map<nat, nat>, size: map<nat, nat>, base: nat, j: nat)
    requires Sound(h, ptr, size, base) && 0 < j < |h.ring|
    ensures var l := h.lives + [h.ring[j]]; Known(l, size) && LiveApart(l, size) && Bounded(l, size, base, h.top)
    ensures var r, l := Without(h.ring, j), h.lives + [h.ring[j]]; Known(r, size) && FreeApart(r, l, size)
  {
    hide Sum, Linked;
    var r, l := Without(h.ring, j), h.lives + [h.ring[j]];
    assert h.ring[0] + size[h.ring[0]] < h.ring[j];
    forall k, i | 0 <= k < |r| && 0 <= i < |l| ensures r[k] in size && Apart(r[k], l[i], size) {
      WithoutAt(h.ring, j, k);
      var o := if k < j then k else k + 1;
      if i < |h.lives| {
        assert Apart(h.ring[o], h.lives[i], size);
      }
    }
    forall i, k | 0 <= i < k < |l| ensures Apart(l[i], l[k], size) {
      if k < |h.lives| {
        assert Apart(h.lives[i], h.lives[k], size);
      } else {
        assert Apart(h.ring[j], h.lives[i], size);
      }
    }
  }

  function SplitSize(size: map<nat, nat>, p: nat, n: nat): map<nat, nat>
    requires p in size && n < size[p]
  {
    var q := p + size[p] - n;
    size[p := size[p] - n][q := n]
  }

  /** The new header lies inside the free block, away from every other header. */
  lemma SplitInside(h: Heap, ptr: map<nat, nat>, size: map<nat, nat>, base: nat, j: nat, n: nat)
    requires Sound(h, ptr, size, base) && 0 < j < |h.ring| && 0 < n < size[h.ring[j]]
    ensures var size' := SplitSize(size, h.ring[j], n);
      (forall k :: 0 <= k < |h.ring| && k != j ==> h.ring[k] in size' && size'[h.ring[k]] == size[h.ring[k]])
      && (forall i :: 0 <= i < |h.lives| ==> h.lives[i] in size' && size'[h.lives[i]] == size[h.lives[i]])
  {
    hide Sum, Linked, LiveApart;
    forall k | 0 <= k < |h.ring| && k != j ensures h.ring[k] != h.ring[j] && h.ring[k] != h.ring[j] + size[h.ring[j]] - n {
      assert k < j ==> h.ring[k] + size[h.ring[k]] < h.ring[j];
      assert j < k ==> h.ring[j] + size[h.ring[j]] < h.ring[k];
    }
    forall i | 0 <= i < |h.lives| ensures h.lives[i] != h.ring[j] && h.lives[i] != h.ring[j] + size[h.ring[j]] - n {
      assert Apart(h.ring[j], h.lives[i], size);
    }
  }

  lemma SplitShape(h: Heap, ptr: map<nat, nat>, size: map<nat, nat>, base: nat, j: nat, n: nat)
    requires Sound(h, ptr, size, base) && 0 < j < |h.ring| && h.ring[j] in size && 0 < n < size[h.ring[j]]
    ensures var size' := SplitSize(size, h.ring[j], n); Known(h.ring, size') && Ordered(h.ring, size') && Sized(h.ring, size', base) && Below(h.ring, size', h.top)
  {
    hide Sound, Ordered, Sized, Below;
    RingShape(h, ptr, size, base);
    SplitInside(h, ptr, size, base, j, n);
    ShrinkShape(h.ring, size, SplitSize(size, h.ring[j], n), base, h.top, j);
  }

  lemma RingShape(h: Heap, ptr: map<nat, nat>, size: map<nat, nat>, base: nat)
    requires Sound(h, ptr, size, base)
    ensures Known(h.ring, size) && Ordered(h.ring, size) && Sized(h.ring, size, base) && Below(h.ring, size, h.top)
  {
    hide Sum, Linked, LiveApart, FreeApart, Bounded, Ordered, Sized, Below;
  }

  /** One block becomes smaller. */
  lemma ShrinkShape(ring: seq<nat>, size: map<nat, nat>, size': map<nat, nat>, base: nat, top: nat, j: nat)
    requires Known(ring, size) && Ordered(ring, size) && Sized(ring, size, base) && Below(ring, size, top) && 0 < j < |ring|
    requires ring[j] in size' && 0 < size'[ring[j]] <= size[ring[j]] && forall k :: 0 <= k < |ring| && k != j ==> ring[k] in size' && size'[ring[k]] == size[ring[k]]
    ensures Known(ring, size') && Ordered(ring, size') && Sized(ring, size', base) && Below(ring, size', top)
  {
    assert forall k :: 0 <= k < |ring| ==> ring[k] in size' && size'[ring[k]] <= size[ring[k]];
    assert ring[0] in size' && size'[ring[0]] == size[ring[0]];
  }

  lemma SplitFreeApart(h: Heap, ptr: map<nat, nat>, size: map<nat, nat>, base: nat, j: nat, n: nat, k: nat, i: nat)
    requires Sound(h, ptr, size, base) && 0 < j < |h.ring| && h.ring[j] in size && 0 < n < size[h.ring[j]] && k < |h.ring| && i <= |h.lives|
    ensures var size', l := SplitSize(size, h.ring[j], n), h.lives + [h.ring[j] + size[h.ring[j]] - n];
      h.ring[k] in size' && l[i] in size' && Apart(h.ring[k], l[i], size')
  {
    hide Sound, Bounded, Known;
    SplitTail(h, ptr, size, base, j);
    FreeFrom(h, ptr, size, base, j, k);
    if i < |h.lives| {
      ApartAt(h, ptr, size, base, k, i);
      ApartAt(h, ptr, size, base, j, i);
    }
    SplitInside(h, ptr, size, base, j, n);
  }

  lemma ApartAt(h: Heap, ptr: map<nat, nat>, size: map<nat, nat>, base: nat, k: nat, i: nat)
    requires Sound(h, ptr, size, base) && k < |h.ring| && i < |h.lives|
    ensures h.ring[k] in size && h.lives[i] in size && Apart(h.ring[k], h.lives[i], size)
  {
    hide Sum, Linked, LiveApart, Ordered, Bounded, Sized, Below;
  }

  lemma FreeFrom(h: Heap, ptr: map<nat, nat>, size: map<nat, nat>, base: nat, j: nat, k: nat)
    requires Sound(h, ptr, size, base) && j < |h.ring| && k < |h.ring|
    ensures h.ring[j] in size && h.ring[k] in size
    ensures (k < j ==> h.ring[k] + size[h.ring[k]] < h.ring[j]) && (j < k ==> h.ring[j] + size[h.ring[j]] < h.ring[k])
  {
    hide Sum, Linked, LiveApart, FreeApart, Bounded, Sized, Below;
  }

  lemma LivesApart(h: Heap, ptr: map<nat, nat>, size: map<nat, nat>, base: nat, a: nat, b: nat)
    requires Sound(h, ptr, size, base) && a < b < |h.lives|
    ensures h.lives[a] in size && h.lives[b] in size && Apart(h.lives[a], h.lives[b], size)
  {
    hide Sum, Linked, FreeApart, Ordered, Bounded, Sized, Below;
  }

  lemma SplitLiveApart(h: Heap, ptr: map<nat, nat>, size: map<nat, nat>, base: nat, j: nat, n: nat, a: nat, b: nat)
    requires Sound(h, ptr, size, base) && 0 < j < |h.ring| && h.ring[j] in size && 0 < n < size[h.ring[j]] && a < b <= |h.lives|
    ensures var size', l := SplitSize(size, h.ring[j], n), h.lives + [h.ring[j] + size[h.ring[j]] - n];
      l[a] in size' && l[b] in size' && Apart(l[a], l[b], size')
  {
    hide Sound, Bounded, Known;
    SplitTail(h, ptr, size, base, j);
    ApartAt(h, ptr, size, base, j, a);
    if b < |h.lives| {
      LivesApart(h, ptr, size, base, a, b);
    }
    SplitInside(h, ptr, size, base, j, n);
  }

  lemma SplitApart(h: Heap, ptr: map<nat, nat>, size: map<nat, nat>, base: nat, j: nat, n: nat)
    requires Sound(h, ptr, size, base) && 0 < j < |h.ring| && 0 < n < size[h.ring[j]] && Known(h.ring, SplitSize(size, h.ring[j], n))
    ensures var size', l := SplitSize(size, h.ring[j], n), h.lives + [h.ring[j] + size[h.ring[j]] - n];
      Known(l, size') && LiveApart(l, size') && Bounded(l, size', base, h.top) && FreeApart(h.ring, l, size')
  {
    SplitBounded(h, ptr, size, base, j, n);
    var size', l := SplitSize(size, h.ring[j], n), h.lives + [h.ring[j] + size[h.ring[j]] - n];
    hide Sound, Bounded, Apart, SplitSize;
    forall k, i | 0 <= k < |h.ring| && 0 <= i < |l| ensures Apart(h.ring[k], l[i], size') {
      SplitFreeApart(h, ptr, size, base, j, n, k, i);
    }
    forall a, b | 0 <= a < b < |l| ensures Apart(l[a], l[b], size') {
      SplitLiveApart(h, ptr, size, base, j, n, a, b);
    }
  }

  lemma SplitBounded(h: Heap, ptr: map<nat, nat>, size: map<nat, nat>, base: nat, j: nat, n: nat)
    requires Sound(h, ptr, size, base) && 0 < j < |h.ring| && h.ring[j] in size && 0 < n < size[h.ring[j]]
    ensures var size', l := SplitSize(size, h.ring[j], n), h.lives + [h.ring[j] + size[h.ring[j]] - n];
      Known(l, size') && Bounded(l, size', base, h.top)
  {
    hide Sound, Bounded, Known;
    SplitTail(h, ptr, size, base, j);
    SplitInside(h, ptr, size, base, j, n);
    AppendBounded(h.lives, size, SplitSize(size, h.ring[j], n), base, h.top, h.ring[j] + size[h.ring[j]] - n);
  }

  lemma SplitTail(h: Heap, ptr: map<nat, nat>, size: map<nat, nat>, base: nat, j: nat)
    requires Sound(h, ptr, size, base) && 0 < j < |h.ring|
    ensures Known(h.lives, size) && Bounded(h.lives, size, base, h.top) && h.ring[j] in size && base < h.ring[j] && h.ring[j] + size[h.ring[j]] <= h.top
  {
    hide Sum, Linked, LiveApart, FreeApart, Bounded;
    assert h.ring[0] + size[h.ring[0]] < h.ring[j];
  }

  lemma AppendBounded(lives: seq<nat>, size: map<nat, nat>, size': map<nat, nat>, base: nat, top: nat, q: nat)
    requires Known(lives, size) && Bounded(lives, size, base, top) && forall i :: 0 <= i < |lives| ==> lives[i] in size' && size'[lives[i]] == size[lives[i]]
    requires q in size' && size'[q] > 0 && base < q && q + size'[q] <= top
    ensures Known(lives + [q], size') && Bounded(lives + [q], size', base, top)
  {
  }

  lemma SplitRingSum(ring: seq<nat>, size: map<nat, nat>, size': map<nat, nat>, j: nat)
    requires Known(ring, size) && j < |ring| && ring[j] in size' && forall k :: 0 <= k < |ring| && k != j ==> ring[k] in size' && size'[ring[k]] == size[ring[k]]
    ensures Known(ring, size') && Sum(ring, size') + size[ring[j]] == Sum(ring, size) + size'[ring[j]]
  {
    assert Replaced(ring, j, j + 1, ring[j]) == ring && ring[j..j + 1] == [ring[j]];
    SumOne(ring[j], size);
    hide Sum, Replaced;
    ReplaceSum(ring, size, size', j, j + 1, ring[j]);
  }

  lemma SplitSum(h: Heap, ptr: map<nat, nat>, size: map<nat, nat>, base: nat, j: nat, n: nat)
    requires Sound(h, ptr, size, base) && 0 < j < |h.ring| && 0 < n < size[h.ring[j]]
    ensures var size', l := SplitSize(size, h.ring[j], n), h.lives + [h.ring[j] + size[h.ring[j]] - n];
      Known(h.ring, size') && Known(l, size') && Sum(h.ring, size') + Sum(l, size') == h.got
  {
    hide Sum, LiveApart, FreeApart, Ordered, Bounded, Below, Linked, Sized, After;
    SplitInside(h, ptr, size, base, j, n);
    var size', q := SplitSize(size, h.ring[j], n), h.ring[j] + size[h.ring[j]] - n;
    SplitRingSum(h.ring, size, size', j);
    SumSame(h.lives, size, size');
    AppendSum(h.lives, q, size');
  }

  /** The tail of a free block becomes live. */
  lemma SplitSound(h: Heap, ptr: map<nat, nat>, size: map<nat, nat>, base: nat, j: nat, n: nat)
    requires Sound(h, ptr, size, base) && 0 < j < |h.ring| && 0 < n < size[h.ring[j]]
    ensures Sound(h.(lives := h.lives + [h.ring[j] + size[h.ring[j]] - n]), ptr, SplitSize(size, h.ring[j], n), base)
  {
    hide Sum, LiveApart, FreeApart, Ordered, Bounded, Below, Linked, Sized, SplitSize;
    SplitShape(h, ptr, size, base, j, n);
    SplitApart(h, ptr, size, base, j, n);
    SplitSum(h, ptr, size, base, j, n);
  }

  lemma GrowKept(h: Heap, ptr: map<nat, nat>, size: map<nat, nat>, base: nat, hp: nat, nu: nat)
    requires Sound(h, ptr, size, base) && h.top <= hp && base < h.top
    ensures forall k :: 0 <= k < |h.ring| ==> size[hp := nu][h.ring[k]] == size[h.ring[k]] && h.ring[k] < hp && h.ring[k] + size[h.ring[k]] <= hp
    ensures forall k :: 0 <= k < |h.lives| ==> size[hp := nu][h.lives[k]] == size[h.lives[k]] && h.lives[k] + size[h.lives[k]] <= hp
  {
    hide Sum, Linked, LiveApart, FreeApart;
    forall k | 0 <= k < |h.ring| ensures h.ring[k] < hp {
      assert h.ring[k] + size[h.ring[k]] <= h.top && (k > 0 ==> size[h.ring[k]] > 0);
    }
  }

  lemma GrowApart(h: Heap, ptr: map<nat, nat>, size: map<nat, nat>, base: nat, hp: nat, nu: nat)
    requires Sound(h, ptr, size, base) && h.top <= hp && 0 < nu && base < h.top
    ensures var size', l := size[hp := nu], h.lives + [hp];
      Known(h.ring, size') && Known(l, size') && LiveApart(l, size') && FreeApart(h.ring, l, size') && Bounded(l, size', base, hp + nu)
  {
    GrowKept(h, ptr, size, base, hp, nu);
    hide Sum, Linked, Ordered, Sized;
    var size', l := size[hp := nu], h.lives + [hp];
    forall a, b | 0 <= a < b < |l| ensures Apart(l[a], l[b], size') {
      if b < |h.lives| {
        assert Apart(h.lives[a], h.lives[b], size);
      }
    }
    forall k, i | 0 <= k < |h.ring| && 0 <= i < |l| ensures Apart(h.ring[k], l[i], size') {
      if i < |h.lives| {
        assert Apart(h.ring[k], h.lives[i], size);
      }
    }
  }

  lemma GrowShape(h: Heap, ptr: map<nat, nat>, size: map<nat, nat>, base: nat, hp: nat, nu: nat)
    requires Sound(h, ptr, size, base) && h.top <= hp && base < h.top
    ensures var size' := size[hp := nu]; Known(h.ring, size') && Ordered(h.ring, size') && Sized(h.ring, size', base) && Below(h.ring, size', hp + nu)
  {
    GrowKept(h, ptr, size, base, hp, nu);
    hide Sum, Linked, LiveApart, FreeApart, Bounded;
  }

  /** sbrk hands over a block above all others. */
  lemma GrowSound(h: Heap, ptr: map<nat, nat>, size: map<nat, nat>, base: nat, hp: nat, nu: nat)
    requires Sound(h, ptr, size, base) && h.top <= hp && 0 < nu && base < h.top
    ensures Sound(Heap(h.ring, h.lives + [hp], hp + nu, h.got + nu), ptr, size[hp := nu], base)
  {
    var size', l := size[hp := nu], h.lives + [hp];
    GrowKept(h, ptr, size, base, hp, nu);
    GrowShape(h, ptr, size, base, hp, nu);
    GrowApart(h, ptr, size, base, hp, nu);
    hide Sum, LiveApart, FreeApart, Ordered, Bounded, Below, Linked, Sized;
    SumSame(h.ring, size, size');
    SumSame(h.lives, size, size');
    AppendSum(h.lives, hp, size');
  }

  function Core(nu: nat): nat { if nu < MINCORE then MINCORE else nu }

  /** The bytes that morecore asks for, as the int that sbrk takes. */
  function SbrkArg(nu: nat): int {
    var bytes := Core(nu) * UNIT % UINTLIMIT;
    if bytes < INTLIMIT then bytes else bytes - UINTLIMIT
  }

  lemma SbrkArgIs(nu: nat, hp: nat)
    requires nu * UNIT < 2 * UINTLIMIT
    ensures (hp + Core(nu)) * UNIT <= hp * UNIT + SbrkArg(nu) <==> Core(nu) * UNIT < INTLIMIT
  {
  }

  /** A request that sbrk takes for 16 bytes. */
  lemma LargestRequest()
    ensures SbrkArg(Units(UINTLIMIT - 1)) == UNIT && Core(Units(UINTLIMIT - 1)) * UNIT == UINTLIMIT + UNIT
  {
  }

  lemma TakeFacts(h: Heap, ptr: map<nat, nat>, size: map<nat, nat>, base: nat, j: nat)
    requires Sound(h, ptr, size, base) && 0 < j < |h.ring|
    ensures h.ring[j] in ptr && h.ring[j] in size && h.ring[j - 1] in ptr && h.ring[j - 1] >= base
    ensures forall x :: x in h.lives ==> x in size
  {
    hide Sum, LiveApart, FreeApart;
    assert j > 1 ==> h.ring[0] + size[h.ring[0]] < h.ring[j - 1];
  }

  lemma SplitKept(h: Heap, ptr: map<nat, nat>, size: map<nat, nat>, base: nat, j: nat, n: nat)
    requires Sound(h, ptr, size, base) && 0 < j < |h.ring| && h.ring[j] in size && 0 < n < size[h.ring[j]]
    ensures var size' := SplitSize(size, h.ring[j], n); h.ring[j] + size[h.ring[j]] - n in size' && size'[h.ring[j] + size[h.ring[j]] - n] == n
    ensures forall x :: x in h.lives ==> x in size && x in SplitSize(size, h.ring[j], n) && SplitSize(size, h.ring[j], n)[x] == size[x]
  {
    hide Sound;
    LivesIn(h, ptr, size, base);
    SplitInside(h, ptr, size, base, j, n);
  }

  lemma LivesIn(h: Heap, ptr: map<nat, nat>, size: map<nat, nat>, base: nat)
    requires Sound(h, ptr, size, base)
    ensures forall x :: x in h.lives ==> x in size
  {
    hide Sum, LiveApart, FreeApart, Ordered, Linked;
  }

  lemma LivesBelow(h: Heap, ptr: map<nat, nat>, size: map<nat, nat>, base: nat, hp: nat)
    requires Sound(h, ptr, size, base) && h.top <= hp
    ensures forall x :: x in h.lives ==> x < hp
  {
    hide Sum, LiveApart, FreeApart, Ordered, Linked;
  }

  /** What morecore's block has become: part of a free block at least as long. */
  lemma GrownInto(h: Heap, ptr: map<nat, nat>, size: map<nat, nat>, base: nat, h': Heap, size': map<nat, nat>, hp: nat, i: nat, k: nat, last: nat) returns (w: nat)
    requires Sound(h, ptr, size, base) && FreeStep(h, size, h', size', hp, i, k) && last + 1 == |h.lives| && h.lives[last] == hp && hp in size
    requires forall x :: x in h.lives[..last] ==> x < hp
    ensures h'.lives == h.lives[..last] && h'.got == h.got && h'.top == h.top
    ensures w < |h'.ring| && h'.ring[w] in size' && size'[h'.ring[w]] >= size[hp]
    ensures forall x :: x in h'.lives ==> x in size && x in size' && size'[x] == size[x]
  {
    MergeFits(h, ptr, size, base, i, k);
    hide Sound, Gap, Merged;
    assert forall j :: 0 <= j < last ==> h.lives[j] in h.lives[..last];
    assert i == last;
    var m := Merged(h.ring, k, hp, size);
    w := m.a;
  }

  /** The units for nbytes and a header. */
  function Units(nbytes: nat): nat { (nbytes + UNIT - 1) / UNIT + 1 }

  lemma UnitsEnough(nbytes: nat)
    ensures nbytes < UINTLIMIT ==> Units(nbytes) * UNIT <= UINTLIMIT + UNIT
    ensures Units(nbytes) > 0 && (Units(nbytes) - 1) * UNIT >= nbytes && (Units(nbytes) - 2) * UNIT < nbytes
  {
  }

  ghost predicate Fits(ring: seq<nat>, size: map<nat, nat>, n: nat) {
    exists k :: 0 <= k < |ring| && ring[k] in size && size[ring[k]] >= n
  }

  lemma InitFits(base: nat, size: map<nat, nat>, size0: map<nat, nat>, n: nat)
    requires base in size && size[base] == 0 && n > 0
    ensures !Fits([base], size, n) && !Fits([], size0, n)
  {
  }

  lemma IndexOf(ring: seq<nat>, x: nat) returns (f: nat)
    requires x in ring
    ensures f < |ring| && ring[f] == x
  {
    f :| 0 <= f < |ring| && ring[f] == x;
  }

  function Pred(j: nat, n: nat): nat
    requires j < n
  {
    if j == 0 then n - 1 else j - 1
  }

  lemma RingFacts(h: Heap, ptr: map<nat, nat>, size: map<nat, nat>, base: nat)
    requires Sound(h, ptr, size, base)
    ensures Rising(h.ring) && |h.ring| > 0 && h.ring[0] in size && size[h.ring[0]] == 0
    ensures forall k :: 0 <= k < |h.ring| ==> h.ring[k] in ptr && h.ring[k] in size && ptr[h.ring[k]] == h.ring[Succ(k, |h.ring|)]
  {
    hide Sum, LiveApart, FreeApart;
    forall k | 0 <= k < |h.ring| ensures ptr[h.ring[k]] == h.ring[Succ(k, |h.ring|)] {
      assert ptr[h.ring[k]] == After(h.ring, k);
    }
  }

  /** The blocks from behind index f up to, not including, index j are too small. */
  ghost predicate Seen(ring: seq<nat>, size: map<nat, nat>, f: nat, j: nat, n: nat)
    requires f < |ring| && j < |ring|
  {
    var m := |ring|;
    forall k :: 0 <= k < m && Dist(Succ(f, m), k, m) < Dist(Succ(f, m), j, m) ==> ring[k] in size && size[ring[k]] < n
  }

  lemma NoneSeen(ring: seq<nat>, size: map<nat, nat>, f: nat, n: nat)
    requires f < |ring|
    ensures Seen(ring, size, f, Succ(f, |ring|), n)
  {
  }

  lemma SeenNext(ring: seq<nat>, size: map<nat, nat>, f: nat, j: nat, n: nat)
    requires f < |ring| && j < |ring| && Seen(ring, size, f, j, n) && ring[j] in size && size[ring[j]] < n
    ensures j != f ==> Seen(ring, size, f, Succ(j, |ring|), n) && Dist(Succ(j, |ring|), f, |ring|) < Dist(j, f, |ring|)
    ensures j == f ==> forall k :: 0 <= k < |ring| ==> ring[k] in size && size[ring[k]] < n
  {
  }

  lemma SameIndex(ring: seq<nat>, f: nat, j: nat)
    requires Rising(ring) && f < |ring| && j < |ring| && ring[f] == ring[j]
    ensures f == j
  {
  }

  lemma NoFit(ring: seq<nat>, size: map<nat, nat>, f: nat, n: nat, w: nat)
    requires forall k :: 0 <= k < |ring| ==> ring[k] in size && size[ring[k]] < n
    ensures !Fits(ring, size, n) && !HasFit(ring, size, w, n)
  {
  }

  function Left(j: nat, f: nat, n: nat): nat { if j < n && f < n then Dist(j, f, n) else 0 }

  /** The search is at block j, with freep at f; all blocks in between are too small. */
  ghost predicate Cursor(ring: seq<nat>, size: map<nat, nat>, ptr: map<nat, nat>, freep: nat, f: nat, j: nat, prevp: nat, p: nat, n: nat) {
    f < |ring| && j < |ring| && ring[f] == freep && p == ring[j] && prevp == ring[Pred(j, |ring|)] && Seen(ring, size, f, j, n)
  }

  ghost predicate HasFit(ring: seq<nat>, size: map<nat, nat>, w: nat, n: nat) { w < |ring| && ring[w] in size && size[ring[w]] >= n }

  lemma IsHasFit(ring: seq<nat>, size: map<nat, nat>, w: nat, n: nat)
    requires w < |ring| && ring[w] in size && size[ring[w]] >= n
    ensures HasFit(ring, size, w, n)
  {
  }

  ghost predicate Kept(lives: seq<nat>, size0: map<nat, nat>, size: map<nat, nat>) {
    forall x :: x in lives ==> x in size && x in size0 && size[x] == size0[x]
  }

  lemma KeptSelf(h: Heap, ptr: map<nat, nat>, size: map<nat, nat>, base: nat)
    requires Sound(h, ptr, size, base)
    ensures Kept(h.lives, size, size)
  {
    LivesIn(h, ptr, size, base);
    hide Sound;
  }

  lemma KeptOn(lives: seq<nat>, size0: map<nat, nat>, size1: map<nat, nat>, size: map<nat, nat>)
    requires Kept(lives, size0, size1) && forall x :: x in lives ==> x in size && x in size1 && size[x] == size1[x]
    ensures Kept(lives, size0, size)
    ensures forall x :: x in lives ==> x in size && x in size0 && size[x] == size0[x]
  {
  }

  /** The search starts, or starts again, behind freep. */
  lemma Begin(h: Heap, ptr: map<nat, nat>, size: map<nat, nat>, base: nat, freep: nat, n: nat) returns (f: nat)
    requires Sound(h, ptr, size, base) && freep in h.ring
    ensures f < |h.ring| && freep in ptr && Cursor(h.ring, size, ptr, freep, f, Succ(f, |h.ring|), freep, ptr[freep], n)
  {
    hide Sound, Seen, Cursor;
    f := IndexOf(h.ring, freep);
    RingFacts(h, ptr, size, base);
    BeginAt(h.ring, size, ptr, f, n);
  }

  lemma BeginAt(ring: seq<nat>, size: map<nat, nat>, ptr: map<nat, nat>, f: nat, n: nat)
    requires f < |ring| && ring[f] in ptr && ptr[ring[f]] == ring[Succ(f, |ring|)]
    ensures Cursor(ring, size, ptr, ring[f], f, Succ(f, |ring|), ring[f], ptr[ring[f]], n)
  {
    hide Seen;
    NoneSeen(ring, size, f, n);
  }

  lemma At(h: Heap, ptr: map<nat, nat>, size: map<nat, nat>, base: nat, freep: nat, f: nat, j: nat, prevp: nat, p: nat, n: nat)
    requires Sound(h, ptr, size, base) && Cursor(h.ring, size, ptr, freep, f, j, prevp, p, n) && n > 0
    ensures p in size && p in ptr && j < |h.ring| && p == h.ring[j] && ptr[p] == h.ring[Succ(j, |h.ring|)]
    ensures size[p] >= n ==> j > 0 && prevp == h.ring[j - 1] && Fits(h.ring, size, n)
  {
    RingFacts(h, ptr, size, base);
    hide Sound;
  }

  /** A block that is too small: on to the next, or, back at freep, none fits. */
  lemma Miss(h: Heap, ptr: map<nat, nat>, size: map<nat, nat>, base: nat, freep: nat, f: nat, j: nat, prevp: nat, p: nat, n: nat, w: nat)
    requires Sound(h, ptr, size, base) && Cursor(h.ring, size, ptr, freep, f, j, prevp, p, n) && p in size && size[p] < n
    ensures p == freep ==> !Fits(h.ring, size, n) && !HasFit(h.ring, size, w, n)
    ensures p in ptr && j < |h.ring|
    ensures p != freep ==> Cursor(h.ring, size, ptr, freep, f, Succ(j, |h.ring|), p, ptr[p], n) && Left(Succ(j, |h.ring|), f, |h.ring|) < Left(j, f, |h.ring|)
  {
    RingFacts(h, ptr, size, base);
    hide Sound, Seen, Rising, HasFit, Fits, Dist;
    SeenNext(h.ring, size, f, j, n);
    PredSucc(j, |h.ring|);
    if p == freep {
      SameIndex(h.ring, f, j);
      NoFit(h.ring, size, f, n, w);
    }
  }

  lemma PredSucc(j: nat, n: nat)
    requires j < n
    ensures Succ(j, n) < n && Pred(Succ(j, n), n) == j
  {
  }
}
