/** The disk: an image of BSIZE-byte blocks that is changed one whole block at a
    time. A block is seen as 256 little-endian 32-bit words, because the log
    header is an array of ints. */
module Disk {

  const WORDS: nat := 256  // BSIZE / sizeof(uint)

  type Word = w: int | 0 <= w < 0x1_0000_0000
  type Block = b: seq<Word> | |b| == WORDS witness seq(WORDS, _ => 0)
  type Image = seq<Block>

  datatype Write = Write(blockno: nat, data: Block)

  function Put(d: Image, w: Write): Image {
    if w.blockno < |d| then d[w.blockno := w.data] else d
  }

  /** The image after the writes `ws`, in order. */
  function Apply(d: Image, ws: seq<Write>): (r: Image)
    ensures |r| == |d| && (ws == [] ==> r == d)
    decreases |ws|
  {
    if ws == [] then d else Put(Apply(d, ws[..|ws| - 1]), ws[|ws| - 1])
  }

  predicate Touches(ws: seq<Write>, b: nat) {
    exists i :: 0 <= i < |ws| && ws[i].blockno == b
  }

  lemma {:induction false} ApplyConcat(d: Image, xs: seq<Write>, ys: seq<Write>)
    ensures Apply(d, xs + ys) == Apply(Apply(d, xs), ys)
    decreases |ys|
  {
    if ys == [] {
      assert xs + ys == xs;
    } else {
      var zs := ys[..|ys| - 1];
      assert (xs + ys)[..|xs + ys| - 1] == xs + zs;
      ApplyConcat(d, xs, zs);
    }
  }

  lemma ApplyOne(d: Image, w: Write)
    ensures Apply(d, [w]) == Put(d, w)
  {
    assert [w][..0] == [];
  }

  lemma ApplyNext(d: Image, ws: seq<Write>, k: nat)
    requires k < |ws|
    ensures ws[..k + 1] == ws[..k] + [ws[k]]
    ensures Apply(d, ws[..k + 1]) == Put(Apply(d, ws[..k]), ws[k]) == Apply(Apply(d, ws[..k]), [ws[k]])
  {
    assert ws[..k + 1][..k] == ws[..k];
    ApplyOne(Apply(d, ws[..k]), ws[k]);
  }

  /** A block that is written takes a value that does not depend on the image the
      writes start from; a block that is not written keeps its value. */
  lemma {:induction false} ApplyAt(d: Image, e: Image, ws: seq<Write>, b: nat)
    requires |d| == |e| && b < |d|
    ensures Touches(ws, b) ==> Apply(d, ws)[b] == Apply(e, ws)[b]
    ensures !Touches(ws, b) ==> Apply(d, ws)[b] == d[b]
    decreases |ws|
  {
    if ws != [] {
      var front := ws[..|ws| - 1];
      ApplyAt(d, e, front, b);
      assert forall i :: 0 <= i < |front| ==> front[i] == ws[i];
      if ws[|ws| - 1].blockno != b && Touches(ws, b) {
        var i :| 0 <= i < |ws| && ws[i].blockno == b;
        assert front[i].blockno == b;
      }
    }
  }

  /** The last write to a block decides what it holds. */
  lemma {:induction false} ApplyLast(d: Image, ws: seq<Write>, i: nat)
    requires i < |ws| && ws[i].blockno < |d|
    requires forall j :: i < j < |ws| ==> ws[j].blockno != ws[i].blockno
    ensures Apply(d, ws)[ws[i].blockno] == ws[i].data
    decreases |ws|
  {
    if i < |ws| - 1 {
      ApplyLast(d, ws[..|ws| - 1], i);
    }
  }

  /** The device the kernel drives: every write replaces one block atomically and
      is recorded, so that the states a power failure can leave behind are exactly
      the prefixes of `writes`. */
  class Device {
    var blocks: Image
    ghost var writes: seq<Write>

    constructor (image: Image)
      ensures blocks == image && writes == []
    {
      blocks, writes := image, [];
    }

    method WriteBlock(b: nat, data: Block)
      requires b < |blocks|
      modifies this
      ensures blocks == Put(old(blocks), Write(b, data))
      ensures writes == old(writes) + [Write(b, data)]
    {
      blocks := blocks[b := data];
      writes := writes + [Write(b, data)];
    }
  }
}
