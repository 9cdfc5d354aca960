/** Pipes: a ring of bytes between writers and readers. Each method below is what a
    process does from acquiring the pipe's lock until it sleeps or releases it, so any
    order of calls is an interleaving of writers, readers and closes. */
module Pipe {

  const PIPESIZE: nat := 512
  const WRAP: nat := 0x1_0000_0000   // the counters are 32 bits wide

  type Byte = x: int | 0 <= x < 256

  datatype Outcome = Returned(value: int) | Slept

  function Slot(n: nat): (r: nat)
    ensures r < PIPESIZE
  {
    n % PIPESIZE
  }

  /** The bytes written and not yet removed, where the ring keeps them. */
  ghost predicate Holds(data: seq<Byte>, written: seq<Byte>, removed: seq<Byte>) {
    |data| == PIPESIZE && removed <= written && |written| <= |removed| + PIPESIZE
    && forall j :: |removed| <= j < |written| ==> data[Slot(j)] == written[j]
  }

  lemma SlotsApart(a: nat, b: nat)
    requires a < b < a + PIPESIZE
    ensures Slot(a) != Slot(b)
  {
  }

  /** Reduced counters name the same slot. */
  lemma SlotWrap(n: nat)
    ensures Slot(n % WRAP) == Slot(n)
  {
    assert n == n / WRAP * WRAP + n % WRAP;
    assert n / WRAP * WRAP == (n / WRAP * 0x80_0000) * PIPESIZE;
  }

  lemma Step(n: nat)
    ensures (n % WRAP + 1) % WRAP == (n + 1) % WRAP
  {
  }

  /** Equality tests on the reduced counters are exact: empty, and full. */
  lemma Tests(r: nat, w: nat)
    requires r <= w <= r + PIPESIZE
    ensures r % WRAP == w % WRAP <==> r == w
    ensures w % WRAP == (r % WRAP + PIPESIZE) % WRAP <==> w == r + PIPESIZE
    ensures (w % WRAP - r % WRAP) % WRAP == w - r
  {
  }

  lemma Put(data: seq<Byte>, written: seq<Byte>, removed: seq<Byte>, ch: Byte)
    requires Holds(data, written, removed) && |written| < |removed| + PIPESIZE
    ensures Holds(data[Slot(|written|) := ch], written + [ch], removed)
  {
    var d, w := data[Slot(|written|) := ch], written + [ch];
    forall j | |removed| <= j < |w| ensures d[Slot(j)] == w[j] {
      if j < |written| {
        SlotsApart(j, |written|);
      }
    }
  }

  lemma Get(data: seq<Byte>, written: seq<Byte>, removed: seq<Byte>)
    requires Holds(data, written, removed) && |removed| < |written|
    ensures data[Slot(|removed|)] == written[|removed|] && Holds(data, written, removed + [written[|removed|]])
  {
  }

  datatype Stop = Gone | Filled | Failed | Done   // no reader or killed, full, copyin failed, all written

  /** When a writer of n bytes from index i on leaves a sleeping reader behind. */
  predicate Strands(readers: set<nat>, readopen: bool, n: nat, i: nat, killAt: nat, failAt: nat) {
    readers != {} && readopen && i < killAt < n && killAt <= failAt && killAt <= i + PIPESIZE
  }

  lemma OneMore(buf: seq<Byte>, i: nat, j: nat)
    requires i <= j < |buf|
    ensures buf[i..j] + [buf[j]] == buf[i..j + 1]
  {
  }

  class Pipe {
    var data: seq<Byte>
    var nread: nat
    var nwrite: nat
    var readopen: bool
    var writeopen: bool
    var readers: set<nat>          // processes asleep on &pi->nread
    var writers: set<nat>          // processes asleep on &pi->nwrite
    ghost var written: seq<Byte>   // all bytes ever appended
    ghost var removed: seq<Byte>   // all bytes ever taken out
    ghost var owing: bool          // a writer has appended and left without its wakeup

    /** The bytes taken out are a prefix of the bytes put in, and the ring and its reduced
        counters hold the rest. */
    ghost predicate Fifo()
      reads this`data, this`nread, this`nwrite, this`written, this`removed
    {
      Holds(data, written, removed) && nread == |removed| % WRAP && nwrite == |written| % WRAP
    }

    /** With no lock held a sleeping writer means a full pipe that can be read, and a
        sleeping reader an empty one that can be written, unless a killed writer owes a
        wakeup. */
    ghost predicate Valid()
      reads this
    {
      Fifo() && (writers != {} ==> |written| == |removed| + PIPESIZE && readopen)
      && (readers != {} && !owing ==> |written| == |removed| && writeopen)
    }

    constructor ()
      ensures Valid() && written == removed == [] && readers == writers == {} && readopen && writeopen && !owing
    {
      data, nread, nwrite, readopen, writeopen := seq(PIPESIZE, _ => 0), 0, 0, true, true;
      readers, writers, written, removed, owing := {}, {}, [], [], false;
    }

    /** pipewrite of buf from index i on. The process is found killed from index killAt
        on, and copyin fails from index failAt on. Each byte appended is the next byte of
        buf. The call sleeps exactly with a full pipe; it owes a wakeup exactly if it
        returns -1 after appending something. So it leaves a reader asleep with data in
        the pipe exactly if one sleeps and the writer is killed after its first byte,
        before its last, before the pipe is full and before a copyin fails. */
    method Write(id: nat, buf: seq<Byte>, i: nat, killAt: nat, failAt: nat) returns (out: Outcome, j: nat)
      requires Valid() && i <= |buf|
      modifies this
      ensures Valid() && i <= j <= |buf| && written == old(written) + buf[i..j] && removed == old(removed)
      ensures readopen == old(readopen) && writeopen == old(writeopen)
      ensures out == Returned(-1) <==> j < |buf| && (!readopen || j >= killAt)
      ensures out == Slept <==> j < |buf| && readopen && j < killAt && |written| == |removed| + PIPESIZE
      ensures out != Slept && out != Returned(-1) ==> out == Returned(j) && (j == |buf| || j >= failAt)
      ensures j > i ==> j <= killAt && j <= failAt && readopen
      ensures writers == old(writers) + if out == Slept then {id} else {}
      ensures out == Returned(-1) ==> readers == old(readers) && owing == (old(owing) || j > i)
      ensures out != Returned(-1) ==> readers == {} && !owing
      ensures !old(owing) ==> (readers != {} && |written| != |removed| <==> out == Returned(-1) && j > i && old(readers) != {})
      ensures !old(owing) ==> (readers != {} && |written| != |removed| <==> Strands(old(readers), old(readopen), |buf|, i, killAt, failAt))
    {
      hide Fifo;
      var why;
      j, why := Fill(buf, i, killAt, failAt);
      match why
      case Gone =>
        owing := owing || j > i;
        return Returned(-1), j;
      case Filled =>
        readers := {};
        owing := false;
        writers := writers + {id};
        return Slept, j;
      case _ =>
        readers := {};
        owing := false;
        out := Returned(j);
    }

    /** pipewrite's loop up to a sleep or its end, and why it stops there. */
    method Fill(buf: seq<Byte>, i: nat, killAt: nat, failAt: nat) returns (j: nat, why: Stop)
      requires Fifo() && i <= |buf|
      modifies this`data, this`nwrite, this`written
      ensures Fifo() && i <= j <= |buf| && written == old(written) + buf[i..j] && |removed| <= |old(written)| && |written| <= |removed| + PIPESIZE
      ensures j > i ==> readopen && j <= killAt && j <= failAt && |old(written)| < |removed| + PIPESIZE
      ensures match why
        case Gone => j < |buf| && (!readopen || j >= killAt)
        case Filled => j < |buf| && readopen && j < killAt && |written| == |removed| + PIPESIZE
        case Failed => j < |buf| && readopen && j < killAt && |written| < |removed| + PIPESIZE && j >= failAt
        case Done => j == |buf|
    {
      hide Fifo;
      j := i;
      assert buf[i..i] == [];
      var full := Full();
      while j < |buf|
        invariant i <= j <= |buf| && Fifo() && written == old(written) + buf[i..j] && |written| <= |removed| + PIPESIZE
        invariant j > i ==> readopen && j <= killAt && j <= failAt && |old(written)| < |removed| + PIPESIZE
      {
        if !readopen || j >= killAt {
          return j, Gone;
        }
        full := Full();
        if full {
          return j, Filled;
        }
        if j >= failAt {
          return j, Failed;
        }
        OneMore(buf, i, j);
        Append(buf[j]);
        j := j + 1;
      }
      why := Done;
    }

    method Full() returns (full: bool)
      requires Fifo()
      ensures full == (|written| == |removed| + PIPESIZE) && |removed| <= |written| <= |removed| + PIPESIZE
    {
      Tests(|removed|, |written|);
      full := nwrite == (nread + PIPESIZE) % WRAP;
    }

    method Empty() returns (empty: bool)
      requires Fifo()
      ensures empty == (|written| == |removed|) && |removed| <= |written| <= |removed| + PIPESIZE
    {
      Tests(|removed|, |written|);
      empty := nread == nwrite;
    }

    method Append(ch: Byte)
      requires Fifo() && |written| < |removed| + PIPESIZE
      modifies this`data, this`nwrite, this`written
      ensures Fifo() && written == old(written) + [ch]
    {
      Put(data, written, removed, ch);
      SlotWrap(|written|);
      Step(|written|);
      hide Holds, Slot;
      data := data[Slot(nwrite) := ch];
      nwrite := (nwrite + 1) % WRAP;
      written := written + [ch];
    }

    method Remove() returns (ch: Byte)
      requires Fifo() && |removed| < |written|
      modifies this`nread, this`removed
      ensures Fifo() && |old(removed)| < |written| && ch == written[|old(removed)|] && removed == old(removed) + [ch]
    {
      Get(data, written, removed);
      SlotWrap(|removed|);
      Step(|removed|);
      hide Holds, Slot;
      ch := data[Slot(nread)];
      nread := (nread + 1) % WRAP;
      removed := removed + [ch];
    }

    /** piperead of at most n bytes. copyout fails from index failAt on; the byte it fails
        on has been removed and is lost. The call sleeps exactly if the pipe is empty, can
        be written and the process has not been killed. */
    method Read(id: nat, n: nat, killed: bool, failAt: nat) returns (out: Outcome, got: seq<Byte>)
      requires Valid()
      modifies this
      ensures Valid() && written == old(written) && readopen == old(readopen) && writeopen == old(writeopen) && owing == old(owing)
      ensures |old(removed)| <= |old(written)| && removed == old(removed) + got
      ensures var wait := |old(written)| == |old(removed)| && writeopen;
        out == (if wait then (if killed then Returned(-1) else Slept) else Returned(Least(Least(n, |old(written)| - |old(removed)|), failAt)))
      ensures |got| == (var m := Least(n, |old(written)| - |old(removed)|); if failAt < m then failAt + 1 else m)
      ensures if out == Slept then readers == old(readers) + {id} && writers == old(writers) else readers == old(readers)
      ensures out.Returned? && out.value >= 0 ==> writers == {}
      ensures out == Returned(-1) ==> writers == old(writers)
    {
      hide Fifo;
      got := [];
      var empty := Empty();
      if empty && writeopen {
        if killed {
          return Returned(-1), got;
        }
        readers := readers + {id};
        return Slept, got;
      }
      var i := 0;
      while i < n
        invariant 0 <= i <= n && i <= failAt && |got| == i && Fifo() && written == old(written) && removed == old(removed) + got && |removed| <= |written|
        invariant readopen == old(readopen) && writeopen == old(writeopen) && owing == old(owing) && readers == old(readers)
      {
        empty := Empty();
        if empty {
          break;
        }
        var ch := Remove();
        got := got + [ch];
        if i >= failAt {
          break;
        }
        i := i + 1;
      }
      writers := {};
      out := Returned(i);
    }

    /** pipeclose: close one end and wake whoever waits for the other. `gone` says that
        both ends are closed and the pipe's page is freed. */
    method Close(writable: bool) returns (gone: bool)
      requires Valid()
      modifies this`readopen, this`writeopen, this`readers, this`writers, this`owing
      ensures Valid() && gone == (!readopen && !writeopen)
      ensures if writable then !writeopen && readers == {} && readopen == old(readopen) && writers == old(writers)
        else !readopen && writers == {} && writeopen == old(writeopen) && readers == old(readers)
    {
      if writable {
        writeopen := false;
        readers, owing := {}, false;
      } else {
        readopen := false;
        writers := {};
      }
      gone := !readopen && !writeopen;
    }

    /** kill wakes a sleeping process. */
    method Rouse(id: nat)
      requires Valid()
      modifies this`readers, this`writers
      ensures Valid() && readers == old(readers) - {id} && writers == old(writers) - {id}
    {
      readers, writers := readers - {id}, writers - {id};
    }
  }

  /** The exception is real: a reader sleeps, a writer appends a byte, is killed and leaves,
      and the reader sleeps on with the byte in the pipe. */
  method KilledWriterStrandsReader() returns (p: Pipe)
    ensures fresh(p) && p.Valid() && p.readers != {} && p.writeopen && |p.written| == |p.removed| + 1
  {
    p := new Pipe();
    var out, got := p.Read(1, 1, false, 1);
    var sent;
    out, sent := p.Write(2, [7, 8], 0, 1, 2);
    assert sent == 1;
  }

  function Least(a: int, b: int): int { if a < b then a else b }
}
