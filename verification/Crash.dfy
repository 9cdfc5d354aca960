/** What the redo log promises across crashes, as a statement about images and
    write sequences. The methods of the log are tied to the write sequences
    defined here. */
module Crash {
  import opened Param
  import opened Disk

  /** Where the log lies: header at `start`, log blocks behind it. */
  datatype Layout = Layout(start: nat, nlog: nat, size: nat) {
    predicate Valid() { 0 < nlog && start + nlog <= size < 0x1_0000_0000 }
    predicate InLog(b: nat) { start <= b < start + nlog }
    predicate Home(b: nat) { b < size && !InLog(b) }
    function Capacity(): nat requires 0 < nlog { if nlog - 1 < LOGSIZE then nlog - 1 else LOGSIZE }
  }

  /** A transaction is the list of home blocks it replaces. */
  predicate IsTxn(lay: Layout, t: seq<Write>)
    requires lay.Valid()
  {
    |t| <= lay.Capacity() && forall i :: 0 <= i < |t| ==> lay.Home(t[i].blockno)
  }

  function Numbers(t: seq<Write>): (r: seq<nat>)
    ensures |r| == |t| && forall i :: 0 <= i < |t| ==> r[i] == t[i].blockno
  {
    seq(|t|, i requires 0 <= i < |t| => t[i].blockno)
  }

  predicate GoodHeader(lay: Layout, h: Block)
    requires lay.Valid()
  {
    h[0] <= lay.Capacity() && forall i :: 1 <= i <= h[0] ==> lay.Home(h[i])
  }

  function HeaderBlocks(h: Block): seq<nat>
    requires h[0] < WORDS
  {
    seq(h[0], i requires 0 <= i < h[0] => h[i + 1] as nat)
  }

  /** write_head replaces the count and the first entries; what lies behind them
      in the header block stays. */
  function EncodeHeader(old_: Block, bs: seq<nat>): (h: Block)
    requires |bs| < WORDS && forall i :: 0 <= i < |bs| ==> bs[i] < 0x1_0000_0000
    ensures h[0] == |bs| && HeaderBlocks(h) == bs
  {
    var h := seq(WORDS, i requires 0 <= i < WORDS =>
      if i == 0 then |bs| as Word else if i <= |bs| then bs[i - 1] as Word else old_[i]);
    assert HeaderBlocks(h) == bs;
    h
  }

  predicate GoodImage(lay: Layout, d: Image) {
    lay.Valid() && |d| == lay.size && GoodHeader(lay, d[lay.start])
  }

  /** The transaction that the header and log blocks of `d` describe. */
  function LogTxn(lay: Layout, d: Image): (t: seq<Write>)
    requires GoodImage(lay, d)
    ensures |t| == d[lay.start][0]
    ensures forall i :: 0 <= i < |t| ==> t[i] == Write(d[lay.start][i + 1], d[lay.start + 1 + i])
    ensures IsTxn(lay, t)
  {
    var n := d[lay.start][0] as nat;
    seq(n, i requires 0 <= i < n => Write(d[lay.start][i + 1], d[lay.start + 1 + i]))
  }

  predicate SameHome(lay: Layout, d: Image, e: Image) {
    |d| == |e| == lay.size && forall b :: 0 <= b < lay.size && !lay.InLog(b) ==> d[b] == e[b]
  }

  /** Booting from `d` will leave the home blocks as they are in `h`. */
  predicate Recoverable(lay: Layout, d: Image, h: Image) {
    GoodImage(lay, d) && |h| == lay.size && SameHome(lay, Apply(d, LogTxn(lay, d)), h)
  }

  predicate Clean(lay: Layout, d: Image, h: Image) {
    GoodImage(lay, d) && d[lay.start][0] == 0 && SameHome(lay, d, h)
  }

  // ----- the writes of commit() and recover_from_log() -----

  function LogWrites(lay: Layout, t: seq<Write>): (r: seq<Write>)
    ensures |r| == |t| && forall i :: 0 <= i < |t| ==> r[i] == Write(lay.start + 1 + i, t[i].data)
  {
    seq(|t|, i requires 0 <= i < |t| => Write(lay.start + 1 + i, t[i].data))
  }

  function HeadWrite(lay: Layout, h: Block, bs: seq<nat>): Write
    requires |bs| < WORDS && forall i :: 0 <= i < |bs| ==> bs[i] < 0x1_0000_0000
  {
    Write(lay.start, EncodeHeader(h, bs))
  }

  function CommitWrites(lay: Layout, h: Block, t: seq<Write>): seq<Write>
    requires lay.Valid() && IsTxn(lay, t)
  {
    if t == [] then [] else
      var head := HeadWrite(lay, h, Numbers(t));
      LogWrites(lay, t) + [head] + t + [HeadWrite(lay, head.data, [])]
  }

  function RecoveryWrites(lay: Layout, d: Image): seq<Write>
    requires GoodImage(lay, d)
  {
    LogTxn(lay, d) + [HeadWrite(lay, d[lay.start], [])]
  }

  // ----- runs -----

  /** One boot's worth of activity is a list of commits ended by a crash; booting
      runs recovery, which may itself be cut short, again and again. `crash` is the
      number of block writes that reached the disk before the power failed. */
  datatype Event =
    | Commit(t: seq<Write>, crash: Crash)
    | Recover(crash: Crash)
    | PowerOff
  datatype Crash = Completes | After(k: nat)

  datatype Machine = Machine(d: Image, up: bool)

  function Cut(ws: seq<Write>, c: Crash): seq<Write> {
    if c.After? && c.k < |ws| then ws[..c.k] else ws
  }

  predicate Enabled(lay: Layout, m: Machine, e: Event) {
    GoodImage(lay, m.d) &&
    match e
    case Commit(t, c) => m.up && IsTxn(lay, t)
    case Recover(c) => !m.up
    case PowerOff => true
  }

  function Step(lay: Layout, m: Machine, e: Event): Machine
    requires Enabled(lay, m, e)
  {
    match e
    case Commit(t, c) => Machine(Apply(m.d, Cut(CommitWrites(lay, m.d[lay.start], t), c)), c.Completes?)
    case Recover(c) => Machine(Apply(m.d, Cut(RecoveryWrites(lay, m.d), c)), c.Completes?)
    case PowerOff => Machine(m.d, false)
  }

  /** What a step makes durable: a transaction counts from the moment its first
      header write, the one after its |t| log blocks, has reached the disk. */
  function Durable(h: Image, e: Event): (r: Image)
    ensures |r| == |h|
  {
    match e
    case Commit(t, c) => if c.Completes? || |t| < c.k then Apply(h, t) else h
    case _ => h
  }

  function DurableAll(h: Image, es: seq<Event>): (r: Image)
    ensures |r| == |h|
    decreases |es|
  {
    if es == [] then h else DurableAll(Durable(h, es[0]), es[1..])
  }

  /** `ms` is a run over `es`: ms[i] --es[i]--> ms[i+1]. */
  predicate IsRun(lay: Layout, ms: seq<Machine>, es: seq<Event>) {
    |ms| == |es| + 1 &&
    forall i :: 0 <= i < |es| ==> Enabled(lay, ms[i], es[i]) && ms[i + 1] == Step(lay, ms[i], es[i])
  }

  // ----- lemmas -----

  /** Redoing a transaction over any image that already holds a prefix of it. */
  lemma RedoAfterPrefix(lay: Layout, d: Image, t: seq<Write>, k: nat)
    requires |d| == lay.size && k <= |t|
    ensures SameHome(lay, Apply(Apply(d, t[..k]), t), Apply(d, t))
  {
    var e := Apply(d, t[..k]);
    forall b | 0 <= b < lay.size
      ensures Apply(e, t)[b] == Apply(d, t)[b]
    {
      ApplyAt(e, d, t, b);
      ApplyAt(d, e, t, b);
      if !Touches(t, b) {
        assert !Touches(t[..k], b);
        ApplyAt(d, e, t[..k], b);
      }
    }
  }

  /** Writes that stay outside the log leave header and log blocks alone. */
  lemma HomeWritesKeepLog(lay: Layout, d: Image, ws: seq<Write>)
    requires GoodImage(lay, d) && forall i :: 0 <= i < |ws| ==> lay.Home(ws[i].blockno)
    ensures GoodImage(lay, Apply(d, ws)) && Apply(d, ws)[lay.start] == d[lay.start]
    ensures LogTxn(lay, Apply(d, ws)) == LogTxn(lay, d)
  {
    var e := Apply(d, ws);
    forall b: nat | lay.InLog(b) ensures e[b] == d[b] {
      assert !Touches(ws, b);
      ApplyAt(d, d, ws, b);
    }
    assert LogTxn(lay, e) == LogTxn(lay, d);
  }

  lemma SameHomeApply(lay: Layout, d: Image, e: Image, ws: seq<Write>)
    requires SameHome(lay, d, e)
    ensures SameHome(lay, Apply(d, ws), Apply(e, ws))
  {
    forall b | 0 <= b < lay.size && !lay.InLog(b)
      ensures Apply(d, ws)[b] == Apply(e, ws)[b]
    {
      ApplyAt(d, e, ws, b);
      ApplyAt(e, d, ws, b);
    }
  }

  lemma LogAreaWritesKeepHome(lay: Layout, d: Image, ws: seq<Write>)
    requires |d| == lay.size && forall i :: 0 <= i < |ws| ==> lay.InLog(ws[i].blockno)
    ensures SameHome(lay, Apply(d, ws), d)
  {
    forall b | 0 <= b < lay.size && !lay.InLog(b)
      ensures Apply(d, ws)[b] == d[b]
    {
      assert !Touches(ws, b);
      ApplyAt(d, d, ws, b);
    }
  }

  /** Any cut of recovery leaves an image from which recovery reaches the same state. */
  lemma RecoveryCut(lay: Layout, d: Image, h: Image, k: nat)
    requires Recoverable(lay, d, h) && k <= |RecoveryWrites(lay, d)|
    ensures Recoverable(lay, Apply(d, RecoveryWrites(lay, d)[..k]), h)
    ensures k == |RecoveryWrites(lay, d)| ==> Clean(lay, Apply(d, RecoveryWrites(lay, d)), h)
  {
    var t := LogTxn(lay, d);
    var ws := RecoveryWrites(lay, d);
    if k <= |t| {
      assert ws[..k] == t[..k];
      HomeWritesKeepLog(lay, d, t[..k]);
      RedoAfterPrefix(lay, d, t, k);
    } else {
      assert ws[..k] == ws == t + [ws[|t|]];
      ClearAfterInstall(lay, d, t, h);
    }
  }

  lemma ClearAfterInstall(lay: Layout, d: Image, t: seq<Write>, h: Image)
    requires GoodImage(lay, d) && IsTxn(lay, t) && SameHome(lay, Apply(d, t), h)
    ensures Clean(lay, Apply(d, t + [HeadWrite(lay, d[lay.start], [])]), h)
    ensures Recoverable(lay, Apply(d, t + [HeadWrite(lay, d[lay.start], [])]), h)
  {
    var clear := [HeadWrite(lay, d[lay.start], [])];
    ApplyConcat(d, t, clear);
    var e := Apply(Apply(d, t), clear);
    assert Apply(Apply(d, t), clear[..0]) == Apply(d, t);
    LogAreaWritesKeepHome(lay, Apply(d, t), clear);
    assert LogTxn(lay, e) == [];
  }

  /** While the log blocks are written, header and home blocks do not change. */
  lemma AfterLogWrites(lay: Layout, d: Image, t: seq<Write>, k: nat)
    requires GoodImage(lay, d) && IsTxn(lay, t) && k <= |t|
    ensures var e := Apply(d, LogWrites(lay, t)[..k]);
      e[lay.start] == d[lay.start] && SameHome(lay, e, d)
  {
    var ws := LogWrites(lay, t)[..k];
    LogAreaWritesKeepHome(lay, d, ws);
    assert !Touches(ws, lay.start);
    ApplyAt(d, d, ws, lay.start);
  }

  /** An image whose header names the blocks of `t` and whose log blocks hold its
      data describes `t`. */
  lemma HeaderDescribes(lay: Layout, e: Image, h: Block, t: seq<Write>)
    requires lay.Valid() && |e| == lay.size && IsTxn(lay, t)
    requires e[lay.start] == HeadWrite(lay, h, Numbers(t)).data
    requires forall i :: 0 <= i < |t| ==> e[lay.start + 1 + i] == t[i].data
    ensures GoodImage(lay, e) && LogTxn(lay, e) == t
  {
    forall i | 1 <= i <= |t| ensures e[lay.start][i] == t[i - 1].blockno {
      assert HeaderBlocks(e[lay.start])[i - 1] == Numbers(t)[i - 1];
    }
    assert LogTxn(lay, e) == t;
  }

  lemma AfterCommitPoint(lay: Layout, d: Image, t: seq<Write>)
    requires GoodImage(lay, d) && IsTxn(lay, t)
    ensures var head := HeadWrite(lay, d[lay.start], Numbers(t));
      var e := Apply(d, LogWrites(lay, t) + [head]);
      GoodImage(lay, e) && e[lay.start] == head.data && LogTxn(lay, e) == t && SameHome(lay, e, d)
  {
    var head := HeadWrite(lay, d[lay.start], Numbers(t));
    var ws := LogWrites(lay, t) + [head];
    var e := Apply(d, ws);
    LogAreaWritesKeepHome(lay, d, ws);
    ApplyLast(d, ws, |t|);
    forall i | 0 <= i < |t| ensures e[lay.start + 1 + i] == t[i].data {
      ApplyLast(d, ws, i);
    }
    HeaderDescribes(lay, e, d[lay.start], t);
  }

  /** Any cut of a commit leaves the old state recoverable up to the commit point
      and the new state recoverable from it on. */
  lemma CommitCut(lay: Layout, d: Image, h: Image, t: seq<Write>, k: nat)
    requires Clean(lay, d, h) && IsTxn(lay, t) && k <= |CommitWrites(lay, d[lay.start], t)|
    ensures var e := Apply(d, CommitWrites(lay, d[lay.start], t)[..k]);
      Recoverable(lay, e, if |t| < k then Apply(h, t) else h)
    ensures k == |CommitWrites(lay, d[lay.start], t)| ==>
      Clean(lay, Apply(d, CommitWrites(lay, d[lay.start], t)), Apply(h, t))
  {
    var ws := CommitWrites(lay, d[lay.start], t);
    if t == [] {
      assert ws[..k] == [];
    } else if k <= |t| {
      assert ws[..k] == LogWrites(lay, t)[..k];
      AfterLogWrites(lay, d, t, k);
      var e := Apply(d, ws[..k]);
      assert LogTxn(lay, e) == [];
    } else {
      CommitCutInstalling(lay, d, h, t, k);
    }
  }

  /** From the commit point on, a commit's writes are those that recovery would issue. */
  lemma CommitAsRecovery(lay: Layout, d: Image, t: seq<Write>)
    requires GoodImage(lay, d) && IsTxn(lay, t) && t != []
    ensures var pre := LogWrites(lay, t) + [HeadWrite(lay, d[lay.start], Numbers(t))];
      var e := Apply(d, pre);
      GoodImage(lay, e) && LogTxn(lay, e) == t && SameHome(lay, e, d)
      && CommitWrites(lay, d[lay.start], t) == pre + RecoveryWrites(lay, e) && |RecoveryWrites(lay, e)| == |t| + 1
  {
    AfterCommitPoint(lay, d, t);
    hide Apply, EncodeHeader, LogWrites, IsTxn, GoodImage, SameHome;
  }

  lemma CommitCutInstalling(lay: Layout, d: Image, h: Image, t: seq<Write>, k: nat)
    requires Clean(lay, d, h) && IsTxn(lay, t) && t != []
    requires |t| < k <= |CommitWrites(lay, d[lay.start], t)|
    ensures var ws := CommitWrites(lay, d[lay.start], t);
      Recoverable(lay, Apply(d, ws[..k]), Apply(h, t))
      && (k == |ws| ==> Clean(lay, Apply(d, ws), Apply(h, t)))
  {
    hide Apply, EncodeHeader, LogWrites, GoodHeader, SameHome, LogTxn, HeadWrite, RecoveryWrites, CommitWrites;
    CommitAsRecovery(lay, d, t);
    var ws := CommitWrites(lay, d[lay.start], t);
    var pre := LogWrites(lay, t) + [HeadWrite(lay, d[lay.start], Numbers(t))];
    var e := Apply(d, pre);
    SameHomeThen(lay, e, d, h);
    SameHomeApply(lay, e, h, t);
    var rs, j := RecoveryWrites(lay, e), k - |pre|;
    CutBehind(ws, pre, rs, k, j);
    ApplyConcat(d, pre, rs[..j]);
    RecoveryCut(lay, e, Apply(h, t), j);
  }

  lemma CutBehind(ws: seq<Write>, pre: seq<Write>, rs: seq<Write>, k: nat, j: nat)
    requires ws == pre + rs && k == |pre| + j && k <= |ws|
    ensures ws[..k] == pre + rs[..j] && (k == |ws| ==> rs[..j] == rs && ws[..k] == ws)
  {
  }

  lemma SameHomeThen(lay: Layout, d: Image, e: Image, f: Image)
    requires SameHome(lay, d, e) && SameHome(lay, e, f)
    ensures SameHome(lay, d, f)
  {
  }

  /** Crash atomicity, one step: whatever the crash, the durable state stays
      recoverable, and a completed step leaves it in place on the home blocks. */
  lemma StepKeepsDurable(lay: Layout, m: Machine, h: Image, e: Event)
    requires Enabled(lay, m, e)
    requires Recoverable(lay, m.d, h) && (m.up ==> Clean(lay, m.d, h))
    ensures var m' := Step(lay, m, e);
      Recoverable(lay, m'.d, Durable(h, e)) && (m'.up ==> Clean(lay, m'.d, Durable(h, e)))
  {
    hide Apply, EncodeHeader, LogWrites, GoodHeader, SameHome, LogTxn, HeadWrite, RecoveryWrites, CommitWrites, Recoverable;
    match e
    case PowerOff =>
    case Recover(c) =>
      var ws := RecoveryWrites(lay, m.d);
      var k := if c.After? && c.k < |ws| then c.k else |ws|;
      RecoveryCut(lay, m.d, h, k);
      CutIs(ws, c, k);
    case Commit(t, c) =>
      var ws := CommitWrites(lay, m.d[lay.start], t);
      var k := if c.After? && c.k < |ws| then c.k else |ws|;
      CommitCut(lay, m.d, h, t, k);
      CutIs(ws, c, k);
      CommitLength(lay, m.d[lay.start], t);
  }

  lemma CutIs(ws: seq<Write>, c: Crash, k: nat)
    requires k == if c.After? && c.k < |ws| then c.k else |ws|
    ensures Cut(ws, c) == ws[..k] && (k == |ws| ==> ws[..k] == ws)
  {
  }

  lemma CommitLength(lay: Layout, h: Block, t: seq<Write>)
    requires lay.Valid() && IsTxn(lay, t)
    ensures |CommitWrites(lay, h, t)| == if t == [] then 0 else 2 * |t| + 2
  {
  }

  /** Crash atomicity over whole runs. Start from any image from which booting
      reaches the home state `h`, with the machine off. However many transactions
      run and wherever the power fails, during commits or during recovery, whenever
      the machine is up the home blocks hold exactly the transactions whose header
      reached the disk, in order. */
  lemma {:induction false} CrashAtomicity(lay: Layout, ms: seq<Machine>, es: seq<Event>, h: Image)
    requires IsRun(lay, ms, es)
    requires Recoverable(lay, ms[0].d, h) && (ms[0].up ==> Clean(lay, ms[0].d, h))
    ensures Recoverable(lay, ms[|es|].d, DurableAll(h, es))
    ensures ms[|es|].up ==> Clean(lay, ms[|es|].d, DurableAll(h, es))
    decreases |es|
  {
    if es != [] {
      StepKeepsDurable(lay, ms[0], h, es[0]);
      assert ms[1..][|es| - 1] == ms[|es|];
      CrashAtomicity(lay, ms[1..], es[1..], Durable(h, es[0]));
    }
  }
}
