/** Runs of the log: operations that begin, change blocks and end, among processes that hold
    blocks, in any interleaving. How each step ends is told by a machine of three numbers and
    sets; the methods of the log are proved to go as it says. */
module Runs {
  import opened Wrappers
  import opened Param
  import Counting
  import opened Disk
  import opened Crash
  import opened Bio
  import opened Log
  import opened Journal
  import opened Refs

  // ----- the machine -----

  /** What processes do to the log and the cache, one after the other in any interleaving.
      Take and Give are a process that reads a block, with or without an operation. */
  datatype Step = Begin | Change(w: Write) | End | Take(b: nat) | Give(b: nat)

  /** What stays the same in a run: the log's place and size, and the buffers that somebody
      refers to beside the log and the holders, with their blocks. */
  datatype Env = Env(start: nat, nlog: nat, loose: nat, blocks: set<nat>)

  /** The logged blocks, the operations that run and the blocks that are held. */
  datatype At = At(lh: seq<nat>, outstanding: nat, held: set<nat>)

  /** All buffers are referenced. */
  predicate NoBuffer(env: Env, a: At) { env.loose + |(Elems(a.lh) + a.held) - env.blocks| >= NBUF }

  /** bget finds no buffer for block b. */
  predicate Misses(env: Env, a: At, b: nat) { NoBuffer(env, a) && b !in a.lh && b !in a.held && b !in env.blocks }

  predicate LogHeld(a: At) { exists k :: 0 <= k < |a.lh| && a.lh[k] in a.held }

  /** commit finds no buffer for a block of the log. */
  predicate CommitMisses(env: Env, a: At) {
    a.lh != [] && NoBuffer(env, a) && exists c: nat :: env.start <= c <= env.start + |a.lh| && c !in env.blocks
  }

  function OutcomeOf(env: Env, a: At, s: Step): Outcome {
    match s
    case Change(w) =>
      if w.blockno in a.held then Waits
      else if Misses(env, a, w.blockno) || |a.lh| >= LOGSIZE || |a.lh| >= env.nlog - 1 || a.outstanding < 1 then Panic
      else Done
    case Take(b) => if b in a.held then Waits else if Misses(env, a, b) then Panic else Done
    case End =>
      if a.outstanding != 1 then Done else if LogHeld(a) then Waits else if CommitMisses(env, a) then Panic else Done
    case _ => Done
  }

  /** begin_op admits if the reservation fits, end_op commits if it is the last. */
  function After(a: At, s: Step): At {
    match s
    case Begin => if |a.lh| + (a.outstanding + 1) * MAXOPBLOCKS <= LOGSIZE then a.(outstanding := a.outstanding + 1) else a
    case Change(w) => a.(lh := Absorb(a.lh, w.blockno))
    case End => if a.outstanding == 1 then a.(outstanding := 0, lh := []) else if a.outstanding == 0 then a else a.(outstanding := a.outstanding - 1)
    case Take(b) => a.(held := a.held + {b})
    case Give(b) => a.(held := a.held - {b})
  }

  /** states are the machine's after each step; the first `done` steps have ended well. */
  ghost predicate Follows(env: Env, steps: seq<Step>, states: seq<At>, done: nat) {
    done < |states| <= done + 2 && |states| <= |steps| + 1
    && (forall j :: 0 <= j < |states| - 1 ==> states[j + 1] == After(states[j], steps[j]))
    && (forall j :: 0 <= j < done ==> OutcomeOf(env, states[j], steps[j]).Done?)
  }

  // ----- the log as such a machine -----

  ghost predicate Good(log: Log, held: map<nat, nat>)
    reads log, log.cache, log.cache.disk
  {
    Open(log) && Held(log.lay, log.cache.bufs, log.cache.latest, held) && !log.committing && (log.outstanding == 0 ==> log.lh == [])
  }

  ghost function EnvOf(log: Log): Env
    requires |log.cache.bufs| == NBUF + 1 && |log.cache.pins| == NBUF
    reads log.cache
  {
    Env(log.lay.start, log.lay.nlog, |LooseIdx(log.cache.bufs, log.cache.pins)|, LooseBlocks(log.cache.bufs, log.cache.pins))
  }

  ghost function AtOf(log: Log, held: map<nat, nat>): At
    reads log`lh, log`outstanding
  {
    At(log.lh, log.outstanding, held.Keys)
  }

  ghost predicate Sized(log: Log)
    reads log.cache
  {
    |log.cache.bufs| == NBUF + 1 && |log.cache.pins| == NBUF
  }

  lemma OpenSized(log: Log)
    requires Open(log)
    ensures Sized(log)
  {
    hide Shape, Transparent, Total, Clean, Pending, Unique, LogFree, AllPinned;
  }

  /** The machine knows whether there is a buffer, and, if not, which blocks are cached. */
  lemma BufferIff(log: Log, held: map<nat, nat>)
    requires Open(log) && Held(log.lay, log.cache.bufs, log.cache.latest, held)
    ensures Sized(log) && var env, a := EnvOf(log), AtOf(log, held);
      (Spare(log.cache.bufs) <==> !NoBuffer(env, a))
      && (NoBuffer(env, a) ==> forall b: nat :: Cached(log.cache.bufs, ROOTDEV, b) <==> b in a.lh || b in a.held || b in env.blocks)
  {
    OpenSized(log);
    OpenKnown(log, held);
    hide Open, Held, Spare, Cached, LooseIdx, LooseBlocks, Elems, Known;
    RefsIff(log.lay, log.lh, log.cache.bufs, log.cache.pins, log.cache.latest, held);
  }

  lemma OpenKnown(log: Log, held: map<nat, nat>)
    requires Open(log) && Held(log.lay, log.cache.bufs, log.cache.latest, held)
    ensures Known(log.lay, log.lh, log.cache.bufs, log.cache.pins, log.cache.latest, held)
  {
    hide Shape, Transparent, Total, Clean, Pending, Unique, LogFree, AllPinned, Held, Counted;
  }

  /** The same for a block and for a commit. */
  lemma BgetIff(log: Log, held: map<nat, nat>, b: nat)
    requires Open(log) && Held(log.lay, log.cache.bufs, log.cache.latest, held) && b !in held
    ensures Sized(log) && (Misses(EnvOf(log), AtOf(log, held), b) <==> !Spare(log.cache.bufs) && !Cached(log.cache.bufs, ROOTDEV, b))
  {
    hide Open, Held, Spare, Cached, NoBuffer, LooseIdx, LooseBlocks;
    BufferIff(log, held);
  }

  lemma CommitIff(log: Log, held: map<nat, nat>)
    requires Open(log) && Held(log.lay, log.cache.bufs, log.cache.latest, held)
    ensures Sized(log) && (CommitMisses(EnvOf(log), AtOf(log, held)) <==> !MayCommit(log.lay, log.cache.bufs, |log.lh|))
  {
    hide Open, Held, Spare, Cached, NoBuffer, LooseIdx, LooseBlocks;
    BufferIff(log, held);
    forall c: nat | log.lay.start <= c <= log.lay.start + |log.lh| ensures c !in log.lh && c !in held {
      LogApart(log, held, c);
    }
  }

  lemma LogApart(log: Log, held: map<nat, nat>, c: nat)
    requires Open(log) && Held(log.lay, log.cache.bufs, log.cache.latest, held) && log.lay.start <= c <= log.lay.start + |log.lh|
    ensures c !in log.lh && c !in held
  {
    hide Shape, Transparent, Total, Clean, Pending, Unique, LogFree, AllPinned, Counted;
    assert log.lay.InLog(c);
  }

  lemma EnvKept(lay: Layout, bufs: seq<Buf>, pins: seq<nat>, log: Log)
    requires LooseKept(bufs, pins, log.cache.bufs, log.cache.pins)
    ensures Sized(log) && EnvOf(log) == Env(log.lay.start, log.lay.nlog, |LooseIdx(bufs, pins)|, LooseBlocks(bufs, pins))
  {
    hide LooseIdx, LooseBlocks;
  }

  // ----- what a power failure leaves -----

  /** The changes among the steps, in order. */
  function Changes(steps: seq<Step>): seq<Write> {
    if steps == [] then [] else
      var n := |steps| - 1;
      if steps[n].Change? then Changes(steps[..n]) + [steps[n].w] else Changes(steps[..n])
  }

  lemma ChangesNext(steps: seq<Step>, i: nat)
    requires i < |steps|
    ensures Changes(steps[..i + 1]) == if steps[i].Change? then Changes(steps[..i]) + [steps[i].w] else Changes(steps[..i])
  {
    assert steps[..i + 1][..i] == steps[..i];
  }

  /** Had the power failed after j of the writes ws, booting would find the changes of the
      first cuts[j] steps, between which and the rest no operation was running; what was
      found once is found ever after. */
  ghost predicate Traced(lay: Layout, d: Image, ws: seq<Write>, h: Image, steps: seq<Step>, states: seq<At>, cuts: seq<nat>) {
    |cuts| == |ws| + 1 && |states| <= |steps| + 1
    && (forall j :: 0 <= j <= |ws| ==>
      cuts[j] < |states| && states[cuts[j]].outstanding == 0 && Recoverable(lay, Apply(d, ws[..j]), Apply(h, Changes(steps[..cuts[j]]))))
    && (forall j, k :: 0 <= j < k <= |ws| ==> cuts[j] <= cuts[k])
  }

  lemma TracedStart(lay: Layout, d: Image, h: Image, steps: seq<Step>, a: At)
    requires Clean(lay, d, d) && Pending(lay, [], h, d) && a.outstanding == 0
    ensures Traced(lay, d, [], h, steps, [a], [0]) && SameHome(lay, d, Apply(h, Changes(steps[..0])))
  {
    hide Apply, LogTxn;
    assert Clean(lay, d, h);
    CleanRecoverable(lay, d, h);
    hide Recoverable;
    var none: seq<Write> := [];
    assert none[..0] == none;
  }

  /** A step that writes nothing. */
  lemma TracedNext(lay: Layout, d: Image, ws: seq<Write>, h: Image, steps: seq<Step>, states: seq<At>, cuts: seq<nat>, a: At)
    requires Traced(lay, d, ws, h, steps, states, cuts) && |states| <= |steps|
    ensures Traced(lay, d, ws, h, steps, states + [a], cuts)
  {
    hide Recoverable, Apply, Changes;
  }

  /** A commit of the first steps' changes. */
  lemma TracedCommit(lay: Layout, d: Image, ws: seq<Write>, h: Image, steps: seq<Step>, states: seq<At>, cuts: seq<nat>, e: Image, l: Image, cs: seq<Write>, n: nat) returns (more: seq<nat>)
    requires Traced(lay, d, ws, h, steps, states, cuts) && e == Apply(d, ws) && |states| > 0 && states[|states| - 1].outstanding == 0
    requires SameHome(lay, e, Apply(h, Changes(steps[..cuts[|ws|]]))) && SameHome(lay, l, Apply(h, Changes(steps[..|states| - 1])))
    requires forall j :: 0 <= j <= |cs| ==> Recoverable(lay, Apply(e, cs[..j]), if n < j then l else e)
    ensures Traced(lay, d, ws + cs, h, steps, states, cuts + more) && |more| == |cs|
    ensures |cs| > n ==> |more| > 0 && more[|more| - 1] == |states| - 1
  {
    hide Apply, Recoverable, SameHome, Changes;
    var i, old_ := |states| - 1, cuts[|ws|];
    more := seq(|cs|, j requires 0 <= j < |cs| => if n < j + 1 then i else old_);
    var all, all' := ws + cs, cuts + more;
    forall j | 0 <= j <= |all| ensures all'[j] < |states| && states[all'[j]].outstanding == 0 && Recoverable(lay, Apply(d, all[..j]), Apply(h, Changes(steps[..all'[j]]))) {
      if j <= |ws| {
        assert all[..j] == ws[..j];
      } else {
        var k := j - |ws|;
        assert all[..j] == ws + cs[..k];
        ApplyConcat(d, ws, cs[..k]);
        RecoverableSame(lay, Apply(e, cs[..k]), if n < k then l else e, Apply(h, Changes(steps[..all'[j]])));
      }
    }
  }

  /** What is known of a run so far: the disk and the cached home blocks it began with, its
      disk writes, the machine's states, how many steps have ended well, and what a power
      failure after each write would leave. */
  datatype Trace = Trace(d: Image, h: Image, old_: seq<Write>, ws: seq<Write>, env: Env, states: seq<At>, done: nat, cuts: seq<nat>) {
    ghost predicate Begun() { 0 < |states| }
    function Last(): At requires 0 < |states| { states[|states| - 1] }
  }

  ghost predicate Sound(lay: Layout, steps: seq<Step>, tr: Trace) {
    Follows(tr.env, steps, tr.states, tr.done) && Traced(lay, tr.d, tr.ws, tr.h, steps, tr.states, tr.cuts)
  }

  /** The device holds what the run wrote. */
  ghost predicate Wrote(disk: Device, tr: Trace)
    reads disk
  {
    disk.blocks == Apply(tr.d, tr.ws) && disk.writes == tr.old_ + tr.ws
  }

  /** The cache and the disk have the changes that they should have. */
  ghost predicate Placed(log: Log, steps: seq<Step>, tr: Trace)
    reads log.cache, log.cache.disk
  {
    0 < |tr.states| <= |steps| + 1 && |tr.cuts| == |tr.ws| + 1 && tr.cuts[|tr.ws|] < |tr.states|
    && SameHome(log.lay, log.cache.latest, Apply(tr.h, Changes(steps[..|tr.states| - 1])))
    && SameHome(log.lay, log.cache.disk.blocks, Apply(tr.h, Changes(steps[..tr.cuts[|tr.ws|]])))
  }

  /** The log after the steps of the run. */
  ghost predicate Running(log: Log, held: map<nat, nat>, steps: seq<Step>, tr: Trace)
    reads log, log.cache, log.cache.disk
  {
    Good(log, held) && Wrote(log.cache.disk, tr) && Sound(log.lay, steps, tr) && Placed(log, steps, tr)
    && tr.Begun() && tr.done + 1 == |tr.states| && Sized(log) && EnvOf(log) == tr.env && AtOf(log, held) == tr.Last()
  }

  /** One step more, not yet known to end well. */
  function Extended(tr: Trace, s: Step): Trace
    requires 0 < |tr.states|
  {
    tr.(states := tr.states + [After(tr.Last(), s)])
  }

  function More(tr: Trace, s: Step): Trace
    requires 0 < |tr.states|
  {
    Extended(tr, s).(done := tr.done + 1)
  }

  lemma SoundNext(lay: Layout, steps: seq<Step>, tr: Trace)
    requires Sound(lay, steps, tr) && 0 < |tr.states| == tr.done + 1 && |tr.states| <= |steps|
    ensures var s := steps[tr.done]; Sound(lay, steps, Extended(tr, s)) && (OutcomeOf(tr.env, tr.Last(), s).Done? ==> Sound(lay, steps, More(tr, s)))
  {
    TracedNext(lay, tr.d, tr.ws, tr.h, steps, tr.states, tr.cuts, After(tr.Last(), steps[tr.done]));
    hide Traced, OutcomeOf, After;
  }

  // ----- one step -----

  /** A step that changes no contents leaves everything in its place. */
  lemma PlacedNext(lay: Layout, l: Image, h: Image, steps: seq<Step>, i: nat)
    requires i < |steps| && !steps[i].Change? && SameHome(lay, l, Apply(h, Changes(steps[..i])))
    ensures SameHome(lay, l, Apply(h, Changes(steps[..i + 1])))
  {
    hide SameHome, Apply;
    ChangesNext(steps, i);
  }

  method BeginStep(log: Log, held: map<nat, nat>, steps: seq<Step>, ghost tr: Trace) returns (ghost tr': Trace)
    requires Running(log, held, steps, tr) && |tr.states| <= |steps| && steps[tr.done] == Begin
    modifies log`outstanding
    ensures Running(log, held, steps, tr') && tr' == More(tr, Begin)
  {
    hide Open, Held, SameHome, Apply, Sound, LooseIdx, LooseBlocks;
    SoundNext(log.lay, steps, tr);
    PlacedNext(log.lay, log.cache.latest, tr.h, steps, tr.done);
    var admitted := log.BeginOp();
    tr' := More(tr, Begin);
  }

  method TakeStep(log: Log, held: map<nat, nat>, steps: seq<Step>, b: nat, ghost tr: Trace) returns (r: Outcome, held': map<nat, nat>, ghost tr': Trace)
    requires Running(log, held, steps, tr) && |tr.states| <= |steps| && steps[tr.done] == Take(b) && log.lay.Home(b)
    modifies log.cache`bufs
    ensures r == OutcomeOf(tr.env, tr.Last(), Take(b))
    ensures r.Done? ==> Running(log, held', steps, tr') && tr' == More(tr, Take(b))
    ensures !r.Done? ==> Running(log, held', steps, tr) && held' == held
  {
    hide Open, Held, SameHome, Apply, Sound, Spare, Cached, LooseIdx, LooseBlocks, LooseKept, Misses;
    SoundNext(log.lay, steps, tr);
    PlacedNext(log.lay, log.cache.latest, tr.h, steps, tr.done);
    ghost var bs, ps := log.cache.bufs, log.cache.pins;
    if b !in held {
      BgetIff(log, held, b);
    }
    r, held' := TakeBlock(log, held, b);
    EnvKept(log.lay, bs, ps, log);
    tr' := More(tr, Take(b));
  }

  method GiveStep(log: Log, held: map<nat, nat>, steps: seq<Step>, b: nat, ghost tr: Trace) returns (held': map<nat, nat>, ghost tr': Trace)
    requires Running(log, held, steps, tr) && |tr.states| <= |steps| && steps[tr.done] == Give(b)
    modifies log.cache
    ensures Running(log, held', steps, tr') && tr' == More(tr, Give(b))
  {
    hide Open, Held, SameHome, Apply, Sound, LooseIdx, LooseBlocks, LooseKept;
    SoundNext(log.lay, steps, tr);
    PlacedNext(log.lay, log.cache.latest, tr.h, steps, tr.done);
    ghost var bs, ps := log.cache.bufs, log.cache.pins;
    held' := GiveBlock(log, held, b);
    EnvKept(log.lay, bs, ps, log);
    tr' := More(tr, Give(b));
  }

  method ChangeStep(log: Log, held: map<nat, nat>, steps: seq<Step>, w: Write, ghost tr: Trace) returns (r: Outcome, ghost tr': Trace)
    requires Running(log, held, steps, tr) && |tr.states| <= |steps| && steps[tr.done] == Change(w) && log.lay.Home(w.blockno)
    modifies log`lh, log.cache
    ensures r == OutcomeOf(tr.env, tr.Last(), Change(w))
    ensures r.Done? ==> Running(log, held, steps, tr') && tr' == More(tr, Change(w))
    ensures r.Waits? ==> Running(log, held, steps, tr)
  {
    hide Open, Held, SameHome, Apply, Sound, Put, Spare, Cached, Rests, Free, LooseIdx, LooseBlocks, LooseKept, Misses;
    tr' := tr;
    if w.blockno in held {
      return Waits, tr';
    }
    SoundNext(log.lay, steps, tr);
    ChangesNext(steps, tr.done);
    ghost var l, bs, ps := log.cache.latest, log.cache.bufs, log.cache.pins;
    HeldFree(log.lay, bs, l, held, w.blockno);
    BgetIff(log, held, w.blockno);
    var ok := Update(log, w);
    tr' := More(tr, Change(w));
    if !ok {
      return Panic, tr';
    }
    PutKeeps(l, w, held);
    HeldRests(log.lay, bs, ps, log.cache.bufs, log.cache.pins, l, log.cache.latest, held);
    RestsLoose(bs, ps, log.cache.bufs, log.cache.pins);
    EnvKept(log.lay, bs, ps, log);
    LatestNext(log.lay, l, tr.h, Changes(steps[..tr.done]), w);
    r := Done;
  }

  lemma PutKeeps(l: Image, w: Write, held: map<nat, nat>)
    requires w.blockno !in held
    ensures |Put(l, w)| == |l| && forall b :: b in held && b < |l| ==> Put(l, w)[b] == l[b]
  {
  }

  lemma LatestNext(lay: Layout, l: Image, h: Image, ws: seq<Write>, w: Write)
    requires SameHome(lay, l, Apply(h, ws))
    ensures SameHome(lay, Put(l, w), Apply(h, ws + [w]))
  {
    hide SameHome;
    ApplyConcat(h, ws, [w]);
    ApplyOne(l, w);
    SameHomeApply(lay, l, Apply(h, ws), [w]);
  }

  /** end_op. If other operations run it only counts; otherwise it commits, once nobody
      holds a logged block. Without a running operation there is nothing to end. */
  method EndStep(log: Log, held: map<nat, nat>, steps: seq<Step>, ghost tr: Trace) returns (r: Outcome, ghost tr': Trace)
    requires Running(log, held, steps, tr) && |tr.states| <= |steps| && steps[tr.done] == End
    modifies log, log.cache, log.cache.disk
    ensures r == OutcomeOf(tr.env, tr.Last(), End)
    ensures Wrote(log.cache.disk, tr') && Sound(log.lay, steps, tr') && SameStart(tr, tr')
    ensures r.Done? ==> Running(log, held, steps, tr') && tr'.done == tr.done + 1
    ensures r.Waits? ==> Running(log, held, steps, tr') && tr' == tr
    ensures r.Panic? ==> tr'.done == tr.done && tr'.states == Extended(tr, End).states
  {
    hide Open, Held, SameHome, Apply, Sound, LooseIdx, LooseBlocks, CommitMisses;
    tr' := tr;
    if log.outstanding == 1 && exists k :: 0 <= k < |log.lh| && log.lh[k] in held {
      return Waits, tr';
    }
    SoundNext(log.lay, steps, tr);
    PlacedNext(log.lay, log.cache.latest, tr.h, steps, tr.done);
    if log.outstanding == 1 {
      r, tr' := LastEnd(log, held, steps, tr);
      return;
    }
    if log.outstanding > 0 {
      var last := log.EndOp();
    }
    tr' := More(tr, End);
    r := Done;
  }

  ghost predicate SameStart(tr: Trace, tr': Trace) { tr'.d == tr.d && tr'.h == tr.h && tr'.old_ == tr.old_ && tr'.env == tr.env && tr.states <= tr'.states }

  /** The last operation ends, and commits. */
  method LastEnd(log: Log, held: map<nat, nat>, steps: seq<Step>, ghost tr: Trace) returns (r: Outcome, ghost tr': Trace)
    requires Running(log, held, steps, tr) && |tr.states| <= |steps| && steps[tr.done] == End && log.outstanding == 1 && !LogHeld(tr.Last())
    requires Sound(log.lay, steps, Extended(tr, End)) && (OutcomeOf(tr.env, tr.Last(), End).Done? ==> Sound(log.lay, steps, More(tr, End)))
    requires SameHome(log.lay, log.cache.latest, Apply(tr.h, Changes(steps[..tr.done + 1])))
    modifies log, log.cache, log.cache.disk
    ensures r == OutcomeOf(tr.env, tr.Last(), End)
    ensures Wrote(log.cache.disk, tr') && Sound(log.lay, steps, tr') && SameStart(tr, tr')
    ensures r.Done? ==> Running(log, held, steps, tr') && tr'.done == tr.done + 1
    ensures !r.Done? ==> tr'.done == tr.done && tr'.states == Extended(tr, End).states
  {
    hide Open, Held, SameHome, Apply, Sound, LooseIdx, LooseBlocks, LooseKept, CommitMisses, MayCommit, Rests, Free, Clean, Recoverable;
    ghost var e, l, n, bs, ps := log.cache.disk.blocks, log.cache.latest, |log.lh|, log.cache.bufs, log.cache.pins;
    CommitIff(log, held);
    forall k | 0 <= k < |log.lh| ensures Free(bs, log.lh[k]) {
      HeldFree(log.lay, bs, l, held, log.lh[k]);
    }
    var last := log.EndOp();
    var ok; ghost var cs;
    ok, cs := CommitOpen(log);
    ghost var more := CommitTrace(log.lay, steps, Extended(tr, End), e, l, cs, n);
    ApplyConcat(tr.d, tr.ws, cs);
    tr' := Extended(tr, End).(ws := tr.ws + cs, cuts := tr.cuts + more);
    r := Panic;
    if ok {
      r, log.committing := Done, false;
      tr' := tr'.(done := tr.done + 1);
      DoneSound(log.lay, steps, tr, tr');
      HeldHome(log.lay, bs, l, held, log.cache.latest);
      HeldRests(log.lay, bs, ps, log.cache.bufs, log.cache.pins, l, log.cache.latest, held);
      RestsLoose(bs, ps, log.cache.bufs, log.cache.pins);
      EnvKept(log.lay, bs, ps, log);
      Committed(log, steps, tr', l, cs);
    }
  }

  lemma CommitTrace(lay: Layout, steps: seq<Step>, tr: Trace, e: Image, l: Image, cs: seq<Write>, n: nat) returns (more: seq<nat>)
    requires Sound(lay, steps, tr) && tr.Begun() && tr.Last().outstanding == 0 && e == Apply(tr.d, tr.ws)
    requires |tr.cuts| == |tr.ws| + 1 && tr.cuts[|tr.ws|] <= |steps| && |tr.states| <= |steps| + 1
    requires SameHome(lay, e, Apply(tr.h, Changes(steps[..tr.cuts[|tr.ws|]]))) && SameHome(lay, l, Apply(tr.h, Changes(steps[..|tr.states| - 1])))
    requires forall j :: 0 <= j <= |cs| ==> Recoverable(lay, Apply(e, cs[..j]), if n < j then l else e)
    ensures Sound(lay, steps, tr.(ws := tr.ws + cs, cuts := tr.cuts + more)) && |more| == |cs|
    ensures |cs| > n ==> |more| > 0 && more[|more| - 1] == |tr.states| - 1
  {
    hide Follows, Traced, Apply, SameHome, Recoverable, Changes;
    more := TracedCommit(lay, tr.d, tr.ws, tr.h, steps, tr.states, tr.cuts, e, l, cs, n);
  }

  lemma DoneSound(lay: Layout, steps: seq<Step>, tr: Trace, tr': Trace)
    requires Sound(lay, steps, tr) && 0 < |tr.states| == tr.done + 1 && |tr.states| <= |steps| && OutcomeOf(tr.env, tr.Last(), steps[tr.done]).Done?
    requires Sound(lay, steps, tr'.(done := tr.done)) && tr'.env == tr.env && tr'.states == Extended(tr, steps[tr.done]).states && tr'.done == tr.done + 1
    ensures Sound(lay, steps, tr')
  {
    hide Traced, OutcomeOf, After;
  }

  /** After a commit everything is in its place. */
  lemma Committed(log: Log, steps: seq<Step>, tr: Trace, l: Image, cs: seq<Write>)
    requires 0 < |tr.states| <= |steps| + 1 && |tr.cuts| == |tr.ws| + 1 && tr.cuts[|tr.ws|] < |tr.states|
    requires SameHome(log.lay, l, Apply(tr.h, Changes(steps[..|tr.states| - 1]))) && SameHome(log.lay, log.cache.latest, l) && Clean(log.lay, log.cache.disk.blocks, l)
    requires cs == [] || tr.cuts[|tr.ws|] == |tr.states| - 1
    requires cs == [] ==> SameHome(log.lay, log.cache.disk.blocks, Apply(tr.h, Changes(steps[..tr.cuts[|tr.ws|]])))
    ensures Placed(log, steps, tr)
  {
    hide SameHome, Apply, Clean, Changes;
    var h := Apply(tr.h, Changes(steps[..|tr.states| - 1]));
    SameHomeThen(log.lay, log.cache.latest, l, h);
    CleanHome(log.lay, log.cache.disk.blocks, l);
    SameHomeThen(log.lay, log.cache.disk.blocks, l, h);
  }

  lemma HeldHome(lay: Layout, bufs: seq<Buf>, l: Image, held: map<nat, nat>, l': Image)
    requires Held(lay, bufs, l, held) && SameHome(lay, l', l)
    ensures |l'| == |l| && forall b :: b in held && b < |l| ==> l'[b] == l[b]
  {
  }

  lemma CleanHome(lay: Layout, d: Image, h: Image)
    requires Clean(lay, d, h)
    ensures SameHome(lay, d, h)
  {
  }

  ghost predicate HomeStep(lay: Layout, s: Step) { (s.Change? ==> lay.Home(s.w.blockno)) && (s.Take? ==> lay.Home(s.b)) }

  method OneStep(log: Log, held: map<nat, nat>, steps: seq<Step>, s: Step, ghost tr: Trace) returns (r: Outcome, held': map<nat, nat>, ghost tr': Trace)
    requires Running(log, held, steps, tr) && |tr.states| <= |steps| && s == steps[tr.done] && HomeStep(log.lay, s)
    modifies log, log.cache, log.cache.disk
    ensures r == OutcomeOf(tr.env, tr.Last(), s)
    ensures Wrote(log.cache.disk, tr') && Sound(log.lay, steps, tr') && SameStart(tr, tr')
    ensures r.Done? ==> Running(log, held', steps, tr') && tr'.done == tr.done + 1
    ensures r.Waits? ==> Running(log, held', steps, tr')
    ensures !r.Done? ==> tr'.done == tr.done
  {
    hide Good, Placed, Sound, Wrote, EnvOf, OutcomeOf, After;
    r, held', tr' := Done, held, tr;
    match s {
      case Begin =>
        BeginsDone(tr.env, tr.Last(), s);
        tr' := BeginStep(log, held, steps, tr);
      case Take(b) =>
        r, held', tr' := TakeStep(log, held, steps, b, tr);
        if !r.Done? {
          tr' := tr;
        }
      case Give(b) =>
        BeginsDone(tr.env, tr.Last(), s);
        held', tr' := GiveStep(log, held, steps, b, tr);
      case Change(w) =>
        r, tr' := ChangeStep(log, held, steps, w, tr);
        if !r.Done? {
          tr' := tr;
        }
      case End =>
        r, tr' := EndStep(log, held, steps, tr);
    }
  }

  lemma BeginsDone(env: Env, a: At, s: Step)
    requires s.Begin? || s.Give?
    ensures OutcomeOf(env, a, s).Done?
  {
  }

  /** Any run of the log, among processes that read blocks and hold them as long as they
      like. It goes as the machine says: tr.done steps end well, and the next one, if any,
      has to wait or panics. Wherever the power fails in it, or a panic stops it, booting
      finds the changes up to a point at which no operation was running; after a run that
      ends with no operation running, those are all of them and they are in place. */
  method Run(log: Log, readers: map<nat, nat>, steps: seq<Step>) returns (r: Outcome, held: map<nat, nat>, ghost tr: Trace)
    requires Good(log, readers) && log.outstanding == 0 && forall j :: 0 <= j < |steps| ==> HomeStep(log.lay, steps[j])
    modifies log, log.cache, log.cache.disk
    ensures Begins(tr, old(log.cache.disk.blocks), old(log.cache.latest), old(log.cache.disk.writes), old(AtOf(log, readers)))
    ensures old(Sized(log)) && tr.env == old(EnvOf(log))
    ensures Wrote(log.cache.disk, tr) && Sound(log.lay, steps, tr) && tr.done <= |steps| && tr.done < |tr.states|
    ensures r == if tr.done == |steps| then Done else OutcomeOf(tr.env, tr.states[tr.done], steps[tr.done])
    ensures tr.done < |steps| ==> !r.Done?
    ensures !r.Panic? ==> Running(log, held, steps, tr)
    ensures r.Done? && log.outstanding == 0 ==> Clean(log.lay, log.cache.disk.blocks, Apply(tr.h, Changes(steps)))
  {
    OpenSized(log);
    tr := Trace(log.cache.disk.blocks, log.cache.latest, log.cache.disk.writes, [], EnvOf(log), [AtOf(log, readers)], 0, [0]);
    r, held := Done, readers;
    RunStart(log, readers, steps, tr);
    hide Running, Sound, Wrote, HomeStep, Good, Clean, Apply, OutcomeOf, EnvOf;
    for i := 0 to |steps|
      invariant r.Done? && tr.done == i && tr.done < |tr.states| && Running(log, held, steps, tr) && tr.env == old(EnvOf(log))
      invariant Begins(tr, old(log.cache.disk.blocks), old(log.cache.latest), old(log.cache.disk.writes), old(AtOf(log, readers)))
    {
      RunningSize(log, held, steps, tr);
      ghost var was := tr;
      r, held, tr := OneStep(log, held, steps, steps[i], tr);
      SoundSize(log.lay, steps, tr);
      assert was.states[was.done] == tr.states[was.done];
      if !r.Done? {
        return;
      }
    }
    RunningSize(log, held, steps, tr);
    if log.outstanding == 0 {
      Settled(log, held, steps, tr);
    }
  }

  ghost predicate Begins(tr: Trace, d: Image, h: Image, ws: seq<Write>, a: At) {
    tr.d == d && tr.h == h && tr.old_ == ws && 0 < |tr.states| && tr.states[0] == a
  }

  lemma RunStart(log: Log, held: map<nat, nat>, steps: seq<Step>, tr: Trace)
    requires Good(log, held) && log.outstanding == 0 && Sized(log)
    requires tr == Trace(log.cache.disk.blocks, log.cache.latest, log.cache.disk.writes, [], EnvOf(log), [AtOf(log, held)], 0, [0])
    ensures Running(log, held, steps, tr)
  {
    TracedStart(log.lay, tr.d, tr.h, steps, AtOf(log, held));
    SameHomeSelf(log.lay, tr.h);
    hide Traced, Clean, Open, Held, LooseIdx, LooseBlocks, SameHome;
  }

  lemma RunningSize(log: Log, held: map<nat, nat>, steps: seq<Step>, tr: Trace)
    requires Running(log, held, steps, tr)
    ensures 0 < |tr.states| == tr.done + 1 <= |steps| + 1 && Wrote(log.cache.disk, tr) && Sound(log.lay, steps, tr)
  {
    hide Good, Wrote, Sound, EnvOf;
  }

  lemma SoundSize(lay: Layout, steps: seq<Step>, tr: Trace)
    requires Sound(lay, steps, tr)
    ensures tr.done < |tr.states| <= |steps| + 1
  {
    hide Traced, OutcomeOf, After;
  }

  lemma Settled(log: Log, held: map<nat, nat>, steps: seq<Step>, tr: Trace)
    requires Running(log, held, steps, tr) && log.outstanding == 0 && |tr.states| == |steps| + 1
    ensures Clean(log.lay, log.cache.disk.blocks, Apply(tr.h, Changes(steps)))
  {
    hide Shape, Unique, Transparent, Counted, Held, Total, Apply, Sound, Changes, AllPinned, LogFree, EnvOf;
    assert steps[..|steps|] == steps;
    var d, l := log.cache.disk.blocks, log.cache.latest;
    assert SameHome(log.lay, d, l);
    hide SameHome, Pending;
    CleanSame(log.lay, d, d, l);
    CleanSame(log.lay, d, l, Apply(tr.h, Changes(steps)));
  }

  // ----- operations one after the other -----

  function OpSteps(ws: seq<Write>): seq<Step> { [Begin] + seq(|ws|, i requires 0 <= i < |ws| => Change(ws[i])) + [End] }

  function AllSteps(ops: seq<seq<Write>>): seq<Step> { if ops == [] then [] else OpSteps(ops[0]) + AllSteps(ops[1..]) }

  function AllWrites(ops: seq<seq<Write>>): seq<Write> { if ops == [] then [] else ops[0] + AllWrites(ops[1..]) }

  /** The machine after j steps. */
  function RunTo(a: At, steps: seq<Step>, j: nat): At
    requires j <= |steps|
  {
    if j == 0 then a else After(RunTo(a, steps, j - 1), steps[j - 1])
  }

  lemma {:induction false} StatesAre(env: Env, steps: seq<Step>, states: seq<At>, done: nat, j: nat)
    requires Follows(env, steps, states, done) && j < |states|
    ensures states[j] == RunTo(states[0], steps, j)
  {
    if j > 0 {
      StatesAre(env, steps, states, done, j - 1);
    }
  }

  lemma {:induction false} RunToConcat(a: At, s: seq<Step>, t: seq<Step>, j: nat)
    requires j <= |s| + |t|
    ensures RunTo(a, s + t, j) == if j <= |s| then RunTo(a, s, j) else RunTo(RunTo(a, s, |s|), t, j - |s|)
  {
    if j > 0 {
      RunToConcat(a, s, t, j - 1);
    }
  }

  const NOTHING := At([], 0, {})

  /** Nobody refers to a buffer, and an operation's blocks fit into the log. */
  predicate Calm(env: Env) { env.loose == 0 && env.nlog > MAXOPBLOCKS }

  lemma {:induction false} ElemsSize(lh: seq<nat>)
    ensures |Elems(lh)| <= |lh|
  {
    if lh != [] {
      var n := |lh| - 1;
      ElemsSize(lh[..n]);
      assert Elems(lh) == Elems(lh[..n]) + {lh[n]};
    }
  }

  lemma CalmBuffer(env: Env, a: At)
    requires Calm(env) && a.held == {} && |a.lh| <= MAXOPBLOCKS
    ensures !NoBuffer(env, a)
  {
    ElemsSize(a.lh);
    Counting.SubsetSize((Elems(a.lh) + a.held) - env.blocks, Elems(a.lh));
  }

  /** Within one operation. */
  lemma {:induction false} OpState(ws: seq<Write>, j: nat)
    requires j <= |ws| + 2
    ensures var a := RunTo(NOTHING, OpSteps(ws), j);
      a.held == {} && (if j == 0 || j == |ws| + 2 then a == NOTHING else a.outstanding == 1 && |a.lh| <= j - 1)
  {
    if j > 0 {
      OpState(ws, j - 1);
      var s := OpSteps(ws)[j - 1];
      assert s == if j == 1 then Begin else if j == |ws| + 2 then End else Change(ws[j - 2]);
    }
  }

  lemma OpDone(env: Env, ws: seq<Write>, j: nat)
    requires Calm(env) && |ws| <= MAXOPBLOCKS && j < |ws| + 2
    ensures OutcomeOf(env, RunTo(NOTHING, OpSteps(ws), j), OpSteps(ws)[j]).Done?
  {
    OpState(ws, j);
    var a, s := RunTo(NOTHING, OpSteps(ws), j), OpSteps(ws)[j];
    assert s == if j == 0 then Begin else if j == |ws| + 1 then End else Change(ws[j - 1]);
    hide RunTo, OpSteps;
    CalmBuffer(env, a);
  }

  /** Operations one after the other, none of them too large, all end well. */
  lemma {:induction false} OpsDone(env: Env, ops: seq<seq<Write>>, j: nat)
    requires Calm(env) && (forall k :: 0 <= k < |ops| ==> |ops[k]| <= MAXOPBLOCKS) && j <= |AllSteps(ops)|
    ensures j < |AllSteps(ops)| ==> OutcomeOf(env, RunTo(NOTHING, AllSteps(ops), j), AllSteps(ops)[j]).Done?
    ensures j == |AllSteps(ops)| ==> RunTo(NOTHING, AllSteps(ops), j) == NOTHING
  {
    if ops != [] {
      var s, t := OpSteps(ops[0]), AllSteps(ops[1..]);
      assert AllSteps(ops) == s + t && |s| == |ops[0]| + 2;
      RunToConcat(NOTHING, s, t, j);
      OpState(ops[0], |s|);
      if j < |s| {
        OpDone(env, ops[0], j);
      } else {
        OpsDone(env, ops[1..], j - |s|);
      }
    }
  }

  lemma {:induction false} ChangesConcat(s: seq<Step>, t: seq<Step>)
    ensures Changes(s + t) == Changes(s) + Changes(t)
    decreases |t|
  {
    if t == [] {
      assert s + t == s;
    } else {
      var n := |t| - 1;
      assert (s + t)[..|s + t| - 1] == s + t[..n];
      ChangesConcat(s, t[..n]);
    }
  }

  lemma {:induction false} ChangesAre(ws: seq<Write>, i: nat)
    requires i <= |ws|
    ensures Changes(OpSteps(ws)[..i + 1]) == ws[..i]
  {
    if i > 0 {
      ChangesAre(ws, i - 1);
      ChangesNext(OpSteps(ws), i);
      assert OpSteps(ws)[i] == Change(ws[i - 1]);
    } else {
      assert OpSteps(ws)[..1] == [Begin];
      assert [Begin][..0] == [];
    }
  }

  lemma {:induction false} AllChanges(ops: seq<seq<Write>>)
    ensures Changes(AllSteps(ops)) == AllWrites(ops)
  {
    if ops != [] {
      var s := OpSteps(ops[0]);
      ChangesAre(ops[0], |ops[0]|);
      ChangesNext(s, |s| - 1);
      assert s[..|s|] == s && ops[0][..|ops[0]|] == ops[0];
      ChangesConcat(s, AllSteps(ops[1..]));
      AllChanges(ops[1..]);
    }
  }

  lemma {:induction false} AllHome(lay: Layout, ops: seq<seq<Write>>)
    requires forall w :: w in AllWrites(ops) ==> lay.Home(w.blockno)
    ensures forall j :: 0 <= j < |AllSteps(ops)| ==> HomeStep(lay, AllSteps(ops)[j])
  {
    if ops != [] {
      var s := OpSteps(ops[0]);
      forall j | 0 <= j < |s| ensures HomeStep(lay, s[j]) {
        assert s[j].Change? ==> s[j].w in ops[0];
      }
      AllHome(lay, ops[1..]);
    }
  }

  /** With nobody holding or waiting for a buffer, operations of at most MAXOPBLOCKS changes
      each, one after the other, never panic, and all their changes end up on disk. */
  method RunOps(log: Log, ops: seq<seq<Write>>)
    requires Good(log, map[]) && Quiet(log.cache.bufs, log.cache.pins) && log.outstanding == 0 && log.lay.nlog > MAXOPBLOCKS
    requires (forall k :: 0 <= k < |ops| ==> |ops[k]| <= MAXOPBLOCKS) && forall w :: w in AllWrites(ops) ==> log.lay.Home(w.blockno)
    modifies log, log.cache, log.cache.disk
    ensures Good(log, map[]) && log.outstanding == 0
    ensures Clean(log.lay, log.cache.disk.blocks, Apply(old(log.cache.latest), AllWrites(ops)))
  {
    AllHome(log.lay, ops);
    QuietCalm(log);
    hide Good, Quiet, Sound, Wrote, Clean, Apply, OutcomeOf, AllSteps, Follows, RunTo;
    GoodIdle(log);
    var steps := AllSteps(ops);
    var r, held; ghost var tr;
    r, held, tr := Run(log, map[], steps);
    SoundFollows(log.lay, steps, tr);
    StatesAre(tr.env, steps, tr.states, tr.done, tr.done);
    OpsDone(tr.env, ops, tr.done);
    OpsDone(tr.env, ops, |steps|);
    AllChanges(ops);
    RunningAt(log, held, steps, tr);
    assert held == map[] by { assert held.Keys == {}; }
  }

  lemma QuietCalm(log: Log)
    requires Good(log, map[]) && Quiet(log.cache.bufs, log.cache.pins) && log.lay.nlog > MAXOPBLOCKS
    ensures Sized(log) && Calm(EnvOf(log))
  {
    OpenSized(log);
    hide Good;
    assert LooseIdx(log.cache.bufs, log.cache.pins) == {};
  }

  lemma GoodIdle(log: Log)
    requires Good(log, map[]) && log.outstanding == 0
    ensures AtOf(log, map[]) == NOTHING
  {
    hide Open, Held;
    var none: map<nat, nat> := map[];
    assert none.Keys == {};
  }

  lemma SoundFollows(lay: Layout, steps: seq<Step>, tr: Trace)
    requires Sound(lay, steps, tr)
    ensures Follows(tr.env, steps, tr.states, tr.done)
  {
    hide Traced, Follows;
  }

  lemma RunningAt(log: Log, held: map<nat, nat>, steps: seq<Step>, tr: Trace)
    requires Running(log, held, steps, tr)
    ensures tr.done < |tr.states| && Good(log, held) && AtOf(log, held) == tr.states[tr.done]
  {
    hide Good, Sound, Wrote, EnvOf;
  }
}
