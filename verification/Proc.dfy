/** The process table as a machine of interleaved steps: each step runs one CPU from one
    acquire, release or context switch to the next. Sleeplocks, fork, exit, wait, kill,
    yield and the scheduler share the process locks, which sleep and yield hand to the
    scheduler across the context switch. */
module Proc {
  import opened Wrappers

  datatype PState = Unused | Used | Sleeping | Runnable | Running | Zombie

  datatype Chan = NoChan | OnLk(l: nat) | OnProc(q: nat)

  datatype Spin = SpinLk(l: nat) | SpinWait   // a sleeplock's lk, or wait_lock

  /** Who calls wakeup. */
  datatype Waker = ByRelease(l: nat) | ByReparent(k: nat, status: int) | ByExit(par: nat, status: int)

  /** What fork returns: the child's pid, or -1 with the states in which its scan found the
      slots, or -1 for want of memory. */
  datatype ForkEnd = Child(pid: nat) | NoSlot(seen: seq<PState>) | NoMemory

  /** What wait returns: a pid and the status it has copied out, or -1 because there are no
      children, because the process is killed, or because copyout failed. */
  datatype WaitEnd = Answered(pid: nat, status: int) | Alone | Interrupted | BadAddress

  /** Where a process is in the kernel. The names with Off are in swtch: off a CPU, or
      back on one and about to leave sched. */
  datatype Pc =
    | Idle
    // acquiresleep
    | Enter(l: nat)        // acquire(&lk->lk)
    | Test(l: nat)         // while (lk->locked), else take it
    | Taken(l: nat)        // release(&lk->lk)
    // releasesleep
    | Leave(l: nat)        // acquire(&lk->lk)
    | Drop(l: nat)         // lk->locked = 0
    | Left(l: nat)         // release(&lk->lk)
    // sleep
    | SleepLock(ch: Chan)  // acquire(&p->lock)
    | SleepRel(ch: Chan)   // release(lk)
    | SleepSet(ch: Chan)   // chan, state
    | SleepSched(ch: Chan)
    | SleepOff(ch: Chan)
    // wakeup
    | Wake(w: Waker, i: nat)     // loop at process i
    | WakeHas(w: Waker, i: nat)
    // yield, in front of `back`
    | YieldLock(back: Pc)
    | YieldSet(back: Pc)
    | YieldSched(back: Pc)
    | YieldOff(back: Pc)
    // kill
    | Kill(i: nat)
    | KillHas(i: nat)
    // fork
    | ForkScan(seen: seq<PState>)   // allocproc's loop; history: what it found in the slots before
    | ForkTry(seen: seq<PState>)
    | ForkHas(i: nat)      // allocproc found process i
    | ForkWait(i: nat)     // acquire(&wait_lock)
    | ForkParent(i: nat)
    | ForkLock(i: nat)     // acquire(&np->lock)
    | ForkRun(i: nat)
    | ForkRet(got: ForkEnd)
    // exit
    | ExitEnter(status: int)     // acquire(&wait_lock)
    | Reparent(k: nat, status: int)
    | ExitLock(status: int)      // acquire(&p->lock)
    | ExitSet(status: int)
    | ExitRel                    // release(&wait_lock)
    | ExitSched
    | ExitOff
    // wait
    | WaitEnter                  // acquire(&wait_lock)
    | WaitScan(i: nat, kids: bool)
    | WaitHas(i: nat)
    | WaitRet(end: WaitEnd)      // release(&wait_lock)

  datatype Proc = Proc(state: PState, chan: Chan, lock: Option<nat>, pc: Pc, parent: Option<nat>, pid: nat, xstate: int, killed: bool,
    cpu: Option<nat>,     // history: the CPU whose registers are on this process's kernel stack
    held: set<nat>,       // history: the sleeplocks acquired and not released
    maker: nat)           // history: the process that allocated this one

  datatype Cpu = Scan | Has(p: nat) | On(p: nat) | Back(p: nat)   // scheduler(): Has and Back are before and after swtch

  datatype Lk = Lk(lk: Option<nat>, locked: bool, owner: nat)

  datatype Reap = Reap(pid: nat, status: int, waiter: nat)

  datatype World = World(procs: seq<Proc>, cpus: seq<Cpu>, lks: seq<Lk>, wait: Option<nat>, nextpid: nat,
    exits: map<nat, int>,     // history: pid to the status given to exit
    reaped: seq<Reap>,        // history: what wait returned, and to which pid
    forker: map<nat, nat>)    // history: pid to the pid of the process that forked it

  const INIT: nat := 0   // initproc

  // ----- what each point of the code holds -----

  function LockOf(ch: Chan): Option<Spin> {
    match ch case NoChan => None case OnLk(l) => Some(SpinLk(l)) case OnProc(_) => Some(SpinWait)
  }

  function WakeChan(w: Waker): Chan {
    match w case ByRelease(l) => OnLk(l) case ByReparent(_, _) => OnProc(INIT) case ByExit(par, _) => OnProc(par)
  }

  function SpinOf(pc: Pc): Option<Spin> {
    match pc
    case Test(l) => Some(SpinLk(l))
    case Taken(l) => Some(SpinLk(l))
    case Drop(l) => Some(SpinLk(l))
    case Left(l) => Some(SpinLk(l))
    case SleepLock(ch) => LockOf(ch)
    case SleepRel(ch) => LockOf(ch)
    case Wake(w, _) => LockOf(WakeChan(w))
    case WakeHas(w, _) => LockOf(WakeChan(w))
    case ForkParent(_) => Some(SpinWait)
    case Reparent(_, _) => Some(SpinWait)
    case ExitLock(_) => Some(SpinWait)
    case ExitSet(_) => Some(SpinWait)
    case ExitRel => Some(SpinWait)
    case WaitScan(_, _) => Some(SpinWait)
    case WaitHas(_) => Some(SpinWait)
    case WaitRet(_) => Some(SpinWait)
    case _ => None
  }

  /** The process lock held by process p at pc. */
  function PLockOf(pc: Pc, p: nat): Option<nat> {
    match pc
    case SleepRel(_) => Some(p)
    case SleepSet(_) => Some(p)
    case SleepSched(_) => Some(p)
    case SleepOff(_) => Some(p)
    case WakeHas(_, i) => Some(i)
    case YieldSet(_) => Some(p)
    case YieldSched(_) => Some(p)
    case YieldOff(_) => Some(p)
    case KillHas(i) => Some(i)
    case ForkTry(seen) => Some(|seen|)
    case ForkHas(i) => Some(i)
    case ForkRun(i) => Some(i)
    case ExitSet(_) => Some(p)
    case ExitRel => Some(p)
    case ExitSched => Some(p)
    case ExitOff => Some(p)
    case WaitHas(i) => Some(i)
    case _ => None
  }

  // ----- steps -----

  predicate IsSpin(s: World, x: Spin) { x.SpinLk? ==> x.l < |s.lks| }

  function Holder(s: World, x: Spin): Option<nat>
    requires IsSpin(s, x)
  {
    match x case SpinWait => s.wait case SpinLk(l) => s.lks[l].lk
  }

  function SetProc(s: World, p: nat, x: Proc): World
    requires p < |s.procs|
  {
    s.(procs := s.procs[p := x])
  }

  function SetCpu(s: World, c: nat, x: Cpu): World
    requires c < |s.cpus|
  {
    s.(cpus := s.cpus[c := x])
  }

  /** Indices that occur in a program counter exist. */
  predicate ChanOk(s: World, ch: Chan) {
    match ch case NoChan => true case OnLk(l) => l < |s.lks| case OnProc(q) => q < |s.procs|
  }

  predicate WakerOk(s: World, w: Waker) {
    match w case ByRelease(l) => l < |s.lks| case ByReparent(k, _) => k < |s.procs| case ByExit(par, _) => par < |s.procs|
  }

  predicate PcOk(s: World, pc: Pc) {
    match pc
    case Enter(l) => l < |s.lks|
    case Test(l) => l < |s.lks|
    case Taken(l) => l < |s.lks|
    case Leave(l) => l < |s.lks|
    case Drop(l) => l < |s.lks|
    case Left(l) => l < |s.lks|
    case SleepLock(ch) => !ch.NoChan? && ChanOk(s, ch)
    case SleepRel(ch) => !ch.NoChan? && ChanOk(s, ch)
    case SleepSet(ch) => !ch.NoChan? && ChanOk(s, ch)
    case SleepSched(ch) => !ch.NoChan? && ChanOk(s, ch)
    case SleepOff(ch) => !ch.NoChan? && ChanOk(s, ch)
    case Wake(w, i) => WakerOk(s, w)
    case WakeHas(w, i) => WakerOk(s, w) && i < |s.procs|
    case YieldLock(b) => PcOk(s, b) && SpinOf(b).None? && PLockOf(b, 0).None?
    case YieldSet(b) => PcOk(s, b) && SpinOf(b).None? && PLockOf(b, 0).None?
    case YieldSched(b) => PcOk(s, b) && SpinOf(b).None? && PLockOf(b, 0).None?
    case YieldOff(b) => PcOk(s, b) && SpinOf(b).None? && PLockOf(b, 0).None?
    case Kill(i) => i < |s.procs|
    case KillHas(i) => i < |s.procs|
    case ForkTry(seen) => |seen| < |s.procs|
    case ForkHas(i) => i < |s.procs|
    case ForkWait(i) => i < |s.procs|
    case ForkParent(i) => i < |s.procs|
    case ForkLock(i) => i < |s.procs|
    case ForkRun(i) => i < |s.procs|
    case WaitHas(i) => i < |s.procs|
    case _ => true
  }

  /** Where a process that holds the locks it needs goes next. `ok` is the outcome of
      what is not modelled: memory in fork, copyout in wait. */
  function NextPc(s: World, p: nat, ok: bool): Pc
    requires p < |s.procs| && PcOk(s, s.procs[p].pc)
  {
    var n := |s.procs|;
    match s.procs[p].pc
    case Idle => Idle
    case Enter(l) => Test(l)
    case Test(l) => if s.lks[l].locked then SleepLock(OnLk(l)) else Taken(l)
    case Taken(l) => Idle
    case Leave(l) => Drop(l)
    case Drop(l) => Wake(ByRelease(l), 0)
    case Left(l) => Idle
    case SleepLock(ch) => SleepRel(ch)
    case SleepRel(ch) => SleepSet(ch)
    case SleepSet(ch) => SleepSched(ch)
    case SleepSched(ch) => SleepOff(ch)
    case SleepOff(ch) => (match ch case OnLk(l) => Enter(l) case OnProc(_) => WaitEnter case NoChan => Idle)
    case Wake(w, i) =>
      if i >= n then (match w case ByRelease(l) => Left(l) case ByReparent(k, st) => Reparent(k + 1, st) case ByExit(_, st) => ExitLock(st))
      else if i == p then Wake(w, i + 1) else WakeHas(w, i)
    case WakeHas(w, i) => Wake(w, i + 1)
    case YieldLock(b) => YieldSet(b)
    case YieldSet(b) => YieldSched(b)
    case YieldSched(b) => YieldOff(b)
    case YieldOff(b) => b
    case Kill(i) => KillHas(i)
    case KillHas(i) => Idle
    case ForkScan(seen) => if |seen| >= n then ForkRet(NoSlot(seen)) else ForkTry(seen)
    case ForkTry(seen) => var i := |seen|; if s.procs[i].state.Unused? then ForkHas(i) else ForkScan(seen + [s.procs[i].state])
    case ForkHas(i) => if ok then ForkWait(i) else ForkRet(NoMemory)
    case ForkWait(i) => ForkParent(i)
    case ForkParent(i) => ForkLock(i)
    case ForkLock(i) => ForkRun(i)
    case ForkRun(i) => ForkRet(Child(s.procs[i].pid))
    case ForkRet(_) => Idle
    case ExitEnter(st) => Reparent(0, st)
    case Reparent(k, st) =>
      if k < n then (if s.procs[k].parent == Some(p) then Wake(ByReparent(k, st), 0) else Reparent(k + 1, st))
      else if s.procs[p].parent.Some? && s.procs[p].parent.value < n then Wake(ByExit(s.procs[p].parent.value, st), 0) else ExitLock(st)
    case ExitLock(st) => ExitSet(st)
    case ExitSet(st) => ExitRel
    case ExitRel => ExitSched
    case ExitSched => ExitOff
    case ExitOff => ExitOff
    case WaitEnter => WaitScan(0, false)
    case WaitScan(i, kids) =>
      if i < n then (if s.procs[i].parent == Some(p) then WaitHas(i) else WaitScan(i + 1, kids))
      else if !kids then WaitRet(Alone) else if s.procs[p].killed then WaitRet(Interrupted) else SleepLock(OnProc(p))
    case WaitHas(i) =>
      if !s.procs[i].state.Zombie? then WaitScan(i + 1, true)
      else WaitRet(if ok then Answered(s.procs[i].pid, s.procs[i].xstate) else BadAddress)
    case WaitRet(_) => Idle
  }

  /** freeproc. */
  function Freed(x: Proc): Proc {
    x.(state := Unused, chan := NoChan, parent := None, pid := 0, xstate := 0, killed := false)
  }

  /** allocproc's initialisation: it will start in forkret, as if returning from yield. */
  function Alloced(x: Proc, pid: nat, maker: nat): Proc {
    x.(state := Used, pid := pid, pc := YieldOff(Idle), held := {}, maker := maker)
  }

  function Woken(x: Proc, ch: Chan): Proc { if x.state.Sleeping? && x.chan == ch then x.(state := Runnable) else x }

  /** The process whose record the step changes. */
  function Target(s: World, p: nat): nat
    requires p < |s.procs| && PcOk(s, s.procs[p].pc)
    ensures Target(s, p) < |s.procs|
  {
    match s.procs[p].pc
    case WakeHas(_, i) => i
    case KillHas(i) => i
    case ForkTry(seen) => |seen|
    case ForkHas(i) => i
    case ForkParent(i) => i
    case ForkRun(i) => i
    case Reparent(k, _) => if k < |s.procs| then k else p
    case WaitHas(i) => i
    case _ => p
  }

  /** The changed record, apart from program counter and lock. */
  function Effect(s: World, p: nat, ok: bool): Proc
    requires p < |s.procs| && PcOk(s, s.procs[p].pc)
  {
    var x := s.procs[Target(s, p)];
    match s.procs[p].pc
    case Test(l) => if s.lks[l].locked then x else x.(held := x.held + {l})
    case Drop(l) => x.(held := x.held - {l})
    case SleepSet(ch) => x.(chan := ch, state := Sleeping)
    case SleepOff(_) => x.(chan := NoChan)
    case WakeHas(w, _) => Woken(x, WakeChan(w))
    case YieldSet(_) => x.(state := Runnable)
    case KillHas(_) => x.(killed := true, state := if x.state.Sleeping? then Runnable else x.state)
    case ForkTry(_) => if x.state.Unused? then Alloced(x, s.nextpid, p) else x
    case ForkHas(_) => if ok then x else Freed(x)
    case ForkParent(_) => x.(parent := Some(p))
    case ForkRun(_) => x.(state := Runnable)
    case Reparent(_, _) => if x.parent == Some(p) && Target(s, p) == s.procs[p].pc.k then x.(parent := Some(INIT)) else x
    case ExitSet(st) => x.(xstate := st, state := Zombie)
    case WaitHas(_) => if x.state.Zombie? && ok then Freed(x) else x
    case _ => x
  }

  function LksAfter(s: World, p: nat): seq<Lk>
    requires p < |s.procs| && PcOk(s, s.procs[p].pc)
  {
    match s.procs[p].pc
    case Test(l) => if s.lks[l].locked then s.lks else s.lks[l := s.lks[l].(locked := true, owner := p)]
    case Drop(l) => s.lks[l := s.lks[l].(locked := false)]
    case _ => s.lks
  }

  /** What the step does besides moving on and taking or releasing locks. */
  function Data(s: World, p: nat, ok: bool): World
    requires p < |s.procs| && PcOk(s, s.procs[p].pc)
  {
    var x := s.procs[Target(s, p)];
    var pc := s.procs[p].pc;
    s.(procs := s.procs[Target(s, p) := Effect(s, p, ok)], lks := LksAfter(s, p),
      nextpid := if pc.ForkTry? && x.state.Unused? then s.nextpid + 1 else s.nextpid,
      forker := if pc.ForkParent? then s.forker[x.pid := s.procs[p].pid] else s.forker,
      exits := if pc.ExitSet? then s.exits[x.pid := pc.status] else s.exits,
      reaped := if pc.WaitHas? && x.state.Zombie? && ok then s.reaped + [Reap(x.pid, x.xstate, s.procs[p].pid)] else s.reaped)
  }

  /** acquire waits until the lock is free. */
  predicate MayTake(s: World, p: nat, pc: Pc)
    requires p < |s.procs|
  {
    (SpinOf(pc) != SpinOf(s.procs[p].pc) && SpinOf(pc).Some? ==> IsSpin(s, SpinOf(pc).value) && Holder(s, SpinOf(pc).value).None?)
    && (PLockOf(pc, p) != PLockOf(s.procs[p].pc, p) && PLockOf(pc, p).Some? ==>
      PLockOf(pc, p).value < |s.procs| && s.procs[PLockOf(pc, p).value].lock.None?)
  }

  /** A lock that was `was`, after its holder c moves from holding `have` to `want`. */
  function Relock<T(==)>(was: Option<nat>, c: nat, this_: T, have: Option<T>, want: Option<T>): Option<nat> {
    if have == want then was else if want == Some(this_) then Some(c) else if have == Some(this_) then None else was
  }

  function MovedProcs(ps: seq<Proc>, c: nat, p: nat, pc: Pc): (r: seq<Proc>)
    requires p < |ps|
    ensures |r| == |ps|
    ensures forall q :: 0 <= q < |ps| ==>
      r[q] == ps[q].(lock := Relock(ps[q].lock, c, q, PLockOf(ps[p].pc, p), PLockOf(pc, p)), pc := if q == p then pc else ps[q].pc)
  {
    seq(|ps|, q requires 0 <= q < |ps| =>
      ps[q].(lock := Relock(ps[q].lock, c, q, PLockOf(ps[p].pc, p), PLockOf(pc, p)), pc := if q == p then pc else ps[q].pc))
  }

  function MovedLks(lks: seq<Lk>, c: nat, have: Option<Spin>, want: Option<Spin>): (r: seq<Lk>)
    ensures |r| == |lks| && forall l :: 0 <= l < |lks| ==> r[l] == lks[l].(lk := Relock(lks[l].lk, c, SpinLk(l), have, want))
  {
    seq(|lks|, l requires 0 <= l < |lks| => lks[l].(lk := Relock(lks[l].lk, c, SpinLk(l), have, want)))
  }

  /** Process p on CPU c goes to pc, releasing the locks it no longer and taking those it
      newly holds there. */
  function Move(s: World, c: nat, p: nat, pc: Pc): World
    requires p < |s.procs|
  {
    s.(procs := MovedProcs(s.procs, c, p, pc), lks := MovedLks(s.lks, c, SpinOf(s.procs[p].pc), SpinOf(pc)),
      wait := Relock(s.wait, c, SpinWait, SpinOf(s.procs[p].pc), SpinOf(pc)))
  }

  datatype Act =
    | Pick(q: nat)    // scheduler: acquire(&p->lock)
    | Pass            // not RUNNABLE: release(&p->lock)
    | Dispatch        // swtch to the process
    | Return          // back from swtch: release(&p->lock)
    | Swtch           // sched: swtch to the scheduler
    | Yield           // timer interrupt
    | Call(op: Pc)    // a system call
    | Go(ok: bool)

  predicate Switching(pc: Pc) { pc.SleepSched? || pc.YieldSched? || pc.ExitSched? }

  predicate MayCall(s: World, p: nat, op: Pc)
    requires p < |s.procs|
  {
    match op
    case Enter(l) => l < |s.lks|
    case Leave(l) => l < |s.lks| && l in s.procs[p].held
    case Kill(i) => i < |s.procs|
    case ForkScan(seen) => seen == []
    case ExitEnter(_) => p != INIT    // else panic("init exiting")
    case WaitEnter => true
    case _ => false
  }

  predicate MayGo(s: World, p: nat, ok: bool)
    requires p < |s.procs| && PcOk(s, s.procs[p].pc)
  {
    !Switching(s.procs[p].pc) && !s.procs[p].pc.Idle? && !s.procs[p].pc.ExitOff? && MayTake(s, p, NextPc(s, p, ok))
  }

  function Went(s: World, c: nat, p: nat, ok: bool): World
    requires p < |s.procs| && PcOk(s, s.procs[p].pc)
  {
    Move(Data(s, p, ok), c, p, NextPc(s, p, ok))
  }

  predicate Can(s: World, c: nat, a: Act) {
    c < |s.cpus| &&
    match s.cpus[c]
    case Scan => a.Pick? && a.q < |s.procs| && s.procs[a.q].lock.None?
    case Has(q) => q < |s.procs| && if s.procs[q].state.Runnable? then a.Dispatch? else a.Pass?
    case Back(q) => q < |s.procs| && a.Return?
    case On(p) =>
      p < |s.procs| && PcOk(s, s.procs[p].pc) &&
      match a
      case Swtch => Switching(s.procs[p].pc)
      case Yield => SpinOf(s.procs[p].pc).None? && PLockOf(s.procs[p].pc, p).None? && !s.procs[p].pc.YieldLock?
      case Call(op) => s.procs[p].pc.Idle? && MayCall(s, p, op)
      case Go(ok) => MayGo(s, p, ok)
      case _ => false
  }

  function Do(s: World, c: nat, a: Act): World
    requires Can(s, c, a)
  {
    match s.cpus[c]
    case Scan => SetCpu(SetProc(s, a.q, s.procs[a.q].(lock := Some(c))), c, Has(a.q))
    case Has(q) =>
      if a.Dispatch? then SetCpu(SetProc(s, q, s.procs[q].(state := Running, cpu := Some(c))), c, On(q))
      else SetCpu(SetProc(s, q, s.procs[q].(lock := None)), c, Scan)
    case Back(q) => SetCpu(SetProc(s, q, s.procs[q].(lock := None)), c, Scan)
    case On(p) =>
      match a
      case Swtch => SetCpu(SetProc(s, p, s.procs[p].(pc := NextPc(s, p, true), cpu := None)), c, Back(p))
      case Yield => SetProc(s, p, s.procs[p].(pc := YieldLock(s.procs[p].pc)))
      case Call(op) => SetProc(s, p, s.procs[p].(pc := op))
      case Go(ok) => Went(s, c, p, ok)
      case _ => s
  }

  // ----- runs -----

  function Fresh(state: PState, pid: nat): Proc { Proc(state, NoChan, None, YieldOff(Idle), None, pid, 0, false, None, {}, 0) }

  /** After userinit, with the CPUs in scheduler(). */
  ghost predicate Init(s: World) {
    INIT < |s.procs| && s.procs[INIT] == Fresh(Runnable, 1)
    && (forall p :: 0 <= p < |s.procs| && p != INIT ==> s.procs[p] == Fresh(Unused, 0))
    && (forall c :: 0 <= c < |s.cpus| ==> s.cpus[c] == Scan)
    && (forall l :: 0 <= l < |s.lks| ==> s.lks[l] == Lk(None, false, 0))
    && s.wait == None && s.nextpid == 2 && s.exits == map[] && s.reaped == [] && s.forker == map[]
  }

  ghost predicate Next(s: World, s': World) { exists c, a :: Can(s, c, a) && s' == Do(s, c, a) }

  /** The worlds of a run, in any interleaving of the CPUs. */
  ghost predicate IsRun(tr: seq<World>) {
    |tr| > 0 && if |tr| == 1 then Init(tr[0]) else IsRun(tr[..|tr| - 1]) && Next(tr[|tr| - 2], tr[|tr| - 1])
  }

  ghost predicate Reaches(tr: seq<World>, s: World) { IsRun(tr) && s == tr[|tr| - 1] }

  ghost predicate Reachable(s: World) { exists tr :: Reaches(tr, s) }
}
