/** What every step keeps: who holds which lock, and how the state of a process follows
    from where it is. */
module ProcInv {
  import opened Wrappers
  import opened Proc

  /** A CPU is on a process's stack exactly if it is the process's CPU. */
  ghost predicate CpuOk(s: World) {
    (forall c :: 0 <= c < |s.cpus| && s.cpus[c].On? ==> s.cpus[c].p < |s.procs| && s.procs[s.cpus[c].p].cpu == Some(c))
    && (forall p :: 0 <= p < |s.procs| && s.procs[p].cpu.Some? ==> s.procs[p].cpu.value < |s.cpus| && s.cpus[s.procs[p].cpu.value] == On(p))
  }

  /** The process lock and the spinlock that CPU c has acquired. */
  function HeldP(s: World, c: nat): Option<nat>
    requires c < |s.cpus|
  {
    match s.cpus[c]
    case Scan => None
    case Has(q) => Some(q)
    case Back(q) => Some(q)
    case On(p) => if p < |s.procs| then PLockOf(s.procs[p].pc, p) else None
  }

  function HeldS(s: World, c: nat): Option<Spin>
    requires c < |s.cpus|
  {
    if s.cpus[c].On? && s.cpus[c].p < |s.procs| then SpinOf(s.procs[s.cpus[c].p].pc) else None
  }

  ghost predicate LockOk(s: World) {
    (forall c :: 0 <= c < |s.cpus| && HeldP(s, c).Some? ==> HeldP(s, c).value < |s.procs| && s.procs[HeldP(s, c).value].lock == Some(c))
    && (forall q :: 0 <= q < |s.procs| && s.procs[q].lock.Some? ==> s.procs[q].lock.value < |s.cpus| && HeldP(s, s.procs[q].lock.value) == Some(q))
  }

  ghost predicate SpinOk(s: World) {
    (forall c :: 0 <= c < |s.cpus| && HeldS(s, c).Some? ==> IsSpin(s, HeldS(s, c).value) && Holder(s, HeldS(s, c).value) == Some(c))
    && (forall x :: IsSpin(s, x) && Holder(s, x).Some? ==> Holder(s, x).value < |s.cpus| && HeldS(s, Holder(s, x).value) == Some(x))
  }

  /** The state of a process on a CPU is RUNNING until it is about to leave; off a CPU
      it waits where it left. */
  predicate StateOk(x: Proc) {
    if x.cpu.Some? then
      match x.pc
      case SleepSched(ch) => x.state.Sleeping? && x.chan == ch
      case YieldSched(_) => x.state.Runnable?
      case ExitRel => x.state.Zombie?
      case ExitSched => x.state.Zombie?
      case ExitOff => false
      case _ => x.state.Running?
    else
      match x.state
      case Unused => x.pc.ExitOff? || x.pc == YieldOff(Idle)
      case Used => x.pc == YieldOff(Idle)
      case Sleeping => x.pc == SleepOff(x.chan)
      case Runnable => x.pc.SleepOff? || x.pc.YieldOff?
      case Running => false
      case Zombie => x.pc.ExitOff?
  }

  ghost predicate StatesOk(s: World) { forall p :: 0 <= p < |s.procs| ==> StateOk(s.procs[p]) }

  /** The slot that fork has allocated and not yet made RUNNABLE. */
  function Builds(pc: Pc): Option<nat> {
    match pc
    case ForkHas(i) => Some(i)
    case ForkWait(i) => Some(i)
    case ForkParent(i) => Some(i)
    case ForkLock(i) => Some(i)
    case ForkRun(i) => Some(i)
    case YieldLock(b) => Builds(b)
    case YieldSet(b) => Builds(b)
    case YieldSched(b) => Builds(b)
    case YieldOff(b) => Builds(b)
    case _ => None
  }

  predicate BuildOk(s: World, p: nat)
    requires p < |s.procs|
  {
    Builds(s.procs[p].pc).Some? ==>
      var i := Builds(s.procs[p].pc).value; i < |s.procs| && s.procs[i].state.Used? && s.procs[i].maker == p
  }

  ghost predicate ForksOk(s: World) { forall p :: 0 <= p < |s.procs| ==> BuildOk(s, p) }

  ghost predicate Bounds(s: World) {
    INIT < |s.procs|
    && forall p :: 0 <= p < |s.procs| ==> PcOk(s, s.procs[p].pc) && ChanOk(s, s.procs[p].chan)
  }

  ghost predicate Core(s: World) { CpuOk(s) && LockOk(s) && SpinOk(s) && StatesOk(s) && ForksOk(s) && Bounds(s) }

  // ----- data -----

  /** Nothing about locks and CPUs changed, nor where processes on CPUs are. */
  ghost predicate SameFrame(s: World, s': World) {
    |s'.procs| == |s.procs| && s'.cpus == s.cpus && |s'.lks| == |s.lks| && s'.wait == s.wait
    && (forall l :: 0 <= l < |s.lks| ==> s'.lks[l].lk == s.lks[l].lk)
    && (forall q :: 0 <= q < |s.procs| ==> FrameProc(s.procs[q], s'.procs[q]))
  }

  predicate FrameProc(x: Proc, x': Proc) { x'.lock == x.lock && x'.cpu == x.cpu && (x'.pc == x.pc || x.cpu.None?) }

  lemma EffectFrame(s: World, p: nat, ok: bool)
    requires p < |s.procs| && PcOk(s, s.procs[p].pc) && StateOk(s.procs[Target(s, p)])
    ensures FrameProc(s.procs[Target(s, p)], Effect(s, p, ok))
  {
  }

  lemma DataFrame(s: World, p: nat, ok: bool)
    requires StatesOk(s) && p < |s.procs| && PcOk(s, s.procs[p].pc)
    ensures SameFrame(s, Data(s, p, ok))
  {
    hide Effect, StateOk, Target;
    EffectFrame(s, p, ok);
  }

  lemma FrameHeld(s: World, s': World, c: nat)
    requires SameFrame(s, s') && CpuOk(s) && c < |s.cpus|
    ensures HeldP(s', c) == HeldP(s, c) && HeldS(s', c) == HeldS(s, c)
  {
    hide SpinOf, PLockOf;
  }

  lemma FrameCore(s: World, s': World)
    requires SameFrame(s, s') && CpuOk(s) && LockOk(s) && SpinOk(s)
    ensures CpuOk(s') && LockOk(s') && SpinOk(s')
  {
    FrameSpins(s, s');
    hide HeldP, HeldS, SpinOk;
    forall c | 0 <= c < |s.cpus| ensures HeldP(s', c) == HeldP(s, c) {
      FrameHeld(s, s', c);
    }
  }

  lemma FrameSpins(s: World, s': World)
    requires SameFrame(s, s') && CpuOk(s) && SpinOk(s)
    ensures SpinOk(s')
  {
    forall x ensures IsSpin(s', x) <==> IsSpin(s, x) {}
    forall x | IsSpin(s, x) ensures Holder(s', x) == Holder(s, x) {}
    hide HeldP, HeldS, Holder, IsSpin;
    forall c | 0 <= c < |s.cpus| ensures HeldS(s', c) == HeldS(s, c) {
      FrameHeld(s, s', c);
    }
  }

  // ----- moves -----

  lemma MoveHeld(s: World, c: nat, p: nat, pc: Pc, d: nat)
    requires CpuOk(s) && c < |s.cpus| && s.cpus[c] == On(p) && d < |s.cpus|
    ensures HeldP(Move(s, c, p, pc), d) == if d == c then PLockOf(pc, p) else HeldP(s, d)
    ensures HeldS(Move(s, c, p, pc), d) == if d == c then SpinOf(pc) else HeldS(s, d)
  {
    hide SpinOf, PLockOf;
  }

  lemma MoveCpus(s: World, c: nat, p: nat, pc: Pc)
    requires CpuOk(s) && p < |s.procs|
    ensures CpuOk(Move(s, c, p, pc))
  {
    hide SpinOf, PLockOf, Relock;
  }

  lemma MoveLocks(s: World, c: nat, p: nat, pc: Pc)
    requires CpuOk(s) && LockOk(s) && c < |s.cpus| && s.cpus[c] == On(p) && p < |s.procs| && MayTake(s, p, pc)
    ensures LockOk(Move(s, c, p, pc))
  {
    hide SpinOf, PLockOf, HeldP, HeldS, Holder, IsSpin;
    var s' := Move(s, c, p, pc);
    OnHeld(s, c, p);
    forall d | 0 <= d < |s.cpus| && HeldP(s', d).Some? ensures HeldP(s', d).value < |s'.procs| && s'.procs[HeldP(s', d).value].lock == Some(d) {
      MoveHeld(s, c, p, pc, d);
    }
    forall q | 0 <= q < |s.procs| && s'.procs[q].lock.Some?
      ensures s'.procs[q].lock.value < |s.cpus| && HeldP(s', s'.procs[q].lock.value) == Some(q)
    {
      if s'.procs[q].lock.value < |s.cpus| {
        MoveHeld(s, c, p, pc, s'.procs[q].lock.value);
      }
    }
  }

  lemma OnHeld(s: World, c: nat, p: nat)
    requires c < |s.cpus| && s.cpus[c] == On(p) && p < |s.procs|
    ensures HeldP(s, c) == PLockOf(s.procs[p].pc, p) && HeldS(s, c) == SpinOf(s.procs[p].pc)
  {
  }

  lemma MoveHolder(s: World, c: nat, p: nat, pc: Pc, x: Spin)
    requires p < |s.procs| && IsSpin(s, x)
    ensures IsSpin(Move(s, c, p, pc), x) && Holder(Move(s, c, p, pc), x) == Relock(Holder(s, x), c, x, SpinOf(s.procs[p].pc), SpinOf(pc))
  {
    hide SpinOf, PLockOf, Relock;
  }

  lemma SpinAt(s: World, c: nat)
    requires SpinOk(s) && c < |s.cpus|
    ensures HeldS(s, c).Some? ==> IsSpin(s, HeldS(s, c).value) && Holder(s, HeldS(s, c).value) == Some(c)
  {
    hide HeldS, Holder;
  }

  lemma SpinHolder(s: World, x: Spin)
    requires SpinOk(s) && IsSpin(s, x) && Holder(s, x).Some?
    ensures Holder(s, x).value < |s.cpus| && HeldS(s, Holder(s, x).value) == Some(x)
  {
    hide HeldS, Holder;
  }

  lemma MoveSpinHeld(s: World, c: nat, p: nat, pc: Pc, d: nat)
    requires CpuOk(s) && SpinOk(s) && c < |s.cpus| && s.cpus[c] == On(p) && p < |s.procs| && MayTake(s, p, pc) && d < |s.cpus|
    ensures |Move(s, c, p, pc).cpus| == |s.cpus|
    ensures var s' := Move(s, c, p, pc); HeldS(s', d).Some? ==> IsSpin(s', HeldS(s', d).value) && Holder(s', HeldS(s', d).value) == Some(d)
  {
    var s' := Move(s, c, p, pc);
    MoveSizes(s, c, p, pc);
    OnHeld(s, c, p);
    MoveHeld(s, c, p, pc, d);
    SpinAt(s, c);
    SpinAt(s, d);
    hide CpuOk, SpinOk, SpinOf, PLockOf, HeldP, HeldS, Holder, Move, IsSpin;
    if HeldS(s', d).Some? {
      MoveHolder(s, c, p, pc, HeldS(s', d).value);
    }
  }

  lemma MoveSpinOwner(s: World, c: nat, p: nat, pc: Pc, x: Spin)
    requires CpuOk(s) && SpinOk(s) && c < |s.cpus| && s.cpus[c] == On(p) && p < |s.procs| && MayTake(s, p, pc) && IsSpin(s, x)
    ensures |Move(s, c, p, pc).cpus| == |s.cpus| && IsSpin(Move(s, c, p, pc), x)
    ensures var s' := Move(s, c, p, pc); Holder(s', x).Some? ==> Holder(s', x).value < |s.cpus| && HeldS(s', Holder(s', x).value) == Some(x)
  {
    hide CpuOk, SpinOk, SpinOf, PLockOf, HeldP, HeldS, Holder, Move, IsSpin, MayTake;
    MoveSizes(s, c, p, pc);
    OnHeld(s, c, p);
    MoveHeld(s, c, p, pc, c);
    MoveHolder(s, c, p, pc, x);
    if Holder(s, x).Some? {
      SpinHolder(s, x);
      MoveHeld(s, c, p, pc, Holder(s, x).value);
    }
  }

  lemma MoveSpins(s: World, c: nat, p: nat, pc: Pc)
    requires CpuOk(s) && SpinOk(s) && c < |s.cpus| && s.cpus[c] == On(p) && p < |s.procs| && MayTake(s, p, pc)
    ensures SpinOk(Move(s, c, p, pc))
  {
    var s' := Move(s, c, p, pc);
    MoveSizes(s, c, p, pc);
    hide CpuOk, HeldS, Holder, Move, IsSpin, MayTake;
    forall d | 0 <= d < |s.cpus| && HeldS(s', d).Some? ensures IsSpin(s', HeldS(s', d).value) && Holder(s', HeldS(s', d).value) == Some(d) {
      MoveSpinHeld(s, c, p, pc, d);
    }
    forall x | IsSpin(s', x) && Holder(s', x).Some? ensures Holder(s', x).value < |s.cpus| && HeldS(s', Holder(s', x).value) == Some(x) {
      MoveSpinOwner(s, c, p, pc, x);
    }
  }

  lemma MoveSizes(s: World, c: nat, p: nat, pc: Pc)
    requires p < |s.procs|
    ensures var s' := Move(s, c, p, pc); s'.cpus == s.cpus && |s'.lks| == |s.lks| && |s'.procs| == |s.procs| && forall x :: IsSpin(s', x) <==> IsSpin(s, x)
  {
    hide SpinOf, PLockOf, Relock;
  }

  /** Process p on CPU c can make a step of its own. */
  ghost predicate Going(s: World, c: nat, p: nat, ok: bool) {
    Core(s) && c < |s.cpus| && s.cpus[c] == On(p) && p < |s.procs| && s.procs[p].cpu == Some(c) && PcOk(s, s.procs[p].pc) && MayGo(s, p, ok)
  }

  lemma IsGoing(s: World, c: nat, ok: bool)
    requires Core(s) && Can(s, c, Go(ok))
    ensures Going(s, c, s.cpus[c].p, ok) && Do(s, c, Go(ok)) == Went(s, c, s.cpus[c].p, ok)
  {
    hide LockOk, SpinOk, StatesOk, ForksOk, Bounds, MayGo, Went, PcOk;
    OnCpu(s, c);
  }

  /** A step of a process keeps the books on CPUs and locks. */
  lemma GoBooks(s: World, c: nat, p: nat, ok: bool)
    requires Going(s, c, p, ok)
    ensures CpuOk(Went(s, c, p, ok)) && LockOk(Went(s, c, p, ok)) && SpinOk(Went(s, c, p, ok))
  {
    hide CpuOk, LockOk, SpinOk, StatesOk, Move, Data, NextPc, PcOk, MayTake;
    var s1 := Data(s, p, ok);
    DataFrame(s, p, ok);
    FrameCore(s, s1);
    DataMayTake(s, p, ok, NextPc(s, p, ok));
    MoveCpus(s1, c, p, NextPc(s, p, ok));
    MoveLocks(s1, c, p, NextPc(s, p, ok));
    MoveSpins(s1, c, p, NextPc(s, p, ok));
  }

  lemma OnCpu(s: World, c: nat)
    requires CpuOk(s) && c < |s.cpus| && s.cpus[c].On?
    ensures s.cpus[c].p < |s.procs| && s.procs[s.cpus[c].p].cpu == Some(c)
  {
  }

  lemma DataMayTake(s: World, p: nat, ok: bool, pc: Pc)
    requires p < |s.procs| && PcOk(s, s.procs[p].pc) && s.procs[p].cpu.Some? && SameFrame(s, Data(s, p, ok)) && MayTake(s, p, pc)
    ensures MayTake(Data(s, p, ok), p, pc)
  {
    hide Data, SpinOf, PLockOf;
  }

  /** The other steps change one process and one CPU, and leave what the other CPUs hold
      alone. */
  lemma OtherHeld(s: World, c: nat, q: nat, x: Proc, k: Cpu, d: nat)
    requires CpuOk(s) && c < |s.cpus| && q < |s.procs| && d < |s.cpus| && d != c
    requires s.procs[q].cpu.Some? && s.procs[q].cpu != Some(c) ==> x.pc == s.procs[q].pc
    ensures var s' := SetCpu(SetProc(s, q, x), c, k); HeldP(s', d) == HeldP(s, d) && HeldS(s', d) == HeldS(s, d)
  {
    hide SpinOf, PLockOf;
  }

  ghost predicate Books(s: World) { CpuOk(s) && LockOk(s) && SpinOk(s) }

  lemma OneCpus(s: World, c: nat, q: nat, x: Proc, k: Cpu)
    requires CpuOk(s) && c < |s.cpus| && q < |s.procs| && HeldOnly(s, c, q, x, k)
    ensures CpuOk(SetCpu(SetProc(s, q, x), c, k))
  {
    hide HeldP, HeldS;
  }

  lemma OneLocks(s: World, c: nat, q: nat, x: Proc, k: Cpu)
    requires CpuOk(s) && LockOk(s) && c < |s.cpus| && q < |s.procs| && HeldOnly(s, c, q, x, k)
    requires x.lock == if HeldP(SetCpu(SetProc(s, q, x), c, k), c) == Some(q) then Some(c) else if HeldP(s, c) == Some(q) then None else s.procs[q].lock
    requires HeldP(s, c) != Some(q) && HeldP(SetCpu(SetProc(s, q, x), c, k), c) == Some(q) ==> s.procs[q].lock.None?
    ensures LockOk(SetCpu(SetProc(s, q, x), c, k))
  {
    var s' := SetCpu(SetProc(s, q, x), c, k);
    hide HeldP, HeldS;
    forall d | 0 <= d < |s.cpus| && d != c ensures HeldP(s', d) == HeldP(s, d) {
      OtherHeld(s, c, q, x, k, d);
    }
  }

  lemma OneSpins(s: World, c: nat, q: nat, x: Proc, k: Cpu)
    requires CpuOk(s) && SpinOk(s) && c < |s.cpus| && q < |s.procs| && HeldOnly(s, c, q, x, k)
    ensures SpinOk(SetCpu(SetProc(s, q, x), c, k))
  {
    var s' := SetCpu(SetProc(s, q, x), c, k);
    hide HeldP, HeldS, Holder;
    forall d | 0 <= d < |s.cpus| ensures HeldS(s', d) == HeldS(s, d) {
      if d != c {
        OtherHeld(s, c, q, x, k, d);
      }
    }
    forall y | IsSpin(s, y) ensures IsSpin(s', y) && Holder(s', y) == Holder(s, y) {
      SameHolder(s, c, q, x, k, y);
    }
  }

  /** CPU c and process q change; c takes or releases at most the lock of q. */
  lemma OneStep(s: World, c: nat, q: nat, x: Proc, k: Cpu)
    requires Books(s) && c < |s.cpus| && q < |s.procs| && HeldOnly(s, c, q, x, k)
    requires x.lock == if HeldP(SetCpu(SetProc(s, q, x), c, k), c) == Some(q) then Some(c) else if HeldP(s, c) == Some(q) then None else s.procs[q].lock
    requires HeldP(s, c) != Some(q) && HeldP(SetCpu(SetProc(s, q, x), c, k), c) == Some(q) ==> s.procs[q].lock.None?
    ensures Books(SetCpu(SetProc(s, q, x), c, k))
  {
    hide CpuOk, LockOk, SpinOk, HeldP, HeldS, HeldOnly;
    OneCpus(s, c, q, x, k);
    OneLocks(s, c, q, x, k);
    OneSpins(s, c, q, x, k);
  }

  /** Conditions of OneStep: the CPU and the process agree, the spinlock does not change
      and the process lock is q's or none. */
  ghost predicate HeldOnly(s: World, c: nat, q: nat, x: Proc, k: Cpu)
    requires c < |s.cpus| && q < |s.procs|
  {
    var s' := SetCpu(SetProc(s, q, x), c, k);
    HeldS(s', c) == HeldS(s, c) && (HeldP(s', c) == None || HeldP(s', c) == Some(q)) && (HeldP(s, c) == None || HeldP(s, c) == Some(q))
    && (k.On? ==> k.p == q) && (x.cpu == Some(c) <==> k == On(q)) && (x.cpu == Some(c) || x.cpu == None || x.cpu == s.procs[q].cpu)
    && (s.procs[q].cpu.Some? ==> (s.procs[q].cpu == Some(c) || (x.cpu == s.procs[q].cpu && x.pc == s.procs[q].pc)))
    && (s.cpus[c].On? ==> s.cpus[c].p == q)
  }

  lemma SameHolder(s: World, c: nat, q: nat, x: Proc, k: Cpu, y: Spin)
    requires c < |s.cpus| && q < |s.procs| && IsSpin(s, y)
    ensures IsSpin(SetCpu(SetProc(s, q, x), c, k), y) && Holder(SetCpu(SetProc(s, q, x), c, k), y) == Holder(s, y)
  {
  }

  /** A process that is where its own lock is held, while a CPU that is not on its stack
      has that lock, is on no CPU. */
  lemma OffCpu(s: World, c: nat, q: nat)
    requires CpuOk(s) && LockOk(s) && c < |s.cpus| && q < |s.procs| && HeldP(s, c) == Some(q) && s.cpus[c] != On(q) && PLockOf(s.procs[q].pc, q) == Some(q)
    ensures s.procs[q].cpu.None?
  {
    hide PLockOf;
  }

  /** What the scheduler finds when it holds the lock of a RUNNABLE process. */
  lemma Dispatchable(s: World, c: nat, q: nat)
    requires Core(s) && c < |s.cpus| && q < |s.procs| && HeldP(s, c) == Some(q) && s.cpus[c] != On(q) && s.procs[q].state.Runnable?
    ensures s.procs[q].cpu.None? && (s.procs[q].pc.SleepOff? || s.procs[q].pc.YieldOff?)
  {
    hide CpuOk, LockOk, SpinOk, Bounds;
    assert StateOk(s.procs[q]);
    if s.procs[q].cpu.Some? {
      OffCpu(s, c, q);
    }
  }

  lemma SchedBooks(s: World, c: nat, a: Act)
    requires Core(s) && Can(s, c, a) && !s.cpus[c].On?
    ensures Books(Do(s, c, a))
  {
    hide LockOk, SpinOk, StatesOk, Bounds, PcOk;
    var s' := Do(s, c, a);
    match s.cpus[c]
    case Scan => OneStep(s, c, a.q, s'.procs[a.q], s'.cpus[c]);
    case Has(q) =>
      if a.Dispatch? {
        Dispatchable(s, c, q);
        LockHeld(s, c, q);
      }
      OneStep(s, c, q, s'.procs[q], s'.cpus[c]);
    case Back(q) => OneStep(s, c, q, s'.procs[q], s'.cpus[c]);
  }

  lemma LockHeld(s: World, c: nat, q: nat)
    requires LockOk(s) && c < |s.cpus| && HeldP(s, c) == Some(q)
    ensures q < |s.procs| && s.procs[q].lock == Some(c)
  {
  }

  lemma LocalBooks(s: World, c: nat, a: Act)
    requires Core(s) && Can(s, c, a) && s.cpus[c].On? && !a.Go?
    ensures Books(Do(s, c, a))
  {
    hide LockOk, SpinOk, StatesOk, Bounds, PcOk;
    var s' := Do(s, c, a);
    var p := s.cpus[c].p;
    assert s'.procs[p] == s'.procs[p];
    if HeldP(s, c) == Some(p) {
      LockHeld(s, c, p);
    }
    OneStep(s, c, p, s'.procs[p], s'.cpus[c]);
    assert SetCpu(SetProc(s, p, s'.procs[p]), c, s'.cpus[c]) == s';
  }

  /** Who holds which lock stays right through every step. In particular no release is
      of a lock the CPU does not hold. */
  lemma KeepsBooks(s: World, c: nat, a: Act)
    requires Core(s) && Can(s, c, a)
    ensures Books(Do(s, c, a))
  {
    hide Core, Do, CpuOk, LockOk, SpinOk, MayCall, MayTake, PcOk;
    if a.Go? {
      IsGoing(s, c, a.ok);
      GoBooks(s, c, s.cpus[c].p, a.ok);
    } else if s.cpus[c].On? {
      LocalBooks(s, c, a);
    } else {
      SchedBooks(s, c, a);
    }
  }

  // ----- states -----

  /** The process whose lock a step of p holds is off its stack if it is where it would
      hold that lock itself: asleep, dead, or waiting to be dispatched. */
  predicate OffTarget(s: World, p: nat)
    requires p < |s.procs| && PcOk(s, s.procs[p].pc)
  {
    var pc := s.procs[p].pc;
    var t := Target(s, p);
    (pc.WakeHas? || pc.KillHas? || pc.WaitHas?) && t != p && PLockOf(s.procs[t].pc, t) == Some(t) ==> s.procs[t].cpu.None?
  }

  lemma TargetOff(s: World, c: nat, p: nat, ok: bool)
    requires Going(s, c, p, ok)
    ensures OffTarget(s, p)
  {
    hide CpuOk, LockOk, SpinOk, StatesOk, ForksOk, Bounds, PcOk, NextPc, MayTake;
    var pc := s.procs[p].pc;
    var t := Target(s, p);
    if t != p && (pc.WakeHas? || pc.KillHas? || pc.WaitHas?) && PLockOf(s.procs[t].pc, t) == Some(t) {
      OffCpu(s, c, t);
    }
  }

  /** The new record of another process is in order, and so is that of the process that
      moves. */
  lemma EffectState(s: World, p: nat, ok: bool)
    requires p < |s.procs| && PcOk(s, s.procs[p].pc) && StateOk(s.procs[p]) && StateOk(s.procs[Target(s, p)]) && BuildOk(s, p) && OffTarget(s, p)
    requires Target(s, p) != p
    ensures StateOk(Effect(s, p, ok))
  {
  }

  lemma MoverState(s: World, p: nat, ok: bool)
    requires p < |s.procs| && PcOk(s, s.procs[p].pc) && StateOk(s.procs[p]) && BuildOk(s, p) && s.procs[p].cpu.Some?
    requires !Switching(s.procs[p].pc) && !s.procs[p].pc.Idle? && Target(s, p) == p
    ensures StateOk(Effect(s, p, ok).(pc := NextPc(s, p, ok)))
  {
  }

  lemma CallerState(s: World, p: nat, ok: bool)
    requires p < |s.procs| && PcOk(s, s.procs[p].pc) && StateOk(s.procs[p]) && s.procs[p].cpu.Some? && Target(s, p) != p
    ensures StateOk(s.procs[p].(pc := NextPc(s, p, ok)))
  {
  }

  /** The record of process q after a step of process p. */
  function Stepped(s: World, c: nat, p: nat, ok: bool, q: nat): Proc
    requires p < |s.procs| && q < |s.procs| && PcOk(s, s.procs[p].pc)
  {
    var x := if q == Target(s, p) then Effect(s, p, ok) else s.procs[q];
    if q == p then x.(pc := NextPc(s, p, ok)) else x
  }

  lemma WentProc(s: World, c: nat, p: nat, ok: bool, q: nat)
    requires p < |s.procs| && q < |s.procs| && PcOk(s, s.procs[p].pc)
    ensures |Went(s, c, p, ok).procs| == |s.procs|
    ensures Went(s, c, p, ok).procs[q] == Stepped(s, c, p, ok, q).(lock := Went(s, c, p, ok).procs[q].lock)
  {
    hide Effect, NextPc, PcOk, SpinOf, PLockOf, Relock, LksAfter;
  }

  lemma SteppedState(s: World, c: nat, p: nat, ok: bool, q: nat)
    requires p < |s.procs| && q < |s.procs| && PcOk(s, s.procs[p].pc) && s.procs[p].cpu.Some? && !Switching(s.procs[p].pc) && !s.procs[p].pc.Idle?
    requires StatesOk(s) && BuildOk(s, p) && OffTarget(s, p)
    ensures StateOk(Stepped(s, c, p, ok, q))
  {
    hide Effect, NextPc, PcOk, StateOk, BuildOk, Target, OffTarget;
    assert StateOk(s.procs[p]) && StateOk(s.procs[Target(s, p)]) && StateOk(s.procs[q]);
    if Target(s, p) == p {
      MoverState(s, p, ok);
    } else {
      CallerState(s, p, ok);
      EffectState(s, p, ok);
    }
  }

  lemma GoStates(s: World, c: nat, p: nat, ok: bool)
    requires Going(s, c, p, ok)
    ensures StatesOk(Went(s, c, p, ok))
  {
    TargetOff(s, c, p, ok);
    var s' := Went(s, c, p, ok);
    hide Went, CpuOk, LockOk, SpinOk, Bounds, PcOk, StateOk, BuildOk, Target, MayTake, NextPc, OffTarget, Stepped;
    assert BuildOk(s, p);
    forall q | 0 <= q < |s'.procs| ensures StateOk(s'.procs[q]) {
      WentProc(s, c, p, ok, p);
      WentProc(s, c, p, ok, q);
      SteppedState(s, c, p, ok, q);
      StateLock(Stepped(s, c, p, ok, q), s'.procs[q].lock);
    }
  }

  lemma StateLock(x: Proc, lock: Option<nat>)
    requires StateOk(x)
    ensures StateOk(x.(lock := lock))
  {
  }

  // ----- fork -----

  /** Nobody but its maker touches a slot that is being built. */
  lemma UsedKept(s: World, p: nat, ok: bool)
    requires p < |s.procs| && PcOk(s, s.procs[p].pc) && StateOk(s.procs[p]) && s.procs[p].cpu.Some? && BuildOk(s, p) && s.procs[Target(s, p)].state.Used?
    ensures Effect(s, p, ok).state.Used? || s.procs[Target(s, p)].maker == p
    ensures Effect(s, p, ok).maker == s.procs[Target(s, p)].maker
    ensures Builds(NextPc(s, p, ok)) == Some(Target(s, p)) && !s.procs[p].pc.ForkTry? ==> Effect(s, p, ok).state.Used?
  {
  }

  /** What a process goes on building it had begun to build, or has just allocated. */
  lemma BuildsNext(s: World, p: nat, ok: bool)
    requires p < |s.procs| && PcOk(s, s.procs[p].pc)
    ensures var b := Builds(NextPc(s, p, ok)); b.Some? ==> b == Builds(s.procs[p].pc) || (s.procs[p].pc.ForkTry? && b == Some(Target(s, p)))
    ensures var b := Builds(NextPc(s, p, ok)); b.Some? && s.procs[p].pc.ForkTry? ==> Effect(s, p, ok).state.Used? && Effect(s, p, ok).maker == p
    ensures s.procs[p].pc.ForkTry? ==> Builds(s.procs[p].pc).None?
  {
  }

  lemma NewPc(s: World, p: nat, ok: bool, q: nat)
    requires p < |s.procs| && PcOk(s, s.procs[p].pc) && q < |s.procs| && q != p
    ensures Stepped(s, 0, p, ok, q).pc == s.procs[q].pc || Stepped(s, 0, p, ok, q).pc == YieldOff(Idle)
    ensures Stepped(s, 0, p, ok, p).pc == NextPc(s, p, ok)
  {
    hide NextPc, PcOk;
  }

  lemma GoFork(s: World, c: nat, p: nat, ok: bool, q: nat)
    requires p < |s.procs| && PcOk(s, s.procs[p].pc) && s.procs[p].cpu.Some? && StateOk(s.procs[p]) && ForksOk(s) && q < |s.procs|
    ensures var b := Builds(Stepped(s, c, p, ok, q).pc); b.Some? ==>
      b.value < |s.procs| && Stepped(s, c, p, ok, b.value).state.Used? && Stepped(s, c, p, ok, b.value).maker == q
  {
    hide PcOk, NextPc, Effect, Target, PcOk, StateOk;
    assert BuildOk(s, p) && BuildOk(s, q) && !s.procs[p].state.Used? by { assert StateOk(s.procs[p]); OnState(s.procs[p]); }
    if s.procs[Target(s, p)].state.Used? {
      UsedKept(s, p, ok);
    }
    if q == p {
      BuildsNext(s, p, ok);
    } else {
      NewPc(s, p, ok, q);
    }
  }

  lemma OnState(x: Proc)
    requires StateOk(x) && x.cpu.Some?
    ensures x.state.Running? || x.state.Sleeping? || x.state.Runnable? || x.state.Zombie?
  {
  }

  lemma GoForks(s: World, c: nat, p: nat, ok: bool)
    requires Going(s, c, p, ok)
    ensures ForksOk(Went(s, c, p, ok))
  {
    var s' := Went(s, c, p, ok);
    assert StateOk(s.procs[p]);
    hide Went, CpuOk, LockOk, SpinOk, StatesOk, Bounds, PcOk, StateOk, Target, MayTake, NextPc, Stepped, Builds, ForksOk;
    WentProc(s, c, p, ok, p);
    forall q | 0 <= q < |s'.procs| ensures BuildOk(s', q) {
      GoFork(s, c, p, ok, q);
      WentProc(s, c, p, ok, q);
      var b := Builds(Stepped(s, c, p, ok, q).pc);
      if b.Some? {
        WentProc(s, c, p, ok, b.value);
      }
    }
    assert ForksOk(s') by { AllForks(s'); }
  }

  lemma AllForks(s: World)
    requires forall q :: 0 <= q < |s.procs| ==> BuildOk(s, q)
    ensures ForksOk(s)
  {
  }

  // ----- bounds -----

  lemma PcOkSame(s: World, s': World, pc: Pc)
    requires |s'.procs| == |s.procs| && |s'.lks| == |s.lks| && PcOk(s, pc)
    ensures PcOk(s', pc)
  {
  }

  predicate InSleep(pc: Pc) {
    pc.Enter? || pc.Test? || pc.Taken? || pc.Leave? || pc.Drop? || pc.Left? || pc.SleepLock? || pc.SleepRel? || pc.SleepSet? || pc.SleepSched? || pc.SleepOff?
  }

  lemma SleepPcOk(s: World, p: nat, ok: bool)
    requires p < |s.procs| && PcOk(s, s.procs[p].pc) && InSleep(s.procs[p].pc)
    ensures PcOk(s, NextPc(s, p, ok))
  {
    hide SpinOf, PLockOf;
  }

  predicate InFamily(pc: Pc) {
    pc.ForkScan? || pc.ForkTry? || pc.ForkHas? || pc.ForkWait? || pc.ForkParent? || pc.ForkLock? || pc.ForkRun? || pc.ForkRet?
    || pc.WaitEnter? || pc.WaitScan? || pc.WaitHas? || pc.WaitRet?
  }

  lemma FamilyPcOk(s: World, p: nat, ok: bool)
    requires p < |s.procs| && PcOk(s, s.procs[p].pc) && InFamily(s.procs[p].pc)
    ensures PcOk(s, NextPc(s, p, ok))
  {
    hide SpinOf, PLockOf;
  }

  lemma OtherPcOk(s: World, p: nat, ok: bool)
    requires p < |s.procs| && PcOk(s, s.procs[p].pc) && !InSleep(s.procs[p].pc) && !InFamily(s.procs[p].pc)
    ensures PcOk(s, NextPc(s, p, ok))
  {
    hide SpinOf, PLockOf;
  }

  lemma NextPcOk(s: World, p: nat, ok: bool)
    requires p < |s.procs| && PcOk(s, s.procs[p].pc)
    ensures PcOk(s, NextPc(s, p, ok))
  {
    hide NextPc, PcOk, InSleep, InFamily;
    if InSleep(s.procs[p].pc) {
      SleepPcOk(s, p, ok);
    } else if InFamily(s.procs[p].pc) {
      FamilyPcOk(s, p, ok);
    } else {
      OtherPcOk(s, p, ok);
    }
  }

  lemma EffectChan(s: World, p: nat, ok: bool)
    requires p < |s.procs| && PcOk(s, s.procs[p].pc) && ChanOk(s, s.procs[Target(s, p)].chan)
    ensures ChanOk(s, Effect(s, p, ok).chan)
  {
  }

  lemma SteppedBounds(s: World, c: nat, p: nat, ok: bool, q: nat)
    requires Bounds(s) && p < |s.procs| && PcOk(s, s.procs[p].pc) && q < |s.procs|
    ensures PcOk(s, Stepped(s, c, p, ok, q).pc) && ChanOk(s, Stepped(s, c, p, ok, q).chan)
  {
    hide PcOk, NextPc, Effect, Target, ChanOk;
    NextPcOk(s, p, ok);
    EffectChan(s, p, ok);
    StartOk(s);
    if q != p {
      NewPc(s, p, ok, q);
    }
  }

  lemma GoBounds(s: World, c: nat, p: nat, ok: bool)
    requires Going(s, c, p, ok)
    ensures Bounds(Went(s, c, p, ok))
  {
    var s' := Went(s, c, p, ok);
    WentSizes(s, c, p, ok);
    hide Went, CpuOk, LockOk, SpinOk, StatesOk, ForksOk, PcOk, MayGo, Stepped;
    forall q | 0 <= q < |s'.procs| ensures PcOk(s', s'.procs[q].pc) && ChanOk(s', s'.procs[q].chan) {
      WentProc(s, c, p, ok, q);
      SteppedBounds(s, c, p, ok, q);
      PcOkSame(s, s', s'.procs[q].pc);
    }
  }

  lemma StartOk(s: World)
    ensures PcOk(s, YieldOff(Idle))
  {
  }

  lemma DataSizes(s: World, p: nat, ok: bool)
    requires p < |s.procs| && PcOk(s, s.procs[p].pc)
    ensures |Data(s, p, ok).procs| == |s.procs| && |Data(s, p, ok).lks| == |s.lks| && Data(s, p, ok).cpus == s.cpus
  {
    hide Effect, Target;
  }

  lemma WentSizes(s: World, c: nat, p: nat, ok: bool)
    requires p < |s.procs| && PcOk(s, s.procs[p].pc)
    ensures |Went(s, c, p, ok).procs| == |s.procs| && |Went(s, c, p, ok).lks| == |s.lks| && Went(s, c, p, ok).cpus == s.cpus
  {
    hide Data, Move, NextPc, PcOk;
    DataSizes(s, p, ok);
    MoveSizes(Data(s, p, ok), c, p, NextPc(s, p, ok));
  }

  // ----- the other steps -----

  function OffPc(pc: Pc): Pc {
    match pc case SleepSched(ch) => SleepOff(ch) case YieldSched(b) => YieldOff(b) case _ => ExitOff
  }

  predicate IsCall(pc: Pc) { pc.Enter? || pc.Leave? || pc.Kill? || pc == ForkScan([]) || pc.ExitEnter? || pc.WaitEnter? }

  /** How scheduler, switch, yield and call steps change the record of a process. */
  predicate Turned(x: Proc, x': Proc) {
    || x' == x.(lock := x'.lock)
    || (x.cpu.None? && x.state.Runnable? && x'.cpu.Some? && x' == x.(state := Running, cpu := x'.cpu))
    || (x.cpu.Some? && Switching(x.pc) && x' == x.(pc := OffPc(x.pc), cpu := None))
    || (x.cpu.Some? && SpinOf(x.pc).None? && PLockOf(x.pc, 0).None? && x' == x.(pc := YieldLock(x.pc)))
    || (x.cpu.Some? && x.pc.Idle? && IsCall(x'.pc) && x' == x.(pc := x'.pc))
  }

  lemma SchedTurned(s: World, c: nat, a: Act)
    requires Core(s) && Can(s, c, a) && !s.cpus[c].On?
    ensures var s' := Do(s, c, a); |s'.procs| == |s.procs| && s' == s.(procs := s'.procs, cpus := s'.cpus)
    ensures var s' := Do(s, c, a); forall q :: 0 <= q < |s.procs| ==> Turned(s.procs[q], s'.procs[q])
    ensures var s' := Do(s, c, a); forall q :: 0 <= q < |s.procs| ==> PcOk(s, s'.procs[q].pc)
  {
    hide CpuOk, LockOk, SpinOk, StatesOk, ForksOk, PcOk, SpinOf, PLockOf;
    if s.cpus[c].Has? && a.Dispatch? {
      Dispatchable(s, c, s.cpus[c].p);
    }
  }

  lemma SwtchPc(s: World, p: nat)
    requires p < |s.procs| && PcOk(s, s.procs[p].pc) && Switching(s.procs[p].pc)
    ensures NextPc(s, p, true) == OffPc(s.procs[p].pc) && PcOk(s, NextPc(s, p, true))
  {
    NextPcOk(s, p, true);
    hide PcOk;
  }

  lemma YieldPc(s: World, pc: Pc, p: nat)
    requires PcOk(s, pc) && SpinOf(pc).None? && PLockOf(pc, p).None?
    ensures PcOk(s, YieldLock(pc)) && PLockOf(pc, 0).None?
  {
  }

  lemma CallPc(s: World, p: nat, op: Pc)
    requires p < |s.procs| && MayCall(s, p, op)
    ensures IsCall(op) && PcOk(s, op)
  {
  }

  lemma LocalTurned(s: World, c: nat, a: Act)
    requires Core(s) && Can(s, c, a) && s.cpus[c].On? && !a.Go?
    ensures var s' := Do(s, c, a); |s'.procs| == |s.procs| && s' == s.(procs := s'.procs, cpus := s'.cpus)
    ensures var s' := Do(s, c, a); forall q :: 0 <= q < |s.procs| ==> Turned(s.procs[q], s'.procs[q])
    ensures var s' := Do(s, c, a); forall q :: 0 <= q < |s.procs| ==> PcOk(s, s'.procs[q].pc)
  {
    hide CpuOk, LockOk, SpinOk, StatesOk, ForksOk, PcOk, SpinOf, PLockOf, NextPc, MayCall, MayGo, Went;
    OnCpu(s, c);
    var p := s.cpus[c].p;
    match a
    case Swtch => SwtchPc(s, p);
    case Yield => YieldPc(s, s.procs[p].pc, p);
    case Call(op) => CallPc(s, p, op);
    case _ =>
  }

  lemma TurnedState(x: Proc, x': Proc)
    requires StateOk(x) && Turned(x, x')
    ensures StateOk(x') && x'.maker == x.maker && (x.state.Used? <==> x'.state.Used?)
    ensures Builds(x'.pc).Some? ==> Builds(x'.pc) == Builds(x.pc)
  {
  }

  ghost predicate AllTurned(s: World, s': World) {
    |s'.procs| == |s.procs| && s' == s.(procs := s'.procs, cpus := s'.cpus)
    && (forall q :: 0 <= q < |s.procs| ==> Turned(s.procs[q], s'.procs[q]))
    && (forall q :: 0 <= q < |s.procs| ==> PcOk(s, s'.procs[q].pc))
  }

  lemma IsTurned(s: World, c: nat, a: Act)
    requires Core(s) && Can(s, c, a) && !a.Go?
    ensures AllTurned(s, Do(s, c, a))
  {
    hide Core, Do, Turned, PcOk, MayGo, MayCall;
    if s.cpus[c].On? {
      LocalTurned(s, c, a);
    } else {
      SchedTurned(s, c, a);
    }
  }

  lemma TurnedKeeps(s: World, s': World)
    requires StatesOk(s) && ForksOk(s) && Bounds(s) && AllTurned(s, s')
    ensures StatesOk(s') && ForksOk(s') && Bounds(s')
  {
    hide StateOk, Turned, PcOk, Builds;
    forall q | 0 <= q < |s.procs| ensures StateOk(s'.procs[q]) && PcOk(s', s'.procs[q].pc) && ChanOk(s', s'.procs[q].chan) {
      TurnedState(s.procs[q], s'.procs[q]);
      TurnedChan(s.procs[q], s'.procs[q]);
      PcOkSame(s, s', s'.procs[q].pc);
    }
    forall q | 0 <= q < |s.procs| ensures BuildOk(s', q) {
      assert BuildOk(s, q);
      TurnedState(s.procs[q], s'.procs[q]);
      if Builds(s'.procs[q].pc).Some? {
        TurnedState(s.procs[Builds(s.procs[q].pc).value], s'.procs[Builds(s.procs[q].pc).value]);
      }
    }
  }

  lemma TurnedChan(x: Proc, x': Proc)
    requires Turned(x, x')
    ensures x'.chan == x.chan && x'.parent == x.parent && x'.pid == x.pid && x'.xstate == x.xstate && x'.held == x.held && x'.killed == x.killed
  {
  }

  /** Every step keeps the core invariant. */
  lemma KeepsCore(s: World, c: nat, a: Act)
    requires Core(s) && Can(s, c, a)
    ensures Core(Do(s, c, a))
  {
    KeepsBooks(s, c, a);
    if a.Go? {
      IsGoing(s, c, a.ok);
      var p := s.cpus[c].p;
      hide Do, Can, CpuOk, LockOk, SpinOk, StatesOk, ForksOk, Bounds, Went, Going;
      GoStates(s, c, p, a.ok);
      GoForks(s, c, p, a.ok);
      GoBounds(s, c, p, a.ok);
    } else {
      hide Do, Can, CpuOk, LockOk, SpinOk, StatesOk, ForksOk, Bounds;
      IsTurned(s, c, a);
      TurnedKeeps(s, Do(s, c, a));
    }
  }

  lemma InitCore(s: World)
    requires Init(s)
    ensures Core(s)
  {
    hide SpinOf, PLockOf, Holder;
    forall x | IsSpin(s, x) ensures Holder(s, x).None? {
      FreeSpin(s, x);
    }
    StartOk(s);
  }

  lemma FreeSpin(s: World, x: Spin)
    requires Init(s) && IsSpin(s, x)
    ensures Holder(s, x).None?
  {
  }

  lemma {:induction false} RunCore(tr: seq<World>)
    requires IsRun(tr)
    ensures Core(tr[|tr| - 1])
  {
    hide Core, Can, Do;
    if |tr| == 1 {
      InitCore(tr[0]);
    } else {
      RunCore(tr[..|tr| - 1]);
      var s := tr[|tr| - 2];
      var c, a :| Can(s, c, a) && tr[|tr| - 1] == Do(s, c, a);
      KeepsCore(s, c, a);
    }
  }

  /** The core invariant holds in every state of every run. */
  lemma ReachableCore(s: World)
    requires Reachable(s)
    ensures Core(s)
  {
    hide Core, Init, Next;
    var tr :| Reaches(tr, s);
    RunCore(tr);
  }

  lemma CoreAt(s: World, p: nat)
    requires Core(s) && p < |s.procs|
    ensures StateOk(s.procs[p]) && PcOk(s, s.procs[p].pc)
  {
    hide CpuOk, LockOk, SpinOk, ForksOk, StateOk, PcOk;
  }

  lemma CoreOn(s: World, c: nat)
    requires Core(s) && c < |s.cpus| && s.cpus[c].On?
    ensures s.cpus[c].p < |s.procs| && s.procs[s.cpus[c].p].cpu == Some(c)
  {
    hide LockOk, SpinOk, StatesOk, ForksOk, Bounds;
  }

  lemma CoreLock(s: World, c: nat, q: nat)
    requires Core(s) && c < |s.cpus| && HeldP(s, c) == Some(q)
    ensures q < |s.procs| && s.procs[q].lock == Some(c)
    ensures s.cpus[c] != On(q) && PLockOf(s.procs[q].pc, q) == Some(q) ==> s.procs[q].cpu.None?
  {
    hide CpuOk, LockOk, SpinOk, StatesOk, ForksOk, Bounds, HeldP, PLockOf;
    LockHeld(s, c, q);
    if s.cpus[c] != On(q) && PLockOf(s.procs[q].pc, q) == Some(q) {
      OffCpu(s, c, q);
    }
  }

  /** No two CPUs are ever on one process. */
  lemma OneCpuEach(s: World, c: nat, d: nat, p: nat)
    requires Reachable(s) && c < |s.cpus| && d < |s.cpus| && s.cpus[c] == On(p) && s.cpus[d] == On(p)
    ensures c == d
  {
    ReachableCore(s);
    hide Core, Reachable;
    CoreOn(s, c);
    CoreOn(s, d);
  }

  lemma SwitchState(x: Proc, p: nat)
    requires StateOk(x) && x.cpu.Some? && Switching(x.pc)
    ensures !x.state.Running? && PLockOf(x.pc, p) == Some(p) && SpinOf(x.pc) == None
  {
  }

  /** A process that calls sched holds its own lock and no other, and is no longer
      RUNNING: none of sched's panics can happen. */
  lemma SchedSafe(s: World, c: nat)
    requires Reachable(s) && c < |s.cpus| && s.cpus[c].On?
    ensures s.cpus[c].p < |s.procs|
    ensures var x := s.procs[s.cpus[c].p]; Switching(x.pc) ==> x.lock == Some(c) && HeldS(s, c) == None && !x.state.Running?
  {
    ReachableCore(s);
    hide Core, Reachable, StateOk, PcOk, SpinOf, PLockOf;
    CoreOn(s, c);
    var p := s.cpus[c].p;
    CoreAt(s, p);
    if Switching(s.procs[p].pc) {
      SwitchState(s.procs[p], p);
      CoreLock(s, c, p);
    }
  }

  lemma ZombiePlace(x: Proc, p: nat)
    requires StateOk(x) && x.state.Zombie?
    ensures PLockOf(x.pc, p) == Some(p) && !x.pc.WaitHas?
  {
  }

  lemma WaitPlace(s: World, c: nat)
    requires Core(s) && c < |s.cpus| && s.cpus[c].On? && s.cpus[c].p < |s.procs| && s.procs[s.cpus[c].p].pc.WaitHas?
    ensures s.procs[s.cpus[c].p].pc.i < |s.procs| && HeldP(s, c) == Some(s.procs[s.cpus[c].p].pc.i)
  {
    hide Core;
    CoreAt(s, s.cpus[c].p);
  }

  /** When wait finds a zombie, no CPU is on that process's kernel stack: the scheduler
      has left it before freeproc. */
  lemma ZombieIsOff(s: World, c: nat, d: nat)
    requires Reachable(s) && c < |s.cpus| && s.cpus[c].On? && d < |s.cpus|
    ensures s.cpus[c].p < |s.procs|
    ensures var pc := s.procs[s.cpus[c].p].pc; pc.WaitHas? ==> pc.i < |s.procs| && (s.procs[pc.i].state.Zombie? ==> s.cpus[d] != On(pc.i))
  {
    ReachableCore(s);
    hide Core, Reachable, StateOk, PcOk, HeldP, PLockOf;
    CoreOn(s, c);
    var pc := s.procs[s.cpus[c].p].pc;
    if pc.WaitHas? {
      WaitPlace(s, c);
      if s.procs[pc.i].state.Zombie? {
        CoreAt(s, pc.i);
        ZombiePlace(s.procs[pc.i], pc.i);
        CoreLock(s, c, pc.i);
        if s.cpus[d] == On(pc.i) {
          CoreOn(s, d);
        }
      }
    }
  }

  /** Two processes cannot both hold a spinlock. */
  lemma SpinUnique(s: World, p: nat, q: nat, x: Spin)
    requires Core(s) && p < |s.procs| && q < |s.procs| && s.procs[p].cpu.Some? && s.procs[q].cpu.Some?
    requires SpinOf(s.procs[p].pc) == Some(x) && SpinOf(s.procs[q].pc) == Some(x)
    ensures p == q
  {
    hide LockOk, StatesOk, ForksOk, Bounds, SpinOf, Holder, IsSpin;
    var c, d := s.procs[p].cpu.value, s.procs[q].cpu.value;
    assert HeldS(s, c) == Some(x) && HeldS(s, d) == Some(x);
  }

  lemma GoingAt(s: World, c: nat, p: nat, ok: bool, q: nat)
    requires Going(s, c, p, ok) && q < |s.procs|
    ensures p < |s.procs| && s.procs[p].cpu.Some? && PcOk(s, s.procs[p].pc) && BuildOk(s, p)
    ensures StateOk(s.procs[q]) && PcOk(s, s.procs[q].pc) && BuildOk(s, q)
  {
    hide CpuOk, LockOk, SpinOk, MayGo, StateOk, PcOk, BuildOk;
  }

  /** A step takes a lock only when it holds none of that kind. */
  lemma TakesFree(s: World, p: nat, ok: bool)
    requires p < |s.procs| && PcOk(s, s.procs[p].pc)
    ensures var pc, pc' := s.procs[p].pc, NextPc(s, p, ok); SpinOf(pc') != SpinOf(pc) && SpinOf(pc').Some? ==> SpinOf(pc).None? && IsSpin(s, SpinOf(pc').value)
    ensures var pc, pc' := s.procs[p].pc, NextPc(s, p, ok);
      PLockOf(pc', p) != PLockOf(pc, p) && PLockOf(pc', p).Some? ==> PLockOf(pc, p).None? && PLockOf(pc', p).value < |s.procs|
  {
  }

  /** The lock that process p waits for, if any, is held by a CPU other than c. */
  predicate Blocked(s: World, c: nat, p: nat, pc: Pc)
    requires p < |s.procs|
  {
    (SpinOf(pc).Some? && IsSpin(s, SpinOf(pc).value) && Holder(s, SpinOf(pc).value).Some? && Holder(s, SpinOf(pc).value) != Some(c))
    || (PLockOf(pc, p).Some? && PLockOf(pc, p).value < |s.procs| && s.procs[PLockOf(pc, p).value].lock.Some? && s.procs[PLockOf(pc, p).value].lock != Some(c))
  }

  /** In every reachable state a process on a CPU can make its next step, or waits for a
      lock that another CPU holds: none acquires a lock its own CPU holds, and none
      returns from exit's sched. */
  lemma NeverStuck(s: World, c: nat, ok: bool)
    requires Reachable(s) && c < |s.cpus| && s.cpus[c].On?
    ensures s.cpus[c].p < |s.procs| && PcOk(s, s.procs[s.cpus[c].p].pc)
    ensures var pc := s.procs[s.cpus[c].p].pc;
      !pc.ExitOff? && (pc.Idle? || Switching(pc) || Can(s, c, Go(ok)) || Blocked(s, c, s.cpus[c].p, NextPc(s, s.cpus[c].p, ok)))
  {
    ReachableCore(s);
    hide Core, Reachable, PcOk, NextPc, StateOk, Blocked, Switching, Can;
    CoreOn(s, c);
    CoreAt(s, s.cpus[c].p);
    NotOff(s.procs[s.cpus[c].p]);
    GoesOrWaits(s, c, s.cpus[c].p, ok);
  }

  lemma GoesOrWaits(s: World, c: nat, p: nat, ok: bool)
    requires Core(s) && c < |s.cpus| && s.cpus[c] == On(p) && p < |s.procs| && PcOk(s, s.procs[p].pc) && !s.procs[p].pc.ExitOff?
    ensures var pc := s.procs[p].pc; pc.Idle? || Switching(pc) || Can(s, c, Go(ok)) || Blocked(s, c, p, NextPc(s, p, ok))
  {
    hide Core, PcOk, NextPc, SpinOf, PLockOf, Blocked, Switching, MayTake;
    var pc := s.procs[p].pc;
    if !(pc.Idle? || Switching(pc)) && !MayTake(s, p, NextPc(s, p, ok)) {
      Waiting(s, c, p, ok);
    }
  }

  lemma NotOff(x: Proc)
    requires StateOk(x) && x.cpu.Some?
    ensures !x.pc.ExitOff?
  {
  }

  lemma Waiting(s: World, c: nat, p: nat, ok: bool)
    requires Core(s) && c < |s.cpus| && s.cpus[c] == On(p) && p < |s.procs| && PcOk(s, s.procs[p].pc) && !MayTake(s, p, NextPc(s, p, ok))
    ensures Blocked(s, c, p, NextPc(s, p, ok))
  {
    hide StatesOk, ForksOk, Bounds, PcOk, NextPc, SpinOf, PLockOf, CpuOk, HeldP, HeldS, Holder, IsSpin;
    TakesFree(s, p, ok);
    OnHeld(s, c, p);
  }
}
