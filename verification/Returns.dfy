/** What a system call has done when it returns: acquiresleep holds the lock, fork has made
    a child or found every slot taken, wait has reaped a child or has a reason not to. */
module Returns {
  import opened Wrappers
  import opened Proc
  import opened ProcInv
  import opened Wakeup
  import opened Lifecycle
  import opened Reaping
  import opened WaitSleep

  /** Where the process is, apart from timer interrupts. */
  function Base(pc: Pc): Pc {
    match pc
    case YieldLock(b) => Base(b)
    case YieldSet(b) => Base(b)
    case YieldSched(b) => Base(b)
    case YieldOff(b) => Base(b)
    case _ => pc
  }

  /** Process p has a child. */
  ghost predicate HasChild(s: World, p: nat) { exists k :: 0 <= k < |s.procs| && s.procs[k].parent == Some(p) }

  predicate IsForker(s: World, p: nat, pid: nat)
    requires p < |s.procs|
  {
    pid in s.forker && s.forker[pid] == s.procs[p].pid
  }

  /** The reasons for which fork returns what it does. */
  predicate ForkEndOk(s: World, p: nat, got: ForkEnd)
    requires p < |s.procs|
  {
    match got
    case Child(pid) => IsForker(s, p, pid)
    case NoSlot(seen) => |seen| >= |s.procs| && Unused !in seen
    case NoMemory => true
  }

  /** Slot i is being made, and has no parent yet. */
  predicate Unborn(s: World, i: nat) { i < |s.procs| && s.procs[i].parent.None? && s.procs[i].pid !in s.forker }

  predicate ForkOk(s: World, p: nat)
    requires p < |s.procs|
  {
    match Base(s.procs[p].pc)
    case ForkScan(seen) => Unused !in seen
    case ForkTry(seen) => Unused !in seen
    case ForkHas(i) => Unborn(s, i)
    case ForkWait(i) => Unborn(s, i)
    case ForkParent(i) => Unborn(s, i)
    case ForkLock(i) => i < |s.procs| && IsForker(s, p, s.procs[i].pid)
    case ForkRun(i) => i < |s.procs| && IsForker(s, p, s.procs[i].pid)
    case ForkRet(got) => ForkEndOk(s, p, got)
    case _ => true
  }

  /** The reasons for which wait returns what it does. */
  ghost predicate WaitEndOk(s: World, p: nat, end: WaitEnd)
    requires p < |s.procs|
  {
    match end
    case Answered(pid, status) => s.reaped != [] && s.reaped[|s.reaped| - 1] == Reap(pid, status, s.procs[p].pid)
    case Alone => !HasChild(s, p)
    case Interrupted => s.procs[p].killed && HasChild(s, p)
    case BadAddress => HasDead(s, p)
  }

  ghost predicate WaitOk(s: World, p: nat)
    requires p < |s.procs|
  {
    match s.procs[p].pc
    case WaitScan(i, kids) => if kids then HasChild(s, p) else forall k :: 0 <= k < i && k < |s.procs| ==> s.procs[k].parent != Some(p)
    case WaitRet(end) => WaitEndOk(s, p, end)
    case _ => SleepChan(s.procs[p].pc).OnProc? ==> HasChild(s, p)
  }

  /** The sleeplock that the process is past acquiring, or past releasing. */
  predicate HeldOk(x: Proc) {
    match x.pc
    case Taken(l) => l in x.held
    case Wake(ByRelease(l), _) => l !in x.held
    case WakeHas(ByRelease(l), _) => l !in x.held
    case Left(l) => l !in x.held
    case _ => true
  }

  ghost predicate Rets(s: World) {
    (forall p :: 0 <= p < |s.procs| ==> ForkOk(s, p)) && (forall p :: 0 <= p < |s.procs| ==> WaitOk(s, p))
    && (forall p :: 0 <= p < |s.procs| ==> HeldOk(s.procs[p])) && forall i :: i in s.forker ==> i < s.nextpid
  }

  // ----- fork -----

  predicate InFork(pc: Pc) {
    match pc
    case ForkHas(_) => true
    case ForkWait(_) => true
    case ForkParent(_) => true
    case ForkLock(_) => true
    case ForkRun(_) => true
    case ForkRet(_) => true
    case _ => false
  }

  lemma {:induction false} BuildsBase(pc: Pc)
    ensures Builds(pc) == Builds(Base(pc))
    ensures pc.YieldLock? || pc.YieldSet? || pc.YieldSched? || pc.YieldOff? || Base(pc) == pc
  {
    match pc
    case YieldLock(b) => BuildsBase(b);
    case YieldSet(b) => BuildsBase(b);
    case YieldSched(b) => BuildsBase(b);
    case YieldOff(b) => BuildsBase(b);
    case _ =>
  }

  /** A process in fork is alive. */
  lemma ForkLive(x: Proc)
    requires StateOk(x) && InFork(Base(x.pc))
    ensures Live(x)
  {
    BuildsBase(x.pc);
  }

  /** Only its maker gives a slot its parent and pid. */
  lemma SlotKept(s: World, c: nat, p: nat, ok: bool, i: nat)
    requires Mover(s, p) && i < |s.procs| && s.procs[i].state.Used? && s.procs[i].maker != p
    ensures Stepped(s, c, p, ok, i).pid == s.procs[i].pid
    ensures s.procs[i].parent.None? ==> Stepped(s, c, p, ok, i).parent.None?
    ensures s.procs[p].pc.ForkParent? ==> Target(s, p) != i && s.procs[Target(s, p)].state.Used? && Builds(s.procs[p].pc) == Some(Target(s, p))
  {
    hide NextPc;
  }

  lemma ForkerKept(s: World, p: nat, q: nat, pid: nat)
    requires Mover(s, p) && q < |s.procs| && ForkOk(s, p) && IsForker(s, q, pid)
    ensures pid in ForkerAfter(s, p) && ForkerAfter(s, p)[pid] == s.procs[q].pid
  {
    hide BuildOk, StateOk;
  }

  lemma UnbornKept(s: World, c: nat, p: nat, ok: bool, q: nat, i: nat)
    requires Mover(s, p) && q < |s.procs| && q != p && BuildOk(s, q) && Builds(s.procs[q].pc) == Some(i) && Unborn(s, i) && Distinct(s)
    ensures Stepped(s, c, p, ok, i).parent.None? && Stepped(s, c, p, ok, i).pid == s.procs[i].pid && s.procs[i].pid !in ForkerAfter(s, p)
  {
    hide Mover, Stepped, Target, PcOk, Builds;
    SlotKept(s, c, p, ok, i);
  }

  lemma ForkOther(s: World, c: nat, p: nat, ok: bool, q: nat)
    requires Mover(s, p) && q < |s.procs| && q != p && BuildOk(s, q) && StateOk(s.procs[q]) && ForkOk(s, p) && ForkOk(s, q) && Distinct(s)
    ensures |Went(s, c, p, ok).procs| == |s.procs| && ForkOk(Went(s, c, p, ok), q)
  {
    var s' := Went(s, c, p, ok);
    var x := s.procs[q];
    MoverSizes(s, c, p, ok);
    WentId(s, c, p, ok, q);
    OtherPc(s, c, p, ok, q);
    WentMaps(s, c, p, ok);
    BuildsBase(x.pc);
    hide Went, Mover, Stepped, PcOk, Builds, StateOk, ForkerAfter, ReapedAfter, ExitsAfter, NextPid, Distinct, IdRec, Live;
    if s'.procs[q].pc == x.pc {
      if InFork(Base(x.pc)) {
        ForkLive(x);
        LivePid(s, c, p, ok, q);
      }
      ForkClaim(s, c, p, ok, q);
    }
  }

  lemma OtherPc(s: World, c: nat, p: nat, ok: bool, q: nat)
    requires Mover(s, p) && q < |s.procs| && q != p
    ensures |Went(s, c, p, ok).procs| == |s.procs|
    ensures Went(s, c, p, ok).procs[q].pc == s.procs[q].pc || Went(s, c, p, ok).procs[q].pc == YieldOff(Idle)
    ensures Base(YieldOff(Idle)) == Idle
  {
    hide Went, Stepped, PcOk, BuildOk, StateOk, Live, WaitsOn;
    WentAt(s, c, p, ok, q);
    NewPc(s, p, ok, q);
    SteppedCpu(s, c, p, ok, q);
  }

  lemma MoverMaps(s: World, c: nat, p: nat, ok: bool)
    requires Mover(s, p)
    ensures var s' := Went(s, c, p, ok);
      s'.nextpid == NextPid(s, p) && s'.exits == ExitsAfter(s, p) && s'.forker == ForkerAfter(s, p) && s'.reaped == ReapedAfter(s, p, ok)
  {
    hide Went, PcOk, BuildOk, StateOk, ForkerAfter, ReapedAfter, ExitsAfter, NextPid;
    WentMaps(s, c, p, ok);
  }

  /** The slot that q makes, after a step of another process. */
  lemma SlotAfter(s: World, c: nat, p: nat, ok: bool, q: nat, i: nat)
    requires Mover(s, p) && q < |s.procs| && q != p && BuildOk(s, q) && ForkOk(s, p) && Distinct(s) && Builds(s.procs[q].pc) == Some(i)
    requires |Went(s, c, p, ok).procs| == |s.procs| && Went(s, c, p, ok).procs[q].pid == s.procs[q].pid
    ensures i < |s.procs| && Went(s, c, p, ok).procs[i].pid == s.procs[i].pid
    ensures Unborn(s, i) ==> Unborn(Went(s, c, p, ok), i)
    ensures IsForker(s, q, s.procs[i].pid) ==> IsForker(Went(s, c, p, ok), q, s.procs[i].pid)
  {
    hide Went, Mover, Stepped, PcOk, ForkerAfter, ReapedAfter, ExitsAfter, NextPid, Distinct, IdRec, Builds, Base, ForkOk, Target;
    MoverMaps(s, c, p, ok);
    WentId(s, c, p, ok, i);
    SlotKept(s, c, p, ok, i);
    if IsForker(s, q, s.procs[i].pid) {
      ForkerKept(s, p, q, s.procs[i].pid);
    }
    if Unborn(s, i) {
      UnbornKept(s, c, p, ok, q, i);
    }
  }

  lemma ForkClaim(s: World, c: nat, p: nat, ok: bool, q: nat)
    requires Mover(s, p) && q < |s.procs| && q != p && BuildOk(s, q) && ForkOk(s, p) && ForkOk(s, q) && Distinct(s)
    requires |Went(s, c, p, ok).procs| == |s.procs| && Went(s, c, p, ok).procs[q].pc == s.procs[q].pc
    requires InFork(Base(s.procs[q].pc)) ==> Went(s, c, p, ok).procs[q].pid == s.procs[q].pid
    ensures ForkOk(Went(s, c, p, ok), q)
  {
    hide Went, Mover, Stepped, PcOk, ForkerAfter, ReapedAfter, ExitsAfter, NextPid, Distinct, IdRec, Base, BuildOk, Target, Unborn;
    BuildsBase(s.procs[q].pc);
    var b := Base(s.procs[q].pc);
    if InFork(b) && !b.ForkRet? {
      SlotAfter(s, c, p, ok, q, b.i);
    } else if b.ForkRet? && b.got.Child? {
      MoverMaps(s, c, p, ok);
      ForkerKept(s, p, q, b.got.pid);
    }
  }

  // the process's own step

  predicate Yields(pc: Pc) { pc.YieldLock? || pc.YieldSet? || pc.YieldSched? || pc.YieldOff? }

  /** How fork comes to where it is. */
  lemma ForkFrom(s: World, p: nat, ok: bool)
    requires p < |s.procs| && PcOk(s, s.procs[p].pc) && !Yields(s.procs[p].pc)
    ensures !Yields(NextPc(s, p, ok)) && Base(s.procs[p].pc) == s.procs[p].pc && Base(NextPc(s, p, ok)) == NextPc(s, p, ok)
    ensures var pc, pc' := s.procs[p].pc, NextPc(s, p, ok);
      match pc'
      case ForkScan(seen) => pc.ForkTry? && !s.procs[|pc.seen|].state.Unused? && seen == pc.seen + [s.procs[|pc.seen|].state]
      case ForkTry(seen) => pc == ForkScan(seen)
      case ForkHas(i) => pc.ForkTry? && i == |pc.seen| && s.procs[i].state.Unused?
      case ForkWait(i) => pc == ForkHas(i) && ok
      case ForkParent(i) => pc == ForkWait(i)
      case ForkLock(i) => pc == ForkParent(i)
      case ForkRun(i) => pc == ForkLock(i)
      case ForkRet(Child(pid)) => pc.ForkRun? && pid == s.procs[pc.i].pid
      case ForkRet(NoSlot(seen)) => pc == ForkScan(seen) && |seen| >= |s.procs|
      case ForkRet(NoMemory) => pc.ForkHas? && !ok
      case _ => true
    ensures var pc' := NextPc(s, p, ok); InFork(pc') && !pc'.ForkRet? ==> pc'.i < |s.procs|
  {
  }

  /** What fork's own steps do to the slot and to the table of forkers. */
  lemma ForkData(s: World, c: nat, p: nat, ok: bool)
    requires Mover(s, p)
    ensures var pc := s.procs[p].pc; pc.ForkTry? && s.procs[|pc.seen|].state.Unused? ==>
      var x := Stepped(s, c, p, ok, |pc.seen|); x.pid == s.nextpid && x.parent == s.procs[|pc.seen|].parent && ForkerAfter(s, p) == s.forker
    ensures var pc := s.procs[p].pc; (pc.ForkHas? && ok) || pc.ForkWait? || pc.ForkLock? || pc.ForkRun? ==>
      var x := Stepped(s, c, p, ok, pc.i); x.pid == s.procs[pc.i].pid && x.parent == s.procs[pc.i].parent && ForkerAfter(s, p) == s.forker
    ensures var pc := s.procs[p].pc; pc.ForkParent? ==>
      Stepped(s, c, p, ok, pc.i).pid == s.procs[pc.i].pid && ForkerAfter(s, p) == s.forker[s.procs[pc.i].pid := s.procs[p].pid]
    ensures InFork(s.procs[p].pc) ==> Stepped(s, c, p, ok, p).pid == s.procs[p].pid
  {
    hide NextPc;
  }

  lemma YieldBase(s: World, p: nat, ok: bool)
    requires p < |s.procs| && PcOk(s, s.procs[p].pc) && Yields(s.procs[p].pc)
    ensures Base(NextPc(s, p, ok)) == Base(s.procs[p].pc)
  {
    hide PcOk;
  }

  lemma YieldData(s: World, p: nat, ok: bool)
    requires p < |s.procs| && PcOk(s, s.procs[p].pc) && Yields(s.procs[p].pc)
    ensures ForkerAfter(s, p) == s.forker && Target(s, p) == p
    ensures Effect(s, p, ok).pid == s.procs[p].pid && Effect(s, p, ok).parent == s.procs[p].parent
  {
    hide PcOk, NextPc, Base;
  }

  lemma YieldFork(s: World, c: nat, p: nat, ok: bool)
    requires Mover(s, p) && ForkOk(s, p) && Yields(s.procs[p].pc)
    ensures |Went(s, c, p, ok).procs| == |s.procs| && ForkOk(Went(s, c, p, ok), p)
  {
    hide Went, BuildOk, StateOk, PcOk, NextPc, Base, ForkerAfter, ReapedAfter, ExitsAfter, NextPid, IdRec, Effect, Target;
    var s' := Went(s, c, p, ok);
    MoverSizes(s, c, p, ok);
    MoverMaps(s, c, p, ok);
    OwnAfter(s, c, p, ok);
    YieldBase(s, p, ok);
    YieldData(s, p, ok);
    forall i | 0 <= i < |s.procs| ensures s'.procs[i].pid == s.procs[i].pid && s'.procs[i].parent == s.procs[i].parent {
      WentId(s, c, p, ok, i);
    }
  }

  lemma StepFork(s: World, c: nat, p: nat, ok: bool)
    requires Mover(s, p) && ForkOk(s, p) && !Yields(s.procs[p].pc) && (forall i :: i in s.forker ==> i < s.nextpid)
    requires forall i :: 0 <= i < |s.procs| && s.procs[i].state.Unused? ==> s.procs[i].parent.None?
    ensures |Went(s, c, p, ok).procs| == |s.procs| && ForkOk(Went(s, c, p, ok), p)
  {
    hide Went, Stepped, BuildOk, StateOk, PcOk, NextPc, Base, ForkerAfter, ReapedAfter, ExitsAfter, NextPid, IdRec;
    MoverSizes(s, c, p, ok);
    MoverMaps(s, c, p, ok);
    OwnAfter(s, c, p, ok);
    ForkFrom(s, p, ok);
    ForkData(s, c, p, ok);
    WentId(s, c, p, ok, p);
    var pc' := NextPc(s, p, ok);
    if InFork(pc') && !pc'.ForkRet? {
      WentId(s, c, p, ok, pc'.i);
    }
  }

  lemma ForkOwn(s: World, c: nat, p: nat, ok: bool)
    requires Mover(s, p) && ForkOk(s, p) && (forall i :: i in s.forker ==> i < s.nextpid)
    requires forall i :: 0 <= i < |s.procs| && s.procs[i].state.Unused? ==> s.procs[i].parent.None?
    ensures |Went(s, c, p, ok).procs| == |s.procs| && ForkOk(Went(s, c, p, ok), p)
  {
    hide Went, PcOk, BuildOk, StateOk, ForkOk;
    if Yields(s.procs[p].pc) {
      YieldFork(s, c, p, ok);
    } else {
      StepFork(s, c, p, ok);
    }
  }

  lemma OwnAfter(s: World, c: nat, p: nat, ok: bool)
    requires Mover(s, p)
    ensures |Went(s, c, p, ok).procs| == |s.procs| && Went(s, c, p, ok).procs[p].pc == NextPc(s, p, ok)
  {
    hide Went, Stepped, PcOk, BuildOk, StateOk, NextPc, Live, WaitsOn;
    WentAt(s, c, p, ok, p);
    OwnPc(s, c, p, ok);
  }

  // ----- wait -----

  /** A child stays one until its parent reaps it or exits. */
  lemma ChildKept(s: World, c: nat, p: nat, ok: bool, q: nat, k: nat)
    requires Mover(s, p) && KinOk(s, p) && ForkOk(s, p) && k < |s.procs| && q != p && s.procs[k].parent == Some(q)
    ensures Stepped(s, c, p, ok, k).parent == Some(q)
  {
    hide NextPc, StateOk;
  }

  /** Who is killed stays killed until the slot is freed. */
  lemma KilledKept(s: World, c: nat, p: nat, ok: bool, q: nat)
    requires Mover(s, p) && q < |s.procs| && s.procs[q].killed
    ensures Stepped(s, c, p, ok, q).killed || Stepped(s, c, p, ok, q).state.Unused?
    ensures Live(s.procs[q]) ==> Stepped(s, c, p, ok, q).killed
  {
    hide NextPc;
  }

  /** Without wait_lock no dead child disappears, and nothing is reaped. */
  lemma NothingReaped(s: World, c: nat, p: nat, ok: bool, k: nat)
    requires Mover(s, p) && k < |s.procs| && SpinOf(s.procs[p].pc) != Some(SpinWait)
    ensures s.procs[k].state.Zombie? ==> Stepped(s, c, p, ok, k).state.Zombie?
    ensures ReapedAfter(s, p, ok) == s.reaped
  {
    hide NextPc;
  }

  predicate InWait(pc: Pc) { pc.WaitScan? || pc.WaitRet? }

  lemma InWaitLive(x: Proc)
    requires StateOk(x) && InWait(x.pc)
    ensures Live(x) && x.cpu.Some? && SpinOf(x.pc) == Some(SpinWait)
  {
  }

  /** While q holds wait_lock, the steps of another process leave its family alone. */
  lemma FamilyKept(s: World, c: nat, p: nat, ok: bool, q: nat)
    requires Going(s, c, p, ok) && Mover(s, p) && KinOk(s, p) && q < |s.procs| && q != p && InWait(s.procs[q].pc) && StateOk(s.procs[q])
    ensures var s' := Went(s, c, p, ok); |s'.procs| == |s.procs| && s'.reaped == s.reaped && s'.procs[q].pid == s.procs[q].pid && (s.procs[q].killed ==> s'.procs[q].killed)
    ensures var s' := Went(s, c, p, ok); forall k :: 0 <= k < |s.procs| ==> s'.procs[k].parent == s.procs[k].parent && (s.procs[k].state.Zombie? ==> s'.procs[k].state.Zombie?)
  {
    hide Core, MayGo, Went, Stepped, PcOk, BuildOk, StateOk, KinOk, SpinOf, NextPc, Live, IdRec, InWait, WaitsOn, ReapedAfter, ExitsAfter, ForkerAfter, NextPid;
    var s' := Went(s, c, p, ok);
    MoverSizes(s, c, p, ok);
    MoverMaps(s, c, p, ok);
    InWaitLive(s.procs[q]);
    LivePid(s, c, p, ok, q);
    WentProc(s, c, p, ok, q);
    if s.procs[q].killed {
      KilledKept(s, c, p, ok, q);
    }
    if SpinOf(s.procs[p].pc) == Some(SpinWait) {
      SpinUnique(s, p, q, SpinWait);
    }
    NothingReaped(s, c, p, ok, q);
    forall k | 0 <= k < |s.procs| ensures s'.procs[k].parent == s.procs[k].parent && (s.procs[k].state.Zombie? ==> s'.procs[k].state.Zombie?) {
      WentAt(s, c, p, ok, k);
      ParentChange(s, c, p, ok, k);
      NothingReaped(s, c, p, ok, k);
    }
  }

  /** A claim of wait survives what leaves the family alone. */
  lemma SameWait(s: World, s': World, q: nat)
    requires q < |s.procs| && |s'.procs| == |s.procs| && InWait(s.procs[q].pc) && WaitOk(s, q) && s'.procs[q].pc == s.procs[q].pc
    requires s'.reaped == s.reaped && s'.procs[q].pid == s.procs[q].pid && (s.procs[q].killed ==> s'.procs[q].killed)
    requires forall k :: 0 <= k < |s.procs| ==> s'.procs[k].parent == s.procs[k].parent && (s.procs[k].state.Zombie? ==> s'.procs[k].state.Zombie?)
    ensures WaitOk(s', q)
  {
    if HasDead(s, q) {
      var k :| 0 <= k < |s.procs| && DeadChild(s, q, k);
      assert DeadChild(s', q, k);
    }
    if HasChild(s, q) {
      var k :| 0 <= k < |s.procs| && s.procs[k].parent == Some(q);
      assert s'.procs[k].parent == Some(q);
    }
  }

  lemma WaitOther(s: World, c: nat, p: nat, ok: bool, q: nat)
    requires Going(s, c, p, ok) && Mover(s, p) && KinOk(s, p) && ForkOk(s, p) && q < |s.procs| && q != p && StateOk(s.procs[q]) && WaitOk(s, q)
    ensures |Went(s, c, p, ok).procs| == |s.procs| && WaitOk(Went(s, c, p, ok), q)
  {
    hide Going, PcOk, BuildOk, Went, Stepped, KinOk, ForkOk, StateOk, NextPc, Live, WaitsOn, SleepChan, WaitEndOk;
    var s' := Went(s, c, p, ok);
    OtherPc(s, c, p, ok, q);
    if s'.procs[q].pc == s.procs[q].pc {
      if InWait(s.procs[q].pc) {
        FamilyKept(s, c, p, ok, q);
        SameWait(s, s', q);
      } else if HasChild(s, q) {
        var k :| 0 <= k < |s.procs| && s.procs[k].parent == Some(q);
        ChildKept(s, c, p, ok, q, k);
        WentId(s, c, p, ok, k);
        assert s'.procs[k].parent == Some(q);
      }
    } else {
      StartChan();
    }
  }

  lemma StartChan()
    ensures SleepChan(YieldOff(Idle)) == NoChan
  {
  }

  /** How wait comes to where it is. */
  lemma WaitFrom(s: World, p: nat, ok: bool)
    requires p < |s.procs| && PcOk(s, s.procs[p].pc) && !Yields(s.procs[p].pc)
    ensures var pc, pc' := s.procs[p].pc, NextPc(s, p, ok);
      match pc'
      case WaitScan(i, kids) => (pc.WaitEnter? && i == 0 && !kids) || (pc.WaitHas? && i == pc.i + 1 && kids)
        || (pc.WaitScan? && i == pc.i + 1 && kids == pc.kids && pc.i < |s.procs| && s.procs[pc.i].parent != Some(p))
      case WaitRet(Answered(pid, st)) => pc.WaitHas? && s.procs[pc.i].state.Zombie? && ok && pid == s.procs[pc.i].pid && st == s.procs[pc.i].xstate
      case WaitRet(Alone) => pc.WaitScan? && pc.i >= |s.procs| && !pc.kids
      case WaitRet(Interrupted) => pc.WaitScan? && pc.kids && s.procs[p].killed
      case WaitRet(BadAddress) => pc.WaitHas? && s.procs[pc.i].state.Zombie? && !ok
      case _ => SleepChan(pc').OnProc? ==> (SleepChan(pc).OnProc? && !InWait(pc) && !pc.WaitHas?) || (pc.WaitScan? && pc.kids && pc.i >= |s.procs| && !s.procs[p].killed)
  {
  }

  /** Interrupts come where no lock is held, so not in wait's scan. */
  lemma YieldWait(s: World, p: nat, ok: bool)
    requires p < |s.procs| && PcOk(s, s.procs[p].pc) && Yields(s.procs[p].pc)
    ensures var pc := NextPc(s, p, ok); !InWait(pc) && !SleepChan(pc).OnProc?
  {
  }

  predicate AtWait(pc: Pc) { pc.WaitEnter? || pc.WaitScan? || pc.WaitHas? || SleepChan(pc).OnProc? }

  /** wait changes no family, but for the child it reaps. */
  lemma WaitData(s: World, c: nat, p: nat, ok: bool, k: nat)
    requires Mover(s, p) && k < |s.procs| && AtWait(s.procs[p].pc)
    ensures !Reaps(s, p, ok) ==> Stepped(s, c, p, ok, k).parent == s.procs[k].parent && Stepped(s, c, p, ok, k).killed == s.procs[k].killed
    ensures s.procs[p].pc.WaitHas? && !Reaps(s, p, ok) ==> Stepped(s, c, p, ok, k).state == s.procs[k].state
    ensures Stepped(s, c, p, ok, p).pid == s.procs[p].pid
  {
    hide NextPc;
  }

  lemma WaitSame(s: World, c: nat, p: nat, ok: bool)
    requires Mover(s, p) && AtWait(s.procs[p].pc) && !Reaps(s, p, ok)
    ensures var s' := Went(s, c, p, ok); |s'.procs| == |s.procs| && s'.procs[p].killed == s.procs[p].killed
    ensures var s' := Went(s, c, p, ok); forall k :: 0 <= k < |s.procs| ==> s'.procs[k].parent == s.procs[k].parent
    ensures var s' := Went(s, c, p, ok); s.procs[p].pc.WaitHas? ==> forall k :: 0 <= k < |s.procs| ==> s'.procs[k].state == s.procs[k].state
  {
    hide Went, Stepped, PcOk, BuildOk, StateOk, NextPc, Reaps, AtWait, WaitsOn, Live;
    var s' := Went(s, c, p, ok);
    WentProc(s, c, p, ok, p);
    WaitData(s, c, p, ok, p);
    forall k | 0 <= k < |s.procs| ensures s'.procs[k].parent == s.procs[k].parent && (s.procs[p].pc.WaitHas? ==> s'.procs[k].state == s.procs[k].state) {
      WentAt(s, c, p, ok, k);
      WaitData(s, c, p, ok, k);
    }
  }

  /** wait's own steps, but for the one that reaps. */
  lemma WaitOwnSame(s: World, c: nat, p: nat, ok: bool)
    requires Mover(s, p) && KinOk(s, p) && WaitOk(s, p) && !Yields(s.procs[p].pc) && AtWait(s.procs[p].pc) && !Reaps(s, p, ok)
    ensures |Went(s, c, p, ok).procs| == |s.procs| && WaitOk(Went(s, c, p, ok), p)
  {
    hide Went, PcOk, BuildOk, StateOk, NextPc, SleepChan;
    var s' := Went(s, c, p, ok);
    OwnAfter(s, c, p, ok);
    WaitFrom(s, p, ok);
    WaitSame(s, c, p, ok);
    ReapsIf(s, p, ok);
    var pc := s.procs[p].pc;
    if pc.WaitHas? {
      assert s'.procs[pc.i].parent == Some(p);
      if s.procs[pc.i].state.Zombie? {
        assert DeadChild(s', p, pc.i);
      }
    }
    if HasChild(s, p) {
      var k :| 0 <= k < |s.procs| && s.procs[k].parent == Some(p);
      assert s'.procs[k].parent == Some(p);
    }
  }

  lemma ReapsIf(s: World, p: nat, ok: bool)
    requires p < |s.procs| && PcOk(s, s.procs[p].pc)
    ensures Reaps(s, p, ok) <==> s.procs[p].pc.WaitHas? && s.procs[s.procs[p].pc.i].state.Zombie? && ok
    ensures Reaps(s, p, ok) ==> var x := s.procs[s.procs[p].pc.i]; ReapedAfter(s, p, ok) == s.reaped + [Reap(x.pid, x.xstate, s.procs[p].pid)]
  {
  }

  lemma WaitReaps(s: World, c: nat, p: nat, ok: bool)
    requires Mover(s, p) && Reaps(s, p, ok)
    ensures |Went(s, c, p, ok).procs| == |s.procs| && WaitOk(Went(s, c, p, ok), p)
  {
    hide Went, Stepped, PcOk, BuildOk, StateOk, NextPc, ReapedAfter, Reaps, ExitsAfter, ForkerAfter, NextPid, IdRec;
    MoverMaps(s, c, p, ok);
    OwnAfter(s, c, p, ok);
    ReapsIf(s, p, ok);
    ReapsPc(s, p, ok);
    WaitData(s, c, p, ok, p);
    WentId(s, c, p, ok, p);
  }

  lemma ReapsPc(s: World, p: nat, ok: bool)
    requires p < |s.procs| && PcOk(s, s.procs[p].pc) && Reaps(s, p, ok)
    ensures var x := s.procs[s.procs[p].pc.i]; NextPc(s, p, ok) == WaitRet(Answered(x.pid, x.xstate))
  {
  }

  lemma WaitOwn(s: World, c: nat, p: nat, ok: bool)
    requires Mover(s, p) && KinOk(s, p) && WaitOk(s, p)
    ensures |Went(s, c, p, ok).procs| == |s.procs| && WaitOk(Went(s, c, p, ok), p)
  {
    hide Went, PcOk, BuildOk, StateOk, NextPc, SleepChan, KinOk, Reaps, HasChild, WaitEndOk;
    OwnAfter(s, c, p, ok);
    if Yields(s.procs[p].pc) {
      YieldWait(s, p, ok);
    } else if Reaps(s, p, ok) {
      WaitReaps(s, c, p, ok);
    } else if AtWait(s.procs[p].pc) {
      WaitOwnSame(s, c, p, ok);
    } else {
      WaitFrom(s, p, ok);
    }
  }

  // ----- sleeplocks -----

  lemma HeldNext(s: World, p: nat, ok: bool)
    requires p < |s.procs| && PcOk(s, s.procs[p].pc) && HeldOk(s.procs[p]) && !Yields(s.procs[p].pc)
    ensures HeldOk(s.procs[p].(pc := NextPc(s, p, ok), held := if Target(s, p) == p then Effect(s, p, ok).held else s.procs[p].held))
  {
  }

  /** Locks are acquired and released by their own process. */
  lemma HeldEffect(s: World, p: nat, ok: bool)
    requires Mover(s, p) && Target(s, p) != p
    ensures var x, x' := s.procs[Target(s, p)], Effect(s, p, ok); (x'.held == x.held && x'.pc == x.pc) || x'.pc == YieldOff(Idle)
  {
    hide NextPc;
  }

  lemma HeldYield(s: World, p: nat, ok: bool, x: Proc)
    requires p < |s.procs| && PcOk(s, s.procs[p].pc) && Yields(s.procs[p].pc)
    ensures HeldOk(x.(pc := NextPc(s, p, ok)))
  {
  }

  lemma HeldStep(s: World, c: nat, p: nat, ok: bool, q: nat)
    requires Mover(s, p) && q < |s.procs| && HeldOk(s.procs[p]) && HeldOk(s.procs[q])
    ensures HeldOk(Stepped(s, c, p, ok, q))
  {
    hide NextPc, Effect, Target, PcOk, BuildOk, StateOk;
    if q == p {
      if Yields(s.procs[p].pc) {
        HeldYield(s, p, ok, Stepped(s, c, p, ok, p));
      } else {
        HeldNext(s, p, ok);
      }
    } else if q == Target(s, p) {
      HeldEffect(s, p, ok);
    }
  }

  // ----- every step -----

  lemma ForkersBound(s: World, p: nat)
    requires Mover(s, p) && IdOk(s, Target(s, p)) && forall i :: i in s.forker ==> i < s.nextpid
    ensures forall i :: i in ForkerAfter(s, p) ==> i < NextPid(s, p)
  {
    hide NextPc;
  }

  lemma StepAt(s: World, c: nat, p: nat, ok: bool, q: nat)
    requires Going(s, c, p, ok) && Mover(s, p) && q < |s.procs| && KinOk(s, p) && BuildOk(s, q) && StateOk(s.procs[q]) && Distinct(s) && Parents(s) && Rets(s)
    ensures var s' := Went(s, c, p, ok); |s'.procs| == |s.procs| && ForkOk(s', q) && WaitOk(s', q) && HeldOk(s'.procs[q])
  {
    assert ForkOk(s, p) && WaitOk(s, p) && HeldOk(s.procs[p]) && ForkOk(s, q) && WaitOk(s, q) && HeldOk(s.procs[q]);
    assert forall i :: 0 <= i < |s.procs| && s.procs[i].state.Unused? ==> s.procs[i].parent.None? by { Orphans(s); }
    hide Going, Went, Stepped, PcOk, BuildOk, StateOk, KinOk, ForkOk, WaitOk, HeldOk, Distinct, Parents;
    if q == p {
      ForkOwn(s, c, p, ok);
      WaitOwn(s, c, p, ok);
    } else {
      ForkOther(s, c, p, ok, q);
      WaitOther(s, c, p, ok, q);
    }
    HeldStep(s, c, p, ok, q);
    WentProc(s, c, p, ok, q);
    HeldSame(Stepped(s, c, p, ok, q), Went(s, c, p, ok).procs[q]);
  }

  lemma HeldSame(x: Proc, x': Proc)
    requires HeldOk(x) && x'.pc == x.pc && x'.held == x.held
    ensures HeldOk(x')
  {
  }

  lemma Orphans(s: World)
    requires Parents(s)
    ensures forall i :: 0 <= i < |s.procs| && s.procs[i].state.Unused? ==> s.procs[i].parent.None?
  {
    forall i | 0 <= i < |s.procs| && s.procs[i].state.Unused? ensures s.procs[i].parent.None? {
      assert ParentOk(s, i);
    }
  }

  lemma GoRets(s: World, c: nat, p: nat, ok: bool)
    requires Going(s, c, p, ok) && Life(s) && Rets(s)
    ensures Rets(Went(s, c, p, ok))
  {
    var s' := Went(s, c, p, ok);
    IsMover(s, c, p, ok);
    MoverSizes(s, c, p, ok);
    MoverMaps(s, c, p, ok);
    assert KinOk(s, p) && IdOk(s, Target(s, p));
    ForkersBound(s, p);
    hide Going, Went, Mover, KinOk, ForkOk, WaitOk, HeldOk, Core, Parents, Kin, IdOk, ForkerOk, Answers, Gone, ForkerAfter, NextPid, Target, PcOk;
    forall q | 0 <= q < |s.procs| ensures ForkOk(s', q) && WaitOk(s', q) && HeldOk(s'.procs[q]) {
      GoingAt(s, c, p, ok, q);
      StepAt(s, c, p, ok, q);
    }
  }

  // scheduler, switch, yield and call

  lemma TurnedBase(x: Proc, x': Proc)
    requires StateOk(x) && Turned(x, x')
    ensures Base(x'.pc) == Base(x.pc) || (!InFork(Base(x'.pc)) && !Base(x'.pc).ForkTry? && (Base(x'.pc).ForkScan? ==> Base(x'.pc).seen == []))
  {
    hide StateOk;
  }

  lemma TurnedPc(x: Proc, x': Proc)
    requires Turned(x, x')
    ensures InWait(x'.pc) ==> x'.pc == x.pc
    ensures SleepChan(x'.pc).OnProc? ==> SleepChan(x'.pc) == SleepChan(x.pc) && !InWait(x.pc)
  {
  }

  lemma TurnedHeld(x: Proc, x': Proc)
    requires Turned(x, x') && HeldOk(x)
    ensures HeldOk(x')
  {
  }

  lemma TurnedFamily(s: World, s': World, q: nat)
    requires Core(s) && AllTurned(s, s') && q < |s.procs|
    ensures |s'.procs| == |s.procs| && s'.reaped == s.reaped && s'.forker == s.forker && s'.nextpid == s.nextpid
    ensures var x, x' := s.procs[q], s'.procs[q];
      StateOk(x) && Turned(x, x') && x'.parent == x.parent && x'.pid == x.pid && x'.killed == x.killed && (x.state.Zombie? ==> x'.state.Zombie?)
  {
    assert StateOk(s.procs[q]) && Turned(s.procs[q], s'.procs[q]);
    hide Core, Turned, StateOk, PcOk;
    TurnedChan(s.procs[q], s'.procs[q]);
    TurnedLife(s.procs[q], s'.procs[q], 0);
  }

  lemma SameFork(s: World, s': World, q: nat)
    requires q < |s.procs| && |s'.procs| == |s.procs| && ForkOk(s, q) && s'.forker == s.forker
    requires forall k :: 0 <= k < |s.procs| ==> s'.procs[k].parent == s.procs[k].parent && s'.procs[k].pid == s.procs[k].pid
    requires var b, b' := Base(s.procs[q].pc), Base(s'.procs[q].pc); b' == b || (!InFork(b') && !b'.ForkTry? && (b'.ForkScan? ==> b'.seen == []))
    ensures ForkOk(s', q)
  {
    hide Base;
  }

  lemma TurnedAt(s: World, s': World, q: nat)
    requires Core(s) && AllTurned(s, s') && q < |s.procs| && ForkOk(s, q) && WaitOk(s, q) && HeldOk(s.procs[q])
    ensures |s'.procs| == |s.procs| && ForkOk(s', q) && WaitOk(s', q) && HeldOk(s'.procs[q])
  {
    hide Core, AllTurned, Turned, StateOk, Base, SleepChan, HeldOk, ForkOk, InFork, WaitEndOk;
    forall k | 0 <= k < |s.procs| && k < |s'.procs|
      ensures s'.procs[k].parent == s.procs[k].parent && s'.procs[k].pid == s.procs[k].pid && (s.procs[k].state.Zombie? ==> s'.procs[k].state.Zombie?)
    {
      TurnedFamily(s, s', k);
    }
    TurnedFamily(s, s', q);
    TurnedBase(s.procs[q], s'.procs[q]);
    TurnedPc(s.procs[q], s'.procs[q]);
    TurnedHeld(s.procs[q], s'.procs[q]);
    SameFork(s, s', q);
    if InWait(s'.procs[q].pc) {
      SameWait(s, s', q);
    } else if HasChild(s, q) {
      var k :| 0 <= k < |s.procs| && s.procs[k].parent == Some(q);
      assert s'.procs[k].parent == Some(q);
    }
  }

  lemma TurnedRets(s: World, s': World)
    requires Core(s) && AllTurned(s, s') && Rets(s)
    ensures Rets(s')
  {
    assert |s'.procs| == |s.procs| && s'.forker == s.forker && s'.nextpid == s.nextpid;
    hide Core, AllTurned, ForkOk, WaitOk, HeldOk;
    forall q | 0 <= q < |s.procs| ensures ForkOk(s', q) && WaitOk(s', q) && HeldOk(s'.procs[q]) {
      TurnedAt(s, s', q);
    }
  }

  lemma KeepsRets(s: World, c: nat, a: Act)
    requires Life(s) && Can(s, c, a) && Rets(s)
    ensures Rets(Do(s, c, a))
  {
    if a.Go? {
      IsGoing(s, c, a.ok);
      var p := s.cpus[c].p;
      hide Core, Parents, Kin, Ids, Can, Do, Went, Going, Rets;
      GoRets(s, c, p, a.ok);
    } else {
      hide Core, Parents, Kin, Ids, Can, Do, AllTurned, Rets;
      IsTurned(s, c, a);
      TurnedRets(s, Do(s, c, a));
    }
  }

  lemma InitRets(s: World)
    requires Init(s)
    ensures Rets(s)
  {
  }

  lemma {:induction false} RunRets(tr: seq<World>)
    requires IsRun(tr)
    ensures Rets(tr[|tr| - 1])
  {
    hide Life, Rets, Can, Do, Init;
    if |tr| == 1 {
      InitRets(tr[0]);
    } else {
      RunRets(tr[..|tr| - 1]);
      RunLife(tr[..|tr| - 1]);
      var s := tr[|tr| - 2];
      var c, a :| Can(s, c, a) && tr[|tr| - 1] == Do(s, c, a);
      KeepsRets(s, c, a);
    }
  }

  lemma ReachableRets(s: World)
    requires Reachable(s)
    ensures Rets(s)
  {
    hide Rets, Init, Next;
    var tr :| Reaches(tr, s);
    RunRets(tr);
  }

  // ----- what calls return with -----

  /** In every reachable state a process at the return of wait has what it returns: the
      last answer recorded, to its own pid; or no process has it as parent; or it has
      children and is killed; or a dead child is still there, the copyout having failed. */
  lemma WaitReturns(s: World, p: nat)
    requires Reachable(s) && p < |s.procs| && s.procs[p].pc.WaitRet?
    ensures WaitEndOk(s, p, s.procs[p].pc.end)
  {
    hide WaitEndOk, HasChild, ForkOk, HeldOk;
    ReachableRets(s);
    assert WaitOk(s, p);
  }

  /** In every reachable state a process at the return of fork has forked the process whose
      pid it returns, or has found every slot of the table in a state other than UNUSED,
      or has had no memory. */
  lemma ForkReturns(s: World, p: nat)
    requires Reachable(s) && p < |s.procs| && s.procs[p].pc.ForkRet?
    ensures ForkEndOk(s, p, s.procs[p].pc.got)
  {
    hide ForkEndOk, WaitOk, HeldOk;
    ReachableRets(s);
    assert ForkOk(s, p);
  }

  /** A process asleep in wait, or on its way, has a child. */
  lemma SleeperHasChild(s: World, p: nat)
    requires Reachable(s) && p < |s.procs| && SleepChan(s.procs[p].pc).OnProc?
    ensures HasChild(s, p)
  {
    hide HasChild, ForkOk, HeldOk;
    ReachableRets(s);
    assert WaitOk(s, p);
  }

  /** What the system call of process p has done when the step from s to s' returns from it. */
  ghost predicate Done(s: World, s': World, p: nat)
    requires p < |s.procs| && |s'.procs| == |s.procs|
  {
    match s.procs[p].pc
    case Taken(l) => l in s.procs[p].held
    case Left(l) => l !in s.procs[p].held
    case KillHas(i) => i < |s.procs| && s'.procs[i].killed && !(s'.procs[i].state.Sleeping?)
    case ForkRet(got) => ForkEndOk(s, p, got)
    case WaitRet(end) => WaitEndOk(s, p, end)
    case YieldOff(b) => b.Idle?
    case _ => false
  }

  lemma IdleFrom(s: World, p: nat, ok: bool)
    requires p < |s.procs| && PcOk(s, s.procs[p].pc) && !s.procs[p].pc.Idle? && NextPc(s, p, ok).Idle?
    ensures var pc := s.procs[p].pc; pc.Taken? || pc.Left? || pc.KillHas? || pc.ForkRet? || pc.WaitRet? || pc == YieldOff(Idle)
  {
  }

  lemma KillData(s: World, c: nat, p: nat, ok: bool)
    requires p < |s.procs| && PcOk(s, s.procs[p].pc) && s.procs[p].pc.KillHas?
    ensures var x := Stepped(s, c, p, ok, s.procs[p].pc.i); x.killed && !x.state.Sleeping?
  {
    hide NextPc;
  }

  /** Every system call that returns has done what it is for, or has a reason: acquiresleep
      holds the lock and releasesleep does not, kill has marked its target and woken it,
      fork and wait as above. Nothing else returns. */
  lemma CallReturns(s: World, c: nat, ok: bool)
    requires Reachable(s) && Can(s, c, Go(ok))
    requires s.cpus[c].p < |s.procs| && |Do(s, c, Go(ok)).procs| == |s.procs| && Do(s, c, Go(ok)).procs[s.cpus[c].p].pc.Idle?
    ensures Done(s, Do(s, c, Go(ok)), s.cpus[c].p)
  {
    var p := s.cpus[c].p;
    assert !s.procs[p].pc.Idle? && PcOk(s, s.procs[p].pc);
    hide Can, Do, Core, ForkOk, HeldOk, NextPc, PcOk, Went, Going, Stepped, ForkEndOk, WaitEndOk, Reachable, WaitsOn, Live, WaitOk;
    ReachableCore(s);
    ReachableRets(s);
    IsGoing(s, c, ok);
    WentAt(s, c, p, ok, p);
    OwnPc(s, c, p, ok);
    IdleFrom(s, p, ok);
    ReturnOf(s, p);
    if s.procs[p].pc.KillHas? {
      KillData(s, c, p, ok);
      KillTarget(s, p);
      WentProc(s, c, p, ok, s.procs[p].pc.i);
    }
  }

  lemma KillTarget(s: World, p: nat)
    requires p < |s.procs| && PcOk(s, s.procs[p].pc) && s.procs[p].pc.KillHas?
    ensures s.procs[p].pc.i < |s.procs|
  {
  }

  lemma ReturnOf(s: World, p: nat)
    requires p < |s.procs| && Rets(s)
    ensures var x := s.procs[p];
      match x.pc
      case Taken(l) => l in x.held
      case Left(l) => l !in x.held
      case ForkRet(got) => ForkEndOk(s, p, got)
      case WaitRet(end) => WaitEndOk(s, p, end)
      case _ => true
  {
    assert ForkOk(s, p) && WaitOk(s, p) && HeldOk(s.procs[p]);
    hide ForkEndOk, WaitEndOk;
  }

  // ----- kill -----

  /** killed is set by kill only. */
  lemma KilledNew(s: World, c: nat, p: nat, ok: bool, q: nat)
    requires Mover(s, p) && q < |s.procs| && !s.procs[q].killed && Stepped(s, c, p, ok, q).killed
    ensures s.procs[p].pc == KillHas(q)
  {
    hide NextPc;
  }

  /** Once a process is killed it stays so until its slot is freed; and it is kill that
      killed it. */
  lemma KilledStays(s: World, c: nat, a: Act, q: nat)
    requires Reachable(s) && Can(s, c, a) && q < |s.procs|
    ensures |Do(s, c, a).procs| == |s.procs|
    ensures s.procs[q].killed ==> Do(s, c, a).procs[q].killed || Do(s, c, a).procs[q].state.Unused?
    ensures !s.procs[q].killed && Do(s, c, a).procs[q].killed ==> a.Go? && s.procs[s.cpus[c].p].pc == KillHas(q)
  {
    ReachableCore(s);
    if a.Go? {
      IsGoing(s, c, a.ok);
      var p := s.cpus[c].p;
      hide Core, Can, Do, Went, Stepped, PcOk, MayGo, NextPc, BuildOk, StateOk;
      IsMover(s, c, p, a.ok);
      WentProc(s, c, p, a.ok, q);
      if s.procs[q].killed {
        KilledKept(s, c, p, a.ok, q);
      } else if Stepped(s, c, p, a.ok, q).killed {
        KilledNew(s, c, p, a.ok, q);
      }
    } else {
      IsTurned(s, c, a);
      hide Core, Can, Do, Turned, PcOk, MayGo;
      TurnedChan(s.procs[q], Do(s, c, a).procs[q]);
    }
  }

  lemma ReachableWaits(s: World)
    requires Reachable(s)
    ensures Core(s) && WaitsOk(s)
  {
    hide Core, Parents, Kin, WaitsOk, Init, Next;
    var tr :| Reaches(tr, s);
    RunWaits(tr);
  }

  lemma SleepFrom(s: World, p: nat, ok: bool)
    requires p < |s.procs| && PcOk(s, s.procs[p].pc) && s.procs[p].pc.WaitScan? && NextPc(s, p, ok).SleepLock?
    ensures s.procs[p].pc.kids && s.procs[p].pc.i >= |s.procs| && !s.procs[p].killed
  {
  }

  /** wait goes to sleep only in a process that is not killed, has children, and none of
      them dead. */
  lemma SleepsInWait(s: World, c: nat, ok: bool)
    requires Reachable(s) && Can(s, c, Go(ok)) && s.cpus[c].p < |s.procs| && |Do(s, c, Go(ok)).procs| == |s.procs|
    requires s.procs[s.cpus[c].p].pc.WaitScan? && Do(s, c, Go(ok)).procs[s.cpus[c].p].pc.SleepLock?
    ensures var p := s.cpus[c].p; !s.procs[p].killed && HasChild(s, p) && !HasDead(s, p)
  {
    var p := s.cpus[c].p;
    assert PcOk(s, s.procs[p].pc);
    hide Can, Do, Core, ForkOk, HeldOk, NextPc, PcOk, Went, Going, Stepped, Reachable, WaitsOn, Live, HasChild, SelfOk, WokeOk;
    ReachableWaits(s);
    ReachableRets(s);
    IsGoing(s, c, ok);
    WentAt(s, c, p, ok, p);
    OwnPc(s, c, p, ok);
    SleepFrom(s, p, ok);
    assert WaitOk(s, p) && LookedOk(s, p);
  }
}
