/** wait and exit do not miss each other: exit wakes the parent before the process is a
    zombie, and wait_lock makes that safe. */
module WaitSleep {
  import opened Wrappers
  import opened Proc
  import opened ProcInv
  import opened Wakeup
  import opened Lifecycle

  function SleepChan(pc: Pc): Chan {
    match pc
    case SleepLock(ch) => ch
    case SleepRel(ch) => ch
    case SleepSet(ch) => ch
    case SleepSched(ch) => ch
    case SleepOff(ch) => ch
    case _ => NoChan
  }

  /** How many processes wait has found not to be dead children, wait_lock held since. */
  function Looked(pc: Pc, n: nat): nat {
    match pc
    case WaitScan(i, _) => i
    case WaitHas(i) => i
    case SleepLock(OnProc(_)) => n
    case SleepRel(OnProc(_)) => n
    case _ => 0
  }

  /** wait sleeps on the process's own channel. */
  predicate SelfOk(s: World, p: nat)
    requires p < |s.procs|
  {
    SleepChan(s.procs[p].pc).OnProc? ==> SleepChan(s.procs[p].pc).q == p
  }

  predicate DeadChild(s: World, p: nat, k: nat)
    requires k < |s.procs|
  {
    s.procs[k].parent == Some(p) && s.procs[k].state.Zombie?
  }

  ghost predicate LookedOk(s: World, p: nat)
    requires p < |s.procs|
  {
    forall k :: 0 <= k < Looked(s.procs[p].pc, |s.procs|) && k < |s.procs| ==> !DeadChild(s, p, k)
  }

  predicate Waits(s: World, x: nat) { x < |s.procs| && WaitsOn(s.procs[x]) == OnProc(x) }

  predicate AfterScan(pc: Pc) { pc.ExitLock? || pc.ExitSet? }

  function ExitScan(pc: Pc): Option<(nat, nat)> {
    match pc case Wake(ByExit(par, _), i) => Some((par, i)) case WakeHas(ByExit(par, _), i) => Some((par, i)) case _ => None
  }

  /** After its wakeup an exiting process has a parent that is awake. */
  predicate WokeOk(s: World, q: nat)
    requires q < |s.procs|
  {
    var e := ExitScan(s.procs[q].pc);
    (e.Some? ==> s.procs[q].parent == Some(e.value.0) && (Waits(s, e.value.0) ==> e.value.1 <= e.value.0))
    && (AfterScan(s.procs[q].pc) && s.procs[q].parent.Some? ==> !Waits(s, s.procs[q].parent.value))
  }

  /** Process x has a dead child: what wait waits for. */
  ghost predicate HasDead(s: World, x: nat) { exists k :: 0 <= k < |s.procs| && DeadChild(s, x, k) }

  ghost predicate WaitsOk(s: World) {
    (forall p :: 0 <= p < |s.procs| ==> SelfOk(s, p)) && (forall p :: 0 <= p < |s.procs| ==> LookedOk(s, p))
    && (forall p :: 0 <= p < |s.procs| ==> WokeOk(s, p))
  }

  // ----- steps of a process: wait -----

  lemma SelfNext(s: World, p: nat, ok: bool)
    requires p < |s.procs| && PcOk(s, s.procs[p].pc) && SelfOk(s, p)
    ensures var ch := SleepChan(NextPc(s, p, ok)); ch.OnProc? ==> ch.q == p
  {
  }

  lemma SelfStep(s: World, c: nat, p: nat, ok: bool, q: nat)
    requires p < |s.procs| && q < |s.procs| && PcOk(s, s.procs[p].pc) && SelfOk(s, p) && SelfOk(s, q)
    ensures |Went(s, c, p, ok).procs| == |s.procs| && SelfOk(Went(s, c, p, ok), q)
  {
    hide PcOk, NextPc, Went, Stepped, Live, WaitsOn;
    WentAt(s, c, p, ok, q);
    if q == p {
      OwnPc(s, c, p, ok);
      SelfNext(s, p, ok);
    } else {
      NewPc(s, p, ok, q);
      SteppedCpu(s, c, p, ok, q);
    }
  }

  /** Dead children appear under wait_lock only. */
  lemma DeadNew(s: World, c: nat, p: nat, ok: bool, y: nat, k: nat)
    requires Going(s, c, p, ok) && k < |s.procs| && KinOk(s, p) && !DeadChild(s, y, k)
    requires Stepped(s, c, p, ok, k).parent == Some(y) && Stepped(s, c, p, ok, k).state.Zombie?
    ensures SpinOf(s.procs[p].pc) == Some(SpinWait) && (s.procs[p].pc.Reparent? || s.procs[p].pc.ExitSet?)
  {
    GoingAt(s, c, p, ok, k);
    hide Core, MayGo, PcOk, NextPc, Effect, Target, BuildOk, StateOk;
    EffectParent(s, p, ok);
    EffectLive(s, p, ok);
    UsedNotZombie(s, p);
  }

  lemma UsedNotZombie(s: World, p: nat)
    requires p < |s.procs| && PcOk(s, s.procs[p].pc) && BuildOk(s, p)
    ensures s.procs[p].pc.ForkParent? ==> s.procs[Target(s, p)].state.Used?
  {
  }

  lemma LookedNext(s: World, p: nat, ok: bool, k: nat)
    requires p < |s.procs| && PcOk(s, s.procs[p].pc) && k < |s.procs| && k < Looked(NextPc(s, p, ok), |s.procs|) && LookedOk(s, p) && KinOk(s, p)
    ensures !DeadChild(s, p, k) && !s.procs[p].pc.Reparent? && !s.procs[p].pc.ExitSet?
  {
    if k < Looked(s.procs[p].pc, |s.procs|) {
      assert !DeadChild(s, p, k);
    }
  }

  lemma LookedOn(x: Proc, n: nat)
    requires StateOk(x) && Looked(x.pc, n) > 0
    ensures x.cpu.Some? && SpinOf(x.pc) == Some(SpinWait)
  {
  }

  lemma LookedStep(s: World, c: nat, p: nat, ok: bool, q: nat, k: nat)
    requires Going(s, c, p, ok) && q < |s.procs| && k < |s.procs| && KinOk(s, p) && LookedOk(s, p) && LookedOk(s, q)
    requires k < Looked(Stepped(s, c, p, ok, q).pc, |s.procs|)
    ensures !(Stepped(s, c, p, ok, k).parent == Some(q) && Stepped(s, c, p, ok, k).state.Zombie?)
  {
    GoingAt(s, c, p, ok, q);
    if q == p {
      OwnPc(s, c, p, ok);
      hide Going, PcOk, NextPc, Stepped, Looked, LookedOk, KinOk, BuildOk, StateOk;
      LookedNext(s, p, ok, k);
      if Stepped(s, c, p, ok, k).parent == Some(q) && Stepped(s, c, p, ok, k).state.Zombie? {
        DeadNew(s, c, p, ok, q, k);
      }
    } else {
      NewPc(s, p, ok, q);
      SteppedCpu(s, c, p, ok, q);
      hide Core, MayGo, PcOk, NextPc, Stepped, Looked, KinOk, BuildOk, StateOk;
      StartLooked(|s.procs|);
      LookedOn(s.procs[q], |s.procs|);
      if Stepped(s, c, p, ok, k).parent == Some(q) && Stepped(s, c, p, ok, k).state.Zombie? {
        DeadNew(s, c, p, ok, q, k);
        SpinUnique(s, p, q, SpinWait);
      }
    }
  }

  lemma StartLooked(n: nat)
    ensures Looked(YieldOff(Idle), n) == 0
  {
  }

  // ----- steps of a process: exit -----

  predicate WaitsAfter(s: World, c: nat, p: nat, ok: bool, x: nat)
    requires p < |s.procs| && PcOk(s, s.procs[p].pc)
  {
    x < |s.procs| && WaitsOn(Stepped(s, c, p, ok, x)) == OnProc(x)
  }

  /** Who starts to wait for children holds wait_lock until then. */
  lemma WaitsStart(s: World, c: nat, p: nat, ok: bool, x: nat)
    requires Going(s, c, p, ok) && WaitsAfter(s, c, p, ok, x)
    ensures Waits(s, x) || (x == p && s.procs[p].pc == SleepRel(OnProc(p)))
  {
    hide Going, Stepped, WaitsOn, PcOk;
    SteppedWaits(s, c, p, ok, x);
  }

  lemma ExitFrom(s: World, p: nat, ok: bool)
    requires p < |s.procs| && PcOk(s, s.procs[p].pc)
    ensures var e := ExitScan(NextPc(s, p, ok)); e.Some? ==>
      (s.procs[p].pc.Reparent? && s.procs[p].pc.k >= |s.procs| && e.value.1 == 0 && s.procs[p].parent == Some(e.value.0))
      || (ExitScan(s.procs[p].pc).Some? && ExitScan(s.procs[p].pc).value.0 == e.value.0)
    ensures AfterScan(NextPc(s, p, ok)) && s.procs[p].parent.Some? && s.procs[p].parent.value < |s.procs| ==>
      AfterScan(s.procs[p].pc) || (ExitScan(s.procs[p].pc).Some? && ExitScan(s.procs[p].pc).value.1 >= |s.procs|)
    ensures AfterScan(NextPc(s, p, ok)) ==> !s.procs[p].pc.Reparent? || s.procs[p].pc.k >= |s.procs|
    ensures ExitScan(NextPc(s, p, ok)).Some? || AfterScan(NextPc(s, p, ok)) ==>
      s.procs[p].pc.Reparent? || ExitScan(s.procs[p].pc).Some? || AfterScan(s.procs[p].pc)
  {
  }

  lemma ExitIndex(pc: Pc)
    ensures ExitScan(pc).Some? ==> ScanIndex(pc) == Some((OnProc(ExitScan(pc).value.0), ExitScan(pc).value.1))
  {
  }

  lemma ExitData(s: World, p: nat, ok: bool)
    requires p < |s.procs| && PcOk(s, s.procs[p].pc)
    requires ExitScan(s.procs[p].pc).Some? || AfterScan(s.procs[p].pc) || (s.procs[p].pc.Reparent? && s.procs[p].pc.k >= |s.procs|)
    ensures Effect(s, p, ok).parent == s.procs[Target(s, p)].parent && (s.procs[p].pc.Reparent? ==> Target(s, p) == p)
  {
    hide NextPc, PcOk;
  }

  /** How exit comes to scan for the parent, and past it. */
  lemma ExitNext(s: World, p: nat, ok: bool)
    requires p < |s.procs| && PcOk(s, s.procs[p].pc)
    ensures var e := ExitScan(NextPc(s, p, ok)); e.Some? ==>
      (s.procs[p].pc.Reparent? && e.value.1 == 0 && s.procs[p].parent == Some(e.value.0) && Target(s, p) == p)
      || (ExitScan(s.procs[p].pc).Some? && ExitScan(s.procs[p].pc).value.0 == e.value.0)
    ensures AfterScan(NextPc(s, p, ok)) && s.procs[p].parent.Some? && s.procs[p].parent.value < |s.procs| ==>
      AfterScan(s.procs[p].pc) || (ExitScan(s.procs[p].pc).Some? && ExitScan(s.procs[p].pc).value.1 >= |s.procs|)
    ensures ExitScan(s.procs[p].pc).Some? ==> ScanIndex(s.procs[p].pc) == Some((OnProc(ExitScan(s.procs[p].pc).value.0), ExitScan(s.procs[p].pc).value.1))
    ensures var e := ExitScan(NextPc(s, p, ok)); e.Some? ==> ScanIndex(NextPc(s, p, ok)) == Some((OnProc(e.value.0), e.value.1))
    ensures ExitScan(s.procs[p].pc).Some? || AfterScan(s.procs[p].pc) || ExitScan(NextPc(s, p, ok)).Some? || AfterScan(NextPc(s, p, ok)) ==>
      Effect(s, p, ok).parent == s.procs[Target(s, p)].parent
  {
    hide NextPc, PcOk, Effect, Target, ExitScan, AfterScan, ScanIndex;
    ExitFrom(s, p, ok);
    ExitIndex(s.procs[p].pc);
    ExitIndex(NextPc(s, p, ok));
    if ExitScan(s.procs[p].pc).Some? || AfterScan(s.procs[p].pc) || ExitScan(NextPc(s, p, ok)).Some? || AfterScan(NextPc(s, p, ok)) {
      ReparentNone(s.procs[p].pc);
      ExitData(s, p, ok);
    }
  }

  lemma ReparentNone(pc: Pc)
    ensures pc.Reparent? ==> ExitScan(pc).None? && !AfterScan(pc)
  {
  }

  lemma WokeOwnScan(s: World, c: nat, p: nat, ok: bool)
    requires Going(s, c, p, ok) && WokeOk(s, p) && ExitScan(NextPc(s, p, ok)).Some?
    ensures var e := ExitScan(NextPc(s, p, ok)).value;
      Stepped(s, c, p, ok, p).parent == Some(e.0) && (WaitsAfter(s, c, p, ok, e.0) ==> e.1 <= e.0)
  {
    var e := ExitScan(NextPc(s, p, ok)).value;
    ExitNext(s, p, ok);
    OwnPc(s, c, p, ok);
    SteppedParentSame(s, c, p, ok);
    hide Core, MayGo, PcOk, NextPc, ExitScan, AfterScan, Stepped, WaitsOn, ScanIndex;
    if WaitsAfter(s, c, p, ok, e.0) && !s.procs[p].pc.Reparent? {
      WaitsStart(s, c, p, ok, e.0);
      NotSleepRel(s.procs[p].pc);
      assert ScanAt(s, p, OnProc(e.0), e.0);
      ScanStep(s, c, p, ok, p, OnProc(e.0), e.0);
    }
  }

  lemma NotSleepRel(pc: Pc)
    ensures pc.SleepRel? ==> ExitScan(pc).None? && !AfterScan(pc)
  {
  }

  lemma SteppedParentSame(s: World, c: nat, p: nat, ok: bool)
    requires p < |s.procs| && PcOk(s, s.procs[p].pc)
    requires Effect(s, p, ok).parent == s.procs[Target(s, p)].parent
    ensures Stepped(s, c, p, ok, p).parent == s.procs[p].parent
  {
    hide PcOk, NextPc, Effect, Target;
  }

  lemma WokeOwnAfter(s: World, c: nat, p: nat, ok: bool)
    requires Going(s, c, p, ok) && WokeOk(s, p) && ParentOk(s, p) && AfterScan(NextPc(s, p, ok)) && s.procs[p].parent.Some?
    ensures Stepped(s, c, p, ok, p).parent == s.procs[p].parent && !WaitsAfter(s, c, p, ok, s.procs[p].parent.value)
  {
    ExitNext(s, p, ok);
    SteppedParentSame(s, c, p, ok);
    hide Core, MayGo, PcOk, NextPc, ExitScan, AfterScan, Stepped, WaitsOn, ScanIndex, Live;
    if WaitsAfter(s, c, p, ok, s.procs[p].parent.value) {
      WaitsStart(s, c, p, ok, s.procs[p].parent.value);
      NotSleepRel(s.procs[p].pc);
    }
  }

  lemma ExitOn(x: Proc)
    requires StateOk(x) && (ExitScan(x.pc).Some? || AfterScan(x.pc))
    ensures x.cpu.Some? && SpinOf(x.pc) == Some(SpinWait)
  {
  }

  /** While q is in that part of exit, its parent stays, and no one starts to wait. */
  lemma WokeOther(s: World, c: nat, p: nat, ok: bool, q: nat)
    requires Going(s, c, p, ok) && q < |s.procs| && q != p && KinOk(s, p) && (ExitScan(s.procs[q].pc).Some? || AfterScan(s.procs[q].pc))
    ensures Stepped(s, c, p, ok, q).parent == s.procs[q].parent
    ensures forall x :: WaitsAfter(s, c, p, ok, x) ==> Waits(s, x)
  {
    GoingAt(s, c, p, ok, q);
    ExitOn(s.procs[q]);
    hide Core, MayGo, PcOk, NextPc, ExitScan, AfterScan, Stepped, WaitsOn, KinOk, StateOk, BuildOk;
    if Stepped(s, c, p, ok, q).parent != s.procs[q].parent {
      ParentChange(s, c, p, ok, q);
      SpinUnique(s, p, q, SpinWait);
    }
    forall x | WaitsAfter(s, c, p, ok, x) ensures Waits(s, x) {
      WaitsStart(s, c, p, ok, x);
      if s.procs[p].pc == SleepRel(OnProc(p)) {
        SpinUnique(s, p, q, SpinWait);
      }
    }
  }

  lemma WokeStep(s: World, c: nat, p: nat, ok: bool, q: nat)
    requires Going(s, c, p, ok) && q < |s.procs| && KinOk(s, p) && WokeOk(s, p) && WokeOk(s, q) && ParentOk(s, p)
    ensures |Went(s, c, p, ok).procs| == |s.procs| && WokeOk(Went(s, c, p, ok), q)
  {
    GoingAt(s, c, p, ok, q);
    var s' := Went(s, c, p, ok);
    WentAt(s, c, p, ok, q);
    hide Going, PcOk, NextPc, ExitScan, AfterScan, Stepped, WaitsOn, KinOk, StateOk, BuildOk, Went, Live;
    forall x: nat ensures Waits(s', x) <==> WaitsAfter(s, c, p, ok, x) {
      if x < |s.procs| {
        WentAt(s, c, p, ok, x);
      }
    }
    if q == p {
      OwnPc(s, c, p, ok);
      if ExitScan(NextPc(s, p, ok)).Some? {
        WokeOwnScan(s, c, p, ok);
      }
      if AfterScan(NextPc(s, p, ok)) {
        ExitNext(s, p, ok);
        SteppedParentSame(s, c, p, ok);
        if s.procs[p].parent.Some? {
          WokeOwnAfter(s, c, p, ok);
        }
      }
    } else {
      NewPc(s, p, ok, q);
      SteppedCpu(s, c, p, ok, q);
      StartExit();
      if ExitScan(s.procs[q].pc).Some? || AfterScan(s.procs[q].pc) {
        WokeOther(s, c, p, ok, q);
      }
    }
  }

  lemma StartExit()
    ensures ExitScan(YieldOff(Idle)).None? && !AfterScan(YieldOff(Idle))
  {
  }

  // ----- zombies -----

  /** Process p is about to hand process q, its child, to init. */
  predicate HandsOver(s: World, p: nat, q: nat) {
    p < |s.procs| && q < |s.procs| && s.procs[p].pc.Reparent? && s.procs[p].pc.k == q && s.procs[q].parent == Some(p)
  }

  lemma ReparentPc(s: World, p: nat, ok: bool, q: nat)
    requires HandsOver(s, p, q) && PcOk(s, s.procs[p].pc)
    ensures ScanIndex(NextPc(s, p, ok)) == Some((OnProc(INIT), 0)) && Effect(s, p, ok).cpu == s.procs[q].cpu && Target(s, p) == q
  {
  }

  /** A process that reparents to init begins a scan for it. */
  lemma ReparentScans(s: World, c: nat, p: nat, ok: bool, q: nat)
    requires HandsOver(s, p, q) && PcOk(s, s.procs[p].pc) && s.procs[p].cpu.Some?
    ensures |Went(s, c, p, ok).procs| == |s.procs| && Scanning(Went(s, c, p, ok), OnProc(INIT), INIT)
  {
    ReparentPc(s, p, ok, q);
    hide NextPc, Effect, PcOk, Went, Target, ScanIndex, Live, WaitsOn;
    WentAt(s, c, p, ok, p);
    OwnPc(s, c, p, ok);
    assert ScanAt(Went(s, c, p, ok), p, OnProc(INIT), INIT);
  }

  /** How a dead child of y that y waits past could arise. */
  lemma ZombieNew(s: World, c: nat, p: nat, ok: bool, q: nat, y: nat)
    requires Going(s, c, p, ok) && q < |s.procs| && KinOk(s, p) && WokeOk(s, p) && LookedOk(s, p) && SelfOk(s, p) && ParentOk(s, q)
    requires Stepped(s, c, p, ok, q).parent == Some(y) && Stepped(s, c, p, ok, q).state.Zombie? && WaitsAfter(s, c, p, ok, y)
    ensures (DeadChild(s, y, q) && Waits(s, y)) || (y == INIT && HandsOver(s, p, q))
  {
    GoingAt(s, c, p, ok, q);
    WaitsStart(s, c, p, ok, y);
    hide Core, MayGo, PcOk, NextPc, Stepped, WaitsOn, BuildOk, StateOk, Live;
    if !DeadChild(s, y, q) {
      DeadNew(s, c, p, ok, y, q);
      if s.procs[p].pc.ExitSet? {
        ExitSetOnly(s, c, p, ok, q);
      } else {
        ReparentOnly(s, c, p, ok, q);
      }
    }
  }

  lemma ExitSetOnly(s: World, c: nat, p: nat, ok: bool, q: nat)
    requires p < |s.procs| && q < |s.procs| && PcOk(s, s.procs[p].pc) && s.procs[p].pc.ExitSet?
    ensures Stepped(s, c, p, ok, q).parent == s.procs[q].parent && (q != p ==> Stepped(s, c, p, ok, q).state == s.procs[q].state)
  {
    hide PcOk;
  }

  lemma ReparentOnly(s: World, c: nat, p: nat, ok: bool, q: nat)
    requires p < |s.procs| && q < |s.procs| && PcOk(s, s.procs[p].pc) && s.procs[p].pc.Reparent?
    ensures Stepped(s, c, p, ok, q).state == s.procs[q].state
    ensures Stepped(s, c, p, ok, q).parent == if q == s.procs[p].pc.k && s.procs[q].parent == Some(p) then Some(INIT) else s.procs[q].parent
  {
    hide PcOk;
  }

  /** A dead child that appears while its parent waits comes with a wakeup. */
  lemma DeadScans(s: World, c: nat, ok: bool, x: nat, k: nat)
    requires Core(s) && Can(s, c, Go(ok)) && Parents(s) && Kin(s) && WaitsOk(s) && x < |s.procs| && k < |s.procs|
    requires var s' := Do(s, c, Go(ok)); |s'.procs| == |s.procs| && DeadChild(s', x, k) && !DeadChild(s, x, k) && WaitsOn(s'.procs[x]) == OnProc(x)
    ensures Scanning(Do(s, c, Go(ok)), OnProc(x), x)
  {
    IsGoing(s, c, ok);
    var p := s.cpus[c].p;
    assert KinOk(s, p) && WokeOk(s, p) && LookedOk(s, p) && SelfOk(s, p) && ParentOk(s, k);
    hide Core, Can, Do, Went, Stepped, PcOk, MayGo, KinOk, WokeOk, LookedOk, SelfOk, ParentOk, WaitsOn, Parents, Kin, WaitsOk, Live, Scanning;
    WentAt(s, c, p, ok, k);
    WentAt(s, c, p, ok, x);
    ZombieNew(s, c, p, ok, k, x);
    ReparentScans(s, c, p, ok, k);
  }

  /** Who goes to sleep in wait has seen that no child is dead. */
  lemma SleepsChildless(s: World, c: nat, ok: bool, x: nat, k: nat)
    requires Core(s) && Can(s, c, Go(ok)) && Kin(s) && WaitsOk(s) && x < |s.procs| && k < |s.procs| && s.cpus[c] == On(x) && s.procs[x].pc == SleepRel(OnProc(x))
    ensures |Do(s, c, Go(ok)).procs| == |s.procs| && !DeadChild(Do(s, c, Go(ok)), x, k)
  {
    IsGoing(s, c, ok);
    assert KinOk(s, x) && LookedOk(s, x);
    hide Core, Can, Do, Went, Stepped, PcOk, MayGo, KinOk, WaitsOn, Kin, WaitsOk, Live;
    WentAt(s, c, x, ok, k);
    assert !DeadChild(s, x, k);
    if DeadChild(Do(s, c, Go(ok)), x, k) {
      DeadNew(s, c, x, ok, x, k);
    }
  }

  /** wait, exit and everything else keep to the rules of sleep and wakeup on a process's
      own channel, with "a child is dead" as the condition. */
  lemma ChildDisciplined(s: World, c: nat, a: Act, x: nat)
    requires Core(s) && Can(s, c, a) && Parents(s) && Kin(s) && WaitsOk(s) && x < |s.procs|
    ensures Disciplined(s, c, a, OnProc(x), x, HasDead(s, x), HasDead(Do(s, c, a), x))
  {
    var s' := Do(s, c, a);
    WaitsNew(s, c, a, x);
    if a.Go? {
      hide Core, Can, Do, Parents, Kin, WaitsOk, WaitsOn, Scanning, DeadChild;
      if HasDead(s', x) && !HasDead(s, x) && WaitsOn(s'.procs[x]) == OnProc(x) {
        var k :| 0 <= k < |s'.procs| && DeadChild(s', x, k);
        DeadScans(s, c, a.ok, x, k);
      }
      if s.cpus[c] == On(x) && s.procs[x].pc == SleepRel(OnProc(x)) {
        forall k | 0 <= k < |s'.procs| ensures !DeadChild(s', x, k) {
          SleepsChildless(s, c, a.ok, x, k);
        }
      }
    } else {
      IsTurned(s, c, a);
      hide Core, Can, Do, Parents, Kin, WaitsOk, WaitsOn, Scanning, AllTurned;
      if HasDead(s', x) {
        var k :| 0 <= k < |s'.procs| && DeadChild(s', x, k);
        TurnedSame(s, s', k);
        assert DeadChild(s, x, k);
      }
    }
  }

  // ----- every step -----

  lemma GoWaits(s: World, c: nat, ok: bool)
    requires Core(s) && Can(s, c, Go(ok)) && Parents(s) && Kin(s) && WaitsOk(s)
    ensures WaitsOk(Do(s, c, Go(ok)))
  {
    IsGoing(s, c, ok);
    var p := s.cpus[c].p;
    var s' := Do(s, c, Go(ok));
    WentSizes(s, c, p, ok);
    forall q | 0 <= q < |s.procs| ensures SelfOk(s', q) && LookedOk(s', q) && WokeOk(s', q) {
      assert KinOk(s, p) && WokeOk(s, p) && LookedOk(s, p) && SelfOk(s, p) && WokeOk(s, q) && LookedOk(s, q) && SelfOk(s, q) && ParentOk(s, p);
      hide Core, Can, Do, Went, Stepped, PcOk, MayGo, KinOk, WokeOk, SelfOk, ParentOk, WaitsOn, Parents, Kin, WaitsOk, Live, Looked;
      SelfStep(s, c, p, ok, q);
      WokeStep(s, c, p, ok, q);
      WentAt(s, c, p, ok, q);
      forall k | 0 <= k < Looked(s'.procs[q].pc, |s'.procs|) && k < |s'.procs| ensures !DeadChild(s', q, k) {
        LookedStep(s, c, p, ok, q, k);
        WentAt(s, c, p, ok, k);
      }
    }
  }

  lemma TurnedWaitPc(x: Proc, x': Proc, n: nat)
    requires StateOk(x) && Turned(x, x')
    ensures SleepChan(x'.pc) != NoChan ==> SleepChan(x'.pc) == SleepChan(x.pc)
    ensures Looked(x'.pc, n) <= Looked(x.pc, n)
    ensures ExitScan(x'.pc).Some? ==> ExitScan(x'.pc) == ExitScan(x.pc)
    ensures AfterScan(x'.pc) ==> AfterScan(x.pc)
  {
  }

  lemma TurnedSame(s: World, s': World, q: nat)
    requires Core(s) && AllTurned(s, s') && q < |s.procs|
    ensures s'.procs[q].parent == s.procs[q].parent && (s'.procs[q].state.Zombie? <==> s.procs[q].state.Zombie?) && (Waits(s', q) <==> Waits(s, q))
    ensures SleepChan(s'.procs[q].pc) != NoChan ==> SleepChan(s'.procs[q].pc) == SleepChan(s.procs[q].pc)
    ensures Looked(s'.procs[q].pc, |s.procs|) <= Looked(s.procs[q].pc, |s.procs|)
    ensures ExitScan(s'.procs[q].pc).Some? ==> ExitScan(s'.procs[q].pc) == ExitScan(s.procs[q].pc)
    ensures AfterScan(s'.procs[q].pc) ==> AfterScan(s.procs[q].pc)
  {
    assert StateOk(s.procs[q]) && Turned(s.procs[q], s'.procs[q]);
    hide Core, Turned, StateOk, WaitsOn, PcOk, SleepChan, Looked, ExitScan, AfterScan;
    TurnedLife(s.procs[q], s'.procs[q], 0);
    TurnedWaits(s.procs[q], s'.procs[q]);
    TurnedWaitPc(s.procs[q], s'.procs[q], |s.procs|);
  }

  lemma TurnedWaitsOk(s: World, c: nat, a: Act)
    requires Core(s) && Can(s, c, a) && !a.Go? && WaitsOk(s)
    ensures WaitsOk(Do(s, c, a))
  {
    var s' := Do(s, c, a);
    IsTurned(s, c, a);
    assert |s'.procs| == |s.procs|;
    hide Core, Can, Do, AllTurned, WaitsOn, SleepChan, Looked, ExitScan, AfterScan, Scanning, Waits;
    forall q | 0 <= q < |s.procs| ensures SelfOk(s', q) && LookedOk(s', q) && WokeOk(s', q) {
      assert WokeOk(s, q) && LookedOk(s, q) && SelfOk(s, q);
      hide WaitsOk;
      TurnedSame(s, s', q);
      forall k | 0 <= k < Looked(s'.procs[q].pc, |s'.procs|) && k < |s'.procs| ensures !DeadChild(s', q, k) {
        TurnedSame(s, s', k);
        assert !DeadChild(s, q, k);
      }
      forall x: nat ensures Waits(s', x) <==> Waits(s, x) {
        TurnedWait(s, s', x);
      }
    }
  }

  lemma TurnedWait(s: World, s': World, x: nat)
    requires Core(s) && AllTurned(s, s')
    ensures Waits(s', x) <==> Waits(s, x)
  {
    assert |s'.procs| == |s.procs|;
    hide Core, AllTurned, WaitsOn, SleepChan, Looked, ExitScan, AfterScan;
    if x < |s.procs| {
      TurnedSame(s, s', x);
    }
  }

  lemma KeepsWaits(s: World, c: nat, a: Act)
    requires Core(s) && Can(s, c, a) && Parents(s) && Kin(s) && WaitsOk(s)
    ensures WaitsOk(Do(s, c, a))
  {
    hide Core, Can, Do, Parents, Kin, WaitsOk;
    if a.Go? {
      GoWaits(s, c, a.ok);
    } else {
      TurnedWaitsOk(s, c, a);
    }
  }

  lemma InitWaits(s: World)
    requires Init(s)
    ensures Parents(s) && Kin(s) && WaitsOk(s)
  {
  }

  lemma {:induction false} RunWaits(tr: seq<World>)
    requires IsRun(tr)
    ensures var s := tr[|tr| - 1]; Core(s) && Parents(s) && Kin(s) && WaitsOk(s)
  {
    hide Core, Parents, Kin, WaitsOk, Can, Do;
    RunCore(tr);
    if |tr| == 1 {
      InitWaits(tr[0]);
    } else {
      RunWaits(tr[..|tr| - 1]);
      var s := tr[|tr| - 2];
      var c, a :| Can(s, c, a) && tr[|tr| - 1] == Do(s, c, a);
      KeepsParents(s, c, a);
      KeepsKin(s, c, a);
      KeepsWaits(s, c, a);
    }
  }

  lemma ChildStep(tr: seq<World>, i: nat, c: nat, a: Act, x: nat)
    requires IsRun(tr) && i + 1 < |tr| && Can(tr[i], c, a) && tr[i + 1] == Do(tr[i], c, a) && x < |tr[i].procs|
    ensures Disciplined(tr[i], c, a, OnProc(x), x, HasDead(tr[i], x), HasDead(tr[i + 1], x))
  {
    hide Core, Parents, Kin, WaitsOk, Can, Do, Disciplined, HasDead;
    RunFront(tr, i);
    hide IsRun;
    RunWaits(tr[..i + 1]);
    ChildDisciplined(tr[i], c, a, x);
  }

  lemma ChildFollows(tr: seq<World>, conds: seq<bool>, x: nat)
    requires IsRun(tr) && x < |tr[|tr| - 1].procs| && |conds| == |tr| && forall i :: 0 <= i < |tr| ==> conds[i] == HasDead(tr[i], x)
    ensures Follows(tr, conds, OnProc(x), x)
  {
    hide Can, Do, Disciplined, HasDead, IsRun;
    RunSizes(tr);
    forall i, c, a | 0 <= i < |tr| - 1 && Can(tr[i], c, a) && tr[i + 1] == Do(tr[i], c, a)
      ensures Disciplined(tr[i], c, a, OnProc(x), x, conds[i], conds[i + 1])
    {
      ChildStep(tr, i, c, a, x);
    }
  }

  /** No lost wakeup in wait: in every reachable state, while wait_lock is free, a process
      that sleeps in wait has no dead child. */
  lemma NoZombieSleptPast(s: World, x: nat, q: nat)
    requires Reachable(s) && x < |s.procs| && q < |s.procs| && s.wait.None? && s.procs[q].parent == Some(x) && s.procs[q].state.Zombie?
    ensures !Waits(s, x) && !(s.procs[x].state.Sleeping? && s.procs[x].chan == OnProc(x))
  {
    assert DeadChild(s, x, q);
    hide WaitsOn, Init, DeadChild, Follows;
    var tr: seq<World> :| Reaches(tr, s);
    hide IsRun;
    var conds := seq(|tr|, i requires 0 <= i < |tr| => HasDead(tr[i], x));
    ChildFollows(tr, conds, x);
    NoLostWakeup(tr, conds, OnProc(x), x);
  }
}
