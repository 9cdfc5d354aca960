/** fork, exit and wait over the process machine: parents are alive, every exited process
    is reaped at most once by the right process, and no wait sleeps on past a zombie. */
module Lifecycle {
  import opened Wrappers
  import opened Proc
  import opened ProcInv
  import opened Wakeup

  predicate Live(x: Proc) { x.state.Sleeping? || x.state.Runnable? || x.state.Running? }

  /** How far exit has come in giving its children away. */
  function Given(pc: Pc, n: nat): nat {
    match pc
    case Reparent(k, _) => k
    case Wake(ByReparent(k, _), _) => k + 1
    case WakeHas(ByReparent(k, _), _) => k + 1
    case Wake(ByExit(_, _), _) => n
    case WakeHas(ByExit(_, _), _) => n
    case ExitLock(_) => n
    case ExitSet(_) => n
    case ExitRel => n
    case ExitSched => n
    case ExitOff => n
    case _ => 0
  }

  /** The process is in exit. */
  predicate Exits(pc: Pc) {
    match pc
    case ExitEnter(_) => true
    case Reparent(_, _) => true
    case Wake(w, _) => !w.ByRelease?
    case WakeHas(w, _) => !w.ByRelease?
    case ExitLock(_) => true
    case ExitSet(_) => true
    case ExitRel => true
    case ExitSched => true
    case ExitOff => true
    case YieldLock(b) => Exits(b)
    case YieldSet(b) => Exits(b)
    case YieldSched(b) => Exits(b)
    case YieldOff(b) => Exits(b)
    case _ => false
  }

  predicate ParentOk(s: World, q: nat)
    requires q < |s.procs|
  {
    s.procs[q].parent.Some? ==> !s.procs[q].state.Unused? && s.procs[q].parent.value < |s.procs| && Live(s.procs[s.procs[q].parent.value])
  }

  ghost predicate GivenOk(s: World, p: nat)
    requires p < |s.procs|
  {
    (!s.procs[p].state.Unused? ==> forall i :: 0 <= i < Given(s.procs[p].pc, |s.procs|) && i < |s.procs| ==> s.procs[i].parent != Some(p))
    && (Exits(s.procs[p].pc) ==> p != INIT)
  }

  ghost predicate Parents(s: World) {
    INIT < |s.procs| && Live(s.procs[INIT]) && (forall p :: 0 <= p < |s.procs| ==> ParentOk(s, p)) && (forall p :: 0 <= p < |s.procs| ==> GivenOk(s, p))
  }

  // ----- what a step does to one record -----

  /** The ways the parent of a process changes. */
  lemma EffectParent(s: World, p: nat, ok: bool)
    requires p < |s.procs| && PcOk(s, s.procs[p].pc)
    ensures var x, x', pc := s.procs[Target(s, p)], Effect(s, p, ok), s.procs[p].pc;
      || x'.parent == x.parent
      || (x'.parent == None && x'.state.Unused?)
      || (pc.ForkParent? && x'.parent == Some(p) && x'.state == x.state)
      || (pc.Reparent? && x.parent == Some(p) && x'.parent == Some(INIT) && x'.state == x.state)
  {
  }

  lemma EffectLive(s: World, p: nat, ok: bool)
    requires p < |s.procs| && PcOk(s, s.procs[p].pc) && BuildOk(s, p)
    ensures var x, x', pc := s.procs[Target(s, p)], Effect(s, p, ok), s.procs[p].pc; Live(x) && !pc.ExitSet? ==> Live(x')
    ensures var x, x', pc := s.procs[Target(s, p)], Effect(s, p, ok), s.procs[p].pc; x'.state.Unused? && !x.state.Unused? ==> x'.parent.None?
    ensures var x, x', pc := s.procs[Target(s, p)], Effect(s, p, ok), s.procs[p].pc;
      x'.state.Zombie? ==> x.state.Zombie? || (pc.ExitSet? && Target(s, p) == p)
  {
  }

  lemma GivenNext(s: World, p: nat, ok: bool)
    requires p < |s.procs| && PcOk(s, s.procs[p].pc)
    ensures var g, g' := Given(s.procs[p].pc, |s.procs|), Given(NextPc(s, p, ok), |s.procs|);
      || g' <= g
      || (s.procs[p].pc.Reparent? && s.procs[p].pc.k < |s.procs| && g' == g + 1)
      || (s.procs[p].pc.Reparent? && s.procs[p].pc.k >= |s.procs|)
    ensures Exits(NextPc(s, p, ok)) ==> Exits(s.procs[p].pc)
    ensures s.procs[p].pc.ForkParent? ==> Given(NextPc(s, p, ok), |s.procs|) == 0
  {
  }

  lemma SteppedLive(s: World, c: nat, p: nat, ok: bool, y: nat)
    requires Going(s, c, p, ok) && y < |s.procs| && Live(s.procs[y])
    ensures Live(Stepped(s, c, p, ok, y)) || (y == p && s.procs[p].pc.ExitSet?)
  {
    assert BuildOk(s, p);
    hide Core, MayGo, PcOk, NextPc, Effect, Target;
    EffectLive(s, p, ok);
    ExitSetTarget(s, p);
  }

  lemma ExitSetTarget(s: World, p: nat)
    requires p < |s.procs| && PcOk(s, s.procs[p].pc)
    ensures s.procs[p].pc.ExitSet? ==> Target(s, p) == p
    ensures s.procs[p].pc.ForkParent? ==> Target(s, p) == s.procs[p].pc.i
    ensures s.procs[p].pc.Reparent? ==> Target(s, p) == if s.procs[p].pc.k < |s.procs| then s.procs[p].pc.k else p
  {
  }

  lemma RunningAt(s: World, c: nat, p: nat, ok: bool)
    requires Going(s, c, p, ok)
    ensures !Switching(s.procs[p].pc) && (s.procs[p].state.Running? || s.procs[p].pc.ExitRel?)
  {
    assert StateOk(s.procs[p]);
    hide Core, NextPc, MayTake, PcOk;
  }

  /** Who is the parent after a step was alive before it. */
  lemma ParentWas(s: World, c: nat, p: nat, ok: bool, q: nat)
    requires p < |s.procs| && PcOk(s, s.procs[p].pc) && BuildOk(s, p) && q < |s.procs| && ParentOk(s, q)
    requires INIT < |s.procs| && Live(s.procs[INIT]) && (s.procs[p].pc.ForkParent? ==> Live(s.procs[p]))
    requires Stepped(s, c, p, ok, q).parent.Some?
    ensures var y := Stepped(s, c, p, ok, q).parent.value; y < |s.procs| && Live(s.procs[y]) && (s.procs[p].pc.ExitSet? ==> s.procs[q].parent == Some(y))
    ensures !Stepped(s, c, p, ok, q).state.Unused?
  {
    hide PcOk, NextPc, Effect, Target, Live;
    EffectParent(s, p, ok);
    EffectLive(s, p, ok);
    ExitSetTarget(s, p);
  }

  lemma GoParent(s: World, c: nat, p: nat, ok: bool, q: nat)
    requires Going(s, c, p, ok) && Parents(s) && q < |s.procs|
    ensures var x := Stepped(s, c, p, ok, q);
      x.parent.Some? ==> !x.state.Unused? && x.parent.value < |s.procs| && Live(Stepped(s, c, p, ok, x.parent.value))
  {
    RunningAt(s, c, p, ok);
    GoingAt(s, c, p, ok, q);
    assert ParentOk(s, q) && GivenOk(s, p);
    hide Going, PcOk, Stepped, Live, Exits, Given, BuildOk, StateOk;
    LiveIf(s.procs[p]);
    ExitGiven(s, p);
    var x := Stepped(s, c, p, ok, q);
    if x.parent.Some? {
      ParentWas(s, c, p, ok, q);
      SteppedLive(s, c, p, ok, x.parent.value);
    }
  }

  lemma LiveIf(x: Proc)
    requires x.state.Running? || x.pc.ExitRel?
    ensures x.state.Running? ==> Live(x)
  {
  }

  lemma GivenOwn(s: World, c: nat, p: nat, ok: bool, i: nat)
    requires Going(s, c, p, ok) && GivenOk(s, p) && i < |s.procs| && !s.procs[p].state.Unused? && i < Given(NextPc(s, p, ok), |s.procs|)
    ensures Stepped(s, c, p, ok, i).parent != Some(p)
  {
    hide Core, MayGo, PcOk, NextPc, Effect, Target, Live, Given, Exits;
    EffectParent(s, p, ok);
    ExitSetTarget(s, p);
    GivenNext(s, p, ok);
    ReparentGiven(s.procs[p].pc, |s.procs|);
    ReparentTarget(s, p, ok);
  }

  lemma ReparentTarget(s: World, p: nat, ok: bool)
    requires p < |s.procs| && PcOk(s, s.procs[p].pc)
    ensures s.procs[p].pc.Reparent? && s.procs[p].pc.k < |s.procs| && p != INIT ==> Effect(s, p, ok).parent != Some(p)
  {
  }

  lemma GivenOther(s: World, c: nat, p: nat, ok: bool, q: nat, i: nat)
    requires Going(s, c, p, ok) && q < |s.procs| && i < |s.procs| && q != p && BuildOk(s, p) && GivenOk(s, q)
    requires !Stepped(s, c, p, ok, q).state.Unused? && i < Given(Stepped(s, c, p, ok, q).pc, |s.procs|)
    ensures Stepped(s, c, p, ok, i).parent != Some(q)
  {
    hide Core, MayGo, PcOk, NextPc, Effect, Target, Live, Given, Exits, BuildOk;
    EffectParent(s, p, ok);
    NewPc(s, p, ok, q);
    assert Stepped(s, c, p, ok, q) == Stepped(s, 0, p, ok, q);
    StartGiven(s.procs[q].pc, |s.procs|);
    AllocPc(s, p, ok);
  }

  lemma ExitGiven(s: World, p: nat)
    requires p < |s.procs|
    ensures s.procs[p].pc.ExitSet? ==> Given(s.procs[p].pc, |s.procs|) == |s.procs|
  {
  }

  lemma ReparentGiven(pc: Pc, n: nat)
    ensures pc.Reparent? ==> Given(pc, n) == pc.k && Exits(pc)
  {
  }

  lemma StartGiven(pc: Pc, n: nat)
    ensures Given(YieldOff(Idle), n) == 0
    ensures Given(pc, n) > 0 ==> Exits(pc)
  {
  }

  /** A slot that stops being UNUSED starts with nothing behind it. */
  lemma AllocPc(s: World, p: nat, ok: bool)
    requires p < |s.procs| && PcOk(s, s.procs[p].pc) && BuildOk(s, p)
    ensures s.procs[Target(s, p)].state.Unused? && !Effect(s, p, ok).state.Unused? && Target(s, p) != p ==> Effect(s, p, ok).pc == YieldOff(Idle)
  {
  }

  lemma GivenStep(s: World, c: nat, p: nat, ok: bool, q: nat)
    requires Going(s, c, p, ok) && q < |s.procs| && BuildOk(s, p) && GivenOk(s, q)
    ensures var x := Stepped(s, c, p, ok, q);
      !x.state.Unused? ==> forall i :: 0 <= i < Given(x.pc, |s.procs|) && i < |s.procs| ==> Stepped(s, c, p, ok, i).parent != Some(q)
    ensures Exits(Stepped(s, c, p, ok, q).pc) ==> q != INIT
  {
    RunningAt(s, c, p, ok);
    var x := Stepped(s, c, p, ok, q);
    if q == p {
      OwnPc(s, c, p, ok);
      hide Going, NextPc, Given, Exits, Stepped, GivenOk, BuildOk;
      GivenNext(s, p, ok);
      forall i | 0 <= i < Given(x.pc, |s.procs|) && i < |s.procs| && !x.state.Unused? ensures Stepped(s, c, p, ok, i).parent != Some(q) {
        LiveMover(s, c, p, ok);
        GivenOwn(s, c, p, ok, i);
      }
      ExitsInit(s, p);
    } else {
      NewPc(s, p, ok, q);
      assert x == Stepped(s, 0, p, ok, q);
      hide Going, NextPc, Given, Exits, Stepped, GivenOk, BuildOk;
      forall i | 0 <= i < Given(x.pc, |s.procs|) && i < |s.procs| && !x.state.Unused? ensures Stepped(s, c, p, ok, i).parent != Some(q) {
        GivenOther(s, c, p, ok, q, i);
      }
      ExitsInit(s, q);
    }
  }

  lemma OwnPc(s: World, c: nat, p: nat, ok: bool)
    requires p < |s.procs| && PcOk(s, s.procs[p].pc)
    ensures Stepped(s, c, p, ok, p).pc == NextPc(s, p, ok)
  {
    hide PcOk, NextPc, Effect, Target;
  }

  lemma LiveMover(s: World, c: nat, p: nat, ok: bool)
    requires Going(s, c, p, ok)
    ensures !s.procs[p].state.Unused?
  {
    assert StateOk(s.procs[p]);
    hide Core, PcOk, MayGo;
  }

  lemma ExitsInit(s: World, p: nat)
    requires p < |s.procs| && GivenOk(s, p)
    ensures Exits(s.procs[p].pc) ==> p != INIT
    ensures !Exits(YieldOff(Idle))
  {
  }

  lemma WentParent(s: World, c: nat, p: nat, ok: bool, q: nat)
    requires Going(s, c, p, ok) && Parents(s) && q < |s.procs|
    ensures |Went(s, c, p, ok).procs| == |s.procs| && ParentOk(Went(s, c, p, ok), q)
  {
    GoingAt(s, c, p, ok, q);
    GoParent(s, c, p, ok, q);
    hide Going, Went, Live, Stepped, PcOk, Parents, StateOk, BuildOk, WaitsOn;
    WentAt(s, c, p, ok, q);
    var x := Stepped(s, c, p, ok, q);
    if x.parent.Some? {
      WentAt(s, c, p, ok, x.parent.value);
    }
  }

  lemma WentGiven(s: World, c: nat, p: nat, ok: bool, q: nat)
    requires Going(s, c, p, ok) && q < |s.procs| && GivenOk(s, q)
    ensures |Went(s, c, p, ok).procs| == |s.procs| && GivenOk(Went(s, c, p, ok), q)
  {
    GoingAt(s, c, p, ok, q);
    GivenStep(s, c, p, ok, q);
    hide Going, Went, Live, Stepped, PcOk, Given, Exits, StateOk, BuildOk, WaitsOn;
    var s' := Went(s, c, p, ok);
    WentAt(s, c, p, ok, q);
    forall i | 0 <= i < |s.procs| ensures s'.procs[i].parent == Stepped(s, c, p, ok, i).parent {
      WentAt(s, c, p, ok, i);
    }
  }

  lemma GoParents(s: World, c: nat, p: nat, ok: bool)
    requires Going(s, c, p, ok) && Parents(s)
    ensures Parents(Went(s, c, p, ok))
  {
    var s' := Went(s, c, p, ok);
    WentSizes(s, c, p, ok);
    hide Going, Went, Live, Stepped, PcOk, ParentOk, GivenOk, WaitsOn;
    forall q | 0 <= q < |s.procs| ensures ParentOk(s', q) && GivenOk(s', q) {
      assert GivenOk(s, q);
      WentParent(s, c, p, ok, q);
      WentGiven(s, c, p, ok, q);
    }
    assert Live(s'.procs[INIT]) by {
      InitNoExit(s, p);
      SteppedLive(s, c, p, ok, INIT);
      WentAt(s, c, p, ok, INIT);
    }
  }

  lemma InitNoExit(s: World, p: nat)
    requires Parents(s) && p < |s.procs|
    ensures s.procs[p].pc.ExitSet? ==> p != INIT
  {
    assert GivenOk(s, p);
  }

  /** A record after a step, up to the lock. */
  lemma WentAt(s: World, c: nat, p: nat, ok: bool, q: nat)
    requires p < |s.procs| && q < |s.procs| && PcOk(s, s.procs[p].pc)
    ensures |Went(s, c, p, ok).procs| == |s.procs|
    ensures var x, x' := Stepped(s, c, p, ok, q), Went(s, c, p, ok).procs[q];
      x'.parent == x.parent && x'.state == x.state && x'.pc == x.pc && x'.pid == x.pid && x'.xstate == x.xstate && x'.chan == x.chan && x'.cpu == x.cpu
    ensures Live(Went(s, c, p, ok).procs[q]) <==> Live(Stepped(s, c, p, ok, q))
    ensures WaitsOn(Went(s, c, p, ok).procs[q]) == WaitsOn(Stepped(s, c, p, ok, q))
  {
    hide Went, Stepped, PcOk;
    WentProc(s, c, p, ok, q);
  }

  lemma TurnedLife(x: Proc, x': Proc, n: nat)
    requires StateOk(x) && Turned(x, x')
    ensures (Live(x) <==> Live(x')) && (x.state.Unused? <==> x'.state.Unused?) && (x.state.Zombie? <==> x'.state.Zombie?)
    ensures Given(x'.pc, n) <= Given(x.pc, n) && (Exits(x'.pc) ==> Exits(x.pc) || (x.pc.Idle? && x'.pc.ExitEnter?))
    ensures x'.parent == x.parent && x'.pid == x.pid && x'.xstate == x.xstate
  {
  }

  lemma CallInit(s: World, c: nat, a: Act, q: nat)
    requires Core(s) && Can(s, c, a) && !a.Go? && q < |s.procs| && s.procs[q].pc.Idle?
    ensures |Do(s, c, a).procs| == |s.procs|
    ensures Do(s, c, a).procs[q].pc.ExitEnter? ==> q != INIT
  {
    hide CpuOk, LockOk, SpinOk, StatesOk, ForksOk, Bounds, PcOk;
  }

  lemma TurnedParents(s: World, c: nat, a: Act)
    requires Core(s) && Can(s, c, a) && !a.Go? && Parents(s)
    ensures Parents(Do(s, c, a))
  {
    var s' := Do(s, c, a);
    IsTurned(s, c, a);
    forall q | 0 <= q < |s.procs| ensures StateOk(s.procs[q]) {}
    hide Core, Do, Can, Turned, StateOk, Live, Given, Exits;
    forall q | 0 <= q < |s.procs|
      ensures (Live(s.procs[q]) <==> Live(s'.procs[q])) && s'.procs[q].parent == s.procs[q].parent
      ensures s.procs[q].state.Unused? <==> s'.procs[q].state.Unused?
      ensures Given(s'.procs[q].pc, |s.procs|) <= Given(s.procs[q].pc, |s.procs|)
      ensures Exits(s'.procs[q].pc) ==> q != INIT || Exits(s.procs[q].pc)
    {
      TurnedLife(s.procs[q], s'.procs[q], |s.procs|);
      if s.procs[q].pc.Idle? {
        CallInit(s, c, a, q);
      }
    }
    forall q | 0 <= q < |s.procs| ensures ParentOk(s', q) {
      assert ParentOk(s, q);
    }
    forall q | 0 <= q < |s.procs| ensures GivenOk(s', q) {
      assert GivenOk(s, q);
    }
  }

  // ----- the child that wait looks at -----

  /** The child whose lock wait holds is still a child, and a slot that fork is about to
      give up has no parent. */
  predicate KinOk(s: World, p: nat)
    requires p < |s.procs|
  {
    match s.procs[p].pc
    case WaitHas(i) => i < |s.procs| && s.procs[i].parent == Some(p)
    case ForkHas(i) => i < |s.procs| && s.procs[i].parent.None?
    case _ => true
  }

  ghost predicate Kin(s: World) { forall p :: 0 <= p < |s.procs| ==> KinOk(s, p) }

  /** Parents change under wait_lock, or with the slot. */
  lemma ParentChange(s: World, c: nat, p: nat, ok: bool, i: nat)
    requires p < |s.procs| && i < |s.procs| && PcOk(s, s.procs[p].pc) && KinOk(s, p)
    ensures Stepped(s, c, p, ok, i).parent != s.procs[i].parent ==> SpinOf(s.procs[p].pc) == Some(SpinWait)
    ensures Stepped(s, c, p, ok, i).parent != s.procs[i].parent ==> !s.procs[p].pc.ForkHas? && i == Target(s, p)
  {
    hide NextPc;
  }

  lemma KinFrom(s: World, p: nat, ok: bool)
    requires p < |s.procs| && PcOk(s, s.procs[p].pc)
    ensures var pc, pc' := s.procs[p].pc, NextPc(s, p, ok); pc'.WaitHas? && !pc.YieldOff? ==>
      pc.WaitScan? && pc'.i == pc.i < |s.procs| && s.procs[pc.i].parent == Some(p)
    ensures var pc, pc' := s.procs[p].pc, NextPc(s, p, ok); pc'.ForkHas? && !pc.YieldOff? ==> pc.ForkTry? && pc'.i == |pc.seen| && s.procs[pc'.i].state.Unused?
    ensures s.procs[p].pc.YieldOff? ==> !NextPc(s, p, ok).WaitHas? && !NextPc(s, p, ok).ForkHas?
  {
  }

  lemma KinNext(s: World, c: nat, p: nat, ok: bool)
    requires p < |s.procs| && PcOk(s, s.procs[p].pc) && KinOk(s, p)
    requires forall i :: 0 <= i < |s.procs| && s.procs[i].state.Unused? ==> s.procs[i].parent.None?
    ensures var pc := NextPc(s, p, ok); pc.WaitHas? ==> pc.i < |s.procs| && Stepped(s, c, p, ok, pc.i).parent == Some(p)
    ensures var pc := NextPc(s, p, ok); pc.ForkHas? ==> pc.i < |s.procs| && Stepped(s, c, p, ok, pc.i).parent.None?
  {
    hide NextPc;
    KinFrom(s, p, ok);
  }

  /** No other process changes the parent of what q is looking at. */
  lemma WaitKin(s: World, c: nat, p: nat, ok: bool, q: nat, i: nat)
    requires p < |s.procs| && PcOk(s, s.procs[p].pc) && Going(s, c, p, ok) && KinOk(s, p)
    requires q < |s.procs| && p != q && s.procs[q].pc.WaitHas? && s.procs[q].cpu.Some? && i < |s.procs| && s.procs[i].parent == Some(q)
    ensures Stepped(s, c, p, ok, i).parent == Some(q)
  {
    hide Core, MayGo, Stepped, PcOk, NextPc, Target, PLockOf;
    ParentChange(s, c, p, ok, i);
    if SpinOf(s.procs[p].pc) == Some(SpinWait) {
      SpinUnique(s, p, q, SpinWait);
    }
  }

  lemma ForkKin(s: World, c: nat, p: nat, ok: bool, q: nat)
    requires Going(s, c, p, ok) && q < |s.procs| && p != q && s.procs[q].pc.ForkHas? && KinOk(s, q) && BuildOk(s, p) && BuildOk(s, q)
    ensures Stepped(s, c, p, ok, s.procs[q].pc.i).parent.None?
  {
    hide Core, MayGo, PcOk, NextPc, Effect, Target;
    EffectParent(s, p, ok);
    ExitSetTarget(s, p);
  }

  lemma KinOwn(s: World, c: nat, p: nat, ok: bool)
    requires p < |s.procs| && PcOk(s, s.procs[p].pc) && Parents(s) && KinOk(s, p)
    ensures |Went(s, c, p, ok).procs| == |s.procs| && KinOk(Went(s, c, p, ok), p)
  {
    var s' := Went(s, c, p, ok);
    forall i | 0 <= i < |s.procs| && s.procs[i].state.Unused? ensures s.procs[i].parent.None? {
      assert ParentOk(s, i);
    }
    hide Went, Stepped, NextPc, PcOk, Parents, Live, WaitsOn;
    WentAt(s, c, p, ok, p);
    OwnPc(s, c, p, ok);
    KinNext(s, c, p, ok);
    if s'.procs[p].pc.WaitHas? || s'.procs[p].pc.ForkHas? {
      WentAt(s, c, p, ok, s'.procs[p].pc.i);
    }
  }

  lemma KinOther(s: World, c: nat, p: nat, ok: bool, q: nat)
    requires Going(s, c, p, ok) && q < |s.procs| && KinOk(s, p) && KinOk(s, q) && p != q
    ensures |Went(s, c, p, ok).procs| == |s.procs| && KinOk(Went(s, c, p, ok), q)
  {
    hide Going, Went, Stepped, PcOk, BuildOk, Live, WaitsOn;
    GoingAt(s, c, p, ok, q);
    var s' := Went(s, c, p, ok);
    WentAt(s, c, p, ok, q);
    NewPc(s, p, ok, q);
    SteppedCpu(s, c, p, ok, q);
    var pc := s'.procs[q].pc;
    if pc.WaitHas? {
      WaitKin(s, c, p, ok, q, pc.i);
      WentAt(s, c, p, ok, pc.i);
    } else if pc.ForkHas? {
      ForkKin(s, c, p, ok, q);
      WentAt(s, c, p, ok, pc.i);
    }
  }

  lemma SteppedCpu(s: World, c: nat, p: nat, ok: bool, q: nat)
    requires p < |s.procs| && q < |s.procs| && PcOk(s, s.procs[p].pc)
    ensures Stepped(s, c, p, ok, q) == Stepped(s, 0, p, ok, q)
  {
    hide PcOk, NextPc, Effect, Target;
  }

  lemma TurnedKin(s: World, s': World, q: nat)
    requires Core(s) && AllTurned(s, s') && q < |s.procs| && KinOk(s, q)
    ensures KinOk(s', q)
  {
    assert StateOk(s.procs[q]) && Turned(s.procs[q], s'.procs[q]);
    forall i | 0 <= i < |s.procs| ensures s'.procs[i].parent == s.procs[i].parent {
      assert Turned(s.procs[i], s'.procs[i]);
      hide Turned;
      TurnedChan(s.procs[i], s'.procs[i]);
    }
    hide Core, AllTurned;
  }

  lemma KeepsKin(s: World, c: nat, a: Act)
    requires Core(s) && Can(s, c, a) && Parents(s) && Kin(s)
    ensures Kin(Do(s, c, a))
  {
    var s' := Do(s, c, a);
    if a.Go? {
      IsGoing(s, c, a.ok);
      var p := s.cpus[c].p;
      hide Core, Do, Can, Went, Parents, KinOk, MayGo, PcOk;
      WentSizes(s, c, p, a.ok);
      forall q | 0 <= q < |s.procs| ensures KinOk(s', q) {
        assert KinOk(s, p) && KinOk(s, q);
        if q == p {
          KinOwn(s, c, p, a.ok);
        } else {
          KinOther(s, c, p, a.ok, q);
        }
      }
    } else {
      IsTurned(s, c, a);
      hide Core, Do, Can, Parents, KinOk, Turned, PcOk;
      forall q | 0 <= q < |s.procs| ensures KinOk(s', q) {
        assert KinOk(s, q);
        TurnedKin(s, s', q);
      }
    }
  }

  lemma KeepsParents(s: World, c: nat, a: Act)
    requires Core(s) && Can(s, c, a) && Parents(s)
    ensures Parents(Do(s, c, a))
  {
    if a.Go? {
      IsGoing(s, c, a.ok);
      hide Core, Do, Can, Went, Parents, Going;
      GoParents(s, c, s.cpus[c].p, a.ok);
    } else {
      hide Core, Do, Can, Parents;
      TurnedParents(s, c, a);
    }
  }
}
