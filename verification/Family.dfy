/** A run from boot in which init forks, the child exits and wait answers. */
module Family {
  import opened Wrappers
  import opened Proc

  lemma Then(s: World, a: Act)
    requires Reachable(s) && Can(s, 0, a)
    ensures Reachable(Do(s, 0, a))
  {
    var tr :| Reaches(tr, s);
    hide Can, Do, Init;
    var tr' := tr + [Do(s, 0, a)];
    assert tr'[..|tr'| - 1] == tr;
    assert Next(s, Do(s, 0, a));
    assert Reaches(tr', Do(s, 0, a));
  }

  /** The record of process q after a step of process p on CPU 0. */
  function After(s: World, p: nat, ok: bool, q: nat): Proc
    requires p < |s.procs| && q < |s.procs| && PcOk(s, s.procs[p].pc)
  {
    var pc := NextPc(s, p, ok);
    var x := if q == Target(s, p) then Effect(s, p, ok) else s.procs[q];
    x.(pc := if q == p then pc else x.pc, lock := Relock(x.lock, 0, q, PLockOf(s.procs[p].pc, p), PLockOf(pc, p)))
  }

  function Gone(s: World, p: nat, ok: bool): World
    requires p < |s.procs| == 2 && PcOk(s, s.procs[p].pc)
  {
    Data(s, p, ok).(procs := [After(s, p, ok, 0), After(s, p, ok, 1)], lks := [],
      wait := Relock(s.wait, 0, SpinWait, SpinOf(s.procs[p].pc), SpinOf(NextPc(s, p, ok))))
  }

  lemma NoLks(s: World, p: nat)
    requires p < |s.procs| && s.lks == [] && PcOk(s, s.procs[p].pc)
    ensures LksAfter(s, p) == []
  {
  }

  lemma MovedAt(s: World, p: nat, ok: bool, q: nat)
    requires p < |s.procs| && q < |s.procs| && PcOk(s, s.procs[p].pc) && (Target(s, p) == p ==> Effect(s, p, ok).pc == s.procs[p].pc)
    ensures |Went(s, 0, p, ok).procs| == |s.procs| && Went(s, 0, p, ok).procs[q] == After(s, p, ok, q)
  {
    hide Effect, NextPc, PcOk, SpinOf, PLockOf, LksAfter, Target, MovedLks, MovedProcs;
    var s1 := Data(s, p, ok);
    assert s1.procs[p].pc == s.procs[p].pc;
  }

  lemma MovedRest(s: World, p: nat, ok: bool)
    requires p < |s.procs| && PcOk(s, s.procs[p].pc) && LksAfter(s, p) == [] && (Target(s, p) == p ==> Effect(s, p, ok).pc == s.procs[p].pc)
    ensures var s' := Went(s, 0, p, ok);
      s' == Data(s, p, ok).(procs := s'.procs, lks := [], wait := Relock(s.wait, 0, SpinWait, SpinOf(s.procs[p].pc), SpinOf(NextPc(s, p, ok))))
  {
    hide Effect, NextPc, PcOk, SpinOf, PLockOf, Relock, LksAfter, Target, MovedProcs;
  }

  lemma MovedGone(s: World, p: nat, ok: bool)
    requires p < |s.procs| == 2 && s.lks == [] && PcOk(s, s.procs[p].pc) && (Target(s, p) == p ==> Effect(s, p, ok).pc == s.procs[p].pc)
    ensures Went(s, 0, p, ok) == Gone(s, p, ok)
  {
    hide Effect, NextPc, PcOk, SpinOf, PLockOf, Relock, LksAfter, Target, Went, Data, After;
    NoLks(s, p);
    MovedAt(s, p, ok, 0);
    MovedAt(s, p, ok, 1);
    MovedRest(s, p, ok);
    assert Went(s, 0, p, ok).procs == [After(s, p, ok, 0), After(s, p, ok, 1)];
  }

  lemma Goes(s: World, p: nat, ok: bool)
    requires Reachable(s) && p < |s.procs| == 2 && s.cpus == [On(p)] && s.lks == [] && PcOk(s, s.procs[p].pc) && MayGo(s, p, ok)
    requires Target(s, p) == p ==> Effect(s, p, ok).pc == s.procs[p].pc
    ensures Reachable(Gone(s, p, ok))
  {
    hide Effect, PcOk, Reachable, Went, Gone, Target, MayGo;
    Then(s, Go(ok));
    MovedGone(s, p, ok);
  }

  lemma Leap(s: World, p: nat, ok: bool, s': World)
    requires Reachable(s) && p < |s.procs| == 2 && s.cpus == [On(p)] && s.lks == [] && PcOk(s, s.procs[p].pc) && MayGo(s, p, ok)
    requires Target(s, p) == p ==> Effect(s, p, ok).pc == s.procs[p].pc
    requires s' == Gone(s, p, ok)
    ensures Reachable(s')
  {
    hide Effect, PcOk, Reachable, Gone, Target, MayGo;
    Goes(s, p, ok);
  }

  // ----- the run -----

  /** One CPU, init in slot 0 and a slot for the child. */
  function Machine(x: Proc, y: Proc, cpu: Cpu, wait: Option<nat>, nextpid: nat, exits: map<nat, int>, reaped: seq<Reap>, forker: map<nat, nat>): World {
    World([x, y], [cpu], [], wait, nextpid, exits, reaped, forker)
  }

  /** init on the CPU. */
  function Root(pc: Pc, lock: Option<nat>): Proc { Proc(Running, NoChan, lock, pc, None, 1, 0, false, Some(0), {}, 0) }

  /** init off the CPU, in wait. */
  function Asleep(state: PState, lock: Option<nat>): Proc { Proc(state, OnProc(0), lock, SleepOff(OnProc(0)), None, 1, 0, false, None, {}, 0) }

  /** The child off the CPU. */
  function Kid(state: PState, parent: Option<nat>, lock: Option<nat>): Proc { Proc(state, NoChan, lock, YieldOff(Idle), parent, 2, 0, false, None, {}, 0) }

  /** The child on the CPU. */
  function Live(pc: Pc, lock: Option<nat>): Proc { Proc(Running, NoChan, lock, pc, Some(0), 2, 0, false, Some(0), {}, 0) }

  function Dead(pc: Pc, cpu: Option<nat>, lock: Option<nat>, status: int): Proc { Proc(Zombie, NoChan, lock, pc, Some(0), 2, status, false, cpu, {}, 0) }

  lemma Booted()
    ensures Reachable(Machine(Fresh(Runnable, 1), Fresh(Unused, 0), Scan, None, 2, map[], [], map[]))
  {
    var s := Machine(Fresh(Runnable, 1), Fresh(Unused, 0), Scan, None, 2, map[], [], map[]);
    assert Reaches([s], s);
  }

  /** init runs. */
  lemma Start()
    ensures Reachable(Machine(Root(Idle, None), Fresh(Unused, 0), On(0), None, 2, map[], [], map[]))
  {
    hide Reachable;
    Booted();
    var s0 := Machine(Fresh(Runnable, 1), Fresh(Unused, 0), Scan, None, 2, map[], [], map[]);
    var s1 := Machine(Fresh(Runnable, 1).(lock := Some(0)), Fresh(Unused, 0), Has(0), None, 2, map[], [], map[]);
    Then(s0, Pick(0));
    assert Do(s0, 0, Pick(0)) == s1;
    var s2 := Machine(Root(YieldOff(Idle), Some(0)), Fresh(Unused, 0), On(0), None, 2, map[], [], map[]);
    Then(s1, Dispatch);
    assert Do(s1, 0, Dispatch) == s2;
    var s3 := Machine(Root(Idle, None), Fresh(Unused, 0), On(0), None, 2, map[], [], map[]);
    Leap(s2, 0, true, s3);
  }

  /** init calls fork, whose scan passes init's slot. */
  lemma Allocates()
    requires Reachable(Machine(Root(Idle, None), Fresh(Unused, 0), On(0), None, 2, map[], [], map[]))
    ensures Reachable(Machine(Root(ForkScan([Running]), None), Fresh(Unused, 0), On(0), None, 2, map[], [], map[]))
  {
    hide Reachable;
    var s0 := Machine(Root(Idle, None), Fresh(Unused, 0), On(0), None, 2, map[], [], map[]);
    var s1 := Machine(Root(ForkScan([]), None), Fresh(Unused, 0), On(0), None, 2, map[], [], map[]);
    Then(s0, Call(ForkScan([])));
    assert Do(s0, 0, Call(ForkScan([]))) == s1;
    var s2 := Machine(Root(ForkTry([]), Some(0)), Fresh(Unused, 0), On(0), None, 2, map[], [], map[]);
    Leap(s1, 0, true, s2);
    var s3 := Machine(Root(ForkScan([Running]), None), Fresh(Unused, 0), On(0), None, 2, map[], [], map[]);
    assert s3.procs[0].pc.seen == s2.procs[0].pc.seen + [Running];
    Leap(s2, 0, true, s3);
  }

  /** It takes the other slot. */
  lemma Finds()
    requires Reachable(Machine(Root(ForkScan([Running]), None), Fresh(Unused, 0), On(0), None, 2, map[], [], map[]))
    ensures Reachable(Machine(Root(ForkHas(1), None), Kid(Used, None, Some(0)), On(0), None, 3, map[], [], map[]))
  {
    hide Reachable;
    var s0 := Machine(Root(ForkScan([Running]), None), Fresh(Unused, 0), On(0), None, 2, map[], [], map[]);
    var s1 := Machine(Root(ForkTry([Running]), None), Fresh(Unused, 0).(lock := Some(0)), On(0), None, 2, map[], [], map[]);
    Leap(s0, 0, true, s1);
    var s2 := Machine(Root(ForkHas(1), None), Kid(Used, None, Some(0)), On(0), None, 3, map[], [], map[]);
    Leap(s1, 0, true, s2);
  }

  /** fork makes the child one of init. */
  lemma Forks()
    requires Reachable(Machine(Root(ForkHas(1), None), Kid(Used, None, Some(0)), On(0), None, 3, map[], [], map[]))
    ensures Reachable(Machine(Root(ForkLock(1), None), Kid(Used, Some(0), None), On(0), None, 3, map[], [], map[2 := 1]))
  {
    hide Reachable;
    var s0 := Machine(Root(ForkHas(1), None), Kid(Used, None, Some(0)), On(0), None, 3, map[], [], map[]);
    var s1 := Machine(Root(ForkWait(1), None), Kid(Used, None, None), On(0), None, 3, map[], [], map[]);
    Leap(s0, 0, true, s1);
    var s2 := Machine(Root(ForkParent(1), None), Kid(Used, None, None), On(0), Some(0), 3, map[], [], map[]);
    Leap(s1, 0, true, s2);
    var s3 := Machine(Root(ForkLock(1), None), Kid(Used, Some(0), None), On(0), None, 3, map[], [], map[2 := 1]);
    Leap(s2, 0, true, s3);
  }

  /** It makes the child runnable and returns its pid. */
  lemma Readies()
    requires Reachable(Machine(Root(ForkLock(1), None), Kid(Used, Some(0), None), On(0), None, 3, map[], [], map[2 := 1]))
    ensures Reachable(Machine(Root(Idle, None), Kid(Runnable, Some(0), None), On(0), None, 3, map[], [], map[2 := 1]))
  {
    hide Reachable;
    var s0 := Machine(Root(ForkLock(1), None), Kid(Used, Some(0), None), On(0), None, 3, map[], [], map[2 := 1]);
    var s1 := Machine(Root(ForkRun(1), None), Kid(Used, Some(0), Some(0)), On(0), None, 3, map[], [], map[2 := 1]);
    Leap(s0, 0, true, s1);
    var s2 := Machine(Root(ForkRet(Child(2)), None), Kid(Runnable, Some(0), None), On(0), None, 3, map[], [], map[2 := 1]);
    Leap(s1, 0, true, s2);
    var s3 := Machine(Root(Idle, None), Kid(Runnable, Some(0), None), On(0), None, 3, map[], [], map[2 := 1]);
    Leap(s2, 0, true, s3);
  }

  /** init calls wait, which passes init's own slot. */
  lemma Looks()
    requires Reachable(Machine(Root(Idle, None), Kid(Runnable, Some(0), None), On(0), None, 3, map[], [], map[2 := 1]))
    ensures Reachable(Machine(Root(WaitScan(1, false), None), Kid(Runnable, Some(0), None), On(0), Some(0), 3, map[], [], map[2 := 1]))
  {
    hide Reachable;
    var s0 := Machine(Root(Idle, None), Kid(Runnable, Some(0), None), On(0), None, 3, map[], [], map[2 := 1]);
    var s1 := Machine(Root(WaitEnter, None), Kid(Runnable, Some(0), None), On(0), None, 3, map[], [], map[2 := 1]);
    Then(s0, Call(WaitEnter));
    assert Do(s0, 0, Call(WaitEnter)) == s1;
    var s2 := Machine(Root(WaitScan(0, false), None), Kid(Runnable, Some(0), None), On(0), Some(0), 3, map[], [], map[2 := 1]);
    Leap(s1, 0, true, s2);
    var s3 := Machine(Root(WaitScan(1, false), None), Kid(Runnable, Some(0), None), On(0), Some(0), 3, map[], [], map[2 := 1]);
    Leap(s2, 0, true, s3);
  }

  /** It finds a child that is not dead. */
  lemma Passes()
    requires Reachable(Machine(Root(WaitScan(1, false), None), Kid(Runnable, Some(0), None), On(0), Some(0), 3, map[], [], map[2 := 1]))
    ensures Reachable(Machine(Root(WaitScan(2, true), None), Kid(Runnable, Some(0), None), On(0), Some(0), 3, map[], [], map[2 := 1]))
  {
    hide Reachable;
    var s0 := Machine(Root(WaitScan(1, false), None), Kid(Runnable, Some(0), None), On(0), Some(0), 3, map[], [], map[2 := 1]);
    var s1 := Machine(Root(WaitHas(1), None), Kid(Runnable, Some(0), Some(0)), On(0), Some(0), 3, map[], [], map[2 := 1]);
    Leap(s0, 0, true, s1);
    var s2 := Machine(Root(WaitScan(2, true), None), Kid(Runnable, Some(0), None), On(0), Some(0), 3, map[], [], map[2 := 1]);
    Leap(s1, 0, true, s2);
  }

  /** wait sleeps. */
  lemma Sleeps()
    requires Reachable(Machine(Root(WaitScan(2, true), None), Kid(Runnable, Some(0), None), On(0), Some(0), 3, map[], [], map[2 := 1]))
    ensures Reachable(Machine(Root(SleepSet(OnProc(0)), Some(0)), Kid(Runnable, Some(0), None), On(0), None, 3, map[], [], map[2 := 1]))
  {
    hide Reachable;
    var s0 := Machine(Root(WaitScan(2, true), None), Kid(Runnable, Some(0), None), On(0), Some(0), 3, map[], [], map[2 := 1]);
    var s1 := Machine(Root(SleepLock(OnProc(0)), None), Kid(Runnable, Some(0), None), On(0), Some(0), 3, map[], [], map[2 := 1]);
    Leap(s0, 0, true, s1);
    var s2 := Machine(Root(SleepRel(OnProc(0)), Some(0)), Kid(Runnable, Some(0), None), On(0), Some(0), 3, map[], [], map[2 := 1]);
    Leap(s1, 0, true, s2);
    var s3 := Machine(Root(SleepSet(OnProc(0)), Some(0)), Kid(Runnable, Some(0), None), On(0), None, 3, map[], [], map[2 := 1]);
    Leap(s2, 0, true, s3);
  }

  /** init leaves the CPU. */
  lemma Leaves()
    requires Reachable(Machine(Root(SleepSet(OnProc(0)), Some(0)), Kid(Runnable, Some(0), None), On(0), None, 3, map[], [], map[2 := 1]))
    ensures Reachable(Machine(Asleep(Sleeping, None), Kid(Runnable, Some(0), None), Scan, None, 3, map[], [], map[2 := 1]))
  {
    hide Reachable;
    var s0 := Machine(Root(SleepSet(OnProc(0)), Some(0)), Kid(Runnable, Some(0), None), On(0), None, 3, map[], [], map[2 := 1]);
    var s1 := Machine(Root(SleepSched(OnProc(0)), Some(0)).(state := Sleeping, chan := OnProc(0)), Kid(Runnable, Some(0), None), On(0), None, 3, map[], [], map[2 := 1]);
    Leap(s0, 0, true, s1);
    var s2 := Machine(Asleep(Sleeping, Some(0)), Kid(Runnable, Some(0), None), Back(0), None, 3, map[], [], map[2 := 1]);
    Then(s1, Swtch);
    assert Do(s1, 0, Swtch) == s2;
    var s3 := Machine(Asleep(Sleeping, None), Kid(Runnable, Some(0), None), Scan, None, 3, map[], [], map[2 := 1]);
    Then(s2, Return);
    assert Do(s2, 0, Return) == s3;
  }

  /** The child runs. */
  lemma Runs(status: int)
    requires Reachable(Machine(Asleep(Sleeping, None), Kid(Runnable, Some(0), None), Scan, None, 3, map[], [], map[2 := 1]))
    ensures Reachable(Machine(Asleep(Sleeping, None), Live(Idle, None), On(1), None, 3, map[], [], map[2 := 1]))
  {
    hide Reachable;
    var s0 := Machine(Asleep(Sleeping, None), Kid(Runnable, Some(0), None), Scan, None, 3, map[], [], map[2 := 1]);
    var s1 := Machine(Asleep(Sleeping, None), Kid(Runnable, Some(0), Some(0)), Has(1), None, 3, map[], [], map[2 := 1]);
    Then(s0, Pick(1));
    assert Do(s0, 0, Pick(1)) == s1;
    var s2 := Machine(Asleep(Sleeping, None), Live(YieldOff(Idle), Some(0)), On(1), None, 3, map[], [], map[2 := 1]);
    Then(s1, Dispatch);
    assert Do(s1, 0, Dispatch) == s2;
    var s3 := Machine(Asleep(Sleeping, None), Live(Idle, None), On(1), None, 3, map[], [], map[2 := 1]);
    Leap(s2, 1, true, s3);
  }

  /** It calls exit, with no children to give away. */
  lemma Gives(status: int)
    requires Reachable(Machine(Asleep(Sleeping, None), Live(Idle, None), On(1), None, 3, map[], [], map[2 := 1]))
    ensures Reachable(Machine(Asleep(Sleeping, None), Live(Reparent(2, status), None), On(1), Some(0), 3, map[], [], map[2 := 1]))
  {
    hide Reachable;
    var s0 := Machine(Asleep(Sleeping, None), Live(Idle, None), On(1), None, 3, map[], [], map[2 := 1]);
    var s1 := Machine(Asleep(Sleeping, None), Live(ExitEnter(status), None), On(1), None, 3, map[], [], map[2 := 1]);
    Then(s0, Call(ExitEnter(status)));
    assert Do(s0, 0, Call(ExitEnter(status))) == s1;
    var s2 := Machine(Asleep(Sleeping, None), Live(Reparent(0, status), None), On(1), Some(0), 3, map[], [], map[2 := 1]);
    Leap(s1, 1, true, s2);
    var s3 := Machine(Asleep(Sleeping, None), Live(Reparent(1, status), None), On(1), Some(0), 3, map[], [], map[2 := 1]);
    Leap(s2, 1, true, s3);
    var s4 := Machine(Asleep(Sleeping, None), Live(Reparent(2, status), None), On(1), Some(0), 3, map[], [], map[2 := 1]);
    Leap(s3, 1, true, s4);
  }

  /** exit wakes the parent. */
  lemma Wakes(status: int)
    requires Reachable(Machine(Asleep(Sleeping, None), Live(Reparent(2, status), None), On(1), Some(0), 3, map[], [], map[2 := 1]))
    ensures Reachable(Machine(Asleep(Runnable, None), Live(ExitLock(status), None), On(1), Some(0), 3, map[], [], map[2 := 1]))
  {
    hide Reachable;
    var s0 := Machine(Asleep(Sleeping, None), Live(Reparent(2, status), None), On(1), Some(0), 3, map[], [], map[2 := 1]);
    var s1 := Machine(Asleep(Sleeping, None), Live(Wake(ByExit(0, status), 0), None), On(1), Some(0), 3, map[], [], map[2 := 1]);
    Leap(s0, 1, true, s1);
    var s2 := Machine(Asleep(Sleeping, Some(0)), Live(WakeHas(ByExit(0, status), 0), None), On(1), Some(0), 3, map[], [], map[2 := 1]);
    Leap(s1, 1, true, s2);
    var s3 := Machine(Asleep(Runnable, None), Live(Wake(ByExit(0, status), 1), None), On(1), Some(0), 3, map[], [], map[2 := 1]);
    Leap(s2, 1, true, s3);
    var s4 := Machine(Asleep(Runnable, None), Live(Wake(ByExit(0, status), 2), None), On(1), Some(0), 3, map[], [], map[2 := 1]);
    Leap(s3, 1, true, s4);
    var s5 := Machine(Asleep(Runnable, None), Live(ExitLock(status), None), On(1), Some(0), 3, map[], [], map[2 := 1]);
    Leap(s4, 1, true, s5);
  }

  /** The child is a zombie. */
  lemma Exits(status: int)
    requires Reachable(Machine(Asleep(Runnable, None), Live(ExitLock(status), None), On(1), Some(0), 3, map[], [], map[2 := 1]))
    ensures Reachable(Machine(Asleep(Runnable, None), Dead(ExitOff, None, None, status), Scan, None, 3, map[2 := status], [], map[2 := 1]))
  {
    hide Reachable;
    var s0 := Machine(Asleep(Runnable, None), Live(ExitLock(status), None), On(1), Some(0), 3, map[], [], map[2 := 1]);
    var s1 := Machine(Asleep(Runnable, None), Live(ExitSet(status), Some(0)), On(1), Some(0), 3, map[], [], map[2 := 1]);
    Leap(s0, 1, true, s1);
    var s2 := Machine(Asleep(Runnable, None), Dead(ExitRel, Some(0), Some(0), status), On(1), Some(0), 3, map[2 := status], [], map[2 := 1]);
    Leap(s1, 1, true, s2);
    var s3 := Machine(Asleep(Runnable, None), Dead(ExitSched, Some(0), Some(0), status), On(1), None, 3, map[2 := status], [], map[2 := 1]);
    Leap(s2, 1, true, s3);
    var s4 := Machine(Asleep(Runnable, None), Dead(ExitOff, None, Some(0), status), Back(1), None, 3, map[2 := status], [], map[2 := 1]);
    Then(s3, Swtch);
    assert Do(s3, 0, Swtch) == s4;
    var s5 := Machine(Asleep(Runnable, None), Dead(ExitOff, None, None, status), Scan, None, 3, map[2 := status], [], map[2 := 1]);
    Then(s4, Return);
    assert Do(s4, 0, Return) == s5;
  }

  /** init wakes up in wait. */
  lemma Reaps(status: int)
    requires Reachable(Machine(Asleep(Runnable, None), Dead(ExitOff, None, None, status), Scan, None, 3, map[2 := status], [], map[2 := 1]))
    ensures Reachable(Machine(Root(WaitEnter, None), Dead(ExitOff, None, None, status), On(0), None, 3, map[2 := status], [], map[2 := 1]))
  {
    hide Reachable;
    var s0 := Machine(Asleep(Runnable, None), Dead(ExitOff, None, None, status), Scan, None, 3, map[2 := status], [], map[2 := 1]);
    var s1 := Machine(Asleep(Runnable, Some(0)), Dead(ExitOff, None, None, status), Has(0), None, 3, map[2 := status], [], map[2 := 1]);
    Then(s0, Pick(0));
    assert Do(s0, 0, Pick(0)) == s1;
    var s2 := Machine(Root(SleepOff(OnProc(0)), Some(0)).(chan := OnProc(0)), Dead(ExitOff, None, None, status), On(0), None, 3, map[2 := status], [], map[2 := 1]);
    Then(s1, Dispatch);
    assert Do(s1, 0, Dispatch) == s2;
    var s3 := Machine(Root(WaitEnter, None), Dead(ExitOff, None, None, status), On(0), None, 3, map[2 := status], [], map[2 := 1]);
    Leap(s2, 0, true, s3);
  }

  /** It reaps the child. */
  lemma Answers(status: int)
    requires Reachable(Machine(Root(WaitEnter, None), Dead(ExitOff, None, None, status), On(0), None, 3, map[2 := status], [], map[2 := 1]))
    ensures Reachable(Machine(Root(WaitRet(Answered(2, status)), None), Fresh(Unused, 0).(pc := ExitOff), On(0), Some(0), 3, map[2 := status], [Reap(2, status, 1)], map[2 := 1]))
  {
    hide Reachable;
    var s0 := Machine(Root(WaitEnter, None), Dead(ExitOff, None, None, status), On(0), None, 3, map[2 := status], [], map[2 := 1]);
    var s1 := Machine(Root(WaitScan(0, false), None), Dead(ExitOff, None, None, status), On(0), Some(0), 3, map[2 := status], [], map[2 := 1]);
    Leap(s0, 0, true, s1);
    var s2 := Machine(Root(WaitScan(1, false), None), Dead(ExitOff, None, None, status), On(0), Some(0), 3, map[2 := status], [], map[2 := 1]);
    Leap(s1, 0, true, s2);
    var s3 := Machine(Root(WaitHas(1), None), Dead(ExitOff, None, Some(0), status), On(0), Some(0), 3, map[2 := status], [], map[2 := 1]);
    Leap(s2, 0, true, s3);
    var s4 := Machine(Root(WaitRet(Answered(2, status)), None), Fresh(Unused, 0).(pc := ExitOff), On(0), Some(0), 3, map[2 := status], [Reap(2, status, 1)], map[2 := 1]);
    Leap(s3, 0, true, s4);
  }

  /** A run from boot in which init forks a child, the child exits with any given status,
      and wait returns to init the child's pid and that status. */
  lemma ForkExitWait(status: int) returns (s: World)
    ensures Reachable(s) && |s.procs| == 2 && s.procs[INIT].pc == WaitRet(Answered(2, status))
    ensures s.forker == map[2 := s.procs[INIT].pid] && s.exits == map[2 := status] && s.reaped == [Reap(2, status, s.procs[INIT].pid)]
    ensures s.procs[1].state.Unused?
  {
    hide Reachable;
    Start();
    Allocates();
    Finds();
    Forks();
    Readies();
    Looks();
    Passes();
    Sleeps();
    Leaves();
    Runs(status);
    Gives(status);
    Wakes(status);
    Exits(status);
    Reaps(status);
    Answers(status);
    s := Machine(Root(WaitRet(Answered(2, status)), None), Fresh(Unused, 0).(pc := ExitOff), On(0), Some(0), 3, map[2 := status], [Reap(2, status, 1)], map[2 := 1]);
  }
}
