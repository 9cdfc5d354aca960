/** Sleeplocks over the process machine: at most one holder, and no sleeper is left
    behind on a free lock. */
module Sleeplock {
  import opened Wrappers
  import opened Proc
  import opened ProcInv
  import opened Wakeup

  /** The sleeplock a process has found locked and is about to sleep on, its lk held. */
  function FoundLocked(pc: Pc): Option<nat> {
    match pc case SleepLock(OnLk(l)) => Some(l) case SleepRel(OnLk(l)) => Some(l) case _ => None
  }

  /** The sleeplock a process is about to release. */
  function Releases(pc: Pc): Option<nat> {
    match pc
    case Leave(l) => Some(l)
    case Drop(l) => Some(l)
    case YieldLock(b) => Releases(b)
    case YieldSet(b) => Releases(b)
    case YieldSched(b) => Releases(b)
    case YieldOff(b) => Releases(b)
    case _ => None
  }

  predicate FoundOk(s: World, p: nat)
    requires p < |s.procs|
  {
    var l := FoundLocked(s.procs[p].pc); l.Some? ==> l.value < |s.lks| && s.lks[l.value].locked
  }

  predicate HolderOk(s: World, p: nat)
    requires p < |s.procs|
  {
    (forall l :: l in s.procs[p].held ==> l < |s.lks| && s.lks[l].locked && s.lks[l].owner == p)
    && (Releases(s.procs[p].pc).Some? ==> Releases(s.procs[p].pc).value in s.procs[p].held)
  }

  ghost predicate LksOk(s: World) { forall p :: 0 <= p < |s.procs| ==> FoundOk(s, p) && HolderOk(s, p) }

  // ----- steps that are not the process's own -----

  lemma TurnedLk(x: Proc, x': Proc)
    requires StateOk(x) && Turned(x, x')
    ensures FoundLocked(x'.pc).Some? ==> FoundLocked(x'.pc) == FoundLocked(x.pc)
    ensures Releases(x'.pc).Some? ==> Releases(x'.pc) == Releases(x.pc) || (x.pc.Idle? && x'.pc.Leave?)
    ensures x'.held == x.held
  {
  }

  lemma CallHeld(s: World, c: nat, a: Act, q: nat)
    requires Core(s) && Can(s, c, a) && !a.Go? && q < |s.procs| && s.procs[q].pc.Idle?
    ensures |Do(s, c, a).procs| == |s.procs|
    ensures var x' := Do(s, c, a).procs[q]; x'.pc.Leave? ==> x'.pc.l in x'.held
  {
    hide CpuOk, LockOk, SpinOk, StatesOk, ForksOk, Bounds, PcOk;
  }

  lemma TurnedLks(s: World, c: nat, a: Act)
    requires Core(s) && LksOk(s) && Can(s, c, a) && !a.Go?
    ensures LksOk(Do(s, c, a))
  {
    IsTurned(s, c, a);
    var s' := Do(s, c, a);
    forall q | 0 <= q < |s'.procs| ensures FoundOk(s', q) && HolderOk(s', q) {
      assert FoundOk(s, q) && HolderOk(s, q) && StateOk(s.procs[q]) && Turned(s.procs[q], s'.procs[q]);
      hide Core, Do, Can, Turned, FoundLocked, Releases, StateOk, LksOk;
      TurnedLk(s.procs[q], s'.procs[q]);
      if s.procs[q].pc.Idle? {
        CallHeld(s, c, a, q);
      }
    }
  }

  // ----- steps of a process -----

  /** What a step does to the sleeplocks' flags. */
  lemma WentLks(s: World, c: nat, p: nat, ok: bool, l: nat)
    requires p < |s.procs| && PcOk(s, s.procs[p].pc) && l < |s.lks|
    ensures |Went(s, c, p, ok).lks| == |s.lks| == |LksAfter(s, p)|
    ensures Went(s, c, p, ok).lks[l].locked == LksAfter(s, p)[l].locked && Went(s, c, p, ok).lks[l].owner == LksAfter(s, p)[l].owner
  {
    hide NextPc, Effect, Target, PcOk, SpinOf, PLockOf, Relock, LksAfter;
    LksSize(s, p);
  }

  lemma FoundNext(s: World, p: nat, ok: bool)
    requires p < |s.procs| && PcOk(s, s.procs[p].pc) && FoundOk(s, p) && |LksAfter(s, p)| == |s.lks|
    ensures var l := FoundLocked(NextPc(s, p, ok)); l.Some? ==> l.value < |s.lks| && LksAfter(s, p)[l.value].locked
  {
  }

  lemma FoundOn(x: Proc)
    requires StateOk(x) && FoundLocked(x.pc).Some?
    ensures x.cpu.Some? && SpinOf(x.pc) == Some(SpinLk(FoundLocked(x.pc).value))
  {
  }

  lemma SteppedFound(s: World, c: nat, p: nat, ok: bool, q: nat)
    requires Going(s, c, p, ok) && q < |s.procs| && FoundOk(s, q)
    ensures |LksAfter(s, p)| == |s.lks|
    ensures var l := FoundLocked(Stepped(s, c, p, ok, q).pc); l.Some? ==> l.value < |s.lks| && LksAfter(s, p)[l.value].locked
  {
    LksSize(s, p);
    assert StateOk(s.procs[q]);
    if q == p {
      hide Core, Effect, StateOk, MayGo, NextPc, FoundLocked, LksAfter, PcOk;
      FoundNext(s, p, ok);
    } else {
      NewPc(s, p, ok, q);
      assert Stepped(s, c, p, ok, q) == Stepped(s, 0, p, ok, q);
      hide Core, Stepped, MayGo, SpinOf, StateOk, PcOk, LksAfter, Effect, NextPc;
      var l := FoundLocked(s.procs[q].pc);
      if l.Some? {
        FoundOn(s.procs[q]);
        NoDrop(s, p, q, l.value);
        FlagKept(s, p, l.value);
      }
    }
  }

  /** Nobody releases a sleeplock while another holds its spinlock. */
  lemma NoDrop(s: World, p: nat, q: nat, l: nat)
    requires Core(s) && p < |s.procs| && q < |s.procs| && p != q && s.procs[p].cpu.Some? && s.procs[q].cpu.Some? && SpinOf(s.procs[q].pc) == Some(SpinLk(l))
    ensures s.procs[p].pc != Drop(l)
  {
    hide Core, SpinOf;
    if s.procs[p].pc == Drop(l) {
      DropSpin(s.procs[p].pc);
      SpinUnique(s, p, q, SpinLk(l));
    }
  }

  lemma FlagKept(s: World, p: nat, l: nat)
    requires p < |s.procs| && PcOk(s, s.procs[p].pc) && l < |s.lks| && s.lks[l].locked && s.procs[p].pc != Drop(l)
    ensures |LksAfter(s, p)| == |s.lks| && LksAfter(s, p)[l].locked
  {
  }

  lemma DropSpin(pc: Pc)
    requires pc.Drop?
    ensures SpinOf(pc) == Some(SpinLk(pc.l))
  {
  }

  lemma SteppedHolder(s: World, c: nat, p: nat, ok: bool, q: nat)
    requires Going(s, c, p, ok) && q < |s.procs| && HolderOk(s, q) && HolderOk(s, p)
    ensures |LksAfter(s, p)| == |s.lks|
    ensures forall l :: l in Stepped(s, c, p, ok, q).held ==> l < |s.lks| && LksAfter(s, p)[l].locked && LksAfter(s, p)[l].owner == q
    ensures var l := Releases(Stepped(s, c, p, ok, q).pc); l.Some? ==> l.value in Stepped(s, c, p, ok, q).held
  {
    LksSize(s, p);
    HeldAfter(s, c, p, ok, q);
    ReleasesAfter(s, c, p, ok, q);
  }

  lemma HeldAfter(s: World, c: nat, p: nat, ok: bool, q: nat)
    requires Going(s, c, p, ok) && q < |s.procs| && HolderOk(s, q) && HolderOk(s, p) && |LksAfter(s, p)| == |s.lks|
    ensures forall l :: l in Stepped(s, c, p, ok, q).held ==> l < |s.lks| && LksAfter(s, p)[l].locked && LksAfter(s, p)[l].owner == q
  {
    hide Core, NextPc, MayTake;
  }

  lemma ReleasesAfter(s: World, c: nat, p: nat, ok: bool, q: nat)
    requires Going(s, c, p, ok) && q < |s.procs| && HolderOk(s, q)
    ensures var l := Releases(Stepped(s, c, p, ok, q).pc); l.Some? ==> l.value in Stepped(s, c, p, ok, q).held
  {
    hide Core, MayTake;
  }

  lemma DropNext(s: World, c: nat, p: nat, ok: bool)
    requires p < |s.procs| && PcOk(s, s.procs[p].pc) && s.procs[p].pc.Drop?
    ensures Stepped(s, c, p, ok, p).pc == Wake(ByRelease(s.procs[p].pc.l), 0) && Stepped(s, c, p, ok, p).cpu == s.procs[p].cpu
  {
  }

  /** A process that leaves Drop begins the scan for all waiters. */
  lemma DropScans(s: World, c: nat, p: nat, ok: bool, q: nat)
    requires p < |s.procs| && PcOk(s, s.procs[p].pc) && s.procs[p].cpu.Some? && s.procs[p].pc.Drop?
    ensures |Went(s, c, p, ok).procs| == |s.procs| && Scanning(Went(s, c, p, ok), OnLk(s.procs[p].pc.l), q)
  {
    hide Went, PcOk, Stepped;
    WentProc(s, c, p, ok, p);
    DropNext(s, c, p, ok);
    assert ScanAt(Went(s, c, p, ok), p, OnLk(s.procs[p].pc.l), q);
  }

  lemma GoLk(s: World, c: nat, p: nat, ok: bool, q: nat)
    requires Going(s, c, p, ok) && LksOk(s) && q < |s.procs|
    ensures |Went(s, c, p, ok).procs| == |s.procs| && FoundOk(Went(s, c, p, ok), q) && HolderOk(Went(s, c, p, ok), q)
  {
    var s' := Went(s, c, p, ok);
    assert FoundOk(s, q) && HolderOk(s, q) && HolderOk(s, p);
    hide Core, Can, FoundLocked, Releases, LksOk, Went, Stepped, MayGo, LksAfter, PcOk;
    WentProc(s, c, p, ok, q);
    SteppedFound(s, c, p, ok, q);
    SteppedHolder(s, c, p, ok, q);
    forall l: nat | l < |s.lks| ensures |s'.lks| == |s.lks| && s'.lks[l].locked == LksAfter(s, p)[l].locked && s'.lks[l].owner == LksAfter(s, p)[l].owner {
      WentLks(s, c, p, ok, l);
    }
  }

  lemma GoLks(s: World, c: nat, ok: bool)
    requires Core(s) && LksOk(s) && Can(s, c, Go(ok))
    ensures LksOk(Do(s, c, Go(ok)))
  {
    IsGoing(s, c, ok);
    var p := s.cpus[c].p;
    var s' := Do(s, c, Go(ok));
    WentSizes(s, c, p, ok);
    hide Core, Do, Can, Going, Went, FoundOk, HolderOk;
    forall q | 0 <= q < |s'.procs| ensures FoundOk(s', q) && HolderOk(s', q) {
      GoLk(s, c, p, ok, q);
    }
  }

  lemma {:induction false} RunLks(tr: seq<World>)
    requires IsRun(tr)
    ensures LksOk(tr[|tr| - 1])
  {
    hide Core, Can, Do, LksOk;
    if |tr| == 1 {
      InitLks(tr[0]);
    } else {
      RunLks(tr[..|tr| - 1]);
      RunCore(tr[..|tr| - 1]);
      var s := tr[|tr| - 2];
      var c, a :| Can(s, c, a) && tr[|tr| - 1] == Do(s, c, a);
      if a.Go? {
        GoLks(s, c, a.ok);
      } else {
        TurnedLks(s, c, a);
      }
    }
  }

  lemma InitLks(s: World)
    requires Init(s)
    ensures LksOk(s)
  {
  }

  lemma ReachableLks(s: World)
    requires Reachable(s)
    ensures LksOk(s)
  {
    hide LksOk, Init, Next;
    var tr :| Reaches(tr, s);
    RunLks(tr);
  }

  lemma SameLks(s: World, c: nat, a: Act)
    requires Can(s, c, a) && !a.Go?
    ensures Do(s, c, a).lks == s.lks
  {
    hide PcOk;
  }

  /** Only releasesleep frees a sleeplock, and who has found it locked keeps it so. */
  lemma FlagNext(s: World, p: nat, l: nat)
    requires p < |s.procs| && PcOk(s, s.procs[p].pc) && l < |s.lks| && FoundOk(s, p)
    ensures |LksAfter(s, p)| == |s.lks|
    ensures s.lks[l].locked && !LksAfter(s, p)[l].locked ==> s.procs[p].pc == Drop(l)
    ensures s.procs[p].pc == SleepRel(OnLk(l)) ==> LksAfter(s, p)[l].locked
  {
  }

  lemma GoDisciplined(s: World, c: nat, ok: bool, l: nat, q: nat)
    requires Core(s) && LksOk(s) && Can(s, c, Go(ok)) && l < |s.lks| && q < |s.procs|
    ensures |Do(s, c, Go(ok)).lks| == |s.lks| && Disciplined(s, c, Go(ok), OnLk(l), q, !s.lks[l].locked, !Do(s, c, Go(ok)).lks[l].locked)
  {
    IsGoing(s, c, ok);
    var p := s.cpus[c].p;
    assert FoundOk(s, p);
    hide Do, Core, Went, MayGo, WaitsOn, Can, LksOk, Scanning, FoundOk, LksAfter, PcOk;
    WaitsNew(s, c, Go(ok), q);
    WentLks(s, c, p, ok, l);
    FlagNext(s, p, l);
    if s.procs[p].pc == Drop(l) {
      DropScans(s, c, p, ok, q);
    }
  }

  /** A step of acquiresleep, releasesleep or anything else keeps to the rules of sleep and
      wakeup on a sleeplock, with "the lock is free" as the condition. */
  lemma LkDisciplined(s: World, c: nat, a: Act, l: nat, q: nat)
    requires Core(s) && LksOk(s) && Can(s, c, a) && l < |s.lks| && q < |s.procs|
    ensures |Do(s, c, a).lks| == |s.lks| && Disciplined(s, c, a, OnLk(l), q, !s.lks[l].locked, !Do(s, c, a).lks[l].locked)
  {
    hide Core, LksOk, Can, Do, WaitsOn, Scanning;
    if a.Go? {
      GoDisciplined(s, c, a.ok, l, q);
    } else {
      SameLks(s, c, a);
      WaitsNew(s, c, a, q);
    }
  }

  /** No lost wakeup: in every reachable state, while a sleeplock is free and its spinlock
      not held, no process is asleep on it or on its way to be. */
  lemma NoSleeperOnFreeLock(s: World, l: nat, p: nat)
    requires Reachable(s) && l < |s.lks| && p < |s.procs| && s.lks[l].lk.None? && !s.lks[l].locked
    ensures WaitsOn(s.procs[p]) != OnLk(l)
    ensures !(s.procs[p].state.Sleeping? && s.procs[p].chan == OnLk(l))
  {
    hide LksOk, Core, Can, Do, WaitsOn, Scanning, Disciplined, Init;
    var tr: seq<World> :| Reaches(tr, s);
    var conds := seq(|tr|, i requires 0 <= i < |tr| => l < |tr[i].lks| && !tr[i].lks[l].locked);
    RunSizes(tr);
    forall i, c, a | 0 <= i < |tr| - 1 && Can(tr[i], c, a) && tr[i + 1] == Do(tr[i], c, a)
      ensures Disciplined(tr[i], c, a, OnLk(l), p, conds[i], conds[i + 1])
    {
      RunFront(tr, i);
      RunCore(tr[..i + 1]);
      RunLks(tr[..i + 1]);
      LkDisciplined(tr[i], c, a, l, p);
    }
    NoLostWakeup(tr, conds, OnLk(l), p);
  }

  /** Mutual exclusion: in every reachable state at most one process holds a sleeplock,
      and then the lock says so. */
  lemma OneHolder(s: World, l: nat, p: nat, q: nat)
    requires Reachable(s) && p < |s.procs| && q < |s.procs| && l in s.procs[p].held && l in s.procs[q].held
    ensures p == q && l < |s.lks| && s.lks[l].locked && s.lks[l].owner == p
  {
    ReachableLks(s);
    assert HolderOk(s, p) && HolderOk(s, q);
  }
}
