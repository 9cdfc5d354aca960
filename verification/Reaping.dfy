/** Process ids, exit statuses and wait: who returns what, and how often. */
module Reaping {
  import opened Wrappers
  import opened Proc
  import opened ProcInv
  import opened Wakeup
  import opened Lifecycle

  predicate IdRec(x: Proc, nextpid: nat, exits: map<nat, int>) {
    if x.state.Unused? then x.pid == 0 else
      1 <= x.pid < nextpid && (x.pid in exits <==> x.state.Zombie?) && (x.state.Zombie? ==> exits[x.pid] == x.xstate)
  }

  predicate IdOk(s: World, p: nat)
    requires p < |s.procs|
  {
    IdRec(s.procs[p], s.nextpid, s.exits)
  }

  ghost predicate Distinct(s: World) {
    forall p, q :: 0 <= p < q < |s.procs| && !s.procs[p].state.Unused? && !s.procs[q].state.Unused? ==> s.procs[p].pid != s.procs[q].pid
  }

  /** The parent is the process that forked this one, or init. */
  predicate ForkerOk(s: World, q: nat)
    requires q < |s.procs|
  {
    var x := s.procs[q];
    x.parent.Some? ==> x.pid in s.forker && x.parent.value < |s.procs| && (x.parent.value == INIT || s.forker[x.pid] == s.procs[x.parent.value].pid)
  }

  /** An answer of wait: an exited process, with its status, to the process that forked
      it or to init. */
  predicate AnswerOk(s: World, r: Reap) {
    0 < r.pid && r.pid in s.exits && s.exits[r.pid] == r.status && r.pid in s.forker && (r.waiter == s.forker[r.pid] || r.waiter == 1)
  }

  ghost predicate Answers(s: World) {
    (forall k :: 0 <= k < |s.reaped| ==> AnswerOk(s, s.reaped[k]))
    && (forall j, k :: 0 <= j < k < |s.reaped| ==> s.reaped[j].pid != s.reaped[k].pid)
  }

  /** A pid that wait has returned is gone for good. */
  ghost predicate Gone(s: World) {
    forall k, p :: 0 <= k < |s.reaped| && 0 <= p < |s.procs| ==> s.procs[p].pid != s.reaped[k].pid
  }

  ghost predicate Ids(s: World) {
    INIT < |s.procs| && s.procs[INIT].pid == 1 && 1 <= s.nextpid && (forall i :: i in s.exits ==> i < s.nextpid)
    && (forall p :: 0 <= p < |s.procs| ==> IdOk(s, p)) && (forall p :: 0 <= p < |s.procs| ==> ForkerOk(s, p))
    && Distinct(s) && Answers(s) && Gone(s)
  }

  // ----- what a step of a process does -----

  predicate Allocs(s: World, p: nat)
    requires p < |s.procs| && PcOk(s, s.procs[p].pc)
  {
    s.procs[p].pc.ForkTry? && s.procs[Target(s, p)].state.Unused?
  }

  predicate Reaps(s: World, p: nat, ok: bool)
    requires p < |s.procs| && PcOk(s, s.procs[p].pc)
  {
    s.procs[p].pc.WaitHas? && s.procs[Target(s, p)].state.Zombie? && ok
  }

  lemma EffectId(s: World, p: nat, ok: bool)
    requires p < |s.procs| && PcOk(s, s.procs[p].pc) && BuildOk(s, p) && StateOk(s.procs[p]) && s.procs[p].cpu.Some? && !Switching(s.procs[p].pc)
    ensures var x, x' := s.procs[Target(s, p)], Effect(s, p, ok);
      || (Allocs(s, p) && x'.pid == s.nextpid && x'.state.Used?)
      || (x'.pid == 0 && x'.state.Unused? && !x.state.Unused?)
      || (s.procs[p].pc.ExitSet? && Target(s, p) == p && x'.pid == x.pid && x'.state.Zombie? && x'.xstate == s.procs[p].pc.status && x.state.Running?)
      || (!Allocs(s, p) && !s.procs[p].pc.ExitSet? && x'.pid == x.pid && x'.xstate == x.xstate && (x'.state.Zombie? <==> x.state.Zombie?) && (x'.state.Unused? <==> x.state.Unused?))
    ensures Reaps(s, p, ok) ==> Effect(s, p, ok).state.Unused? && Effect(s, p, ok).pid == 0
    ensures Allocs(s, p) ==> Effect(s, p, ok).pid == s.nextpid && Effect(s, p, ok).state.Used?
    ensures s.procs[p].pc.ExitSet? ==> Target(s, p) == p && Effect(s, p, ok).state.Zombie? && Effect(s, p, ok).pid == s.procs[p].pid
  {
  }

  function NextPid(s: World, p: nat): nat
    requires p < |s.procs| && PcOk(s, s.procs[p].pc)
  {
    if Allocs(s, p) then s.nextpid + 1 else s.nextpid
  }

  function ExitsAfter(s: World, p: nat): map<nat, int>
    requires p < |s.procs|
  {
    if s.procs[p].pc.ExitSet? then s.exits[s.procs[p].pid := s.procs[p].pc.status] else s.exits
  }

  function ForkerAfter(s: World, p: nat): map<nat, nat>
    requires p < |s.procs| && PcOk(s, s.procs[p].pc)
  {
    if s.procs[p].pc.ForkParent? then s.forker[s.procs[Target(s, p)].pid := s.procs[p].pid] else s.forker
  }

  function ReapedAfter(s: World, p: nat, ok: bool): seq<Reap>
    requires p < |s.procs| && PcOk(s, s.procs[p].pc)
  {
    var x := s.procs[Target(s, p)];
    if Reaps(s, p, ok) then s.reaped + [Reap(x.pid, x.xstate, s.procs[p].pid)] else s.reaped
  }

  lemma WentMaps(s: World, c: nat, p: nat, ok: bool)
    requires p < |s.procs| && PcOk(s, s.procs[p].pc)
    ensures var s' := Went(s, c, p, ok);
      s'.nextpid == NextPid(s, p) && s'.exits == ExitsAfter(s, p) && s'.forker == ForkerAfter(s, p) && s'.reaped == ReapedAfter(s, p, ok)
  {
    hide Effect, NextPc, Target, PcOk, SpinOf, PLockOf, Relock, LksAfter, MovedProcs, MovedLks;
    ExitSetTarget(s, p);
  }

  /** The conditions under which a process makes a step, as far as its own record goes. */
  predicate Mover(s: World, p: nat) {
    p < |s.procs| && PcOk(s, s.procs[p].pc) && BuildOk(s, p) && StateOk(s.procs[p]) && s.procs[p].cpu.Some? && !Switching(s.procs[p].pc)
  }

  lemma IsMover(s: World, c: nat, p: nat, ok: bool)
    requires Going(s, c, p, ok)
    ensures Mover(s, p)
  {
    hide CpuOk, LockOk, SpinOk, Bounds, MayTake, NextPc, PcOk, BuildOk, StateOk;
    assert BuildOk(s, p) && StateOk(s.procs[p]);
  }

  lemma TargetId(s: World, p: nat, ok: bool)
    requires Mover(s, p) && IdOk(s, Target(s, p)) && 1 <= s.nextpid && forall i :: i in s.exits ==> i < s.nextpid
    ensures IdRec(Effect(s, p, ok), NextPid(s, p), ExitsAfter(s, p))
  {
    hide Effect, NextPc, Target, PcOk, BuildOk, StateOk;
    EffectId(s, p, ok);
  }

  lemma OtherId(s: World, p: nat, q: nat)
    requires p < |s.procs| && q < |s.procs| && PcOk(s, s.procs[p].pc) && IdOk(s, q) && IdOk(s, p)
    requires s.procs[p].pc.ExitSet? ==> q != p && !s.procs[p].state.Unused? && Distinct(s)
    ensures IdRec(s.procs[q], NextPid(s, p), ExitsAfter(s, p))
  {
    hide Target, PcOk;
  }

  lemma GoIds(s: World, c: nat, p: nat, ok: bool, q: nat)
    requires Mover(s, p) && q < |s.procs| && IdOk(s, p) && IdOk(s, q) && IdOk(s, Target(s, p)) && Distinct(s)
    requires 1 <= s.nextpid && forall i :: i in s.exits ==> i < s.nextpid
    ensures IdRec(Stepped(s, c, p, ok, q), NextPid(s, p), ExitsAfter(s, p))
  {
    hide Effect, NextPc, Target, PcOk, BuildOk, NextPid, ExitsAfter;
    if q == Target(s, p) {
      TargetId(s, p, ok);
    } else {
      ExitSetTarget(s, p);
      OtherId(s, p, q);
    }
  }

  /** A pid in the table after a step was there before, under the same process, or is
      new. */
  lemma SteppedPid(s: World, c: nat, p: nat, ok: bool, q: nat)
    requires Mover(s, p) && q < |s.procs|
    ensures var x, x' := s.procs[q], Stepped(s, c, p, ok, q);
      || (x'.pid == s.nextpid && Allocs(s, p) && q == Target(s, p))
      || (x'.pid == 0 && x'.state.Unused?)
      || (x'.pid == x.pid && (x'.state.Unused? <==> x.state.Unused?))
    ensures Reaps(s, p, ok) && q == Target(s, p) ==> Stepped(s, c, p, ok, q).pid == 0
  {
    hide Effect, NextPc, Target, PcOk, BuildOk, StateOk;
    EffectId(s, p, ok);
  }

  lemma GoDistinct(s: World, c: nat, p: nat, ok: bool, i: nat, j: nat)
    requires Mover(s, p) && i < j < |s.procs| && IdOk(s, i) && IdOk(s, j) && Distinct(s)
    requires !Stepped(s, c, p, ok, i).state.Unused? && !Stepped(s, c, p, ok, j).state.Unused?
    ensures Stepped(s, c, p, ok, i).pid != Stepped(s, c, p, ok, j).pid
  {
    hide Mover, Stepped, Target;
    SteppedPid(s, c, p, ok, i);
    SteppedPid(s, c, p, ok, j);
  }

  // ----- parents and answers -----

  /** A live process keeps its pid. */
  lemma LivePid(s: World, c: nat, p: nat, ok: bool, y: nat)
    requires Mover(s, p) && y < |s.procs| && Live(s.procs[y])
    ensures Stepped(s, c, p, ok, y).pid == s.procs[y].pid
  {
    EffectLivePid(s, p, ok);
    hide Effect, NextPc, Target, PcOk, BuildOk, StateOk;
  }

  lemma EffectLivePid(s: World, p: nat, ok: bool)
    requires Mover(s, p)
    ensures Live(s.procs[Target(s, p)]) ==> Effect(s, p, ok).pid == s.procs[Target(s, p)].pid
    ensures Effect(s, p, ok).parent.Some? && !s.procs[Target(s, p)].state.Unused? ==> Effect(s, p, ok).pid == s.procs[Target(s, p)].pid
    ensures s.procs[p].pc.ForkParent? ==> s.procs[Target(s, p)].state.Used? && Effect(s, p, ok).parent == Some(p)
  {
  }

  /** The parent recorded for q is still the forker or init. */
  lemma ForkerStep(s: World, c: nat, p: nat, ok: bool, q: nat)
    requires Mover(s, p) && q < |s.procs| && ForkerOk(s, q) && ParentOk(s, q) && IdOk(s, q) && IdOk(s, Target(s, p)) && Distinct(s) && (s.procs[p].pc.ForkParent? ==> Live(s.procs[p]))
    ensures var x := Stepped(s, c, p, ok, q); x.parent.Some? ==>
      x.pid in ForkerAfter(s, p) && x.parent.value < |s.procs|
      && (x.parent.value == INIT || ForkerAfter(s, p)[x.pid] == Stepped(s, c, p, ok, x.parent.value).pid)
  {
    var x := Stepped(s, c, p, ok, q);
    hide Mover, Effect, NextPc, Target, PcOk, Live;
    EffectParent(s, p, ok);
    EffectLivePid(s, p, ok);
    if x.parent.Some? {
      if s.procs[p].pc.ForkParent? {
        LivePid(s, c, p, ok, p);
      }
      if x.parent == s.procs[q].parent {
        LivePid(s, c, p, ok, x.parent.value);
      }
    }
  }

  /** Old answers stay right: exit and fork write the entries of processes still in the
      table. */
  lemma AnswerKept(s: World, p: nat, r: Reap, s': World)
    requires Mover(s, p) && AnswerOk(s, r) && s'.exits == ExitsAfter(s, p) && s'.forker == ForkerAfter(s, p)
    requires s.procs[p].pid != r.pid && s.procs[Target(s, p)].pid != r.pid
    ensures AnswerOk(s', r)
  {
    hide Mover, Target, PcOk;
  }

  lemma NewAnswer(s: World, p: nat, ok: bool, s': World)
    requires Mover(s, p) && Reaps(s, p, ok) && KinOk(s, p) && IdOk(s, Target(s, p)) && ForkerOk(s, Target(s, p)) && INIT < |s.procs| && s.procs[INIT].pid == 1
    requires s'.exits == ExitsAfter(s, p) && s'.forker == ForkerAfter(s, p)
    ensures var x := s.procs[Target(s, p)]; AnswerOk(s', Reap(x.pid, x.xstate, s.procs[p].pid))
  {
    hide StateOk, PcOk, BuildOk;
  }

  lemma ReapedOld(s: World, p: nat, ok: bool, k: nat)
    requires Mover(s, p) && Ids(s)
    ensures k < |s.reaped| ==> k < |ReapedAfter(s, p, ok)| && ReapedAfter(s, p, ok)[k] == s.reaped[k] && AnswerOk(s, s.reaped[k])
    ensures k < |s.reaped| ==> s.procs[p].pid != s.reaped[k].pid && Target(s, p) < |s.procs| && s.procs[Target(s, p)].pid != s.reaped[k].pid
    ensures s.reaped <= ReapedAfter(s, p, ok) && |ReapedAfter(s, p, ok)| <= |s.reaped| + 1
    ensures |ReapedAfter(s, p, ok)| > |s.reaped| ==> Reaps(s, p, ok)
  {
    hide PcOk, StateOk, BuildOk, IdOk, ForkerOk, AnswerOk, Target;
  }

  lemma AnswerStep(s: World, c: nat, p: nat, ok: bool, k: nat)
    requires Mover(s, p) && Ids(s) && KinOk(s, p) && k < |ReapedAfter(s, p, ok)|
    ensures AnswerOk(Went(s, c, p, ok), ReapedAfter(s, p, ok)[k])
  {
    var s' := Went(s, c, p, ok);
    WentMaps(s, c, p, ok);
    var t := Target(s, p);
    assert IdOk(s, t) && ForkerOk(s, t);
    ReapedOld(s, p, ok, k);
    hide Went, Mover, Target, ExitsAfter, ForkerAfter, PcOk, IdOk, ForkerOk, AnswerOk, KinOk, Distinct, Ids, ReapedAfter;
    if k < |s.reaped| {
      AnswerKept(s, p, s.reaped[k], s');
    } else {
      NewAnswer(s, p, ok, s');
    }
  }

  lemma NewDistinct(s: World, p: nat, ok: bool)
    requires p < |s.procs| && PcOk(s, s.procs[p].pc) && Answers(s) && Gone(s)
    ensures var r := ReapedAfter(s, p, ok); forall j, k :: 0 <= j < k < |r| ==> r[j].pid != r[k].pid
  {
    hide PcOk, AnswerOk;
  }

  lemma AnswersStep(s: World, c: nat, p: nat, ok: bool)
    requires Mover(s, p) && Ids(s) && KinOk(s, p)
    ensures Answers(Went(s, c, p, ok))
  {
    var s' := Went(s, c, p, ok);
    WentMaps(s, c, p, ok);
    NewDistinct(s, p, ok);
    hide Went, Mover, AnswerOk, KinOk, ReapedAfter, Ids;
    forall k | 0 <= k < |s'.reaped| ensures AnswerOk(s', s'.reaped[k]) {
      AnswerStep(s, c, p, ok, k);
    }
  }

  lemma GoneStep(s: World, c: nat, p: nat, ok: bool, k: nat, q: nat)
    requires Mover(s, p) && Ids(s) && k < |ReapedAfter(s, p, ok)| && q < |s.procs|
    ensures Stepped(s, c, p, ok, q).pid != ReapedAfter(s, p, ok)[k].pid
  {
    var t := Target(s, p);
    assert IdOk(s, t) && IdOk(s, q);
    if k < |s.reaped| {
      assert AnswerOk(s, s.reaped[k]);
    }
    hide Mover, Target, Stepped, PcOk, ForkerOk;
    SteppedPid(s, c, p, ok, q);
  }

  lemma ExitsBound(s: World, p: nat)
    requires Mover(s, p) && IdOk(s, p) && !s.procs[p].state.Unused? && forall i :: i in s.exits ==> i < s.nextpid
    ensures forall i :: i in ExitsAfter(s, p) ==> i < NextPid(s, p)
  {
    hide Mover, PcOk, Target;
  }

  lemma MoverLive(s: World, p: nat)
    requires Mover(s, p)
    ensures !s.procs[p].state.Unused? && (s.procs[p].pc.ForkParent? ==> Live(s.procs[p]))
  {
    hide PcOk, BuildOk;
  }

  lemma GoIdsAll(s: World, c: nat, p: nat, ok: bool)
    requires Mover(s, p) && Ids(s) && Parents(s) && KinOk(s, p)
    ensures Ids(Went(s, c, p, ok))
  {
    var s' := Went(s, c, p, ok);
    MoverLive(s, p);
    MoverSizes(s, c, p, ok);
    WentMaps(s, c, p, ok);
    hide Went, Mover, PcOk, Stepped, Target, NextPid, ExitsAfter, ForkerAfter, ReapedAfter, IdRec, AnswerOk, Live;
    forall q | 0 <= q < |s.procs| ensures IdOk(s', q) && ForkerOk(s', q) {
      assert IdOk(s, p) && IdOk(s, q) && IdOk(s, Target(s, p)) && ForkerOk(s, q) && ParentOk(s, q);
      hide Ids, Parents, Distinct;
      GoIds(s, c, p, ok, q);
      ForkerStep(s, c, p, ok, q);
      WentId(s, c, p, ok, q);
      if s'.procs[q].parent.Some? {
        WentId(s, c, p, ok, s'.procs[q].parent.value);
      }
    }
    GoRest(s, c, p, ok);
  }

  lemma MoverSizes(s: World, c: nat, p: nat, ok: bool)
    requires Mover(s, p)
    ensures |Went(s, c, p, ok).procs| == |s.procs|
  {
    hide BuildOk, StateOk, PcOk;
    WentSizes(s, c, p, ok);
  }

  lemma WentId(s: World, c: nat, p: nat, ok: bool, q: nat)
    requires Mover(s, p) && q < |s.procs|
    ensures |Went(s, c, p, ok).procs| == |s.procs|
    ensures var x, x' := Stepped(s, c, p, ok, q), Went(s, c, p, ok).procs[q]; x'.pid == x.pid && x'.parent == x.parent && x'.state == x.state
    ensures forall n, e :: IdRec(Stepped(s, c, p, ok, q), n, e) ==> IdRec(Went(s, c, p, ok).procs[q], n, e)
  {
    hide BuildOk, StateOk, PcOk, Went, Stepped;
    WentAt(s, c, p, ok, q);
  }

  lemma GoRest(s: World, c: nat, p: nat, ok: bool)
    requires Mover(s, p) && Ids(s) && Parents(s) && KinOk(s, p)
    ensures var s' := Went(s, c, p, ok); |s'.procs| == |s.procs| && s'.procs[INIT].pid == 1 && 1 <= s'.nextpid && (forall i :: i in s'.exits ==> i < s'.nextpid)
    ensures Distinct(Went(s, c, p, ok)) && Answers(Went(s, c, p, ok)) && Gone(Went(s, c, p, ok))
  {
    var s' := Went(s, c, p, ok);
    MoverLive(s, p);
    MoverSizes(s, c, p, ok);
    WentMaps(s, c, p, ok);
    AnswersStep(s, c, p, ok);
    assert IdOk(s, p);
    ExitsBound(s, p);
    LivePid(s, c, p, ok, INIT);
    WentId(s, c, p, ok, INIT);
    hide Went, Mover, PcOk, Stepped, Target, ExitsAfter, ForkerAfter, ReapedAfter, IdRec, AnswerOk, Live, Answers, Parents, Ids;
    forall i, j | 0 <= i < j < |s'.procs| && !s'.procs[i].state.Unused? && !s'.procs[j].state.Unused? ensures s'.procs[i].pid != s'.procs[j].pid {
      WentId(s, c, p, ok, i);
      WentId(s, c, p, ok, j);
      IdsAt(s, i);
      IdsAt(s, j);
      GoDistinct(s, c, p, ok, i, j);
    }
    forall k, q | 0 <= k < |s'.reaped| && 0 <= q < |s'.procs| ensures s'.procs[q].pid != s'.reaped[k].pid {
      WentId(s, c, p, ok, q);
      GoneStep(s, c, p, ok, k, q);
    }
  }

  lemma IdsAt(s: World, p: nat)
    requires Ids(s) && p < |s.procs|
    ensures IdOk(s, p) && Distinct(s)
  {
  }

  // ----- other steps, and runs -----

  lemma TurnedIds(s: World, s': World)
    requires StatesOk(s) && AllTurned(s, s') && Ids(s)
    ensures Ids(s')
  {
    hide StateOk, Turned, PcOk, AnswerOk;
    forall q | 0 <= q < |s.procs|
      ensures s'.procs[q].pid == s.procs[q].pid && s'.procs[q].parent == s.procs[q].parent && s'.procs[q].xstate == s.procs[q].xstate
      ensures (s.procs[q].state.Unused? <==> s'.procs[q].state.Unused?) && (s.procs[q].state.Zombie? <==> s'.procs[q].state.Zombie?)
    {
      assert StateOk(s.procs[q]) && Turned(s.procs[q], s'.procs[q]);
      TurnedLife(s.procs[q], s'.procs[q], 0);
    }
    forall q | 0 <= q < |s.procs| ensures IdOk(s', q) && ForkerOk(s', q) {
      assert IdOk(s, q) && ForkerOk(s, q);
    }
    forall k | 0 <= k < |s'.reaped| ensures AnswerOk(s', s'.reaped[k]) {
      assert AnswerOk(s, s.reaped[k]);
      SameAnswer(s, s', s.reaped[k]);
    }
  }

  lemma SameAnswer(s: World, s': World, r: Reap)
    requires AnswerOk(s, r) && s'.exits == s.exits && s'.forker == s.forker
    ensures AnswerOk(s', r)
  {
  }

  /** All that is kept about families. */
  ghost predicate Life(s: World) { Core(s) && Parents(s) && Kin(s) && Ids(s) }

  lemma KeepsIds(s: World, c: nat, a: Act)
    requires Life(s) && Can(s, c, a)
    ensures Ids(Do(s, c, a))
  {
    if a.Go? {
      IsGoing(s, c, a.ok);
      var p := s.cpus[c].p;
      hide Core, Do, Can, Parents, Ids, Going, Went, KinOk;
      IsMover(s, c, p, a.ok);
      GoIdsAll(s, c, p, a.ok);
    } else {
      IsTurned(s, c, a);
      hide Do, Can, Parents, Ids, AllTurned, CpuOk, LockOk, SpinOk, StatesOk, ForksOk, Bounds;
      TurnedIds(s, Do(s, c, a));
    }
  }

  lemma KeepsLife(s: World, c: nat, a: Act)
    requires Life(s) && Can(s, c, a)
    ensures Life(Do(s, c, a))
  {
    KeepsIds(s, c, a);
    hide Core, Do, Can, Parents, Kin, Ids;
    KeepsCore(s, c, a);
    KeepsParents(s, c, a);
    KeepsKin(s, c, a);
  }

  lemma InitLife(s: World)
    requires Init(s)
    ensures Life(s)
  {
    InitCore(s);
    hide Core;
  }

  lemma {:induction false} RunLife(tr: seq<World>)
    requires IsRun(tr)
    ensures Life(tr[|tr| - 1])
  {
    hide Life, Can, Do;
    if |tr| == 1 {
      InitLife(tr[0]);
    } else {
      RunLife(tr[..|tr| - 1]);
      var s := tr[|tr| - 2];
      var c, a :| Can(s, c, a) && tr[|tr| - 1] == Do(s, c, a);
      KeepsLife(s, c, a);
    }
  }

  lemma ReachableLife(s: World)
    requires Reachable(s)
    ensures Life(s)
  {
    hide Life, Init, Next;
    var tr :| Reaches(tr, s);
    RunLife(tr);
  }

  /** In every reachable state a parent is neither UNUSED nor ZOMBIE. */
  lemma ParentsAlive(s: World, q: nat)
    requires Reachable(s) && q < |s.procs| && s.procs[q].parent.Some?
    ensures s.procs[q].parent.value < |s.procs| && Live(s.procs[s.procs[q].parent.value]) && !s.procs[q].state.Unused?
  {
    ReachableLife(s);
    assert ParentOk(s, q);
  }

  /** What wait has returned in a run: each pid once, with the status its process gave to
      exit, to the process that forked it or to init; and no process in the table has a
      pid that was returned. */
  lemma WaitAnswers(s: World)
    requires Reachable(s)
    ensures forall k :: 0 <= k < |s.reaped| ==> AnswerOk(s, s.reaped[k])
    ensures forall j, k :: 0 <= j < k < |s.reaped| ==> s.reaped[j].pid != s.reaped[k].pid
    ensures forall k, p :: 0 <= k < |s.reaped| && 0 <= p < |s.procs| ==> s.procs[p].pid != s.reaped[k].pid
  {
    ReachableLife(s);
    hide Core, Parents, Kin, AnswerOk;
  }
}
