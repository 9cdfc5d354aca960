/** sleep and wakeup: a process that has given up its lock to sleep on a channel is seen
    by every wakeup on it. */
module Wakeup {
  import opened Wrappers
  import opened Proc
  import opened ProcInv

  /** The channel a process is asleep on, or is past the point of no return to. */
  function WaitsOn(x: Proc): Chan {
    if x.pc.SleepSet? then x.pc.ch else if x.state.Sleeping? then x.chan else NoChan
  }

  function ScanIndex(pc: Pc): Option<(Chan, nat)> {
    match pc case Wake(w, i) => Some((WakeChan(w), i)) case WakeHas(w, i) => Some((WakeChan(w), i)) case _ => None
  }

  /** Process r is in wakeup(ch) and has not passed process p. */
  predicate ScanAt(s: World, r: nat, ch: Chan, p: nat)
    requires r < |s.procs|
  {
    s.procs[r].cpu.Some? && ScanIndex(s.procs[r].pc).Some? && ScanIndex(s.procs[r].pc).value.0 == ch && ScanIndex(s.procs[r].pc).value.1 <= p
  }

  ghost predicate Scanning(s: World, ch: Chan, p: nat) { exists r :: 0 <= r < |s.procs| && ScanAt(s, r, ch, p) }

  // ----- who starts waiting -----

  lemma EffectWaits(s: World, p: nat, ok: bool)
    requires p < |s.procs| && PcOk(s, s.procs[p].pc) && StateOk(s.procs[p]) && s.procs[p].cpu.Some? && BuildOk(s, p)
    requires StateOk(s.procs[Target(s, p)]) && OffTarget(s, p) && !Switching(s.procs[p].pc)
    ensures Target(s, p) != p ==> WaitsOn(Effect(s, p, ok)) == WaitsOn(s.procs[Target(s, p)]) || WaitsOn(Effect(s, p, ok)) == NoChan
    ensures s.procs[p].pc.WakeHas? && Target(s, p) != p ==> WaitsOn(Effect(s, p, ok)) != WakeChan(s.procs[p].pc.w)
  {
  }

  lemma MoverWaits(s: World, p: nat, ok: bool)
    requires p < |s.procs| && PcOk(s, s.procs[p].pc) && StateOk(s.procs[p]) && s.procs[p].cpu.Some? && !Switching(s.procs[p].pc)
    ensures var w := WaitsOn(Stepped(s, 0, p, ok, p)); w != NoChan ==> w == WaitsOn(s.procs[p]) || s.procs[p].pc == SleepRel(w)
    ensures ScanIndex(s.procs[p].pc).Some? ==> WaitsOn(Stepped(s, 0, p, ok, p)) == NoChan
  {
  }

  /** Nobody starts waiting but by the release inside sleep. */
  lemma SteppedWaits(s: World, c: nat, p: nat, ok: bool, q: nat)
    requires Going(s, c, p, ok) && q < |s.procs|
    ensures var w := WaitsOn(Stepped(s, c, p, ok, q)); w != NoChan ==> w == WaitsOn(s.procs[q]) || (q == p && s.procs[p].pc == SleepRel(w))
  {
    TargetOff(s, c, p, ok);
    assert StateOk(s.procs[p]) && StateOk(s.procs[Target(s, p)]) && BuildOk(s, p);
    hide CpuOk, LockOk, SpinOk, StatesOk, ForksOk, Bounds, PcOk, NextPc, Effect, Target, MayTake, StateOk, BuildOk, OffTarget, WaitsOn;
    if q == p {
      MoverWaits(s, p, ok);
      assert Stepped(s, c, p, ok, q) == Stepped(s, 0, p, ok, p);
    } else {
      EffectWaits(s, p, ok);
    }
  }

  lemma TurnedWaits(x: Proc, x': Proc)
    requires StateOk(x) && Turned(x, x')
    ensures WaitsOn(x') == WaitsOn(x)
    ensures ScanIndex(x.pc).Some? && x.cpu.Some? ==> x'.cpu.Some? && x'.pc == x.pc
  {
  }

  /** How a scan moves on: one process further, or stopping to look at one. */
  lemma ScanNext(s: World, p: nat, ok: bool, q: nat)
    requires p < |s.procs| && PcOk(s, s.procs[p].pc) && q < |s.procs| && ScanIndex(s.procs[p].pc).Some?
    ensures var i, pc' := ScanIndex(s.procs[p].pc).value, NextPc(s, p, ok); i.1 <= q && (i.1 == q ==> q != p && !s.procs[p].pc.WakeHas?) ==>
      ScanIndex(pc').Some? && ScanIndex(pc').value.0 == i.0 && ScanIndex(pc').value.1 <= q
    ensures s.procs[p].pc.WakeHas? ==> Target(s, p) == ScanIndex(s.procs[p].pc).value.1 && WakeChan(s.procs[p].pc.w) == ScanIndex(s.procs[p].pc).value.0
  {
  }

  /** A scan stays in front of whoever still waits for it. */
  lemma ScanOwn(s: World, c: nat, p: nat, ok: bool, ch: Chan, q: nat)
    requires Going(s, c, p, ok) && q < |s.procs| && ScanAt(s, p, ch, q) && ch != NoChan && WaitsOn(Stepped(s, c, p, ok, q)) == ch
    ensures var j := ScanIndex(NextPc(s, p, ok)); j.Some? && j.value.0 == ch && j.value.1 <= q
  {
    TargetOff(s, c, p, ok);
    GoingAt(s, c, p, ok, p);
    GoingAt(s, c, p, ok, Target(s, p));
    hide Core, PcOk, Effect, Target, NextPc, MayTake, StateOk, BuildOk, OffTarget, WaitsOn, ScanIndex, Switching;
    EffectWaits(s, p, ok);
    MoverWaits(s, p, ok);
    assert Stepped(s, c, p, ok, p) == Stepped(s, 0, p, ok, p);
    ScanNext(s, p, ok, q);
  }

  lemma ScanStep(s: World, c: nat, p: nat, ok: bool, r: nat, ch: Chan, q: nat)
    requires Going(s, c, p, ok) && r < |s.procs| && q < |s.procs| && ScanAt(s, r, ch, q) && ch != NoChan
    requires WaitsOn(Stepped(s, c, p, ok, q)) == ch
    ensures Stepped(s, c, p, ok, r).cpu == s.procs[r].cpu
    ensures var j := ScanIndex(Stepped(s, c, p, ok, r).pc); j.Some? && j.value.0 == ch && j.value.1 <= q
  {
    GoingAt(s, c, p, ok, Target(s, p));
    EffectFrame(s, p, ok);
    hide Core, PcOk, Effect, Target, NextPc, MayGo, StateOk, BuildOk, WaitsOn, ScanIndex;
    if r == p {
      ScanOwn(s, c, p, ok, ch, q);
    }
  }

  lemma ScanKept(s: World, c: nat, a: Act, ch: Chan, q: nat)
    requires Core(s) && Can(s, c, a) && q < |s.procs| && Scanning(s, ch, q) && ch != NoChan
    requires |Do(s, c, a).procs| == |s.procs| && WaitsOn(Do(s, c, a).procs[q]) == ch
    ensures Scanning(Do(s, c, a), ch, q)
  {
    var s' := Do(s, c, a);
    var r :| 0 <= r < |s.procs| && ScanAt(s, r, ch, q);
    if a.Go? {
      IsGoing(s, c, a.ok);
      var p := s.cpus[c].p;
      hide Do, Can, Core, Went, Going, WaitsOn, Stepped, ScanIndex;
      WentProc(s, c, p, a.ok, q);
      WentProc(s, c, p, a.ok, r);
      WaitsLock(Stepped(s, c, p, a.ok, q), s'.procs[q].lock);
      ScanStep(s, c, p, a.ok, r, ch, q);
      assert ScanAt(s', r, ch, q);
    } else {
      IsTurned(s, c, a);
      assert StateOk(s.procs[r]) && Turned(s.procs[r], s'.procs[r]);
      hide Do, Can, Core, WaitsOn, ScanIndex, Turned, StateOk;
      TurnedWaits(s.procs[r], s'.procs[r]);
      assert ScanAt(s', r, ch, q);
    }
  }

  lemma WaitsLock(x: Proc, lock: Option<nat>)
    ensures WaitsOn(x.(lock := lock)) == WaitsOn(x)
  {
  }

  /** Whoever waits after a step waited before it, or has just released its lock in
      sleep. */
  lemma WaitsNew(s: World, c: nat, a: Act, q: nat)
    requires Core(s) && Can(s, c, a) && q < |s.procs|
    ensures |Do(s, c, a).procs| == |s.procs|
    ensures var w := WaitsOn(Do(s, c, a).procs[q]); w != NoChan ==> w == WaitsOn(s.procs[q]) || (a.Go? && s.cpus[c] == On(q) && s.procs[q].pc == SleepRel(w))
  {
    var s' := Do(s, c, a);
    if a.Go? {
      IsGoing(s, c, a.ok);
      var p := s.cpus[c].p;
      hide Do, Can, Core, Went, WaitsOn, Stepped, MayGo, PcOk;
      WentProc(s, c, p, a.ok, q);
      WaitsLock(Stepped(s, c, p, a.ok, q), s'.procs[q].lock);
      SteppedWaits(s, c, p, a.ok, q);
    } else {
      IsTurned(s, c, a);
      assert StateOk(s.procs[q]) && Turned(s.procs[q], s'.procs[q]);
      hide Do, Can, Core, WaitsOn, Turned, StateOk;
      TurnedWaits(s.procs[q], s'.procs[q]);
    }
  }

  // ----- no lost wakeup, for any channel and condition -----

  /** A step that keeps to the rules of sleep and wakeup for process q on channel ch. The
      condition holds before or after it as given. Making it hold begins a wakeup, and q
      releases its lock inside sleep only while it does not hold. */
  ghost predicate Disciplined(s: World, c: nat, a: Act, ch: Chan, q: nat, before: bool, after: bool)
    requires Can(s, c, a)
  {
    var s' := Do(s, c, a);
    q < |s.procs| && q < |s'.procs|
    && (after && !before && WaitsOn(s'.procs[q]) == ch ==> Scanning(s', ch, q))
    && (a.Go? && s.cpus[c] == On(q) && s.procs[q].pc == SleepRel(ch) ==> !after)
  }

  /** Every step of the run does; conds[i] says whether the condition holds in tr[i]. */
  ghost predicate Follows(tr: seq<World>, conds: seq<bool>, ch: Chan, q: nat) {
    |conds| == |tr| && forall i, c, a :: 0 <= i < |tr| - 1 && Can(tr[i], c, a) && tr[i + 1] == Do(tr[i], c, a) ==>
      Disciplined(tr[i], c, a, ch, q, conds[i], conds[i + 1])
  }

  lemma WokenStep(s: World, c: nat, a: Act, ch: Chan, q: nat, before: bool, after: bool)
    requires Core(s) && Can(s, c, a) && ch != NoChan && Disciplined(s, c, a, ch, q, before, after)
    requires before && WaitsOn(s.procs[q]) == ch ==> Scanning(s, ch, q)
    ensures after && WaitsOn(Do(s, c, a).procs[q]) == ch ==> Scanning(Do(s, c, a), ch, q)
  {
    hide Core, Can, Do, WaitsOn, Scanning;
    WaitsNew(s, c, a, q);
    if before && after && WaitsOn(Do(s, c, a).procs[q]) == ch {
      ScanKept(s, c, a, ch, q);
    }
  }

  lemma {:induction false} RunWoken(tr: seq<World>, conds: seq<bool>, ch: Chan, q: nat)
    requires IsRun(tr) && Follows(tr, conds, ch, q) && ch != NoChan && q < |tr[|tr| - 1].procs|
    ensures conds[|tr| - 1] && WaitsOn(tr[|tr| - 1].procs[q]) == ch ==> Scanning(tr[|tr| - 1], ch, q)
  {
    hide Core, Can, Do, WaitsOn, Scanning, Disciplined;
    var n := |tr| - 1;
    if n == 0 {
      NobodyWaits(tr[0], q);
    } else {
      var s := tr[n - 1];
      var c, a :| Can(s, c, a) && tr[n] == Do(s, c, a);
      RunCore(tr[..n]);
      assert Disciplined(s, c, a, ch, q, conds[n - 1], conds[n]);
      DisciplinedSize(s, c, a, ch, q, conds[n - 1], conds[n]);
      FollowsFront(tr, conds, ch, q);
      RunWoken(tr[..n], conds[..n], ch, q);
      WokenStep(s, c, a, ch, q, conds[n - 1], conds[n]);
    }
  }

  lemma FollowsFront(tr: seq<World>, conds: seq<bool>, ch: Chan, q: nat)
    requires Follows(tr, conds, ch, q) && |tr| > 1
    ensures Follows(tr[..|tr| - 1], conds[..|tr| - 1], ch, q)
  {
    hide Can, Do, Disciplined;
  }

  lemma DisciplinedSize(s: World, c: nat, a: Act, ch: Chan, q: nat, before: bool, after: bool)
    requires Can(s, c, a) && Disciplined(s, c, a, ch, q, before, after)
    ensures q < |s.procs|
  {
  }

  lemma NobodyWaits(s: World, q: nat)
    requires Init(s) && q < |s.procs|
    ensures WaitsOn(s.procs[q]) == NoChan
  {
  }

  /** Who is in wakeup holds the lock of the channel. */
  lemma ScanHoldsLock(s: World, ch: Chan, q: nat)
    requires Core(s) && Scanning(s, ch, q) && LockOf(ch).Some?
    ensures IsSpin(s, LockOf(ch).value) && Holder(s, LockOf(ch).value).Some?
  {
    var r :| 0 <= r < |s.procs| && ScanAt(s, r, ch, q);
    ScanSpin(s.procs[r].pc);
    hide SpinOf, LockOk, StatesOk, ForksOk, Bounds, ScanIndex;
    assert HeldS(s, s.procs[r].cpu.value) == LockOf(ch);
  }

  lemma ScanSpin(pc: Pc)
    requires ScanIndex(pc).Some?
    ensures SpinOf(pc) == LockOf(ScanIndex(pc).value.0)
  {
  }

  lemma SleepsOn(x: Proc)
    requires StateOk(x)
    ensures x.state.Sleeping? ==> WaitsOn(x) == x.chan
  {
  }

  /** No lost wakeup. In a run whose every step keeps to the rules on ch, whenever the
      condition holds and the channel's lock is free, process q is not asleep on ch and
      not on its way to be. */
  lemma NoLostWakeup(tr: seq<World>, conds: seq<bool>, ch: Chan, q: nat)
    requires IsRun(tr) && Follows(tr, conds, ch, q) && q < |tr[|tr| - 1].procs| && LockOf(ch).Some? && IsSpin(tr[|tr| - 1], LockOf(ch).value)
    requires conds[|tr| - 1] && Holder(tr[|tr| - 1], LockOf(ch).value).None?
    ensures var x := tr[|tr| - 1].procs[q]; WaitsOn(x) != ch && !(x.state.Sleeping? && x.chan == ch)
  {
    var s := tr[|tr| - 1];
    RunCore(tr);
    CoreAt(s, q);
    hide Core, Follows, WaitsOn, Scanning, StateOk, PcOk, IsRun;
    RunWoken(tr, conds, ch, q);
    SleepsOn(s.procs[q]);
    if Scanning(s, ch, q) {
      ScanHoldsLock(s, ch, q);
    }
  }

  /** Every step of a run starts from a state of a run. */
  lemma {:induction false} RunFront(tr: seq<World>, i: nat)
    requires IsRun(tr) && i < |tr|
    ensures IsRun(tr[..i + 1])
    decreases |tr|
  {
    if i + 1 < |tr| {
      RunFront(tr[..|tr| - 1], i);
      assert tr[..|tr| - 1][..i + 1] == tr[..i + 1];
    } else {
      assert tr[..i + 1] == tr;
    }
  }

  /** Processes and sleeplocks are as many in all states of a run. */
  lemma {:induction false} RunSizes(tr: seq<World>)
    requires IsRun(tr)
    ensures forall i :: 0 <= i < |tr| ==> |tr[i].procs| == |tr[|tr| - 1].procs| && |tr[i].lks| == |tr[|tr| - 1].lks|
  {
    hide Core, Can, Do;
    if |tr| > 1 {
      var n := |tr| - 1;
      RunSizes(tr[..n]);
      RunCore(tr[..n]);
      var c, a :| Can(tr[n - 1], c, a) && tr[n] == Do(tr[n - 1], c, a);
      DoSizes(tr[n - 1], c, a);
      forall i | 0 <= i < |tr| ensures |tr[i].procs| == |tr[n].procs| && |tr[i].lks| == |tr[n].lks| {
        if i < n {
          assert tr[..n][i] == tr[i] && tr[..n][n - 1] == tr[n - 1];
        }
      }
    }
  }

  lemma DoSizes(s: World, c: nat, a: Act)
    requires Core(s) && Can(s, c, a)
    ensures |Do(s, c, a).procs| == |s.procs| && |Do(s, c, a).lks| == |s.lks|
  {
    if a.Go? {
      IsGoing(s, c, a.ok);
      LksSize(s, s.cpus[c].p);
    }
    hide CpuOk, LockOk, SpinOk, StatesOk, ForksOk, Bounds, PcOk, NextPc, Effect, LksAfter;
  }

  lemma LksSize(s: World, p: nat)
    requires p < |s.procs| && PcOk(s, s.procs[p].pc)
    ensures |LksAfter(s, p)| == |s.lks|
  {
  }
}
