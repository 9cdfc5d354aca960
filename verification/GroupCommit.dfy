/** Every interleaving of begin_op, log_write, end_op and commit by any number of
    file-system operations. Each step is one critical section of log.lock. */
module GroupCommit {
  import opened Param
  import opened Crash

  datatype Op = Op(id: nat, used: nat)  // a running operation and the blocks it has added

  /** A call of log_write that passed its tests: who made it, into which transaction. */
  datatype Logged = Logged(op: nat, txn: nat)

  datatype State = State(
    lh: seq<nat>, committing: bool, active: seq<Op>,
    txn: nat,              // transactions committed so far
    began: seq<nat>,       // began[id]: the transaction open when operation id began
    log: seq<Logged>)

  datatype Step = Begin | Write(i: nat, b: nat) | End(i: nat) | Committed

  const Init := State([], false, [], 0, [], [])

  /** The tests of log_write for a log of nlog blocks. */
  predicate Passes(nlog: nat, s: State) {
    |s.lh| < LOGSIZE && |s.lh| < nlog - 1 && |s.active| >= 1
  }

  predicate Enabled(nlog: nat, s: State, e: Step) {
    match e
    case Begin => !s.committing && |s.lh| + (|s.active| + 1) * MAXOPBLOCKS <= LOGSIZE
    case Write(i, b) => i < |s.active| && Passes(nlog, s)
    case End(i) => i < |s.active|
    case Committed => s.committing
  }

  function Next(s: State, e: Step): State
    requires match e { case Write(i, b) => i < |s.active| case End(i) => i < |s.active| case _ => true }
  {
    match e
    case Begin => s.(active := s.active + [Op(|s.began|, 0)], began := s.began + [s.txn])
    case Write(i, b) =>
      var o := s.active[i];
      var s := s.(log := s.log + [Logged(o.id, s.txn)]);
      if b in s.lh then s else s.(lh := s.lh + [b], active := s.active[i := o.(used := o.used + 1)])
    case End(i) =>
      var rest := s.active[..i] + s.active[i + 1..];
      s.(active := rest, committing := s.committing || rest == [])
    case Committed => s.(committing := false, lh := [], txn := s.txn + 1)
  }

  /** Operations that keep to their reservation: each adds at most MAXOPBLOCKS blocks to
      the transaction. Logging a block again adds none. */
  predicate WithinBudget(s: State, e: Step) {
    e.Write? && e.i < |s.active| && e.b !in s.lh ==> s.active[e.i].used < MAXOPBLOCKS
  }

  predicate IsRun(nlog: nat, ss: seq<State>, es: seq<Step>) {
    |ss| == |es| + 1 && ss[0] == Init
    && forall k :: 0 <= k < |es| ==> Enabled(nlog, ss[k], es[k]) && WithinBudget(ss[k], es[k]) && ss[k + 1] == Next(ss[k], es[k])
  }

  // ----- invariant -----

  /** Reserved and not yet used. */
  function Unused(ops: seq<Op>): int {
    if ops == [] then 0 else MAXOPBLOCKS - ops[0].used + Unused(ops[1..])
  }

  lemma {:induction false} UnusedConcat(a: seq<Op>, b: seq<Op>)
    ensures Unused(a + b) == Unused(a) + Unused(b)
  {
    if a == [] {
      assert a + b == b;
    } else {
      assert (a + b)[1..] == a[1..] + b;
      UnusedConcat(a[1..], b);
    }
  }

  lemma UnusedAt(ops: seq<Op>, i: nat, o: Op)
    requires i < |ops|
    ensures Unused(ops[i := o]) == Unused(ops) + ops[i].used - o.used
    ensures Unused(ops[..i] + ops[i + 1..]) == Unused(ops) - (MAXOPBLOCKS - ops[i].used)
  {
    var a, c := ops[..i], ops[i + 1..];
    assert ops == a + ([ops[i]] + c) && ops[i := o] == a + ([o] + c);
    UnusedConcat(a, [ops[i]] + c);
    UnusedConcat(a, [o] + c);
    UnusedConcat(a, c);
    assert ([ops[i]] + c)[1..] == c == ([o] + c)[1..];
  }

  lemma {:induction false} UnusedBounds(ops: seq<Op>)
    requires forall k :: 0 <= k < |ops| ==> ops[k].used <= MAXOPBLOCKS
    ensures 0 <= Unused(ops) <= |ops| * MAXOPBLOCKS
  {
    if ops != [] {
      UnusedBounds(ops[1..]);
    }
  }

  ghost predicate Reserved(s: State) {
    (s.committing ==> s.active == []) && (s.active == [] && !s.committing ==> s.lh == [])
    && (forall k :: 0 <= k < |s.active| ==> s.active[k].used <= MAXOPBLOCKS)
    && |s.lh| + Unused(s.active) <= LOGSIZE
  }

  ghost predicate OneTxn(s: State) {
    (forall k :: 0 <= k < |s.active| ==> s.active[k].id < |s.began| && s.began[s.active[k].id] == s.txn)
    && (forall k :: 0 <= k < |s.log| ==> s.log[k].op < |s.began| && s.log[k].txn == s.began[s.log[k].op])
  }

  ghost predicate Inv(s: State) { Reserved(s) && OneTxn(s) }

  lemma NextKeepsReserved(nlog: nat, s: State, e: Step)
    requires Reserved(s) && Enabled(nlog, s, e) && WithinBudget(s, e)
    ensures Reserved(Next(s, e))
  {
    hide Unused;
    match e
    case Begin => BeginReserves(s);
    case Write(i, b) => UnusedAt(s.active, i, s.active[i].(used := s.active[i].used + 1));
    case End(i) => EndReserves(s, i);
    case Committed => UnusedNone();
  }

  lemma UnusedNone()
    ensures Unused([]) == 0
  {
  }

  lemma BeginReserves(s: State)
    requires Reserved(s) && |s.lh| + (|s.active| + 1) * MAXOPBLOCKS <= LOGSIZE
    ensures |s.lh| + Unused(s.active + [Op(|s.began|, 0)]) <= LOGSIZE
  {
    UnusedBounds(s.active);
    UnusedConcat(s.active, [Op(|s.began|, 0)]);
    assert Unused([Op(|s.began|, 0)]) == MAXOPBLOCKS by { UnusedNone(); }
  }

  lemma EndReserves(s: State, i: nat)
    requires Reserved(s) && i < |s.active|
    ensures |s.lh| + Unused(s.active[..i] + s.active[i + 1..]) <= LOGSIZE
  {
    hide Unused;
    UnusedAt(s.active, i, s.active[i]);
  }

  lemma NextKeepsOneTxn(nlog: nat, s: State, e: Step)
    requires Inv(s) && Enabled(nlog, s, e)
    ensures OneTxn(Next(s, e))
  {
    hide Unused;
  }

  lemma {:induction false} RunsKeepInv(nlog: nat, ss: seq<State>, es: seq<Step>, k: nat)
    requires IsRun(nlog, ss, es) && k <= |es|
    ensures Inv(ss[k])
  {
    if k > 0 {
      RunsKeepInv(nlog, ss, es, k - 1);
      NextKeepsReserved(nlog, ss[k - 1], es[k - 1]);
      NextKeepsOneTxn(nlog, ss[k - 1], es[k - 1]);
    }
  }

  /** In every interleaving a commit runs with no operation outstanding, what is
      logged plus what is still reserved fits the log, and every operation's writes
      go into one transaction. */
  lemma GroupCommitSafe(nlog: nat, ss: seq<State>, es: seq<Step>, k: nat)
    requires IsRun(nlog, ss, es) && k <= |es|
    ensures ss[k].committing ==> |ss[k].active| == 0
    ensures |ss[k].lh| + Unused(ss[k].active) <= LOGSIZE
    ensures forall i, j :: 0 <= i < j < |ss[k].log| && ss[k].log[i].op == ss[k].log[j].op ==> ss[k].log[i].txn == ss[k].log[j].txn
  {
    RunsKeepInv(nlog, ss, es, k);
  }

  /** Between transactions the log is empty, so begin_op admits an operation; and every
      state comes to such a one by the operations ending and the commit. */
  lemma {:induction false} BeginsAgain(nlog: nat, ss: seq<State>, es: seq<Step>) returns (ss': seq<State>, es': seq<Step>)
    requires IsRun(nlog, ss, es)
    ensures var s := ss[|es|]; s.active == [] && !s.committing ==> s.lh == [] && Enabled(nlog, s, Begin) && es' == []
    ensures IsRun(nlog, ss + ss', es + es') && forall k :: 0 <= k < |es'| ==> es'[k].End? || es'[k].Committed?
    ensures var s := (ss + ss')[|es + es'|]; s.active == [] && !s.committing && Enabled(nlog, s, Begin)
    decreases |ss[|es|].active|, ss[|es|].committing
  {
    RunsKeepInv(nlog, ss, es, |es|);
    var s := ss[|es|];
    ss', es' := [], [];
    if s.active != [] || s.committing {
      var e := if s.committing then Committed else End(0);
      ss', es' := BeginsAgain(nlog, ss + [Next(s, e)], es + [e]);
      assert ss + ([Next(s, e)] + ss') == ss + [Next(s, e)] + ss' && es + ([e] + es') == es + [e] + es';
      ss', es' := [Next(s, e)] + ss', [e] + es';
    } else {
      assert ss + [] == ss && es + [] == es;
    }
  }

  // ----- when log_write panics -----

  /** Some operation with room left in its reservation would panic in log_write, whatever
      block it logs. */
  predicate Stuck(nlog: nat, s: State) {
    exists i :: 0 <= i < |s.active| && s.active[i].used < MAXOPBLOCKS && !Passes(nlog, s)
  }

  /** Three operations that have together logged blocks 0..n, ten each at most. */
  function Filled(n: nat): State
    requires n <= LOGSIZE
  {
    State(seq(n, i => i), false,
          [Op(0, Min(n, 10)), Op(1, Min(Max(n - 10, 0), 10)), Op(2, Max(n - 20, 0))],
          0, [0, 0, 0], seq(n, i requires 0 <= i < n => Logged(i / 10, 0)))
  }

  function Min(a: int, b: int): int { if a < b then a else b }
  function Max(a: int, b: int): int { if a < b then b else a }

  lemma FillStep(nlog: nat, n: nat)
    requires n < LOGSIZE && n < nlog - 1
    ensures Enabled(nlog, Filled(n), Write(n / 10, n)) && WithinBudget(Filled(n), Write(n / 10, n))
    ensures Next(Filled(n), Write(n / 10, n)) == Filled(n + 1)
  {
    var s, t := Filled(n), Filled(n + 1);
    assert s.lh + [n] == t.lh && n !in s.lh;
    assert s.log + [Logged(n / 10, 0)] == t.log;
    assert s.active[n / 10 := s.active[n / 10].(used := s.active[n / 10].used + 1)] == t.active;
    assert s.active[n / 10].id == n / 10;
  }

  lemma {:induction false} Fill(nlog: nat, n: nat) returns (ss: seq<State>, es: seq<Step>)
    requires n <= LOGSIZE && n < Max(nlog, 1)
    ensures IsRun(nlog, ss, es) && ss[|es|] == Filled(n)
  {
    if n == 0 {
      var a := Next(Init, Begin);
      var b := Next(a, Begin);
      ss, es := [Init, a, b, Next(b, Begin)], [Begin, Begin, Begin];
      assert ss[3].active == Filled(0).active && ss[3].began == [0, 0, 0];
      assert ss[3].lh == Filled(0).lh && ss[3].log == Filled(0).log;
    } else {
      ss, es := Fill(nlog, n - 1);
      FillStep(nlog, n - 1);
      ss, es := ss + [Filled(n)], es + [Write((n - 1) / 10, n - 1)];
    }
  }

  /** Operations that keep to their reservation are safe from "too big a transaction"
      in every interleaving exactly when the log has more than LOGSIZE blocks. The
      image that mkfs builds has LOGSIZE. */
  lemma NeverStuckIff(nlog: nat)
    ensures nlog > LOGSIZE <==>
      (forall ss: seq<State>, es: seq<Step> :: IsRun(nlog, ss, es) ==> !Stuck(nlog, ss[|es|]))
  {
    if nlog > LOGSIZE {
      forall ss: seq<State>, es: seq<Step> | IsRun(nlog, ss, es) ensures !Stuck(nlog, ss[|es|]) {
        RunsKeepInv(nlog, ss, es, |es|);
        RoomLeft(ss[|es|]);
      }
    } else {
      var n := Max(nlog - 1, 0);
      var ss, es := Fill(nlog, n);
      assert Filled(n).active[n / 10].used < MAXOPBLOCKS;
      assert Stuck(nlog, ss[|es|]);
    }
  }

  lemma RoomLeft(s: State)
    requires Inv(s)
    ensures (exists i :: 0 <= i < |s.active| && s.active[i].used < MAXOPBLOCKS) ==> |s.lh| < LOGSIZE
  {
    if i :| 0 <= i < |s.active| && s.active[i].used < MAXOPBLOCKS {
      UnusedAt(s.active, i, s.active[i]);
      UnusedBounds(s.active[..i] + s.active[i + 1..]);
    }
  }

  /** With such a log the first test of log_write fails exactly when the log is full, and
      then every running operation has used up its reservation: all that can still panic
      is logging a block again. */
  lemma PanicsIffFull(nlog: nat, ss: seq<State>, es: seq<Step>, i: nat)
    requires nlog > LOGSIZE && IsRun(nlog, ss, es) && i < |ss[|es|].active|
    ensures !Passes(nlog, ss[|es|]) <==> |ss[|es|].lh| == LOGSIZE
    ensures !Passes(nlog, ss[|es|]) ==> ss[|es|].active[i].used == MAXOPBLOCKS
  {
    var s := ss[|es|];
    RunsKeepInv(nlog, ss, es, |es|);
    UnusedBounds(s.active);
    RoomLeft(s);
  }

  /** That panic is real: the test comes before absorption, so an operation that has used
      up its reservation can panic by logging one of its own blocks again. */
  lemma AbsorptionCanPanic(nlog: nat)
    requires nlog > LOGSIZE
    ensures exists ss: seq<State>, es: seq<Step>, b: nat :: IsRun(nlog, ss, es) && |ss[|es|].active| > 0 && b in ss[|es|].lh && WithinBudget(ss[|es|], Write(0, b)) && !Passes(nlog, ss[|es|])
  {
    var ss, es := Fill(nlog, LOGSIZE);
    var s := ss[|es|];
    assert s.lh[0] in s.lh;
    assert IsRun(nlog, ss, es) && |s.active| > 0 && s.lh[0] in s.lh && WithinBudget(s, Write(0, s.lh[0])) && !Passes(nlog, s);
  }

  lemma EndRun(nlog: nat, ss: seq<State>, es: seq<Step>) returns (ss': seq<State>, es': seq<Step>)
    requires IsRun(nlog, ss, es) && ss[|es|].active != []
    ensures IsRun(nlog, ss', es') && var s, s' := ss[|es|], ss'[|es'|];
      s'.lh == s.lh && s'.active == s.active[1..] && s'.committing == (s.committing || |s.active| == 1)
  {
    var s := ss[|es|];
    ss', es' := ss + [Next(s, End(0))], es + [End(0)];
    assert s.active[..0] + s.active[1..] == s.active[1..];
  }

  /** A log with room for LOGSIZE blocks has a price: operations within their reservation
      can fill it, and then commit finds all NBUF buffers pinned, which is when it panics
      (see Panics.FullLog). So for every nlog some run within its reservations panics. */
  lemma FullCommit(nlog: nat)
    requires nlog > LOGSIZE
    ensures exists ss: seq<State>, es: seq<Step> :: IsRun(nlog, ss, es) && ss[|es|].committing && |ss[|es|].lh| == NBUF
  {
    var ss, es := Fill(nlog, LOGSIZE);
    ss, es := EndRun(nlog, ss, es);
    ss, es := EndRun(nlog, ss, es);
    ss, es := EndRun(nlog, ss, es);
    assert IsRun(nlog, ss, es) && ss[|es|].committing && |ss[|es|].lh| == NBUF;
  }
}
