/** The shell's command trees, and which tree a derivation in the grammar stands for. */
module Command {
  import opened Wrappers
  import opened Grammar

  type Span = (nat, nat)

  datatype Mode = Read | Write | Append   // O_RDONLY; O_WRONLY|O_CREATE with or without O_TRUNC

  datatype Cmd =
    | Exec(args: seq<Span>)
    | Redir(cmd: Cmd, file: Span, mode: Mode, fd: nat)
    | Pipe(left: Cmd, right: Cmd)
    | List(left: Cmd, right: Cmd)
    | Back(cmd: Cmd)

  /** An exec node under redirections: what parseexec builds. */
  predicate Simple(c: Cmd) { c.Exec? || (c.Redir? && Simple(c.cmd)) }

  /** Store one more argument in the exec node. */
  function AddArg(c: Cmd, w: Span): (r: Cmd)
    requires Simple(c)
    ensures Simple(r)
  {
    match c case Exec(args) => Exec(args + [w]) case Redir(d, f, m, fd) => Redir(AddArg(d, w), f, m, fd)
  }

  function ModeOf(op: char): Mode { if op == '<' then Read else if op == '>' then Write else Append }

  function FdOf(op: char): nat { if op == '<' then 0 else 1 }

  // ----- trees of derivations: tokens of kinds ts lie at the spans sp -----

  /** c under the redirections that are tokens i to j, the last one outermost. */
  function Redirected(c: Cmd, ts: Kinds, sp: seq<Span>, i: nat, j: nat): (r: Cmd)
    requires j <= |ts| == |sp|
    ensures Simple(c) ==> Simple(r)
    decreases j
  {
    if j < i + 2 then c else Redir(Redirected(c, ts, sp, i, j - 2), sp[j - 1], ModeOf(ts[j - 2]), FdOf(ts[j - 2]))
  }

  /** The words among tokens i to j that are not files, under the redirections there. */
  function SimpleTree(ts: Kinds, sp: seq<Span>, i: nat, j: nat): (r: Cmd)
    requires j <= |ts| == |sp|
    ensures Simple(r)
    decreases j
  {
    if j <= i then Exec([])
    else if i + 2 <= j && Op(ts[j - 2]) then Redir(SimpleTree(ts, sp, i, j - 2), sp[j - 1], ModeOf(ts[j - 2]), FdOf(ts[j - 2]))
    else AddArg(SimpleTree(ts, sp, i, j - 1), sp[j - 1])
  }

  ghost predicate BlockTree(ts: Kinds, sp: seq<Span>, i: nat, j: nat, k: nat, c: Cmd, inner: Cmd)
    requires |sp| == |ts|
    decreases j - i, 0, 0
  {
    BlockAt(ts, i, j, k) && LineTree(ts, sp, i + 1, k, inner) && c == Redirected(inner, ts, sp, k + 1, j)
  }

  ghost predicate ExecTree(ts: Kinds, sp: seq<Span>, i: nat, j: nat, c: Cmd)
    requires |sp| == |ts|
    decreases j - i, 1, 0
  {
    i <= j <= |ts|
    && ((IsSimple(ts, i, j) && c == SimpleTree(ts, sp, i, j)) || exists k, inner :: i < k < j && BlockTree(ts, sp, i, j, k, c, inner))
  }

  ghost predicate PipeTreeAt(ts: Kinds, sp: seq<Span>, i: nat, j: nat, k: nat, c: Cmd)
    requires |sp| == |ts|
    decreases j - i, 1, 0
  {
    PipeAt(ts, i, j, k) && c.Pipe? && ExecTree(ts, sp, i, k, c.left) && PipeTree(ts, sp, k + 1, j, c.right)
  }

  ghost predicate PipeTree(ts: Kinds, sp: seq<Span>, i: nat, j: nat, c: Cmd)
    requires |sp| == |ts|
    decreases j - i, 2, 0
  {
    ExecTree(ts, sp, i, j, c) || exists k :: i <= k < j && PipeTreeAt(ts, sp, i, j, k, c)
  }

  /** A pipeline under n background marks. */
  ghost predicate BackTree(ts: Kinds, sp: seq<Span>, i: nat, j: nat, n: nat, c: Cmd)
    requires |sp| == |ts|
    decreases j - i, 3, n
  {
    if n == 0 then PipeTree(ts, sp, i, j, c) else c.Back? && BackTree(ts, sp, i, j, n - 1, c.cmd)
  }

  ghost predicate LineTreeAt(ts: Kinds, sp: seq<Span>, i: nat, j: nat, k: nat, m: nat, c: Cmd)
    requires |sp| == |ts|
    decreases j - i, 4, 0
  {
    LineAt(ts, i, j, k, m)
    && if m == j then BackTree(ts, sp, i, k, m - k, c)
       else c.List? && BackTree(ts, sp, i, k, m - k, c.left) && LineTree(ts, sp, m + 1, j, c.right)
  }

  /** c is the tree of the line that tokens i to j are. */
  ghost predicate LineTree(ts: Kinds, sp: seq<Span>, i: nat, j: nat, c: Cmd)
    requires |sp| == |ts|
    decreases j - i, 5, 0
  {
    exists k, m :: i <= k <= m <= j && LineTreeAt(ts, sp, i, j, k, m, c)
  }

  // ----- a line has one tree -----

  lemma {:induction false} ExecOne(ts: Kinds, sp: seq<Span>, i: nat, j: nat, c: Cmd, c': Cmd)
    requires |sp| == |ts| && ExecTree(ts, sp, i, j, c) && ExecTree(ts, sp, i, j, c') && (j < |ts| ==> Closes(ts[j]))
    ensures c == c'
    decreases j - i, 0
  {
    if IsSimple(ts, i, j) {
      var n :| 0 <= n < MAXARGS && IsArgs(ts, i, j, n);
      NoParen(ts, i, j, n);
    } else {
      var k, inner :| i < k < j && BlockTree(ts, sp, i, j, k, c, inner);
      var k', inner' :| i < k' < j && BlockTree(ts, sp, i, j, k', c', inner');
      LineComplete(ts, i + 1, k);
      LineComplete(ts, i + 1, k');
      LineOne(ts, sp, i + 1, k, inner, inner');
    }
  }

  lemma IsExecTree(ts: Kinds, sp: seq<Span>, i: nat, j: nat, c: Cmd)
    requires |sp| == |ts| && ExecTree(ts, sp, i, j, c)
    ensures IsExec(ts, i, j)
  {
    if !IsSimple(ts, i, j) {
      var k, inner :| i < k < j && BlockTree(ts, sp, i, j, k, c, inner);
    }
  }

  lemma {:induction false} PipeOne(ts: Kinds, sp: seq<Span>, i: nat, j: nat, c: Cmd, c': Cmd)
    requires |sp| == |ts| && i <= j <= |ts| && PipeTree(ts, sp, i, j, c) && PipeTree(ts, sp, i, j, c') && (j < |ts| ==> Closes(ts[j]) && ts[j] != '|')
    ensures c == c'
    decreases j - i, 1
  {
    var k := PipeCut(ts, sp, i, j, c);
    var k' := PipeCut(ts, sp, i, j, c');
    if k < j {
      ExecOne(ts, sp, i, k, c.left, c'.left);
      PipeOne(ts, sp, k + 1, j, c.right, c'.right);
    } else {
      ExecOne(ts, sp, i, j, c, c');
    }
  }

  /** Where the first command of a pipeline ends. */
  lemma PipeCut(ts: Kinds, sp: seq<Span>, i: nat, j: nat, c: Cmd) returns (k: nat)
    requires |sp| == |ts| && i <= j <= |ts| && PipeTree(ts, sp, i, j, c) && (j < |ts| ==> Closes(ts[j]) && ts[j] != '|')
    ensures i <= k <= j && Grammar.Exec(ts, i).Some? && k == Grammar.Exec(ts, i).value
    ensures if k < j then PipeTreeAt(ts, sp, i, j, k, c) else ExecTree(ts, sp, i, j, c)
  {
    if ExecTree(ts, sp, i, j, c) {
      k := j;
      IsExecTree(ts, sp, i, j, c);
      ExecComplete(ts, i, j);
    } else {
      k :| i <= k < j && PipeTreeAt(ts, sp, i, j, k, c);
      ExecComplete(ts, i, k);
    }
  }

  lemma {:induction false} BackOne(ts: Kinds, sp: seq<Span>, i: nat, j: nat, n: nat, c: Cmd, c': Cmd)
    requires |sp| == |ts| && i <= j <= |ts| && BackTree(ts, sp, i, j, n, c) && BackTree(ts, sp, i, j, n, c') && (j < |ts| ==> Closes(ts[j]) && ts[j] != '|')
    ensures c == c'
    decreases j - i, 2, n
  {
    if n == 0 {
      PipeOne(ts, sp, i, j, c, c');
    } else {
      BackOne(ts, sp, i, j, n - 1, c.cmd, c'.cmd);
    }
  }

  /** The tokens of a line determine its tree. */
  lemma {:induction false} LineOne(ts: Kinds, sp: seq<Span>, i: nat, j: nat, c: Cmd, c': Cmd)
    requires |sp| == |ts| && i <= j <= |ts| && LineTree(ts, sp, i, j, c) && LineTree(ts, sp, i, j, c') && (j < |ts| ==> ts[j] == ')')
    ensures c == c'
    decreases j - i, 3
  {
    var k, m :| i <= k <= m <= j && LineTreeAt(ts, sp, i, j, k, m, c);
    var k', m' :| i <= k' <= m' <= j && LineTreeAt(ts, sp, i, j, k', m', c');
    LineCut(ts, i, j, k, m);
    LineCut(ts, i, j, k', m');
    if m == j {
      BackOne(ts, sp, i, k, m - k, c, c');
    } else {
      BackOne(ts, sp, i, k, m - k, c.left, c'.left);
      LineOne(ts, sp, m + 1, j, c.right, c'.right);
    }
  }

  /** Where the first pipeline of a line ends, and its background marks. */
  lemma LineCut(ts: Kinds, i: nat, j: nat, k: nat, m: nat)
    requires LineAt(ts, i, j, k, m) && (j < |ts| ==> ts[j] == ')')
    ensures Grammar.Pipe(ts, i) == Some(k) && m == Amps(ts, k) && (k < |ts| ==> Closes(ts[k]) && ts[k] != '|')
  {
    PipeComplete(ts, i, k);
    AmpsComplete(ts, k, m);
  }

  // ----- building trees -----

  /** Redirections behind a simple command belong to it. */
  lemma {:induction false} SimpleRedirs(ts: Kinds, sp: seq<Span>, i: nat, u: nat, j: nat)
    requires i <= u <= j <= |ts| == |sp| && IsRedirs(ts, u, j)
    ensures Redirected(SimpleTree(ts, sp, i, u), ts, sp, u, j) == SimpleTree(ts, sp, i, j)
    decreases j - u
  {
    if u < j {
      LastRedir(ts, u, j);
      SimpleRedirs(ts, sp, i, u, j - 2);
    }
  }

  lemma {:induction false} LastRedir(ts: Kinds, u: nat, j: nat)
    requires u < j <= |ts| && IsRedirs(ts, u, j)
    ensures u + 2 <= j && RedirAt(ts, j - 2) && IsRedirs(ts, u, j - 2)
    decreases j - u
  {
    if u + 2 < j {
      LastRedir(ts, u + 2, j);
    }
  }

  lemma AsSimple(ts: Kinds, sp: seq<Span>, i: nat, w: nat)
    requires |sp| == |ts| && i <= |ts| && !Is(ts, i, '(') && Grammar.Exec(ts, i) == Some(w)
    ensures ExecTree(ts, sp, i, w, SimpleTree(ts, sp, i, w))
  {
    var n := ArgsSound(ts, i, 0);
    assert IsSimple(ts, i, w);
  }

  lemma InBlock(ts: Kinds, sp: seq<Span>, i: nat, u: nat, w: nat, inner: Cmd)
    requires |sp| == |ts| && Is(ts, i, '(') && Grammar.Line(ts, i + 1) == Some(u) && Is(ts, u, ')') && Redirs(ts, u + 1) == Some(w)
    requires LineTree(ts, sp, i + 1, u, inner)
    ensures ExecTree(ts, sp, i, w, Redirected(inner, ts, sp, u + 1, w))
  {
    hide LineTree, IsLine, Grammar.Line, Redirs, IsRedirs, Redirected;
    LineSound(ts, i + 1);
    RedirsSound(ts, u + 1);
    assert BlockTree(ts, sp, i, w, u, Redirected(inner, ts, sp, u + 1, w), inner);
  }

  lemma AsPipe(ts: Kinds, sp: seq<Span>, i: nat, j: nat, k: nat, c: Cmd)
    requires |sp| == |ts| && PipeTreeAt(ts, sp, i, j, k, c)
    ensures PipeTree(ts, sp, i, j, c)
  {
    hide ExecTree, IsExec, IsPipe;
  }

  lemma JoinPipe(ts: Kinds, sp: seq<Span>, i: nat, u: nat, w: nat, l: Cmd, r: Cmd)
    requires |sp| == |ts| && i <= |ts| && Grammar.Exec(ts, i) == Some(u) && Is(ts, u, '|') && Grammar.Pipe(ts, u + 1) == Some(w)
    requires ExecTree(ts, sp, i, u, l) && PipeTree(ts, sp, u + 1, w, r)
    ensures PipeTree(ts, sp, i, w, Pipe(l, r))
  {
    hide ExecTree, PipeTree, IsExec, IsPipe, Grammar.Exec, Grammar.Pipe;
    ExecSound(ts, i);
    PipeSound(ts, u + 1);
    AsPipe(ts, sp, i, w, u, Pipe(l, r));
  }

  lemma LineIs(ts: Kinds, i: nat, u: nat, v: nat)
    requires i <= |ts| && Grammar.Pipe(ts, i) == Some(u) && v == Amps(ts, u)
    ensures i <= u <= v <= |ts| && IsPipe(ts, i, u) && IsAmps(ts, u, v)
  {
    PipeSound(ts, i);
    AmpsSound(ts, u);
  }

  lemma AsLine(ts: Kinds, sp: seq<Span>, i: nat, j: nat, k: nat, m: nat, c: Cmd)
    requires |sp| == |ts| && LineTreeAt(ts, sp, i, j, k, m, c)
    ensures LineTree(ts, sp, i, j, c)
  {
    hide BackTree, IsLine, IsPipe;
  }

  lemma LastLine(ts: Kinds, sp: seq<Span>, i: nat, u: nat, v: nat, c: Cmd)
    requires |sp| == |ts| && i <= |ts| && Grammar.Pipe(ts, i) == Some(u) && v == Amps(ts, u) && BackTree(ts, sp, i, u, v - u, c)
    ensures LineTree(ts, sp, i, v, c)
  {
    hide BackTree, LineTree, IsPipe, Grammar.Pipe, IsAmps, Amps;
    LineIs(ts, i, u, v);
    AsLine(ts, sp, i, v, u, v, c);
  }

  lemma JoinLine(ts: Kinds, sp: seq<Span>, i: nat, u: nat, v: nat, w: nat, l: Cmd, r: Cmd)
    requires |sp| == |ts| && i <= |ts| && Grammar.Pipe(ts, i) == Some(u) && v == Amps(ts, u) && Is(ts, v, ';') && Grammar.Line(ts, v + 1) == Some(w)
    requires BackTree(ts, sp, i, u, v - u, l) && LineTree(ts, sp, v + 1, w, r)
    ensures LineTree(ts, sp, i, w, List(l, r))
  {
    hide BackTree, LineTree, IsPipe, IsLine, Grammar.Pipe, Grammar.Line, IsAmps, Amps;
    LineIs(ts, i, u, v);
    LineSound(ts, v + 1);
    AsLine(ts, sp, i, w, u, v, List(l, r));
  }
}
