/** The shell's grammar over token kinds, and the recursive descent that decides it. A kind
    is the token's own sign, '+' for >> or 'a' for a word. */
module Grammar {
  import opened Wrappers

  const MAXARGS: nat := 10

  type Kinds = seq<char>

  predicate Op(c: char) { c == '<' || c == '>' || c == '+' }

  predicate Closes(c: char) { c == '|' || c == ')' || c == '&' || c == ';' }

  predicate Is(ts: Kinds, i: nat, c: char) { i < |ts| && ts[i] == c }

  /** An operator and its file. */
  predicate RedirAt(ts: Kinds, i: nat) { i + 1 < |ts| && Op(ts[i]) && ts[i + 1] == 'a' }

  // ----- the language: tokens i to j are such a part -----

  /** Redirections, any number of them. */
  ghost predicate IsRedirs(ts: Kinds, i: nat, j: nat)
    decreases |ts| - i
  {
    i == j || (RedirAt(ts, i) && i + 2 <= j && IsRedirs(ts, i + 2, j))
  }

  /** n words, with redirections in front of, between and behind them. */
  ghost predicate IsArgs(ts: Kinds, i: nat, j: nat, n: nat)
    decreases |ts| - i
  {
    if i == j then n == 0
    else if Is(ts, i, 'a') then n > 0 && i < j && IsArgs(ts, i + 1, j, n - 1)
    else RedirAt(ts, i) && i + 2 <= j && IsArgs(ts, i + 2, j, n)
  }

  ghost predicate IsAmps(ts: Kinds, i: nat, j: nat) { i <= j <= |ts| && forall k :: i <= k < j ==> ts[k] == '&' }

  /** A simple command of fewer than MAXARGS words. */
  ghost predicate IsSimple(ts: Kinds, i: nat, j: nat) { exists n :: 0 <= n < MAXARGS && IsArgs(ts, i, j, n) }

  /** A line in parentheses that close at k, with redirections behind. */
  ghost predicate BlockAt(ts: Kinds, i: nat, j: nat, k: nat)
    decreases j - i, 0
  {
    i < k < j <= |ts| && ts[i] == '(' && ts[k] == ')' && IsLine(ts, i + 1, k) && IsRedirs(ts, k + 1, j)
  }

  ghost predicate IsExec(ts: Kinds, i: nat, j: nat)
    decreases j - i, 1
  {
    i <= j <= |ts| && (IsSimple(ts, i, j) || exists k :: i < k < j && BlockAt(ts, i, j, k))
  }

  ghost predicate PipeAt(ts: Kinds, i: nat, j: nat, k: nat)
    decreases j - i, 1
  {
    i <= k < j <= |ts| && ts[k] == '|' && IsExec(ts, i, k) && IsPipe(ts, k + 1, j)
  }

  ghost predicate IsPipe(ts: Kinds, i: nat, j: nat)
    decreases j - i, 2
  {
    IsExec(ts, i, j) || exists k :: i <= k < j && PipeAt(ts, i, j, k)
  }

  /** A pipeline up to k, '&' signs up to m and, behind a ';', another line. */
  ghost predicate LineAt(ts: Kinds, i: nat, j: nat, k: nat, m: nat)
    decreases j - i, 3
  {
    i <= k <= m <= j <= |ts| && IsPipe(ts, i, k) && IsAmps(ts, k, m) && (m == j || (ts[m] == ';' && IsLine(ts, m + 1, j)))
  }

  ghost predicate IsLine(ts: Kinds, i: nat, j: nat)
    decreases j - i, 4
  {
    exists k, m :: i <= k <= m <= j && LineAt(ts, i, j, k, m)
  }

  // ----- the descent: where the part that starts at i ends, or None for a panic -----

  function Redirs(ts: Kinds, i: nat): (r: Option<nat>)
    requires i <= |ts|
    ensures r.Some? ==> i <= r.value <= |ts|
    decreases |ts| - i
  {
    if i == |ts| || !Op(ts[i]) then Some(i)
    else if RedirAt(ts, i) then Redirs(ts, i + 2)
    else None
  }

  /** Words and redirections, with n words before. */
  function Args(ts: Kinds, i: nat, n: nat): (r: Option<nat>)
    requires i <= |ts|
    ensures r.Some? ==> i <= r.value <= |ts|
    decreases |ts| - i, 1
  {
    match Redirs(ts, i)
    case None => None
    case Some(u) => Words(ts, u, n)
  }

  /** The next word, behind redirections. */
  function Words(ts: Kinds, i: nat, n: nat): (r: Option<nat>)
    requires i <= |ts|
    ensures r.Some? ==> i <= r.value <= |ts|
    decreases |ts| - i, 0
  {
    if i == |ts| || Closes(ts[i]) then Some(i)
    else if ts[i] != 'a' || n + 1 >= MAXARGS then None
    else Args(ts, i + 1, n + 1)
  }

  function Exec(ts: Kinds, i: nat): (r: Option<nat>)
    requires i <= |ts|
    ensures r.Some? ==> i <= r.value <= |ts|
    decreases |ts| - i, 0
  {
    if Is(ts, i, '(') then
      match Line(ts, i + 1)
      case None => None
      case Some(u) => if Is(ts, u, ')') then Redirs(ts, u + 1) else None
    else Args(ts, i, 0)
  }

  lemma ExecIs(ts: Kinds, i: nat)
    requires i <= |ts| && !Is(ts, i, '(')
    ensures Exec(ts, i) == match Redirs(ts, i) case None => None case Some(u) => Words(ts, u, 0)
  {
  }

  lemma WordsIs(ts: Kinds, i: nat, n: nat)
    requires i <= |ts|
    ensures i == |ts| || Closes(ts[i]) ==> Words(ts, i, n) == Some(i)
    ensures i < |ts| && !Closes(ts[i]) && (ts[i] != 'a' || n + 1 >= MAXARGS) ==> Words(ts, i, n) == None
    ensures i < |ts| && ts[i] == 'a' && n + 1 < MAXARGS ==>
      Words(ts, i, n) == match Redirs(ts, i + 1) case None => None case Some(u) => Words(ts, u, n + 1)
  {
  }

  function Pipe(ts: Kinds, i: nat): (r: Option<nat>)
    requires i <= |ts|
    ensures r.Some? ==> i <= r.value <= |ts|
    decreases |ts| - i, 1
  {
    match Exec(ts, i)
    case None => None
    case Some(u) => if Is(ts, u, '|') then Pipe(ts, u + 1) else Some(u)
  }

  function Amps(ts: Kinds, i: nat): (r: nat)
    requires i <= |ts|
    ensures i <= r <= |ts|
    decreases |ts| - i
  {
    if Is(ts, i, '&') then Amps(ts, i + 1) else i
  }

  function Line(ts: Kinds, i: nat): (r: Option<nat>)
    requires i <= |ts|
    ensures r.Some? ==> i <= r.value <= |ts|
    decreases |ts| - i, 2
  {
    match Pipe(ts, i)
    case None => None
    case Some(u) => var v := Amps(ts, u); if Is(ts, v, ';') then Line(ts, v + 1) else Some(v)
  }

  // ----- what it accepts is in the language -----

  lemma {:induction false} RedirsSound(ts: Kinds, i: nat)
    requires i <= |ts| && Redirs(ts, i).Some?
    ensures IsRedirs(ts, i, Redirs(ts, i).value)
    decreases |ts| - i
  {
    if i < |ts| && Op(ts[i]) {
      RedirsSound(ts, i + 2);
    }
  }

  lemma {:induction false} RedirsThenArgs(ts: Kinds, i: nat, u: nat, j: nat, n: nat)
    requires i <= u <= j <= |ts| && IsRedirs(ts, i, u) && IsArgs(ts, u, j, n)
    ensures IsArgs(ts, i, j, n)
    decreases u - i
  {
    if i < u {
      RedirsThenArgs(ts, i + 2, u, j, n);
    }
  }

  /** The words of the part that Args takes, with n before it. */
  lemma {:induction false} ArgsSound(ts: Kinds, i: nat, n: nat) returns (k: nat)
    requires i <= |ts| && Args(ts, i, n).Some? && n < MAXARGS
    ensures n + k < MAXARGS && IsArgs(ts, i, Args(ts, i, n).value, k)
    decreases |ts| - i
  {
    var u, w := Redirs(ts, i).value, Args(ts, i, n).value;
    RedirsSound(ts, i);
    k := 0;
    if u < |ts| && !Closes(ts[u]) {
      k := ArgsSound(ts, u + 1, n + 1);
      k := k + 1;
    }
    RedirsThenArgs(ts, i, u, w, k);
  }

  lemma {:induction false} ExecSound(ts: Kinds, i: nat)
    requires i <= |ts| && Exec(ts, i).Some?
    ensures IsExec(ts, i, Exec(ts, i).value)
    decreases |ts| - i, 0
  {
    var w := Exec(ts, i).value;
    if Is(ts, i, '(') {
      LineSound(ts, i + 1);
      var u := Line(ts, i + 1).value;
      RedirsSound(ts, u + 1);
      assert BlockAt(ts, i, w, u);
    } else {
      var n := ArgsSound(ts, i, 0);
      assert IsSimple(ts, i, w);
    }
  }

  lemma {:induction false} PipeSound(ts: Kinds, i: nat)
    requires i <= |ts| && Pipe(ts, i).Some?
    ensures IsPipe(ts, i, Pipe(ts, i).value)
    decreases |ts| - i, 1
  {
    var w, u := Pipe(ts, i).value, Exec(ts, i).value;
    ExecSound(ts, i);
    if Is(ts, u, '|') {
      PipeSound(ts, u + 1);
      assert PipeAt(ts, i, w, u);
    }
  }

  lemma {:induction false} AmpsSound(ts: Kinds, i: nat)
    requires i <= |ts|
    ensures IsAmps(ts, i, Amps(ts, i))
    decreases |ts| - i
  {
    if Is(ts, i, '&') {
      AmpsSound(ts, i + 1);
    }
  }

  lemma {:induction false} LineSound(ts: Kinds, i: nat)
    requires i <= |ts| && Line(ts, i).Some?
    ensures IsLine(ts, i, Line(ts, i).value)
    decreases |ts| - i, 2
  {
    var w, u := Line(ts, i).value, Pipe(ts, i).value;
    var v := Amps(ts, u);
    PipeSound(ts, i);
    AmpsSound(ts, u);
    if Is(ts, v, ';') {
      LineSound(ts, v + 1);
    }
    assert LineAt(ts, i, w, u, v);
  }

  // ----- what is in the language it accepts -----

  lemma {:induction false} RedirsComplete(ts: Kinds, i: nat, j: nat)
    requires i <= j <= |ts| && IsRedirs(ts, i, j) && (j < |ts| ==> !Op(ts[j]))
    ensures Redirs(ts, i) == Some(j)
    decreases j - i
  {
    if i < j {
      RedirsComplete(ts, i + 2, j);
    }
  }

  lemma {:induction false} ArgsComplete(ts: Kinds, i: nat, j: nat, n: nat, before: nat)
    requires i <= j <= |ts| && IsArgs(ts, i, j, n) && before + n < MAXARGS && (j < |ts| ==> Closes(ts[j]))
    ensures Args(ts, i, before) == Some(j)
    decreases j - i
  {
    if i < j {
      if Is(ts, i, 'a') {
        ArgsComplete(ts, i + 1, j, n - 1, before + 1);
      } else {
        ArgsComplete(ts, i + 2, j, n, before);
      }
    }
  }

  lemma NoParen(ts: Kinds, i: nat, j: nat, n: nat)
    requires i <= j <= |ts| && IsArgs(ts, i, j, n) && (j < |ts| ==> Closes(ts[j]))
    ensures !Is(ts, i, '(')
  {
  }

  lemma {:induction false} ExecComplete(ts: Kinds, i: nat, j: nat)
    requires IsExec(ts, i, j) && (j < |ts| ==> Closes(ts[j]))
    ensures Exec(ts, i) == Some(j)
    decreases j - i, 0
  {
    if IsSimple(ts, i, j) {
      var n :| 0 <= n < MAXARGS && IsArgs(ts, i, j, n);
      NoParen(ts, i, j, n);
      ArgsComplete(ts, i, j, n, 0);
    } else {
      var k :| i < k < j && BlockAt(ts, i, j, k);
      LineComplete(ts, i + 1, k);
      RedirsComplete(ts, k + 1, j);
    }
  }

  lemma {:induction false} PipeComplete(ts: Kinds, i: nat, j: nat)
    requires i <= j <= |ts| && IsPipe(ts, i, j) && (j < |ts| ==> Closes(ts[j]) && ts[j] != '|')
    ensures Pipe(ts, i) == Some(j)
    decreases j - i, 1
  {
    if IsExec(ts, i, j) {
      ExecComplete(ts, i, j);
    } else {
      var k :| i <= k < j && PipeAt(ts, i, j, k);
      ExecComplete(ts, i, k);
      PipeComplete(ts, k + 1, j);
    }
  }

  lemma {:induction false} AmpsComplete(ts: Kinds, i: nat, j: nat)
    requires IsAmps(ts, i, j) && (j < |ts| ==> ts[j] != '&')
    ensures Amps(ts, i) == j
    decreases j - i
  {
    if i < j {
      AmpsComplete(ts, i + 1, j);
    }
  }

  lemma {:induction false} LineComplete(ts: Kinds, i: nat, j: nat)
    requires i <= j <= |ts| && IsLine(ts, i, j) && (j < |ts| ==> ts[j] == ')')
    ensures Line(ts, i) == Some(j)
    decreases j - i, 2
  {
    var k, m :| i <= k <= m <= j && LineAt(ts, i, j, k, m);
    PipeComplete(ts, i, k);
    AmpsComplete(ts, k, m);
    if m < j {
      LineComplete(ts, m + 1, j);
    }
  }

  /** The descent takes all tokens exactly if they are a line. */
  lemma Accepts(ts: Kinds)
    ensures Line(ts, 0) == Some(|ts|) <==> IsLine(ts, 0, |ts|)
  {
    if Line(ts, 0) == Some(|ts|) {
      LineSound(ts, 0);
    }
    if IsLine(ts, 0, |ts|) {
      LineComplete(ts, 0, |ts|);
    }
  }
}
