/** The shell's parser: from a line to a command tree whose words are slices of the line,
    and the pass that turns the slices into C strings. */
module Shell {
  import Counting
  import Grammar
  import opened Command
  import opened Wrappers

  const MAXARGS: nat := Grammar.MAXARGS

  // ----- lines and words -----

  predicate Blank(c: char) { c == ' ' || c == '\t' || c == '\r' || c == '\n' || c == '\U{000B}' }
  predicate Symbol(c: char) { c == '<' || c == '|' || c == '>' || c == '&' || c == ';' || c == '(' || c == ')' }
  predicate Wordy(c: char) { c != '\0' && !Blank(c) && !Symbol(c) }

  ghost predicate Line(s: string) { forall i :: 0 <= i < |s| ==> s[i] != '\0' }

  /** The character at a position of a C string, '\0' at its end. */
  function At(s: string, i: nat): char { if i < |s| then s[i] else '\0' }

  /** A word: a longest run of word characters. */
  predicate IsWord(s: string, q: nat, e: nat) {
    q < e <= |s| && (forall i :: q <= i < e ==> Wordy(s[i])) && (q == 0 || !Wordy(s[q - 1])) && !Wordy(At(s, e))
  }

  ghost function Words(s: string, a: nat, b: nat): set<Span> {
    set q: nat, e: nat | a <= q < b && q < e <= b && IsWord(s, q, e) :: (q, e)
  }

  /** No word runs across p. */
  predicate Cut(s: string, p: nat) { p <= |s| && !(p > 0 && Wordy(s[p - 1]) && Wordy(At(s, p))) }

  lemma InWord(s: string, q: nat, e: nat, i: int)
    requires IsWord(s, q, e) && q <= i < e
    ensures 0 <= i < |s| && Wordy(s[i])
  {
  }

  /** A word lies on one side of a cut, and two words that meet are the same. */
  lemma WordSide(s: string, q: nat, e: nat, m: nat)
    requires IsWord(s, q, e) && Cut(s, m)
    ensures e <= m || m <= q
  {
    if q < m < e {
      InWord(s, q, e, m - 1);
      InWord(s, q, e, m);
    }
  }

  lemma SameWord(s: string, q: nat, e: nat, x: nat, y: nat)
    requires IsWord(s, q, e) && IsWord(s, x, y) && q <= x < e
    ensures q == x && e == y
  {
    if q < x {
      InWord(s, q, e, x - 1);
    } else if y < e {
      InWord(s, q, e, y);
    } else if e < y {
      InWord(s, x, y, e);
    }
  }

  lemma WordsSplit(s: string, a: nat, m: nat, b: nat)
    requires a <= m <= b && Cut(s, m)
    ensures Words(s, a, b) == Words(s, a, m) + Words(s, m, b) && Words(s, a, m) !! Words(s, m, b)
  {
    hide IsWord, Cut;
    forall q: nat, e: nat | a <= q < b && q < e <= b && IsWord(s, q, e) ensures e <= m || m <= q {
      WordSide(s, q, e, m);
    }
  }

  /** Only blanks and symbols: no words. */
  lemma WordsNone(s: string, a: nat, b: nat)
    requires b <= |s| && forall i :: a <= i < b ==> !Wordy(s[i])
    ensures Words(s, a, b) == {}
  {
    forall q: nat, e: nat | a <= q < b && q < e <= b ensures !IsWord(s, q, e) {
      if IsWord(s, q, e) {
        InWord(s, q, e, q);
      }
    }
  }

  lemma WordsOne(s: string, a: nat, q: nat, e: nat, b: nat)
    requires a <= q < e <= b <= |s| && IsWord(s, q, e) && (forall i :: a <= i < q || e <= i < b ==> !Wordy(s[i]))
    ensures Words(s, a, b) == {(q, e)}
  {
    forall x: nat, y: nat | a <= x < b && x < y <= b && IsWord(s, x, y) ensures (x, y) == (q, e) {
      InWord(s, x, y, x);
      SameWord(s, q, e, x, y);
    }
    assert (q, e) in Words(s, a, b);
  }

  // ----- commands -----

  /** All words stored in a tree. */
  ghost function Spans(c: Cmd): multiset<Span> {
    match c
    case Exec(args) => multiset(args)
    case Redir(d, file, _, _) => Spans(d) + multiset{file}
    case Pipe(l, r) => Spans(l) + Spans(r)
    case List(l, r) => Spans(l) + Spans(r)
    case Back(d) => Spans(d)
  }

  /** No command has too many arguments for its argv. */
  predicate Roomy(c: Cmd) {
    match c
    case Exec(args) => |args| < MAXARGS
    case Redir(d, _, _, _) => Roomy(d)
    case Pipe(l, r) => Roomy(l) && Roomy(r)
    case List(l, r) => Roomy(l) && Roomy(r)
    case Back(d) => Roomy(d)
  }

  /** The operator in front of a redirection's file, blanks between. */
  ghost predicate Operator(s: string, q: nat, mode: Mode, fd: nat) { exists k :: OperatorAt(s, k, q, mode, fd) }

  predicate OperatorAt(s: string, k: nat, q: nat, mode: Mode, fd: nat) {
    k < q <= |s| && (forall i :: k < i < q ==> Blank(s[i])) &&
    match mode
    case Read => s[k] == '<' && fd == 0
    case Write => s[k] == '>' && !(k > 0 && s[k - 1] == '>') && fd == 1
    case Append => s[k] == '>' && k > 0 && s[k - 1] == '>' && fd == 1
  }

  /** Where each part of the tree comes from: arguments in order, redirections behind
      their operator, the sides of a pipe or list on the two sides of its sign. */
  ghost predicate Shape(s: string, c: Cmd, a: nat, b: nat) {
    match c
    case Exec(args) => (forall i :: 0 <= i < |args| ==> a <= args[i].0 && args[i].1 <= b) && forall i, j :: 0 <= i < j < |args| ==> args[i].1 <= args[j].0
    case Redir(d, file, mode, fd) => Shape(s, d, a, b) && a <= file.0 && file.1 <= b && Operator(s, file.0, mode, fd)
    case Pipe(l, r) => exists m :: a <= m < b && At(s, m) == '|' && Shape(s, l, a, m) && Shape(s, r, m + 1, b)
    case List(l, r) => exists m :: a <= m < b && At(s, m) == ';' && Shape(s, l, a, m) && Shape(s, r, m + 1, b)
    case Back(d) => exists m :: a <= m < b && At(s, m) == '&' && Shape(s, d, a, m)
  }

  lemma ShapeWider(s: string, c: Cmd, a: nat, b: nat, a': nat, b': nat)
    requires Shape(s, c, a, b) && a' <= a && b <= b'
    ensures Shape(s, c, a', b')
  {
    match c
    case Exec(_) =>
    case Redir(d, _, _, _) => ShapeWider(s, d, a, b, a', b');
    case Pipe(l, r) =>
      var m :| a <= m < b && At(s, m) == '|' && Shape(s, l, a, m) && Shape(s, r, m + 1, b);
      ShapeWider(s, l, a, m, a', m);
      ShapeWider(s, r, m + 1, b, m + 1, b');
    case List(l, r) =>
      var m :| a <= m < b && At(s, m) == ';' && Shape(s, l, a, m) && Shape(s, r, m + 1, b);
      ShapeWider(s, l, a, m, a', m);
      ShapeWider(s, r, m + 1, b, m + 1, b');
    case Back(d) =>
      var m :| a <= m < b && At(s, m) == '&' && Shape(s, d, a, m);
      ShapeWider(s, d, a, m, a', m);
  }

  /** A tree for positions a..b: it holds each word there exactly once. */
  ghost predicate Parsed(s: string, c: Cmd, a: nat, b: nat) {
    a <= b <= |s| && Start(s, b) && Shape(s, c, a, b) && Spans(c) == multiset(Words(s, a, b))
  }

  /** A place between tokens. */
  predicate Start(s: string, p: nat) { Cut(s, p) && !(p > 0 && s[p - 1] == '>') }

  datatype Reason = MissingFile | MissingParen | TooManyArgs | Unexpected | Leftovers

  datatype Result = Ok(cmd: Cmd, pos: nat) | Panic(why: Reason, at: nat)

  // ----- tokens -----

  ghost predicate Blanks(s: string, a: nat, b: nat) { a <= b <= |s| && forall i :: a <= i < b ==> Blank(s[i]) }

  method Skip(s: string, p: nat) returns (r: nat)
    requires p <= |s|
    ensures Blanks(s, p, r) && !Blank(At(s, r))
  {
    r := p;
    while r < |s| && Blank(s[r])
      invariant p <= r <= |s| && Blanks(s, p, r)
    {
      r := r + 1;
    }
  }

  /** What gettoken finds at q: the token's character, or 'a' for a word, '+' for >> and
      '\0' for the end of the line. */
  ghost predicate Token(s: string, q: nat, e: nat, tok: char) {
    q <= e <= |s| &&
    if q == |s| then tok == '\0' && e == q
    else if s[q] == '>' && At(s, q + 1) == '>' then tok == '+' && e == q + 2
    else if Symbol(s[q]) then tok == s[q] && e == q + 1
    else tok == 'a' && IsWord(s, q, e)
  }

  method GetToken(s: string, p: nat) returns (tok: char, q: nat, e: nat, r: nat)
    requires Line(s) && Cut(s, p)
    ensures Blanks(s, p, q) && Token(s, q, e, tok) && Blanks(s, e, r) && !Blank(At(s, r))
  {
    q := Skip(s, p);
    e := q;
    tok := At(s, q);
    if tok == '\0' {
    } else if tok == '>' {
      e := e + 1;
      if At(s, e) == '>' {
        tok := '+';
        e := e + 1;
      }
    } else if Symbol(tok) {
      e := e + 1;
    } else {
      tok := 'a';
      while e < |s| && !Blank(s[e]) && !Symbol(s[e])
        invariant q <= e <= |s| && forall i :: q <= i < e ==> Wordy(s[i])
      {
        e := e + 1;
      }
    }
    r := Skip(s, e);
  }

  method Peek(s: string, p: nat, toks: string) returns (found: bool, r: nat)
    requires Line(s) && p <= |s|
    ensures Blanks(s, p, r) && !Blank(At(s, r)) && found == (At(s, r) != '\0' && At(s, r) in toks)
  {
    r := Skip(s, p);
    found := At(s, r) != '\0' && At(s, r) in toks;
  }

  /** Blanks keep a place between tokens, and hold no words. */
  lemma BlanksStart(s: string, a: nat, b: nat)
    requires Blanks(s, a, b) && Start(s, a)
    ensures Start(s, b) && Words(s, a, b) == {}
  {
    WordsNone(s, a, b);
  }

  /** A token and the blanks around it: its words, and the place behind it. */
  lemma TokenWords(s: string, p: nat, q: nat, e: nat, r: nat, tok: char)
    requires Line(s) && Cut(s, p) && Blanks(s, p, q) && Token(s, q, e, tok) && Blanks(s, e, r)
    ensures Cut(s, r) && Words(s, p, r) == if tok == 'a' then {(q, e)} else {}
    ensures tok != '>' && tok != '+' && (tok != '\0' || Start(s, p)) ==> Start(s, r)
  {
    if tok == 'a' {
      WordsOne(s, p, q, e, r);
    } else {
      WordsNone(s, p, r);
    }
  }

  /** Two parts with a sign between them. */
  lemma JoinWords(s: string, a: nat, p: nat, r: nat, b: nat)
    requires a <= p <= r <= b && Cut(s, p) && Cut(s, r) && Words(s, p, r) == {}
    ensures multiset(Words(s, a, b)) == multiset(Words(s, a, p)) + multiset(Words(s, r, b))
  {
    WordsSplit(s, a, p, b);
    WordsSplit(s, p, r, b);
  }

  lemma AddWord(s: string, a: nat, p: nat, r: nat, w: Span)
    requires a <= p <= r && Cut(s, p) && Words(s, p, r) == {w}
    ensures multiset(Words(s, a, r)) == multiset(Words(s, a, p)) + multiset{w}
  {
    WordsSplit(s, a, p, r);
  }

  lemma MoreBlanks(s: string, c: Cmd, a: nat, p: nat, r: nat)
    requires Parsed(s, c, a, p) && Blanks(s, p, r)
    ensures Parsed(s, c, a, r)
  {
    BlanksStart(s, p, r);
    WordsSplit(s, a, p, r);
    ShapeWider(s, c, a, p, a, r);
  }

  // ----- the tokens of the line -----

  function SkipTo(s: string, p: nat): (r: nat)
    requires p <= |s|
    ensures p <= r <= |s|
    decreases |s| - p
  {
    if p < |s| && Blank(s[p]) then SkipTo(s, p + 1) else p
  }

  function WordTo(s: string, p: nat): (r: nat)
    requires p <= |s|
    ensures p <= r <= |s|
    decreases |s| - p
  {
    if p < |s| && Wordy(s[p]) then WordTo(s, p + 1) else p
  }

  function KindOf(s: string, q: nat): char
    requires q < |s|
  {
    if s[q] == '>' && At(s, q + 1) == '>' then '+' else if Symbol(s[q]) then s[q] else 'a'
  }

  function EndOf(s: string, q: nat): (e: nat)
    requires q < |s|
    ensures q < e <= |s|
  {
    if s[q] == '>' && At(s, q + 1) == '>' then q + 2 else if Symbol(s[q]) then q + 1 else WordTo(s, q + 1)
  }

  /** The kinds of the tokens from p on. */
  ghost function Tokens(s: string, p: nat): Grammar.Kinds
    requires p <= |s|
    decreases |s| - p
  {
    var q := SkipTo(s, p);
    if q == |s| then [] else [KindOf(s, q)] + Tokens(s, EndOf(s, q))
  }

  /** Where they lie. */
  ghost function TokSpans(s: string, p: nat): (r: seq<Span>)
    requires p <= |s|
    ensures |r| == |Tokens(s, p)|
    decreases |s| - p
  {
    var q := SkipTo(s, p);
    if q == |s| then [] else [(q, EndOf(s, q))] + TokSpans(s, EndOf(s, q))
  }

  ghost function AllTokens(s: string): Grammar.Kinds { Tokens(s, 0) }

  ghost function AllSpans(s: string): (r: seq<Span>)
    ensures |r| == |AllTokens(s)|
  {
    TokSpans(s, 0)
  }

  /** Position p is in front of token i. */
  ghost predicate AtTok(s: string, p: nat, i: nat) {
    p <= |s| && i <= |AllTokens(s)| && Tokens(s, p) == AllTokens(s)[i..] && TokSpans(s, p) == AllSpans(s)[i..]
  }

  lemma {:induction false} SkipsTo(s: string, p: nat, r: nat)
    requires Blanks(s, p, r) && !Blank(At(s, r))
    ensures SkipTo(s, p) == r
    decreases r - p
  {
    if p < r {
      SkipsTo(s, p + 1, r);
    }
  }

  lemma {:induction false} SkipFrom(s: string, p: nat, r: nat)
    requires Blanks(s, p, r)
    ensures SkipTo(s, p) == SkipTo(s, r)
    decreases r - p
  {
    if p < r {
      SkipFrom(s, p + 1, r);
    }
  }

  lemma {:induction false} WordsTo(s: string, p: nat, e: nat)
    requires p <= e <= |s| && (forall i :: p <= i < e ==> Wordy(s[i])) && !Wordy(At(s, e))
    ensures WordTo(s, p) == e
    decreases e - p
  {
    if p < e {
      WordsTo(s, p + 1, e);
    }
  }

  /** Blanks in front do not matter. */
  lemma Skipped(s: string, p: nat, r: nat, i: nat)
    requires AtTok(s, p, i) && Blanks(s, p, r)
    ensures AtTok(s, r, i)
  {
    SkipFrom(s, p, r);
  }

  lemma TokenIs(s: string, q: nat, e: nat, tok: char)
    requires Token(s, q, e, tok) && q < |s|
    ensures !Blank(s[q]) && tok == KindOf(s, q) && e == EndOf(s, q)
  {
    if tok == 'a' && !Symbol(s[q]) {
      WordsTo(s, q + 1, e);
    }
  }

  /** What gettoken returns is the next token. */
  lemma Take(s: string, p: nat, q: nat, e: nat, r: nat, tok: char, i: nat)
    requires Line(s) && AtTok(s, p, i) && Blanks(s, p, q) && Token(s, q, e, tok) && Blanks(s, e, r)
    ensures tok == '\0' <==> i == |AllTokens(s)|
    ensures tok != '\0' ==> Grammar.Is(AllTokens(s), i, tok) && AllSpans(s)[i] == (q, e) && AtTok(s, r, i + 1)
  {
    if q < |s| {
      TokenIs(s, q, e, tok);
      hide Token, KindOf, EndOf;
      SkipsTo(s, p, q);
      assert Tokens(s, p) == [tok] + Tokens(s, e) && TokSpans(s, p) == [(q, e)] + TokSpans(s, e);
      assert AllTokens(s)[i..][1..] == AllTokens(s)[i + 1..] && AllSpans(s)[i..][1..] == AllSpans(s)[i + 1..];
      SkipFrom(s, e, r);
      assert Tokens(s, e) == Tokens(s, r) && TokSpans(s, e) == TokSpans(s, r);
    } else {
      SkipsTo(s, p, q);
    }
  }

  /** What peek sees is the next token. */
  lemma First(s: string, p: nat, i: nat)
    requires Line(s) && AtTok(s, p, i) && !Blank(At(s, p))
    ensures At(s, p) == '\0' <==> i == |AllTokens(s)|
    ensures i < |AllTokens(s)| ==> p < |s| && AllTokens(s)[i] == KindOf(s, p)
  {
    SkipsTo(s, p, p);
  }

  /** The same, for the sets of signs that the parser looks for. */
  lemma Sees(s: string, p: nat, i: nat)
    requires Line(s) && AtTok(s, p, i) && !Blank(At(s, p))
    ensures var ts := AllTokens(s); At(s, p) == '\0' <==> i == |ts|
    ensures var ts := AllTokens(s); i < |ts| ==> (At(s, p) in "<>" <==> Grammar.Op(ts[i])) && (At(s, p) in "|)&;" <==> Grammar.Closes(ts[i]))
    ensures var ts := AllTokens(s); (At(s, p) == '(' <==> Grammar.Is(ts, i, '(')) && (At(s, p) == ')' <==> Grammar.Is(ts, i, ')'))
    ensures var ts := AllTokens(s); (At(s, p) == '|' <==> Grammar.Is(ts, i, '|')) && (At(s, p) == '&' <==> Grammar.Is(ts, i, '&')) && (At(s, p) == ';' <==> Grammar.Is(ts, i, ';'))
  {
    First(s, p, i);
    hide AtTok, Tokens, AllTokens;
  }

  // ----- why the parser gives up -----

  ghost predicate Blame(s: string, why: Reason, at: nat) {
    at <= |s| &&
    match why
    case MissingFile => !Wordy(At(s, at)) && exists k :: 0 <= k < at && (s[k] == '<' || s[k] == '>')
    case MissingParen => At(s, at) != ')' && exists k :: 0 <= k < at && s[k] == '('
    case TooManyArgs => |Words(s, 0, at)| >= MAXARGS
    case Unexpected => At(s, at) == '('
    case Leftovers => at < |s| && exists k :: 0 <= k <= at && (s[k] == '(' || s[k] == ')' || s[k] == '&')
  }

  /** The method has gone the way of the descent, from token to token. */
  ghost predicate Follows(s: string, r: Result, j: nat, g: Option<nat>) {
    match r case Ok(_, pos) => g == Some(j) && AtTok(s, pos, j) case Panic(_, _) => g == None
  }

  lemma TokSize(s: string, p: nat, i: nat)
    requires AtTok(s, p, i)
    ensures i <= |AllTokens(s)|
  {
  }

  // ----- redirections -----

  method ParseRedirs(c: Cmd, s: string, ghost a: nat, p: nat, ghost i: nat) returns (r: Result, ghost j: nat)
    requires Line(s) && Parsed(s, c, a, p) && AtTok(s, p, i)
    ensures r.Ok? ==> Parsed(s, r.cmd, a, r.pos) && p <= r.pos && At(s, r.pos) !in "<>" && !Blank(At(s, r.pos))
    ensures r.Ok? ==> Simple(c) == Simple(r.cmd) && Argc(r.cmd) == Argc(c) && (Roomy(c) ==> Roomy(r.cmd))
    ensures r.Panic? ==> Blame(s, r.why, r.at)
    ensures Follows(s, r, j, Grammar.Redirs(AllTokens(s), i))
    ensures r.Ok? ==> i <= j <= |AllTokens(s)| && r.cmd == Redirected(c, AllTokens(s), AllSpans(s), i, j)
  {
    hide AllSpans, Parsed, Token, Cut, Start, Words, Blanks, Blame, AtTok, Tokens, AllTokens, Grammar.Op, Grammar.Closes;
    j := i;
    var cmd, pos := c, p;
    ParsedStart(s, cmd, a, pos);
    var more, p1 := Peek(s, pos, "<>");
    MoreBlanks(s, cmd, a, pos, p1);
    BlanksSize(s, pos, p1);
    Skipped(s, pos, p1, j);
    pos := p1;
    while more
      invariant p <= pos <= |s| && Parsed(s, cmd, a, pos) && !Blank(At(s, pos)) && more == (At(s, pos) != '\0' && At(s, pos) in "<>")
      invariant AtTok(s, pos, j) && i <= j <= |AllTokens(s)| && Grammar.Redirs(AllTokens(s), i) == Grammar.Redirs(AllTokens(s), j)
      invariant cmd == Redirected(c, AllTokens(s), AllSpans(s), i, j)
      invariant Simple(c) == Simple(cmd) && Argc(cmd) == Argc(c) && (Roomy(c) ==> Roomy(cmd))
      decreases |s| - pos
    {
      ParsedStart(s, cmd, a, pos);
      var tok, q0, e0, r0 := GetToken(s, pos);
      TokenWords(s, pos, q0, e0, r0, tok);
      OpToken(s, pos, q0, e0, tok);
      Sees(s, pos, j);
      Take(s, pos, q0, e0, r0, tok, j);
      var kind, q, e, r1 := GetToken(s, r0);
      Take(s, r0, q, e, r1, kind, j + 1);
      if kind != 'a' {
        NoFile(s, pos, q0, e0, r0, tok, q, e, kind);
        return Panic(MissingFile, q), j;
      }
      TokenWords(s, r0, q, e, r1, kind);
      var mode, fd := ModeOf(tok), FdOf(tok);
      AddRedir(s, cmd, a, pos, q0, e0, r0, tok, q, e, r1, mode, fd);
      cmd := Redir(cmd, (q, e), mode, fd);
      more, pos := Peek(s, r1, "<>");
      BlanksSize(s, r1, pos);
      MoreBlanks(s, cmd, a, r1, pos);
      Skipped(s, r1, pos, j + 2);
      TokSize(s, pos, j + 2);
      j := j + 2;
    }
    Sees(s, pos, j);
    r := Ok(cmd, pos);
  }

  function Argc(c: Cmd): nat { match c case Exec(args) => |args| case Redir(d, _, _, _) => Argc(d) case _ => 0 }

  lemma ParsedStart(s: string, c: Cmd, a: nat, p: nat)
    requires Parsed(s, c, a, p)
    ensures a <= p <= |s| && Start(s, p) && Cut(s, p)
  {
  }

  lemma BlanksSize(s: string, p: nat, r: nat)
    requires Blanks(s, p, r)
    ensures p <= r <= |s|
  {
  }

  lemma OpToken(s: string, p: nat, q: nat, e: nat, tok: char)
    requires Blanks(s, p, q) && Token(s, q, e, tok) && !Blank(At(s, p)) && At(s, p) != '\0' && At(s, p) in "<>"
    ensures q == p < |s| && (tok == '<' || tok == '>' || tok == '+')
  {
  }

  lemma NoFile(s: string, p: nat, q0: nat, e0: nat, r0: nat, tok: char, q: nat, e: nat, kind: char)
    requires Blanks(s, p, q0) && Token(s, q0, e0, tok) && Blanks(s, e0, r0) && Blanks(s, r0, q) && Token(s, q, e, kind) && kind != 'a'
    requires p <= |s| && !Blank(At(s, p)) && At(s, p) in "<>"
    ensures Blame(s, MissingFile, q)
  {
    assert q0 == p;
    assert s[p] == '<' || s[p] == '>';
  }

  lemma AddRedir(s: string, c: Cmd, a: nat, p: nat, q0: nat, e0: nat, r0: nat, tok: char, q: nat, e: nat, r: nat, mode: Mode, fd: nat)
    requires Line(s) && Parsed(s, c, a, p) && Blanks(s, p, q0) && Token(s, q0, e0, tok) && Blanks(s, e0, r0)
    requires p <= |s| && !Blank(At(s, p)) && At(s, p) in "<>"
    requires Cut(s, r0) && Words(s, p, r0) == {} && Blanks(s, r0, q) && Token(s, q, e, 'a') && Blanks(s, e, r) && Start(s, r) && Words(s, r0, r) == {(q, e)}
    requires mode == ModeOf(tok) && fd == FdOf(tok)
    ensures Parsed(s, Redir(c, (q, e), mode, fd), a, r) && p < r
  {
    RedirOp(s, p, q0, e0, r0, tok, q, mode, fd);
    hide OperatorAt, Words, IsWord;
    ShapeWider(s, c, a, p, a, r);
    JoinWords(s, a, p, r0, r);
  }

  lemma RedirOp(s: string, p: nat, q0: nat, e0: nat, r0: nat, tok: char, q: nat, mode: Mode, fd: nat)
    requires Start(s, p) && Blanks(s, p, q0) && Token(s, q0, e0, tok) && Blanks(s, e0, r0) && Blanks(s, r0, q) && !Blank(At(s, p)) && At(s, p) in "<>"
    requires mode == ModeOf(tok) && fd == FdOf(tok)
    ensures q0 == p && Operator(s, q, mode, fd)
  {
    assert q0 == p;
    assert OperatorAt(s, e0 - 1, q, mode, fd);
  }

  // ----- commands -----

  lemma AddArgSpans(c: Cmd, w: Span)
    requires Simple(c)
    ensures Simple(AddArg(c, w)) && Argc(AddArg(c, w)) == Argc(c) + 1 && Spans(AddArg(c, w)) == Spans(c) + multiset{w}
  {
  }

  lemma AddArgShape(s: string, c: Cmd, a: nat, p: nat, w: Span, b: nat)
    requires Simple(c) && Shape(s, c, a, p) && a <= p <= w.0 && w.0 <= w.1 <= b
    ensures Shape(s, AddArg(c, w), a, b)
  {
    match c
    case Exec(args) =>
    case Redir(d, _, _, _) => AddArgShape(s, d, a, p, w, b);
  }

  lemma AddArgParsed(s: string, c: Cmd, a: nat, p: nat, q: nat, e: nat, r: nat)
    requires Parsed(s, c, a, p) && Simple(c) && Blanks(s, p, q) && Token(s, q, e, 'a') && Blanks(s, e, r) && Words(s, p, r) == {(q, e)} && Start(s, r)
    ensures Parsed(s, AddArg(c, (q, e)), a, r) && p < r <= |s|
  {
    AddArgSpans(c, (q, e));
    AddArgShape(s, c, a, p, (q, e), r);
    AddWord(s, a, p, r, (q, e));
  }

  lemma IsRoomy(c: Cmd)
    requires Simple(c) && Argc(c) < MAXARGS
    ensures Roomy(c)
  {
  }

  lemma {:induction false} ArgcSpans(c: Cmd)
    ensures Argc(c) <= |Spans(c)|
  {
    match c
    case Redir(d, _, _, _) => ArgcSpans(d);
    case _ =>
  }

  lemma TooMany(s: string, c: Cmd, a: nat, r: nat)
    requires Parsed(s, c, a, r) && Argc(c) >= MAXARGS
    ensures Blame(s, TooManyArgs, r)
  {
    ArgcSpans(c);
    assert Words(s, a, r) <= Words(s, 0, r);
    Counting.SubsetSize(Words(s, a, r), Words(s, 0, r));
  }

  /** Where parsing of a part may stop: at the end of the line, at one of the signs that
      end it, or anywhere behind a block or an '&'. */
  ghost predicate Stops(s: string, p: nat, signs: string) {
    p <= |s| && !Blank(At(s, p)) && (At(s, p) == '\0' || At(s, p) in signs || exists k :: 0 <= k < p && (s[k] == '(' || s[k] == '&'))
  }

  method ParseExec(s: string, p: nat, ghost i: nat) returns (r: Result, ghost j: nat)
    requires Line(s) && Start(s, p) && AtTok(s, p, i)
    ensures r.Ok? ==> Parsed(s, r.cmd, p, r.pos) && Roomy(r.cmd) && Stops(s, r.pos, "|)&;")
    ensures r.Panic? ==> Blame(s, r.why, r.at)
    ensures Follows(s, r, j, Grammar.Exec(AllTokens(s), i))
    ensures r.Ok? ==> ExecTree(AllTokens(s), AllSpans(s), i, j, r.cmd)
    decreases |s| - p, 1
  {
    hide AllSpans, ExecTree, SimpleTree, Redirected, Parsed, Token, Cut, Start, Words, Blanks, Blame, Stops, Simple, AtTok, Tokens, AllTokens, Grammar.Op, Grammar.Closes, Grammar.Redirs;
    j := i;
    TokSize(s, p, i);
    StartSize(s, p);
    var block, p1 := Peek(s, p, "(");
    BlanksStart(s, p, p1);
    BlanksSize(s, p, p1);
    Skipped(s, p, p1, i);
    Sees(s, p1, i);
    if block {
      r, j := ParseBlock(s, p1, i);
      if r.Ok? {
        EarlierStart(s, r.cmd, p, p1, r.pos);
      }
      return;
    }
    NoWordsYet(s, p, p1);
    r, j := ParseArgs(s, p, p1, i);
  }

  /** The next word and the redirections behind it, if the line has not ended. */
  method ParseArg(c: Cmd, s: string, ghost a: nat, p: nat, ghost i: nat, ghost u: nat) returns (r: Result, done: bool, ghost j: nat)
    requires Line(s) && Parsed(s, c, a, p) && Simple(c) && Argc(c) < MAXARGS && AtTok(s, p, u)
    requires !Blank(At(s, p)) && At(s, p) !in "<>" && (At(s, p) == '\0' || At(s, p) !in "|)&;")
    requires i <= u <= |AllTokens(s)| && c == SimpleTree(AllTokens(s), AllSpans(s), i, u) && (i < u ==> AllTokens(s)[u - 1] == 'a')
    ensures done ==> r == Ok(c, p) && j == u && p == |s|
    ensures r.Panic? ==> Blame(s, r.why, r.at) && Grammar.Words(AllTokens(s), u, Argc(c)) == None
    ensures r.Ok? && !done ==> Parsed(s, r.cmd, a, r.pos) && Simple(r.cmd) && Argc(r.cmd) < MAXARGS && p < r.pos <= |s|
    ensures r.Ok? && !done ==> !Blank(At(s, r.pos)) && At(s, r.pos) !in "<>" && AtTok(s, r.pos, j)
    ensures r.Ok? && !done ==> i < j <= |AllTokens(s)| && r.cmd == SimpleTree(AllTokens(s), AllSpans(s), i, j) && AllTokens(s)[j - 1] == 'a'
    ensures r.Ok? && !done ==> Grammar.Words(AllTokens(s), u, Argc(c)) == Grammar.Words(AllTokens(s), j, Argc(r.cmd))
  {
    hide AllSpans, SimpleTree, Redirected, Parsed, Token, Cut, Start, Words, Blanks, Blame, Simple, AtTok, Tokens, AllTokens, Grammar.Op, Grammar.Closes, Grammar.Redirs, Grammar.Words;
    ParsedStart(s, c, a, p);
    Sees(s, p, u);
    Grammar.WordsIs(AllTokens(s), u, Argc(c));
    done, j := false, u;
    var tok, q, e, r1 := GetToken(s, p);
    TokenWords(s, p, q, e, r1, tok);
    Take(s, p, q, e, r1, tok, u);
    if tok == '\0' {
      AtEnd(s, p, q, e);
      return Ok(c, p), true, u;
    }
    if tok != 'a' {
      NotAWord(s, p, q, e, tok);
      return Panic(Unexpected, q), false, u;
    }
    AddArgParsed(s, c, a, p, q, e, r1);
    AddArgSpans(c, (q, e));
    var cmd := AddArg(c, (q, e));
    NextArg(AllTokens(s), AllSpans(s), i, u);
    if Argc(cmd) >= MAXARGS {
      TooMany(s, cmd, a, r1);
      return Panic(TooManyArgs, r1), false, u;
    }
    TokSize(s, r1, u + 1);
    r, j := ParseRedirs(cmd, s, a, r1, u + 1);
    if r.Ok? {
      NextRedirs(AllTokens(s), AllSpans(s), i, u + 1, j);
      ParsedStart(s, r.cmd, a, r.pos);
    }
  }

  /** Words and redirections. */
  method ParseArgs(s: string, ghost p: nat, p1: nat, ghost i: nat) returns (r: Result, ghost j: nat)
    requires Line(s) && Parsed(s, Exec([]), p, p1) && AtTok(s, p1, i) && At(s, p1) != '('
    requires !Blank(At(s, p1))
    ensures r.Ok? ==> Parsed(s, r.cmd, p, r.pos) && Roomy(r.cmd) && Stops(s, r.pos, "|)&;")
    ensures r.Panic? ==> Blame(s, r.why, r.at)
    ensures Follows(s, r, j, Grammar.Exec(AllTokens(s), i))
    ensures r.Ok? ==> ExecTree(AllTokens(s), AllSpans(s), i, j, r.cmd)
  {
    hide AllSpans, ExecTree, SimpleTree, Redirected, Parsed, Token, Cut, Start, Words, Blanks, Blame, Stops, Simple, AtTok, Tokens, AllTokens, Grammar.Op, Grammar.Closes, Grammar.Redirs, Grammar.Words, Grammar.Exec;
    ParsedStart(s, Exec([]), p, p1);
    TokSize(s, p1, i);
    Sees(s, p1, i);
    Grammar.ExecIs(AllTokens(s), i);
    var cmd, pos := Exec([]), p1;
    r, j := ParseRedirs(cmd, s, p, pos, i);
    if r.Panic? {
      return;
    }
    cmd, pos := r.cmd, r.pos;
    ParsedStart(s, cmd, p, pos);
    TokSize(s, pos, j);
    FirstRedirs(AllTokens(s), AllSpans(s), i, j);
    var ends, p2 := Peek(s, pos, "|)&;");
    BlanksSize(s, pos, p2);
    MoreBlanks(s, cmd, p, pos, p2);
    SameAt(s, pos, p2);
    pos := p2;
    while !ends
      invariant p <= pos <= |s| && Parsed(s, cmd, p, pos) && Simple(cmd) && Argc(cmd) < MAXARGS
      invariant !Blank(At(s, pos)) && At(s, pos) !in "<>" && ends == (At(s, pos) != '\0' && At(s, pos) in "|)&;")
      invariant AtTok(s, pos, j) && i <= j <= |AllTokens(s)| && Grammar.Exec(AllTokens(s), i) == Grammar.Words(AllTokens(s), j, Argc(cmd))
      invariant cmd == SimpleTree(AllTokens(s), AllSpans(s), i, j) && (i < j ==> AllTokens(s)[j - 1] == 'a')
      decreases |s| - pos
    {
      ParsedStart(s, cmd, p, pos);
      var done;
      r, done, j := ParseArg(cmd, s, p, pos, i, j);
      if r.Panic? {
        return;
      }
      if done {
        break;
      }
      cmd := r.cmd;
      ParsedStart(s, cmd, p, r.pos);
      TokSize(s, r.pos, j);
      ends, pos := Peek(s, r.pos, "|)&;");
      BlanksSize(s, r.pos, pos);
      SameAt(s, r.pos, pos);
      MoreBlanks(s, cmd, p, r.pos, pos);
    }
    Sees(s, pos, j);
    Grammar.WordsIs(AllTokens(s), j, Argc(cmd));
    IsStop(s, pos, "|)&;");
    IsRoomy(cmd);
    AsSimple(AllTokens(s), AllSpans(s), i, j);
    r := Ok(cmd, pos);
  }

  method ParseBlock(s: string, p: nat, ghost i: nat) returns (r: Result, ghost j: nat)
    requires Line(s) && Start(s, p) && At(s, p) == '(' && AtTok(s, p, i)
    ensures r.Ok? ==> Parsed(s, r.cmd, p, r.pos) && Roomy(r.cmd) && Stops(s, r.pos, "|)&;")
    ensures r.Panic? ==> Blame(s, r.why, r.at)
    ensures Follows(s, r, j, Grammar.Exec(AllTokens(s), i))
    ensures r.Ok? ==> ExecTree(AllTokens(s), AllSpans(s), i, j, r.cmd)
    decreases |s| - p, 0
  {
    hide AllSpans, ExecTree, LineTree, Redirected, Parsed, Token, Cut, Start, Words, Blanks, Blame, Stops, AtTok, Tokens, AllTokens, Grammar.Op, Grammar.Closes, Grammar.Redirs, Grammar.Line;
    TokSize(s, p, i);
    StartSize(s, p);
    var tok, q, e, p1 := GetToken(s, p);
    TokenWords(s, p, q, e, p1, tok);
    SignToken(s, p, q, e, tok);
    BlanksSize(s, e, p1);
    Take(s, p, q, e, p1, tok, i);
    TokSize(s, p1, i + 1);
    r, j := ParseLine(s, p1, i + 1);
    if r.Panic? {
      return;
    }
    var cmd := r.cmd;
    ParsedStart(s, cmd, p1, r.pos);
    var close, p2 := Peek(s, r.pos, ")");
    BlanksSize(s, r.pos, p2);
    MoreBlanks(s, cmd, p1, r.pos, p2);
    TokSize(s, r.pos, j);
    Skipped(s, r.pos, p2, j);
    Sees(s, p2, j);
    if !close {
      NoParen(s, p, p2);
      return Panic(MissingParen, p2), j;
    }
    ParsedStart(s, cmd, p1, p2);
    var p3;
    tok, q, e, p3 := GetToken(s, p2);
    TokenWords(s, p2, q, e, p3, tok);
    SignToken(s, p2, q, e, tok);
    BlanksSize(s, e, p3);
    InParens(s, cmd, p, p1, p2, p3);
    Take(s, p2, q, e, p3, tok, j);
    TokSize(s, p3, j + 1);
    ghost var u := j;
    r, j := ParseRedirs(cmd, s, p, p3, j + 1);
    if r.Ok? {
      InBlock(AllTokens(s), AllSpans(s), i, u, j, cmd);
      ParsedStart(s, r.cmd, p, r.pos);
      PastSign(s, p, r.pos, "|)&;");
    }
  }

  method ParsePipe(s: string, p: nat, ghost i: nat) returns (r: Result, ghost j: nat)
    requires Line(s) && Start(s, p) && AtTok(s, p, i)
    ensures r.Ok? ==> Parsed(s, r.cmd, p, r.pos) && Roomy(r.cmd) && Stops(s, r.pos, ")&;")
    ensures r.Panic? ==> Blame(s, r.why, r.at)
    ensures Follows(s, r, j, Grammar.Pipe(AllTokens(s), i))
    ensures r.Ok? ==> PipeTree(AllTokens(s), AllSpans(s), i, j, r.cmd)
    decreases |s| - p, 2
  {
    hide AllSpans, ExecTree, Parsed, Token, Cut, Start, Words, Blanks, Blame, Stops, AtTok, Tokens, AllTokens, Grammar.Op, Grammar.Closes, Grammar.Exec;
    TokSize(s, p, i);
    StartSize(s, p);
    r, j := ParseExec(s, p, i);
    if r.Panic? {
      return;
    }
    var left := r.cmd;
    ParsedStart(s, left, p, r.pos);
    TokSize(s, r.pos, j);
    StopsAt(s, r.pos, "|)&;");
    var more, p1 := Peek(s, r.pos, "|");
    SameAt(s, r.pos, p1);
    Sees(s, r.pos, j);
    if !more {
      StopNarrows(s, r.pos);
      return;
    }
    var tok, q, e, p2 := GetToken(s, r.pos);
    TokenWords(s, r.pos, q, e, p2, tok);
    SignToken(s, r.pos, q, e, tok);
    BlanksSize(s, e, p2);
    Take(s, r.pos, q, e, p2, tok, j);
    TokSize(s, p2, j + 1);
    var pos := r.pos;
    ghost var u := j;
    r, j := ParsePipe(s, p2, j + 1);
    if r.Ok? {
      JoinPipe(AllTokens(s), AllSpans(s), i, u, j, left, r.cmd);
      Sides(s, left, r.cmd, p, pos, p2, r.pos);
      r := Ok(Pipe(left, r.cmd), r.pos);
    }
  }

  method ParseLine(s: string, p: nat, ghost i: nat) returns (r: Result, ghost j: nat)
    requires Line(s) && Start(s, p) && AtTok(s, p, i)
    ensures r.Ok? ==> Parsed(s, r.cmd, p, r.pos) && Roomy(r.cmd) && Stops(s, r.pos, ")")
    ensures r.Panic? ==> Blame(s, r.why, r.at)
    ensures Follows(s, r, j, Grammar.Line(AllTokens(s), i))
    ensures r.Ok? ==> LineTree(AllTokens(s), AllSpans(s), i, j, r.cmd)
    decreases |s| - p, 3
  {
    hide AllSpans, LineTree, PipeTree, Parsed, Token, Cut, Start, Words, Blanks, Blame, Stops, AtTok, Tokens, AllTokens, Grammar.Op, Grammar.Closes, Grammar.Pipe;
    TokSize(s, p, i);
    StartSize(s, p);
    r, j := ParsePipe(s, p, i);
    if r.Panic? {
      return;
    }
    var cmd, pos := r.cmd, r.pos;
    ParsedStart(s, cmd, p, pos);
    TokSize(s, pos, j);
    ghost var u := j;
    StopsAt(s, pos, ")&;");
    var more, p1 := Peek(s, pos, "&");
    SameAt(s, pos, p1);
    while more
      invariant p <= pos <= |s| && Parsed(s, cmd, p, pos) && Roomy(cmd) && !Blank(At(s, pos)) && more == (At(s, pos) == '&')
      invariant Stops(s, pos, ")&;")
      invariant AtTok(s, pos, j) && u <= j <= |AllTokens(s)| && Grammar.Amps(AllTokens(s), u) == Grammar.Amps(AllTokens(s), j)
      invariant BackTree(AllTokens(s), AllSpans(s), i, u, j - u, cmd)
      decreases |s| - pos
    {
      ParsedStart(s, cmd, p, pos);
      Sees(s, pos, j);
      var tok, q, e, p2 := GetToken(s, pos);
      TokenWords(s, pos, q, e, p2, tok);
      SignToken(s, pos, q, e, tok);
      BlanksSize(s, e, p2);
      Take(s, pos, q, e, p2, tok, j);
      TokSize(s, p2, j + 1);
      j := j + 1;
      Behind(s, cmd, p, pos, p2);
      cmd := Back(cmd);
      PastSign(s, pos, p2, ")&;");
      more, pos := Peek(s, p2, "&");
      SameAt(s, p2, pos);
    }
    ParsedStart(s, cmd, p, pos);
    more, p1 := Peek(s, pos, ";");
    SameAt(s, pos, p1);
    Sees(s, pos, j);
    if more {
      var tok, q, e, p2 := GetToken(s, pos);
      TokenWords(s, pos, q, e, p2, tok);
      SignToken(s, pos, q, e, tok);
      BlanksSize(s, e, p2);
      Take(s, pos, q, e, p2, tok, j);
      TokSize(s, p2, j + 1);
      ghost var v := j;
      r, j := ParseLine(s, p2, j + 1);
      if r.Ok? {
        JoinLine(AllTokens(s), AllSpans(s), i, u, v, j, cmd, r.cmd);
        Sides(s, cmd, r.cmd, p, pos, p2, r.pos);
        r := Ok(List(cmd, r.cmd), r.pos);
      }
      return;
    }
    StopNarrows(s, pos);
    LastLine(AllTokens(s), AllSpans(s), i, u, j, cmd);
    r := Ok(cmd, pos);
  }

  // ----- steps of the proofs above -----

  lemma FirstRedirs(ts: Grammar.Kinds, sp: seq<Span>, i: nat, j: nat)
    requires i <= j <= |ts| == |sp| && Grammar.Redirs(ts, i) == Some(j)
    ensures Redirected(Exec([]), ts, sp, i, j) == SimpleTree(ts, sp, i, j) && (i < j ==> ts[j - 1] == 'a')
  {
    NextRedirs(ts, sp, i, i, j);
  }

  lemma NextRedirs(ts: Grammar.Kinds, sp: seq<Span>, i: nat, u: nat, j: nat)
    requires i <= u <= j <= |ts| == |sp| && Grammar.Redirs(ts, u) == Some(j)
    ensures Redirected(SimpleTree(ts, sp, i, u), ts, sp, u, j) == SimpleTree(ts, sp, i, j) && (u < j ==> ts[j - 1] == 'a')
  {
    Grammar.RedirsSound(ts, u);
    SimpleRedirs(ts, sp, i, u, j);
    if u < j {
      LastRedir(ts, u, j);
    }
  }

  lemma NextArg(ts: Grammar.Kinds, sp: seq<Span>, i: nat, j: nat)
    requires i <= j < |ts| == |sp| && (i < j ==> ts[j - 1] == 'a')
    ensures SimpleTree(ts, sp, i, j + 1) == AddArg(SimpleTree(ts, sp, i, j), sp[j])
  {
  }

  lemma StartSize(s: string, p: nat)
    requires Start(s, p)
    ensures p <= |s| && Cut(s, p)
  {
  }

  /** Skipping blanks in front of something that is not blank goes nowhere. */
  lemma SameAt(s: string, p: nat, r: nat)
    requires Blanks(s, p, r) && !Blank(At(s, p))
    ensures r == p
  {
  }

  lemma EarlierStart(s: string, c: Cmd, a: nat, p: nat, b: nat)
    requires Blanks(s, a, p) && Start(s, a) && Parsed(s, c, p, b)
    ensures Parsed(s, c, a, b)
  {
    BlanksStart(s, a, p);
    WordsSplit(s, a, p, b);
    ShapeWider(s, c, p, b, a, b);
  }

  lemma NoWordsYet(s: string, a: nat, p: nat)
    requires Blanks(s, a, p) && Start(s, p) && Words(s, a, p) == {}
    ensures Parsed(s, Exec([]), a, p)
  {
  }

  lemma AtEnd(s: string, p: nat, q: nat, e: nat)
    requires Blanks(s, p, q) && Token(s, q, e, '\0') && !Blank(At(s, p)) && Line(s)
    ensures p == |s|
  {
  }

  lemma NotAWord(s: string, p: nat, q: nat, e: nat, tok: char)
    requires Blanks(s, p, q) && Token(s, q, e, tok) && !Blank(At(s, p)) && tok != '\0' && tok != 'a' && At(s, p) !in "<>" && At(s, p) !in "|)&;"
    ensures Blame(s, Unexpected, q)
  {
    assert q == p;
  }

  lemma IsStop(s: string, p: nat, signs: string)
    requires p <= |s| && !Blank(At(s, p)) && (At(s, p) == '\0' || At(s, p) in signs)
    ensures Stops(s, p, signs)
  {
  }

  lemma StopsAt(s: string, p: nat, signs: string)
    requires Stops(s, p, signs)
    ensures !Blank(At(s, p))
  {
  }

  lemma StopNarrows(s: string, p: nat)
    requires p <= |s|
    ensures Stops(s, p, "|)&;") && At(s, p) != '|' ==> Stops(s, p, ")&;")
    ensures Stops(s, p, ")&;") && At(s, p) != '&' && At(s, p) != ';' ==> Stops(s, p, ")")
  {
  }

  lemma SignToken(s: string, p: nat, q: nat, e: nat, tok: char)
    requires Blanks(s, p, q) && Token(s, q, e, tok) && Symbol(At(s, p)) && At(s, p) != '>'
    ensures q == p && e == p + 1 && tok == At(s, p) && p < |s|
  {
  }

  lemma NoParen(s: string, p: nat, at: nat)
    requires At(s, p) == '(' && p < at <= |s| && At(s, at) != ')'
    ensures Blame(s, MissingParen, at)
  {
    assert s[p] == '(';
  }

  lemma InParens(s: string, c: Cmd, p: nat, p1: nat, p2: nat, p3: nat)
    requires p <= p1 && p2 <= p3 <= |s| && Cut(s, p1) && Cut(s, p2) && Start(s, p3) && Parsed(s, c, p1, p2) && Words(s, p, p1) == {} && Words(s, p2, p3) == {}
    ensures Parsed(s, c, p, p3)
  {
    WordsSplit(s, p, p1, p3);
    WordsSplit(s, p1, p2, p3);
    ShapeWider(s, c, p1, p2, p, p3);
  }

  lemma PastSign(s: string, p: nat, r: nat, signs: string)
    requires (At(s, p) == '(' || At(s, p) == '&') && p < r <= |s| && !Blank(At(s, r))
    ensures Stops(s, r, signs)
  {
    assert s[p] == '(' || s[p] == '&';
  }

  lemma Sides(s: string, left: Cmd, right: Cmd, a: nat, p: nat, p2: nat, b: nat)
    requires Parsed(s, left, a, p) && Parsed(s, right, p2, b) && p < p2 && Words(s, p, p2) == {} && Cut(s, p) && Cut(s, p2)
    ensures At(s, p) == '|' ==> Parsed(s, Pipe(left, right), a, b)
    ensures At(s, p) == ';' ==> Parsed(s, List(left, right), a, b)
  {
    JoinWords(s, a, p, p2, b);
    ShapeWider(s, right, p2, b, p + 1, b);
  }

  lemma Behind(s: string, c: Cmd, a: nat, p: nat, r: nat)
    requires Parsed(s, c, a, p) && At(s, p) == '&' && p < r <= |s| && Words(s, p, r) == {} && Start(s, r) && Cut(s, p)
    ensures Parsed(s, Back(c), a, r)
  {
    WordsSplit(s, a, p, r);
  }

  // ----- the whole line -----

  /** parsecmd without its last step. It accepts exactly the lines of the grammar; then the
      tree is the one of the line and covers it, and otherwise there is something wrong with
      the line. */
  method ParseCmd(s: string) returns (r: Result)
    requires Line(s)
    ensures r.Ok? ==> r.pos == |s| && Parsed(s, r.cmd, 0, |s|) && Roomy(r.cmd)
    ensures r.Panic? ==> Blame(s, r.why, r.at)
    ensures r.Ok? <==> Grammar.IsLine(AllTokens(s), 0, |AllTokens(s)|)
    ensures r.Ok? ==> LineTree(AllTokens(s), AllSpans(s), 0, |AllTokens(s)|, r.cmd)
  {
    hide LineTree, Parsed, Words, Blanks, Blame, Stops, Tokens, Grammar.IsLine, Grammar.Line;
    Grammar.Accepts(AllTokens(s));
    assert AllTokens(s)[0..] == AllTokens(s) && AllSpans(s)[0..] == AllSpans(s);
    hide AtTok, AllTokens, AllSpans;
    ghost var j;
    r, j := ParseLine(s, 0, 0);
    if r.Panic? {
      return;
    }
    ParsedStart(s, r.cmd, 0, r.pos);
    TokSize(s, r.pos, j);
    StopsAt(s, r.pos, ")");
    var found, p := Peek(s, r.pos, "");
    SameAt(s, r.pos, p);
    Sees(s, r.pos, j);
    if p != |s| {
      Extra(s, p);
      return Panic(Leftovers, p);
    }
  }

  lemma Extra(s: string, p: nat)
    requires Line(s) && Stops(s, p, ")") && p < |s|
    ensures Blame(s, Leftovers, p)
  {
  }

  /** A line of words only is a command with these words in order, and is refused exactly
      if there are MAXARGS of them or more. */
  lemma PlainLine(s: string, r: Result)
    requires Line(s) && (forall i :: 0 <= i < |s| ==> !Symbol(s[i]))
    requires r.Ok? ==> Parsed(s, r.cmd, 0, |s|) && Roomy(r.cmd)
    requires r.Panic? ==> Blame(s, r.why, r.at)
    ensures r.Panic? <==> |Words(s, 0, |s|)| >= MAXARGS
    ensures r.Ok? ==> r.cmd.Exec? && multiset(r.cmd.args) == multiset(Words(s, 0, |s|)) && forall i, j :: 0 <= i < j < |r.cmd.args| ==> r.cmd.args[i].1 <= r.cmd.args[j].0
  {
    hide IsWord;
    if r.Panic? {
      assert Words(s, 0, r.at) <= Words(s, 0, |s|);
      Counting.SubsetSize(Words(s, 0, r.at), Words(s, 0, |s|));
    } else {
      assert |multiset(Words(s, 0, |s|))| == |r.cmd.args|;
    }
  }

  // ----- nulterminate -----

  /** A C string in a buffer: the characters up to the first '\0'. */
  ghost predicate ReadsAs(buf: string, q: nat, text: string) {
    q + |text| < |buf| && buf[q..q + |text|] == text && Line(text) && buf[q + |text|] == '\0'
  }

  ghost predicate Ends(w: multiset<Span>, i: nat) { exists x :: x in w && x.1 == i }

  /** The buffer is the line with a '\0' behind every word in w, and nothing else changed. */
  ghost predicate Cuts(s: string, buf: string, w: multiset<Span>) {
    |buf| == |s| + 1 && (forall x :: x in w ==> IsWord(s, x.0, x.1))
    && (forall i :: 0 <= i <= |s| ==> buf[i] == if Ends(w, i) then '\0' else At(s, i))
  }

  /** *ep = 0 at the end of a word. */
  method CutAt(s: string, buf: array<char>, x: Span, ghost done: multiset<Span>)
    requires Line(s) && Cuts(s, buf[..], done) && IsWord(s, x.0, x.1)
    modifies buf
    ensures Cuts(s, buf[..], done + multiset{x})
  {
    buf[x.1] := '\0';
    ghost var w := done + multiset{x};
    assert Ends(w, x.1);
    forall i: nat | i <= |s| && i != x.1 ensures Ends(w, i) <==> Ends(done, i) {
      if Ends(done, i) {
        var y :| y in done && y.1 == i;
        assert y in w;
      }
    }
  }

  method CutArgs(args: seq<Span>, s: string, buf: array<char>, ghost done: multiset<Span>)
    requires Line(s) && Cuts(s, buf[..], done) && forall i :: 0 <= i < |args| ==> IsWord(s, args[i].0, args[i].1)
    modifies buf
    ensures Cuts(s, buf[..], done + multiset(args))
  {
    hide Cuts, IsWord, Line;
    var i := 0;
    assert args[..0] == [] && done + multiset(args[..0]) == done;
    while i < |args|
      invariant 0 <= i <= |args| && Cuts(s, buf[..], done + multiset(args[..i]))
    {
      CutAt(s, buf, args[i], done + multiset(args[..i]));
      assert args[..i + 1] == args[..i] + [args[i]];
      assert done + multiset(args[..i]) + multiset{args[i]} == done + multiset(args[..i + 1]);
      i := i + 1;
    }
    assert args[..|args|] == args;
  }

  method NulTerminate(c: Cmd, s: string, buf: array<char>, ghost done: multiset<Span>)
    requires Line(s) && Cuts(s, buf[..], done) && forall x :: x in Spans(c) ==> IsWord(s, x.0, x.1)
    modifies buf
    ensures Cuts(s, buf[..], done + Spans(c))
    decreases c
  {
    hide Cuts, IsWord, Line;
    match c
    case Exec(args) =>
      assert forall i :: 0 <= i < |args| ==> args[i] in Spans(c);
      CutArgs(args, s, buf, done);
    case Redir(d, file, _, _) =>
      NulTerminate(d, s, buf, done);
      assert file in Spans(c);
      CutAt(s, buf, file, done + Spans(d));
      assert done + Spans(d) + multiset{file} == done + Spans(c);
    case Pipe(l, r) =>
      NulTerminate(l, s, buf, done);
      NulTerminate(r, s, buf, done + Spans(l));
      assert done + Spans(c) == done + Spans(l) + Spans(r);
    case List(l, r) =>
      NulTerminate(l, s, buf, done);
      NulTerminate(r, s, buf, done + Spans(l));
      assert done + Spans(c) == done + Spans(l) + Spans(r);
    case Back(d) => NulTerminate(d, s, buf, done);
  }

  lemma NoWordAt(s: string, w: multiset<Span>, i: nat)
    requires forall x :: x in w ==> IsWord(s, x.0, x.1)
    ensures Ends(w, i) ==> !Wordy(At(s, i))
  {
    if Ends(w, i) {
      var y :| y in w && y.1 == i;
      assert IsWord(s, y.0, y.1);
    }
  }

  /** A word that has been cut, read as a C string where it starts, is exactly the slice of
      the line that the lexer found. */
  lemma CutReads(s: string, w: multiset<Span>, buf: string, x: Span)
    requires Line(s) && Cuts(s, buf, w) && x in w
    ensures IsWord(s, x.0, x.1) && ReadsAs(buf, x.0, s[x.0..x.1])
  {
    var q, e := x.0, x.1;
    assert IsWord(s, q, e) && Ends(w, e);
    forall i | q <= i < e ensures buf[i] == s[i] {
      InWord(s, q, e, i);
      NoWordAt(s, w, i);
    }
    assert buf[q..e] == s[q..e];
  }

  /** parsecmd: parse the line in the buffer and cut its words. */
  method Parse(buf: array<char>) returns (r: Result)
    requires buf.Length > 0 && buf[buf.Length - 1] == '\0' && Line(buf[..buf.Length - 1])
    modifies buf
    ensures r.Ok? <==> var ts := AllTokens(old(buf[..buf.Length - 1])); Grammar.IsLine(ts, 0, |ts|)
    ensures r.Ok? ==> var s := old(buf[..buf.Length - 1]); LineTree(AllTokens(s), AllSpans(s), 0, |AllTokens(s)|, r.cmd)
    ensures r.Ok? ==> Parsed(old(buf[..buf.Length - 1]), r.cmd, 0, buf.Length - 1) && Cuts(old(buf[..buf.Length - 1]), buf[..], Spans(r.cmd))
    ensures r.Ok? ==> forall x :: x in Spans(r.cmd) ==> ReadsAs(buf[..], x.0, Slice(old(buf[..buf.Length - 1]), x))
    ensures r.Panic? ==> Blame(old(buf[..buf.Length - 1]), r.why, r.at) && buf[..] == old(buf[..])
  {
    hide Parsed, Cuts, Blame, IsWord, ReadsAs, Spans, AllTokens, AllSpans, Tokens, Grammar.IsLine, LineTree;
    var s := buf[..buf.Length - 1];
    r := ParseCmd(s);
    if r.Ok? {
      SpansAreWords(s, r.cmd);
      NoCuts(s, buf[..]);
      assert multiset{} + Spans(r.cmd) == Spans(r.cmd);
      NulTerminate(r.cmd, s, buf, multiset{});
      forall x | x in Spans(r.cmd) ensures ReadsAs(buf[..], x.0, Slice(s, x)) {
        CutReads(s, Spans(r.cmd), buf[..], x);
        WordSize(s, x.0, x.1);
      }
    }
  }

  lemma NoCuts(s: string, buf: string)
    requires |buf| == |s| + 1 && buf[..|s|] == s && buf[|s|] == '\0'
    ensures Cuts(s, buf, multiset{})
  {
    forall i | 0 <= i < |s| ensures buf[i] == s[i] {
      assert buf[..|s|][i] == s[i];
    }
  }

  lemma WordSize(s: string, q: nat, e: nat)
    requires IsWord(s, q, e)
    ensures q < e <= |s|
  {
  }

  function Slice(s: string, x: Span): string { if x.0 <= x.1 <= |s| then s[x.0..x.1] else [] }

  lemma SpansAreWords(s: string, c: Cmd)
    requires Parsed(s, c, 0, |s|)
    ensures forall x :: x in Spans(c) ==> IsWord(s, x.0, x.1)
  {
    hide Shape, IsWord;
    forall x | x in Spans(c) ensures IsWord(s, x.0, x.1) {
      assert x in Words(s, 0, |s|);
    }
  }
}
