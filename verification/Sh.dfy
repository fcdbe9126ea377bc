/** The shell's command parser.  A command is a string without NULs; a token is a
    pair of positions in it, and parsing leaves the string alone until nulterminate
    writes a NUL after every token. */
module Sh {
  const MAXARGS := 10

  /** The word s[q..eq]. */
  datatype Tok = Tok(q: nat, eq: nat)

  datatype Mode = In | Out | Append     // <  >  >>

  datatype Cmd =
    | Exec(argv: seq<Tok>)
    | Redir(cmd: Cmd, file: Tok, mode: Mode)
    | Pipe(left: Cmd, right: Cmd)
    | List(left: Cmd, right: Cmd)
    | Back(cmd: Cmd)

  /** A parse function's result and where the cursor is; Panic is a syntax error. */
  datatype Result<T> = Ok(value: T, pos: nat) | Panic

  // ---- tokens

  predicate IsSpace(c: char) { c in " \t\r\n\U{0B}" }

  predicate IsSymbol(c: char) { c in "<|>&;()" }

  predicate IsWord(c: char) { !IsSpace(c) && !IsSymbol(c) && c != '\0' }

  /** *s, with the NUL at the end. */
  function At(s: string, i: nat): char {
    if i < |s| then s[i] else '\0'
  }

  /** Past whitespace. */
  function Skip(s: string, i: nat): (j: nat)
    ensures i <= j && (i <= |s| ==> j <= |s|) && (j < |s| ==> !IsSpace(s[j]))
    ensures forall k :: i <= k < j ==> k < |s| && IsSpace(s[k])
    decreases |s| - i
  {
    if i < |s| && IsSpace(s[i]) then Skip(s, i + 1) else i
  }

  /** Past a word. */
  function WordEnd(s: string, i: nat): (j: nat)
    ensures i <= j && (i <= |s| ==> j <= |s|) && (j < |s| ==> IsSpace(s[j]) || IsSymbol(s[j]))
    ensures forall k :: i <= k < j ==> k < |s| && !IsSpace(s[k]) && !IsSymbol(s[k])
    decreases |s| - i
  {
    if i < |s| && !IsSpace(s[i]) && !IsSymbol(s[i]) then WordEnd(s, i + 1) else i
  }

  /** What gettoken returns ('a' for a word, '+' for >>, NUL at the end), the token,
      and the cursor. */
  datatype Lexeme = Lexeme(kind: char, tok: Tok, pos: nat)

  function Gettoken(s: string, i: nat): (x: Lexeme)
    requires i <= |s|
    ensures i <= x.tok.q <= x.tok.eq <= x.pos <= |s|
  {
    var q := Skip(s, i);
    var c := At(s, q);
    if c == '\0' then Lexeme(c, Tok(q, q), q)
    else if c == '>' then
      if At(s, q + 1) == '>' then Lexeme('+', Tok(q, q + 2), Skip(s, q + 2))
      else Lexeme(c, Tok(q, q + 1), Skip(s, q + 1))
    else if IsSymbol(c) then Lexeme(c, Tok(q, q + 1), Skip(s, q + 1))
    else Lexeme('a', Tok(q, WordEnd(s, q)), Skip(s, WordEnd(s, q)))
  }

  /** Is the next character one of toks? */
  predicate Peek(s: string, i: nat, toks: string) {
    At(s, Skip(s, i)) != '\0' && At(s, Skip(s, i)) in toks
  }

  /** A peeked symbol is a token that moves the cursor on. */
  lemma PeekMoves(s: string, i: nat, toks: string)
    requires i <= |s| && Peek(s, i, toks) && forall c :: c in toks ==> IsSymbol(c)
    ensures Gettoken(s, i).pos > Skip(s, i) && Gettoken(s, i).kind != '\0'
    ensures Gettoken(s, i).kind == At(s, Skip(s, i)) || Gettoken(s, i).kind == '+'
  {
  }

  // ---- the parser, as functions of the cursor

  datatype Wrap = Wrap(file: Tok, mode: Mode)

  /** A command inside its redirections, the first innermost. */
  function Wrapped(cmd: Cmd, ws: seq<Wrap>): Cmd {
    if ws == [] then cmd else Redir(Wrapped(cmd, ws[..|ws| - 1]), ws[|ws| - 1].file, ws[|ws| - 1].mode)
  }

  function ModeOf(kind: char): Mode {
    if kind == '<' then In else if kind == '>' then Out else Append
  }

  function Redirs(s: string, i: nat, ws: seq<Wrap>): (r: Result<seq<Wrap>>)
    requires i <= |s|
    ensures r.Ok? ==> i <= r.pos <= |s| && ws <= r.value
    decreases |s| - i
  {
    var j := Skip(s, i);
    if Peek(s, i, "<>") then
      PeekMoves(s, i, "<>");
      var op := Gettoken(s, i);
      var file := Gettoken(s, op.pos);
      if file.kind != 'a' then Panic else Redirs(s, file.pos, ws + [Wrap(file.tok, ModeOf(op.kind))])
    else Ok(ws, j)
  }

  /** parseexec's loop: the arguments so far, and the redirections so far. */
  function ExecLoop(s: string, i: nat, argv: seq<Tok>, ws: seq<Wrap>): (r: Result<Cmd>)
    requires i <= |s|
    ensures r.Ok? ==> i <= r.pos <= |s|
    decreases |s| - i
  {
    var j := Skip(s, i);
    if Peek(s, i, "|)&;") then Ok(Wrapped(Exec(argv), ws), j)
    else
      var t := Gettoken(s, i);
      if t.kind == '\0' then Ok(Wrapped(Exec(argv), ws), t.pos)
      else if t.kind != 'a' then Panic
      else if |argv| + 1 >= MAXARGS then Panic
      else
        var r := Redirs(s, t.pos, ws);
        if r.Panic? then Panic else ExecLoop(s, r.pos, argv + [t.tok], r.value)
  }

  function ParseExec(s: string, i: nat): (r: Result<Cmd>)
    requires i <= |s|
    ensures r.Ok? ==> i <= r.pos <= |s|
    decreases |s| - i, 1
  {
    if Peek(s, i, "(") then ParseBlock(s, i)
    else
      var r := Redirs(s, Skip(s, i), []);
      if r.Panic? then Panic else ExecLoop(s, r.pos, [], r.value)
  }

  function ParseBlock(s: string, i: nat): (r: Result<Cmd>)
    requires i <= |s|
    ensures r.Ok? ==> i <= r.pos <= |s|
    decreases |s| - i, 0
  {
    if !Peek(s, i, "(") then Panic
    else
      PeekMoves(s, i, "(");
      var c := ParseLine(s, Gettoken(s, i).pos);
      if c.Panic? || !Peek(s, c.pos, ")") then Panic
      else
        var r := Redirs(s, Gettoken(s, c.pos).pos, []);
        if r.Panic? then Panic else Ok(Wrapped(c.value, r.value), r.pos)
  }

  function ParsePipe(s: string, i: nat): (r: Result<Cmd>)
    requires i <= |s|
    ensures r.Ok? ==> i <= r.pos <= |s|
    decreases |s| - i, 2
  {
    var l := ParseExec(s, i);
    if l.Panic? then Panic
    else if Peek(s, l.pos, "|") then
      PeekMoves(s, l.pos, "|");
      var r := ParsePipe(s, Gettoken(s, l.pos).pos);
      if r.Panic? then Panic else Ok(Pipe(l.value, r.value), r.pos)
    else Ok(l.value, Skip(s, l.pos))
  }

  /** parseline's loop over '&'. */
  function Backs(s: string, i: nat, cmd: Cmd): (r: Result<Cmd>)
    requires i <= |s|
    ensures r.Ok? && i <= r.pos <= |s|
    decreases |s| - i
  {
    if Peek(s, i, "&") then
      PeekMoves(s, i, "&");
      Backs(s, Gettoken(s, i).pos, Back(cmd))
    else Ok(cmd, Skip(s, i))
  }

  function ParseLine(s: string, i: nat): (r: Result<Cmd>)
    requires i <= |s|
    ensures r.Ok? ==> i <= r.pos <= |s|
    decreases |s| - i, 3
  {
    var l := ParsePipe(s, i);
    if l.Panic? then Panic
    else
      var b := Backs(s, l.pos, l.value);
      if Peek(s, b.pos, ";") then
        PeekMoves(s, b.pos, ";");
        var r := ParseLine(s, Gettoken(s, b.pos).pos);
        if r.Panic? then Panic else Ok(List(b.value, r.value), r.pos)
      else Ok(b.value, b.pos)
  }

  function ParseCmd(s: string): (r: Result<Cmd>)
  {
    var c := ParseLine(s, 0);
    if c.Panic? || Skip(s, c.pos) != |s| then Panic else Ok(c.value, |s|)
  }
}
