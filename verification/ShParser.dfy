/** The shell parser as it runs: one cursor that every function advances, and a
    buffer that nulterminate writes into. */
module ShParser {
  import opened Sh
  import opened ShRound

  class Parser {
    const s: string
    var pos: nat          // *ps

    constructor (s: string)
      ensures this.s == s && pos == 0
    {
      this.s := s;
      pos := 0;
    }

    method SkipSpace()
      requires pos <= |s|
      modifies this
      ensures pos == Skip(s, old(pos)) <= |s|
    {
      while pos < |s| && IsSpace(s[pos])
        invariant pos <= |s| && Skip(s, pos) == Skip(s, old(pos))
      {
        pos := pos + 1;
      }
    }

    method NextToken() returns (kind: char, tok: Tok)
      requires pos <= |s|
      modifies this
      ensures Lexeme(kind, tok, pos) == Gettoken(s, old(pos)) && pos <= |s|
    {
      SkipSpace();
      var q := pos;
      kind := At(s, pos);
      if kind == '\0' {
      } else if kind == '>' {
        pos := pos + 1;
        if At(s, pos) == '>' {
          kind := '+';
          pos := pos + 1;
        }
      } else if IsSymbol(kind) {
        pos := pos + 1;
      } else {
        kind := 'a';
        while pos < |s| && !IsSpace(s[pos]) && !IsSymbol(s[pos])
          invariant q <= pos <= |s| && WordEnd(s, pos) == WordEnd(s, q)
        {
          pos := pos + 1;
        }
      }
      tok := Tok(q, pos);
      SkipSpace();
    }

    method Next(toks: string) returns (yes: bool)
      requires pos <= |s|
      modifies this
      ensures pos == Skip(s, old(pos)) <= |s| && (yes <==> Peek(s, old(pos), toks))
      ensures forall x: string :: Peek(s, pos, x) <==> Peek(s, old(pos), x)
      ensures Gettoken(s, pos) == Gettoken(s, old(pos))
    {
      SkipSpace();
      SkipStays(s, pos);
      yes := At(s, pos) != '\0' && At(s, pos) in toks;
    }

    /** The redirections that follow, after ws. */
    method Parseredirs(ws: seq<Wrap>) returns (r: Result<seq<Wrap>>)
      requires pos <= |s|
      modifies this
      ensures pos <= |s| && r == Redirs(s, old(pos), ws) && (r.Ok? ==> r.pos == pos)
    {
      hide Gettoken, Peek, Skip;
      var out := ws;
      var more := Next("<>");
      RedirsSkips(s, old(pos), ws);
      while more
        invariant pos <= |s| && (more <==> Peek(s, pos, "<>")) && Skip(s, pos) == pos
        invariant Redirs(s, pos, out) == Redirs(s, old(pos), ws)
        decreases |s| - pos
      {
        ghost var here := pos;
        PeekMoves(s, pos, "<>");
        var op, _ := NextToken();
        var kind, file := NextToken();
        if kind != 'a' {
          return Panic;
        }
        out := out + [Wrap(file, ModeOf(op))];
        ghost var there := pos;
        more := Next("<>");
        RedirsSkips(s, there, out);
      }
      return Ok(out, pos);
    }

    method Parseexec() returns (r: Result<Cmd>)
      requires pos <= |s|
      modifies this
      ensures pos <= |s| && r == ParseExec(s, old(pos)) && (r.Ok? ==> r.pos == pos)
      decreases |s| - pos, 1
    {
      hide Gettoken, Peek, Skip, Redirs;
      var block := Next("(");
      if block {
        BlockSkips(s, old(pos));
        r := Parseblock();
        return;
      }
      var ws := Parseredirs([]);
      if ws.Panic? {
        return Panic;
      }
      r := Arguments(ws.value);
    }

    /** parseexec's loop. */
    method Arguments(ws: seq<Wrap>) returns (r: Result<Cmd>)
      requires pos <= |s|
      modifies this
      ensures pos <= |s| && r == ExecLoop(s, old(pos), [], ws) && (r.Ok? ==> r.pos == pos)
    {
      hide Gettoken, Peek, Skip, Redirs;
      var argv, out := [], ws;
      var stop := Next("|)&;");
      ExecSkips(s, old(pos), [], ws);
      while !stop
        invariant pos <= |s| && (stop <==> Peek(s, pos, "|)&;")) && Skip(s, pos) == pos
        invariant ExecLoop(s, pos, argv, out) == ExecLoop(s, old(pos), [], ws)
        decreases |s| - pos, !stop
      {
        WordMoves(s, pos);
        var kind, tok := NextToken();
        if kind == '\0' {
          break;
        }
        if kind != 'a' {
          return Panic;
        }
        argv := argv + [tok];
        if |argv| >= MAXARGS {
          return Panic;
        }
        var rs := Parseredirs(out);
        if rs.Panic? {
          return Panic;
        }
        out := rs.value;
        ghost var there := pos;
        stop := Next("|)&;");
        ExecSkips(s, there, argv, out);
      }
      return Ok(Wrapped(Exec(argv), out), pos);
    }

    method Parseblock() returns (r: Result<Cmd>)
      requires pos <= |s|
      modifies this
      ensures pos <= |s| && r == ParseBlock(s, old(pos)) && (r.Ok? ==> r.pos == pos)
      decreases |s| - pos, 0
    {
      hide Gettoken, Peek, Skip, Redirs, ParseLine;
      var open := Next("(");
      if !open {
        return Panic;
      }
      PeekMoves(s, pos, "(");
      var _, _ := NextToken();
      var c := Parseline();
      if c.Panic? {
        return Panic;
      }
      var close := Next(")");
      if !close {
        return Panic;
      }
      var _, _ := NextToken();
      var ws := Parseredirs([]);
      if ws.Panic? {
        return Panic;
      }
      return Ok(Wrapped(c.value, ws.value), pos);
    }

    method Parsepipe() returns (r: Result<Cmd>)
      requires pos <= |s|
      modifies this
      ensures pos <= |s| && r == ParsePipe(s, old(pos)) && (r.Ok? ==> r.pos == pos)
      decreases |s| - pos, 2
    {
      hide Gettoken, Peek, Skip, ParseExec;
      r := Parseexec();
      if r.Panic? {
        return;
      }
      var l := r.value;
      var more := Next("|");
      if !more {
        return Ok(l, pos);
      }
      PeekMoves(s, pos, "|");
      var _, _ := NextToken();
      r := Parsepipe();
      if r.Ok? {
        r := Ok(Pipe(l, r.value), pos);
      }
    }

    method Parseline() returns (r: Result<Cmd>)
      requires pos <= |s|
      modifies this
      ensures pos <= |s| && r == ParseLine(s, old(pos)) && (r.Ok? ==> r.pos == pos)
      decreases |s| - pos, 3
    {
      hide Gettoken, Peek, Skip, ParsePipe;
      r := Parsepipe();
      if r.Panic? {
        return;
      }
      var cmd := r.value;
      ghost var start, first := pos, cmd;
      var back := Next("&");
      BacksSkips(s, start, first);
      while back
        invariant old(pos) <= start <= pos <= |s| && (back <==> Peek(s, pos, "&")) && Skip(s, pos) == pos
        invariant Backs(s, pos, cmd) == Backs(s, start, first)
        decreases |s| - pos
      {
        PeekMoves(s, pos, "&");
        var _, _ := NextToken();
        cmd := Back(cmd);
        ghost var there := pos;
        back := Next("&");
        BacksSkips(s, there, cmd);
      }
      var list := Next(";");
      if !list {
        return Ok(cmd, pos);
      }
      PeekMoves(s, pos, ";");
      var _, _ := NextToken();
      r := Parseline();
      if r.Ok? {
        r := Ok(List(cmd, r.value), pos);
      }
    }
  }

  // ---- skipping whitespace first changes nothing

  lemma SkipTwice(s: string, i: nat)
    requires i <= |s|
    ensures Skip(s, Skip(s, i)) == Skip(s, i) && Gettoken(s, Skip(s, i)) == Gettoken(s, i)
    ensures forall x: string :: Peek(s, Skip(s, i), x) <==> Peek(s, i, x)
  {
    SkipStays(s, Skip(s, i));
  }

  lemma RedirsSkips(s: string, i: nat, ws: seq<Wrap>)
    requires i <= |s|
    ensures Skip(s, i) <= |s| && Skip(s, Skip(s, i)) == Skip(s, i) && Redirs(s, Skip(s, i), ws) == Redirs(s, i, ws)
  {
    hide Skip, Gettoken, Peek;
    SkipTwice(s, i);
  }

  lemma ExecSkips(s: string, i: nat, argv: seq<Tok>, ws: seq<Wrap>)
    requires i <= |s|
    ensures Skip(s, i) <= |s| && Skip(s, Skip(s, i)) == Skip(s, i)
    ensures ExecLoop(s, Skip(s, i), argv, ws) == ExecLoop(s, i, argv, ws)
  {
    hide Skip, Gettoken, Peek;
    SkipTwice(s, i);
  }

  lemma BlockSkips(s: string, i: nat)
    requires i <= |s|
    ensures Skip(s, i) <= |s| && ParseBlock(s, Skip(s, i)) == ParseBlock(s, i)
  {
    hide Skip, Gettoken, Peek, Redirs, ParseLine;
    SkipTwice(s, i);
  }

  lemma BacksSkips(s: string, i: nat, cmd: Cmd)
    requires i <= |s|
    ensures Skip(s, i) <= |s| && Skip(s, Skip(s, i)) == Skip(s, i) && Backs(s, Skip(s, i), cmd) == Backs(s, i, cmd)
  {
    hide Skip, Gettoken, Peek;
    SkipTwice(s, i);
  }

  lemma WordMoves(s: string, i: nat)
    requires i <= |s|
    ensures Gettoken(s, i).kind == 'a' ==> Gettoken(s, i).pos > i
  {
  }

  // ---- tokens of a parsed command

  /** A whole word of s: nothing but word characters, and none right after it. */
  ghost predicate TokOk(s: string, t: Tok) {
    && t.q < t.eq <= |s| && (forall k :: t.q <= k < t.eq ==> !IsSpace(s[k]) && !IsSymbol(s[k]))
    && (t.eq < |s| ==> IsSpace(s[t.eq]) || IsSymbol(s[t.eq]))
  }

  function Toks(cmd: Cmd): seq<Tok> {
    match cmd
    case Exec(argv) => argv
    case Redir(c, file, _) => Toks(c) + [file]
    case Pipe(l, r) => Toks(l) + Toks(r)
    case List(l, r) => Toks(l) + Toks(r)
    case Back(c) => Toks(c)
  }

  ghost predicate ToksOk(s: string, ts: seq<Tok>) {
    forall i :: 0 <= i < |ts| ==> TokOk(s, ts[i])
  }

  ghost predicate FilesOk(s: string, ws: seq<Wrap>) {
    forall i :: 0 <= i < |ws| ==> TokOk(s, ws[i].file)
  }

  lemma WordTok(s: string, i: nat)
    requires i <= |s|
    ensures Gettoken(s, i).kind == 'a' ==> TokOk(s, Gettoken(s, i).tok)
  {
  }

  lemma {:induction false} WrappedToks(s: string, cmd: Cmd, ws: seq<Wrap>)
    requires ToksOk(s, Toks(cmd)) && FilesOk(s, ws)
    ensures ToksOk(s, Toks(Wrapped(cmd, ws)))
  {
    hide TokOk;
    if ws != [] { WrappedToks(s, cmd, ws[..|ws| - 1]); }
  }

  lemma {:induction false} RedirsToks(s: string, i: nat, ws: seq<Wrap>)
    requires i <= |s| && FilesOk(s, ws)
    ensures Redirs(s, i, ws).Ok? ==> FilesOk(s, Redirs(s, i, ws).value)
    decreases |s| - i
  {
    hide Skip, Gettoken, Peek, TokOk;
    if Peek(s, i, "<>") {
      PeekMoves(s, i, "<>");
      var op := Gettoken(s, i);
      var file := Gettoken(s, op.pos);
      WordTok(s, op.pos);
      if file.kind == 'a' { RedirsToks(s, file.pos, ws + [Wrap(file.tok, ModeOf(op.kind))]); }
    }
  }

  lemma {:induction false} ExecToks(s: string, i: nat, argv: seq<Tok>, ws: seq<Wrap>)
    requires i <= |s| && ToksOk(s, argv) && FilesOk(s, ws)
    ensures ExecLoop(s, i, argv, ws).Ok? ==> ToksOk(s, Toks(ExecLoop(s, i, argv, ws).value))
    decreases |s| - i
  {
    hide Skip, Gettoken, Peek, TokOk, Redirs, Wrapped;
    WrappedToks(s, Exec(argv), ws);
    var t := Gettoken(s, i);
    WordTok(s, i);
    WordMoves(s, i);
    if t.kind == 'a' {
      var r := Redirs(s, t.pos, ws);
      RedirsToks(s, t.pos, ws);
      if r.Ok? { ExecToks(s, r.pos, argv + [t.tok], r.value); }
    }
  }

  lemma {:induction false} BacksToks(s: string, i: nat, cmd: Cmd)
    requires i <= |s|
    ensures Toks(Backs(s, i, cmd).value) == Toks(cmd)
    decreases |s| - i
  {
    hide Skip, Gettoken, Peek;
    if Peek(s, i, "&") {
      PeekMoves(s, i, "&");
      BacksToks(s, Gettoken(s, i).pos, Back(cmd));
    }
  }

  lemma {:induction false} ParseExecToks(s: string, i: nat)
    requires i <= |s|
    ensures ParseExec(s, i).Ok? ==> ToksOk(s, Toks(ParseExec(s, i).value))
    decreases |s| - i, 1
  {
    hide Skip, Gettoken, Peek, TokOk, Redirs, ExecLoop, ParseBlock;
    if Peek(s, i, "(") {
      BlockToks(s, i);
    } else {
      var r := Redirs(s, Skip(s, i), []);
      RedirsToks(s, Skip(s, i), []);
      if r.Ok? { ExecToks(s, r.pos, [], r.value); }
    }
  }

  lemma {:induction false} BlockToks(s: string, i: nat)
    requires i <= |s|
    ensures ParseBlock(s, i).Ok? ==> ToksOk(s, Toks(ParseBlock(s, i).value))
    decreases |s| - i, 0
  {
    hide Skip, Gettoken, Peek, TokOk, Redirs, ParseLine, Wrapped;
    if Peek(s, i, "(") {
      PeekMoves(s, i, "(");
      LineToks(s, Gettoken(s, i).pos);
      var c := ParseLine(s, Gettoken(s, i).pos);
      if c.Ok? {
        var r := Redirs(s, Gettoken(s, c.pos).pos, []);
        RedirsToks(s, Gettoken(s, c.pos).pos, []);
        if r.Ok? { WrappedToks(s, c.value, r.value); }
      }
    }
  }

  lemma {:induction false} PipeToks(s: string, i: nat)
    requires i <= |s|
    ensures ParsePipe(s, i).Ok? ==> ToksOk(s, Toks(ParsePipe(s, i).value))
    decreases |s| - i, 2
  {
    hide Skip, Gettoken, Peek, TokOk, ParseExec;
    ParseExecToks(s, i);
    var l := ParseExec(s, i);
    if l.Ok? && Peek(s, l.pos, "|") {
      PeekMoves(s, l.pos, "|");
      PipeToks(s, Gettoken(s, l.pos).pos);
    }
  }

  /** Every token of a parsed command is a whole word of the line. */
  lemma {:induction false} LineToks(s: string, i: nat)
    requires i <= |s|
    ensures ParseLine(s, i).Ok? ==> ToksOk(s, Toks(ParseLine(s, i).value))
    decreases |s| - i, 3
  {
    hide Skip, Gettoken, Peek, TokOk, ParsePipe, Backs;
    PipeToks(s, i);
    var l := ParsePipe(s, i);
    if l.Ok? {
      var b := Backs(s, l.pos, l.value);
      BacksToks(s, l.pos, l.value);
      if Peek(s, b.pos, ";") {
        PeekMoves(s, b.pos, ";");
        LineToks(s, Gettoken(s, b.pos).pos);
      }
    }
  }

  // ---- nulterminate

  ghost predicate EndsAt(ts: seq<Tok>, k: int) {
    exists i :: 0 <= i < |ts| && ts[i].eq == k
  }

  ghost predicate EndsBelow(ts: seq<Tok>, n: nat) {
    forall i :: 0 <= i < |ts| ==> ts[i].eq < n
  }

  /** Writes a NUL at the end of every token, and nowhere else. */
  method Nulterminate(buf: array<char>, cmd: Cmd)
    requires EndsBelow(Toks(cmd), buf.Length)
    modifies buf
    ensures forall k :: 0 <= k < buf.Length ==> buf[k] == if EndsAt(Toks(cmd), k) then '\0' else old(buf[k])
    decreases cmd
  {
    match cmd
    case Exec(argv) =>
      for i := 0 to |argv|
        invariant forall k :: 0 <= k < buf.Length ==> buf[k] == if EndsAt(argv[..i], k) then '\0' else old(buf[k])
      {
        assert Toks(cmd)[i] == argv[i];
        buf[argv[i].eq] := '\0';
        EndsMore(argv[..i], argv[i]);
        assert argv[..i + 1] == argv[..i] + [argv[i]];
      }
      assert argv[..|argv|] == argv;
    case Redir(c, file, _) =>
      assert Toks(cmd) == Toks(c) + [file];
      EndsSplit(Toks(c), [file], buf.Length);
      Nulterminate(buf, c);
      assert [file][0] == file;
      buf[file.eq] := '\0';
      EndsMore(Toks(c), file);
    case Pipe(l, r) =>
      assert Toks(cmd) == Toks(l) + Toks(r);
      EndsSplit(Toks(l), Toks(r), buf.Length);
      Nulterminate(buf, l);
      Nulterminate(buf, r);
    case List(l, r) =>
      assert Toks(cmd) == Toks(l) + Toks(r);
      EndsSplit(Toks(l), Toks(r), buf.Length);
      Nulterminate(buf, l);
      Nulterminate(buf, r);
    case Back(c) =>
      assert Toks(cmd) == Toks(c);
      Nulterminate(buf, c);
  }

  lemma EndsMore(ts: seq<Tok>, t: Tok)
    ensures forall k :: EndsAt(ts + [t], k) <==> EndsAt(ts, k) || k == t.eq
  {
    forall k ensures EndsAt(ts + [t], k) <==> EndsAt(ts, k) || k == t.eq { EndsOne(ts, [t], k); EndsSingle(t, k); }
  }

  lemma EndsSingle(t: Tok, k: int)
    ensures EndsAt([t], k) <==> k == t.eq
  {
    assert [t][0] == t;
  }

  lemma EndsOne(ts: seq<Tok>, us: seq<Tok>, k: int)
    ensures EndsAt(ts + us, k) <==> EndsAt(ts, k) || EndsAt(us, k)
  {
    if EndsAt(ts + us, k) {
      var i :| 0 <= i < |ts + us| && (ts + us)[i].eq == k;
      if i < |ts| { assert ts[i].eq == k; } else { assert us[i - |ts|].eq == k; }
    }
    if EndsAt(ts, k) {
      var i :| 0 <= i < |ts| && ts[i].eq == k;
      assert (ts + us)[i].eq == k;
    }
    if EndsAt(us, k) {
      var i :| 0 <= i < |us| && us[i].eq == k;
      assert (ts + us)[|ts| + i].eq == k;
    }
  }

  lemma EndsSplit(ts: seq<Tok>, us: seq<Tok>, n: nat)
    requires EndsBelow(ts + us, n)
    ensures EndsBelow(ts, n) && EndsBelow(us, n)
    ensures forall k :: EndsAt(ts + us, k) <==> EndsAt(ts, k) || EndsAt(us, k)
  {
    forall i | 0 <= i < |ts| ensures ts[i].eq < n { assert (ts + us)[i] == ts[i]; }
    forall i | 0 <= i < |us| ensures us[i].eq < n { assert (ts + us)[|ts| + i] == us[i]; }
    forall k ensures EndsAt(ts + us, k) <==> EndsAt(ts, k) || EndsAt(us, k) { EndsOne(ts, us, k); }
  }

  /** The C string at q. */
  ghost function StringAt(b: seq<char>, q: nat): string
    decreases |b| - q
  {
    if q >= |b| || b[q] == '\0' then "" else [b[q]] + StringAt(b, q + 1)
  }

  lemma {:induction false} StringIs(b: seq<char>, q: nat, e: nat)
    requires q <= e < |b| && b[e] == '\0' && forall k :: q <= k < e ==> b[k] != '\0'
    ensures StringAt(b, q) == b[q..e]
    decreases e - q
  {
    if q < e { StringIs(b, q + 1, e); }
  }

  /** No NUL lands inside a word: the end of one is not in another. */
  lemma EndsOutside(s: string, ts: seq<Tok>, t: Tok, k: int)
    requires ToksOk(s, ts) && TokOk(s, t) && t.q <= k < t.eq
    ensures !EndsAt(ts, k)
  {
    forall i | 0 <= i < |ts| ensures ts[i].eq != k { assert TokOk(s, ts[i]); }
  }

  /** parsecmd: after a successful parse every argument and file name, read as a C
      string, is exactly its word. */
  method Parsecmd(buf: array<char>, ghost s: string) returns (r: Result<Cmd>)
    requires buf.Length == |s| + 1 && buf[..] == s + "\0" && '\0' !in s
    modifies buf
    ensures r == ParseCmd(s)
    ensures r.Ok? ==> ToksOk(s, Toks(r.value))
    ensures r.Ok? ==>
              var ts := Toks(r.value); forall i :: 0 <= i < |ts| ==> StringAt(buf[..], ts[i].q) == Word(s, ts[i])
  {
    hide ParseLine, Gettoken, Peek;
    var line := buf[..buf.Length - 1];
    assert line == s;
    var parser := new Parser(line);
    r := parser.Parseline();
    LineToks(s, 0);
    if r.Panic? {
      return;
    }
    var _ := parser.Next("");
    if parser.pos != |line| {
      return Panic;
    }
    ghost var ts := Toks(r.value);
    forall i | 0 <= i < |ts| ensures ts[i].eq < buf.Length { assert TokOk(s, ts[i]); }
    Nulterminate(buf, r.value);
    forall i | 0 <= i < |ts| ensures StringAt(buf[..], ts[i].q) == Word(s, ts[i]) {
      AllReadBack(s, buf[..], ts, i);
    }
    r := Ok(r.value, |line|);
  }

  lemma AllReadBack(s: string, b: seq<char>, ts: seq<Tok>, i: nat)
    requires ToksOk(s, ts) && i < |ts| && |b| == |s| + 1 && '\0' !in s
    requires forall k :: 0 <= k < |b| ==> b[k] == if EndsAt(ts, k) then '\0' else (s + "\0")[k]
    ensures StringAt(b, ts[i].q) == Word(s, ts[i])
  {
    var t := ts[i];
    assert TokOk(s, t) && EndsAt(ts, t.eq);
    forall k | t.q <= k < t.eq ensures b[k] == s[k] && b[k] != '\0' { EndsOutside(s, ts, t, k); }
    StringIs(b, t.q, t.eq);
    assert b[t.q..t.eq] == s[t.q..t.eq];
  }
}
