/** Printing a command tree with parentheses and parsing it again. */
module ShRound {
  import opened Sh

  /** A command tree with its words. */
  datatype Tree =
    | TExec(args: seq<string>)
    | TRedir(tree: Tree, file: string, mode: Mode)
    | TPipe(left: Tree, right: Tree)
    | TList(left: Tree, right: Tree)
    | TBack(tree: Tree)

  /** The words of a parsed command. */
  function Text(s: string, cmd: Cmd): Tree {
    match cmd
    case Exec(argv) => TExec(Words(s, argv))
    case Redir(c, file, mode) => TRedir(Text(s, c), Word(s, file), mode)
    case Pipe(l, r) => TPipe(Text(s, l), Text(s, r))
    case List(l, r) => TList(Text(s, l), Text(s, r))
    case Back(c) => TBack(Text(s, c))
  }

  function Word(s: string, t: Tok): string {
    if t.q <= t.eq <= |s| then s[t.q..t.eq] else ""
  }

  function Words(s: string, ts: seq<Tok>): (ws: seq<string>)
    ensures |ws| == |ts|
  {
    seq(|ts|, i requires 0 <= i < |ts| => Word(s, ts[i]))
  }

  // ---- the printer

  function Op(mode: Mode): string {
    match mode case In => "<" case Out => ">" case Append => ">>"
  }

  /** A word or a redirection of a simple command. */
  datatype Part = Arg(w: string) | To(mode: Mode, file: string)

  function ShowPart(p: Part): string {
    match p
    case Arg(w) => w
    case To(mode, file) => Op(mode) + file
  }

  /** A simple command: words and redirections in any order. */
  function ShowParts(ps: seq<Part>): string {
    if ps == [] then "" else if |ps| == 1 then ShowPart(ps[0]) else ShowPart(ps[0]) + " " + ShowParts(ps[1..])
  }

  function Args(ps: seq<Part>): seq<string> {
    if ps == [] then [] else (if ps[0].Arg? then [ps[0].w] else []) + Args(ps[1..])
  }

  function Redirections(ps: seq<Part>): seq<(Mode, string)> {
    if ps == [] then [] else (if ps[0].To? then [(ps[0].mode, ps[0].file)] else []) + Redirections(ps[1..])
  }

  function AsParts(args: seq<string>): (ps: seq<Part>)
    ensures |ps| == |args| && forall i :: 0 <= i < |args| ==> ps[i] == Arg(args[i])
  {
    seq(|args|, i requires 0 <= i < |args| => Arg(args[i]))
  }

  lemma {:induction false} JustWords(args: seq<string>)
    ensures Args(AsParts(args)) == args && Redirections(AsParts(args)) == []
  {
    if args != [] {
      JustWords(args[1..]);
      assert AsParts(args)[1..] == AsParts(args[1..]);
      assert [args[0]] + args[1..] == args;
    }
  }

  function Paren(w: string): string { "(" + w + ")" }

  function Show(t: Tree): string {
    match t
    case TExec(args) => ShowParts(AsParts(args))
    case TRedir(u, file, mode) => Paren(Show(u)) + Op(mode) + file
    case TPipe(l, r) => Paren(Show(l)) + "|" + Paren(Show(r))
    case TList(l, r) => Paren(Show(l)) + ";" + Paren(Show(r))
    case TBack(u) => Paren(Show(u)) + "&"
  }

  ghost predicate GoodWord(w: string) {
    w != "" && forall i :: 0 <= i < |w| ==> IsWord(w[i])
  }

  ghost predicate GoodArgs(args: seq<string>) {
    forall i :: 0 <= i < |args| ==> GoodWord(args[i])
  }

  ghost predicate GoodPart(p: Part) {
    match p
    case Arg(w) => GoodWord(w)
    case To(_, file) => GoodWord(file)
  }

  ghost predicate GoodParts(ps: seq<Part>) {
    forall i :: 0 <= i < |ps| ==> GoodPart(ps[i])
  }

  /** Trees the shell can hold: proper words, fewer than MAXARGS arguments. */
  ghost predicate Good(t: Tree) {
    match t
    case TExec(args) => |args| < MAXARGS && GoodArgs(args)
    case TRedir(u, file, _) => Good(u) && GoodWord(file)
    case TPipe(l, r) => Good(l) && Good(r)
    case TList(l, r) => Good(l) && Good(r)
    case TBack(u) => Good(u)
  }

  lemma Assoc<T>(a: seq<T>, b: seq<T>, c: seq<T>)
    ensures a + b + c == a + (b + c)
  {
  }

  lemma WordsCons(s: string, t: Tok, ts: seq<Tok>)
    ensures Words(s, [t] + ts) == [Word(s, t)] + Words(s, ts)
  {
  }

  // ---- reading at a position

  ghost predicate Reads(s: string, i: nat, w: string) {
    i + |w| <= |s| && s[i..i + |w|] == w
  }

  lemma Split(s: string, i: nat, u: string, v: string)
    requires Reads(s, i, u + v)
    ensures Reads(s, i, u) && Reads(s, i + |u|, v)
  {
    assert s[i..i + |u|] == (u + v)[..|u|];
    assert s[i + |u|..i + |u| + |v|] == (u + v)[|u|..];
  }

  lemma ReadsChar(s: string, i: nat, c: char)
    requires Reads(s, i, [c])
    ensures i < |s| && s[i] == c
  {
    assert s[i..i + 1][0] == c;
  }

  lemma FirstChar(s: string, i: nat, w: string)
    requires Reads(s, i, w) && w != ""
    ensures i < |s| && s[i] == w[0]
  {
    assert s[i..i + |w|][0] == w[0];
  }

  lemma ParenShape(w: string)
    ensures |Paren(w)| == |w| + 2 && Paren(w)[0] == '(' && Paren(w) + "" == Paren(w)
  {
  }

  lemma SplitParen(s: string, i: nat, w: string, v: string)
    requires Reads(s, i, Paren(w) + v)
    ensures i < |s| && s[i] == '(' && Reads(s, i + 1, w) && i + 1 + |w| < |s| && s[i + 1 + |w|] == ')'
    ensures Reads(s, i + 2 + |w|, v)
  {
    Split(s, i, Paren(w), v);
    Split(s, i, "(" + w, ")");
    Split(s, i, "(", w);
    ReadsChar(s, i, '(');
    ReadsChar(s, i + 1 + |w|, ')');
  }

  /** What follows a printed tree: the end, or a closing parenthesis. */
  ghost predicate Closed(s: string, i: nat) {
    i == |s| || (i < |s| && s[i] == ')')
  }

  /** What ends a simple command. */
  ghost predicate Stops(s: string, i: nat) {
    i == |s| || (i < |s| && s[i] in "|)&;")
  }

  lemma StopsPeek(s: string, i: nat)
    requires Stops(s, i)
    ensures Skip(s, i) == i && !Peek(s, i, "<>") && !Peek(s, i, "(") && (i < |s| ==> !IsWord(s[i]) && s[i] != '\0')
    ensures i == |s| ==> Gettoken(s, i) == Lexeme('\0', Tok(i, i), i) && !Peek(s, i, "|)&;")
    ensures i < |s| ==> Peek(s, i, "|)&;")
  {
  }

  lemma SkipStays(s: string, i: nat)
    requires i >= |s| || !IsSpace(s[i])
    ensures Skip(s, i) == i
  {
  }

  /** At a symbol other than '>', the symbol is the token. */
  lemma SymbolToken(s: string, i: nat, c: char)
    requires i < |s| && s[i] == c && IsSymbol(c) && c != '>'
    ensures Skip(s, i) == i && Gettoken(s, i) == Lexeme(c, Tok(i, i + 1), Skip(s, i + 1))
    ensures forall toks: string :: Peek(s, i, toks) <==> c in toks
  {
  }

  lemma ClosedPeek(s: string, i: nat)
    requires Closed(s, i)
    ensures Skip(s, i) == i && !Peek(s, i, "|") && !Peek(s, i, "&") && !Peek(s, i, ";") && !Peek(s, i, "<>")
    ensures !Peek(s, i, "(")
    ensures i == |s| ==> Gettoken(s, i) == Lexeme('\0', Tok(i, i), i) && !Peek(s, i, "|)&;")
    ensures i < |s| ==> Peek(s, i, "|)&;") && Peek(s, i, ")")
  {
  }

  lemma {:induction false} WordEndIs(s: string, i: nat, j: nat)
    requires i <= j <= |s| && (forall k :: i <= k < j ==> IsWord(s[k])) && (j < |s| ==> !IsWord(s[j]) && s[j] != '\0')
    ensures WordEnd(s, i) == j
    decreases j - i
  {
    if i < j { WordEndIs(s, i + 1, j); }
  }

  lemma WordToken(s: string, i: nat, w: string)
    requires Reads(s, i, w) && GoodWord(w) && (i + |w| < |s| ==> !IsWord(s[i + |w|]) && s[i + |w|] != '\0')
    ensures i < |s| && IsWord(s[i]) && Skip(s, i) == i
    ensures Gettoken(s, i) == Lexeme('a', Tok(i, i + |w|), Skip(s, i + |w|))
    ensures Word(s, Tok(i, i + |w|)) == w
    ensures !Peek(s, i, "|)&;") && !Peek(s, i, "(") && !Peek(s, i, "<>") && !Peek(s, i, ")")
  {
    forall k | i <= k < i + |w| ensures s[k] == w[k - i] { assert s[k] == s[i..i + |w|][k - i]; }
    WordEndIs(s, i, i + |w|);
  }

  // ---- simple commands

  lemma PartSolid(p: Part)
    requires GoodPart(p)
    ensures ShowPart(p) != "" && !IsSpace(ShowPart(p)[0])
    ensures p.Arg? ==> IsWord(ShowPart(p)[0])
  {
  }

  lemma PartsSolid(ps: seq<Part>)
    requires ps != [] && GoodParts(ps)
    ensures ShowParts(ps) != "" && ShowParts(ps)[0] == ShowPart(ps[0])[0] && !IsSpace(ShowParts(ps)[0])
  {
    assert GoodPart(ps[0]);
    PartSolid(ps[0]);
  }

  /** The first part, what ends it, and where the next one starts. */
  lemma NextPart(s: string, i: nat, ps: seq<Part>) returns (j: nat)
    requires ps != [] && Reads(s, i, ShowParts(ps)) && Stops(s, i + |ShowParts(ps)|) && GoodParts(ps)
    ensures var w := ShowPart(ps[0]);
            && Reads(s, i, w) && (i + |w| < |s| ==> !IsWord(s[i + |w|]) && s[i + |w|] != '\0')
            && j == Skip(s, i + |w|) && Reads(s, j, ShowParts(ps[1..]))
            && j + |ShowParts(ps[1..])| == i + |ShowParts(ps)| && Skip(s, j) == j
  {
    hide Skip, Reads, IsWord, ShowPart;
    var w := ShowPart(ps[0]);
    if |ps| == 1 {
      j := i + |w|;
      StopsPeek(s, j);
      NothingReads(s, j);
    } else {
      Split(s, i, w + " ", ShowParts(ps[1..]));
      Split(s, i, w, " ");
      ReadsChar(s, i + |w|, ' ');
      j := i + |w| + 1;
      PartsSolid(ps[1..]);
      FirstChar(s, j, ShowParts(ps[1..]));
      AfterSpace(s, i + |w|);
    }
  }

  lemma NothingReads(s: string, j: nat)
    requires j <= |s|
    ensures Reads(s, j, "")
  {
  }

  /** A space and then something else. */
  lemma AfterSpace(s: string, k: nat)
    requires k + 1 < |s| && s[k] == ' ' && !IsSpace(s[k + 1])
    ensures !IsWord(s[k]) && s[k] != '\0' && Skip(s, k) == k + 1 == Skip(s, k + 1)
  {
    assert Skip(s, k) == Skip(s, k + 1);
  }

  /** parseredirs and then parseexec's loop. */
  function Parts(s: string, i: nat, argv: seq<Tok>, ws: seq<Wrap>): Result<Cmd>
    requires i <= |s|
  {
    var r := Redirs(s, i, ws);
    if r.Panic? then Panic else ExecLoop(s, r.pos, argv, r.value)
  }

  lemma PartsEnd(s: string, i: nat, argv: seq<Tok>, ws: seq<Wrap>)
    requires Stops(s, i)
    ensures Parts(s, i, argv, ws) == Ok(Wrapped(Exec(argv), ws), i)
  {
    StopsPeek(s, i);
  }

  lemma PartsArg(s: string, i: nat, w: string, j: nat, argv: seq<Tok>, ws: seq<Wrap>)
    requires Reads(s, i, w) && GoodWord(w) && (i + |w| < |s| ==> !IsWord(s[i + |w|]) && s[i + |w|] != '\0')
    requires j == Skip(s, i + |w|) && |argv| + 1 < MAXARGS
    ensures j <= |s| && Parts(s, i, argv, ws) == Parts(s, j, argv + [Tok(i, i + |w|)], ws)
    ensures Word(s, Tok(i, i + |w|)) == w
  {
    hide Skip, WordEnd, Peek, Gettoken;
    WordToken(s, i, w);
  }

  /** One redirection taken by parseredirs' loop. */
  lemma RedirsOnce(s: string, i: nat, op: Lexeme, file: Lexeme, ws: seq<Wrap>)
    requires i <= |s| && Peek(s, i, "<>") && op == Gettoken(s, i) && file == Gettoken(s, op.pos) && file.kind == 'a'
    ensures Redirs(s, i, ws) == Redirs(s, file.pos, ws + [Wrap(file.tok, ModeOf(op.kind))])
  {
    hide Skip, Gettoken, Peek, ModeOf;
  }

  lemma PartsRedir(s: string, i: nat, mode: Mode, file: string, j: nat, argv: seq<Tok>, ws: seq<Wrap>)
    requires Reads(s, i, Op(mode) + file) && GoodWord(file)
    requires var e := i + |Op(mode)| + |file|; (e < |s| ==> !IsWord(s[e]) && s[e] != '\0') && j == Skip(s, e)
    ensures var tok := Tok(i + |Op(mode)|, i + |Op(mode)| + |file|);
            j <= |s| && Parts(s, i, argv, ws) == Parts(s, j, argv, ws + [Wrap(tok, mode)]) && Word(s, tok) == file
  {
    hide *;
    var k := i + |Op(mode)|;
    Split(s, i, Op(mode), file);
    WordToken(s, k, file);
    OpToken(s, i, mode);
    RedirsOnce(s, i, Gettoken(s, i), Gettoken(s, k), ws);
    SameParts(s, i, j, argv, ws, ws + [Wrap(Tok(k, k + |file|), mode)]);
  }

  lemma SameParts(s: string, i: nat, j: nat, argv: seq<Tok>, ws: seq<Wrap>, ws': seq<Wrap>)
    requires i <= |s| && j <= |s| && Redirs(s, i, ws) == Redirs(s, j, ws')
    ensures Parts(s, i, argv, ws) == Parts(s, j, argv, ws')
  {
  }

  function Files(s: string, ws: seq<Wrap>): (fs: seq<(Mode, string)>)
    ensures |fs| == |ws|
  {
    seq(|ws|, i requires 0 <= i < |ws| => (ws[i].mode, Word(s, ws[i].file)))
  }

  /** Words and redirections in any order: the words become the arguments, in order,
      and the redirections wrap the command, in order. */
  lemma {:induction false} PartsLoop(s: string, i: nat, ps: seq<Part>, argv: seq<Tok>, ws: seq<Wrap>)
      returns (ts: seq<Tok>, us: seq<Wrap>)
    requires Reads(s, i, ShowParts(ps)) && Stops(s, i + |ShowParts(ps)|) && GoodParts(ps)
    requires |argv| + |Args(ps)| < MAXARGS
    ensures Parts(s, i, argv, ws) == Ok(Wrapped(Exec(argv + ts), ws + us), i + |ShowParts(ps)|)
    ensures Words(s, ts) == Args(ps) && Files(s, us) == Redirections(ps)
    decreases |ps|
  {
    hide *;
    if ps == [] {
      NoParts(s, i, argv, ws);
      ts, us := [], [];
    } else {
      var j := NextPart(s, i, ps);
      FirstPart(ps);
      match ps[0]
      case Arg(w) =>
        var t := Tok(i, i + |w|);
        PartsArg(s, i, w, j, argv, ws);
        ts, us := PartsLoop(s, j, ps[1..], argv + [t], ws);
        Assoc(argv, [t], ts);
        WordsCons(s, t, ts);
        ts := [t] + ts;
      case To(mode, file) =>
        var u := Wrap(Tok(i + |Op(mode)|, i + |Op(mode)| + |file|), mode);
        PartsRedir(s, i, mode, file, j, argv, ws);
        ts, us := PartsLoop(s, j, ps[1..], argv, ws + [u]);
        Assoc(ws, [u], us);
        FilesCons(s, u, us);
        us := [u] + us;
    }
  }

  lemma NoParts(s: string, i: nat, argv: seq<Tok>, ws: seq<Wrap>)
    requires Stops(s, i + |ShowParts([])|)
    ensures ShowParts([]) == "" && Args([]) == [] && Redirections([]) == [] && Words(s, []) == [] && Files(s, []) == []
    ensures Parts(s, i, argv, ws) == Ok(Wrapped(Exec(argv + []), ws + []), i)
  {
    assert argv + [] == argv && ws + [] == ws;
    PartsEnd(s, i, argv, ws);
  }

  lemma FirstPart(ps: seq<Part>)
    requires ps != [] && GoodParts(ps)
    ensures GoodParts(ps[1..])
    ensures match ps[0]
            case Arg(w) =>
              && GoodWord(w) && ShowPart(ps[0]) == w && Args(ps) == [w] + Args(ps[1..])
              && Redirections(ps) == Redirections(ps[1..])
            case To(mode, file) =>
              && GoodWord(file) && ShowPart(ps[0]) == Op(mode) + file && Args(ps) == Args(ps[1..])
              && Redirections(ps) == [(mode, file)] + Redirections(ps[1..])
  {
    assert GoodPart(ps[0]);
  }

  lemma FilesCons(s: string, w: Wrap, ws: seq<Wrap>)
    ensures Files(s, [w] + ws) == [(w.mode, Word(s, w.file))] + Files(s, ws)
  {
  }

  // ---- commands

  /** A parenthesised command and its redirections. */
  lemma Block(s: string, i: nat, e: nat, cmd: Cmd)
    requires i < e < |s| && s[i] == '(' && s[e] == ')' && ParseLine(s, Skip(s, i + 1)) == Ok(cmd, e)
    ensures var r := Redirs(s, Skip(s, e + 1), []); r.Ok? ==> ParseExec(s, i) == Ok(Wrapped(cmd, r.value), r.pos)
  {
    hide Skip, WordEnd, Redirs, ExecLoop, ParseLine;
    SymbolToken(s, i, '(');
    SymbolToken(s, e, ')');
  }

  lemma NoRedirs(s: string, i: nat)
    requires i <= |s| && !Peek(s, i, "<>")
    ensures Redirs(s, i, []) == Ok([], Skip(s, i))
  {
  }

  /** Nothing more of a line follows. */
  lemma LineEnds(s: string, i: nat, cmd: Cmd, e: nat)
    requires i <= |s| && ParseExec(s, i) == Ok(cmd, e) && Closed(s, e)
    ensures ParsePipe(s, i) == Ok(cmd, e) && ParseLine(s, i) == Ok(cmd, e)
  {
    hide Skip, Gettoken, ParseExec, Peek;
    ClosedPeek(s, e);
  }

  /** A simple command with words and redirections in any order. */
  lemma PartsExec(s: string, i: nat, ps: seq<Part>) returns (ts: seq<Tok>, us: seq<Wrap>)
    requires Reads(s, i, ShowParts(ps)) && Stops(s, i + |ShowParts(ps)|) && GoodParts(ps) && |Args(ps)| < MAXARGS
    ensures ParseExec(s, i) == Ok(Wrapped(Exec(ts), us), i + |ShowParts(ps)|)
    ensures Words(s, ts) == Args(ps) && Files(s, us) == Redirections(ps)
  {
    hide Skip, WordEnd, Peek, Gettoken, ExecLoop, Redirs, Words, Files, Wrapped, Reads;
    ts, us := PartsLoop(s, i, ps, [], []);
    assert [] + ts == ts && [] + us == us;
    NotBlock(s, i, ps);
  }

  lemma PartsLine(s: string, i: nat, ps: seq<Part>) returns (ts: seq<Tok>, us: seq<Wrap>)
    requires Reads(s, i, ShowParts(ps)) && Closed(s, i + |ShowParts(ps)|) && GoodParts(ps) && |Args(ps)| < MAXARGS
    ensures ParseLine(s, i) == Ok(Wrapped(Exec(ts), us), i + |ShowParts(ps)|)
    ensures Words(s, ts) == Args(ps) && Files(s, us) == Redirections(ps)
  {
    hide Skip, ParseExec, ParsePipe, ParseLine, Words, Files, Wrapped, Reads;
    ts, us := PartsExec(s, i, ps);
    LineEnds(s, i, Wrapped(Exec(ts), us), i + |ShowParts(ps)|);
  }

  lemma NotBlock(s: string, i: nat, ps: seq<Part>)
    requires Reads(s, i, ShowParts(ps)) && Stops(s, i + |ShowParts(ps)|) && GoodParts(ps)
    ensures Skip(s, i) == i && !Peek(s, i, "(")
  {
    hide WordEnd, Gettoken, ShowParts, Reads, Skip;
    if ps == [] {
      ShowNothing();
      StopsPeek(s, i);
    } else {
      PartsSolid(ps);
      FirstChar(s, i, ShowParts(ps));
      SkipStays(s, i);
      NoParen(ps[0]);
    }
  }

  lemma ShowNothing()
    ensures ShowParts([]) == ""
  {
  }

  lemma NoParen(p: Part)
    requires GoodPart(p)
    ensures ShowPart(p) != "" && ShowPart(p)[0] != '('
  {
  }

  lemma ExecLine(s: string, i: nat, args: seq<string>) returns (cmd: Cmd)
    requires Reads(s, i, Show(TExec(args))) && Closed(s, i + |Show(TExec(args))|) && GoodArgs(args) && |args| < MAXARGS
    ensures ParseLine(s, i) == Ok(cmd, i + |Show(TExec(args))|) && Text(s, cmd) == TExec(args)
  {
    hide Skip, ParseLine, Words, Files, Reads, ShowParts, GoodWord;
    var ps := AsParts(args);
    JustWords(args);
    forall k | 0 <= k < |ps| ensures GoodPart(ps[k]) { assert GoodWord(args[k]); }
    var ts, us := PartsLine(s, i, ps);
    assert us == [];
    cmd := Exec(ts);
  }

  /** A parenthesised tree, with no redirection after it. */
  lemma Unit(s: string, i: nat, t: Tree) returns (cmd: Cmd)
    requires Good(t) && Reads(s, i, Paren(Show(t)))
    requires var k := i + |Paren(Show(t))|;
             k == |s| || (k < |s| && (s[k] == '|' || s[k] == ';' || s[k] == '&' || s[k] == ')'))
    ensures ParseExec(s, i) == Ok(cmd, i + |Paren(Show(t))|) && Text(s, cmd) == t
    decreases t, 1
  {
    hide Skip, WordEnd, Redirs, ExecLoop, ParseLine, ParseExec, Gettoken, Reads, Paren, Show, Peek;
    ParenShape(Show(t));
    SplitParen(s, i, Show(t), "");
    var e := i + 1 + |Show(t)|;
    StartsSolid(s, i + 1, t);
    cmd := Round(s, i + 1, t);
    Block(s, i, e, cmd);
    if e + 1 < |s| { SymbolToken(s, e + 1, s[e + 1]); } else { ClosedPeek(s, e + 1); }
    NoRedirs(s, e + 1);
  }

  /** A printed tree does not begin with a space. */
  lemma StartsSolid(s: string, i: nat, t: Tree)
    requires Good(t) && Reads(s, i, Show(t)) && Closed(s, i + |Show(t)|)
    ensures Skip(s, i) == i
  {
    hide Reads, Skip, ShowParts, GoodWord;
    if t.TExec? {
      var ps := AsParts(t.args);
      forall k | 0 <= k < |ps| ensures GoodPart(ps[k]) { assert GoodWord(t.args[k]); }
      NotBlock(s, i, ps);
    } else {
      assert Show(t)[0] == '(';
      FirstChar(s, i, Show(t));
      SkipStays(s, i);
    }
  }

  /** Parsing a printed tree, wherever it stands, gives the tree. */
  lemma Round(s: string, i: nat, t: Tree) returns (cmd: Cmd)
    requires Good(t) && Reads(s, i, Show(t)) && Closed(s, i + |Show(t)|)
    ensures ParseLine(s, i) == Ok(cmd, i + |Show(t)|) && Text(s, cmd) == t
    decreases t, 0
  {
    match t
    case TExec(args) => cmd := ExecLine(s, i, args);
    case TPipe(l, r) => cmd := RoundPipe(s, i, l, r);
    case TList(l, r) => cmd := RoundList(s, i, l, r);
    case TBack(u) => cmd := RoundBack(s, i, u);
    case TRedir(u, file, mode) => cmd := RoundRedir(s, i, u, file, mode);
  }

  lemma LinePipe(s: string, i: nat, l: Cmd, k: nat, r: Cmd, e: nat)
    requires i <= |s| && ParseExec(s, i) == Ok(l, k) && k < |s| && s[k] == '|' && Skip(s, k + 1) == k + 1
    requires ParsePipe(s, k + 1) == Ok(r, e) && Closed(s, e)
    ensures ParseLine(s, i) == Ok(Pipe(l, r), e)
  {
    hide Skip, Gettoken, Peek, ParseExec;
    SymbolToken(s, k, '|');
    ClosedPeek(s, e);
  }

  lemma LineList(s: string, i: nat, l: Cmd, k: nat, r: Cmd, e: nat)
    requires i <= |s| && ParseExec(s, i) == Ok(l, k) && k < |s| && s[k] == ';' && Skip(s, k + 1) == k + 1
    requires ParseLine(s, k + 1) == Ok(r, e)
    ensures ParseLine(s, i) == Ok(List(l, r), e)
  {
    hide Skip, Gettoken, Peek, ParseExec;
    SymbolToken(s, k, ';');
  }

  lemma LineBack(s: string, i: nat, c: Cmd, k: nat)
    requires i <= |s| && ParseExec(s, i) == Ok(c, k) && k < |s| && s[k] == '&' && Closed(s, k + 1)
    ensures ParseLine(s, i) == Ok(Back(c), k + 1)
  {
    hide Skip, Gettoken, Peek, ParseExec;
    SymbolToken(s, k, '&');
    ClosedPeek(s, k + 1);
    assert Backs(s, k + 1, Back(c)) == Ok(Back(c), k + 1);
  }

  /** Two parenthesised trees with a symbol between them. */
  lemma Between(s: string, i: nat, l: string, c: char, r: string)
    requires Reads(s, i, Paren(l) + [c] + Paren(r))
    ensures var k := i + |Paren(l)|;
            Reads(s, i, Paren(l)) && k < |s| && s[k] == c && Reads(s, k + 1, Paren(r)) && Skip(s, k + 1) == k + 1
  {
    hide Reads, Paren, Skip;
    var k := i + |Paren(l)|;
    Split(s, i, Paren(l) + [c], Paren(r));
    Split(s, i, Paren(l), [c]);
    ReadsChar(s, k, c);
    ParenShape(r);
    FirstChar(s, k + 1, Paren(r));
    SkipStays(s, k + 1);
  }

  lemma RoundPipe(s: string, i: nat, l: Tree, r: Tree) returns (cmd: Cmd)
    requires var t := TPipe(l, r); Good(t) && Reads(s, i, Show(t)) && Closed(s, i + |Show(t)|)
    ensures var t := TPipe(l, r); ParseLine(s, i) == Ok(cmd, i + |Show(t)|) && Text(s, cmd) == t
    decreases TPipe(l, r), 0, 0
  {
    hide Skip, ParseLine, ParsePipe, ParseExec, Reads, Paren;
    var k, e := i + |Paren(Show(l))|, i + |Show(TPipe(l, r))|;
    Between(s, i, Show(l), '|', Show(r));
    var cl := Unit(s, i, l);
    var cr := Unit(s, k + 1, r);
    LineEnds(s, k + 1, cr, e);
    LinePipe(s, i, cl, k, cr, e);
    cmd := Pipe(cl, cr);
  }

  lemma RoundList(s: string, i: nat, l: Tree, r: Tree) returns (cmd: Cmd)
    requires var t := TList(l, r); Good(t) && Reads(s, i, Show(t)) && Closed(s, i + |Show(t)|)
    ensures var t := TList(l, r); ParseLine(s, i) == Ok(cmd, i + |Show(t)|) && Text(s, cmd) == t
    decreases TList(l, r), 0, 0
  {
    hide Skip, ParseLine, ParsePipe, ParseExec, Reads, Paren;
    var k, e := i + |Paren(Show(l))|, i + |Show(TList(l, r))|;
    Between(s, i, Show(l), ';', Show(r));
    var cl := Unit(s, i, l);
    var cr := Unit(s, k + 1, r);
    LineEnds(s, k + 1, cr, e);
    LineList(s, i, cl, k, cr, e);
    cmd := List(cl, cr);
  }

  lemma RoundBack(s: string, i: nat, u: Tree) returns (cmd: Cmd)
    requires var t := TBack(u); Good(t) && Reads(s, i, Show(t)) && Closed(s, i + |Show(t)|)
    ensures var t := TBack(u); ParseLine(s, i) == Ok(cmd, i + |Show(t)|) && Text(s, cmd) == t
    decreases TBack(u), 0, 0
  {
    hide Skip, ParseLine, ParsePipe, ParseExec, Reads, Paren;
    var k := i + |Paren(Show(u))|;
    Split(s, i, Paren(Show(u)), "&");
    ReadsChar(s, k, '&');
    var c := Unit(s, i, u);
    LineBack(s, i, c, k);
    cmd := Back(c);
  }

  lemma RoundRedir(s: string, i: nat, u: Tree, file: string, mode: Mode) returns (cmd: Cmd)
    requires var t := TRedir(u, file, mode); Good(t) && Reads(s, i, Show(t)) && Closed(s, i + |Show(t)|)
    ensures var t := TRedir(u, file, mode); ParseLine(s, i) == Ok(cmd, i + |Show(t)|) && Text(s, cmd) == t
    decreases TRedir(u, file, mode), 0, 0
  {
    hide *;
    var k, e := RedirPlaces(s, i, u, file, mode);
    StartsSolid(s, i + 1, u);
    var c := Round(s, i + 1, u);
    cmd := RedirLine(s, i, k, c, mode, file);
    assert Text(s, cmd) == TRedir(u, file, mode) by { RedirText(s, c, cmd.file, mode); }
  }

  /** Where the parts of a printed redirection are. */
  lemma RedirPlaces(s: string, i: nat, u: Tree, file: string, mode: Mode) returns (k: nat, e: nat)
    requires var t := TRedir(u, file, mode); Good(t) && Reads(s, i, Show(t)) && Closed(s, i + |Show(t)|)
    ensures Good(u) && GoodWord(file) && e == i + |Show(TRedir(u, file, mode))| == k + |Op(mode)| + |file|
    ensures i + 1 + |Show(u)| == k - 1 && i < k - 1 < |s| && s[i] == '(' && s[k - 1] == ')'
    ensures Reads(s, i + 1, Show(u)) && Closed(s, k - 1)
    ensures Reads(s, k, Op(mode)) && Reads(s, k + |Op(mode)|, file) && Closed(s, e)
  {
    hide Skip, Reads, Op, IsWord, GoodWord;
    k, e := i + |Paren(Show(u))|, i + |Show(TRedir(u, file, mode))|;
    Assoc(Paren(Show(u)), Op(mode), file);
    SplitParen(s, i, Show(u), Op(mode) + file);
    Split(s, k, Op(mode), file);
  }

  /** A parenthesised command with one redirection, up to the end of a line. */
  lemma RedirLine(s: string, i: nat, k: nat, c: Cmd, mode: Mode, file: string) returns (cmd: Cmd)
    requires i < k - 1 < |s| && s[i] == '(' && s[k - 1] == ')' && Skip(s, i + 1) == i + 1
    requires ParseLine(s, i + 1) == Ok(c, k - 1) && Reads(s, k, Op(mode)) && Reads(s, k + |Op(mode)|, file)
    requires GoodWord(file) && Closed(s, k + |Op(mode)| + |file|)
    ensures ParseLine(s, i) == Ok(cmd, k + |Op(mode)| + |file|)
    ensures cmd.Redir? && cmd.cmd == c && cmd.mode == mode && Word(s, cmd.file) == file
  {
    hide *;
    var tok := OneRedir(s, k, mode, file);
    Block(s, i, k - 1, c);
    cmd := WrappedOnce(c, tok, mode);
    LineEnds(s, i, cmd, k + |Op(mode)| + |file|);
  }

  lemma RedirText(s: string, c: Cmd, tok: Tok, mode: Mode)
    ensures Text(s, Redir(c, tok, mode)) == TRedir(Text(s, c), Word(s, tok), mode)
  {
  }

  lemma WrappedOnce(c: Cmd, tok: Tok, mode: Mode) returns (cmd: Cmd)
    ensures cmd == Redir(c, tok, mode) == Wrapped(c, [Wrap(tok, mode)])
  {
    cmd := Redir(c, tok, mode);
    assert [Wrap(tok, mode)][..0] == [];
  }

  /** The redirection operator's token. */
  lemma OpToken(s: string, k: nat, mode: Mode)
    requires Reads(s, k, Op(mode)) && k + |Op(mode)| < |s| && IsWord(s[k + |Op(mode)|])
    ensures Skip(s, k) == k && Peek(s, k, "<>") && Gettoken(s, k).pos == k + |Op(mode)|
    ensures ModeOf(Gettoken(s, k).kind) == mode
  {
    var j := k + |Op(mode)|;
    forall x | k <= x < j ensures s[x] == Op(mode)[x - k] { assert s[x] == s[k..j][x - k]; }
    SkipStays(s, j);
  }

  lemma OneRedir(s: string, k: nat, mode: Mode, file: string) returns (tok: Tok)
    requires Reads(s, k, Op(mode)) && Reads(s, k + |Op(mode)|, file) && GoodWord(file)
    requires Closed(s, k + |Op(mode)| + |file|)
    ensures Skip(s, k) == k && Redirs(s, k, []) == Ok([Wrap(tok, mode)], k + |Op(mode)| + |file|)
    ensures Word(s, tok) == file
  {
    hide Skip, WordEnd, Gettoken, Peek, Op, Reads, IsWord, IsSymbol, IsSpace;
    var j := k + |Op(mode)|;
    var e := j + |file|;
    DelimiterAt(s, e);
    WordToken(s, j, file);
    OpToken(s, k, mode);
    ClosedPeek(s, e);
    tok := Tok(j, e);
    assert Redirs(s, e, [Wrap(tok, mode)]) == Ok([Wrap(tok, mode)], e);
    assert [] + [Wrap(tok, mode)] == [Wrap(tok, mode)];
  }

  lemma DelimiterAt(s: string, e: nat)
    requires Closed(s, e)
    ensures e < |s| ==> !IsWord(s[e]) && s[e] != '\0'
  {
  }

  /** Every command tree survives printing and parsing. */
  lemma PrintThenParse(t: Tree) returns (cmd: Cmd)
    requires Good(t)
    ensures ParseCmd(Show(t)) == Ok(cmd, |Show(t)|) && Text(Show(t), cmd) == t
  {
    hide ParseLine;
    cmd := Round(Show(t), 0, t);
    SkipStays(Show(t), |Show(t)|);
  }

  /** Every simple command, its words and redirections in any order, parses to its
      words wrapped in its redirections, the first innermost. */
  lemma SimpleCommand(ps: seq<Part>) returns (ts: seq<Tok>, us: seq<Wrap>)
    requires GoodParts(ps) && |Args(ps)| < MAXARGS
    ensures var s := ShowParts(ps);
            ParseCmd(s) == Ok(Wrapped(Exec(ts), us), |s|) && Words(s, ts) == Args(ps) &&
            Files(s, us) == Redirections(ps)
  {
    hide ParseLine, Words, Files, Wrapped;
    var s := ShowParts(ps);
    ts, us := PartsLine(s, 0, ps);
    SkipStays(s, |s|);
  }
}
