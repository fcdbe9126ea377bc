/** The shell's grammar over tokens, and the characters tokens are made of: a line parses
    to what its tokens say, however they are laid out. */
module ShTokens {
  import opened Sh
  import opened ShRound
  import opened ShLine
  import opened ShParser

  datatype Token = Name(w: string) | Mark(c: char) | Shift     // a word, a symbol, >>

  // ---- writing tokens down

  predicate Blank(c: char) {
    c == ' ' || c == '\t' || c == '\r' || c == '\n' || c == '\U{0B}'
  }

  predicate IsMark(c: char) {
    c == '<' || c == '>' || c == '|' || c == '&' || c == ';' || c == '(' || c == ')'
  }

  predicate Letter(c: char) {
    !Blank(c) && !IsMark(c) && c != '\0'
  }

  function Spell(t: Token): string {
    match t
    case Name(w) => w
    case Mark(c) => [c]
    case Shift => ">>"
  }

  ghost predicate GoodToken(t: Token) {
    match t
    case Name(w) => w != "" && forall i :: 0 <= i < |w| ==> Letter(w[i])
    case Mark(c) => IsMark(c)
    case Shift => true
  }

  ghost predicate GoodTokens(ts: seq<Token>) {
    forall i :: 0 <= i < |ts| ==> GoodToken(ts[i])
  }

  ghost predicate GoodGap(gap: string) {
    forall i :: 0 <= i < |gap| ==> Blank(gap[i])
  }

  /** Without a gap the two would read as something else. */
  predicate NeedsGap(t: Token, u: Token) {
    (t.Name? && u.Name?) || (t == Mark('>') && (u == Mark('>') || u == Shift))
  }

  /** The tokens with a gap before each and one at the end. */
  function Layout(gaps: seq<string>, ts: seq<Token>): string
    requires |gaps| == |ts| + 1
    decreases |ts|
  {
    if ts == [] then gaps[0] else gaps[0] + (Spell(ts[0]) + Layout(gaps[1..], ts[1..]))
  }

  ghost predicate GoodLayout(gaps: seq<string>, ts: seq<Token>) {
    && |gaps| == |ts| + 1 && (forall i :: 0 <= i < |gaps| ==> GoodGap(gaps[i]))
    && forall i :: 0 < i < |ts| && NeedsGap(ts[i - 1], ts[i]) ==> gaps[i] != ""
  }

  // ---- the tokens of a line

  function TokenOf(s: string, x: Lexeme): Token {
    if x.kind == 'a' then Name(Word(s, x.tok)) else if x.kind == '+' then Shift else Mark(x.kind)
  }

  lemma TokenMoves(s: string, i: nat)
    requires i <= |s|
    ensures Gettoken(s, i).kind != '\0' ==> Gettoken(s, i).pos > i
  {
  }

  function Lex(s: string, i: nat): (ts: seq<Token>)
    requires i <= |s|
    decreases |s| - i
  {
    var x := Gettoken(s, i);
    if x.kind == '\0' then []
    else
      TokenMoves(s, i);
      [TokenOf(s, x)] + Lex(s, x.pos)
  }

  /** What is peeked at and taken is the first token. */
  lemma FirstToken(s: string, i: nat)
    requires i <= |s| && '\0' !in s
    ensures var x, ts := Gettoken(s, i), Lex(s, i);
            && (x.kind == '\0' <==> ts == []) && (ts == [] <==> Skip(s, i) == |s|)
            && (ts != [] ==> ts[0] == TokenOf(s, x) && ts[1..] == Lex(s, x.pos) && x.pos > i)
            && (x.kind == 'a' <==> ts != [] && ts[0].Name?) && (x.kind == '+' <==> ts != [] && ts[0] == Shift)
            && (ts != [] && ts[0].Mark? ==> x.kind == ts[0].c && IsSymbol(x.kind))
            && (ts != [] && ts[0].Mark? ==> At(s, Skip(s, i)) == ts[0].c)
            && (ts != [] && ts[0] == Shift ==> At(s, Skip(s, i)) == '>')
            && (ts != [] && ts[0].Name? ==> !IsSymbol(At(s, Skip(s, i))))
            && (ts == [] ==> At(s, Skip(s, i)) == '\0') && (ts != [] ==> At(s, Skip(s, i)) != '\0')
  {
    TokenMoves(s, i);
  }

  ghost predicate Starts(ts: seq<Token>, toks: string) {
    ts != [] && ((ts[0].Mark? && ts[0].c in toks) || (ts[0] == Shift && '>' in toks))
  }

  lemma PeekIs(s: string, i: nat, toks: string)
    requires i <= |s| && '\0' !in s && forall c :: c in toks ==> IsSymbol(c)
    ensures Peek(s, i, toks) <==> Starts(Lex(s, i), toks)
  {
    hide Skip, Gettoken, Lex;
    FirstToken(s, i);
  }

  lemma LexSkips(s: string, i: nat)
    requires i <= |s|
    ensures Skip(s, i) <= |s| && Lex(s, Skip(s, i)) == Lex(s, i)
  {
    hide Skip, Gettoken;
    SkipTwice(s, i);
  }

  // ---- any layout reads as its tokens

  lemma {:induction false} SkipIs(s: string, i: nat, j: nat)
    requires i <= j <= |s| && (forall k :: i <= k < j ==> Blank(s[k])) && (j < |s| ==> !Blank(s[j]))
    ensures Skip(s, i) == j
    decreases j - i
  {
    if i < j { SkipIs(s, i + 1, j); }
  }

  lemma FirstOfLayout(gaps: seq<string>, ts: seq<Token>)
    requires GoodLayout(gaps, ts) && GoodTokens(ts)
    ensures Layout(gaps, ts) == "" ==> gaps[0] == "" && ts == []
    ensures Layout(gaps, ts) != "" && gaps[0] != "" ==> Blank(Layout(gaps, ts)[0])
    ensures Layout(gaps, ts) != "" && gaps[0] == "" ==>
              ts != [] && Spell(ts[0]) != "" && Layout(gaps, ts)[0] == Spell(ts[0])[0]
  {
    assert GoodGap(gaps[0]);
    if ts != [] { assert GoodToken(ts[0]); }
  }

  lemma TokenShape(t: Token)
    requires GoodToken(t)
    ensures Spell(t) != "" && !Blank(Spell(t)[0]) && Spell(t)[0] != '\0'
    ensures t.Name? ==> Letter(Spell(t)[0])
    ensures !t.Name? ==> IsMark(Spell(t)[0]) && (Spell(t)[0] == '>' <==> t == Mark('>') || t == Shift)
  {
  }

  /** Token t is at q, and then blanks. */
  ghost predicate Found(s: string, q: nat, t: Token, e: nat) {
    q <= |s| && Gettoken(s, q).kind != '\0' && TokenOf(s, Gettoken(s, q)) == t && Gettoken(s, q).pos == Skip(s, e)
  }

  /** A word at q, up to a blank, a symbol or the end. */
  lemma NameAt(s: string, q: nat, w: string)
    requires Reads(s, q, w) && GoodToken(Name(w)) && (q + |w| < |s| ==> Blank(s[q + |w|]) || IsMark(s[q + |w|]))
    ensures Found(s, q, Name(w), q + |w|)
  {
    forall k | q <= k < q + |w| ensures s[k] == w[k - q] { assert s[k] == s[q..q + |w|][k - q]; }
    SkipIs(s, q, q);
    WordEndIs(s, q, q + |w|);
    assert Gettoken(s, q).tok == Tok(q, q + |w|);
  }

  lemma MarkAt(s: string, q: nat, c: char)
    requires q < |s| && s[q] == c && IsMark(c) && (c == '>' && q + 1 < |s| ==> s[q + 1] != '>')
    ensures Found(s, q, Mark(c), q + 1)
  {
    SkipIs(s, q, q);
  }

  lemma ShiftAt(s: string, q: nat)
    requires Reads(s, q, ">>")
    ensures Found(s, q, Shift, q + 2)
  {
    assert s[q..q + 2][0] == '>' && s[q..q + 2][1] == '>';
    SkipIs(s, q, q);
  }

  /** One token, and what may follow it. */
  lemma TokenAt(s: string, q: nat, t: Token)
    requires Reads(s, q, Spell(t)) && GoodToken(t)
    requires var e := q + |Spell(t)|;
             && (t.Name? && e < |s| ==> Blank(s[e]) || IsMark(s[e]))
             && (t == Mark('>') && e < |s| ==> s[e] != '>')
    ensures Found(s, q, t, q + |Spell(t)|)
  {
    hide Found, Reads, Blank, IsMark;
    match t
    case Name(w) => NameAt(s, q, w);
    case Mark(c) =>
      ReadsChar(s, q, c);
      MarkAt(s, q, c);
    case Shift => ShiftAt(s, q);
  }

  lemma GapSkips(s: string, i: nat, gap: string)
    requires Reads(s, i, gap) && GoodGap(gap) && (i + |gap| < |s| ==> !Blank(s[i + |gap|]))
    ensures Skip(s, i) == i + |gap|
  {
    forall k | i <= k < i + |gap| ensures Blank(s[k]) { assert s[k] == s[i..i + |gap|][k - i]; }
    SkipIs(s, i, i + |gap|);
  }

  /** What the character after the first token is. */
  lemma AfterToken(gaps: seq<string>, ts: seq<Token>)
    requires GoodLayout(gaps, ts) && GoodTokens(ts) && ts != [] && Layout(gaps[1..], ts[1..]) != ""
    ensures GoodLayout(gaps[1..], ts[1..]) && GoodTokens(ts[1..])
    ensures var c := Layout(gaps[1..], ts[1..])[0];
            (ts[0].Name? ==> Blank(c) || IsMark(c)) && (ts[0] == Mark('>') ==> c != '>')
  {
    RestIsGood(gaps, ts);
    FirstOfLayout(gaps[1..], ts[1..]);
    if gaps[1] == "" {
      assert GoodToken(ts[1..][0]) && ts[1] == ts[1..][0];
      TokenShape(ts[1]);
      assert !NeedsGap(ts[1 - 1], ts[1]);
    }
  }

  lemma RestIsGood(gaps: seq<string>, ts: seq<Token>)
    requires GoodLayout(gaps, ts) && GoodTokens(ts) && ts != []
    ensures GoodLayout(gaps[1..], ts[1..]) && GoodTokens(ts[1..])
  {
    var hs, us := gaps[1..], ts[1..];
    forall i | 0 < i < |us| && NeedsGap(us[i - 1], us[i]) ensures hs[i] != "" { assert NeedsGap(ts[i], ts[i + 1]); }
  }

  lemma LayoutParts(gaps: seq<string>, ts: seq<Token>)
    requires GoodLayout(gaps, ts) && GoodTokens(ts) && ts != []
    ensures |gaps| == |ts| + 1 && Layout(gaps, ts) == gaps[0] + (Spell(ts[0]) + Layout(gaps[1..], ts[1..]))
    ensures GoodGap(gaps[0]) && GoodToken(ts[0])
  {
    hide GoodGap, GoodToken;
  }

  /** Past the first gap and token. */
  lemma OneToken(s: string, i: nat, gaps: seq<string>, ts: seq<Token>) returns (e: nat)
    requires GoodLayout(gaps, ts) && GoodTokens(ts) && ts != []
    requires Reads(s, i, Layout(gaps, ts)) && i + |Layout(gaps, ts)| == |s|
    ensures |gaps| == |ts| + 1 && i <= |s| && e <= |s| && Found(s, i, ts[0], e)
    ensures Reads(s, e, Layout(gaps[1..], ts[1..])) && e + |Layout(gaps[1..], ts[1..])| == |s|
  {
    hide *;
    LayoutParts(gaps, ts);
    var rest := Layout(gaps[1..], ts[1..]);
    var q := i + |gaps[0]|;
    e := q + |Spell(ts[0])|;
    Split(s, i, gaps[0], Spell(ts[0]) + rest);
    Split(s, q, Spell(ts[0]), rest);
    TokenShape(ts[0]);
    FirstChar(s, q, Spell(ts[0]));
    GapSkips(s, i, gaps[0]);
    if rest != "" {
      AfterToken(gaps, ts);
      FirstChar(s, e, rest);
    }
    TokenAt(s, q, ts[0]);
    FoundPast(s, i, q, ts[0], e);
  }

  lemma FoundPast(s: string, i: nat, q: nat, t: Token, e: nat)
    requires i <= |s| && Skip(s, i) == q && Found(s, q, t, e)
    ensures Found(s, i, t, e)
  {
    hide Skip, Gettoken, TokenOf;
    SkipTwice(s, i);
  }

  lemma LexCons(s: string, i: nat, e: nat, t: Token)
    requires i <= |s| && e <= |s| && Found(s, i, t, e)
    ensures Lex(s, i) == [t] + Lex(s, e)
  {
    hide Gettoken, Skip, TokenOf;
    LexSkips(s, e);
  }

  /** A line laid out from tokens, with any blanks around them, reads as those tokens. */
  lemma {:induction false} LayoutReads(s: string, i: nat, gaps: seq<string>, ts: seq<Token>)
    requires GoodLayout(gaps, ts) && GoodTokens(ts)
    requires Reads(s, i, Layout(gaps, ts)) && i + |Layout(gaps, ts)| == |s|
    ensures Lex(s, i) == ts
    decreases |ts|
  {
    hide Found, Reads, GoodTokens, Lex, GoodLayout;
    if ts == [] {
      NothingLeft(s, i, gaps);
    } else {
      var e := OneToken(s, i, gaps, ts);
      RestIsGood(gaps, ts);
      LayoutReads(s, e, gaps[1..], ts[1..]);
      LexCons(s, i, e, ts[0]);
    }
  }

  lemma NothingLeft(s: string, i: nat, gaps: seq<string>)
    requires GoodLayout(gaps, []) && Reads(s, i, Layout(gaps, [])) && i + |Layout(gaps, [])| == |s|
    ensures Lex(s, i) == []
  {
    assert GoodGap(gaps[0]);
    GapSkips(s, i, gaps[0]);
    AtEnd(s, i);
  }

  lemma AtEnd(s: string, i: nat)
    requires i <= |s| && Skip(s, i) == |s|
    ensures Gettoken(s, i).kind == '\0'
  {
  }

  lemma WholeLayout(gaps: seq<string>, ts: seq<Token>)
    requires GoodLayout(gaps, ts) && GoodTokens(ts)
    ensures Lex(Layout(gaps, ts), 0) == ts
  {
    var s := Layout(gaps, ts);
    assert s[0..|s|] == s;
    LayoutReads(s, 0, gaps, ts);
  }

  // ---- the grammar

  datatype TResult<T> = TOk(value: T, rest: seq<Token>) | TPanic

  predicate IsRedirection(t: Token) {
    t == Mark('<') || t == Mark('>') || t == Shift
  }

  function ModeOfToken(t: Token): Mode {
    if t == Mark('<') then In else if t == Mark('>') then Out else Append
  }

  /** Redirections, each followed by a file name. */
  function TRedirs(ts: seq<Token>, fs: seq<(Mode, string)>): (r: TResult<seq<(Mode, string)>>)
    ensures r.TOk? ==> |r.rest| <= |ts|
    decreases |ts|
  {
    if ts == [] || !IsRedirection(ts[0]) then TOk(fs, ts)
    else if |ts| < 2 || !ts[1].Name? then TPanic
    else TRedirs(ts[2..], fs + [(ModeOfToken(ts[0]), ts[1].w)])
  }

  /** Words and redirections, up to a symbol that ends a simple command. */
  function TArgs(ts: seq<Token>, args: seq<string>, fs: seq<(Mode, string)>): (r: TResult<Tree>)
    ensures r.TOk? ==> |r.rest| <= |ts|
    decreases |ts|
  {
    if ts == [] || ts[0] in {Mark('|'), Mark(')'), Mark('&'), Mark(';')} then TOk(WrapTree(TExec(args), fs), ts)
    else if !ts[0].Name? || |args| + 1 >= MAXARGS then TPanic
    else
      var r := TRedirs(ts[1..], fs);
      if r.TPanic? then TPanic else TArgs(r.rest, args + [ts[0].w], r.value)
  }

  /** A parenthesised line with its redirections, or a simple command. */
  function TCommand(ts: seq<Token>): (r: TResult<Tree>)
    ensures r.TOk? ==> |r.rest| <= |ts|
    decreases |ts|, 0
  {
    if ts != [] && ts[0] == Mark('(') then
      var c := TLine(ts[1..]);
      if c.TPanic? || c.rest == [] || c.rest[0] != Mark(')') then TPanic
      else
        var r := TRedirs(c.rest[1..], []);
        if r.TPanic? then TPanic else TOk(WrapTree(c.value, r.value), r.rest)
    else
      var r := TRedirs(ts, []);
      if r.TPanic? then TPanic else TArgs(r.rest, [], r.value)
  }

  function TPipeline(ts: seq<Token>): (r: TResult<Tree>)
    ensures r.TOk? ==> |r.rest| <= |ts|
    decreases |ts|, 1
  {
    var l := TCommand(ts);
    if l.TPanic? || l.rest == [] || l.rest[0] != Mark('|') then l
    else
      var r := TPipeline(l.rest[1..]);
      if r.TPanic? then TPanic else TOk(TPipe(l.value, r.value), r.rest)
  }

  function TBacks(ts: seq<Token>, t: Tree): (r: TResult<Tree>)
    ensures r.TOk? && |r.rest| <= |ts|
    decreases |ts|
  {
    if ts != [] && ts[0] == Mark('&') then TBacks(ts[1..], TBack(t)) else TOk(t, ts)
  }

  function TLine(ts: seq<Token>): (r: TResult<Tree>)
    ensures r.TOk? ==> |r.rest| <= |ts|
    decreases |ts|, 2
  {
    var l := TPipeline(ts);
    if l.TPanic? then TPanic
    else
      var b := TBacks(l.rest, l.value);
      if b.rest == [] || b.rest[0] != Mark(';') then b
      else
        var r := TLine(b.rest[1..]);
        if r.TPanic? then TPanic else TOk(TList(b.value, r.value), r.rest)
  }

  /** The tree of a line, if it has one. */
  function TCmd(ts: seq<Token>): TResult<Tree> {
    var r := TLine(ts);
    if r.TOk? && r.rest != [] then TPanic else r
  }

  // ---- the parser follows the grammar

  ghost predicate Agrees(s: string, r: Result<Cmd>, q: TResult<Tree>) {
    if r.Panic? then q.TPanic? else r.pos <= |s| && q == TOk(Text(s, r.value), Lex(s, r.pos))
  }

  ghost predicate AgreesRedirs(s: string, r: Result<seq<Wrap>>, q: TResult<seq<(Mode, string)>>) {
    if r.Panic? then q.TPanic? else r.pos <= |s| && q == TOk(Files(s, r.value), Lex(s, r.pos))
  }

  lemma FilesSnoc(s: string, ws: seq<Wrap>, w: Wrap)
    ensures Files(s, ws + [w]) == Files(s, ws) + [(w.mode, Word(s, w.file))]
  {
  }

  lemma WordsSnoc(s: string, ts: seq<Tok>, t: Tok)
    ensures Words(s, ts + [t]) == Words(s, ts) + [Word(s, t)]
  {
  }

  lemma {:induction false} RedirsAgree(s: string, i: nat, ws: seq<Wrap>)
    requires i <= |s| && '\0' !in s
    ensures AgreesRedirs(s, Redirs(s, i, ws), TRedirs(Lex(s, i), Files(s, ws)))
    decreases |s| - i
  {
    hide Skip, Gettoken, Peek, Lex, Files, Word;
    FirstToken(s, i);
    PeekIs(s, i, "<>");
    LexSkips(s, i);
    if Peek(s, i, "<>") {
      PeekMoves(s, i, "<>");
      var op := Gettoken(s, i);
      FirstToken(s, op.pos);
      var file := Gettoken(s, op.pos);
      if file.kind == 'a' {
        var w := Wrap(file.tok, ModeOf(op.kind));
        FilesSnoc(s, ws, w);
        RedirsAgree(s, file.pos, ws + [w]);
        assert Lex(s, file.pos) == Lex(s, i)[2..];
      }
    }
  }

  lemma {:induction false} ArgsAgree(s: string, i: nat, argv: seq<Tok>, ws: seq<Wrap>)
    requires i <= |s| && '\0' !in s
    ensures Agrees(s, ExecLoop(s, i, argv, ws), TArgs(Lex(s, i), Words(s, argv), Files(s, ws)))
    decreases |s| - i
  {
    hide Skip, Gettoken, Peek, Lex, Files, Word, Words, Redirs, TRedirs, Wrapped, WrapTree;
    FirstToken(s, i);
    PeekIs(s, i, "|)&;");
    LexSkips(s, i);
    WrappedText(s, Exec(argv), ws);
    var t := Gettoken(s, i);
    if t.kind == '\0' { FirstToken(s, t.pos); EndStays(s, i); }
    if t.kind == 'a' {
      RedirsAgree(s, t.pos, ws);
      WordsSnoc(s, argv, t.tok);
      var r := Redirs(s, t.pos, ws);
      if r.Ok? { ArgsAgree(s, r.pos, argv + [t.tok], r.value); }
    }
  }

  lemma EndStays(s: string, i: nat)
    requires i <= |s| && Gettoken(s, i).kind == '\0'
    ensures Lex(s, i) == [] && Lex(s, Gettoken(s, i).pos) == []
  {
    SkipStays(s, Skip(s, i));
  }

  lemma {:induction false} CommandAgrees(s: string, i: nat)
    requires i <= |s| && '\0' !in s
    ensures Agrees(s, ParseExec(s, i), TCommand(Lex(s, i)))
    decreases |s| - i, 1
  {
    hide Skip, Gettoken, Peek, Lex, Files, Words, Redirs, TRedirs, Text, ExecLoop, TArgs, ParseBlock, TLine;
    PeekIs(s, i, "(");
    if Peek(s, i, "(") {
      BlockAgrees(s, i);
    } else {
      LexSkips(s, i);
      RedirsAgree(s, Skip(s, i), []);
      NoFiles(s);
      var r := Redirs(s, Skip(s, i), []);
      if r.Ok? { ArgsAgree(s, r.pos, [], r.value); }
    }
  }

  lemma NoFiles(s: string)
    ensures Files(s, []) == [] && Words(s, []) == []
  {
  }

  lemma {:induction false} BlockAgrees(s: string, i: nat)
    requires i <= |s| && '\0' !in s && Peek(s, i, "(")
    ensures Agrees(s, ParseBlock(s, i), TCommand(Lex(s, i)))
    decreases |s| - i, 0
  {
    hide Skip, Gettoken, Peek, Lex, Files, Words, Redirs, TRedirs, TArgs, ParseLine, TLine, Wrapped, WrapTree;
    PeekIs(s, i, "(");
    PeekMoves(s, i, "(");
    FirstToken(s, i);
    LineAgrees(s, Gettoken(s, i).pos);
    var c := ParseLine(s, Gettoken(s, i).pos);
    if c.Ok? {
      PeekIs(s, c.pos, ")");
      FirstToken(s, c.pos);
      if Peek(s, c.pos, ")") {
        var j := Gettoken(s, c.pos).pos;
        NoFiles(s);
        RedirsAgree(s, j, []);
        if Redirs(s, j, []).Ok? { WrappedText(s, c.value, Redirs(s, j, []).value); }
      }
    }
  }

  lemma {:induction false} PipelineAgrees(s: string, i: nat)
    requires i <= |s| && '\0' !in s
    ensures Agrees(s, ParsePipe(s, i), TPipeline(Lex(s, i)))
    decreases |s| - i, 2
  {
    hide Skip, Gettoken, Peek, Lex, ParseExec, TCommand;
    CommandAgrees(s, i);
    var l := ParseExec(s, i);
    if l.Ok? {
      PeekIs(s, l.pos, "|");
      FirstToken(s, l.pos);
      LexSkips(s, l.pos);
      if Peek(s, l.pos, "|") {
        PeekMoves(s, l.pos, "|");
        PipelineAgrees(s, Gettoken(s, l.pos).pos);
      }
    }
  }

  lemma {:induction false} BacksAgree(s: string, i: nat, cmd: Cmd)
    requires i <= |s| && '\0' !in s
    ensures Agrees(s, Backs(s, i, cmd), TBacks(Lex(s, i), Text(s, cmd)))
    decreases |s| - i
  {
    hide Skip, Gettoken, Peek, Lex;
    PeekIs(s, i, "&");
    FirstToken(s, i);
    LexSkips(s, i);
    if Peek(s, i, "&") {
      PeekMoves(s, i, "&");
      BacksAgree(s, Gettoken(s, i).pos, Back(cmd));
    }
  }

  lemma {:induction false} LineAgrees(s: string, i: nat)
    requires i <= |s| && '\0' !in s
    ensures Agrees(s, ParseLine(s, i), TLine(Lex(s, i)))
    decreases |s| - i, 3
  {
    hide Skip, Gettoken, Peek, Lex, ParsePipe, TPipeline, Backs, TBacks;
    PipelineAgrees(s, i);
    var l := ParsePipe(s, i);
    if l.Ok? {
      BacksAgree(s, l.pos, l.value);
      var b := Backs(s, l.pos, l.value);
      PeekIs(s, b.pos, ";");
      FirstToken(s, b.pos);
      if Peek(s, b.pos, ";") {
        PeekMoves(s, b.pos, ";");
        LineAgrees(s, Gettoken(s, b.pos).pos);
      }
    }
  }

  /** parsecmd accepts a line exactly if the grammar accepts its tokens, and then gives
      the grammar's tree. */
  lemma ParsesTokens(s: string)
    requires '\0' !in s
    ensures var r, q := ParseCmd(s), TCmd(Lex(s, 0));
            (r.Panic? <==> q.TPanic?) && (r.Ok? ==> q == TOk(Text(s, r.value), []))
  {
    hide Skip, Gettoken, ParseLine, TLine, Text, Lex;
    LineAgrees(s, 0);
    var c := ParseLine(s, 0);
    if c.Ok? { FirstToken(s, c.pos); }
  }

  // ---- spacing

  lemma {:induction false} LayoutHasNoNul(gaps: seq<string>, ts: seq<Token>)
    requires GoodLayout(gaps, ts) && GoodTokens(ts)
    ensures '\0' !in Layout(gaps, ts)
    decreases |ts|
  {
    assert GoodGap(gaps[0]);
    if ts != [] {
      assert GoodToken(ts[0]);
      RestIsGood(gaps, ts);
      LayoutHasNoNul(gaps[1..], ts[1..]);
    }
  }

  /** A line parses to what its tokens say, whatever blanks stand around them. */
  lemma LayoutParses(gaps: seq<string>, ts: seq<Token>)
    requires GoodLayout(gaps, ts) && GoodTokens(ts)
    ensures var s := Layout(gaps, ts);
            var r, q := ParseCmd(s), TCmd(ts);
            (r.Panic? <==> q.TPanic?) && (r.Ok? ==> q == TOk(Text(s, r.value), []))
  {
    hide ParseCmd, TCmd, Text, Layout, GoodGap, Lex;
    LayoutHasNoNul(gaps, ts);
    WholeLayout(gaps, ts);
    ParsesTokens(Layout(gaps, ts));
  }

  /** Two lines with the same tokens are both syntax errors or give the same tree. */
  lemma SpacesDoNotMatter(gaps: seq<string>, gaps': seq<string>, ts: seq<Token>)
    requires GoodTokens(ts) && GoodLayout(gaps, ts) && GoodLayout(gaps', ts)
    ensures var s, s' := Layout(gaps, ts), Layout(gaps', ts);
            var r, r' := ParseCmd(s), ParseCmd(s');
            (r.Panic? <==> r'.Panic?) && (r.Ok? ==> Text(s, r.value) == Text(s', r'.value))
  {
    hide ParseCmd, TCmd, Text, Layout, GoodLayout;
    LayoutParses(gaps, ts);
    LayoutParses(gaps', ts);
  }

  lemma SameCharacters(c: char)
    ensures (IsSpace(c) <==> Blank(c)) && (IsSymbol(c) <==> IsMark(c)) && (IsWord(c) <==> Letter(c))
  {
  }

  lemma {:induction false} LexIsGood(s: string, i: nat)
    requires i <= |s| && '\0' !in s
    ensures GoodTokens(Lex(s, i))
    decreases |s| - i
  {
    hide Skip;
    var x := Gettoken(s, i);
    if x.kind != '\0' {
      TokenMoves(s, i);
      TokenIsGood(s, i);
      LexIsGood(s, x.pos);
    }
  }

  lemma TokenIsGood(s: string, i: nat)
    requires i <= |s| && '\0' !in s && Gettoken(s, i).kind != '\0'
    ensures GoodToken(TokenOf(s, Gettoken(s, i)))
  {
    hide Skip;
    WordTok(s, i);
    var x := Gettoken(s, i);
    if x.kind == 'a' {
      forall k | x.tok.q <= k < x.tok.eq ensures Letter(s[k]) { SameCharacters(s[k]); }
    } else {
      SameCharacters(x.kind);
    }
  }

  lemma {:induction false} PartsHaveNoNul(ps: seq<Part>)
    requires GoodParts(ps)
    ensures '\0' !in ShowParts(ps)
  {
    if ps != [] {
      assert GoodPart(ps[0]);
      PartsHaveNoNul(ps[1..]);
    }
  }

  lemma {:induction false} TreeHasNoNul(t: Tree)
    requires Good(t)
    ensures '\0' !in Show(t)
  {
    match t
    case TExec(args) =>
      forall k | 0 <= k < |args| ensures GoodPart(AsParts(args)[k]) { assert GoodWord(args[k]); }
      PartsHaveNoNul(AsParts(args));
    case TRedir(u, file, _) => TreeHasNoNul(u);
    case TPipe(l, r) =>
      TreeHasNoNul(l);
      TreeHasNoNul(r);
    case TList(l, r) =>
      TreeHasNoNul(l);
      TreeHasNoNul(r);
    case TBack(u) => TreeHasNoNul(u);
  }

  /** Every command tree, printed and spaced out in any way, parses back to itself. */
  lemma SpacedTree(t: Tree, gaps: seq<string>) returns (cmd: Cmd)
    requires Good(t) && GoodLayout(gaps, Lex(Show(t), 0))
    ensures var s := Layout(gaps, Lex(Show(t), 0)); ParseCmd(s) == Ok(cmd, |s|) && Text(s, cmd) == t
  {
    hide ParseLine, TCmd, Text, Layout, Lex, GoodLayout, Show;
    cmd := PrintThenParse(t);
    TreeHasNoNul(t);
    cmd := Respaced(Show(t), cmd, gaps);
  }

  lemma Respaced(s: string, cmd: Cmd, gaps: seq<string>) returns (cmd': Cmd)
    requires '\0' !in s && ParseCmd(s) == Ok(cmd, |s|) && GoodLayout(gaps, Lex(s, 0))
    ensures var s' := Layout(gaps, Lex(s, 0)); ParseCmd(s') == Ok(cmd', |s'|) && Text(s', cmd') == Text(s, cmd)
  {
    hide ParseLine, TCmd, Text, Layout, Lex, GoodGap;
    ParsesTokens(s);
    LexIsGood(s, 0);
    LayoutParses(gaps, Lex(s, 0));
    cmd' := ParseCmd(Layout(gaps, Lex(s, 0))).value;
  }

  lemma {:induction false} PipelineHasNoNul(pl: Pipeline)
    requires GoodPipeline(pl)
    ensures '\0' !in ShowPipeline(pl)
    decreases |pl|
  {
    assert GoodCommand(pl[0]);
    PartsHaveNoNul(pl[0]);
    if |pl| > 1 { PipelineHasNoNul(pl[1..]); }
  }

  lemma {:induction false} AmpersandsHaveNoNul(n: nat)
    ensures '\0' !in Ampersands(n)
  {
    if n > 0 { AmpersandsHaveNoNul(n - 1); }
  }

  lemma {:induction false} LineHasNoNul(js: seq<Job>)
    requires GoodLine(js)
    ensures '\0' !in ShowLine(js)
    decreases |js|
  {
    assert GoodPipeline(js[0].pipeline);
    PipelineHasNoNul(js[0].pipeline);
    AmpersandsHaveNoNul(js[0].backs);
    if |js| > 1 { LineHasNoNul(js[1..]); }
  }

  /** So does every line of jobs, to the tree its precedences and groupings give. */
  lemma SpacedLine(js: seq<Job>, gaps: seq<string>) returns (cmd: Cmd)
    requires GoodLine(js) && GoodLayout(gaps, Lex(ShowLine(js), 0))
    ensures var s := Layout(gaps, Lex(ShowLine(js), 0)); ParseCmd(s) == Ok(cmd, |s|) && Text(s, cmd) == LineTree(js)
  {
    hide ParseLine, TCmd, Text, Layout, Lex, GoodLayout, ShowLine, LineTree;
    cmd := WholeLine(js);
    LineHasNoNul(js);
    cmd := Respaced(ShowLine(js), cmd, gaps);
  }

  /** What is typed: a word and the newline that ends the line. */
  lemma TypedWord(w: string)
    requires GoodToken(Name(w))
    ensures Lex(w + "\n", 0) == [Name(w)]
  {
    var ts: seq<Token> := [Name(w)];
    assert GoodTokens(ts) && GoodLayout(["", "\n"], ts);
    WholeLayout(["", "\n"], ts);
    assert Layout(["", "\n"], ts) == "" + (w + Layout(["", "\n"][1..], ts[1..])) == w + "\n";
  }
}
