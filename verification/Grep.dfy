/** grep: the regular expression matcher, and the loop that splits its input into
    lines through a fixed buffer. */
module Grep {

  // ---- what a pattern means

  /** One character, or any number of them; '.' stands for every character. */
  datatype Item = One(c: char) | Star(c: char)

  /** A pattern without its leading '^': items, and whether it must end at the end. */
  datatype Pattern = Pattern(items: seq<Item>, anchored: bool)

  function Parse(re: string): Pattern {
    if re == "" then Pattern([], false)
    else if |re| > 1 && re[1] == '*' then
      var rest := Parse(re[2..]);
      Pattern([Star(re[0])] + rest.items, rest.anchored)
    else if re == "$" then Pattern([], true)
    else
      var rest := Parse(re[1..]);
      Pattern([One(re[0])] + rest.items, rest.anchored)
  }

  predicate Fits(c: char, ch: char) { c == '.' || c == ch }

  ghost predicate Repeats(c: char, w: string) {
    forall i :: 0 <= i < |w| ==> Fits(c, w[i])
  }

  /** w is in the language of the items. */
  ghost predicate InLanguage(items: seq<Item>, w: string) {
    if items == [] then w == ""
    else
      match items[0]
      case One(c) => w != "" && Fits(c, w[0]) && InLanguage(items[1..], w[1..])
      case Star(c) => exists k :: 0 <= k <= |w| && Repeats(c, w[..k]) && InLanguage(items[1..], w[k..])
  }

  /** The first n characters of text are in the language, and end where they must. */
  ghost predicate Prefix(p: Pattern, text: string, n: int) {
    0 <= n <= |text| && InLanguage(p.items, text[..n]) && (p.anchored ==> n == |text|)
  }

  ghost predicate Here(re: string, text: string) {
    exists n :: Prefix(Parse(re), text, n)
  }

  /** Some substring of text is in the language: a prefix under '^', a suffix under a
      final '$'. */
  ghost predicate Matches(re: string, text: string) {
    if re != "" && re[0] == '^' then Here(re[1..], text)
    else exists i :: 0 <= i <= |text| && Here(re, text[i..])
  }

  // ---- how Here unfolds

  lemma HereStar(re: string, text: string)
    requires |re| > 1 && re[1] == '*'
    ensures Here(re, text) <==> exists k :: 0 <= k <= |text| && Repeats(re[0], text[..k]) && Here(re[2..], text[k..])
  {
    var p, q := Parse(re), Parse(re[2..]);
    assert p.items[0] == Star(re[0]) && p.items[1..] == q.items;
    if Here(re, text) {
      var n :| Prefix(p, text, n);
      var w := text[..n];
      var k :| 0 <= k <= |w| && Repeats(re[0], w[..k]) && InLanguage(q.items, w[k..]);
      assert w[..k] == text[..k] && w[k..] == text[k..][..n - k];
      assert Prefix(q, text[k..], n - k);
    }
    if k :| 0 <= k <= |text| && Repeats(re[0], text[..k]) && Here(re[2..], text[k..]) {
      var n :| Prefix(q, text[k..], n);
      var w := text[..k + n];
      assert w[..k] == text[..k] && w[k..] == text[k..][..n];
      assert Prefix(p, text, k + n);
    }
  }

  lemma HereOne(re: string, text: string)
    requires re != "" && !(|re| > 1 && re[1] == '*') && re != "$"
    ensures Here(re, text) <==> text != "" && Fits(re[0], text[0]) && Here(re[1..], text[1..])
  {
    var p, q := Parse(re), Parse(re[1..]);
    assert p.items[0] == One(re[0]) && p.items[1..] == q.items;
    if Here(re, text) {
      var n :| Prefix(p, text, n);
      assert text[..n][1..] == text[1..][..n - 1];
      assert Prefix(q, text[1..], n - 1);
    }
    if text != "" && Fits(re[0], text[0]) && Here(re[1..], text[1..]) {
      var n :| Prefix(q, text[1..], n);
      assert text[..n + 1][1..] == text[1..][..n];
      assert Prefix(p, text, n + 1);
    }
  }

  lemma HereEnd(text: string)
    ensures Here("", text) && (Here("$", text) <==> text == "")
  {
    assert Prefix(Parse(""), text, 0);
    assert Parse("$") == Pattern([], true);
    if text == "" { assert Prefix(Parse("$"), text, 0); }
  }

  // ---- the matcher

  method Match(re: string, text: string) returns (yes: bool)
    ensures yes <==> Matches(re, text)
  {
    if re != "" && re[0] == '^' {
      yes := MatchHere(re[1..], text);
      return;
    }
    var i := 0;
    while true
      invariant 0 <= i <= |text| && forall j :: 0 <= j < i ==> !Here(re, text[j..])
      decreases |text| - i
    {
      yes := MatchHere(re, text[i..]);
      if yes || i == |text| {
        return;
      }
      i := i + 1;
    }
  }

  /** Search for re at the beginning of text. */
  method MatchHere(re: string, text: string) returns (yes: bool)
    ensures yes <==> Here(re, text)
    decreases |re|, 0
  {
    HereEnd(text);
    if re == "" {
      return true;
    }
    if |re| > 1 && re[1] == '*' {
      HereStar(re, text);
      yes := MatchStar(re[0], re[2..], text);
      return;
    }
    if re[0] == '$' && |re| == 1 {
      assert re == "$";
      return text == "";
    }
    HereOne(re, text);
    if text != "" && (re[0] == '.' || re[0] == text[0]) {
      yes := MatchHere(re[1..], text[1..]);
      return;
    }
    return false;
  }

  /** Search for c*re at the beginning of text. */
  method MatchStar(c: char, re: string, text: string) returns (yes: bool)
    ensures yes <==> exists k :: 0 <= k <= |text| && Repeats(c, text[..k]) && Here(re, text[k..])
    decreases |re|, 1
  {
    var k := 0;
    while true
      invariant 0 <= k <= |text| && Repeats(c, text[..k])
      invariant forall j :: 0 <= j < k ==> !Here(re, text[j..])
      decreases |text| - k
    {
      yes := MatchHere(re, text[k..]);
      if yes {
        return;
      }
      if k == |text| || !(text[k] == c || c == '.') {
        forall j | k < j <= |text| ensures !Repeats(c, text[..j]) { assert text[..j][k] == text[k]; }
        return;
      }
      k := k + 1;
    }
  }

  // ---- lines

  const BUFSIZE := 1024

  /** Where the first newline is, or -1. */
  function Newline(s: string): (q: int)
    ensures -1 <= q < |s| && (q >= 0 ==> s[q] == '\n' && '\n' !in s[..q]) && (q < 0 ==> '\n' !in s)
  {
    if s == "" then -1
    else if s[0] == '\n' then 0
    else
      var q := Newline(s[1..]);
      assert s == [s[0]] + s[1..];
      if q < 0 then -1 else assert s[..q + 1] == [s[0]] + s[1..][..q]; q + 1
  }

  /** A line that grep cannot get past: it holds a NUL, or does not fit the buffer
      with its newline. */
  predicate Stuck(line: string) {
    '\0' in line || |line| + 1 > BUFSIZE - 1
  }

  /** What grep prints: the matching lines, up to the first it cannot get past. */
  ghost function Output(re: string, s: string): string {
    var q := Newline(s);
    if q < 0 || Stuck(s[..q]) then ""
    else (if Matches(re, s[..q]) then s[..q + 1] else "") + Output(re, s[q + 1..])
  }

  /** All the matching lines, the last one also if it has no newline. */
  ghost function MatchingLines(re: string, s: string): string {
    var q := Newline(s);
    if q < 0 then (if Matches(re, s) then s else "")
    else (if Matches(re, s[..q]) then s[..q + 1] else "") + MatchingLines(re, s[q + 1..])
  }

  /** No line matches. */
  ghost predicate NoneMatch(re: string, s: string) {
    var q := Newline(s);
    if q < 0 then s == "" || !Matches(re, s) else !Matches(re, s[..q]) && NoneMatch(re, s[q + 1..])
  }

  /** From the first line that grep cannot get past on, or from a last line without
      newline, none matches. */
  ghost predicate NothingMissed(re: string, s: string) {
    var q := Newline(s);
    if q < 0 || Stuck(s[..q]) then NoneMatch(re, s) else NothingMissed(re, s[q + 1..])
  }

  lemma {:induction false} NoneMatchMeans(re: string, s: string)
    ensures NoneMatch(re, s) <==> MatchingLines(re, s) == ""
  {
    hide Newline, Matches;
    var q := Newline(s);
    if q >= 0 {
      NoneMatchMeans(re, s[q + 1..]);
      assert |s[..q + 1]| > 0;
    }
  }

  lemma SamePrefix(a: string, b: string, c: string)
    ensures a + b == a + c <==> b == c
  {
    assert (a + b)[|a|..] == b && (a + c)[|a|..] == c;
  }

  /** grep prints every matching line if and only if no line matches from the first
      one on that holds a NUL, is too long or lacks its newline. */
  lemma {:induction false} PrintsAllMatches(re: string, s: string)
    ensures Output(re, s) == MatchingLines(re, s) <==> NothingMissed(re, s)
  {
    hide Matches, Newline, NoneMatch, Stuck;
    var q := Newline(s);
    if q < 0 || Stuck(s[..q]) {
      NoneMatchMeans(re, s);
    } else {
      PrintsAllMatches(re, s[q + 1..]);
      var line := if Matches(re, s[..q]) then s[..q + 1] else "";
      SamePrefix(line, Output(re, s[q + 1..]), MatchingLines(re, s[q + 1..]));
    }
  }

  lemma MatchesA()
    ensures Matches("a", "a")
  {
    HereOne("a", "a");
    HereEnd("");
    assert "a"[0..] == "a" && "a"[1..] == "";
  }

  /** A line with a NUL hides the line after it. */
  lemma MissesALine()
    ensures var s := "\0\na\n"; Matches("a", "a") && Output("a", s) == "" && Output("a", s) != MatchingLines("a", s)
  {
    hide Matches, Newline;
    var s := "\0\na\n";
    MatchesA();
    NewlineIs(s, 1);
    NewlineIs(s[2..], 1);
    assert s[2..][..1] == "a";
    assert s[..1][0] == '\0';
    assert !NoneMatch("a", s[2..]);
    NoneMatchMeans("a", s);
  }

  /** A last line without newline is not printed. */
  lemma MissesTheLastLine()
    ensures Matches("a", "a") && Output("a", "a") == "" && MatchingLines("a", "a") == "a"
  {
    hide Matches;
    MatchesA();
    assert "a"[1..] == "";
  }

  lemma {:induction false} NewlineIs(s: string, k: nat)
    requires k < |s| && s[k] == '\n' && forall i :: 0 <= i < k ==> s[i] != '\n'
    ensures Newline(s) == k
  {
    if k > 0 { NewlineIs(s[1..], k - 1); }
  }

  lemma OutputLine(re: string, line: string, tail: string)
    requires '\n' !in line && !Stuck(line)
    ensures Output(re, line + "\n" + tail) == (if Matches(re, line) then line + "\n" else "") + Output(re, tail)
  {
    hide Matches, Newline;
    var s := line + "\n" + tail;
    NewlineIs(s, |line|);
    assert s[..|line|] == line && s[..|line| + 1] == line + "\n" && s[|line| + 1..] == tail;
  }

  /** No newline comes before a NUL. */
  ghost predicate NoLine(s: string) {
    forall q :: 0 <= q < |s| && s[q] == '\n' ==> '\0' in s[..q]
  }

  /** What is left when reading stops prints nothing. */
  lemma OutputNothing(re: string, pending: string, rest: string)
    requires NoLine(pending) && (rest == "" || |pending| == BUFSIZE - 1)
    ensures Output(re, pending + rest) == ""
  {
    var s := pending + rest;
    var q := Newline(s);
    if 0 <= q < |pending| {
      assert s[q] == pending[q] && s[..q] == pending[..q];
    }
  }

  // ---- grep's loop

  /** The NUL-terminated text b[p..m] has its first line end at q, or, if q is -1, no
      newline before a NUL. */
  ghost predicate Cut(b: string, p: nat, q: int, m: nat) {
    && p <= m < |b| && b[m] == '\0'
    && if q == -1 then NoLine(b[p..m]) else p <= q < m && b[q] == '\n' && '\n' !in b[p..q] && '\0' !in b[p..q]
  }

  lemma OutputFirst(re: string, b: string, p: nat, q: nat, m: nat, rest: string)
    requires Cut(b, p, q, m) && m < BUFSIZE
    ensures Output(re, b[p..m] + rest)
            == (if Matches(re, b[p..q]) then b[p..q] + "\n" else "") + Output(re, b[q + 1..m] + rest)
  {
    hide Output, Matches;
    assert b[p..m] + rest == b[p..q] + "\n" + (b[q + 1..m] + rest);
    OutputLine(re, b[p..q], b[q + 1..m] + rest);
  }

  /** strchr(buf + p, '\n'): the next newline, unless a NUL comes first. */
  method NextNewline(buf: array<char>, p: nat, ghost m: nat) returns (q: int)
    requires p <= m < buf.Length && buf[m] == '\0'
    ensures Cut(buf[..], p, q, m)
  {
    q := p;
    while buf[q] != '\0'
      invariant p <= q <= m && forall j :: p <= j < q ==> buf[j] != '\n' && buf[j] != '\0'
      decreases m - q
    {
      if buf[q] == '\n' {
        return;
      }
      q := q + 1;
    }
    ghost var s, k := buf[..][p..m], q - p;
    forall x | 0 <= x < |s| && s[x] == '\n' ensures '\0' in s[..x] {
      assert s[x] == buf[p + x];
      if k < x { assert s[..x][k] == '\0'; }
    }
    q := -1;
  }

  /** read(fd, buf + m, room): some of what is left, as much as wanted says, at least
      one byte, and no more than there is room for. */
  function ReadSize(left: nat, room: nat, wanted: nat): (n: nat)
    ensures n <= left && n <= room && (n == 0 <==> left == 0 || room == 0)
  {
    var most := if left < room then left else room;
    if most == 0 then 0 else if wanted == 0 then 1 else if wanted < most then wanted else most
  }

  method Store(buf: array<char>, m: nat, data: string)
    requires m + |data| <= buf.Length
    modifies buf
    ensures buf[..m] == old(buf[..m]) && buf[m..m + |data|] == data
  {
    for i := 0 to |data|
      invariant buf[..m] == old(buf[..m]) && buf[m..m + i] == data[..i]
    {
      buf[m + i] := data[i];
      assert buf[m..m + i + 1] == buf[m..m + i] + [data[i]];
    }
  }

  /** memmove(buf, buf + p, n) */
  method MoveDown(buf: array<char>, p: nat, n: nat)
    requires p + n <= buf.Length
    modifies buf
    ensures buf[..n] == old(buf[p..p + n])
  {
    for i := 0 to n
      invariant buf[..i] == old(buf[p..p + i]) && (forall k :: i <= k < buf.Length ==> buf[k] == old(buf[k]))
    {
      buf[i] := buf[p + i];
      assert buf[..i + 1] == buf[..i] + [old(buf[p + i])];
      assert old(buf[p..p + i + 1]) == old(buf[p..p + i]) + [old(buf[p + i])];
    }
  }

  /** The line at p, which ends at q: its text if it matches. */
  method PrintLine(re: string, buf: array<char>, p: nat, q: nat) returns (out: string)
    requires p <= q < buf.Length && buf[q] == '\n'
    modifies buf
    ensures buf[q + 1..] == old(buf[q + 1..])
    ensures out == if Matches(re, old(buf[..])[p..q]) then old(buf[..])[p..q] + "\n" else ""
  {
    hide Matches;
    ghost var line := buf[..][p..q];
    buf[q] := '\0';
    assert buf[p..q] == line;
    var yes := Match(re, buf[p..q]);
    if !yes {
      return "";
    }
    buf[q] := '\n';
    assert buf[p..q + 1] == line + "\n";
    return buf[p..q + 1];
  }

  /** One pass over the buffered lines: prints the matching ones, and says where the
      first incomplete line starts. */
  method PrintLines(re: string, buf: array<char>, m: nat, ghost rest: string) returns (out: string, p: nat)
    requires m < buf.Length == BUFSIZE && buf[m] == '\0'
    modifies buf
    ensures p <= m && NoLine(buf[p..m])
    ensures Output(re, old(buf[..m]) + rest) == out + Output(re, buf[p..m] + rest)
  {
    hide *;
    out, p := "", 0;
    ghost var whole := Output(re, buf[..m] + rest);
    assert buf[..][0..m] == buf[..m];
    var q := NextNewline(buf, p, m);
    CutMeans(buf[..], p, q, m);
    while q != -1
      invariant p <= m && (q == -1 || p <= q < m) && Cut(buf[..], p, q, m)
      invariant whole == out + Output(re, buf[..][p..m] + rest)
      decreases m - p, q
    {
      CutMeans(buf[..], p, q, m);
      ghost var before := buf[..];
      var printed := PrintLine(re, buf, p, q);
      Printed(re, before, buf[..], p, q, m, rest, out, printed);
      out, p := out + printed, q + 1;
      q := NextNewline(buf, p, m);
      CutMeans(buf[..], p, q, m);
    }
    CutMeans(buf[..], p, q, m);
    assert buf[..][p..m] == buf[p..m];
  }

  lemma CutMeans(b: string, p: nat, q: int, m: nat)
    requires Cut(b, p, q, m)
    ensures p <= m < |b| && b[m] == '\0'
    ensures if q == -1 then NoLine(b[p..m]) else p <= q < m && b[q] == '\n'
  {
  }

  /** One line more has been dealt with, and what comes after it is as it was. */
  lemma Printed(re: string, b: string, b': string, p: nat, q: nat, m: nat, rest: string, out: string, printed: string)
    requires Cut(b, p, q, m) && m < BUFSIZE && |b'| == |b| && b'[q + 1..] == b[q + 1..]
    requires printed == if Matches(re, b[p..q]) then b[p..q] + "\n" else ""
    ensures q + 1 <= m && b'[m] == '\0'
    ensures out + Output(re, b[p..m] + rest) == out + printed + Output(re, b'[q + 1..m] + rest)
  {
    hide Output, Matches, NoLine;
    OutputFirst(re, b, p, q, m, rest);
    assert b'[q + 1..m] == b'[q + 1..][..m - q - 1] == b[q + 1..m];
    assert b'[m] == b'[q + 1..][m - q - 1];
  }

  /** However read() cuts the input up, the output is the same: the matching lines up
      to the first grep cannot get past. */
  method Run(re: string, input: string, wanted: seq<nat>) returns (out: string)
    ensures out == Output(re, input)
  {
    hide Output, NoLine, ReadSize, Newline, Matches;
    var buf := new char[BUFSIZE](_ => '\0');
    var m: nat, turn, rest := 0, 0, input;
    out := "";
    assert buf[..0] + rest == input;
    NoLineEmpty(buf[..0]);
    while true
      invariant m < BUFSIZE && NoLine(buf[..m]) && Output(re, input) == out + Output(re, buf[..m] + rest)
      decreases |rest|
    {
      var n := ReadSize(|rest|, BUFSIZE - m - 1, if turn < |wanted| then wanted[turn] else 1);
      if n == 0 {
        OutputNothing(re, buf[..m], rest);
        return;
      }
      ghost var pending, left := buf[..m], rest;
      Store(buf, m, rest[..n]);
      rest := rest[n..];
      turn := turn + 1;
      m := m + n;
      assert buf[..m] == pending + left[..n];
      buf[m] := '\0';
      Refilled(pending, left, n);
      var printed, p := PrintLines(re, buf, m, rest);
      ghost var later := Output(re, buf[p..m] + rest);
      assert out + (printed + later) == out + printed + later;
      out := out + printed;
      m := m - p;
      MoveDown(buf, p, m);
    }
  }

  lemma Refilled(pending: string, left: string, n: nat)
    requires n <= |left|
    ensures pending + left[..n] + left[n..] == pending + left
  {
    assert left[..n] + left[n..] == left;
  }

  lemma NoLineEmpty(s: string)
    requires s == ""
    ensures NoLine(s)
  {
  }
}
