/** Lines without parentheses: what binds tighter, and which way things group. */
module ShLine {
  import opened Sh
  import opened ShRound

  /** Simple commands joined by '|'. */
  type Pipeline = seq<seq<Part>>

  /** A pipeline and the number of '&'s after it. */
  datatype Job = Job(pipeline: Pipeline, backs: nat)

  function ShowPipeline(pl: Pipeline): string
    requires pl != []
  {
    if |pl| == 1 then ShowParts(pl[0]) else ShowParts(pl[0]) + "|" + ShowPipeline(pl[1..])
  }

  function Ampersands(n: nat): string {
    if n == 0 then "" else "&" + Ampersands(n - 1)
  }

  function ShowJob(job: Job): string
    requires job.pipeline != []
  {
    ShowPipeline(job.pipeline) + Ampersands(job.backs)
  }

  /** Jobs joined by ';'. */
  function ShowLine(js: seq<Job>): string
    requires js != [] && forall i :: 0 <= i < |js| ==> js[i].pipeline != []
  {
    if |js| == 1 then ShowJob(js[0]) else ShowJob(js[0]) + ";" + ShowLine(js[1..])
  }

  // ---- the trees they stand for

  function WrapTree(t: Tree, rs: seq<(Mode, string)>): Tree {
    if rs == [] then t else TRedir(WrapTree(t, rs[..|rs| - 1]), rs[|rs| - 1].1, rs[|rs| - 1].0)
  }

  function PartsTree(ps: seq<Part>): Tree {
    WrapTree(TExec(Args(ps)), Redirections(ps))
  }

  function PipelineTree(pl: Pipeline): Tree
    requires pl != []
  {
    if |pl| == 1 then PartsTree(pl[0]) else TPipe(PartsTree(pl[0]), PipelineTree(pl[1..]))
  }

  function BackTree(t: Tree, n: nat): Tree
    decreases n
  {
    if n == 0 then t else BackTree(TBack(t), n - 1)
  }

  function JobTree(job: Job): Tree
    requires job.pipeline != []
  {
    BackTree(PipelineTree(job.pipeline), job.backs)
  }

  function LineTree(js: seq<Job>): Tree
    requires js != [] && forall i :: 0 <= i < |js| ==> js[i].pipeline != []
  {
    if |js| == 1 then JobTree(js[0]) else TList(JobTree(js[0]), LineTree(js[1..]))
  }

  ghost predicate GoodCommand(ps: seq<Part>) {
    GoodParts(ps) && |Args(ps)| < MAXARGS
  }

  ghost predicate GoodPipeline(pl: Pipeline) {
    pl != [] && forall i :: 0 <= i < |pl| ==> GoodCommand(pl[i])
  }

  ghost predicate GoodLine(js: seq<Job>) {
    js != [] && forall i :: 0 <= i < |js| ==> GoodPipeline(js[i].pipeline)
  }

  // ---- parsing them

  lemma {:induction false} WrappedText(s: string, cmd: Cmd, ws: seq<Wrap>)
    ensures Text(s, Wrapped(cmd, ws)) == WrapTree(Text(s, cmd), Files(s, ws))
  {
    hide Word;
    if ws != [] {
      var n := |ws| - 1;
      WrappedText(s, cmd, ws[..n]);
      assert Files(s, ws)[..n] == Files(s, ws[..n]);
    }
  }

  lemma CommandExec(s: string, i: nat, ps: seq<Part>) returns (cmd: Cmd)
    requires Reads(s, i, ShowParts(ps)) && Stops(s, i + |ShowParts(ps)|) && GoodCommand(ps)
    ensures ParseExec(s, i) == Ok(cmd, i + |ShowParts(ps)|) && Text(s, cmd) == PartsTree(ps)
  {
    hide ParseExec, Words, Files, Wrapped, Reads, WrapTree, ShowParts;
    var ts, us := PartsExec(s, i, ps);
    cmd := Wrapped(Exec(ts), us);
    WrappedText(s, Exec(ts), us);
  }

  /** What ends a pipeline. */
  ghost predicate Ends(s: string, i: nat) {
    i == |s| || (i < |s| && s[i] in ")&;")
  }

  lemma EndsPeek(s: string, i: nat)
    requires Ends(s, i)
    ensures Stops(s, i) && Skip(s, i) == i && !Peek(s, i, "|")
  {
  }

  lemma PipeStops(s: string, i: nat, l: Cmd, k: nat)
    requires i <= |s| && ParseExec(s, i) == Ok(l, k) && Ends(s, k)
    ensures ParsePipe(s, i) == Ok(l, k)
  {
    hide Skip, Gettoken, Peek, ParseExec;
    EndsPeek(s, k);
  }

  lemma PipeGoesOn(s: string, i: nat, l: Cmd, k: nat, r: Cmd, e: nat)
    requires i <= |s| && ParseExec(s, i) == Ok(l, k) && k < |s| && s[k] == '|' && Skip(s, k + 1) == k + 1
    requires ParsePipe(s, k + 1) == Ok(r, e)
    ensures ParsePipe(s, i) == Ok(Pipe(l, r), e)
  {
    hide Skip, Gettoken, Peek, ParseExec;
    SymbolToken(s, k, '|');
  }

  /** The first command of a pipeline ends at '|' or where the pipeline does. */
  lemma FirstCommand(s: string, i: nat, pl: Pipeline) returns (k: nat)
    requires GoodPipeline(pl) && Reads(s, i, ShowPipeline(pl)) && Ends(s, i + |ShowPipeline(pl)|)
    ensures k == i + |ShowParts(pl[0])| && Reads(s, i, ShowParts(pl[0])) && Stops(s, k) && Skip(s, i) == i
    ensures if |pl| == 1 then k == i + |ShowPipeline(pl)|
            else
              && k < |s| && s[k] == '|' && Reads(s, k + 1, ShowPipeline(pl[1..]))
              && k + 1 + |ShowPipeline(pl[1..])| == i + |ShowPipeline(pl)|
  {
    hide Reads, ShowParts, Skip, GoodParts;
    k := i + |ShowParts(pl[0])|;
    if |pl| == 1 {
      EndsPeek(s, k);
    } else {
      Split(s, i, ShowParts(pl[0]) + "|", ShowPipeline(pl[1..]));
      Split(s, i, ShowParts(pl[0]), "|");
      ReadsChar(s, k, '|');
    }
    assert GoodCommand(pl[0]);
    NotBlock(s, i, pl[0]);
  }

  lemma {:induction false} PipelineParse(s: string, i: nat, pl: Pipeline) returns (cmd: Cmd)
    requires GoodPipeline(pl) && Reads(s, i, ShowPipeline(pl)) && Ends(s, i + |ShowPipeline(pl)|)
    ensures ParsePipe(s, i) == Ok(cmd, i + |ShowPipeline(pl)|) && Text(s, cmd) == PipelineTree(pl) && Skip(s, i) == i
    decreases |pl|
  {
    hide Reads, ShowParts, Skip, GoodCommand, ParsePipe, ParseExec, PartsTree;
    var k := FirstCommand(s, i, pl);
    cmd := CommandExec(s, i, pl[0]);
    if |pl| == 1 {
      PipeStops(s, i, cmd, k);
    } else {
      var r := PipelineParse(s, k + 1, pl[1..]);
      PipeGoesOn(s, i, cmd, k, r, i + |ShowPipeline(pl)|);
      cmd := Pipe(cmd, r);
    }
  }

  /** What ends a job. */
  ghost predicate EndsJob(s: string, i: nat) {
    i == |s| || (i < |s| && s[i] in ");")
  }

  lemma EndsJobPeek(s: string, i: nat)
    requires EndsJob(s, i)
    ensures Ends(s, i) && Skip(s, i) == i && !Peek(s, i, "&")
  {
  }

  lemma BacksEnd(s: string, i: nat, n: nat)
    requires Reads(s, i, Ampersands(n)) && EndsJob(s, i + |Ampersands(n)|)
    ensures Ends(s, i) && Skip(s, i) == i
  {
    hide Reads, Skip;
    if n > 0 {
      FirstChar(s, i, Ampersands(n));
      SkipStays(s, i);
    } else {
      EndsJobPeek(s, i);
    }
  }

  lemma {:induction false} BacksParse(s: string, i: nat, n: nat, cmd: Cmd) returns (b: Cmd)
    requires Reads(s, i, Ampersands(n)) && EndsJob(s, i + |Ampersands(n)|)
    ensures Backs(s, i, cmd) == Ok(b, i + |Ampersands(n)|) && Text(s, b) == BackTree(Text(s, cmd), n)
    decreases n
  {
    hide Reads, Skip, Gettoken, Peek;
    if n == 0 {
      EndsJobPeek(s, i);
      b := cmd;
    } else {
      Split(s, i, "&", Ampersands(n - 1));
      ReadsChar(s, i, '&');
      SymbolToken(s, i, '&');
      BacksEnd(s, i + 1, n - 1);
      b := BacksParse(s, i + 1, n - 1, Back(cmd));
    }
  }

  lemma JobParse(s: string, i: nat, job: Job) returns (l: Cmd, k: nat, b: Cmd)
    requires GoodPipeline(job.pipeline) && Reads(s, i, ShowJob(job)) && EndsJob(s, i + |ShowJob(job)|)
    ensures k <= |s| && ParsePipe(s, i) == Ok(l, k) && Backs(s, k, l) == Ok(b, i + |ShowJob(job)|)
    ensures Text(s, b) == JobTree(job) && Skip(s, i) == i
  {
    hide Reads, Skip, ParsePipe, Backs, ShowPipeline, Ampersands, PipelineTree, GoodCommand, Text;
    Split(s, i, ShowPipeline(job.pipeline), Ampersands(job.backs));
    k := i + |ShowPipeline(job.pipeline)|;
    BacksEnd(s, k, job.backs);
    l := PipelineParse(s, i, job.pipeline);
    b := BacksParse(s, k, job.backs, l);
  }

  lemma LineStops(s: string, i: nat, l: Cmd, k: nat, b: Cmd, e: nat)
    requires i <= |s| && k <= |s| && ParsePipe(s, i) == Ok(l, k) && Backs(s, k, l) == Ok(b, e) && Closed(s, e)
    ensures ParseLine(s, i) == Ok(b, e)
  {
    hide Skip, Gettoken, Peek, ParsePipe, Backs;
    ClosedPeek(s, e);
  }

  lemma LineGoesOn(s: string, i: nat, l: Cmd, k: nat, b: Cmd, m: nat, r: Cmd, e: nat)
    requires i <= |s| && k <= |s| && ParsePipe(s, i) == Ok(l, k) && Backs(s, k, l) == Ok(b, m)
    requires m < |s| && s[m] == ';' && Skip(s, m + 1) == m + 1 && ParseLine(s, m + 1) == Ok(r, e)
    ensures ParseLine(s, i) == Ok(List(b, r), e)
  {
    hide Skip, Gettoken, Peek, ParsePipe, Backs;
    SymbolToken(s, m, ';');
  }

  lemma FirstJob(s: string, i: nat, js: seq<Job>) returns (m: nat)
    requires GoodLine(js) && Reads(s, i, ShowLine(js)) && Closed(s, i + |ShowLine(js)|)
    ensures m == i + |ShowJob(js[0])| && Reads(s, i, ShowJob(js[0])) && EndsJob(s, m)
    ensures if |js| == 1 then m == i + |ShowLine(js)|
            else
              && m < |s| && s[m] == ';' && Reads(s, m + 1, ShowLine(js[1..]))
              && m + 1 + |ShowLine(js[1..])| == i + |ShowLine(js)|
  {
    hide Reads, ShowJob, Skip, GoodCommand;
    m := i + |ShowJob(js[0])|;
    if |js| > 1 {
      Split(s, i, ShowJob(js[0]) + ";", ShowLine(js[1..]));
      Split(s, i, ShowJob(js[0]), ";");
      ReadsChar(s, m, ';');
    }
  }

  lemma {:induction false} LineParse(s: string, i: nat, js: seq<Job>) returns (cmd: Cmd)
    requires GoodLine(js) && Reads(s, i, ShowLine(js)) && Closed(s, i + |ShowLine(js)|)
    ensures ParseLine(s, i) == Ok(cmd, i + |ShowLine(js)|) && Text(s, cmd) == LineTree(js) && Skip(s, i) == i
    decreases |js|
  {
    hide Reads, Skip, ParseLine, ParsePipe, Backs, ShowJob, JobTree, GoodCommand;
    var m := FirstJob(s, i, js);
    var l, k, b := JobParse(s, i, js[0]);
    if |js| == 1 {
      LineStops(s, i, l, k, b, m);
      cmd := b;
    } else {
      var r := LineParse(s, m + 1, js[1..]);
      LineGoesOn(s, i, l, k, b, m, r, i + |ShowLine(js)|);
      cmd := List(b, r);
    }
  }

  /** A line of jobs parses to the tree it stands for: '|' binds tighter than '&',
      '&' tighter than ';', and both '|' and ';' group to the right. */
  lemma WholeLine(js: seq<Job>) returns (cmd: Cmd)
    requires GoodLine(js)
    ensures ParseCmd(ShowLine(js)) == Ok(cmd, |ShowLine(js)|) && Text(ShowLine(js), cmd) == LineTree(js)
  {
    hide ParseLine, Text, LineTree;
    cmd := LineParse(ShowLine(js), 0, js);
    SkipStays(ShowLine(js), |ShowLine(js)|);
  }
}
