/** The redo log as a sequence of disk writes.

    The log area is `size` blocks from `start`: a header block (word 0 holds the
    number n of logged blocks, words 1..n their home block numbers) followed by
    the logged copies.  Committing writes the copies, then the header, then the
    home blocks, then clears the header; recovery redoes the last two stages
    from what the disk holds.  A crash keeps a prefix of the writes. */
module LogCrash {
  import opened Disk

  datatype Area = Area(start: int, size: int)

  predicate InArea(l: Area, no: int) {
    l.start <= no < l.start + l.size
  }

  function SetHead(h: Block, bs: seq<int>): Block
    requires |bs| <= LOGSIZE
  {
    [|bs|] + bs + h[1 + |bs|..]
  }

  /** The blocks a transaction may log: on the disk and outside the log area. */
  ghost predicate Loggable(l: Area, d: Store, bs: seq<int>) {
    && |bs| <= LOGSIZE && |bs| < l.size
    && forall i :: 0 <= i < |bs| ==> bs[i] in d && !InArea(l, bs[i])
  }

  /** The log area exists and its header can be trusted. */
  ghost predicate Good(l: Area, d: Store) {
    && 1 <= l.size
    && (forall no :: InArea(l, no) ==> no in d)
    && 0 <= d[l.start][0] <= LOGSIZE
    && Loggable(l, d, Logged(l, d))
  }

  /** The block numbers in the on-disk header. */
  function Logged(l: Area, d: Store): seq<int>
    requires l.start in d && 0 <= d[l.start][0] <= LOGSIZE
  {
    d[l.start][1..1 + d[l.start][0]]
  }

  ghost predicate Clean(l: Area, d: Store) {
    Good(l, d) && d[l.start][0] == 0
  }

  /** Everything outside the log area: what file system users see. */
  function Home(l: Area, d: Store): Store {
    map no | no in d && !InArea(l, no) :: d[no]
  }

  ghost predicate Slots(l: Area, d: Store, n: nat) {
    forall no :: l.start < no <= l.start + n ==> no in d
  }

  /** Copies of the blocks `bs`, taken from `view`, into the log slots. */
  function LogWrites(l: Area, view: Store, bs: seq<int>): (ws: seq<Write>)
    requires forall i :: 0 <= i < |bs| ==> bs[i] in view
  {
    seq(|bs|, i requires 0 <= i < |bs| => Write(l.start + 1 + i, view[bs[i]]))
  }

  /** Copies from the log slots of `d` to the home blocks `bs`. */
  function InstallWrites(l: Area, d: Store, bs: seq<int>): (ws: seq<Write>)
    requires Slots(l, d, |bs|)
  {
    seq(|bs|, i requires 0 <= i < |bs| => Write(bs[i], d[l.start + 1 + i]))
  }

  function HeadWrite(l: Area, h: Block, bs: seq<int>): Write
    requires |bs| <= LOGSIZE
  {
    Write(l.start, SetHead(h, bs))
  }

  function RecoverWrites(l: Area, d: Store): (ws: seq<Write>)
    requires Good(l, d)
  {
    InstallWrites(l, d, Logged(l, d)) + [HeadWrite(l, d[l.start], [])]
  }

  function Recovered(l: Area, d: Store): Store
    requires Good(l, d)
  {
    Apply(d, RecoverWrites(l, d))
  }

  function ViewWrites(view: Store, bs: seq<int>): (ws: seq<Write>)
    requires forall i :: 0 <= i < |bs| ==> bs[i] in view
  {
    seq(|bs|, i requires 0 <= i < |bs| => Write(bs[i], view[bs[i]]))
  }

  /** Every disk write of one commit of the blocks `bs` as they stand in `view`. */
  function CommitWrites(l: Area, d: Store, view: Store, bs: seq<int>): (ws: seq<Write>)
    requires l.start in d && |bs| <= LOGSIZE
    requires forall i :: 0 <= i < |bs| ==> bs[i] in view
  {
    if bs == [] then []
    else
      var h := SetHead(d[l.start], bs);
      LogWrites(l, view, bs) + [Write(l.start, h)] + ViewWrites(view, bs) + [HeadWrite(l, h, [])]
  }

  /** The change a transaction makes to the home blocks. */
  function Txn(view: Store, bs: seq<int>): Store
    requires forall i :: 0 <= i < |bs| ==> bs[i] in view
  {
    map no | no in bs :: view[no]
  }

  // ---- recovery

  lemma LogAreaUntouched(l: Area, d: Store, bs: seq<int>, k: nat)
    requires Slots(l, d, |bs|) && Loggable(l, d, bs) && k <= |bs|
    ensures var d' := Apply(d, InstallWrites(l, d, bs)[..k]);
            && d'.Keys == d.Keys
            && forall no :: InArea(l, no) && no in d ==> d'[no] == d[no]
  {
    var ws := InstallWrites(l, d, bs)[..k];
    assert forall i :: 0 <= i < |ws| ==> ws[i].no == bs[i];
    ApplyKeys(d, ws);
    forall no | InArea(l, no) && no in d
      ensures Apply(d, ws)[no] == d[no]
    {
      ApplyUntouched(d, ws, no);
    }
  }

  lemma InterruptedInstall(l: Area, d: Store, k: nat)
    requires Good(l, d) && k <= |Logged(l, d)|
    ensures var d' := Apply(d, InstallWrites(l, d, Logged(l, d))[..k]);
            && Good(l, d') && d'.Keys == d.Keys && RecoverWrites(l, d') == RecoverWrites(l, d)
  {
    var bs := Logged(l, d);
    LogAreaUntouched(l, d, bs, k);
    var d' := Apply(d, InstallWrites(l, d, bs)[..k]);
    assert d'[l.start] == d[l.start];
    assert Logged(l, d') == bs;
    assert InstallWrites(l, d', bs) == InstallWrites(l, d, bs);
  }

  /** A crash at any point of recovery leaves a disk from which recovery still
      produces exactly the same disk. */
  lemma RecoveryRestarts(l: Area, d: Store, k: nat)
    requires Good(l, d) && k <= |RecoverWrites(l, d)|
    ensures var d' := Apply(d, RecoverWrites(l, d)[..k]);
            && Good(l, d') && d'.Keys == d.Keys
            && Recovered(l, d') == Recovered(l, d)
  {
    var ws := RecoverWrites(l, d);
    var installs := InstallWrites(l, d, Logged(l, d));
    if k < |ws| {
      assert ws[..k] == installs[..k];
      InterruptedInstall(l, d, k);
      Redo(d, ws, k);
    } else {
      assert ws[..k] == ws;
      RecoveredIsClean(l, d);
      RecoveredIsFixed(l, d);
    }
  }

  lemma ClearedIsFixed(l: Area, mid: Store)
    requires Good(l, mid)
    ensures var d' := mid[l.start := SetHead(mid[l.start], [])];
            Clean(l, d') && d'.Keys == mid.Keys && Recovered(l, d') == d'
  {
    var d' := mid[l.start := SetHead(mid[l.start], [])];
    assert Logged(l, d') == [];
    var w := HeadWrite(l, d'[l.start], []);
    assert RecoverWrites(l, d') == [w];
    ApplyOne(d', w);
    assert w.data == d'[l.start];
  }

  lemma RecoveredSplit(l: Area, d: Store) returns (mid: Store)
    requires Good(l, d)
    ensures mid == Apply(d, InstallWrites(l, d, Logged(l, d)))
    ensures Good(l, mid) && mid.Keys == d.Keys && mid[l.start] == d[l.start]
    ensures Recovered(l, d) == mid[l.start := SetHead(mid[l.start], [])]
  {
    var bs := Logged(l, d);
    var installs := InstallWrites(l, d, bs);
    assert installs[..|bs|] == installs;
    InterruptedInstall(l, d, |bs|);
    LogAreaUntouched(l, d, bs, |bs|);
    mid := Apply(d, installs);
    var w := HeadWrite(l, d[l.start], []);
    ApplyConcat(d, installs, [w]);
    ApplyOne(mid, w);
  }

  /** Recovery ends with an empty log, and changes home blocks only by
      installing the logged copies. */
  lemma RecoveredIsClean(l: Area, d: Store)
    requires Good(l, d)
    ensures Clean(l, Recovered(l, d)) && Recovered(l, d).Keys == d.Keys
    ensures Home(l, Recovered(l, d)) == Home(l, Apply(d, InstallWrites(l, d, Logged(l, d))))
  {
    var mid := RecoveredSplit(l, d);
    ClearedIsFixed(l, mid);
  }

  lemma RecoveredIsFixed(l: Area, d: Store)
    requires Good(l, d)
    ensures Good(l, Recovered(l, d)) && Recovered(l, Recovered(l, d)) == Recovered(l, d)
  {
    var mid := RecoveredSplit(l, d);
    ClearedIsFixed(l, mid);
  }

  lemma CleanRecovers(l: Area, d: Store)
    requires Clean(l, d)
    ensures Home(l, Recovered(l, d)) == Home(l, d)
  {
    RecoveredIsClean(l, d);
    assert InstallWrites(l, d, Logged(l, d)) == [];
  }

  // ---- commit

  lemma LogWritesStayInArea(l: Area, d: Store, view: Store, bs: seq<int>, k: nat)
    requires Clean(l, d) && Loggable(l, d, bs) && k <= |bs|
    requires forall i :: 0 <= i < |bs| ==> bs[i] in view
    ensures var d' := Apply(d, LogWrites(l, view, bs)[..k]);
            && Clean(l, d') && d'.Keys == d.Keys && Home(l, d') == Home(l, d)
            && d'[l.start] == d[l.start]
            && forall i :: 0 <= i < k ==> d'[l.start + 1 + i] == view[bs[i]]
  {
    var ws := LogWrites(l, view, bs)[..k];
    assert forall i :: 0 <= i < |ws| ==> ws[i].no == l.start + 1 + i && InArea(l, ws[i].no);
    ApplyKeys(d, ws);
    var d' := Apply(d, ws);
    forall no | no in d && (!InArea(l, no) || no == l.start)
      ensures d'[no] == d[no]
    {
      ApplyUntouched(d, ws, no);
    }
    assert Logged(l, d') == [];
    forall i | 0 <= i < k
      ensures d'[l.start + 1 + i] == view[bs[i]]
    {
      ApplyDistinct(d, ws, i);
    }
  }

  lemma SlotsHoldView(l: Area, d: Store, view: Store, bs: seq<int>)
    requires Slots(l, d, |bs|)
    requires forall i :: 0 <= i < |bs| ==> bs[i] in view && d[l.start + 1 + i] == view[bs[i]]
    ensures InstallWrites(l, d, bs) == ViewWrites(view, bs)
  {
  }

  lemma HeadNamesBlocks(l: Area, d: Store, bs: seq<int>)
    requires Good(l, d) && Loggable(l, d, bs)
    ensures var dc := d[l.start := SetHead(d[l.start], bs)];
            && dc.Keys == d.Keys && Good(l, dc) && Logged(l, dc) == bs && Home(l, dc) == Home(l, d)
  {
    var dc := d[l.start := SetHead(d[l.start], bs)];
    assert dc.Keys == d.Keys;
    assert Logged(l, dc) == bs;
  }

  /** The disk at the moment the header has been written: recovery from it is
      what the rest of the commit does. */
  lemma CommitPoint(l: Area, d: Store, view: Store, bs: seq<int>) returns (dc: Store)
    requires Clean(l, d) && Loggable(l, d, bs) && bs != []
    requires forall i :: 0 <= i < |bs| ==> bs[i] in view
    ensures dc == Apply(d, LogWrites(l, view, bs) + [Write(l.start, SetHead(d[l.start], bs))])
    ensures dc == Apply(d, LogWrites(l, view, bs))[l.start := SetHead(d[l.start], bs)]
    ensures Good(l, dc) && dc.Keys == d.Keys && Home(l, dc) == Home(l, d) && Logged(l, dc) == bs
    ensures InstallWrites(l, dc, bs) == ViewWrites(view, bs)
  {
    LogWritesStayInArea(l, d, view, bs, |bs|);
    var lw := LogWrites(l, view, bs);
    assert lw[..|bs|] == lw;
    var dl := Apply(d, lw);
    var h := SetHead(d[l.start], bs);
    dc := dl[l.start := h];
    ApplyConcat(d, lw, [Write(l.start, h)]);
    ApplyOne(dl, Write(l.start, h));
    HeadNamesBlocks(l, dl, bs);
    SlotsHoldView(l, dc, view, bs);
  }

  lemma CommitEndsAsRecovery(l: Area, d: Store, view: Store, bs: seq<int>) returns (dc: Store)
    requires Clean(l, d) && Loggable(l, d, bs) && bs != []
    requires forall i :: 0 <= i < |bs| ==> bs[i] in view
    ensures dc == Apply(d, LogWrites(l, view, bs) + [Write(l.start, SetHead(d[l.start], bs))])
    ensures Good(l, dc) && dc.Keys == d.Keys
    ensures CommitWrites(l, d, view, bs)
            == LogWrites(l, view, bs) + [Write(l.start, SetHead(d[l.start], bs))] + RecoverWrites(l, dc)
    ensures Home(l, Recovered(l, dc)) == Home(l, d) + Txn(view, bs)
  {
    dc := CommitPoint(l, d, view, bs);
    assert dc[l.start] == SetHead(d[l.start], bs);
    RecoveredIsClean(l, dc);
    InstallsTxn(l, dc, view, bs);
  }

  lemma InstallsTxn(l: Area, d: Store, view: Store, bs: seq<int>)
    requires Loggable(l, d, bs)
    requires forall i :: 0 <= i < |bs| ==> bs[i] in view
    ensures Home(l, Apply(d, ViewWrites(view, bs))) == Home(l, d) + Txn(view, bs)
  {
    var ws := ViewWrites(view, bs);
    ApplyKeys(d, ws);
    var d' := Apply(d, ws);
    forall no | no in d
      ensures d'[no] == if no in bs then view[no] else d[no]
    {
      if no in bs {
        var i :| 0 <= i < |bs| && bs[i] == no;
        assert ws[i].no == no;
        ApplyFrom(d, ws, view, no);
      } else {
        ApplyUntouched(d, ws, no);
      }
    }
    forall no | no in bs ensures no in Home(l, d) { }
    assert Home(l, d').Keys == (Home(l, d) + Txn(view, bs)).Keys;
  }

  lemma EarlyCrash(l: Area, d: Store, view: Store, bs: seq<int>, k: nat)
    requires Clean(l, d) && Loggable(l, d, bs) && k <= |bs|
    requires forall i :: 0 <= i < |bs| ==> bs[i] in view
    requires k <= |CommitWrites(l, d, view, bs)|
    ensures var d' := Apply(d, CommitWrites(l, d, view, bs)[..k]);
            Good(l, d') && d'.Keys == d.Keys && Home(l, Recovered(l, d')) == Home(l, d)
  {
    assert CommitWrites(l, d, view, bs)[..k] == LogWrites(l, view, bs)[..k];
    LogWritesStayInArea(l, d, view, bs, k);
    CleanRecovers(l, Apply(d, LogWrites(l, view, bs)[..k]));
  }

  lemma LateCrash(l: Area, d: Store, view: Store, bs: seq<int>, k: nat)
    requires Clean(l, d) && Loggable(l, d, bs) && |bs| < k
    requires forall i :: 0 <= i < |bs| ==> bs[i] in view
    requires bs != [] && k <= |CommitWrites(l, d, view, bs)|
    ensures var d' := Apply(d, CommitWrites(l, d, view, bs)[..k]);
            Good(l, d') && d'.Keys == d.Keys && Home(l, Recovered(l, d')) == Home(l, d) + Txn(view, bs)
  {
    hide Apply, CommitWrites, RecoverWrites, Recovered, Home, Txn, SetHead;
    var dc := CommitEndsAsRecovery(l, d, view, bs);
    var pre := LogWrites(l, view, bs) + [Write(l.start, SetHead(d[l.start], bs))];
    var j := k - |pre|;
    assert CommitWrites(l, d, view, bs)[..k] == pre + RecoverWrites(l, dc)[..j];
    ApplyConcat(d, pre, RecoverWrites(l, dc)[..j]);
    RecoveryRestarts(l, dc, j);
  }

  /** Crash atomicity of one commit.  Whatever prefix of its writes reached the
      disk, recovery gives the old home blocks, or the old ones with the whole
      transaction applied; the header write, number |bs| + 1, decides which. */
  lemma CommitIsAtomic(l: Area, d: Store, view: Store, bs: seq<int>, k: nat)
    requires Clean(l, d) && Loggable(l, d, bs)
    requires forall i :: 0 <= i < |bs| ==> bs[i] in view
    requires k <= |CommitWrites(l, d, view, bs)|
    ensures var d' := Apply(d, CommitWrites(l, d, view, bs)[..k]);
            && Good(l, d') && d'.Keys == d.Keys
            && Home(l, Recovered(l, d')) == if k <= |bs| then Home(l, d) else Home(l, d) + Txn(view, bs)
  {
    hide Apply, RecoverWrites, Recovered, Home, Txn, Good, Loggable, SetHead, LogWrites, ViewWrites;
    if k <= |bs| {
      EarlyCrash(l, d, view, bs, k);
    } else {
      LateCrash(l, d, view, bs, k);
    }
  }

  /** A commit that ran to the end has emptied the log and installed everything. */
  lemma CommitCompletes(l: Area, d: Store, view: Store, bs: seq<int>)
    requires Clean(l, d) && Loggable(l, d, bs)
    requires forall i :: 0 <= i < |bs| ==> bs[i] in view
    ensures var d' := Apply(d, CommitWrites(l, d, view, bs));
            && Clean(l, d') && d'.Keys == d.Keys
            && Home(l, d') == Home(l, d) + Txn(view, bs)
  {
    if bs != [] {
      var dc := CommitEndsAsRecovery(l, d, view, bs);
      var pre := LogWrites(l, view, bs) + [Write(l.start, SetHead(d[l.start], bs))];
      ApplyConcat(d, pre, RecoverWrites(l, dc));
      RecoveredIsClean(l, dc);
    } else {
      assert Home(l, d) + Txn(view, bs) == Home(l, d);
    }
  }

  lemma EmptyCommit(l: Area, d: Store, view: Store)
    requires Clean(l, d)
    ensures CommitWrites(l, d, view, []) == [] && Apply(d, []) == d
  {
  }

  /** The stages of a commit, each in terms of the disk the previous one left. */
  lemma CommitStages(l: Area, d: Store, past: seq<Write>, view: Store, bs: seq<int>) returns (dc: Store, mid: Store)
    requires Clean(l, d) && Loggable(l, d, bs) && bs != []
    requires forall i :: 0 <= i < |bs| ==> bs[i] in view
    ensures dc == Apply(d, LogWrites(l, view, bs))[l.start := SetHead(d[l.start], bs)]
    ensures Apply(d, LogWrites(l, view, bs)).Keys == d.Keys
    ensures Apply(d, LogWrites(l, view, bs))[l.start] == d[l.start]
    ensures Good(l, dc) && Loggable(l, dc, bs)
    ensures mid == Apply(dc, InstallWrites(l, dc, bs)) && mid.Keys == d.Keys
    ensures past + CommitWrites(l, d, view, bs)
            == past + LogWrites(l, view, bs) + [HeadWrite(l, d[l.start], bs)] + InstallWrites(l, dc, bs)
               + [HeadWrite(l, mid[l.start], [])]
    ensures Apply(d, CommitWrites(l, d, view, bs)) == mid[l.start := SetHead(mid[l.start], [])]
  {
    dc := CommitPoint(l, d, view, bs);
    LogWritesStayInArea(l, d, view, bs, |bs|);
    var lw := LogWrites(l, view, bs);
    assert lw[..|bs|] == lw;
    mid := RecoveredSplit(l, dc);
    var dc' := CommitEndsAsRecovery(l, d, view, bs);
    assert CommitWrites(l, d, view, bs)
        == lw + [HeadWrite(l, d[l.start], bs)] + InstallWrites(l, dc, bs) + [HeadWrite(l, mid[l.start], [])];
    ApplyConcat(d, lw + [HeadWrite(l, d[l.start], bs)], RecoverWrites(l, dc));
    hide *;
    Reassociate(past, lw, [HeadWrite(l, d[l.start], bs)], InstallWrites(l, dc, bs), [HeadWrite(l, mid[l.start], [])]);
  }

  lemma LogWriteStep(l: Area, d: Store, past: seq<Write>, view: Store, bs: seq<int>, k: nat)
    requires Clean(l, d) && Loggable(l, d, bs) && k < |bs|
    requires forall i :: 0 <= i < |bs| ==> bs[i] in view
    ensures var ws := LogWrites(l, view, bs);
            var d' := Apply(d, ws[..k]);
            && bs[k] in d' && d'[bs[k]] == d[bs[k]]
            && past + ws[..k + 1] == past + ws[..k] + [Write(l.start + k + 1, view[bs[k]])]
            && Apply(d, ws[..k + 1]) == d'[l.start + k + 1 := view[bs[k]]]
  {
    LogWritesStayInArea(l, d, view, bs, k);
    var ws := LogWrites(l, view, bs);
    var d' := Apply(d, ws[..k]);
    assert bs[k] in Home(l, d) && Home(l, d')[bs[k]] == d[bs[k]];
    assert ws[k] == Write(l.start + k + 1, view[bs[k]]);
    ApplyNext(d, past, ws, k);
  }

  lemma InstallStep(l: Area, d: Store, past: seq<Write>, bs: seq<int>, k: nat)
    requires Good(l, d) && Loggable(l, d, bs) && k < |bs|
    ensures var ws := InstallWrites(l, d, bs);
            var d' := Apply(d, ws[..k]);
            && l.start + k + 1 in d'
            && past + ws[..k + 1] == past + ws[..k] + [Write(bs[k], d'[l.start + k + 1])]
            && Apply(d, ws[..k + 1]) == d'[bs[k] := d'[l.start + k + 1]]
  {
    LogAreaUntouched(l, d, bs, k);
    assert InArea(l, l.start + k + 1);
    var ws := InstallWrites(l, d, bs);
    assert ws[k] == Write(bs[k], Apply(d, ws[..k])[l.start + k + 1]);
    ApplyNext(d, past, ws, k);
  }

  lemma InstallStart(l: Area, d: Store, bs: seq<int>)
    requires Slots(l, d, |bs|)
    ensures var ws := InstallWrites(l, d, bs); |ws| == |bs| && ws[..0] == [] && Apply(d, ws[..0]) == d
  {
    assert InstallWrites(l, d, bs)[..0] == [];
  }

  lemma LogWriteStart(l: Area, d: Store, view: Store, bs: seq<int>)
    requires forall i :: 0 <= i < |bs| ==> bs[i] in view
    ensures var ws := LogWrites(l, view, bs); |ws| == |bs| && ws[..0] == [] && Apply(d, ws[..0]) == d
  {
    assert LogWrites(l, view, bs)[..0] == [];
  }
}
