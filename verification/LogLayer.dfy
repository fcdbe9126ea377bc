/** The logging layer itself: the in-memory log record, updated in place, over a
    disk and the buffers it pins.  Each method is tied to the write sequences of
    `LogCrash`, so that module's theorems apply to every crash inside it. */
module LogLayer {
  import opened Base
  import opened Disk
  import opened LogCrash

  /** begin_op's test: the log is not committing, and has room for every
      outstanding operation and one more to use its full allowance. */
  predicate MayBegin(n: int, outstanding: int, committing: bool) {
    !committing && n + (outstanding + 1) * MAXOPBLOCKS <= LOGSIZE
  }

  /** log_write's two panics, which come before it looks for the block. */
  predicate WritePanics(n: int, size: int, outstanding: int) {
    n >= LOGSIZE || n >= size - 1 || outstanding < 1
  }

  /** The logged block numbers once `no` is among them. */
  function Absorb(bs: seq<int>, no: int): seq<int> {
    if no in bs then bs else bs + [no]
  }

  function Elements(bs: seq<int>): set<int> {
    set no | no in bs
  }

  lemma ElementsNext(bs: seq<int>, k: nat)
    requires k < |bs|
    ensures Elements(bs[..k + 1]) == Elements(bs[..k]) + {bs[k]}
  {
    assert bs[..k + 1] == bs[..k] + [bs[k]];
  }

  lemma ElementsNone(bs: seq<int>, pinned: Store)
    ensures pinned - Elements(bs[..0]) == pinned
  {
  }

  class Log {
    const area: Area
    var disk: Store
    var pinned: Store      // contents of the buffers held in the cache for the log
    var n: int
    var block: array<int>
    var outstanding: int
    var committing: bool
    ghost var writes: seq<Write>   // every disk write issued so far

    ghost predicate Valid()
      reads this, block
    {
      && block.Length == LOGSIZE && 0 <= n <= LOGSIZE
      && (forall no :: InArea(area, no) ==> no in disk)
      && Loggable(area, disk, block[..n])
      && forall i :: 0 <= i < n ==> block[i] in pinned
    }

    ghost function Blocks(): seq<int>
      reads this, block
      requires 0 <= n <= block.Length
    {
      block[..n]
    }

    /** What a buffer read of each block returns: the pinned copy if there is one. */
    ghost function View(): Store
      reads this
    {
      disk + pinned
    }

    constructor (area: Area, disk: Store)
      requires Good(area, disk)
      ensures this.area == area && this.disk == disk && pinned == map[] && writes == []
      ensures n == 0 && outstanding == 0 && !committing && Valid()
    {
      this.area, this.disk, this.pinned, this.writes := area, disk, map[], [];
      n, outstanding, committing := 0, 0, false;
      block := new int[LOGSIZE](_ => 0);
    }

    method BWrite(no: int, data: Block)
      modifies this`disk, this`writes
      ensures disk == old(disk)[no := data] && writes == old(writes) + [Write(no, data)]
    {
      disk := disk[no := data];
      writes := writes + [Write(no, data)];
    }

    method WriteLog()
      requires Valid() && Clean(area, disk)
      modifies this`disk, this`writes
      ensures var ws := LogWrites(area, old(View()), Blocks());
              disk == Apply(old(disk), ws) && writes == old(writes) + ws
    {
      hide Apply, LogWrites, Good, Home, Elements;
      ghost var bs, view := Blocks(), View();
      ghost var ws := LogWrites(area, view, bs);
      LogWriteStart(area, disk, view, bs);
      for tail := 0 to n
        invariant disk == Apply(old(disk), ws[..tail]) && writes == old(writes) + ws[..tail]
      {
        LogWriteStep(area, old(disk), old(writes), view, bs, tail);
        BWrite(area.start + tail + 1, pinned[block[tail]]);
      }
      assert ws[..n] == ws;
    }

    method WriteHead()
      requires block.Length == LOGSIZE && 0 <= n <= LOGSIZE && area.start in disk
      modifies this`disk, this`writes
      ensures var w := HeadWrite(area, old(disk)[area.start], Blocks());
              disk == old(disk)[w.no := w.data] && writes == old(writes) + [w]
    {
      var hb: seq<int> := disk[area.start];
      hb := hb[0 := n];
      for i := 0 to n
        invariant |hb| == WORDS && hb[0] == n && hb[1..1 + i] == block[..i]
        invariant hb[1 + i..] == disk[area.start][1 + i..]
      {
        hb := hb[1 + i := block[i]];
        assert hb[1..2 + i] == hb[1..1 + i] + [block[i]];
      }
      assert hb == [n] + hb[1..1 + n] + hb[1 + n..];
      BWrite(area.start, hb);
    }

    method InstallTrans(recovering: bool)
      requires block.Length == LOGSIZE && 0 <= n <= LOGSIZE
      requires Good(area, disk) && Loggable(area, disk, Blocks())
      requires recovering ==> pinned == map[]
      modifies this`disk, this`writes, this`pinned
      ensures var ws := InstallWrites(area, old(disk), Blocks());
              disk == Apply(old(disk), ws) && writes == old(writes) + ws
      ensures pinned == if recovering then old(pinned) else old(pinned) - Elements(Blocks())
    {
      hide Apply, InstallWrites, Logged, Elements;
      ghost var bs := Blocks();
      ghost var ws := InstallWrites(area, disk, bs);
      InstallStart(area, disk, bs);
      ElementsNone(bs, pinned);
      for tail := 0 to n
        invariant disk == Apply(old(disk), ws[..tail]) && writes == old(writes) + ws[..tail]
        invariant pinned == if recovering then old(pinned) else old(pinned) - Elements(bs[..tail])
      {
        InstallStep(area, old(disk), old(writes), bs, tail);
        ElementsNext(bs, tail);
        BWrite(block[tail], disk[area.start + tail + 1]);
        if !recovering {
          pinned := pinned - {block[tail]};
        }
      }
      assert ws[..n] == ws && bs[..n] == bs;
    }

    method ReadHead()
      requires block.Length == LOGSIZE && Good(area, disk)
      modifies this`n, block
      ensures 0 <= n <= LOGSIZE && Blocks() == Logged(area, disk)
    {
      var buf := disk[area.start];
      n := buf[0];
      for i := 0 to n
        invariant n == buf[0] && block[..i] == buf[1..1 + i]
      {
        block[i] := buf[1 + i];
        assert block[..i + 1] == block[..i] + [buf[1 + i]];
      }
    }

    /** Redo whatever the log holds and empty it. */
    method RecoverFromLog()
      requires block.Length == LOGSIZE && Good(area, disk) && pinned == map[]
      modifies this`disk, this`writes, this`pinned, this`n, block
      ensures disk == Recovered(area, old(disk)) && Clean(area, disk)
      ensures writes == old(writes) + RecoverWrites(area, old(disk))
      ensures n == 0 && pinned == map[] && Valid()
    {
      hide Apply, Home, InstallWrites, SetHead;
      ReadHead();
      InstallTrans(true);
      n := 0;
      ghost var mid := RecoveredSplit(area, old(disk));
      assert disk == mid && Blocks() == [];
      WriteHead();
      ClearedIsFixed(area, mid);
      assert writes == old(writes) + RecoverWrites(area, old(disk));
    }

    /** The four stages of a commit that has something to write. */
    method CommitStaged()
      requires Valid() && Clean(area, disk) && n > 0
      modifies this`disk, this`writes, this`pinned, this`n
      ensures var ws := CommitWrites(area, old(disk), old(View()), old(Blocks()));
              disk == Apply(old(disk), ws) && writes == old(writes) + ws
      ensures n == 0 && pinned == old(pinned) - Elements(old(Blocks()))
    {
      hide Apply, LogWrites, InstallWrites, Home, CommitWrites, Txn, Logged, Elements;
      ghost var bs, view := Blocks(), View();
      ghost var dc, mid := CommitStages(area, disk, writes, view, bs);
      WriteLog();
      WriteHead();
      assert disk == dc;
      InstallTrans(false);
      assert disk == mid;
      n := 0;
      assert Blocks() == [];
      WriteHead();
    }

    method Commit()
      requires Valid() && Clean(area, disk)
      modifies this`disk, this`writes, this`pinned, this`n
      ensures var ws := CommitWrites(area, old(disk), old(View()), old(Blocks()));
              disk == Apply(old(disk), ws) && writes == old(writes) + ws
      ensures Clean(area, disk)
      ensures Home(area, disk) == Home(area, old(disk)) + Txn(old(View()), old(Blocks()))
      ensures n == 0 && pinned == old(pinned) - Elements(old(Blocks())) && Valid()
    {
      CommitCompletes(area, disk, View(), Blocks());
      EmptyCommit(area, disk, View());
      assert old(pinned) - Elements([]) == old(pinned);
      hide Apply, Home, CommitWrites, Txn, Logged, Elements;
      if n > 0 {
        CommitStaged();
      }
    }

    /** One pass of begin_op's loop, under the log lock: false means sleep. */
    method BeginOp() returns (admitted: bool)
      modifies this`outstanding
      ensures admitted <==> MayBegin(n, old(outstanding), committing)
      ensures outstanding == old(outstanding) + if admitted then 1 else 0
    {
      if committing {
        admitted := false;
      } else if n + (outstanding + 1) * MAXOPBLOCKS > LOGSIZE {
        admitted := false;
      } else {
        outstanding := outstanding + 1;
        admitted := true;
      }
    }

    /** Record the modified buffer of home block `no`, whose contents are now
        `data`; false means the kernel panics. */
    method LogWrite(no: int, data: Block) returns (ok: bool)
      requires Valid() && no in disk && !InArea(area, no)
      modifies this`n, this`pinned, block
      ensures ok <==> !WritePanics(old(n), area.size, outstanding)
      ensures Valid()
      ensures Blocks() == if ok then Absorb(old(Blocks()), no) else old(Blocks())
      ensures pinned == if ok then old(pinned)[no := data] else old(pinned)
    {
      if n >= LOGSIZE || n >= area.size - 1 {
        return false;
      }
      if outstanding < 1 {
        return false;
      }
      ghost var bs := Blocks();
      var i := 0;
      while i < n && block[i] != no
        invariant 0 <= i <= n && no !in block[..i]
      {
        i := i + 1;
      }
      block[i] := no;
      if i == n {
        n := n + 1;
        assert Blocks() == bs + [no];
      } else {
        assert bs[i] == no;
        assert Blocks() == bs;
      }
      pinned := pinned[no := data];
      assert Blocks() == Absorb(bs, no);
      return true;
    }

    /** end_op: the last operation out commits.  False means the kernel panics. */
    method EndOp() returns (ok: bool)
      requires Valid() && Clean(area, disk)
      modifies this`outstanding, this`committing, this`disk, this`writes, this`pinned, this`n
      ensures ok <==> !old(committing)
      ensures outstanding == old(outstanding) - 1 && committing == old(committing)
      ensures ok && old(outstanding) == 1 ==>
                && n == 0 && pinned == old(pinned) - Elements(old(Blocks())) && Valid() && Clean(area, disk)
                && Home(area, disk) == Home(area, old(disk)) + Txn(old(View()), old(Blocks()))
                && disk == Apply(old(disk), CommitWrites(area, old(disk), old(View()), old(Blocks())))
                && writes == old(writes) + CommitWrites(area, old(disk), old(View()), old(Blocks()))
      ensures !(ok && old(outstanding) == 1) ==>
                && n == old(n) && pinned == old(pinned) && disk == old(disk) && writes == old(writes)
    {
      outstanding := outstanding - 1;
      if committing {
        return false;
      }
      if outstanding == 0 {
        committing := true;
        Commit();
        committing := false;
      }
      return true;
    }
  }
}
