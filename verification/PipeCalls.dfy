/** What one call of pipewrite, piperead or pipeclose does, from the turn that makes it
    to its return, whatever the other processes do in between. */
module PipeCalls {
  import opened Base
  import opened Pipe

  ghost function Grown(before: seq<Byte>, after: seq<Byte>): seq<Byte> {
    if |before| <= |after| then after[|before|..] else []
  }

  /** The bytes that turns j to k of process p put into the pipe. */
  ghost function Puts(turns: seq<Turn>, states: seq<Sys>, p: nat, j: nat, k: nat): seq<Byte>
    requires k <= |turns| < |states|
    decreases k
  {
    if k <= j then []
    else Puts(turns, states, p, j, k - 1) + if turns[k - 1].p == p then Grown(states[k - 1].put, states[k].put) else []
  }

  /** And those they took out. */
  ghost function Takings(turns: seq<Turn>, states: seq<Sys>, p: nat, j: nat, k: nat): seq<Byte>
    requires k <= |turns| < |states|
    decreases k
  {
    if k <= j then []
    else
      Takings(turns, states, p, j, k - 1) +
      if turns[k - 1].p == p then Grown(states[k - 1].taken, states[k].taken) else []
  }

  /** The call p made in turn j has not returned in state k. */
  ghost predicate InCall(turns: seq<Turn>, states: seq<Sys>, p: nat, call: Act, j: nat, k: nat) {
    && j < k <= |turns| < |states| && turns[j] == Turn(p, call)
    && forall m :: j < m <= k ==> p < |states[m].pcs| && states[m].pcs[p] != Idle
  }

  /** In some turn of the call its copy to or from user memory failed. */
  ghost predicate CopyFailed(turns: seq<Turn>, p: nat, j: nat, k: nat)
    requires k <= |turns|
  {
    exists m :: j < m < k && turns[m] == Turn(p, CopyFails)
  }

  // ---- one turn

  lemma MyTurn(s: Sys, p: nat, a: Act)
    requires Ring(s) && p < |s.pcs| && Enabled(s, p, a)
    ensures var t, e := Next(s, p, a), Step(s, p, a);
            && |t.pcs| == |s.pcs| && t.pcs[p] == e.mine && t.readopen == e.readopen && t.writeopen == e.writeopen
            && Grown(s.put, t.put) == (if e.io.Put? then [e.io.ch] else [])
            && t.taken == s.taken + Grown(s.taken, t.taken)
            && Grown(s.taken, t.taken) == (if e.io.Take? then [s.data[s.nread % PIPESIZE]] else [])
  {
    hide Step, IsEmpty, IsFull, Enabled;
  }

  lemma TheirTurn(s: Sys, p: nat, a: Act, q: nat)
    requires Inv(s) && p < |s.pcs| && q < |s.pcs| && q != p && Enabled(s, p, a)
    ensures var t := Next(s, p, a);
            && |t.pcs| == |s.pcs| && (Inside(s.pcs[q]) ==> t.taken == s.taken)
            && (|| t.pcs[q] == s.pcs[q]
                || (s.pcs[q].RAsleep? && t.pcs[q] == REnter(s.pcs[q].n))
                || (s.pcs[q].WAsleep? && t.pcs[q] == WEnter(s.pcs[q].src, s.pcs[q].i)))
  {
    hide IsEmpty, IsFull, Ring, Enabled, Step, Look;
    HasData(s);
    assert ProcOk(s.pcs[p], s.lock == p, Look(s)) && ProcOk(s.pcs[q], s.lock == q, Look(s));
    OnlyInside(s, p, a);
  }

  lemma OnlyInside(s: Sys, p: nat, a: Act)
    requires p < |s.pcs| && Enabled(s, p, a)
    ensures Step(s, p, a).io.Take? ==> s.pcs[p].RCopy?
  {
    hide IsEmpty, IsFull;
  }

  lemma Turns(turns: seq<Turn>, states: seq<Sys>, k: nat)
    requires Execution(turns, states) && k < |turns|
    ensures Inv(states[k]) && Ring(states[k]) && |turns| < |states|
    ensures var s, m := states[k], turns[k];
            && m.p < |s.pcs| && |s.data| == PIPESIZE && Enabled(s, m.p, m.a) && states[k + 1] == Next(s, m.p, m.a)
  {
    hide Inv, Next, Enabled, Start, Ring;
    RunInv(turns, states, k);
    RunRing(turns, states, k);
    assert Takes(states[k], turns[k], states[k + 1]);
  }

  // ---- pipewrite

  /** A writer in the loop saw that nobody reads, or was killed. */
  ghost predicate GaveUp(turns: seq<Turn>, states: seq<Sys>, p: nat, j: nat, k: nat)
    requires k <= |turns| < |states|
  {
    exists m :: j < m < k && turns[m].p == p && (turns[m].a == Killed || !states[m].readopen)
  }

  /** How far a call pipewrite(src) has come: put is what it has put. */
  ghost predicate Writing(pc: Pc, src: seq<Byte>, put: seq<Byte>, failed: bool, gaveUp: bool) {
    match pc
    case WEnter(x, i) => x == src && i <= |src| && put == src[..i]
    case WLoop(x, i, _) => x == src && i <= |src| && put == src[..i]
    case WFull(x, i) => x == src && i <= |src| && put == src[..i]
    case WAsleep(x, i) => x == src && i <= |src| && put == src[..i]
    case WEnd(x, i, _) => x == src && i <= |src| && put == src[..i] && (i == |src| || failed)
    case Unlock(r) =>
      if r == -1 then put < src && gaveUp else 0 <= r <= |src| && put == src[..r] && (r == |src| || failed)
    case _ => false
  }

  lemma WriterTurn(s: Sys, p: nat, a: Act, src: seq<Byte>, put: seq<Byte>, failed: bool, gaveUp: bool)
    requires Ring(s) && p < |s.pcs| && Enabled(s, p, a) && Writing(s.pcs[p], src, put, failed, gaveUp)
    requires Next(s, p, a).pcs[p] != Idle
    ensures var t := Next(s, p, a);
            Writing(t.pcs[p], src, put + Grown(s.put, t.put), failed || a == CopyFails,
                    gaveUp || a == Killed || !s.readopen)
  {
    hide Next, IsEmpty, IsFull, Ring, ReaderStep, Grown;
    MyTurn(s, p, a);
  }

  lemma {:induction false} WriteInProgress(turns: seq<Turn>, states: seq<Sys>, p: nat, src: seq<Byte>, j: nat, k: nat)
    requires Execution(turns, states) && InCall(turns, states, p, Write(src), j, k)
    ensures Writing(states[k].pcs[p], src, Puts(turns, states, p, j, k), CopyFailed(turns, p, j, k),
                    GaveUp(turns, states, p, j, k))
    decreases k
  {
    hide Execution, Inv, Ring, Next, Enabled, Writing, Grown, IsEmpty, IsFull;
    var s, m := states[k - 1], turns[k - 1];
    Turns(turns, states, k - 1);
    var put := Puts(turns, states, p, j, k - 1);
    if k - 1 == j {
      CallStarts(s, p, m.a);
      assert put == [];
      assert Puts(turns, states, p, j, k) == [];
    } else {
      WriteInProgress(turns, states, p, src, j, k - 1);
      var failed, gaveUp := CopyFailed(turns, p, j, k - 1), GaveUp(turns, states, p, j, k - 1);
      if m.p == p {
        WriterTurn(s, p, m.a, src, put, failed, gaveUp);
      } else {
        TheirTurn(s, m.p, m.a, p);
        assert Puts(turns, states, p, j, k) == put;
        StillWriting(s.pcs[p], states[k].pcs[p], src, put, failed, gaveUp);
        assert CopyFailed(turns, p, j, k) == failed && GaveUp(turns, states, p, j, k) == gaveUp;
      }
    }
  }

  lemma StillWriting(pc: Pc, pc': Pc, src: seq<Byte>, put: seq<Byte>, failed: bool, gaveUp: bool)
    requires Writing(pc, src, put, failed, gaveUp)
    requires pc' == pc || pc.RAsleep? || (pc.WAsleep? && pc' == WEnter(pc.src, pc.i))
    ensures Writing(pc', src, put, failed, gaveUp)
  {
  }

  lemma CallStarts(s: Sys, p: nat, a: Act)
    requires Ring(s) && p < |s.pcs| && Enabled(s, p, a) && (a.Write? || a.Read? || a.Close?)
    ensures var t := Next(s, p, a);
            && |t.pcs| == |s.pcs| && Grown(s.put, t.put) == [] && t.taken == s.taken && Grown(s.taken, t.taken) == []
            && (a.Write? ==> t.pcs[p] == WEnter(a.src, 0)) && (a.Read? ==> t.pcs[p] == REnter(a.n))
            && (a.Close? ==> t.pcs[p] == CEnter(a.writable))
            && (a.Write? ==> Writing(t.pcs[p], a.src, [], false, false))
  {
    hide IsEmpty, IsFull;
    MyTurn(s, p, a);
  }

  /** What pipewrite(src) has put, in order, when it returns r: all of src if r is its
      length; its first r bytes if copying from user memory then failed; and less than
      all, with r == -1, if nobody reads any more or the caller was killed. */
  lemma WriteReturns(turns: seq<Turn>, states: seq<Sys>, p: nat, src: seq<Byte>, j: nat, k: nat, r: int)
    requires Execution(turns, states) && InCall(turns, states, p, Write(src), j, k) && states[k].pcs[p] == Unlock(r)
    ensures var put := Puts(turns, states, p, j, k);
            if r == -1 then put < src && GaveUp(turns, states, p, j, k)
            else 0 <= r <= |src| && put == src[..r] && (r == |src| || CopyFailed(turns, p, j, k))
  {
    hide Execution, Puts, GaveUp, CopyFailed;
    WriteInProgress(turns, states, p, src, j, k);
  }

  // ---- piperead

  /** The call looked into an empty pipe while copying. */
  ghost predicate RanDry(turns: seq<Turn>, states: seq<Sys>, p: nat, j: nat, k: nat)
    requires k <= |turns| < |states|
  {
    exists m :: j < m < k && turns[m].p == p && IsEmpty(states[m]) && p < |states[m].pcs| && states[m].pcs[p].RCopy?
  }

  /** It found something to read, or nobody left to write. */
  ghost predicate Began(turns: seq<Turn>, states: seq<Sys>, p: nat, j: nat, k: nat)
    requires k <= |turns| < |states|
  {
    exists m :: j < m < k && turns[m].p == p && (!IsEmpty(states[m]) || !states[m].writeopen)
  }

  /** It was killed while there was nothing to read. */
  ghost predicate KilledWaiting(turns: seq<Turn>, states: seq<Sys>, p: nat, j: nat, k: nat)
    requires k <= |turns| < |states|
  {
    exists m :: j < m < k && turns[m] == Turn(p, Killed) && IsEmpty(states[m]) && states[m].writeopen
  }

  datatype Seen = Seen(failed: bool, dry: bool, began: bool, killed: bool)

  ghost function SeenIn(turns: seq<Turn>, states: seq<Sys>, p: nat, j: nat, k: nat): Seen
    requires k <= |turns| < |states|
  {
    Seen(CopyFailed(turns, p, j, k), RanDry(turns, states, p, j, k), Began(turns, states, p, j, k),
         KilledWaiting(turns, states, p, j, k))
  }

  /** The last bytes taken. */
  ghost predicate Tail(taken: seq<Byte>, got: seq<Byte>) {
    |got| <= |taken| && taken[|taken| - |got|..] == got
  }

  /** The first r of the bytes got were delivered: all of them, unless copying failed. */
  ghost predicate Ended(n: nat, got: seq<Byte>, r: nat, x: Seen) {
    && r <= n && x.began && (|got| == r || (|got| == r + 1 && x.failed)) && (r == n || x.failed || x.dry)
  }

  /** How far a call piperead(n) has come: got is what it has taken. */
  ghost predicate Reading(pc: Pc, n: nat, got: seq<Byte>, taken: seq<Byte>, x: Seen) {
    match pc
    case REnter(m) => m == n && got == []
    case RLoop(m) => m == n && got == []
    case RAsleep(m) => m == n && got == []
    case RCopy(m, dst, _) => m == n && |dst| <= n && got == dst && Tail(taken, got) && x.began
    case REnd(dst, _) => dst <= got && Tail(taken, got) && Ended(n, got, |dst|, x)
    case Unlock(r) => if r == -1 then got == [] && x.killed else 0 <= r && Tail(taken, got) && Ended(n, got, r, x)
    case _ => false
  }

  ghost predicate More(x: Seen, s: Sys, p: nat, a: Act, y: Seen)
    requires p < |s.pcs|
  {
    && y.failed == (x.failed || a == CopyFails) && y.dry == (x.dry || (IsEmpty(s) && s.pcs[p].RCopy?))
    && y.began == (x.began || !IsEmpty(s) || !s.writeopen)
    && y.killed == (x.killed || (a == Killed && IsEmpty(s) && s.writeopen))
  }

  lemma TailMore(taken: seq<Byte>, got: seq<Byte>, more: seq<Byte>)
    requires Tail(taken, got)
    ensures Tail(taken + more, got + more)
  {
    var n := |taken| - |got|;
    assert (taken + more)[n..] == taken[n..] + more;
  }

  lemma CopyTurn(s: Sys, p: nat, a: Act, n: nat, got: seq<Byte>, x: Seen, y: Seen)
    requires Ring(s) && p < |s.pcs| && Enabled(s, p, a) && Reading(s.pcs[p], n, got, s.taken, x) && More(x, s, p, a, y)
    requires s.pcs[p].RCopy?
    ensures var t := Next(s, p, a); Reading(t.pcs[p], n, got + Grown(s.taken, t.taken), t.taken, y)
  {
    hide Next, IsEmpty, IsFull, Ring, WriterStep, OtherStep, Grown, Tail;
    MyTurn(s, p, a);
    TailMore(s.taken, got, Grown(s.taken, Next(s, p, a).taken));
  }

  lemma ReaderTurn(s: Sys, p: nat, a: Act, n: nat, got: seq<Byte>, x: Seen, y: Seen)
    requires Ring(s) && p < |s.pcs| && Enabled(s, p, a) && Reading(s.pcs[p], n, got, s.taken, x) && More(x, s, p, a, y)
    requires Next(s, p, a).pcs[p] != Idle
    ensures var t := Next(s, p, a); Reading(t.pcs[p], n, got + Grown(s.taken, t.taken), t.taken, y)
  {
    hide Next, IsEmpty, IsFull, Ring, WriterStep, Grown, Tail;
    if s.pcs[p].RCopy? {
      CopyTurn(s, p, a, n, got, x, y);
    } else {
      MyTurn(s, p, a);
      OnlyInside(s, p, a);
      assert s.taken + [] == s.taken && got + [] == got;
      TailStarts(s.taken);
    }
  }

  lemma TailStarts(taken: seq<Byte>)
    ensures Tail(taken, [])
  {
  }

  lemma SeenMore(turns: seq<Turn>, states: seq<Sys>, p: nat, j: nat, k: nat)
    requires j < k < |turns| < |states| && p < |states[k].pcs|
    ensures var x, y := SeenIn(turns, states, p, j, k), SeenIn(turns, states, p, j, k + 1);
            if turns[k].p == p then More(x, states[k], p, turns[k].a, y) else y == x
  {
    hide IsEmpty;
  }

  lemma {:induction false} ReadInProgress(turns: seq<Turn>, states: seq<Sys>, p: nat, n: nat, j: nat, k: nat)
    requires Execution(turns, states) && InCall(turns, states, p, Read(n), j, k)
    ensures Reading(states[k].pcs[p], n, Takings(turns, states, p, j, k), states[k].taken,
                    SeenIn(turns, states, p, j, k))
    decreases k
  {
    hide Execution, Inv, Ring, Next, Enabled, Reading, Grown, IsEmpty, IsFull, More, SeenIn;
    var s, m := states[k - 1], turns[k - 1];
    Turns(turns, states, k - 1);
    var got := Takings(turns, states, p, j, k - 1);
    if k - 1 == j {
      CallStarts(s, p, m.a);
      assert Takings(turns, states, p, j, k) == [];
      ReadStarts(n, states[k].taken, SeenIn(turns, states, p, j, k));
    } else {
      ReadInProgress(turns, states, p, n, j, k - 1);
      SeenMore(turns, states, p, j, k - 1);
      var x := SeenIn(turns, states, p, j, k - 1);
      if m.p == p {
        ReaderTurn(s, p, m.a, n, got, x, SeenIn(turns, states, p, j, k));
      } else {
        TheirTurn(s, m.p, m.a, p);
        assert Takings(turns, states, p, j, k) == got;
        StillReading(s.pcs[p], states[k].pcs[p], n, got, s.taken, states[k].taken, x);
      }
    }
  }

  lemma ReadStarts(n: nat, taken: seq<Byte>, x: Seen)
    ensures Reading(REnter(n), n, [], taken, x)
  {
  }

  lemma StillReading(pc: Pc, pc': Pc, n: nat, got: seq<Byte>, taken: seq<Byte>, taken': seq<Byte>, x: Seen)
    requires Reading(pc, n, got, taken, x) && (Inside(pc) ==> taken' == taken)
    requires pc' == pc || pc.WAsleep? || (pc.RAsleep? && pc' == REnter(pc.n))
    ensures Reading(pc', n, got, taken', x)
  {
  }

  /** What piperead(n) has taken when it returns r: consecutive bytes, of which the first
      r are in the caller's memory; one more is lost if copying it failed.  It returns
      fewer than n only if it found the pipe empty while copying or copying failed, and
      begins to copy only when there is something to read or nobody writes any more.
      It takes nothing and returns -1 if it was killed while it had to wait. */
  lemma ReadReturns(turns: seq<Turn>, states: seq<Sys>, p: nat, n: nat, j: nat, k: nat, r: int)
    requires Execution(turns, states) && InCall(turns, states, p, Read(n), j, k) && states[k].pcs[p] == Unlock(r)
    ensures var got := Takings(turns, states, p, j, k);
            if r == -1 then got == [] && KilledWaiting(turns, states, p, j, k)
            else
              && 0 <= r <= n && Tail(states[k].taken, got) && Began(turns, states, p, j, k)
              && (|got| == r || (|got| == r + 1 && CopyFailed(turns, p, j, k)))
              && (r == n || RanDry(turns, states, p, j, k) || CopyFailed(turns, p, j, k))
  {
    hide Execution, Takings, CopyFailed, RanDry, Began, KilledWaiting;
    ReadInProgress(turns, states, p, n, j, k);
  }

  /** The bytes in the caller's memory when the copying is over are the first of those
      it took, and they are bytes that were put, consecutive and in order. */
  lemma ReadDelivers(turns: seq<Turn>, states: seq<Sys>, p: nat, n: nat, j: nat, k: nat)
    requires Execution(turns, states) && InCall(turns, states, p, Read(n), j, k) && states[k].pcs[p].REnd?
    ensures var s, got := states[k], Takings(turns, states, p, j, k);
            && s.pcs[p].dst <= got && |got| <= |s.taken| <= |s.put|
            && got == s.put[|s.taken| - |got|..|s.taken|]
  {
    hide Execution, Takings, CopyFailed, RanDry, Began, KilledWaiting;
    ReadInProgress(turns, states, p, n, j, k);
    BoundedFifo(turns, states, k);
    var s := states[k];
    assert s.taken == s.put[..|s.taken|];
  }

  // ---- pipeclose

  ghost predicate IsClosed(s: Sys, writable: bool) {
    if writable then !s.writeopen else !s.readopen
  }

  ghost predicate Closing(pc: Pc, w: bool, s: Sys) {
    match pc
    case CEnter(x) => x == w
    case CSet(x) => x == w
    case CWake(x) => x == w && IsClosed(s, w)
    case Unlock(_) => IsClosed(s, w)
    case _ => false
  }

  lemma CloserTurn(s: Sys, p: nat, a: Act, w: bool)
    requires Ring(s) && p < |s.pcs| && Enabled(s, p, a) && Closing(s.pcs[p], w, s)
    ensures var t := Next(s, p, a); if t.pcs[p] == Idle then IsClosed(t, w) else Closing(t.pcs[p], w, t)
  {
    hide Next, IsEmpty, IsFull, Ring;
    MyTurn(s, p, a);
  }

  lemma ClosedTurn(s: Sys, p: nat, a: Act, w: bool)
    requires Ring(s) && p < |s.pcs| && Enabled(s, p, a) && IsClosed(s, w)
    ensures IsClosed(Next(s, p, a), w)
  {
    hide Next, IsEmpty, IsFull, Ring;
    MyTurn(s, p, a);
  }

  lemma StillClosing(pc: Pc, pc': Pc, w: bool, s: Sys, t: Sys)
    requires Closing(pc, w, s) && pc' == pc && (IsClosed(s, w) ==> IsClosed(t, w))
    ensures Closing(pc', w, t)
  {
  }

  lemma {:induction false} CloseInProgress(turns: seq<Turn>, states: seq<Sys>, p: nat, w: bool, j: nat, k: nat)
    requires Execution(turns, states) && InCall(turns, states, p, Close(w), j, k)
    ensures Closing(states[k].pcs[p], w, states[k])
    decreases k
  {
    hide Execution, Inv, Ring, Next, Enabled, IsClosed, IsEmpty, IsFull;
    var s, m := states[k - 1], turns[k - 1];
    Turns(turns, states, k - 1);
    if k - 1 == j {
      CallStarts(s, p, m.a);
    } else {
      CloseInProgress(turns, states, p, w, j, k - 1);
      if m.p == p {
        CloserTurn(s, p, m.a, w);
      } else {
        TheirTurn(s, m.p, m.a, p);
        if IsClosed(s, w) { ClosedTurn(s, m.p, m.a, w); }
        StillClosing(s.pcs[p], states[k].pcs[p], w, s, states[k]);
      }
    }
  }

  /** When pipeclose returns, its end of the pipe is closed, and stays so. */
  lemma {:induction false} CloseReturns(turns: seq<Turn>, states: seq<Sys>, p: nat, w: bool, j: nat, k: nat, n: nat)
    requires Execution(turns, states) && InCall(turns, states, p, Close(w), j, k)
    requires states[k].pcs[p].Unlock? && k <= n < |states|
    ensures IsClosed(states[n], w)
    decreases n
  {
    hide Execution, Inv, Ring, Next, Enabled, IsClosed, IsEmpty, IsFull;
    if n == k {
      CloseInProgress(turns, states, p, w, j, k);
    } else {
      CloseReturns(turns, states, p, w, j, k, n - 1);
      Lengths(turns, states);
      Turns(turns, states, n - 1);
      ClosedTurn(states[n - 1], turns[n - 1].p, turns[n - 1].a, w);
    }
  }

  lemma Lengths(turns: seq<Turn>, states: seq<Sys>)
    requires Execution(turns, states)
    ensures |states| == |turns| + 1
  {
  }
}
