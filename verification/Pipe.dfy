/** A pipe: any number of readers and writers around a ring of PIPESIZE bytes with
    free-running 32-bit counters.

    Each step is an acquire, a release, a wakeup, going to sleep (which releases the
    lock in the same step: Sched.WakeupReachesAll shows that no wakeup under the
    lock can come between), or one round of a loop. */
module Pipe {
  import opened Base
  const PIPESIZE := 512

  /** What a process does next.  news: it has put bytes since it last called wakeup;
      took: it has taken bytes; dst: the bytes that are in the reader's memory; r: what
      the call returns. */
  datatype Pc =
    | Idle
    | WEnter(src: seq<Byte>, i: nat)                 // acquire, or reacquire after sleep
    | WLoop(src: seq<Byte>, i: nat, news: bool)
    | WFull(src: seq<Byte>, i: nat)                  // readers woken: sleep(&pi->nwrite)
    | WAsleep(src: seq<Byte>, i: nat)
    | WEnd(src: seq<Byte>, i: nat, news: bool)       // wakeup(&pi->nread)
    | REnter(n: nat)
    | RLoop(n: nat)
    | RAsleep(n: nat)
    | RCopy(n: nat, dst: seq<Byte>, took: bool)
    | REnd(dst: seq<Byte>, took: bool)               // wakeup(&pi->nwrite)
    | CEnter(writable: bool)
    | CSet(writable: bool)
    | CWake(writable: bool)
    | Unlock(r: int)

  /** put and taken record all bytes that went in and came out; lost is set when a
      writer leaves bytes unannounced, until readers are woken or the pipe is empty. */
  datatype Sys = Sys(
    pcs: seq<Pc>, lock: int, data: seq<Byte>, nread: nat, nwrite: nat, readopen: bool, writeopen: bool,
    put: seq<Byte>, taken: seq<Byte>, lost: bool)

  datatype Act =
    | Write(src: seq<Byte>) | Read(n: nat) | Close(writable: bool)
    | Killed        // killed(pr) is true
    | CopyFails     // copyin or copyout returns -1
    | Wakes         // a sleeper is woken by kill()
    | Go

  predicate IsWriter(pc: Pc) { pc.WEnter? || pc.WLoop? || pc.WFull? || pc.WAsleep? || pc.WEnd? }

  predicate IsReader(pc: Pc) { pc.REnter? || pc.RLoop? || pc.RAsleep? || pc.RCopy? || pc.REnd? }

  predicate HasNews(pc: Pc) { pc.WLoop? && pc.news }

  predicate IsEmpty(s: Sys) { s.nread == s.nwrite }

  predicate IsFull(s: Sys) { s.nwrite == (s.nread + PIPESIZE) % UINT }

  /** A writer that has put bytes since its last wakeup returns because nobody reads
      or it was killed. */
  predicate LeavesNews(s: Sys, p: nat, a: Act)
    requires p < |s.pcs|
  {
    HasNews(s.pcs[p]) && s.pcs[p].i < |s.pcs[p].src| && (!s.readopen || a == Killed)
  }

  predicate Enabled(s: Sys, p: nat, a: Act)
    requires p < |s.pcs|
  {
    match s.pcs[p]
    case Idle => a.Write? || a.Read? || a.Close?
    case WEnter(_, _) => a == Go && s.lock == NONE
    case WLoop(src, i, _) =>
      i <= |src| && (a == Go || (i < |src| && (a == Killed || (a == CopyFails && s.readopen && !IsFull(s)))))
    case WFull(_, _) => a == Go
    case WAsleep(_, _) => a == Wakes
    case WEnd(_, _, _) => a == Go
    case REnter(_) => a == Go && s.lock == NONE
    case RLoop(_) => a == Go || (a == Killed && IsEmpty(s) && s.writeopen)
    case RAsleep(_) => a == Wakes
    case RCopy(n, dst, _) =>
      |s.data| == PIPESIZE && |dst| <= n && (a == Go || (a == CopyFails && |dst| < n && !IsEmpty(s)))
    case REnd(_, _) => a == Go
    case CEnter(_) => a == Go && s.lock == NONE
    case CSet(_) => a == Go
    case CWake(_) => a == Go
    case Unlock(_) => a == Go
  }

  /** What a step changes: the process itself, who is woken, and the pipe. */
  datatype Effect = Effect(
    mine: Pc, lock: int, wakeReaders: bool, wakeWriters: bool, io: Io, readopen: bool, writeopen: bool)

  datatype Io = None | Put(ch: Byte) | Take

  function Goto(s: Sys, pc: Pc): Effect {
    Effect(pc, s.lock, false, false, None, s.readopen, s.writeopen)
  }

  function WriterStep(s: Sys, p: nat, a: Act): (e: Effect)
    requires p < |s.pcs| && Enabled(s, p, a) && IsWriter(s.pcs[p])
    ensures e.lock == NONE || e.lock == p || e.lock == s.lock
    ensures (e.io.Put? ==> !IsFull(s)) && (e.io.Take? ==> !IsEmpty(s))
    ensures (e.mine.RAsleep? ==> s.pcs[p].RLoop? && IsEmpty(s)) && (e.mine.WAsleep? ==> s.pcs[p].WFull?)
  {
    match s.pcs[p]
    case WEnter(src, i) => Goto(s, WLoop(src, i, false)).(lock := p)
    case WLoop(src, i, news) =>
      if i == |src| then Goto(s, WEnd(src, i, news))
      else if !s.readopen || a == Killed then Goto(s, Unlock(-1))
      else if IsFull(s) then Goto(s, WFull(src, i)).(wakeReaders := true)
      else if a == CopyFails then Goto(s, WEnd(src, i, news))
      else Goto(s, WLoop(src, i + 1, true)).(io := Put(src[i]))
    case WFull(src, i) => Goto(s, WAsleep(src, i)).(lock := NONE)
    case WAsleep(src, i) => Goto(s, WEnter(src, i))
    case WEnd(_, i, _) => Goto(s, Unlock(i)).(wakeReaders := true)
  }

  function ReaderStep(s: Sys, p: nat, a: Act): (e: Effect)
    requires p < |s.pcs| && Enabled(s, p, a) && IsReader(s.pcs[p])
    ensures e.lock == NONE || e.lock == p || e.lock == s.lock
    ensures (e.io.Put? ==> !IsFull(s)) && (e.io.Take? ==> !IsEmpty(s))
    ensures (e.mine.RAsleep? ==> s.pcs[p].RLoop? && IsEmpty(s)) && (e.mine.WAsleep? ==> s.pcs[p].WFull?)
  {
    match s.pcs[p]
    case REnter(n) => Goto(s, RLoop(n)).(lock := p)
    case RLoop(n) =>
      if IsEmpty(s) && s.writeopen then
        if a == Killed then Goto(s, Unlock(-1)) else Goto(s, RAsleep(n)).(lock := NONE)
      else Goto(s, RCopy(n, [], false))
    case RAsleep(n) => Goto(s, REnter(n))
    case RCopy(n, dst, took) =>
      if |dst| == n || IsEmpty(s) then Goto(s, REnd(dst, took))
      else if a == CopyFails then Goto(s, REnd(dst, true)).(io := Take)
      else Goto(s, RCopy(n, dst + [s.data[s.nread % PIPESIZE]], true)).(io := Take)
    case REnd(dst, _) => Goto(s, Unlock(|dst|)).(wakeWriters := true)
  }

  function OtherStep(s: Sys, p: nat, a: Act): (e: Effect)
    requires p < |s.pcs| && Enabled(s, p, a) && !IsWriter(s.pcs[p]) && !IsReader(s.pcs[p])
    ensures e.lock == NONE || e.lock == p || e.lock == s.lock
    ensures (e.io.Put? ==> !IsFull(s)) && (e.io.Take? ==> !IsEmpty(s))
    ensures (e.mine.RAsleep? ==> s.pcs[p].RLoop? && IsEmpty(s)) && (e.mine.WAsleep? ==> s.pcs[p].WFull?)
  {
    match s.pcs[p]
    case Idle => Goto(s, if a.Write? then WEnter(a.src, 0) else if a.Read? then REnter(a.n) else CEnter(a.writable))
    case CEnter(w) => Goto(s, CSet(w)).(lock := p)
    case CSet(w) => if w then Goto(s, CWake(w)).(writeopen := false) else Goto(s, CWake(w)).(readopen := false)
    case CWake(w) => if w then Goto(s, Unlock(0)).(wakeReaders := true) else Goto(s, Unlock(0)).(wakeWriters := true)
    case Unlock(_) => Goto(s, Idle).(lock := NONE)
  }

  function Step(s: Sys, p: nat, a: Act): (e: Effect)
    requires p < |s.pcs| && Enabled(s, p, a)
    ensures e.lock == NONE || e.lock == p || e.lock == s.lock
    ensures (e.io.Put? ==> !IsFull(s)) && (e.io.Take? ==> !IsEmpty(s))
    ensures (e.mine.RAsleep? ==> s.pcs[p].RLoop? && IsEmpty(s)) && (e.mine.WAsleep? ==> s.pcs[p].WFull?)
  {
    if IsWriter(s.pcs[p]) then WriterStep(s, p, a)
    else if IsReader(s.pcs[p]) then ReaderStep(s, p, a)
    else OtherStep(s, p, a)
  }

  /** wakeup(): a sleeper goes back to acquire the lock. */
  function Woken(pc: Pc, readers: bool, writers: bool): Pc {
    if pc.RAsleep? && readers then REnter(pc.n) else if pc.WAsleep? && writers then WEnter(pc.src, pc.i) else pc
  }

  /** pi->data[pi->nwrite++ % PIPESIZE] = ch, or ch = pi->data[pi->nread++ % PIPESIZE]. */
  function Move(s: Sys, io: Io): Sys
    requires |s.data| == PIPESIZE
  {
    match io
    case None => s
    case Put(ch) => s.(data := s.data[s.nwrite % PIPESIZE := ch], nwrite := (s.nwrite + 1) % UINT, put := s.put + [ch])
    case Take => s.(nread := (s.nread + 1) % UINT, taken := s.taken + [s.data[s.nread % PIPESIZE]])
  }

  function Next(s: Sys, p: nat, a: Act): Sys
    requires p < |s.pcs| && |s.data| == PIPESIZE && Enabled(s, p, a)
  {
    var e := Step(s, p, a);
    var pcs := seq(|s.pcs|, i requires 0 <= i < |s.pcs| => Woken(s.pcs[i], e.wakeReaders, e.wakeWriters));
    var t := Move(s, e.io);
    t.(pcs := pcs[p := e.mine], lock := e.lock, readopen := e.readopen, writeopen := e.writeopen,
       lost := (s.lost || LeavesNews(s, p, a)) && !e.wakeReaders && !IsEmpty(t))
  }

  /** pipealloc */
  ghost predicate Start(s: Sys) {
    && s.lock == NONE && |s.data| == PIPESIZE && s.nread == 0 && s.nwrite == 0 && s.readopen && s.writeopen
    && s.put == [] && s.taken == [] && !s.lost
    && forall i :: 0 <= i < |s.pcs| ==> s.pcs[i] == Idle
  }

  // ---- the ring

  /** The ring holds the bytes put and not yet taken. */
  ghost predicate Ring(s: Sys) {
    && |s.data| == PIPESIZE && s.nread == |s.taken| % UINT && s.nwrite == |s.put| % UINT
    && |s.taken| <= |s.put| <= |s.taken| + PIPESIZE && s.taken <= s.put
    && forall k :: |s.taken| <= k < |s.put| ==> s.data[k % PIPESIZE] == s.put[k]
  }

  lemma EmptyMeans(s: Sys)
    requires Ring(s)
    ensures IsEmpty(s) <==> |s.put| == |s.taken|
  {
    ModSame(|s.taken|, |s.put| - |s.taken|, 0);
  }

  lemma FullMeans(s: Sys)
    requires Ring(s)
    ensures IsFull(s) <==> |s.put| == |s.taken| + PIPESIZE
  {
    ModSame(|s.taken|, |s.put| - |s.taken|, PIPESIZE);
    ModAdd(|s.taken|, PIPESIZE);
  }

  lemma ModAdd(x: nat, d: nat)
    requires d <= PIPESIZE
    ensures (x + d) % UINT == (x % UINT + d) % UINT
  {
  }

  /** Counters within PIPESIZE of each other agree only if they are the same. */
  lemma ModSame(x: nat, d: nat, e: nat)
    requires d <= PIPESIZE && e <= PIPESIZE
    ensures (x + d) % UINT == (x + e) % UINT <==> d == e
  {
  }

  lemma ModSlot(x: nat)
    ensures x % UINT % PIPESIZE == x % PIPESIZE
  {
  }

  lemma SlotsDiffer(k: nat, n: nat)
    requires k < n < k + PIPESIZE
    ensures k % PIPESIZE != n % PIPESIZE
  {
  }

  lemma PutRing(s: Sys, ch: Byte)
    requires Ring(s) && !IsFull(s)
    ensures Ring(Move(s, Put(ch))) && !IsEmpty(Move(s, Put(ch)))
  {
    FullMeans(s);
    ModAdd(|s.put|, 1);
    ModSlot(|s.put|);
    var t := Move(s, Put(ch));
    forall k | |t.taken| <= k < |t.put| ensures t.data[k % PIPESIZE] == t.put[k] {
      if k < |s.put| { SlotsDiffer(k, |s.put|); }
    }
    EmptyMeans(t);
  }

  lemma TakeRing(s: Sys)
    requires Ring(s) && !IsEmpty(s)
    ensures Ring(Move(s, Take)) && !IsFull(Move(s, Take))
  {
    EmptyMeans(s);
    ModAdd(|s.taken|, 1);
    ModSlot(|s.taken|);
    assert s.data[|s.taken| % PIPESIZE] == s.put[|s.taken|];
    FullMeans(Move(s, Take));
  }

  // ---- the invariant

  predicate Inside(pc: Pc) {
    pc.WLoop? || pc.WFull? || pc.WEnd? || pc.RLoop? || pc.RCopy? || pc.REnd? || pc.CSet? || pc.CWake? || pc.Unlock?
  }

  /** What sleepers depend on; h is where the lock's holder is. */
  datatype View = View(empty: bool, full: bool, readopen: bool, writeopen: bool, lost: bool, h: Pc)

  function Look(s: Sys): View {
    View(IsEmpty(s), IsFull(s), s.readopen, s.writeopen, s.lost, if 0 <= s.lock < |s.pcs| then s.pcs[s.lock] else Idle)
  }

  /** A reader may be asleep: there is nothing to read, or the holder of the lock is
      about to wake it, or a writer has left bytes unannounced. */
  predicate ReaderMaySleep(v: View) {
    && !v.h.WFull? && (v.writeopen || v.h == CWake(true))
    && (v.lost || v.empty || (v.h.WLoop? && v.h.news) || (v.h.WEnd? && v.h.news))
  }

  predicate WriterMaySleep(v: View) {
    (v.readopen && v.full) || (v.h.RCopy? && v.h.took) || (v.h.REnd? && v.h.took) || v.h == CWake(false)
  }

  predicate ProcOk(pc: Pc, holds: bool, v: View) {
    && (holds <==> Inside(pc))
    && (pc.RAsleep? ==> ReaderMaySleep(v)) && (pc.WAsleep? ==> WriterMaySleep(v))
    && (pc.WLoop? && pc.news ==> !v.empty) && (pc.WFull? ==> v.readopen && v.full)
  }

  ghost predicate Inv(s: Sys) {
    && Ring(s) && NONE <= s.lock < |s.pcs| && (s.lost ==> !IsEmpty(s))
    && (forall i :: 0 <= i < |s.pcs| ==> ProcOk(s.pcs[i], s.lock == i, Look(s)))
    && (forall i, k :: 0 <= i < |s.pcs| && 0 <= k < |s.pcs| ==> !(s.pcs[i].RAsleep? && s.pcs[k].WAsleep?))
  }

  lemma StartInv(s: Sys)
    requires Start(s)
    ensures Inv(s)
  {
  }

  lemma RingSame(s: Sys, t: Sys)
    requires Ring(s) && t.data == s.data && t.nread == s.nread && t.nwrite == s.nwrite
    requires t.put == s.put && t.taken == s.taken
    ensures Ring(t) && IsEmpty(t) == IsEmpty(s) && IsFull(t) == IsFull(s)
  {
  }

  /** How full the pipe is after the step. */
  lemma NextRing(s: Sys, p: nat, a: Act)
    requires Ring(s) && p < |s.pcs| && Enabled(s, p, a)
    ensures var t, e := Next(s, p, a), Step(s, p, a);
            && Ring(t) && (e.io.Put? ==> !IsEmpty(t)) && (e.io.Take? ==> !IsFull(t))
            && (e.io == None ==> IsEmpty(t) == IsEmpty(s) && IsFull(t) == IsFull(s))
            && IsEmpty(t) == IsEmpty(Move(s, e.io))
  {
    hide Ring, IsEmpty, IsFull, Move, Step, Enabled;
    var e := Step(s, p, a);
    HasData(s);
    if e.io.Put? { PutRing(s, e.io.ch); } else if e.io.Take? { TakeRing(s); }
    NothingMoves(s);
    RingSame(Move(s, e.io), Next(s, p, a));
  }

  lemma NothingMoves(s: Sys)
    requires Ring(s)
    ensures |s.data| == PIPESIZE && Move(s, None) == s
  {
  }

  lemma HasData(s: Sys)
    requires Ring(s)
    ensures |s.data| == PIPESIZE && !(IsEmpty(s) && IsFull(s))
  {
    EmptyMeans(s);
    FullMeans(s);
  }

  /** What the step makes of the view. */
  ghost predicate NextView(v: View, e: Effect, leaves: bool, p: nat, v': View) {
    && v'.readopen == e.readopen && v'.writeopen == e.writeopen
    && v'.lost == ((v.lost || leaves) && !e.wakeReaders && !v'.empty)
    && (e.io.Put? ==> !v'.empty) && (e.io.Take? ==> !v'.full)
    && (e.io == None ==> v'.empty == v.empty && v'.full == v.full)
    && v'.h == if e.lock == p then e.mine else if e.lock == NONE then Idle else v.h
  }

  lemma StepView(s: Sys, p: nat, a: Act)
    requires Inv(s) && p < |s.pcs| && Enabled(s, p, a)
    ensures |s.data| == PIPESIZE && NextView(Look(s), Step(s, p, a), LeavesNews(s, p, a), p, Look(Next(s, p, a)))
    ensures NONE <= Step(s, p, a).lock < |s.pcs| && (Step(s, p, a).lock in {NONE, p, s.lock})
  {
    hide Inv, Ring, IsEmpty, IsFull, Move, Step, Enabled, Woken, LeavesNews;
    var e := Step(s, p, a);
    HolderStays(s, e.wakeReaders, e.wakeWriters);
    NextRing(s, p, a);
    SameFlags(s, e.io);
  }

  /** The lock's holder is not asleep. */
  lemma HolderStays(s: Sys, readers: bool, writers: bool)
    requires Inv(s)
    ensures Ring(s) && |s.data| == PIPESIZE && NONE <= s.lock < |s.pcs|
    ensures s.lock != NONE ==> Woken(s.pcs[s.lock], readers, writers) == s.pcs[s.lock]
  {
    hide Ring, IsEmpty, IsFull;
    HasData(s);
    assert s.lock != NONE ==> ProcOk(s.pcs[s.lock], true, Look(s));
  }

  lemma SameFlags(s: Sys, io: Io)
    requires |s.data| == PIPESIZE
    ensures var t := Move(s, io); t.pcs == s.pcs && t.lock == s.lock
  {
  }

  lemma KeepsMineWriter(s: Sys, p: nat, a: Act, v: View, v': View)
    requires p < |s.pcs| && Enabled(s, p, a) && ProcOk(s.pcs[p], s.lock == p, v) && v == Look(s)
    requires NextView(v, Step(s, p, a), LeavesNews(s, p, a), p, v')
    requires IsWriter(s.pcs[p])
    ensures ProcOk(Step(s, p, a).mine, Step(s, p, a).lock == p, v')
  {
    hide ReaderStep, OtherStep, IsEmpty, IsFull;
  }

  lemma KeepsMineReader(s: Sys, p: nat, a: Act, v: View, v': View)
    requires p < |s.pcs| && Enabled(s, p, a) && ProcOk(s.pcs[p], s.lock == p, v) && v == Look(s)
    requires NextView(v, Step(s, p, a), LeavesNews(s, p, a), p, v')
    requires IsReader(s.pcs[p])
    ensures ProcOk(Step(s, p, a).mine, Step(s, p, a).lock == p, v')
  {
    hide WriterStep, OtherStep, IsEmpty, IsFull;
  }

  lemma KeepsMineNeither(s: Sys, p: nat, a: Act, v: View, v': View)
    requires p < |s.pcs| && Enabled(s, p, a) && ProcOk(s.pcs[p], s.lock == p, v) && v == Look(s)
    requires NextView(v, Step(s, p, a), LeavesNews(s, p, a), p, v')
    requires !IsWriter(s.pcs[p]) && !IsReader(s.pcs[p])
    ensures ProcOk(Step(s, p, a).mine, Step(s, p, a).lock == p, v')
  {
    hide WriterStep, ReaderStep, IsEmpty, IsFull;
  }

  lemma KeepsMine(s: Sys, p: nat, a: Act, v: View, v': View)
    requires p < |s.pcs| && Enabled(s, p, a) && ProcOk(s.pcs[p], s.lock == p, v) && v == Look(s)
    requires NextView(v, Step(s, p, a), LeavesNews(s, p, a), p, v')
    ensures ProcOk(Step(s, p, a).mine, Step(s, p, a).lock == p, v')
  {
    hide ProcOk, Step, Enabled, NextView, Look;
    if IsWriter(s.pcs[p]) {
      KeepsMineWriter(s, p, a, v, v');
    } else if IsReader(s.pcs[p]) {
      KeepsMineReader(s, p, a, v, v');
    } else {
      KeepsMineNeither(s, p, a, v, v');
    }
  }

  lemma KeepsOtherWriter(s: Sys, p: nat, a: Act, i: nat, v: View, v': View)
    requires p < |s.pcs| && i < |s.pcs| && i != p && Enabled(s, p, a) && v == Look(s)
    requires NextView(v, Step(s, p, a), LeavesNews(s, p, a), p, v')
    requires ProcOk(s.pcs[p], s.lock == p, v) && ProcOk(s.pcs[i], s.lock == i, v)
    requires IsWriter(s.pcs[p])
    ensures var e := Step(s, p, a); ProcOk(Woken(s.pcs[i], e.wakeReaders, e.wakeWriters), e.lock == i, v')
  {
    hide ReaderStep, OtherStep, IsEmpty, IsFull;
  }

  lemma KeepsOtherReader(s: Sys, p: nat, a: Act, i: nat, v: View, v': View)
    requires p < |s.pcs| && i < |s.pcs| && i != p && Enabled(s, p, a) && v == Look(s)
    requires NextView(v, Step(s, p, a), LeavesNews(s, p, a), p, v')
    requires ProcOk(s.pcs[p], s.lock == p, v) && ProcOk(s.pcs[i], s.lock == i, v)
    requires IsReader(s.pcs[p])
    ensures var e := Step(s, p, a); ProcOk(Woken(s.pcs[i], e.wakeReaders, e.wakeWriters), e.lock == i, v')
  {
    hide WriterStep, OtherStep, IsEmpty, IsFull;
  }

  lemma KeepsOtherNeither(s: Sys, p: nat, a: Act, i: nat, v: View, v': View)
    requires p < |s.pcs| && i < |s.pcs| && i != p && Enabled(s, p, a) && v == Look(s)
    requires NextView(v, Step(s, p, a), LeavesNews(s, p, a), p, v')
    requires ProcOk(s.pcs[p], s.lock == p, v) && ProcOk(s.pcs[i], s.lock == i, v)
    requires !IsWriter(s.pcs[p]) && !IsReader(s.pcs[p])
    ensures var e := Step(s, p, a); ProcOk(Woken(s.pcs[i], e.wakeReaders, e.wakeWriters), e.lock == i, v')
  {
    hide WriterStep, ReaderStep, IsEmpty, IsFull;
  }

  lemma KeepsOther(s: Sys, p: nat, a: Act, i: nat, v: View, v': View)
    requires p < |s.pcs| && i < |s.pcs| && i != p && Enabled(s, p, a) && v == Look(s)
    requires NextView(v, Step(s, p, a), LeavesNews(s, p, a), p, v')
    requires ProcOk(s.pcs[p], s.lock == p, v) && ProcOk(s.pcs[i], s.lock == i, v)
    ensures var e := Step(s, p, a); ProcOk(Woken(s.pcs[i], e.wakeReaders, e.wakeWriters), e.lock == i, v')
  {
    hide ProcOk, Step, Enabled, NextView, Look;
    if IsWriter(s.pcs[p]) {
      KeepsOtherWriter(s, p, a, i, v, v');
    } else if IsReader(s.pcs[p]) {
      KeepsOtherReader(s, p, a, i, v, v');
    } else {
      KeepsOtherNeither(s, p, a, i, v, v');
    }
  }

  /** Going to sleep finds nobody of the other kind asleep. */
  lemma KeepsApart(s: Sys, p: nat, a: Act, i: nat, v: View)
    requires p < |s.pcs| && i < |s.pcs| && i != p && Enabled(s, p, a) && v == Look(s) && !(v.empty && v.full)
    requires ProcOk(s.pcs[p], s.lock == p, v) && ProcOk(s.pcs[i], s.lock == i, v)
    ensures Step(s, p, a).mine.RAsleep? ==> !s.pcs[i].WAsleep?
    ensures Step(s, p, a).mine.WAsleep? ==> !s.pcs[i].RAsleep?
  {
    hide IsEmpty, IsFull, Step, Enabled;
    GoesToSleep(s, p, a);
  }

  lemma GoesToSleep(s: Sys, p: nat, a: Act)
    requires p < |s.pcs| && Enabled(s, p, a)
    ensures Step(s, p, a).mine.RAsleep? ==> s.pcs[p].RLoop? && IsEmpty(s)
    ensures Step(s, p, a).mine.WAsleep? ==> s.pcs[p].WFull?
  {
    hide IsEmpty, IsFull, Step, Enabled;
  }

  lemma StepInv(s: Sys, p: nat, a: Act)
    requires Inv(s) && p < |s.pcs| && Enabled(s, p, a)
    ensures |s.data| == PIPESIZE && Inv(Next(s, p, a))
  {
    hide Ring, Step, ProcOk, Enabled, Look, Move, IsEmpty, IsFull;
    HasData(s);
    StepView(s, p, a);
    NextRing(s, p, a);
    LookFlags(s);
    var t, e, v := Next(s, p, a), Step(s, p, a), Look(s);
    SameFlags(s, e.io);
    KeepsMine(s, p, a, v, Look(t));
    forall i: nat | i < |t.pcs| && i != p ensures ProcOk(t.pcs[i], t.lock == i, Look(t)) {
      KeepsOther(s, p, a, i, v, Look(t));
    }
    forall i: nat | i < |t.pcs| && i != p
      ensures (e.mine.RAsleep? ==> !s.pcs[i].WAsleep?) && (e.mine.WAsleep? ==> !s.pcs[i].RAsleep?)
    {
      KeepsApart(s, p, a, i, v);
    }
  }

  lemma LookFlags(s: Sys)
    ensures Look(s).empty == IsEmpty(s) && Look(s).full == IsFull(s)
  {
  }

  // ---- whole runs

  datatype Turn = Turn(p: nat, a: Act)

  ghost predicate Takes(s: Sys, m: Turn, t: Sys) {
    m.p < |s.pcs| && |s.data| == PIPESIZE && Enabled(s, m.p, m.a) && t == Next(s, m.p, m.a)
  }

  ghost predicate Execution(turns: seq<Turn>, states: seq<Sys>) {
    && |states| == |turns| + 1 && Start(states[0])
    && forall j :: 0 <= j < |turns| ==> Takes(states[j], turns[j], states[j + 1])
  }

  lemma {:induction false} RunInv(turns: seq<Turn>, states: seq<Sys>, k: nat)
    requires Execution(turns, states) && k < |states|
    ensures Inv(states[k])
  {
    hide Inv, Next, Enabled, Start;
    if k == 0 {
      StartInv(states[0]);
    } else {
      RunInv(turns, states, k - 1);
      assert Takes(states[k - 1], turns[k - 1], states[k - 1 + 1]);
      StepInv(states[k - 1], turns[k - 1].p, turns[k - 1].a);
    }
  }

  /** Bytes come out in the order they went in, none lost, with at most PIPESIZE
      under way, however far the counters have wrapped. */
  lemma BoundedFifo(turns: seq<Turn>, states: seq<Sys>, k: nat)
    requires Execution(turns, states) && k < |states|
    ensures states[k].taken <= states[k].put && |states[k].put| <= |states[k].taken| + PIPESIZE
  {
    hide Execution;
    RunInv(turns, states, k);
  }

  /** With the lock free, a sleeping writer means a full pipe that is still read. */
  lemma SleepingWriterMeansFull(turns: seq<Turn>, states: seq<Sys>, k: nat, i: nat)
    requires Execution(turns, states) && k < |states|
    requires i < |states[k].pcs| && states[k].lock == NONE && states[k].pcs[i].WAsleep?
    ensures |states[k].put| == |states[k].taken| + PIPESIZE && states[k].readopen
  {
    hide Execution;
    RunInv(turns, states, k);
    FullMeans(states[k]);
  }

  /** A reader and a writer are never both asleep. */
  lemma NeverBothAsleep(turns: seq<Turn>, states: seq<Sys>, k: nat, i: nat, j: nat)
    requires Execution(turns, states) && k < |states| && i < |states[k].pcs| && j < |states[k].pcs|
    ensures !(states[k].pcs[i].RAsleep? && states[k].pcs[j].WAsleep?)
  {
    hide Execution, Ring, ProcOk;
    RunInv(turns, states, k);
  }

  // ---- bytes left unannounced

  /** The turn is a pipewrite that returns early with bytes put since its last wakeup. */
  ghost predicate Leaves(s: Sys, m: Turn) {
    m.p < |s.pcs| && LeavesNews(s, m.p, m.a)
  }

  /** The turn calls wakeup(&pi->nread). */
  ghost predicate Announces(s: Sys, m: Turn) {
    m.p < |s.pcs| && Enabled(s, m.p, m.a) && Step(s, m.p, m.a).wakeReaders
  }

  /** After turn j and up to state k the pipe was never empty and readers were not woken. */
  ghost predicate Quiet(turns: seq<Turn>, states: seq<Sys>, j: nat, k: nat)
    requires k < |states| == |turns| + 1
  {
    forall m :: j < m <= k ==> !IsEmpty(states[m]) && (m < k ==> !Announces(states[m], turns[m]))
  }

  ghost predicate Unannounced(turns: seq<Turn>, states: seq<Sys>, k: nat)
    requires k < |states| == |turns| + 1
  {
    exists j :: 0 <= j < k && Leaves(states[j], turns[j]) && Quiet(turns, states, j, k)
  }

  lemma LostStep(s: Sys, m: Turn, t: Sys)
    requires Ring(s) && Takes(s, m, t)
    ensures t.lost == ((s.lost || Leaves(s, m)) && !Announces(s, m) && !IsEmpty(t))
    ensures Leaves(s, m) ==> !Announces(s, m)
  {
    hide Ring, Step, IsEmpty, Enabled;
    NextRing(s, m.p, m.a);
    if LeavesNews(s, m.p, m.a) { LeavesQuietly(s, m.p, m.a); }
  }

  lemma LeavesQuietly(s: Sys, p: nat, a: Act)
    requires p < |s.pcs| && Enabled(s, p, a) && LeavesNews(s, p, a)
    ensures !Step(s, p, a).wakeReaders
  {
  }

  lemma {:induction false} LostMeans(turns: seq<Turn>, states: seq<Sys>, k: nat)
    requires Execution(turns, states) && k < |states|
    ensures states[k].lost <==> Unannounced(turns, states, k)
  {
    hide Inv, Takes, Leaves, Announces, IsEmpty;
    if k > 0 {
      var i := k - 1;
      LostMeans(turns, states, i);
      assert Takes(states[i], turns[i], states[i + 1]);
      RunRing(turns, states, i);
      LostStep(states[i], turns[i], states[k]);
      if states[k].lost {
        if Leaves(states[i], turns[i]) {
          assert Quiet(turns, states, i, k);
        } else {
          var j :| 0 <= j < i && Leaves(states[j], turns[j]) && Quiet(turns, states, j, i);
          assert Quiet(turns, states, j, k);
        }
      }
      if Unannounced(turns, states, k) {
        var j :| 0 <= j < k && Leaves(states[j], turns[j]) && Quiet(turns, states, j, k);
        if j < i { assert Quiet(turns, states, j, i); }
      }
    }
  }

  lemma RunRing(turns: seq<Turn>, states: seq<Sys>, k: nat)
    requires Execution(turns, states) && k < |states|
    ensures Ring(states[k])
  {
    hide Execution, Ring, ProcOk;
    RunInv(turns, states, k);
  }

  /** With the lock free, a sleeping reader means a pipe that is still written; and it
      means an empty one except exactly when a writer has returned early with bytes it
      had put since its last wakeup, and since then nobody woke the readers and the
      pipe was never drained. */
  lemma SleepingReaderMeansEmpty(turns: seq<Turn>, states: seq<Sys>, k: nat, i: nat)
    requires Execution(turns, states) && k < |states|
    requires i < |states[k].pcs| && states[k].lock == NONE && states[k].pcs[i].RAsleep?
    ensures states[k].writeopen
    ensures states[k].put == states[k].taken <==> !Unannounced(turns, states, k)
  {
    hide Execution, Unannounced;
    RunInv(turns, states, k);
    LostMeans(turns, states, k);
    EmptyMeans(states[k]);
  }

  // ---- a run in which that happens

  /** Two processes, and at most one byte in the pipe. */
  function Stage(reader: Pc, writer: Pc, lock: int, full: bool, lost: bool): Sys {
    var data := seq(PIPESIZE, i => if i == 0 && full then 7 else 0);
    Sys([reader, writer], lock, data, 0, if full then 1 else 0, true, true, if full then [7] else [], [], lost)
  }

  lemma ReaderSleeps()
    ensures Takes(Stage(Idle, Idle, NONE, false, false), Turn(0, Read(1)), Stage(REnter(1), Idle, NONE, false, false))
    ensures Takes(Stage(REnter(1), Idle, NONE, false, false), Turn(0, Go), Stage(RLoop(1), Idle, 0, false, false))
    ensures Takes(Stage(RLoop(1), Idle, 0, false, false), Turn(0, Go), Stage(RAsleep(1), Idle, NONE, false, false))
  {
  }

  lemma WriterPuts()
    ensures Takes(Stage(RAsleep(1), Idle, NONE, false, false), Turn(1, Write([7, 8])),
                  Stage(RAsleep(1), WEnter([7, 8], 0), NONE, false, false))
    ensures Takes(Stage(RAsleep(1), WEnter([7, 8], 0), NONE, false, false), Turn(1, Go),
                  Stage(RAsleep(1), WLoop([7, 8], 0, false), 1, false, false))
    ensures Takes(Stage(RAsleep(1), WLoop([7, 8], 0, false), 1, false, false), Turn(1, Go),
                  Stage(RAsleep(1), WLoop([7, 8], 1, true), 1, true, false))
  {
  }

  lemma WriterLeaves()
    ensures Takes(Stage(RAsleep(1), WLoop([7, 8], 1, true), 1, true, false), Turn(1, Killed),
                  Stage(RAsleep(1), Unlock(-1), 1, true, true))
    ensures Takes(Stage(RAsleep(1), Unlock(-1), 1, true, true), Turn(1, Go), Stage(RAsleep(1), Idle, NONE, true, true))
  {
  }

  /** A reader goes to sleep; a writer puts one of two bytes and is killed; the reader
      stays asleep with a byte to read. */
  lemma ReaderCanBeStranded() returns (turns: seq<Turn>, states: seq<Sys>)
    ensures Execution(turns, states) && |turns| == 8 && states[8] == Stage(RAsleep(1), Idle, NONE, true, true)
    ensures states[8].lock == NONE && states[8].pcs[0].RAsleep? && states[8].put != states[8].taken
  {
    hide Takes;
    ReaderSleeps();
    WriterPuts();
    WriterLeaves();
    var w := [7, 8];
    turns := [Turn(0, Read(1)), Turn(0, Go), Turn(0, Go),
              Turn(1, Write(w)), Turn(1, Go), Turn(1, Go), Turn(1, Killed), Turn(1, Go)];
    states := [Stage(Idle, Idle, NONE, false, false), Stage(REnter(1), Idle, NONE, false, false),
               Stage(RLoop(1), Idle, 0, false, false), Stage(RAsleep(1), Idle, NONE, false, false),
               Stage(RAsleep(1), WEnter(w, 0), NONE, false, false),
               Stage(RAsleep(1), WLoop(w, 0, false), 1, false, false),
               Stage(RAsleep(1), WLoop(w, 1, true), 1, true, false), Stage(RAsleep(1), Unlock(-1), 1, true, true),
               Stage(RAsleep(1), Idle, NONE, true, true)];
  }
}
