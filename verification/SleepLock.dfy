/** Sleep locks: acquiresleep() and releasesleep() as code run by the threads of
    Sched.  Channel ch is the sleep lock, its condition is "not locked", and g[ch]
    is the spinlock lk inside it.  Threads call acquiresleep whenever they like and
    releasesleep when they own the lock; everything else they do is arbitrary. */
module SleepLock {
  import opened Base
  import opened Sched

  /** Where a thread is in the two functions: the action it performs next. */
  datatype Code =
    | Out       // in neither
    | Testing   // while(lk->locked)
    | Waiting   // sleep(lk, &lk->lk)
    | Taking    // lk->locked = 1
    | Taken     // release(&lk->lk)
    | Giving    // lk->locked = 0
    | Waking    // wakeup(lk)
    | Given     // release(&lk->lk)

  datatype State = State(
    sys: Sys,
    code: seq<Code>,    // by thread
    owns: seq<bool>)    // by thread: has returned from acquiresleep, or set locked there,
                        // and not cleared it in releasesleep since

  ghost predicate Fits(g: Config, ch: nat, x: State) {
    Shape(g, x.sys) && |x.code| == |x.owns| == |x.sys.pc| && ch < |g|
  }

  /** The spinlock in a sleep lock guards nothing else. */
  ghost predicate Private(g: Config, ch: nat) {
    ch < |g| && forall d :: 0 <= d < |g| && d != ch ==> g[d] != g[ch]
  }

  // ---- steps

  /** The loop's test; it changes nothing but where the thread is. */
  ghost predicate TestStep(g: Config, ch: nat, x: State, c: nat, p: nat, y: State) {
    && Fits(g, ch, x) && OnCpu(g, x.sys, c, p) && x.code[p] == Testing
    && x.sys.pc[p].Client? && x.sys.back[p].Client?
    && y == x.(code := x.code[p := if x.sys.cond[ch] then Taking else Waiting])
  }

  /** What thread p's action a does to where it is and whether it owns the lock; a
      handler that interrupts it uses neither function. */
  ghost predicate Moves(g: Config, ch: nat, x: State, p: nat, a: Act, code: Code, owns: bool)
    requires Fits(g, ch, x) && p < |x.code|
  {
    if a == Go || a == Interrupt || !x.sys.back[p].Client? then
      code == x.code[p] && owns == x.owns[p] && a != Lock(g[ch])
    else
      match x.code[p]
      case Out =>
        && owns == x.owns[p]
        && if a != Lock(g[ch]) then code == Out
           else x.sys.pc[p].Client? && ((code == Testing && p < |x.sys.pstate|) || (code == Giving && x.owns[p]))
      case Testing => false
      case Waiting => a == SleepOn(ch) && code == Testing && owns == x.owns[p]
      case Taking => a == Set(ch, false) && code == Taken && owns
      case Taken => a == Unlock(g[ch]) && code == Out && owns == x.owns[p]
      case Giving => a == Set(ch, true) && code == Waking && !owns
      case Waking => a == StartScan(Wakeup(ch), 0) && code == Given && owns == x.owns[p]
      case Given => a == Unlock(g[ch]) && code == Out && owns == x.owns[p]
  }

  ghost predicate ThreadStep(g: Config, ch: nat, x: State, c: nat, p: nat, a: Act, y: State) {
    && Fits(g, ch, x) && Fits(g, ch, y) && OnCpu(g, x.sys, c, p) && SameShape(g, x.sys, y.sys)
    && Sched.Step(g, x.sys, c, a, y.sys)
    && Moves(g, ch, x, p, a, y.code[p], y.owns[p])
    && y.code == x.code[p := y.code[p]] && y.owns == x.owns[p := y.owns[p]]
  }

  ghost predicate OtherStep(g: Config, ch: nat, x: State, c: nat, a: Act, y: State) {
    && Fits(g, ch, x) && Fits(g, ch, y) && c < |x.sys.cpu| && !x.sys.cpu[c].Run? && SameShape(g, x.sys, y.sys)
    && Sched.Step(g, x.sys, c, a, y.sys) && y.code == x.code && y.owns == x.owns
  }

  ghost predicate Next(g: Config, ch: nat, x: State, c: nat, a: Act, y: State) {
    || OtherStep(g, ch, x, c, a, y)
    || (c < |x.sys.cpu| && x.sys.cpu[c].Run? &&
        (TestStep(g, ch, x, c, x.sys.cpu[c].i, y) || ThreadStep(g, ch, x, c, x.sys.cpu[c].i, a, y)))
  }

  // ---- the invariant

  /** In sleep() on the channel, with lk given up or about to be. */
  predicate InSleep(pc: Pc, ch: nat) {
    Sleeping(pc) && pc.ch == ch
  }

  /** In sleep() on the channel, with lk given up. */
  predicate GaveUp(pc: Pc, ch: nat) {
    InSleep(pc, ch) && !pc.SleepAcquire? && !pc.SleepUnlock?
  }

  /** Where the thread is, or was interrupted. */
  function Where(s: Sys, p: nat): Pc
    requires p < |s.pc| == |s.back|
  {
    if s.back[p].Client? then s.pc[p] else s.back[p]
  }

  predicate InWakeup(pc: Pc, ch: nat) {
    (pc.ScanAcquire? || pc.ScanAct? || pc.ScanRelease?) && pc.op == Wakeup(ch)
  }

  predicate Place(code: Code, pc: Pc, ch: nat) {
    match code
    case Out => !InSleep(pc, ch)
    case Testing => pc.Client? || InSleep(pc, ch)
    case Given => pc.Client? || InWakeup(pc, ch)
    case _ => pc.Client?
  }

  ghost predicate CodeOk(g: Config, ch: nat, x: State, p: nat)
    requires Fits(g, ch, x) && p < |x.code|
  {
    && Place(x.code[p], Where(x.sys, p), ch)
    && (!x.code[p].Out? || x.owns[p] ==> p < |x.sys.pstate|)
    && (!x.code[p].Out? && !GaveUp(Where(x.sys, p), ch) ==>
          x.sys.back[p].Client? && x.sys.on[p] >= 0 && x.sys.lock[g[ch]] == By(x.sys.on[p]))
    && (x.code[p].Waiting? ==> !x.sys.cond[ch])
    && (x.code[p].Taking? ==> x.sys.cond[ch])
    && (x.code[p].Giving? ==> x.owns[p])
    && (x.code[p].Taken? ==> x.owns[p])
    && (x.code[p].Waking? || x.code[p].Given? ==> !x.owns[p])
  }

  /** Whoever holds lk is in one of the two functions, and not in sleep(). */
  ghost predicate HolderOk(g: Config, ch: nat, x: State)
    requires Fits(g, ch, x)
  {
    x.sys.lock[g[ch]].By? ==>
      var c := x.sys.lock[g[ch]].cpu;
      && c < |x.sys.cpu| && x.sys.cpu[c].Run? && x.sys.cpu[c].i < |x.code|
      && var p := x.sys.cpu[c].i;
         !x.code[p].Out? && !GaveUp(Where(x.sys, p), ch)
  }

  /** A wakeup is owed only between releasesleep's assignment and the end of its
      call of wakeup. */
  ghost predicate OwedOk(g: Config, ch: nat, x: State)
    requires Fits(g, ch, x)
  {
    x.sys.owed[ch] ==>
      && x.sys.lock[g[ch]].By?
      && var c := x.sys.lock[g[ch]].cpu;
         && c < |x.sys.cpu| && x.sys.cpu[c].Run? && x.sys.cpu[c].i < |x.code|
         && var p := x.sys.cpu[c].i;
            x.code[p].Waking? || (x.code[p].Given? && !x.sys.pc[p].Client?)
  }

  ghost predicate Exclusive(x: State) {
    forall p, q :: 0 <= p < |x.owns| && 0 <= q < |x.owns| && x.owns[p] && x.owns[q] ==> p == q
  }

  ghost predicate Owned(x: State) {
    exists p :: 0 <= p < |x.owns| && x.owns[p]
  }

  ghost predicate Inv(g: Config, ch: nat, x: State) {
    && Fits(g, ch, x) && Sched.Inv(g, x.sys)
    && (forall p :: 0 <= p < |x.code| ==> CodeOk(g, ch, x, p))
    && HolderOk(g, ch, x) && OwedOk(g, ch, x)
    && Exclusive(x) && (x.sys.cond[ch] <==> !Owned(x))
  }

  // ---- other threads than the one that moves

  /** What CPU c's step leaves alone, seen from thread q and the channel's lock. */
  ghost predicate Local(g: Config, s: Sys, c: nat, t: Sys, q: nat, ch: nat)
    requires Shape(g, s) && Shape(g, t) && SameShape(g, s, t) && ch < |g|
  {
    && (q < |s.pc| ==> t.pc[q] == s.pc[q] || (s.pc[q].Gone? && t.pc[q].Forkret?))
    && (q < |s.pc| ==> t.back[q] == s.back[q])
    && (q < |s.pstate| && s.on[q] != NONE ==> t.on[q] == s.on[q])
    && ChannelLocal(g, s, c, t, ch)
  }

  ghost predicate ChannelLocal(g: Config, s: Sys, c: nat, t: Sys, ch: nat)
    requires Shape(g, s) && Shape(g, t) && ch < |g|
  {
    && (s.lock[g[ch]] != t.lock[g[ch]] ==> s.lock[g[ch]] in {Free, By(c)} && t.lock[g[ch]] in {Free, By(c)})
    && (s.cond[ch] != t.cond[ch] ==> s.lock[g[ch]] == By(c))
    && (t.owed[ch] && !s.owed[ch] ==> s.lock[g[ch]] == By(c))
  }

  ghost predicate CpuLocal(s: Sys, c: nat, t: Sys) {
    |t.cpu| == |s.cpu| && forall d :: 0 <= d < |s.cpu| && d != c && s.cpu[d].Run? ==> t.cpu[d] == s.cpu[d]
  }

  lemma SchedLocal(g: Config, s: Sys, c: nat, a: Act, t: Sys, q: nat, ch: nat)
    requires Sched.Inv(g, s) && SchedStep(g, s, c, a, t) && SameShape(g, s, t) && c < |s.cpu| && ch < |g|
    ensures Local(g, s, c, t, q, ch) && CpuLocal(s, c, t)
  {
    hide Sched.Inv;
    Around(g, s, c);
  }

  lemma SleepLocal(g: Config, s: Sys, c: nat, p: nat, t: Sys, q: nat, ch: nat)
    requires Sched.Inv(g, s) && SleepStep(g, s, c, p, t) && SameShape(g, s, t) && c < |s.cpu| && ch < |g| && q != p
    ensures Local(g, s, c, t, q, ch) && CpuLocal(s, c, t)
  {
    hide Sched.Inv;
    Around(g, s, c);
  }

  lemma LookLocal(g: Config, s: Sys, c: nat, p: nat, t: Sys, q: nat, ch: nat)
    requires Sched.Inv(g, s) && LookStep(g, s, c, p, t) && SameShape(g, s, t) && c < |s.cpu| && ch < |g| && q != p
    ensures Local(g, s, c, t, q, ch) && CpuLocal(s, c, t)
  {
    hide Sched.Inv;
    Around(g, s, c);
  }

  lemma ActLocal(g: Config, s: Sys, c: nat, p: nat, i: nat, t: Sys, q: nat, ch: nat)
    requires Sched.Inv(g, s) && ActStep(g, s, c, p, i, t) && SameShape(g, s, t) && c < |s.cpu| && ch < |g| && q != p
    ensures Local(g, s, c, t, q, ch) && CpuLocal(s, c, t)
  {
    hide Sched.Inv;
    Around(g, s, c);
    if i < |s.pstate| { AroundProc(g, s, i); }
  }

  lemma LeaveLocal(g: Config, s: Sys, c: nat, p: nat, t: Sys, q: nat, ch: nat)
    requires Sched.Inv(g, s) && LeaveStep(g, s, c, p, t) && SameShape(g, s, t) && c < |s.cpu| && ch < |g| && q != p
    ensures Local(g, s, c, t, q, ch) && CpuLocal(s, c, t)
  {
    hide Sched.Inv;
    Around(g, s, c);
  }

  lemma LockLocal(g: Config, s: Sys, c: nat, p: nat, a: Act, t: Sys, q: nat, ch: nat)
    requires Sched.Inv(g, s) && LockStep(g, s, c, p, a, t) && SameShape(g, s, t) && c < |s.cpu| && ch < |g| && q != p
    ensures Local(g, s, c, t, q, ch) && CpuLocal(s, c, t)
  {
    hide Sched.Inv;
    Around(g, s, c);
  }

  lemma CallLocal(g: Config, s: Sys, c: nat, p: nat, a: Act, t: Sys, q: nat, ch: nat)
    requires Sched.Inv(g, s) && CallStep(g, s, c, p, a, t) && SameShape(g, s, t) && c < |s.cpu| && ch < |g| && q != p
    ensures Local(g, s, c, t, q, ch) && CpuLocal(s, c, t)
  {
    hide Sched.Inv;
    Around(g, s, c);
  }

  lemma TrapLocal(g: Config, s: Sys, c: nat, p: nat, a: Act, t: Sys, q: nat, ch: nat)
    requires Sched.Inv(g, s) && TrapStep(g, s, c, p, a, t) && SameShape(g, s, t) && c < |s.cpu| && ch < |g| && q != p
    ensures Local(g, s, c, t, q, ch) && CpuLocal(s, c, t)
  {
    hide Sched.Inv;
    Around(g, s, c);
  }

  lemma ThreadLocal(g: Config, s: Sys, c: nat, p: nat, a: Act, t: Sys, q: nat, ch: nat)
    requires Sched.Inv(g, s) && Sched.Step(g, s, c, a, t) && OnCpu(g, s, c, p) && SameShape(g, s, t) && ch < |g|
    requires q != p
    ensures Local(g, s, c, t, q, ch) && CpuLocal(s, c, t)
  {
    hide Sched.Inv, SchedStep, SleepStep, LookStep, ActStep, LeaveStep, LockStep, CallStep, TrapStep, Local, CpuLocal;
    if SchedStep(g, s, c, a, t) {
      SchedLocal(g, s, c, a, t, q, ch);
    } else if SleepStep(g, s, c, p, t) {
      SleepLocal(g, s, c, p, t, q, ch);
    } else if LookStep(g, s, c, p, t) {
      LookLocal(g, s, c, p, t, q, ch);
    } else if LeaveStep(g, s, c, p, t) {
      LeaveLocal(g, s, c, p, t, q, ch);
    } else if LockStep(g, s, c, p, a, t) {
      LockLocal(g, s, c, p, a, t, q, ch);
    } else if CallStep(g, s, c, p, a, t) {
      CallLocal(g, s, c, p, a, t, q, ch);
    } else if TrapStep(g, s, c, p, a, t) {
      TrapLocal(g, s, c, p, a, t, q, ch);
    } else {
      ActLocal(g, s, c, p, s.pc[p].i, t, q, ch);
    }
  }

  lemma SchedulerLocal(g: Config, s: Sys, c: nat, a: Act, t: Sys, q: nat, ch: nat)
    requires Sched.Inv(g, s) && Sched.Step(g, s, c, a, t) && c < |s.cpu| && !s.cpu[c].Run? && SameShape(g, s, t)
    requires ch < |g|
    ensures Local(g, s, c, t, q, ch) && CpuLocal(s, c, t)
    ensures t.lock == s.lock && t.cond == s.cond && t.owed == s.owed
  {
    hide Sched.Inv;
    SchedLocal(g, s, c, a, t, q, ch);
  }

  /** A thread that does not move keeps its part of the invariant. */
  lemma OthersCode(g: Config, ch: nat, x: State, c: nat, y: State, q: nat)
    requires Fits(g, ch, x) && Fits(g, ch, y) && Sched.Inv(g, x.sys) && c < |x.sys.cpu| && q < |x.code|
    requires SameShape(g, x.sys, y.sys) && Local(g, x.sys, c, y.sys, q, ch) && CodeOk(g, ch, x, q)
    requires x.sys.cpu[c] != Run(q) && y.code[q] == x.code[q] && y.owns[q] == x.owns[q]
    ensures CodeOk(g, ch, y, q)
  {
    hide Sched.Inv;
    if q < |x.sys.pstate| { AroundProc(g, x.sys, q); }
  }

  // ---- the thread that moves

  ghost predicate SelfOk(g: Config, ch: nat, x: State, c: nat, p: nat, y: State)
    requires Fits(g, ch, x) && Fits(g, ch, y) && c < |x.sys.cpu| == |y.sys.cpu| && p < |x.code| == |y.code|
  {
    && CodeOk(g, ch, y, p)
    && (y.sys.lock[g[ch]] == By(c) ==>
          y.sys.cpu[c] == Run(p) && !y.code[p].Out? && !GaveUp(Where(y.sys, p), ch))
    && (y.sys.owed[ch] && x.sys.lock[g[ch]] == By(c) ==>
          && y.sys.lock[g[ch]] == By(c)
          && (y.code[p].Waking? || (y.code[p].Given? && !y.sys.pc[p].Client?)))
  }

  /** What is known of the moving thread. */
  ghost predicate Before(g: Config, ch: nat, x: State, c: nat, p: nat) {
    && Fits(g, ch, x) && OnCpu(g, x.sys, c, p) && Private(g, ch)
    && CpuOk(g, x.sys, c) && LockOk(g, x.sys, g[ch]) && (p < |x.sys.pstate| ==> ProcOk(g, x.sys, p))
    && CodeOk(g, ch, x, p) && HolderOk(g, ch, x) && OwedOk(g, ch, x)
  }

  lemma SleepCode(g: Config, ch: nat, x: State, c: nat, p: nat, y: State)
    requires Before(g, ch, x, c, p) && Fits(g, ch, y) && SameShape(g, x.sys, y.sys) && SleepStep(g, x.sys, c, p, y.sys)
    requires Moves(g, ch, x, p, Go, y.code[p], y.owns[p])
    ensures CodeOk(g, ch, y, p)
  {
    hide HolderOk, OwedOk, LockOk;
  }

  lemma SleepSelf(g: Config, ch: nat, x: State, c: nat, p: nat, y: State)
    requires Before(g, ch, x, c, p) && Fits(g, ch, y) && SameShape(g, x.sys, y.sys) && SleepStep(g, x.sys, c, p, y.sys)
    requires Moves(g, ch, x, p, Go, y.code[p], y.owns[p])
    ensures SelfOk(g, ch, x, c, p, y)
  {
    SleepCode(g, ch, x, c, p, y);
  }

  lemma LookSelf(g: Config, ch: nat, x: State, c: nat, p: nat, y: State)
    requires Before(g, ch, x, c, p) && Fits(g, ch, y) && SameShape(g, x.sys, y.sys) && LookStep(g, x.sys, c, p, y.sys)
    requires Moves(g, ch, x, p, Go, y.code[p], y.owns[p])
    ensures SelfOk(g, ch, x, c, p, y)
  {
  }

  lemma ActSelf(g: Config, ch: nat, x: State, c: nat, p: nat, i: nat, y: State)
    requires Before(g, ch, x, c, p) && Fits(g, ch, y) && SameShape(g, x.sys, y.sys) && ActStep(g, x.sys, c, p, i, y.sys)
    requires Moves(g, ch, x, p, Go, y.code[p], y.owns[p])
    ensures SelfOk(g, ch, x, c, p, y)
  {
  }

  lemma LeaveSelf(g: Config, ch: nat, x: State, c: nat, p: nat, y: State)
    requires Before(g, ch, x, c, p) && Fits(g, ch, y) && SameShape(g, x.sys, y.sys) && LeaveStep(g, x.sys, c, p, y.sys)
    requires Moves(g, ch, x, p, Go, y.code[p], y.owns[p])
    ensures SelfOk(g, ch, x, c, p, y)
  {
  }

  lemma LockSelf(g: Config, ch: nat, x: State, c: nat, p: nat, a: Act, y: State)
    requires Before(g, ch, x, c, p) && Fits(g, ch, y) && SameShape(g, x.sys, y.sys)
    requires LockStep(g, x.sys, c, p, a, y.sys)
    requires Moves(g, ch, x, p, a, y.code[p], y.owns[p])
    ensures SelfOk(g, ch, x, c, p, y)
  {
  }

  lemma CallSelf(g: Config, ch: nat, x: State, c: nat, p: nat, a: Act, y: State)
    requires Before(g, ch, x, c, p) && Fits(g, ch, y) && SameShape(g, x.sys, y.sys)
    requires CallStep(g, x.sys, c, p, a, y.sys)
    requires Moves(g, ch, x, p, a, y.code[p], y.owns[p])
    ensures SelfOk(g, ch, x, c, p, y)
  {
  }

  lemma TrapSelf(g: Config, ch: nat, x: State, c: nat, p: nat, a: Act, y: State)
    requires Before(g, ch, x, c, p) && Fits(g, ch, y) && SameShape(g, x.sys, y.sys)
    requires TrapStep(g, x.sys, c, p, a, y.sys)
    requires Moves(g, ch, x, p, a, y.code[p], y.owns[p])
    ensures SelfOk(g, ch, x, c, p, y)
  {
  }

  lemma ThreadSelf(g: Config, ch: nat, x: State, c: nat, p: nat, a: Act, y: State)
    requires Before(g, ch, x, c, p) && ThreadStep(g, ch, x, c, p, a, y)
    ensures SelfOk(g, ch, x, c, p, y)
  {
    hide Sched.Inv, SchedStep, SleepStep, LookStep, ActStep, LeaveStep, LockStep, CallStep, TrapStep,
         SelfOk, Moves, Before;
    var s, t := x.sys, y.sys;
    if SleepStep(g, s, c, p, t) && a == Go {
      SleepSelf(g, ch, x, c, p, y);
    } else if LookStep(g, s, c, p, t) && a == Go {
      LookSelf(g, ch, x, c, p, y);
    } else if LeaveStep(g, s, c, p, t) && a == Go {
      LeaveSelf(g, ch, x, c, p, y);
    } else if LockStep(g, s, c, p, a, t) {
      LockSelf(g, ch, x, c, p, a, y);
    } else if CallStep(g, s, c, p, a, t) {
      CallSelf(g, ch, x, c, p, a, y);
    } else if TrapStep(g, s, c, p, a, t) {
      TrapSelf(g, ch, x, c, p, a, y);
    } else {
      NotSched(g, s, c, p, a, t);
      ActSelf(g, ch, x, c, p, s.pc[p].i, y);
    }
  }

  lemma NotSched(g: Config, s: Sys, c: nat, p: nat, a: Act, t: Sys)
    requires OnCpu(g, s, c, p)
    ensures !SchedStep(g, s, c, a, t)
  {
  }

  /** Setting `locked` is taking or giving up the lock, and nothing else is. */
  lemma ThreadOwns(g: Config, ch: nat, x: State, c: nat, p: nat, a: Act, y: State)
    requires Before(g, ch, x, c, p) && ThreadStep(g, ch, x, c, p, a, y)
    requires Exclusive(x) && (x.sys.cond[ch] <==> !Owned(x))
    ensures Exclusive(y) && (y.sys.cond[ch] <==> !Owned(y))
  {
    CondChanges(g, x.sys, c, p, a, y.sys, ch);
    if a == Set(ch, false) {
      assert y.owns[p];
    } else if a == Set(ch, true) {
      assert forall q :: 0 <= q < |y.owns| ==> !y.owns[q];
    } else {
      assert y.owns == x.owns;
    }
  }

  lemma CondChanges(g: Config, s: Sys, c: nat, p: nat, a: Act, t: Sys, ch: nat)
    requires Sched.Step(g, s, c, a, t) && OnCpu(g, s, c, p) && ch < |g|
    ensures |t.cond| == |s.cond| == |g| && t.cond[ch] == if a.Set? && a.ch == ch then a.value else s.cond[ch]
    ensures a.Set? && a.ch == ch ==> s.lock[g[ch]] == By(c)
  {
    hide LockStep, CallStep, TrapStep, SchedStep, SleepStep, LookStep, ActStep, LeaveStep;
    NotSched(g, s, c, p, a, t);
    if LockStep(g, s, c, p, a, t) {
      CondByLock(g, s, c, p, a, t, ch);
    } else if CallStep(g, s, c, p, a, t) || TrapStep(g, s, c, p, a, t) {
      CondByCall(g, s, c, p, a, t);
    } else {
      CondByGo(g, s, c, p, t);
    }
  }

  lemma CondByLock(g: Config, s: Sys, c: nat, p: nat, a: Act, t: Sys, ch: nat)
    requires LockStep(g, s, c, p, a, t) && ch < |g|
    ensures |t.cond| == |s.cond| == |g| && t.cond[ch] == if a.Set? && a.ch == ch then a.value else s.cond[ch]
    ensures a.Set? && a.ch == ch ==> s.lock[g[ch]] == By(c)
  {
  }

  lemma CondByCall(g: Config, s: Sys, c: nat, p: nat, a: Act, t: Sys)
    requires CallStep(g, s, c, p, a, t) || TrapStep(g, s, c, p, a, t)
    ensures |s.cond| == |g| && t.cond == s.cond && !a.Set?
  {
  }

  lemma CondByGo(g: Config, s: Sys, c: nat, p: nat, t: Sys)
    requires || SleepStep(g, s, c, p, t) || LookStep(g, s, c, p, t) || LeaveStep(g, s, c, p, t)
             || (p < |s.pc| && s.pc[p].ScanAct? && ActStep(g, s, c, p, s.pc[p].i, t))
    ensures |s.cond| == |g| && t.cond == s.cond
  {
  }

  // ---- every step

  /** The holder of lk on another CPU is another thread. */
  lemma OtherHolder(g: Config, ch: nat, x: State, c: nat, p: nat)
    requires Inv(g, ch, x) && OnCpu(g, x.sys, c, p) && x.sys.lock[g[ch]].By? && x.sys.lock[g[ch]].cpu != c
    ensures var d := x.sys.lock[g[ch]].cpu;
            d < |x.sys.cpu| && x.sys.cpu[d].Run? && x.sys.cpu[d].i < |x.code| && x.sys.cpu[d].i != p
  {
    hide Sched.Inv;
    AroundCpu(g, x.sys, c);
    AroundCpu(g, x.sys, x.sys.lock[g[ch]].cpu);
  }

  lemma ThreadHolder(g: Config, ch: nat, x: State, c: nat, p: nat, a: Act, y: State)
    requires Inv(g, ch, x) && ThreadStep(g, ch, x, c, p, a, y) && SelfOk(g, ch, x, c, p, y)
    ensures HolderOk(g, ch, y) && OwedOk(g, ch, y)
  {
    hide Sched.Inv, Sched.Step, Moves;
    if x.sys.lock[g[ch]].By? && x.sys.lock[g[ch]].cpu != c {
      OtherHolder(g, ch, x, c, p);
      var q := x.sys.cpu[x.sys.lock[g[ch]].cpu].i;
      ThreadLocal(g, x.sys, c, p, a, y.sys, q, ch);
      assert CodeOk(g, ch, x, q);
    } else {
      ThreadLocal(g, x.sys, c, p, a, y.sys, p + 1, ch);
    }
  }

  lemma ThreadKnown(g: Config, ch: nat, x: State, c: nat, p: nat)
    requires Inv(g, ch, x) && Private(g, ch) && OnCpu(g, x.sys, c, p)
    ensures Before(g, ch, x, c, p)
  {
    hide Sched.Inv;
    Around(g, x.sys, c);
    AroundLock(g, x.sys, g[ch]);
    if p < |x.sys.pstate| { AroundProc(g, x.sys, p); }
    assert CodeOk(g, ch, x, p);
  }

  lemma ThreadInv(g: Config, ch: nat, x: State, c: nat, p: nat, a: Act, y: State)
    requires Inv(g, ch, x) && Private(g, ch) && ThreadStep(g, ch, x, c, p, a, y)
    ensures Inv(g, ch, y)
  {
    hide Sched.Inv, Sched.Step, Moves, CodeOk, HolderOk, OwedOk, Exclusive, Owned, Local, CpuLocal, Before;
    StepKeepsInv(g, x.sys, c, a, y.sys);
    ThreadKnown(g, ch, x, c, p);
    ThreadSelf(g, ch, x, c, p, a, y);
    ThreadHolder(g, ch, x, c, p, a, y);
    ThreadOwns(g, ch, x, c, p, a, y);
    forall q: nat | q < |y.code| ensures CodeOk(g, ch, y, q) {
      if q != p {
        ThreadLocal(g, x.sys, c, p, a, y.sys, q, ch);
        OthersCode(g, ch, x, c, y, q);
      }
    }
  }

  lemma TestInv(g: Config, ch: nat, x: State, c: nat, p: nat, y: State)
    requires Inv(g, ch, x) && TestStep(g, ch, x, c, p, y)
    ensures Inv(g, ch, y)
  {
    hide Sched.Inv;
    AroundCpu(g, x.sys, c);
    assert CodeOk(g, ch, x, p);
    forall q: nat | q < |y.code| ensures CodeOk(g, ch, y, q) { assert CodeOk(g, ch, x, q); }
  }

  lemma OtherInv(g: Config, ch: nat, x: State, c: nat, a: Act, y: State)
    requires Inv(g, ch, x) && OtherStep(g, ch, x, c, a, y)
    ensures Inv(g, ch, y)
  {
    hide Sched.Inv, Sched.Step;
    StepKeepsInv(g, x.sys, c, a, y.sys);
    forall q: nat | q < |y.code| ensures CodeOk(g, ch, y, q) {
      SchedulerLocal(g, x.sys, c, a, y.sys, q, ch);
      assert CodeOk(g, ch, x, q);
      OthersCode(g, ch, x, c, y, q);
    }
    SchedulerPcs(g, x.sys, c, a, y.sys);
    SchedulerLocal(g, x.sys, c, a, y.sys, 0, ch);
  }

  lemma SchedulerPcs(g: Config, s: Sys, c: nat, a: Act, t: Sys)
    requires Sched.Step(g, s, c, a, t) && c < |s.cpu| && !s.cpu[c].Run?
    ensures t.pc == s.pc && t.back == s.back
  {
  }

  /** Every step keeps the invariant. */
  lemma NextInv(g: Config, ch: nat, x: State, c: nat, a: Act, y: State)
    requires Inv(g, ch, x) && Private(g, ch) && Next(g, ch, x, c, a, y)
    ensures Inv(g, ch, y)
  {
    hide Inv, Private, TestStep, ThreadStep, OtherStep;
    if OtherStep(g, ch, x, c, a, y) {
      OtherInv(g, ch, x, c, a, y);
    } else if TestStep(g, ch, x, c, x.sys.cpu[c].i, y) {
      TestInv(g, ch, x, c, x.sys.cpu[c].i, y);
    } else {
      ThreadInv(g, ch, x, c, x.sys.cpu[c].i, a, y);
    }
  }

  // ---- whole runs

  ghost predicate Start(g: Config, ch: nat, x: State) {
    && Boot(g, x.sys) && Fits(g, ch, x) && x.sys.cond[ch]
    && forall p :: 0 <= p < |x.code| ==> x.code[p] == Out && !x.owns[p]
  }

  ghost predicate History(g: Config, ch: nat, moves: seq<Move>, xs: seq<State>) {
    && |xs| == |moves| + 1 && Private(g, ch) && Start(g, ch, xs[0])
    && forall k :: 0 <= k < |moves| ==> Next(g, ch, xs[k], moves[k].cpu, moves[k].act, xs[k + 1])
  }

  lemma StartInv(g: Config, ch: nat, x: State)
    requires Start(g, ch, x)
    ensures Inv(g, ch, x)
  {
    BootInv(g, x.sys);
    forall p: nat | p < |x.code| ensures CodeOk(g, ch, x, p) {
      assert x.sys.back[p] == Client;
      if p < |x.sys.pstate| {
        assert x.sys.pc[p] in {Gone, Forkret};
      } else {
        assert x.sys.cpu[p - |x.sys.pstate|] == Idle && x.sys.pc[|x.sys.pstate| + (p - |x.sys.pstate|)] == Client;
      }
    }
  }

  lemma {:induction false} RunInv(g: Config, ch: nat, moves: seq<Move>, xs: seq<State>, k: nat)
    requires History(g, ch, moves, xs) && k < |xs|
    ensures Inv(g, ch, xs[k])
  {
    hide Next, Inv, Private, Start;
    if k == 0 {
      StartInv(g, ch, xs[0]);
    } else {
      RunInv(g, ch, moves, xs, k - 1);
      assert Next(g, ch, xs[k - 1], moves[k - 1].cpu, moves[k - 1].act, xs[k - 1 + 1]);
      NextInv(g, ch, xs[k - 1], moves[k - 1].cpu, moves[k - 1].act, xs[k]);
    }
  }

  /** At most one thread owns the sleep lock, and `locked` is set exactly while one
      does. */
  lemma OneOwner(g: Config, ch: nat, moves: seq<Move>, xs: seq<State>, k: nat, p: nat, q: nat)
    requires History(g, ch, moves, xs) && k < |xs| && p < |xs[k].owns| && q < |xs[k].owns|
    ensures xs[k].owns[p] && xs[k].owns[q] ==> p == q
    ensures ch < |xs[k].sys.cond| && (xs[k].sys.cond[ch] <==> forall r :: 0 <= r < |xs[k].owns| ==> !xs[k].owns[r])
  {
    hide Next, Sched.Inv, CodeOk, HolderOk, OwedOk;
    RunInv(g, ch, moves, xs, k);
  }

  /** Nobody sleeps in acquiresleep() while lk is free and `locked` is clear. */
  lemma NobodyWaitsForAFreeLock(g: Config, ch: nat, moves: seq<Move>, xs: seq<State>, k: nat, p: nat)
    requires History(g, ch, moves, xs) && k < |xs| && p < |xs[k].sys.pstate|
    requires Fits(g, ch, xs[k]) && xs[k].sys.lock[g[ch]] == Free && xs[k].sys.cond[ch]
    ensures !(xs[k].sys.pstate[p] == SLEEPING && xs[k].sys.chan[p] == ch)
  {
    hide Next, Sched.Inv, CodeOk, HolderOk;
    RunInv(g, ch, moves, xs, k);
    AroundProc(g, xs[k].sys, p);
    AroundChannel(g, xs[k].sys, p, ch);
  }

  /** acquiresleep() returns to an owner, and releasesleep() to a thread that is not. */
  lemma ReturnsMean(g: Config, ch: nat, moves: seq<Move>, xs: seq<State>, k: nat, p: nat)
    requires History(g, ch, moves, xs) && k < |moves| && p < |xs[k].code| && p < |xs[k + 1].code|
    requires xs[k].code[p] != Out && xs[k + 1].code[p] == Out
    ensures xs[k].code[p].Taken? || xs[k].code[p].Given?
    ensures p < |xs[k + 1].owns| && (xs[k + 1].owns[p] <==> xs[k].code[p].Taken?)
  {
    hide Sched.Inv, Sched.Step, HolderOk, OwedOk;
    RunInv(g, ch, moves, xs, k);
    assert Next(g, ch, xs[k], moves[k].cpu, moves[k].act, xs[k + 1]);
    assert CodeOk(g, ch, xs[k], p);
  }
}
