/** Processes, CPUs and the locks handed across context switches.

    Any number of processes, CPUs, spinlocks and wait channels; each step below
    is one lock operation or one field update of sched(), scheduler(), sleep(),
    wakeup(), yield(), kill(), exit()'s ending, wait()'s freeing of a zombie and
    fork()'s allocation and start of a process.  Every channel has a condition
    that is examined and changed only under the channel's lock; apart from that
    the code between those calls takes and releases any locks in any order,
    changes any conditions, and calls wakeup when it likes.

    An interrupt handler on a CPU that runs a process is part of that process's
    thread; it may come in client code and, when no lock is held, inside sleep() and
    a scan, and may yield.  One on a CPU in its scheduler loop is a thread of the
    CPU's own. */
module Sched {
  import opened Base
  datatype PState = UNUSED | USED | SLEEPING | RUNNABLE | RUNNING | ZOMBIE

  /** A spinlock is held by a CPU, as lk->cpu records. */
  datatype Holder = Free | By(cpu: nat)

  /** What a table scan does to the process whose lock it holds. */
  datatype Scan =
    | Wakeup(ch: nat)   // SLEEPING on ch becomes RUNNABLE
    | Kill              // SLEEPING becomes RUNNABLE
    | Reap              // ZOMBIE becomes UNUSED
    | Alloc             // UNUSED becomes USED, with a context that starts in forkret
    | Start             // USED becomes RUNNABLE

  /** Where a kernel thread is: the action it performs next. */
  datatype Pc =
    | Client                         // other kernel or user code
    | SleepAcquire(ch: nat)          // acquire(&p->lock)
    | SleepUnlock(ch: nat)           // release(lk)
    | SleepChan(ch: nat)             // p->chan = chan
    | SleepState(ch: nat)            // p->state = SLEEPING
    | SleepSwitch(ch: nat)           // swtch in sched()
    | SleepResumed(ch: nat)          // p->chan = 0
    | SleepRelease(ch: nat)          // release(&p->lock)
    | SleepRelock(ch: nat)           // acquire(lk)
    | YieldAcquire | YieldState | YieldSwitch | YieldRelease
    | ExitAcquire(l: nat)            // acquire(&p->lock), holding wait_lock
    | ExitState(l: nat)              // p->state = ZOMBIE
    | ExitUnlock(l: nat)             // release(&wait_lock)
    | ExitSwitch | Gone
    | Forkret                        // release(&p->lock) on first being scheduled
    | ScanAcquire(op: Scan, i: nat)  // acquire(&p->lock) of process i, or end of the loop
    | ScanAct(op: Scan, i: nat)
    | ScanRelease(op: Scan, i: nat)

  /** What a CPU executes: its scheduler loop, or a thread. */
  datatype Cpu =
    | Idle                  // about to pick a process and acquire its lock
    | Test(i: nat)          // if(p->state == RUNNABLE) p->state = RUNNING
    | SetProc(i: nat)       // c->proc = p
    | SwitchIn(i: nat)      // swtch
    | Run(i: nat)
    | ClearProc(i: nat)     // c->proc = 0
    | Done(i: nat)          // release(&p->lock)


  datatype Sys = Sys(
    pstate: seq<PState>, chan: seq<int>, plock: seq<Holder>,   // by process
    pc: seq<Pc>,                     // by thread: the processes', then the CPUs' own
    back: seq<Pc>,                   // by thread: where to go on after an interrupt, or Client
    cpu: seq<Cpu>, proc: seq<int>,   // by CPU
    lock: seq<Holder>,               // by spinlock
    cond: seq<bool>,                 // by channel
    // For stating properties only:
    on: seq<int>,       // by process: the CPU its thread is on
    woken: seq<bool>,   // by channel: a whole wakeup() was done in the present hold of its lock
    owed: seq<bool>)    // by channel: the condition became true with no such wakeup since,
                        // nor before it in the same hold

  /** The lock that guards each channel. */
  type Config = seq<nat>

  datatype Act =
    | Pick(i: nat) | Interrupt
    | Lock(l: nat) | Unlock(l: nat) | Set(ch: nat, value: bool)
    | SleepOn(ch: nat) | Yield | Exit(l: nat) | StartScan(op: Scan, i: nat) | EndInterrupt
    | Go   // the only thing that can happen next

  ghost predicate Shape(g: Config, s: Sys) {
    && |s.chan| == |s.plock| == |s.on| == |s.pstate|
    && |s.pc| == |s.back| == |s.pstate| + |s.cpu|
    && |s.proc| == |s.cpu|
    && |s.cond| == |s.woken| == |s.owed| == |g|
    && forall ch :: 0 <= ch < |g| ==> g[ch] < |s.lock|
  }

  // ---- scheduler()

  ghost predicate CpuEnabled(s: Sys, c: nat, a: Act)
    requires c < |s.cpu| && |s.plock| == |s.pstate|
  {
    match s.cpu[c]
    case Idle => a.Interrupt? || (a.Pick? && a.i < |s.plock| && s.plock[a.i] == Free)
    case Test(i) => a == Go && i < |s.pstate|
    case SetProc(i) => a == Go
    case SwitchIn(i) => a == Go && i < |s.pstate|
    case Run(i) => false
    case ClearProc(i) => a == Go
    case Done(i) => a == Go && i < |s.plock|
  }

  ghost function CpuNext(s: Sys, c: nat, a: Act): Sys
    requires c < |s.cpu| && |s.plock| == |s.pstate| == |s.on| && |s.proc| == |s.cpu|
    requires CpuEnabled(s, c, a)
  {
    match s.cpu[c]
    case Idle =>
      if a.Interrupt? then s.(cpu := s.cpu[c := Run(|s.pstate| + c)])
      else s.(plock := s.plock[a.i := By(c)], cpu := s.cpu[c := Test(a.i)])
    case Test(i) =>
      if s.pstate[i] == RUNNABLE then s.(pstate := s.pstate[i := RUNNING], cpu := s.cpu[c := SetProc(i)])
      else s.(cpu := s.cpu[c := Done(i)])
    case SetProc(i) => s.(proc := s.proc[c := i], cpu := s.cpu[c := SwitchIn(i)])
    case SwitchIn(i) => s.(cpu := s.cpu[c := Run(i)], on := s.on[i := c])
    case Run(i) => s
    case ClearProc(i) => s.(proc := s.proc[c := NONE], cpu := s.cpu[c := Done(i)])
    case Done(i) => s.(plock := s.plock[i := Free], cpu := s.cpu[c := Idle])
  }

  // ---- client locks

  ghost predicate Holds(s: Sys, c: nat, l: nat) {
    l < |s.lock| && s.lock[l] == By(c)
  }

  /** The CPU holds no lock other than l. */
  ghost predicate HoldsAtMost(s: Sys, c: nat, l: int) {
    forall m :: 0 <= m < |s.lock| && s.lock[m] == By(c) ==> m == l
  }

  /** The end of a hold of lock l. */
  ghost function Released(g: Config, s: Sys, l: nat): Sys
    requires Shape(g, s) && l < |s.lock|
  {
    s.(lock := s.lock[l := Free],
       woken := seq(|g|, ch requires 0 <= ch < |g| => s.woken[ch] && g[ch] != l))
  }

  // ---- a thread, on the CPU it runs on

  /** The scan's effect on process i, whose lock is held. */
  function Effect(op: Scan, st: PState, chan: int): PState {
    match op
    case Wakeup(ch) => if st == SLEEPING && chan == ch then RUNNABLE else st
    case Kill => if st == SLEEPING then RUNNABLE else st
    case Reap => if st == ZOMBIE then UNUSED else st
    case Alloc => if st == UNUSED then USED else st
    case Start => if st == USED then RUNNABLE else st
  }

  /** Thread steps that belong to sleep(). */
  predicate Sleeping(pc: Pc) {
    || pc.SleepAcquire? || pc.SleepUnlock? || pc.SleepChan? || pc.SleepState? || pc.SleepSwitch?
    || pc.SleepResumed? || pc.SleepRelease? || pc.SleepRelock?
  }

  /** Thread steps of a scan of the process table that take or drop a lock. */
  predicate Looking(pc: Pc) {
    pc.ScanAcquire? || pc.ScanRelease?
  }

  ghost predicate SleepEnabled(g: Config, s: Sys, p: nat)
    requires Shape(g, s) && p < |s.pstate| && Sleeping(s.pc[p])
  {
    match s.pc[p]
    case SleepAcquire(ch) => s.plock[p] == Free
    case SleepUnlock(ch) => ch < |g|
    case SleepRelock(ch) => ch < |g| && s.lock[g[ch]] == Free
    case _ => true
  }

  ghost function SleepNext(g: Config, s: Sys, c: nat, p: nat): Sys
    requires Shape(g, s) && p < |s.pstate| && c < |s.cpu| && Sleeping(s.pc[p]) && SleepEnabled(g, s, p)
  {
    match s.pc[p]
    case SleepAcquire(ch) => s.(plock := s.plock[p := By(c)], pc := s.pc[p := SleepUnlock(ch)])
    case SleepUnlock(ch) => Released(g, s, g[ch]).(pc := s.pc[p := SleepChan(ch)])
    case SleepChan(ch) => s.(chan := s.chan[p := ch], pc := s.pc[p := SleepState(ch)])
    case SleepState(ch) => s.(pstate := s.pstate[p := SLEEPING], pc := s.pc[p := SleepSwitch(ch)])
    case SleepSwitch(ch) =>
      s.(pc := s.pc[p := SleepResumed(ch)], cpu := s.cpu[c := ClearProc(p)], on := s.on[p := NONE])
    case SleepResumed(ch) => s.(chan := s.chan[p := NONE], pc := s.pc[p := SleepRelease(ch)])
    case SleepRelease(ch) => s.(plock := s.plock[p := Free], pc := s.pc[p := SleepRelock(ch)])
    case SleepRelock(ch) => s.(lock := s.lock[g[ch] := By(c)], pc := s.pc[p := Client])
  }

  ghost predicate LookEnabled(g: Config, s: Sys, p: nat)
    requires Shape(g, s) && p < |s.pc| && Looking(s.pc[p])
  {
    match s.pc[p]
    case ScanAcquire(op, i) =>
      if i == |s.pstate| then op.Wakeup? && op.ch < |g|
      else i < |s.pstate| && ((i == p && op.Wakeup?) || s.plock[i] == Free)
    case ScanRelease(op, i) => i < |s.pstate|
  }

  /** wakeup() goes through the table, skipping its caller; the other scans look
      at one process. */
  ghost function LookNext(g: Config, s: Sys, c: nat, p: nat): Sys
    requires Shape(g, s) && p < |s.pc| && Looking(s.pc[p]) && LookEnabled(g, s, p)
  {
    match s.pc[p]
    case ScanAcquire(op, i) =>
      if i == |s.pstate| then
        var covered := Holds(s, c, g[op.ch]);
        s.(pc := s.pc[p := Client],
           woken := s.woken[op.ch := s.woken[op.ch] || covered],
           owed := s.owed[op.ch := s.owed[op.ch] && !covered])
      else if i == p && op.Wakeup? then s.(pc := s.pc[p := ScanAcquire(op, i + 1)])
      else s.(plock := s.plock[i := By(c)], pc := s.pc[p := ScanAct(op, i)])
    case ScanRelease(op, i) =>
      s.(plock := s.plock[i := Free], pc := s.pc[p := if op.Wakeup? then ScanAcquire(op, i + 1) else Client])
  }

  ghost function ActNext(g: Config, s: Sys, p: nat, op: Scan, i: nat): Sys
    requires Shape(g, s) && p < |s.pc| && i < |s.pstate|
  {
    s.(pstate := s.pstate[i := Effect(op, s.pstate[i], s.chan[i])],
       chan := if op.Reap? && s.pstate[i] == ZOMBIE then s.chan[i := NONE] else s.chan,
       pc := (if op.Alloc? && s.pstate[i] == UNUSED then s.pc[i := Forkret] else s.pc)[p := ScanRelease(op, i)])
  }

  /** Thread steps of yield(), exit() and forkret(). */
  predicate Leaving(pc: Pc) {
    || pc.YieldAcquire? || pc.YieldState? || pc.YieldSwitch? || pc.YieldRelease?
    || pc.ExitAcquire? || pc.ExitState? || pc.ExitUnlock? || pc.ExitSwitch? || pc.Forkret?
  }

  ghost predicate LeaveEnabled(s: Sys, p: nat)
    requires p < |s.plock| <= |s.pc|
  {
    && (s.pc[p].YieldAcquire? || s.pc[p].ExitAcquire? ==> s.plock[p] == Free)
    && (s.pc[p].ExitUnlock? ==> s.pc[p].l < |s.lock|)
  }

  ghost function LeaveNext(g: Config, s: Sys, c: nat, p: nat): Sys
    requires Shape(g, s) && p < |s.pstate| && c < |s.cpu| && Leaving(s.pc[p]) && LeaveEnabled(s, p)
  {
    match s.pc[p]
    case YieldAcquire => s.(plock := s.plock[p := By(c)], pc := s.pc[p := YieldState])
    case YieldState => s.(pstate := s.pstate[p := RUNNABLE], pc := s.pc[p := YieldSwitch])
    case YieldSwitch => s.(pc := s.pc[p := YieldRelease], cpu := s.cpu[c := ClearProc(p)], on := s.on[p := NONE])
    case YieldRelease => s.(plock := s.plock[p := Free], pc := s.pc[p := Client])
    case ExitAcquire(l) => s.(plock := s.plock[p := By(c)], pc := s.pc[p := ExitState(l)])
    case ExitState(l) => s.(pstate := s.pstate[p := ZOMBIE], pc := s.pc[p := ExitUnlock(l)])
    case ExitUnlock(l) => Released(g, s, l).(pc := s.pc[p := ExitSwitch])
    case ExitSwitch => s.(pc := s.pc[p := Gone], cpu := s.cpu[c := ClearProc(p)], on := s.on[p := NONE])
    case Forkret => s.(plock := s.plock[p := Free], pc := s.pc[p := Client])
  }

  // ---- code between those calls

  /** Taking and releasing locks and changing conditions: outside the calls above,
      while a process is being freed, allocated, killed or started under its lock,
      and, for the condition that exit() makes true, between its last two steps. */
  ghost predicate LockEnabled(g: Config, s: Sys, c: nat, p: nat, a: Act)
    requires Shape(g, s) && p < |s.pc|
  {
    var free := s.pc[p].Client? || (s.pc[p].ScanRelease? && !s.pc[p].op.Wakeup?);
    || (free && a.Lock? && a.l < |s.lock| && s.lock[a.l] == Free)
    || (free && a.Unlock? && Holds(s, c, a.l))
    || ((free || s.pc[p].ExitUnlock?) && a.Set? && a.ch < |g| && Holds(s, c, g[a.ch]))
  }

  ghost function LockNext(g: Config, s: Sys, c: nat, p: nat, a: Act): Sys
    requires Shape(g, s) && p < |s.pc| && LockEnabled(g, s, c, p, a)
  {
    match a
    case Lock(l) => s.(lock := s.lock[l := By(c)])
    case Unlock(l) => Released(g, s, l)
    case Set(ch, v) => s.(cond := s.cond[ch := v], owed := s.owed[ch := v && (s.owed[ch] || !s.woken[ch])])
  }

  /** Calls.  sleep() is called with the condition seen false and no other lock
      held, exit()'s ending with just wait_lock, yield() with no lock.  A handler
      does not sleep or exit, and one on an idle CPU calls nothing but wakeup(). */
  ghost predicate CallEnabled(g: Config, s: Sys, c: nat, p: nat, a: Act)
    requires Shape(g, s) && p < |s.pc|
  {
    && s.pc[p].Client?
    && if p < |s.pstate| then
         || (a.SleepOn? && s.back[p].Client? && a.ch < |g| &&
             Holds(s, c, g[a.ch]) && HoldsAtMost(s, c, g[a.ch]) && !s.cond[a.ch])
         || (a.Yield? && HoldsAtMost(s, c, NONE))
         || (a.Exit? && s.back[p].Client? && Holds(s, c, a.l) && HoldsAtMost(s, c, a.l))
         || (a.StartScan? && if a.op.Wakeup? then a.op.ch < |g| && a.i == 0 else a.i < |s.pstate|)
       else
         || (a.StartScan? && a.op.Wakeup? && a.op.ch < |g| && a.i == 0)
         || (a.EndInterrupt? && HoldsAtMost(s, c, NONE))
  }

  ghost function CallNext(g: Config, s: Sys, c: nat, p: nat, a: Act): Sys
    requires Shape(g, s) && p < |s.pc| && c < |s.cpu| && CallEnabled(g, s, c, p, a)
  {
    match a
    case SleepOn(ch) => s.(pc := s.pc[p := SleepAcquire(ch)])
    case Yield => s.(pc := s.pc[p := YieldAcquire])
    case Exit(l) => s.(pc := s.pc[p := ExitAcquire(l)])
    case StartScan(op, i) => s.(pc := s.pc[p := ScanAcquire(op, i)])
    case EndInterrupt => s.(cpu := s.cpu[c := Idle])
  }

  // ---- interrupts of a process's thread outside client code

  predicate Interruptible(pc: Pc) {
    pc.SleepRelock? || pc.ScanAcquire?
  }

  ghost predicate TrapEnabled(g: Config, s: Sys, c: nat, p: nat, a: Act)
    requires Shape(g, s) && p < |s.pc|
  {
    && p < |s.pstate| && HoldsAtMost(s, c, NONE)
    && if s.back[p].Client? then a.Interrupt? && Interruptible(s.pc[p]) else a.EndInterrupt? && s.pc[p].Client?
  }

  ghost function TrapNext(g: Config, s: Sys, p: nat, a: Act): Sys
    requires Shape(g, s) && p < |s.pc|
  {
    if a.Interrupt? then s.(pc := s.pc[p := Client], back := s.back[p := s.pc[p]])
    else s.(pc := s.pc[p := s.back[p]], back := s.back[p := Client])
  }

  // One predicate for each kind of step of CPU c.

  ghost predicate SchedStep(g: Config, s: Sys, c: nat, a: Act, t: Sys) {
    Shape(g, s) && c < |s.cpu| && !s.cpu[c].Run? && CpuEnabled(s, c, a) && t == CpuNext(s, c, a)
  }

  ghost predicate OnCpu(g: Config, s: Sys, c: nat, p: nat) {
    Shape(g, s) && c < |s.cpu| && p < |s.pc| && s.cpu[c] == Run(p)
  }

  ghost predicate SleepStep(g: Config, s: Sys, c: nat, p: nat, t: Sys) {
    && OnCpu(g, s, c, p) && p < |s.pstate| && Sleeping(s.pc[p]) && SleepEnabled(g, s, p)
    && t == SleepNext(g, s, c, p)
  }

  ghost predicate LookStep(g: Config, s: Sys, c: nat, p: nat, t: Sys) {
    OnCpu(g, s, c, p) && Looking(s.pc[p]) && LookEnabled(g, s, p) && t == LookNext(g, s, c, p)
  }

  ghost predicate ActStep(g: Config, s: Sys, c: nat, p: nat, i: nat, t: Sys) {
    && OnCpu(g, s, c, p) && i < |s.pstate| && s.pc[p].ScanAct? && s.pc[p].i == i
    && t == ActNext(g, s, p, s.pc[p].op, i)
  }

  ghost predicate LeaveStep(g: Config, s: Sys, c: nat, p: nat, t: Sys) {
    && OnCpu(g, s, c, p) && p < |s.pstate| && Leaving(s.pc[p]) && LeaveEnabled(s, p)
    && t == LeaveNext(g, s, c, p)
  }

  ghost predicate LockStep(g: Config, s: Sys, c: nat, p: nat, a: Act, t: Sys) {
    OnCpu(g, s, c, p) && LockEnabled(g, s, c, p, a) && t == LockNext(g, s, c, p, a)
  }

  ghost predicate CallStep(g: Config, s: Sys, c: nat, p: nat, a: Act, t: Sys) {
    OnCpu(g, s, c, p) && CallEnabled(g, s, c, p, a) && t == CallNext(g, s, c, p, a)
  }

  ghost predicate TrapStep(g: Config, s: Sys, c: nat, p: nat, a: Act, t: Sys) {
    OnCpu(g, s, c, p) && TrapEnabled(g, s, c, p, a) && t == TrapNext(g, s, p, a)
  }

  ghost predicate Step(g: Config, s: Sys, c: nat, a: Act, t: Sys) {
    || SchedStep(g, s, c, a, t)
    || (c < |s.cpu| && s.cpu[c].Run? &&
        var p := s.cpu[c].i;
        || (a == Go && SleepStep(g, s, c, p, t))
        || (a == Go && LookStep(g, s, c, p, t))
        || (a == Go && p < |s.pc| && s.pc[p].ScanAct? && ActStep(g, s, c, p, s.pc[p].i, t))
        || (a == Go && LeaveStep(g, s, c, p, t))
        || LockStep(g, s, c, p, a, t)
        || CallStep(g, s, c, p, a, t)
        || TrapStep(g, s, c, p, a, t))
  }

  // ---- the invariant

  /** The thread holds its own p->lock. */
  predicate OwnLock(pc: Pc) {
    || pc.SleepUnlock? || pc.SleepChan? || pc.SleepState? || pc.SleepSwitch? || pc.SleepResumed? || pc.SleepRelease?
    || pc.YieldState? || pc.YieldSwitch? || pc.YieldRelease?
    || pc.ExitState? || pc.ExitUnlock? || pc.ExitSwitch? || pc.Forkret?
  }

  /** The thread holds process i's lock in a scan. */
  predicate InScan(pc: Pc, i: nat) {
    (pc.ScanAct? || pc.ScanRelease?) && pc.i == i
  }

  /** The client lock the thread must hold, or NONE. */
  function NeedsLock(g: Config, pc: Pc): int {
    match pc
    case SleepAcquire(ch) => if ch < |g| then g[ch] else NONE
    case SleepUnlock(ch) => if ch < |g| then g[ch] else NONE
    case ExitAcquire(l) => l
    case ExitState(l) => l
    case ExitUnlock(l) => l
    case _ => NONE
  }

  /** The thread may hold client lock l. */
  predicate MayHold(g: Config, pc: Pc, l: nat) {
    pc.Client? || pc.ScanAcquire? || pc.ScanAct? || pc.ScanRelease? || NeedsLock(g, pc) == l
  }

  /** The channel, lock or process a pc mentions exists. */
  predicate WellScoped(g: Config, n: nat, locks: nat, pc: Pc) {
    match pc
    case SleepAcquire(ch) => ch < |g|
    case SleepUnlock(ch) => ch < |g|
    case SleepChan(ch) => ch < |g|
    case SleepState(ch) => ch < |g|
    case SleepSwitch(ch) => ch < |g|
    case SleepResumed(ch) => ch < |g|
    case SleepRelease(ch) => ch < |g|
    case SleepRelock(ch) => ch < |g|
    case ExitAcquire(l) => l < locks
    case ExitState(l) => l < locks
    case ExitUnlock(l) => l < locks
    case ScanAcquire(op, i) => i <= n && (if op.Wakeup? then op.ch < |g| else i < n)
    case ScanAct(op, i) => i < n && (op.Wakeup? ==> op.ch < |g|)
    case ScanRelease(op, i) => i < n && (op.Wakeup? ==> op.ch < |g|)
    case _ => true
  }

  /** Where a CPU's own thread can be. */
  predicate HandlerAt(pc: Pc) {
    pc.Client? || ((pc.ScanAcquire? || pc.ScanAct? || pc.ScanRelease?) && pc.op.Wakeup?)
  }

  /** The CPU in its scheduler loop holds process i's lock. */
  predicate SchedulerHolds(k: Cpu, i: nat) {
    (k.Test? || k.SetProc? || k.SwitchIn? || k.ClearProc? || k.Done?) && k.i == i
  }

  /** Where a process's thread can be while it handles an interrupt. */
  predicate InHandler(pc: Pc) {
    || pc.Client? || pc.ScanAcquire? || pc.ScanAct? || pc.ScanRelease?
    || pc.YieldAcquire? || pc.YieldState? || pc.YieldSwitch? || pc.YieldRelease?
  }

  ghost predicate RunOk(g: Config, s: Sys, c: nat, p: nat)
    requires Shape(g, s) && c < |s.cpu|
  {
    && p < |s.pc|
    && (if p < |s.pstate| then s.on[p] == c && s.proc[c] == p else p == |s.pstate| + c && s.proc[c] == NONE)
    && (OwnLock(s.pc[p]) ==> p < |s.pstate| && s.plock[p] == By(c))
    && (s.pc[p].ScanAct? || s.pc[p].ScanRelease? ==> s.pc[p].i < |s.pstate| && s.plock[s.pc[p].i] == By(c))
    && (NeedsLock(g, s.pc[p]) != NONE ==> 0 <= NeedsLock(g, s.pc[p]) && Holds(s, c, NeedsLock(g, s.pc[p])))
  }

  ghost predicate HandlerOk(g: Config, s: Sys, c: nat)
    requires Shape(g, s) && c < |s.cpu|
  {
    var h := |s.pstate| + c;
    HandlerAt(s.pc[h]) && WellScoped(g, |s.pstate|, |s.lock|, s.pc[h]) && (s.cpu[c] != Run(h) ==> s.pc[h] == Client)
  }

  ghost predicate CpuOk(g: Config, s: Sys, c: nat)
    requires Shape(g, s) && c < |s.cpu|
  {
    && HandlerOk(g, s, c)
    && match s.cpu[c]
       case Idle => s.proc[c] == NONE
       case Run(p) => RunOk(g, s, c, p)
       case k =>
         && k.i < |s.pstate| && s.plock[k.i] == By(c)
         && (s.proc[c] == if k.SwitchIn? || k.ClearProc? then k.i else NONE)
         && (k.SetProc? || k.SwitchIn? ==> s.pstate[k.i] == RUNNING && s.on[k.i] == NONE)
  }

  ghost predicate PLockOk(g: Config, s: Sys, i: nat)
    requires Shape(g, s) && i < |s.pstate|
  {
    s.plock[i].By? ==>
      var c := s.plock[i].cpu;
      && c < |s.cpu|
      && if s.cpu[c].Run? then
           s.cpu[c].i < |s.pc| && ((s.cpu[c].i == i && OwnLock(s.pc[i])) || InScan(s.pc[s.cpu[c].i], i))
         else SchedulerHolds(s.cpu[c], i)
  }

  ghost predicate LockOk(g: Config, s: Sys, l: nat)
    requires Shape(g, s) && l < |s.lock|
  {
    s.lock[l].By? ==>
      var c := s.lock[l].cpu;
      c < |s.cpu| && s.cpu[c].Run? && s.cpu[c].i < |s.pc| && MayHold(g, s.pc[s.cpu[c].i], l)
  }

  /** A thread that is off every CPU is at a point where it can be resumed, and
      its state says whether it may be; one on a CPU is RUNNING until it has its
      own lock and is about to switch away. */
  ghost predicate ProcOk(g: Config, s: Sys, p: nat)
    requires Shape(g, s) && p < |s.pstate|
  {
    && WellScoped(g, |s.pstate|, |s.lock|, s.pc[p]) && WellScoped(g, |s.pstate|, |s.lock|, s.back[p])
    && (s.back[p].Client? || (Interruptible(s.back[p]) && InHandler(s.pc[p])))
    && (s.pstate[p] == SLEEPING ==> s.pc[p].SleepSwitch? || s.pc[p].SleepResumed?)
    && (s.pc[p].SleepState? || s.pc[p].SleepSwitch? || s.pc[p].SleepResumed? ==> s.chan[p] == s.pc[p].ch)
    && if s.on[p] == NONE then
         && (s.pstate[p] == RUNNING ==>
               s.plock[p].By? && s.plock[p].cpu < |s.cpu| && s.cpu[s.plock[p].cpu] in {SetProc(p), SwitchIn(p)})
         && match s.pc[p] {
              case SleepResumed(ch) => s.pstate[p] in {SLEEPING, RUNNABLE, RUNNING}
              case YieldRelease => s.pstate[p] in {RUNNABLE, RUNNING}
              case Forkret => s.pstate[p] in {USED, RUNNABLE, RUNNING}
              case Gone => s.pstate[p] in {ZOMBIE, UNUSED}
              case _ => false
            }
       else
         && 0 <= s.on[p] < |s.cpu| && s.cpu[s.on[p]] == Run(p)
         && match s.pc[p] {
              case SleepSwitch(ch) => s.pstate[p] == SLEEPING
              case YieldSwitch => s.pstate[p] == RUNNABLE
              case ExitUnlock(l) => s.pstate[p] == ZOMBIE
              case ExitSwitch => s.pstate[p] == ZOMBIE
              case Gone => false
              case _ => s.pstate[p] == RUNNING
            }
  }

  /** p has given up the channel's lock to sleep, and has not been woken. */
  ghost predicate Asleep(s: Sys, p: nat, ch: nat)
    requires p < |s.pstate| <= |s.pc|
  {
    || s.pc[p] in {SleepChan(ch), SleepState(ch), SleepSwitch(ch)}
    || (s.pc[p] == SleepResumed(ch) && s.pstate[p] == SLEEPING)
  }

  /** The holder of the channel's lock is in wakeup(ch) and has dealt with p. */
  ghost predicate Passed(g: Config, s: Sys, p: nat, ch: nat)
    requires Shape(g, s) && ch < |g|
  {
    && s.lock[g[ch]].By? && s.lock[g[ch]].cpu < |s.cpu|
    && var k := s.cpu[s.lock[g[ch]].cpu];
       && k.Run? && k.i < |s.pc|
       && match s.pc[k.i]
          case ScanAcquire(op, i) => op == Wakeup(ch) && p < i
          case ScanAct(op, i) => op == Wakeup(ch) && p < i
          case ScanRelease(op, i) => op == Wakeup(ch) && p <= i
          case _ => false
  }

  ghost predicate NoLostWakeup(g: Config, s: Sys, p: nat, ch: nat)
    requires Shape(g, s) && p < |s.pstate| && ch < |g|
  {
    && (s.pc[p] == SleepAcquire(ch) || s.pc[p] == SleepUnlock(ch) ==> !s.cond[ch])
    && (Asleep(s, p, ch) ==> !s.woken[ch] && !Passed(g, s, p, ch) && (s.cond[ch] ==> s.owed[ch]))
  }

  ghost predicate Inv(g: Config, s: Sys) {
    && Shape(g, s)
    && (forall c :: 0 <= c < |s.cpu| ==> CpuOk(g, s, c))
    && (forall p :: 0 <= p < |s.pstate| ==> ProcOk(g, s, p))
    && (forall i :: 0 <= i < |s.pstate| ==> PLockOk(g, s, i))
    && (forall l :: 0 <= l < |s.lock| ==> LockOk(g, s, l))
    && (forall p, ch :: 0 <= p < |s.pstate| && 0 <= ch < |g| ==> NoLostWakeup(g, s, p, ch))
  }

  ghost predicate SameShape(g: Config, s: Sys, t: Sys) {
    Shape(g, t) && |t.pstate| == |s.pstate| && |t.cpu| == |s.cpu| && |t.lock| == |s.lock|
  }

  // What the invariant says near one step, without quantifiers.

  lemma AroundProc(g: Config, s: Sys, q: nat)
    requires Inv(g, s) && q < |s.pstate|
    ensures Shape(g, s) && ProcOk(g, s, q)
    ensures s.on[q] != NONE ==> 0 <= s.on[q] < |s.cpu| && CpuOk(g, s, s.on[q])
  {
    assert ProcOk(g, s, q);
  }

  lemma AroundPLock(g: Config, s: Sys, q: nat)
    requires Inv(g, s) && q < |s.pstate|
    ensures Shape(g, s) && PLockOk(g, s, q)
    ensures s.plock[q].By? ==> s.plock[q].cpu < |s.cpu| && CpuOk(g, s, s.plock[q].cpu)
  {
    assert PLockOk(g, s, q);
  }

  /** A CPU and the process it deals with. */
  lemma Around(g: Config, s: Sys, c: nat)
    requires Inv(g, s) && c < |s.cpu|
    ensures Shape(g, s) && CpuOk(g, s, c)
    ensures !s.cpu[c].Idle? && s.cpu[c].i < |s.pstate| ==> ProcOk(g, s, s.cpu[c].i)
  {
    assert CpuOk(g, s, c);
    assert !s.cpu[c].Idle? && s.cpu[c].i < |s.pstate| ==> ProcOk(g, s, s.cpu[c].i);
  }

  lemma AroundCpu(g: Config, s: Sys, c: nat)
    requires Inv(g, s) && c < |s.cpu|
    ensures Shape(g, s) && CpuOk(g, s, c)
  {
    assert CpuOk(g, s, c);
  }

  /** The process a thread's scan is at. */
  lemma AroundScan(g: Config, s: Sys, p: nat)
    requires Inv(g, s) && p < |s.pc| && (s.pc[p].ScanAcquire? || s.pc[p].ScanAct? || s.pc[p].ScanRelease?)
    ensures Shape(g, s)
    ensures s.pc[p].i < |s.pstate| ==>
              && ProcOk(g, s, s.pc[p].i)
              && (s.on[s.pc[p].i] != NONE ==> 0 <= s.on[s.pc[p].i] < |s.cpu| && CpuOk(g, s, s.on[s.pc[p].i]))
  {
    if s.pc[p].i < |s.pstate| {
      AroundProc(g, s, s.pc[p].i);
    }
  }

  lemma AroundLock(g: Config, s: Sys, l: nat)
    requires Inv(g, s) && l < |s.lock|
    ensures Shape(g, s) && LockOk(g, s, l)
    ensures s.lock[l].By? ==> s.lock[l].cpu < |s.cpu| && CpuOk(g, s, s.lock[l].cpu)
  {
    assert LockOk(g, s, l);
  }

  lemma AroundChannel(g: Config, s: Sys, q: nat, ch: nat)
    requires Inv(g, s) && q < |s.pstate| && ch < |g|
    ensures Shape(g, s) && NoLostWakeup(g, s, q, ch)
  {
    assert NoLostWakeup(g, s, q, ch);
  }

  // ---- scheduler()

  lemma SchedShape(g: Config, s: Sys, c: nat, a: Act, t: Sys)
    requires SchedStep(g, s, c, a, t)
    ensures SameShape(g, s, t) && c < |s.cpu| && (a.Pick? ==> a.i < |s.pstate|)
  {
  }

  lemma SchedOtherCpuOk(g: Config, s: Sys, c: nat, a: Act, t: Sys, d: nat)
    requires Inv(g, s) && SchedStep(g, s, c, a, t) && SameShape(g, s, t) && c < |s.cpu| && d < |s.cpu| && d != c
    ensures CpuOk(g, t, d)
  {
    hide Inv;
    AroundCpu(g, s, c);
    Around(g, s, d);
    assert t.pc == s.pc && t.lock == s.lock && t.cpu[d] == s.cpu[d] && t.proc[d] == s.proc[d];
  }

  lemma SchedCpuOk(g: Config, s: Sys, c: nat, a: Act, t: Sys, d: nat)
    requires Inv(g, s) && SchedStep(g, s, c, a, t) && SameShape(g, s, t)
    requires c < |s.cpu| && d < |s.cpu| && (a.Pick? ==> a.i < |s.pstate|)
    ensures CpuOk(g, t, d)
  {
    hide Inv;
    if d != c {
      SchedOtherCpuOk(g, s, c, a, t, d);
    } else {
      Around(g, s, c);
      if !s.cpu[c].Idle? {
        AroundProc(g, s, s.cpu[c].i);
      }
    }
  }

  /** The process the scheduler deals with. */
  lemma SchedSelfProcOk(g: Config, s: Sys, c: nat, a: Act, t: Sys)
    requires Inv(g, s) && SchedStep(g, s, c, a, t) && SameShape(g, s, t)
    requires c < |s.cpu| && !s.cpu[c].Idle? && s.cpu[c].i < |s.pstate|
    ensures ProcOk(g, t, s.cpu[c].i)
  {
    hide Inv;
    Around(g, s, c);
    AroundProc(g, s, s.cpu[c].i);
  }

  lemma SchedProcOk(g: Config, s: Sys, c: nat, a: Act, t: Sys, q: nat)
    requires Inv(g, s) && SchedStep(g, s, c, a, t) && SameShape(g, s, t)
    requires c < |s.cpu| && q < |s.pstate|
    ensures ProcOk(g, t, q)
  {
    hide Inv;
    if !s.cpu[c].Idle? && s.cpu[c].i == q {
      SchedSelfProcOk(g, s, c, a, t);
    } else {
      AroundCpu(g, s, c);
      AroundProc(g, s, q);
      assert t.pc == s.pc && t.back == s.back && t.chan == s.chan;
      assert t.pstate[q] == s.pstate[q] && t.on[q] == s.on[q];
    }
  }

  lemma SchedPLockOk(g: Config, s: Sys, c: nat, a: Act, t: Sys, q: nat)
    requires Inv(g, s) && SchedStep(g, s, c, a, t) && SameShape(g, s, t)
    requires c < |s.cpu| && q < |s.pstate|
    ensures PLockOk(g, t, q)
  {
    hide Inv;
    Around(g, s, c);
    AroundPLock(g, s, q);
  }

  lemma SchedLockOk(g: Config, s: Sys, c: nat, a: Act, t: Sys, l: nat)
    requires Inv(g, s) && SchedStep(g, s, c, a, t) && SameShape(g, s, t)
    requires c < |s.cpu| && l < |s.lock|
    ensures LockOk(g, t, l)
  {
    hide Inv;
    Around(g, s, c);
    AroundLock(g, s, l);
  }

  lemma SchedNoLostWakeup(g: Config, s: Sys, c: nat, a: Act, t: Sys, q: nat, ch: nat)
    requires Inv(g, s) && SchedStep(g, s, c, a, t) && SameShape(g, s, t)
    requires c < |s.cpu| && q < |s.pstate| && ch < |g|
    ensures NoLostWakeup(g, t, q, ch)
  {
    hide Inv;
    Around(g, s, c);
    AroundProc(g, s, q);
    AroundChannel(g, s, q, ch);
    AroundLock(g, s, g[ch]);
    assert t.pc == s.pc && t.lock == s.lock && t.cond == s.cond && t.woken == s.woken && t.owed == s.owed;
  }

  lemma SchedKeepsInv(g: Config, s: Sys, c: nat, a: Act, t: Sys)
    requires Inv(g, s) && SchedStep(g, s, c, a, t)
    ensures Inv(g, t)
  {
    hide CpuOk, ProcOk, PLockOk, LockOk, NoLostWakeup, SchedStep;
    SchedShape(g, s, c, a, t);
    forall d: nat | d < |s.cpu| ensures CpuOk(g, t, d) { SchedCpuOk(g, s, c, a, t, d); }
    forall q: nat | q < |s.pstate| ensures ProcOk(g, t, q) { SchedProcOk(g, s, c, a, t, q); }
    forall q: nat | q < |s.pstate| ensures PLockOk(g, t, q) { SchedPLockOk(g, s, c, a, t, q); }
    forall l: nat | l < |s.lock| ensures LockOk(g, t, l) { SchedLockOk(g, s, c, a, t, l); }
    forall q: nat, ch: nat | q < |s.pstate| && ch < |g| ensures NoLostWakeup(g, t, q, ch) {
      SchedNoLostWakeup(g, s, c, a, t, q, ch);
    }
  }

  // ---- sleep()

  lemma SleepShape(g: Config, s: Sys, c: nat, p: nat, t: Sys)
    requires SleepStep(g, s, c, p, t)
    ensures SameShape(g, s, t) && c < |s.cpu|
  {
  }

  /** Nobody has passed q who had not before. */
  ghost predicate PassedAs(g: Config, s: Sys, t: Sys, q: nat, ch: nat)
    requires Shape(g, s) && Shape(g, t) && ch < |g|
  {
    Passed(g, t, q, ch) ==> Passed(g, s, q, ch)
  }

  lemma FreeNotPassed(g: Config, s: Sys, q: nat, ch: nat)
    requires Shape(g, s) && ch < |g| && s.lock[g[ch]] == Free
    ensures !Passed(g, s, q, ch)
  {
  }

  lemma SleepPassed(g: Config, s: Sys, c: nat, p: nat, t: Sys, q: nat, ch: nat)
    requires Inv(g, s) && SleepStep(g, s, c, p, t) && SameShape(g, s, t) && c < |s.cpu| && ch < |g|
    ensures PassedAs(g, s, t, q, ch)
  {
    hide Inv;
    AroundCpu(g, s, c);
    AroundLock(g, s, g[ch]);
  }

  lemma SleepSelf(g: Config, s: Sys, c: nat, p: nat, t: Sys, ch: nat)
    requires Inv(g, s) && SleepStep(g, s, c, p, t) && SameShape(g, s, t) && c < |s.cpu| && ch < |g|
    ensures NoLostWakeup(g, t, p, ch)
  {
    hide Inv, Passed;
    Around(g, s, c);
    AroundChannel(g, s, p, ch);
    SleepPassed(g, s, c, p, t, p, ch);
    if Asleep(t, p, ch) && !Asleep(s, p, ch) { FreeNotPassed(g, t, p, ch); }
  }

  lemma SleepOtherCpuOk(g: Config, s: Sys, c: nat, p: nat, t: Sys, d: nat)
    requires Inv(g, s) && SleepStep(g, s, c, p, t) && SameShape(g, s, t) && c < |s.cpu| && d < |s.cpu| && d != c
    ensures CpuOk(g, t, d)
  {
    hide Inv;
    AroundCpu(g, s, c);
    AroundCpu(g, s, d);
    assert t.proc == s.proc && t.cpu[d] == s.cpu[d];
    assert s.cpu[d].Run? ==> s.cpu[d].i != p;
  }

  lemma SleepSelfProcOk(g: Config, s: Sys, c: nat, p: nat, t: Sys)
    requires Inv(g, s) && SleepStep(g, s, c, p, t) && SameShape(g, s, t) && c < |s.cpu| && p < |s.pstate|
    ensures ProcOk(g, t, p)
  {
    hide Inv;
    Around(g, s, c);
    AroundPLock(g, s, p);
  }

  lemma SleepCpuOk(g: Config, s: Sys, c: nat, p: nat, t: Sys, d: nat)
    requires Inv(g, s) && SleepStep(g, s, c, p, t) && SameShape(g, s, t)
    requires c < |s.cpu| && d < |s.cpu|
    ensures CpuOk(g, t, d)
  {
    hide Inv;
    if d != c {
      SleepOtherCpuOk(g, s, c, p, t, d);
    } else {
      Around(g, s, c);
    }
  }

  lemma SleepProcOk(g: Config, s: Sys, c: nat, p: nat, t: Sys, q: nat)
    requires Inv(g, s) && SleepStep(g, s, c, p, t) && SameShape(g, s, t)
    requires c < |s.cpu| && q < |s.pstate|
    ensures ProcOk(g, t, q)
  {
    hide Inv;
    if q == p {
      SleepSelfProcOk(g, s, c, p, t);
    } else {
      AroundCpu(g, s, c);
      AroundProc(g, s, q);
      AroundPLock(g, s, q);
      assert t.pc[q] == s.pc[q] && t.pstate[q] == s.pstate[q] && t.chan[q] == s.chan[q] && t.on[q] == s.on[q];
    }
  }

  lemma SleepPLockOk(g: Config, s: Sys, c: nat, p: nat, t: Sys, q: nat)
    requires Inv(g, s) && SleepStep(g, s, c, p, t) && SameShape(g, s, t)
    requires c < |s.cpu| && q < |s.pstate|
    ensures PLockOk(g, t, q)
  {
    hide Inv;
    Around(g, s, c);
    AroundPLock(g, s, q);
  }

  lemma SleepLockOk(g: Config, s: Sys, c: nat, p: nat, t: Sys, l: nat)
    requires Inv(g, s) && SleepStep(g, s, c, p, t) && SameShape(g, s, t)
    requires c < |s.cpu| && l < |s.lock|
    ensures LockOk(g, t, l)
  {
    hide Inv;
    Around(g, s, c);
    AroundLock(g, s, l);
  }

  lemma SleepNoLostWakeup(g: Config, s: Sys, c: nat, p: nat, t: Sys, q: nat, ch: nat)
    requires Inv(g, s) && SleepStep(g, s, c, p, t) && SameShape(g, s, t)
    requires c < |s.cpu| && q < |s.pstate| && ch < |g|
    ensures NoLostWakeup(g, t, q, ch)
  {
    hide Inv;
    if q == p {
      SleepSelf(g, s, c, p, t, ch);
    } else {
      AroundChannel(g, s, q, ch);
      SleepPassed(g, s, c, p, t, q, ch);
      assert t.cond == s.cond && t.owed == s.owed;
      assert t.pc[q] == s.pc[q] && t.pstate[q] == s.pstate[q];
    }
  }

  lemma SleepKeepsInv(g: Config, s: Sys, c: nat, p: nat, t: Sys)
    requires Inv(g, s) && SleepStep(g, s, c, p, t)
    ensures Inv(g, t)
  {
    hide CpuOk, ProcOk, PLockOk, LockOk, NoLostWakeup, SleepStep;
    SleepShape(g, s, c, p, t);
    forall d: nat | d < |s.cpu| ensures CpuOk(g, t, d) { SleepCpuOk(g, s, c, p, t, d); }
    forall q: nat | q < |s.pstate| ensures ProcOk(g, t, q) { SleepProcOk(g, s, c, p, t, q); }
    forall q: nat | q < |s.pstate| ensures PLockOk(g, t, q) { SleepPLockOk(g, s, c, p, t, q); }
    forall l: nat | l < |s.lock| ensures LockOk(g, t, l) { SleepLockOk(g, s, c, p, t, l); }
    forall q: nat, ch: nat | q < |s.pstate| && ch < |g| ensures NoLostWakeup(g, t, q, ch) {
      SleepNoLostWakeup(g, s, c, p, t, q, ch);
    }
  }

  // ---- taking and dropping locks in a scan

  lemma LookShape(g: Config, s: Sys, c: nat, p: nat, t: Sys)
    requires LookStep(g, s, c, p, t)
    ensures SameShape(g, s, t) && c < |s.cpu|
  {
  }

  lemma LookOtherCpuOk(g: Config, s: Sys, c: nat, p: nat, t: Sys, d: nat)
    requires Inv(g, s) && LookStep(g, s, c, p, t) && SameShape(g, s, t) && c < |s.cpu| && d < |s.cpu| && d != c
    ensures CpuOk(g, t, d)
  {
    hide Inv;
    AroundCpu(g, s, c);
    AroundCpu(g, s, d);
    assert t.cpu == s.cpu && t.proc == s.proc && t.on == s.on && t.lock == s.lock && t.pstate == s.pstate;
    assert s.cpu[d].Run? ==> s.cpu[d].i != p;
  }

  lemma LookSelfProcOk(g: Config, s: Sys, c: nat, p: nat, t: Sys)
    requires Inv(g, s) && LookStep(g, s, c, p, t) && SameShape(g, s, t) && c < |s.cpu| && p < |s.pstate|
    ensures ProcOk(g, t, p)
  {
    hide Inv;
    Around(g, s, c);
    AroundScan(g, s, p);
  }

  lemma LookPassed(g: Config, s: Sys, c: nat, p: nat, t: Sys, q: nat, ch: nat)
    requires Inv(g, s) && LookStep(g, s, c, p, t) && SameShape(g, s, t) && c < |s.cpu| && q < |s.pstate| && ch < |g|
    requires Asleep(s, q, ch)
    ensures PassedAs(g, s, t, q, ch)
  {
    hide Inv;
    AroundCpu(g, s, c);
    AroundLock(g, s, g[ch]);
    AroundChannel(g, s, q, ch);
    assert t.cpu == s.cpu && t.lock == s.lock;
  }

  lemma LookCpuOk(g: Config, s: Sys, c: nat, p: nat, t: Sys, d: nat)
    requires Inv(g, s) && LookStep(g, s, c, p, t) && SameShape(g, s, t)
    requires c < |s.cpu| && d < |s.cpu|
    ensures CpuOk(g, t, d)
  {
    hide Inv;
    if d != c {
      LookOtherCpuOk(g, s, c, p, t, d);
    } else {
      Around(g, s, c);
    }
  }

  lemma LookProcOk(g: Config, s: Sys, c: nat, p: nat, t: Sys, q: nat)
    requires Inv(g, s) && LookStep(g, s, c, p, t) && SameShape(g, s, t)
    requires c < |s.cpu| && q < |s.pstate|
    ensures ProcOk(g, t, q)
  {
    hide Inv;
    if q == p {
      LookSelfProcOk(g, s, c, p, t);
    } else {
      AroundCpu(g, s, c);
      AroundScan(g, s, p);
      AroundProc(g, s, q);
      AroundPLock(g, s, q);
      assert t.cpu == s.cpu && t.on == s.on && t.pstate == s.pstate && t.chan == s.chan && t.pc[q] == s.pc[q];
    }
  }

  lemma LookPLockOk(g: Config, s: Sys, c: nat, p: nat, t: Sys, q: nat)
    requires Inv(g, s) && LookStep(g, s, c, p, t) && SameShape(g, s, t)
    requires c < |s.cpu| && q < |s.pstate|
    ensures PLockOk(g, t, q)
  {
    hide Inv;
    Around(g, s, c);
    AroundScan(g, s, p);
    AroundPLock(g, s, q);
    assert t.cpu == s.cpu;
    if q != s.pc[p].i {
      assert t.plock[q] == s.plock[q];
    }
  }

  lemma LookLockOk(g: Config, s: Sys, c: nat, p: nat, t: Sys, l: nat)
    requires Inv(g, s) && LookStep(g, s, c, p, t) && SameShape(g, s, t)
    requires c < |s.cpu| && l < |s.lock|
    ensures LockOk(g, t, l)
  {
    hide Inv;
    Around(g, s, c);
    AroundLock(g, s, l);
    assert t.lock == s.lock && t.cpu == s.cpu;
  }

  lemma LookNoLostWakeup(g: Config, s: Sys, c: nat, p: nat, t: Sys, q: nat, ch: nat)
    requires Inv(g, s) && LookStep(g, s, c, p, t) && SameShape(g, s, t)
    requires c < |s.cpu| && q < |s.pstate| && ch < |g|
    ensures NoLostWakeup(g, t, q, ch)
  {
    hide Inv;
    AroundCpu(g, s, c);
    AroundChannel(g, s, q, ch);
    assert t.cond == s.cond && t.pstate == s.pstate;
    if q != p && Asleep(s, q, ch) {
      LookPassed(g, s, c, p, t, q, ch);
      assert t.pc[q] == s.pc[q];
    }
  }

  lemma LookKeepsInv(g: Config, s: Sys, c: nat, p: nat, t: Sys)
    requires Inv(g, s) && LookStep(g, s, c, p, t)
    ensures Inv(g, t)
  {
    hide CpuOk, ProcOk, PLockOk, LockOk, NoLostWakeup, LookStep;
    LookShape(g, s, c, p, t);
    forall d: nat | d < |s.cpu| ensures CpuOk(g, t, d) { LookCpuOk(g, s, c, p, t, d); }
    forall q: nat | q < |s.pstate| ensures ProcOk(g, t, q) { LookProcOk(g, s, c, p, t, q); }
    forall q: nat | q < |s.pstate| ensures PLockOk(g, t, q) { LookPLockOk(g, s, c, p, t, q); }
    forall l: nat | l < |s.lock| ensures LockOk(g, t, l) { LookLockOk(g, s, c, p, t, l); }
    forall q: nat, ch: nat | q < |s.pstate| && ch < |g| ensures NoLostWakeup(g, t, q, ch) {
      LookNoLostWakeup(g, s, c, p, t, q, ch);
    }
  }

  // ---- what a scan does

  lemma ActShape(g: Config, s: Sys, c: nat, p: nat, i: nat, t: Sys)
    requires ActStep(g, s, c, p, i, t)
    ensures SameShape(g, s, t) && c < |s.cpu|
  {
  }

  /** A process that is still asleep was asleep, and was not the one being woken. */
  lemma ActAsleep(g: Config, s: Sys, c: nat, p: nat, i: nat, t: Sys, q: nat, ch: nat)
    requires Inv(g, s) && ActStep(g, s, c, p, i, t) && SameShape(g, s, t)
    requires c < |s.cpu| && q < |s.pstate| && Asleep(t, q, ch)
    ensures Asleep(s, q, ch) && !(q == i && s.pc[p].op == Wakeup(ch))
  {
    hide Inv;
    AroundCpu(g, s, c);
    AroundScan(g, s, p);
    AroundProc(g, s, q);
  }

  lemma ActPassed(g: Config, s: Sys, c: nat, p: nat, i: nat, t: Sys, q: nat, ch: nat)
    requires Inv(g, s) && ActStep(g, s, c, p, i, t) && SameShape(g, s, t)
    requires c < |s.cpu| && ch < |g| && !(q == i && s.pc[p].op == Wakeup(ch))
    ensures PassedAs(g, s, t, q, ch)
  {
    hide Inv;
    AroundCpu(g, s, c);
    AroundLock(g, s, g[ch]);
    assert t.cpu == s.cpu && t.lock == s.lock;
  }

  lemma ActCpuOk(g: Config, s: Sys, c: nat, p: nat, i: nat, t: Sys, d: nat)
    requires Inv(g, s) && ActStep(g, s, c, p, i, t) && SameShape(g, s, t)
    requires c < |s.cpu| && d < |s.cpu|
    ensures CpuOk(g, t, d)
  {
    hide Inv;
    Around(g, s, c);
    AroundScan(g, s, p);
    Around(g, s, d);
    assert t.cpu == s.cpu && t.proc == s.proc && t.on == s.on && t.lock == s.lock && t.plock == s.plock;
    if d != c && s.cpu[d].Run? {
      var q := s.cpu[d].i;
      assert q != p && t.pc[q] == s.pc[q];
    }
  }

  lemma ActProcOk(g: Config, s: Sys, c: nat, p: nat, i: nat, t: Sys, q: nat)
    requires Inv(g, s) && ActStep(g, s, c, p, i, t) && SameShape(g, s, t)
    requires c < |s.cpu| && q < |s.pstate|
    ensures ProcOk(g, t, q)
  {
    hide Inv;
    Around(g, s, c);
    AroundScan(g, s, p);
    AroundProc(g, s, q);
    assert t.cpu == s.cpu && t.on == s.on && t.plock == s.plock;
    if q != p && q != i {
      assert t.pc[q] == s.pc[q] && t.pstate[q] == s.pstate[q] && t.chan[q] == s.chan[q];
    }
  }

  lemma ActPLockOk(g: Config, s: Sys, c: nat, p: nat, i: nat, t: Sys, q: nat)
    requires Inv(g, s) && ActStep(g, s, c, p, i, t) && SameShape(g, s, t)
    requires c < |s.cpu| && q < |s.pstate|
    ensures PLockOk(g, t, q)
  {
    hide Inv;
    Around(g, s, c);
    AroundScan(g, s, p);
    AroundPLock(g, s, q);
    assert t.plock == s.plock && t.cpu == s.cpu;
  }

  lemma ActLockOk(g: Config, s: Sys, c: nat, p: nat, i: nat, t: Sys, l: nat)
    requires Inv(g, s) && ActStep(g, s, c, p, i, t) && SameShape(g, s, t)
    requires c < |s.cpu| && l < |s.lock|
    ensures LockOk(g, t, l)
  {
    hide Inv;
    Around(g, s, c);
    AroundScan(g, s, p);
    AroundLock(g, s, l);
    if s.lock[l].By? && s.cpu[s.lock[l].cpu].i < |s.pstate| {
      AroundProc(g, s, s.cpu[s.lock[l].cpu].i);
    }
    assert t.cpu == s.cpu && t.lock == s.lock;
  }

  lemma ActNoLostWakeup(g: Config, s: Sys, c: nat, p: nat, i: nat, t: Sys, q: nat, ch: nat)
    requires Inv(g, s) && ActStep(g, s, c, p, i, t) && SameShape(g, s, t)
    requires c < |s.cpu| && q < |s.pstate| && ch < |g|
    ensures NoLostWakeup(g, t, q, ch)
  {
    hide Inv, Passed;
    AroundCpu(g, s, c);
    AroundChannel(g, s, q, ch);
    if Asleep(t, q, ch) {
      ActAsleep(g, s, c, p, i, t, q, ch);
      ActPassed(g, s, c, p, i, t, q, ch);
    }
    assert t.cond == s.cond && t.woken == s.woken && t.owed == s.owed;
    if q != p && q != i {
      assert t.pc[q] == s.pc[q];
    }
  }

  lemma ActKeepsInv(g: Config, s: Sys, c: nat, p: nat, i: nat, t: Sys)
    requires Inv(g, s) && ActStep(g, s, c, p, i, t)
    ensures Inv(g, t)
  {
    hide CpuOk, ProcOk, PLockOk, LockOk, NoLostWakeup, ActStep;
    ActShape(g, s, c, p, i, t);
    forall d: nat | d < |s.cpu| ensures CpuOk(g, t, d) { ActCpuOk(g, s, c, p, i, t, d); }
    forall q: nat | q < |s.pstate| ensures ProcOk(g, t, q) { ActProcOk(g, s, c, p, i, t, q); }
    forall q: nat | q < |s.pstate| ensures PLockOk(g, t, q) { ActPLockOk(g, s, c, p, i, t, q); }
    forall l: nat | l < |s.lock| ensures LockOk(g, t, l) { ActLockOk(g, s, c, p, i, t, l); }
    forall q: nat, ch: nat | q < |s.pstate| && ch < |g| ensures NoLostWakeup(g, t, q, ch) {
      ActNoLostWakeup(g, s, c, p, i, t, q, ch);
    }
  }

  // ---- yield(), exit() and forkret()

  lemma LeaveShape(g: Config, s: Sys, c: nat, p: nat, t: Sys)
    requires LeaveStep(g, s, c, p, t)
    ensures SameShape(g, s, t) && c < |s.cpu|
  {
  }

  lemma LeaveOtherCpuOk(g: Config, s: Sys, c: nat, p: nat, t: Sys, d: nat)
    requires Inv(g, s) && LeaveStep(g, s, c, p, t) && SameShape(g, s, t) && c < |s.cpu| && d < |s.cpu| && d != c
    ensures CpuOk(g, t, d)
  {
    hide Inv;
    AroundCpu(g, s, c);
    AroundCpu(g, s, d);
    assert t.proc == s.proc && t.cpu[d] == s.cpu[d];
    assert s.cpu[d].Run? ==> s.cpu[d].i != p;
  }

  lemma LeavePassed(g: Config, s: Sys, c: nat, p: nat, t: Sys, q: nat, ch: nat)
    requires Inv(g, s) && LeaveStep(g, s, c, p, t) && SameShape(g, s, t) && c < |s.cpu| && ch < |g|
    ensures PassedAs(g, s, t, q, ch)
  {
    hide Inv;
    AroundCpu(g, s, c);
    AroundLock(g, s, g[ch]);
  }

  lemma LeaveSelfProcOk(g: Config, s: Sys, c: nat, p: nat, t: Sys)
    requires Inv(g, s) && LeaveStep(g, s, c, p, t) && SameShape(g, s, t) && c < |s.cpu| && p < |s.pstate|
    ensures ProcOk(g, t, p)
  {
    hide Inv;
    Around(g, s, c);
    AroundPLock(g, s, p);
  }

  lemma LeaveCpuOk(g: Config, s: Sys, c: nat, p: nat, t: Sys, d: nat)
    requires Inv(g, s) && LeaveStep(g, s, c, p, t) && SameShape(g, s, t)
    requires c < |s.cpu| && d < |s.cpu|
    ensures CpuOk(g, t, d)
  {
    hide Inv;
    if d != c {
      LeaveOtherCpuOk(g, s, c, p, t, d);
    } else {
      Around(g, s, c);
    }
  }

  lemma LeaveProcOk(g: Config, s: Sys, c: nat, p: nat, t: Sys, q: nat)
    requires Inv(g, s) && LeaveStep(g, s, c, p, t) && SameShape(g, s, t)
    requires c < |s.cpu| && q < |s.pstate|
    ensures ProcOk(g, t, q)
  {
    hide Inv;
    if q == p {
      LeaveSelfProcOk(g, s, c, p, t);
    } else {
      AroundCpu(g, s, c);
      AroundProc(g, s, q);
      AroundPLock(g, s, q);
      assert t.pc[q] == s.pc[q] && t.pstate[q] == s.pstate[q] && t.chan[q] == s.chan[q] && t.on[q] == s.on[q];
    }
  }

  lemma LeavePLockOk(g: Config, s: Sys, c: nat, p: nat, t: Sys, q: nat)
    requires Inv(g, s) && LeaveStep(g, s, c, p, t) && SameShape(g, s, t)
    requires c < |s.cpu| && q < |s.pstate|
    ensures PLockOk(g, t, q)
  {
    hide Inv;
    Around(g, s, c);
    AroundPLock(g, s, q);
  }

  lemma LeaveLockOk(g: Config, s: Sys, c: nat, p: nat, t: Sys, l: nat)
    requires Inv(g, s) && LeaveStep(g, s, c, p, t) && SameShape(g, s, t)
    requires c < |s.cpu| && l < |s.lock|
    ensures LockOk(g, t, l)
  {
    hide Inv;
    Around(g, s, c);
    AroundLock(g, s, l);
  }

  lemma LeaveNoLostWakeup(g: Config, s: Sys, c: nat, p: nat, t: Sys, q: nat, ch: nat)
    requires Inv(g, s) && LeaveStep(g, s, c, p, t) && SameShape(g, s, t)
    requires c < |s.cpu| && q < |s.pstate| && ch < |g|
    ensures NoLostWakeup(g, t, q, ch)
  {
    hide Inv, Passed;
    AroundCpu(g, s, c);
    AroundChannel(g, s, q, ch);
    LeavePassed(g, s, c, p, t, q, ch);
    assert t.cond == s.cond && t.owed == s.owed;
    if q != p {
      assert t.pc[q] == s.pc[q] && t.pstate[q] == s.pstate[q];
    }
  }

  lemma LeaveKeepsInv(g: Config, s: Sys, c: nat, p: nat, t: Sys)
    requires Inv(g, s) && LeaveStep(g, s, c, p, t)
    ensures Inv(g, t)
  {
    hide CpuOk, ProcOk, PLockOk, LockOk, NoLostWakeup, LeaveStep;
    LeaveShape(g, s, c, p, t);
    forall d: nat | d < |s.cpu| ensures CpuOk(g, t, d) { LeaveCpuOk(g, s, c, p, t, d); }
    forall q: nat | q < |s.pstate| ensures ProcOk(g, t, q) { LeaveProcOk(g, s, c, p, t, q); }
    forall q: nat | q < |s.pstate| ensures PLockOk(g, t, q) { LeavePLockOk(g, s, c, p, t, q); }
    forall l: nat | l < |s.lock| ensures LockOk(g, t, l) { LeaveLockOk(g, s, c, p, t, l); }
    forall q: nat, ch: nat | q < |s.pstate| && ch < |g| ensures NoLostWakeup(g, t, q, ch) {
      LeaveNoLostWakeup(g, s, c, p, t, q, ch);
    }
  }

  // ---- client locks and conditions

  lemma LockShape(g: Config, s: Sys, c: nat, p: nat, a: Act, t: Sys)
    requires LockStep(g, s, c, p, a, t)
    ensures SameShape(g, s, t) && c < |s.cpu|
  {
  }

  lemma LockPassed(g: Config, s: Sys, c: nat, p: nat, a: Act, t: Sys, q: nat, ch: nat)
    requires Inv(g, s) && LockStep(g, s, c, p, a, t) && SameShape(g, s, t) && c < |s.cpu| && ch < |g|
    ensures PassedAs(g, s, t, q, ch)
  {
    hide Inv;
    AroundCpu(g, s, c);
    assert t.pc == s.pc && t.cpu == s.cpu;
  }

  lemma LockCpuOk(g: Config, s: Sys, c: nat, p: nat, a: Act, t: Sys, d: nat)
    requires Inv(g, s) && LockStep(g, s, c, p, a, t) && SameShape(g, s, t)
    requires c < |s.cpu| && d < |s.cpu|
    ensures CpuOk(g, t, d)
  {
    hide Inv;
    Around(g, s, c);
    AroundCpu(g, s, d);
    assert t.pc == s.pc && t.cpu == s.cpu && t.proc == s.proc;
    assert t.on == s.on && t.plock == s.plock && t.pstate == s.pstate;
  }

  lemma LockProcOk(g: Config, s: Sys, c: nat, p: nat, a: Act, t: Sys, q: nat)
    requires Inv(g, s) && LockStep(g, s, c, p, a, t) && SameShape(g, s, t)
    requires c < |s.cpu| && q < |s.pstate|
    ensures ProcOk(g, t, q)
  {
    hide Inv;
    AroundProc(g, s, q);
    assert t.pc == s.pc && t.cpu == s.cpu && t.on == s.on;
    assert t.plock == s.plock && t.pstate == s.pstate && t.chan == s.chan;
  }

  lemma LockPLockOk(g: Config, s: Sys, c: nat, p: nat, a: Act, t: Sys, q: nat)
    requires Inv(g, s) && LockStep(g, s, c, p, a, t) && SameShape(g, s, t)
    requires c < |s.cpu| && q < |s.pstate|
    ensures PLockOk(g, t, q)
  {
    hide Inv;
    AroundPLock(g, s, q);
    assert t.pc == s.pc && t.cpu == s.cpu && t.plock == s.plock;
  }

  lemma LockLockOk(g: Config, s: Sys, c: nat, p: nat, a: Act, t: Sys, l: nat)
    requires Inv(g, s) && LockStep(g, s, c, p, a, t) && SameShape(g, s, t)
    requires c < |s.cpu| && l < |s.lock|
    ensures LockOk(g, t, l)
  {
    hide Inv;
    Around(g, s, c);
    AroundLock(g, s, l);
    assert t.pc == s.pc && t.cpu == s.cpu;
  }

  lemma LockNoLostWakeup(g: Config, s: Sys, c: nat, p: nat, a: Act, t: Sys, q: nat, ch: nat)
    requires Inv(g, s) && LockStep(g, s, c, p, a, t) && SameShape(g, s, t)
    requires c < |s.cpu| && q < |s.pstate| && ch < |g|
    ensures NoLostWakeup(g, t, q, ch)
  {
    hide Inv, Passed;
    AroundCpu(g, s, c);
    AroundProc(g, s, q);
    AroundChannel(g, s, q, ch);
    LockPassed(g, s, c, p, a, t, q, ch);
    assert t.pc == s.pc && t.cpu == s.cpu && t.pstate == s.pstate;
  }

  lemma LockKeepsInv(g: Config, s: Sys, c: nat, p: nat, a: Act, t: Sys)
    requires Inv(g, s) && LockStep(g, s, c, p, a, t)
    ensures Inv(g, t)
  {
    hide CpuOk, ProcOk, PLockOk, LockOk, NoLostWakeup, LockStep;
    LockShape(g, s, c, p, a, t);
    forall d: nat | d < |s.cpu| ensures CpuOk(g, t, d) { LockCpuOk(g, s, c, p, a, t, d); }
    forall q: nat | q < |s.pstate| ensures ProcOk(g, t, q) { LockProcOk(g, s, c, p, a, t, q); }
    forall q: nat | q < |s.pstate| ensures PLockOk(g, t, q) { LockPLockOk(g, s, c, p, a, t, q); }
    forall l: nat | l < |s.lock| ensures LockOk(g, t, l) { LockLockOk(g, s, c, p, a, t, l); }
    forall q: nat, ch: nat | q < |s.pstate| && ch < |g| ensures NoLostWakeup(g, t, q, ch) {
      LockNoLostWakeup(g, s, c, p, a, t, q, ch);
    }
  }

  // ---- calls

  lemma CallShape(g: Config, s: Sys, c: nat, p: nat, a: Act, t: Sys)
    requires CallStep(g, s, c, p, a, t)
    ensures SameShape(g, s, t) && c < |s.cpu|
  {
  }

  lemma CallOtherCpuOk(g: Config, s: Sys, c: nat, p: nat, a: Act, t: Sys, d: nat)
    requires Inv(g, s) && CallStep(g, s, c, p, a, t) && SameShape(g, s, t) && c < |s.cpu| && d < |s.cpu| && d != c
    ensures CpuOk(g, t, d)
  {
    hide Inv;
    AroundCpu(g, s, c);
    AroundCpu(g, s, d);
    assert t.proc == s.proc && t.on == s.on && t.lock == s.lock && t.plock == s.plock && t.pstate == s.pstate;
    assert s.cpu[d].Run? ==> s.cpu[d].i != p;
  }

  lemma CallCpuOk(g: Config, s: Sys, c: nat, p: nat, a: Act, t: Sys, d: nat)
    requires Inv(g, s) && CallStep(g, s, c, p, a, t) && SameShape(g, s, t)
    requires c < |s.cpu| && d < |s.cpu|
    ensures CpuOk(g, t, d)
  {
    hide Inv;
    if d != c {
      CallOtherCpuOk(g, s, c, p, a, t, d);
    } else {
      Around(g, s, c);
    }
  }

  lemma CallProcOk(g: Config, s: Sys, c: nat, p: nat, a: Act, t: Sys, q: nat)
    requires Inv(g, s) && CallStep(g, s, c, p, a, t) && SameShape(g, s, t)
    requires c < |s.cpu| && q < |s.pstate|
    ensures ProcOk(g, t, q)
  {
    hide Inv;
    Around(g, s, c);
    AroundProc(g, s, q);
    AroundPLock(g, s, q);
    assert t.on == s.on && t.plock == s.plock && t.pstate == s.pstate && t.chan == s.chan;
    if q != p {
      assert t.pc[q] == s.pc[q];
    }
  }

  lemma CallPLockOk(g: Config, s: Sys, c: nat, p: nat, a: Act, t: Sys, q: nat)
    requires Inv(g, s) && CallStep(g, s, c, p, a, t) && SameShape(g, s, t)
    requires c < |s.cpu| && q < |s.pstate|
    ensures PLockOk(g, t, q)
  {
    hide Inv;
    Around(g, s, c);
    AroundPLock(g, s, q);
    assert t.plock == s.plock;
  }

  lemma CallLockOk(g: Config, s: Sys, c: nat, p: nat, a: Act, t: Sys, l: nat)
    requires Inv(g, s) && CallStep(g, s, c, p, a, t) && SameShape(g, s, t)
    requires c < |s.cpu| && l < |s.lock|
    ensures LockOk(g, t, l)
  {
    hide Inv;
    Around(g, s, c);
    AroundLock(g, s, l);
    assert t.lock == s.lock;
  }

  lemma CallNoLostWakeup(g: Config, s: Sys, c: nat, p: nat, a: Act, t: Sys, q: nat, ch: nat)
    requires Inv(g, s) && CallStep(g, s, c, p, a, t) && SameShape(g, s, t)
    requires c < |s.cpu| && q < |s.pstate| && ch < |g|
    ensures NoLostWakeup(g, t, q, ch)
  {
    hide Inv;
    Around(g, s, c);
    AroundChannel(g, s, q, ch);
    AroundLock(g, s, g[ch]);
    assert t.lock == s.lock && t.cond == s.cond && t.woken == s.woken && t.owed == s.owed && t.pstate == s.pstate;
    if q != p {
      assert t.pc[q] == s.pc[q];
    }
  }

  lemma CallKeepsInv(g: Config, s: Sys, c: nat, p: nat, a: Act, t: Sys)
    requires Inv(g, s) && CallStep(g, s, c, p, a, t)
    ensures Inv(g, t)
  {
    hide CpuOk, ProcOk, PLockOk, LockOk, NoLostWakeup, CallStep;
    CallShape(g, s, c, p, a, t);
    forall d: nat | d < |s.cpu| ensures CpuOk(g, t, d) { CallCpuOk(g, s, c, p, a, t, d); }
    forall q: nat | q < |s.pstate| ensures ProcOk(g, t, q) { CallProcOk(g, s, c, p, a, t, q); }
    forall q: nat | q < |s.pstate| ensures PLockOk(g, t, q) { CallPLockOk(g, s, c, p, a, t, q); }
    forall l: nat | l < |s.lock| ensures LockOk(g, t, l) { CallLockOk(g, s, c, p, a, t, l); }
    forall q: nat, ch: nat | q < |s.pstate| && ch < |g| ensures NoLostWakeup(g, t, q, ch) {
      CallNoLostWakeup(g, s, c, p, a, t, q, ch);
    }
  }

  // ---- interrupts

  lemma TrapShape(g: Config, s: Sys, c: nat, p: nat, a: Act, t: Sys)
    requires TrapStep(g, s, c, p, a, t)
    ensures SameShape(g, s, t) && c < |s.cpu|
  {
  }

  lemma TrapCpuOk(g: Config, s: Sys, c: nat, p: nat, a: Act, t: Sys, d: nat)
    requires Inv(g, s) && TrapStep(g, s, c, p, a, t) && SameShape(g, s, t)
    requires c < |s.cpu| && d < |s.cpu|
    ensures CpuOk(g, t, d)
  {
    hide Inv;
    Around(g, s, c);
    AroundCpu(g, s, d);
    assert t.cpu == s.cpu && t.proc == s.proc && t.on == s.on && t.lock == s.lock && t.plock == s.plock;
    assert d != c && s.cpu[d].Run? ==> s.cpu[d].i != p;
  }

  lemma TrapProcOk(g: Config, s: Sys, c: nat, p: nat, a: Act, t: Sys, q: nat)
    requires Inv(g, s) && TrapStep(g, s, c, p, a, t) && SameShape(g, s, t)
    requires c < |s.cpu| && q < |s.pstate|
    ensures ProcOk(g, t, q)
  {
    hide Inv;
    Around(g, s, c);
    AroundProc(g, s, q);
    assert t.on == s.on && t.plock == s.plock && t.pstate == s.pstate && t.chan == s.chan && t.cpu == s.cpu;
    assert q != p ==> t.pc[q] == s.pc[q] && t.back[q] == s.back[q];
  }

  lemma TrapPLockOk(g: Config, s: Sys, c: nat, p: nat, a: Act, t: Sys, q: nat)
    requires Inv(g, s) && TrapStep(g, s, c, p, a, t) && SameShape(g, s, t)
    requires c < |s.cpu| && q < |s.pstate|
    ensures PLockOk(g, t, q)
  {
    hide Inv;
    Around(g, s, c);
    AroundPLock(g, s, q);
    assert t.plock == s.plock && t.cpu == s.cpu;
  }

  lemma TrapLockOk(g: Config, s: Sys, c: nat, p: nat, a: Act, t: Sys, l: nat)
    requires Inv(g, s) && TrapStep(g, s, c, p, a, t) && SameShape(g, s, t)
    requires c < |s.cpu| && l < |s.lock|
    ensures LockOk(g, t, l)
  {
    hide Inv;
    Around(g, s, c);
    AroundLock(g, s, l);
    assert t.lock == s.lock && t.cpu == s.cpu;
  }

  lemma TrapNoLostWakeup(g: Config, s: Sys, c: nat, p: nat, a: Act, t: Sys, q: nat, ch: nat)
    requires Inv(g, s) && TrapStep(g, s, c, p, a, t) && SameShape(g, s, t)
    requires c < |s.cpu| && q < |s.pstate| && ch < |g|
    ensures NoLostWakeup(g, t, q, ch)
  {
    hide Inv;
    Around(g, s, c);
    AroundChannel(g, s, q, ch);
    AroundLock(g, s, g[ch]);
    assert t.lock == s.lock && t.cond == s.cond && t.woken == s.woken && t.owed == s.owed && t.pstate == s.pstate;
    assert t.cpu == s.cpu && (q != p ==> t.pc[q] == s.pc[q]);
  }

  lemma TrapKeepsInv(g: Config, s: Sys, c: nat, p: nat, a: Act, t: Sys)
    requires Inv(g, s) && TrapStep(g, s, c, p, a, t)
    ensures Inv(g, t)
  {
    hide CpuOk, ProcOk, PLockOk, LockOk, NoLostWakeup, TrapStep;
    TrapShape(g, s, c, p, a, t);
    forall d: nat | d < |s.cpu| ensures CpuOk(g, t, d) { TrapCpuOk(g, s, c, p, a, t, d); }
    forall q: nat | q < |s.pstate| ensures ProcOk(g, t, q) { TrapProcOk(g, s, c, p, a, t, q); }
    forall q: nat | q < |s.pstate| ensures PLockOk(g, t, q) { TrapPLockOk(g, s, c, p, a, t, q); }
    forall l: nat | l < |s.lock| ensures LockOk(g, t, l) { TrapLockOk(g, s, c, p, a, t, l); }
    forall q: nat, ch: nat | q < |s.pstate| && ch < |g| ensures NoLostWakeup(g, t, q, ch) {
      TrapNoLostWakeup(g, s, c, p, a, t, q, ch);
    }
  }

  /** Every step keeps the invariant. */
  lemma StepKeepsInv(g: Config, s: Sys, c: nat, a: Act, t: Sys)
    requires Inv(g, s) && Step(g, s, c, a, t)
    ensures Inv(g, t)
  {
    hide Inv, SchedStep, SleepStep, LookStep, ActStep, LeaveStep, LockStep, CallStep, TrapStep;
    if SchedStep(g, s, c, a, t) {
      SchedKeepsInv(g, s, c, a, t);
    } else {
      var p := s.cpu[c].i;
      if SleepStep(g, s, c, p, t) {
        SleepKeepsInv(g, s, c, p, t);
      } else if LookStep(g, s, c, p, t) {
        LookKeepsInv(g, s, c, p, t);
      } else if LeaveStep(g, s, c, p, t) {
        LeaveKeepsInv(g, s, c, p, t);
      } else if LockStep(g, s, c, p, a, t) {
        LockKeepsInv(g, s, c, p, a, t);
      } else if CallStep(g, s, c, p, a, t) {
        CallKeepsInv(g, s, c, p, a, t);
      } else if TrapStep(g, s, c, p, a, t) {
        TrapKeepsInv(g, s, c, p, a, t);
      } else {
        ActKeepsInv(g, s, c, p, s.pc[p].i, t);
      }
    }
  }

  // ---- whole runs

  /** Boot: processes unused or ready to run for the first time, every CPU in its
      scheduler, every lock free. */
  ghost predicate Boot(g: Config, s: Sys) {
    && Shape(g, s)
    && (forall c :: 0 <= c < |s.cpu| ==>
          s.cpu[c] == Idle && s.proc[c] == NONE && s.pc[|s.pstate| + c] == Client)
    && (forall l :: 0 <= l < |s.lock| ==> s.lock[l] == Free)
    && (forall ch :: 0 <= ch < |g| ==> !s.woken[ch] && !s.owed[ch])
    && (forall p :: 0 <= p < |s.pc| ==> s.back[p] == Client)
    && (forall p :: 0 <= p < |s.pstate| ==>
          && s.on[p] == NONE && s.chan[p] == NONE && s.plock[p] == Free
          && ((s.pc[p] == Gone && s.pstate[p] == UNUSED) || (s.pc[p] == Forkret && s.pstate[p] == RUNNABLE)))
  }

  datatype Move = Move(cpu: nat, act: Act)

  ghost predicate Execution(g: Config, moves: seq<Move>, states: seq<Sys>) {
    && |states| == |moves| + 1
    && Boot(g, states[0])
    && (forall k :: 0 <= k < |states| ==> Shape(g, states[k]))
    && forall k :: 0 <= k < |moves| ==> Step(g, states[k], moves[k].cpu, moves[k].act, states[k + 1])
  }

  lemma BootInv(g: Config, s: Sys)
    requires Boot(g, s)
    ensures Inv(g, s)
  {
    forall c: nat | c < |s.cpu| ensures CpuOk(g, s, c) { assert s.cpu[c] == Idle; }
  }

  lemma {:induction false} RunInv(g: Config, moves: seq<Move>, states: seq<Sys>, k: nat)
    requires Execution(g, moves, states) && k < |states|
    ensures Inv(g, states[k])
  {
    hide Step;
    if k == 0 {
      BootInv(g, states[0]);
    } else {
      RunInv(g, moves, states, k - 1);
      assert Step(g, states[k - 1], moves[k - 1].cpu, moves[k - 1].act, states[k - 1 + 1]);
      StepKeepsInv(g, states[k - 1], moves[k - 1].cpu, moves[k - 1].act, states[k]);
    }
  }

  /** One CPU per process: a process's thread is never on two CPUs, and one that
      a scheduler is about to switch to is on none; the CPU's c->proc names the
      process it runs. */
  lemma OneCpuPerProcess(g: Config, moves: seq<Move>, states: seq<Sys>, k: nat, c: nat, d: nat, p: nat)
    requires Execution(g, moves, states) && k < |states| && p < |states[k].pstate|
    requires c < |states[k].cpu| && d < |states[k].cpu| && states[k].cpu[c] == Run(p)
    ensures states[k].proc[c] == p
    ensures states[k].cpu[d] == Run(p) || states[k].cpu[d] == SetProc(p) || states[k].cpu[d] == SwitchIn(p) ==> c == d
  {
    RunInv(g, moves, states, k);
    hide ProcOk, PLockOk, LockOk, NoLostWakeup, Step;
    assert CpuOk(g, states[k], c) && CpuOk(g, states[k], d);
  }

  /** sleep() is atomic with respect to wakeup(): when a wakeup under the channel's
      lock is done, and until that lock is released, every process that had given
      up the lock in sleep() on the channel, however far it had got, is awake. */
  lemma WakeupReachesAll(g: Config, moves: seq<Move>, states: seq<Sys>, k: nat, p: nat, ch: nat)
    requires Execution(g, moves, states) && k < |states| && p < |states[k].pstate| && ch < |g|
    requires states[k].woken[ch]
    ensures !Asleep(states[k], p, ch) && !(states[k].pstate[p] == SLEEPING && states[k].chan[p] == ch)
  {
    RunInv(g, moves, states, k);
    hide CpuOk, PLockOk, LockOk, Step;
    assert ProcOk(g, states[k], p) && NoLostWakeup(g, states[k], p, ch);
  }

  /** Only a wakeup that was left out can be lost: a process that sleeps on a
      channel whose condition holds is owed one. */
  lemma SleepersAreOwed(g: Config, moves: seq<Move>, states: seq<Sys>, k: nat, p: nat, ch: nat)
    requires Execution(g, moves, states) && k < |states| && p < |states[k].pstate| && ch < |g|
    requires states[k].cond[ch] && states[k].pstate[p] == SLEEPING && states[k].chan[p] == ch
    ensures states[k].owed[ch]
  {
    RunInv(g, moves, states, k);
    hide CpuOk, PLockOk, LockOk, Step;
    assert ProcOk(g, states[k], p) && NoLostWakeup(g, states[k], p, ch);
  }

  /** If the channel's lock is free, no wakeup is owed. */
  ghost predicate Settled(g: Config, s: Sys, ch: nat) {
    ch < |s.owed| && ch < |g| && g[ch] < |s.lock| && s.lock[g[ch]] == Free ==> !s.owed[ch]
  }

  /** In every hold of the channel's lock in which the condition becomes and stays
      true there is a wakeup, before or after. */
  ghost predicate Wakes(g: Config, states: seq<Sys>, ch: nat) {
    forall k :: 0 < k < |states| && ch < |g| && g[ch] < |states[k - 1].lock| && states[k - 1].lock[g[ch]].By? ==>
                  Settled(g, states[k], ch)
  }

  lemma OwedUnderLock(g: Config, s: Sys, c: nat, a: Act, t: Sys, ch: nat)
    requires Step(g, s, c, a, t) && Shape(g, t) && ch < |g| && t.owed[ch] && !s.owed[ch]
    ensures t.lock[g[ch]].By?
  {
    hide SchedStep, SleepStep, LookStep, ActStep, LeaveStep, LockStep, CallStep, TrapStep;
    if c < |s.cpu| && s.cpu[c].Run? {
      var p := s.cpu[c].i;
      if LockStep(g, s, c, p, a, t) {
        OwedByLock(g, s, c, p, a, t, ch);
      } else {
        OwedByNone(g, s, c, p, a, t, ch);
      }
    } else {
      OwedByScheduler(g, s, c, a, t, ch);
    }
  }

  lemma OwedByLock(g: Config, s: Sys, c: nat, p: nat, a: Act, t: Sys, ch: nat)
    requires LockStep(g, s, c, p, a, t) && ch < |g| && Shape(g, t) && t.owed[ch] && !s.owed[ch]
    ensures t.lock[g[ch]].By?
  {
  }

  lemma OwedByScheduler(g: Config, s: Sys, c: nat, a: Act, t: Sys, ch: nat)
    requires SchedStep(g, s, c, a, t) && ch < |g|
    ensures t.owed == s.owed
  {
  }

  lemma OwedByNone(g: Config, s: Sys, c: nat, p: nat, a: Act, t: Sys, ch: nat)
    requires Step(g, s, c, a, t) && c < |s.cpu| && s.cpu[c] == Run(p) && Shape(g, t) && ch < |g|
    requires !LockStep(g, s, c, p, a, t)
    ensures Shape(g, s) && (t.owed[ch] ==> s.owed[ch])
  {
    hide LockStep;
  }

  lemma {:induction false} NothingOwed(g: Config, moves: seq<Move>, states: seq<Sys>, k: nat, ch: nat)
    requires Execution(g, moves, states) && k < |states| && ch < |g| && Wakes(g, states, ch)
    ensures Settled(g, states[k], ch)
  {
    hide Step;
    if k > 0 {
      assert Step(g, states[k - 1], moves[k - 1].cpu, moves[k - 1].act, states[k - 1 + 1]);
      if states[k - 1].lock[g[ch]] == Free {
        NothingOwed(g, moves, states, k - 1, ch);
        if states[k].owed[ch] {
          OwedUnderLock(g, states[k - 1], moves[k - 1].cpu, moves[k - 1].act, states[k], ch);
        }
      }
    }
  }

  /** No lost wakeup: if the clients of a channel wake it, then whenever its lock
      is free and its condition holds, no process sleeps on it. */
  lemma NobodySleepsOnATrueCondition(g: Config, moves: seq<Move>, states: seq<Sys>, k: nat, p: nat, ch: nat)
    requires Execution(g, moves, states) && k < |states| && p < |states[k].pstate| && ch < |g| && Wakes(g, states, ch)
    requires states[k].lock[g[ch]] == Free && states[k].cond[ch]
    ensures !(states[k].pstate[p] == SLEEPING && states[k].chan[p] == ch)
  {
    hide Step;
    NothingOwed(g, moves, states, k, ch);
    if states[k].pstate[p] == SLEEPING && states[k].chan[p] == ch {
      SleepersAreOwed(g, moves, states, k, p, ch);
    }
  }

  /** The thread is at a call of sched(). */
  predicate CallsSched(pc: Pc) {
    pc.SleepSwitch? || pc.YieldSwitch? || pc.ExitSwitch?
  }

  /** sched()'s checks of locks and state pass: the caller holds its own lock, has
      changed its state, and its CPU holds no other lock. */
  lemma SchedNeverPanics(g: Config, moves: seq<Move>, states: seq<Sys>, k: nat, c: nat, p: nat)
    requires Execution(g, moves, states) && k < |states| && c < |states[k].cpu| && p < |states[k].pstate|
    requires states[k].cpu[c] == Run(p) && CallsSched(states[k].pc[p])
    ensures var s := states[k];
            && s.plock[p] == By(c) && s.pstate[p] != RUNNING
            && (forall i :: 0 <= i < |s.plock| && s.plock[i] == By(c) ==> i == p)
            && (forall l :: 0 <= l < |s.lock| ==> s.lock[l] != By(c))
  {
    RunInv(g, moves, states, k);
    hide NoLostWakeup, Step;
    var s := states[k];
    assert CpuOk(g, s, c) && ProcOk(g, s, p);
    forall i | 0 <= i < |s.plock| && s.plock[i] == By(c) ensures i == p { assert PLockOk(g, s, i); }
    forall l | 0 <= l < |s.lock| ensures s.lock[l] != By(c) { assert LockOk(g, s, l); }
  }

  /** A scan that holds a zombie's lock finds it off every CPU, so freeing it (and
      later giving it a fresh context) cannot pull its stack from under it. */
  lemma ZombieIsOffCpu(g: Config, moves: seq<Move>, states: seq<Sys>, k: nat, c: nat, p: nat, i: nat, d: nat)
    requires Execution(g, moves, states) && k < |states| && c < |states[k].cpu| && d < |states[k].cpu|
    requires p < |states[k].pc| && i < |states[k].pstate|
    requires states[k].cpu[c] == Run(p) && InScan(states[k].pc[p], i)
    requires states[k].pstate[i] in {ZOMBIE, UNUSED, USED}
    ensures states[k].cpu[d] != Run(i)
  {
    RunInv(g, moves, states, k);
    hide NoLostWakeup, Step, LockOk;
    var s := states[k];
    assert CpuOk(g, s, c) && CpuOk(g, s, d) && ProcOk(g, s, i) && PLockOk(g, s, i);
  }
}
