/** What the scheduler and sleep() bring about in every execution: who is switched to,
    how a process's state can change, and when sleep() returns. */
module SchedRuns {
  import opened Base
  import opened Sched

  // ---- the life of a process

  /** The thread that runs on CPU c is about to act on process i in a scan. */
  ghost predicate Acts(s: Sys, c: nat, op: Scan, i: nat) {
    c < |s.cpu| && s.cpu[c].Run? && s.cpu[c].i < |s.pc| && s.pc[s.cpu[c].i] == ScanAct(op, i)
  }

  /** Process i's own thread runs on CPU c. */
  ghost predicate Itself(s: Sys, c: nat, i: nat) {
    c < |s.cpu| && s.cpu[c] == Run(i) && i < |s.pc|
  }

  /** All the ways in which a move of CPU c can change process i's state. */
  ghost predicate Change(s: Sys, c: nat, i: nat, after: PState)
    requires i < |s.pstate| && |s.chan| == |s.pstate| <= |s.pc|
  {
    match s.pstate[i]
    case UNUSED => after == USED && Acts(s, c, Alloc, i)
    case USED => after == RUNNABLE && Acts(s, c, Start, i)
    case RUNNABLE => after == RUNNING && c < |s.cpu| && s.cpu[c] == Test(i)
    case RUNNING =>
      || (after == SLEEPING && Itself(s, c, i) && s.pc[i].SleepState?)
      || (after == RUNNABLE && Itself(s, c, i) && s.pc[i] == YieldState)
      || (after == ZOMBIE && Itself(s, c, i) && s.pc[i].ExitState?)
    case SLEEPING =>
      after == RUNNABLE && (Acts(s, c, Kill, i) || (s.chan[i] >= 0 && Acts(s, c, Wakeup(s.chan[i]), i)))
    case ZOMBIE => after == UNUSED && Acts(s, c, Reap, i)
  }

  /** What a step of CPU c leaves as it is. */
  ghost predicate Framed(s: Sys, c: nat, t: Sys)
    requires |s.chan| == |s.plock| == |s.on| == |s.pstate| <= |s.pc| == |s.back|
    requires |t.chan| == |t.plock| == |t.on| == |t.pstate| == |s.pstate| && |t.pc| == |t.back| == |s.pc|
    requires |s.cpu| == |t.cpu| == |s.proc| == |t.proc|
  {
    && (forall d :: 0 <= d < |s.cpu| && d != c ==> t.cpu[d] == s.cpu[d] && t.proc[d] == s.proc[d])
    && (forall i :: 0 <= i < |s.pstate| && t.pstate[i] != s.pstate[i] ==> Change(s, c, i, t.pstate[i]))
    && (forall i :: 0 <= i < |s.pc| && !Itself(s, c, i) ==>
          t.back[i] == s.back[i] && (t.pc[i] == s.pc[i] || (i < |s.pstate| && s.pstate[i] == UNUSED)))
    && (forall i :: 0 <= i < |s.pstate| && !Itself(s, c, i) ==>
          && (t.chan[i] == s.chan[i] || s.pstate[i] == ZOMBIE)
          && (t.on[i] == s.on[i] || (c < |s.cpu| && s.cpu[c] == SwitchIn(i))))
    && (forall i :: 0 <= i < |s.pstate| && s.plock[i].By? && s.plock[i].cpu != c ==> t.plock[i] == s.plock[i])
  }

  lemma SchedFramed(g: Config, s: Sys, c: nat, a: Act, t: Sys)
    requires Inv(g, s) && SchedStep(g, s, c, a, t) && SameShape(g, s, t)
    ensures Framed(s, c, t)
  {
    hide Inv;
    AroundCpu(g, s, c);
  }

  lemma SleepFramed(g: Config, s: Sys, c: nat, p: nat, t: Sys)
    requires Inv(g, s) && SleepStep(g, s, c, p, t) && SameShape(g, s, t)
    ensures Framed(s, c, t)
  {
    hide Inv;
    Around(g, s, c);
  }

  lemma LookFramed(g: Config, s: Sys, c: nat, p: nat, t: Sys)
    requires Inv(g, s) && LookStep(g, s, c, p, t) && SameShape(g, s, t)
    ensures Framed(s, c, t)
  {
    hide Inv;
    Around(g, s, c);
  }

  lemma ActFramed(g: Config, s: Sys, c: nat, p: nat, i: nat, t: Sys)
    requires Inv(g, s) && ActStep(g, s, c, p, i, t) && SameShape(g, s, t)
    ensures Framed(s, c, t)
  {
    hide Inv;
    Around(g, s, c);
  }

  lemma LeaveFramed(g: Config, s: Sys, c: nat, p: nat, t: Sys)
    requires Inv(g, s) && LeaveStep(g, s, c, p, t) && SameShape(g, s, t)
    ensures Framed(s, c, t)
  {
    hide Inv;
    Around(g, s, c);
  }

  lemma LockFramed(g: Config, s: Sys, c: nat, p: nat, a: Act, t: Sys)
    requires LockStep(g, s, c, p, a, t) && SameShape(g, s, t)
    ensures Framed(s, c, t)
  {
  }

  lemma CallFramed(g: Config, s: Sys, c: nat, p: nat, a: Act, t: Sys)
    requires CallStep(g, s, c, p, a, t) && SameShape(g, s, t)
    ensures Framed(s, c, t)
  {
  }

  lemma TrapFramed(g: Config, s: Sys, c: nat, p: nat, a: Act, t: Sys)
    requires TrapStep(g, s, c, p, a, t) && SameShape(g, s, t)
    ensures Framed(s, c, t)
  {
  }

  lemma StepFramed(g: Config, s: Sys, c: nat, a: Act, t: Sys)
    requires Inv(g, s) && Step(g, s, c, a, t)
    ensures Shape(g, s) && SameShape(g, s, t) && Framed(s, c, t)
  {
    hide Inv, SchedStep, SleepStep, LookStep, ActStep, LeaveStep, LockStep, CallStep, TrapStep, Framed;
    InvShape(g, s);
    if SchedStep(g, s, c, a, t) {
      SchedShape(g, s, c, a, t);
      SchedFramed(g, s, c, a, t);
    } else {
      var p := s.cpu[c].i;
      if SleepStep(g, s, c, p, t) {
        SleepShape(g, s, c, p, t);
        SleepFramed(g, s, c, p, t);
      } else if LookStep(g, s, c, p, t) {
        LookShape(g, s, c, p, t);
        LookFramed(g, s, c, p, t);
      } else if LeaveStep(g, s, c, p, t) {
        LeaveShape(g, s, c, p, t);
        LeaveFramed(g, s, c, p, t);
      } else if LockStep(g, s, c, p, a, t) {
        LockShape(g, s, c, p, a, t);
        LockFramed(g, s, c, p, a, t);
      } else if CallStep(g, s, c, p, a, t) {
        CallShape(g, s, c, p, a, t);
        CallFramed(g, s, c, p, a, t);
      } else if TrapStep(g, s, c, p, a, t) {
        TrapShape(g, s, c, p, a, t);
        TrapFramed(g, s, c, p, a, t);
      } else {
        ActShape(g, s, c, p, s.pc[p].i, t);
        ActFramed(g, s, c, p, s.pc[p].i, t);
      }
    }
  }

  lemma InvShape(g: Config, s: Sys)
    requires Inv(g, s)
    ensures Shape(g, s)
  {
  }

  lemma Moved(g: Config, moves: seq<Move>, states: seq<Sys>, k: nat)
    requires Execution(g, moves, states) && k < |moves|
    ensures |states| == |moves| + 1 && Shape(g, states[k]) && SameShape(g, states[k], states[k + 1])
    ensures Inv(g, states[k]) && Step(g, states[k], moves[k].cpu, moves[k].act, states[k + 1])
    ensures Framed(states[k], moves[k].cpu, states[k + 1])
  {
    hide Inv, Step, Framed, Boot;
    RunInv(g, moves, states, k);
    StepFramed(g, states[k], moves[k].cpu, moves[k].act, states[k + 1]);
  }

  /** In every execution a process's state changes only by allocation, start, being
      switched to, its own sleep, yield and exit, a wakeup of its channel or a kill, and
      reaping. */
  lemma StateChanges(g: Config, moves: seq<Move>, states: seq<Sys>, k: nat, i: nat)
    requires Execution(g, moves, states) && k < |moves| && i < |states[k].pstate|
    ensures Shape(g, states[k]) && i < |states[k + 1].pstate|
    ensures states[k + 1].pstate[i] == states[k].pstate[i] ||
            Change(states[k], moves[k].cpu, i, states[k + 1].pstate[i])
  {
    hide Inv, Step, Change, Execution;
    Moved(g, moves, states, k);
  }

  /** At a scan's action the CPU can do nothing else. */
  lemma OnlyActs(g: Config, s: Sys, c: nat, a: Act, t: Sys, op: Scan, i: nat)
    requires Step(g, s, c, a, t) && Acts(s, c, op, i)
    ensures ActStep(g, s, c, s.cpu[c].i, i, t)
  {
  }

  /** And when a scan has acted on a process it is what the scan wants it to be. */
  lemma ScanHasActed(g: Config, moves: seq<Move>, states: seq<Sys>, k: nat, op: Scan, i: nat)
    requires Execution(g, moves, states) && k < |moves| && Acts(states[k], moves[k].cpu, op, i)
    ensures Shape(g, states[k]) && Shape(g, states[k + 1]) && i < |states[k].pstate| == |states[k + 1].pstate|
    ensures var s, t := states[k], states[k + 1];
            && (op.Alloc? && s.pstate[i] == UNUSED ==> t.pstate[i] == USED && t.pc[i] == Forkret)
            && (op.Start? && s.pstate[i] == USED ==> t.pstate[i] == RUNNABLE)
            && (op.Kill? ==> t.pstate[i] != SLEEPING)
            && (op.Wakeup? ==> !(t.pstate[i] == SLEEPING && t.chan[i] == op.ch))
            && (op.Reap? ==> t.pstate[i] != ZOMBIE && (s.pstate[i] == ZOMBIE ==> t.chan[i] == NONE))
  {
    hide Inv, Step, Framed;
    Moved(g, moves, states, k);
    var s, c := states[k], moves[k].cpu;
    OnlyActs(g, s, c, moves[k].act, states[k + 1], op, i);
    RunInv(g, moves, states, k);
    NotOneself(g, s, c, op, i);
  }

  /** A thread that allocates a process is not that process's. */
  lemma NotOneself(g: Config, s: Sys, c: nat, op: Scan, i: nat)
    requires Inv(g, s) && Acts(s, c, op, i) && i < |s.pstate|
    ensures s.pstate[i] == UNUSED ==> s.cpu[c].i != i
  {
    hide Inv;
    AroundProc(g, s, i);
  }

  // ---- the scheduler

  /** Nobody but the scheduler that holds a process's lock changes it. */
  lemma StepHeld(g: Config, s: Sys, c: nat, a: Act, t: Sys, d: nat, i: nat)
    requires Inv(g, s) && Step(g, s, c, a, t) && Shape(g, s) && SameShape(g, s, t) && Framed(s, c, t)
    requires d < |s.cpu| && d != c && c < |s.cpu| && i < |s.pstate| && SchedulerHolds(s.cpu[d], i)
    ensures t.cpu[d] == s.cpu[d] && t.proc[d] == s.proc[d] && t.plock[i] == s.plock[i] && t.pstate[i] == s.pstate[i]
  {
    hide Inv, Step;
    AroundCpu(g, s, d);
    AroundCpu(g, s, c);
  }

  /** CPU c makes no move from k to m. */
  ghost predicate Rests(moves: seq<Move>, c: nat, k: nat, m: nat)
    requires m <= |moves|
  {
    forall x :: k <= x < m ==> moves[x].cpu != c
  }

  lemma {:induction false} Undisturbed(g: Config, moves: seq<Move>, states: seq<Sys>, c: nat, i: nat, k: nat, m: nat)
    requires Execution(g, moves, states) && k <= m <= |moves| && Rests(moves, c, k, m)
    requires c < |states[k].cpu| && i < |states[k].pstate| && SchedulerHolds(states[k].cpu[c], i)
    ensures SameShape(g, states[k], states[m]) && Shape(g, states[k])
    ensures var s, t := states[k], states[m];
            && t.cpu[c] == s.cpu[c] && t.proc[c] == s.proc[c] && t.plock[i] == s.plock[i] && t.pstate[i] == s.pstate[i]
    decreases m
  {
    hide Inv, Step, Framed, Boot;
    if k < m {
      Undisturbed(g, moves, states, c, i, k, m - 1);
      Moved(g, moves, states, m - 1);
      StepCpu(g, states[m - 1], moves[m - 1].cpu, moves[m - 1].act, states[m]);
      StepHeld(g, states[m - 1], moves[m - 1].cpu, moves[m - 1].act, states[m], c, i);
    }
  }

  lemma StepCpu(g: Config, s: Sys, c: nat, a: Act, t: Sys)
    requires Step(g, s, c, a, t)
    ensures c < |s.cpu|
  {
  }

  /** The next move of CPU c, made at m in its scheduler loop. */
  lemma SchedulerMoves(g: Config, moves: seq<Move>, states: seq<Sys>, c: nat, i: nat, k: nat, m: nat)
    requires Execution(g, moves, states) && k <= m < |moves| && Rests(moves, c, k, m) && moves[m].cpu == c
    requires c < |states[k].cpu| && i < |states[k].pstate| && SchedulerHolds(states[k].cpu[c], i)
    ensures Shape(g, states[k]) && SameShape(g, states[k], states[m]) && SameShape(g, states[k], states[m + 1])
    ensures SchedStep(g, states[m], c, moves[m].act, states[m + 1]) && states[m].plock[i] == By(c)
    ensures var s, t := states[k], states[m];
            && t.cpu[c] == s.cpu[c] && t.proc[c] == s.proc[c] && t.plock[i] == s.plock[i] && t.pstate[i] == s.pstate[i]
  {
    hide Inv, Step, Framed, Boot, SchedStep;
    Undisturbed(g, moves, states, c, i, k, m);
    Moved(g, moves, states, m);
    IsSched(g, states[m], c, moves[m].act, states[m + 1], i);
  }

  lemma IsSched(g: Config, s: Sys, c: nat, a: Act, t: Sys, i: nat)
    requires Inv(g, s) && Step(g, s, c, a, t) && Shape(g, s) && SchedulerHolds(s.cpu[c], i) && i < |s.pstate|
    ensures SchedStep(g, s, c, a, t) && s.plock[i] == By(c)
  {
    hide Inv;
    AroundCpu(g, s, c);
  }

  /** A process that a scheduler finds RUNNABLE under its lock runs: three moves of that
      CPU later, whatever the others do, the CPU is in the process's thread. */
  lemma PickedRuns(g: Config, moves: seq<Move>, states: seq<Sys>, c: nat, i: nat, k: nat, x: nat, y: nat, z: nat)
    requires Execution(g, moves, states) && k <= x < y < z < |moves|
    requires moves[x].cpu == c && moves[y].cpu == c && moves[z].cpu == c
    requires Rests(moves, c, k, x) && Rests(moves, c, x + 1, y) && Rests(moves, c, y + 1, z)
    requires c < |states[k].cpu| && i < |states[k].pstate| && states[k].cpu[c] == Test(i)
    requires states[k].pstate[i] == RUNNABLE
    ensures var t := states[z + 1];
            && Shape(g, t) && c < |t.cpu| && i < |t.pstate|
            && t.cpu[c] == Run(i) && t.proc[c] == i && t.on[i] == c && t.pstate[i] == RUNNING && t.plock[i] == By(c)
  {
    hide Execution, Inv, Step;
    SchedulerMoves(g, moves, states, c, i, k, x);
    SchedulerMoves(g, moves, states, c, i, x + 1, y);
    SchedulerMoves(g, moves, states, c, i, y + 1, z);
  }

  /** One that it does not find RUNNABLE it leaves alone, and lets go of the lock. */
  lemma OthersAreLeft(g: Config, moves: seq<Move>, states: seq<Sys>, c: nat, i: nat, k: nat, x: nat, y: nat)
    requires Execution(g, moves, states) && k <= x < y < |moves| && moves[x].cpu == c && moves[y].cpu == c
    requires Rests(moves, c, k, x) && Rests(moves, c, x + 1, y)
    requires c < |states[k].cpu| && i < |states[k].pstate| && states[k].cpu[c] == Test(i)
    requires states[k].pstate[i] != RUNNABLE
    ensures var s, t := states[k], states[y + 1];
            && Shape(g, t) && |t.pstate| == |s.pstate| && |t.cpu| == |s.cpu|
            && t.cpu[c] == Idle && t.plock[i] == Free && t.pstate[i] == s.pstate[i]
  {
    hide Execution, Inv, Step;
    SchedulerMoves(g, moves, states, c, i, k, x);
    SchedulerMoves(g, moves, states, c, i, x + 1, y);
  }

  /** After a thread has switched away its CPU forgets it and lets go of its lock. */
  lemma SwitchedAway(g: Config, moves: seq<Move>, states: seq<Sys>, c: nat, i: nat, k: nat, x: nat, y: nat)
    requires Execution(g, moves, states) && k <= x < y < |moves| && moves[x].cpu == c && moves[y].cpu == c
    requires Rests(moves, c, k, x) && Rests(moves, c, x + 1, y)
    requires c < |states[k].cpu| && i < |states[k].pstate| && states[k].cpu[c] == ClearProc(i)
    ensures var s, t := states[k], states[y + 1];
            && Shape(g, t) && |t.pstate| == |s.pstate| && |t.cpu| == |s.cpu|
            && t.cpu[c] == Idle && t.proc[c] == NONE && t.plock[i] == Free && t.pstate[i] == s.pstate[i]
  {
    hide Execution, Inv, Step;
    SchedulerMoves(g, moves, states, c, i, k, x);
    SchedulerMoves(g, moves, states, c, i, x + 1, y);
  }

  // ---- sleep()

  /** Process p is inside sleep(ch), perhaps interrupted there. */
  ghost predicate InSleep(s: Sys, p: nat, ch: nat) {
    && p < |s.pstate| <= |s.pc| == |s.back|
    && ((Sleeping(s.pc[p]) && s.pc[p].ch == ch && s.back[p].Client?) || s.back[p] == SleepRelock(ch))
  }

  /** The thread is in client code and not in an interrupt handler. */
  ghost predicate Returned(s: Sys, p: nat) {
    p < |s.pc| == |s.back| && s.pc[p].Client? && s.back[p].Client?
  }

  /** Process p's thread calls sleep(ch) in move j and has not returned in state k. */
  ghost predicate SleepCall(moves: seq<Move>, states: seq<Sys>, p: nat, ch: nat, j: nat, k: nat) {
    && j < k < |states| == |moves| + 1 && Itself(states[j], moves[j].cpu, p) && moves[j].act == SleepOn(ch)
    && forall m :: j < m <= k ==> !Returned(states[m], p)
  }

  ghost predicate SleepsOn(s: Sys, p: nat, ch: nat) {
    p < |s.pstate| && p < |s.chan| && s.pstate[p] == SLEEPING && s.chan[p] == ch
  }

  /** The move makes p, asleep on ch, runnable: a wakeup of ch or a kill. */
  ghost predicate WakesUp(s: Sys, c: nat, t: Sys, p: nat, ch: nat) {
    && SleepsOn(s, p, ch) && (Acts(s, c, Wakeup(ch), p) || Acts(s, c, Kill, p))
    && p < |t.pstate| && t.pstate[p] == RUNNABLE
  }

  ghost predicate Slept(states: seq<Sys>, p: nat, ch: nat, j: nat, k: nat)
    requires k < |states|
  {
    exists m :: j < m <= k && SleepsOn(states[m], p, ch)
  }

  ghost predicate Awakened(moves: seq<Move>, states: seq<Sys>, p: nat, ch: nat, j: nat, k: nat)
    requires k < |states| == |moves| + 1
  {
    exists m :: j < m < k && WakesUp(states[m], moves[m].cpu, states[m + 1], p, ch)
  }

  /** How far sleep(ch) has come: whether p has slept, and whether it was woken. */
  ghost predicate Stage(s: Sys, p: nat, ch: nat, slept: bool, woken: bool)
    requires InSleep(s, p, ch)
  {
    if s.back[p].Client? then
      match s.pc[p]
      case SleepSwitch(_) => slept
      case SleepResumed(_) => slept && (s.pstate[p] != SLEEPING ==> woken)
      case SleepRelease(_) => slept && woken
      case SleepRelock(_) => slept && woken
      case _ => true
    else slept && woken
  }

  /** A step of p's own thread inside sleep. */
  lemma OwnStage(g: Config, s: Sys, c: nat, a: Act, t: Sys, p: nat, ch: nat, slept: bool, woken: bool)
    requires Inv(g, s) && Step(g, s, c, a, t) && Itself(s, c, p) && p < |s.pstate| && p < |t.pstate|
    requires InSleep(s, p, ch) && InSleep(t, p, ch) && Stage(s, p, ch, slept, woken)
    ensures Stage(t, p, ch, slept || SleepsOn(t, p, ch), woken)
  {
    hide Inv;
    Around(g, s, c);
  }

  lemma OtherStage(g: Config, s: Sys, c: nat, a: Act, t: Sys, p: nat, ch: nat, slept: bool, woken: bool)
    requires Inv(g, s) && Step(g, s, c, a, t) && Shape(g, s) && SameShape(g, s, t) && Framed(s, c, t)
    requires !Itself(s, c, p) && InSleep(s, p, ch) && InSleep(t, p, ch) && Stage(s, p, ch, slept, woken)
    ensures Stage(t, p, ch, slept, woken || WakesUp(s, c, t, p, ch))
  {
    hide Inv, Step;
    AroundProc(g, s, p);
  }

  /** Others' moves do not take p out of sleep, nor does what an interrupt handler does. */
  lemma OthersKeepAsleep(g: Config, s: Sys, c: nat, t: Sys, p: nat, ch: nat)
    requires Inv(g, s) && Shape(g, s) && SameShape(g, s, t) && Framed(s, c, t)
    requires InSleep(s, p, ch) && !Itself(s, c, p)
    ensures InSleep(t, p, ch)
  {
    hide Inv;
    AroundProc(g, s, p);
  }

  /** An interrupted thread keeps the place to go back to, or goes back there. */
  lemma HandlerReturns(g: Config, s: Sys, c: nat, a: Act, t: Sys, p: nat)
    requires Step(g, s, c, a, t) && Shape(g, s) && SameShape(g, s, t) && Itself(s, c, p) && !s.back[p].Client?
    ensures t.back[p] == s.back[p] || (t.back[p].Client? && t.pc[p] == s.back[p])
  {
    hide CpuEnabled, SleepEnabled, LookEnabled, LeaveEnabled, LockEnabled, CallEnabled, Holds, HoldsAtMost;
  }

  lemma OnlySleeps(g: Config, s: Sys, c: nat, a: Act, t: Sys, p: nat)
    requires Step(g, s, c, a, t) && Shape(g, s) && Itself(s, c, p) && p < |s.pstate| && Sleeping(s.pc[p])
    ensures SleepStep(g, s, c, p, t) || TrapStep(g, s, c, p, a, t)
  {
  }

  lemma RelocksLast(g: Config, s: Sys, c: nat, a: Act, t: Sys, p: nat, ch: nat)
    requires Inv(g, s) && Shape(g, s) && SameShape(g, s, t) && ch < |g|
    requires SleepStep(g, s, c, p, t) || TrapStep(g, s, c, p, a, t)
    requires s.back[p].Client? && Sleeping(s.pc[p]) && s.pc[p].ch == ch && p < |s.pstate| && !InSleep(t, p, ch)
    ensures s.pc[p] == SleepRelock(ch) && t.pc[p] == Client && t.back[p] == Client
    ensures t.lock[g[ch]] == By(c) && t.pstate[p] == RUNNING && t.cpu[c] == Run(p)
  {
    hide Inv;
    AroundProc(g, s, p);
    AroundCpu(g, s, c);
  }

  lemma Leaves(g: Config, s: Sys, c: nat, a: Act, t: Sys, p: nat, ch: nat)
    requires Inv(g, s) && Step(g, s, c, a, t) && Shape(g, s) && SameShape(g, s, t) && Framed(s, c, t) && ch < |g|
    requires c < |s.cpu| && InSleep(s, p, ch) && !InSleep(t, p, ch)
    ensures Itself(s, c, p) && s.pc[p] == SleepRelock(ch) && s.back[p].Client?
    ensures t.pc[p] == Client && t.back[p] == Client && t.lock[g[ch]] == By(c) && t.pstate[p] == RUNNING
    ensures t.cpu[c] == Run(p)
  {
    hide Inv, Step, Framed, SleepStep, TrapStep, Itself;
    if !Itself(s, c, p) {
      OthersKeepAsleep(g, s, c, t, p, ch);
    } else if s.back[p] == SleepRelock(ch) {
      HandlerReturns(g, s, c, a, t, p);
    } else {
      OnlySleeps(g, s, c, a, t, p);
      RelocksLast(g, s, c, a, t, p, ch);
    }
  }

  lemma {:induction false} SleepInProgress(g: Config, moves: seq<Move>, states: seq<Sys>, p: nat, ch: nat, j: nat,
      k: nat)
    requires Execution(g, moves, states) && SleepCall(moves, states, p, ch, j, k) && p < |states[j].pstate|
    ensures ch < |g| && InSleep(states[k], p, ch)
    ensures Stage(states[k], p, ch, Slept(states, p, ch, j, k), Awakened(moves, states, p, ch, j, k))
    decreases k
  {
    hide Inv, Step, Framed, Boot, Stage, InSleep, SleepsOn, WakesUp;
    var s, c, t := states[k - 1], moves[k - 1].cpu, states[k];
    Moved(g, moves, states, k - 1);
    if k - 1 == j {
      Begins(g, s, c, t, p, ch, Slept(states, p, ch, j, k), Awakened(moves, states, p, ch, j, k));
    } else {
      SleepInProgress(g, moves, states, p, ch, j, k - 1);
      StepCpu(g, s, c, moves[k - 1].act, t);
      if !InSleep(t, p, ch) { Leaves(g, s, c, moves[k - 1].act, t, p, ch); }
      var slept, woken := Slept(states, p, ch, j, k - 1), Awakened(moves, states, p, ch, j, k - 1);
      if Itself(s, c, p) {
        Inside(s, t, p, ch);
        OwnStage(g, s, c, moves[k - 1].act, t, p, ch, slept, woken);
        Later(t, p, ch, slept || SleepsOn(t, p, ch), woken, Slept(states, p, ch, j, k),
              Awakened(moves, states, p, ch, j, k));
      } else {
        OtherStage(g, s, c, moves[k - 1].act, t, p, ch, slept, woken);
        Later(t, p, ch, slept, woken || WakesUp(s, c, t, p, ch), Slept(states, p, ch, j, k),
              Awakened(moves, states, p, ch, j, k));
      }
    }
  }

  lemma Inside(s: Sys, t: Sys, p: nat, ch: nat)
    requires InSleep(s, p, ch) && InSleep(t, p, ch)
    ensures p < |s.pstate| && p < |t.pstate|
  {
  }

  lemma Later(s: Sys, p: nat, ch: nat, slept: bool, woken: bool, slept': bool, woken': bool)
    requires InSleep(s, p, ch) && Stage(s, p, ch, slept, woken) && (slept ==> slept') && (woken ==> woken')
    ensures Stage(s, p, ch, slept', woken')
  {
  }

  lemma Begins(g: Config, s: Sys, c: nat, t: Sys, p: nat, ch: nat, slept: bool, woken: bool)
    requires Step(g, s, c, SleepOn(ch), t) && Itself(s, c, p) && p < |s.pstate|
    ensures ch < |g| && InSleep(t, p, ch) && Stage(t, p, ch, slept, woken)
  {
  }

  /** sleep(ch) returns only after its caller was asleep on ch and was then made runnable
      by a wakeup of ch or a kill, and returns with the channel's lock held again by the
      CPU that runs it. */
  lemma SleepReturns(g: Config, moves: seq<Move>, states: seq<Sys>, p: nat, ch: nat, j: nat, k: nat)
    requires Execution(g, moves, states) && SleepCall(moves, states, p, ch, j, k) && k < |moves|
    requires p < |states[j].pstate| && Returned(states[k + 1], p)
    ensures ch < |g| && Slept(states, p, ch, j, k) && Awakened(moves, states, p, ch, j, k)
    ensures var t, c := states[k + 1], moves[k].cpu;
            && Shape(g, t) && p < |t.pstate| && c < |t.cpu|
            && t.cpu[c] == Run(p) && t.lock[g[ch]] == By(c) && t.pstate[p] == RUNNING
  {
    hide Inv, Step, Framed, Boot, Slept, Awakened;
    Moved(g, moves, states, k);
    SleepInProgress(g, moves, states, p, ch, j, k);
    StepCpu(g, states[k], moves[k].cpu, moves[k].act, states[k + 1]);
    Leaves(g, states[k], moves[k].cpu, moves[k].act, states[k + 1], p, ch);
  }

  // ---- scans

  predicate IsScan(pc: Pc) {
    pc.ScanAcquire? || pc.ScanAct? || pc.ScanRelease?
  }

  /** Thread p is in a scan, perhaps interrupted there; back is what it had to go back to
      when it began. */
  ghost predicate InScanOf(s: Sys, p: nat, op: Scan, back: Pc) {
    && p < |s.pc| == |s.back|
    && (|| (IsScan(s.pc[p]) && s.pc[p].op == op && s.back[p] == back)
        || (back.Client? && s.back[p].ScanAcquire? && s.back[p].op == op))
  }

  /** Where it is in the scan. */
  ghost function ScanPc(s: Sys, p: nat, back: Pc): Pc
    requires p < |s.pc| == |s.back|
  {
    if s.back[p] == back then s.pc[p] else s.back[p]
  }

  ghost predicate Ended(t: Sys, p: nat, back: Pc) {
    p < |t.pc| == |t.back| && t.pc[p].Client? && t.back[p] == back
  }

  /** Thread p starts a scan in move j and has not ended it in state k. */
  ghost predicate ScanCall(moves: seq<Move>, states: seq<Sys>, p: nat, op: Scan, i: nat, back: Pc, j: nat, k: nat) {
    && j < k < |states| == |moves| + 1 && Itself(states[j], moves[j].cpu, p) && moves[j].act == StartScan(op, i)
    && p < |states[j].back| && states[j].back[p] == back
    && forall m :: j < m <= k ==> !Ended(states[m], p, back)
  }

  /** In some move the thread acted on process q. */
  ghost predicate ActedOn(moves: seq<Move>, states: seq<Sys>, p: nat, op: Scan, q: nat, j: nat, k: nat)
    requires k < |states| == |moves| + 1
  {
    exists m :: j < m < k && Itself(states[m], moves[m].cpu, p) && Acts(states[m], moves[m].cpu, op, q)
  }

  ghost function DoneIn(moves: seq<Move>, states: seq<Sys>, p: nat, op: Scan, n: nat, j: nat, k: nat): set<nat>
    requires k < |states| == |moves| + 1
  {
    set q: nat | q < n && ActedOn(moves, states, p, op, q, j, k)
  }

  /** A wakeup goes through all processes but its caller, the other scans look at one. */
  ghost predicate ScanStage(pc: Pc, p: nat, i: nat, n: nat, done: set<nat>) {
    && IsScan(pc) && (if pc.op.Wakeup? then pc.i <= n else pc.i == i < n)
    && (pc.op.Wakeup? ==> forall q: nat :: q < pc.i && q != p ==> q in done)
    && (pc.ScanRelease? ==> pc.i in done)
  }

  ghost predicate ScanDone(op: Scan, p: nat, i: nat, n: nat, done: set<nat>) {
    if op.Wakeup? then forall q: nat :: q < n && q != p ==> q in done else i in done
  }

  /** What the thread's own step adds. */
  ghost function Adds(s: Sys, c: nat, p: nat, op: Scan, n: nat): set<nat> {
    if Itself(s, c, p) && s.pc[p].ScanAct? && s.pc[p].op == op && s.pc[p].i < n then {s.pc[p].i} else {}
  }

  lemma OnlyScans(g: Config, s: Sys, c: nat, a: Act, t: Sys, p: nat)
    requires Step(g, s, c, a, t) && Shape(g, s) && Itself(s, c, p) && IsScan(s.pc[p])
    ensures || LookStep(g, s, c, p, t) || (s.pc[p].ScanAct? && ActStep(g, s, c, p, s.pc[p].i, t))
            || LockStep(g, s, c, p, a, t) || TrapStep(g, s, c, p, a, t)
  {
  }

  lemma ScanLooks(g: Config, s: Sys, c: nat, t: Sys, p: nat, i: nat, done: set<nat>)
    requires LookStep(g, s, c, p, t) && SameShape(g, s, t) && ScanStage(s.pc[p], p, i, |s.pstate|, done)
    ensures t.back == s.back
    ensures if t.pc[p].Client? then ScanDone(s.pc[p].op, p, i, |s.pstate|, done)
            else ScanStage(t.pc[p], p, i, |s.pstate|, done) && t.pc[p].op == s.pc[p].op
  {
  }

  lemma ScanActs(g: Config, s: Sys, c: nat, t: Sys, p: nat, i: nat, done: set<nat>)
    requires Itself(s, c, p) && s.pc[p].ScanAct? && ActStep(g, s, c, p, s.pc[p].i, t) && SameShape(g, s, t)
    requires ScanStage(s.pc[p], p, i, |s.pstate|, done)
    ensures t.back == s.back && t.pc[p] == ScanRelease(s.pc[p].op, s.pc[p].i)
    ensures ScanStage(t.pc[p], p, i, |s.pstate|, done + Adds(s, c, p, s.pc[p].op, |s.pstate|))
  {
  }

  lemma ScanWaits(g: Config, s: Sys, c: nat, a: Act, t: Sys, p: nat)
    requires p < |s.pc| && IsScan(s.pc[p]) && SameShape(g, s, t)
    requires LockStep(g, s, c, p, a, t) || TrapStep(g, s, c, p, a, t)
    ensures (t.back[p] == s.back[p] && t.pc[p] == s.pc[p]) ||
            (s.back[p].Client? && t.back[p] == s.pc[p] && s.pc[p].ScanAcquire? && t.pc[p].Client?)
  {
  }

  lemma OwnScan(g: Config, s: Sys, c: nat, a: Act, t: Sys, p: nat, op: Scan, back: Pc, i: nat, done: set<nat>)
    requires Step(g, s, c, a, t) && Shape(g, s) && SameShape(g, s, t) && Itself(s, c, p)
    requires InScanOf(s, p, op, back) && ScanStage(ScanPc(s, p, back), p, i, |s.pstate|, done)
    ensures if Ended(t, p, back) then ScanDone(op, p, i, |s.pstate|, done)
            else
              InScanOf(t, p, op, back) &&
              ScanStage(ScanPc(t, p, back), p, i, |s.pstate|, done + Adds(s, c, p, op, |s.pstate|))
  {
    hide Step, LookStep, ActStep, LockStep, TrapStep, ScanStage, ScanDone, Adds;
    var all := done + Adds(s, c, p, op, |s.pstate|);
    if s.back[p] != back {
      HandlerReturns(g, s, c, a, t, p);
      MoreDone(s.back[p], p, i, |s.pstate|, done, all);
    } else {
      OnlyScans(g, s, c, a, t, p);
      MoreDone(s.pc[p], p, i, |s.pstate|, done, all);
      if LookStep(g, s, c, p, t) {
        ScanLooks(g, s, c, t, p, i, done);
        if !t.pc[p].Client? {
          MoreDone(t.pc[p], p, i, |s.pstate|, done, all);
          StageIsScan(t.pc[p], p, i, |s.pstate|, all);
        }
      } else if s.pc[p].ScanAct? && ActStep(g, s, c, p, s.pc[p].i, t) {
        ScanActs(g, s, c, t, p, i, done);
      } else {
        ScanWaits(g, s, c, a, t, p);
      }
    }
  }

  lemma StageIsScan(pc: Pc, p: nat, i: nat, n: nat, done: set<nat>)
    requires ScanStage(pc, p, i, n, done)
    ensures IsScan(pc)
  {
  }

  /** Others leave the scan where it is. */
  lemma OtherScan(g: Config, s: Sys, c: nat, t: Sys, p: nat, op: Scan, back: Pc)
    requires Inv(g, s) && Shape(g, s) && SameShape(g, s, t) && Framed(s, c, t) && !Itself(s, c, p)
    requires InScanOf(s, p, op, back)
    ensures t.pc[p] == s.pc[p] && t.back[p] == s.back[p] && InScanOf(t, p, op, back)
    ensures ScanPc(t, p, back) == ScanPc(s, p, back)
  {
    hide Inv;
    if p < |s.pstate| { AroundProc(g, s, p); }
  }

  lemma BeginsScan(g: Config, s: Sys, c: nat, t: Sys, p: nat, op: Scan, i: nat, done: set<nat>)
    requires Step(g, s, c, StartScan(op, i), t) && Shape(g, s) && SameShape(g, s, t) && Itself(s, c, p)
    ensures InScanOf(t, p, op, s.back[p]) && ScanStage(ScanPc(t, p, s.back[p]), p, i, |s.pstate|, done)
  {
  }

  lemma MoreDone(pc: Pc, p: nat, i: nat, n: nat, done: set<nat>, done': set<nat>)
    requires ScanStage(pc, p, i, n, done) && done <= done'
    ensures ScanStage(pc, p, i, n, done')
  {
  }

  /** What the move at k adds is counted from k + 1 on. */
  lemma Counts(moves: seq<Move>, states: seq<Sys>, p: nat, op: Scan, n: nat, j: nat, k: nat)
    requires j < k && k + 1 < |states| == |moves| + 1
    ensures DoneIn(moves, states, p, op, n, j, k) + Adds(states[k], moves[k].cpu, p, op, n) <=
            DoneIn(moves, states, p, op, n, j, k + 1)
  {
    forall q | q in DoneIn(moves, states, p, op, n, j, k) ensures q in DoneIn(moves, states, p, op, n, j, k + 1) {
      assert ActedOn(moves, states, p, op, q, j, k);
    }
    forall q | q in Adds(states[k], moves[k].cpu, p, op, n) ensures q in DoneIn(moves, states, p, op, n, j, k + 1) {
      assert Acts(states[k], moves[k].cpu, op, q);
      assert ActedOn(moves, states, p, op, q, j, k + 1);
    }
  }

  lemma {:induction false} ScanInProgress(g: Config, moves: seq<Move>, states: seq<Sys>, p: nat, op: Scan, i: nat,
      back: Pc, j: nat, k: nat)
    requires Execution(g, moves, states) && ScanCall(moves, states, p, op, i, back, j, k)
    ensures SameShape(g, states[j], states[k]) && InScanOf(states[k], p, op, back)
    ensures var n := |states[k].pstate|;
            ScanStage(ScanPc(states[k], p, back), p, i, n, DoneIn(moves, states, p, op, n, j, k))
    decreases k
  {
    hide Inv, Step, Framed, Boot, InScanOf, ScanStage, ScanPc, Ended, Itself, DoneIn, Adds;
    var s, c, t := states[k - 1], moves[k - 1].cpu, states[k];
    Moved(g, moves, states, k - 1);
    var n := |t.pstate|;
    if k - 1 == j {
      BeginsScan(g, s, c, t, p, op, i, DoneIn(moves, states, p, op, n, j, k));
    } else {
      ScanInProgress(g, moves, states, p, op, i, back, j, k - 1);
      var done := DoneIn(moves, states, p, op, n, j, k - 1);
      InScanThere(s, p, op, back);
      Counts(moves, states, p, op, n, j, k - 1);
      assert !Ended(t, p, back);
      if Itself(s, c, p) {
        OwnScan(g, s, c, moves[k - 1].act, t, p, op, back, i, done);
        InScanThere(t, p, op, back);
        MoreDone(ScanPc(t, p, back), p, i, n, done + Adds(s, c, p, op, n), DoneIn(moves, states, p, op, n, j, k));
      } else {
        OtherScan(g, s, c, t, p, op, back);
        MoreDone(ScanPc(t, p, back), p, i, n, done, DoneIn(moves, states, p, op, n, j, k));
      }
    }
  }

  lemma InScanThere(s: Sys, p: nat, op: Scan, back: Pc)
    requires InScanOf(s, p, op, back)
    ensures p < |s.pc| == |s.back|
  {
  }

  lemma OthersDoNotEnd(s: Sys, t: Sys, p: nat, op: Scan, back: Pc)
    requires InScanOf(s, p, op, back) && p < |t.pc| == |t.back| && t.pc[p] == s.pc[p] && t.back[p] == s.back[p]
    ensures !Ended(t, p, back)
  {
  }

  /** When a scan ends it has acted on what its call asked for: wakeup(ch) on every process
      but its caller, the others on the one process they were given. */
  lemma ScanReturns(g: Config, moves: seq<Move>, states: seq<Sys>, p: nat, op: Scan, i: nat, back: Pc, j: nat, k: nat)
    requires Execution(g, moves, states) && ScanCall(moves, states, p, op, i, back, j, k) && k < |moves|
    requires Ended(states[k + 1], p, back)
    ensures if op.Wakeup? then
              forall q: nat :: q < |states[j].pstate| && q != p ==> ActedOn(moves, states, p, op, q, j, k)
            else ActedOn(moves, states, p, op, i, j, k)
  {
    hide Inv, Step, Framed, Boot, InScanOf, ScanStage, ScanPc, Ended, Itself, ActedOn;
    ScanInProgress(g, moves, states, p, op, i, back, j, k);
    Moved(g, moves, states, k);
    var s, c, t := states[k], moves[k].cpu, states[k + 1];
    var done := DoneIn(moves, states, p, op, |s.pstate|, j, k);
    InScanThere(s, p, op, back);
    if Itself(s, c, p) {
      OwnScan(g, s, c, moves[k].act, t, p, op, back, i, done);
      if op.Wakeup? {
        forall q: nat | q < |s.pstate| && q != p ensures ActedOn(moves, states, p, op, q, j, k) { assert q in done; }
      }
    } else {
      OtherScan(g, s, c, t, p, op, back);
      OthersDoNotEnd(s, t, p, op, back);
    }
  }

  /** And the scans that look at one process act on no other. */
  lemma ScanActsOn(g: Config, moves: seq<Move>, states: seq<Sys>, p: nat, op: Scan, i: nat, back: Pc, j: nat, k: nat)
    requires Execution(g, moves, states) && ScanCall(moves, states, p, op, i, back, j, k) && !op.Wakeup?
    requires p < |states[k].pc| == |states[k].back| && states[k].back[p] == back && states[k].pc[p].ScanAct?
    ensures states[k].pc[p] == ScanAct(op, i)
  {
    hide Execution, DoneIn;
    ScanInProgress(g, moves, states, p, op, i, back, j, k);
  }

  // ---- interrupts

  lemma TrapBegins(g: Config, s: Sys, c: nat, t: Sys, p: nat)
    requires Step(g, s, c, Interrupt, t) && Itself(s, c, p) && Shape(g, s) && SameShape(g, s, t)
    ensures t.back[p] == s.pc[p] && !s.pc[p].Client?
  {
  }

  lemma TrapEnds(g: Config, s: Sys, c: nat, t: Sys, p: nat)
    requires Step(g, s, c, EndInterrupt, t) && Itself(s, c, p) && p < |s.pstate| && Shape(g, s) && SameShape(g, s, t)
    ensures t.back[p].Client? && t.pc[p] == s.back[p]
  {
  }

  lemma OnlyTrapEnds(g: Config, s: Sys, c: nat, a: Act, t: Sys, p: nat)
    requires Step(g, s, c, a, t) && Itself(s, c, p) && Shape(g, s) && SameShape(g, s, t)
    requires !s.back[p].Client? && a != EndInterrupt
    ensures t.back[p] == s.back[p]
  {
    hide CpuEnabled, SleepEnabled, LookEnabled, LeaveEnabled, LockEnabled, CallEnabled, Holds, HoldsAtMost;
  }

  /** After an interrupt, whatever its handler does, the thread goes on where it was. */
  lemma {:induction false} InterruptReturns(g: Config, moves: seq<Move>, states: seq<Sys>, p: nat, j: nat, k: nat)
    requires Execution(g, moves, states) && j < k < |moves| && p < |states[j].pstate|
    requires Itself(states[j], moves[j].cpu, p) && moves[j].act == Interrupt
    requires Itself(states[k], moves[k].cpu, p) && moves[k].act == EndInterrupt
    requires forall m :: j < m < k && Itself(states[m], moves[m].cpu, p) ==> moves[m].act != EndInterrupt
    ensures p < |states[j].pc| == |states[k + 1].pc| == |states[k + 1].back|
    ensures states[k + 1].pc[p] == states[j].pc[p] && states[k + 1].back[p].Client?
  {
    hide Inv, Step, Framed, Boot, Itself;
    Interrupted(g, moves, states, p, j, k);
    Moved(g, moves, states, k);
    TrapEnds(g, states[k], moves[k].cpu, states[k + 1], p);
  }

  lemma {:induction false} Interrupted(g: Config, moves: seq<Move>, states: seq<Sys>, p: nat, j: nat, k: nat)
    requires Execution(g, moves, states) && j < k < |states| && p < |states[j].pstate|
    requires Itself(states[j], moves[j].cpu, p) && moves[j].act == Interrupt
    requires forall m :: j < m < k && Itself(states[m], moves[m].cpu, p) ==> moves[m].act != EndInterrupt
    ensures SameShape(g, states[j], states[k]) && Shape(g, states[j])
    ensures states[k].back[p] == states[j].pc[p] && !states[k].back[p].Client?
    decreases k
  {
    hide Inv, Step, Framed, Boot, Itself;
    var s, c, t := states[k - 1], moves[k - 1].cpu, states[k];
    Moved(g, moves, states, k - 1);
    if k - 1 == j {
      TrapBegins(g, s, c, t, p);
    } else {
      Interrupted(g, moves, states, p, j, k - 1);
      if Itself(s, c, p) {
        OnlyTrapEnds(g, s, c, moves[k - 1].act, t, p);
      } else {
        BackStays(s, c, t, p);
      }
    }
  }

  lemma BackStays(s: Sys, c: nat, t: Sys, p: nat)
    requires |s.chan| == |s.plock| == |s.on| == |s.pstate| <= |s.pc| == |s.back|
    requires |t.chan| == |t.plock| == |t.on| == |t.pstate| == |s.pstate| && |t.pc| == |t.back| == |s.pc|
    requires |s.cpu| == |t.cpu| == |s.proc| == |t.proc| && Framed(s, c, t) && p < |s.pc| && !Itself(s, c, p)
    ensures t.back[p] == s.back[p]
  {
  }

  // ---- exit()

  /** In exit()'s ending, called with lock l: a zombie from the assignment on. */
  ghost predicate InExit(s: Sys, p: nat, l: nat) {
    && p < |s.pstate| && p < |s.pc| == |s.back| && s.back[p].Client?
    && (|| s.pc[p] == ExitAcquire(l) || s.pc[p] == ExitState(l)
        || ((s.pc[p] == ExitUnlock(l) || s.pc[p] == ExitSwitch || s.pc[p] == Gone) && s.pstate[p] == ZOMBIE))
  }

  lemma OwnExit(g: Config, s: Sys, c: nat, a: Act, t: Sys, p: nat, l: nat)
    requires Step(g, s, c, a, t) && Shape(g, s) && SameShape(g, s, t) && Itself(s, c, p) && InExit(s, p, l)
    requires !s.pc[p].Gone?
    ensures InExit(t, p, l)
  {
    hide CpuEnabled, SleepEnabled, LookEnabled, Holds, HoldsAtMost;
  }

  lemma OtherExit(g: Config, s: Sys, c: nat, t: Sys, p: nat, l: nat)
    requires Inv(g, s) && Shape(g, s) && SameShape(g, s, t) && Framed(s, c, t) && !Itself(s, c, p) && InExit(s, p, l)
    ensures InExit(t, p, l) || t.pstate[p] == UNUSED
  {
    hide Inv;
    AroundProc(g, s, p);
  }

  lemma GoneIsOff(g: Config, s: Sys, c: nat, p: nat)
    requires Inv(g, s) && Itself(s, c, p) && p < |s.pstate|
    ensures !s.pc[p].Gone?
  {
    hide Inv;
    AroundProc(g, s, p);
    AroundCpu(g, s, c);
  }

  lemma BeginsExit(g: Config, s: Sys, c: nat, t: Sys, p: nat, l: nat)
    requires Step(g, s, c, Exit(l), t) && Itself(s, c, p) && p < |s.pstate|
    ensures InExit(t, p, l)
  {
  }

  /** exit() does not return: from the call on, until it is reaped, the thread is in exit's
      ending or gone for good, and a zombie from the assignment on. */
  lemma {:induction false} ExitStays(g: Config, moves: seq<Move>, states: seq<Sys>, p: nat, l: nat, j: nat, k: nat)
    requires Execution(g, moves, states) && j < k < |states| && p < |states[j].pstate|
    requires Itself(states[j], moves[j].cpu, p) && moves[j].act == Exit(l)
    requires forall m :: j < m <= k ==> p < |states[m].pstate| && states[m].pstate[p] != UNUSED
    ensures InExit(states[k], p, l)
    decreases k
  {
    hide Inv, Step, Framed, Boot, InExit, Itself;
    var s, c, t := states[k - 1], moves[k - 1].cpu, states[k];
    Moved(g, moves, states, k - 1);
    if k - 1 == j {
      BeginsExit(g, s, c, t, p, l);
    } else {
      ExitStays(g, moves, states, p, l, j, k - 1);
      if Itself(s, c, p) {
        GoneIsOff(g, s, c, p);
        OwnExit(g, s, c, moves[k - 1].act, t, p, l);
      } else {
        OtherExit(g, s, c, t, p, l);
      }
    }
  }
}
