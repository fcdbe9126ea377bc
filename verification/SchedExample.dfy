/** One execution from boot, move by move: a process runs, goes to sleep on a channel and
    gives up the CPU; another makes the condition true, wakes it and yields; the first
    is switched to, resumes inside sleep() and has the channel's lock again. */
module SchedExample {
  import opened Base
  import opened Sched

  const CHANNELS: Config := [0]

  datatype P = P(st: PState, chan: int, plock: Holder, pc: Pc, on: int)

  const FRESH := P(RUNNABLE, NONE, Free, Forkret, NONE)
  const CLIENT := P(RUNNING, NONE, Free, Client, 0)
  const ASLEEP := P(SLEEPING, 0, Free, SleepResumed(0), NONE)
  const AWAKE := P(RUNNABLE, 0, Free, SleepResumed(0), NONE)
  const YIELDED := P(RUNNABLE, NONE, Free, YieldRelease, NONE)

  datatype Cond = Cond(cond: bool, woken: bool, owed: bool)

  const FALSE := Cond(false, false, false)
  const OWED := Cond(true, false, true)
  const WOKEN := Cond(true, true, false)
  const TRUE := Cond(true, false, false)

  /** Two processes, one CPU, one lock and one channel. */
  function World(a: P, b: P, cpu: Cpu, proc: int, lock: Holder, c: Cond): Sys {
    Sys([a.st, b.st], [a.chan, b.chan], [a.plock, b.plock], [a.pc, b.pc, Client], [Client, Client, Client],
        [cpu], [proc], [lock], [c.cond], [a.on, b.on], [c.woken], [c.owed])
  }

  ghost predicate Goes(s: Sys, a: Act, t: Sys) {
    Step(CHANNELS, s, 0, a, t) && Shape(CHANNELS, s) && Shape(CHANNELS, t)
  }

  ghost predicate Path(s: Sys, acts: seq<Act>, states: seq<Sys>, t: Sys) {
    && |states| == |acts| + 1 && states[0] == s && states[|acts|] == t
    && forall k :: 0 <= k < |acts| ==> Goes(states[k], acts[k], states[k + 1])
  }

  lemma Join(r: Sys, acts: seq<Act>, states: seq<Sys>, s: Sys, acts': seq<Act>, states': seq<Sys>, t: Sys)
      returns (all: seq<Act>, states'': seq<Sys>)
    requires Path(r, acts, states, s) && Path(s, acts', states', t)
    ensures Path(r, all, states'', t) && all == acts + acts' && states'' == states + states'[1..]
  {
    hide Goes;
    all, states'' := acts + acts', states + states'[1..];
    forall k | 0 <= k < |all| ensures Goes(states''[k], all[k], states''[k + 1]) {
      if k >= |acts| { assert Goes(states'[k - |acts|], acts'[k - |acts|], states'[k - |acts| + 1]); }
    }
  }

  lemma ByScheduler(s: Sys, a: Act, t: Sys)
    requires SchedStep(CHANNELS, s, 0, a, t) && Shape(CHANNELS, t)
    ensures Goes(s, a, t)
  {
    hide CpuEnabled, CpuNext;
  }

  lemma InSleep(s: Sys, p: nat, t: Sys)
    requires SleepStep(CHANNELS, s, 0, p, t) && Shape(CHANNELS, t)
    ensures Goes(s, Go, t)
  {
    hide SleepEnabled, SleepNext, LookStep, LeaveStep, LockStep, CallStep, TrapStep, SchedStep;
  }

  lemma InScan(s: Sys, p: nat, t: Sys)
    requires LookStep(CHANNELS, s, 0, p, t) && Shape(CHANNELS, t)
    ensures Goes(s, Go, t)
  {
    hide LookEnabled, LookNext, SleepStep, LeaveStep, LockStep, CallStep, TrapStep, SchedStep;
  }

  lemma InAct(s: Sys, p: nat, i: nat, t: Sys)
    requires ActStep(CHANNELS, s, 0, p, i, t) && Shape(CHANNELS, t)
    ensures Goes(s, Go, t)
  {
    hide ActNext, LookStep, SleepStep, LeaveStep, LockStep, CallStep, TrapStep, SchedStep;
  }

  lemma InYield(s: Sys, p: nat, t: Sys)
    requires LeaveStep(CHANNELS, s, 0, p, t) && Shape(CHANNELS, t)
    ensures Goes(s, Go, t)
  {
    hide LeaveEnabled, LeaveNext, LookStep, SleepStep, LockStep, CallStep, TrapStep, SchedStep;
  }

  lemma ByClient(s: Sys, p: nat, a: Act, t: Sys)
    requires LockStep(CHANNELS, s, 0, p, a, t) && Shape(CHANNELS, t)
    ensures Goes(s, a, t)
  {
    hide LockEnabled, LockNext, LookStep, SleepStep, LeaveStep, CallStep, TrapStep, SchedStep;
  }

  lemma ByCall(s: Sys, p: nat, a: Act, t: Sys)
    requires CallStep(CHANNELS, s, 0, p, a, t) && Shape(CHANNELS, t)
    ensures Goes(s, a, t)
  {
    hide CallEnabled, CallNext, LookStep, SleepStep, LeaveStep, LockStep, TrapStep, SchedStep;
  }

  // The states between the parts of the execution.
  const BOOTED := World(FRESH, FRESH, Idle, NONE, Free, FALSE)
  const FIRST_RUNS := World(P(RUNNING, NONE, By(0), Forkret, 0), FRESH, Run(0), 0, Free, FALSE)
  const CALLED_SLEEP := World(P(RUNNING, NONE, Free, SleepAcquire(0), 0), FRESH, Run(0), 0, By(0), FALSE)
  const UNLOCKED := World(P(RUNNING, NONE, By(0), SleepChan(0), 0), FRESH, Run(0), 0, Free, FALSE)
  const SLEEPS := World(P(SLEEPING, 0, By(0), SleepSwitch(0), 0), FRESH, Run(0), 0, Free, FALSE)
  const OFF_CPU := World(ASLEEP, FRESH, Idle, NONE, Free, FALSE)
  const SECOND_RUNS := World(ASLEEP, P(RUNNING, NONE, By(0), Forkret, 0), Run(1), 1, Free, FALSE)
  const CALLED_WAKEUP := World(ASLEEP, P(RUNNING, NONE, Free, ScanAcquire(Wakeup(0), 0), 0), Run(1), 1, By(0), OWED)
  const WOKE_FIRST := World(AWAKE, P(RUNNING, NONE, Free, ScanAcquire(Wakeup(0), 1), 0), Run(1), 1, By(0), OWED)
  const HAS_WOKEN := World(AWAKE, CLIENT, Run(1), 1, Free, TRUE)
  const CALLED_YIELD := World(AWAKE, P(RUNNABLE, NONE, By(0), YieldSwitch, 0), Run(1), 1, Free, TRUE)
  const FREE_CPU := World(AWAKE, YIELDED, Idle, NONE, Free, TRUE)
  const RESUMED := World(P(RUNNING, 0, By(0), SleepResumed(0), 0), YIELDED, Run(0), 0, Free, TRUE)
  const RETURNED := World(CLIENT, YIELDED, Run(0), 0, By(0), TRUE)

  /** The first process is switched to. */
  lemma SwitchesToFirst() returns (acts: seq<Act>, states: seq<Sys>)
    ensures |acts| == 4
    ensures Path(BOOTED, acts, states, FIRST_RUNS)
  {
    hide Goes;
    acts := [Pick(0), Go, Go, Go];
    states := [World(FRESH, FRESH, Idle, NONE, Free, FALSE),
               World(P(RUNNABLE, NONE, By(0), Forkret, NONE), FRESH, Test(0), NONE, Free, FALSE),
               World(P(RUNNING, NONE, By(0), Forkret, NONE), FRESH, SetProc(0), NONE, Free, FALSE),
               World(P(RUNNING, NONE, By(0), Forkret, NONE), FRESH, SwitchIn(0), 0, Free, FALSE),
               World(P(RUNNING, NONE, By(0), Forkret, 0), FRESH, Run(0), 0, Free, FALSE)];
    ByScheduler(states[0], acts[0], states[1]);
    ByScheduler(states[1], acts[1], states[2]);
    ByScheduler(states[2], acts[2], states[3]);
    ByScheduler(states[3], acts[3], states[4]);
  }

  /** It runs, takes the channel's lock and calls sleep(). */
  lemma CallsSleep() returns (acts: seq<Act>, states: seq<Sys>)
    ensures |acts| == 3
    ensures Path(FIRST_RUNS, acts, states, CALLED_SLEEP)
  {
    hide Goes;
    acts := [Go, Lock(0), SleepOn(0)];
    states := [World(P(RUNNING, NONE, By(0), Forkret, 0), FRESH, Run(0), 0, Free, FALSE),
               World(CLIENT, FRESH, Run(0), 0, Free, FALSE),
               World(CLIENT, FRESH, Run(0), 0, By(0), FALSE),
               World(P(RUNNING, NONE, Free, SleepAcquire(0), 0), FRESH, Run(0), 0, By(0), FALSE)];
    InYield(states[0], 0, states[1]);
    ByClient(states[1], 0, acts[1], states[2]);
    ByCall(states[2], 0, acts[2], states[3]);
  }

  /** Holding its own lock it gives up the channel's. */
  lemma GivesUpLock() returns (acts: seq<Act>, states: seq<Sys>)
    ensures |acts| == 2
    ensures Path(CALLED_SLEEP, acts, states, UNLOCKED)
  {
    hide Goes;
    acts := [Go, Go];
    states := [World(P(RUNNING, NONE, Free, SleepAcquire(0), 0), FRESH, Run(0), 0, By(0), FALSE),
               World(P(RUNNING, NONE, By(0), SleepUnlock(0), 0), FRESH, Run(0), 0, By(0), FALSE),
               World(P(RUNNING, NONE, By(0), SleepChan(0), 0), FRESH, Run(0), 0, Free, FALSE)];
    InSleep(states[0], 0, states[1]);
    InSleep(states[1], 0, states[2]);
  }

  /** And is SLEEPING. */
  lemma FallsAsleep() returns (acts: seq<Act>, states: seq<Sys>)
    ensures |acts| == 2
    ensures Path(UNLOCKED, acts, states, SLEEPS)
  {
    hide Goes;
    acts := [Go, Go];
    states := [World(P(RUNNING, NONE, By(0), SleepChan(0), 0), FRESH, Run(0), 0, Free, FALSE),
               World(P(RUNNING, 0, By(0), SleepState(0), 0), FRESH, Run(0), 0, Free, FALSE),
               World(P(SLEEPING, 0, By(0), SleepSwitch(0), 0), FRESH, Run(0), 0, Free, FALSE)];
    InSleep(states[0], 0, states[1]);
    InSleep(states[1], 0, states[2]);
  }

  /** Its CPU goes back to the scheduler. */
  lemma LeavesCpu() returns (acts: seq<Act>, states: seq<Sys>)
    ensures |acts| == 3
    ensures Path(SLEEPS, acts, states, OFF_CPU)
  {
    hide Goes;
    acts := [Go, Go, Go];
    states := [World(P(SLEEPING, 0, By(0), SleepSwitch(0), 0), FRESH, Run(0), 0, Free, FALSE),
               World(P(SLEEPING, 0, By(0), SleepResumed(0), NONE), FRESH, ClearProc(0), 0, Free, FALSE),
               World(P(SLEEPING, 0, By(0), SleepResumed(0), NONE), FRESH, Done(0), NONE, Free, FALSE),
               World(ASLEEP, FRESH, Idle, NONE, Free, FALSE)];
    InSleep(states[0], 0, states[1]);
    ByScheduler(states[1], acts[1], states[2]);
    ByScheduler(states[2], acts[2], states[3]);
  }

  /** The second is switched to. */
  lemma SwitchesToSecond() returns (acts: seq<Act>, states: seq<Sys>)
    ensures |acts| == 4
    ensures Path(OFF_CPU, acts, states, SECOND_RUNS)
  {
    hide Goes;
    acts := [Pick(1), Go, Go, Go];
    states := [World(ASLEEP, FRESH, Idle, NONE, Free, FALSE),
               World(ASLEEP, P(RUNNABLE, NONE, By(0), Forkret, NONE), Test(1), NONE, Free, FALSE),
               World(ASLEEP, P(RUNNING, NONE, By(0), Forkret, NONE), SetProc(1), NONE, Free, FALSE),
               World(ASLEEP, P(RUNNING, NONE, By(0), Forkret, NONE), SwitchIn(1), 1, Free, FALSE),
               World(ASLEEP, P(RUNNING, NONE, By(0), Forkret, 0), Run(1), 1, Free, FALSE)];
    ByScheduler(states[0], acts[0], states[1]);
    ByScheduler(states[1], acts[1], states[2]);
    ByScheduler(states[2], acts[2], states[3]);
    ByScheduler(states[3], acts[3], states[4]);
  }

  /** It makes the condition true and calls wakeup(). */
  lemma CallsWakeup() returns (acts: seq<Act>, states: seq<Sys>)
    ensures |acts| == 4
    ensures Path(SECOND_RUNS, acts, states, CALLED_WAKEUP)
  {
    hide Goes;
    acts := [Go, Lock(0), Set(0, true), StartScan(Wakeup(0), 0)];
    states := [World(ASLEEP, P(RUNNING, NONE, By(0), Forkret, 0), Run(1), 1, Free, FALSE),
               World(ASLEEP, CLIENT, Run(1), 1, Free, FALSE),
               World(ASLEEP, CLIENT, Run(1), 1, By(0), FALSE),
               World(ASLEEP, CLIENT, Run(1), 1, By(0), OWED),
               World(ASLEEP, P(RUNNING, NONE, Free, ScanAcquire(Wakeup(0), 0), 0), Run(1), 1, By(0), OWED)];
    InYield(states[0], 1, states[1]);
    ByClient(states[1], 1, acts[1], states[2]);
    ByClient(states[2], 1, acts[2], states[3]);
    ByCall(states[3], 1, acts[3], states[4]);
  }

  /** The scan wakes the first. */
  lemma WakesFirst() returns (acts: seq<Act>, states: seq<Sys>)
    ensures |acts| == 3
    ensures Path(CALLED_WAKEUP, acts, states, WOKE_FIRST)
  {
    hide Goes;
    acts := [Go, Go, Go];
    states := [World(ASLEEP, P(RUNNING, NONE, Free, ScanAcquire(Wakeup(0), 0), 0), Run(1), 1, By(0), OWED),
               World(P(SLEEPING, 0, By(0), SleepResumed(0), NONE),
                     P(RUNNING, NONE, Free, ScanAct(Wakeup(0), 0), 0), Run(1), 1, By(0), OWED),
               World(P(RUNNABLE, 0, By(0), SleepResumed(0), NONE),
                     P(RUNNING, NONE, Free, ScanRelease(Wakeup(0), 0), 0), Run(1), 1, By(0), OWED),
               World(AWAKE, P(RUNNING, NONE, Free, ScanAcquire(Wakeup(0), 1), 0), Run(1), 1, By(0), OWED)];
    InScan(states[0], 1, states[1]);
    InAct(states[1], 1, 0, states[2]);
    InScan(states[2], 1, states[3]);
  }

  /** And ends; the lock is released. */
  lemma EndsWakeup() returns (acts: seq<Act>, states: seq<Sys>)
    ensures |acts| == 3
    ensures Path(WOKE_FIRST, acts, states, HAS_WOKEN)
  {
    hide Goes;
    acts := [Go, Go, Unlock(0)];
    states := [World(AWAKE, P(RUNNING, NONE, Free, ScanAcquire(Wakeup(0), 1), 0), Run(1), 1, By(0), OWED),
               World(AWAKE, P(RUNNING, NONE, Free, ScanAcquire(Wakeup(0), 2), 0), Run(1), 1, By(0), OWED),
               World(AWAKE, CLIENT, Run(1), 1, By(0), WOKEN),
               World(AWAKE, CLIENT, Run(1), 1, Free, TRUE)];
    InScan(states[0], 1, states[1]);
    InScan(states[1], 1, states[2]);
    ByClient(states[2], 1, acts[2], states[3]);
  }

  /** It yields. */
  lemma CallsYield() returns (acts: seq<Act>, states: seq<Sys>)
    ensures |acts| == 3
    ensures Path(HAS_WOKEN, acts, states, CALLED_YIELD)
  {
    hide Goes;
    acts := [Yield, Go, Go];
    states := [World(AWAKE, CLIENT, Run(1), 1, Free, TRUE),
               World(AWAKE, P(RUNNING, NONE, Free, YieldAcquire, 0), Run(1), 1, Free, TRUE),
               World(AWAKE, P(RUNNING, NONE, By(0), YieldState, 0), Run(1), 1, Free, TRUE),
               World(AWAKE, P(RUNNABLE, NONE, By(0), YieldSwitch, 0), Run(1), 1, Free, TRUE)];
    ByCall(states[0], 1, acts[0], states[1]);
    InYield(states[1], 1, states[2]);
    InYield(states[2], 1, states[3]);
  }

  /** Its CPU goes back to the scheduler. */
  lemma LeavesAgain() returns (acts: seq<Act>, states: seq<Sys>)
    ensures |acts| == 3
    ensures Path(CALLED_YIELD, acts, states, FREE_CPU)
  {
    hide Goes;
    acts := [Go, Go, Go];
    states := [World(AWAKE, P(RUNNABLE, NONE, By(0), YieldSwitch, 0), Run(1), 1, Free, TRUE),
               World(AWAKE, P(RUNNABLE, NONE, By(0), YieldRelease, NONE), ClearProc(1), 1, Free, TRUE),
               World(AWAKE, P(RUNNABLE, NONE, By(0), YieldRelease, NONE), Done(1), NONE, Free, TRUE),
               World(AWAKE, YIELDED, Idle, NONE, Free, TRUE)];
    InYield(states[0], 1, states[1]);
    ByScheduler(states[1], acts[1], states[2]);
    ByScheduler(states[2], acts[2], states[3]);
  }

  /** The first is switched to again. */
  lemma SwitchesBack() returns (acts: seq<Act>, states: seq<Sys>)
    ensures |acts| == 4
    ensures Path(FREE_CPU, acts, states, RESUMED)
  {
    hide Goes;
    acts := [Pick(0), Go, Go, Go];
    states := [World(AWAKE, YIELDED, Idle, NONE, Free, TRUE),
               World(P(RUNNABLE, 0, By(0), SleepResumed(0), NONE), YIELDED, Test(0), NONE, Free, TRUE),
               World(P(RUNNING, 0, By(0), SleepResumed(0), NONE), YIELDED, SetProc(0), NONE, Free, TRUE),
               World(P(RUNNING, 0, By(0), SleepResumed(0), NONE), YIELDED, SwitchIn(0), 0, Free, TRUE),
               World(P(RUNNING, 0, By(0), SleepResumed(0), 0), YIELDED, Run(0), 0, Free, TRUE)];
    ByScheduler(states[0], acts[0], states[1]);
    ByScheduler(states[1], acts[1], states[2]);
    ByScheduler(states[2], acts[2], states[3]);
    ByScheduler(states[3], acts[3], states[4]);
  }

  /** And returns from sleep() with the lock. */
  lemma ReturnsFromSleep() returns (acts: seq<Act>, states: seq<Sys>)
    ensures |acts| == 3
    ensures Path(RESUMED, acts, states, RETURNED)
  {
    hide Goes;
    acts := [Go, Go, Go];
    states := [World(P(RUNNING, 0, By(0), SleepResumed(0), 0), YIELDED, Run(0), 0, Free, TRUE),
               World(P(RUNNING, NONE, By(0), SleepRelease(0), 0), YIELDED, Run(0), 0, Free, TRUE),
               World(P(RUNNING, NONE, Free, SleepRelock(0), 0), YIELDED, Run(0), 0, Free, TRUE),
               World(CLIENT, YIELDED, Run(0), 0, By(0), TRUE)];
    InSleep(states[0], 0, states[1]);
    InSleep(states[1], 0, states[2]);
    InSleep(states[2], 0, states[3]);
  }

  /** The execution: after move 4 the first process runs; after move 14 it is asleep and off
      the CPU; after move 28 it is awake; at the end it runs again with the lock held. */
  lemma SleepsAndComesBack() returns (moves: seq<Move>, states: seq<Sys>)
    ensures Execution(CHANNELS, moves, states) && |moves| == 41
    ensures states[0] == BOOTED
    ensures states[4] == FIRST_RUNS
    ensures states[14] == OFF_CPU
    ensures states[28] == HAS_WOKEN
    ensures states[41] == RETURNED
  {
    hide Goes;
    var acts, acts': seq<Act>, states': seq<Sys>;
    acts, states := SwitchesToFirst();
    acts', states' := CallsSleep();
    acts, states := Join(BOOTED, acts, states, FIRST_RUNS, acts', states', CALLED_SLEEP);
    acts', states' := GivesUpLock();
    acts, states := Join(BOOTED, acts, states, CALLED_SLEEP, acts', states', UNLOCKED);
    acts', states' := FallsAsleep();
    acts, states := Join(BOOTED, acts, states, UNLOCKED, acts', states', SLEEPS);
    acts', states' := LeavesCpu();
    acts, states := Join(BOOTED, acts, states, SLEEPS, acts', states', OFF_CPU);
    acts', states' := SwitchesToSecond();
    acts, states := Join(BOOTED, acts, states, OFF_CPU, acts', states', SECOND_RUNS);
    acts', states' := CallsWakeup();
    acts, states := Join(BOOTED, acts, states, SECOND_RUNS, acts', states', CALLED_WAKEUP);
    acts', states' := WakesFirst();
    acts, states := Join(BOOTED, acts, states, CALLED_WAKEUP, acts', states', WOKE_FIRST);
    acts', states' := EndsWakeup();
    acts, states := Join(BOOTED, acts, states, WOKE_FIRST, acts', states', HAS_WOKEN);
    acts', states' := CallsYield();
    acts, states := Join(BOOTED, acts, states, HAS_WOKEN, acts', states', CALLED_YIELD);
    acts', states' := LeavesAgain();
    acts, states := Join(BOOTED, acts, states, CALLED_YIELD, acts', states', FREE_CPU);
    acts', states' := SwitchesBack();
    acts, states := Join(BOOTED, acts, states, FREE_CPU, acts', states', RESUMED);
    acts', states' := ReturnsFromSleep();
    acts, states := Join(BOOTED, acts, states, RESUMED, acts', states', RETURNED);
    moves := seq(|acts|, k requires 0 <= k < |acts| => Move(0, acts[k]));
    Runs(acts, states, moves);
  }

  lemma Runs(acts: seq<Act>, states: seq<Sys>, moves: seq<Move>)
    requires Path(BOOTED, acts, states, RETURNED)
    requires |moves| == |acts| > 0 && forall k :: 0 <= k < |acts| ==> moves[k] == Move(0, acts[k])
    ensures Execution(CHANNELS, moves, states)
  {
    hide Step;
    forall k | 0 <= k < |states| ensures Shape(CHANNELS, states[k]) {
      var j := if k < |acts| then k else k - 1;
      assert Goes(states[j], acts[j], states[j + 1]);
    }
    forall k | 0 <= k < |moves| ensures Step(CHANNELS, states[k], moves[k].cpu, moves[k].act, states[k + 1]) {
      assert Goes(states[k], acts[k], states[k + 1]);
    }
  }
}
