/** fork, exit and wait: who is whose parent, and who reaps whom.

    Any number of processes.  Each step is an acquire or release of wait_lock, one
    update of the process table, or one round of a table scan.  sleep() releases
    wait_lock and puts the caller to sleep in one step, and a woken process starts
    over by acquiring wait_lock: Sched.WakeupReachesAll shows that no wakeup under
    the lock can come between the two. */
module ExitWait {
  import opened Base
  datatype PState = UNUSED | USED | ALIVE | SLEEPING | ZOMBIE

  /** What a process does next. */
  datatype Pc =
    | User                                   // anything but fork, exit and wait
    | ForkLock(np: nat)                      // allocproc done: acquire(&wait_lock)
    | ForkParent(np: nat)                    // np->parent = p
    | ForkUnlock(np: nat)
    | ForkStart(np: nat)                     // np->state = RUNNABLE
    | Reparent(j: nat, status: int)          // reparent(p) at table entry j
    | WakeInit(j: nat, status: int)          // its wakeup(initproc)
    | Zombify(status: int)                   // parent woken: p->state = ZOMBIE
    | ExitUnlock
    | Switching                              // in sched(), p->lock still held
    | Gone
    | Scan(j: nat, havekids: bool)           // wait's loop at table entry j
    | WaitUnlock(r: int)                     // release and return r
    | Asleep
    | Woken                                  // acquire(&wait_lock) in sleep()


  datatype Proc = Proc(st: PState, pid: nat, parent: int, xstate: int, pc: Pc)

  const FREED := Proc(UNUSED, 0, NONE, 0, User)

  /** exited and reaped record what happened: the status each process exited with,
      and the (pid, status) pairs that calls of wait returned. */
  datatype Sys = Sys(ps: seq<Proc>, init: nat, nextpid: nat, lock: int, exited: map<nat, int>, reaped: seq<(nat, int)>)

  datatype Act =
    | Fork(np: nat) | ForkFails | Exit(status: int) | Wait
    | CopyFails      // copyout of the status fails
    | Killed         // killed(p)
    | Wakes          // kill() makes a sleeper runnable
    | Go

  ghost predicate Shape(s: Sys) {
    s.init < |s.ps|
  }

  /** Process p can take the step. */
  ghost predicate Enabled(s: Sys, p: nat, a: Act)
    requires Shape(s) && p < |s.ps|
  {
    match s.ps[p].pc
    case User =>
      s.ps[p].st == ALIVE &&
      (match a
       case Fork(np) => np < |s.ps| && s.ps[np].st == UNUSED
       case Exit(status) => p != s.init && s.lock == NONE
       case Wait => s.lock == NONE
       case _ => false)
    case ForkLock(np) => (a == ForkFails && np < |s.ps|) || (a == Go && s.lock == NONE)
    case ForkParent(np) => a == Go && np < |s.ps|
    case ForkUnlock(np) => a == Go
    case ForkStart(np) => a == Go && np < |s.ps|
    case Reparent(j, _) => a == Go && (j < |s.ps| || 0 <= s.ps[p].parent < |s.ps|)
    case WakeInit(_, _) => a == Go
    case Zombify(_) => a == Go
    case ExitUnlock => a == Go
    case Switching => a == Go
    case Gone => false
    case Scan(j, h) =>
      if j < |s.ps| then
        // the child's lock can be acquired
        (s.ps[j].parent == p ==> s.ps[j].pc != Switching) && (a == Go || (a == CopyFails && Found(s, p, j)))
      else a == Go || (a == Killed && h)
    case WaitUnlock(_) => a == Go
    case Asleep => a == Wakes
    case Woken => a == Go && s.lock == NONE
  }

  /** wait's scan comes upon a zombie child. */
  predicate Found(s: Sys, p: nat, j: nat)
    requires j < |s.ps|
  {
    s.ps[j].parent == p && s.ps[j].st == ZOMBIE
  }

  /** What a step changes: the process's own entry, perhaps one other entry, and
      what is shared. */
  datatype Effect = Effect(mine: Proc, other: int, theirs: Proc, lock: int, nextpid: nat, exited: map<nat, int>,
      reaped: seq<(nat, int)>)

  /** Only p's program counter. */
  function Goto(s: Sys, p: nat, pc: Pc): Effect
    requires p < |s.ps|
  {
    Effect(s.ps[p].(pc := pc), NONE, FREED, s.lock, s.nextpid, s.exited, s.reaped)
  }

  /** Also entry q. */
  function And(e: Effect, q: int, theirs: Proc): Effect {
    e.(other := q, theirs := theirs)
  }

  /** wakeup(q), which only q can sleep on. */
  function Wake(e: Proc): Proc {
    if e.st == SLEEPING then e.(st := ALIVE, pc := Woken) else e
  }

  ghost function Step(s: Sys, p: nat, a: Act): Effect
    requires Shape(s) && p < |s.ps| && Enabled(s, p, a)
  {
    match s.ps[p].pc
    case User =>
      (match a
       case Fork(np) =>
         And(Goto(s, p, ForkLock(np)), np, Proc(USED, s.nextpid, NONE, 0, User)).(nextpid := s.nextpid + 1)
       case Exit(status) => Goto(s, p, Reparent(0, status)).(lock := p)
       case _ => Goto(s, p, Scan(0, false)).(lock := p))
    case ForkLock(np) =>
      if a == ForkFails then And(Goto(s, p, User), np, FREED)
      else Goto(s, p, ForkParent(np)).(lock := p)
    case ForkParent(np) => And(Goto(s, p, ForkUnlock(np)), np, s.ps[np].(parent := p))
    case ForkUnlock(np) => Goto(s, p, ForkStart(np)).(lock := NONE)
    case ForkStart(np) => And(Goto(s, p, User), np, s.ps[np].(st := ALIVE))
    case Reparent(j, status) =>
      if j < |s.ps| then
        if s.ps[j].parent == p then And(Goto(s, p, WakeInit(j, status)), j, s.ps[j].(parent := s.init))
        else Goto(s, p, Reparent(j + 1, status))
      else And(Goto(s, p, Zombify(status)), s.ps[p].parent, Wake(s.ps[s.ps[p].parent]))
    case WakeInit(j, status) => And(Goto(s, p, Reparent(j + 1, status)), s.init, Wake(s.ps[s.init]))
    case Zombify(status) =>
      Goto(s, p, ExitUnlock).(mine := s.ps[p].(st := ZOMBIE, xstate := status, pc := ExitUnlock),
                              exited := s.exited[s.ps[p].pid := status])
    case ExitUnlock => Goto(s, p, Switching).(lock := NONE)
    case Switching => Goto(s, p, Gone)
    case Gone => Goto(s, p, Gone)
    case Scan(j, h) =>
      if j < |s.ps| then
        if Found(s, p, j) then
          if a == CopyFails then Goto(s, p, WaitUnlock(-1))
          else And(Goto(s, p, WaitUnlock(s.ps[j].pid)), j, FREED).(reaped := s.reaped + [(s.ps[j].pid, s.ps[j].xstate)])
        else Goto(s, p, Scan(j + 1, h || s.ps[j].parent == p))
      else if !h || a == Killed then Goto(s, p, WaitUnlock(-1))
      else Goto(s, p, Asleep).(mine := s.ps[p].(st := SLEEPING, pc := Asleep), lock := NONE)
    case WaitUnlock(_) => Goto(s, p, User).(lock := NONE)
    case Asleep => Goto(s, p, Woken).(mine := Wake(s.ps[p]))
    case Woken => Goto(s, p, Scan(0, false)).(lock := p)
  }

  ghost function Next(s: Sys, p: nat, a: Act): Sys
    requires Shape(s) && p < |s.ps| && Enabled(s, p, a)
  {
    var e := Step(s, p, a);
    var ps := if 0 <= e.other < |s.ps| then s.ps[e.other := e.theirs] else s.ps;
    Sys(ps[p := e.mine], s.init, e.nextpid, e.lock, e.exited, e.reaped)
  }

  /** userinit: only init exists. */
  ghost predicate Start(s: Sys) {
    && Shape(s) && s.lock == NONE && s.exited == map[] && s.reaped == [] && s.nextpid == 2
    && s.ps[s.init] == Proc(ALIVE, 1, NONE, 0, User)
    && forall i :: 0 <= i < |s.ps| && i != s.init ==> s.ps[i] == FREED
  }

  // ---- the invariant

  /** Between acquiring and releasing wait_lock. */
  predicate Inside(pc: Pc) {
    || pc.ForkParent? || pc.ForkUnlock? || pc.Reparent? || pc.WakeInit?
    || pc.Zombify? || pc.ExitUnlock? || pc.Scan? || pc.WaitUnlock?
  }

  /** The process being created. */
  function Creating(pc: Pc): int {
    match pc
    case ForkLock(np) => np
    case ForkParent(np) => np
    case ForkUnlock(np) => np
    case ForkStart(np) => np
    case _ => NONE
  }

  /** Giving its children away, or done with that. */
  predicate Leaving(pc: Pc) {
    pc.Reparent? || pc.WakeInit? || pc.Zombify? || pc.ExitUnlock? || pc.Switching? || pc.Gone?
  }

  ghost predicate StateOk(e: Proc, isInit: bool, holds: bool, nextpid: nat) {
    && (e.st == UNUSED ==> e == FREED)
    && (e.st == USED ==> e.pc == User)
    && (e.st == SLEEPING <==> e.pc == Asleep)
    && (e.st == ZOMBIE <==> e.pc == ExitUnlock || e.pc == Switching || e.pc == Gone)
    && (holds <==> Inside(e.pc))
    && (isInit ==> (e.st == ALIVE || e.st == SLEEPING) && e.parent == NONE && e.pid == 1 && !Leaving(e.pc))
    && (e.st != UNUSED ==> 1 <= e.pid < nextpid && (!isInit ==> 1 < e.pid))
    && (e.parent == NONE ==> e.st == UNUSED || e.st == USED || isInit)
  }

  /** The parent pe of e is a live process created earlier. */
  ghost predicate ParentOk(e: Proc, pe: Proc) {
    (pe.st == ALIVE || pe.st == SLEEPING) && pe.pid < e.pid
  }

  ghost predicate HistoryOk(e: Proc, exited: map<nat, int>) {
    && (e.st == ZOMBIE ==> e.pid in exited && exited[e.pid] == e.xstate)
    && (e.st != ZOMBIE ==> e.pid !in exited)
  }

  /** Two different processes; at is the program counter of wait_lock's holder. */
  ghost predicate PairOk(p: Proc, i: int, q: Proc, k: int, init: nat, at: Pc) {
    && (p.st != UNUSED && q.st != UNUSED ==> p.pid != q.pid)
    && (Creating(p.pc) == k ==>
          q.st == USED && p.pid < q.pid && (q.parent == if p.pc.ForkUnlock? || p.pc.ForkStart? then i else NONE))
    && (Creating(p.pc) != NONE ==> Creating(p.pc) != Creating(q.pc))
    && (q.parent == i ==>
          && ParentOk(q, p)
          && !(p.pc.Reparent? && k < p.pc.j) && !(p.pc.WakeInit? && k <= p.pc.j)
          && !p.pc.Zombify? && !p.pc.ExitUnlock? && !p.pc.Switching? && !p.pc.Gone?
          && (p.pc.Scan? && k < p.pc.j ==> p.pc.havekids && q.st != ZOMBIE)
          && (q.pc.Zombify? ==> p.st != SLEEPING)
          && (q.st == ZOMBIE && p.st == SLEEPING ==> i == init && at.WakeInit? && at.j == k))
  }

  ghost predicate OneOk(e: Proc, i: int, n: nat, init: nat, lock: int, nextpid: nat, exited: map<nat, int>) {
    && StateOk(e, i == init, lock == i, nextpid) && HistoryOk(e, exited)
    && Creating(e.pc) != i && Creating(e.pc) < n && e.parent != i && NONE <= e.parent < n
    && (e.pc.Scan? ==> e.pc.j <= n)
  }

  /** Every pid is reaped at most once, with the status it exited with. */
  ghost predicate ReapedOk(s: Sys) {
    && (forall a :: 0 <= a < |s.reaped| ==>
          && s.reaped[a].0 in s.exited && s.exited[s.reaped[a].0] == s.reaped[a].1
          && 1 <= s.reaped[a].0 < s.nextpid)
    && (forall a, b :: 0 <= a < b < |s.reaped| ==> s.reaped[a].0 != s.reaped[b].0)
    && (forall a, i :: 0 <= a < |s.reaped| && 0 <= i < |s.ps| ==> s.reaped[a].0 != s.ps[i].pid)
    && (forall pid :: pid in s.exited ==> 1 <= pid < s.nextpid)
  }

  function HolderPc(s: Sys): Pc {
    if 0 <= s.lock < |s.ps| then s.ps[s.lock].pc else User
  }

  ghost predicate One(s: Sys, i: int)
    requires 0 <= i < |s.ps|
  {
    OneOk(s.ps[i], i, |s.ps|, s.init, s.lock, s.nextpid, s.exited)
  }

  ghost predicate Two(s: Sys, i: int, k: int)
    requires 0 <= i < |s.ps| && 0 <= k < |s.ps|
  {
    PairOk(s.ps[i], i, s.ps[k], k, s.init, HolderPc(s))
  }

  ghost predicate Inv(s: Sys) {
    && Shape(s) && NONE <= s.lock < |s.ps| && 2 <= s.nextpid
    && (forall i :: 0 <= i < |s.ps| ==> One(s, i))
    && (forall i, k :: 0 <= i < |s.ps| && 0 <= k < |s.ps| && i != k ==> Two(s, i, k))
    && ReapedOk(s)
  }

  lemma StartInv(s: Sys)
    requires Start(s)
    ensures Inv(s)
  {
  }

  // ---- every step keeps it

  lemma Know(s: Sys, i: int, k: int)
    requires Inv(s)
    ensures Shape(s) && NONE <= s.lock < |s.ps| && 2 <= s.nextpid
    ensures 0 <= i < |s.ps| ==> One(s, i)
    ensures 0 <= k < |s.ps| ==> One(s, k)
    ensures 0 <= i < |s.ps| && 0 <= k < |s.ps| && i != k ==> Two(s, i, k) && Two(s, k, i)
    ensures forall pid :: pid in s.exited ==> 1 <= pid < s.nextpid
  {
  }

  /** Where the holder of wait_lock is after the step. */
  ghost function NextAt(s: Sys, p: nat, e: Effect): Pc {
    if e.lock == p then e.mine.pc else if e.lock == NONE then User else HolderPc(s)
  }

  /** Locks and table positions after the step. */
  ghost predicate Places(s: Sys, p: nat, e: Effect) {
    && NONE <= e.lock < |s.ps| && s.nextpid <= e.nextpid && (e.lock == NONE || e.lock == p || e.lock == s.lock)
    && NONE <= e.other < |s.ps| && e.other != p && (e.other != NONE && e.lock != p ==> e.other != e.lock)
  }

  ghost predicate BothOk(s: Sys, p: nat, e: Effect, x: Proc, i: int, y: Proc, k: int) {
    PairOk(x, i, y, k, s.init, NextAt(s, p, e)) && PairOk(y, k, x, i, s.init, NextAt(s, p, e))
  }

  ghost predicate AloneOk(s: Sys, e: Effect, x: Proc, i: int) {
    OneOk(x, i, |s.ps|, s.init, e.lock, e.nextpid, e.exited)
  }

  /** The entries a step changes go together with each other and with entry k. */
  ghost predicate Good(s: Sys, p: nat, e: Effect, k: nat)
    requires Shape(s) && p < |s.ps| && k < |s.ps|
  {
    && Places(s, p, e) && AloneOk(s, e, e.mine, p)
    && (e.other != NONE ==> AloneOk(s, e, e.theirs, e.other) && BothOk(s, p, e, e.mine, p, e.theirs, e.other))
    && (k != p && k != e.other ==>
          && AloneOk(s, e, s.ps[k], k) && BothOk(s, p, e, e.mine, p, s.ps[k], k)
          && (e.other != NONE ==> BothOk(s, p, e, e.theirs, e.other, s.ps[k], k)))
  }

  ghost predicate Ready(s: Sys, p: nat, a: Act, k: nat) {
    Inv(s) && p < |s.ps| && Enabled(s, p, a) && k < |s.ps|
  }

  /** What is known of the three entries that matter. */
  lemma Around(s: Sys, p: nat, a: Act, k: nat)
    requires Ready(s, p, a, k)
    ensures Shape(s) && NONE <= s.lock < |s.ps| && 2 <= s.nextpid && One(s, p) && One(s, k)
    ensures k != p ==> Two(s, p, k) && Two(s, k, p)
    ensures var q := Step(s, p, a).other;
            && (0 <= q < |s.ps| ==> One(s, q))
            && (0 <= q < |s.ps| && q != p ==> Two(s, p, q) && Two(s, q, p))
            && (0 <= q < |s.ps| && q != k ==> Two(s, k, q) && Two(s, q, k))
    ensures forall pid :: pid in s.exited ==> 1 <= pid < s.nextpid
  {
    hide Step, Enabled;
  }

  lemma KeepFork(s: Sys, p: nat, a: Act, k: nat)
    requires Ready(s, p, a, k) && s.ps[p].pc.User? && a.Fork?
    ensures Good(s, p, Step(s, p, a), k)
  {
    hide Inv;
    Around(s, p, a, k);
  }

  lemma KeepUser(s: Sys, p: nat, a: Act, k: nat)
    requires Ready(s, p, a, k) && s.ps[p].pc.User? && !a.Fork?
    ensures Good(s, p, Step(s, p, a), k)
  {
    hide Inv;
    Around(s, p, a, k);
  }

  lemma KeepForkLock(s: Sys, p: nat, a: Act, k: nat)
    requires Ready(s, p, a, k) && s.ps[p].pc.ForkLock?
    ensures Good(s, p, Step(s, p, a), k)
  {
    hide Inv;
    Around(s, p, a, k);
  }

  lemma KeepForkUnderLock(s: Sys, p: nat, a: Act, k: nat)
    requires Ready(s, p, a, k) && (s.ps[p].pc.ForkParent? || s.ps[p].pc.ForkUnlock?)
    ensures Good(s, p, Step(s, p, a), k)
  {
    hide Inv;
    Around(s, p, a, k);
  }

  lemma KeepForkStart(s: Sys, p: nat, a: Act, k: nat)
    requires Ready(s, p, a, k) && s.ps[p].pc.ForkStart?
    ensures Good(s, p, Step(s, p, a), k)
  {
    hide Inv;
    Around(s, p, a, k);
  }

  lemma KeepReparentChild(s: Sys, p: nat, a: Act, k: nat)
    requires Ready(s, p, a, k) && s.ps[p].pc.Reparent? && s.ps[p].pc.j < |s.ps| && s.ps[s.ps[p].pc.j].parent == p
    ensures Good(s, p, Step(s, p, a), k)
  {
    hide Inv;
    Around(s, p, a, k);
  }

  lemma KeepReparentPass(s: Sys, p: nat, a: Act, k: nat)
    requires Ready(s, p, a, k) && s.ps[p].pc.Reparent? && s.ps[p].pc.j < |s.ps| && s.ps[s.ps[p].pc.j].parent != p
    ensures Good(s, p, Step(s, p, a), k)
  {
    hide Inv;
    Around(s, p, a, k);
  }

  lemma KeepWakeParent(s: Sys, p: nat, a: Act, k: nat)
    requires Ready(s, p, a, k) && s.ps[p].pc.Reparent? && s.ps[p].pc.j >= |s.ps|
    ensures Good(s, p, Step(s, p, a), k)
  {
    hide Inv;
    Around(s, p, a, k);
  }

  lemma KeepWakeInit(s: Sys, p: nat, a: Act, k: nat)
    requires Ready(s, p, a, k) && s.ps[p].pc.WakeInit?
    ensures Good(s, p, Step(s, p, a), k)
  {
    hide Inv;
    Around(s, p, a, k);
  }

  lemma KeepZombify(s: Sys, p: nat, a: Act, k: nat)
    requires Ready(s, p, a, k) && s.ps[p].pc.Zombify?
    ensures Good(s, p, Step(s, p, a), k)
  {
    hide Inv;
    Around(s, p, a, k);
  }

  lemma KeepUnlocks(s: Sys, p: nat, a: Act, k: nat)
    requires Ready(s, p, a, k)
    requires s.ps[p].pc.ExitUnlock? || s.ps[p].pc.WaitUnlock? || s.ps[p].pc.Switching? || s.ps[p].pc.Gone?
    ensures Good(s, p, Step(s, p, a), k)
  {
    hide Inv;
    Around(s, p, a, k);
  }

  lemma KeepReap(s: Sys, p: nat, a: Act, k: nat)
    requires Ready(s, p, a, k) && s.ps[p].pc.Scan? && s.ps[p].pc.j < |s.ps| && Found(s, p, s.ps[p].pc.j)
    requires a != CopyFails
    ensures Good(s, p, Step(s, p, a), k)
  {
    hide Inv;
    Around(s, p, a, k);
  }

  lemma KeepCopyFails(s: Sys, p: nat, a: Act, k: nat)
    requires Ready(s, p, a, k) && s.ps[p].pc.Scan? && s.ps[p].pc.j < |s.ps| && Found(s, p, s.ps[p].pc.j)
    requires a == CopyFails
    ensures Good(s, p, Step(s, p, a), k)
  {
    hide Inv;
    Around(s, p, a, k);
  }

  lemma KeepScanPass(s: Sys, p: nat, a: Act, k: nat)
    requires Ready(s, p, a, k) && s.ps[p].pc.Scan? && s.ps[p].pc.j < |s.ps| && !Found(s, p, s.ps[p].pc.j)
    ensures Good(s, p, Step(s, p, a), k)
  {
    hide Inv;
    Around(s, p, a, k);
  }

  lemma KeepScanEnd(s: Sys, p: nat, a: Act, k: nat)
    requires Ready(s, p, a, k) && s.ps[p].pc.Scan? && s.ps[p].pc.j >= |s.ps|
    ensures Good(s, p, Step(s, p, a), k)
  {
    hide Inv;
    Around(s, p, a, k);
  }

  lemma KeepAsleep(s: Sys, p: nat, a: Act, k: nat)
    requires Ready(s, p, a, k) && (s.ps[p].pc.Asleep? || s.ps[p].pc.Woken?)
    ensures Good(s, p, Step(s, p, a), k)
  {
    hide Inv;
    Around(s, p, a, k);
  }

  lemma KeepGood(s: Sys, p: nat, a: Act, k: nat)
    requires Inv(s) && p < |s.ps| && Enabled(s, p, a) && k < |s.ps|
    ensures Good(s, p, Step(s, p, a), k)
  {
    hide Inv, Enabled, Step, Good;
    match s.ps[p].pc
    case User =>
      if a.Fork? {
        KeepFork(s, p, a, k);
      } else {
        KeepUser(s, p, a, k);
      }
    case ForkLock(_) => KeepForkLock(s, p, a, k);
    case ForkParent(_) => KeepForkUnderLock(s, p, a, k);
    case ForkUnlock(_) => KeepForkUnderLock(s, p, a, k);
    case ForkStart(_) => KeepForkStart(s, p, a, k);
    case Reparent(j, _) =>
      if j >= |s.ps| {
        KeepWakeParent(s, p, a, k);
      } else if s.ps[j].parent == p {
        KeepReparentChild(s, p, a, k);
      } else {
        KeepReparentPass(s, p, a, k);
      }
    case WakeInit(_, _) => KeepWakeInit(s, p, a, k);
    case Zombify(_) => KeepZombify(s, p, a, k);
    case Scan(j, _) =>
      if j >= |s.ps| {
        KeepScanEnd(s, p, a, k);
      } else if Found(s, p, j) && a == CopyFails {
        KeepCopyFails(s, p, a, k);
      } else if Found(s, p, j) {
        KeepReap(s, p, a, k);
      } else {
        KeepScanPass(s, p, a, k);
      }
    case Asleep => KeepAsleep(s, p, a, k);
    case Woken => KeepAsleep(s, p, a, k);
    case _ => KeepUnlocks(s, p, a, k);
  }

  lemma PairRest(s: Sys, p: nat, a: Act, i: nat, k: nat)
    requires Inv(s) && p < |s.ps| && Enabled(s, p, a) && i < |s.ps| && k < |s.ps|
    requires i != k && i != p && k != p && i != Step(s, p, a).other && k != Step(s, p, a).other
    ensures PairOk(s.ps[i], i, s.ps[k], k, s.init, NextAt(s, p, Step(s, p, a)))
  {
    hide Inv;
    Know(s, p, p);
    Know(s, i, k);
  }

  lemma KeepsReaped(s: Sys, p: nat, a: Act)
    requires Inv(s) && p < |s.ps| && Enabled(s, p, a)
    ensures ReapedOk(Next(s, p, a))
  {
    hide Inv, PairOk, ReapedOk, Step, HistoryOk;
    Know(s, p, p);
    var t, e := Next(s, p, a), Step(s, p, a);
    KeepGood(s, p, a, p);
    InvReaped(s);
    Records(s, p, a);
    if s.ps[p].pc.Scan? && e.other != NONE {
      ReapOk(s, t, e.other);
    } else if s.ps[p].pc.Zombify? {
      ExitedOk(s, t, p, s.ps[p].pc.status);
    } else {
      SameReaped(s, t);
    }
  }

  /** What a step does to pids and to the record. */
  lemma Records(s: Sys, p: nat, a: Act)
    requires Inv(s) && p < |s.ps| && Enabled(s, p, a)
    ensures var e := Step(s, p, a);
            && e.mine.pid == s.ps[p].pid && e.nextpid >= s.nextpid
            && (s.ps[p].pc.Scan? && e.other != NONE ==>
                  && 0 <= e.other < |s.ps| && Found(s, p, e.other) && s.ps[e.other].pc != Switching && e.theirs == FREED
                  && e.reaped == s.reaped + [(s.ps[e.other].pid, s.ps[e.other].xstate)])
            && (!(s.ps[p].pc.Scan? && e.other != NONE) ==> e.reaped == s.reaped)
            && (0 <= e.other < |s.ps| && !s.ps[p].pc.Scan? ==> e.theirs.pid in {0, s.nextpid, s.ps[e.other].pid})
            && (s.ps[p].pc.Zombify? ==> e.other == NONE && e.nextpid == s.nextpid)
            && e.exited == (if s.ps[p].pc.Zombify? then s.exited[s.ps[p].pid := s.ps[p].pc.status] else s.exited)
            && (s.ps[p].pc.Scan? ==> e.nextpid == s.nextpid)
  {
    hide Inv;
    Know(s, p, p);
  }

  lemma SameReaped(s: Sys, t: Sys)
    requires ReapedOk(s) && t.reaped == s.reaped && t.exited == s.exited && |t.ps| == |s.ps| && s.nextpid <= t.nextpid
    requires forall i: nat :: i < |t.ps| ==> t.ps[i].pid == 0 || t.ps[i].pid == s.nextpid || t.ps[i].pid == s.ps[i].pid
    ensures ReapedOk(t)
  {
  }

  lemma ExitedOk(s: Sys, t: Sys, p: nat, status: int)
    requires ReapedOk(s) && t.reaped == s.reaped && |t.ps| == |s.ps| && s.nextpid == t.nextpid && p < |s.ps|
    requires 1 <= s.ps[p].pid < s.nextpid
    requires t.exited == s.exited[s.ps[p].pid := status]
    requires forall i: nat :: i < |t.ps| ==> t.ps[i].pid == s.ps[i].pid
    ensures ReapedOk(t)
  {
  }

  lemma ReapOk(s: Sys, t: Sys, j: nat)
    requires Inv(s) && j < |s.ps| && t.exited == s.exited && t.nextpid == s.nextpid && |t.ps| == |s.ps|
    requires s.ps[j].st == ZOMBIE && t.reaped == s.reaped + [(s.ps[j].pid, s.ps[j].xstate)] && t.ps[j].pid == 0
    requires forall i: nat :: i < |t.ps| && i != j ==> t.ps[i].pid == s.ps[i].pid
    ensures ReapedOk(t)
  {
    hide Inv;
    Know(s, j, j);
    InvReaped(s);
    forall i: nat | i < |t.ps| ensures t.ps[i].pid != s.ps[j].pid { Know(s, i, j); }
  }

  lemma InvReaped(s: Sys)
    requires Inv(s)
    ensures ReapedOk(s)
  {
  }

  lemma StepInv(s: Sys, p: nat, a: Act)
    requires Inv(s) && p < |s.ps| && Enabled(s, p, a)
    ensures Inv(Next(s, p, a))
  {
    hide Step, OneOk, PairOk, ReapedOk, Enabled;
    var t, e := Next(s, p, a), Step(s, p, a);
    KeepsReaped(s, p, a);
    KeepGood(s, p, a, p);
    forall i: nat | i < |t.ps| ensures One(t, i) {
      KeepGood(s, p, a, i);
    }
    forall i: nat, k: nat | i < |t.ps| && k < |t.ps| && i != k ensures Two(t, i, k) {
      KeepGood(s, p, a, i);
      KeepGood(s, p, a, k);
      if i != p && k != p && i != e.other && k != e.other {
        PairRest(s, p, a, i, k);
      }
    }
  }

  // ---- whole runs

  datatype Move = Move(p: nat, a: Act)

  ghost predicate Takes(s: Sys, m: Move, t: Sys) {
    Shape(s) && m.p < |s.ps| && Enabled(s, m.p, m.a) && t == Next(s, m.p, m.a)
  }

  ghost predicate Execution(moves: seq<Move>, states: seq<Sys>) {
    && |states| == |moves| + 1 && Start(states[0])
    && forall j :: 0 <= j < |moves| ==> Takes(states[j], moves[j], states[j + 1])
  }

  lemma {:induction false} RunInv(moves: seq<Move>, states: seq<Sys>, k: nat)
    requires Execution(moves, states) && k < |states|
    ensures Inv(states[k])
  {
    hide Inv, Next, Enabled, Start;
    if k == 0 {
      StartInv(states[0]);
    } else {
      RunInv(moves, states, k - 1);
      assert Takes(states[k - 1], moves[k - 1], states[k - 1 + 1]);
      StepInv(states[k - 1], moves[k - 1].p, moves[k - 1].a);
    }
  }

  /** With wait_lock free, nobody sleeps in wait while a child of theirs is a zombie. */
  lemma NobodySleepsOnAZombie(moves: seq<Move>, states: seq<Sys>, n: nat, i: nat, k: nat)
    requires Execution(moves, states) && n < |states| && states[n].lock == NONE && i < |states[n].ps|
    requires k < |states[n].ps|
    ensures !(states[n].ps[k].parent == i && states[n].ps[k].st == ZOMBIE && states[n].ps[i].st == SLEEPING)
  {
    RunInv(moves, states, n);
    hide Execution, Inv;
    Know(states[n], i, k);
  }

  /** Every process that runs, sleeps or waits to be reaped, other than init, has a
      parent that is running or asleep. */
  lemma ParentsAreAlive(moves: seq<Move>, states: seq<Sys>, n: nat, k: nat)
    requires Execution(moves, states) && n < |states| && k < |states[n].ps|
    requires states[n].ps[k].st !in {UNUSED, USED} && k != states[n].init
    ensures var s := states[n]; 0 <= s.ps[k].parent < |s.ps| && s.ps[s.ps[k].parent].st in {ALIVE, SLEEPING}
  {
    RunInv(moves, states, n);
    hide Execution, Inv;
    Know(states[n], states[n].ps[k].parent, k);
  }

  /** The oldest ancestor: parents have smaller pids, so the chain ends. */
  ghost function Ancestor(s: Sys, i: nat): (r: nat)
    requires Inv(s) && i < |s.ps|
    ensures r < |s.ps| && s.ps[r].parent == NONE
    decreases s.ps[i].pid
  {
    if s.ps[i].parent == NONE then i
    else
      Know(s, s.ps[i].parent, i);
      Ancestor(s, s.ps[i].parent)
  }

  /** The processes form a tree with init at its root. */
  lemma {:induction false} TreeRootedAtInit(s: Sys, i: nat)
    requires Inv(s) && i < |s.ps| && s.ps[i].st !in {UNUSED, USED}
    ensures Ancestor(s, i) == s.init
    decreases s.ps[i].pid
  {
    hide Inv;
    Know(s, s.ps[i].parent, i);
    if s.ps[i].parent != NONE {
      TreeRootedAtInit(s, s.ps[i].parent);
    }
  }

  lemma AlwaysATree(moves: seq<Move>, states: seq<Sys>, n: nat, i: nat)
    requires Execution(moves, states) && n < |states| && i < |states[n].ps| && states[n].ps[i].st !in {UNUSED, USED}
    ensures Inv(states[n]) && Ancestor(states[n], i) == states[n].init
  {
    hide Inv, Execution;
    RunInv(moves, states, n);
    TreeRootedAtInit(states[n], i);
  }

  /** wait reports that there are no children only when there are none. */
  lemma NoChildrenMeansNone(moves: seq<Move>, states: seq<Sys>, n: nat, p: nat, k: nat)
    requires Execution(moves, states) && n < |states| && p < |states[n].ps| && k < |states[n].ps|
    requires states[n].ps[p].pc == Scan(|states[n].ps|, false)
    ensures states[n].ps[k].parent != p
  {
    RunInv(moves, states, n);
    hide Execution, Inv;
    Know(states[n], p, k);
  }

  /** No pid is reaped twice, and each comes with the status of that process's exit. */
  lemma ReapedOnce(moves: seq<Move>, states: seq<Sys>, n: nat, a: nat, b: nat)
    requires Execution(moves, states) && n < |states| && a < |states[n].reaped| && b < |states[n].reaped|
    ensures a != b ==> states[n].reaped[a].0 != states[n].reaped[b].0
    ensures states[n].reaped[a].0 in states[n].exited
    ensures states[n].exited[states[n].reaped[a].0] == states[n].reaped[a].1
  {
    RunInv(moves, states, n);
    hide Execution, One, Two;
  }

  /** An exit status, once recorded, stays: no process exits twice under one pid. */
  lemma {:induction false} ExitsOnce(moves: seq<Move>, states: seq<Sys>, m: nat, n: nat, pid: nat)
    requires Execution(moves, states) && m <= n < |states| && pid in states[m].exited
    ensures pid in states[n].exited && states[n].exited[pid] == states[m].exited[pid]
    decreases n
  {
    hide Inv, Start, Step, PairOk, Enabled;
    if m < n {
      ExitsOnce(moves, states, m, n - 1, pid);
      RunInv(moves, states, n - 1);
      var s, mv := states[n - 1], moves[n - 1];
      assert Takes(s, mv, states[n - 1 + 1]);
      Know(s, mv.p, mv.p);
      Records(s, mv.p, mv.a);
    }
  }

  /** What wait reaps is a child of the caller that has left its kernel stack. */
  lemma ReapsOwnChild(moves: seq<Move>, states: seq<Sys>, n: nat)
    requires Execution(moves, states) && n < |moves| && states[n + 1].reaped != states[n].reaped
    ensures var s, p := states[n], moves[n].p;
            exists j :: 0 <= j < |s.ps| && s.ps[j].parent == p && s.ps[j].st == ZOMBIE && s.ps[j].pc == Gone
                        && states[n + 1].reaped == s.reaped + [(s.ps[j].pid, s.ps[j].xstate)]
                        && states[n + 1].ps[j] == FREED
  {
    hide Inv, Start, Step, Enabled;
    RunInv(moves, states, n);
    var s, mv := states[n], moves[n];
    assert Takes(s, mv, states[n + 1]);
    Know(s, mv.p, mv.p);
    Records(s, mv.p, mv.a);
    Know(s, mv.p, Step(s, mv.p, mv.a).other);
  }

  // ---- the call behind each status

  /** Move j is a call exit(st) by the process that then has this pid. */
  ghost predicate ExitsAs(moves: seq<Move>, states: seq<Sys>, j: nat, pid: nat, st: int)
    requires j < |moves| < |states|
  {
    moves[j].a == Exit(st) && moves[j].p < |states[j].ps| && states[j].ps[moves[j].p].pid == pid
  }

  ghost predicate Called(moves: seq<Move>, states: seq<Sys>, n: nat, pid: nat, st: int)
    requires n <= |moves| < |states|
  {
    exists j :: 0 <= j < n && ExitsAs(moves, states, j, pid, st)
  }

  /** In exit(st), before the status is stored. */
  predicate InExit(pc: Pc, st: int) {
    (pc.Reparent? || pc.WakeInit? || pc.Zombify?) && pc.status == st
  }

  /** What a step makes of entry q, another process's: nothing is left of it, or it is
      new, or it is the same process, perhaps woken. */
  ghost predicate Touched(s: Sys, p: nat, q: nat, x: Proc)
    requires p < |s.ps| && q < |s.ps|
  {
    || x == FREED
    || (x.pid == s.nextpid && x.pc == User && s.ps[q].st == UNUSED)
    || (&& x.pid == s.ps[q].pid && (x.pc == s.ps[q].pc || (x.pc == Woken && s.ps[q].pc == Asleep))
        && (|| x.parent == s.ps[q].parent
            || (s.ps[q].parent == NONE && Creating(s.ps[p].pc) == q && x.parent == p)
            || (s.ps[q].parent == p && Leaving(s.ps[p].pc) && x.parent == s.init)))
  }

  lemma MineStep(s: Sys, p: nat, a: Act)
    requires Inv(s) && p < |s.ps| && Enabled(s, p, a)
    ensures var e := Step(s, p, a);
            && e.mine.pid == s.ps[p].pid && e.mine.parent == s.ps[p].parent && e.nextpid >= s.nextpid
            && (forall st :: InExit(e.mine.pc, st) ==> InExit(s.ps[p].pc, st) || a == Exit(st))
            && (Leaving(s.ps[p].pc) || a.Exit? ==> Leaving(e.mine.pc))
            && (a.Exit? ==> e.other == NONE && s.ps[p].pc == User && 1 <= s.ps[p].pid < s.nextpid)
  {
    hide Inv, Two;
    Know(s, p, p);
  }

  lemma TheirsStep(s: Sys, p: nat, a: Act)
    requires Inv(s) && p < |s.ps| && Enabled(s, p, a)
    ensures var e := Step(s, p, a); 0 <= e.other < |s.ps| ==> e.other != p && Touched(s, p, e.other, e.theirs)
  {
    hide Inv, HistoryOk;
    Know(s, p, p);
    Know(s, p, Step(s, p, a).other);
  }

  /** A status on the way to being stored comes from the call or was on the way before. */
  lemma StatusStep(s: Sys, p: nat, a: Act, i: nat, st: int)
    requires Inv(s) && p < |s.ps| && Enabled(s, p, a) && i < |s.ps| && InExit(Next(s, p, a).ps[i].pc, st)
    ensures Next(s, p, a).ps[i].pid == s.ps[i].pid
    ensures InExit(s.ps[i].pc, st) || (i == p && a == Exit(st))
  {
    hide Inv, Step, Enabled;
    MineStep(s, p, a);
    TheirsStep(s, p, a);
  }

  /** Every status on the way, and every status recorded, is that of a call. */
  lemma {:induction false} StatusIsCalled(moves: seq<Move>, states: seq<Sys>, n: nat)
    requires Execution(moves, states) && n < |states|
    ensures forall i, st :: 0 <= i < |states[n].ps| && InExit(states[n].ps[i].pc, st) ==>
                              Called(moves, states, n, states[n].ps[i].pid, st)
    ensures forall pid :: pid in states[n].exited ==> Called(moves, states, n, pid, states[n].exited[pid])
  {
    hide Inv, Start, Step, Enabled;
    if n == 0 {
      Nobody(states[0]);
    } else {
      StatusIsCalled(moves, states, n - 1);
      RunInv(moves, states, n - 1);
      var s, mv, t := states[n - 1], moves[n - 1], states[n];
      assert Takes(s, mv, states[n - 1 + 1]);
      Know(s, mv.p, mv.p);
      Records(s, mv.p, mv.a);
      assert forall pid, st :: Called(moves, states, n - 1, pid, st) ==> Called(moves, states, n, pid, st);
      forall i, st | 0 <= i < |t.ps| && InExit(t.ps[i].pc, st) ensures Called(moves, states, n, t.ps[i].pid, st) {
        StatusStep(s, mv.p, mv.a, i, st);
        if i == mv.p && mv.a == Exit(st) { assert ExitsAs(moves, states, n - 1, t.ps[i].pid, st); }
      }
    }
  }

  lemma Nobody(s: Sys)
    requires Start(s)
    ensures s.exited == map[] && forall i :: 0 <= i < |s.ps| ==> s.ps[i].pc == User
  {
  }

  lemma LeavingStays(s: Sys, p: nat, a: Act, i: nat, pid: nat)
    requires Inv(s) && p < |s.ps| && Enabled(s, p, a) && i < |s.ps| && 1 <= pid < s.nextpid
    requires forall k :: 0 <= k < |s.ps| && s.ps[k].pid == pid ==> Leaving(s.ps[k].pc)
    ensures Next(s, p, a).ps[i].pid == pid ==> Leaving(Next(s, p, a).ps[i].pc)
  {
    hide Inv, Step, Enabled;
    MineStep(s, p, a);
    TheirsStep(s, p, a);
  }

  /** After its exit call no process with that pid does anything else. */
  lemma {:induction false} ExitedForGood(moves: seq<Move>, states: seq<Sys>, j: nat, n: nat, pid: nat, st: int)
    requires Execution(moves, states) && j < n < |states| && ExitsAs(moves, states, j, pid, st)
    ensures 1 <= pid < states[n].nextpid
    ensures forall i :: 0 <= i < |states[n].ps| && states[n].ps[i].pid == pid ==> Leaving(states[n].ps[i].pc)
    decreases n
  {
    hide Inv, Start, Step, Enabled;
    var s, mv, t := states[n - 1], moves[n - 1], states[n];
    assert Takes(s, mv, states[n - 1 + 1]);
    RunInv(moves, states, n - 1);
    Know(s, mv.p, mv.p);
    Records(s, mv.p, mv.a);
    if j == n - 1 {
      forall i: nat | i < |t.ps| && t.ps[i].pid == pid ensures Leaving(t.ps[i].pc) { ExitLeaves(s, mv.p, st, i); }
      ExitLeaves(s, mv.p, st, mv.p);
    } else {
      ExitedForGood(moves, states, j, n - 1, pid, st);
      forall i: nat | i < |t.ps| ensures t.ps[i].pid == pid ==> Leaving(t.ps[i].pc) {
        LeavingStays(s, mv.p, mv.a, i, pid);
      }
    }
  }

  lemma ExitLeaves(s: Sys, p: nat, st: int, i: nat)
    requires Inv(s) && p < |s.ps| && Enabled(s, p, Exit(st)) && i < |s.ps|
    ensures 1 <= s.ps[p].pid < s.nextpid
    ensures Next(s, p, Exit(st)).ps[i].pid == s.ps[p].pid ==> Leaving(Next(s, p, Exit(st)).ps[i].pc)
  {
    hide Inv, Step, Enabled;
    MineStep(s, p, Exit(st));
    Know(s, i, p);
  }

  /** What wait returns, pid and status, is from a call exit(status) that the process
      with that pid made before; and that is the only call of exit under that pid in
      the whole run. */
  lemma ReapedStatus(moves: seq<Move>, states: seq<Sys>, n: nat, k: nat) returns (j: nat)
    requires Execution(moves, states) && n < |states| && k < |states[n].reaped|
    ensures var (pid, st) := states[n].reaped[k];
            && j < n && ExitsAs(moves, states, j, pid, st)
            && forall m, x :: 0 <= m < |moves| && ExitsAs(moves, states, m, pid, x) ==> m == j
  {
    hide Inv, Start, Step, Enabled, Takes, ExitsAs;
    var (pid, st) := states[n].reaped[k];
    ReapedOnce(moves, states, n, k, k);
    StatusIsCalled(moves, states, n);
    j :| 0 <= j < n && ExitsAs(moves, states, j, pid, st);
    forall m: nat, x | m < |moves| && ExitsAs(moves, states, m, pid, x) ensures m == j {
      if m < j { OneExit(moves, states, m, j, pid, x, st); }
      if j < m { OneExit(moves, states, j, m, pid, st, x); }
    }
  }

  lemma OneExit(moves: seq<Move>, states: seq<Sys>, j: nat, m: nat, pid: nat, st: int, x: int)
    requires Execution(moves, states) && j < m < |moves| && ExitsAs(moves, states, j, pid, st)
    ensures !ExitsAs(moves, states, m, pid, x)
  {
    hide Inv, Start, Step;
    ExitedForGood(moves, states, j, m, pid, st);
    assert Takes(states[m], moves[m], states[m + 1]);
  }

  /** A process's parent is set by the fork that makes it, and changes only when the
      parent exits, to init. */
  lemma ParentsChange(moves: seq<Move>, states: seq<Sys>, n: nat, k: nat)
    requires Execution(moves, states) && n < |moves| && k < |states[n].ps|
    ensures var s, p, t := states[n], moves[n].p, states[n + 1];
            && |t.ps| == |s.ps| && t.init == s.init
            && (t.ps[k].pid == s.ps[k].pid && t.ps[k].parent != s.ps[k].parent ==>
                  || (s.ps[k].parent == NONE && Creating(s.ps[p].pc) == k && t.ps[k].parent == p)
                  || (s.ps[k].parent == p && Leaving(s.ps[p].pc) && t.ps[k].parent == s.init))
  {
    hide Inv, Start, Step, Enabled;
    RunInv(moves, states, n);
    var s, mv := states[n], moves[n];
    assert Takes(s, mv, states[n + 1]);
    Know(s, mv.p, k);
    MineStep(s, mv.p, mv.a);
    TheirsStep(s, mv.p, mv.a);
  }
}
