/** What end_op promises: the last operation out commits, so once no operation is
    running every update of the operations that have ended is on disk for good. */
module LogDurable {
  import opened Base
  import opened Disk
  import opened LogCrash
  import opened LogLayer
  import opened LogSystem

  /** The updates log_write was given in steps j to k, in order. */
  ghost function Updates(steps: seq<Step>, states: seq<Sys>, j: nat, k: nat): seq<Update>
    requires j <= k <= |steps| < |states|
    requires forall m :: j <= m < k && steps[m].LogWrite? ==> steps[m].i < |states[m].active|
    decreases k
  {
    if j == k then []
    else
      var a := steps[k - 1];
      Updates(steps, states, j, k - 1) +
      if a.LogWrite? then [Update(states[k - 1].active[a.i].id, a.no, a.data)] else []
  }

  ghost predicate NoCrash(steps: seq<Step>, j: nat, k: nat)
    requires k <= |steps|
  {
    forall m :: j <= m < k ==> !steps[m].Crash?
  }

  lemma RunShape(l: Area, disk: Store, steps: seq<Step>, states: seq<Sys>)
    requires Run(l, disk, steps, states)
    ensures |states| == |steps| + 1
    ensures forall m :: 0 <= m < |steps| && steps[m].LogWrite? ==> steps[m].i < |states[m].active|
  {
    hide Next;
    forall m | 0 <= m < |steps| && steps[m].LogWrite? ensures steps[m].i < |states[m].active| {
      assert Enabled(l, states[m], steps[m]);
    }
  }

  lemma StepHistory(l: Area, s: Sys, a: Step)
    requires Enabled(l, s, a) && !a.Crash?
    ensures var t := Next(l, s, a);
            t.durable + t.current ==
            s.durable + s.current + if a.LogWrite? then [Update(s.active[a.i].id, a.no, a.data)] else []
  {
    hide CommitWrites, RecoverWrites;
  }

  /** Between crashes the record of updates is exactly what log_write was given. */
  lemma {:induction false} HistoryIs(l: Area, disk: Store, steps: seq<Step>, states: seq<Sys>, j: nat, k: nat)
    requires Run(l, disk, steps, states) && j <= k <= |steps| && NoCrash(steps, j, k)
    ensures forall m :: j <= m < k && steps[m].LogWrite? ==> steps[m].i < |states[m].active|
    ensures states[k].durable + states[k].current ==
            states[j].durable + states[j].current + Updates(steps, states, j, k)
    decreases k
  {
    hide Run, Next, Enabled;
    RunShape(l, disk, steps, states);
    if j < k {
      HistoryIs(l, disk, steps, states, j, k - 1);
      RunStep(l, disk, steps, states, k - 1);
      StepHistory(l, states[k - 1], steps[k - 1]);
    }
  }

  /** Whenever no operation is running and no commit is under way, nothing is pending:
      every update ever made is durable or was lost in a crash. */
  lemma NothingPending(l: Area, disk: Store, steps: seq<Step>, states: seq<Sys>, k: nat)
    requires Clean(l, disk) && Run(l, disk, steps, states) && k < |states|
    requires states[k].phase.Up? && states[k].outstanding == 0
    ensures states[k].current == [] && states[k].blocks == []
    ensures forall u :: u in Made(states[k]) ==> u in states[k].durable || u in states[k].lost
  {
    hide Run, OnDisk, Fate, Clean;
    RunInv(l, disk, steps, states, k);
  }

  /** Once no operation is running, every update since the last crash is durable, in
      order, and installed; and so it stays at every later moment, crashes or not. */
  lemma EndedIsDurable(l: Area, disk: Store, steps: seq<Step>, states: seq<Sys>, j: nat, k: nat, n: nat)
    requires Clean(l, disk) && Run(l, disk, steps, states) && j <= k <= n < |states| && NoCrash(steps, j, k)
    requires states[k].phase.Up? && states[k].outstanding == 0
    ensures forall m :: j <= m < k && steps[m].LogWrite? ==> steps[m].i < |states[m].active|
    ensures var all := states[j].durable + states[j].current + Updates(steps, states, j, k);
            && states[k].durable == all && Home(l, states[k].disk) == ApplyUpdates(Home(l, disk), all)
            && all <= states[n].durable
            && Good(l, states[n].disk)
            && Home(l, Recovered(l, states[n].disk)) == ApplyUpdates(Home(l, disk), states[n].durable)
  {
    hide Run, OnDisk, Fate, Clean, Home, Recovered, ApplyUpdates, Good, Updates;
    RunShape(l, disk, steps, states);
    NothingPending(l, disk, steps, states, k);
    HistoryIs(l, disk, steps, states, j, k);
    CrashSafe(l, disk, steps, states, k);
    CrashSafe(l, disk, steps, states, n);
    CommittedStays(l, disk, steps, states, k, n);
  }

  // ---- a commit, once begun, can finish, and so can recovery

  ghost predicate IsCommitStep(a: Step) {
    a == CommitWrite || a == CommitDone
  }

  /** The steps and states after the first n of the longer run. */
  ghost predicate Goes(steps: seq<Step>, states: seq<Sys>, steps': seq<Step>, states': seq<Sys>) {
    |states| == |steps| + 1 && |states'| == |steps'| + 1 && steps <= steps' && states <= states'
  }

  lemma CommitStepKeeps(l: Area, disk: Store, s: Sys)
    requires Inv(l, disk, s) && Enabled(l, s, CommitWrite)
    ensures var t := Next(l, s, CommitWrite);
            && t.phase == Committing(s.phase.before, s.phase.done + 1) && t.pinned == s.pinned && t.blocks == s.blocks
            && Plan(l, t) == Plan(l, s) && t.outstanding == s.outstanding && t.active == s.active
            && t.durable + t.current == s.durable + s.current
  {
  }

  lemma PlanKnown(l: Area, disk: Store, s: Sys)
    requires Inv(l, disk, s) && s.phase.Committing?
    ensures l.start in s.phase.before && PinnedOnDisk(s.phase.before, s.pinned, s.blocks)
    ensures s.phase.done <= |Plan(l, s)| && s.disk == Apply(s.phase.before, Plan(l, s)[..s.phase.done])
    ensures s.phase.done == |Plan(l, s)| ==> s.current == []
  {
    hide Apply, Home, ApplyUpdates, Fate;
    PlanTxn(s, s.phase.before);
    if s.phase.done == |Plan(l, s)| { CommitDoneOnDisk(l, disk, s); }
  }

  /** The commit goes through all its writes and returns. */
  lemma {:induction false} CommitFinishes(l: Area, disk: Store, steps: seq<Step>, states: seq<Sys>)
      returns (steps': seq<Step>, states': seq<Sys>)
    requires Clean(l, disk) && Run(l, disk, steps, states) && states[|steps|].phase.Committing?
    ensures Run(l, disk, steps', states') && Goes(steps, states, steps', states')
    ensures forall m :: |steps| <= m < |steps'| ==> IsCommitStep(steps'[m])
    ensures var s, t := states[|steps|], states'[|steps'|];
            && t.phase.Up? && t.outstanding == s.outstanding && t.active == s.active
            && t.blocks == [] && t.pinned == map[] && !t.committing
            && t.durable == s.durable + s.current && t.current == [] && t.lost == s.lost
            && l.start in s.phase.before && PinnedOnDisk(s.phase.before, s.pinned, s.blocks)
            && t.disk == Apply(s.phase.before, Plan(l, s))
    decreases (RunInv(l, disk, steps, states, |steps|);
               PlanKnown(l, disk, states[|steps|]);
               |Plan(l, states[|steps|])| - states[|steps|].phase.done)
  {
    hide Run, Apply, Inv, Plan;
    RunShape(l, disk, steps, states);
    RunInv(l, disk, steps, states, |steps|);
    var s := states[|steps|];
    PlanKnown(l, disk, s);
    if s.phase.done == |Plan(l, s)| {
      assert Plan(l, s)[..s.phase.done] == Plan(l, s);
      steps', states' := Extend(l, disk, steps, states, CommitDone);
      assert s.durable + [] == s.durable;
    } else {
      CommitStepKeeps(l, disk, s);
      steps', states' := Extend(l, disk, steps, states, CommitWrite);
      steps', states' := CommitFinishes(l, disk, steps', states');
    }
  }

  lemma FoundKnown(l: Area, disk: Store, s: Sys)
    requires Inv(l, disk, s) && s.phase.Recovering?
    ensures Good(l, s.phase.found) && s.phase.done <= |RecoverWrites(l, s.phase.found)|
    ensures s.disk == Apply(s.phase.found, RecoverWrites(l, s.phase.found)[..s.phase.done])
    ensures s.outstanding == 0 && s.active == [] && s.current == []
  {
  }

  /** Recovery goes through all its writes. */
  lemma {:induction false} RecoveryFinishes(l: Area, disk: Store, steps: seq<Step>, states: seq<Sys>)
      returns (steps': seq<Step>, states': seq<Sys>)
    requires Clean(l, disk) && Run(l, disk, steps, states) && states[|steps|].phase.Recovering?
    ensures Run(l, disk, steps', states') && Goes(steps, states, steps', states')
    ensures forall m :: |steps| <= m < |steps'| ==> steps'[m] == RecoverWrite || steps'[m] == RecoverDone
    ensures var s, t := states[|steps|], states'[|steps'|];
            && t.phase.Up? && t.outstanding == 0 && t.durable == s.durable && t.current == [] && t.lost == s.lost
            && Good(l, s.phase.found) && t.disk == Recovered(l, s.phase.found)
    decreases (RunInv(l, disk, steps, states, |steps|);
               FoundKnown(l, disk, states[|steps|]);
               |RecoverWrites(l, states[|steps|].phase.found)| - states[|steps|].phase.done)
  {
    hide Run, Apply, Inv, RecoverWrites;
    RunShape(l, disk, steps, states);
    RunInv(l, disk, steps, states, |steps|);
    var s := states[|steps|];
    FoundKnown(l, disk, s);
    var ws := RecoverWrites(l, s.phase.found);
    if s.phase.done == |ws| {
      assert ws[..|ws|] == ws;
      steps', states' := Extend(l, disk, steps, states, RecoverDone);
    } else {
      steps', states' := Extend(l, disk, steps, states, RecoverWrite);
      steps', states' := RecoveryFinishes(l, disk, steps', states');
    }
  }

  /** One operation on a fresh system, up to its end_op. */
  lemma OneOperation(l: Area, disk: Store, no: int, data: Block) returns (steps: seq<Step>, states: seq<Sys>)
    requires l.size > 1 && no in disk && !InArea(l, no)
    ensures Run(l, disk, steps, states) && steps == [BeginOp, LogWrite(0, no, data), EndOp(0)]
    ensures var s := states[3];
            && s.phase.Committing? && s.outstanding == 0 && s.durable == [] && s.lost == []
            && s.current == [Update(0, no, data)]
  {
    steps, states := [], [Init(disk)];
    steps, states := Extend(l, disk, steps, states, BeginOp);
    assert |{} + {no}| == 1;
    steps, states := Extend(l, disk, steps, states, LogWrite(0, no, data));
    steps, states := Extend(l, disk, steps, states, EndOp(0));
  }

  /** An operation's update becomes durable when its end_op returns, and is there
      after a crash and recovery. */
  lemma UpdateOutlivesCrash(l: Area, disk: Store, no: int, data: Block)
      returns (steps: seq<Step>, states: seq<Sys>, n: nat)
    requires Clean(l, disk) && l.size > 1 && no in disk && !InArea(l, no)
    ensures Run(l, disk, steps, states) && n < |steps| && steps[n] == Crash
    ensures [BeginOp, LogWrite(0, no, data), EndOp(0)] <= steps && states[n].phase.Up? && states[n].outstanding == 0
    ensures var t := states[|steps|];
            && t.phase.Up? && t.durable == [Update(0, no, data)] && t.lost == []
            && Home(l, t.disk) == Home(l, disk)[no := data]
  {
    hide Run, Apply, Home, Clean, Good, Plan, Recovered, ApplyUpdates;
    steps, states := OneOperation(l, disk, no, data);
    RunShape(l, disk, steps, states);
    var u := Update(0, no, data);
    steps, states := CommitFinishes(l, disk, steps, states);
    n := |steps|;
    steps, states := Extend(l, disk, steps, states, Crash);
    steps, states := Extend(l, disk, steps, states, RecoverStart);
    steps, states := RecoveryFinishes(l, disk, steps, states);
    CrashSafe(l, disk, steps, states, |steps|);
    assert [] + [u] == [u];
    OneUpdate(Home(l, disk), u);
  }

  lemma OneUpdate(h: Store, u: Update)
    ensures ApplyUpdates(h, [u]) == h[u.no := u.data]
  {
    assert [u][..0] == [];
  }

  // ---- the log in memory takes these steps

  /** The log record, between calls, is the state of a run. */
  ghost predicate Shows(log: Log, s: Sys)
    reads log, log.block
  {
    && log.Valid() && s.phase.Up? && !log.committing && !s.committing && log.outstanding == s.outstanding
    && log.disk == s.disk && log.pinned == s.pinned && log.Blocks() == s.blocks
  }

  method Admit(log: Log, ghost disk: Store, ghost steps: seq<Step>, ghost states: seq<Sys>)
      returns (admitted: bool, ghost steps': seq<Step>, ghost states': seq<Sys>)
    requires Run(log.area, disk, steps, states) && Shows(log, states[|steps|])
    modifies log
    ensures admitted <==> Enabled(log.area, states[|steps|], BeginOp)
    ensures steps' == (if admitted then steps + [BeginOp] else steps) && states <= states'
    ensures Run(log.area, disk, steps', states') && Shows(log, states'[|steps'|])
  {
    steps', states' := steps, states;
    admitted := log.BeginOp();
    if admitted {
      steps', states' := Extend(log.area, disk, steps, states, BeginOp);
    }
  }

  method Append(log: Log, i: nat, no: int, data: Block, ghost disk: Store, ghost steps: seq<Step>,
      ghost states: seq<Sys>) returns (ok: bool, ghost steps': seq<Step>, ghost states': seq<Sys>)
    requires Run(log.area, disk, steps, states) && Shows(log, states[|steps|])
    requires WithinAllowance(states[|steps|], i, no) && no in log.disk && !InArea(log.area, no)
    modifies log, log.block
    ensures ok <==> Enabled(log.area, states[|steps|], LogWrite(i, no, data))
    ensures steps' == (if ok then steps + [LogWrite(i, no, data)] else steps) && states <= states'
    ensures Run(log.area, disk, steps', states') && Shows(log, states'[|steps'|])
  {
    steps', states' := steps, states;
    ok := log.LogWrite(no, data);
    if ok {
      steps', states' := Extend(log.area, disk, steps, states, LogWrite(i, no, data));
    }
  }

  /** end_op, which returns only when its commit, if it makes one, is through. */
  method Leave(log: Log, i: nat, ghost disk: Store, ghost steps: seq<Step>, ghost states: seq<Sys>)
      returns (ok: bool, ghost steps': seq<Step>, ghost states': seq<Sys>)
    requires Clean(log.area, disk) && Run(log.area, disk, steps, states) && Shows(log, states[|steps|])
    requires i < |states[|steps|].active|
    modifies log
    ensures ok && steps + [EndOp(i)] <= steps' && states <= states'
    ensures forall m :: |steps| < m < |steps'| ==> IsCommitStep(steps'[m])
    ensures Run(log.area, disk, steps', states') && Shows(log, states'[|steps'|])
    ensures states[|steps|].outstanding == 1 ==>
              states'[|steps'|].durable == states[|steps|].durable + states[|steps|].current
  {
    hide Run, OnDisk, Fate, Apply, Home, Txn, Elements;
    RunShape(log.area, disk, steps, states);
    RunInv(log.area, disk, steps, states, |steps|);
    ghost var s := states[|steps|];
    UpMeans(log.area, disk, s);
    steps', states' := Extend(log.area, disk, steps, states, EndOp(i));
    ok := log.EndOp();
    if s.outstanding == 1 {
      steps', states' := CommitFinishes(log.area, disk, steps', states');
      assert log.Blocks() == [];
    }
  }

  lemma UpMeans(l: Area, disk: Store, s: Sys)
    requires Inv(l, disk, s) && s.phase.Up?
    ensures Clean(l, s.disk) && s.pinned - Elements(s.blocks) == map[] && s.outstanding == |s.active|
  {
  }

  /** initlog after a crash. */
  method Restart(log: Log, ghost disk: Store, ghost steps: seq<Step>, ghost states: seq<Sys>)
      returns (ghost steps': seq<Step>, ghost states': seq<Sys>)
    requires Clean(log.area, disk) && Run(log.area, disk, steps, states) && states[|steps|].phase.Down?
    requires log.block.Length == LOGSIZE && log.disk == states[|steps|].disk && log.pinned == map[]
    requires log.outstanding == 0 && !log.committing
    modifies log, log.block
    ensures steps + [RecoverStart] <= steps' && states <= states'
    ensures Run(log.area, disk, steps', states') && Shows(log, states'[|steps'|])
    ensures states'[|steps'|].durable == states[|steps|].durable
  {
    hide Run, Fate, Home, Recovered, RecoverWrites;
    RunShape(log.area, disk, steps, states);
    RunInv(log.area, disk, steps, states, |steps|);
    log.RecoverFromLog();
    steps', states' := Extend(log.area, disk, steps, states, RecoverStart);
    steps', states' := RecoveryFinishes(log.area, disk, steps', states');
    RunShape(log.area, disk, steps', states');
    RunInv(log.area, disk, steps', states', |steps'|);
    NothingLogged(log.area, disk, states'[|steps'|]);
    assert log.Blocks() == [];
  }

  lemma NothingLogged(l: Area, disk: Store, s: Sys)
    requires Inv(l, disk, s) && s.phase.Up? && s.outstanding == 0
    ensures s.blocks == [] && s.pinned == map[] && !s.committing
  {
    assert s.pinned.Keys == {};
  }
}
