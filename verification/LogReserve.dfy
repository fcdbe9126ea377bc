/** When begin_op must refuse: it counts the blocks logged so far and, besides, the
    full allowance of every running operation, although a running operation may have
    used part of its allowance for those very blocks. */
module LogReserve {
  import opened Base
  import opened Disk
  import opened LogCrash
  import opened LogLayer
  import opened LogSystem

  /** Nothing but calls of log_write, from state s on. */
  ghost predicate Writes(l: Area, s: Sys, steps: seq<Step>, states: seq<Sys>) {
    && |states| == |steps| + 1 && states[0] == s
    && forall k :: 0 <= k < |steps| ==> steps[k].LogWrite? && Enabled(l, states[k], steps[k])
                                        && states[k + 1] == Next(l, states[k], steps[k])
  }

  /** The running operations, within their allowances, can fill the log and then need
      one block more. */
  ghost predicate CanOverfill(l: Area, s: Sys) {
    exists steps: seq<Step>, states: seq<Sys>, i: nat, no: int ::
      Writes(l, s, steps, states) && Needs(states[|steps|], i, no) && |states[|steps|].blocks| == LOGSIZE
  }

  ghost predicate Needs(s: Sys, i: nat, no: int) {
    WithinAllowance(s, i, no) && no !in s.blocks
  }

  /** A running system with room for every block number it may need. */
  ghost predicate Roomy(l: Area, s: Sys, homes: seq<int>) {
    && Running(s) && l.size > LOGSIZE && |s.blocks| <= LOGSIZE && s.outstanding >= 1
    && (forall i :: 0 <= i < |s.active| ==> s.active[i].used <= Elements(s.blocks) && |s.active[i].used| <= MAXOPBLOCKS)
    && Distinct(homes) && |homes| > LOGSIZE && forall no :: no in homes ==> no in s.disk && !InArea(l, no)
  }

  lemma {:induction false} SomeoneHasRoom(ops: seq<Op>) returns (i: nat)
    requires Slack(ops) > 0
    ensures i < |ops| && |ops[i].used| < MAXOPBLOCKS
  {
    i := |ops| - 1;
    if |ops[i].used| >= MAXOPBLOCKS { i := SomeoneHasRoom(ops[..i]); }
  }

  lemma {:induction false} Pigeons(homes: seq<int>, bs: seq<int>)
    requires Distinct(homes) && forall x :: 0 <= x < |homes| ==> homes[x] in bs
    ensures |homes| <= |bs|
  {
    if homes != [] {
      var n := |homes| - 1;
      var p :| 0 <= p < |bs| && bs[p] == homes[n];
      var rest := bs[..p] + bs[p + 1..];
      forall x | 0 <= x < n ensures homes[x] in rest {
        var q :| 0 <= q < |bs| && bs[q] == homes[x];
        assert homes[x] == rest[if q < p then q else q - 1];
      }
      Pigeons(homes[..n], rest);
    }
  }

  /** Some home block is not logged. */
  lemma Fresh(homes: seq<int>, bs: seq<int>) returns (no: int)
    requires Distinct(homes) && |homes| > |bs|
    ensures no in homes && no !in bs
  {
    if forall x :: 0 <= x < |homes| ==> homes[x] in bs { Pigeons(homes, bs); }
    var x :| 0 <= x < |homes| && homes[x] !in bs;
    no := homes[x];
  }

  lemma SomeoneNeeds(l: Area, s: Sys, homes: seq<int>) returns (i: nat, no: int)
    requires Roomy(l, s, homes) && Slack(s.active) > 0
    ensures Needs(s, i, no) && no in homes
  {
    i := SomeoneHasRoom(s.active);
    no := Fresh(homes, s.blocks);
  }

  /** One block more, by an operation that had not logged it. */
  lemma WriteOne(l: Area, s: Sys, homes: seq<int>, i: nat, no: int, data: Block)
    requires Roomy(l, s, homes) && Needs(s, i, no) && no in homes && |s.blocks| < LOGSIZE
    ensures var a := LogWrite(i, no, data);
            && Enabled(l, s, a) && Roomy(l, Next(l, s, a), homes) && |Next(l, s, a).blocks| == |s.blocks| + 1
            && Slack(Next(l, s, a).active) == Slack(s.active) - 1
  {
    var t := Next(l, s, LogWrite(i, no, data));
    assert no !in s.active[i].used;
    SlackUpdate(s.active, i, t.active[i]);
    assert Elements(t.blocks) == Elements(s.blocks) + {no};
  }

  lemma {:induction false} Overfill(l: Area, s: Sys, homes: seq<int>, data: Block)
      returns (steps: seq<Step>, states: seq<Sys>, i: nat, no: int)
    requires Roomy(l, s, homes) && |s.blocks| + Slack(s.active) > LOGSIZE
    ensures Writes(l, s, steps, states) && Needs(states[|steps|], i, no) && |states[|steps|].blocks| == LOGSIZE
    decreases LOGSIZE - |s.blocks|
  {
    hide Roomy, Needs, Slack;
    RoomyMeans(l, s, homes);
    i, no := SomeoneNeeds(l, s, homes);
    if |s.blocks| == LOGSIZE {
      steps, states := [], [s];
    } else {
      var a := LogWrite(i, no, data);
      WriteOne(l, s, homes, i, no, data);
      steps, states, i, no := Overfill(l, Next(l, s, a), homes, data);
      steps, states := [a] + steps, [s] + states;
    }
  }

  lemma RoomyMeans(l: Area, s: Sys, homes: seq<int>)
    requires Roomy(l, s, homes)
    ensures |s.blocks| <= LOGSIZE
  {
  }

  /** What the log may come to does not grow with a write. */
  lemma WriteKeeps(l: Area, s: Sys, a: Step, homes: seq<int>)
    requires Roomy(l, s, homes) && a.LogWrite? && Enabled(l, s, a)
    ensures var t := Next(l, s, a);
            Roomy(l, t, homes) && |t.blocks| + Slack(t.active) <= |s.blocks| + Slack(s.active)
  {
    var t := Next(l, s, a);
    var op := s.active[a.i];
    SlackUpdate(s.active, a.i, t.active[a.i]);
    assert Elements(t.blocks) == Elements(s.blocks) + {a.no};
    if a.no !in s.blocks { assert a.no !in op.used; }
    if a.no in op.used { assert op.used + {a.no} == op.used; }
  }

  lemma {:induction false} WritesKeep(l: Area, s: Sys, steps: seq<Step>, states: seq<Sys>, homes: seq<int>, k: nat)
    requires Roomy(l, s, homes) && Writes(l, s, steps, states) && k < |states|
    ensures Roomy(l, states[k], homes) && |states[k].blocks| + Slack(states[k].active) <= |s.blocks| + Slack(s.active)
  {
    hide Roomy, Slack, Next, Enabled;
    if k > 0 {
      WritesKeep(l, s, steps, states, homes, k - 1);
      assert states[k - 1 + 1] == Next(l, states[k - 1], steps[k - 1]);
      WriteKeeps(l, states[k - 1], steps[k - 1], homes);
    }
  }

  lemma NeedsRoom(l: Area, s: Sys, homes: seq<int>, i: nat, no: int)
    requires Roomy(l, s, homes) && Needs(s, i, no)
    ensures Slack(s.active) > 0
  {
    assert no !in s.active[i].used;
    SlackWithout(s.active, i);
    var rest := Without(s.active, i);
    forall j | 0 <= j < |rest| ensures rest[j] in s.active { }
    SlackBound(rest);
  }

  lemma OverfillMeans(l: Area, s: Sys, homes: seq<int>, data: Block)
    requires Roomy(l, s, homes)
    ensures CanOverfill(l, s) <==> |s.blocks| + Slack(s.active) > LOGSIZE
  {
    hide Roomy, Needs, Slack;
    if CanOverfill(l, s) {
      var steps: seq<Step>, states: seq<Sys>, i: nat, no: int :|
        Writes(l, s, steps, states) && Needs(states[|steps|], i, no) && |states[|steps|].blocks| == LOGSIZE;
      WritesKeep(l, s, steps, states, homes, |steps|);
      NeedsRoom(l, states[|steps|], homes, i, no);
    }
    if |s.blocks| + Slack(s.active) > LOGSIZE {
      var steps, states, i, no := Overfill(l, s, homes, data);
    }
  }

  /** One more operation, whatever begin_op's test says. */
  ghost function Admitted(s: Sys): Sys {
    s.(outstanding := s.outstanding + 1, active := s.active + [Op(s.nextOp, {})], nextOp := s.nextOp + 1)
  }

  ghost predicate NoneUsed(ops: seq<Op>) {
    forall i :: 0 <= i < |ops| ==> ops[i].used == {}
  }

  lemma {:induction false} AllSlack(ops: seq<Op>)
    requires NoneUsed(ops)
    ensures Slack(ops) == |ops| * MAXOPBLOCKS
  {
    if ops != [] { AllSlack(ops[..|ops| - 1]); }
  }

  /** Outside a commit, in every run: whom begin_op admits cannot overfill the log.
      Admitting one more could overfill it exactly if what is logged, what the running
      operations have left, and a full allowance exceed LOGSIZE.  So a refusal is
      needed if no running operation has logged anything yet. */
  lemma RefusalNeeded(l: Area, disk: Store, steps: seq<Step>, states: seq<Sys>, k: nat, homes: seq<int>, data: Block)
    requires Clean(l, disk) && Run(l, disk, steps, states) && k < |states| && states[k].phase.Up?
    requires l.size > LOGSIZE && Distinct(homes) && |homes| > LOGSIZE
    requires forall no :: no in homes ==> no in states[k].disk && !InArea(l, no)
    ensures var s := states[k];
            var may := MayBegin(|s.blocks|, s.outstanding, s.committing);
            && (CanOverfill(l, Admitted(s)) <==> |s.blocks| + Slack(s.active) + MAXOPBLOCKS > LOGSIZE)
            && (may ==> !CanOverfill(l, Admitted(s)))
            && (NoneUsed(s.active) ==> (may <==> !CanOverfill(l, Admitted(s))))
  {
    hide CanOverfill, OnDisk, Fate, Run;
    RunInv(l, disk, steps, states, k);
    var s := states[k];
    var t := Admitted(s);
    assert t.active[..|s.active|] == s.active;
    SlackBound(s.active);
    OverfillMeans(l, t, homes, data);
    if NoneUsed(s.active) { AllSlack(s.active); }
  }

  lemma TwoOperations(l: Area, disk: Store, no: int, data: Block) returns (steps: seq<Step>, states: seq<Sys>)
    requires l.size > 1 && no in disk && !InArea(l, no)
    ensures Run(l, disk, steps, states) && |steps| == 3
    ensures var s := states[3];
            && s.phase.Up? && !s.committing && s.outstanding == 2 && |s.blocks| == 1 && s.disk == disk
            && s.active == [Op(0, {no}), Op(1, {})]
  {
    steps, states := [], [Init(disk)];
    steps, states := Extend(l, disk, steps, states, BeginOp);
    steps, states := Extend(l, disk, steps, states, BeginOp);
    assert states[2].active == [Op(0, {}), Op(1, {})];
    assert {} + {no} == {no};
    steps, states := Extend(l, disk, steps, states, LogWrite(0, no, data));
    assert states[3].active == [Op(0, {no}), Op(1, {})];
  }

  lemma SlackOfTwo(a: Op, b: Op)
    ensures Slack([a, b]) == 2 * MAXOPBLOCKS - |a.used| - |b.used|
  {
    var two, one := [a, b], [a];
    assert one[..0] == [];
    assert Slack(one) == MAXOPBLOCKS - |a.used|;
    assert two[..1] == one;
  }

  /** Three operations of full size fit an empty log, but the third is refused as soon
      as one of the others has logged a block. */
  lemma RefusedNeedlessly(l: Area, disk: Store, no: int, data: Block, homes: seq<int>)
      returns (steps: seq<Step>, states: seq<Sys>)
    requires Clean(l, disk) && l.size > LOGSIZE && no in homes && Distinct(homes) && |homes| > LOGSIZE
    requires forall x :: x in homes ==> x in disk && !InArea(l, x)
    ensures Run(l, disk, steps, states) && states[|steps|].phase.Up?
    ensures var s := states[|steps|];
            !MayBegin(|s.blocks|, s.outstanding, s.committing) && !CanOverfill(l, Admitted(s))
  {
    hide CanOverfill, Run, Slack, Clean;
    steps, states := TwoOperations(l, disk, no, data);
    SlackOfTwo(Op(0, {no}), Op(1, {}));
    LastIs(l, disk, steps, states);
    RefusalNeeded(l, disk, steps, states, 3, homes, data);
  }

  lemma LastIs(l: Area, disk: Store, steps: seq<Step>, states: seq<Sys>)
    requires Run(l, disk, steps, states)
    ensures |states| == |steps| + 1
  {
  }
}
