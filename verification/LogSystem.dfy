/** Concurrent file system operations over the log, with crashes.

    Operations run between begin_op and end_op, interleaved in any order; the
    last one out starts a commit, which goes to disk one block write at a time;
    the machine may crash between any two steps and, after that, inside
    recovery.  Each operation writes at most MAXOPBLOCKS distinct blocks. */
module LogSystem {
  import opened Base
  import opened Disk
  import opened LogCrash
  import opened LogLayer

  /** Operation `op` gave block `no` the contents `data`. */
  datatype Update = Update(op: nat, no: int, data: Block)

  /** A running operation and the distinct blocks it has logged. */
  datatype Op = Op(id: nat, used: set<int>)

  datatype Phase =
    | Up
    | Committing(before: Store, done: nat)   // the disk when the commit began; writes issued since
    | Down
    | Recovering(found: Store, done: nat)    // the disk when recovery began; writes issued since

  datatype Sys = Sys(
    disk: Store,
    // lost in a crash
    blocks: seq<int>, pinned: Store, outstanding: int, committing: bool, phase: Phase, active: seq<Op>,
    // history, for stating properties only
    nextOp: nat,
    durable: seq<Update>,    // updates of committed groups
    current: seq<Update>,    // updates of the group being built
    lost: seq<Update>)       // updates of groups that a crash discarded

  datatype Step =
    | BeginOp
    | LogWrite(i: nat, no: int, data: Block)   // by the i-th running operation
    | EndOp(i: nat)
    | CommitWrite
    | CommitDone
    | Crash
    | RecoverStart
    | RecoverWrite
    | RecoverDone

  function ApplyUpdates(h: Store, us: seq<Update>): Store {
    if us == [] then h
    else
      var u := us[|us| - 1];
      ApplyUpdates(h, us[..|us| - 1])[u.no := u.data]
  }

  /** What is left of the allowances of the running operations. */
  function Slack(ops: seq<Op>): int {
    if ops == [] then 0
    else Slack(ops[..|ops| - 1]) + MAXOPBLOCKS - |ops[|ops| - 1].used|
  }

  function Without(ops: seq<Op>, i: nat): seq<Op>
    requires i < |ops|
  {
    ops[..i] + ops[i + 1..]
  }

  ghost predicate PinnedOnDisk(before: Store, pinned: Store, blocks: seq<int>) {
    && |blocks| <= LOGSIZE
    && forall i :: 0 <= i < |blocks| ==> blocks[i] in before + pinned
  }

  /** The writes the commit in progress issues, from the live in-memory log. */
  function Plan(l: Area, s: Sys): seq<Write>
    requires s.phase.Committing? && l.start in s.phase.before
    requires PinnedOnDisk(s.phase.before, s.pinned, s.blocks)
  {
    CommitWrites(l, s.phase.before, s.phase.before + s.pinned, s.blocks)
  }

  ghost predicate Running(s: Sys) {
    s.phase.Up? || s.phase.Committing?
  }

  /** The operation's write fits its allowance. */
  ghost predicate WithinAllowance(s: Sys, i: nat, no: int) {
    i < |s.active| && |s.active[i].used + {no}| <= MAXOPBLOCKS
  }

  ghost predicate Enabled(l: Area, s: Sys, a: Step) {
    match a
    case BeginOp => Running(s) && MayBegin(|s.blocks|, s.outstanding, s.committing)
    case LogWrite(i, no, data) =>
      && Running(s) && WithinAllowance(s, i, no)
      && no in s.disk && !InArea(l, no) && !WritePanics(|s.blocks|, l.size, s.outstanding)
    case EndOp(i) => Running(s) && i < |s.active| && !s.committing
    case CommitWrite =>
      && s.phase.Committing? && l.start in s.phase.before
      && PinnedOnDisk(s.phase.before, s.pinned, s.blocks) && s.phase.done < |Plan(l, s)|
    case CommitDone =>
      && s.phase.Committing? && l.start in s.phase.before
      && PinnedOnDisk(s.phase.before, s.pinned, s.blocks) && s.phase.done == |Plan(l, s)|
    case Crash => !s.phase.Down?
    case RecoverStart => s.phase.Down?
    case RecoverWrite =>
      s.phase.Recovering? && Good(l, s.phase.found) && s.phase.done < |RecoverWrites(l, s.phase.found)|
    case RecoverDone =>
      s.phase.Recovering? && Good(l, s.phase.found) && s.phase.done == |RecoverWrites(l, s.phase.found)|
  }

  ghost function Next(l: Area, s: Sys, a: Step): Sys
    requires Enabled(l, s, a)
  {
    match a
    case BeginOp =>
      s.(outstanding := s.outstanding + 1, active := s.active + [Op(s.nextOp, {})], nextOp := s.nextOp + 1)
    case LogWrite(i, no, data) =>
      var op := s.active[i];
      s.(blocks := Absorb(s.blocks, no), pinned := s.pinned[no := data],
         active := s.active[i := op.(used := op.used + {no})],
         current := s.current + [Update(op.id, no, data)])
    case EndOp(i) =>
      var t := s.(outstanding := s.outstanding - 1, active := Without(s.active, i));
      if t.outstanding == 0 then t.(committing := true, phase := Committing(s.disk, 0)) else t
    case CommitWrite =>
      var w := Plan(l, s)[s.phase.done];
      var t := s.(disk := s.disk[w.no := w.data], phase := Committing(s.phase.before, s.phase.done + 1));
      if s.phase.done == |s.blocks| then t.(durable := s.durable + s.current, current := []) else t
    case CommitDone => s.(blocks := [], pinned := map[], committing := false, phase := Up)
    case Crash =>
      s.(blocks := [], pinned := map[], outstanding := 0, committing := false, phase := Down, active := [],
         lost := s.lost + s.current, current := [])
    case RecoverStart => s.(phase := Recovering(s.disk, 0))
    case RecoverWrite =>
      var w := RecoverWrites(l, s.phase.found)[s.phase.done];
      s.(disk := s.disk[w.no := w.data], phase := Recovering(s.phase.found, s.phase.done + 1))
    case RecoverDone => s.(phase := Up)
  }

  ghost function Init(disk: Store): Sys {
    Sys(disk, [], map[], 0, false, Up, [], 0, [], [], [])
  }

  ghost predicate Run(l: Area, disk: Store, steps: seq<Step>, states: seq<Sys>) {
    && |states| == |steps| + 1
    && states[0] == Init(disk)
    && forall k :: 0 <= k < |steps| ==> Enabled(l, states[k], steps[k]) && states[k + 1] == Next(l, states[k], steps[k])
  }

  // ---- the invariant

  /** The home blocks all committed groups add up to. */
  ghost function Committed(l: Area, disk0: Store, s: Sys): Store {
    ApplyUpdates(Home(l, disk0), s.durable)
  }

  /** The in-memory log over a disk with home blocks `h`. */
  ghost predicate Log(l: Area, d: Store, s: Sys) {
    && Clean(l, d) && Loggable(l, d, s.blocks) && Distinct(s.blocks)
    && s.pinned.Keys == Elements(s.blocks)
    && (s.blocks == [] ==> s.current == [])
  }

  /** Memory, not yet committed, holds the committed state plus the current group. */
  ghost predicate Ahead(l: Area, disk0: Store, d: Store, s: Sys) {
    && Home(l, d) == Committed(l, disk0, s)
    && Home(l, d) + s.pinned == ApplyUpdates(Home(l, disk0), s.durable + s.current)
  }

  ghost predicate OnDisk(l: Area, disk0: Store, s: Sys) {
    match s.phase
    case Up => Log(l, s.disk, s) && Ahead(l, disk0, s.disk, s)
    case Committing(d, k) =>
      && Log(l, d, s)
      && k <= |Plan(l, s)| && s.disk == Apply(d, Plan(l, s)[..k])
      && if k <= |s.blocks| then Ahead(l, disk0, d, s)
         else s.current == [] && Home(l, d) + s.pinned == Committed(l, disk0, s)
    case Down => Good(l, s.disk) && Home(l, Recovered(l, s.disk)) == Committed(l, disk0, s)
    case Recovering(d, k) =>
      && Good(l, d) && Home(l, Recovered(l, d)) == Committed(l, disk0, s)
      && k <= |RecoverWrites(l, d)| && s.disk == Apply(d, RecoverWrites(l, d)[..k])
  }

  ghost predicate InMemory(s: Sys) {
    && s.outstanding == |s.active|
    && s.committing == s.phase.Committing?
    && (s.committing ==> s.active == [])
    && (!Running(s) ==> s.active == [] && s.current == [] && s.blocks == [] && s.pinned == map[])
    && (s.phase.Up? && s.active == [] ==> s.current == [] && s.blocks == [])
    && (forall i :: 0 <= i < |s.active| ==> s.active[i].used <= Elements(s.blocks) && |s.active[i].used| <= MAXOPBLOCKS)
    && |s.blocks| + Slack(s.active) <= LOGSIZE
  }

  ghost predicate Fate(s: Sys) {
    && (forall u :: u in s.durable + s.current + s.lost ==> u.op < s.nextOp)
    && (forall i :: 0 <= i < |s.active| ==> s.active[i].id < s.nextOp)
    && (forall i, u :: 0 <= i < |s.active| && u in s.durable + s.lost ==> s.active[i].id != u.op)
    && (forall u, v :: u in s.durable && v in s.current ==> u.op != v.op)
    && (forall u, v :: u in s.lost && v in s.current ==> u.op != v.op)
    && (forall u, v :: u in s.durable && v in s.lost ==> u.op != v.op)
  }

  ghost predicate Inv(l: Area, disk0: Store, s: Sys) {
    && s.disk.Keys == disk0.Keys
    && OnDisk(l, disk0, s) && InMemory(s) && Fate(s)
  }

  // ---- the disk part

  lemma ApplyUpdate(h: Store, us: seq<Update>, vs: seq<Update>, u: Update)
    ensures ApplyUpdates(h, us + (vs + [u])) == ApplyUpdates(h, us + vs)[u.no := u.data]
  {
    var all := us + (vs + [u]);
    assert all[..|all| - 1] == us + vs;
  }

  lemma AbsorbKeepsLog(l: Area, d: Store, bs: seq<int>, no: int)
    requires Loggable(l, d, bs) && Distinct(bs) && no in d && !InArea(l, no) && |bs| < LOGSIZE && |bs| < l.size - 1
    ensures Loggable(l, d, Absorb(bs, no)) && Distinct(Absorb(bs, no))
    ensures Elements(Absorb(bs, no)) == Elements(bs) + {no} && Absorb(bs, no) != []
  {
  }

  lemma MemoryStaysAhead(h0: Store, h: Store, pinned: Store, us: seq<Update>, vs: seq<Update>, u: Update)
    requires h + pinned == ApplyUpdates(h0, us + vs)
    ensures h + pinned[u.no := u.data] == ApplyUpdates(h0, us + (vs + [u]))
  {
    ApplyUpdate(h0, us, vs, u);
    hide ApplyUpdates;
    assert h + pinned[u.no := u.data] == (h + pinned)[u.no := u.data];
  }

  lemma LogWriteOnDisk(l: Area, disk0: Store, s: Sys, i: nat, no: int, data: Block)
    requires s.phase.Up? && OnDisk(l, disk0, s) && Enabled(l, s, LogWrite(i, no, data))
    ensures OnDisk(l, disk0, Next(l, s, LogWrite(i, no, data)))
  {
    hide Elements, Distinct, Absorb, ApplyUpdates, Good, Home, Clean, CommitWrites, RecoverWrites, Recovered, Apply;
    var t := Next(l, s, LogWrite(i, no, data));
    AbsorbKeepsLog(l, s.disk, s.blocks, no);
    MemoryStaysAhead(Home(l, disk0), Home(l, s.disk), s.pinned, s.durable, s.current, Update(s.active[i].id, no, data));
    assert t.pinned.Keys == s.pinned.Keys + {no};
  }

  lemma EndOpOnDisk(l: Area, disk0: Store, s: Sys, i: nat)
    requires OnDisk(l, disk0, s) && InMemory(s) && Enabled(l, s, EndOp(i))
    ensures OnDisk(l, disk0, Next(l, s, EndOp(i)))
  {
    var t := Next(l, s, EndOp(i));
    if t.outstanding == 0 {
      assert Plan(l, t)[..0] == [];
    }
  }

  lemma PlanTxn(s: Sys, d: Store)
    requires s.pinned.Keys == Elements(s.blocks)
    ensures forall i :: 0 <= i < |s.blocks| ==> s.blocks[i] in d + s.pinned
    ensures Txn(d + s.pinned, s.blocks) == s.pinned
  {
    forall i | 0 <= i < |s.blocks| ensures s.blocks[i] in s.pinned {
      assert s.blocks[i] in Elements(s.blocks);
    }
  }

  lemma PlanStep(l: Area, d: Store, view: Store, bs: seq<int>, k: nat)
    requires Clean(l, d) && Loggable(l, d, bs)
    requires forall i :: 0 <= i < |bs| ==> bs[i] in view
    requires k < |CommitWrites(l, d, view, bs)|
    ensures var plan := CommitWrites(l, d, view, bs);
            && Apply(d, plan[..k + 1]) == Apply(d, plan[..k])[plan[k].no := plan[k].data]
            && Apply(d, plan[..k]).Keys == d.Keys == Apply(d, plan[..k + 1]).Keys
  {
    ApplyNext(d, [], CommitWrites(l, d, view, bs), k);
    CommitIsAtomic(l, d, view, bs, k);
    CommitIsAtomic(l, d, view, bs, k + 1);
  }

  lemma CommitWriteOnDisk(l: Area, disk0: Store, s: Sys)
    requires OnDisk(l, disk0, s) && Enabled(l, s, CommitWrite)
    ensures OnDisk(l, disk0, Next(l, s, CommitWrite))
    ensures Next(l, s, CommitWrite).disk.Keys == s.disk.Keys
  {
    hide Apply, CommitWrites, RecoverWrites, Recovered, Home, ApplyUpdates, Good, Loggable, Elements, Distinct, Txn,
         Clean, Absorb;
    var d, k := s.phase.before, s.phase.done;
    PlanTxn(s, d);
    PlanStep(l, d, d + s.pinned, s.blocks, k);
    assert s.durable + s.current + [] == s.durable + s.current;
  }

  lemma PlanDone(l: Area, d: Store, pinned: Store, bs: seq<int>, view: Store)
    requires Clean(l, d) && Loggable(l, d, bs) && view == d + pinned
    requires forall i :: 0 <= i < |bs| ==> bs[i] in view
    requires Txn(view, bs) == pinned
    ensures var plan := CommitWrites(l, d, view, bs);
            var d' := Apply(d, plan[..|plan|]);
            && Clean(l, d') && Home(l, d') == Home(l, d) + pinned && Loggable(l, d', [])
            && (|plan| <= |bs| ==> bs == [])
  {
    var plan := CommitWrites(l, d, view, bs);
    assert plan[..|plan|] == plan;
    CommitCompletes(l, d, view, bs);
  }

  lemma CommitDoneOnDisk(l: Area, disk0: Store, s: Sys)
    requires OnDisk(l, disk0, s) && Enabled(l, s, CommitDone)
    ensures OnDisk(l, disk0, Next(l, s, CommitDone)) && s.current == []
  {
    hide Apply, CommitWrites, RecoverWrites, Recovered, Home, ApplyUpdates, Good, Loggable, Txn, Clean, Absorb;
    var d := s.phase.before;
    PlanTxn(s, d);
    PlanDone(l, d, s.pinned, s.blocks, d + s.pinned);
    var t := Next(l, s, CommitDone);
    assert t.durable + t.current == t.durable;
    assert Home(l, t.disk) + t.pinned == Home(l, t.disk);
  }

  /** Whatever the phase, recovery from the disk as it stands gives exactly the
      committed groups. */
  lemma RecoversToCommitted(l: Area, disk0: Store, s: Sys)
    requires OnDisk(l, disk0, s)
    ensures Good(l, s.disk) && Home(l, Recovered(l, s.disk)) == Committed(l, disk0, s)
  {
    match s.phase
    case Up => CleanRecovers(l, s.disk);
    case Committing(d, k) =>
      PlanTxn(s, d);
      CommitIsAtomic(l, d, d + s.pinned, s.blocks, k);
    case Down =>
    case Recovering(d, k) => RecoveryRestarts(l, d, k);
  }

  lemma RecoverWriteOnDisk(l: Area, disk0: Store, s: Sys)
    requires OnDisk(l, disk0, s) && Enabled(l, s, RecoverWrite)
    ensures OnDisk(l, disk0, Next(l, s, RecoverWrite))
    ensures Next(l, s, RecoverWrite).disk.Keys == s.disk.Keys
  {
    hide Apply, RecoverWrites, CommitWrites, Recovered, Good, Home, ApplyUpdates;
    var d, k := s.phase.found, s.phase.done;
    ApplyNext(d, [], RecoverWrites(l, d), k);
    RecoveryRestarts(l, d, k);
    RecoveryRestarts(l, d, k + 1);
  }

  lemma RecoverStartOnDisk(l: Area, disk0: Store, s: Sys)
    requires OnDisk(l, disk0, s) && Enabled(l, s, RecoverStart)
    ensures OnDisk(l, disk0, Next(l, s, RecoverStart))
  {
    assert RecoverWrites(l, s.disk)[..0] == [];
  }

  lemma RecoverDoneOnDisk(l: Area, disk0: Store, s: Sys)
    requires OnDisk(l, disk0, s) && InMemory(s) && Enabled(l, s, RecoverDone)
    ensures OnDisk(l, disk0, Next(l, s, RecoverDone))
  {
    var d := s.phase.found;
    var ws := RecoverWrites(l, d);
    assert ws[..|ws|] == ws;
    RecoveredIsClean(l, d);
    var t := Next(l, s, RecoverDone);
    assert t.durable + t.current == t.durable;
    assert Home(l, t.disk) + t.pinned == Home(l, t.disk);
  }

  lemma StepOnDisk(l: Area, disk0: Store, s: Sys, a: Step)
    requires OnDisk(l, disk0, s) && InMemory(s) && Enabled(l, s, a)
    ensures OnDisk(l, disk0, Next(l, s, a)) && Next(l, s, a).disk.Keys == s.disk.Keys
  {
    hide Fate, ApplyUpdates, Apply, RecoverWrites, CommitWrites, Recovered, Good, Home, Loggable, Elements, Distinct,
         Clean;
    match a
    case BeginOp =>
    case LogWrite(i, no, data) => LogWriteOnDisk(l, disk0, s, i, no, data);
    case EndOp(i) => EndOpOnDisk(l, disk0, s, i);
    case CommitWrite => CommitWriteOnDisk(l, disk0, s);
    case CommitDone => CommitDoneOnDisk(l, disk0, s);
    case Crash => RecoversToCommitted(l, disk0, s);
    case RecoverStart => RecoverStartOnDisk(l, disk0, s);
    case RecoverWrite => RecoverWriteOnDisk(l, disk0, s);
    case RecoverDone => RecoverDoneOnDisk(l, disk0, s);
  }

  // ---- reservation

  lemma {:induction false} SlackWithout(ops: seq<Op>, i: nat)
    requires i < |ops|
    ensures Slack(ops) == Slack(Without(ops, i)) + MAXOPBLOCKS - |ops[i].used|
  {
    var init := ops[..|ops| - 1];
    if i == |ops| - 1 {
      assert Without(ops, i) == init;
    } else {
      SlackWithout(init, i);
      var rest := Without(ops, i);
      assert rest[..|rest| - 1] == Without(init, i);
    }
  }

  lemma SlackUpdate(ops: seq<Op>, i: nat, op: Op)
    requires i < |ops|
    ensures Slack(ops[i := op]) == Slack(ops) + |ops[i].used| - |op.used|
  {
    SlackWithout(ops, i);
    SlackWithout(ops[i := op], i);
    assert Without(ops[i := op], i) == Without(ops, i);
  }

  lemma {:induction false} SlackBound(ops: seq<Op>)
    requires forall i :: 0 <= i < |ops| ==> |ops[i].used| <= MAXOPBLOCKS
    ensures 0 <= Slack(ops) <= |ops| * MAXOPBLOCKS
  {
    if ops != [] {
      SlackBound(ops[..|ops| - 1]);
    }
  }

  lemma LogWriteInMemory(l: Area, s: Sys, i: nat, no: int, data: Block)
    requires InMemory(s) && Enabled(l, s, LogWrite(i, no, data))
    ensures InMemory(Next(l, s, LogWrite(i, no, data)))
  {
    var t := Next(l, s, LogWrite(i, no, data));
    var op := s.active[i];
    SlackUpdate(s.active, i, t.active[i]);
    assert Elements(t.blocks) == Elements(s.blocks) + {no};
    if no !in s.blocks {
      assert no !in op.used;
    }
  }

  lemma EndOpInMemory(l: Area, s: Sys, i: nat)
    requires InMemory(s) && Enabled(l, s, EndOp(i))
    ensures InMemory(Next(l, s, EndOp(i)))
  {
    SlackWithout(s.active, i);
    var t := Next(l, s, EndOp(i));
    forall j | 0 <= j < |t.active| ensures t.active[j] in s.active { }
    assert |s.active[i].used| <= MAXOPBLOCKS;
  }

  lemma BeginOpInMemory(l: Area, s: Sys)
    requires InMemory(s) && Enabled(l, s, BeginOp)
    ensures InMemory(Next(l, s, BeginOp))
  {
    SlackBound(s.active);
    var t := Next(l, s, BeginOp);
    assert t.active[..|s.active|] == s.active;
  }

  lemma StepInMemory(l: Area, disk0: Store, s: Sys, a: Step)
    requires OnDisk(l, disk0, s) && InMemory(s) && Enabled(l, s, a)
    ensures InMemory(Next(l, s, a))
  {
    hide OnDisk, Elements, RecoverWrites, CommitWrites, Good;
    match a
    case BeginOp => BeginOpInMemory(l, s);
    case LogWrite(i, no, data) => LogWriteInMemory(l, s, i, no, data);
    case EndOp(i) => EndOpInMemory(l, s, i);
    case CommitWrite =>
    case CommitDone => CommitDoneOnDisk(l, disk0, s);
    case Crash =>
    case RecoverStart =>
    case RecoverWrite =>
    case RecoverDone =>
  }

  lemma LogWriteFate(l: Area, s: Sys, i: nat, no: int, data: Block)
    requires Fate(s) && Enabled(l, s, LogWrite(i, no, data))
    ensures Fate(Next(l, s, LogWrite(i, no, data)))
  {
    var t := Next(l, s, LogWrite(i, no, data));
    forall j | 0 <= j < |t.active| ensures t.active[j].id == s.active[j].id { }
    forall u | u in t.current ensures u in s.current || u.op == s.active[i].id { }
  }

  lemma CommitWriteFate(l: Area, s: Sys)
    requires Fate(s) && s.active == [] && Enabled(l, s, CommitWrite)
    ensures Fate(Next(l, s, CommitWrite))
  {
  }

  lemma EndOpFate(l: Area, s: Sys, i: nat)
    requires Fate(s) && Enabled(l, s, EndOp(i))
    ensures Fate(Next(l, s, EndOp(i)))
  {
    var t := Next(l, s, EndOp(i));
    forall j | 0 <= j < |t.active| ensures t.active[j] in s.active { }
  }

  lemma StepFate(l: Area, s: Sys, a: Step)
    requires InMemory(s) && Fate(s) && Enabled(l, s, a)
    ensures Fate(Next(l, s, a))
  {
    hide Slack, RecoverWrites, CommitWrites, Good;
    match a
    case BeginOp =>
    case LogWrite(i, no, data) => LogWriteFate(l, s, i, no, data);
    case EndOp(i) => EndOpFate(l, s, i);
    case CommitWrite => CommitWriteFate(l, s);
    case CommitDone =>
    case Crash =>
    case RecoverStart =>
    case RecoverWrite =>
    case RecoverDone =>
  }

  // ---- main results

  lemma {:induction false} RunInv(l: Area, disk: Store, steps: seq<Step>, states: seq<Sys>, k: nat)
    requires Clean(l, disk) && Run(l, disk, steps, states) && k < |states|
    ensures Inv(l, disk, states[k])
  {
    if k == 0 {
      var s := states[0];
      assert s.durable + s.current == [];
      assert Home(l, disk) + s.pinned == Home(l, disk);
    } else {
      RunInv(l, disk, steps, states, k - 1);
      var s, a := states[k - 1], steps[k - 1];
      assert states[k - 1 + 1] == Next(l, s, a);
      StepOnDisk(l, disk, s, a);
      StepInMemory(l, disk, s, a);
      StepFate(l, s, a);
    }
  }

  /** Writes to the log area, or to blocks that buffers pin, do not show through them. */
  lemma {:induction false} PinnedHides(l: Area, d: Store, pinned: Store, ws: seq<Write>)
    requires forall i :: 0 <= i < |ws| ==> InArea(l, ws[i].no) || ws[i].no in pinned
    ensures Home(l, Apply(d, ws)) + pinned == Home(l, d) + pinned
  {
    if ws != [] {
      var init, w := ws[..|ws| - 1], ws[|ws| - 1];
      PinnedHides(l, d, pinned, init);
      var e := Apply(d, init);
      assert InArea(l, w.no) || w.no in pinned;
      assert Home(l, e[w.no := w.data]) + pinned == Home(l, e) + pinned;
    }
  }

  lemma PlanIsHidden(l: Area, s: Sys, k: nat)
    requires s.phase.Committing? && Log(l, s.phase.before, s)
    ensures l.start in s.phase.before && PinnedOnDisk(s.phase.before, s.pinned, s.blocks)
    ensures k <= |Plan(l, s)| ==>
              Home(l, Apply(s.phase.before, Plan(l, s)[..k])) + s.pinned == Home(l, s.phase.before) + s.pinned
  {
    hide Apply, Home;
    PlanTxn(s, s.phase.before);
    if k <= |Plan(l, s)| {
      var ws := Plan(l, s)[..k];
      forall i | 0 <= i < |ws| ensures InArea(l, ws[i].no) || ws[i].no in s.pinned { assert ws[i] == Plan(l, s)[i]; }
      PinnedHides(l, s.phase.before, s.pinned, ws);
    }
  }

  /** Crash atomicity over whole runs: at every moment of every run, recovery
      from the disk as it then stands yields exactly the updates of the groups
      whose commit record reached the disk, in order; while the system runs, also
      in the middle of a commit, its buffers show those and every later update. */
  lemma CrashSafe(l: Area, disk: Store, steps: seq<Step>, states: seq<Sys>, k: nat)
    requires Clean(l, disk) && Run(l, disk, steps, states) && k < |states|
    ensures var s := states[k];
            && Good(l, s.disk)
            && Home(l, Recovered(l, s.disk)) == ApplyUpdates(Home(l, disk), s.durable)
            && (s.phase.Up? ==> Home(l, s.disk) == ApplyUpdates(Home(l, disk), s.durable))
            && (Running(s) ==> Home(l, s.disk) + s.pinned == ApplyUpdates(Home(l, disk), s.durable + s.current))
  {
    hide Apply, CommitWrites, RecoverWrites, Recovered, Home, ApplyUpdates, Good, Loggable, Elements, Clean, Txn;
    RunInv(l, disk, steps, states, k);
    var s := states[k];
    RecoversToCommitted(l, disk, s);
    if s.phase.Committing? {
      PlanIsHidden(l, s, s.phase.done);
      assert s.durable + [] == s.durable;
    }
  }

  /** The updates of one operation share one fate. */
  lemma AllOrNothing(l: Area, disk: Store, steps: seq<Step>, states: seq<Sys>, k: nat, op: nat)
    requires Clean(l, disk) && Run(l, disk, steps, states) && k < |states|
    ensures var s := states[k];
            || (forall u :: u in s.durable + s.current + s.lost && u.op == op ==> u in s.durable)
            || (forall u :: u in s.durable + s.current + s.lost && u.op == op ==> u in s.current)
            || (forall u :: u in s.durable + s.current + s.lost && u.op == op ==> u in s.lost)
  {
    RunInv(l, disk, steps, states, k);
    hide OnDisk, InMemory;
  }

  /** Every update made so far, whatever became of it. */
  ghost function Made(s: Sys): set<Update> {
    set u | u in s.durable + s.current + s.lost
  }

  lemma RunStep(l: Area, disk: Store, steps: seq<Step>, states: seq<Sys>, k: nat)
    requires Run(l, disk, steps, states) && k + 1 < |states|
    ensures k < |steps|
    ensures Enabled(l, states[k], steps[k]) && states[k + 1] == Next(l, states[k], steps[k])
  {
  }

  lemma StepGrows(l: Area, s: Sys, a: Step)
    requires Enabled(l, s, a)
    ensures s.durable <= Next(l, s, a).durable
    ensures Made(s) <= Made(Next(l, s, a))
  {
  }

  /** What is committed stays committed, and no update is forgotten. */
  lemma {:induction false} CommittedStays(l: Area, disk: Store, steps: seq<Step>, states: seq<Sys>, i: nat, j: nat)
    requires Run(l, disk, steps, states) && i <= j < |states|
    ensures states[i].durable <= states[j].durable
    ensures Made(states[i]) <= Made(states[j])
  {
    hide *;
    if i < j {
      CommittedStays(l, disk, steps, states, i, j - 1);
      RunStep(l, disk, steps, states, j - 1);
      StepGrows(l, states[j - 1], steps[j - 1]);
    }
  }

  /** When commit() returns, its whole group is durable and installed. */
  lemma CommitReturns(l: Area, disk: Store, steps: seq<Step>, states: seq<Sys>, k: nat)
    requires Clean(l, disk) && Run(l, disk, steps, states) && k < |steps| && steps[k] == CommitDone
    ensures states[k].current == [] && states[k + 1].current == []
    ensures Clean(l, states[k + 1].disk)
    ensures Home(l, states[k + 1].disk) == ApplyUpdates(Home(l, disk), states[k + 1].durable)
  {
    RunInv(l, disk, steps, states, k);
    CommitDoneOnDisk(l, disk, states[k]);
    assert states[k + 1] == Next(l, states[k], steps[k]);
  }

  /** While a commit is under way no operation is running, none can start, the
      logged block numbers do not change, and end_op's panic cannot happen. */
  lemma CommitIsQuiet(l: Area, disk: Store, steps: seq<Step>, states: seq<Sys>, k: nat)
    requires Clean(l, disk) && Run(l, disk, steps, states) && k < |states|
    ensures var s := states[k];
            && s.outstanding == |s.active| && Distinct(s.blocks)
            && (s.committing ==> s.outstanding == 0)
            && (s.committing && k < |steps| ==>
                  steps[k] in {CommitWrite, CommitDone, Crash} &&
                  (steps[k] == CommitWrite ==> states[k + 1].blocks == s.blocks))
            && (s.active != [] ==> !s.committing)
  {
    RunInv(l, disk, steps, states, k);
    var s := states[k];
    if k < |steps| {
      assert Enabled(l, s, steps[k]) && states[k + 1] == Next(l, s, steps[k]);
    }
    hide Fate, Good, ApplyUpdates, Home;
  }

  /** With more than LOGSIZE blocks of log area, a write within its operation's
      allowance panics exactly when the log holds LOGSIZE blocks already; and
      then the block is one of them. */
  lemma PanicsOnlyWhenFull(l: Area, disk: Store, steps: seq<Step>, states: seq<Sys>, k: nat, i: nat, no: int)
    requires Clean(l, disk) && Run(l, disk, steps, states) && k < |states|
    requires WithinAllowance(states[k], i, no) && l.size > LOGSIZE
    ensures var s := states[k];
            && |s.blocks| + Slack(s.active) <= LOGSIZE
            && (WritePanics(|s.blocks|, l.size, s.outstanding) <==> |s.blocks| == LOGSIZE)
            && (|s.blocks| == LOGSIZE ==> no in s.blocks)
  {
    RunInv(l, disk, steps, states, k);
    var s := states[k];
    hide Fate, OnDisk, Slack;
    SlackWithout(s.active, i);
    var rest := Without(s.active, i);
    forall j | 0 <= j < |rest| ensures rest[j] in s.active { }
    SlackBound(rest);
    if no !in s.blocks {
      assert no !in s.active[i].used;
    }
  }

  // ---- a log area of LOGSIZE blocks, as mkfs makes it, is one block short

  /** Operation number `j` has logged the part of `hs[..m]` that falls in its ten. */
  function Share(hs: seq<int>, m: nat, j: nat): set<int>
    requires m <= |hs|
  {
    set x | MAXOPBLOCKS * j <= x < MAXOPBLOCKS * (j + 1) && x < m :: hs[x]
  }

  ghost predicate Filled(s: Sys, disk: Store, hs: seq<int>, m: nat)
    requires m <= |hs|
  {
    && s.disk == disk && s.phase.Up? && !s.committing && s.outstanding == 3
    && s.blocks == hs[..m]
    && |s.active| == 3
    && forall j :: 0 <= j < 3 ==> s.active[j] == Op(j, Share(hs, m, j))
  }

  lemma Extend(l: Area, disk: Store, steps: seq<Step>, states: seq<Sys>, a: Step)
      returns (steps': seq<Step>, states': seq<Sys>)
    requires Run(l, disk, steps, states) && Enabled(l, states[|steps|], a)
    ensures Run(l, disk, steps', states') && steps' == steps + [a]
    ensures states' == states + [Next(l, states[|steps|], a)]
  {
    steps', states' := steps + [a], states + [Next(l, states[|steps|], a)];
  }

  lemma StartThree(l: Area, disk: Store, hs: seq<int>) returns (steps: seq<Step>, states: seq<Sys>)
    ensures Run(l, disk, steps, states) && Filled(states[|steps|], disk, hs, 0)
  {
    steps, states := [], [Init(disk)];
    steps, states := Extend(l, disk, steps, states, BeginOp);
    steps, states := Extend(l, disk, steps, states, BeginOp);
    steps, states := Extend(l, disk, steps, states, BeginOp);
    forall j: nat ensures Share(hs, 0, j) == {} { }
  }

  ghost predicate HomeBlocks(l: Area, disk: Store, hs: seq<int>) {
    && |hs| == LOGSIZE && Distinct(hs)
    && forall x :: 0 <= x < |hs| ==> hs[x] in disk && !InArea(l, hs[x])
  }

  lemma ShareNext(hs: seq<int>, m: nat, j: nat)
    requires m < |hs| && Distinct(hs)
    ensures Share(hs, m + 1, j) == Share(hs, m, j) + if j == m / MAXOPBLOCKS then {hs[m]} else {}
  {
    var more := Share(hs, m + 1, j);
    if j == m / MAXOPBLOCKS {
      assert hs[m] in more;
    }
  }

  lemma {:induction false} ShareSize(hs: seq<int>, m: nat, j: nat)
    requires m <= |hs| && Distinct(hs)
    ensures |Share(hs, m, j)| == if m <= MAXOPBLOCKS * j then 0 else if m >= MAXOPBLOCKS * (j + 1) then MAXOPBLOCKS
            else m - MAXOPBLOCKS * j
  {
    if m == 0 {
      assert Share(hs, 0, j) == {};
    } else {
      ShareSize(hs, m - 1, j);
      ShareNext(hs, m - 1, j);
      if j == (m - 1) / MAXOPBLOCKS {
        assert hs[m - 1] !in Share(hs, m - 1, j);
      }
    }
  }

  lemma FilledHasRoom(l: Area, s: Sys, disk: Store, hs: seq<int>, m: nat)
    requires HomeBlocks(l, disk, hs) && m < LOGSIZE && Filled(s, disk, hs, m)
    ensures WithinAllowance(s, m / MAXOPBLOCKS, hs[m]) && hs[m] !in s.blocks
  {
    var j := m / MAXOPBLOCKS;
    ShareSize(hs, m, j);
    assert s.active[j].used == Share(hs, m, j);
  }

  lemma FillOne(l: Area, s: Sys, disk: Store, hs: seq<int>, m: nat, data: Block)
    requires HomeBlocks(l, disk, hs) && m < LOGSIZE && m < l.size - 1 && Filled(s, disk, hs, m)
    ensures Enabled(l, s, LogWrite(m / MAXOPBLOCKS, hs[m], data))
    ensures Filled(Next(l, s, LogWrite(m / MAXOPBLOCKS, hs[m], data)), disk, hs, m + 1)
  {
    var j := m / MAXOPBLOCKS;
    FilledHasRoom(l, s, disk, hs, m);
    assert hs[..m + 1] == hs[..m] + [hs[m]];
    forall x: nat | x < 3
      ensures Share(hs, m + 1, x) == Share(hs, m, x) + if x == j then {hs[m]} else {}
    {
      ShareNext(hs, m, x);
    }
    hide Share, Distinct;
    var t := Next(l, s, LogWrite(j, hs[m], data));
    assert t.active == s.active[j := Op(j, Share(hs, m + 1, j))];
  }

  lemma {:induction false} Fill(l: Area, disk: Store, hs: seq<int>, m: nat, data: Block)
      returns (steps: seq<Step>, states: seq<Sys>)
    requires HomeBlocks(l, disk, hs) && m <= LOGSIZE && (m == 0 || m < l.size)
    ensures Run(l, disk, steps, states) && Filled(states[|steps|], disk, hs, m)
  {
    if m == 0 {
      steps, states := StartThree(l, disk, hs);
    } else {
      steps, states := Fill(l, disk, hs, m - 1, data);
      FillOne(l, states[|steps|], disk, hs, m - 1, data);
      steps, states := Extend(l, disk, steps, states, LogWrite((m - 1) / MAXOPBLOCKS, hs[m - 1], data));
    }
  }

  /** Some run reaches a state where an operation within its allowance appends a
      new block and log_write panics. */
  ghost predicate AppendCanPanic(l: Area, disk: Store) {
    exists steps: seq<Step>, states: seq<Sys>, k: int, i: int, no: int ::
      && Run(l, disk, steps, states) && 0 <= k < |states| && 0 <= i && WithinAllowance(states[k], i, no)
      && no !in states[k].blocks && WritePanics(|states[k].blocks|, l.size, states[k].outstanding)
  }

  /** begin_op reserves against LOGSIZE, log_write also against the area's size
      less the header: the reservation is sound exactly when the area is larger
      than LOGSIZE.  (mkfs makes it equal to LOGSIZE.) */
  lemma ReservationSound(l: Area, disk: Store, hs: seq<int>, data: Block)
    requires Clean(l, disk) && HomeBlocks(l, disk, hs)
    ensures !AppendCanPanic(l, disk) <==> l.size > LOGSIZE
  {
    if l.size > LOGSIZE {
      if AppendCanPanic(l, disk) {
        var steps: seq<Step>, states: seq<Sys>, k: int, i: int, no: int :|
          Run(l, disk, steps, states) && 0 <= k < |states| && 0 <= i && WithinAllowance(states[k], i, no)
          && no !in states[k].blocks && WritePanics(|states[k].blocks|, l.size, states[k].outstanding);
        PanicsOnlyWhenFull(l, disk, steps, states, k, i, no);
      }
    } else {
      var m := l.size - 1;
      var steps, states := Fill(l, disk, hs, m, data);
      FilledHasRoom(l, states[|steps|], disk, hs, m);
    }
  }

  /** log_write tests for a full log before looking for the block, so rewriting
      a block that is already logged can panic too, even in a larger area. */
  lemma RewriteCanPanic(l: Area, disk: Store, hs: seq<int>, data: Block)
    returns (steps: seq<Step>, states: seq<Sys>)
    requires HomeBlocks(l, disk, hs) && l.size > LOGSIZE
    ensures Run(l, disk, steps, states)
    ensures var s := states[|steps|];
            && WithinAllowance(s, 2, hs[LOGSIZE - 1]) && hs[LOGSIZE - 1] in s.blocks
            && WritePanics(|s.blocks|, l.size, s.outstanding)
  {
    steps, states := Fill(l, disk, hs, LOGSIZE, data);
    var s := states[|steps|];
    ShareSize(hs, LOGSIZE, 2);
    assert hs[LOGSIZE - 1] in Share(hs, LOGSIZE, 2);
    assert s.active[2].used + {hs[LOGSIZE - 1]} == Share(hs, LOGSIZE, 2);
  }
}
