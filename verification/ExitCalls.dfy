/** What one call of fork or wait does, from the move that makes it to its return. */
module ExitCalls {
  import opened Base
  import opened ExitWait

  /** Process p makes the call in move j and has not returned in state k. */
  ghost predicate InCall(moves: seq<Move>, states: seq<Sys>, p: nat, call: Act, j: nat, k: nat) {
    && j < k <= |moves| < |states| && moves[j] == Move(p, call)
    && forall m :: j < m <= k ==> p < |states[m].ps| && states[m].ps[p].pc != User
  }

  ghost predicate Did(moves: seq<Move>, p: nat, a: Act, j: nat, k: nat)
    requires k <= |moves|
  {
    exists m :: j < m < k && moves[m] == Move(p, a)
  }

  lemma Moved(moves: seq<Move>, states: seq<Sys>, k: nat)
    requires Execution(moves, states) && k < |moves|
    ensures |states| == |moves| + 1 && Inv(states[k]) && Inv(states[k + 1]) && Shape(states[k])
    ensures var s, m := states[k], moves[k];
            m.p < |s.ps| && Enabled(s, m.p, m.a) && states[k + 1] == Next(s, m.p, m.a) && |states[k + 1].ps| == |s.ps|
  {
    hide Inv, Next, Enabled, Start;
    RunInv(moves, states, k);
    RunInv(moves, states, k + 1);
    assert Takes(states[k], moves[k], states[k + 1]);
    SameSize(states[k], moves[k].p, moves[k].a);
  }

  lemma SameSize(s: Sys, p: nat, a: Act)
    requires Shape(s) && p < |s.ps| && Enabled(s, p, a)
    ensures |Next(s, p, a).ps| == |s.ps|
  {
    hide Step, Enabled;
  }

  // ---- wait()

  /** What p's moves j to k added to the record of children reaped. */
  ghost function Reaps(moves: seq<Move>, states: seq<Sys>, p: nat, j: nat, k: nat): seq<(nat, int)>
    requires k <= |moves| < |states|
    decreases k
  {
    if k <= j then []
    else
      Reaps(moves, states, p, j, k - 1) +
      if moves[k - 1].p == p && |states[k - 1].reaped| <= |states[k].reaped| then
        states[k].reaped[|states[k - 1].reaped|..]
      else []
  }

  /** A scan by p came to the end of the table without having met a child. */
  ghost predicate SawNone(moves: seq<Move>, states: seq<Sys>, p: nat, j: nat, k: nat)
    requires k <= |moves| < |states|
  {
    exists m :: j < m < k && moves[m].p == p && p < |states[m].ps| && states[m].ps[p].pc == Scan(|states[m].ps|, false)
  }

  /** How far a call of wait has come. */
  ghost predicate Waiting(pc: Pc, got: seq<(nat, int)>, killed: bool, failed: bool, none: bool) {
    match pc
    case Scan(_, _) => got == [] && !killed && !failed && !none
    case Asleep => got == [] && !killed && !failed && !none
    case Woken => got == [] && !killed && !failed && !none
    case WaitUnlock(r) =>
      if killed || failed || none then r == -1 && got == []
      else |got| == 1 && got[0].0 == r
    case _ => false
  }

  lemma WaiterMoves(s: Sys, p: nat, a: Act, got: seq<(nat, int)>, killed: bool, failed: bool, none: bool)
    requires Inv(s) && p < |s.ps| && Enabled(s, p, a) && Waiting(s.ps[p].pc, got, killed, failed, none)
    ensures s.reaped <= Next(s, p, a).reaped && p < |Next(s, p, a).ps|
    ensures var t := Next(s, p, a);
            t.ps[p].pc == User ||
            Waiting(t.ps[p].pc, got + t.reaped[|s.reaped|..], killed || a == Killed, failed || a == CopyFails,
                    none || s.ps[p].pc == Scan(|s.ps|, false))
  {
    hide Inv;
    Know(s, p, p);
  }

  lemma OthersKeep(s: Sys, p: nat, a: Act, q: nat)
    requires Inv(s) && p < |s.ps| && q < |s.ps| && q != p && Enabled(s, p, a)
    requires s.ps[q].st != UNUSED && s.ps[q].st != ZOMBIE
    ensures var t := Next(s, p, a);
            |t.ps| == |s.ps| && (t.ps[q].pc == s.ps[q].pc || (s.ps[q].pc == Asleep && t.ps[q].pc == Woken)
                                 || (s.ps[q].st == USED && t.ps[q] == FREED))
  {
    hide Inv, HistoryOk;
    Know(s, p, q);
  }

  lemma WaiterIsThere(s: Sys, q: nat, got: seq<(nat, int)>, killed: bool, failed: bool, none: bool)
    requires Inv(s) && q < |s.ps| && Waiting(s.ps[q].pc, got, killed, failed, none)
    ensures s.ps[q].st != UNUSED && s.ps[q].st != ZOMBIE && s.ps[q].st != USED
  {
    hide Inv;
    Know(s, q, q);
  }

  lemma StillWaiting(pc: Pc, pc': Pc, got: seq<(nat, int)>, killed: bool, failed: bool, none: bool)
    requires Waiting(pc, got, killed, failed, none) && (pc' == pc || (pc == Asleep && pc' == Woken))
    ensures Waiting(pc', got, killed, failed, none)
  {
  }

  lemma WaitStarts(s: Sys, p: nat)
    requires Inv(s) && p < |s.ps| && Enabled(s, p, Wait)
    ensures p < |Next(s, p, Wait).ps| && Next(s, p, Wait).reaped == s.reaped
    ensures Waiting(Next(s, p, Wait).ps[p].pc, [], false, false, false)
  {
    hide Inv;
    Know(s, p, p);
  }

  lemma {:induction false} WaitInProgress(moves: seq<Move>, states: seq<Sys>, p: nat, j: nat, k: nat)
    requires Execution(moves, states) && InCall(moves, states, p, Wait, j, k)
    ensures Waiting(states[k].ps[p].pc, Reaps(moves, states, p, j, k), Did(moves, p, Killed, j, k),
                    Did(moves, p, CopyFails, j, k), SawNone(moves, states, p, j, k))
    decreases k
  {
    hide Execution, Inv, Next, Enabled, Waiting;
    var s, m, t := states[k - 1], moves[k - 1], states[k];
    Moved(moves, states, k - 1);
    var got := Reaps(moves, states, p, j, k - 1);
    if k - 1 == j {
      WaitStarts(s, p);
      assert Reaps(moves, states, p, j, k) == [];
    } else {
      WaitInProgress(moves, states, p, j, k - 1);
      var killed, failed := Did(moves, p, Killed, j, k - 1), Did(moves, p, CopyFails, j, k - 1);
      var none := SawNone(moves, states, p, j, k - 1);
      if m.p == p {
        WaiterMoves(s, p, m.a, got, killed, failed, none);
        assert Did(moves, p, Killed, j, k) == (killed || m.a == Killed);
        assert Did(moves, p, CopyFails, j, k) == (failed || m.a == CopyFails);
        assert SawNone(moves, states, p, j, k) == (none || s.ps[p].pc == Scan(|s.ps|, false));
      } else {
        WaiterIsThere(s, p, got, killed, failed, none);
        OthersKeep(s, m.p, m.a, p);
        StillWaiting(s.ps[p].pc, t.ps[p].pc, got, killed, failed, none);
        assert Reaps(moves, states, p, j, k) == got;
        assert Did(moves, p, Killed, j, k) == killed && Did(moves, p, CopyFails, j, k) == failed;
        assert SawNone(moves, states, p, j, k) == none;
      }
    }
  }

  /** wait returns the pid of the one child it has reaped; or -1, having reaped none,
      exactly if it was killed, could not copy the status out, or found no children. */
  lemma WaitReturns(moves: seq<Move>, states: seq<Sys>, p: nat, j: nat, k: nat, r: int)
    requires Execution(moves, states) && InCall(moves, states, p, Wait, j, k) && states[k].ps[p].pc == WaitUnlock(r)
    ensures var got := Reaps(moves, states, p, j, k);
            && (r == -1 <==> Did(moves, p, Killed, j, k) || Did(moves, p, CopyFails, j, k) ||
                             SawNone(moves, states, p, j, k))
            && if r == -1 then got == [] else |got| == 1 && got[0].0 == r
  {
    hide Execution, Reaps, Did, SawNone;
    WaitInProgress(moves, states, p, j, k);
  }

  /** kill() wakes a process that sleeps in wait. */
  lemma KillWakes(moves: seq<Move>, states: seq<Sys>, n: nat)
    requires Execution(moves, states) && n < |moves| && moves[n].a == Wakes
    ensures var p := moves[n].p;
            && p < |states[n].ps| == |states[n + 1].ps|
            && states[n].ps[p].st == SLEEPING && states[n + 1].ps[p].st == ALIVE
  {
    hide Inv;
    Moved(moves, states, n);
    Know(states[n], moves[n].p, moves[n].p);
  }

  // ---- fork()

  /** Process p is making np, which has this pid. */
  ghost predicate Forking(s: Sys, p: nat, np: nat, pid: nat) {
    && p < |s.ps| && np < |s.ps| && np != p && Creating(s.ps[p].pc) == np
    && s.ps[np].st == USED && s.ps[np].pid == pid
  }

  /** What fork leaves when it returns: a child that can run, or nothing. */
  ghost predicate Forked(t: Sys, p: nat, np: nat, pid: nat, failed: bool) {
    && np < |t.ps|
    && if failed then t.ps[np] == FREED
       else t.ps[np].st == ALIVE && t.ps[np].pid == pid && t.ps[np].parent == p && t.ps[np].pc == User
  }

  lemma ForkStarts(s: Sys, p: nat, np: nat)
    requires Inv(s) && p < |s.ps| && Enabled(s, p, Fork(np))
    ensures Forking(Next(s, p, Fork(np)), p, np, s.nextpid)
  {
    hide Inv;
    Know(s, p, np);
  }

  lemma ForkerMoves(s: Sys, p: nat, a: Act, np: nat, pid: nat)
    requires Inv(s) && Forking(s, p, np, pid) && Enabled(s, p, a)
    ensures var t := Next(s, p, a);
            if p < |t.ps| && t.ps[p].pc == User then Forked(t, p, np, pid, a == ForkFails)
            else Forking(t, p, np, pid)
  {
    hide Inv, HistoryOk;
    Know(s, p, np);
  }

  lemma OthersLetFork(s: Sys, q: nat, a: Act, p: nat, np: nat, pid: nat)
    requires Inv(s) && Forking(s, p, np, pid) && q < |s.ps| && q != p && Enabled(s, q, a)
    ensures Forking(Next(s, q, a), p, np, pid)
  {
    hide Inv, HistoryOk;
    Know(s, p, np);
    Know(s, q, np);
    Know(s, q, p);
  }

  lemma {:induction false} ForkInProgress(moves: seq<Move>, states: seq<Sys>, p: nat, np: nat, j: nat, k: nat)
    requires Execution(moves, states) && InCall(moves, states, p, Fork(np), j, k)
    ensures Forking(states[k], p, np, states[j].nextpid)
    decreases k
  {
    hide Execution, Inv, Next, Enabled, Forking, Forked;
    var s, m := states[k - 1], moves[k - 1];
    Moved(moves, states, k - 1);
    if k - 1 == j {
      ForkStarts(s, p, np);
    } else {
      ForkInProgress(moves, states, p, np, j, k - 1);
      if m.p == p {
        ForkerMoves(s, p, m.a, np, states[j].nextpid);
      } else {
        OthersLetFork(s, m.p, m.a, p, np, states[j].nextpid);
      }
    }
  }

  /** When fork returns, the process it took is a child of the caller that can run, with
      the next pid there was; or, if it failed, unused again. */
  lemma ForkReturns(moves: seq<Move>, states: seq<Sys>, p: nat, np: nat, j: nat, k: nat)
    requires Execution(moves, states) && InCall(moves, states, p, Fork(np), j, k) && k < |moves|
    requires p < |states[k + 1].ps| && states[k + 1].ps[p].pc == User
    ensures moves[k].p == p && Forked(states[k + 1], p, np, states[j].nextpid, moves[k].a == ForkFails)
  {
    hide Execution, Inv, Next, Enabled, Forked;
    ForkInProgress(moves, states, p, np, j, k);
    Moved(moves, states, k);
    if moves[k].p == p {
      ForkerMoves(states[k], p, moves[k].a, np, states[j].nextpid);
    } else {
      OthersLetFork(states[k], moves[k].p, moves[k].a, p, np, states[j].nextpid);
    }
  }
}
