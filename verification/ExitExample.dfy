/** One execution, move by move: init forks a child and waits for it; the child exits with
    status st; init wakes up and wait returns the child's pid and st. */
module ExitExample {
  import opened Base
  import opened ExitWait

  function Init(pc: Pc): Proc {
    Proc(ALIVE, 1, NONE, 0, pc)
  }

  ghost predicate Path(s: Sys, moves: seq<Move>, states: seq<Sys>, t: Sys) {
    && |states| == |moves| + 1 && states[0] == s && states[|moves|] == t
    && forall k :: 0 <= k < |moves| ==> Takes(states[k], moves[k], states[k + 1])
  }

  lemma Join(r: Sys, moves: seq<Move>, states: seq<Sys>, s: Sys, moves': seq<Move>, states': seq<Sys>, t: Sys)
      returns (all: seq<Move>, states'': seq<Sys>)
    requires Path(r, moves, states, s) && Path(s, moves', states', t)
    ensures Path(r, all, states'', t) && all == moves + moves' && states'' == states + states'[1..]
  {
    hide Takes;
    all, states'' := moves + moves', states + states'[1..];
    forall k | 0 <= k < |all| ensures Takes(states''[k], all[k], states''[k + 1]) {
      if k >= |moves| { assert Takes(states'[k - |moves|], moves'[k - |moves|], states'[k - |moves| + 1]); }
    }
  }

  ghost function Booted(): Sys {
    Sys([Init(User), FREED], 0, 2, NONE, map[], [])
  }

  ghost function HasParent(): Sys {
    Sys([Init(ForkUnlock(1)), Proc(USED, 2, 0, 0, User)], 0, 3, 0, map[], [])
  }

  ghost function Forked(): Sys {
    Sys([Init(User), Proc(ALIVE, 2, 0, 0, User)], 0, 3, NONE, map[], [])
  }

  ghost function Waits(): Sys {
    Sys([Proc(SLEEPING, 1, NONE, 0, Asleep), Proc(ALIVE, 2, 0, 0, User)], 0, 3, NONE, map[], [])
  }

  ghost function WokeParent(st: int): Sys {
    Sys([Init(Woken), Proc(ALIVE, 2, 0, 0, Zombify(st))], 0, 3, 1, map[], [])
  }

  ghost function Exited(st: int): Sys {
    Sys([Init(Woken), Proc(ZOMBIE, 2, 0, st, Gone)], 0, 3, NONE, map[2 := st], [])
  }

  ghost function Reaped(st: int): Sys {
    Sys([Init(User), FREED], 0, 3, NONE, map[2 := st], [(2, st)])
  }

  /** fork() allocates a process and becomes its parent. */
  lemma MakesChild() returns (moves: seq<Move>, states: seq<Sys>)
    ensures |moves| == 3
    ensures Path(Booted(), moves, states, HasParent())
  {
    moves := [Move(0, Fork(1)), Move(0, Go), Move(0, Go)];
    states := [Sys([Init(User), FREED], 0, 2, NONE, map[], []),
               Sys([Init(ForkLock(1)), Proc(USED, 2, NONE, 0, User)], 0, 3, NONE, map[], []),
               Sys([Init(ForkParent(1)), Proc(USED, 2, NONE, 0, User)], 0, 3, 0, map[], []),
               Sys([Init(ForkUnlock(1)), Proc(USED, 2, 0, 0, User)], 0, 3, 0, map[], [])];
    assert Takes(states[0], moves[0], states[1]);
    assert Takes(states[1], moves[1], states[2]);
    assert Takes(states[2], moves[2], states[3]);
  }

  /** And makes it runnable. */
  lemma StartsChild() returns (moves: seq<Move>, states: seq<Sys>)
    ensures |moves| == 2
    ensures Path(HasParent(), moves, states, Forked())
  {
    moves := [Move(0, Go), Move(0, Go)];
    states := [Sys([Init(ForkUnlock(1)), Proc(USED, 2, 0, 0, User)], 0, 3, 0, map[], []),
               Sys([Init(ForkStart(1)), Proc(USED, 2, 0, 0, User)], 0, 3, NONE, map[], []),
               Sys([Init(User), Proc(ALIVE, 2, 0, 0, User)], 0, 3, NONE, map[], [])];
    assert Takes(states[0], moves[0], states[1]);
    assert Takes(states[1], moves[1], states[2]);
  }

  /** wait() finds no zombie and sleeps. */
  lemma GoesToWait() returns (moves: seq<Move>, states: seq<Sys>)
    ensures |moves| == 4
    ensures Path(Forked(), moves, states, Waits())
  {
    moves := [Move(0, Wait), Move(0, Go), Move(0, Go), Move(0, Go)];
    states := [Sys([Init(User), Proc(ALIVE, 2, 0, 0, User)], 0, 3, NONE, map[], []),
               Sys([Init(Scan(0, false)), Proc(ALIVE, 2, 0, 0, User)], 0, 3, 0, map[], []),
               Sys([Init(Scan(1, false)), Proc(ALIVE, 2, 0, 0, User)], 0, 3, 0, map[], []),
               Sys([Init(Scan(2, true)), Proc(ALIVE, 2, 0, 0, User)], 0, 3, 0, map[], []),
               Sys([Proc(SLEEPING, 1, NONE, 0, Asleep), Proc(ALIVE, 2, 0, 0, User)], 0, 3, NONE, map[], [])];
    assert Takes(states[0], moves[0], states[1]);
    assert Takes(states[1], moves[1], states[2]);
    assert Takes(states[2], moves[2], states[3]);
    assert Takes(states[3], moves[3], states[4]);
  }

  /** exit(st) has no children to give away and wakes its parent. */
  lemma StartsExit(st: int) returns (moves: seq<Move>, states: seq<Sys>)
    ensures |moves| == 4 && moves[0] == Move(1, Exit(st))
    ensures Path(Waits(), moves, states, WokeParent(st))
  {
    moves := [Move(1, Exit(st)), Move(1, Go), Move(1, Go), Move(1, Go)];
    states := [Sys([Proc(SLEEPING, 1, NONE, 0, Asleep), Proc(ALIVE, 2, 0, 0, User)], 0, 3, NONE, map[], []),
               Sys([Proc(SLEEPING, 1, NONE, 0, Asleep), Proc(ALIVE, 2, 0, 0, Reparent(0, st))], 0, 3, 1, map[], []),
               Sys([Proc(SLEEPING, 1, NONE, 0, Asleep), Proc(ALIVE, 2, 0, 0, Reparent(1, st))], 0, 3, 1, map[], []),
               Sys([Proc(SLEEPING, 1, NONE, 0, Asleep), Proc(ALIVE, 2, 0, 0, Reparent(2, st))], 0, 3, 1, map[], []),
               Sys([Init(Woken), Proc(ALIVE, 2, 0, 0, Zombify(st))], 0, 3, 1, map[], [])];
    assert Takes(states[0], moves[0], states[1]);
    assert Takes(states[1], moves[1], states[2]);
    assert Takes(states[2], moves[2], states[3]);
    assert Takes(states[3], moves[3], states[4]);
  }

  /** It becomes a zombie and leaves the CPU. */
  lemma BecomesZombie(st: int) returns (moves: seq<Move>, states: seq<Sys>)
    ensures |moves| == 3
    ensures Path(WokeParent(st), moves, states, Exited(st))
  {
    moves := [Move(1, Go), Move(1, Go), Move(1, Go)];
    states := [Sys([Init(Woken), Proc(ALIVE, 2, 0, 0, Zombify(st))], 0, 3, 1, map[], []),
               Sys([Init(Woken), Proc(ZOMBIE, 2, 0, st, ExitUnlock)], 0, 3, 1, map[2 := st], []),
               Sys([Init(Woken), Proc(ZOMBIE, 2, 0, st, Switching)], 0, 3, NONE, map[2 := st], []),
               Sys([Init(Woken), Proc(ZOMBIE, 2, 0, st, Gone)], 0, 3, NONE, map[2 := st], [])];
    assert Takes(states[0], moves[0], states[1]);
    assert Takes(states[1], moves[1], states[2]);
    assert Takes(states[2], moves[2], states[3]);
  }

  /** wait() finds the zombie and frees it. */
  lemma WaitReturns(st: int) returns (moves: seq<Move>, states: seq<Sys>)
    ensures |moves| == 4
    ensures Path(Exited(st), moves, states, Reaped(st))
  {
    moves := [Move(0, Go), Move(0, Go), Move(0, Go), Move(0, Go)];
    states := [Sys([Init(Woken), Proc(ZOMBIE, 2, 0, st, Gone)], 0, 3, NONE, map[2 := st], []),
               Sys([Init(Scan(0, false)), Proc(ZOMBIE, 2, 0, st, Gone)], 0, 3, 0, map[2 := st], []),
               Sys([Init(Scan(1, false)), Proc(ZOMBIE, 2, 0, st, Gone)], 0, 3, 0, map[2 := st], []),
               Sys([Init(WaitUnlock(2)), FREED], 0, 3, 0, map[2 := st], [(2, st)]),
               Sys([Init(User), FREED], 0, 3, NONE, map[2 := st], [(2, st)])];
    assert Takes(states[0], moves[0], states[1]);
    assert Takes(states[1], moves[1], states[2]);
    assert Takes(states[2], moves[2], states[3]);
    assert Takes(states[3], moves[3], states[4]);
  }

  /** The whole of it, for every status. */
  lemma ForkExitWait(st: int) returns (moves: seq<Move>, states: seq<Sys>)
    ensures Execution(moves, states) && |moves| == 20 && moves[9] == Move(1, Exit(st))
    ensures states[5] == Forked() && states[9] == Waits() && states[16] == Exited(st)
    ensures states[20] == Reaped(st) && states[20].reaped == [(2, st)]
  {
    hide Takes;
    var moves': seq<Move>, states': seq<Sys>;
    moves, states := MakesChild();
    moves', states' := StartsChild();
    moves, states := Join(Booted(), moves, states, HasParent(), moves', states', Forked());
    moves', states' := GoesToWait();
    moves, states := Join(Booted(), moves, states, Forked(), moves', states', Waits());
    moves', states' := StartsExit(st);
    moves, states := Join(Booted(), moves, states, Waits(), moves', states', WokeParent(st));
    moves', states' := BecomesZombie(st);
    moves, states := Join(Booted(), moves, states, WokeParent(st), moves', states', Exited(st));
    moves', states' := WaitReturns(st);
    moves, states := Join(Booted(), moves, states, Exited(st), moves', states', Reaped(st));
    Boots();
  }

  lemma Boots()
    ensures Start(Booted())
  {
  }
}
