/** What becomes of a request: the device carries out its transfer exactly once, the
    handler wakes it, and only then virtio_disk_rw returns. */
module VirtioRuns {
  import opened Base
  import opened Virtio

  lemma Moved(moves: seq<Move>, states: seq<Sys>, n: nat)
    requires Execution(moves, states) && n < |moves|
    ensures |states| == |moves| + 1 && Inv(states[n]) && Takes(states[n], moves[n], states[n + 1])
  {
    hide Inv, Takes, Start;
    RunInv(moves, states, n);
  }

  // ---- how a request gets on

  /** The device has carried it out. */
  predicate Carried(q: Req) {
    (Live(q) && (q.phase.InUsed? || q.phase == Acked)) || (q.pc.Over? && q.phase == Acked)
  }

  /** The device does so in this move. */
  ghost predicate CarriesOut(s: Sys, m: Move, r: nat) {
    r < |s.reqs| && m.a == DeviceCompletes(s.reqs[r].i) && Live(s.reqs[r]) && s.reqs[r].phase == InDevice
  }

  predicate SameChain(q: Req, p: Req) {
    p.i == q.i && p.j == q.j && p.k == q.k
  }

  lemma InDeviceIs(s: Sys, d: nat)
    requires Inv(s) && d in s.device
    ensures d < NUM && 0 <= s.owner[d] < |s.reqs| && Live(s.reqs[s.owner[d]]) && s.reqs[s.owner[d]].i == d
    ensures s.reqs[s.owner[d]].phase == InDevice
  {
    assert InPhase(s, d, InDevice);
    assert DescOk(s, d);
  }

  lemma OwnerIs(s: Sys, r: nat)
    requires Inv(s) && r < |s.reqs| && Live(s.reqs[r])
    ensures s.reqs[r].i < NUM && s.owner[s.reqs[r].i] == r && (s.reqs[r].phase == InDevice ==> s.reqs[r].i in s.device)
  {
    assert ReqOk(s, r);
  }

  lemma DeviceTakesStep(s: Sys, m: Move, t: Sys, r: nat)
    requires Inv(s) && Takes(s, m, t) && r < |s.reqs| && m.a.DeviceTakes?
    ensures |t.reqs| == |s.reqs| && (Carried(t.reqs[r]) <==> Carried(s.reqs[r])) && t.reqs[r].pc == s.reqs[r].pc
    ensures SameChain(s.reqs[r], t.reqs[r])
  {
    hide Inv, ReqOk, DescOk, ThreeFree;
    Know(s, r, 0);
    TakesOldest(s);
    OldestIs(s);
  }

  lemma DeviceCompletesStep(s: Sys, m: Move, t: Sys, r: nat)
    requires Inv(s) && Takes(s, m, t) && r < |s.reqs| && m.a.DeviceCompletes?
    ensures |t.reqs| == |s.reqs| && (Carried(t.reqs[r]) <==> Carried(s.reqs[r]) || CarriesOut(s, m, r))
    ensures !(Carried(s.reqs[r]) && CarriesOut(s, m, r)) && t.reqs[r].pc == s.reqs[r].pc
    ensures SameChain(s.reqs[r], t.reqs[r])
  {
    hide Inv, ReqOk, DescOk, ThreeFree;
    Know(s, r, 0);
    if Live(s.reqs[r]) { OwnerIs(s, r); }
    InDeviceIs(s, m.a.d);
  }

  lemma HandlerSeesStep(s: Sys, m: Move, t: Sys, r: nat)
    requires Inv(s) && Takes(s, m, t) && r < |s.reqs| && m.a.HandlerSees?
    ensures |t.reqs| == |s.reqs| && (Carried(t.reqs[r]) <==> Carried(s.reqs[r]))
    ensures (t.reqs[r].pc.Over? <==> s.reqs[r].pc.Over?) && (Live(t.reqs[r]) <==> Live(s.reqs[r]))
    ensures SameChain(s.reqs[r], t.reqs[r])
  {
    hide Inv, ReqOk, DescOk, ThreeFree;
    Know(s, r, 0);
    SeesOldest(s);
  }

  lemma OldestIs(s: Sys)
    requires Inv(s) && s.taken < |s.posted|
    ensures var d := s.posted[s.taken];
            && d < NUM && 0 <= s.owner[d] < |s.reqs| && s.reqs[s.owner[d]].phase == Avail(s.taken)
            && Live(s.reqs[s.owner[d]])
  {
    assert AvailOk(s, s.taken);
    assert DescOk(s, s.posted[s.taken]);
  }

  /** A move of a request, or the handler coming or going. */
  lemma InsideStep(s: Sys, m: Move, t: Sys, r: nat)
    requires Inv(s) && Takes(s, m, t) && r < |s.reqs|
    requires !m.a.DeviceTakes? && !m.a.DeviceCompletes? && !m.a.HandlerSees?
    ensures |t.reqs| == |s.reqs| && (Carried(t.reqs[r]) <==> Carried(s.reqs[r])) && !CarriesOut(s, m, r)
    ensures t.reqs[r].pc.Over? ==> s.reqs[r].pc.Over? || Carried(t.reqs[r])
    ensures !(m.a.Enter? && m.r == r) ==> Live(t.reqs[r]) ==> Live(s.reqs[r]) && SameChain(s.reqs[r], t.reqs[r])
  {
    hide Inv, DescOk, ThreeFree, Chain;
    Know(s, r, 0);
    Know(s, m.r, 0);
  }

  lemma RequestStep(s: Sys, m: Move, t: Sys, r: nat)
    requires Inv(s) && Takes(s, m, t) && r < |s.reqs|
    ensures |t.reqs| == |s.reqs| && (Carried(t.reqs[r]) <==> Carried(s.reqs[r]) || CarriesOut(s, m, r))
    ensures !(Carried(s.reqs[r]) && CarriesOut(s, m, r))
    ensures t.reqs[r].pc.Over? ==> s.reqs[r].pc.Over? || Carried(t.reqs[r])
    ensures !(m.a.Enter? && m.r == r) ==> Live(t.reqs[r]) ==> Live(s.reqs[r]) && SameChain(s.reqs[r], t.reqs[r])
  {
    hide Inv, Takes, Carried;
    if m.a.DeviceTakes? {
      DeviceTakesStep(s, m, t, r);
    } else if m.a.DeviceCompletes? {
      DeviceCompletesStep(s, m, t, r);
    } else if m.a.HandlerSees? {
      HandlerSeesStep(s, m, t, r);
    } else {
      InsideStep(s, m, t, r);
    }
  }

  /** The moves in which the device carries request r out. */
  ghost function Times(moves: seq<Move>, states: seq<Sys>, r: nat, n: nat): nat
    requires n <= |moves| < |states|
    decreases n
  {
    if n == 0 then 0 else Times(moves, states, r, n - 1) + if CarriesOut(states[n - 1], moves[n - 1], r) then 1 else 0
  }

  lemma {:induction false} CarriedOnce(moves: seq<Move>, states: seq<Sys>, r: nat, n: nat)
    requires Execution(moves, states) && n < |states| && r < |states[n].reqs|
    ensures Times(moves, states, r, n) == if Carried(states[n].reqs[r]) then 1 else 0
    ensures states[n].reqs[r].pc.Over? ==> Carried(states[n].reqs[r])
    decreases n
  {
    hide Inv, Takes, Start, CarriesOut;
    if n == 0 {
      NothingYet(states[0], r);
    } else {
      Moved(moves, states, n - 1);
      SameReqs(states[n - 1], moves[n - 1], states[n]);
      CarriedOnce(moves, states, r, n - 1);
      RequestStep(states[n - 1], moves[n - 1], states[n], r);
    }
  }

  lemma SameReqs(s: Sys, m: Move, t: Sys)
    requires Takes(s, m, t)
    ensures |t.reqs| == |s.reqs|
  {
  }

  lemma NothingYet(s: Sys, r: nat)
    requires Start(s) && r < |s.reqs|
    ensures s.reqs[r].pc == Want
  {
  }

  /** virtio_disk_rw returns only when the device has carried its request out, exactly
      once; and it does so at most once in any case. */
  lemma ReturnsWhenDone(moves: seq<Move>, states: seq<Sys>, r: nat, n: nat)
    requires Execution(moves, states) && n < |states| && r < |states[n].reqs|
    ensures Times(moves, states, r, n) <= 1
    ensures states[n].reqs[r].pc.Over? ==> Times(moves, states, r, n) == 1
  {
    hide Execution, Times;
    CarriedOnce(moves, states, r, n);
  }

  /** When the handler leaves it has seen every completion, and every request that the
      device had carried out by then has its buffer back and is awake or has returned. */
  lemma HandlerLeavesNothing(moves: seq<Move>, states: seq<Sys>, n: nat, r: nat)
    requires Execution(moves, states) && n < |moves| && moves[n].a == HandlerLeaves && r < |states[n].reqs|
    ensures states[n].acked == |states[n].completed|
    ensures Times(moves, states, r, n) == 1 ==>
              states[n].reqs[r].pc == Over || (states[n].reqs[r].pc == Awake && !states[n].reqs[r].disk)
  {
    hide Execution, Times, Takes;
    Moved(moves, states, n);
    CarriedOnce(moves, states, r, n);
    AllSeen(states[n], moves[n], states[n + 1], r);
  }

  lemma AllSeen(s: Sys, m: Move, t: Sys, r: nat)
    requires Inv(s) && Takes(s, m, t) && m.a == HandlerLeaves && r < |s.reqs|
    ensures s.acked == |s.completed| && (Carried(s.reqs[r]) && !s.reqs[r].pc.Over? ==>
                                           !s.reqs[r].disk && s.reqs[r].pc == Awake)
  {
    hide DescOk, ThreeFree, Chain;
    FewWaiting(s, 0);
    Wraps(s.acked, |s.completed|);
    assert ReqOk(s, r);
  }

  // ---- whose transfer the device makes

  /** Whose header, buffer and status byte the descriptors point to, as the requests have
      formatted them. */
  datatype Pointers = Pointers(header: seq<int>, buffer: seq<int>, status: seq<int>)

  ghost function Formatted(moves: seq<Move>, n: nat): (p: Pointers)
    requires n <= |moves|
    ensures |p.header| == |p.buffer| == |p.status| == NUM
  {
    if n == 0 then Pointers(seq(NUM, _ => NONE), seq(NUM, _ => NONE), seq(NUM, _ => NONE))
    else
      var p, m := Formatted(moves, n - 1), moves[n - 1];
      if m.a.Enter? && m.a.i < NUM && m.a.j < NUM && m.a.k < NUM then
        Pointers(p.header[m.a.i := m.r], p.buffer[m.a.j := m.r], p.status[m.a.k := m.r])
      else p
  }

  ghost predicate PointsTo(p: Pointers, q: Req, r: nat) {
    && |p.header| == |p.buffer| == |p.status| == NUM && q.i < NUM && q.j < NUM && q.k < NUM
    && p.header[q.i] == r && p.buffer[q.j] == r && p.status[q.k] == r
  }

  lemma EnterKeeps(s: Sys, m: Move, t: Sys, r: nat, p: Pointers)
    requires Inv(s) && Takes(s, m, t) && m.a.Enter? && r < |s.reqs| && r != m.r && Live(t.reqs[r])
    requires Live(s.reqs[r]) ==> PointsTo(p, s.reqs[r], r)
    ensures m.a.i < NUM && m.a.j < NUM && m.a.k < NUM && Live(s.reqs[r])
    ensures PointsTo(Pointers(p.header[m.a.i := m.r], p.buffer[m.a.j := m.r], p.status[m.a.k := m.r]), t.reqs[r], r)
  {
    hide Inv, DescOk, ThreeFree;
    Know(s, r, 0);
  }

  lemma EnterSets(s: Sys, m: Move, t: Sys, p: Pointers)
    requires Takes(s, m, t) && m.a.Enter? && |p.header| == |p.buffer| == |p.status| == NUM
    ensures m.a.i < NUM && m.a.j < NUM && m.a.k < NUM && m.r < |t.reqs|
    ensures PointsTo(Pointers(p.header[m.a.i := m.r], p.buffer[m.a.j := m.r], p.status[m.a.k := m.r]),
                     t.reqs[m.r], m.r)
  {
  }

  /** A live request's three descriptors point to its own header, buffer and status. */
  lemma {:induction false} OwnPointers(moves: seq<Move>, states: seq<Sys>, n: nat, r: nat)
    requires Execution(moves, states) && n < |states| && r < |states[n].reqs| && Live(states[n].reqs[r])
    ensures n <= |moves| && PointsTo(Formatted(moves, n), states[n].reqs[r], r)
    decreases n
  {
    hide Inv, Takes, Start, PointsTo;
    if n == 0 {
      NothingYet(states[0], r);
    } else {
      var s, m, t := states[n - 1], moves[n - 1], states[n];
      var p := Formatted(moves, n - 1);
      Moved(moves, states, n - 1);
      SameReqs(s, m, t);
      if Live(s.reqs[r]) { OwnPointers(moves, states, n - 1, r); }
      RequestStep(s, m, t, r);
      if m.a.Enter? && m.r == r {
        EnterSets(s, m, t, p);
      } else if m.a.Enter? {
        EnterKeeps(s, m, t, r, p);
      } else {
        StillPoints(p, s.reqs[r], t.reqs[r], r);
      }
    }
  }

  lemma StillPoints(p: Pointers, q: Req, q': Req, r: nat)
    requires PointsTo(p, q, r) && SameChain(q, q')
    ensures PointsTo(p, q', r)
  {
  }

  /** Whenever the device completes a chain, header, buffer and status byte that it finds
      by following the descriptors are those of one request, which it carries out. */
  lemma OwnTransfer(moves: seq<Move>, states: seq<Sys>, n: nat)
    requires Execution(moves, states) && n < |moves| && moves[n].a.DeviceCompletes?
    ensures var s, d, p := states[n], moves[n].a.d, Formatted(moves, n);
            && |s.desc| == NUM && d < NUM && s.desc[d].linked && s.desc[d].next < NUM
            && var j := s.desc[d].next;
               && s.desc[j].linked && s.desc[j].next < NUM && !s.desc[s.desc[j].next].linked
               && var r := p.header[d];
                  && 0 <= r && p.buffer[j] == r && p.status[s.desc[j].next] == r && CarriesOut(s, moves[n], r)
  {
    hide Inv, Start;
    Moved(moves, states, n);
    var s := states[n];
    InDeviceIs(s, moves[n].a.d);
    var r := s.owner[moves[n].a.d];
    OwnPointers(moves, states, n, r);
    Know(s, r, 0);
  }
}
