/** The virtio disk queue: descriptors, the available and used rings with their
    16-bit indices (section 2.6 of VIRTIO 1.1), chains of three descriptors per
    request (section 5.2), any number of requesters, the interrupt handler, and a
    device that completes each chain it takes once, with success, in any order. */
module Virtio {
  import opened Base
  const NUM := 8

  // ---- descriptors

  datatype Desc = Desc(linked: bool, next: nat)     // VRING_DESC_F_NEXT, and where to

  const CLEAR := Desc(false, 0)

  ghost predicate ThreeFree(free: seq<bool>)
    requires |free| == NUM
  {
    exists i, j, k :: 0 <= i < j < k < NUM && free[i] && free[j] && free[k]
  }

  /** i heads a chain of three descriptors in use: i, then j, then k. */
  predicate Chain(free: seq<bool>, desc: seq<Desc>, i: nat, j: nat, k: nat)
    requires |free| == |desc| == NUM
  {
    && i < NUM && j < NUM && k < NUM && i != j && i != k && j != k && !free[i] && !free[j] && !free[k]
    && desc[i] == Desc(true, j) && desc[j] == Desc(true, k) && !desc[k].linked
  }

  class Queue {
    var free: seq<bool>
    var desc: seq<Desc>

    ghost predicate Valid()
      reads this
    {
      |free| == |desc| == NUM
    }

    /** The first free descriptor, now taken; NONE if there is none. */
    method AllocDesc() returns (i: int)
      requires Valid()
      modifies this`free
      ensures Valid() && NONE <= i < NUM
      ensures i == NONE ==> free == old(free) && forall j :: 0 <= j < NUM ==> !free[j]
      ensures i != NONE ==> old(free)[i] && free == old(free)[i := false] && forall j :: 0 <= j < i ==> !free[j]
    {
      i := 0;
      while i < NUM
        invariant 0 <= i <= NUM && free == old(free) && forall j :: 0 <= j < i ==> !free[j]
      {
        if free[i] {
          free := free[i := false];
          return;
        }
        i := i + 1;
      }
      i := NONE;
    }

    /** False is one of free_desc's panics. */
    method FreeDesc(i: nat) returns (ok: bool)
      requires Valid()
      modifies this`free, this`desc
      ensures Valid() && (ok <==> i < NUM && !old(free)[i])
      ensures ok ==> free == old(free)[i := true] && desc == old(desc)[i := CLEAR]
      ensures !ok ==> free == old(free) && desc == old(desc)
    {
      if i >= NUM || free[i] {
        return false;
      }
      desc := desc[i := CLEAR];
      free := free[i := true];
      return true;
    }

    /** Three descriptors, or none: it fails exactly when fewer than three are free,
        and then gives back what it took. */
    method Alloc3Desc() returns (ok: bool, i: nat, j: nat, k: nat)
      requires Valid()
      modifies this`free, this`desc
      ensures Valid() && (ok <==> old(ThreeFree(free)))
      ensures ok ==> i < j < k < NUM && old(free)[i] && old(free)[j] && old(free)[k]
                     && free == old(free)[i := false][j := false][k := false] && desc == old(desc)
      ensures !ok ==> free == old(free) && forall d :: 0 <= d < NUM && !free[d] ==> desc[d] == old(desc)[d]
    {
      ok, i, j, k := false, 0, 0, 0;
      var a := AllocDesc();
      if a == NONE {
        return;
      }
      var b := AllocDesc();
      if b == NONE {
        var _ := FreeDesc(a);
        assert free == old(free);
        return;
      }
      var c := AllocDesc();
      if c == NONE {
        forall x | 0 <= x < NUM && old(free)[x] ensures x == a || x == b { assert !free[x]; }
        var _ := FreeDesc(a);
        var _ := FreeDesc(b);
        assert free == old(free);
        return;
      }
      return true, a, b, c;
    }

    /** Frees the chain that starts at i: its three descriptors, without a panic. */
    method FreeChain(i: nat, ghost j: nat, ghost k: nat) returns (ok: bool)
      requires Valid() && Chain(free, desc, i, j, k)
      modifies this`free, this`desc
      ensures Valid() && ok && free == old(free)[i := true][j := true][k := true]
      ensures desc == old(desc)[i := CLEAR][j := CLEAR][k := CLEAR]
    {
      var d := i;
      ghost var n := 0;
      while true
        invariant Valid() && 0 <= n <= 2 && d == if n == 0 then i else if n == 1 then j else k
        invariant free == if n == 0 then old(free) else if n == 1 then old(free)[i := true]
                  else old(free)[i := true][j := true]
        invariant desc == if n == 0 then old(desc) else if n == 1 then old(desc)[i := CLEAR]
                  else old(desc)[i := CLEAR][j := CLEAR]
        decreases 2 - n
      {
        var e := desc[d];
        ok := FreeDesc(d);
        if !ok || !e.linked {
          return;
        }
        d, n := e.next, n + 1;
      }
    }
  }

  // ---- requests, the device, and the interrupt handler

  /** Where a request's virtio_disk_rw is. */
  datatype Pc =
    | Want              // to acquire the lock and allocate descriptors
    | AsleepFree        // in sleep(&disk.free[0])
    | Got               // descriptors allocated and formatted
    | Slotted           // avail->ring written
    | Posted            // avail->idx incremented
    | Asleep            // in sleep(b)
    | Awake             // woken from it
    | Over

  /** How far its chain has got, for stating properties. */
  datatype Phase = NotYet | Avail(k: nat) | InDevice | InUsed(k: nat) | Acked

  datatype Req = Req(pc: Pc, i: nat, j: nat, k: nat, disk: bool, phase: Phase)

  /** The lock's holder: nobody, the interrupt handler, or a request. */
  const HANDLER := -2

  /** owner, posted, taken, completed and acked are for stating properties: which
      request has a descriptor, the chains posted and how many of them the device
      has taken, the chains completed and how many of them the handler has seen. */
  datatype Sys = Sys(
    free: seq<bool>, desc: seq<Desc>, reqs: seq<Req>, lock: int,
    buf: seq<int>, status: seq<nat>,                       // info[i].b and info[i].status
    ring: seq<nat>, availIdx: nat, device: set<nat>, lastAvail: nat,
    used: seq<nat>, usedIdx: nat, seenIdx: nat,
    owner: seq<int>, posted: seq<nat>, taken: nat, completed: seq<nat>, acked: nat)

  predicate Live(q: Req) { q.pc.Got? || q.pc.Slotted? || q.pc.Posted? || q.pc.Asleep? || q.pc.Awake? }

  predicate Inside(pc: Pc) { pc.Got? || pc.Slotted? || pc.Posted? }

  predicate InChain(q: Req, d: nat) { d == q.i || d == q.j || d == q.k }

  predicate HasDesc(q: Req, d: nat) { Live(q) && InChain(q, d) }

  ghost predicate Shape(s: Sys) {
    && |s.free| == |s.desc| == |s.buf| == |s.status| == |s.ring| == |s.used| == |s.owner| == NUM
    && s.availIdx == |s.posted| % USHORT && s.lastAvail == s.taken % USHORT
    && s.usedIdx == |s.completed| % USHORT && s.seenIdx == s.acked % USHORT
    && s.taken <= |s.posted| && s.acked <= |s.completed|
    && (s.lock == NONE || s.lock == HANDLER || 0 <= s.lock < |s.reqs|)
  }

  ghost predicate ReqOk(s: Sys, r: int)
    requires Shape(s) && 0 <= r < |s.reqs|
  {
    var q := s.reqs[r];
    && (s.lock == r <==> Inside(q.pc))
    && (q.pc.AsleepFree? ==> !ThreeFree(s.free))
    && (q.pc.Asleep? || q.pc.Posted? ==> q.disk)
    && (Live(q) ==>
          && Chain(s.free, s.desc, q.i, q.j, q.k) && s.buf[q.i] == r
          && s.owner[q.i] == r && s.owner[q.j] == r && s.owner[q.k] == r
          && (q.disk <==> q.phase != Acked)
          && (q.pc.Got? || q.pc.Slotted? <==> q.phase == NotYet)
          && (q.pc.Slotted? ==> s.ring[|s.posted| % NUM] == q.i)
          && (q.phase.Avail? ==> s.taken <= q.phase.k < |s.posted| && s.posted[q.phase.k] == q.i)
          && (q.phase.InDevice? ==> q.i in s.device)
          && (q.phase.InUsed? ==>
                s.acked <= q.phase.k < |s.completed| && s.completed[q.phase.k] == q.i && s.status[q.i] == 0))
  }

  /** Descriptor d is free or in exactly one live chain. */
  ghost predicate DescOk(s: Sys, d: int)
    requires Shape(s) && 0 <= d < NUM
  {
    if s.free[d] then s.owner[d] == NONE
    else 0 <= s.owner[d] < |s.reqs| && Live(s.reqs[s.owner[d]]) && InChain(s.reqs[s.owner[d]], d)
  }

  /** The chain that d heads belongs to a request in the given phase. */
  ghost predicate InPhase(s: Sys, d: nat, phase: Phase)
    requires Shape(s)
  {
    && d < NUM && !s.free[d] && 0 <= s.owner[d] < |s.reqs|
    && s.reqs[s.owner[d]].i == d && s.reqs[s.owner[d]].phase == phase
  }

  ghost predicate AvailOk(s: Sys, k: int)
    requires Shape(s) && s.taken <= k < |s.posted|
  {
    InPhase(s, s.posted[k], Avail(k)) && s.ring[k % NUM] == s.posted[k]
  }

  ghost predicate UsedOk(s: Sys, k: int)
    requires Shape(s) && s.acked <= k < |s.completed|
  {
    InPhase(s, s.completed[k], InUsed(k)) && s.used[k % NUM] == s.completed[k]
  }

  ghost predicate Inv(s: Sys) {
    && Shape(s)
    && (forall r :: 0 <= r < |s.reqs| ==> ReqOk(s, r))
    && (forall d :: 0 <= d < NUM ==> DescOk(s, d))
    && (forall k :: s.taken <= k < |s.posted| ==> AvailOk(s, k))
    && (forall k :: s.acked <= k < |s.completed| ==> UsedOk(s, k))
    && (forall d :: d in s.device ==> InPhase(s, d, InDevice))
  }

  // ---- steps

  datatype Act =
    | Enter(i: nat, j: nat, k: nat)   // alloc3_desc finds these three
    | EnterFails | WakesFree | Slot | Publish | SleepB | Again | Finish
    | WakesBuf                        // kill() makes a process in sleep(b) runnable
    | DeviceTakes | DeviceCompletes(d: nat)
    | HandlerEnters | HandlerSees | HandlerLeaves

  ghost predicate Enabled(s: Sys, r: nat, a: Act)
    requires Shape(s) && r < |s.reqs|
  {
    var q := s.reqs[r];
    match a
    case Enter(i, j, k) =>
      && q.pc.Want? && s.lock == NONE && i < NUM && j < NUM && k < NUM
      && i != j && i != k && j != k && s.free[i] && s.free[j] && s.free[k]
    case EnterFails => q.pc.Want? && s.lock == NONE && !ThreeFree(s.free)
    case WakesFree => q.pc.AsleepFree?
    case Slot => q.pc.Got?
    case Publish => q.pc.Slotted?
    case SleepB => q.pc.Posted?
    case WakesBuf => q.pc.Asleep?
    case Again => q.pc.Awake? && s.lock == NONE && q.disk
    case Finish => q.pc.Awake? && s.lock == NONE && !q.disk
    case DeviceTakes => s.lastAvail != s.availIdx
    case DeviceCompletes(d) => d in s.device && d < NUM
    case HandlerEnters => s.lock == NONE
    case HandlerSees => s.lock == HANDLER && s.seenIdx != s.usedIdx
    case HandlerLeaves => s.lock == HANDLER && s.seenIdx == s.usedIdx
  }

  /** The entry the device, or the handler, looks at next. */
  function NextAvail(s: Sys): nat
    requires |s.ring| == NUM
  {
    s.ring[s.lastAvail % NUM]
  }

  function NextUsed(s: Sys): nat
    requires |s.used| == NUM
  {
    s.used[s.seenIdx % NUM]
  }

  /** A kernel panic: free_desc's two, the handler's on the status, or a used entry
      without a buffer. */
  ghost predicate Panics(s: Sys, r: nat, a: Act)
    requires Shape(s) && r < |s.reqs|
  {
    match a
    case Finish => !Chain(s.free, s.desc, s.reqs[r].i, s.reqs[r].j, s.reqs[r].k)
    case HandlerSees => NextUsed(s) >= NUM || s.status[NextUsed(s)] != 0 || !(0 <= s.buf[NextUsed(s)] < |s.reqs|)
    case _ => false
  }

  function WithReq(s: Sys, r: int, q: Req): Sys
    requires 0 <= r < |s.reqs|
  {
    s.(reqs := s.reqs[r := q])
  }

  function WithPhase(s: Sys, r: int, phase: Phase): Sys {
    if 0 <= r < |s.reqs| then WithReq(s, r, s.reqs[r].(phase := phase)) else s
  }

  /** wakeup(&disk.free[0]) */
  function WakeFree(reqs: seq<Req>): (w: seq<Req>)
    ensures |w| == |reqs| && forall r :: 0 <= r < |reqs| ==>
              w[r] == if reqs[r].pc.AsleepFree? then reqs[r].(pc := Want) else reqs[r]
  {
    seq(|reqs|, r requires 0 <= r < |reqs| => if reqs[r].pc.AsleepFree? then reqs[r].(pc := Want) else reqs[r])
  }

  ghost function Next(s: Sys, r: nat, a: Act): Sys
    requires Shape(s) && r < |s.reqs| && Enabled(s, r, a) && !Panics(s, r, a)
  {
    var q := s.reqs[r];
    match a
    case Enter(i, j, k) =>
      WithReq(s, r, Req(Got, i, j, k, true, NotYet)).(lock := r,
        free := s.free[i := false][j := false][k := false],
        desc := s.desc[i := Desc(true, j)][j := Desc(true, k)][k := CLEAR],
        buf := s.buf[i := r], status := s.status[i := 0xff], owner := s.owner[i := r][j := r][k := r])
    case EnterFails => WithReq(s, r, q.(pc := AsleepFree))
    case WakesFree => WithReq(s, r, q.(pc := Want))
    case Slot => WithReq(s, r, q.(pc := Slotted)).(ring := s.ring[s.availIdx % NUM := q.i])
    case Publish =>
      WithReq(s, r, q.(pc := Posted, phase := Avail(|s.posted|))).(
        availIdx := (s.availIdx + 1) % USHORT, posted := s.posted + [q.i])
    case SleepB => WithReq(s, r, q.(pc := Asleep)).(lock := NONE)
    case WakesBuf => WithReq(s, r, q.(pc := Awake))
    case Again => WithReq(s, r, q.(pc := Asleep))
    case Finish =>
      s.(reqs := WakeFree(s.reqs)[r := q.(pc := Over)], buf := s.buf[q.i := NONE],
         free := s.free[q.i := true][q.j := true][q.k := true],
         desc := s.desc[q.i := CLEAR][q.j := CLEAR][q.k := CLEAR],
         owner := s.owner[q.i := NONE][q.j := NONE][q.k := NONE])
    case DeviceTakes =>
      var d := NextAvail(s);
      WithPhase(s, if d < NUM then s.owner[d] else NONE, InDevice).(
        device := s.device + {d}, lastAvail := (s.lastAvail + 1) % USHORT, taken := s.taken + 1)
    case DeviceCompletes(d) =>
      WithPhase(s, s.owner[d], InUsed(|s.completed|)).(device := s.device - {d}, status := s.status[d := 0],
        used := s.used[s.usedIdx % NUM := d], usedIdx := (s.usedIdx + 1) % USHORT, completed := s.completed + [d])
    case HandlerEnters => s.(lock := HANDLER)
    case HandlerSees =>
      var b := s.buf[NextUsed(s)];
      var p := s.reqs[b];
      WithReq(s, b, p.(disk := false, phase := Acked, pc := if p.pc.Asleep? then Awake else p.pc)).(
        seenIdx := (s.seenIdx + 1) % USHORT, acked := s.acked + 1)
    case HandlerLeaves => s.(lock := NONE)
  }

  // ---- rings and indices

  lemma {:induction false} Pigeonhole(xs: seq<nat>, n: nat)
    requires forall a :: 0 <= a < |xs| ==> xs[a] < n
    requires forall a, b :: 0 <= a < b < |xs| ==> xs[a] != xs[b]
    ensures |xs| <= n
  {
    if xs != [] {
      assert xs[0] < n;
      if a :| 0 <= a < |xs| && xs[a] == n - 1 {
        Pigeonhole(xs[..a] + xs[a + 1..], n - 1);
      } else {
        Pigeonhole(xs, n - 1);
      }
    }
  }

  /** Waiting chains have different heads, so there are at most NUM of them, and
      fewer when some other descriptor is in use elsewhere. */
  lemma FewWaiting(s: Sys, d: nat)
    requires Inv(s) && d < NUM
    ensures |s.posted| - s.taken <= NUM && |s.completed| - s.acked <= NUM
    ensures !(exists k :: InPhase(s, d, Avail(k))) ==> |s.posted| - s.taken < NUM
    ensures !(exists k :: InPhase(s, d, InUsed(k))) ==> |s.completed| - s.acked < NUM
  {
    hide ReqOk, DescOk;
    var xs, ys := s.posted[s.taken..], s.completed[s.acked..];
    forall a | 0 <= a < |xs|
      ensures xs[a] < NUM && InPhase(s, xs[a], Avail(s.taken + a))
    {
      assert AvailOk(s, s.taken + a);
    }
    forall a | 0 <= a < |ys|
      ensures ys[a] < NUM && InPhase(s, ys[a], InUsed(s.acked + a))
    {
      assert UsedOk(s, s.acked + a);
    }
    Pigeonhole(xs, NUM);
    Pigeonhole(ys, NUM);
    if !exists k :: InPhase(s, d, Avail(k)) { Pigeonhole(xs + [d], NUM); }
    if !exists k :: InPhase(s, d, InUsed(k)) { Pigeonhole(ys + [d], NUM); }
  }

  lemma Wraps(a: nat, b: nat)
    requires a <= b <= a + NUM
    ensures a % USHORT == b % USHORT <==> a == b
    ensures a % USHORT % NUM == a % NUM && (a % USHORT + 1) % USHORT == (a + 1) % USHORT
    ensures a < b < a + NUM ==> a % NUM != b % NUM
  {
    var q, r := a / USHORT, a % USHORT;
    assert a == q * USHORT + r;
  }

  lemma Know(s: Sys, r: int, d: int)
    requires Inv(s)
    ensures Shape(s) && (0 <= r < |s.reqs| ==> ReqOk(s, r)) && (0 <= d < NUM ==> DescOk(s, d))
  {
  }

  /** Steps that change one request's program counter and the lock at most. */
  predicate Simple(a: Act) {
    a.EnterFails? || a.WakesFree? || a.SleepB? || a.WakesBuf? || a.Again? || a.HandlerEnters? || a.HandlerLeaves?
  }

  lemma SimpleReq(s: Sys, r: nat, a: Act, x: nat)
    requires Inv(s) && r < |s.reqs| && Enabled(s, r, a) && Simple(a) && x < |s.reqs|
    ensures Shape(Next(s, r, a)) && |Next(s, r, a).reqs| == |s.reqs| && ReqOk(Next(s, r, a), x)
  {
    hide Inv, ReqOk, Next, Enabled, Shape;
    if x == r { SimpleOwn(s, r, a); } else { SimpleOther(s, r, a, x); }
  }

  lemma SimpleOwn(s: Sys, r: nat, a: Act)
    requires Inv(s) && r < |s.reqs| && Enabled(s, r, a) && Simple(a)
    ensures Shape(Next(s, r, a)) && |Next(s, r, a).reqs| == |s.reqs| && ReqOk(Next(s, r, a), r)
  {
    hide Inv, ThreeFree, Chain;
    Know(s, r, 0);
  }

  lemma SimpleOther(s: Sys, r: nat, a: Act, x: nat)
    requires Inv(s) && r < |s.reqs| && Enabled(s, r, a) && Simple(a) && x < |s.reqs| && x != r
    ensures Shape(Next(s, r, a)) && |Next(s, r, a).reqs| == |s.reqs| && ReqOk(Next(s, r, a), x)
  {
    hide Inv, ThreeFree, Chain;
    Know(s, x, 0);
    Know(s, r, 0);
    assert Next(s, r, a).reqs[x] == s.reqs[x];
  }

  lemma SimplePhase(s: Sys, r: nat, a: Act, d: nat, phase: Phase)
    requires Inv(s) && r < |s.reqs| && Enabled(s, r, a) && Simple(a)
    ensures Shape(Next(s, r, a)) && (InPhase(s, d, phase) ==> InPhase(Next(s, r, a), d, phase))
    ensures d < NUM ==> DescOk(Next(s, r, a), d)
  {
    hide Inv, ThreeFree, Chain, ReqOk;
    Know(s, r, d);
  }

  lemma KeepsSimple(s: Sys, r: nat, a: Act)
    requires Inv(s) && r < |s.reqs| && Enabled(s, r, a) && Simple(a)
    ensures Inv(Next(s, r, a))
  {
    hide ReqOk, DescOk, InPhase, ThreeFree;
    var t := Next(s, r, a);
    forall x: nat | x < |t.reqs| ensures ReqOk(t, x) { SimpleReq(s, r, a, x); }
    forall d: nat | d < NUM ensures DescOk(t, d) { SimplePhase(s, r, a, d, Acked); }
    forall k | t.taken <= k < |t.posted|
      ensures AvailOk(t, k)
    {
      assert AvailOk(s, k);
      SimplePhase(s, r, a, s.posted[k], Avail(k));
    }
    forall k | t.acked <= k < |t.completed|
      ensures UsedOk(t, k)
    {
      assert UsedOk(s, k);
      SimplePhase(s, r, a, s.completed[k], InUsed(k));
    }
    forall d | d in t.device ensures InPhase(t, d, InDevice) { SimplePhase(s, r, a, d, InDevice); }
  }

  // alloc3_desc and formatting

  lemma EnterReq(s: Sys, r: nat, a: Act, x: nat)
    requires Inv(s) && r < |s.reqs| && Enabled(s, r, a) && a.Enter? && x < |s.reqs|
    ensures Shape(Next(s, r, a)) && |Next(s, r, a).reqs| == |s.reqs| && ReqOk(Next(s, r, a), x)
  {
    hide Inv, ThreeFree;
    Know(s, x, a.i);
    Know(s, r, a.j);
    Know(s, r, a.k);
    var t := Next(s, r, a);
    FewerFree(s.free, t.free);
  }

  lemma FewerFree(f: seq<bool>, g: seq<bool>)
    requires |f| == |g| == NUM && forall d :: 0 <= d < NUM && g[d] ==> f[d]
    ensures ThreeFree(g) ==> ThreeFree(f)
  {
    if ThreeFree(g) {
      var i, j, k :| 0 <= i < j < k < NUM && g[i] && g[j] && g[k];
      assert f[i] && f[j] && f[k];
    }
  }

  lemma EnterDesc(s: Sys, r: nat, a: Act, d: nat)
    requires Inv(s) && r < |s.reqs| && Enabled(s, r, a) && a.Enter? && d < NUM
    ensures Shape(Next(s, r, a)) && DescOk(Next(s, r, a), d)
  {
    hide Inv, ThreeFree, ReqOk;
    Know(s, r, d);
  }

  lemma EnterPhase(s: Sys, r: nat, a: Act, d: nat, phase: Phase)
    requires Inv(s) && r < |s.reqs| && Enabled(s, r, a) && a.Enter? && InPhase(s, d, phase)
    ensures Shape(Next(s, r, a)) && InPhase(Next(s, r, a), d, phase)
  {
    hide Inv, ThreeFree, ReqOk;
    Know(s, r, d);
  }

  lemma KeepsEnter(s: Sys, r: nat, a: Act)
    requires Inv(s) && r < |s.reqs| && Enabled(s, r, a) && a.Enter?
    ensures Inv(Next(s, r, a))
  {
    hide ReqOk, DescOk, InPhase, ThreeFree;
    var t := Next(s, r, a);
    forall x: nat | x < |t.reqs| ensures ReqOk(t, x) { EnterReq(s, r, a, x); }
    forall d: nat | d < NUM ensures DescOk(t, d) { EnterDesc(s, r, a, d); }
    forall k | t.taken <= k < |t.posted|
      ensures AvailOk(t, k)
    {
      assert AvailOk(s, k);
      EnterPhase(s, r, a, s.posted[k], Avail(k));
    }
    forall k | t.acked <= k < |t.completed|
      ensures UsedOk(t, k)
    {
      assert UsedOk(s, k);
      EnterPhase(s, r, a, s.completed[k], InUsed(k));
    }
    forall d | d in t.device ensures InPhase(t, d, InDevice) { EnterPhase(s, r, a, d, InDevice); }
  }

  // posting

  lemma KeepsSlot(s: Sys, r: nat, a: Act)
    requires Inv(s) && r < |s.reqs| && Enabled(s, r, a) && a.Slot?
    ensures Inv(Next(s, r, a))
  {
    hide ThreeFree;
    var t, q := Next(s, r, a), s.reqs[r];
    assert ReqOk(s, r);
    FewWaiting(s, q.i);
    Wraps(|s.posted|, |s.posted|);
    forall x | 0 <= x < |t.reqs| ensures ReqOk(t, x) { assert ReqOk(s, x); }
    forall d | 0 <= d < NUM ensures DescOk(t, d) { assert DescOk(s, d); }
    forall k | t.taken <= k < |t.posted| ensures AvailOk(t, k) {
      assert AvailOk(s, k);
      Wraps(k, |s.posted|);
    }
    forall k | t.acked <= k < |t.completed| ensures UsedOk(t, k) { assert UsedOk(s, k); }
  }

  lemma KeepsPublish(s: Sys, r: nat, a: Act)
    requires Inv(s) && r < |s.reqs| && Enabled(s, r, a) && a.Publish?
    ensures Inv(Next(s, r, a))
  {
    hide ThreeFree;
    var t := Next(s, r, a);
    assert ReqOk(s, r);
    Wraps(|s.posted|, |s.posted|);
    forall x | 0 <= x < |t.reqs| ensures ReqOk(t, x) { assert ReqOk(s, x); }
    forall d | 0 <= d < NUM ensures DescOk(t, d) { assert DescOk(s, d); }
    forall k | t.taken <= k < |t.posted| ensures AvailOk(t, k) {
      if k < |s.posted| { assert AvailOk(s, k); }
    }
    forall k | t.acked <= k < |t.completed| ensures UsedOk(t, k) { assert UsedOk(s, k); }
  }

  // free_chain

  lemma FinishReq(s: Sys, r: nat, a: Act, x: nat)
    requires Inv(s) && r < |s.reqs| && Enabled(s, r, a) && a.Finish? && !Panics(s, r, a) && x < |s.reqs|
    ensures Shape(Next(s, r, a)) && |Next(s, r, a).reqs| == |s.reqs| && ReqOk(Next(s, r, a), x)
  {
    hide Inv, ThreeFree;
    Know(s, x, 0);
    Know(s, r, 0);
  }

  lemma FinishDesc(s: Sys, r: nat, a: Act, d: nat)
    requires Inv(s) && r < |s.reqs| && Enabled(s, r, a) && a.Finish? && !Panics(s, r, a) && d < NUM
    ensures Shape(Next(s, r, a)) && DescOk(Next(s, r, a), d)
  {
    hide Inv, ThreeFree;
    Know(s, r, d);
    Know(s, s.owner[d], 0);
  }

  lemma FinishPhase(s: Sys, r: nat, a: Act, d: nat, phase: Phase)
    requires Inv(s) && r < |s.reqs| && Enabled(s, r, a) && a.Finish? && !Panics(s, r, a) && InPhase(s, d, phase)
    requires phase != Acked
    ensures Shape(Next(s, r, a)) && InPhase(Next(s, r, a), d, phase)
  {
    hide Inv, ThreeFree;
    Know(s, r, d);
  }

  lemma KeepsFinish(s: Sys, r: nat, a: Act)
    requires Inv(s) && r < |s.reqs| && Enabled(s, r, a) && a.Finish? && !Panics(s, r, a)
    ensures Inv(Next(s, r, a))
  {
    hide ReqOk, DescOk, InPhase, ThreeFree;
    var t := Next(s, r, a);
    forall x: nat | x < |t.reqs| ensures ReqOk(t, x) { FinishReq(s, r, a, x); }
    forall d: nat | d < NUM ensures DescOk(t, d) { FinishDesc(s, r, a, d); }
    forall k | t.taken <= k < |t.posted|
      ensures AvailOk(t, k)
    {
      assert AvailOk(s, k);
      FinishPhase(s, r, a, s.posted[k], Avail(k));
    }
    forall k | t.acked <= k < |t.completed|
      ensures UsedOk(t, k)
    {
      assert UsedOk(s, k);
      FinishPhase(s, r, a, s.completed[k], InUsed(k));
    }
    forall d | d in t.device ensures InPhase(t, d, InDevice) { FinishPhase(s, r, a, d, InDevice); }
  }

  // the device

  /** What the device takes is the oldest posted chain it has not taken. */
  lemma TakesOldest(s: Sys)
    requires Inv(s) && s.lastAvail != s.availIdx
    ensures s.taken < |s.posted| && NextAvail(s) == s.posted[s.taken] && InPhase(s, s.posted[s.taken], Avail(s.taken))
  {
    hide ReqOk, DescOk;
    FewWaiting(s, 0);
    Wraps(s.taken, |s.posted|);
    assert AvailOk(s, s.taken);
  }

  lemma TakesReq(s: Sys, r: nat, a: Act, x: nat)
    requires Inv(s) && r < |s.reqs| && Enabled(s, r, a) && a.DeviceTakes? && x < |s.reqs|
    ensures Shape(Next(s, r, a)) && ReqOk(Next(s, r, a), x)
  {
    hide Inv, ThreeFree, Chain;
    TakesOldest(s);
    Wraps(s.taken, s.taken);
    Know(s, x, s.posted[s.taken]);
    Know(s, s.owner[s.posted[s.taken]], 0);
  }

  lemma TakesDesc(s: Sys, r: nat, a: Act, d: nat)
    requires Inv(s) && r < |s.reqs| && Enabled(s, r, a) && a.DeviceTakes? && d < NUM
    ensures Shape(Next(s, r, a)) && DescOk(Next(s, r, a), d)
  {
    hide Inv, ThreeFree, Chain, ReqOk;
    TakesOldest(s);
    Know(s, 0, d);
    var t := Next(s, r, a);
    assert t.free == s.free && t.owner == s.owner;
  }

  lemma KeepsTakes(s: Sys, r: nat, a: Act)
    requires Inv(s) && r < |s.reqs| && Enabled(s, r, a) && a.DeviceTakes?
    ensures Inv(Next(s, r, a))
  {
    hide ThreeFree, Chain, ReqOk, DescOk;
    var t := Next(s, r, a);
    TakesOldest(s);
    Wraps(s.taken, s.taken);
    forall x: nat | x < |t.reqs| ensures ReqOk(t, x) { TakesReq(s, r, a, x); }
    forall d: nat | d < NUM ensures DescOk(t, d) { TakesDesc(s, r, a, d); }
    forall k | t.taken <= k < |t.posted| ensures AvailOk(t, k) { assert AvailOk(s, k); }
    forall k | t.acked <= k < |t.completed| ensures UsedOk(t, k) { assert UsedOk(s, k); }
  }

  lemma CompletesReq(s: Sys, r: nat, a: Act, x: nat)
    requires Inv(s) && r < |s.reqs| && Enabled(s, r, a) && a.DeviceCompletes? && x < |s.reqs|
    requires InPhase(s, a.d, InDevice)
    ensures Shape(Next(s, r, a)) && ReqOk(Next(s, r, a), x)
  {
    hide Inv, ThreeFree;
    Wraps(|s.completed|, |s.completed|);
    Know(s, x, a.d);
    Know(s, s.owner[a.d], 0);
  }

  lemma KeepsCompletes(s: Sys, r: nat, a: Act)
    requires Inv(s) && r < |s.reqs| && Enabled(s, r, a) && a.DeviceCompletes?
    ensures Inv(Next(s, r, a))
  {
    hide ThreeFree, ReqOk;
    var t := Next(s, r, a);
    assert InPhase(s, a.d, InDevice);
    FewWaiting(s, a.d);
    Wraps(|s.completed|, |s.completed|);
    assert DescOk(s, a.d);
    forall x: nat | x < |t.reqs| ensures ReqOk(t, x) { CompletesReq(s, r, a, x); }
    forall d | 0 <= d < NUM ensures DescOk(t, d) { assert DescOk(s, d); }
    forall k | t.taken <= k < |t.posted| ensures AvailOk(t, k) { assert AvailOk(s, k); }
    forall k | t.acked <= k < |t.completed| ensures UsedOk(t, k) {
      if k < |s.completed| {
        assert UsedOk(s, k);
        Wraps(k, |s.completed|);
      }
    }
  }

  // the handler

  /** What the handler sees is the oldest completed chain it has not seen, and the
      buffer recorded for it is that of the request that posted it. */
  lemma SeesOldest(s: Sys)
    requires Inv(s) && s.seenIdx != s.usedIdx
    ensures s.acked < |s.completed| && NextUsed(s) == s.completed[s.acked]
    ensures InPhase(s, s.completed[s.acked], InUsed(s.acked))
    ensures var d := NextUsed(s);
            && d < NUM && s.status[d] == 0 && 0 <= s.buf[d] < |s.reqs| && s.buf[d] == s.owner[d]
            && Live(s.reqs[s.buf[d]]) && s.reqs[s.buf[d]].i == d && s.reqs[s.buf[d]].disk
  {
    FewWaiting(s, 0);
    Wraps(s.acked, |s.completed|);
    assert UsedOk(s, s.acked);
    var d := s.completed[s.acked];
    assert DescOk(s, d) && ReqOk(s, s.owner[d]);
  }

  lemma SeesReq(s: Sys, r: nat, a: Act, x: nat)
    requires Inv(s) && r < |s.reqs| && Enabled(s, r, a) && a.HandlerSees? && !Panics(s, r, a) && x < |s.reqs|
    ensures Shape(Next(s, r, a)) && ReqOk(Next(s, r, a), x)
  {
    hide Inv, ThreeFree, Chain;
    SeesOldest(s);
    Wraps(s.acked, s.acked);
    Know(s, x, 0);
    Know(s, s.buf[NextUsed(s)], 0);
  }

  lemma SeesDesc(s: Sys, r: nat, a: Act, d: nat)
    requires Inv(s) && r < |s.reqs| && Enabled(s, r, a) && a.HandlerSees? && !Panics(s, r, a) && d < NUM
    ensures Shape(Next(s, r, a)) && DescOk(Next(s, r, a), d)
  {
    hide Inv, ThreeFree, Chain, ReqOk, InPhase;
    SeesOldest(s);
    Know(s, 0, d);
    var t := Next(s, r, a);
    assert t.free == s.free && t.owner == s.owner;
  }

  lemma KeepsSees(s: Sys, r: nat, a: Act)
    requires Inv(s) && r < |s.reqs| && Enabled(s, r, a) && a.HandlerSees? && !Panics(s, r, a)
    ensures Inv(Next(s, r, a))
  {
    hide ThreeFree, Chain, ReqOk, DescOk;
    var t := Next(s, r, a);
    SeesOldest(s);
    Wraps(s.acked, s.acked);
    forall x: nat | x < |t.reqs| ensures ReqOk(t, x) { SeesReq(s, r, a, x); }
    forall d: nat | d < NUM ensures DescOk(t, d) { SeesDesc(s, r, a, d); }
    forall k | t.taken <= k < |t.posted| ensures AvailOk(t, k) { assert AvailOk(s, k); }
    forall k | t.acked <= k < |t.completed| ensures UsedOk(t, k) { assert UsedOk(s, k); }
  }

  // ---- whole runs

  ghost predicate Start(s: Sys) {
    && |s.free| == |s.desc| == |s.buf| == |s.status| == |s.ring| == |s.used| == |s.owner| == NUM && s.lock == NONE
    && s.availIdx == s.lastAvail == s.usedIdx == s.seenIdx == 0 && s.posted == [] && s.completed == []
    && s.taken == s.acked == 0
    && s.device == {} && (forall d :: 0 <= d < NUM ==> s.free[d] && s.owner[d] == NONE)
    && forall r :: 0 <= r < |s.reqs| ==> s.reqs[r].pc == Want
  }

  lemma StartInv(s: Sys)
    requires Start(s)
    ensures Inv(s)
  {
  }

  /** The interrupt handler's status panic, free_desc's panics and a used entry with
      no buffer cannot happen. */
  lemma NeverPanics(s: Sys, r: nat, a: Act)
    requires Inv(s) && r < |s.reqs| && Enabled(s, r, a)
    ensures !Panics(s, r, a)
  {
    hide ThreeFree, Chain;
    assert ReqOk(s, r);
    if a.HandlerSees? { SeesOldest(s); }
  }

  lemma StepInv(s: Sys, r: nat, a: Act)
    requires Inv(s) && r < |s.reqs| && Enabled(s, r, a)
    ensures !Panics(s, r, a) && Inv(Next(s, r, a))
  {
    hide Inv, Next, Enabled, Panics;
    NeverPanics(s, r, a);
    match a
    case Enter(_, _, _) => KeepsEnter(s, r, a);
    case Slot => KeepsSlot(s, r, a);
    case Publish => KeepsPublish(s, r, a);
    case Finish => KeepsFinish(s, r, a);
    case DeviceTakes => KeepsTakes(s, r, a);
    case DeviceCompletes(_) => KeepsCompletes(s, r, a);
    case HandlerSees => KeepsSees(s, r, a);
    case _ => KeepsSimple(s, r, a);
  }

  datatype Move = Move(r: nat, a: Act)

  ghost predicate Takes(s: Sys, m: Move, t: Sys) {
    Shape(s) && m.r < |s.reqs| && Enabled(s, m.r, m.a) && !Panics(s, m.r, m.a) && t == Next(s, m.r, m.a)
  }

  ghost predicate Execution(moves: seq<Move>, states: seq<Sys>) {
    && |states| == |moves| + 1 && Start(states[0])
    && forall j :: 0 <= j < |moves| ==> Takes(states[j], moves[j], states[j + 1])
  }

  lemma {:induction false} RunInv(moves: seq<Move>, states: seq<Sys>, n: nat)
    requires Execution(moves, states) && n < |states|
    ensures Inv(states[n])
  {
    hide Inv, Next, Enabled, Panics, Start;
    if n == 0 {
      StartInv(states[0]);
    } else {
      RunInv(moves, states, n - 1);
      assert Takes(states[n - 1], moves[n - 1], states[n - 1 + 1]);
      StepInv(states[n - 1], moves[n - 1].r, moves[n - 1].a);
    }
  }

  /** In no run can the next step be one of the panics. */
  lemma RunNeverPanics(moves: seq<Move>, states: seq<Sys>, n: nat, r: nat, a: Act)
    requires Execution(moves, states) && n < |states| && r < |states[n].reqs| && Shape(states[n])
    requires Enabled(states[n], r, a)
    ensures !Panics(states[n], r, a)
  {
    hide Execution, Inv, Enabled, Panics;
    RunInv(moves, states, n);
    NeverPanics(states[n], r, a);
  }

  /** Every descriptor is free or in exactly one live request's chain of three. */
  lemma DescriptorsPartition(moves: seq<Move>, states: seq<Sys>, n: nat, d: nat)
    requires Execution(moves, states) && n < |states| && d < NUM
    ensures var s := states[n];
            && |s.free| == NUM
            && (s.free[d] <==> forall r :: 0 <= r < |s.reqs| ==> !HasDesc(s.reqs[r], d))
            && (forall r, q ::
                  0 <= r < |s.reqs| && 0 <= q < |s.reqs| && HasDesc(s.reqs[r], d) && HasDesc(s.reqs[q], d) ==> r == q)
  {
    hide Execution, ThreeFree;
    RunInv(moves, states, n);
    var s := states[n];
    assert DescOk(s, d);
    forall r | 0 <= r < |s.reqs| && Live(s.reqs[r]) && InChain(s.reqs[r], d)
      ensures s.owner[d] == r && !s.free[d]
    {
      assert ReqOk(s, r);
    }
  }

  /** A slot of the available ring is written only when the device has taken what
      was in it: the entries it has not taken are all still there afterwards. */
  lemma AvailNeverOverwritten(moves: seq<Move>, states: seq<Sys>, n: nat, k: nat)
    requires Execution(moves, states) && n < |states| && states[n].taken <= k < |states[n].posted|
    ensures |states[n].ring| == NUM && states[n].ring[k % NUM] == states[n].posted[k]
    ensures |states[n].posted| - states[n].taken <= NUM
  {
    hide Execution, ReqOk, DescOk;
    RunInv(moves, states, n);
    FewWaiting(states[n], 0);
    assert AvailOk(states[n], k);
  }

  /** Each used entry the handler has yet to see belongs to the one live request
      whose chain it names, which still waits for it. */
  lemma UsedEntryIsLive(moves: seq<Move>, states: seq<Sys>, n: nat, k: nat)
    requires Execution(moves, states) && n < |states| && states[n].acked <= k < |states[n].completed|
    ensures var s := states[n];
            && |s.used| == |s.buf| == |s.status| == NUM && s.used[k % NUM] == s.completed[k] < NUM
            && s.status[s.completed[k]] == 0
            && 0 <= s.buf[s.completed[k]] < |s.reqs|
            && var q := s.reqs[s.buf[s.completed[k]]];
               Live(q) && q.i == s.completed[k] && q.disk && q.phase == InUsed(k)
  {
    hide Execution, ThreeFree;
    RunInv(moves, states, n);
    var s := states[n];
    assert UsedOk(s, k);
    var d := s.completed[k];
    assert DescOk(s, d) && ReqOk(s, s.owner[d]);
  }

  /** With the lock free, nobody waits for descriptors while three are free, and
      nobody waits for a buffer the disk is done with. */
  lemma NobodySleepsNeedlessly(moves: seq<Move>, states: seq<Sys>, n: nat, r: nat)
    requires Execution(moves, states) && n < |states| && r < |states[n].reqs|
    ensures |states[n].free| == NUM && (states[n].reqs[r].pc == AsleepFree ==> !ThreeFree(states[n].free))
    ensures states[n].reqs[r].pc == Asleep ==> states[n].reqs[r].disk
  {
    hide Execution, ThreeFree, Chain;
    RunInv(moves, states, n);
    assert ReqOk(states[n], r);
  }
}
