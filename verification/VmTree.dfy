/** Sv39 page tables (section 4.4 of the RISC-V Privileged Architecture, version
    20211203) as kernel/vm.c builds them: three levels of 512-entry tables, pages
    named by physical page number, and who owns each page. */
module VmTree {
  import opened Base
  // ---- page table entries

  const PTE_V: bv10 := 1
  const PTE_R: bv10 := 2
  const PTE_W: bv10 := 4
  const PTE_X: bv10 := 8
  const PTE_U: bv10 := 16

  /** An entry: what PTE2PA and PTE_FLAGS extract from the 64-bit word. */
  datatype Pte = Pte(ppn: nat, flags: bv10)

  const ZERO := Pte(0, 0)

  predicate Valid(e: Pte) { e.flags & PTE_V != 0 }

  predicate IsLeaf(e: Pte) { e.flags & (PTE_R | PTE_W | PTE_X) != 0 }

  predicate User(e: Pte) { e.flags & PTE_U != 0 }

  predicate Writable(e: Pte) { e.flags & PTE_W != 0 }

  predicate CanRead(e: Pte) { e.flags & PTE_R != 0 }

  // The words themselves.

  function Pa2Pte(pa: bv64): bv64 { (pa >> 12) << 10 }

  function Pte2Pa(w: bv64): bv64 { (w >> 10) << 12 }

  function PteFlags(w: bv64): bv64 { w & 0x3FF }

  /** mappages' word gives back the aligned address and the permissions it was
      made from. */
  lemma PteRoundTrip(pa: bv64, perm: bv64)
    requires pa & 0xFFF == 0 && pa < 0x0100_0000_0000_0000 && perm < 0x400
    ensures Pte2Pa(Pa2Pte(pa) | perm | 1) == pa
    ensures PteFlags(Pa2Pte(pa) | perm | 1) == perm | 1
  {
  }

  // ---- the tree

  const NPTE := 512
  const VPNS := NPTE * NPTE * NPTE

  /** Free pages in list order, the table pages, and each address space's root. */
  datatype Mem = Mem(free: seq<nat>, tables: map<nat, seq<Pte>>, roots: map<nat, nat>)

  /** What a page is for: in the hands of running code, the table at some place of
      address space id, or the page mapped at virtual page v. */
  datatype Use = Hand | Root(id: nat) | Mid(id: nat, i2: nat) | Low(id: nat, i2: nat, i1: nat) | Leaf(id: nat, v: nat)

  predicate Place(w: Use) {
    match w
    case Hand => false
    case Root(_) => true
    case Mid(_, i2) => i2 < NPTE
    case Low(_, i2, i1) => i2 < NPTE && i1 < NPTE
    case Leaf(_, v) => v < VPNS
  }

  predicate IsTable(w: Use) { w.Root? || w.Mid? || w.Low? }

  function Height(w: Use): nat {
    match w
    case Hand => 0
    case Root(_) => 3
    case Mid(_, _) => 2
    case Low(_, _, _) => 1
    case Leaf(_, _) => 0
  }

  /** The table that lists w, and where in it: PX(level, va). */
  function Above(w: Use): (u: Use)
    requires Place(w) && !w.Root?
    ensures Place(u) && IsTable(u) && Height(u) == Height(w) + 1
  {
    match w
    case Mid(id, _) => Root(id)
    case Low(id, i2, _) => Mid(id, i2)
    case Leaf(id, v) => Low(id, v / NPTE / NPTE, v / NPTE % NPTE)
  }

  function Index(w: Use): (i: nat)
    requires Place(w) && !w.Root?
    ensures i < NPTE
  {
    match w
    case Mid(_, i2) => i2
    case Low(_, _, i1) => i1
    case Leaf(_, v) => v % NPTE
  }

  lemma PlacesDiffer(w: Use, u: Use)
    requires Place(w) && Place(u) && !w.Root? && !u.Root? && Above(w) == Above(u) && Index(w) == Index(u)
    ensures w == u
  {
    if w.Leaf? {
      assert w.v == (w.v / NPTE / NPTE * NPTE + w.v / NPTE % NPTE) * NPTE + w.v % NPTE;
      assert u.v == (u.v / NPTE / NPTE * NPTE + u.v / NPTE % NPTE) * NPTE + u.v % NPTE;
    }
  }

  function Entry(m: Mem, p: nat, i: nat): Pte {
    if p in m.tables && i < |m.tables[p]| then m.tables[p][i] else ZERO
  }

  /** The entry for w, ZERO if the tables above it are missing. */
  function At(m: Mem, w: Use): Pte
    requires Place(w)
    decreases 3 - Height(w)
  {
    if w.Root? then if w.id in m.roots then Pte(m.roots[w.id], PTE_V) else ZERO
    else if Valid(At(m, Above(w))) then Entry(m, At(m, Above(w)).ppn, Index(w))
    else ZERO
  }

  /** What is mapped for user code, user code can read. */
  ghost predicate UserReadable(m: Mem) {
    forall w :: Place(w) && w.Leaf? && Valid(At(m, w)) && User(At(m, w)) ==> CanRead(At(m, w))
  }

  // ---- ownership

  /** Pages lo..hi are the allocator's; virtual pages below top hold user memory,
      those from top on are the trapframe and trampoline, owned elsewhere and not
      for user code. */
  datatype Layout = Layout(lo: nat, hi: nat, top: nat)

  ghost predicate PlaceOk(m: Mem, use: map<nat, Use>, g: Layout, w: Use)
    requires Place(w)
  {
    var e := At(m, w);
    if !Valid(e) then e == ZERO
    else
      && (IsTable(w) ==> e.ppn in m.tables && |m.tables[e.ppn]| == NPTE && e.flags == PTE_V)
      && (w.Leaf? ==> IsLeaf(e) && (w.v >= g.top ==> !User(e)))
      && (!(w.Leaf? && w.v >= g.top) ==> e.ppn in use && use[e.ppn] == w)
  }

  ghost predicate PageOk(m: Mem, use: map<nat, Use>, g: Layout, p: nat) {
    && (p in use <==> g.lo <= p < g.hi && p !in m.free)
    && (p in m.tables <==> p in use && IsTable(use[p]))
    && (p in use && use[p] != Hand ==>
          Place(use[p]) && Valid(At(m, use[p])) && At(m, use[p]).ppn == p && (use[p].Leaf? ==> use[p].v < g.top))
  }

  /** Every page is in exactly one of the free list, one table of one address space,
      one user mapping, or somebody's hands. */
  ghost predicate Inv(g: Layout, m: Mem, use: map<nat, Use>) {
    && 0 < g.lo && Distinct(m.free) && (forall i :: 0 <= i < |m.free| ==> g.lo <= m.free[i] < g.hi)
    && (forall w :: Place(w) ==> PlaceOk(m, use, g, w))
    && (forall p :: PageOk(m, use, g, p))
  }

  lemma Know(g: Layout, m: Mem, use: map<nat, Use>, w: Use, p: nat)
    requires Inv(g, m, use)
    ensures Place(w) ==> PlaceOk(m, use, g, w)
    ensures PageOk(m, use, g, p)
  {
  }

  // ---- writing one entry

  function SetEntry(m: Mem, q: nat, i: nat, e: Pte): Mem
    requires q in m.tables && i < |m.tables[q]|
  {
    m.(tables := m.tables[q := m.tables[q][i := e]])
  }

  /** The path to w reads entry i of table u. */
  predicate Through(w: Use, u: Use, i: nat)
    requires Place(w)
    decreases 3 - Height(w)
  {
    !w.Root? && ((Above(w) == u && Index(w) == i) || Through(Above(w), u, i))
  }

  /** Writing entry i of table u changes that entry and nothing that is not reached
      through it. */
  lemma {:induction false} SetEntryAt(g: Layout, m: Mem, use: map<nat, Use>, q: nat, i: nat, e: Pte, w: Use)
    requires Inv(g, m, use) && Place(w) && q in m.tables && q in use && i < |m.tables[q]|
    ensures !Through(w, use[q], i) ==> At(SetEntry(m, q, i, e), w) == At(m, w)
    ensures !w.Root? && Above(w) == use[q] && Index(w) == i ==> At(SetEntry(m, q, i, e), w) == e
    decreases 3 - Height(w)
  {
    hide Inv, Valid;
    Know(g, m, use, w, q);
    if !w.Root? {
      SetEntryAt(g, m, use, q, i, e, Above(w));
      Know(g, m, use, Above(w), q);
      Itself(Above(w), use[q], i);
    }
  }

  /** A table is not reached through itself. */
  lemma {:induction false} Itself(w: Use, u: Use, i: nat)
    requires Place(w)
    ensures Height(u) <= Height(w) ==> !Through(w, u, i)
    decreases 3 - Height(w)
  {
    if !w.Root? {
      Itself(Above(w), u, i);
    }
  }

  function ZeroTable(): seq<Pte> {
    seq(NPTE, _ => ZERO)
  }

  /** walk's new table page: p, all zero, entered at entry i of q. */
  function Link(m: Mem, q: nat, i: nat, p: nat): Mem
    requires q in m.tables && i < |m.tables[q]|
  {
    m.(tables := m.tables[q := m.tables[q][i := Pte(p, PTE_V)]][p := ZeroTable()])
  }

  lemma {:induction false} LinkAt(g: Layout, m: Mem, use: map<nat, Use>, w: Use, q: nat, p: nat, x: Use)
    requires Inv(g, m, use) && Place(w) && (w.Mid? || w.Low?) && Place(x)
    requires Valid(At(m, Above(w))) && At(m, Above(w)).ppn == q && !Valid(At(m, w)) && p in use && use[p] == Hand
    ensures q in m.tables && |m.tables[q]| == NPTE && q in use && use[q] == Above(w)
    ensures At(Link(m, q, Index(w), p), x) == if x == w then Pte(p, PTE_V) else At(m, x)
    decreases 3 - Height(x)
  {
    hide Inv;
    Know(g, m, use, Above(w), p);
    if !x.Root? {
      LinkAt(g, m, use, w, q, p, Above(x));
      Know(g, m, use, Above(x), p);
      if x != w && Above(x) == Above(w) && Index(x) == Index(w) { PlacesDiffer(x, w); }
    }
  }

  lemma LinkInv(g: Layout, m: Mem, use: map<nat, Use>, w: Use, q: nat, p: nat)
    requires Inv(g, m, use) && Place(w) && (w.Mid? || w.Low?)
    requires Valid(At(m, Above(w))) && At(m, Above(w)).ppn == q && !Valid(At(m, w)) && p in use && use[p] == Hand
    ensures q in m.tables && |m.tables[q]| == NPTE
    ensures Inv(g, Link(m, q, Index(w), p), use[p := w])
  {
    hide At, ZeroTable;
    LinkAt(g, m, use, w, q, p, w);
    var m', use' := Link(m, q, Index(w), p), use[p := w];
    forall x | Place(x) ensures PlaceOk(m', use', g, x) {
      LinkAt(g, m, use, w, q, p, x);
      assert PlaceOk(m, use, g, x);
      ZeroLength();
    }
    forall r: nat ensures PageOk(m', use', g, r) {
      assert PageOk(m, use, g, r);
      if r in use && use[r] != Hand { LinkAt(g, m, use, w, q, p, use[r]); }
    }
  }

  lemma ZeroLength()
    ensures |ZeroTable()| == NPTE
  {
  }

  // ---- leaves

  /** Writing a leaf changes that translation only. */
  lemma LeafAt(g: Layout, m: Mem, use: map<nat, Use>, w: Use, q: nat, e: Pte, x: Use)
    requires Inv(g, m, use) && Place(w) && w.Leaf? && Place(x) && Valid(At(m, Above(w))) && At(m, Above(w)).ppn == q
    ensures q in m.tables && |m.tables[q]| == NPTE
    ensures At(SetEntry(m, q, Index(w), e), x) == if x == w then e else At(m, x)
  {
    hide Inv, At;
    Know(g, m, use, Above(w), q);
    SetEntryAt(g, m, use, q, Index(w), e, x);
    if x != w && Through(x, Above(w), Index(w)) {
      LeafThrough(x, w);
    }
  }

  lemma LeafThrough(x: Use, w: Use)
    requires Place(x) && Place(w) && w.Leaf? && Through(x, Above(w), Index(w))
    ensures x == w
  {
    Itself(Above(x), Above(w), Index(w));
    PlacesDiffer(x, w);
  }

  /** Mapping page p, until now in hand, or clearing a mapping, whose page is then
      in hand again. */
  lemma MapInv(g: Layout, m: Mem, use: map<nat, Use>, w: Use, q: nat, e: Pte)
    requires Inv(g, m, use) && Place(w) && w.Leaf? && Valid(At(m, Above(w))) && At(m, Above(w)).ppn == q
    requires !Valid(At(m, w))
    requires Valid(e) && IsLeaf(e) && (w.v < g.top ==> e.ppn in use && use[e.ppn] == Hand)
    requires w.v >= g.top ==> !User(e)
    ensures q in m.tables && |m.tables[q]| == NPTE
    ensures Inv(g, SetEntry(m, q, Index(w), e), if w.v < g.top then use[e.ppn := w] else use)
  {
    hide At;
    LeafAt(g, m, use, w, q, e, w);
    var m', use' := SetEntry(m, q, Index(w), e), if w.v < g.top then use[e.ppn := w] else use;
    forall x | Place(x) ensures PlaceOk(m', use', g, x) {
      LeafAt(g, m, use, w, q, e, x);
      assert PlaceOk(m, use, g, x);
    }
    forall r: nat ensures PageOk(m', use', g, r) {
      assert PageOk(m, use, g, r);
      if r in use && use[r] != Hand { LeafAt(g, m, use, w, q, e, use[r]); }
    }
  }

  lemma UnmapInv(g: Layout, m: Mem, use: map<nat, Use>, w: Use, q: nat)
    requires Inv(g, m, use) && Place(w) && w.Leaf? && Valid(At(m, Above(w))) && At(m, Above(w)).ppn == q
    requires Valid(At(m, w))
    ensures q in m.tables && |m.tables[q]| == NPTE && (w.v < g.top ==> At(m, w).ppn in use && use[At(m, w).ppn] == w)
    ensures Inv(g, SetEntry(m, q, Index(w), ZERO), if w.v < g.top then use[At(m, w).ppn := Hand] else use)
  {
    hide At;
    LeafAt(g, m, use, w, q, ZERO, w);
    assert PlaceOk(m, use, g, w);
    var m', use' := SetEntry(m, q, Index(w), ZERO), if w.v < g.top then use[At(m, w).ppn := Hand] else use;
    forall x | Place(x) ensures PlaceOk(m', use', g, x) {
      LeafAt(g, m, use, w, q, ZERO, x);
      assert PlaceOk(m, use, g, x);
    }
    forall r: nat ensures PageOk(m', use', g, r) {
      assert PageOk(m, use, g, r);
      if r in use && use[r] != Hand { LeafAt(g, m, use, w, q, ZERO, use[r]); }
    }
  }

  // ---- the page allocator

  lemma AtTables(m: Mem, n: Mem, w: Use)
    requires Place(w) && n.tables == m.tables && n.roots == m.roots
    ensures At(n, w) == At(m, w)
    decreases 3 - Height(w)
  {
    if !w.Root? { AtTables(m, n, Above(w)); }
  }

  lemma FreeListReadable(m: Mem, free: seq<nat>)
    ensures UserReadable(m) <==> UserReadable(m.(free := free))
  {
    hide At;
    var n := m.(free := free);
    forall w | Place(w) ensures At(n, w) == At(m, w) { AtTables(m, n, w); }
  }

  /** kalloc: the first page of the list comes into the caller's hands. */
  lemma TakeInv(g: Layout, m: Mem, use: map<nat, Use>)
    requires Inv(g, m, use) && m.free != []
    ensures Inv(g, m.(free := m.free[1..]), use[m.free[0] := Hand])
    ensures m.free[0] !in use && 0 < m.free[0]
  {
    hide At;
    var p, m', use' := m.free[0], m.(free := m.free[1..]), use[m.free[0] := Hand];
    assert PageOk(m, use, g, p);
    forall x | Place(x) ensures PlaceOk(m', use', g, x) {
      assert PlaceOk(m, use, g, x);
      AtTables(m, m', x);
    }
    forall r: nat ensures PageOk(m', use', g, r) {
      assert PageOk(m, use, g, r);
      TailHas(m.free, r);
      if r in use && use[r] != Hand { AtTables(m, m', use[r]); }
    }
  }

  lemma TailHas(s: seq<nat>, r: nat)
    requires s != [] && Distinct(s)
    ensures r in s[1..] <==> r in s && r != s[0]
  {
    assert s == [s[0]] + s[1..];
  }

  /** kfree: a page in hand goes to the front of the list. */
  lemma GiveInv(g: Layout, m: Mem, use: map<nat, Use>, p: nat)
    requires Inv(g, m, use) && p in use && use[p] == Hand
    ensures g.lo <= p < g.hi && Inv(g, m.(free := [p] + m.free), use - {p})
  {
    hide At;
    var m', use' := m.(free := [p] + m.free), use - {p};
    assert PageOk(m, use, g, p);
    forall x | Place(x) ensures PlaceOk(m', use', g, x) {
      assert PlaceOk(m, use, g, x);
      AtTables(m, m', x);
    }
    forall r: nat ensures PageOk(m', use', g, r) {
      assert PageOk(m, use, g, r);
      if r in use && use[r] != Hand { AtTables(m, m', use[r]); }
    }
  }

  // ---- taking tables down

  /** Table page p, empty, leaves its place w. */
  function Unlink(m: Mem, q: nat, i: nat, p: nat): Mem
    requires q in m.tables && i < |m.tables[q]|
  {
    m.(tables := m.tables[q := m.tables[q][i := ZERO]] - {p})
  }

  ghost predicate Empty(t: seq<Pte>) {
    forall i :: 0 <= i < |t| ==> t[i] == ZERO
  }

  lemma {:induction false} UnlinkAt(g: Layout, m: Mem, use: map<nat, Use>, w: Use, q: nat, p: nat, x: Use)
    requires Inv(g, m, use) && Place(w) && (w.Mid? || w.Low?) && Place(x)
    requires Valid(At(m, Above(w))) && At(m, Above(w)).ppn == q && At(m, w) == Pte(p, PTE_V) && p in m.tables
    requires Empty(m.tables[p])
    ensures q in m.tables && |m.tables[q]| == NPTE && q in use && use[q] == Above(w) && p in use && use[p] == w
    ensures At(Unlink(m, q, Index(w), p), x) == if x == w then ZERO else At(m, x)
    decreases 3 - Height(x)
  {
    hide Inv;
    Know(g, m, use, Above(w), p);
    Know(g, m, use, w, q);
    if !x.Root? {
      UnlinkAt(g, m, use, w, q, p, Above(x));
      Know(g, m, use, Above(x), p);
      if x != w && Above(x) == Above(w) && Index(x) == Index(w) { PlacesDiffer(x, w); }
    }
  }

  lemma UnlinkInv(g: Layout, m: Mem, use: map<nat, Use>, w: Use, q: nat, p: nat)
    requires Inv(g, m, use) && Place(w) && (w.Mid? || w.Low?)
    requires Valid(At(m, Above(w))) && At(m, Above(w)).ppn == q && At(m, w) == Pte(p, PTE_V) && p in m.tables
    requires Empty(m.tables[p])
    ensures q in m.tables && |m.tables[q]| == NPTE && p in use && use[p] == w
    ensures Inv(g, Unlink(m, q, Index(w), p), use[p := Hand])
  {
    hide At;
    UnlinkAt(g, m, use, w, q, p, w);
    var m', use' := Unlink(m, q, Index(w), p), use[p := Hand];
    forall x | Place(x) ensures PlaceOk(m', use', g, x) {
      UnlinkAt(g, m, use, w, q, p, x);
      assert PlaceOk(m, use, g, x);
    }
    forall r: nat ensures PageOk(m', use', g, r) {
      assert PageOk(m, use, g, r);
      if r in use && use[r] != Hand { UnlinkAt(g, m, use, w, q, p, use[r]); }
    }
  }

  /** A root, not listed in any table. */
  function WithRoot(m: Mem, id: nat, p: nat): Mem {
    m.(tables := m.tables[p := ZeroTable()], roots := m.roots[id := p])
  }

  function WithoutRoot(m: Mem, id: nat): Mem
    requires id in m.roots
  {
    m.(tables := m.tables - {m.roots[id]}, roots := m.roots - {id})
  }

  lemma {:induction false} WithRootAt(g: Layout, m: Mem, use: map<nat, Use>, id: nat, p: nat, x: Use)
    requires Inv(g, m, use) && Place(x) && id !in m.roots && p in use && use[p] == Hand
    ensures At(WithRoot(m, id, p), x) == if x == Root(id) then Pte(p, PTE_V) else At(m, x)
    decreases 3 - Height(x)
  {
    hide Inv;
    if !x.Root? {
      WithRootAt(g, m, use, id, p, Above(x));
      Know(g, m, use, Above(x), p);
    }
  }

  lemma WithRootInv(g: Layout, m: Mem, use: map<nat, Use>, id: nat, p: nat)
    requires Inv(g, m, use) && id !in m.roots && p in use && use[p] == Hand
    ensures Inv(g, WithRoot(m, id, p), use[p := Root(id)])
  {
    hide At, ZeroTable;
    var m', use' := WithRoot(m, id, p), use[p := Root(id)];
    ZeroLength();
    forall x | Place(x) ensures PlaceOk(m', use', g, x) {
      WithRootAt(g, m, use, id, p, x);
      assert PlaceOk(m, use, g, x);
    }
    forall r: nat ensures PageOk(m', use', g, r) {
      assert PageOk(m, use, g, r);
      WithRootAt(g, m, use, id, p, Root(id));
      NoRoot(m, id, Root(id));
      if r in use && use[r] != Hand { WithRootAt(g, m, use, id, p, use[r]); }
    }
  }

  /** Without a root nothing of the address space exists. */
  lemma {:induction false} NoRoot(m: Mem, id: nat, x: Use)
    requires Place(x) && x.id == id && id !in m.roots
    ensures At(m, x) == ZERO
    decreases 3 - Height(x)
  {
    if !x.Root? { NoRoot(m, id, Above(x)); }
  }

  lemma {:induction false} WithoutRootAt(g: Layout, m: Mem, use: map<nat, Use>, id: nat, x: Use)
    requires Inv(g, m, use) && Place(x) && id in m.roots && m.roots[id] in m.tables && Empty(m.tables[m.roots[id]])
    ensures At(WithoutRoot(m, id), x) == if x == Root(id) then ZERO else At(m, x)
    decreases 3 - Height(x)
  {
    hide Inv;
    Know(g, m, use, Root(id), 0);
    if !x.Root? {
      WithoutRootAt(g, m, use, id, Above(x));
      Know(g, m, use, Above(x), m.roots[id]);
    }
  }

  lemma WithoutRootInv(g: Layout, m: Mem, use: map<nat, Use>, id: nat)
    requires Inv(g, m, use) && id in m.roots && m.roots[id] in m.tables && Empty(m.tables[m.roots[id]])
    ensures m.roots[id] in use && use[m.roots[id]] == Root(id)
    ensures Inv(g, WithoutRoot(m, id), use[m.roots[id] := Hand])
  {
    hide At;
    RootAt(m, id);
    assert PlaceOk(m, use, g, Root(id));
    var m', use' := WithoutRoot(m, id), use[m.roots[id] := Hand];
    forall x | Place(x) ensures PlaceOk(m', use', g, x) {
      WithoutRootAt(g, m, use, id, x);
      assert PlaceOk(m, use, g, x);
    }
    forall r: nat ensures PageOk(m', use', g, r) {
      assert PageOk(m, use, g, r);
      if r in use && use[r] != Hand { WithoutRootAt(g, m, use, id, use[r]); }
    }
  }

  lemma RootAt(m: Mem, id: nat)
    requires id in m.roots
    ensures At(m, Root(id)) == Pte(m.roots[id], PTE_V) && Valid(At(m, Root(id)))
  {
  }
}
