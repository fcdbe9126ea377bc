/** The page allocator and the operations on address spaces: kernel/kalloc.c and
    kernel/vm.c. */
module Vm {
  import opened Base
  import opened VmTree

  const PGSIZE := 4096
  const MAXVPN := VPNS / 2     // MAXVA is one bit short of what Sv39 allows

  const TRAMPOLINE := MAXVPN - 1
  const TRAPFRAME := MAXVPN - 2


  /** A page with every byte c: what memset leaves. */
  function Filled(c: Byte): (d: seq<Byte>)
    ensures |d| == PGSIZE && forall i :: 0 <= i < PGSIZE ==> d[i] == c
  {
    seq(PGSIZE, _ => c)
  }

  /** The table of address space id that walk has reached at a level. */
  function TableAt(id: nat, v: nat, level: nat): (w: Use)
    requires v < VPNS && level <= 2
    ensures Place(w) && IsTable(w)
  {
    if level == 2 then Root(id)
    else if level == 1 then Mid(id, v / NPTE / NPTE)
    else Low(id, v / NPTE / NPTE, v / NPTE % NPTE)
  }

  /** PX(level, va), for virtual page v. */
  function Px(level: nat, v: nat): (i: nat)
    requires level <= 2
    ensures i < NPTE
  {
    if level == 2 then v / NPTE / NPTE % NPTE else if level == 1 then v / NPTE % NPTE else v % NPTE
  }

  lemma PxIndex(id: nat, v: nat, level: nat)
    requires v < VPNS && 0 < level <= 2
    ensures Above(TableAt(id, v, level - 1)) == TableAt(id, v, level)
    ensures Index(TableAt(id, v, level - 1)) == Px(level, v)
  {
  }

  /** Memory, what each page is for, and page contents. */
  datatype World = World(m: Mem, use: map<nat, Use>, data: map<nat, seq<Byte>>)

  predicate TableOf(u: Use, id: nat) { IsTable(u) && u.id == id }

  /** What walk may do: add table pages.  No translation changes, no page that had a
      use loses it, and no such page's contents change; id gets the new pages. */
  ghost predicate OnlyTables(id: nat, a: World, b: World) {
    && b.m.roots == a.m.roots && (forall w :: Place(w) && w.Leaf? ==> At(b.m, w) == At(a.m, w))
    && (forall p :: p in a.use ==>
          p in b.use && b.use[p] == a.use[p] && p in a.data && p in b.data && b.data[p] == a.data[p])
    && (forall p :: p in b.use && p !in a.use ==> TableOf(b.use[p], id))
  }

  lemma OnlyTablesTaken(id: nat, a: World, b: World, p: nat, d: seq<Byte>)
    requires OnlyTables(id, a, b) && p !in b.use && b.m.free != []
    ensures OnlyTables(id, a, World(b.m.(free := b.m.free[1..]), b.use[p := Hand] - {p}, b.data[p := d]))
  {
    hide At;
    forall w | Place(w) && w.Leaf?
      ensures At(b.m.(free := b.m.free[1..]), w) == At(b.m, w)
    {
      AtTables(b.m, b.m.(free := b.m.free[1..]), w);
    }
  }

  /** A new table page for place w leaves translations and contents alone. */
  lemma OnlyTablesLinked(g: Layout, id: nat, a: World, b: World, w: Use, q: nat, p: nat)
    requires Inv(g, b.m, b.use) && Place(w) && (w.Mid? || w.Low?) && w.id == id
    requires Valid(At(b.m, Above(w))) && At(b.m, Above(w)).ppn == q && !Valid(At(b.m, w)) && p in b.use
    requires b.use[p] == Hand && p !in a.use
    requires OnlyTables(id, a, b.(use := b.use - {p}))
    ensures q in b.m.tables && |b.m.tables[q]| == NPTE
    ensures OnlyTables(id, a, World(Link(b.m, q, Index(w), p), b.use[p := w], b.data))
  {
    hide At, Inv;
    LinkAt(g, b.m, b.use, w, q, p, w);
    forall x | Place(x) && x.Leaf?
      ensures At(Link(b.m, q, Index(w), p), x) == At(b.m, x)
    {
      LinkAt(g, b.m, b.use, w, q, p, x);
    }
  }

  predicate Within(w: Use, id: nat, v: nat, n: nat) {
    w.Leaf? && w.id == id && v <= w.v < v + n
  }

  /** Virtual pages v..v+n of id now map to physical pages ppn..ppn+n, which were in
      hand; otherwise only table pages were added. */
  ghost predicate Maps(g: Layout, id: nat, v: nat, n: nat, ppn: nat, flags: bv10, a: World, b: World) {
    && b.m.roots == a.m.roots
    && (forall w :: Place(w) && w.Leaf? ==>
          At(b.m, w) == if Within(w, id, v, n) then Pte(ppn + (w.v - v), flags) else At(a.m, w))
    && (forall p :: p in a.use ==>
          && p in b.use && p in a.data && p in b.data && b.data[p] == a.data[p]
          && b.use[p] == if ppn <= p < ppn + n && v + (p - ppn) < g.top then Leaf(id, v + (p - ppn)) else a.use[p])
    && (forall p :: p in b.use && p !in a.use ==> TableOf(b.use[p], id))
  }

  lemma MapsMore(g: Layout, id: nat, v: nat, n: nat, ppn: nat, flags: bv10, a: World, b: World, c: World)
    requires Maps(g, id, v, n, ppn, flags, a, b) && Maps(g, id, v + n, 1, ppn + n, flags, b, c)
    requires v + n < g.top ==> ppn + n in a.use
    ensures Maps(g, id, v, n + 1, ppn, flags, a, c)
  {
    hide At, Place;
    forall w | Place(w) && w.Leaf?
      ensures At(c.m, w) == if Within(w, id, v, n + 1) then Pte(ppn + (w.v - v), flags) else At(a.m, w)
    {
      assert At(b.m, w) == if Within(w, id, v, n) then Pte(ppn + (w.v - v), flags) else At(a.m, w);
    }
    forall p | p in c.use && p !in a.use ensures TableOf(c.use[p], id) {
      if p in b.use {
        assert TableOf(b.use[p], id);
      }
    }
  }

  lemma MapsTables(g: Layout, id: nat, v: nat, n: nat, ppn: nat, flags: bv10, a: World, b: World, c: World)
    requires Maps(g, id, v, n, ppn, flags, a, b) && OnlyTables(id, b, c)
    ensures Maps(g, id, v, n, ppn, flags, a, c)
  {
    hide At, Place;
    forall p | p in c.use && p !in a.use ensures TableOf(c.use[p], id) {
      if p in b.use {
        assert TableOf(b.use[p], id);
      }
    }
  }

  /** Virtual pages v..v+n of id are no longer mapped; their pages are free again, or
      in hand.  Nothing else changed. */
  ghost predicate Unmaps(id: nat, v: nat, n: nat, freed: bool, a: World, b: World) {
    && b.m.roots == a.m.roots
    && (forall w :: Place(w) && w.Leaf? ==> At(b.m, w) == if Within(w, id, v, n) then ZERO else At(a.m, w))
    && (forall p :: p in a.use ==>
          if Within(a.use[p], id, v, n) then (if freed then p !in b.use else p in b.use && b.use[p] == Hand)
          else p in b.use && b.use[p] == a.use[p] && p in a.data && p in b.data && b.data[p] == a.data[p])
    && (forall p :: p in b.use ==> p in a.use)
  }

  lemma UnmapsMore(id: nat, v: nat, n: nat, freed: bool, a: World, b: World, c: World)
    requires Unmaps(id, v, n, freed, a, b) && Unmaps(id, v + n, 1, freed, b, c)
    ensures Unmaps(id, v, n + 1, freed, a, c)
  {
    hide At, Place;
    forall w | Place(w) && w.Leaf? ensures At(c.m, w) == if Within(w, id, v, n + 1) then ZERO else At(a.m, w) {
      assert At(b.m, w) == if Within(w, id, v, n) then ZERO else At(a.m, w);
    }
  }

  /** Pages were added to id from v on, fresh ones, with these flags and contents;
      otherwise only table pages were added. */
  ghost predicate Grew(id: nat, v: nat, fl: seq<bv10>, cs: seq<seq<Byte>>, a: World, b: World)
    requires |fl| == |cs|
  {
    && b.m.roots == a.m.roots
    && (forall w :: Place(w) && w.Leaf? ==> LeafGrew(id, v, fl, cs, a, b, w))
    && (forall p :: UseGrew(id, v, |fl|, a, b, p))
  }

  /** New pages that are readable if they are for user code. */
  lemma GrewReadable(id: nat, v: nat, fl: seq<bv10>, cs: seq<seq<Byte>>, a: World, b: World)
    requires |fl| == |cs| && Grew(id, v, fl, cs, a, b)
    requires forall k :: 0 <= k < |fl| ==> fl[k] & PTE_U != 0 ==> fl[k] & PTE_R != 0
    ensures UserReadable(a.m) ==> UserReadable(b.m)
  {
    hide At;
    if UserReadable(a.m) {
      forall w | Place(w) && w.Leaf? && Valid(At(b.m, w)) && User(At(b.m, w)) ensures CanRead(At(b.m, w)) {
        assert LeafGrew(id, v, fl, cs, a, b, w);
      }
    }
  }

  lemma TablesReadable(id: nat, a: World, b: World)
    requires OnlyTables(id, a, b)
    ensures UserReadable(a.m) ==> UserReadable(b.m)
  {
    hide At;
  }

  lemma UnmapsReadable(id: nat, v: nat, n: nat, freed: bool, a: World, b: World)
    requires Unmaps(id, v, n, freed, a, b)
    ensures UserReadable(a.m) ==> UserReadable(b.m)
  {
    hide At;
  }

  lemma ReleasedReadable(a: World, b: World, id: nat)
    requires Released(a, b, id)
    ensures UserReadable(a.m) ==> UserReadable(b.m)
  {
    hide At;
  }

  lemma MapsReadable(g: Layout, id: nat, v: nat, n: nat, ppn: nat, flags: bv10, a: World, b: World)
    requires Maps(g, id, v, n, ppn, flags, a, b) && (flags & PTE_U == 0 || flags & PTE_R != 0)
    ensures UserReadable(a.m) ==> UserReadable(b.m)
  {
    hide At;
  }

  /** A new address space maps nothing for user code. */
  lemma NewReadable(a: World, b: World, id: nat)
    requires Born(a, b, id) && NoLeaves(b.m, id)
    ensures UserReadable(a.m) ==> UserReadable(b.m)
  {
    hide At;
  }

  ghost predicate NewPage(e: Pte, flags: bv10, contents: seq<Byte>, w: Use, a: World, b: World) {
    && e.flags == flags && e.ppn !in a.use && e.ppn in b.use && b.use[e.ppn] == w
    && e.ppn in b.data && b.data[e.ppn] == contents
  }

  /** b with page p taken from the free list and given contents d. */
  ghost predicate Took(b: World, c: World, p: nat, d: seq<Byte>) {
    && p !in b.use && c.use == b.use[p := Hand] && c.data == b.data[p := d]
    && c.m.tables == b.m.tables && c.m.roots == b.m.roots
  }

  lemma TookAt(b: World, c: World, p: nat, d: seq<Byte>, w: Use)
    requires Took(b, c, p, d) && Place(w)
    ensures At(c.m, w) == At(b.m, w)
  {
    AtTables(b.m, c.m, w);
  }

  ghost predicate LeafGrew(id: nat, v: nat, fl: seq<bv10>, cs: seq<seq<Byte>>, a: World, b: World, w: Use)
    requires |fl| == |cs| && Place(w)
  {
    if Within(w, id, v, |fl|) then NewPage(At(b.m, w), fl[w.v - v], cs[w.v - v], w, a, b) else At(b.m, w) == At(a.m, w)
  }

  ghost predicate UseGrew(id: nat, v: nat, n: nat, a: World, b: World, p: nat) {
    && (p in a.use ==> p in b.use && b.use[p] == a.use[p] && p in a.data && p in b.data && b.data[p] == a.data[p])
    && (p in b.use && p !in a.use ==> TableOf(b.use[p], id) || Within(b.use[p], id, v, n))
  }

  /** One page more: p, with contents d. */
  lemma GrewMore(g: Layout, id: nat, v: nat, fl: seq<bv10>, cs: seq<seq<Byte>>, a: World, b: World, b': World,
      c: World, p: nat, d: seq<Byte>, flag: bv10)
    requires |fl| == |cs| && Grew(id, v, fl, cs, a, b) && Took(b, b', p, d) && Maps(g, id, v + |fl|, 1, p, flag, b', c)
    requires v + |fl| < g.top
    ensures Grew(id, v, fl + [flag], cs + [d], a, c)
  {
    hide At, Place, NewPage, Maps;
    MapsRoots(g, id, v + |fl|, 1, p, flag, b', c);
    forall w | Place(w) && w.Leaf? ensures LeafGrew(id, v, fl + [flag], cs + [d], a, c, w) {
      assert LeafGrew(id, v, fl, cs, a, b, w);
      GrewMoreAt(g, id, v, fl, cs, a, b, b', c, p, d, flag, w);
    }
    var n := |fl + [flag]|;
    forall r ensures UseGrew(id, v, n, a, c, r) {
      assert UseGrew(id, v, |fl|, a, b, r);
      GrewMoreUse(g, id, v, |fl|, a, b, b', c, p, d, flag, r);
    }
  }

  lemma MapsRoots(g: Layout, id: nat, v: nat, n: nat, ppn: nat, flags: bv10, a: World, b: World)
    requires Maps(g, id, v, n, ppn, flags, a, b)
    ensures b.m.roots == a.m.roots
  {
  }

  lemma GrewMoreAt(g: Layout, id: nat, v: nat, fl: seq<bv10>, cs: seq<seq<Byte>>, a: World, b: World, b': World,
      c: World, p: nat, d: seq<Byte>, flag: bv10, w: Use)
    requires |fl| == |cs| && Place(w) && w.Leaf? && LeafGrew(id, v, fl, cs, a, b, w) && UseGrew(id, v, |fl|, a, b, p)
    requires Took(b, b', p, d) && Maps(g, id, v + |fl|, 1, p, flag, b', c) && v + |fl| < g.top
    ensures LeafGrew(id, v, fl + [flag], cs + [d], a, c, w)
  {
    hide At, Place;
    TookAt(b, b', p, d, w);
    assert At(c.m, w) == if Within(w, id, v + |fl|, 1) then Pte(p, flag) else At(b.m, w);
    if Within(w, id, v, |fl|) {
      assert (fl + [flag])[w.v - v] == fl[w.v - v] && (cs + [d])[w.v - v] == cs[w.v - v];
    }
  }

  lemma GrewMoreUse(g: Layout, id: nat, v: nat, n: nat, a: World, b: World, b': World, c: World, p: nat, d: seq<Byte>,
      flag: bv10, r: nat)
    requires UseGrew(id, v, n, a, b, r) && Took(b, b', p, d) && Maps(g, id, v + n, 1, p, flag, b', c) && v + n < g.top
    ensures UseGrew(id, v, n + 1, a, c, r)
  {
    hide At;
  }

  /** The page p could not be mapped and went back: table pages may have been added. */
  lemma GrewNoMore(id: nat, v: nat, fl: seq<bv10>, cs: seq<seq<Byte>>, a: World, b: World, b': World, c: World,
      d: World, p: nat, x: seq<Byte>, y: seq<Byte>)
    requires |fl| == |cs| && Grew(id, v, fl, cs, a, b) && Took(b, b', p, x) && OnlyTables(id, b', c)
    requires d.m.tables == c.m.tables && d.m.roots == c.m.roots && d.use == c.use - {p} && d.data == c.data[p := y]
    ensures Grew(id, v, fl, cs, a, d)
  {
    hide At, Place, NewPage;
    forall w | Place(w) && w.Leaf? ensures LeafGrew(id, v, fl, cs, a, d, w) {
      assert LeafGrew(id, v, fl, cs, a, b, w);
      TookAt(b, b', p, x, w);
      AtTables(c.m, d.m, w);
      if Within(w, id, v, |fl|) { StillNew(id, At(b.m, w), fl[w.v - v], cs[w.v - v], w, a, b, b', c, d, p, x, y); }
    }
    forall r ensures UseGrew(id, v, |fl|, a, d, r) { assert UseGrew(id, v, |fl|, a, b, r); }
  }

  lemma StillNew(id: nat, e: Pte, f: bv10, k: seq<Byte>, w: Use, a: World, b: World, b': World, c: World, d: World,
      p: nat, x: seq<Byte>, y: seq<Byte>)
    requires NewPage(e, f, k, w, a, b) && Took(b, b', p, x) && OnlyTables(id, b', c) && d.use == c.use - {p}
    requires d.data == c.data[p := y]
    ensures NewPage(e, f, k, w, a, d)
  {
    hide At;
  }

  /** Growing and then unmapping the new pages leaves no trace but table pages. */
  lemma GrewUndone(id: nat, v: nat, fl: seq<bv10>, cs: seq<seq<Byte>>, a: World, b: World, c: World)
    requires |fl| == |cs| && Grew(id, v, fl, cs, a, b) && Unmaps(id, v, |fl|, true, b, c)
    requires forall w :: Place(w) && Within(w, id, v, |fl|) ==> At(a.m, w) == ZERO
    requires forall p :: p in a.use ==> !Within(a.use[p], id, v, |fl|)
    ensures OnlyTables(id, a, c)
  {
    hide At, Place;
    forall w | Place(w) && w.Leaf? ensures At(c.m, w) == At(a.m, w) { assert LeafGrew(id, v, fl, cs, a, b, w); }
    forall p | p in a.use
      ensures p in c.use && c.use[p] == a.use[p] && p in a.data && p in c.data && c.data[p] == a.data[p]
    {
      assert UseGrew(id, v, |fl|, a, b, p);
    }
    forall p | p in c.use && p !in a.use ensures TableOf(c.use[p], id) { assert UseGrew(id, v, |fl|, a, b, p); }
  }

  datatype MapResult = Done | NoMemory | Remap

  // ---- freeing tables

  function Child(w: Use, i: nat): Use
    requires w.Root? || w.Mid?
  {
    if w.Root? then Mid(w.id, i) else Low(w.id, w.i2, i)
  }

  /** x is one of the first i children of table w, or below one: a table. */
  predicate GoneBelow(x: Use, w: Use, i: nat) {
    match w
    case Root(id) => (x.Mid? || (x.Low? && x.i1 < NPTE)) && x.id == id && x.i2 < i
    case Mid(id, k) => x.Low? && x.id == id && x.i2 == k && x.i1 < i
    case _ => false
  }

  ghost predicate PlaceCleared(a: World, b: World, w: Use, i: nat, x: Use)
    requires Place(x)
  {
    At(b.m, x) == if GoneBelow(x, w, i) then ZERO else At(a.m, x)
  }

  ghost predicate UseCleared(a: World, b: World, w: Use, i: nat, p: nat) {
    && (p in b.use <==> p in a.use && !GoneBelow(a.use[p], w, i))
    && (p in b.use ==> b.use[p] == a.use[p] && p in a.data && p in b.data && b.data[p] == a.data[p])
  }

  ghost predicate NoLeaves(m: Mem, id: nat) {
    forall w :: Place(w) && w.Leaf? && w.id == id ==> At(m, w) == ZERO
  }

  /** The tables below the first i entries of w are gone, and nothing else. */
  ghost predicate Cleared(a: World, b: World, w: Use, i: nat) {
    && b.m.roots == a.m.roots
    && (forall x :: Place(x) ==> PlaceCleared(a, b, w, i, x))
    && (forall p :: UseCleared(a, b, w, i, p))
  }

  /** Entry i of w was empty. */
  lemma ClearedSkip(g: Layout, a: World, b: World, w: Use, i: nat)
    requires Cleared(a, b, w, i) && Inv(g, b.m, b.use) && Place(w) && (w.Root? || w.Mid?) && i < NPTE
    requires At(b.m, Child(w, i)) == ZERO
    ensures Cleared(a, b, w, i + 1)
  {
    hide At, Inv;
    var j := i + 1;
    forall x | Place(x) ensures PlaceCleared(a, b, w, j, x) {
      assert PlaceCleared(a, b, w, i, x);
      BelowChild(b.m, w, i, x);
    }
    forall p ensures UseCleared(a, b, w, j, p) {
      assert UseCleared(a, b, w, i, p);
      Know(g, b.m, b.use, w, p);
      if p in b.use && Place(b.use[p]) { BelowChild(b.m, w, i, b.use[p]); }
    }
  }

  /** An empty place has nothing below it. */
  lemma BelowChild(m: Mem, w: Use, i: nat, x: Use)
    requires Place(w) && (w.Root? || w.Mid?) && i < NPTE && At(m, Child(w, i)) == ZERO && Place(x)
    ensures GoneBelow(x, w, i + 1) && !GoneBelow(x, w, i) ==> At(m, x) == ZERO && !Valid(At(m, x))
  {
  }

  /** The tables below child i of w went, then the child itself. */
  lemma ClearedMore(a: World, b: World, c: World, d: World, w: Use, i: nat, p: nat)
    requires Place(w) && (w.Root? || w.Mid?) && i < NPTE && Cleared(a, b, w, i) && Cleared(b, c, Child(w, i), NPTE)
    requires d.m.roots == c.m.roots
    requires forall x :: Place(x) ==> At(d.m, x) == if x == Child(w, i) then ZERO else At(c.m, x)
    requires p in c.use && c.use[p] == Child(w, i) && d.use == c.use - {p}
    requires forall r :: r in c.data && r != p ==> r in d.data && d.data[r] == c.data[r]
    requires forall r :: r in c.use && c.use[r] == Child(w, i) ==> r == p
    ensures Cleared(a, d, w, i + 1)
  {
    hide At;
    var j := i + 1;
    forall x | Place(x) ensures PlaceCleared(a, d, w, j, x) {
      assert PlaceCleared(a, b, w, i, x) && PlaceCleared(b, c, Child(w, i), NPTE, x);
    }
    forall r ensures UseCleared(a, d, w, j, r) {
      assert UseCleared(a, b, w, i, r) && UseCleared(b, c, Child(w, i), NPTE, r);
      UsePlace(a, r, w, i);
    }
  }

  lemma UsePlace(a: World, r: nat, w: Use, i: nat)
    requires Place(w) && (w.Root? || w.Mid?)
    ensures r in a.use ==>
              (GoneBelow(a.use[r], w, i + 1)
               <==> GoneBelow(a.use[r], w, i) || a.use[r] == Child(w, i) || GoneBelow(a.use[r], Child(w, i), NPTE))
  {
  }

  predicate Owns(u: Use, id: nat) { u != Hand && u.id == id }

  ghost predicate UseReleased(a: World, b: World, id: nat, p: nat) {
    && (p in b.use <==> p in a.use && !Owns(a.use[p], id))
    && (p in b.use ==> b.use[p] == a.use[p] && p in a.data && p in b.data && b.data[p] == a.data[p])
  }

  /** Address space id is gone, with every page it had; nothing else changed. */
  ghost predicate Released(a: World, b: World, id: nat) {
    && b.m.roots == a.m.roots - {id}
    && (forall w :: Place(w) && w.Leaf? ==> At(b.m, w) == if w.id == id then ZERO else At(a.m, w))
    && (forall p :: UseReleased(a, b, id, p))
  }

  /** Address space id came into being; what there was before is as it was. */
  ghost predicate Born(a: World, b: World, id: nat) {
    && id !in a.m.roots && id in b.m.roots && b.m.roots - {id} == a.m.roots
    && (forall w :: Place(w) && w.Leaf? && w.id != id ==> At(b.m, w) == At(a.m, w))
    && (forall p :: p in a.use ==>
          p in b.use && b.use[p] == a.use[p] && p in a.data && p in b.data && b.data[p] == a.data[p])
    && (forall p :: p in b.use && p !in a.use ==> Owns(b.use[p], id))
  }

  /** Same address spaces, same translations, same use and contents of pages. */
  ghost predicate Alike(a: World, b: World) {
    && b.m.roots == a.m.roots && b.use == a.use
    && (forall w :: Place(w) && w.Leaf? ==> At(b.m, w) == At(a.m, w))
    && (forall p :: p in a.use ==> p in a.data && p in b.data && b.data[p] == a.data[p])
  }

  /** The pages a new address space maps: none, the trampoline, or the trapframe too. */
  ghost predicate MapsJust(m: Mem, id: nat, tramp: Pte, frame: Pte) {
    forall w :: Place(w) && w.Leaf? && w.id == id ==>
      At(m, w) == if w.v == TRAMPOLINE then tramp else if w.v == TRAPFRAME then frame else ZERO
  }

  lemma BornMaps(g: Layout, a: World, b: World, c: World, id: nat, v: nat, n: nat, ppn: nat, flags: bv10)
    requires Born(a, b, id) && Maps(g, id, v, n, ppn, flags, b, c) && v >= g.top
    ensures Born(a, c, id)
  {
    hide At, Place;
    forall p | p in c.use && p !in a.use ensures Owns(c.use[p], id) {
      if p !in b.use { assert TableOf(c.use[p], id); }
    }
  }

  /** Creating an address space and releasing it puts everything back. */
  lemma BornReleased(g: Layout, a: World, b: World, c: World, id: nat)
    requires Inv(g, a.m, a.use) && Born(a, b, id) && Released(b, c, id)
    ensures Alike(a, c)
  {
    hide At, Inv;
    forall p ensures p in c.use <==> p in a.use {
      assert UseReleased(b, c, id, p);
      Know(g, a.m, a.use, Root(0), p);
      if p in a.use && Owns(a.use[p], id) { NoRoot(a.m, id, a.use[p]); }
    }
    forall p | p in a.use
      ensures p in c.use && c.use[p] == a.use[p] && p in c.data && c.data[p] == a.data[p]
    {
      assert UseReleased(b, c, id, p);
    }
    forall w | Place(w) && w.Leaf? ensures At(c.m, w) == At(a.m, w) {
      if w.id == id { NoRoot(a.m, id, w); }
    }
  }

  /** With pages in the same use, the free lists have the same pages. */
  lemma SameFree(g: Layout, a: World, b: World, p: nat)
    requires Inv(g, a.m, a.use) && Inv(g, b.m, b.use) && Alike(a, b)
    ensures p in a.m.free <==> p in b.m.free
  {
    hide At;
    assert PageOk(a.m, a.use, g, p) && PageOk(b.m, b.use, g, p);
  }

  lemma UnmapThenRelease(a: World, b: World, c: World, id: nat, v: nat, n: nat)
    requires Unmaps(id, v, n, true, a, b) && Released(b, c, id)
    ensures Released(a, c, id)
  {
    hide At, Place;
    forall p ensures UseReleased(a, c, id, p) { assert UseReleased(b, c, id, p); }
  }

  /** Unmapping pages that are owned elsewhere frees nothing. */
  lemma UnmapShared(g: Layout, a: World, b: World, c: World, id: nat, v: nat)
    requires Inv(g, a.m, a.use) && Unmaps(id, v, 1, false, a, b) && v >= g.top && Released(b, c, id)
    ensures Released(a, c, id)
  {
    hide At, Place;
    forall p ensures UseReleased(a, c, id, p) {
      assert UseReleased(b, c, id, p);
      assert PageOk(a.m, a.use, g, p);
    }
  }

  predicate From(lo: nat, p: nat) { lo <= p }

  /** PGROUNDUP(sz) / PGSIZE */
  function Pages(sz: nat): nat { (sz + PGSIZE - 1) / PGSIZE }

  class AddressSpaces {
    const g: Layout
    var free: seq<nat>
    var tables: map<nat, seq<Pte>>
    var roots: map<nat, nat>
    var data: map<nat, seq<Byte>>      // page contents
    ghost var use: map<nat, Use>

    function State(): Mem
      reads this
    {
      Mem(free, tables, roots)
    }

    ghost function Now(): World
      reads this
    {
      World(State(), use, data)
    }

    ghost predicate Ok()
      reads this
    {
      && Inv(g, State(), use) && g.top <= MAXVPN
      && (forall p :: g.lo <= p < g.hi ==> p in data && |data[p]| == PGSIZE)
    }

    // ---- kinit, kalloc and kfree

    /** kinit: freerange gives every page from lo to hi to the allocator. */
    constructor (lo: nat, hi: nat, top: nat)
      requires 0 < lo && top <= MAXVPN
      ensures g == Layout(lo, hi, top) && Ok() && roots == map[] && use == map[]
      ensures UserReadable(State()) && forall p: nat :: p in free <==> lo <= p < hi
    {
      hide PlaceOk;
      g := Layout(lo, hi, top);
      free, tables, roots := [], map[], map[];
      data := map p: nat | p < hi && From(lo, p) :: Filled(0);
      use := map p: nat | p < hi && From(lo, p) :: Hand;
      new;
      FirstInv();
      forall r: nat | lo <= r < hi ensures r in data && |data[r]| == PGSIZE { assert From(lo, r); }
      var p := lo;
      while p < hi
        invariant lo <= p && (lo <= hi ==> p <= hi) && Ok() && roots == map[]
        invariant forall r :: r in use ==> p <= r < hi && use[r] == Hand
        invariant forall r: nat :: From(p, r) && r < hi ==> r in use
      {
        assert From(p, p);
        var _ := Kfree(p);
        p := p + 1;
        forall r: nat | From(p, r) && r < hi ensures r in use { assert From(p - 1, r); }
      }
      assert use == map[];
      forall w | Place(w) ensures At(State(), w) == ZERO { NoRoot(State(), w.id, w); }
      forall r: nat ensures r in free <==> lo <= r < hi { assert PageOk(State(), use, g, r); }
    }

    lemma FirstInv()
      requires g.lo > 0 && free == [] && tables == map[] && roots == map[]
      requires use == map p: nat | p < g.hi && From(g.lo, p) :: Hand
      ensures Inv(g, State(), use)
    {
      forall w | Place(w) ensures PlaceOk(State(), use, g, w) { NoRoot(State(), w.id, w); }
      forall p: nat ensures PageOk(State(), use, g, p) { assert From(g.lo, p) <==> g.lo <= p; }
    }

    /** A page, or 0 when there is none. */
    method Kalloc() returns (p: nat)
      requires Ok()
      modifies this`free, this`data, this`use
      ensures Ok()
      ensures p == 0 ==> old(free) == [] && free == [] && data == old(data) && use == old(use)
      ensures p != 0 ==>
                old(free) == [p] + free && p !in old(use) && use == old(use)[p := Hand] &&
                data == old(data)[p := Filled(5)]
      ensures old(UserReadable(State())) ==> UserReadable(State())
    {
      hide PlaceOk, PageOk, Filled, UserReadable;
      if free == [] {
        return 0;
      }
      TakeInv(g, State(), use);
      FreeListReadable(State(), free[1..]);
      p := free[0];
      assert free == [p] + free[1..];
      free := free[1..];
      use := use[p := Hand];
      FilledSize(5);
      data := data[p := Filled(5)];
    }

    lemma FilledSize(c: Byte)
      ensures |Filled(c)| == PGSIZE
    {
    }

    /** False is the kernel's panic: not a page of the allocator's. */
    method Kfree(p: nat) returns (ok: bool)
      requires Ok() && p in use && use[p] == Hand
      modifies this`free, this`data, this`use
      ensures Ok() && ok && free == [p] + old(free) && use == old(use) - {p} && data == old(data)[p := Filled(1)]
      ensures old(UserReadable(State())) ==> UserReadable(State())
    {
      hide PlaceOk, PageOk, Filled, UserReadable;
      GiveInv(g, State(), use, p);
      FreeListReadable(State(), [p] + free);
      if p < g.lo || p >= g.hi {
        return false;
      }
      FilledSize(1);
      data := data[p := Filled(1)];
      free := [p] + free;
      use := use - {p};
      return true;
    }

    lemma ValidV(p: nat)
      ensures Valid(Pte(p, PTE_V))
    {
    }

    // ---- walk

    /** The level-0 table page for virtual page v, 0 if it does not exist (and, with
        alloc, could not be made). */
    method Walk(id: nat, v: nat, alloc: bool) returns (q: nat)
      requires Ok() && id in roots && v < MAXVPN
      modifies this`free, this`tables, this`data, this`use
      ensures Ok() && OnlyTables(id, old(Now()), Now())
      ensures q != 0 <==> Valid(At(State(), TableAt(id, v, 0)))
      ensures q != 0 ==> q == At(State(), TableAt(id, v, 0)).ppn
      ensures q == 0 && alloc ==> free == [] && |old(free)| <= 1
      ensures |free| <= |old(free)| <= |free| + 2
      ensures !alloc || Valid(old(At(State(), TableAt(id, v, 0)))) ==> Now() == old(Now())
    {
      hide At, PlaceOk, PageOk, Filled, ZeroTable;
      ghost var was := Now();
      SameTables(id);
      var level := 2;
      q := roots[id];
      RootAt(id);
      while level > 0
        invariant level <= 2 && Ok() && OnlyTables(id, was, Now()) && v < VPNS
        invariant Valid(At(State(), TableAt(id, v, level))) && q == At(State(), TableAt(id, v, level)).ppn != 0
        invariant |free| <= |was.m.free| <= |free| + (2 - level)
        invariant !alloc || Valid(At(was.m, TableAt(id, v, 0))) ==> Now() == was
      {
        PxIndex(id, v, level);
        ghost var w := TableAt(id, v, level - 1);
        EntryIs(w, q);
        var e := tables[q][Px(level, v)];
        if Valid(e) {
          TableThere(w);
          q := e.ppn;
        } else {
          BelowMissing(id, v, level - 1);
          if !alloc {
            return 0;
          }
          ghost var here := Now();
          var p := Kalloc();
          if p == 0 {
            return 0;
          }
          assert here.m.free[1..] == free;
          AtTables(here.m, State(), w);
          AtTables(here.m, State(), Above(w));
          OnlyTablesTaken(id, was, here, p, Filled(5));
          NewTable(w, q, Px(level, v), p, was);
          ValidV(p);
          q := p;
        }
        level := level - 1;
      }
    }

    lemma SameTables(id: nat)
      requires Ok()
      ensures OnlyTables(id, Now(), Now())
    {
      hide At, PlaceOk;
      forall p | p in use ensures p in data { assert PageOk(State(), use, g, p); }
    }

    lemma RootAt(id: nat)
      requires Ok() && id in roots
      ensures Valid(At(State(), Root(id))) && At(State(), Root(id)).ppn == roots[id] != 0
    {
      assert PlaceOk(State(), use, g, Root(id)) && PageOk(State(), use, g, roots[id]);
    }

    lemma EntryIs(w: Use, q: nat)
      requires Ok() && Place(w) && !w.Root? && Valid(At(State(), Above(w))) && q == At(State(), Above(w)).ppn
      ensures q in tables && |tables[q]| == NPTE && At(State(), w) == tables[q][Index(w)]
    {
      assert PlaceOk(State(), use, g, Above(w));
    }

    lemma TableThere(w: Use)
      requires Ok() && Place(w) && IsTable(w) && Valid(At(State(), w))
      ensures At(State(), w).ppn != 0
    {
      hide At;
      assert PlaceOk(State(), use, g, w) && PageOk(State(), use, g, At(State(), w).ppn);
    }

    lemma BelowMissing(id: nat, v: nat, level: nat)
      requires v < VPNS && level <= 1 && !Valid(At(State(), TableAt(id, v, level)))
      ensures !Valid(At(State(), TableAt(id, v, 0)))
    {
      if level == 1 { PxIndex(id, v, 1); }
    }

    /** walk's new table page. */
    method NewTable(ghost w: Use, q: nat, i: nat, p: nat, ghost was: World)
      requires Ok() && Place(w) && (w.Mid? || w.Low?) && i == Index(w) && p in use && use[p] == Hand && p !in was.use
      requires Valid(At(State(), Above(w))) && At(State(), Above(w)).ppn == q && !Valid(At(State(), w))
      requires OnlyTables(w.id, was, Now().(use := use - {p}))
      modifies this`tables, this`use
      ensures Ok() && OnlyTables(w.id, was, Now()) && At(State(), w) == Pte(p, PTE_V)
    {
      hide At, PlaceOk, PageOk, Place, OnlyTables;
      LinkInv(g, State(), use, w, q, p);
      LinkAt(g, State(), use, w, q, p, w);
      OnlyTablesLinked(g, w.id, was, Now(), w, q, p);
      tables := tables[q := tables[q][i := Pte(p, PTE_V)]][p := ZeroTable()];
      use := use[p := w];
    }

    // ---- mappages

    /** One round of mappages' loop. */
    method MapOne(id: nat, v: nat, ppn: nat, perm: bv10) returns (r: MapResult)
      requires Ok() && id in roots && v < MAXVPN && perm & (PTE_R | PTE_W | PTE_X) != 0
      requires if v < g.top then ppn in use && use[ppn] == Hand else perm & PTE_U == 0
      modifies this`free, this`tables, this`data, this`use
      ensures Ok()
      ensures r == Done ==>
                !Valid(old(At(State(), Leaf(id, v)))) && Maps(g, id, v, 1, ppn, perm | PTE_V, old(Now()), Now())
      ensures r == NoMemory ==>
                free == [] && |old(free)| <= 1 && OnlyTables(id, old(Now()), Now())
      ensures |free| <= |old(free)| <= |free| + 2
      ensures r == Remap ==> Valid(old(At(State(), Leaf(id, v)))) && OnlyTables(id, old(Now()), Now())
    {
      hide At, PlaceOk, PageOk, Valid, IsLeaf, User;
      ghost var was := Now();
      var q := Walk(id, v, true);
      if q == 0 {
        return NoMemory;
      }
      ghost var w := Leaf(id, v);
      EntryIs(w, q);
      if Valid(tables[q][v % NPTE]) {
        return Remap;
      }
      var e := Pte(ppn, perm | PTE_V);
      FlagBits(ppn, perm);
      ghost var here := Now();
      HandStays(id, was, here, ppn);
      MapInv(g, State(), use, w, q, e);
      tables := tables[q := tables[q][v % NPTE := e]];
      use := if v < g.top then use[ppn := w] else use;
      MappedOne(was, here, w, q, e);
      return Done;
    }

    lemma FlagBits(ppn: nat, perm: bv10)
      ensures Valid(Pte(ppn, perm | PTE_V)) && (IsLeaf(Pte(ppn, perm | PTE_V)) <==> perm & (PTE_R | PTE_W | PTE_X) != 0)
      ensures User(Pte(ppn, perm | PTE_V)) <==> perm & PTE_U != 0
    {
    }

    lemma HandStays(id: nat, a: World, b: World, p: nat)
      requires OnlyTables(id, a, b)
      ensures p in a.use ==> p in b.use && b.use[p] == a.use[p]
    {
    }

    lemma MappedOne(a: World, b: World, w: Use, q: nat, e: Pte)
      requires w.Leaf? && OnlyTables(w.id, a, b) && Inv(g, b.m, b.use) && Place(w) && Valid(At(b.m, Above(w)))
      requires At(b.m, Above(w)).ppn == q
      requires w.v < g.top ==> e.ppn in a.use && a.use[e.ppn] == Hand
      ensures q in b.m.tables && |b.m.tables[q]| == NPTE
      ensures var use := if w.v < g.top then b.use[e.ppn := w] else b.use;
              Maps(g, w.id, w.v, 1, e.ppn, e.flags, a, World(SetEntry(b.m, q, Index(w), e), use, b.data))
    {
      hide At, Inv;
      LeafAt(g, b.m, b.use, w, q, e, w);
      forall x | Place(x) && x.Leaf? ensures At(SetEntry(b.m, q, Index(w), e), x) == if x == w then e else At(b.m, x) {
        LeafAt(g, b.m, b.use, w, q, e, x);
      }
    }

    /** Map n pages.  NoMemory leaves the first k mapped; Remap is the kernel's
        panic, at the first page of the range that was mapped already. */
    method Mappages(id: nat, v: nat, n: nat, ppn: nat, perm: bv10) returns (r: MapResult, ghost k: nat)
      requires Ok() && id in roots && 0 < n && v + n <= MAXVPN && perm & (PTE_R | PTE_W | PTE_X) != 0
      requires forall p :: ppn <= p < ppn + n && v + (p - ppn) < g.top ==> p in use && use[p] == Hand
      requires v + n > g.top ==> perm & PTE_U == 0
      modifies this`free, this`tables, this`data, this`use
      ensures Ok() && k <= n && Maps(g, id, v, k, ppn, perm | PTE_V, old(Now()), Now())
      ensures r == Done <==> k == n
      ensures r == NoMemory ==> free == [] && |old(free)| < 2 * n
      ensures |free| <= |old(free)| <= |free| + 2 * n
      ensures r == Remap ==> Valid(old(At(State(), Leaf(id, v + k))))
      ensures forall x :: v <= x < v + k ==> !Valid(old(At(State(), Leaf(id, x))))
      ensures (perm & PTE_U == 0 || perm & PTE_R != 0) && old(UserReadable(State())) ==> UserReadable(State())
    {
      hide At, Inv, Valid, IsLeaf, Maps, OnlyTables, UserReadable;
      ghost var was := Now();
      SameTables(id);
      NothingMapped(id, v, ppn, perm | PTE_V, was);
      k := 0;
      var a := v;
      var pa := ppn;
      while true
        invariant k < n && a == v + k && pa == ppn + k && Ok()
        invariant Maps(g, id, v, k, ppn, perm | PTE_V, was, Now())
        invariant forall x :: v <= x < v + k ==> !Valid(At(was.m, Leaf(id, x)))
        invariant |free| <= |was.m.free| <= |free| + 2 * k
        decreases n - k
      {
        ghost var here := Now();
        Untouched(id, v, k, ppn, perm | PTE_V, was, here);
        r := MapOne(id, a, pa, perm);
        if r != Done {
          MapsTables(g, id, v, k, ppn, perm | PTE_V, was, here, Now());
          StaysReadable(id, v, k, ppn, perm, was);
          return;
        }
        MapsMore(g, id, v, k, ppn, perm | PTE_V, was, here, Now());
        k := k + 1;
        if a == v + n - 1 {
          StaysReadable(id, v, k, ppn, perm, was);
          return;
        }
        a, pa := a + 1, pa + 1;
      }
    }

    lemma StaysReadable(id: nat, v: nat, k: nat, ppn: nat, perm: bv10, was: World)
      requires Maps(g, id, v, k, ppn, perm | PTE_V, was, Now())
      ensures (perm & PTE_U == 0 || perm & PTE_R != 0) && UserReadable(was.m) ==> UserReadable(State())
    {
      hide Maps, UserReadable;
      FlagsKept(perm);
      if perm & PTE_U == 0 || perm & PTE_R != 0 { MapsReadable(g, id, v, k, ppn, perm | PTE_V, was, Now()); }
    }

    lemma FlagsKept(perm: bv10)
      ensures (perm | PTE_V) & PTE_U == perm & PTE_U && (perm | PTE_V) & PTE_R == perm & PTE_R
    {
    }

    lemma NothingMapped(id: nat, v: nat, ppn: nat, flags: bv10, a: World)
      requires OnlyTables(id, a, a)
      ensures Maps(g, id, v, 0, ppn, flags, a, a)
    {
    }

    /** The next page of a mapping under way is as it was. */
    lemma Untouched(id: nat, v: nat, k: nat, ppn: nat, flags: bv10, a: World, b: World)
      requires Maps(g, id, v, k, ppn, flags, a, b) && v + k < VPNS
      ensures b.m.roots == a.m.roots && At(b.m, Leaf(id, v + k)) == At(a.m, Leaf(id, v + k))
      ensures ppn + k in a.use ==> ppn + k in b.use && b.use[ppn + k] == a.use[ppn + k]
    {
      hide At;
      assert Place(Leaf(id, v + k));
    }

    // ---- uvmunmap

    /** One round of uvmunmap's loop; false is one of its panics. */
    method UnmapOne(id: nat, v: nat, doFree: bool) returns (ok: bool)
      requires Ok() && id in roots && v < MAXVPN && (doFree ==> v < g.top)
      modifies this`free, this`tables, this`data, this`use
      ensures Ok() && (ok <==> Valid(old(At(State(), Leaf(id, v)))))
      ensures ok ==> Unmaps(id, v, 1, doFree, old(Now()), Now())
      ensures !ok ==> Now() == old(Now())
    {
      hide At, PlaceOk, PageOk, Valid;
      ghost var was := Now();
      var q := Walk(id, v, false);
      ghost var w := Leaf(id, v);
      if q == 0 {
        MissingLeaf(w);
        return false;
      }
      EntryIs(w, q);
      var e := tables[q][v % NPTE];
      if !Valid(e) {
        return false;
      }
      LeafFlags(w);
      if e.flags == PTE_V {
        return false;
      }
      UnmapInv(g, State(), use, w, q);
      UnmappedOne(was, w, q);
      tables := tables[q := tables[q][v % NPTE := ZERO]];
      use := if v < g.top then use[e.ppn := Hand] else use;
      if doFree {
        ghost var here := Now();
        var _ := Kfree(e.ppn);
        UnmapThenFree(was, here, id, v, e.ppn);
      }
      return true;
    }

    lemma MissingLeaf(w: Use)
      requires Place(w) && w.Leaf? && !Valid(At(State(), Above(w)))
      ensures !Valid(At(State(), w))
    {
    }

    lemma LeafFlags(w: Use)
      requires Ok() && Place(w) && w.Leaf? && Valid(At(State(), w))
      ensures At(State(), w).flags != PTE_V
    {
      hide At;
      assert PlaceOk(State(), use, g, w);
    }

    lemma UnmappedOne(a: World, w: Use, q: nat)
      requires Inv(g, a.m, a.use) && Place(w) && w.Leaf? && Valid(At(a.m, Above(w))) && At(a.m, Above(w)).ppn == q
      requires Valid(At(a.m, w))
      requires forall p :: p in a.use ==> p in a.data
      ensures q in a.m.tables && |a.m.tables[q]| == NPTE
      ensures var use := if w.v < g.top then a.use[At(a.m, w).ppn := Hand] else a.use;
              Unmaps(w.id, w.v, 1, false, a, World(SetEntry(a.m, q, Index(w), ZERO), use, a.data))
    {
      hide At, Inv;
      LeafAt(g, a.m, a.use, w, q, ZERO, w);
      Know(g, a.m, a.use, w, 0);
      forall x | Place(x) && x.Leaf?
        ensures At(SetEntry(a.m, q, Index(w), ZERO), x) == if x == w then ZERO else At(a.m, x)
      {
        LeafAt(g, a.m, a.use, w, q, ZERO, x);
      }
      forall p | p in a.use && Within(a.use[p], w.id, w.v, 1)
        ensures w.v < g.top && p == At(a.m, w).ppn
      {
        Know(g, a.m, a.use, w, p);
      }
    }

    lemma UnmapThenFree(a: World, b: World, id: nat, v: nat, p: nat)
      requires Unmaps(id, v, 1, false, a, b) && p in a.use && a.use[p] == Leaf(id, v)
      requires forall r :: r in a.use && a.use[r] == Leaf(id, v) ==> r == p
      ensures Unmaps(id, v, 1, true, a, World(b.m.(free := [p] + b.m.free), b.use - {p}, b.data[p := Filled(1)]))
    {
      hide At, Filled;
      forall w | Place(w) && w.Leaf?
        ensures At(b.m.(free := [p] + b.m.free), w) == At(b.m, w)
      {
        AtTables(b.m, b.m.(free := [p] + b.m.free), w);
      }
    }

    /** Unmap n pages.  It does so exactly when all of them are mapped; otherwise it
        stops, in a panic, at the first that is not. */
    method Uvmunmap(id: nat, v: nat, n: nat, doFree: bool) returns (ok: bool, ghost k: nat)
      requires Ok() && id in roots && v + n <= MAXVPN && (doFree ==> v + n <= g.top)
      modifies this`free, this`tables, this`data, this`use
      ensures Ok() && k <= n && Unmaps(id, v, k, doFree, old(Now()), Now())
      ensures ok <==> k == n
      ensures !ok ==> !Valid(old(At(State(), Leaf(id, v + k))))
      ensures forall x :: v <= x < v + k ==> Valid(old(At(State(), Leaf(id, x))))
      ensures old(UserReadable(State())) ==> UserReadable(State())
    {
      hide At, Inv, Valid, Unmaps, UserReadable;
      ghost var was := Now();
      NothingUnmapped(id, v, doFree);
      k := 0;
      var a := v;
      while a < v + n
        invariant k <= n && a == v + k && Ok() && Unmaps(id, v, k, doFree, was, Now())
        invariant forall x :: v <= x < v + k ==> Valid(At(was.m, Leaf(id, x)))
      {
        ghost var here := Now();
        NotYet(id, v, k, doFree, was, here);
        ok := UnmapOne(id, a, doFree);
        if !ok {
          UnmapsReadable(id, v, k, doFree, was, Now());
          return;
        }
        UnmapsMore(id, v, k, doFree, was, here, Now());
        a, k := a + 1, k + 1;
      }
      UnmapsReadable(id, v, k, doFree, was, Now());
      ok := true;
    }

    lemma NothingUnmapped(id: nat, v: nat, freed: bool)
      requires Ok()
      ensures Unmaps(id, v, 0, freed, Now(), Now())
    {
      SameTables(id);
    }

    lemma NotYet(id: nat, v: nat, k: nat, freed: bool, a: World, b: World)
      requires Unmaps(id, v, k, freed, a, b) && v + k < VPNS
      ensures b.m.roots == a.m.roots && At(b.m, Leaf(id, v + k)) == At(a.m, Leaf(id, v + k))
    {
      hide At;
      assert Place(Leaf(id, v + k));
    }

    // ---- uvmalloc and uvmdealloc

    /** Unmaps and frees the pages between the sizes; a page that is not mapped is a
        panic (ok false), whatever the sizes were said to be. */
    method Uvmdealloc(id: nat, oldsz: nat, newsz: nat) returns (r: nat, ok: bool)
      requires Ok() && id in roots && Pages(oldsz) <= g.top
      modifies this`free, this`tables, this`data, this`use
      ensures Ok() && r == if newsz < oldsz then newsz else oldsz
      ensures ok <==> forall x :: Pages(newsz) <= x < Pages(oldsz) ==> Valid(old(At(State(), Leaf(id, x))))
      ensures ok ==>
                var fewer := if Pages(newsz) < Pages(oldsz) then Pages(oldsz) - Pages(newsz) else 0;
                Unmaps(id, Pages(newsz), fewer, true, old(Now()), Now())
      ensures old(UserReadable(State())) ==> UserReadable(State())
    {
      hide At, Inv, Valid, Unmaps, UserReadable;
      NothingUnmapped(id, Pages(newsz), true);
      r, ok := newsz, true;
      if newsz >= oldsz {
        return oldsz, true;
      }
      if Pages(newsz) < Pages(oldsz) {
        ghost var k;
        ok, k := Uvmunmap(id, Pages(newsz), Pages(oldsz) - Pages(newsz), true);
        assert !ok ==> !Valid(old(At(State(), Leaf(id, Pages(newsz) + k))));
      }
    }

    /** kalloc, fill with d, mappages at virtual page x; all undone if that fails. */
    method AddPage(id: nat, x: nat, perm: bv10, d: seq<Byte>, ghost v: nat, ghost fl: seq<bv10>,
        ghost cs: seq<seq<Byte>>, ghost was: World)
        returns (ok: bool)
      requires Ok() && |fl| == |cs| && Grew(id, v, fl, cs, was, Now()) && id in roots && x == v + |fl| < g.top
      requires perm & (PTE_R | PTE_W | PTE_X) != 0 && |d| == PGSIZE && !Valid(At(State(), Leaf(id, x)))
      modifies this`free, this`tables, this`data, this`use
      ensures Ok() && id in roots
      ensures if ok then Grew(id, v, fl + [perm | PTE_V], cs + [d], was, Now()) else Grew(id, v, fl, cs, was, Now())
      ensures if ok then |old(free)| <= |free| + 3 else |old(free)| < 3
    {
      hide At, PlaceOk, PageOk, Valid, Grew, Maps, OnlyTables;
      ghost var here := Now();
      var p := Kalloc();
      if p == 0 {
        return false;
      }
      data := data[p := d];
      ghost var mine := Now();
      TookAt(here, mine, p, d, Leaf(id, x));
      var r, k := Mappages(id, x, 1, p, perm);
      MapsRoots(g, id, x, k, p, perm | PTE_V, mine, Now());
      if r != Done {
        MapsNone(id, x, p, perm | PTE_V, mine, Now());
        HandStays(id, mine, Now(), p);
        ghost var after := Now();
        var _ := Kfree(p);
        GrewNoMore(id, v, fl, cs, was, here, mine, after, Now(), p, d, Filled(1));
        return false;
      }
      GrewMore(g, id, v, fl, cs, was, here, mine, Now(), p, d, perm | PTE_V);
      return true;
    }

    lemma MapsNone(id: nat, v: nat, ppn: nat, flags: bv10, a: World, b: World)
      requires Maps(g, id, v, 0, ppn, flags, a, b)
      ensures OnlyTables(id, a, b)
    {
      hide At;
    }

    /** Grow from oldsz to newsz with zeroed pages.  A failure leaves every mapping
        and every page's use as it was, but for added table pages. */
    method Uvmalloc(id: nat, oldsz: nat, newsz: nat, xperm: bv10) returns (r: nat, ghost ok: bool)
      requires Ok() && id in roots && Pages(newsz) <= g.top
      requires forall x :: Pages(oldsz) <= x < Pages(newsz) ==> !Valid(At(State(), Leaf(id, x)))
      modifies this`free, this`tables, this`data, this`use
      ensures Ok()
      ensures newsz < oldsz ==> ok && r == oldsz && Now() == old(Now())
      ensures newsz >= oldsz && ok ==>
                r == newsz &&
                Grew(id, Pages(oldsz), seq(Pages(newsz) - Pages(oldsz), _ => PTE_R | PTE_U | xperm | PTE_V),
                                   seq(Pages(newsz) - Pages(oldsz), _ => Filled(0)), old(Now()), Now())
      ensures !ok ==> r == 0 && OnlyTables(id, old(Now()), Now()) && |old(free)| < 3 * (Pages(newsz) - Pages(oldsz))
      ensures old(UserReadable(State())) ==> UserReadable(State())
    {
      hide At, Inv, Valid, Grew, OnlyTables, Unmaps, Filled, UserReadable;
      if newsz < oldsz {
        return oldsz, true;
      }
      ghost var was := Now();
      ghost var flags := PTE_R | PTE_U | xperm | PTE_V;
      ghost var v, fl, cs: seq<seq<Byte>> := Pages(oldsz), [], [];
      SameTables(id);
      NothingGrew(id, v, was);
      FilledSize(0);
      LeafPerm(xperm);
      var a := Pages(oldsz);
      while a * PGSIZE < newsz
        invariant Ok() && id in roots && v <= a <= Pages(newsz) && |fl| == |cs| == a - v
        invariant fl == seq(a - v, _ => flags) && cs == seq(a - v, _ => Filled(0))
        invariant Grew(id, v, fl, cs, was, Now()) && |was.m.free| <= |free| + 3 * (a - v)
      {
        NotGrown(id, v, fl, cs, was, Now(), a);
        var added := AddPage(id, a, PTE_R | PTE_U | xperm, Filled(0), v, fl, cs, was);
        if !added {
          ghost var here := Now();
          MappedNow(id, v, fl, cs, was);
          var _, done := Uvmdealloc(id, a * PGSIZE, Pages(oldsz) * PGSIZE);
          assert forall x :: v <= x < v + |fl| ==> Valid(At(here.m, Leaf(id, x)));
          NoneBefore(id, v, |fl|, was);
          GrewUndone(id, v, fl, cs, was, here, Now());
          TablesReadable(id, was, Now());
          return 0, false;
        }
        fl, cs := fl + [flags], cs + [Filled(0)];
        a := a + 1;
      }
      assert a - v == Pages(newsz) - Pages(oldsz);
      GrewReadable(id, v, fl, cs, was, Now());
      return newsz, true;
    }

    lemma NothingGrew(id: nat, v: nat, a: World)
      requires OnlyTables(id, a, a)
      ensures Grew(id, v, [], [], a, a)
    {
      hide At;
    }

    lemma LeafPerm(xperm: bv10)
      ensures (PTE_R | PTE_U | xperm) & (PTE_R | PTE_W | PTE_X) != 0 && (PTE_R | PTE_U | xperm | PTE_V) & PTE_R != 0
    {
    }

    /** The next page to add is as it was. */
    lemma NotGrown(id: nat, v: nat, fl: seq<bv10>, cs: seq<seq<Byte>>, a: World, b: World, x: nat)
      requires |fl| == |cs| && Grew(id, v, fl, cs, a, b) && x == v + |fl| < VPNS
      ensures At(b.m, Leaf(id, x)) == At(a.m, Leaf(id, x))
    {
      hide At;
      assert Place(Leaf(id, x)) && LeafGrew(id, v, fl, cs, a, b, Leaf(id, x));
    }

    lemma MappedNow(id: nat, v: nat, fl: seq<bv10>, cs: seq<seq<Byte>>, a: World)
      requires Ok() && |fl| == |cs| && Grew(id, v, fl, cs, a, Now()) && v + |fl| <= VPNS
      ensures forall x :: v <= x < v + |fl| ==> Valid(At(State(), Leaf(id, x)))
    {
      hide At, Valid;
      forall x | v <= x < v + |fl| ensures Valid(At(State(), Leaf(id, x))) {
        var w := Leaf(id, x);
        assert Place(w) && LeafGrew(id, v, fl, cs, a, Now(), w);
        assert PageOk(State(), use, g, At(State(), w).ppn);
      }
    }

    lemma NoneBefore(id: nat, v: nat, n: nat, a: World)
      requires Inv(g, a.m, a.use) && v + n <= VPNS && forall x :: v <= x < v + n ==> !Valid(At(a.m, Leaf(id, x)))
      ensures forall w :: Place(w) && Within(w, id, v, n) ==> At(a.m, w) == ZERO
      ensures forall p :: p in a.use ==> !Within(a.use[p], id, v, n)
    {
      hide At, Valid;
      forall w | Place(w) && Within(w, id, v, n)
        ensures At(a.m, w) == ZERO
      {
        assert PlaceOk(a.m, a.use, g, w) && w == Leaf(id, w.v);
      }
      forall p | p in a.use ensures !Within(a.use[p], id, v, n) { assert PageOk(a.m, a.use, g, p); }
    }

    // ---- uvmcopy

    ghost function FlagsOf(a: World, id: nat, n: nat): (fl: seq<bv10>)
      requires n <= VPNS
      ensures |fl| == n
    {
      seq(n, x requires 0 <= x < n => At(a.m, Leaf(id, x)).flags)
    }

    ghost function ContentsOf(a: World, id: nat, n: nat): (cs: seq<seq<Byte>>)
      requires n <= VPNS
      ensures |cs| == n
    {
      seq(n, x requires 0 <= x < n => var p := At(a.m, Leaf(id, x)).ppn; if p in a.data then a.data[p] else [])
    }

    /** Copy the first sz bytes' pages of one address space into another that has
        none there: same flags, same contents, fresh pages.  A failure leaves every
        mapping as it was, but for added table pages. */
    method Uvmcopy(from: nat, to: nat, sz: nat) returns (ok: bool)
      requires Ok() && from in roots && to in roots && Pages(sz) <= g.top
      requires forall x :: 0 <= x < Pages(sz) ==> Valid(At(State(), Leaf(from, x))) && !Valid(At(State(), Leaf(to, x)))
      modifies this`free, this`tables, this`data, this`use
      ensures Ok()
      ensures ok ==>
                Grew(to, 0, FlagsOf(old(Now()), from, Pages(sz)), ContentsOf(old(Now()), from, Pages(sz)),
                     old(Now()), Now())
      ensures !ok ==> OnlyTables(to, old(Now()), Now()) && |old(free)| < 3 * Pages(sz)
      ensures old(UserReadable(State())) ==> UserReadable(State())
    {
      hide At, Inv, Valid, Grew, OnlyTables, Unmaps, FlagsOf, ContentsOf, UserReadable;
      ghost var was := Now();
      SameTables(to);
      NothingGrew(to, 0, was);
      NoneCopied(was, from);
      var i := 0;
      while i * PGSIZE < sz
        invariant Ok() && to in roots && i <= Pages(sz)
        invariant Grew(to, 0, FlagsOf(was, from, i), ContentsOf(was, from, i), was, Now())
        invariant |was.m.free| <= |free| + 3 * i
      {
        NotGrown(to, 0, FlagsOf(was, from, i), ContentsOf(was, from, i), was, Now(), i);
        SourceSame(was, from, to, i);
        ghost var w := Leaf(from, i);
        var q := Walk(from, i, false);
        LeafTable(w);
        EntryIs(w, q);
        var e := tables[q][i % NPTE];
        var added := AddPage(to, i, e.flags, data[e.ppn], 0, FlagsOf(was, from, i), ContentsOf(was, from, i), was);
        if !added {
          ghost var here := Now();
          MappedNow(to, 0, FlagsOf(was, from, i), ContentsOf(was, from, i), was);
          var _, k := Uvmunmap(to, 0, i, true);
          NoneBefore(to, 0, i, was);
          GrewUndone(to, 0, FlagsOf(was, from, i), ContentsOf(was, from, i), was, here, Now());
          TablesReadable(to, was, Now());
          return false;
        }
        OneCopied(was, from, i);
        i := i + 1;
      }
      if UserReadable(was.m) {
        CopiedReadable(was, from, i);
        GrewReadable(to, 0, FlagsOf(was, from, i), ContentsOf(was, from, i), was, Now());
      }
      return true;
    }

    lemma CopiedReadable(a: World, id: nat, n: nat)
      requires UserReadable(a.m) && n <= VPNS && forall x :: 0 <= x < n ==> Valid(At(a.m, Leaf(id, x)))
      ensures forall k :: 0 <= k < n ==> FlagsOf(a, id, n)[k] & PTE_U != 0 ==> FlagsOf(a, id, n)[k] & PTE_R != 0
    {
      hide At, Valid;
      forall k: nat | k < n && FlagsOf(a, id, n)[k] & PTE_U != 0 ensures FlagsOf(a, id, n)[k] & PTE_R != 0 {
        assert Place(Leaf(id, k)) && User(At(a.m, Leaf(id, k)));
      }
    }

    lemma NoneCopied(a: World, id: nat)
      ensures FlagsOf(a, id, 0) == [] && ContentsOf(a, id, 0) == []
    {
    }

    lemma OneCopied(a: World, id: nat, i: nat)
      requires i < VPNS
      ensures FlagsOf(a, id, i + 1) == FlagsOf(a, id, i) + [At(a.m, Leaf(id, i)).flags]
      ensures At(a.m, Leaf(id, i)).ppn in a.data ==>
                ContentsOf(a, id, i + 1) == ContentsOf(a, id, i) + [a.data[At(a.m, Leaf(id, i)).ppn]]
    {
      hide At;
    }

    /** The page being copied has not changed since the copy began. */
    lemma SourceSame(a: World, from: nat, to: nat, i: nat)
      requires Ok() && i < g.top && Grew(to, 0, FlagsOf(a, from, i), ContentsOf(a, from, i), a, Now())
      requires Inv(g, a.m, a.use)
      requires Valid(At(a.m, Leaf(from, i))) && from in a.m.roots
      ensures from in roots && At(State(), Leaf(from, i)) == At(a.m, Leaf(from, i))
      ensures var e := At(a.m, Leaf(from, i));
              && e.ppn in a.data && e.ppn in data && data[e.ppn] == a.data[e.ppn] && |data[e.ppn]| == PGSIZE
              && e.flags & (PTE_R | PTE_W | PTE_X) != 0 && e.flags | PTE_V == e.flags
    {
      hide At, FlagsOf, ContentsOf;
      var w := Leaf(from, i);
      var e := At(a.m, w);
      assert Place(w) && PlaceOk(a.m, a.use, g, w);
      assert LeafGrew(to, 0, FlagsOf(a, from, i), ContentsOf(a, from, i), a, Now(), w);
      assert UseGrew(to, 0, i, a, Now(), e.ppn);
      assert PageOk(State(), use, g, e.ppn);
      FlagsWithV(e);
    }

    lemma FlagsWithV(e: Pte)
      requires Valid(e) && IsLeaf(e)
      ensures e.flags & (PTE_R | PTE_W | PTE_X) != 0 && e.flags | PTE_V == e.flags
    {
    }

    lemma LeafTable(w: Use)
      requires Place(w) && w.Leaf? && Valid(At(State(), w))
      ensures Valid(At(State(), Above(w)))
    {
    }

    // ---- freewalk and uvmfree

    /** freewalk's loop: take down the tables below table page pg, at place w.  ok
        false is its panic on finding a leaf.  An entry is cleared just before the
        page it pointed to is freed. */
    method FreeBelow(pg: nat, ghost w: Use) returns (ok: bool)
      requires Ok() && Place(w) && IsTable(w) && At(State(), w) == Pte(pg, PTE_V) && NoLeaves(State(), w.id)
      modifies this`free, this`tables, this`data, this`use
      ensures Ok() && ok && Cleared(old(Now()), Now(), w, NPTE) && At(State(), w) == Pte(pg, PTE_V)
      ensures NoLeaves(State(), w.id)
      ensures pg in tables && Empty(tables[pg])
      decreases Height(w)
    {
      hide At, PlaceOk, PageOk, Valid, IsLeaf, Cleared, NoLeaves, Empty;
      ghost var was := Now();
      NothingCleared(w);
      for i := 0 to NPTE
        invariant Ok() && At(State(), w) == Pte(pg, PTE_V) && NoLeaves(State(), w.id) && Cleared(was, Now(), w, i)
      {
        Entries(w, pg, i);
        var e := tables[pg][i];
        if Valid(e) && !IsLeaf(e) {
          ghost var c, here := Child(w, i), Now();
          var _ := FreeBelow(e.ppn, c);
          ghost var there := Now();
          StillThere(here, c, w, pg);
          ValidV(pg);
          UnlinkInv(g, State(), use, c, pg, e.ppn);
          tables := tables[pg := tables[pg][i := ZERO]] - {e.ppn};
          use := use[e.ppn := Hand];
          ghost var cut := State();
          var _ := Kfree(e.ppn);
          Dropped(was, here, there, cut, w, i, pg, e.ppn);
        } else if Valid(e) {
          return false;
        } else {
          Skipped(was, w, i);
        }
      }
      AllEmpty(was, w, pg);
      return true;
    }

    lemma NothingCleared(w: Use)
      requires Ok()
      ensures Cleared(Now(), Now(), w, 0)
    {
      hide At;
      SameTables(0);
    }

    lemma ZeroFlags()
      ensures !Valid(ZERO)
    {
    }

    lemma LeafBelow(w: Use, i: nat) returns (x: Use)
      requires Place(w) && w.Low? && i < NPTE
      ensures Place(x) && x.Leaf? && x.id == w.id && Above(x) == w && Index(x) == i
    {
      x := Leaf(w.id, (w.i2 * NPTE + w.i1) * NPTE + i);
    }

    /** Entry i of the table at place w: a table or nothing. */
    lemma Entries(w: Use, pg: nat, i: nat)
      requires Ok() && Place(w) && IsTable(w) && At(State(), w) == Pte(pg, PTE_V) && NoLeaves(State(), w.id) && i < NPTE
      ensures pg in tables && |tables[pg]| == NPTE
      ensures w.Low? ==> tables[pg][i] == ZERO && !Valid(ZERO)
      ensures !w.Low? ==>
                tables[pg][i] == At(State(), Child(w, i)) && Place(Child(w, i)) && Above(Child(w, i)) == w &&
                Index(Child(w, i)) == i
      ensures !w.Low? && Valid(tables[pg][i]) ==>
                tables[pg][i] == Pte(tables[pg][i].ppn, PTE_V) && !IsLeaf(tables[pg][i])
      ensures !Valid(tables[pg][i]) ==> tables[pg][i] == ZERO
    {
      hide At;
      ZeroFlags();
      if w.Low? {
        var x := LeafBelow(w, i);
        EntryIs(x, pg);
      } else {
        EntryIs(Child(w, i), pg);
        assert PlaceOk(State(), use, g, Child(w, i));
      }
    }

    /** Taking down what is below a child changes neither the child's entry nor its
        table's place. */
    lemma StillThere(a: World, c: Use, w: Use, pg: nat)
      requires Ok() && Place(c) && (c.Mid? || c.Low?) && Above(c) == w && Place(w) && Cleared(a, Now(), c, NPTE)
      ensures At(State(), w) == At(a.m, w) && At(State(), c) == At(a.m, c)
      ensures At(State(), w) == Pte(pg, PTE_V) ==> pg in tables && |tables[pg]| == NPTE
    {
      hide At;
      assert PlaceCleared(a, Now(), c, NPTE, w) && PlaceCleared(a, Now(), c, NPTE, c);
      assert PlaceOk(State(), use, g, w);
    }

    lemma Dropped(a: World, b: World, c: World, cut: Mem, w: Use, i: nat, pg: nat, p: nat)
      requires Place(w) && (w.Root? || w.Mid?) && i < NPTE && Cleared(a, b, w, i) && Cleared(b, c, Child(w, i), NPTE)
      requires Inv(g, c.m, c.use) && At(c.m, w) == Pte(pg, PTE_V) && At(c.m, Child(w, i)) == Pte(p, PTE_V)
      requires p in c.m.tables && Empty(c.m.tables[p])
      requires NoLeaves(c.m, w.id)
      requires pg in c.m.tables && |c.m.tables[pg]| == NPTE && cut == Unlink(c.m, pg, i, p)
      requires tables == cut.tables && roots == cut.roots && use == c.use[p := Hand] - {p}
      requires data == c.data[p := Filled(1)]
      ensures Cleared(a, Now(), w, i + 1) && At(State(), w) == Pte(pg, PTE_V) && NoLeaves(State(), w.id)
    {
      hide At, Inv, Empty, Cleared, Filled;
      ValidV(pg);
      forall x | Place(x) ensures At(State(), x) == if x == Child(w, i) then ZERO else At(c.m, x) {
        UnlinkAt(g, c.m, c.use, Child(w, i), pg, p, x);
        AtTables(cut, State(), x);
      }
      forall r | r in c.use && c.use[r] == Child(w, i) ensures r == p { Know(g, c.m, c.use, w, r); }
      Know(g, c.m, c.use, Child(w, i), p);
      ValidV(p);
      ClearedRoots(b, c, Child(w, i));
      ClearedMore(a, b, c, Now(), w, i, p);
    }

    lemma ClearedRoots(a: World, b: World, w: Use)
      requires Cleared(a, b, w, NPTE)
      ensures b.m.roots == a.m.roots
    {
    }

    lemma Skipped(a: World, w: Use, i: nat)
      requires Ok() && Place(w) && IsTable(w) && i < NPTE && Cleared(a, Now(), w, i)
      requires w.Low? || At(State(), Child(w, i)) == ZERO
      ensures Cleared(a, Now(), w, i + 1)
    {
      hide At, Inv;
      if w.Low? {
        var j := i + 1;
        forall x | Place(x) ensures PlaceCleared(a, Now(), w, j, x) { assert PlaceCleared(a, Now(), w, i, x); }
        forall p ensures UseCleared(a, Now(), w, j, p) { assert UseCleared(a, Now(), w, i, p); }
      } else {
        ClearedSkip(g, a, Now(), w, i);
      }
    }

    lemma AllEmpty(a: World, w: Use, pg: nat)
      requires Ok() && Place(w) && IsTable(w) && At(State(), w) == Pte(pg, PTE_V) && NoLeaves(State(), w.id)
      requires Cleared(a, Now(), w, NPTE)
      ensures pg in tables && Empty(tables[pg])
    {
      hide At, Inv;
      Entries(w, pg, 0);
      forall i | 0 <= i < NPTE ensures tables[pg][i] == ZERO {
        Entries(w, pg, i);
        if !w.Low? { assert PlaceCleared(a, Now(), w, NPTE, Child(w, i)); }
      }
    }

    /** freewalk of an address space with no pages mapped: all its tables are freed. */
    method Freewalk(id: nat) returns (ok: bool)
      requires Ok() && id in roots && NoLeaves(State(), id)
      modifies this`free, this`tables, this`roots, this`data, this`use
      ensures Ok() && ok && Released(old(Now()), Now(), id)
      ensures old(UserReadable(State())) ==> UserReadable(State())
    {
      hide At, PlaceOk, PageOk, Cleared, NoLeaves, Empty, Released, UserReadable;
      ghost var was := Now();
      VmTree.RootAt(State(), id);
      var root := roots[id];
      ok := FreeBelow(root, Root(id));
      ghost var here := Now();
      ClearedRoots(was, here, Root(id));
      WithoutRootInv(g, State(), use, id);
      tables := tables - {root};
      roots := roots - {id};
      use := use[root := Hand];
      ok := Kfree(root);
      AllReleased(was, here, id, root);
      ReleasedReadable(was, Now(), id);
    }

    lemma AllReleased(a: World, b: World, id: nat, root: nat)
      requires Inv(g, a.m, a.use) && Inv(g, b.m, b.use) && Cleared(a, b, Root(id), NPTE) && NoLeaves(a.m, id)
      requires id in b.m.roots && root == b.m.roots[id]
      requires root in b.m.tables && Empty(b.m.tables[root]) && root in b.use && b.use[root] == Root(id)
      requires tables == b.m.tables - {root} && roots == b.m.roots - {id} && use == b.use - {root}
      requires data == b.data[root := Filled(1)]
      ensures Released(a, Now(), id)
    {
      hide At, Inv, Empty, Filled;
      forall w | Place(w) && w.Leaf? ensures At(State(), w) == if w.id == id then ZERO else At(a.m, w) {
        assert PlaceCleared(a, b, Root(id), NPTE, w);
        WithoutRootAt(g, b.m, b.use, id, w);
        AtTables(WithoutRoot(b.m, id), State(), w);
      }
      forall p ensures UseReleased(a, Now(), id, p) {
        assert UseCleared(a, b, Root(id), NPTE, p);
        OwnTable(a, id, p);
        OwnTable(b, id, p);
      }
    }

    /** An address space without mappings has only tables. */
    lemma OwnTable(a: World, id: nat, p: nat)
      requires Inv(g, a.m, a.use)
      ensures NoLeaves(a.m, id) && p in a.use && Owns(a.use[p], id) ==>
                a.use[p] == Root(id) || GoneBelow(a.use[p], Root(id), NPTE)
      ensures p in a.use && a.use[p] == Root(id) ==> id in a.m.roots && a.m.roots[id] == p
    {
      hide At;
      assert PageOk(a.m, a.use, g, p);
      if id in a.m.roots { VmTree.RootAt(a.m, id); } else { NoRoot(a.m, id, Root(id)); }
    }

    /** Free the user pages below sz, then the tables. */
    method Uvmfree(id: nat, sz: nat) returns (ok: bool)
      requires Ok() && id in roots && Pages(sz) <= g.top
      requires forall w :: Place(w) && w.Leaf? && w.id == id ==> (Valid(At(State(), w)) <==> w.v < Pages(sz))
      modifies this`free, this`tables, this`roots, this`data, this`use
      ensures Ok() && ok && Released(old(Now()), Now(), id)
      ensures old(UserReadable(State())) ==> UserReadable(State())
    {
      hide At, PlaceOk, PageOk, Valid, Released, Unmaps, NoLeaves, UserReadable;
      ghost var was := Now();
      if sz > 0 {
        forall x | 0 <= x < Pages(sz) ensures Valid(At(was.m, Leaf(id, x))) { assert Place(Leaf(id, x)); }
        ghost var k;
        ok, k := Uvmunmap(id, 0, Pages(sz), true);
        ghost var here := Now();
        AllUnmapped(was, here, id, Pages(sz));
        ok := Freewalk(id);
        UnmapThenRelease(was, here, Now(), id, 0, Pages(sz));
      } else {
        NothingUnmapped(id, 0, true);
        AllUnmapped(was, was, id, 0);
        ok := Freewalk(id);
      }
    }

    lemma AllUnmapped(a: World, b: World, id: nat, n: nat)
      requires Inv(g, a.m, a.use) && Unmaps(id, 0, n, true, a, b)
      requires forall w :: Place(w) && w.Leaf? && w.id == id ==> (Valid(At(a.m, w)) <==> w.v < n)
      ensures NoLeaves(b.m, id) && b.m.roots == a.m.roots
    {
      hide At, Place;
      forall w | Place(w) && w.Leaf? && w.id == id ensures At(b.m, w) == ZERO { assert PlaceOk(a.m, a.use, g, w); }
    }

    // ---- a process's page table

    /** uvmcreate: an empty address space. */
    method Uvmcreate(id: nat) returns (ok: bool)
      requires Ok() && id !in roots
      modifies this`free, this`tables, this`roots, this`data, this`use
      ensures Ok() && (ok <==> old(free) != [])
      ensures ok ==> Born(old(Now()), Now(), id) && NoLeaves(State(), id) && |free| == |old(free)| - 1
      ensures !ok ==> Now() == old(Now())
      ensures old(UserReadable(State())) ==> UserReadable(State())
    {
      hide At, PlaceOk, PageOk, Born, NoLeaves, UserReadable;
      ghost var was := Now();
      SameTables(id);
      var p := Kalloc();
      if p == 0 {
        return false;
      }
      ghost var here := Now();
      WithRootInv(g, State(), use, id, p);
      tables := tables[p := ZeroTable()];
      roots := roots[id := p];
      use := use[p := Root(id)];
      JustBorn(was, here, id, p);
      NewReadable(was, Now(), id);
      return true;
    }

    lemma JustBorn(a: World, b: World, id: nat, p: nat)
      requires Inv(g, b.m, b.use) && p !in a.use && b.use == a.use[p := Hand] && b.m.tables == a.m.tables
      requires b.m.roots == a.m.roots
      requires id !in b.m.roots && (forall r :: r in a.use ==> r in a.data)
      requires forall r :: r in a.data && r != p ==> r in b.data && b.data[r] == a.data[r]
      requires State() == WithRoot(b.m, id, p) && use == b.use[p := Root(id)] && data == b.data
      ensures Born(a, Now(), id) && NoLeaves(State(), id)
    {
      hide At, Inv;
      forall w | Place(w) && w.Leaf? ensures At(State(), w) == if w.id == id then ZERO else At(a.m, w) {
        WithRootAt(g, b.m, b.use, id, p, w);
        AtTables(a.m, b.m, w);
        if w.id == id { NoRoot(b.m, id, w); }
      }
    }

    /** proc_pagetable: the trampoline and trapframe pages mapped and nothing else.
        A failure at any allocation gives every page back. */
    method ProcPagetable(id: nat, frame: nat, tramp: nat) returns (ok: bool)
      requires Ok() && id !in roots && g.top == TRAPFRAME
      modifies this`free, this`tables, this`roots, this`data, this`use
      ensures Ok()
      ensures ok ==>
                Born(old(Now()), Now(), id) &&
                MapsJust(State(), id, Pte(tramp, PTE_R | PTE_X | PTE_V), Pte(frame, PTE_R | PTE_W | PTE_V))
      ensures !ok ==> Alike(old(Now()), Now()) && |old(free)| < 5
      ensures old(UserReadable(State())) ==> UserReadable(State())
    {
      hide At, Inv, Valid, Born, NoLeaves, Released, Alike, Maps, Unmaps, MapsJust, UserReadable;
      ghost var was := Now();
      SameAlike();
      ok := Uvmcreate(id);
      if !ok {
        return;
      }
      ghost var born := Now();
      BornHas(was, born, id);
      LeafPerms();
      var r, k := Mappages(id, TRAMPOLINE, 1, tramp, PTE_R | PTE_X);
      ghost var first := Now();
      BornMaps(g, was, born, first, id, TRAMPOLINE, k, tramp, PTE_R | PTE_X | PTE_V);
      BornHas(was, first, id);
      FirstMapped(born, first, id, k, tramp, PTE_R | PTE_X | PTE_V);
      if r != Done {
        assert k == 0;
        var _ := Freewalk(id);
        BornReleased(g, was, first, Now(), id);
        return false;
      }
      r, k := Mappages(id, TRAPFRAME, 1, frame, PTE_R | PTE_W);
      ghost var second := Now();
      BornMaps(g, was, first, second, id, TRAPFRAME, k, frame, PTE_R | PTE_W | PTE_V);
      BornHas(was, second, id);
      SecondMapped(first, second, id, k, Pte(tramp, PTE_R | PTE_X | PTE_V), frame, PTE_R | PTE_W | PTE_V);
      if r != Done {
        assert k == 0;
        var _, k1 := Uvmunmap(id, TRAMPOLINE, 1, false);
        FrameGone(second, Now(), id, k1, Pte(tramp, PTE_R | PTE_X | PTE_V));
        ghost var bare := Now();
        var _ := Freewalk(id);
        UnmapShared(g, second, bare, Now(), id, TRAMPOLINE);
        BornReleased(g, was, second, Now(), id);
        return false;
      }
      return true;
    }

    lemma SameAlike()
      requires Ok()
      ensures Alike(Now(), Now())
    {
      hide At;
      SameTables(0);
    }

    lemma LeafPerms()
      ensures (PTE_R | PTE_X) & (PTE_R | PTE_W | PTE_X) != 0 && (PTE_R | PTE_W) & (PTE_R | PTE_W | PTE_X) != 0
      ensures (PTE_R | PTE_X) & PTE_U == 0 && (PTE_R | PTE_W) & PTE_U == 0
    {
    }

    lemma BornHas(a: World, b: World, id: nat)
      requires Born(a, b, id)
      ensures id in b.m.roots && id !in a.m.roots
    {
    }

    lemma FirstMapped(a: World, b: World, id: nat, k: nat, ppn: nat, flags: bv10)
      requires NoLeaves(a.m, id) && k <= 1 && Maps(g, id, TRAMPOLINE, k, ppn, flags, a, b)
      ensures !Valid(At(a.m, Leaf(id, TRAMPOLINE)))
      ensures if k == 0 then NoLeaves(b.m, id) else MapsJust(b.m, id, Pte(ppn, flags), ZERO)
    {
      hide At;
      assert Place(Leaf(id, TRAMPOLINE));
    }

    lemma SecondMapped(a: World, b: World, id: nat, k: nat, tramp: Pte, ppn: nat, flags: bv10)
      requires MapsJust(a.m, id, tramp, ZERO) && k <= 1 && Maps(g, id, TRAPFRAME, k, ppn, flags, a, b)
      ensures !Valid(At(a.m, Leaf(id, TRAPFRAME)))
      ensures MapsJust(b.m, id, tramp, if k == 0 then ZERO else Pte(ppn, flags))
    {
      hide At;
      assert Place(Leaf(id, TRAPFRAME));
    }

    lemma FrameGone(a: World, b: World, id: nat, k: nat, tramp: Pte)
      requires MapsJust(a.m, id, tramp, ZERO) && k <= 1 && Unmaps(id, TRAMPOLINE, k, false, a, b)
      requires k == 1 || !Valid(At(a.m, Leaf(id, TRAMPOLINE)))
      requires tramp.flags == PTE_R | PTE_X | PTE_V
      ensures k == 1 && NoLeaves(b.m, id) && b.m.roots == a.m.roots
    {
      hide At;
      assert Place(Leaf(id, TRAMPOLINE));
    }

    /** proc_freepagetable: every page the address space had is free again. */
    method ProcFreepagetable(id: nat, sz: nat) returns (ok: bool)
      requires Ok() && id in roots && g.top == TRAPFRAME && Pages(sz) <= g.top
      requires forall w :: Place(w) && w.Leaf? && w.id == id ==>
                (Valid(At(State(), w)) <==> w.v < Pages(sz) || w.v == TRAMPOLINE || w.v == TRAPFRAME)
      modifies this`free, this`tables, this`roots, this`data, this`use
      ensures Ok() && ok && Released(old(Now()), Now(), id)
      ensures old(UserReadable(State())) ==> UserReadable(State())
    {
      hide At, Inv, Valid, Released, Unmaps, UserReadable;
      ghost var was := Now();
      assert Place(Leaf(id, TRAMPOLINE)) && Place(Leaf(id, TRAPFRAME));
      ghost var k;
      ok, k := Uvmunmap(id, TRAMPOLINE, 1, false);
      ghost var one := Now();
      OneLess(was, one, id, TRAMPOLINE);
      ok, k := Uvmunmap(id, TRAPFRAME, 1, false);
      ghost var two := Now();
      OneLess(one, two, id, TRAPFRAME);
      ok := Uvmfree(id, sz);
      UnmapShared(g, one, two, Now(), id, TRAPFRAME);
      UnmapShared(g, was, one, Now(), id, TRAMPOLINE);
    }

    lemma OneLess(a: World, b: World, id: nat, v: nat)
      requires Unmaps(id, v, 1, false, a, b)
      ensures b.m.roots == a.m.roots
      ensures forall w :: Place(w) && w.Leaf? && w.id == id ==> (Valid(At(b.m, w)) <==> Valid(At(a.m, w)) && w.v != v)
    {
      hide At, Place;
    }
  }
}
