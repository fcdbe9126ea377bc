/** Address translation as section 4.3.2 of the RISC-V Privileged Architecture describes
    it for Sv39, over the 64-bit words in memory, and that it finds what the kernel's
    tables mean. */
module Sv39 {
  import opened VmTree
  import opened Vm
  import opened VmCopy

  // ---- words and addresses

  /** PX(level, va): the 9-bit fields of a virtual address above its 12-bit offset. */
  function PX(level: nat, va: bv64): bv9
    requires level <= 2
  {
    ((va >> (12 + 9 * level)) & 0x1FF) as bv9
  }

  /** The virtual page number: the three fields, the highest first. */
  function PageOf(va: bv64): (v: nat)
    ensures v < VPNS
  {
    ((PX(2, va) as nat) * NPTE + PX(1, va) as nat) * NPTE + PX(0, va) as nat
  }

  const V: bv64 := 1
  const R: bv64 := 2
  const W: bv64 := 4
  const X: bv64 := 8

  /** The page number field of an entry, and its low ten bits. */
  function Decode(w: bv64): Pte {
    Pte((w >> 10) as bv54 as nat, (w & 0x3FF) as bv10)
  }

  /** Page numbers of tables to the words in them. */
  type Ram = map<nat, seq<bv64>>

  /** Memory holds these tables. */
  ghost predicate Represents(ram: Ram, m: Mem) {
    forall p :: p in m.tables ==> p in ram && |ram[p]| == |m.tables[p]| && TableIs(ram[p], m.tables[p])
  }

  ghost predicate TableIs(ws: seq<bv64>, es: seq<Pte>)
    requires |ws| == |es|
  {
    forall i :: 0 <= i < |ws| ==> Decode(ws[i]) == es[i]
  }

  datatype Outcome = Fault | Page(ppn: nat, flags: bv10, level: nat)

  /** From the table at page p, at this level. */
  function TranslateAt(ram: Ram, p: nat, va: bv64, level: nat): Outcome
    requires level <= 2
    decreases level
  {
    if p !in ram || |ram[p]| != NPTE then Fault
    else
      var w := ram[p][PX(level, va) as nat];
      if w & V == 0 || (w & R == 0 && w & W != 0) then Fault
      else if w & (R | X) != 0 then Page(Decode(w).ppn, Decode(w).flags, level)
      else if level == 0 then Fault
      else TranslateAt(ram, Decode(w).ppn, va, level - 1)
  }

  // ---- the kernel's tables

  lemma FlagBits(w: bv64)
    ensures var f := Decode(w).flags;
            && (w & V != 0 <==> f & PTE_V != 0) && (w & R != 0 <==> f & PTE_R != 0) && (w & W != 0 <==> f & PTE_W != 0)
            && (w & (R | X) != 0 <==> f & (PTE_R | PTE_X) != 0)
  {
  }

  lemma TableFlags()
    ensures PTE_V & PTE_V != 0 && PTE_V & PTE_R == 0 && PTE_V & PTE_W == 0 && PTE_V & (PTE_R | PTE_X) == 0
  {
  }

  lemma Digits(a: nat, b: nat, c: nat)
    requires a < NPTE && b < NPTE && c < NPTE
    ensures var v := (a * NPTE + b) * NPTE + c;
            && v < VPNS && v / NPTE == a * NPTE + b && v % NPTE == c
            && (a * NPTE + b) / NPTE == a && (a * NPTE + b) % NPTE == b && a % NPTE == a
  {
  }

  lemma DigitPlaces(id: nat, a: nat, b: nat, c: nat, v: nat)
    requires a < NPTE && b < NPTE && c < NPTE && v < VPNS
    requires v / NPTE == a * NPTE + b && v % NPTE == c
    requires (a * NPTE + b) / NPTE == a && (a * NPTE + b) % NPTE == b && a % NPTE == a
    ensures Above(Leaf(id, v)) == Low(id, a, b) && Index(Leaf(id, v)) == c
    ensures Px(2, v) == a && Px(1, v) == b && Px(0, v) == c
  {
  }

  /** The fields of an address are the places of its page in the tables. */
  lemma Places(id: nat, va: bv64)
    ensures var v := PageOf(va);
            && Above(Leaf(id, v)) == Low(id, PX(2, va) as nat, PX(1, va) as nat)
            && Index(Leaf(id, v)) == PX(0, va) as nat
            && Px(2, v) == PX(2, va) as nat && Px(1, v) == PX(1, va) as nat && Px(0, v) == PX(0, va) as nat
  {
    hide PX, Above, Index, Px;
    var a, b, c := PX(2, va) as nat, PX(1, va) as nat, PX(0, va) as nat;
    Digits(a, b, c);
    DigitPlaces(id, a, b, c, PageOf(va));
  }

  /** A word the kernel has put where its tables have entry e. */
  lemma ReadsEntry(ram: Ram, m: Mem, p: nat, i: bv9)
    requires Represents(ram, m) && p in m.tables && |m.tables[p]| == NPTE
    ensures p in ram && |ram[p]| == NPTE && Decode(ram[p][i as nat]) == Entry(m, p, i as nat)
  {
    hide Decode;
    assert TableIs(ram[p], m.tables[p]);
  }

  /** A valid entry for a table is a pointer to the next level. */
  lemma Descends(g: Layout, m: Mem, use: map<nat, Use>, ram: Ram, va: bv64, w: Use, u: Use, level: nat)
    requires Inv(g, m, use) && Represents(ram, m) && Place(w) && Place(u) && IsTable(w) && IsTable(u) && !u.Root?
    requires Above(u) == w && 0 < level <= 2 && Index(u) == PX(level, va) as nat && Valid(At(m, w))
    ensures TranslateAt(ram, At(m, w).ppn, va, level) ==
            if Valid(At(m, u)) then TranslateAt(ram, At(m, u).ppn, va, level - 1) else Fault
  {
    hide Inv, Decode, PX, Represents;
    Know(g, m, use, w, 0);
    Know(g, m, use, u, 0);
    var p := At(m, w).ppn;
    ReadsEntry(ram, m, p, PX(level, va));
    FlagBits(ram[p][PX(level, va) as nat]);
    TableFlags();
  }

  lemma ReadsLeaf(g: Layout, m: Mem, use: map<nat, Use>, ram: Ram, va: bv64, w: Use, u: Use)
    requires Inv(g, m, use) && Represents(ram, m) && Place(w) && Place(u) && IsTable(w) && u.Leaf?
    requires Above(u) == w && Index(u) == PX(0, va) as nat && Valid(At(m, w))
    ensures TranslateAt(ram, At(m, w).ppn, va, 0) == Expected(At(m, u))
  {
    hide Inv, Decode, PX, Represents;
    Know(g, m, use, w, 0);
    var p := At(m, w).ppn;
    ReadsEntry(ram, m, p, PX(0, va));
    FlagBits(ram[p][PX(0, va) as nat]);
  }

  /** What the entry for a page stands for: W without R is reserved, and a page must be
      readable or executable. */
  function Expected(e: Pte): Outcome {
    if !Valid(e) || (e.flags & PTE_R == 0 && e.flags & PTE_W != 0) || e.flags & (PTE_R | PTE_X) == 0 then Fault
    else Page(e.ppn, e.flags, 0)
  }

  /** The hardware, given an address space's root and any virtual address, finds the page
      and flags of the entry the kernel has for the address's page, or faults. */
  lemma TranslatesToLeaf(g: Layout, m: Mem, use: map<nat, Use>, ram: Ram, id: nat, va: bv64)
    requires Inv(g, m, use) && Represents(ram, m) && id in m.roots
    ensures TranslateAt(ram, m.roots[id], va, 2) == Expected(At(m, Leaf(id, PageOf(va))))
  {
    hide Inv, Represents, TranslateAt, PX, Expected, PageOf;
    Places(id, va);
    var i2, i1 := PX(2, va) as nat, PX(1, va) as nat;
    var mid, low, leaf := Mid(id, i2), Low(id, i2, i1), Leaf(id, PageOf(va));
    Rooted(m, id);
    Descends(g, m, use, ram, va, Root(id), mid, 2);
    if Valid(At(m, mid)) {
      Descends(g, m, use, ram, va, mid, low, 1);
      if Valid(At(m, low)) {
        ReadsLeaf(g, m, use, ram, va, low, leaf);
      } else {
        MissingFaults(m, leaf);
      }
    } else {
      MissingFaults(m, low);
      NotThere();
      MissingFaults(m, leaf);
    }
  }

  /** What user code may do at an address, by bits 1, 2 and 4 of the entry found. */
  predicate UserMayRead(o: Outcome) {
    o.Page? && o.flags & 0x10 != 0 && o.flags & 0x02 != 0
  }

  predicate UserMayWrite(o: Outcome) {
    o.Page? && o.flags & 0x10 != 0 && o.flags & 0x04 != 0
  }

  lemma EntryAccess(e: Pte)
    ensures UserMayRead(Expected(e)) <==> Valid(e) && User(e) && CanRead(e)
    ensures UserMayWrite(Expected(e)) <==> Valid(e) && User(e) && Writable(e) && CanRead(e)
  {
  }

  /** The kernel's idea of what user code can read is the hardware's; and so is its idea of
      what it can write, where no user page lacks the read permission. */
  lemma UserAccess(g: Layout, a: World, ram: Ram, id: nat, va: bv64, x: nat)
    requires Inv(g, a.m, a.use) && Represents(ram, a.m) && id in a.m.roots
    requires x / PGSIZE == PageOf(va) < MAXVPN
    ensures var o := TranslateAt(ram, a.m.roots[id], va, 2);
            && (UserMayRead(o) <==> Readable(a, id, x))
            && (UserReadable(a.m) ==> (UserMayWrite(o) <==> Writeable(a, id, x)))
  {
    hide Inv, Represents, TranslateAt, Expected, UserMayRead, UserMayWrite, Valid, User, CanRead, Writable, At;
    TranslatesToLeaf(g, a.m, a.use, ram, id, va);
    EntryAccess(At(a.m, Leaf(id, PageOf(va))));
  }

  lemma Rooted(m: Mem, id: nat)
    requires id in m.roots
    ensures At(m, Root(id)) == Pte(m.roots[id], PTE_V) && Valid(At(m, Root(id)))
  {
  }

  lemma NotThere()
    ensures !Valid(ZERO)
  {
  }

  lemma MissingFaults(m: Mem, w: Use)
    requires Place(w) && !w.Root? && !Valid(At(m, Above(w)))
    ensures At(m, w) == ZERO && Expected(ZERO) == Fault
  {
  }

  /** mappages' word decodes to the page it is made for, with its permissions. */
  lemma DecodesMade(pa: bv64, perm: bv64)
    requires pa & 0xFFF == 0 && pa < 0x0100_0000_0000_0000 && perm < 0x400
    ensures Decode(Pa2Pte(pa) | perm | 1).ppn == (pa >> 12) as bv54 as nat
    ensures Decode(Pa2Pte(pa) | perm | 1).flags == (perm | 1) as bv10
  {
    hide Pa2Pte;
    MadeWord(pa, perm);
  }

  lemma MadeWord(pa: bv64, perm: bv64)
    requires pa & 0xFFF == 0 && pa < 0x0100_0000_0000_0000 && perm < 0x400
    ensures (Pa2Pte(pa) | perm | 1) >> 10 == pa >> 12 && (Pa2Pte(pa) | perm | 1) & 0x3FF == perm | 1
  {
  }
}
