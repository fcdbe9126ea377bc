/** copyin, copyout and copyinstr: user memory seen byte by byte through a page
    table. */
module VmCopy {
  import opened Base
  import opened VmTree
  import opened Vm

  /** Virtual address va is mapped for user code: what walkaddr asks for. */
  ghost predicate Mapped(a: World, id: nat, va: nat) {
    va / PGSIZE < MAXVPN && Valid(At(a.m, Leaf(id, va / PGSIZE))) && User(At(a.m, Leaf(id, va / PGSIZE)))
  }

  /** User code can read va. */
  ghost predicate Readable(a: World, id: nat, va: nat) {
    Mapped(a, id, va) && CanRead(At(a.m, Leaf(id, va / PGSIZE)))
  }

  ghost predicate Writeable(a: World, id: nat, va: nat) {
    Mapped(a, id, va) && Writable(At(a.m, Leaf(id, va / PGSIZE)))
  }

  /** The byte user code would read. */
  ghost function UserByte(a: World, id: nat, va: nat): Byte
    requires Mapped(a, id, va)
  {
    ByteOf(a, At(a.m, Leaf(id, va / PGSIZE)).ppn, va % PGSIZE)
  }

  ghost function ByteOf(a: World, p: nat, i: nat): Byte {
    if p in a.data && i < |a.data[p]| then a.data[p][i] else 0
  }

  ghost predicate AllMapped(a: World, id: nat, from: nat, to: nat) {
    forall x :: from <= x < to ==> Mapped(a, id, x)
  }

  ghost predicate AllReadable(a: World, id: nat, from: nat, to: nat) {
    forall x :: from <= x < to ==> Readable(a, id, x)
  }

  /** Where every user page can be read, as uvmalloc and uvmcopy leave it, the two agree. */
  lemma MappedIsReadable(a: World, id: nat, va: nat)
    requires UserReadable(a.m)
    ensures Mapped(a, id, va) <==> Readable(a, id, va)
  {
    hide At;
    assert va / PGSIZE < MAXVPN ==> Place(Leaf(id, va / PGSIZE));
  }

  lemma AllMappedReadable(a: World, id: nat, from: nat, to: nat)
    requires UserReadable(a.m)
    ensures AllMapped(a, id, from, to) <==> AllReadable(a, id, from, to)
  {
    hide UserReadable, Mapped, Readable;
    forall x: nat ensures Mapped(a, id, x) <==> Readable(a, id, x) { MappedIsReadable(a, id, x); }
  }

  ghost predicate AllWriteable(a: World, id: nat, from: nat, to: nat) {
    forall x :: from <= x < to ==> Writeable(a, id, x)
  }

  /** User code would read s at va. */
  ghost predicate Reads(a: World, id: nat, va: nat, s: seq<Byte>) {
    forall x :: va <= x < va + |s| ==> Mapped(a, id, x) && UserByte(a, id, x) == s[x - va]
  }

  /** User pages are pages of the allocator's, each mapped once. */
  lemma UserPage(g: Layout, a: World, id: nat, va: nat)
    requires Inv(g, a.m, a.use) && Mapped(a, id, va) && g.top <= MAXVPN
    ensures var p := At(a.m, Leaf(id, va / PGSIZE)).ppn;
            g.lo <= p < g.hi && p != 0 && p in a.use && a.use[p] == Leaf(id, va / PGSIZE)
  {
    hide At;
    var w := Leaf(id, va / PGSIZE);
    assert PlaceOk(a.m, a.use, g, w);
    assert PageOk(a.m, a.use, g, At(a.m, w).ppn);
  }

  /** walkaddr: the physical page, or 0. */
  method Walkaddr(vm: AddressSpaces, id: nat, v: nat) returns (p: nat)
    requires vm.Ok() && id in vm.roots
    modifies vm`free, vm`tables, vm`data, vm`use
    ensures vm.Ok() && vm.Now() == old(vm.Now())
    ensures p != 0 <==> Mapped(vm.Now(), id, v * PGSIZE)
    ensures p != 0 ==> p == At(vm.State(), Leaf(id, v)).ppn && p in vm.data && |vm.data[p]| == PGSIZE
  {
    hide At, PlaceOk, PageOk, Valid, User;
    assert v * PGSIZE / PGSIZE == v;
    if v >= MAXVPN {
      return 0;
    }
    var q := vm.Walk(id, v, false);
    if q == 0 {
      vm.MissingLeaf(Leaf(id, v));
      return 0;
    }
    vm.EntryIs(Leaf(id, v), q);
    var e := vm.tables[q][v % NPTE];
    if !Valid(e) {
      return 0;
    }
    if !User(e) {
      return 0;
    }
    UserPage(vm.g, vm.Now(), id, v * PGSIZE);
    return e.ppn;
  }

  /** Bytes of one page, from va on. */
  lemma PageBytes(a: World, id: nat, va: nat, n: nat)
    requires va % PGSIZE + n <= PGSIZE && Mapped(a, id, va)
    requires var p := At(a.m, Leaf(id, va / PGSIZE)).ppn; p in a.data && |a.data[p]| == PGSIZE
    ensures Reads(a, id, va, a.data[At(a.m, Leaf(id, va / PGSIZE)).ppn][va % PGSIZE..va % PGSIZE + n])
  {
    hide At, Valid, User;
    forall x | va <= x < va + n
      ensures Mapped(a, id, x)
      ensures UserByte(a, id, x) == ByteOf(a, At(a.m, Leaf(id, va / PGSIZE)).ppn, va % PGSIZE + (x - va))
    {
      InPage(va, x);
    }
  }

  lemma InPage(va: nat, x: nat)
    requires va <= x && va % PGSIZE + (x - va) < PGSIZE
    ensures x / PGSIZE == va / PGSIZE && x % PGSIZE == va % PGSIZE + (x - va)
  {
  }

  lemma ReadsMore(a: World, id: nat, va: nat, s: seq<Byte>, t: seq<Byte>)
    requires Reads(a, id, va, s) && Reads(a, id, va + |s|, t)
    ensures Reads(a, id, va, s + t) && AllMapped(a, id, va, va + |s| + |t|)
  {
    hide Mapped, UserByte;
  }

  lemma SamePage(a: World, id: nat, va: nat)
    ensures Mapped(a, id, va / PGSIZE * PGSIZE) <==> Mapped(a, id, va)
  {
    assert va / PGSIZE * PGSIZE / PGSIZE == va / PGSIZE;
  }

  /** len bytes from srcva.  It succeeds exactly when they are all mapped for user code,
      which is when user code could read them all, unless some user page is not readable. */
  method Copyin(vm: AddressSpaces, id: nat, srcva: nat, len: nat) returns (ok: bool, dst: seq<Byte>)
    requires vm.Ok() && id in vm.roots
    modifies vm`free, vm`tables, vm`data, vm`use
    ensures vm.Ok() && vm.Now() == old(vm.Now())
    ensures ok <==> AllMapped(vm.Now(), id, srcva, srcva + len)
    ensures UserReadable(vm.State()) ==> (ok <==> AllReadable(vm.Now(), id, srcva, srcva + len))
    ensures ok ==> |dst| == len && Reads(vm.Now(), id, srcva, dst)
  {
    hide At, Inv, Valid, User, Mapped, UserByte, UserReadable, AllReadable;
    dst := [];
    while |dst| < len
      invariant |dst| <= len && vm.Ok() && vm.Now() == old(vm.Now()) && Reads(vm.Now(), id, srcva, dst)
      invariant AllMapped(vm.Now(), id, srcva, srcva + |dst|)
    {
      var va := srcva + |dst|;
      var p := Walkaddr(vm, id, va / PGSIZE);
      SamePage(vm.Now(), id, va);
      if p == 0 {
        if UserReadable(vm.State()) { AllMappedReadable(vm.Now(), id, srcva, srcva + len); }
        return false, dst;
      }
      var n := if len - |dst| < PGSIZE - va % PGSIZE then len - |dst| else PGSIZE - va % PGSIZE;
      PageBytes(vm.Now(), id, va, n);
      ReadsMore(vm.Now(), id, srcva, dst, vm.data[p][va % PGSIZE..va % PGSIZE + n]);
      dst := dst + vm.data[p][va % PGSIZE..va % PGSIZE + n];
    }
    if UserReadable(vm.State()) { AllMappedReadable(vm.Now(), id, srcva, srcva + len); }
    ok := true;
  }

  /** A string: the bytes up to a NUL.  It succeeds exactly when a NUL comes within
      max bytes and everything up to it is mapped for user code. */
  method Copyinstr(vm: AddressSpaces, id: nat, srcva: nat, max: nat) returns (ok: bool, dst: seq<Byte>)
    requires vm.Ok() && id in vm.roots
    modifies vm`free, vm`tables, vm`data, vm`use
    ensures vm.Ok() && vm.Now() == old(vm.Now())
    ensures ok <==> exists s :: |s| < max && IsString(vm.Now(), id, srcva, s)
    ensures ok ==> |dst| < max && IsString(vm.Now(), id, srcva, dst)
    ensures ok && UserReadable(vm.State()) ==> AllReadable(vm.Now(), id, srcva, srcva + |dst| + 1)
  {
    hide At, Inv, Valid, User, Mapped, UserByte, IsString, UserReadable, AllReadable;
    dst := [];
    ghost var a := vm.Now();
    while |dst| < max
      invariant |dst| <= max && vm.Ok() && vm.Now() == a == old(vm.Now()) && Reads(a, id, srcva, dst) && 0 !in dst
    {
      var va := srcva + |dst|;
      var p := Walkaddr(vm, id, va / PGSIZE);
      SamePage(a, id, va);
      if p == 0 {
        NoString(a, id, srcva, dst, max);
        return false, dst;
      }
      var n := if max - |dst| < PGSIZE - va % PGSIZE then max - |dst| else PGSIZE - va % PGSIZE;
      PageBytes(a, id, va, n);
      var page := vm.data[p][va % PGSIZE..va % PGSIZE + n];
      var i := CopyToNul(page);
      ReadsFirst(a, id, va, page, i);
      ReadsMore(a, id, srcva, dst, page[..i]);
      dst := dst + page[..i];
      if i < n {
        StringFound(a, id, srcva, dst, va, page, i);
        if UserReadable(vm.State()) { StringReadable(a, id, srcva, dst); }
        return true, dst;
      }
    }
    TooLong(a, id, srcva, dst, max);
    ok := false;
  }

  /** copyinstr's inner loop: how much of the page comes before a NUL. */
  method CopyToNul(page: seq<Byte>) returns (i: nat)
    ensures i <= |page| && 0 !in page[..i] && (i < |page| ==> page[i] == 0)
  {
    i := 0;
    while i < |page| && page[i] != 0
      invariant i <= |page| && 0 !in page[..i]
    {
      i := i + 1;
    }
  }

  /** User memory at va holds the string s. */
  ghost predicate IsString(a: World, id: nat, va: nat, s: seq<Byte>) {
    Reads(a, id, va, s) && 0 !in s && Mapped(a, id, va + |s|) && UserByte(a, id, va + |s|) == 0
  }

  lemma ReadsFirst(a: World, id: nat, va: nat, s: seq<Byte>, i: nat)
    requires Reads(a, id, va, s) && i <= |s|
    ensures Reads(a, id, va, s[..i])
  {
    hide Mapped, UserByte;
  }

  lemma StringFound(a: World, id: nat, srcva: nat, dst: seq<Byte>, va: nat, page: seq<Byte>, i: nat)
    requires Reads(a, id, srcva, dst) && 0 !in dst && Reads(a, id, va, page) && i < |page| && page[i] == 0
    requires srcva + |dst| == va + i
    ensures IsString(a, id, srcva, dst)
  {
    hide Mapped, UserByte;
  }

  lemma StringReadable(a: World, id: nat, va: nat, s: seq<Byte>)
    requires IsString(a, id, va, s) && UserReadable(a.m)
    ensures AllReadable(a, id, va, va + |s| + 1)
  {
    hide Mapped, UserByte, UserReadable, AllReadable;
    AllMappedReadable(a, id, va, va + |s| + 1);
  }

  /** Two strings at one address are the same. */
  lemma OneString(a: World, id: nat, va: nat, s: seq<Byte>, t: seq<Byte>)
    requires IsString(a, id, va, s) && Reads(a, id, va, t) && 0 !in t
    ensures |t| <= |s|
  {
    hide Mapped, UserByte;
    assert Mapped(a, id, va + |s|);
  }

  lemma NoString(a: World, id: nat, va: nat, s: seq<Byte>, max: nat)
    requires Reads(a, id, va, s) && 0 !in s && !Mapped(a, id, va + |s|)
    ensures !exists t :: |t| < max && IsString(a, id, va, t)
  {
    hide Mapped, UserByte;
    forall t ensures !IsString(a, id, va, t) {
      if IsString(a, id, va, t) { OneString(a, id, va, t, s); }
    }
  }

  lemma TooLong(a: World, id: nat, va: nat, s: seq<Byte>, max: nat)
    requires Reads(a, id, va, s) && 0 !in s && |s| == max
    ensures !exists t :: |t| < max && IsString(a, id, va, t)
  {
    hide Mapped, UserByte;
    forall t | IsString(a, id, va, t) ensures |t| >= max { OneString(a, id, va, t, s); }
  }

  // ---- copyout

  /** User code of id would now read s at va; every other byte user code can read is
      what it was, and so is every page that is not user memory. */
  ghost predicate Wrote(a: World, b: World, id: nat, va: nat, s: seq<Byte>) {
    && b.m == a.m && b.use == a.use
    && (forall i: nat, x: nat :: Mapped(a, i, x) ==>
          && Mapped(b, i, x)
          && UserByte(b, i, x) == if i == id && va <= x < va + |s| then s[x - va] else UserByte(a, i, x))
    && (forall p :: p in a.use && !a.use[p].Leaf? ==> p in a.data && p in b.data && b.data[p] == a.data[p])
  }

  lemma WroteMore(a: World, b: World, c: World, id: nat, va: nat, s: seq<Byte>, t: seq<Byte>)
    requires Wrote(a, b, id, va, s) && Wrote(b, c, id, va + |s|, t)
    ensures Wrote(a, c, id, va, s + t)
  {
    hide Mapped, UserByte;
    forall i: nat, x: nat | Mapped(a, i, x)
      ensures Mapped(c, i, x)
      ensures UserByte(c, i, x) == if i == id && va <= x < va + |s + t| then (s + t)[x - va] else UserByte(a, i, x)
    {
      assert Mapped(b, i, x);
    }
  }

  function Patch(d: seq<Byte>, k: nat, s: seq<Byte>): (r: seq<Byte>)
    requires k + |s| <= |d|
    ensures |r| == |d| && forall i :: 0 <= i < |d| ==> r[i] == if k <= i < k + |s| then s[i - k] else d[i]
  {
    d[..k] + s + d[k + |s|..]
  }

  /** Writing within one user page. */
  lemma WrotePage(g: Layout, a: World, id: nat, va: nat, s: seq<Byte>)
    requires Inv(g, a.m, a.use) && g.top <= MAXVPN && Mapped(a, id, va) && va % PGSIZE + |s| <= PGSIZE
    requires forall p :: g.lo <= p < g.hi ==> p in a.data && |a.data[p]| == PGSIZE
    ensures var p := At(a.m, Leaf(id, va / PGSIZE)).ppn;
            p in a.data && |a.data[p]| == PGSIZE &&
            Wrote(a, a.(data := a.data[p := Patch(a.data[p], va % PGSIZE, s)]), id, va, s)
  {
    hide At, Inv, Patch;
    UserPage(g, a, id, va);
    var p := At(a.m, Leaf(id, va / PGSIZE)).ppn;
    var b := a.(data := a.data[p := Patch(a.data[p], va % PGSIZE, s)]);
    forall i: nat, x: nat | Mapped(a, i, x)
      ensures Mapped(b, i, x)
      ensures UserByte(b, i, x) == if i == id && va <= x < va + |s| then s[x - va] else UserByte(a, i, x)
    {
      UserPage(g, a, i, x);
      PatchAt(a.data[p], va % PGSIZE, s, x % PGSIZE);
      SameOrNot(va, x, |s|);
    }
    forall r | r in a.use && !a.use[r].Leaf?
      ensures r in a.data && r in b.data && b.data[r] == a.data[r]
    {
      Know(g, a.m, a.use, Root(0), r);
    }
  }

  lemma PatchAt(d: seq<Byte>, k: nat, s: seq<Byte>, i: nat)
    requires k + |s| <= |d| && i < |d|
    ensures |Patch(d, k, s)| == |d| && Patch(d, k, s)[i] == if k <= i < k + |s| then s[i - k] else d[i]
  {
  }

  lemma SameOrNot(va: nat, x: nat, n: nat)
    requires va % PGSIZE + n <= PGSIZE
    ensures va <= x < va + n <==> x / PGSIZE == va / PGSIZE && va % PGSIZE <= x % PGSIZE < va % PGSIZE + n
    ensures x / PGSIZE == va / PGSIZE ==> x - va == x % PGSIZE - va % PGSIZE
  {
  }

  /** The page of virtual address va, or 0 if user code may not write it. */
  method WritablePage(vm: AddressSpaces, id: nat, va: nat) returns (p: nat)
    requires vm.Ok() && id in vm.roots
    modifies vm`free, vm`tables, vm`data, vm`use
    ensures vm.Ok() && vm.Now() == old(vm.Now())
    ensures p != 0 <==> Writeable(vm.Now(), id, va)
    ensures p != 0 ==> p == At(vm.State(), Leaf(id, va / PGSIZE)).ppn && p in vm.data && |vm.data[p]| == PGSIZE
  {
    hide At, PlaceOk, PageOk, Valid, User, Writable;
    var v := va / PGSIZE;
    if v >= MAXVPN {
      return 0;
    }
    var q := vm.Walk(id, v, false);
    if q == 0 {
      vm.MissingLeaf(Leaf(id, v));
      return 0;
    }
    vm.EntryIs(Leaf(id, v), q);
    var e := vm.tables[q][v % NPTE];
    if !Valid(e) || !User(e) || !Writable(e) {
      return 0;
    }
    UserPage(vm.g, vm.Now(), id, va);
    return e.ppn;
  }

  /** src to dstva.  It succeeds exactly when user code could write all of it;
      otherwise the pages before the first it could not are written. */
  method Copyout(vm: AddressSpaces, id: nat, dstva: nat, src: seq<Byte>) returns (ok: bool, ghost done: nat)
    requires vm.Ok() && id in vm.roots
    modifies vm`free, vm`tables, vm`data, vm`use
    ensures vm.Ok() && done <= |src| && Wrote(old(vm.Now()), vm.Now(), id, dstva, src[..done])
    ensures ok <==> done == |src|
    ensures ok <==> AllWriteable(old(vm.Now()), id, dstva, dstva + |src|)
  {
    hide At, Inv, Valid, User, Mapped, UserByte, Patch, Wrote, Writeable;
    ghost var a := vm.Now();
    WroteNothing(vm, id, dstva);
    var n := 0;
    assert src[..0] == [];
    while n < |src|
      invariant n <= |src| && vm.Ok() && id in vm.roots && Wrote(a, vm.Now(), id, dstva, src[..n])
      invariant AllWriteable(a, id, dstva, dstva + n)
    {
      var va := dstva + n;
      ghost var here := vm.Now();
      SameMap(a, here, id, dstva, src[..n], va);
      var p := WritablePage(vm, id, va);
      if p == 0 {
        return false, n;
      }
      var m := if |src| - n < PGSIZE - va % PGSIZE then |src| - n else PGSIZE - va % PGSIZE;
      WriteableIsMapped(here, id, va);
      WrotePage(vm.g, here, id, va, src[n..n + m]);
      vm.data := vm.data[p := Patch(vm.data[p], va % PGSIZE, src[n..n + m])];
      PatchLength(here.data[p], va % PGSIZE, src[n..n + m]);
      WroteMore(a, here, vm.Now(), id, dstva, src[..n], src[n..n + m]);
      assert src[..n] + src[n..n + m] == src[..n + m];
      PageWriteable(a, id, va, m);
      n := n + m;
    }
    return true, n;
  }

  lemma WroteNothing(vm: AddressSpaces, id: nat, va: nat)
    requires vm.Ok()
    ensures Wrote(vm.Now(), vm.Now(), id, va, [])
  {
    hide At, Mapped, UserByte;
    vm.SameTables(id);
  }

  lemma SameMap(a: World, b: World, id: nat, va: nat, s: seq<Byte>, x: nat)
    requires Wrote(a, b, id, va, s)
    ensures b.m.roots == a.m.roots && (Writeable(a, id, x) <==> Writeable(b, id, x))
  {
    hide At;
  }

  lemma WriteableIsMapped(a: World, id: nat, va: nat)
    requires Writeable(a, id, va)
    ensures Mapped(a, id, va)
  {
  }

  lemma PatchLength(d: seq<Byte>, k: nat, s: seq<Byte>)
    requires k + |s| <= |d|
    ensures |Patch(d, k, s)| == |d|
  {
  }

  lemma PageWriteable(a: World, id: nat, va: nat, m: nat)
    requires Writeable(a, id, va) && va % PGSIZE + m <= PGSIZE
    ensures AllWriteable(a, id, va, va + m)
  {
    hide At;
    forall x | va <= x < va + m ensures Writeable(a, id, x) { InPage(va, x); }
  }
}
