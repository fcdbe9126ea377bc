/** Inodes in use: allocating blocks for them, reading, writing and truncating
    them.  `logged` collects the blocks passed to log_write in the present
    transaction, and `history` those of each transaction that has ended. */
module FsFile {
  import opened Base
  import Disk
  import opened FsBase
  import opened FsBlocks
  import opened FsBytes

  class FileSystem {
    const g: Geometry
    var bm: seq<BitBlock>
    var store: map<int, Data>          // block contents, as the buffer cache shows them
    var addrs: map<int, seq<int>>      // ip->addrs, by inode number
    var size: map<int, int>            // ip->size
    ghost var owner: map<int, Slot>
    ghost var logged: set<int>
    ghost var history: seq<set<int>>

    function State(): Fs
      reads this
    {
      Fs(bm, store, addrs)
    }

    ghost predicate Valid()
      reads this
    {
      && Sound(g, State(), owner) && size.Keys == addrs.Keys
      && (forall i :: i in size ==> 0 <= size[i] <= MAXBYTES)
    }

    /** No file has holes below its size. */
    ghost predicate Whole()
      reads this
    {
      WholeState(g, State(), owner, size)
    }

    /** mkfs: the metadata blocks marked in use, and empty inodes. */
    constructor (g: Geometry, inums: set<int>)
      requires 1 <= g.nmeta <= g.size <= UINT
      ensures this.g == g && Whole() && addrs.Keys == inums && logged == {} && history == []
      ensures forall i :: i in inums ==> size[i] == 0 && addrs[i] == seq(NDIRECT + 1, _ => 0)
      ensures forall c :: InUse(g, State(), c) <==> 0 <= c < g.nmeta
      ensures forall i, y :: 0 <= i < |bm| && 0 <= y < BSIZE ==> bm[i][y] == MkfsByte(g.nmeta, i * BSIZE + y)
    {
      hide SetUsed, Used, Zeros, MkfsByte;
      this.g := g;
      store := EmptyStore(g.size);
      addrs := map i | i in inums :: seq(NDIRECT + 1, _ => 0);
      size := map i | i in inums :: 0;
      owner, logged, history := map[], {}, [];
      var m := NoBits(g.size);
      for b := 0 to g.nmeta
        invariant |m| * BPB >= g.size && forall c :: 0 <= c < |m| * BPB ==> (Used(m, c) <==> c < b)
      {
        ghost var was := m;
        SetUsedLength(m, b);
        m := SetUsed(m, b, true);
        forall c | 0 <= c < |m| * BPB ensures Used(m, c) <==> c < b + 1 { SetUsedBits(was, b, true, c); }
      }
      forall i: nat, y: nat | i < |m| && y < BSIZE ensures m[i][y] == MkfsByte(g.nmeta, i * BSIZE + y) {
        BitmapIsMkfs(m, g.nmeta, i, y);
      }
      bm := m;
    }

    /** An existing image, as fsinit finds it. */
    constructor Mount(g: Geometry, image: Fs, size: map<int, int>, ghost owner: map<int, Slot>)
      requires WholeState(g, image, owner, size)
      ensures this.g == g && Whole() && State() == image && this.size == size && this.owner == owner
      ensures logged == {} && history == []
    {
      this.g, bm, store, addrs, this.size := g, image.bm, image.store, image.addrs, size;
      this.owner, logged, history := owner, {}, [];
    }

    // ---- balloc and bfree

    /** The first clear bit among those from block b on in b's bitmap block. */
    method ScanBlock(b: nat) returns (bi: nat)
      requires Shape(g, State()) && b % BPB == 0 && b < g.size
      ensures bi <= BPB && b + bi <= g.size && (bi < BPB && b + bi < g.size ==> !InUse(g, State(), b + bi))
      ensures forall c :: b <= c < b + bi ==> InUse(g, State(), c)
    {
      hide Used, Mask;
      bi := 0;
      while bi < BPB && b + bi < g.size
        invariant bi <= BPB && b + bi <= g.size
        invariant forall c :: b <= c < b + bi ==> InUse(g, State(), c)
      {
        UsedInBlock(bm, b, bi);
        if bm[b / BPB][bi / 8] & Mask(bi % 8) == 0 {
          return;
        }
        bi := bi + 1;
      }
    }

    /** balloc's search: the first block whose bit is clear, or g.size. */
    method FindFree() returns (b: nat)
      requires Shape(g, State())
      ensures b <= g.size && (b < g.size ==> !InUse(g, State(), b))
      ensures forall c :: 0 <= c < b ==> InUse(g, State(), c)
    {
      hide Used;
      b := 0;
      while b < g.size
        invariant b % BPB == 0
        invariant forall c :: 0 <= c < b && c < g.size ==> InUse(g, State(), c)
      {
        var bi := ScanBlock(b);
        if bi < BPB && b + bi < g.size {
          return b + bi;
        }
        b := b + BPB;
      }
      b := g.size;
    }

    /** A zeroed block marked in use, or 0 when there is none. */
    method Balloc() returns (b: nat)
      requires Valid()
      modifies this`bm, this`store, this`logged
      ensures b == 0 ==>
                State() == old(State()) && logged == old(logged) && forall c :: 0 <= c < g.size ==> InUse(g, State(), c)
      ensures b != 0 ==>
                && IsData(g, b) && !old(InUse(g, State(), b)) && State() == Allocated(old(State()), b)
                && (forall c :: 0 <= c < b ==> old(InUse(g, State(), c)))
                && logged == old(logged) + {BBlock(g, b), b}
    {
      hide Zeros, SetUsed;
      b := FindFree();
      if b == g.size {
        return 0;
      }
      assert BlockOk(g, State(), owner, 0, 0, b) && BlockOk(g, State(), owner, 0, 0, 0);
      bm := SetUsed(bm, b, true);
      store := store[b := Zeros()];
      logged := logged + {BBlock(g, b), b};
    }

    /** False means the kernel panics: the block was not in use. */
    method Bfree(b: nat) returns (ok: bool)
      requires Shape(g, State()) && b < g.size
      modifies this`bm, this`logged
      ensures ok <==> old(InUse(g, State(), b))
      ensures State() == if ok then Freed(old(State()), b) else old(State())
      ensures logged == if ok then old(logged) + {BBlock(g, b)} else old(logged)
    {
      hide SetUsed;
      if !Used(bm, b) {
        return false;
      }
      bm := SetUsed(bm, b, false);
      logged := logged + {BBlock(g, b)};
      return true;
    }

    // ---- bmap

    /** One address of the inode, filled with a fresh block if it is empty. */
    method Direct(inum: int, s: nat) returns (addr: int)
      requires Valid() && inum in addrs && s <= INDIRECT
      modifies this`bm, this`store, this`addrs, this`owner, this`logged
      ensures Valid() && addr == Addr(State(), inum, s)
      ensures SameFiles(g, old(State()), State()) && Keeps(g, old(State()), State())
      ensures addr == 0 ==>
                State() == old(State()) && logged == old(logged) && forall c :: 0 <= c < g.size ==> InUse(g, State(), c)
      ensures old(Addr(State(), inum, s)) != 0 ==> State() == old(State()) && logged == old(logged)
      ensures SlotsBut(g, old(State()), State(), inum, s, s)
      ensures old(Addr(State(), inum, s)) == 0 && addr != 0 ==>
                addr > 0 && logged == old(logged) + {BBlock(g, addr), addr}
    {
      hide SetUsed, Zeros, Word;
      ghost var was := State();
      SameHere(was);
      addr := addrs[inum][s];
      if addr == 0 {
        var b := Balloc();
        if b == 0 {
          return 0;
        }
        LinkSound(g, was, owner, b, inum, s);
        LinkFiles(g, was, owner, b, inum, s);
        LinkAddr(g, was, owner, b, inum, s, inum, s);
        addrs := addrs[inum := addrs[inum][s := b]];
        owner := owner[b := Slot(inum, s)];
        addr := b;
      }
    }

    lemma SameHere(fs: Fs)
      requires Shape(g, fs)
      ensures SameFiles(g, fs, fs) && Keeps(g, fs, fs) && forall i: int, t: nat, u: nat :: SlotsBut(g, fs, fs, i, t, u)
    {
    }

    /** One entry of the inode's indirect block, filled if it is empty. */
    method Entry(inum: int, j: nat) returns (addr: int)
      requires Valid() && inum in addrs && j < NINDIRECT && Addr(State(), inum, INDIRECT) != 0
      modifies this`bm, this`store, this`owner, this`logged
      ensures Valid() && addr == Addr(State(), inum, ENTRY + j)
      ensures SameFiles(g, old(State()), State()) && Keeps(g, old(State()), State())
      ensures addr == 0 ==>
                State() == old(State()) && logged == old(logged) && forall c :: 0 <= c < g.size ==> InUse(g, State(), c)
      ensures old(Addr(State(), inum, ENTRY + j)) != 0 ==> State() == old(State()) && logged == old(logged)
      ensures SlotsBut(g, old(State()), State(), inum, ENTRY + j, ENTRY + j)
      ensures old(Addr(State(), inum, ENTRY + j)) == 0 && addr != 0 ==>
                addr > 0 && logged == old(logged) + {BBlock(g, addr), addr, Addr(State(), inum, INDIRECT)}
    {
      hide SetUsed, Zeros, Word, SetWord;
      ghost var was := State();
      SameHere(was);
      assert SlotOk(g, was, owner, inum, INDIRECT);
      var ib := addrs[inum][INDIRECT];
      addr := Word(store[ib], j);
      if addr == 0 {
        var b := Balloc();
        if b == 0 {
          return 0;
        }
        EntrySound(g, was, owner, b, inum, j);
        EntryFiles(g, was, owner, b, inum, j);
        EntryAddr(g, was, owner, b, inum, j, inum, ENTRY + j);
        store := store[ib := SetWord(store[ib], j, b)];
        owner := owner[b := Slot(inum, ENTRY + j)];
        logged := logged + {ib};
        addr := b;
      }
    }

    /** The block of block number bn of the file, allocated if need be; 0 when the
        disk is full.  An indirect block allocated on the way stays. */
    method Bmap(inum: int, bn: nat) returns (addr: int)
      requires Valid() && inum in addrs && bn < MAXFILE
      modifies this`bm, this`store, this`addrs, this`owner, this`logged
      ensures Valid() && addr == Addr(State(), inum, SlotOf(bn))
      ensures SameFiles(g, old(State()), State()) && Keeps(g, old(State()), State())
      ensures addr == 0 ==> forall c :: 0 <= c < g.size ==> InUse(g, State(), c)
      ensures old(Addr(State(), inum, SlotOf(bn))) != 0 ==> State() == old(State())
      ensures logged == old(logged) + BmapLogs(g, old(State()), State(), inum, bn)
      ensures SlotsBut(g, old(State()), State(), inum, SlotOf(bn), if bn < NDIRECT then SlotOf(bn) else INDIRECT)
    {
      hide SlotOk, BlockOk, FileBlock, InUse;
      ghost var was := State();
      if bn < NDIRECT {
        addr := Direct(inum, bn);
        return;
      }
      var ib := Direct(inum, INDIRECT);
      if ib == 0 {
        return 0;
      }
      ghost var mid := State();
      addr := Entry(inum, bn - NDIRECT);
      Chain(was, mid, State());
      ChainSlots(was, mid, State(), inum, SlotOf(bn));
    }

    lemma ChainSlots(a: Fs, b: Fs, c: Fs, inum: int, s: nat)
      requires SlotsBut(g, a, b, inum, INDIRECT, INDIRECT) && SlotsBut(g, b, c, inum, s, s)
      ensures SlotsBut(g, a, c, inum, s, INDIRECT)
    {
      hide Addr;
      forall i, u: nat | i in a.addrs && u < SLOTS && !(i == inum && (u == s || u == INDIRECT))
        ensures Addr(c, i, u) == Addr(a, i, u)
      {
        assert Addr(b, i, u) == Addr(a, i, u);
      }
    }

    lemma Chain(a: Fs, b: Fs, c: Fs)
      requires SameFiles(g, a, b) && SameFiles(g, b, c) && Keeps(g, a, b) && Keeps(g, b, c)
      ensures SameFiles(g, a, c) && Keeps(g, a, c)
    {
      forall i, n: nat | i in a.addrs && n < MAXFILE ensures FileBlock(c, i, n) == FileBlock(a, i, n) {
        assert FileBlock(b, i, n) == FileBlock(a, i, n);
      }
      forall i, t: nat | i in a.addrs && t < SLOTS && Addr(a, i, t) != 0 ensures Addr(c, i, t) == Addr(a, i, t) {
        assert Addr(b, i, t) == Addr(a, i, t);
      }
    }

    // ---- itrunc

    method FreeDirect(inum: int, ghost fs0: Fs, ghost owner0: map<int, Slot>) returns (ok: bool, ghost gone: set<int>)
      requires Valid() && inum in addrs && fs0 == State() && owner0 == owner
      modifies this`bm, this`addrs, this`owner, this`logged
      ensures ok && Valid() && Trimmed(g, fs0, owner0, State(), owner, gone, inum) && inum in addrs
      ensures |addrs[inum]| == NDIRECT + 1
      ensures forall t :: 0 <= t < NDIRECT ==> addrs[inum][t] == 0
    {
      hide SetUsed, Word, BlockOk;
      ok, gone := true, {};
      for i := 0 to NDIRECT
        invariant Valid() && inum in addrs && Trimmed(g, fs0, owner0, State(), owner, gone, inum)
        invariant forall t :: 0 <= t < i ==> addrs[inum][t] == 0
      {
        var b := addrs[inum][i];
        if b != 0 {
          ghost var fs := State();
          assert SlotOk(g, fs, owner, inum, i);
          UnlinkSound(g, fs, owner, inum, i);
          TrimMore(g, fs0, owner0, fs, owner, gone, inum, b, addrs[inum][i := 0]);
          var freed := Bfree(b);
          assert freed;
          addrs := addrs[inum := addrs[inum][i := 0]];
          owner, gone := owner - {b}, gone + {b};
        }
      }
    }

    method FreeEntries(inum: int, ghost fs0: Fs, ghost owner0: map<int, Slot>, ghost gone0: set<int>)
        returns (ok: bool, ghost gone: set<int>)
      requires Valid() && inum in addrs && Addr(State(), inum, INDIRECT) != 0
      requires Trimmed(g, fs0, owner0, State(), owner, gone0, inum)
      modifies this`bm, this`owner, this`logged
      ensures ok && Owned(g, State(), owner, inum, NINDIRECT) && Trimmed(g, fs0, owner0, State(), owner, gone, inum)
    {
      hide SetUsed, Word, BlockOk, SlotOk;
      ok, gone := true, gone0;
      NoneGiven(g, State(), owner, inum);
      IndirectOwner(g, State(), owner, inum, 0);
      var a := store[addrs[inum][INDIRECT]];
      for j := 0 to NINDIRECT
        invariant Owned(g, State(), owner, inum, j) && Trimmed(g, fs0, owner0, State(), owner, gone, inum)
      {
        ghost var fs := State();
        var b := Word(a, j);
        assert b == Addr(fs, inum, ENTRY + j);
        GiveEntry(g, fs, owner, inum, j);
        if b != 0 {
          EntryOwner(g, fs, owner, inum, j);
          TrimMore(g, fs0, owner0, fs, owner, gone, inum, b, addrs[inum]);
          assert addrs[inum := addrs[inum]] == addrs;
          var freed := Bfree(b);
          assert freed;
          owner, gone := owner - {b}, gone + {b};
        }
      }
    }

    method FreeIndirect(inum: int, ghost fs0: Fs, ghost owner0: map<int, Slot>, ghost gone0: set<int>)
        returns (ok: bool, ghost gone: set<int>)
      requires Valid() && inum in addrs && Addr(State(), inum, INDIRECT) != 0
      requires Trimmed(g, fs0, owner0, State(), owner, gone0, inum)
      modifies this`bm, this`addrs, this`owner, this`logged
      ensures ok && Valid() && Trimmed(g, fs0, owner0, State(), owner, gone, inum)
      ensures addrs == old(addrs)[inum := old(addrs)[inum][INDIRECT := 0]]
    {
      hide SetUsed, Word, BlockOk, SlotOk, Trimmed;
      ok, gone := FreeEntries(inum, fs0, owner0, gone0);
      ghost var fs := State();
      UnlinkIndirectSound(g, fs, owner, inum);
      IndirectOwner(g, fs, owner, inum, NINDIRECT);
      var ib := addrs[inum][INDIRECT];
      TrimMore(g, fs0, owner0, fs, owner, gone, inum, ib, addrs[inum][INDIRECT := 0]);
      ok := Bfree(ib);
      addrs := addrs[inum := addrs[inum][INDIRECT := 0]];
      owner, gone := owner - {ib}, gone + {ib};
    }

    /** Discard the file's contents.  Exactly its own blocks become free, and the
        "freeing free block" panic cannot happen. */
    method Itrunc(inum: int) returns (ok: bool)
      requires Whole() && inum in addrs
      modifies this`bm, this`addrs, this`owner, this`logged, this`size
      ensures ok && Whole() && store == old(store)
      ensures addrs == old(addrs)[inum := seq(NDIRECT + 1, _ => 0)] && size == old(size)[inum := 0]
      ensures forall c :: InUse(g, State(), c) <==>
                old(InUse(g, State(), c)) && !(IsData(g, c) && c in old(owner) && old(owner)[c].inum == inum)
      ensures forall i, n :: i in addrs && i != inum && 0 <= n < MAXFILE ==>
                FileBlock(State(), i, n) == old(FileBlock(State(), i, n))
    {
      hide Owned, InUse, Trimmed, HoleFree;
      ghost var fs0, owner0 := State(), owner;
      ghost var gone;
      ok, gone := FreeDirect(inum, fs0, owner0);
      if addrs[inum][INDIRECT] != 0 {
        ok, gone := FreeIndirect(inum, fs0, owner0, gone);
      }
      TrimmedAll(g, fs0, owner0, State(), owner, gone, inum);
      WholeAfter(fs0, inum);
      size := size[inum := 0];
      logged := logged + {IBlock(g, inum)};
    }

    lemma WholeAfter(fs: Fs, inum: int)
      requires Shape(g, fs) && Valid() && inum in fs.addrs && addrs == fs.addrs[inum := seq(NDIRECT + 1, _ => 0)]
      requires store == fs.store
      requires forall i :: i in fs.addrs ==> HoleFree(fs, i, size[i])
      ensures forall i :: i in addrs ==> HoleFree(State(), i, size[inum := 0][i])
    {
      hide SlotOk, BlockOk, Addr;
      forall i | i in addrs ensures HoleFree(State(), i, size[inum := 0][i]) {
        if i != inum {
          SameHoles(fs, State(), i, size[i]);
        }
      }
    }

    // ---- readi and writei

    /** Up to n bytes from off, clipped to the file's size.  Nothing is allocated. */
    method Readi(inum: int, off: nat, n: nat) returns (data: seq<Byte>)
      requires Whole() && inum in addrs && off < UINT && n < UINT
      modifies this`bm, this`store, this`addrs, this`owner, this`logged
      ensures Whole() && State() == old(State()) && logged == old(logged)
      ensures |data| == if off > size[inum] || off + n >= UINT then 0
                        else if off + n > size[inum] then size[inum] - off else n
      ensures forall k :: 0 <= k < |data| ==> data[k] == ByteAt(State(), inum, off + k)
    {
      hide SlotOk, BlockOk, Addr, FileBlock, ByteAt;
      if off > size[inum] || (off + n) % UINT < off {
        return [];
      }
      var n' := if off + n > size[inum] then size[inum] - off else n;
      data := [];
      while |data| < n'
        invariant |data| <= n' && Whole() && State() == old(State()) && logged == old(logged)
        invariant forall k :: 0 <= k < |data| ==> data[k] == ByteAt(State(), inum, off + k)
      {
        var p := off + |data|;
        var addr := Bmap(inum, p / BSIZE);
        MappedBlock(inum, p / BSIZE);
        var m := if n' - |data| < BSIZE - p % BSIZE then n' - |data| else BSIZE - p % BSIZE;
        BlockBytes(State(), inum, p, m);
        data := data + store[addr][p % BSIZE..p % BSIZE + m];
      }
    }

    lemma MappedBlock(inum: int, bn: nat)
      requires Valid() && inum in addrs && bn < MAXFILE && Addr(State(), inum, SlotOf(bn)) != 0
      ensures var a := Addr(State(), inum, SlotOf(bn)); a > 0 && a in store && FileBlock(State(), inum, bn) == store[a]
    {
      hide Addr, BlockOk;
      assert SlotOk(g, State(), owner, inum, SlotOf(bn));
    }

    /** One round of writei's loop: d into the block of byte p. */
    method WriteOne(inum: int, p: nat, d: seq<Byte>) returns (ok: bool)
      requires Valid() && inum in addrs && p < MAXBYTES && 0 < |d| && p % BSIZE + |d| <= BSIZE
      modifies this`bm, this`store, this`addrs, this`owner, this`logged
      ensures Valid() && Keeps(g, old(State()), State())
      ensures Wrote(g, old(State()), State(), inum, p, if ok then d else [])
      ensures SlotsBut(g, old(State()), State(), inum, SlotOf(p / BSIZE), Also(p / BSIZE))
      ensures IndirectLogged(g, old(State()), State(), logged, inum)
      ensures ok ==> BlockLogged(g, old(State()), State(), logged, inum, p / BSIZE)
      ensures ok <==> Addr(State(), inum, SlotOf(p / BSIZE)) != 0
      ensures !ok ==> forall c :: 0 <= c < g.size ==> InUse(g, State(), c)
      ensures !ok ==> old(logged) <= logged <= old(logged) + IndirectLogs(g, Addr(State(), inum, INDIRECT))
      ensures ok ==>
                && Addr(State(), inum, SlotOf(p / BSIZE)) > 0
                && old(logged) <= logged
                && logged <= old(logged) + IndirectLogs(g, Addr(State(), inum, INDIRECT))
                   + DataLogs(g, Addr(State(), inum, SlotOf(p / BSIZE)),
                              old(Addr(State(), inum, SlotOf(p / BSIZE))) == 0)
    {
      hide Owned, FileBlock, ByteAt, InUse, Addr, Wrote, Patch, BmapLogs;
      ghost var was := State();
      var addr := Bmap(inum, p / BSIZE);
      WroteNothing(g, was, State(), inum, p);
      BmapWithin(was, inum, p / BSIZE);
      BmapSurely(was, old(logged), inum, p / BSIZE);
      if addr == 0 {
        return false;
      }
      ghost var mid := State();
      MappedBlock(inum, p / BSIZE);
      WriteFiles(g, mid, owner, inum, p / BSIZE, Patch(store[addr], p % BSIZE, d));
      store := store[addr := Patch(store[addr], p % BSIZE, d)];
      logged := logged + {addr};
      WroteBlock(g, mid, State(), inum, p, d);
      WroteTwice(g, was, mid, State(), inum, p, [], d);
      assert [] + d == d;
      ChainKeeps(was, mid, State());
      ChainWrite(was, mid, State(), inum, p / BSIZE);
      return true;
    }

    lemma BmapWithin(was: Fs, inum: int, bn: nat)
      requires Shape(g, was) && Valid() && Keeps(g, was, State()) && inum in was.addrs && bn < MAXFILE
      ensures inum in addrs && BmapLogs(g, was, State(), inum, bn) <=
              IndirectLogs(g, Addr(State(), inum, INDIRECT))
              + if Addr(State(), inum, SlotOf(bn)) > 0 && Addr(was, inum, SlotOf(bn)) == 0
                then DataLogs(g, Addr(State(), inum, SlotOf(bn)), true) else {}
    {
      hide Word, BlockOk;
      assert SlotOk(g, State(), owner, inum, INDIRECT);
    }

    lemma BmapSurely(was: Fs, logs: set<int>, inum: int, bn: nat)
      requires Shape(g, was) && Valid() && Keeps(g, was, State()) && inum in was.addrs && inum in addrs && bn < MAXFILE
      requires SlotsBut(g, was, State(), inum, SlotOf(bn), Also(bn))
      requires logged == logs + BmapLogs(g, was, State(), inum, bn)
      ensures IndirectLogged(g, was, State(), logged, inum)
      ensures var a := Addr(State(), inum, SlotOf(bn));
              a > 0 && Addr(was, inum, SlotOf(bn)) == 0 ==> BBlock(g, a) in logged
    {
      hide Word, BlockOk;
      assert SlotOk(g, State(), owner, inum, INDIRECT);
      if bn < NDIRECT {
        assert Addr(State(), inum, INDIRECT) == Addr(was, inum, INDIRECT);
      }
    }

    /** Overwriting the block's data moves no slot. */
    lemma ChainWrite(a: Fs, b: Fs, c: Fs, inum: int, bn: nat)
      requires bn < MAXFILE && SlotsBut(g, a, b, inum, SlotOf(bn), Also(bn))
      requires SlotsBut(g, b, c, inum, SlotOf(bn), SlotOf(bn))
      ensures SlotsBut(g, a, c, inum, SlotOf(bn), Also(bn))
      ensures inum in a.addrs ==> Addr(c, inum, INDIRECT) == Addr(b, inum, INDIRECT)
    {
      hide Addr;
      forall i, u: nat | i in a.addrs && u < SLOTS && !(i == inum && (u == SlotOf(bn) || u == Also(bn)))
        ensures Addr(c, i, u) == Addr(a, i, u)
      {
        assert Addr(b, i, u) == Addr(a, i, u);
      }
      if inum in a.addrs {
        assert Addr(c, inum, INDIRECT) == Addr(b, inum, INDIRECT);
      }
    }

    lemma ChainKeeps(a: Fs, b: Fs, c: Fs)
      requires Keeps(g, a, b) && Keeps(g, b, c)
      ensures Keeps(g, a, c)
    {
      hide Addr;
      forall i, t: nat | i in a.addrs && t < SLOTS && Addr(a, i, t) != 0 ensures Addr(c, i, t) == Addr(a, i, t) {
        assert Addr(b, i, t) == Addr(a, i, t);
      }
    }

    /** Write src at off.  -1 refuses it and changes nothing; otherwise the first r
        bytes are written, fewer than |src| only when the disk is full. */
    method Writei(inum: int, off: nat, src: seq<Byte>) returns (r: int, ghost touched: set<int>)
      requires Whole() && inum in addrs && off < UINT && |src| < UINT
      modifies this`bm, this`store, this`addrs, this`owner, this`logged, this`size
      ensures Whole()
      ensures r == -1 <==> off > old(size)[inum] || off + |src| > MAXBYTES
      ensures r == -1 ==> State() == old(State()) && size == old(size) && logged == old(logged)
      ensures r != -1 ==>
                && 0 <= r <= |src| && Wrote(g, old(State()), State(), inum, off, src[..r])
                && size == Grown(old(size), inum, off + r)
                && (r < |src| ==> forall c :: 0 <= c < g.size ==> InUse(g, State(), c))
                && (r < |src| ==> off + r >= old(size)[inum] && (r == 0 || (off + r) % BSIZE == 0))
                && old(logged) <= logged <= old(logged) + touched && |touched| <= WriteBudget(off, |src|)
                && IBlock(g, inum) in logged && Covered(g, old(State()), State(), logged, inum, off, r)
                && OtherSlots(g, old(State()), State(), inum) && Keeps(g, old(State()), State())
    {
      hide Covered, OtherSlots, Sound, Addr, InUse, HoleFree, Wrote, Keeps, WholeState;
      touched := {};
      WholeIsValid();
      if off > size[inum] || (off + |src|) % UINT < off {
        return -1, touched;
      }
      if off + |src| > MAXBYTES {
        return -1, touched;
      }
      ghost var was, owner0 := State(), owner;
      r, touched := WriteBlocks(inum, off, src);
      WholeGrown(g, was, owner0, State(), owner, size, inum, off + r);
      if off + r > size[inum] {
        size := size[inum := off + r];
      }
      CoveredStays(g, was, State(), logged, inum, off, r, IBlock(g, inum));
      logged := logged + {IBlock(g, inum)};
      UnionBound(touched, {IBlock(g, inum)});
      touched := touched + {IBlock(g, inum)};
    }

    lemma WholeIsValid()
      requires Whole()
      ensures Valid() && forall i :: i in addrs ==> |addrs[i]| == NDIRECT + 1 && HoleFree(State(), i, size[i])
    {
    }

    /** After r bytes: what is written, mapped and logged. */
    ghost predicate Progress(was: Fs, before: set<int>, inum: int, off: nat, done: seq<Byte>, data: set<int>)
      reads this
    {
      && Valid() && inum in addrs && Wrote(g, was, State(), inum, off, done)
      && Keeps(g, was, State()) && HoleFree(State(), inum, off + |done|)
      && before <= logged <= before + data + IndirectLogs(g, Addr(State(), inum, INDIRECT))
      && Covered(g, was, State(), logged, inum, off, |done|) && OtherSlots(g, was, State(), inum)
      && |data| <= 2 * Span(off, |done|) - if off % BSIZE != 0 && done != [] then 1 else 0
    }

    /** One round of writei's loop. */
    method WriteRound(inum: int, off: nat, ghost done: seq<Byte>, p: nat, d: seq<Byte>, ghost was: Fs,
        ghost before: set<int>, ghost data: set<int>)
        returns (ok: bool, ghost data': set<int>)
      requires Progress(was, before, inum, off, done, data) && p == off + |done|
      requires inum in was.addrs && |was.addrs[inum]| == NDIRECT + 1
      requires p < MAXBYTES && 0 < |d| && p % BSIZE + |d| <= BSIZE && (done == [] || p % BSIZE == 0)
      modifies this`bm, this`store, this`addrs, this`owner, this`logged
      ensures Shape(g, State()) && Progress(was, before, inum, off, if ok then done + d else done, data')
      ensures !ok ==> forall c :: 0 <= c < g.size ==> InUse(g, State(), c)
      ensures !ok ==> forall size0 :: HoleFree(was, inum, size0) ==> size0 <= p
    {
      hide SlotOk, BlockOk, Addr, FileBlock, ByteAt, InUse, HoleFree, Wrote, Keeps, Span, IndirectLogs, DataLogs,
           Covered, SlotsBut, BlockLogged, IndirectLogged, OtherSlots;
      ghost var here, logs0 := State(), logged;
      ok := WriteOne(inum, p, d);
      Advance(was, here, inum, off, done, if ok then d else []);
      assert done + [] == done;
      CoveredMore(g, was, here, State(), logs0, logged, inum, off, |done|, if ok then |d| else 0);
      OtherSlotsMore(g, was, here, State(), inum, SlotOf(p / BSIZE), Also(p / BSIZE));
      data' := data;
      if ok {
        ghost var logs := DataLogs(g, Addr(State(), inum, SlotOf(p / BSIZE)), Addr(here, inum, SlotOf(p / BSIZE)) == 0);
        data' := data + logs;
        MoreLogs(before, data, IndirectLogs(g, Addr(here, inum, INDIRECT)), logs0, logs,
                 IndirectLogs(g, Addr(State(), inum, INDIRECT)), logged);
        SpanStep(off, |done|, |d|);
      } else {
        forall size0 | HoleFree(was, inum, size0) ensures size0 <= p {
          MappedBelow(was, inum, size0, p);
        }
      }
    }

    lemma MappedBelow(was: Fs, inum: int, size0: int, p: nat)
      requires Valid() && inum in addrs && Keeps(g, was, State()) && HoleFree(was, inum, size0)
      requires p < MAXBYTES && Addr(State(), inum, SlotOf(p / BSIZE)) == 0
      ensures size0 <= p
    {
      hide SlotOk, BlockOk, Addr;
      assert p / BSIZE * BSIZE <= p;
    }

    lemma MoreLogs(before: set<int>, data: set<int>, ind: set<int>, logs0: set<int>, logs: set<int>, ind': set<int>,
        logs1: set<int>)
      requires before <= logs0 <= before + data + ind && logs0 <= logs1 <= logs0 + ind' + logs && ind <= ind'
      ensures before <= logs1 <= before + (data + logs) + ind'
      ensures |data + logs| <= |data| + |logs|
    {
      UnionBound(data, logs);
    }

    /** writei's loop. */
    method WriteBlocks(inum: int, off: nat, src: seq<Byte>) returns (r: nat, ghost touched: set<int>)
      requires Valid() && inum in addrs && off <= size[inum] && off + |src| <= MAXBYTES
      requires HoleFree(State(), inum, size[inum])
      modifies this`bm, this`store, this`addrs, this`owner, this`logged
      ensures Valid() && r <= |src| && Wrote(g, old(State()), State(), inum, off, src[..r])
      ensures Keeps(g, old(State()), State()) && HoleFree(State(), inum, off + r)
      ensures r < |src| ==> forall c :: 0 <= c < g.size ==> InUse(g, State(), c)
      ensures r < |src| ==> off + r >= size[inum] && (r == 0 || (off + r) % BSIZE == 0)
      ensures old(logged) <= logged <= old(logged) + touched && |touched| <= WriteBudget(off, |src|) - 1
      ensures Covered(g, old(State()), State(), logged, inum, off, r) && OtherSlots(g, old(State()), State(), inum)
    {
      hide SlotOk, BlockOk, Addr, InUse, Progress, Covered, OtherSlots;
      ghost var was := State();
      ghost var data: set<int> := {};
      Begin(inum, off);
      assert src[..0] == [];
      r := 0;
      var ok := true;
      while r < |src| && ok
        invariant r <= |src| && (r == 0 || r == |src| || (off + r) % BSIZE == 0)
        invariant Shape(g, State()) && Progress(was, old(logged), inum, off, src[..r], data)
        invariant !ok ==> off + r >= size[inum] && forall c :: 0 <= c < g.size ==> InUse(g, State(), c)
        decreases |src| - r, ok
      {
        var p := off + r;
        var m := if |src| - r < BSIZE - p % BSIZE then |src| - r else BSIZE - p % BSIZE;
        ok, data := WriteRound(inum, off, src[..r], p, src[r..r + m], was, old(logged), data);
        if ok {
          assert src[..r] + src[r..r + m] == src[..r + m];
          r := r + m;
        }
      }
      touched := Finish(was, old(logged), inum, off, src, r, data);
    }

    lemma Begin(inum: int, off: nat)
      requires Valid() && inum in addrs && off <= size[inum] && HoleFree(State(), inum, size[inum])
      ensures Progress(State(), logged, inum, off, [], {})
    {
      hide SlotOk, BlockOk, Addr;
      SameHere(State());
      WroteNothing(g, State(), State(), inum, off);
      FewerHoles(State(), inum, size[inum], off);
    }

    lemma Finish(was: Fs, before: set<int>, inum: int, off: nat, src: seq<Byte>, r: nat, data: set<int>)
        returns (touched: set<int>)
      requires r <= |src| && Progress(was, before, inum, off, src[..r], data)
      ensures Valid() && Wrote(g, was, State(), inum, off, src[..r])
      ensures Keeps(g, was, State()) && HoleFree(State(), inum, off + r)
      ensures before <= logged <= before + touched && |touched| <= WriteBudget(off, |src|) - 1
      ensures Covered(g, was, State(), logged, inum, off, r) && OtherSlots(g, was, State(), inum)
    {
      hide Covered, OtherSlots, SlotOk, BlockOk, Addr, Wrote, Keeps, HoleFree, Span, IndirectLogs;
      SpanGrows(off, r, |src|);
      touched := data + IndirectLogs(g, Addr(State(), inum, INDIRECT));
      UnionBound(data, IndirectLogs(g, Addr(State(), inum, INDIRECT)));
    }

    lemma Advance(was: Fs, here: Fs, inum: int, off: nat, s: seq<Byte>, d: seq<Byte>)
      requires Valid() && inum in addrs && Wrote(g, was, here, inum, off, s) && Keeps(g, was, here)
      requires HoleFree(here, inum, off + |s|)
      requires Wrote(g, here, State(), inum, off + |s|, d) && Keeps(g, here, State())
      requires off + |s| < MAXBYTES && (off + |s|) % BSIZE + |d| <= BSIZE
      requires d != [] ==> Addr(State(), inum, SlotOf((off + |s|) / BSIZE)) != 0
      ensures Wrote(g, was, State(), inum, off, s + d) && Keeps(g, was, State())
      ensures HoleFree(State(), inum, off + |s| + |d|)
      ensures IndirectLogs(g, Addr(here, inum, INDIRECT)) <= IndirectLogs(g, Addr(State(), inum, INDIRECT))
      ensures (off + |s|) % BSIZE != 0 ==> Addr(here, inum, SlotOf((off + |s|) / BSIZE)) != 0
    {
      hide SlotOk, BlockOk, Addr, Wrote;
      WroteTwice(g, was, here, State(), inum, off, s, d);
      ChainKeeps(was, here, State());
      StillHoleFree(g, here, State(), inum, off + |s|);
      if d != [] {
        HoleFreeMore(State(), inum, off + |s|, |d|);
      }
    }

    /** What writei wrote, readi reads: exactly the bytes it says it has written. */
    method WriteThenRead(inum: int, off: nat, src: seq<Byte>) returns (r: int, data: seq<Byte>)
      requires Whole() && inum in addrs && off < UINT && |src| < UINT
      modifies this`bm, this`store, this`addrs, this`owner, this`logged, this`size
      ensures Whole() && (r == -1 <==> off > old(size)[inum] || off + |src| > MAXBYTES)
      ensures r != -1 ==> 0 <= r <= |src| && data == src[..r]
      ensures r != -1 && r < |src| ==> forall c :: 0 <= c < g.size ==> InUse(g, State(), c)
    {
      hide SlotOk, BlockOk, Addr, FileBlock, ByteAt, HoleFree, InUse, Covered;
      data := [];
      ghost var touched;
      r, touched := Writei(inum, off, src);
      if r != -1 {
        data := Readi(inum, off, r);
      }
    }

    // ---- filewrite

    /** begin_op, for this process. */
    method BeginOp()
      modifies this`logged
      ensures logged == {}
    {
      logged := {};
    }

    /** end_op, for this process. */
    method EndOp()
      modifies this`history
      ensures history == old(history) + [logged]
    {
      history := history + [logged];
    }

    /** Write src at the file offset, MAXCHUNK bytes in each transaction.  Returns -1
        unless everything was written; the offset moves past what was.  ops are the
        blocks each of its transactions has logged: never more than MAXOPBLOCKS. */
    method Filewrite(inum: int, off: nat, src: seq<Byte>) returns (r: int, off': nat, ghost ops: seq<set<int>>)
      requires Whole() && inum in addrs && off < UINT && |src| < UINT
      modifies this`bm, this`store, this`addrs, this`owner, this`logged, this`size, this`history
      ensures Whole() && off <= off' <= off + |src|
      ensures Wrote(g, old(State()), State(), inum, off, src[..off' - off])
      ensures r == if off' == off + |src| then |src| else -1
      ensures off' < off + |src| ==>
                off > old(size)[inum] || off + |src| > MAXBYTES || forall c :: 0 <= c < g.size ==> InUse(g, State(), c)
      ensures size == old(size)[inum := if off < off' && off' > old(size)[inum] then off' else old(size)[inum]]
      ensures history == old(history) + ops
      ensures |ops| == if off' == off + |src| then Chunks(|src|) else WholeChunks(off' - off) + 1
      ensures forall k :: 0 <= k < |ops| ==> |ops[k]| <= Disk.MAXOPBLOCKS
    {
      hide WholeState, Wrote, InUse, Written, Chunks, WholeChunks;
      ghost var was, size0 := State(), size;
      ops, off' := [], off;
      StartWrite(inum, off);
      assert src[..0] == [];
      NoChunks();
      var i := 0;
      while i < |src|
        invariant i <= |src| && off' == off + i && (off' == off || off' <= MAXBYTES)
        invariant Written(was, size0, inum, off, src[..i])
        invariant history == old(history) + ops && |ops| == Chunks(i)
        invariant i < |src| ==> Chunks(i) == WholeChunks(i) && i % MAXCHUNK == 0
        invariant forall k :: 0 <= k < |ops| ==> |ops[k]| <= Disk.MAXOPBLOCKS
      {
        var n1 := if |src| - i > MAXCHUNK then MAXCHUNK else |src| - i;
        var w := WriteChunk(inum, off, off', src[..i], src[i..i + n1], was, size0);
        ops := ops + [logged];
        ghost var k := if w > 0 then w else 0;
        Glue(src, i, n1, k);
        ChunkMore(i, n1, k);
        if w > 0 {
          off' := off' + w;
        }
        if w != n1 {
          break;
        }
        i := i + w;
      }
      WrittenOut(was, size0, inum, off, src[..off' - off]);
      r := if i == |src| then i else -1;
    }

    lemma Glue(s: seq<Byte>, i: nat, n: nat, k: nat)
      requires i + n <= |s| && k <= n
      ensures s[..i] + s[i..i + n][..k] == s[..i + k]
    {
    }

    lemma WrittenOut(was: Fs, size0: map<int, int>, inum: int, off: nat, done: seq<Byte>)
      requires Written(was, size0, inum, off, done)
      ensures Whole() && Wrote(g, was, State(), inum, off, done) && inum in size0
      ensures size == size0[inum := if done != [] && off + |done| > size0[inum] then off + |done| else size0[inum]]
    {
    }

    /** done has been written at off. */
    ghost predicate Written(was: Fs, size0: map<int, int>, inum: int, off: nat, done: seq<Byte>)
      reads this
    {
      && Whole() && inum in addrs && Wrote(g, was, State(), inum, off, done) && inum in size0
      && size == size0[inum := if done != [] && off + |done| > size0[inum] then off + |done| else size0[inum]]
    }

    /** One transaction of filewrite: `logged` is left as what it logged. */
    method WriteChunk(inum: int, ghost off: nat, p: nat, ghost done: seq<Byte>, d: seq<Byte>, ghost was: Fs,
                      ghost size0: map<int, int>)
        returns (w: int)
      requires Written(was, size0, inum, off, done) && p == off + |done| < UINT && 0 < |d| <= MAXCHUNK
      modifies this`bm, this`store, this`addrs, this`owner, this`logged, this`size, this`history
      ensures -1 <= w <= |d| && Written(was, size0, inum, off, done + d[..if w > 0 then w else 0])
      ensures history == old(history) + [logged] && |logged| <= Disk.MAXOPBLOCKS
      ensures w == -1 ==> logged == {}
      ensures w != -1 ==> IBlock(g, inum) in logged && Covered(g, old(State()), State(), logged, inum, p, w)
      ensures w > 0 ==> p + w <= MAXBYTES
      ensures w < |d| ==>
                || (done == [] && off > size0[inum]) || p + |d| > MAXBYTES
                || forall c :: 0 <= c < g.size ==> InUse(g, State(), c)
    {
      hide SlotOk, BlockOk, Addr, HoleFree, Wrote, InUse, WriteBudget, Covered;
      ghost var mid := State();
      ghost var touched;
      BeginOp();
      w, touched := Writei(inum, p, d);
      EndOp();
      ChunkFits(p, |d|);
      if w != -1 {
        Smaller(logged, touched);
        WroteTwice(g, was, mid, State(), inum, off, done, d[..w]);
      } else {
        assert done + d[..0] == done;
      }
    }

    lemma StartWrite(inum: int, off: nat)
      requires Whole() && inum in addrs
      ensures inum in size && Written(State(), size, inum, off, [])
    {
      SameHere(State());
      WroteNothing(g, State(), State(), inum, off);
    }
  }
}
