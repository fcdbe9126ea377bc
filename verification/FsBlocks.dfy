/** Who owns which disk block: the free bitmap, the addresses in inodes, and the
    addresses listed in indirect blocks. */
module FsBlocks {
  import opened Base
  import opened FsBase

  /** Blocks below nmeta hold the boot block, superblock, log, inodes and bitmap. */
  datatype Geometry = Geometry(size: nat, nmeta: nat, bmapstart: nat, inodestart: nat)

  const IPB := BSIZE / 64     // inodes per block

  function BBlock(g: Geometry, b: nat): nat { b / BPB + g.bmapstart }

  function IBlock(g: Geometry, inum: int): int { inum / IPB + g.inodestart }

  /** Bitmap, block contents, and the NDIRECT + 1 addresses of each inode. */
  datatype Fs = Fs(bm: seq<BitBlock>, store: map<int, Data>, addrs: map<int, seq<int>>)

  /** A place for a block number in inode inum: s < NDIRECT is a direct address,
      NDIRECT the indirect block, above that the entries of the indirect block. */
  datatype Slot = Slot(inum: int, s: nat)

  const INDIRECT := NDIRECT
  const ENTRY := NDIRECT + 1
  const SLOTS := ENTRY + NINDIRECT

  ghost predicate Shape(g: Geometry, fs: Fs) {
    && 1 <= g.nmeta <= g.size <= |fs.bm| * BPB && g.size <= UINT
    && (forall b :: 0 <= b < g.size ==> b in fs.store)
    && (forall i :: i in fs.addrs ==> |fs.addrs[i]| == NDIRECT + 1)
  }

  /** The block number in a slot; 0 is none. */
  function Addr(fs: Fs, inum: int, s: nat): int
    requires inum in fs.addrs && |fs.addrs[inum]| == NDIRECT + 1 && s < SLOTS
  {
    if s <= INDIRECT then fs.addrs[inum][s]
    else if fs.addrs[inum][INDIRECT] == 0 || fs.addrs[inum][INDIRECT] !in fs.store then 0
    else Word(fs.store[fs.addrs[inum][INDIRECT]], s - ENTRY)
  }

  predicate IsData(g: Geometry, b: int) {
    g.nmeta <= b < g.size
  }

  /** Used, for any block number of the disk. */
  ghost predicate InUse(g: Geometry, fs: Fs, b: int)
    requires Shape(g, fs)
  {
    0 <= b < g.size && Used(fs.bm, b)
  }

  ghost predicate OwnedBy(g: Geometry, fs: Fs, owner: map<int, Slot>, b: int, sl: Slot)
    requires Shape(g, fs)
  {
    IsData(g, b) && InUse(g, fs, b) && b in owner && owner[b] == sl
  }

  ghost predicate SlotOk(g: Geometry, fs: Fs, owner: map<int, Slot>, inum: int, s: nat)
    requires Shape(g, fs) && inum in fs.addrs && s < SLOTS
  {
    Addr(fs, inum, s) != 0 ==> OwnedBy(g, fs, owner, Addr(fs, inum, s), Slot(inum, s))
  }

  /** The first k entries of inode x's indirect block have been given up, though
      the block still lists them. */
  predicate Given(x: int, k: nat, inum: int, s: nat) {
    inum == x && ENTRY <= s < ENTRY + k
  }

  ghost predicate BlockOk(g: Geometry, fs: Fs, owner: map<int, Slot>, x: int, k: nat, b: int)
    requires Shape(g, fs)
  {
    && (0 <= b < g.nmeta ==> InUse(g, fs, b))
    && (IsData(g, b) && InUse(g, fs, b) ==>
          && b in owner && owner[b].inum in fs.addrs && owner[b].s < SLOTS
          && Addr(fs, owner[b].inum, owner[b].s) == b && !Given(x, k, owner[b].inum, owner[b].s))
  }

  /** Every block in use is metadata or sits in exactly one slot, and every slot
      holds a block in use. */
  ghost predicate Owned(g: Geometry, fs: Fs, owner: map<int, Slot>, x: int, k: nat) {
    && Shape(g, fs)
    && (forall i, s :: i in fs.addrs && 0 <= s < SLOTS && !Given(x, k, i, s) ==> SlotOk(g, fs, owner, i, s))
    && (forall b :: BlockOk(g, fs, owner, x, k, b))
  }

  /** The file system's invariant. */
  ghost predicate Sound(g: Geometry, fs: Fs, owner: map<int, Slot>) {
    Owned(g, fs, owner, 0, 0)
  }

  // ---- changes

  /** balloc: the bit set, the block zeroed. */
  function Allocated(fs: Fs, b: nat): Fs
    requires b < |fs.bm| * BPB
  {
    Fs(SetUsed(fs.bm, b, true), fs.store[b := Zeros()], fs.addrs)
  }

  function Freed(fs: Fs, b: nat): Fs
    requires b < |fs.bm| * BPB
  {
    Fs(SetUsed(fs.bm, b, false), fs.store, fs.addrs)
  }

  function WithAddr(fs: Fs, inum: int, s: nat, b: int): Fs
    requires inum in fs.addrs && s < |fs.addrs[inum]|
  {
    Fs(fs.bm, fs.store, fs.addrs[inum := fs.addrs[inum][s := b]])
  }

  function WithEntry(fs: Fs, ib: int, j: nat, b: nat): Fs
    requires ib in fs.store && j < NINDIRECT && b < UINT
  {
    Fs(fs.bm, fs.store[ib := SetWord(fs.store[ib], j, b)], fs.addrs)
  }

  /** What allocation does to the slots: nothing, since the block was in none. */
  lemma AllocAddr(g: Geometry, fs: Fs, owner: map<int, Slot>, b: nat, inum: int, s: nat)
    requires Sound(g, fs, owner) && IsData(g, b) && !InUse(g, fs, b) && inum in fs.addrs && s < SLOTS
    ensures Addr(Allocated(fs, b), inum, s) == Addr(fs, inum, s)
  {
    hide Word;
    assert SlotOk(g, fs, owner, inum, INDIRECT);
  }

  lemma AllocInUse(g: Geometry, fs: Fs, b: nat, c: int)
    requires Shape(g, fs) && b < g.size
    ensures Shape(g, Allocated(fs, b)) && Shape(g, Freed(fs, b))
    ensures InUse(g, Allocated(fs, b), c) <==> c == b || InUse(g, fs, c)
    ensures InUse(g, Freed(fs, b), c) <==> c != b && InUse(g, fs, c)
  {
    if 0 <= c < g.size {
      SetUsedBits(fs.bm, b, true, c);
      SetUsedBits(fs.bm, b, false, c);
    } else {
      SetUsedBits(fs.bm, b, true, b);
      SetUsedBits(fs.bm, b, false, b);
    }
  }

  // ---- giving a fresh block to a slot

  lemma LinkAddr(g: Geometry, fs: Fs, owner: map<int, Slot>, b: nat, inum: int, s: nat, i: int, t: nat)
    requires Sound(g, fs, owner) && IsData(g, b) && !InUse(g, fs, b)
    requires inum in fs.addrs && s <= INDIRECT && Addr(fs, inum, s) == 0 && i in fs.addrs && t < SLOTS
    ensures Addr(WithAddr(Allocated(fs, b), inum, s, b), i, t) == if i == inum && t == s then b else Addr(fs, i, t)
  {
    hide Word, SetUsed, Zeros;
    AllocAddr(g, fs, owner, b, i, t);
    if i == inum && t >= ENTRY && s == INDIRECT {
      WordZero(t - ENTRY);
    }
  }

  /** A fresh block in an empty address of an inode. */
  lemma LinkSound(g: Geometry, fs: Fs, owner: map<int, Slot>, b: nat, inum: int, s: nat)
    requires Sound(g, fs, owner) && IsData(g, b) && !InUse(g, fs, b)
    requires inum in fs.addrs && s <= INDIRECT && Addr(fs, inum, s) == 0
    ensures Sound(g, WithAddr(Allocated(fs, b), inum, s, b), owner[b := Slot(inum, s)])
  {
    hide Addr, SetUsed, Zeros;
    var fs', owner' := WithAddr(Allocated(fs, b), inum, s, b), owner[b := Slot(inum, s)];
    AllocInUse(g, fs, b, 0);
    forall i, t: nat | i in fs'.addrs && t < SLOTS ensures SlotOk(g, fs', owner', i, t) {
      LinkAddr(g, fs, owner, b, inum, s, i, t);
      assert SlotOk(g, fs, owner, i, t);
      AllocInUse(g, fs, b, Addr(fs', i, t));
    }
    forall c ensures BlockOk(g, fs', owner', 0, 0, c) {
      AllocInUse(g, fs, b, c);
      assert BlockOk(g, fs, owner, 0, 0, c);
      if IsData(g, c) && InUse(g, fs', c) {
        if c == b {
          LinkAddr(g, fs, owner, b, inum, s, inum, s);
        } else {
          LinkAddr(g, fs, owner, b, inum, s, owner[c].inum, owner[c].s);
        }
      }
    }
  }

  lemma EntryAddr(g: Geometry, fs: Fs, owner: map<int, Slot>, b: nat, inum: int, j: nat, i: int, t: nat)
    requires Sound(g, fs, owner) && IsData(g, b) && !InUse(g, fs, b)
    requires inum in fs.addrs && j < NINDIRECT && i in fs.addrs && t < SLOTS
    requires Addr(fs, inum, INDIRECT) != 0 && Addr(fs, inum, ENTRY + j) == 0
    ensures Addr(fs, inum, INDIRECT) in Allocated(fs, b).store
    ensures Addr(WithEntry(Allocated(fs, b), Addr(fs, inum, INDIRECT), j, b), i, t)
            == if i == inum && t == ENTRY + j then b else Addr(fs, i, t)
  {
    hide Word, SetUsed, Zeros, SetWord;
    var ib := Addr(fs, inum, INDIRECT);
    assert SlotOk(g, fs, owner, inum, INDIRECT) && SlotOk(g, fs, owner, i, INDIRECT);
    AllocAddr(g, fs, owner, b, i, t);
    if t >= ENTRY {
      WordSet(fs.store[ib], j, b, t - ENTRY);
    }
  }

  /** A fresh block in an empty entry of an indirect block. */
  lemma EntrySound(g: Geometry, fs: Fs, owner: map<int, Slot>, b: nat, inum: int, j: nat)
    requires Sound(g, fs, owner) && IsData(g, b) && !InUse(g, fs, b)
    requires inum in fs.addrs && j < NINDIRECT
    requires Addr(fs, inum, INDIRECT) != 0 && Addr(fs, inum, ENTRY + j) == 0
    ensures Addr(fs, inum, INDIRECT) in Allocated(fs, b).store
    ensures Sound(g, WithEntry(Allocated(fs, b), Addr(fs, inum, INDIRECT), j, b), owner[b := Slot(inum, ENTRY + j)])
  {
    hide Addr, SetUsed, Zeros, SetWord;
    var ib := Addr(fs, inum, INDIRECT);
    EntryAddr(g, fs, owner, b, inum, j, inum, INDIRECT);
    var fs', owner' := WithEntry(Allocated(fs, b), ib, j, b), owner[b := Slot(inum, ENTRY + j)];
    AllocInUse(g, fs, b, 0);
    forall i, t: nat | i in fs'.addrs && t < SLOTS ensures SlotOk(g, fs', owner', i, t) {
      EntryAddr(g, fs, owner, b, inum, j, i, t);
      assert SlotOk(g, fs, owner, i, t);
      AllocInUse(g, fs, b, Addr(fs', i, t));
    }
    forall c ensures BlockOk(g, fs', owner', 0, 0, c) {
      AllocInUse(g, fs, b, c);
      assert BlockOk(g, fs, owner, 0, 0, c);
      if IsData(g, c) && InUse(g, fs', c) {
        if c == b {
          EntryAddr(g, fs, owner, b, inum, j, inum, ENTRY + j);
        } else {
          EntryAddr(g, fs, owner, b, inum, j, owner[c].inum, owner[c].s);
        }
      }
    }
  }

  // ---- taking blocks back

  /** Freeing the block in a direct address and clearing the address. */
  lemma UnlinkSound(g: Geometry, fs: Fs, owner: map<int, Slot>, inum: int, s: nat)
    requires Sound(g, fs, owner) && inum in fs.addrs && s < NDIRECT && Addr(fs, inum, s) != 0
    ensures InUse(g, fs, Addr(fs, inum, s))
    ensures Sound(g, WithAddr(Freed(fs, Addr(fs, inum, s)), inum, s, 0), owner - {Addr(fs, inum, s)})
  {
    hide SetUsed, Word;
    var b := Addr(fs, inum, s);
    assert SlotOk(g, fs, owner, inum, s);
    var fs', owner' := WithAddr(Freed(fs, b), inum, s, 0), owner - {b};
    AllocInUse(g, fs, b, 0);
    forall i, t: nat | i in fs'.addrs && t < SLOTS ensures SlotOk(g, fs', owner', i, t) {
      assert SlotOk(g, fs, owner, i, t);
      AllocInUse(g, fs, b, Addr(fs', i, t));
    }
    forall c ensures BlockOk(g, fs', owner', 0, 0, c) {
      AllocInUse(g, fs, b, c);
      assert BlockOk(g, fs, owner, 0, 0, c);
    }
  }

  /** Freeing the block in entry j while the indirect block still lists it. */
  lemma GiveEntry(g: Geometry, fs: Fs, owner: map<int, Slot>, inum: int, j: nat)
    requires Owned(g, fs, owner, inum, j) && inum in fs.addrs && j < NINDIRECT
    ensures Addr(fs, inum, ENTRY + j) == 0 ==> Owned(g, fs, owner, inum, j + 1)
    ensures Addr(fs, inum, ENTRY + j) != 0 ==>
              && InUse(g, fs, Addr(fs, inum, ENTRY + j))
              && Owned(g, Freed(fs, Addr(fs, inum, ENTRY + j)), owner - {Addr(fs, inum, ENTRY + j)}, inum, j + 1)
  {
    hide SetUsed, Word;
    var b := Addr(fs, inum, ENTRY + j);
    assert SlotOk(g, fs, owner, inum, ENTRY + j);
    var k := j + 1;
    if b == 0 {
      forall c ensures BlockOk(g, fs, owner, inum, k, c) {
        assert BlockOk(g, fs, owner, inum, j, c);
      }
    } else {
      var fs', owner' := Freed(fs, b), owner - {b};
      AllocInUse(g, fs, b, 0);
      forall i, t: nat | i in fs'.addrs && t < SLOTS && !Given(inum, k, i, t) ensures SlotOk(g, fs', owner', i, t) {
        assert SlotOk(g, fs, owner, i, t);
        AllocInUse(g, fs, b, Addr(fs', i, t));
      }
      forall c ensures BlockOk(g, fs', owner', inum, k, c) {
        AllocInUse(g, fs, b, c);
        assert BlockOk(g, fs, owner, inum, j, c);
      }
    }
  }

  /** Freeing the indirect block once all its entries have been given up. */
  lemma UnlinkIndirectSound(g: Geometry, fs: Fs, owner: map<int, Slot>, inum: int)
    requires Owned(g, fs, owner, inum, NINDIRECT) && inum in fs.addrs && Addr(fs, inum, INDIRECT) != 0
    ensures InUse(g, fs, Addr(fs, inum, INDIRECT))
    ensures var ib := Addr(fs, inum, INDIRECT); Sound(g, WithAddr(Freed(fs, ib), inum, INDIRECT, 0), owner - {ib})
  {
    hide SetUsed, Word;
    var b := Addr(fs, inum, INDIRECT);
    assert SlotOk(g, fs, owner, inum, INDIRECT);
    var fs', owner' := WithAddr(Freed(fs, b), inum, INDIRECT, 0), owner - {b};
    AllocInUse(g, fs, b, 0);
    forall i, t: nat | i in fs'.addrs && t < SLOTS ensures SlotOk(g, fs', owner', i, t) {
      if !Given(inum, NINDIRECT, i, t) {
        assert SlotOk(g, fs, owner, i, t);
        AllocInUse(g, fs, b, Addr(fs', i, t));
      }
    }
    forall c ensures BlockOk(g, fs', owner', 0, 0, c) {
      AllocInUse(g, fs, b, c);
      assert BlockOk(g, fs, owner, inum, NINDIRECT, c);
    }
  }

  // ---- what files see

  /** The slot for block bn of a file. */
  function SlotOf(bn: nat): (s: nat)
    requires bn < MAXFILE
    ensures s < SLOTS && s != INDIRECT
  {
    if bn < NDIRECT then bn else ENTRY + bn - NDIRECT
  }

  lemma SlotOfInjective(m: nat, n: nat)
    requires m < MAXFILE && n < MAXFILE && SlotOf(m) == SlotOf(n)
    ensures m == n
  {
  }

  /** Block bn of file inum; a hole is a zeroed block. */
  function FileBlock(fs: Fs, inum: int, bn: nat): Data
    requires inum in fs.addrs && |fs.addrs[inum]| == NDIRECT + 1 && bn < MAXFILE
  {
    var a := Addr(fs, inum, SlotOf(bn));
    if a == 0 || a !in fs.store then Zeros() else fs.store[a]
  }

  /** No file's contents differ. */
  ghost predicate SameFiles(g: Geometry, fs: Fs, fs': Fs) {
    && Shape(g, fs) && Shape(g, fs') && fs'.addrs.Keys == fs.addrs.Keys
    && forall i, n :: i in fs.addrs && 0 <= n < MAXFILE ==> FileBlock(fs', i, n) == FileBlock(fs, i, n)
  }

  /** Slots keep the blocks they have. */
  ghost predicate Keeps(g: Geometry, fs: Fs, fs': Fs) {
    && Shape(g, fs) && Shape(g, fs') && fs'.addrs.Keys == fs.addrs.Keys
    && forall i, t :: i in fs.addrs && 0 <= t < SLOTS && Addr(fs, i, t) != 0 ==> Addr(fs', i, t) == Addr(fs, i, t)
  }

  /** No slot changed but slots s and t of inode inum. */
  ghost predicate SlotsBut(g: Geometry, fs: Fs, fs': Fs, inum: int, s: nat, t: nat) {
    && Shape(g, fs) && Shape(g, fs') && fs'.addrs.Keys == fs.addrs.Keys
    && forall i, u :: i in fs.addrs && 0 <= u < SLOTS && !(i == inum && (u == s || u == t)) ==>
                        Addr(fs', i, u) == Addr(fs, i, u)
  }

  lemma LinkFiles(g: Geometry, fs: Fs, owner: map<int, Slot>, b: nat, inum: int, s: nat)
    requires Sound(g, fs, owner) && IsData(g, b) && !InUse(g, fs, b)
    requires inum in fs.addrs && s <= INDIRECT && Addr(fs, inum, s) == 0
    ensures var fs' := WithAddr(Allocated(fs, b), inum, s, b);
            SameFiles(g, fs, fs') && Keeps(g, fs, fs') && SlotsBut(g, fs, fs', inum, s, s)
  {
    hide Addr, SetUsed, Zeros;
    var fs' := WithAddr(Allocated(fs, b), inum, s, b);
    AllocInUse(g, fs, b, 0);
    forall i, t: nat | i in fs.addrs && t < SLOTS
      ensures Addr(fs', i, t) == if i == inum && t == s then b else Addr(fs, i, t)
    {
      LinkAddr(g, fs, owner, b, inum, s, i, t);
    }
    forall i, n: nat | i in fs.addrs && n < MAXFILE ensures FileBlock(fs', i, n) == FileBlock(fs, i, n) {
      assert SlotOk(g, fs, owner, i, SlotOf(n));
    }
  }

  lemma EntryFiles(g: Geometry, fs: Fs, owner: map<int, Slot>, b: nat, inum: int, j: nat)
    requires Sound(g, fs, owner) && IsData(g, b) && !InUse(g, fs, b)
    requires inum in fs.addrs && j < NINDIRECT
    requires Addr(fs, inum, INDIRECT) != 0 && Addr(fs, inum, ENTRY + j) == 0
    ensures Addr(fs, inum, INDIRECT) in Allocated(fs, b).store
    ensures var fs' := WithEntry(Allocated(fs, b), Addr(fs, inum, INDIRECT), j, b);
            SameFiles(g, fs, fs') && Keeps(g, fs, fs') && SlotsBut(g, fs, fs', inum, ENTRY + j, ENTRY + j)
  {
    hide Addr, SetUsed, Zeros, SetWord;
    EntryAddr(g, fs, owner, b, inum, j, inum, INDIRECT);
    var ib := Addr(fs, inum, INDIRECT);
    var fs' := WithEntry(Allocated(fs, b), ib, j, b);
    AllocInUse(g, fs, b, 0);
    assert SlotOk(g, fs, owner, inum, INDIRECT);
    forall i, t: nat | i in fs.addrs && t < SLOTS
      ensures Addr(fs', i, t) == if i == inum && t == ENTRY + j then b else Addr(fs, i, t)
    {
      EntryAddr(g, fs, owner, b, inum, j, i, t);
    }
    forall i, n: nat | i in fs.addrs && n < MAXFILE ensures FileBlock(fs', i, n) == FileBlock(fs, i, n) {
      assert SlotOk(g, fs, owner, i, SlotOf(n));
    }
  }

  /** Overwriting one block of one file changes that block of that file only, and
      no ownership. */
  lemma WriteFiles(g: Geometry, fs: Fs, owner: map<int, Slot>, inum: int, bn: nat, d: Data)
    requires Sound(g, fs, owner) && inum in fs.addrs && bn < MAXFILE && Addr(fs, inum, SlotOf(bn)) != 0
    ensures var fs' := Fs(fs.bm, fs.store[Addr(fs, inum, SlotOf(bn)) := d], fs.addrs);
            && Sound(g, fs', owner) && Keeps(g, fs, fs') && SlotsBut(g, fs, fs', inum, SlotOf(bn), SlotOf(bn))
            && forall i, n :: i in fs.addrs && 0 <= n < MAXFILE ==>
                 FileBlock(fs', i, n) == if i == inum && n == bn then d else FileBlock(fs, i, n)
  {
    hide Word;
    var a := Addr(fs, inum, SlotOf(bn));
    assert SlotOk(g, fs, owner, inum, SlotOf(bn));
    var fs' := Fs(fs.bm, fs.store[a := d], fs.addrs);
    forall i, t: nat | i in fs.addrs && t < SLOTS
      ensures Addr(fs', i, t) == Addr(fs, i, t) && SlotOk(g, fs', owner, i, t)
    {
      assert SlotOk(g, fs, owner, i, INDIRECT) && SlotOk(g, fs, owner, i, t);
    }
    forall c ensures BlockOk(g, fs', owner, 0, 0, c) { assert BlockOk(g, fs, owner, 0, 0, c); }
    forall i, n: nat | i in fs.addrs && n < MAXFILE
      ensures FileBlock(fs', i, n) == if i == inum && n == bn then d else FileBlock(fs, i, n)
    {
      assert SlotOk(g, fs, owner, i, SlotOf(n));
      if SlotOf(n) == SlotOf(bn) {
        SlotOfInjective(n, bn);
      }
    }
  }

  /** The blocks bmap logs on its way from fs to fs'. */
  function BmapLogs(g: Geometry, fs: Fs, fs': Fs, inum: int, bn: nat): set<int>
    requires inum in fs.addrs && inum in fs'.addrs && |fs.addrs[inum]| == |fs'.addrs[inum]| == NDIRECT + 1
    requires bn < MAXFILE
  {
    var ib, a := Addr(fs', inum, INDIRECT), Addr(fs', inum, SlotOf(bn));
    (if bn >= NDIRECT && Addr(fs, inum, INDIRECT) == 0 && ib > 0 then {BBlock(g, ib), ib} else {})
    + (if Addr(fs, inum, SlotOf(bn)) == 0 && a > 0 then {BBlock(g, a), a} + if bn >= NDIRECT then {ib} else {} else {})
  }

  /** Truncating inode inum has so far freed the blocks `gone`, all its own, and
      changed no other inode and no block's contents. */
  ghost predicate Trimmed(g: Geometry, fs: Fs, owner: map<int, Slot>, fs': Fs, owner': map<int, Slot>, gone: set<int>,
      inum: int) {
    && Shape(g, fs) && Shape(g, fs') && inum in fs.addrs && inum in fs'.addrs
    && fs'.store == fs.store && fs'.addrs == fs.addrs[inum := fs'.addrs[inum]]
    && owner' == owner - gone
    && (forall c :: c in gone ==> c in owner && owner[c].inum == inum)
    && (forall c :: InUse(g, fs', c) <==> InUse(g, fs, c) && c !in gone)
  }

  lemma TrimMore(g: Geometry, fs: Fs, owner: map<int, Slot>, fs': Fs, owner': map<int, Slot>, gone: set<int>,
      inum: int, b: int, addrs: seq<int>)
    requires Trimmed(g, fs, owner, fs', owner', gone, inum) && |addrs| == NDIRECT + 1
    requires 0 <= b < g.size && b in owner' && owner'[b].inum == inum
    ensures var fs'' := Freed(fs', b);
            Trimmed(g, fs, owner, Fs(fs''.bm, fs''.store, fs'.addrs[inum := addrs]), owner' - {b}, gone + {b}, inum)
  {
    hide SetUsed;
    var fs'' := Freed(fs', b);
    var out := Fs(fs''.bm, fs''.store, fs'.addrs[inum := addrs]);
    AllocInUse(g, fs', b, 0);
    forall c ensures InUse(g, out, c) <==> InUse(g, fs, c) && c !in gone + {b} {
      AllocInUse(g, fs', b, c);
    }
  }

  /** Once the inode's addresses are all empty, exactly its blocks have been freed
      and other files are as they were. */
  lemma TrimmedAll(g: Geometry, fs: Fs, owner: map<int, Slot>, fs': Fs, owner': map<int, Slot>, gone: set<int>,
      inum: int)
    requires Sound(g, fs, owner) && Sound(g, fs', owner') && Trimmed(g, fs, owner, fs', owner', gone, inum)
    requires forall t :: 0 <= t <= INDIRECT ==> fs'.addrs[inum][t] == 0
    ensures Shape(g, fs) && fs'.store == fs.store && fs'.addrs == fs.addrs[inum := seq(NDIRECT + 1, _ => 0)]
    ensures forall c :: InUse(g, fs', c) <==> InUse(g, fs, c) && !(IsData(g, c) && c in owner && owner[c].inum == inum)
    ensures forall i, n :: i in fs.addrs && i != inum && 0 <= n < MAXFILE ==>
              FileBlock(fs', i, n) == FileBlock(fs, i, n)
  {
    hide Word;
    assert fs'.addrs[inum] == seq(NDIRECT + 1, _ => 0);
    forall c ensures InUse(g, fs', c) <==> InUse(g, fs, c) && !(IsData(g, c) && c in owner && owner[c].inum == inum) {
      assert BlockOk(g, fs, owner, 0, 0, c) && BlockOk(g, fs', owner', 0, 0, c);
    }
  }

  lemma NoneGiven(g: Geometry, fs: Fs, owner: map<int, Slot>, x: int)
    requires Sound(g, fs, owner)
    ensures Owned(g, fs, owner, x, 0)
  {
    forall c ensures BlockOk(g, fs, owner, x, 0, c) { assert BlockOk(g, fs, owner, 0, 0, c); }
  }

  lemma EntryOwner(g: Geometry, fs: Fs, owner: map<int, Slot>, inum: int, j: nat)
    requires Owned(g, fs, owner, inum, j) && inum in fs.addrs && j < NINDIRECT && Addr(fs, inum, ENTRY + j) != 0
    ensures OwnedBy(g, fs, owner, Addr(fs, inum, ENTRY + j), Slot(inum, ENTRY + j))
  {
    assert SlotOk(g, fs, owner, inum, ENTRY + j);
  }

  lemma IndirectOwner(g: Geometry, fs: Fs, owner: map<int, Slot>, inum: int, k: nat)
    requires Owned(g, fs, owner, inum, k) && inum in fs.addrs && Addr(fs, inum, INDIRECT) != 0
    ensures OwnedBy(g, fs, owner, Addr(fs, inum, INDIRECT), Slot(inum, INDIRECT))
  {
    assert SlotOk(g, fs, owner, inum, INDIRECT);
  }
}
