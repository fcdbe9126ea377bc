/** A disk on which filewrite's chunk size is just right: a chunk that logs as many
    blocks as a transaction may, and a chunk one byte larger that logs more. */
module FsTight {
  import opened Base
  import Disk
  import opened FsBase
  import opened FsBlocks
  import opened FsBytes
  import opened FsFile

  // ---- the disk

  const SIZE := 5 * BPB

  /** Inode blocks, then bitmap blocks, then data, as mkfs lays them out. */
  const G := Geometry(SIZE, 2599, 2593, 32)

  const FILE := 1

  /** The free blocks: one in each bitmap block. */
  predicate Spare(b: int) {
    0 <= b < SIZE && b % BPB == 8000
  }

  /** Besides FILE, each data block that is not spare has a file of its own. */
  predicate HasFile(b: int) {
    G.nmeta + NDIRECT <= b < SIZE && !Spare(b)
  }

  function Bits(): seq<BitBlock> {
    seq(5, _ => seq(BSIZE, j => if j == 1000 then 0xfe else 0xff))
  }

  /** FILE has its direct blocks, the other files one block each. */
  function Inode(i: int): (a: seq<int>)
    ensures |a| == NDIRECT + 1
  {
    if i == FILE then seq(NDIRECT + 1, t => if t < NDIRECT then G.nmeta + t else 0)
    else seq(NDIRECT + 1, t => if t == 0 then i else 0)
  }

  function Image(): Fs {
    Fs(Bits(), EmptyStore(SIZE), map i | 0 <= i < SIZE && (i == FILE || HasFile(i)) :: Inode(i))
  }

  function Owners(): map<int, Slot> {
    map b | G.nmeta <= b < SIZE && !Spare(b) :: if b < G.nmeta + NDIRECT then Slot(FILE, b - G.nmeta) else Slot(b, 0)
  }

  function Sizes(): map<int, int> {
    map i | 0 <= i < SIZE && (i == FILE || HasFile(i)) :: if i == FILE then NDIRECT * BSIZE else 0
  }

  lemma BitsUsed(b: nat)
    requires b < SIZE
    ensures |Bits()| == 5 && (Used(Bits(), b) <==> !Spare(b))
  {
    var k := b % BPB % 8;
    assert Bits()[b / BPB][b % BPB / 8] == if b % BPB / 8 == 1000 then 0xfe else 0xff;
    assert (0xff as bv8) & Mask(k) != 0 && ((0xfe as bv8) & Mask(k) != 0 <==> k != 0);
  }

  lemma ImageShape()
    ensures Shape(G, Image())
  {
  }

  lemma ImageAddr(i: int, s: nat)
    requires i in Image().addrs && s < SLOTS
    ensures |Image().addrs[i]| == NDIRECT + 1
    ensures Addr(Image(), i, s)
            == if i == FILE then (if s < NDIRECT then G.nmeta + s else 0) else if s == 0 then i else 0
  {
  }

  lemma ImageInUse(b: int)
    ensures Shape(G, Image()) && (InUse(G, Image(), b) <==> 0 <= b < SIZE && !Spare(b))
  {
    ImageShape();
    if 0 <= b < SIZE { BitsUsed(b); }
  }

  lemma ImageSlotOk(i: int, s: nat)
    requires i in Image().addrs && s < SLOTS
    ensures Shape(G, Image()) && SlotOk(G, Image(), Owners(), i, s)
  {
    hide Image, InUse, Addr;
    ImageShape();
    ImageHas(i);
    ImageAddr(i, s);
    ImageInUse(Addr(Image(), i, s));
  }

  lemma ImageHas(i: int)
    ensures i in Image().addrs <==> 0 <= i < SIZE && (i == FILE || HasFile(i))
  {
  }

  lemma ImageBlockOk(b: int)
    ensures Shape(G, Image()) && BlockOk(G, Image(), Owners(), 0, 0, b)
  {
    hide Image, InUse, Addr;
    ImageInUse(b);
    if IsData(G, b) && !Spare(b) {
      var sl := Owners()[b];
      ImageHas(sl.inum);
      ImageAddr(sl.inum, sl.s);
    }
  }

  lemma ImageWhole()
    ensures WholeState(G, Image(), Owners(), Sizes())
  {
    hide Image, SlotOk, BlockOk, Addr;
    ImageShape();
    forall i, s: nat | i in Image().addrs && s < SLOTS ensures SlotOk(G, Image(), Owners(), i, s) { ImageSlotOk(i, s); }
    forall b: int ensures BlockOk(G, Image(), Owners(), 0, 0, b) { ImageBlockOk(b); }
    forall i ensures i in Sizes() <==> i in Image().addrs { ImageHas(i); }
    forall i | i in Image().addrs ensures HoleFree(Image(), i, Sizes()[i]) {
      forall bn: nat | bn < MAXFILE && bn * BSIZE < Sizes()[i] ensures Addr(Image(), i, SlotOf(bn)) != 0 {
        ImageAddr(i, SlotOf(bn));
      }
    }
  }

  // ---- what a write to FILE can do

  lemma {:induction false} DistinctCount(xs: seq<int>, s: set<int>)
    requires forall a :: 0 <= a < |xs| ==> xs[a] in s
    requires forall a, b :: 0 <= a < b < |xs| ==> xs[a] != xs[b]
    ensures |xs| <= |s|
  {
    if xs != [] {
      var n := |xs| - 1;
      DistinctCount(xs[..n], s - {xs[n]});
    }
  }

  lemma OwnBlock(g: Geometry, fs: Fs, owner: map<int, Slot>, inum: int, s: nat)
    requires Sound(g, fs, owner) && inum in fs.addrs && s < SLOTS && Addr(fs, inum, s) != 0
    ensures var a := Addr(fs, inum, s); g.nmeta <= a < g.size && a in owner && owner[a] == Slot(inum, s)
  {
    assert SlotOk(g, fs, owner, inum, s);
  }

  /** After writing n bytes at off to FILE. */
  ghost predicate After(now: Fs, owner: map<int, Slot>, logs: set<int>, off: nat, n: nat) {
    && Sound(G, now, owner) && Keeps(G, Image(), now) && OtherSlots(G, Image(), now, FILE)
    && Covered(G, Image(), now, logs, FILE, off, n) && IBlock(G, FILE) in logs
  }

  /** A block that has come to FILE was spare. */
  lemma NewSpare(now: Fs, owner: map<int, Slot>, logs: set<int>, off: nat, n: nat, s: nat)
    requires After(now, owner, logs, off, n) && NDIRECT <= s < SLOTS && Addr(now, FILE, s) != 0
    ensures var x := Addr(now, FILE, s); Spare(x) && G.nmeta <= x && x in owner && owner[x] == Slot(FILE, s)
  {
    hide Image, Addr, InUse, Covered, OtherSlots, BlockOk;
    var x := Addr(now, FILE, s);
    OwnBlock(G, now, owner, FILE, s);
    ImageAddr(FILE, s);
    if !Spare(x) {
      var sl := Owners()[x];
      ImageHas(sl.inum);
      ImageAddr(sl.inum, sl.s);
      OwnBlock(G, now, owner, sl.inum, sl.s);
    }
  }

  /** If nothing is free any more, FILE has each of the spare blocks. */
  lemma SpareTaken(now: Fs, owner: map<int, Slot>, logs: set<int>, off: nat, n: nat, f: int) returns (u: nat)
    requires After(now, owner, logs, off, n) && Spare(f) && InUse(G, now, f) && f >= G.nmeta
    ensures NDIRECT <= u < SLOTS && Addr(now, FILE, u) == f
  {
    hide Image, Addr, InUse, Covered;
    assert BlockOk(G, now, owner, 0, 0, f);
    var i := owner[f].inum;
    u := owner[f].s;
    ImageHas(i);
    ImageAddr(i, u);
    ImageSlotOk(i, u);
    ImageInUse(f);
  }

  /** Slots beyond block 14 are still empty. */
  lemma EarlySlot(now: Fs, owner: map<int, Slot>, logs: set<int>, off: nat, n: nat, u: nat)
    requires After(now, owner, logs, off, n) && off + n <= (NDIRECT + 3) * BSIZE
    requires NDIRECT <= u < SLOTS && Addr(now, FILE, u) != 0
    ensures u in {INDIRECT, ENTRY, ENTRY + 1, ENTRY + 2}
  {
    hide Image, Addr, InUse, Sound, OtherSlots;
    if u > ENTRY + 2 {
      var bn := u - ENTRY + NDIRECT;
      assert SlotOf(bn) == u;
      ImageAddr(FILE, u);
    }
  }

  /** The disk cannot have become full that early. */
  lemma NotFull(now: Fs, owner: map<int, Slot>, logs: set<int>, off: nat, n: nat)
    requires After(now, owner, logs, off, n) && off + n <= (NDIRECT + 3) * BSIZE
    ensures !forall c :: 0 <= c < SIZE ==> InUse(G, now, c)
  {
    hide Image, Addr, After, InUse;
    AfterShape(now, owner, logs, off, n);
    if forall c :: 0 <= c < SIZE ==> InUse(G, now, c) {
      var us: seq<nat> := [];
      for k := 0 to 5
        invariant |us| == k
        invariant forall a :: 0 <= a < k ==> NDIRECT <= us[a] < SLOTS && Addr(now, FILE, us[a]) == 8000 + BPB * a
        invariant forall a :: 0 <= a < k ==> us[a] in {INDIRECT, ENTRY, ENTRY + 1, ENTRY + 2}
      {
        var u := SpareTaken(now, owner, logs, off, n, 8000 + BPB * k);
        EarlySlot(now, owner, logs, off, n, u);
        us := us + [u];
      }
      assert |{INDIRECT, ENTRY, ENTRY + 1, ENTRY + 2}| == 4;
      DistinctCount(us, {INDIRECT, ENTRY, ENTRY + 1, ENTRY + 2});
    }
  }

  lemma AfterShape(now: Fs, owner: map<int, Slot>, logs: set<int>, off: nat, n: nat)
    requires After(now, owner, logs, off, n)
    ensures Shape(G, now) && FILE in now.addrs && |now.addrs[FILE]| == NDIRECT + 1 && IBlock(G, FILE) in logs
  {
  }

  /** The block in slot s came from the spare ones, and is logged with its bitmap block. */
  ghost predicate Came(now: Fs, owner: map<int, Slot>, logs: set<int>, s: nat, x: int) {
    Spare(x) && G.nmeta <= x && x in logs && BBlock(G, x) in logs && x in owner && owner[x] == Slot(FILE, s)
  }

  /** A block written beyond the direct ones, and the indirect block. */
  lemma NewLogged(now: Fs, owner: map<int, Slot>, logs: set<int>, off: nat, n: nat, bn: nat) returns (x: int, ib: int)
    requires After(now, owner, logs, off, n) && NDIRECT <= bn < MAXFILE
    requires off / BSIZE <= bn && 0 < n && bn * BSIZE < off + n
    ensures Came(now, owner, logs, SlotOf(bn), x) && Came(now, owner, logs, INDIRECT, ib)
  {
    hide Image, Addr, InUse, Sound, OtherSlots, Keeps, Spare;
    AfterShape(now, owner, logs, off, n);
    assert BlockLogged(G, Image(), now, logs, FILE, bn);
    x, ib := Addr(now, FILE, SlotOf(bn)), Addr(now, FILE, INDIRECT);
    ImageAddr(FILE, SlotOf(bn));
    ImageAddr(FILE, INDIRECT);
    NewSpare(now, owner, logs, off, n, SlotOf(bn));
    HasIndirect(now, SlotOf(bn));
    NewSpare(now, owner, logs, off, n, INDIRECT);
  }

  lemma HasIndirect(fs: Fs, s: nat)
    requires FILE in fs.addrs && |fs.addrs[FILE]| == NDIRECT + 1 && ENTRY <= s < SLOTS && Addr(fs, FILE, s) != 0
    ensures Addr(fs, FILE, INDIRECT) != 0
  {
  }

  /** Different spare blocks are in different bitmap blocks, which are metadata. */
  lemma SparesApart(x: int, y: int)
    requires Spare(x) && Spare(y)
    ensures IBlock(G, FILE) < BBlock(G, x) < G.nmeta && (x != y ==> BBlock(G, x) != BBlock(G, y))
  {
  }

  lemma CameApart(now: Fs, owner: map<int, Slot>, logs: set<int>, s: nat, x: int, u: nat, y: int)
    requires Came(now, owner, logs, s, x) && Came(now, owner, logs, u, y) && s != u
    ensures x != y && IBlock(G, FILE) < BBlock(G, x) < G.nmeta <= x && BBlock(G, x) != BBlock(G, y)
  {
    SparesApart(x, y);
  }

  /** Blocks that came to different slots make for twice as many logged blocks, the
      inode's block, and what else is logged. */
  lemma ManyLogged(now: Fs, owner: map<int, Slot>, logs: set<int>, slots: seq<nat>, xs: seq<int>, extra: set<int>)
    requires |slots| == |xs| && extra <= logs && IBlock(G, FILE) in logs
    requires forall k :: 0 <= k < |xs| ==> Came(now, owner, logs, slots[k], xs[k])
    requires forall j, k :: 0 <= j < k < |xs| ==> slots[j] != slots[k]
    requires forall e :: e in extra ==> e >= G.nmeta && !Spare(e)
    ensures |logs| >= 2 * |xs| + 1 + |extra|
  {
    var bbs := seq(|xs|, k requires 0 <= k < |xs| => BBlock(G, xs[k]));
    var all := xs + bbs + [IBlock(G, FILE)];
    forall j, k | 0 <= j < k < |xs| ensures xs[j] != xs[k] && bbs[j] != bbs[k] {
      CameApart(now, owner, logs, slots[j], xs[j], slots[k], xs[k]);
    }
    forall k | 0 <= k < |xs|
      ensures IBlock(G, FILE) < bbs[k] < G.nmeta <= xs[k] && xs[k] in logs && bbs[k] in logs && Spare(xs[k])
    {
      SparesApart(xs[k], xs[k]);
    }
    DistinctCount(all, logs - extra);
  }

  /** Writing m blocks beyond the direct ones logs at least 2 * m + 3 blocks, and what
      else is known to be logged. */
  lemma MustLog(now: Fs, owner: map<int, Slot>, logs: set<int>, off: nat, n: nat, m: nat, extra: set<int>)
    requires After(now, owner, logs, off, n) && 0 < m <= NINDIRECT && 0 < n
    requires off <= NDIRECT * BSIZE && (NDIRECT + m - 1) * BSIZE < off + n
    requires extra <= logs && forall e :: e in extra ==> e >= G.nmeta && !Spare(e)
    ensures |logs| >= 2 * m + 3 + |extra|
  {
    hide After, Came, Image, Spare;
    var x, ib := NewLogged(now, owner, logs, off, n, NDIRECT);
    var slots, xs: seq<int> := [INDIRECT], [ib];
    for k := 0 to m
      invariant |slots| == |xs| == k + 1 && slots[0] == INDIRECT
      invariant forall j :: 0 < j <= k ==> slots[j] == SlotOf(NDIRECT + j - 1)
      invariant forall j :: 0 <= j <= k ==> Came(now, owner, logs, slots[j], xs[j])
    {
      var y, _ := NewLogged(now, owner, logs, off, n, NDIRECT + k);
      slots, xs := slots + [SlotOf(NDIRECT + k)], xs + [y];
    }
    AfterShape(now, owner, logs, off, n);
    ManyLogged(now, owner, logs, slots, xs, extra);
  }

  /** The block that FILE's last direct block is in, if it is written. */
  lemma LastDirect(now: Fs, owner: map<int, Slot>, logs: set<int>, off: nat, n: nat)
    requires After(now, owner, logs, off, n) && off / BSIZE == NDIRECT - 1 && 0 < n && (NDIRECT - 1) * BSIZE < off + n
    ensures G.nmeta + NDIRECT - 1 in logs
  {
    hide Image, Addr, InUse, Sound, OtherSlots;
    AfterShape(now, owner, logs, off, n);
    assert BlockLogged(G, Image(), now, logs, FILE, NDIRECT - 1);
    ImageAddr(FILE, NDIRECT - 1);
  }

  // ---- two chunks

  /** One transaction that writes src to FILE at off. */
  method OneChunk(off: nat, src: seq<Byte>) returns (fs: FileSystem, r: int)
    requires off <= NDIRECT * BSIZE && 0 < |src| && off + |src| <= (NDIRECT + 3) * BSIZE + 1
    ensures fresh(fs) && fs.Whole() && fs.g == G && r == |src| && |fs.logged| <= WriteBudget(off, |src|)
    ensures After(fs.State(), fs.owner, fs.logged, off, |src|)
  {
    hide Covered, OtherSlots, Keeps, InUse, Image, WriteBudget, Wrote, HoleFree, Owned;
    ImageWhole();
    fs := new FileSystem.Mount(G, Image(), Sizes(), Owners());
    fs.BeginOp();
    ImageHas(FILE);
    ghost var touched;
    r, touched := fs.Writei(FILE, off, src);
    Smaller(fs.logged, touched);
    assert After(fs.State(), fs.owner, fs.logged, off, r);
    if r < |src| { NotFull(fs.State(), fs.owner, fs.logged, off, r); }
  }

  /** A chunk of filewrite's that logs exactly as many blocks as a transaction may. */
  method FullChunk(src: seq<Byte>) returns (fs: FileSystem, r: int)
    requires |src| == MAXCHUNK
    ensures fresh(fs) && fs.Whole() && r == |src| && |fs.logged| == Disk.MAXOPBLOCKS
  {
    hide After, WholeState, WriteBudget;
    var off := (NDIRECT - 1) * BSIZE + 1;
    fs, r := OneChunk(off, src);
    ChunkFits(off, |src|);
    LastDirect(fs.State(), fs.owner, fs.logged, off, |src|);
    MustLog(fs.State(), fs.owner, fs.logged, off, |src|, 3, {G.nmeta + NDIRECT - 1});
  }

  /** With chunks one byte larger a transaction could log more than it may. */
  method LargerChunk(src: seq<Byte>) returns (fs: FileSystem, r: int)
    requires |src| == MAXCHUNK + 1
    ensures fresh(fs) && fs.Whole() && r == |src| && |fs.logged| > Disk.MAXOPBLOCKS
  {
    hide After, WholeState, WriteBudget;
    var off := NDIRECT * BSIZE;
    fs, r := OneChunk(off, src);
    MustLog(fs.State(), fs.owner, fs.logged, off, |src|, 4, {});
  }
}
