/** Files as sequences of bytes, and what writing some of them changes. */
module FsBytes {
  import opened Base
  import Disk
  import opened FsBase
  import opened FsBlocks

  const MAXBYTES := MAXFILE * BSIZE

  /** Byte p of file inum; holes are zeros. */
  function ByteAt(fs: Fs, inum: int, p: nat): Byte
    requires inum in fs.addrs && |fs.addrs[inum]| == NDIRECT + 1 && p < MAXBYTES
  {
    FileBlock(fs, inum, p / BSIZE)[p % BSIZE]
  }

  /** The file has a block for every byte below size. */
  ghost predicate HoleFree(fs: Fs, inum: int, size: int)
    requires inum in fs.addrs && |fs.addrs[inum]| == NDIRECT + 1
  {
    forall bn :: 0 <= bn < MAXFILE && bn * BSIZE < size ==> Addr(fs, inum, SlotOf(bn)) != 0
  }

  /** From fs to fs', the bytes src were written at off in file inum; nothing else
      of it changed, and no other file. */
  ghost predicate Wrote(g: Geometry, fs: Fs, fs': Fs, inum: int, off: nat, src: seq<Byte>) {
    && OtherFiles(g, fs, fs', inum) && inum in fs.addrs
    && (forall p :: 0 <= p < MAXBYTES ==>
          ByteAt(fs', inum, p) == if off <= p < off + |src| then src[p - off] else ByteAt(fs, inum, p))
  }

  /** Every file but inum is as it was. */
  ghost predicate OtherFiles(g: Geometry, fs: Fs, fs': Fs, inum: int) {
    && Shape(g, fs) && Shape(g, fs') && fs'.addrs.Keys == fs.addrs.Keys
    && forall i, n :: i in fs.addrs && i != inum && 0 <= n < MAXFILE ==> FileBlock(fs', i, n) == FileBlock(fs, i, n)
  }

  /** The slots of every file but inum are as they were. */
  ghost predicate OtherSlots(g: Geometry, fs: Fs, fs': Fs, inum: int) {
    && Shape(g, fs) && Shape(g, fs') && fs'.addrs.Keys == fs.addrs.Keys
    && forall i, u :: i in fs.addrs && i != inum && 0 <= u < SLOTS ==> Addr(fs', i, u) == Addr(fs, i, u)
  }

  lemma OtherSlotsMore(g: Geometry, a: Fs, b: Fs, c: Fs, inum: int, s: nat, t: nat)
    requires OtherSlots(g, a, b, inum) && SlotsBut(g, b, c, inum, s, t)
    ensures OtherSlots(g, a, c, inum)
  {
    hide Addr;
    forall i, u: nat | i in a.addrs && i != inum && u < SLOTS ensures Addr(c, i, u) == Addr(a, i, u) {
      assert Addr(b, i, u) == Addr(a, i, u);
    }
  }

  lemma WroteNothing(g: Geometry, fs: Fs, fs': Fs, inum: int, off: nat)
    requires SameFiles(g, fs, fs') && inum in fs.addrs
    ensures Wrote(g, fs, fs', inum, off, [])
  {
    hide FileBlock, Addr;
  }

  /** The block with d at its offset k on. */
  function Patch(b: Data, k: nat, d: seq<Byte>): Data
    requires k + |d| <= BSIZE
  {
    b[..k] + d + b[k + |d|..]
  }

  /** One block patched: the bytes in it that lie in the patch, and no others. */
  lemma WroteBlock(g: Geometry, fs: Fs, fs': Fs, inum: int, off: nat, d: seq<Byte>)
    requires Shape(g, fs) && Shape(g, fs') && fs'.addrs.Keys == fs.addrs.Keys && inum in fs.addrs
    requires off % BSIZE + |d| <= BSIZE && off < MAXBYTES
    requires forall i, n :: i in fs.addrs && 0 <= n < MAXFILE ==>
               FileBlock(fs', i, n)
               == if i == inum && n == off / BSIZE then Patch(FileBlock(fs, i, n), off % BSIZE, d)
                  else FileBlock(fs, i, n)
    ensures Wrote(g, fs, fs', inum, off, d)
  {
    hide FileBlock, Addr;
  }

  lemma WroteTwice(g: Geometry, a: Fs, b: Fs, c: Fs, inum: int, off: nat, s: seq<Byte>, t: seq<Byte>)
    requires Wrote(g, a, b, inum, off, s) && Wrote(g, b, c, inum, off + |s|, t)
    ensures Wrote(g, a, c, inum, off, s + t)
  {
    hide ByteAt, FileBlock;
    forall i, n: nat | i in a.addrs && i != inum && n < MAXFILE ensures FileBlock(c, i, n) == FileBlock(a, i, n) {
      assert FileBlock(b, i, n) == FileBlock(a, i, n);
    }
    forall p: nat | p < MAXBYTES
      ensures ByteAt(c, inum, p) == if off <= p < off + |s + t| then (s + t)[p - off] else ByteAt(a, inum, p)
    {
      assert ByteAt(b, inum, p) == if off <= p < off + |s| then s[p - off] else ByteAt(a, inum, p);
    }
  }

  lemma StillHoleFree(g: Geometry, fs: Fs, fs': Fs, inum: int, size: int)
    requires Keeps(g, fs, fs') && inum in fs.addrs && HoleFree(fs, inum, size)
    ensures HoleFree(fs', inum, size)
  {
    hide Addr;
  }

  lemma FewerHoles(fs: Fs, inum: int, size: int, less: int)
    requires inum in fs.addrs && |fs.addrs[inum]| == NDIRECT + 1 && HoleFree(fs, inum, size) && less <= size
    ensures HoleFree(fs, inum, less)
  {
  }

  lemma SameHoles(fs: Fs, fs': Fs, inum: int, size: int)
    requires inum in fs.addrs && |fs.addrs[inum]| == NDIRECT + 1 && HoleFree(fs, inum, size)
    requires inum in fs'.addrs && fs'.addrs[inum] == fs.addrs[inum] && fs'.store == fs.store
    ensures HoleFree(fs', inum, size)
  {
    hide Word;
    assert forall t :: 0 <= t < SLOTS ==> Addr(fs', inum, t) == Addr(fs, inum, t);
  }

  /** m bytes from p on, all in one block. */
  lemma BlockBytes(fs: Fs, inum: int, p: nat, m: nat)
    requires inum in fs.addrs && |fs.addrs[inum]| == NDIRECT + 1 && p < MAXBYTES && p % BSIZE + m <= BSIZE
    ensures var s := FileBlock(fs, inum, p / BSIZE)[p % BSIZE..p % BSIZE + m];
            forall k :: 0 <= k < m ==> s[k] == ByteAt(fs, inum, p + k)
  {
    hide FileBlock;
  }

  /** A sound file system, no file larger than it can be or with holes below its size. */
  ghost predicate WholeState(g: Geometry, fs: Fs, owner: map<int, Slot>, size: map<int, int>) {
    && Sound(g, fs, owner) && size.Keys == fs.addrs.Keys && (forall i :: i in size ==> 0 <= size[i] <= MAXBYTES)
    && forall i :: i in fs.addrs ==> HoleFree(fs, i, size[i])
  }

  /** The sizes once file inum reaches to e. */
  function Grown(size: map<int, int>, inum: int, e: int): map<int, int>
    requires inum in size
  {
    if e > size[inum] then size[inum := e] else size
  }

  lemma WholeGrown(g: Geometry, was: Fs, owner0: map<int, Slot>, fs: Fs, owner: map<int, Slot>, size: map<int, int>,
      inum: int, e: nat)
    requires WholeState(g, was, owner0, size) && Sound(g, fs, owner) && Keeps(g, was, fs)
    requires inum in fs.addrs && e <= MAXBYTES && HoleFree(fs, inum, e)
    ensures inum in size && WholeState(g, fs, owner, Grown(size, inum, e))
  {
    hide Addr, SlotOk, BlockOk;
    forall i | i in fs.addrs ensures HoleFree(fs, i, Grown(size, inum, e)[i]) {
      StillHoleFree(g, was, fs, i, size[i]);
    }
  }

  /** A mapped block right after the end of a hole-free stretch extends it. */
  lemma HoleFreeMore(fs: Fs, inum: int, e: nat, m: nat)
    requires inum in fs.addrs && |fs.addrs[inum]| == NDIRECT + 1 && e % BSIZE + m <= BSIZE && e < MAXBYTES
    requires HoleFree(fs, inum, e) && Addr(fs, inum, SlotOf(e / BSIZE)) != 0
    ensures HoleFree(fs, inum, e + m)
  {
    hide Addr;
    forall bn | 0 <= bn < MAXFILE && bn * BSIZE < e + m ensures Addr(fs, inum, SlotOf(bn)) != 0 {
      if bn != e / BSIZE {
        assert bn * BSIZE < e;
      }
    }
  }

  // ---- how many blocks a write logs

  /** Blocks of the file that the n bytes at off touch. */
  function Span(off: nat, n: nat): nat {
    if n == 0 then 0 else (off + n - 1) / BSIZE - off / BSIZE + 1
  }

  lemma SpanStep(off: nat, tot: nat, m: nat)
    requires 0 < m && (off + tot) % BSIZE + m <= BSIZE && (tot == 0 || (off + tot) % BSIZE == 0)
    ensures Span(off, tot + m) == Span(off, tot) + 1
  {
  }

  lemma SpanGrows(off: nat, tot: nat, n: nat)
    requires tot <= n
    ensures Span(off, tot) <= Span(off, n) && Span(off, 0) == 0 && (n > 0 ==> 1 <= Span(off, n))
  {
  }

  lemma SpanShort(off: nat, n: nat)
    requires n <= 3 * BSIZE
    ensures Span(off, n) <= 4 && (off % BSIZE == 0 ==> Span(off, n) <= 3)
  {
  }

  /** What writing one block logs: itself, and its bitmap block if it is new. */
  function DataLogs(g: Geometry, a: nat, isNew: bool): (r: set<int>)
    ensures |r| <= if isNew then 2 else 1
  {
    if isNew then {a, BBlock(g, a)} else {a}
  }

  /** What a file's indirect block can add. */
  function IndirectLogs(g: Geometry, ib: int): (r: set<int>)
    ensures |r| <= 2
  {
    if ib > 0 then {ib, BBlock(g, ib)} else {}
  }

  /** A file's write of n bytes at off logs no more than this. */
  function WriteBudget(off: nat, n: nat): int {
    2 * Span(off, n) + 3 - if off % BSIZE != 0 && n > 0 then 1 else 0
  }

  // ---- and what it logs for certain

  /** Block bn of the file was written: it is logged, and its bitmap block if it is new. */
  ghost predicate BlockLogged(g: Geometry, was: Fs, now: Fs, logs: set<int>, inum: int, bn: nat)
    requires Shape(g, was) && Shape(g, now) && inum in was.addrs && inum in now.addrs && bn < MAXFILE
  {
    var a := Addr(now, inum, SlotOf(bn));
    a > 0 && a in logs && (Addr(was, inum, SlotOf(bn)) == 0 ==> BBlock(g, a) in logs)
  }

  ghost predicate IndirectLogged(g: Geometry, was: Fs, now: Fs, logs: set<int>, inum: int)
    requires Shape(g, was) && Shape(g, now) && inum in was.addrs && inum in now.addrs
  {
    var ib := Addr(now, inum, INDIRECT);
    Addr(was, inum, INDIRECT) == 0 && ib != 0 ==> ib > 0 && ib in logs && BBlock(g, ib) in logs
  }

  /** The n bytes from off were written in order: what that touched is logged, what
      it has not reached is mapped as before. */
  ghost predicate Covered(g: Geometry, was: Fs, now: Fs, logs: set<int>, inum: int, off: nat, n: nat) {
    && Shape(g, was) && Shape(g, now) && inum in was.addrs && inum in now.addrs
    && IndirectLogged(g, was, now, logs, inum)
    && (forall bn :: 0 <= bn < MAXFILE && off / BSIZE <= bn && 0 < n && bn * BSIZE < off + n ==>
          BlockLogged(g, was, now, logs, inum, bn))
    && (forall bn :: 0 <= bn < MAXFILE && (n == 0 || off + n <= bn * BSIZE) ==>
          Addr(now, inum, SlotOf(bn)) == Addr(was, inum, SlotOf(bn)))
  }

  /** The slot that bmap may fill besides the block's own. */
  function Also(bn: nat): nat
    requires bn < MAXFILE
  {
    if bn < NDIRECT then SlotOf(bn) else INDIRECT
  }

  lemma CoveredMore(g: Geometry, was: Fs, here: Fs, now: Fs, logs: set<int>, logs': set<int>, inum: int, off: nat,
      n: nat, m: nat)
    requires Covered(g, was, here, logs, inum, off, n) && logs <= logs' && off + n < MAXBYTES
    requires n == 0 || (off + n) % BSIZE == 0
    requires (off + n) % BSIZE + m <= BSIZE && Keeps(g, here, now) && inum in now.addrs
    requires SlotsBut(g, here, now, inum, SlotOf((off + n) / BSIZE), Also((off + n) / BSIZE))
    requires IndirectLogged(g, here, now, logs', inum)
    requires if m == 0 then Addr(now, inum, SlotOf((off + n) / BSIZE)) == 0
             else BlockLogged(g, here, now, logs', inum, (off + n) / BSIZE)
    ensures Covered(g, was, now, logs', inum, off, n + m)
  {
    hide Addr;
    var p := (off + n) / BSIZE;
    forall bn: nat | bn < MAXFILE && off / BSIZE <= bn && 0 < n + m && bn * BSIZE < off + n + m
      ensures BlockLogged(g, was, now, logs', inum, bn)
    {
      if bn != p || m == 0 { assert BlockLogged(g, was, here, logs, inum, bn); }
    }
    forall bn: nat | bn < MAXFILE && (n + m == 0 || off + n + m <= bn * BSIZE)
      ensures Addr(now, inum, SlotOf(bn)) == Addr(was, inum, SlotOf(bn))
    {
      if SlotOf(bn) == SlotOf(p) { SlotOfInjective(bn, p); }
    }
  }

  lemma CoveredStays(g: Geometry, was: Fs, now: Fs, logs: set<int>, inum: int, off: nat, n: nat, b: int)
    requires Covered(g, was, now, logs, inum, off, n)
    ensures Covered(g, was, now, logs + {b}, inum, off, n)
  {
    hide Addr;
    forall bn: nat | bn < MAXFILE && off / BSIZE <= bn && 0 < n && bn * BSIZE < off + n
      ensures BlockLogged(g, was, now, logs + {b}, inum, bn)
    {
      assert BlockLogged(g, was, now, logs, inum, bn);
    }
  }

  lemma UnionBound(a: set<int>, b: set<int>)
    ensures |a + b| <= |a| + |b|
  {
    assert |a + b| == |a| + |b| - |a * b|;
  }

  lemma Smaller(a: set<int>, b: set<int>)
    requires a <= b
    ensures |a| <= |b|
  {
    assert b == a + (b - a);
  }

  /** filewrite's chunk: the inode, an indirect block, and two blocks of slop. */
  const MAXCHUNK := (Disk.MAXOPBLOCKS - 1 - 1 - 2) / 2 * BSIZE

  /** How many chunks n bytes make. */
  function Chunks(n: nat): nat {
    (n + MAXCHUNK - 1) / MAXCHUNK
  }

  /** How many whole chunks there are in n bytes. */
  function WholeChunks(n: nat): nat {
    n / MAXCHUNK
  }

  lemma NoChunks()
    ensures Chunks(0) == WholeChunks(0) == 0
  {
  }

  /** k bytes of one more chunk of n. */
  lemma ChunkMore(i: nat, n: nat, k: nat)
    requires i % MAXCHUNK == 0 && 0 < n <= MAXCHUNK && k <= n
    ensures Chunks(i + n) == Chunks(i) + 1 && (k < n ==> WholeChunks(i + k) == Chunks(i))
    ensures n == MAXCHUNK ==> Chunks(i + n) == WholeChunks(i + n) && (i + n) % MAXCHUNK == 0
  {
    var q := i / MAXCHUNK;
    assert MAXCHUNK == 3072 && i == 3072 * q;
    ChunkAt(q, 3071);
    ChunkAt(q + 1, n - 1);
    ChunkAt(q + 1, 0);
    if k < n { ChunkAt(q, k); }
  }

  lemma ChunkAt(q: nat, r: nat)
    requires r < MAXCHUNK
    ensures (3072 * q + r) / MAXCHUNK == q && (3072 * q + r) % MAXCHUNK == r
  {
    assert MAXCHUNK == 3072;
  }

  /** A chunk fits one operation's share of the log, wherever it starts. */
  lemma ChunkFits(off: nat, n: nat)
    requires n <= MAXCHUNK
    ensures WriteBudget(off, n) <= Disk.MAXOPBLOCKS
  {
    SpanShort(off, n);
  }
}
