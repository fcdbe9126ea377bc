/** On-disk shapes: bitmap blocks, data blocks and the block numbers an indirect
    block lists. */
module FsBase {
  import opened Base
  const BPB := BSIZE * 8
  const NDIRECT := 12
  const NINDIRECT := BSIZE / 4
  const MAXFILE := NDIRECT + NINDIRECT

  type Data = d: seq<Byte> | |d| == BSIZE witness seq(BSIZE, _ => 0)

  /** A zeroed block. */
  function Zeros(): Data {
    seq(BSIZE, i => 0)
  }

  // ---- bitmap blocks

  type BitBlock = d: seq<bv8> | |d| == BSIZE witness seq(BSIZE, _ => 0)

  /** 1 << k */
  function Mask(k: nat): bv8
    requires k < 8
  {
    if k == 0 then 1 else if k == 1 then 2 else if k == 2 then 4 else if k == 3 then 8
    else if k == 4 then 16 else if k == 5 then 32 else if k == 6 then 64 else 128
  }

  function SetBit(x: bv8, k: nat, on: bool): bv8
    requires k < 8
  {
    if on then x | Mask(k) else x & !Mask(k)
  }

  predicate BitAt(bm: seq<BitBlock>, i: nat, j: nat, k: nat)
    requires i < |bm| && j < BSIZE && k < 8
  {
    bm[i][j] & Mask(k) != 0
  }

  /** data[j] |= m, or data[j] &= ~m, in bitmap block i. */
  function PutBit(bm: seq<BitBlock>, i: nat, j: nat, k: nat, on: bool): seq<BitBlock>
    requires i < |bm| && j < BSIZE && k < 8
  {
    bm[i := bm[i][j := SetBit(bm[i][j], k, on)]]
  }

  /** The bit for block b, in the bitmap block that has it. */
  predicate Used(bm: seq<BitBlock>, b: nat)
    requires b < |bm| * BPB
  {
    BitAt(bm, b / BPB, b % BPB / 8, b % BPB % 8)
  }

  function SetUsed(bm: seq<BitBlock>, b: nat, on: bool): seq<BitBlock>
    requires b < |bm| * BPB
  {
    PutBit(bm, b / BPB, b % BPB / 8, b % BPB % 8, on)
  }

  lemma UsedInBlock(bm: seq<BitBlock>, b: nat, bi: nat)
    requires b % BPB == 0 && bi < BPB && b + bi < |bm| * BPB
    ensures b / BPB < |bm| && (Used(bm, b + bi) <==> bm[b / BPB][bi / 8] & Mask(bi % 8) != 0)
  {
    hide Mask;
    assert (b + bi) / BPB == b / BPB && (b + bi) % BPB == bi;
  }

  lemma MaskBits(x: bv8, i: nat, j: nat, on: bool)
    requires i < 8 && j < 8
    ensures SetBit(x, i, on) & Mask(j) != 0 <==> if i == j then on else x & Mask(j) != 0
  {
  }

  lemma MaskIsShift(k: nat)
    requires k < 8
    ensures Mask(k) == (1 as bv8) << k
  {
  }

  /** Byte y of the bitmap mkfs writes, in which the first `used` bits are set from the
      lowest bit of byte 0 on. */
  function MkfsByte(used: nat, y: nat): bv8 {
    if used >= 8 * y + 8 then 0xFF else if used <= 8 * y then 0 else ((1 as bv8) << (used - 8 * y)) - 1
  }

  lemma ByteIs(x: bv8, used: nat, y: nat)
    requires forall k :: 0 <= k < 8 ==> (x & Mask(k) != 0 <==> 8 * y + k < used)
    ensures x == MkfsByte(used, y)
  {
    assert x & Mask(0) != 0 <==> 8 * y + 0 < used;
    assert x & Mask(1) != 0 <==> 8 * y + 1 < used;
    assert x & Mask(2) != 0 <==> 8 * y + 2 < used;
    assert x & Mask(3) != 0 <==> 8 * y + 3 < used;
    assert x & Mask(4) != 0 <==> 8 * y + 4 < used;
    assert x & Mask(5) != 0 <==> 8 * y + 5 < used;
    assert x & Mask(6) != 0 <==> 8 * y + 6 < used;
    assert x & Mask(7) != 0 <==> 8 * y + 7 < used;
  }

  /** A bitmap in which exactly the first `used` blocks are in use is, byte for byte, the
      one mkfs writes. */
  lemma BitmapIsMkfs(bm: seq<BitBlock>, used: nat, i: nat, y: nat)
    requires forall b :: 0 <= b < |bm| * BPB ==> (Used(bm, b) <==> b < used)
    requires i < |bm| && y < BSIZE
    ensures bm[i][y] == MkfsByte(used, i * BSIZE + y)
  {
    hide Mask, MkfsByte;
    forall k | 0 <= k < 8 ensures bm[i][y] & Mask(k) != 0 <==> 8 * (i * BSIZE + y) + k < used {
      UsedInBlock(bm, i * BPB, 8 * y + k);
    }
    ByteIs(bm[i][y], used, i * BSIZE + y);
  }

  lemma PutByte(bm: seq<BitBlock>, i: nat, j: nat, k: nat, on: bool, x: nat, y: nat)
    requires i < |bm| && j < BSIZE && k < 8 && x < |bm| && y < BSIZE
    ensures |PutBit(bm, i, j, k, on)| == |bm|
    ensures PutBit(bm, i, j, k, on)[x][y] == if i == x && j == y then SetBit(bm[i][j], k, on) else bm[x][y]
  {
    hide SetBit;
  }

  lemma PutBitBits(bm: seq<BitBlock>, i: nat, j: nat, k: nat, on: bool, x: nat, y: nat, z: nat)
    requires i < |bm| && j < BSIZE && k < 8 && x < |bm| && y < BSIZE && z < 8
    ensures |PutBit(bm, i, j, k, on)| == |bm|
    ensures BitAt(PutBit(bm, i, j, k, on), x, y, z) == if i == x && j == y && k == z then on else BitAt(bm, x, y, z)
  {
    hide PutBit, SetBit, Mask;
    PutByte(bm, i, j, k, on, x, y);
    MaskBits(bm[i][j], k, z, on);
  }

  lemma SetUsedLength(bm: seq<BitBlock>, b: nat)
    requires b < |bm| * BPB
    ensures |SetUsed(bm, b, true)| == |bm|
  {
  }

  /** Enough clear bitmap blocks for n blocks. */
  function NoBits(n: nat): (bm: seq<BitBlock>)
    ensures |bm| * BPB >= n && forall c :: 0 <= c < |bm| * BPB ==> !Used(bm, c)
  {
    var bm := seq((n + BPB - 1) / BPB, _ => seq(BSIZE, _ => 0));
    NoBitsClear(bm);
    bm
  }

  lemma NoBitsClear(bm: seq<BitBlock>)
    requires forall i, j :: 0 <= i < |bm| && 0 <= j < BSIZE ==> bm[i][j] == 0
    ensures forall c :: 0 <= c < |bm| * BPB ==> !Used(bm, c)
  {
  }

  /** n zeroed blocks. */
  function EmptyStore(n: nat): (r: map<int, Data>)
    ensures forall b :: b in r <==> 0 <= b < n
  {
    if n == 0 then map[] else EmptyStore(n - 1)[n - 1 := Zeros()]
  }

  lemma Position(b: nat, c: nat)
    ensures b == c <==> b / BPB == c / BPB && b % BPB / 8 == c % BPB / 8 && b % BPB % 8 == c % BPB % 8
  {
  }

  /** Marking and clearing change the one bit asked for. */
  lemma SetUsedBits(bm: seq<BitBlock>, b: nat, on: bool, c: nat)
    requires b < |bm| * BPB && c < |bm| * BPB
    ensures |SetUsed(bm, b, on)| == |bm|
    ensures Used(SetUsed(bm, b, on), c) == if b == c then on else Used(bm, c)
  {
    hide BitAt, PutBit;
    PutBitBits(bm, b / BPB, b % BPB / 8, b % BPB % 8, on, c / BPB, c % BPB / 8, c % BPB % 8);
    Position(b, c);
  }

  // ---- indirect blocks

  /** The j-th little-endian 32-bit word of a block. */
  function Word(d: Data, j: nat): nat
    requires j < NINDIRECT
  {
    d[4 * j] as nat + 0x100 * d[4 * j + 1] as nat + 0x1_0000 * d[4 * j + 2] as nat + 0x100_0000 * d[4 * j + 3] as nat
  }

  function SetWord(d: Data, j: nat, w: nat): Data
    requires j < NINDIRECT && w < UINT
  {
    d[4 * j := (w % 0x100) as Byte][4 * j + 1 := (w / 0x100 % 0x100) as Byte]
     [4 * j + 2 := (w / 0x100 / 0x100 % 0x100) as Byte][4 * j + 3 := (w / 0x100 / 0x100 / 0x100) as Byte]
  }

  lemma Recompose(w: nat)
    ensures w % 0x100 + 0x100 * (w / 0x100 % 0x100) + 0x1_0000 * (w / 0x100 / 0x100 % 0x100)
            + 0x100_0000 * (w / 0x100 / 0x100 / 0x100) == w
  {
    var a := w / 0x100;
    var b := a / 0x100;
    assert w == w % 0x100 + 0x100 * a;
    assert a == a % 0x100 + 0x100 * b;
    assert b == b % 0x100 + 0x100 * (b / 0x100);
  }

  lemma WordSet(d: Data, j: nat, w: nat, k: nat)
    requires j < NINDIRECT && k < NINDIRECT && w < UINT
    ensures Word(SetWord(d, j, w), k) == if k == j then w else Word(d, k)
  {
    var e := SetWord(d, j, w);
    if k == j {
      assert e[4 * j] as nat == w % 0x100 && e[4 * j + 1] as nat == w / 0x100 % 0x100;
      assert e[4 * j + 2] as nat == w / 0x100 / 0x100 % 0x100 && e[4 * j + 3] as nat == w / 0x100 / 0x100 / 0x100;
      Recompose(w);
    } else {
      assert e[4 * k] == d[4 * k] && e[4 * k + 1] == d[4 * k + 1];
      assert e[4 * k + 2] == d[4 * k + 2] && e[4 * k + 3] == d[4 * k + 3];
    }
  }

  lemma WordZero(j: nat)
    requires j < NINDIRECT
    ensures Word(Zeros(), j) == 0
  {
  }
}
