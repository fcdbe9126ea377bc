/** Directories: files of 16-byte entries that act as a finite map from names to
    inode numbers. */
module FsDir {
  import opened Base
  import opened FsBase
  import opened FsBlocks
  import opened FsBytes
  import opened FsFile

  const DIRSIZ := 14
  const ENTSIZE := 16

  // ---- names

  /** Character i of a C string; past its end there is a NUL. */
  function At(s: seq<Byte>, i: nat): Byte {
    if i < |s| then s[i] else 0
  }

  /** How much of s counts as a name: up to a NUL, at most n characters. */
  function NameLen(s: seq<Byte>, n: nat): (k: nat)
    ensures k <= n && (k < n ==> At(s, k) == 0) && forall i :: 0 <= i < k ==> At(s, i) != 0
  {
    if n == 0 || At(s, 0) == 0 then 0
    else
      var rest := if s == [] then [] else s[1..];
      assert forall i :: 0 <= i ==> At(s, i + 1) == At(rest, i);
      assert forall i :: 0 < i ==> At(s, i) == At(rest, i - 1);
      1 + NameLen(rest, n - 1)
  }

  /** The name s stands for: DIRSIZ characters, NUL padded. */
  function Pad(s: seq<Byte>): (r: seq<Byte>)
    ensures |r| == DIRSIZ
  {
    var k := NameLen(s, DIRSIZ);
    seq(DIRSIZ, i => if 0 <= i < k then At(s, i) else 0)
  }

  /** strncmp(s, t, DIRSIZ) == 0 decides whether two strings are the same name. */
  method Namecmp(s: seq<Byte>, t: seq<Byte>) returns (same: bool)
    ensures same <==> Pad(s) == Pad(t)
  {
    var i := 0;
    while i < DIRSIZ && At(s, i) != 0 && At(s, i) == At(t, i)
      invariant i <= DIRSIZ && forall j :: 0 <= j < i ==> At(s, j) == At(t, j) != 0
    {
      i := i + 1;
    }
    same := i == DIRSIZ || At(s, i) == At(t, i);
    var k, l := NameLen(s, DIRSIZ), NameLen(t, DIRSIZ);
    assert i <= k && i <= l;
    if same {
      assert k == i == l;
      assert Pad(s) == Pad(t);
    } else {
      assert Pad(s)[i] == At(s, i) && Pad(t)[i] == At(t, i);
    }
  }

  /** strncpy(.., s, DIRSIZ) writes the padded name. */
  method Strncpy(s: seq<Byte>) returns (d: seq<Byte>)
    ensures d == Pad(s)
  {
    d := [];
    while |d| < DIRSIZ && At(s, |d|) != 0
      invariant |d| <= NameLen(s, DIRSIZ) && forall j :: 0 <= j < |d| ==> d[j] == At(s, j)
    {
      d := d + [At(s, |d|)];
    }
    ghost var k := |d|;
    while |d| < DIRSIZ
      invariant k == NameLen(s, DIRSIZ) <= |d| <= DIRSIZ
      invariant forall j :: 0 <= j < |d| ==> d[j] == if j < k then At(s, j) else 0
    {
      d := d + [0];
    }
  }

  lemma PadPadded(s: seq<Byte>)
    ensures Pad(Pad(s)) == Pad(s)
  {
    var p := Pad(s);
    var k := NameLen(s, DIRSIZ);
    assert forall i :: 0 <= i < k ==> At(p, i) == At(s, i);
    assert k < DIRSIZ ==> At(p, k) == 0;
    assert NameLen(p, DIRSIZ) == k;
  }

  // ---- entries

  /** An entry; inode number 0 marks it unused. */
  datatype Dirent = Dirent(inum: nat, name: seq<Byte>) {
    predicate Live() { inum != 0 }
  }

  function Decode(b: seq<Byte>): Dirent
    requires |b| == ENTSIZE
  {
    Dirent(b[0] as nat + 0x100 * b[1] as nat, b[2..])
  }

  /** The 16 bytes of an entry; the inode number is cut to 16 bits. */
  function Encode(inum: nat, name: seq<Byte>): (b: seq<Byte>)
    requires |name| == DIRSIZ
    ensures |b| == ENTSIZE && Decode(b) == Dirent(inum % USHORT, name)
  {
    var b := [(inum % 0x100) as Byte, (inum / 0x100 % 0x100) as Byte] + name;
    assert inum % USHORT == inum % 0x100 + 0x100 * (inum / 0x100 % 0x100);
    b
  }

  ghost function EntBytes(fs: Fs, dp: int, k: nat): (b: seq<Byte>)
    requires dp in fs.addrs && |fs.addrs[dp]| == NDIRECT + 1 && ENTSIZE * k + ENTSIZE <= MAXBYTES
    ensures |b| == ENTSIZE
  {
    seq(ENTSIZE, i requires 0 <= i < ENTSIZE => ByteAt(fs, dp, ENTSIZE * k + i))
  }

  /** The first n entries of directory dp. */
  ghost function Ents(fs: Fs, dp: int, n: nat): (e: seq<Dirent>)
    requires dp in fs.addrs && |fs.addrs[dp]| == NDIRECT + 1 && ENTSIZE * n <= MAXBYTES
    ensures |e| == n && forall k :: 0 <= k < n ==> e[k] == Decode(EntBytes(fs, dp, k))
  {
    seq(n, k requires 0 <= k < n => Decode(EntBytes(fs, dp, k)))
  }

  // ---- the map a list of entries stands for

  ghost function DirMap(es: seq<Dirent>): map<seq<Byte>, nat> {
    if es == [] then map[]
    else
      var e, m := es[|es| - 1], DirMap(es[..|es| - 1]);
      if e.Live() then m[Pad(e.name) := e.inum] else m
  }

  /** No name is listed twice. */
  ghost predicate Unique(es: seq<Dirent>) {
    forall i, j :: 0 <= i < j < |es| && es[i].Live() && es[j].Live() ==> Pad(es[i].name) != Pad(es[j].name)
  }

  ghost predicate Lists(es: seq<Dirent>, k: int, name: seq<Byte>) {
    0 <= k < |es| && es[k].Live() && Pad(es[k].name) == name
  }

  lemma {:induction false} MapHas(es: seq<Dirent>, name: seq<Byte>)
    ensures name in DirMap(es) <==> exists k :: Lists(es, k, name)
  {
    hide Pad;
    if es != [] {
      var front, last := es[..|es| - 1], |es| - 1;
      MapHas(front, name);
      if name in DirMap(front) {
        var k :| Lists(front, k, name);
        assert Lists(es, k, name);
      } else if Lists(es, last, name) {
      } else {
        forall k ensures !Lists(es, k, name) { assert k != last ==> Lists(es, k, name) == Lists(front, k, name); }
      }
    }
  }

  lemma {:induction false} MapAt(es: seq<Dirent>, k: nat)
    requires Unique(es) && k < |es| && es[k].Live()
    ensures Pad(es[k].name) in DirMap(es) && DirMap(es)[Pad(es[k].name)] == es[k].inum
  {
    hide Pad;
    if k < |es| - 1 {
      MapAt(es[..|es| - 1], k);
    }
  }

  lemma MapFrom(es: seq<Dirent>, name: seq<Byte>) returns (k: nat)
    requires Unique(es) && name in DirMap(es)
    ensures Lists(es, k, name) && DirMap(es)[name] == es[k].inum
  {
    hide Pad;
    MapHas(es, name);
    k :| Lists(es, k, name);
    MapAt(es, k);
  }

  /** A map that agrees with every listed entry, and has no other name. */
  lemma SameMap(es: seq<Dirent>, m: map<seq<Byte>, nat>)
    requires Unique(es) && m.Keys <= DirMap(es).Keys
    requires forall k :: 0 <= k < |es| && es[k].Live() ==> Pad(es[k].name) in m && m[Pad(es[k].name)] == es[k].inum
    ensures DirMap(es) == m
  {
    hide Pad, DirMap, Unique;
    forall name | name in DirMap(es) ensures name in m && DirMap(es)[name] == m[name] {
      var k := MapFrom(es, name);
    }
  }

  /** es with e in place j, which may be the first place past the end. */
  function Put(es: seq<Dirent>, j: nat, e: Dirent): seq<Dirent>
    requires j <= |es|
  {
    if j < |es| then es[j := e] else es + [e]
  }

  /** An unlisted name in an unused place: insertion. */
  lemma PutNew(es: seq<Dirent>, j: nat, e: Dirent)
    requires Unique(es) && j <= |es| && (j < |es| ==> !es[j].Live()) && Pad(e.name) !in DirMap(es)
    ensures Unique(Put(es, j, e))
    ensures DirMap(Put(es, j, e)) == if e.Live() then DirMap(es)[Pad(e.name) := e.inum] else DirMap(es)
  {
    hide Pad, DirMap;
    var es' := Put(es, j, e);
    MapHas(es, Pad(e.name));
    forall k | 0 <= k < |es| && es[k].Live() ensures Pad(es[k].name) != Pad(e.name) {
      assert !Lists(es, k, Pad(e.name));
    }
    var m := if e.Live() then DirMap(es)[Pad(e.name) := e.inum] else DirMap(es);
    forall k | 0 <= k < |es'| && es'[k].Live() ensures Pad(es'[k].name) in m && m[Pad(es'[k].name)] == es'[k].inum {
      if k != j { MapAt(es, k); }
    }
    forall name | name in m ensures name in DirMap(es') {
      var k := j;
      if name in DirMap(es) {
        k := MapFrom(es, name);
      }
      assert Lists(es', k, name);
      MapHas(es', name);
    }
    SameMap(es', m);
  }

  /** Clearing a listed entry: deletion. */
  lemma PutUnused(es: seq<Dirent>, j: nat, e: Dirent)
    requires Unique(es) && j < |es| && es[j].Live() && !e.Live()
    ensures Unique(Put(es, j, e))
    ensures DirMap(Put(es, j, e)) == DirMap(es) - {Pad(es[j].name)}
  {
    hide Pad, DirMap;
    var es' := Put(es, j, e);
    var m := DirMap(es) - {Pad(es[j].name)};
    forall k | 0 <= k < |es'| && es'[k].Live() ensures Pad(es'[k].name) in m && m[Pad(es'[k].name)] == es'[k].inum {
      MapAt(es, k);
    }
    forall name | name in m ensures name in DirMap(es') {
      var k := MapFrom(es, name);
      assert Lists(es', k, name);
      MapHas(es', name);
    }
    SameMap(es', m);
  }

  // ---- directory files

  /** Writing one aligned entry changes that entry only. */
  lemma WroteEnt(g: Geometry, fs: Fs, fs': Fs, dp: int, j: nat, src: seq<Byte>, n: nat)
    requires Wrote(g, fs, fs', dp, ENTSIZE * j, src) && |src| == ENTSIZE
    requires j <= n && ENTSIZE * n <= MAXBYTES && ENTSIZE * j + ENTSIZE <= MAXBYTES
    ensures dp in fs.addrs && |fs.addrs[dp]| == NDIRECT + 1 && dp in fs'.addrs && |fs'.addrs[dp]| == NDIRECT + 1
    ensures Ents(fs', dp, if j < n then n else n + 1) == Put(Ents(fs, dp, n), j, Decode(src))
  {
    hide ByteAt, Decode;
    var n' := if j < n then n else n + 1;
    forall k: nat | k < n' ensures EntBytes(fs', dp, k) == if k == j then src else EntBytes(fs, dp, k) {
      forall i: nat | i < ENTSIZE ensures EntBytes(fs', dp, k)[i] == if k == j then src[i] else EntBytes(fs, dp, k)[i] {
        assert ByteAt(fs', dp, ENTSIZE * k + i) == if k == j then src[i] else ByteAt(fs, dp, ENTSIZE * k + i);
      }
    }
  }

  lemma WroteNoEnt(g: Geometry, fs: Fs, fs': Fs, dp: int, off: nat, n: nat)
    requires Wrote(g, fs, fs', dp, off, []) && ENTSIZE * n <= MAXBYTES
    ensures dp in fs.addrs && |fs.addrs[dp]| == NDIRECT + 1 && dp in fs'.addrs && |fs'.addrs[dp]| == NDIRECT + 1
    ensures Ents(fs', dp, n) == Ents(fs, dp, n)
  {
    hide ByteAt, Decode;
    forall k: nat | k < n ensures EntBytes(fs', dp, k) == EntBytes(fs, dp, k) {
      forall i: nat | i < ENTSIZE ensures EntBytes(fs', dp, k)[i] == EntBytes(fs, dp, k)[i] {
        assert ByteAt(fs', dp, ENTSIZE * k + i) == ByteAt(fs, dp, ENTSIZE * k + i);
      }
    }
  }

  /** dp is a directory in good order: whole entries, no name twice. */
  ghost predicate IsDir(fs: FileSystem, dp: int)
    reads fs
  {
    && fs.Whole() && dp in fs.addrs && |fs.addrs[dp]| == NDIRECT + 1 && 0 <= fs.size[dp] <= MAXBYTES
    && fs.size[dp] % ENTSIZE == 0
    && Unique(Entries(fs, dp))
  }

  ghost function Entries(fs: FileSystem, dp: int): (e: seq<Dirent>)
    requires dp in fs.addrs && |fs.addrs[dp]| == NDIRECT + 1 && dp in fs.size && 0 <= fs.size[dp] <= MAXBYTES
    reads fs
  {
    Ents(fs.State(), dp, fs.size[dp] / ENTSIZE)
  }

  /** The directory as a map. */
  ghost function Names(fs: FileSystem, dp: int): map<seq<Byte>, nat>
    requires IsDir(fs, dp)
    reads fs
  {
    DirMap(Entries(fs, dp))
  }

  /** readi of one entry, never short. */
  method ReadEnt(fs: FileSystem, dp: int, k: nat) returns (e: Dirent)
    requires IsDir(fs, dp) && k < fs.size[dp] / ENTSIZE
    modifies fs`bm, fs`store, fs`addrs, fs`owner, fs`logged
    ensures fs.Whole() && fs.State() == old(fs.State()) && fs.logged == old(fs.logged)
    ensures e == old(Entries(fs, dp))[k]
  {
    hide Owned, ByteAt, HoleFree;
    var b := fs.Readi(dp, ENTSIZE * k, ENTSIZE);
    assert b == EntBytes(fs.State(), dp, k);
    e := Decode(b);
  }

  /** The inode number the directory has for the name, 0 if none, and where. */
  method Dirlookup(fs: FileSystem, dp: int, name: seq<Byte>) returns (inum: nat, off: nat)
    requires IsDir(fs, dp)
    modifies fs`bm, fs`store, fs`addrs, fs`owner, fs`logged
    ensures fs.State() == old(fs.State()) && fs.logged == old(fs.logged) && IsDir(fs, dp)
    ensures Entries(fs, dp) == old(Entries(fs, dp))
    ensures inum != 0 <==> Pad(name) in Names(fs, dp)
    ensures inum != 0 ==> inum == Names(fs, dp)[Pad(name)]
    ensures inum != 0 ==> off % ENTSIZE == 0 && Lists(Entries(fs, dp), off / ENTSIZE, Pad(name))
  {
    hide Owned, Pad, HoleFree, Ents, DirMap;
    ghost var es := Entries(fs, dp);
    off := 0;
    while off < fs.size[dp]
      invariant off % ENTSIZE == 0 && off <= fs.size[dp] && IsDir(fs, dp)
      invariant fs.State() == old(fs.State()) && fs.logged == old(fs.logged) && Entries(fs, dp) == es
      invariant forall k :: 0 <= k < off / ENTSIZE ==> !Lists(es, k, Pad(name))
    {
      var e := ReadEnt(fs, dp, off / ENTSIZE);
      if e.inum != 0 {
        var same := Namecmp(name, e.name);
        if same {
          MapAt(es, off / ENTSIZE);
          return e.inum, off;
        }
      }
      off := off + ENTSIZE;
    }
    MapHas(es, Pad(name));
    return 0, off;
  }

  /** dirlink's second loop: the first unused entry, or the end. */
  method FindEmpty(fs: FileSystem, dp: int) returns (off: nat)
    requires IsDir(fs, dp)
    modifies fs`bm, fs`store, fs`addrs, fs`owner, fs`logged
    ensures fs.State() == old(fs.State()) && fs.logged == old(fs.logged) && IsDir(fs, dp)
    ensures Entries(fs, dp) == old(Entries(fs, dp))
    ensures off % ENTSIZE == 0 && off <= fs.size[dp]
    ensures off < fs.size[dp] ==> !Entries(fs, dp)[off / ENTSIZE].Live()
  {
    hide Owned, Pad, HoleFree, Ents, DirMap;
    off := 0;
    while off < fs.size[dp]
      invariant off % ENTSIZE == 0 && off <= fs.size[dp] && IsDir(fs, dp)
      invariant fs.State() == old(fs.State()) && fs.logged == old(fs.logged)
    {
      var e := ReadEnt(fs, dp, off / ENTSIZE);
      if e.inum == 0 {
        return;
      }
      off := off + ENTSIZE;
    }
  }

  /** writei of one entry: it happens entirely or not at all. */
  method WriteEnt(fs: FileSystem, dp: int, off: nat, src: seq<Byte>) returns (r: int)
    requires IsDir(fs, dp) && off % ENTSIZE == 0 && off <= fs.size[dp] && |src| == ENTSIZE
    modifies fs`bm, fs`store, fs`addrs, fs`owner, fs`logged, fs`size
    ensures fs.Whole() && dp in fs.addrs && |fs.addrs[dp]| == NDIRECT + 1 && dp in fs.size
    ensures 0 <= fs.size[dp] <= MAXBYTES && fs.size[dp] % ENTSIZE == 0
    ensures OtherFiles(fs.g, old(fs.State()), fs.State(), dp)
    ensures Entries(fs, dp) == if r == ENTSIZE then Put(old(Entries(fs, dp)), off / ENTSIZE, Decode(src))
            else old(Entries(fs, dp))
    ensures off < old(fs.size)[dp] ==> r == ENTSIZE && fs.size == old(fs.size)
    ensures r != ENTSIZE ==> fs.size == old(fs.size)
    ensures r != ENTSIZE ==> fs.size[dp] == MAXBYTES || forall c :: 0 <= c < fs.g.size ==> InUse(fs.g, fs.State(), c)
  {
    hide SlotOk, BlockOk, Pad, HoleFree, Ents, DirMap, Wrote, OtherFiles, InUse, Put, Decode, Unique, Covered,
         WriteBudget;
    ghost var was, n := fs.State(), fs.size[dp] / ENTSIZE;
    ghost var touched;
    r, touched := fs.Writei(dp, off, src);
    Stays(fs.g, was, fs.State(), dp, off, src, r);
    if r == ENTSIZE {
      assert off == ENTSIZE * (off / ENTSIZE);
      WroteEnt(fs.g, was, fs.State(), dp, off / ENTSIZE, src, n);
    } else {
      WroteNoEnt(fs.g, was, fs.State(), dp, off, n);
    }
  }

  lemma Stays(g: Geometry, fs: Fs, fs': Fs, dp: int, off: nat, src: seq<Byte>, r: int)
    requires Shape(g, fs) && dp in fs.addrs && |src| == ENTSIZE && off % ENTSIZE == 0
    requires r == -1 ==> fs' == fs
    requires r != -1 ==>
              0 <= r <= |src| && Wrote(g, fs, fs', dp, off, src[..r]) &&
              (r < |src| ==> r == 0 || (off + r) % BSIZE == 0)
    ensures OtherFiles(g, fs, fs', dp)
    ensures if r == ENTSIZE then Wrote(g, fs, fs', dp, off, src) else r <= 0 && Wrote(g, fs, fs', dp, off, [])
  {
    assert src[..ENTSIZE] == src && src[..0] == [];
    assert (off + r) % BSIZE == 0 ==> r % ENTSIZE == 0;
  }

  /** Insert the name if it is absent.  -1: it was there, or there is no room; the
      map is then what it was. */
  method Dirlink(fs: FileSystem, dp: int, name: seq<Byte>, inum: nat) returns (r: int)
    requires IsDir(fs, dp)
    modifies fs`bm, fs`store, fs`addrs, fs`owner, fs`logged, fs`size
    ensures IsDir(fs, dp) && OtherFiles(fs.g, old(fs.State()), fs.State(), dp)
    ensures r == 0 ==> Pad(name) !in old(Names(fs, dp))
    ensures r == 0 ==>
              Names(fs, dp) == if inum % USHORT == 0 then old(Names(fs, dp))
              else old(Names(fs, dp))[Pad(name) := inum % USHORT]
    ensures r != 0 ==> r == -1 && Names(fs, dp) == old(Names(fs, dp)) && fs.size == old(fs.size)
    ensures r != 0 && Pad(name) !in old(Names(fs, dp)) ==>
              fs.size[dp] == MAXBYTES || forall c :: 0 <= c < fs.g.size ==> InUse(fs.g, fs.State(), c)
  {
    hide SlotOk, BlockOk, Pad, HoleFree, Entries, DirMap, InUse, Put, Unique, Lists;
    var found, _ := Dirlookup(fs, dp, name);
    if found != 0 {
      return -1;
    }
    var off := FindEmpty(fs, dp);
    ghost var es := Entries(fs, dp);
    EntriesCount(fs, dp);
    var padded := Strncpy(name);
    var src := Encode(inum, padded);
    r := WriteEnt(fs, dp, off, src);
    if r == ENTSIZE {
      PadPadded(name);
      PutNew(es, off / ENTSIZE, Decode(src));
      return 0;
    }
    return -1;
  }

  lemma EntriesCount(fs: FileSystem, dp: int)
    requires IsDir(fs, dp)
    ensures |Entries(fs, dp)| == fs.size[dp] / ENTSIZE && Unique(Entries(fs, dp))
  {
  }

  /** unlink's last step on the directory: the entry at off is zeroed. */
  method ClearEntry(fs: FileSystem, dp: int, off: nat) returns (r: int)
    requires IsDir(fs, dp) && off % ENTSIZE == 0 && off < fs.size[dp] && Entries(fs, dp)[off / ENTSIZE].Live()
    modifies fs`bm, fs`store, fs`addrs, fs`owner, fs`logged, fs`size
    ensures r == ENTSIZE && IsDir(fs, dp) && fs.size == old(fs.size)
    ensures OtherFiles(fs.g, old(fs.State()), fs.State(), dp)
    ensures Names(fs, dp) == old(Names(fs, dp)) - {Pad(old(Entries(fs, dp))[off / ENTSIZE].name)}
  {
    hide SlotOk, BlockOk, Pad, HoleFree, Entries, DirMap, InUse, Put, Unique;
    ghost var es := Entries(fs, dp);
    EntriesCount(fs, dp);
    var src: seq<Byte> := [0, 0, 0, 0, 0, 0, 0, 0, 0, 0, 0, 0, 0, 0, 0, 0];
    r := WriteEnt(fs, dp, off, src);
    PutUnused(es, off / ENTSIZE, Decode(src));
  }
}
