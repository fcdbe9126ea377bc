/** The buffer cache: NBUF buffers on a circular doubly linked list through a
    head node, most recently released first.

    The list lives in the buffers' own prev and next fields; `ring` is the
    sequence of buffers it stands for.  `view` is what the file system should
    see in each block: the contents the block's last holder left.

    bread and brelse are split where other processes may come between: bread is
    Bget, then Lock once the sleep lock is free, then Fill if the buffer is not
    valid; brelse is Unlock and then Drop.  Each method may be called whenever its
    precondition holds, so any number of processes may wait for a buffer. */
module Bio {
  import opened Base
  import opened Disk

  const NBUF := MAXOPBLOCKS * 3
  const HEAD := NBUF     // index of the list head

  datatype Key = Key(dev: int, no: int)

  datatype Buf = Buf(valid: bool, key: Key, refcnt: int, held: bool, prev: int, next: int, data: Block)

  // ---- the list

  /** The i-th node going round from the head, which is at both ends. */
  function At(ring: seq<int>, i: int): int {
    if 0 <= i < |ring| then ring[i] else HEAD
  }

  /** The prev and next fields, starting from the head, spell out `ring`. */
  ghost predicate Links(bs: seq<Buf>, ring: seq<int>) {
    && |bs| == NBUF + 1
    && (forall i :: 0 <= i < |ring| ==> 0 <= ring[i] < NBUF)
    && Distinct(ring)
    && forall i :: 0 <= i <= |ring| ==>
                     bs[At(ring, i - 1)].next == At(ring, i) && bs[At(ring, i)].prev == At(ring, i - 1)
  }

  function Without(ring: seq<int>, k: nat): seq<int>
    requires k < |ring|
  {
    ring[..k] + ring[k + 1..]
  }

  /** b->next->prev = b->prev; b->prev->next = b->next */
  function Unlink(bs: seq<Buf>, b: int): seq<Buf>
    requires 0 <= b < |bs| && 0 <= bs[b].next < |bs| && 0 <= bs[b].prev < |bs|
  {
    var cs := bs[bs[b].next := bs[bs[b].next].(prev := bs[b].prev)];
    cs[cs[b].prev := cs[cs[b].prev].(next := cs[b].next)]
  }

  /** b->next = head.next; b->prev = &head; head.next->prev = b; head.next = b */
  function LinkFront(bs: seq<Buf>, b: int): seq<Buf>
    requires 0 <= b < NBUF && |bs| == NBUF + 1 && 0 <= bs[HEAD].next < |bs|
  {
    var first := bs[HEAD].next;
    var cs := bs[b := bs[b].(next := first, prev := HEAD)];
    var ds := cs[first := cs[first].(prev := b)];
    ds[HEAD := ds[HEAD].(next := b)]
  }

  lemma LinkFrontLinks(bs: seq<Buf>, ring: seq<int>, b: int)
    requires Links(bs, ring) && 0 <= b < NBUF && b !in ring
    ensures 0 <= bs[HEAD].next <= HEAD
    ensures Links(LinkFront(bs, b), [b] + ring)
  {
    assert At(ring, -1) == HEAD && bs[At(ring, 0 - 1)].next == At(ring, 0);
    var cs, more := LinkFront(bs, b), [b] + ring;
    forall i | 0 <= i <= |more|
      ensures cs[At(more, i - 1)].next == At(more, i) && cs[At(more, i)].prev == At(more, i - 1)
    {
      if i >= 2 {
        assert At(more, i - 1) == At(ring, i - 2) && At(more, i) == At(ring, i - 1);
        assert bs[At(ring, i - 1 - 1)].next == At(ring, i - 1) && bs[At(ring, i - 1)].prev == At(ring, i - 1 - 1);
      }
    }
  }

  lemma UnlinkLinks(bs: seq<Buf>, ring: seq<int>, k: nat)
    requires Links(bs, ring) && k < |ring|
    ensures 0 <= bs[ring[k]].next <= HEAD && 0 <= bs[ring[k]].prev <= HEAD
    ensures Links(Unlink(bs, ring[k]), Without(ring, k)) && ring[k] !in Without(ring, k)
  {
    var b := ring[k];
    assert bs[At(ring, k - 1)].next == At(ring, k) && bs[At(ring, k)].prev == At(ring, k - 1);
    assert bs[At(ring, k + 1 - 1)].next == At(ring, k + 1) && bs[At(ring, k + 1)].prev == At(ring, k + 1 - 1);
    var cs, less := Unlink(bs, b), Without(ring, k);
    forall i | 0 <= i <= |less|
      ensures cs[At(less, i - 1)].next == At(less, i) && cs[At(less, i)].prev == At(less, i - 1)
    {
      if i < k {
        assert At(less, i - 1) == At(ring, i - 1) && At(less, i) == At(ring, i);
        assert bs[At(ring, i - 1)].next == At(ring, i) && bs[At(ring, i)].prev == At(ring, i - 1);
      } else if i > k {
        assert At(less, i - 1) == At(ring, i) && At(less, i) == At(ring, i + 1);
        assert bs[At(ring, i + 1 - 1)].next == At(ring, i + 1) && bs[At(ring, i + 1)].prev == At(ring, i + 1 - 1);
      } else {
        assert At(less, i - 1) == At(ring, k - 1) && At(less, i) == At(ring, k + 1);
      }
    }
  }

  // ---- the order of the list

  /** The list holds every buffer, and buffers nearer the front were moved there
      later. */
  ghost predicate Recency(ring: seq<int>, stamp: seq<int>, clock: int) {
    && |ring| == |stamp| == NBUF
    && (forall b :: 0 <= b < NBUF ==> b in ring)
    && (forall i :: 0 <= i < |ring| ==> 0 <= ring[i] < NBUF && stamp[ring[i]] < clock)
    && (forall i, j :: 0 <= i < j < |ring| ==> stamp[ring[i]] > stamp[ring[j]])
  }

  function ToFront(ring: seq<int>, k: nat): seq<int>
    requires k < |ring|
  {
    [ring[k]] + Without(ring, k)
  }

  lemma ToFrontRecency(ring: seq<int>, stamp: seq<int>, clock: int, k: nat)
    requires Recency(ring, stamp, clock) && Distinct(ring) && k < |ring|
    ensures Recency(ToFront(ring, k), stamp[ring[k] := clock], clock + 1)
  {
    var less, front := Without(ring, k), ToFront(ring, k);
    forall i | 0 <= i < |less| ensures less[i] == ring[if i < k then i else i + 1] && less[i] != ring[k] { }
    forall b | 0 <= b < NBUF ensures b in front {
      assert b in ring;
      var i :| 0 <= i < |ring| && ring[i] == b;
      if i != k {
        assert less[if i < k then i else i - 1] == b;
      }
    }
  }

  lemma ToFrontRecencyOf(bs: seq<Buf>, ring: seq<int>, stamp: seq<int>, clock: int, k: nat)
    requires Links(bs, ring) && Recency(ring, stamp, clock) && k < |ring|
    ensures 0 <= ring[k] < |stamp| && Recency(ToFront(ring, k), stamp[ring[k] := clock], clock + 1)
  {
    ToFrontRecency(ring, stamp, clock, k);
  }

  // ---- references

  /** Who refers to a buffer: processes between bget's search and the sleep lock,
      processes between brelse's two halves, and pins.  The holder is one more. */
  datatype Uses = Uses(waiting: nat, leaving: nat, pins: nat)

  ghost predicate Counted(b: Buf, u: Uses) {
    b.refcnt == u.waiting + u.leaving + u.pins + if b.held then 1 else 0
  }

  // ---- contents

  /** No two buffers hold the same block of a device other than 0, which stands
      for "not assigned yet". */
  ghost predicate Unique(bs: seq<Buf>) {
    forall i, j :: 0 <= i < j < NBUF < |bs| && bs[i].key == bs[j].key ==> bs[i].key.dev == 0
  }

  ghost predicate Coherent(bs: seq<Buf>, us: seq<Uses>, disk: map<Key, Block>, view: map<Key, Block>) {
    && |bs| == NBUF + 1 && |us| == NBUF && disk.Keys == view.Keys && Unique(bs)
    && (forall i :: 0 <= i < NBUF ==> BufOk(bs[i], us[i], disk, view))
    && (forall k :: k in disk && k.dev != 0 && disk[k] != view[k] ==> Cached(bs, k))
  }

  /** A buffer that nobody holds shows what its last holder left, and agrees with
      the disk unless it is pinned. */
  ghost predicate BufOk(b: Buf, u: Uses, disk: map<Key, Block>, view: map<Key, Block>) {
    && Counted(b, u)
    && (b.key.dev != 0 ==>
          && b.key in disk && b.key in view
          && (b.valid && !b.held ==> b.data == view[b.key])
          && (b.valid && !b.held && u.pins == 0 ==> b.data == disk[b.key]))
  }

  ghost predicate Cached(bs: seq<Buf>, k: Key) {
    exists i :: 0 <= i < NBUF < |bs| && bs[i].key == k && bs[i].valid
  }

  lemma LinksFrame(bs: seq<Buf>, cs: seq<Buf>, ring: seq<int>)
    requires Links(bs, ring) && |cs| == |bs|
    requires forall i :: 0 <= i < |bs| ==> cs[i].next == bs[i].next && cs[i].prev == bs[i].prev
    ensures Links(cs, ring)
  {
  }

  /** Giving an unused buffer to a block that is in no buffer loses nothing. */
  lemma RecycleCoherent(
    bs: seq<Buf>, us: seq<Uses>, disk: map<Key, Block>, view: map<Key, Block>, b: int, key: Key)
    requires Coherent(bs, us, disk, view) && 0 <= b < NBUF && bs[b].refcnt == 0 && key in disk
    requires forall i :: 0 <= i < NBUF ==> bs[i].key != key
    ensures var nb := bs[b].(valid := false, key := key, refcnt := 1);
            Coherent(bs[b := nb], us[b := us[b].(waiting := 1)], disk, view)
  {
    var cs := bs[b := bs[b].(valid := false, key := key, refcnt := 1)];
    assert BufOk(bs[b], us[b], disk, view);
    forall k | k in disk && k.dev != 0 && disk[k] != view[k] ensures Cached(cs, k) {
      var i :| 0 <= i < NBUF && bs[i].key == k && bs[i].valid;
      assert i != b && cs[i] == bs[i];
    }
  }

  /** Changing fields of one buffer but not its key, and keeping it valid. */
  lemma UpdateCoherent(
    bs: seq<Buf>, us: seq<Uses>, disk: map<Key, Block>, view: map<Key, Block>, b: int, nb: Buf, u: Uses)
    requires Coherent(bs, us, disk, view) && 0 <= b < NBUF && nb.key == bs[b].key && BufOk(nb, u, disk, view)
    requires bs[b].valid ==> nb.valid
    ensures Coherent(bs[b := nb], us[b := u], disk, view)
  {
    var cs := bs[b := nb];
    forall k | k in disk && k.dev != 0 && disk[k] != view[k] ensures Cached(cs, k) {
      var i :| 0 <= i < NBUF && bs[i].key == k && bs[i].valid;
      assert cs[i].key == k && cs[i].valid;
    }
  }

  /** The disk and the view of a block may change while a buffer holds it. */
  lemma BlockCoherent(
    bs: seq<Buf>, us: seq<Uses>, disk: map<Key, Block>, view: map<Key, Block>, b: int, nb: Buf, u: Uses,
    disk': map<Key, Block>, view': map<Key, Block>)
    requires Coherent(bs, us, disk, view) && 0 <= b < NBUF && nb.key == bs[b].key && nb.valid
    requires disk'.Keys == disk.Keys == view'.Keys
    requires forall k :: k in disk && k != nb.key ==> disk'[k] == disk[k] && view'[k] == view[k]
    requires nb.key.dev != 0 && BufOk(nb, u, disk', view')
    ensures Coherent(bs[b := nb], us[b := u], disk', view')
  {
    var cs, vs := bs[b := nb], us[b := u];
    forall i | 0 <= i < NBUF ensures BufOk(cs[i], vs[i], disk', view') {
      if i != b {
        assert BufOk(bs[i], us[i], disk, view);
        assert bs[i].key.dev != 0 ==> bs[i].key != nb.key;
      }
    }
    forall k | k in disk' && k.dev != 0 && disk'[k] != view'[k] ensures Cached(cs, k) {
      if k == nb.key {
        assert cs[b].key == k && cs[b].valid;
      } else {
        assert Cached(bs, k);
        var i :| 0 <= i < NBUF && bs[i].key == k && bs[i].valid;
        assert cs[i].key == k && cs[i].valid;
      }
    }
  }

  /** A block whose buffer has not been read yet is up to date on disk. */
  lemma UnreadIsOnDisk(bs: seq<Buf>, us: seq<Uses>, disk: map<Key, Block>, view: map<Key, Block>, b: int)
    requires Coherent(bs, us, disk, view) && 0 <= b < NBUF && bs[b].key.dev != 0 && !bs[b].valid
    ensures bs[b].key in disk && disk[bs[b].key] == view[bs[b].key]
  {
    var k := bs[b].key;
    assert BufOk(bs[b], us[b], disk, view);
    assert forall i :: 0 <= i < NBUF && bs[i].key == k ==> i == b;
  }

  /** A buffer without its place in the list. */
  function Contents(b: Buf): Buf {
    b.(next := 0, prev := 0)
  }

  lemma SameContents(b: Buf, c: Buf)
    requires Contents(b) == Contents(c)
    ensures b == c.(next := b.next, prev := b.prev)
  {
    assert Contents(b).valid == b.valid && Contents(b).key == b.key && Contents(b).refcnt == b.refcnt;
    assert Contents(b).held == b.held && Contents(b).data == b.data;
    assert Contents(c).valid == c.valid && Contents(c).key == c.key && Contents(c).refcnt == c.refcnt;
    assert Contents(c).held == c.held && Contents(c).data == c.data;
  }

  lemma OneBuffer(bs: seq<Buf>, us: seq<Uses>, disk: map<Key, Block>, view: map<Key, Block>, i: int, j: int)
    requires Coherent(bs, us, disk, view) && 0 <= i < NBUF && 0 <= j < NBUF && bs[i].key == bs[j].key
    requires bs[i].key.dev != 0
    ensures i == j
  {
  }

  lemma UnlinkKeepsContents(bs: seq<Buf>, b: int)
    requires 0 <= b < |bs| && 0 <= bs[b].next < |bs| && 0 <= bs[b].prev < |bs|
    ensures |Unlink(bs, b)| == |bs|
    ensures forall i :: 0 <= i < |bs| ==> Contents(Unlink(bs, b)[i]) == Contents(bs[i])
  {
  }

  lemma LinkFrontKeepsContents(bs: seq<Buf>, b: int)
    requires 0 <= b < NBUF && |bs| == NBUF + 1 && 0 <= bs[HEAD].next < |bs|
    ensures |LinkFront(bs, b)| == |bs|
    ensures forall i :: 0 <= i < |bs| ==> Contents(LinkFront(bs, b)[i]) == Contents(bs[i])
  {
  }

  lemma CoherentFrame(bs: seq<Buf>, cs: seq<Buf>, us: seq<Uses>, disk: map<Key, Block>, view: map<Key, Block>)
    requires Coherent(bs, us, disk, view) && |cs| == |bs|
    requires forall i :: 0 <= i < NBUF ==> Contents(cs[i]) == Contents(bs[i])
    ensures Coherent(cs, us, disk, view)
  {
    forall i | 0 <= i < NBUF
      ensures cs[i].key == bs[i].key && cs[i].valid == bs[i].valid
      ensures cs[i].data == bs[i].data && cs[i].refcnt == bs[i].refcnt && cs[i].held == bs[i].held
    {
      assert Contents(cs[i]) == Contents(bs[i]);
    }
    forall k | k in disk && k.dev != 0 && disk[k] != view[k] ensures Cached(cs, k) {
      var i :| 0 <= i < NBUF && bs[i].key == k && bs[i].valid;
      assert cs[i].key == k && cs[i].valid;
    }
    forall i | 0 <= i < NBUF ensures BufOk(cs[i], us[i], disk, view) { assert BufOk(bs[i], us[i], disk, view); }
  }

  lemma PlaceInRing(ring: seq<int>, stamp: seq<int>, clock: int, b: int) returns (k: nat)
    requires Recency(ring, stamp, clock) && 0 <= b < NBUF
    ensures k < |ring| && ring[k] == b
  {
    assert b in ring;
    k :| k < |ring| && ring[k] == b;
  }

  /** Unlinking a buffer and linking it in at the front, on the whole list. */
  lemma RelinkLinks(bs: seq<Buf>, ring: seq<int>, k: nat)
    requires Links(bs, ring) && k < |ring|
    ensures |bs| == NBUF + 1 && 0 <= ring[k] < NBUF && 0 <= bs[ring[k]].next <= HEAD && 0 <= bs[ring[k]].prev <= HEAD
    ensures var cs := Unlink(bs, ring[k]);
            && |cs| == NBUF + 1 && 0 <= cs[HEAD].next <= HEAD
            && var ds := LinkFront(cs, ring[k]);
               && Links(ds, ToFront(ring, k))
               && forall i :: 0 <= i < NBUF ==> Contents(ds[i]) == Contents(bs[i])
  {
    hide Unlink, LinkFront, Contents;
    UnlinkLinks(bs, ring, k);
    UnlinkKeepsContents(bs, ring[k]);
    LinkFrontLinks(Unlink(bs, ring[k]), Without(ring, k), ring[k]);
    LinkFrontKeepsContents(Unlink(bs, ring[k]), ring[k]);
  }

  class Cache {
    var buf: array<Buf>              // NBUF buffers and the head
    var disk: map<Key, Block>
    ghost var ring: seq<int>
    ghost var stamp: seq<int>        // when each buffer was last moved to the front
    ghost var clock: int
    ghost var view: map<Key, Block>
    ghost var uses: seq<Uses>

    ghost predicate Valid()
      reads this, buf
    {
      && buf.Length == NBUF + 1 && |uses| == NBUF
      && Links(buf[..], ring) && Recency(ring, stamp, clock)
      && Coherent(buf[..], uses, disk, view)
    }

    /** binit: all buffers unassigned, linked one by one at the front. */
    constructor (disk: map<Key, Block>, zero: Block)
      ensures Valid() && fresh(buf) && this.disk == disk && view == disk
      ensures forall i :: 0 <= i < NBUF ==> buf[i].key == Key(0, 0) && buf[i].refcnt == 0 && !buf[i].valid
    {
      this.disk, this.view, uses := disk, disk, seq(NBUF, _ => Uses(0, 0, 0));
      buf := new Buf[NBUF + 1](_ => Buf(false, Key(0, 0), 0, false, HEAD, HEAD, zero));
      ring, stamp, clock := [], seq(NBUF, i => i), NBUF;
      new;
      for b := 0 to NBUF
        invariant fresh(buf) && buf.Length == NBUF + 1 && this.disk == disk && view == disk
        invariant |uses| == NBUF && forall i :: 0 <= i < NBUF ==> uses[i] == Uses(0, 0, 0)
        invariant Links(buf[..], ring) && |ring| == b && |stamp| == NBUF && clock == NBUF
        invariant forall i :: 0 <= i < b ==> ring[i] == b - 1 - i
        invariant forall i :: 0 <= i < NBUF ==> stamp[i] == i
        invariant forall i :: 0 <= i < NBUF ==> buf[i].key == Key(0, 0) && buf[i].refcnt == 0
        invariant forall i :: 0 <= i < NBUF ==> !buf[i].valid && !buf[i].held
      {
        ghost var was := buf[..];
        LinkFrontLinks(was, ring, b);
        PushFront(b);
        ring := [b] + ring;
      }
      forall b | 0 <= b < NBUF ensures b in ring { assert ring[NBUF - 1 - b] == b; }
    }

    method PushFront(b: int)
      requires buf.Length == NBUF + 1 && 0 <= b < NBUF && 0 <= buf[HEAD].next <= HEAD
      modifies buf
      ensures buf[..] == LinkFront(old(buf[..]), b)
    {
      buf[b] := buf[b].(next := buf[HEAD].next);
      buf[b] := buf[b].(prev := HEAD);
      var first := buf[HEAD].next;
      buf[first] := buf[first].(prev := b);
      buf[HEAD] := buf[HEAD].(next := b);
    }

    method PullOut(b: int)
      requires buf.Length == NBUF + 1 && 0 <= b < NBUF && 0 <= buf[b].next <= HEAD && 0 <= buf[b].prev <= HEAD
      modifies buf
      ensures buf[..] == Unlink(old(buf[..]), b)
    {
      var nx := buf[b].next;
      buf[nx] := buf[nx].(prev := buf[b].prev);
      var pv := buf[b].prev;
      buf[pv] := buf[pv].(next := buf[b].next);
    }

    /** First pass of bget: the buffer that holds the block, or HEAD. */
    method FindCached(key: Key) returns (b: int)
      requires Valid()
      ensures 0 <= b <= HEAD
      ensures b < HEAD ==> buf[b].key == key
      ensures b == HEAD ==> forall i :: 0 <= i < NBUF ==> buf[i].key != key
    {
      b := buf[HEAD].next;
      ghost var i := 0;
      assert buf[..][At(ring, 0 - 1)].next == At(ring, 0);
      while b != HEAD
        invariant 0 <= i <= |ring| && b == At(ring, i)
        invariant forall j :: 0 <= j < i ==> buf[ring[j]].key != key
        decreases |ring| - i
      {
        if buf[b].key == key {
          return;
        }
        assert buf[..][At(ring, i + 1 - 1)].next == At(ring, i + 1);
        b := buf[b].next;
        i := i + 1;
      }
      forall x | 0 <= x < NBUF ensures buf[x].key != key {
        assert x in ring;
        var j :| 0 <= j < |ring| && ring[j] == x;
      }
    }

    /** Second pass of bget: the unused buffer released longest ago, or HEAD. */
    method FindUnused() returns (b: int)
      requires Valid()
      ensures 0 <= b <= HEAD
      ensures b < HEAD ==>
                buf[b].refcnt == 0 && forall i :: 0 <= i < NBUF && buf[i].refcnt == 0 ==> stamp[b] <= stamp[i]
      ensures b == HEAD ==> forall i :: 0 <= i < NBUF ==> buf[i].refcnt != 0
    {
      b := buf[HEAD].prev;
      ghost var i := |ring| - 1;
      assert buf[..][At(ring, |ring|)].prev == At(ring, |ring| - 1);
      while b != HEAD
        invariant -1 <= i < |ring| && b == At(ring, i)
        invariant forall j :: i < j < |ring| ==> buf[ring[j]].refcnt != 0
        decreases i
      {
        if buf[b].refcnt == 0 {
          forall x | 0 <= x < NBUF && buf[x].refcnt == 0 ensures stamp[b] <= stamp[x] {
            assert x in ring;
            var j :| 0 <= j < |ring| && ring[j] == x;
          }
          return;
        }
        assert buf[..][At(ring, i)].prev == At(ring, i - 1);
        b := buf[b].prev;
        i := i - 1;
      }
      forall x | 0 <= x < NBUF ensures buf[x].refcnt != 0 {
        assert x in ring;
        var j :| 0 <= j < |ring| && ring[j] == x;
      }
    }

    /** Some buffer is assigned to the block. */
    ghost predicate Has(key: Key)
      requires buf.Length == NBUF + 1
      reads this, buf
    {
      exists i :: 0 <= i < NBUF && buf[i].key == key
    }

    /** bget, up to the sleep lock: a reference to the buffer of block `key`, held
        by somebody or not, or HEAD if the kernel panics for want of an unused buffer. */
    method Bget(key: Key) returns (b: int)
      requires Valid() && key in disk
      modifies buf, this`uses
      ensures Valid() && 0 <= b <= HEAD
      ensures b == HEAD ==>
                && buf[..] == old(buf[..]) && uses == old(uses)
                && forall i :: 0 <= i < NBUF ==> buf[i].key != key && buf[i].refcnt > 0
      ensures b < HEAD ==> uses == old(uses)[b := old(uses)[b].(waiting := old(uses)[b].waiting + 1)]
      // already cached: one more reference
      ensures b < HEAD && old(Has(key)) ==>
                old(buf[b]).key == key && buf[..] == old(buf[..])[b := old(buf[b]).(refcnt := old(buf[b]).refcnt + 1)]
      // not cached: the unused buffer released longest ago is given to the block
      ensures b < HEAD && !old(Has(key)) ==>
                && old(buf[b]).refcnt == 0
                && (forall i :: 0 <= i < NBUF && old(buf[i]).refcnt == 0 ==> stamp[b] <= stamp[i])
                && buf[..] == old(buf[..])[b := old(buf[b]).(valid := false, key := key, refcnt := 1)]
    {
      ghost var bs := buf[..];
      b := FindCached(key);
      if b != HEAD {
        assert BufOk(bs[b], uses[b], disk, view);
        Change(b, buf[b].(refcnt := buf[b].refcnt + 1), uses[b].(waiting := uses[b].waiting + 1));
        return;
      }
      b := FindUnused();
      forall i | 0 <= i < NBUF ensures bs[i].refcnt >= 0 { assert BufOk(bs[i], uses[i], disk, view); }
      if b != HEAD {
        Recycle(b, key);
      }
    }

    method Recycle(b: int, key: Key)
      requires Valid() && key in disk && 0 <= b < NBUF && buf[b].refcnt == 0
      requires forall i :: 0 <= i < NBUF ==> buf[i].key != key
      modifies buf, this`uses
      ensures Valid() && buf[..] == old(buf[..])[b := old(buf[b]).(valid := false, key := key, refcnt := 1)]
      ensures uses == old(uses)[b := old(uses)[b].(waiting := old(uses)[b].waiting + 1)]
    {
      ghost var bs := buf[..];
      assert BufOk(bs[b], uses[b], disk, view);
      RecycleCoherent(bs, uses, disk, view, b, key);
      buf[b] := buf[b].(key := key);
      buf[b] := buf[b].(valid := false);
      buf[b] := buf[b].(refcnt := 1);
      uses := uses[b := uses[b].(waiting := 1)];
      assert buf[..] == bs[b := bs[b].(valid := false, key := key, refcnt := 1)];
      LinksFrame(bs, buf[..], ring);
    }

    /** One buffer's fields change, but not its key or place in the list. */
    method Change(b: int, nb: Buf, ghost u: Uses)
      requires Valid() && 0 <= b < NBUF && BufOk(nb, u, disk, view)
      requires nb.key == buf[b].key && nb.next == buf[b].next && nb.prev == buf[b].prev && (buf[b].valid ==> nb.valid)
      modifies buf, this`uses
      ensures Valid() && buf[..] == old(buf[..])[b := nb] && uses == old(uses)[b := u]
    {
      ghost var bs := buf[..];
      UpdateCoherent(bs, uses, disk, view, b, nb, u);
      buf[b] := nb;
      uses := uses[b := u];
      assert buf[..] == bs[b := nb];
      LinksFrame(bs, buf[..], ring);
    }

    /** acquiresleep in bget, for one of the processes waiting, once nobody holds the
        buffer: if it is valid it shows what the block's previous holder left. */
    method Lock(b: int)
      requires Valid() && 0 <= b < NBUF && uses[b].waiting > 0 && !buf[b].held
      modifies buf, this`uses
      ensures Valid() && buf[..] == old(buf[..])[b := old(buf[b]).(held := true)]
      ensures uses == old(uses)[b := old(uses)[b].(waiting := old(uses)[b].waiting - 1)]
      ensures buf[b].valid && buf[b].key.dev != 0 ==> buf[b].key in view && buf[b].data == view[buf[b].key]
    {
      assert BufOk(buf[b], uses[b], disk, view);
      Change(b, buf[b].(held := true), uses[b].(waiting := uses[b].waiting - 1));
    }

    /** The holder reads the block from disk, which gives what the block's previous
        holder left. */
    method Fill(b: int)
      requires Valid() && 0 <= b < NBUF && buf[b].held && !buf[b].valid && buf[b].key in disk
      modifies buf, this`uses
      ensures Valid() && uses == old(uses)
      ensures buf[..] == old(buf[..])[b := old(buf[b]).(data := disk[old(buf[b]).key], valid := true)]
      ensures buf[b].key.dev != 0 ==> buf[b].key in view && buf[b].data == view[buf[b].key]
    {
      assert BufOk(buf[b], uses[b], disk, view);
      if buf[b].key.dev != 0 {
        UnreadIsOnDisk(buf[..], uses, disk, view, b);
      }
      assert uses[b := uses[b]] == uses;
      Change(b, buf[b].(data := disk[buf[b].key], valid := true), uses[b]);
    }

    /** The holder changes the buffer's contents. */
    method Modify(b: int, data: Block)
      requires Valid() && 0 <= b < NBUF && buf[b].held
      modifies buf, this`uses
      ensures Valid() && buf[..] == old(buf[..])[b := old(buf[b]).(data := data)] && uses == old(uses)
    {
      assert BufOk(buf[b], uses[b], disk, view);
      assert uses[b := uses[b]] == uses;
      Change(b, buf[b].(data := data), uses[b]);
    }

    method Bwrite(b: int)
      requires Valid() && 0 <= b < NBUF && buf[b].held && buf[b].valid && buf[b].key.dev != 0
      modifies this`disk
      ensures Valid() && disk == old(disk)[buf[b].key := buf[b].data]
    {
      assert BufOk(buf[b], uses[b], disk, view);
      BlockCoherent(buf[..], uses, disk, view, b, buf[b], uses[b], disk[buf[b].key := buf[b].data], view);
      assert buf[..][b := buf[b]] == buf[..] && uses[b := uses[b]] == uses;
      disk := disk[buf[b].key := buf[b].data];
    }

    method Bpin(b: int)
      requires Valid() && 0 <= b < NBUF
      modifies buf, this`uses
      ensures Valid() && buf[..] == old(buf[..])[b := old(buf[b]).(refcnt := old(buf[b]).refcnt + 1)]
      ensures uses == old(uses)[b := old(uses)[b].(pins := old(uses)[b].pins + 1)]
    {
      assert BufOk(buf[b], uses[b], disk, view);
      Change(b, buf[b].(refcnt := buf[b].refcnt + 1), uses[b].(pins := uses[b].pins + 1));
    }

    /** bunpin: the last pin goes while the caller holds the buffer, or when it agrees
        with the disk. */
    method Bunpin(b: int)
      requires Valid() && 0 <= b < NBUF && uses[b].pins > 0
      requires uses[b].pins == 1 && !buf[b].held && buf[b].key in disk && buf[b].valid ==>
                buf[b].data == disk[buf[b].key]
      modifies buf, this`uses
      ensures Valid() && buf[..] == old(buf[..])[b := old(buf[b]).(refcnt := old(buf[b]).refcnt - 1)]
      ensures uses == old(uses)[b := old(uses)[b].(pins := old(uses)[b].pins - 1)]
    {
      assert BufOk(buf[b], uses[b], disk, view);
      Change(b, buf[b].(refcnt := buf[b].refcnt - 1), uses[b].(pins := uses[b].pins - 1));
    }

    /** brelse's releasesleep: what the holder leaves is what the block's next holder
        sees.  The caller has written it or the log has pinned the buffer. */
    method Unlock(b: int)
      requires Valid() && 0 <= b < NBUF && buf[b].held && buf[b].valid && buf[b].key.dev != 0 && buf[b].key in disk
      requires uses[b].pins > 0 || buf[b].data == disk[buf[b].key]
      modifies buf, this`uses, this`view
      ensures Valid() && buf[..] == old(buf[..])[b := old(buf[b]).(held := false)]
      ensures uses == old(uses)[b := old(uses)[b].(leaving := old(uses)[b].leaving + 1)]
      ensures view == old(view)[buf[b].key := buf[b].data]
    {
      ghost var bs := buf[..];
      assert BufOk(bs[b], uses[b], disk, view);
      ghost var nb, u := bs[b].(held := false), uses[b].(leaving := uses[b].leaving + 1);
      BlockCoherent(bs, uses, disk, view, b, nb, u, disk, view[bs[b].key := bs[b].data]);
      buf[b] := buf[b].(held := false);
      view, uses := view[bs[b].key := bs[b].data], uses[b := u];
      assert buf[..] == bs[b := nb];
      LinksFrame(bs, buf[..], ring);
    }

    /** brelse's second half, whatever others have done to the buffer since: a buffer
        nobody refers to any more goes to the front. */
    method Drop(b: int)
      requires Valid() && 0 <= b < NBUF && uses[b].leaving > 0
      modifies buf, this`uses, this`ring, this`stamp, this`clock
      ensures Valid()
      ensures uses == old(uses)[b := old(uses)[b].(leaving := old(uses)[b].leaving - 1)]
      ensures forall i :: 0 <= i < NBUF ==>
                Contents(buf[i])
                == Contents(if i == b then old(buf[b]).(refcnt := old(buf[b]).refcnt - 1) else old(buf[i]))
      ensures old(buf[b]).refcnt > 1 ==> ring == old(ring) && stamp == old(stamp) && clock == old(clock)
      ensures old(buf[b]).refcnt == 1 ==>
                && ring[0] == b && stamp == old(stamp)[b := old(clock)] && clock == old(clock) + 1
                && exists k :: 0 <= k < |old(ring)| && old(ring)[k] == b && ring == ToFront(old(ring), k)
    {
      assert BufOk(buf[b], uses[b], disk, view);
      Change(b, buf[b].(refcnt := buf[b].refcnt - 1), uses[b].(leaving := uses[b].leaving - 1));
      if buf[b].refcnt == 0 {
        MoveToFront(b);
      }
    }

    /** A process that asks for a block while another holds it waits for the same
        buffer, and finds in it what the other has written. */
    method WaiterSees(b: int, data: Block)
      requires Valid() && 0 <= b < NBUF && buf[b].held && buf[b].valid && buf[b].key.dev != 0 && buf[b].key in disk
      modifies buf, this`uses, this`view, this`disk, this`ring, this`stamp, this`clock
      ensures Valid() && buf[b].held && buf[b].valid && buf[b].key == old(buf[b].key)
      ensures buf[b].data == data && buf[b].key in disk && disk[buf[b].key] == data
      ensures buf[b].refcnt == old(buf[b].refcnt)
    {
      hide Coherent, Links, Recency, Contents, ToFront;
      assert Has(buf[b].key);
      var w := Bget(buf[b].key);   // the other process
      OneBuffer(buf[..], uses, disk, view, b, w);
      Modify(b, data);
      Bwrite(b);
      Unlock(b);
      Lock(w);                     // the other process
      ghost var was := buf[b];
      Drop(b);
      SameContents(buf[b], was.(refcnt := was.refcnt - 1));
    }

    method MoveToFront(b: int)
      requires Valid() && 0 <= b < NBUF
      modifies buf, this`ring, this`stamp, this`clock
      ensures Valid()
      ensures forall i :: 0 <= i < NBUF ==> Contents(buf[i]) == Contents(old(buf[i]))
      ensures ring[0] == b && stamp == old(stamp)[b := old(clock)] && clock == old(clock) + 1
      ensures exists k :: 0 <= k < |old(ring)| && old(ring)[k] == b && ring == ToFront(old(ring), k)
    {
      hide Coherent, Links, Recency, Unlink, LinkFront, Contents, Without;
      ghost var bs := buf[..];
      ghost var k := PlaceInRing(ring, stamp, clock, b);
      RelinkLinks(bs, ring, k);
      ToFrontRecencyOf(bs, ring, stamp, clock, k);
      PullOut(b);
      PushFront(b);
      CoherentFrame(bs, buf[..], uses, disk, view);
      ring, stamp, clock := ToFront(ring, k), stamp[b := clock], clock + 1;
    }
  }
}
