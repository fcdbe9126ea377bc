/** The user-level allocator of The C Programming Language, section 8.7.

    Addresses count in header-sized units.  Every block, free or in use, starts
    with a header; the free ones form a circular list in address order that
    starts at the static, empty block `base`, which lies below all the memory
    obtained from sbrk. */
module Umalloc {
  const HEADER := 16         // sizeof(Header) in bytes
  const MINUNITS := 4096     // the least morecore asks for
  const NULL := 0

  datatype Header = Header(ptr: int, size: int)

  /** A run of units. */
  datatype Span = Span(addr: int, size: int) {
    function End(): int { addr + size }
    predicate Holds(u: int) { addr <= u < addr + size }
  }

  type Memory = map<int, Header>

  function Units(b: Span): set<int> {
    set u | b.addr <= u < b.addr + b.size && b.Holds(u)
  }

  /** The units of all the spans. */
  function Covered(spans: seq<Span>): set<int> {
    if spans == [] then {} else Covered(spans[..|spans| - 1]) + Units(spans[|spans| - 1])
  }

  function InUse(live: map<int, int>): set<int> {
    set a, u | a in live && a <= u < a + live[a] && Span(a, live[a]).Holds(u) :: u
  }

  /** Address order with a gap after every span: no two are adjacent. */
  ghost predicate Apart(spans: seq<Span>) {
    forall i, j :: 0 <= i < j < |spans| ==> spans[i].End() < spans[j].addr
  }

  function Succ(spans: seq<Span>, i: int): int
    requires 0 <= i < |spans|
  {
    if i + 1 < |spans| then spans[i + 1].addr else spans[0].addr
  }

  /** The header of the i-th span holds its size and the address of the next. */
  ghost predicate Node(mem: Memory, spans: seq<Span>, i: int)
    requires 0 <= i < |spans|
  {
    spans[i].addr in mem && mem[spans[i].addr] == Header(Succ(spans, i), spans[i].size)
  }

  /** The headers in memory link the spans into a circle, starting at an empty
      one. */
  ghost predicate Linked(mem: Memory, spans: seq<Span>) {
    && |spans| > 0 && spans[0].size == 0
    && (forall i :: 0 < i < |spans| ==> spans[i].size > 0)
    && Apart(spans)
    && forall i :: 0 <= i < |spans| ==> Node(mem, spans, i)
  }

  ghost predicate LiveOk(mem: Memory, live: map<int, int>) {
    && (forall a :: a in live ==> live[a] > 0 && a in mem && mem[a].size == live[a])
    && (forall a, b :: a in live && b in live && a < b ==> a + live[a] <= b)
  }

  /** Free blocks and blocks in use partition the memory obtained so far. */
  ghost predicate Partition(spans: seq<Span>, live: map<int, int>, owned: set<int>) {
    && Covered(spans) !! InUse(live)
    && Covered(spans) + InUse(live) == owned
  }

  // ---- covered units

  lemma {:induction false} CoveredConcat(a: seq<Span>, b: seq<Span>)
    ensures Covered(a + b) == Covered(a) + Covered(b)
  {
    if b == [] {
      assert a + b == a;
    } else {
      assert (a + b)[..|a + b| - 1] == a + b[..|b| - 1];
      CoveredConcat(a, b[..|b| - 1]);
    }
  }

  lemma CoveredOne(b: Span)
    ensures Covered([b]) == Units(b)
  {
    assert [b][..0] == [];
  }

  lemma {:induction false} CoveredBy(spans: seq<Span>, u: int)
    ensures u in Covered(spans) <==> exists i :: 0 <= i < |spans| && spans[i].Holds(u)
  {
    if spans != [] {
      var init := spans[..|spans| - 1];
      CoveredBy(init, u);
      assert forall i :: 0 <= i < |init| ==> init[i] == spans[i];
    }
  }

  /** Replacing spans[a..b] by spans that cover the units of `more` besides. */
  lemma CoveredSplice(spans: seq<Span>, a: nat, b: nat, mid: seq<Span>, more: set<int>)
    requires a <= b <= |spans| && Covered(mid) == Covered(spans[a..b]) + more
    ensures Covered(spans[..a] + mid + spans[b..]) == Covered(spans) + more
  {
    hide Covered;
    CoveredConcat(spans[..a] + mid, spans[b..]);
    CoveredConcat(spans[..a], mid);
    CoveredConcat(spans[..a] + spans[a..b], spans[b..]);
    CoveredConcat(spans[..a], spans[a..b]);
    assert spans == spans[..a] + spans[a..b] + spans[b..];
  }

  // ---- free()

  /** p is where bp belongs: after spans[i] and before the next one. */
  ghost predicate Fits(spans: seq<Span>, i: int, bp: Span) {
    && 0 <= i < |spans|
    && spans[i].End() <= bp.addr
    && (i + 1 < |spans| ==> bp.End() <= spans[i + 1].addr)
  }

  predicate JoinsUpper(spans: seq<Span>, i: nat, bp: Span) {
    i + 1 < |spans| && bp.End() == spans[i + 1].addr
  }

  predicate JoinsLower(spans: seq<Span>, i: nat, bp: Span) {
    i < |spans| && spans[i].End() == bp.addr
  }

  /** The list with bp inserted after spans[i] and merged with its neighbours. */
  function Insert(spans: seq<Span>, i: nat, bp: Span): seq<Span>
    requires i < |spans|
  {
    var upper := JoinsUpper(spans, i, bp);
    var b := if upper then Span(bp.addr, bp.size + spans[i + 1].size) else bp;
    var mid := if JoinsLower(spans, i, bp) then [Span(spans[i].addr, spans[i].size + b.size)] else [spans[i], b];
    spans[..i] + mid + spans[if upper then i + 2 else i + 1..]
  }

  /** free()'s assignments, with p = spans[i].addr found. */
  function Inserted(mem: Memory, p: int, bp: int): Memory
    requires p in mem && bp in mem && mem[p].ptr in mem
  {
    var next := mem[p].ptr;
    var b := if bp + mem[bp].size == next then Header(mem[next].ptr, mem[bp].size + mem[next].size)
             else mem[bp].(ptr := next);
    var m := mem[bp := b];
    if p + m[p].size == bp then m[p := Header(m[bp].ptr, m[p].size + m[bp].size)]
    else m[p := m[p].(ptr := bp)]
  }

  /** A list in which spans[a..b] has been replaced by the one span m. */
  lemma SpliceLinked(mem: Memory, mem': Memory, spans: seq<Span>, a: nat, b: nat, m: Span)
    requires Linked(mem, spans) && 1 <= a <= b <= |spans| && m.size > 0
    requires spans[a - 1].End() < m.addr && (b < |spans| ==> m.End() < spans[b].addr)
    requires spans[a - 1].addr in mem' && mem'[spans[a - 1].addr] == Header(m.addr, spans[a - 1].size)
    requires m.addr in mem' && mem'[m.addr] == Header(if b < |spans| then spans[b].addr else spans[0].addr, m.size)
    requires forall k :: (0 <= k < a - 1 || b <= k < |spans|) ==>
               spans[k].addr in mem && spans[k].addr in mem' && mem'[spans[k].addr] == mem[spans[k].addr]
    ensures Linked(mem', spans[..a] + [m] + spans[b..])
  {
    var out := spans[..a] + [m] + spans[b..];
    SpliceApart(spans, a, b, m);
    forall k | 0 <= k < |out| ensures Node(mem', out, k) {
      if k < a - 1 {
        assert Node(mem, spans, k);
        assert out[k] == spans[k] && out[k + 1] == spans[k + 1];
      } else if k > a {
        var o := k - a - 1 + b;
        assert Node(mem, spans, o);
        assert out[k] == spans[o];
        assert k + 1 < |out| ==> out[k + 1] == spans[o + 1];
      }
    }
  }

  lemma SpliceApart(spans: seq<Span>, a: nat, b: nat, m: Span)
    requires Apart(spans) && 1 <= a <= b <= |spans| && m.size > 0
    requires forall k :: 0 < k < |spans| ==> spans[k].size > 0
    requires spans[a - 1].End() < m.addr && (b < |spans| ==> m.End() < spans[b].addr) && spans[0].size == 0
    ensures Apart(spans[..a] + [m] + spans[b..])
  {
    var out := spans[..a] + [m] + spans[b..];
    forall i, j | 0 <= i < j < |out| ensures out[i].End() < out[j].addr {
      var x := if i < a then i else i - a - 1 + b;
      var y := if j < a then j else j - a - 1 + b;
      if i == a {
        if b < y { assert spans[b].End() < spans[y].addr; }
      } else if j == a {
        assert out[i] == spans[i];
        if i < a - 1 { assert spans[i].End() < spans[a - 1].addr; }
      } else {
        assert out[i] == spans[x] && out[j] == spans[y];
      }
    }
  }

  lemma InsertAsSplice(spans: seq<Span>, i: nat, bp: Span)
    requires i < |spans|
    ensures var upper := JoinsUpper(spans, i, bp);
            var b := if upper then Span(bp.addr, bp.size + spans[i + 1].size) else bp;
            var j := if upper then i + 2 else i + 1;
            Insert(spans, i, bp)
            == if JoinsLower(spans, i, bp) then spans[..i] + [Span(spans[i].addr, spans[i].size + b.size)] + spans[j..]
               else spans[..i + 1] + [b] + spans[j..]
  {
    assert spans[..i + 1] == spans[..i] + [spans[i]];
  }

  /** What free() leaves in the headers other than bp's and p's. */
  lemma InsertedElsewhere(mem: Memory, spans: seq<Span>, i: nat, bp: Span)
    requires Linked(mem, spans) && Fits(spans, i, bp) && bp.size > 0 && spans[0].addr < bp.addr
    requires bp.addr in mem && mem[bp.addr].size == bp.size
    ensures spans[i].addr in mem && mem[spans[i].addr].ptr == Succ(spans, i) && Succ(spans, i) in mem
    ensures var out := Inserted(mem, spans[i].addr, bp.addr);
            forall k :: 0 <= k < |spans| && k != i ==>
              spans[k].addr in mem && spans[k].addr in out && out[spans[k].addr] == mem[spans[k].addr]
  {
    assert Node(mem, spans, i);
    assert Node(mem, spans, if i + 1 < |spans| then i + 1 else 0);
    var out := Inserted(mem, spans[i].addr, bp.addr);
    forall k | 0 <= k < |spans| && k != i
      ensures spans[k].addr in mem && spans[k].addr in out && out[spans[k].addr] == mem[spans[k].addr]
    {
      assert Node(mem, spans, k);
      if k < i {
        assert spans[k].End() < spans[i].addr;
      } else if i + 1 < k {
        assert spans[i + 1].End() < spans[k].addr;
      }
    }
  }

  lemma InsertLinked(mem: Memory, spans: seq<Span>, i: nat, bp: Span)
    requires Linked(mem, spans) && Fits(spans, i, bp) && bp.size > 0 && spans[0].addr < bp.addr
    requires bp.addr in mem && mem[bp.addr].size == bp.size
    ensures spans[i].addr in mem && mem[spans[i].addr].ptr in mem
    ensures Linked(Inserted(mem, spans[i].addr, bp.addr), Insert(spans, i, bp))
  {
    hide Insert, Apart;
    InsertedElsewhere(mem, spans, i, bp);
    InsertAsSplice(spans, i, bp);
    assert Node(mem, spans, i);
    var upper := JoinsUpper(spans, i, bp);
    var b := if upper then Span(bp.addr, bp.size + spans[i + 1].size) else bp;
    var j := if upper then i + 2 else i + 1;
    Gaps(spans, i, j);
    if upper {
      assert Node(mem, spans, i + 1);
    }
    var out := Inserted(mem, spans[i].addr, bp.addr);
    if JoinsLower(spans, i, bp) {
      assert Node(mem, spans, i - 1);
      SpliceLinked(mem, out, spans, i, j, Span(spans[i].addr, spans[i].size + b.size));
    } else {
      SpliceLinked(mem, out, spans, i + 1, j, b);
    }
  }

  lemma Gaps(spans: seq<Span>, i: nat, j: nat)
    requires Apart(spans) && i < |spans| && i < j
    ensures i > 0 ==> spans[i - 1].End() < spans[i].addr
    ensures j < |spans| ==> spans[j - 1].End() < spans[j].addr
  {
  }

  lemma UnitsJoin(a: Span, b: Span)
    requires a.End() == b.addr && a.size >= 0 && b.size >= 0
    ensures Units(Span(a.addr, a.size + b.size)) == Units(a) + Units(b)
  {
  }

  lemma CoveredTwo(a: Span, b: Span)
    ensures Covered([a, b]) == Units(a) + Units(b)
  {
    CoveredConcat([a], [b]);
    CoveredOne(a);
    CoveredOne(b);
    assert [a] + [b] == [a, b];
  }

  /** The span free() makes of bp and the block above it. */
  lemma UpperCovers(spans: seq<Span>, i: nat, bp: Span)
    requires Fits(spans, i, bp) && bp.size > 0 && (forall k :: 0 <= k < |spans| ==> spans[k].size >= 0)
    ensures var upper := JoinsUpper(spans, i, bp);
            var b := if upper then Span(bp.addr, bp.size + spans[i + 1].size) else bp;
            var j := if upper then i + 2 else i + 1;
            && Units(b) == Covered(spans[i + 1..j]) + Units(bp)
            && Covered(spans[i..j]) == Units(spans[i]) + Covered(spans[i + 1..j])
  {
    if JoinsUpper(spans, i, bp) {
      UnitsJoin(bp, spans[i + 1]);
      assert spans[i + 1..i + 2] == [spans[i + 1]];
      assert spans[i..i + 2] == [spans[i], spans[i + 1]];
      CoveredTwo(spans[i], spans[i + 1]);
      CoveredOne(spans[i + 1]);
    } else {
      assert spans[i..i + 1] == [spans[i]];
      CoveredOne(spans[i]);
    }
  }

  lemma InsertCovers(spans: seq<Span>, i: nat, bp: Span)
    requires Fits(spans, i, bp) && bp.size > 0 && (forall k :: 0 <= k < |spans| ==> spans[k].size >= 0)
    ensures Covered(Insert(spans, i, bp)) == Covered(spans) + Units(bp)
  {
    hide Covered, Units, Insert;
    UpperCovers(spans, i, bp);
    InsertAsSplice(spans, i, bp);
    var upper := JoinsUpper(spans, i, bp);
    var j := if upper then i + 2 else i + 1;
    var b := if upper then Span(bp.addr, bp.size + spans[i + 1].size) else bp;
    if JoinsLower(spans, i, bp) {
      var m := Span(spans[i].addr, spans[i].size + b.size);
      UnitsJoin(spans[i], b);
      CoveredOne(m);
      CoveredSplice(spans, i, j, [m], Units(bp));
    } else {
      CoveredOne(b);
      CoveredSplice(spans, i + 1, j, [b], Units(bp));
    }
  }

  // ---- blocks in use

  lemma LiveAdd(live: map<int, int>, a: int, n: int)
    requires a !in live
    ensures InUse(live[a := n]) == InUse(live) + Units(Span(a, n))
  {
    var more := live[a := n];
    forall u | u in InUse(more) ensures u in InUse(live) + Units(Span(a, n)) {
      var x :| x in more && x <= u < x + more[x] && Span(x, more[x]).Holds(u);
      if x != a {
        assert x in live && Span(x, live[x]).Holds(u);
      }
    }
    forall u | u in InUse(live) ensures u in InUse(more) {
      var x :| x in live && x <= u < x + live[x] && Span(x, live[x]).Holds(u);
      assert x in more && Span(x, more[x]).Holds(u);
    }
    forall u | u in Units(Span(a, n)) ensures u in InUse(more) {
      assert Span(a, more[a]).Holds(u);
    }
  }

  lemma LiveRemove(live: map<int, int>, a: int)
    requires a in live
    requires forall x, y :: x in live && y in live && x < y ==> x + live[x] <= y
    ensures InUse(live - {a}) == InUse(live) - Units(Span(a, live[a])) && Units(Span(a, live[a])) <= InUse(live)
  {
    var less := live - {a};
    forall u | u in InUse(live) - Units(Span(a, live[a])) ensures u in InUse(less) {
      var x :| x in live && x <= u < x + live[x] && Span(x, live[x]).Holds(u);
      assert x != a;
      assert x in less && Span(x, less[x]).Holds(u);
    }
    forall u | u in InUse(less) ensures u in InUse(live) - Units(Span(a, live[a])) {
      var x :| x in less && x <= u < x + less[x] && Span(x, less[x]).Holds(u);
      assert x in live && Span(x, live[x]).Holds(u);
    }
    forall u | u in Units(Span(a, live[a])) ensures u in InUse(live) {
      assert Span(a, live[a]).Holds(u);
    }
  }

  // ---- malloc()

  /** Units for a request: enough for the bytes, and one for the header. */
  function Nunits(nbytes: nat): (n: nat)
    ensures nbytes <= (n - 1) * HEADER < nbytes + HEADER
  {
    (nbytes + HEADER - 1) / HEADER + 1
  }

  /** Unlinking spans[j], which fits exactly. */
  lemma RemoveLinked(mem: Memory, spans: seq<Span>, j: nat)
    requires Linked(mem, spans) && 0 < j < |spans|
    ensures spans[j].addr in mem && spans[j - 1].addr in mem
    ensures var prev := spans[j - 1].addr;
            Linked(mem[prev := mem[prev].(ptr := mem[spans[j].addr].ptr)], spans[..j] + spans[j + 1..])
  {
    assert Node(mem, spans, j) && Node(mem, spans, j - 1);
    RemoveApart(spans, j);
    var out := spans[..j] + spans[j + 1..];
    var mem' := mem[spans[j - 1].addr := mem[spans[j - 1].addr].(ptr := mem[spans[j].addr].ptr)];
    forall k | 0 <= k < |out| ensures Node(mem', out, k) {
      var o := if k < j then k else k + 1;
      assert out[k] == spans[o] && Node(mem, spans, o);
      assert k + 1 < |out| && k != j - 1 ==> out[k + 1] == spans[o + 1];
      if o < j - 1 {
        assert spans[o].End() < spans[j - 1].addr;
      } else if o > j {
        assert spans[j - 1].End() < spans[o].addr;
      }
    }
  }

  lemma RemoveApart(spans: seq<Span>, j: nat)
    requires Apart(spans) && 0 < j < |spans|
    ensures Apart(spans[..j] + spans[j + 1..])
  {
    var out := spans[..j] + spans[j + 1..];
    forall x, y | 0 <= x < y < |out| ensures out[x].End() < out[y].addr {
      assert out[x] == spans[if x < j then x else x + 1] && out[y] == spans[if y < j then y else y + 1];
    }
  }

  /** Carving the tail off spans[j]. */
  lemma CarveLinked(mem: Memory, spans: seq<Span>, j: nat, n: int, h: Header)
    requires Linked(mem, spans) && 0 < j < |spans| && 0 < n < spans[j].size
    ensures spans[j].addr in mem
    ensures var p := spans[j].addr;
            var rest := spans[j].size - n;
            Linked(mem[p := mem[p].(size := rest)][p + rest := h], spans[j := Span(p, rest)])
  {
    assert Node(mem, spans, j);
    var p, rest := spans[j].addr, spans[j].size - n;
    var out := spans[j := Span(p, rest)];
    var mem' := mem[p := mem[p].(size := rest)][p + rest := h];
    forall k | 0 <= k < |out| ensures Node(mem', out, k) {
      assert Node(mem, spans, k);
      if k < j {
        assert spans[k].End() < spans[j].addr;
      } else if k > j {
        assert spans[j].End() < spans[k].addr;
      }
    }
  }

  /** The list once n units have been taken from the end of spans[j]. */
  function Take(spans: seq<Span>, j: nat, n: int): seq<Span>
    requires j < |spans|
  {
    var rest := spans[j].size - n;
    spans[..j] + (if rest == 0 then [] else [Span(spans[j].addr, rest)]) + spans[j + 1..]
  }

  lemma TakeApart(spans: seq<Span>, j: nat, n: int, k: nat)
    requires Apart(spans) && j < |spans| && 0 < n <= spans[j].size && k < |Take(spans, j, n)|
    ensures var b, taken := Take(spans, j, n)[k], Span(spans[j].addr + spans[j].size - n, n);
            b.End() <= taken.addr || taken.End() < b.addr
  {
    var out := Take(spans, j, n);
    var m := if spans[j].size == n then 0 else 1;
    if k < j {
      assert out[k] == spans[k] && spans[k].End() < spans[j].addr;
    } else if k >= j + m {
      var o := k - m + 1;
      assert out[k] == spans[o] && spans[j].End() < spans[o].addr;
    }
  }

  /** The list loses exactly the units handed out. */
  lemma TakeCovers(spans: seq<Span>, j: nat, n: int)
    requires Apart(spans) && j < |spans| && 0 < n <= spans[j].size
    ensures var taken := Units(Span(spans[j].addr + spans[j].size - n, n));
            && Covered(spans) == Covered(Take(spans, j, n)) + taken && Covered(Take(spans, j, n)) !! taken
  {
    TakeCoversAll(spans, j, n);
    var out := Take(spans, j, n);
    forall u | u in Covered(out) ensures u !in Units(Span(spans[j].addr + spans[j].size - n, n)) {
      CoveredBy(out, u);
      var k :| 0 <= k < |out| && out[k].Holds(u);
      TakeApart(spans, j, n, k);
    }
  }

  lemma TakeCoversAll(spans: seq<Span>, j: nat, n: int)
    requires j < |spans| && 0 < n <= spans[j].size
    ensures Covered(spans) == Covered(Take(spans, j, n)) + Units(Span(spans[j].addr + spans[j].size - n, n))
  {
    hide Covered, Units;
    var rest := spans[j].size - n;
    var mid := if rest == 0 then [] else [Span(spans[j].addr, rest)];
    var out := Take(spans, j, n);
    var taken := Units(Span(spans[j].addr + rest, n));
    assert out[j..j + |mid|] == mid && out[..j] == spans[..j] && out[j + |mid|..] == spans[j + 1..];
    assert spans == spans[..j] + [spans[j]] + spans[j + 1..];
    CoveredOne(spans[j]);
    CoveredNone();
    CoveredOne(Span(spans[j].addr, rest));
    UnitsJoin(Span(spans[j].addr, rest), Span(spans[j].addr + rest, n));
    CoveredSplice(out, j, j + |mid|, [spans[j]], taken);
  }

  lemma CoveredNone()
    ensures Covered([]) == {}
  {
  }

  // ---- the allocator's state

  /** Everything the allocator relies on, given where `base` is and the highest
      address obtained so far. */
  ghost predicate Good(mem: Memory, spans: seq<Span>, live: map<int, int>, owned: set<int>, base: int, top: int) {
    && Linked(mem, spans) && spans[0].addr == base && base < top
    && LiveOk(mem, live) && Partition(spans, live, owned)
    && forall u :: u in owned ==> base < u < top
  }

  lemma LiveIsOwned(mem: Memory, spans: seq<Span>, live: map<int, int>, owned: set<int>, base: int, top: int, a: int,
      u: int)
    requires Good(mem, spans, live, owned, base, top) && a in live && a <= u < a + live[a]
    ensures u in owned && u !in Covered(spans)
  {
    assert Span(a, live[a]).Holds(u);
    assert u in InUse(live);
  }

  lemma SpanBelow(mem: Memory, spans: seq<Span>, live: map<int, int>, owned: set<int>, base: int, top: int, i: nat)
    requires Good(mem, spans, live, owned, base, top) && i < |spans|
    ensures spans[i].addr < top
  {
    if i > 0 {
      CoveredBy(spans, spans[i].addr);
      assert spans[i].Holds(spans[i].addr);
    }
  }

  lemma FreeIsNotLive(mem: Memory, spans: seq<Span>, live: map<int, int>, owned: set<int>, base: int, top: int,
      i: nat, a: int)
    requires Good(mem, spans, live, owned, base, top) && i < |spans| && a in live
    ensures a + live[a] <= spans[i].addr || spans[i].End() <= a
    ensures spans[i].addr != a && base < a
  {
    LiveIsOwned(mem, spans, live, owned, base, top, a, a);
    if i > 0 {
      var u := if spans[i].addr <= a then a else spans[i].addr;
      if a <= u < a + live[a] {
        LiveIsOwned(mem, spans, live, owned, base, top, a, u);
        CoveredBy(spans, u);
      }
    }
  }

  /** Where free()'s search stops, the block fits. */
  lemma FoundFits(mem: Memory, spans: seq<Span>, live: map<int, int>, owned: set<int>, base: int, top: int, i: nat,
      a: int)
    requires Good(mem, spans, live, owned, base, top) && i < |spans| && a in live
    requires spans[i].addr < a && (i + 1 < |spans| ==> a < spans[i + 1].addr)
    ensures Fits(spans, i, Span(a, live[a])) && base < a
  {
    FreeIsNotLive(mem, spans, live, owned, base, top, i, a);
    if i + 1 < |spans| {
      FreeIsNotLive(mem, spans, live, owned, base, top, i + 1, a);
    }
  }

  lemma FreedLiveOk(mem: Memory, mem': Memory, live: map<int, int>, p: int, a: int)
    requires LiveOk(mem, live) && p !in live
    requires forall x :: x in mem && x != p && x != a ==> x in mem' && mem'[x] == mem[x]
    ensures LiveOk(mem', live - {a})
  {
  }

  lemma FreedGood(mem: Memory, spans: seq<Span>, live: map<int, int>, owned: set<int>, base: int, top: int, i: nat,
      a: int)
    requires Good(mem, spans, live, owned, base, top) && i < |spans| && a in live
    requires Fits(spans, i, Span(a, live[a])) && base < a
    ensures spans[i].addr in mem && a in mem && mem[spans[i].addr].ptr in mem
    ensures Good(Inserted(mem, spans[i].addr, a), Insert(spans, i, Span(a, live[a])), live - {a}, owned, base, top)
    ensures i < |Insert(spans, i, Span(a, live[a]))| && Insert(spans, i, Span(a, live[a]))[i].addr == spans[i].addr
  {
    hide Covered, InUse, Units;
    var bp := Span(a, live[a]);
    InsertLinked(mem, spans, i, bp);
    InsertCovers(spans, i, bp);
    LiveRemove(live, a);
    FreeIsNotLive(mem, spans, live, owned, base, top, i, a);
    NotLive(mem, spans, live, owned, base, top, i);
    FreedLiveOk(mem, Inserted(mem, spans[i].addr, a), live, spans[i].addr, a);
  }

  lemma NotLive(mem: Memory, spans: seq<Span>, live: map<int, int>, owned: set<int>, base: int, top: int, i: nat)
    requires Good(mem, spans, live, owned, base, top) && i < |spans|
    ensures spans[i].addr !in live
  {
    if spans[i].addr in live {
      FreeIsNotLive(mem, spans, live, owned, base, top, i, spans[i].addr);
    }
  }

  /** malloc()'s assignments on finding p, after prevp, with at least n units;
      the block it hands out starts at p's end less n. */
  function Carved(mem: Memory, prevp: int, p: int, n: int): Memory
    requires p in mem && prevp in mem
  {
    if mem[p].size == n then mem[prevp := mem[prevp].(ptr := mem[p].ptr)]
    else
      var m := mem[p := mem[p].(size := mem[p].size - n)];
      var a := p + m[p].size;
      m[a := Header(if a in m then m[a].ptr else NULL, n)]
  }

  lemma TakenLinked(mem: Memory, spans: seq<Span>, j: nat, n: int)
    requires Linked(mem, spans) && 0 < j < |spans| && 0 < n <= spans[j].size
    ensures spans[j].addr in mem && spans[j - 1].addr in mem && mem[spans[j].addr].size == spans[j].size
    ensures Linked(Carved(mem, spans[j - 1].addr, spans[j].addr, n), Take(spans, j, n))
  {
    assert Node(mem, spans, j) && Node(mem, spans, j - 1);
    var rest := spans[j].size - n;
    if rest == 0 {
      RemoveLinked(mem, spans, j);
      assert Take(spans, j, n) == spans[..j] + spans[j + 1..];
    } else {
      var a := spans[j].addr + rest;
      var m := mem[spans[j].addr := mem[spans[j].addr].(size := rest)];
      CarveLinked(mem, spans, j, n, Header(if a in m then m[a].ptr else NULL, n));
      assert Take(spans, j, n) == spans[j := Span(spans[j].addr, rest)];
    }
  }

  /** The block malloc() hands out is apart from every block in use. */
  lemma TakenApart(mem: Memory, spans: seq<Span>, live: map<int, int>, owned: set<int>, base: int, top: int, j: nat,
      n: int, x: int)
    requires Good(mem, spans, live, owned, base, top) && 0 < j < |spans| && 0 < n <= spans[j].size && x in live
    ensures var a := spans[j].addr + spans[j].size - n; x + live[x] <= a || a + n <= x
  {
    FreeIsNotLive(mem, spans, live, owned, base, top, j, x);
  }

  lemma TakenLiveOk(mem: Memory, spans: seq<Span>, live: map<int, int>, owned: set<int>, base: int, top: int, j: nat,
      n: int)
    requires Good(mem, spans, live, owned, base, top) && 0 < j < |spans| && 0 < n <= spans[j].size
    ensures spans[j].addr in mem && spans[j - 1].addr in mem && spans[j].addr + spans[j].size - n !in live
    ensures LiveOk(Carved(mem, spans[j - 1].addr, spans[j].addr, n), live[spans[j].addr + spans[j].size - n := n])
  {
    assert Node(mem, spans, j) && Node(mem, spans, j - 1);
    NotLive(mem, spans, live, owned, base, top, j);
    NotLive(mem, spans, live, owned, base, top, j - 1);
    forall x | x in live
      ensures x + live[x] <= spans[j].addr + spans[j].size - n || spans[j].End() <= x
    {
      TakenApart(mem, spans, live, owned, base, top, j, n, x);
    }
  }

  lemma TakenGood(mem: Memory, spans: seq<Span>, live: map<int, int>, owned: set<int>, base: int, top: int, j: nat,
      n: int)
    requires Good(mem, spans, live, owned, base, top) && 0 < j < |spans| && 0 < n <= spans[j].size
    ensures spans[j].addr in mem && spans[j - 1].addr in mem && spans[j].addr + spans[j].size - n !in live
    ensures Good(Carved(mem, spans[j - 1].addr, spans[j].addr, n), Take(spans, j, n),
                 live[spans[j].addr + spans[j].size - n := n], owned, base, top)
    ensures j - 1 < |Take(spans, j, n)| && Take(spans, j, n)[j - 1] == spans[j - 1]
    ensures base <= spans[j - 1].addr && base < spans[j].addr + spans[j].size - n
  {
    hide Covered, InUse, Units;
    assert spans[0].End() < spans[j].addr;
    TakenLinked(mem, spans, j, n);
    TakeCovers(spans, j, n);
    TakenLiveOk(mem, spans, live, owned, base, top, j, n);
    LiveAdd(live, spans[j].addr + spans[j].size - n, n);
  }

  /** Fresh memory from sbrk, before it goes on the free list: a block in use. */
  lemma GrownGood(mem: Memory, spans: seq<Span>, live: map<int, int>, owned: set<int>, base: int, top: int, h: Header,
      hp: int)
    requires Good(mem, spans, live, owned, base, top) && top <= hp && h.size > 0
    ensures hp !in live
    ensures Good(mem[hp := h], spans, live[hp := h.size], owned + Units(Span(hp, h.size)), base, hp + h.size)
  {
    if hp in live {
      LiveIsOwned(mem, spans, live, owned, base, top, hp, hp);
    }
    var mem' := mem[hp := h];
    forall i | 0 <= i < |spans| ensures Node(mem', spans, i) {
      assert Node(mem, spans, i);
      if i > 0 {
        CoveredBy(spans, spans[i].addr);
        assert spans[i].Holds(spans[i].addr);
      }
    }
    forall x | x in live ensures x + live[x] <= hp {
      LiveIsOwned(mem, spans, live, owned, base, top, x, x + live[x] - 1);
    }
    LiveAdd(live, hp, h.size);
  }

  /** Steps from list position k round to position f. */
  function Dist(n: int, k: int, f: int): int {
    if k <= f then f - k else f - k + n
  }

  function Asked(nu: nat): nat {
    if nu < MINUNITS then MINUNITS else nu
  }

  /** What morecore() passes to sbrk, whose parameter is a 32-bit int. */
  function SbrkBytes(nu: nat): int {
    var x := nu * HEADER % 0x1_0000_0000;
    if x < 0x8000_0000 then x else x - 0x1_0000_0000
  }

  /** For requests a 32-bit unsigned int can express, sbrk is asked for the right
      amount exactly when that is less than two gigabytes; above that it is asked
      to shrink the process, or for next to nothing. */
  lemma SbrkTruncates(nbytes: nat)
    requires nbytes < 0x1_0000_0000
    ensures SbrkBytes(Nunits(nbytes)) == Nunits(nbytes) * HEADER <==> nbytes <= 0x7fff_ffe0
  {
    var nu := Nunits(nbytes);
    assert nu * HEADER <= 0x1_0000_0010;
    assert nbytes <= 0x7fff_ffe0 <==> nu * HEADER < 0x8000_0000;
  }

  /** The units the process has after sbrk(bytes), which returned grant, the old end
      of its memory; a negative amount shrinks it if it can. */
  function Sbrk(backed: set<int>, grant: int, bytes: int): set<int> {
    if bytes >= 0 then backed + Units(Span(grant, bytes / HEADER))
    else if grant + bytes / HEADER < 0 then backed
    else set u | u in backed && u < grant + bytes / HEADER
  }

  /** What is to be backed after malloc took n = Nunits(nbytes) units at the end of
      what sbrk returned: all of them if and only if the request is small enough. */
  lemma SbrkBacks(backed: set<int>, grant: int, nbytes: nat)
    requires nbytes < 0x1_0000_0000 && forall u :: u in backed ==> u < grant
    ensures var n := Nunits(nbytes);
            var now := Sbrk(backed, grant, SbrkBytes(Asked(n)));
            && (Units(Span(grant + Asked(n) - n, n)) <= now <==> nbytes <= 0x7fff_ffe0)
            && (nbytes <= 0x7fff_ffe0 ==> now == backed + Units(Span(grant, Asked(n))))
  {
    var n := Nunits(nbytes);
    SbrkTruncates(nbytes);
    var last := grant + Asked(n) - 1;
    assert Span(grant + Asked(n) - n, n).Holds(last);
    if nbytes <= 0x7fff_ffe0 {
      assert SbrkBytes(Asked(n)) / HEADER == Asked(n);
    } else {
      assert Asked(n) == n && SbrkBytes(n) / HEADER <= 1 < n;
      assert last !in Sbrk(backed, grant, SbrkBytes(n));
    }
  }

  /** The last span below a: where free()'s search must end. */
  lemma {:induction false} LastBelow(spans: seq<Span>, a: int, n: nat) returns (t: nat)
    requires Apart(spans) && 0 < n <= |spans| && spans[0].addr < a
    requires forall k :: 0 <= k < |spans| ==> spans[k].addr != a && spans[k].size >= 0
    requires n < |spans| ==> a < spans[n].addr
    ensures t < |spans| && spans[t].addr < a && (t + 1 < |spans| ==> a < spans[t + 1].addr)
  {
    if spans[n - 1].addr < a {
      t := n - 1;
    } else {
      t := LastBelow(spans, a, n - 1);
    }
  }

  /** The tests of free()'s loop succeed at that position and nowhere else. */
  lemma SearchStops(mem: Memory, spans: seq<Span>, k: nat, t: nat, a: int)
    requires Linked(mem, spans) && k < |spans| && t < |spans|
    requires spans[t].addr < a && (t + 1 < |spans| ==> a < spans[t + 1].addr)
    ensures var p := spans[k].addr;
            && p in mem && mem[p].ptr == Succ(spans, k)
            && ((a > p && a < mem[p].ptr) || (p >= mem[p].ptr && (a > p || a < mem[p].ptr)) <==> k == t)
  {
    assert Node(mem, spans, k);
    if k < t {
      assert spans[k].End() < spans[t].addr;
      assert k + 1 < t ==> spans[k + 1].End() < spans[t].addr;
    } else if t < k {
      assert t + 1 < k ==> spans[t + 1].End() < spans[k].addr;
      assert k + 1 < |spans| ==> spans[k].End() < spans[k + 1].addr;
      assert spans[0].End() < spans[k].addr;
    }
    assert 0 < k ==> spans[0].End() < spans[k].addr;
    assert 0 < t ==> spans[0].End() < spans[t].addr;
    assert k + 1 < |spans| ==> spans[k].End() < spans[k + 1].addr;
  }

  /** Everything but the inserted block is as small as before. */
  lemma InsertSmall(mem: Memory, spans: seq<Span>, i: nat, bp: Span, n: int) returns (t: nat)
    requires Linked(mem, spans) && i < |spans| && bp.size >= n > 0 && !JoinsUpper(spans, i, bp)
    ensures var more := Insert(spans, i, bp);
            t < |more| && more[t].size >= bp.size && more[t].End() == bp.End() &&
            (Small(spans, n) ==> OnlyAt(more, t, n))
  {
    t := if JoinsLower(spans, i, bp) then i else i + 1;
  }

  function After(n: int, k: int): int {
    if k + 1 < n then k + 1 else 0
  }

  function Prior(n: int, k: int): int {
    if k == 0 then n - 1 else k - 1
  }

  ghost predicate Small(spans: seq<Span>, n: int) {
    forall i :: 0 <= i < |spans| ==> spans[i].size < n
  }

  /** The one span with n units. */
  ghost predicate OnlyAt(spans: seq<Span>, t: int, n: int) {
    0 <= t < |spans| && spans[t].size >= n && forall i :: 0 <= i < |spans| && i != t ==> spans[i].size < n
  }

  /** malloc()'s search, which set out from freep (position f) and is at position
      k.  Before morecore() has been called nothing it has passed has n units;
      afterwards something it has yet to reach, at position t, does. */
  ghost predicate Searching(spans: seq<Span>, first: seq<Span>, k: int, f: int, t: int, n: int, grown: bool) {
    && 0 <= f < |spans| && 0 <= k < |spans|
    && if grown then
         Small(first, n) && OnlyAt(spans, t, n) && Dist(|spans|, t, f) <= Dist(|spans|, k, f)
       else
         && spans == first
         && forall i :: 0 <= i < |spans| && Dist(|spans|, i, f) > Dist(|spans|, k, f) ==> spans[i].size < n
  }

  lemma SearchBegins(spans: seq<Span>, f: int, n: int)
    requires 0 <= f < |spans|
    ensures Searching(spans, spans, After(|spans|, f), f, 0, n, false)
  {
  }

  lemma SearchBeginsAgain(spans: seq<Span>, first: seq<Span>, f: int, t: int, n: int)
    requires 0 <= f < |spans| && OnlyAt(spans, t, n) && Small(first, n)
    ensures Searching(spans, first, After(|spans|, f), f, t, n, true)
  {
  }

  lemma SearchGoesOn(spans: seq<Span>, first: seq<Span>, k: int, f: int, t: int, n: int, grown: bool)
    requires Searching(spans, first, k, f, t, n, grown) && spans[k].size < n && k != f
    ensures Searching(spans, first, After(|spans|, k), f, t, n, grown)
    ensures 0 <= Dist(|spans|, After(|spans|, k), f) < Dist(|spans|, k, f)
  {
  }

  lemma SearchFails(spans: seq<Span>, first: seq<Span>, f: int, t: int, n: int, grown: bool)
    requires Searching(spans, first, f, f, t, n, grown) && spans[f].size < n
    ensures !grown && spans == first && Small(first, n)
  {
  }

  lemma SearchFinds(spans: seq<Span>, first: seq<Span>, k: int, f: int, t: int, n: int, grown: bool)
    requires Searching(spans, first, k, f, t, n, grown) && spans[k].size >= n
    ensures if grown then k == t else !Small(first, n)
  {
  }

  lemma NodeAt(mem: Memory, spans: seq<Span>, k: nat)
    requires Linked(mem, spans) && k < |spans|
    ensures spans[k].addr in mem && mem[spans[k].addr] == Header(spans[After(|spans|, k)].addr, spans[k].size)
    ensures k == 0 ==> spans[k].size == 0
    ensures 0 < k ==> spans[k - 1].addr in mem
  {
    assert Node(mem, spans, k);
    assert 0 < k ==> Node(mem, spans, k - 1);
  }

  lemma SamePlace(mem: Memory, spans: seq<Span>, i: nat, j: nat)
    requires Linked(mem, spans) && i < |spans| && j < |spans| && spans[i].addr == spans[j].addr
    ensures i == j
  {
  }

  ghost predicate AllBacked(owned: set<int>, backed: set<int>, top: int) {
    owned <= backed && forall u :: u in backed ==> u < top
  }

  class Heap {
    const base: int
    var mem: Memory
    var freep: int
    ghost var spans: seq<Span>          // the free list, from base, in address order
    ghost var live: map<int, int>       // blocks in use: header address to size
    ghost var owned: set<int>           // units that morecore takes to be obtained from sbrk
    ghost var backed: set<int>          // units that are
    ghost var top: int

    ghost predicate Valid()
      reads this
    {
      && NULL < base < top
      && (freep == NULL ==> spans == [] && live == map[] && owned == {})
      && (freep != NULL ==>
            && Good(mem, spans, live, owned, base, top)
            && exists f :: 0 <= f < |spans| && spans[f].addr == freep)
    }

    /** There is memory behind every block. */
    ghost predicate Backed()
      reads this
    {
      AllBacked(owned, backed, top)
    }

    constructor (base: int)
      requires NULL < base
      ensures Valid() && Backed() && this.base == base && live == map[] && owned == {} && top == base + 1 && spans == []
    {
      this.base, backed := base, {};
      mem, freep, spans, live, owned, top := map[], NULL, [], map[], {}, base + 1;
    }

    /** free()'s search, round the list from freep: the free block after which bp
        belongs. */
    method FindPlace(bp: int) returns (p: int, ghost i: nat)
      requires Valid() && bp in live
      ensures i < |spans| && p == spans[i].addr && Fits(spans, i, Span(bp, live[bp])) && base < bp
      ensures exists t :: 0 <= t < |spans| && spans[t].addr == p && Fits(spans, t, Span(bp, live[bp]))
    {
      i := Target(bp);
      ghost var k :| 0 <= k < |spans| && spans[k].addr == freep;
      p := freep;
      SearchStops(mem, spans, k, i, bp);
      while !(bp > p && bp < mem[p].ptr)
        invariant 0 <= k < |spans| && p == spans[k].addr && p in mem
        decreases Dist(|spans|, k, i)
      {
        SearchStops(mem, spans, k, i, bp);
        if p >= mem[p].ptr && (bp > p || bp < mem[p].ptr) {
          break;
        }
        p := mem[p].ptr;
        k := if k + 1 < |spans| then k + 1 else 0;
        SearchStops(mem, spans, k, i, bp);
      }
      SearchStops(mem, spans, k, i, bp);
      FoundFits(mem, spans, live, owned, base, top, i, bp);
    }

    /** free() of the block whose header is at bp: it goes where address order
        puts it, joined with the free blocks it touches. */
    method Free(bp: int)
      requires Valid() && bp in live
      modifies this`mem, this`freep, this`spans, this`live
      ensures Valid() && freep != NULL && live == old(live) - {bp}
      ensures Covered(spans) == Covered(old(spans)) + Units(Span(bp, old(live)[bp]))
      ensures exists i :: 0 <= i < |old(spans)| && Fits(old(spans), i, Span(bp, old(live)[bp]))
                          && spans == Insert(old(spans), i, Span(bp, old(live)[bp])) && freep == old(spans)[i].addr
    {
      hide Covered, InUse, Insert;
      var p, i := FindPlace(bp);
      FreedGood(mem, spans, live, owned, base, top, i, bp);
      InsertCovers(spans, i, Span(bp, live[bp]));
      NotLive(mem, spans, live, owned, base, top, i);
      Link(p, bp);
      spans, live := Insert(spans, i, Span(bp, live[bp])), live - {bp};
      freep := p;
      assert spans[i].addr == freep;
    }

    /** The assignments after free()'s search. */
    method Link(p: int, bp: int)
      requires p in mem && bp in mem && mem[p].ptr in mem && p != bp
      modifies this`mem
      ensures mem == Inserted(old(mem), p, bp)
    {
      var next := mem[p].ptr;
      if bp + mem[bp].size == next {
        mem := mem[bp := mem[bp].(size := mem[bp].size + mem[next].size)];
        mem := mem[bp := mem[bp].(ptr := mem[next].ptr)];
      } else {
        mem := mem[bp := mem[bp].(ptr := next)];
      }
      if p + mem[p].size == bp {
        mem := mem[p := mem[p].(size := mem[p].size + mem[bp].size)];
        mem := mem[p := mem[p].(ptr := mem[bp].ptr)];
      } else {
        mem := mem[p := mem[p].(ptr := bp)];
      }
    }

    ghost method Target(bp: int) returns (t: nat)
      requires Valid() && bp in live
      ensures t < |spans| && spans[t].addr < bp && (t + 1 < |spans| ==> bp < spans[t + 1].addr)
      ensures Linked(mem, spans) && bp in mem && forall k :: 0 <= k < |spans| ==>
                spans[k].addr != bp && spans[k].addr in mem
    {
      forall k: nat | k < |spans|
        ensures spans[k].addr != bp && base < bp && spans[k].size >= 0 && spans[k].addr in mem
      {
        FreeIsNotLive(mem, spans, live, owned, base, top, k, bp);
        assert Node(mem, spans, k);
      }
      t := LastBelow(spans, bp, |spans|);
    }

    /** Ask sbrk for at least nu units and free them into the list; sbrk answers
        `grant`: -1, or an address above everything obtained before. */
    method Morecore(nu: nat, grant: int) returns (p: int)
      requires Valid() && freep != NULL && 0 < nu
      requires grant == -1 || top <= grant
      modifies this
      ensures Valid() && freep != NULL && live == old(live)
      ensures grant == -1 ==>
                && p == NULL && spans == old(spans) && owned == old(owned) && freep == old(freep) && mem == old(mem)
                && backed == old(backed) && top == old(top)
      ensures grant != -1 ==>
                && p == freep && owned == old(owned) + Units(Span(grant, Asked(nu))) && top == grant + Asked(nu)
                && backed == Sbrk(old(backed), grant, SbrkBytes(Asked(nu)))
                && exists t :: 0 <= t < |spans| && spans[t].size >= nu && spans[t].End() == top
                               && (Small(old(spans), nu) ==> OnlyAt(spans, t, nu))
    {
      hide Covered, InUse, Insert, Units, Linked, LiveOk, Partition, Sbrk, SbrkBytes;
      var n := if nu < MINUNITS then MINUNITS else nu;
      if grant == -1 {
        return NULL;
      }
      var hp := grant;
      ghost var was, mem0 := spans, mem;
      backed := Sbrk(backed, grant, SbrkBytes(n));
      var h := Header(if hp in mem then mem[hp].ptr else NULL, n);
      GrownGood(mem, spans, live, owned, base, top, h, hp);
      forall i: nat | i < |was| ensures was[i].addr < hp { SpanBelow(mem, spans, live, owned, base, top, i); }
      mem := mem[hp := h];
      live, owned, top := live[hp := n], owned + Units(Span(hp, n)), hp + n;
      Free(hp);
      ghost var i :| && 0 <= i < |was| && Fits(was, i, Span(hp, n))
                     && spans == Insert(was, i, Span(hp, n)) && freep == was[i].addr;
      ghost var t := InsertSmall(mem0, was, i, Span(hp, n), nu);
      assert spans[t].End() == top;
      assert live == old(live);
      return freep;
    }

    /** malloc: the header address of a block of Nunits(nbytes) units, or NULL.
        sbrk, if it is needed, answers `grant`. */
    method Malloc(nbytes: nat, grant: int) returns (r: int)
      requires Valid() && (grant == -1 || top <= grant) && nbytes < 0x1_0000_0000
      modifies this
      ensures Valid() && freep != NULL
      ensures r != NULL ==> r !in old(live) && live == old(live)[r := Nunits(nbytes)]
      ensures r == NULL ==> live == old(live) && grant == -1 && owned == old(owned)
      // sbrk is called exactly when no free block is large enough
      ensures !Small(old(spans), Nunits(nbytes)) ==> r != NULL && owned == old(owned) && backed == old(backed)
      ensures Small(old(spans), Nunits(nbytes)) ==>
                && (r == NULL <==> grant == -1)
                && owned == old(owned) + if grant == -1 then {} else Units(Span(grant, Asked(Nunits(nbytes))))
      // there is memory behind the block exactly if sbrk was not needed or could be asked for it
      ensures old(Backed()) && r != NULL ==>
                && (Units(Span(r, Nunits(nbytes))) <= backed
                    <==> !Small(old(spans), Nunits(nbytes)) || nbytes <= 0x7fff_ffe0)
                && (Backed() <==> !Small(old(spans), Nunits(nbytes)) || nbytes <= 0x7fff_ffe0)
    {
      hide Covered, InUse, Units, Good, SbrkBytes, Searching, Dist, Sbrk, AllBacked, OnlyAt;
      var n := Nunits(nbytes);
      if freep == NULL {
        Initialise();
      }
      ghost var first, grown, t := spans, false, 0;
      assert Small(first, n) <==> Small(old(spans), n);
      ghost var f, k := Anchor();
      var prevp, p := freep, mem[freep].ptr;
      SearchBegins(spans, f, n);
      while true
        invariant At(k, p, prevp) && Valid() && freep != NULL && live == old(live)
        invariant 0 <= f < |spans| && spans[f].addr == freep
        invariant Searching(spans, first, k, f, t, n, grown)
        invariant owned == old(owned) + if grown then Units(Span(grant, Asked(n))) else {}
        invariant backed == if grown then Sbrk(old(backed), grant, SbrkBytes(Asked(n))) else old(backed)
        invariant if grown then grant != -1 && Small(first, n) && top == grant + Asked(n)
                  else spans == first && top == old(top)
        invariant grown ==> 0 <= t < |spans| && spans[t].End() == top
        decreases !grown, Dist(|spans|, k, f)
      {
        if mem[p].size >= n {
          SearchFinds(spans, first, k, f, t, n, grown);
          r := TakeFrom(prevp, p, n, k);
          if AllBacked(old(owned), old(backed), old(top)) {
            Behind(r, nbytes, grant, old(backed), old(owned), old(top), grown);
          }
          return;
        }
        if p == freep {
          Same(k, f);
          SearchFails(spans, first, f, t, n, grown);
          p := Morecore(n, grant);
          if p == NULL {
            return NULL;
          }
          grown := true;
          t :| 0 <= t < |spans| && OnlyAt(spans, t, n) && spans[t].End() == top;
          f, k := Anchor();
          SearchBeginsAgain(spans, first, f, t, n);
        } else {
          SearchGoesOn(spans, first, k, f, t, n, grown);
          k := Step(k);
        }
        prevp := p;
        p := mem[p].ptr;
      }
    }

    /** Whether there is memory behind a block just handed out. */
    lemma Behind(r: int, nbytes: nat, grant: int, backed0: set<int>, owned0: set<int>, top0: int, grown: bool)
      requires Valid() && freep != NULL && nbytes < 0x1_0000_0000 && r in live && live[r] == Nunits(nbytes)
      requires owned == owned0 + if grown then Units(Span(grant, Asked(Nunits(nbytes)))) else {}
      requires backed == if grown then Sbrk(backed0, grant, SbrkBytes(Asked(Nunits(nbytes)))) else backed0
      requires if grown then top0 <= grant && top == grant + Asked(live[r]) && r + live[r] == top else top == top0
      requires AllBacked(owned0, backed0, top0)
      ensures Units(Span(r, live[r])) <= backed <==> !grown || nbytes <= 0x7fff_ffe0
      ensures Backed() <==> !grown || nbytes <= 0x7fff_ffe0
    {
      hide Covered, InUse, SbrkBytes, Sbrk;
      forall u | u in Units(Span(r, live[r]))
        ensures u in owned
      {
        LiveIsOwned(mem, spans, live, owned, base, top, r, u);
      }
      if grown { SbrkBacks(backed0, grant, nbytes); }
    }

    /** A request for which sbrk is asked for 16 bytes: the block handed out is not
        all there. */
    static method HugeRequest(base: int, grant: int) returns (h: Heap, r: int)
      requires NULL < base && base < grant
      ensures fresh(h) && h.Valid() && r != NULL && r in h.live && h.live[r] == 0x1000_0001
      ensures !(Units(Span(r, 0x1000_0001)) <= h.backed)
    {
      h := new Heap(base);
      r := h.Malloc(0xffff_ffff, grant);
    }

    /** The search is at position k, and its two pointers agree. */
    ghost predicate At(k: int, p: int, prevp: int)
      reads this
    {
      && 0 <= k < |spans| && spans[k].addr == p && spans[Prior(|spans|, k)].addr == prevp
      && p in mem && mem[p].size == spans[k].size
    }

    lemma Anchor() returns (f: int, k: int)
      requires Valid() && freep != NULL
      ensures 0 <= f < |spans| && spans[f].addr == freep && freep in mem
      ensures k == After(|spans|, f) && At(k, mem[freep].ptr, freep)
    {
      f :| 0 <= f < |spans| && spans[f].addr == freep;
      k := After(|spans|, f);
      NodeAt(mem, spans, f);
      NodeAt(mem, spans, k);
    }

    lemma Step(k: int) returns (k': int)
      requires Valid() && freep != NULL && 0 <= k < |spans|
      ensures k' == After(|spans|, k) && spans[k].addr in mem && At(k', mem[spans[k].addr].ptr, spans[k].addr)
    {
      k' := After(|spans|, k);
      NodeAt(mem, spans, k);
      NodeAt(mem, spans, k');
    }

    lemma Same(k: int, f: int)
      requires Valid() && freep != NULL && 0 <= k < |spans| && 0 <= f < |spans| && spans[k].addr == spans[f].addr
      ensures k == f
    {
      SamePlace(mem, spans, k, f);
    }

    method TakeFrom(prevp: int, p: int, n: nat, ghost k: int) returns (r: int)
      requires Valid() && freep != NULL && At(k, p, prevp) && 0 < n <= mem[p].size
      modifies this`mem, this`freep, this`spans, this`live
      ensures Valid() && freep != NULL && r != NULL
      ensures r !in old(live) && live == old(live)[r := n] && r + n == old(spans)[k].End()
      ensures Covered(old(spans)) == Covered(spans) + Units(Span(r, n)) && Covered(spans) !! Units(Span(r, n))
    {
      hide Covered, InUse, Units, LiveOk, Partition, Carved, Take, Linked;
      NodeAt(mem, spans, k);
      TakenGood(mem, spans, live, owned, base, top, k, n);
      TakenCover(k, n);
      r := CarveAt(prevp, p, n);
      live, spans := live[r := n], Take(spans, k, n);
      freep := prevp;
      assert spans[k - 1].addr == freep;
    }

    lemma TakenCover(k: int, n: nat)
      requires Valid() && freep != NULL && 0 <= k < |spans| && 0 < n <= spans[k].size
      ensures var taken := Units(Span(spans[k].addr + spans[k].size - n, n));
              Covered(spans) == Covered(Take(spans, k, n)) + taken && Covered(Take(spans, k, n)) !! taken
    {
      TakeCovers(spans, k, n);
    }

    method Initialise()
      requires Valid() && freep == NULL
      modifies this`mem, this`freep, this`spans
      ensures Valid() && freep == base && spans == [Span(base, 0)]
    {
      mem := mem[base := Header(base, 0)];
      freep := base;
      spans := [Span(base, 0)];
      CoveredOne(spans[0]);
      assert Node(mem, spans, 0);
    }

    /** malloc()'s assignments on finding a block that is large enough. */
    method CarveAt(prevp: int, block: int, n: nat) returns (p: int)
      requires block in mem && prevp in mem && n <= mem[block].size
      modifies this`mem
      ensures mem == Carved(old(mem), prevp, block, n) && p == block + old(mem)[block].size - n
    {
      p := block;
      if mem[p].size == n {
        mem := mem[prevp := mem[prevp].(ptr := mem[p].ptr)];
      } else {
        mem := mem[p := mem[p].(size := mem[p].size - n)];
        p := p + mem[p].size;
        mem := mem[p := Header(if p in mem then mem[p].ptr else NULL, n)];
      }
    }
  }
}
