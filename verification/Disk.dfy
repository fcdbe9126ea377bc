/** The disk as the storage stack sees it: numbered blocks of 256 32-bit words,
    changed one whole block at a time.  A crash may fall between any two writes,
    so what an operation can leave behind is the effect of a prefix of the
    sequence of writes it issues. */
module Disk {
  import opened Base
  const MAXOPBLOCKS := 10
  const LOGSIZE := MAXOPBLOCKS * 3
  const WORDS := BSIZE / 4

  type Block = b: seq<int> | |b| == WORDS witness seq(WORDS, _ => 0)

  type Store = map<int, Block>

  datatype Write = Write(no: int, data: Block)

  /** The store after the given writes, in order. */
  function Apply(d: Store, ws: seq<Write>): Store {
    if ws == [] then d
    else
      var w := ws[|ws| - 1];
      Apply(d, ws[..|ws| - 1])[w.no := w.data]
  }

  ghost predicate Touches(ws: seq<Write>, no: int) {
    exists i :: 0 <= i < |ws| && ws[i].no == no
  }

  lemma {:induction false} ApplyConcat(d: Store, a: seq<Write>, b: seq<Write>)
    ensures Apply(d, a + b) == Apply(Apply(d, a), b)
  {
    if b == [] {
      assert a + b == a;
    } else {
      assert (a + b)[..|a + b| - 1] == a + b[..|b| - 1];
      ApplyConcat(d, a, b[..|b| - 1]);
    }
  }

  lemma ApplyOne(d: Store, w: Write)
    ensures Apply(d, [w]) == d[w.no := w.data]
  {
    assert [w][..0] == [];
  }

  lemma ApplyNext(d: Store, past: seq<Write>, ws: seq<Write>, k: nat)
    requires k < |ws|
    ensures past + ws[..k + 1] == past + ws[..k] + [ws[k]]
    ensures Apply(d, ws[..k + 1]) == Apply(d, ws[..k])[ws[k].no := ws[k].data]
  {
    assert ws[..k + 1][..k] == ws[..k];
  }

  lemma {:induction false} ApplyKeys(d: Store, ws: seq<Write>)
    requires forall i :: 0 <= i < |ws| ==> ws[i].no in d
    ensures Apply(d, ws).Keys == d.Keys
  {
    if ws != [] {
      ApplyKeys(d, ws[..|ws| - 1]);
      assert ws[|ws| - 1].no in d;
    }
  }

  lemma {:induction false} ApplyUntouched(d: Store, ws: seq<Write>, no: int)
    requires no in d && !Touches(ws, no)
    ensures no in Apply(d, ws) && Apply(d, ws)[no] == d[no]
  {
    if ws != [] {
      var init := ws[..|ws| - 1];
      assert !Touches(init, no) by {
        forall i | 0 <= i < |init| ensures init[i].no != no { assert init[i] == ws[i]; }
      }
      ApplyUntouched(d, init, no);
      assert ws[|ws| - 1].no != no;
    }
  }

  /** Writes that all carry the contents `f` gives their block. */
  lemma {:induction false} ApplyFrom(d: Store, ws: seq<Write>, f: Store, no: int)
    requires forall i :: 0 <= i < |ws| ==> ws[i].no in f && ws[i].data == f[ws[i].no]
    requires Touches(ws, no)
    ensures no in Apply(d, ws) && no in f && Apply(d, ws)[no] == f[no]
  {
    var init := ws[..|ws| - 1];
    if ws[|ws| - 1].no != no {
      var i :| 0 <= i < |ws| && ws[i].no == no;
      assert init[i].no == no;
      ApplyFrom(d, init, f, no);
    }
  }

  lemma {:induction false} ApplyDistinct(d: Store, ws: seq<Write>, i: nat)
    requires forall j, k :: 0 <= j < k < |ws| ==> ws[j].no != ws[k].no
    requires i < |ws|
    ensures ws[i].no in Apply(d, ws) && Apply(d, ws)[ws[i].no] == ws[i].data
  {
    if i < |ws| - 1 {
      ApplyDistinct(d, ws[..|ws| - 1], i);
    }
  }

  /** A block that is going to be written anyway may be changed beforehand. */
  lemma {:induction false} ApplyAbsorbs(d: Store, ws: seq<Write>, w: Write)
    requires Touches(ws, w.no)
    ensures Apply(d[w.no := w.data], ws) == Apply(d, ws)
  {
    var last := ws[|ws| - 1];
    var init := ws[..|ws| - 1];
    if Touches(init, w.no) {
      ApplyAbsorbs(d, init, w);
    } else {
      assert last.no == w.no;
      ApplyCommutes(d, init, w);
    }
  }

  lemma {:induction false} ApplyCommutes(d: Store, ws: seq<Write>, w: Write)
    requires !Touches(ws, w.no)
    ensures Apply(d[w.no := w.data], ws) == Apply(d, ws)[w.no := w.data]
  {
    if ws != [] {
      var init := ws[..|ws| - 1];
      assert !Touches(init, w.no) by {
        forall i | 0 <= i < |init| ensures init[i].no != w.no { assert init[i] == ws[i]; }
      }
      ApplyCommutes(d, init, w);
      assert ws[|ws| - 1].no != w.no;
    }
  }

  /** Starting over after any part of the work has been done changes nothing. */
  lemma {:induction false} Redo(d: Store, ws: seq<Write>, k: nat)
    requires k <= |ws|
    ensures Apply(Apply(d, ws[..k]), ws) == Apply(d, ws)
  {
    if k > 0 {
      assert ws[..k][..k - 1] == ws[..k - 1];
      assert Touches(ws, ws[k - 1].no);
      ApplyAbsorbs(Apply(d, ws[..k - 1]), ws, ws[k - 1]);
      Redo(d, ws, k - 1);
    } else {
      assert ws[..0] == [];
    }
  }

  lemma Reassociate<T>(p: seq<T>, a: seq<T>, b: seq<T>, c: seq<T>, d: seq<T>)
    ensures p + (a + b + c + d) == p + a + b + c + d
  {
  }
}
