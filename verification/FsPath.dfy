/** Path names, taken apart one element at a time. */
module FsPath {
  import opened Base
  import opened FsBase
  import FsDir

  const SLASH: Byte := 47

  /** The elements of a path: what lies between slashes. */
  function Elements(path: seq<Byte>): seq<seq<Byte>> {
    if path == [] then []
    else if path[0] == SLASH then Elements(path[1..])
    else
      var rest := Elements(path[1..]);
      if |path| == 1 || path[1] == SLASH || rest == [] then [[path[0]]] + rest
      else [[path[0]] + rest[0]] + rest[1..]
  }

  /** Elements joined by single slashes. */
  function Joined(es: seq<seq<Byte>>): seq<Byte> {
    if es == [] then [] else if |es| == 1 then es[0] else es[0] + [SLASH] + Joined(es[1..])
  }

  ghost predicate IsElement(e: seq<Byte>) {
    e != [] && forall i :: 0 <= i < |e| ==> e[i] != SLASH
  }

  /** An element and then a slash or the end. */
  lemma {:induction false} FirstElement(e: seq<Byte>, rest: seq<Byte>)
    requires IsElement(e) && (rest == [] || rest[0] == SLASH)
    ensures Elements(e + rest) == [e] + Elements(rest)
  {
    var path := e + rest;
    assert path[1..] == e[1..] + rest;
    if |e| > 1 {
      FirstElement(e[1..], rest);
      assert path[1] == e[1];
      assert [e[0]] + e[1..] == e;
    } else {
      assert e == [e[0]] && path[1..] == rest;
    }
  }

  /** Joining elements and taking them apart again gives the elements. */
  lemma {:induction false} JoinedElements(es: seq<seq<Byte>>)
    requires forall i :: 0 <= i < |es| ==> IsElement(es[i])
    ensures Elements(Joined(es)) == es
  {
    if |es| == 1 {
      FirstElement(es[0], []);
      assert es[0] + [] == es[0];
    } else if |es| > 1 {
      var tail := Joined(es[1..]);
      JoinedElements(es[1..]);
      FirstElement(es[0], [SLASH] + tail);
      assert es[0] + [SLASH] + tail == es[0] + ([SLASH] + tail);
      assert ([SLASH] + tail)[1..] == tail;
    }
  }

  lemma {:induction false} SlashesSkip(path: seq<Byte>, k: nat)
    requires k <= |path| && forall i :: 0 <= i < k ==> path[i] == SLASH
    ensures Elements(path[k..]) == Elements(path)
  {
    if k > 0 {
      SlashesSkip(path[1..], k - 1);
      assert path[1..][k - 1..] == path[k..];
    } else {
      assert path[0..] == path;
    }
  }

  /** The first element, cut to DIRSIZ characters as a name, and the path after it
      without leading slashes; found is false when there is no element left. */
  method Skipelem(path: seq<Byte>) returns (found: bool, name: seq<Byte>, rest: seq<Byte>)
    requires 0 !in path
    ensures found <==> Elements(path) != []
    ensures found ==> FsDir.Pad(name) == FsDir.Pad(Elements(path)[0]) && |name| <= FsDir.DIRSIZ
    ensures found ==> Elements(rest) == Elements(path)[1..] && (rest != [] ==> rest[0] != SLASH)
    ensures found ==> (rest == [] <==> |Elements(path)| == 1)
  {
    hide Elements, FsDir.Pad;
    var i := 0;
    while i < |path| && path[i] == SLASH
      invariant 0 <= i <= |path| && forall k :: 0 <= k < i ==> path[k] == SLASH
    {
      i := i + 1;
    }
    SlashesSkip(path, i);
    if i == |path| {
      NoElements(path[i..]);
      return false, [], [];
    }
    var s := i;
    while i < |path| && path[i] != SLASH
      invariant s <= i <= |path| && forall k :: s <= k < i ==> path[k] != SLASH
    {
      i := i + 1;
    }
    var e := path[s..i];
    FirstElement(e, path[i..]);
    assert e + path[i..] == path[s..];
    name := if |e| >= FsDir.DIRSIZ then e[..FsDir.DIRSIZ] else e;
    CutName(e);
    ghost var after := i;
    while i < |path| && path[i] == SLASH
      invariant after <= i <= |path| && forall k :: after <= k < i ==> path[k] == SLASH
    {
      i := i + 1;
    }
    SlashesSkip(path[after..], i - after);
    assert path[after..][i - after..] == path[i..];
    rest := path[i..];
    if rest == [] { NoElements(rest); } else { SomeElement(rest); }
    return true, name, rest;
  }

  lemma NoElements(path: seq<Byte>)
    requires path == []
    ensures Elements(path) == []
  {
  }

  lemma SomeElement(path: seq<Byte>)
    requires path != [] && path[0] != SLASH
    ensures Elements(path) != []
  {
  }

  lemma CutName(e: seq<Byte>)
    requires 0 !in e
    ensures FsDir.Pad(if |e| >= FsDir.DIRSIZ then e[..FsDir.DIRSIZ] else e) == FsDir.Pad(e)
  {
    if |e| >= FsDir.DIRSIZ {
      var d := e[..FsDir.DIRSIZ];
      assert forall i :: 0 <= i < FsDir.DIRSIZ ==> FsDir.At(d, i) == FsDir.At(e, i) != 0;
    }
  }
}
