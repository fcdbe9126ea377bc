/** What several modules share. */
module Base {
  newtype Byte = x: int | 0 <= x < 256

  const BSIZE := 1024              // bytes in a disk block
  const UINT := 0x1_0000_0000      // uint arithmetic is modulo this
  const USHORT := 0x1_0000         // and ushort arithmetic modulo this
  const NONE := -1                 // no process, CPU or channel

  ghost predicate Distinct(s: seq<int>) {
    forall i, j :: 0 <= i < j < |s| ==> s[i] != s[j]
  }
}
