/** Bytes and their lines. */
module ByteLines {
  import opened Common

  const NEWLINE: byte := 10

  /** data: */
  const DATA: Bytes := [100, 97, 116, 97, 58]

  /** Where the first line ends. */
  function LineEnd(s: Bytes): (n: nat)
    ensures n <= |s|
    ensures n < |s| ==> s[n] == NEWLINE
  {
    if s == [] || s[0] == NEWLINE then 0 else 1 + LineEnd(s[1..])
  }

  /** All lines of some bytes; the last is what follows the last newline. */
  function Lines(s: Bytes): (r: seq<Bytes>)
    ensures r != []
    decreases |s|
  {
    var n := LineEnd(s);
    if n == |s| then [s] else [s[..n]] + Lines(s[n + 1..])
  }
}
