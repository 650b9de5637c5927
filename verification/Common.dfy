/** Small datatypes and facts about sequences shared by the models. */
module Common {

  datatype Option<+T> = None | Some(value: T)

  datatype Result<+T, +E> = Ok(value: T) | Err(error: E)

  newtype byte = x: int | 0 <= x < 256

  type Bytes = seq<byte>

  /** The bytes of an ASCII text. */
  function Ascii(s: string): (b: Bytes)
    requires forall i | 0 <= i < |s| :: s[i] as int < 128
    ensures |b| == |s| && forall i | 0 <= i < |s| :: b[i] as char == s[i]
  {
    seq(|s|, i requires 0 <= i < |s| => s[i] as int as byte)
  }

  lemma Assoc<T>(a: seq<T>, b: seq<T>, c: seq<T>)
    ensures a + b + c == a + (b + c)
  {
  }

  lemma FrontOfAppend<T>(a: seq<T>, b: seq<T>)
    requires b != []
    ensures (a + b)[..|a + b| - 1] == a + b[..|b| - 1] && (a + b)[|a + b| - 1] == b[|b| - 1]
  {
  }

  /** Equal sequences whose first parts are equally long have equal parts. */
  lemma CancelPrefix<T>(p: seq<T>, x: seq<T>, q: seq<T>, y: seq<T>)
    requires p + x == q + y && |p| == |q|
    ensures p == q && x == y
  {
    assert p == (p + x)[..|p|] && x == (p + x)[|p|..];
    assert q == (q + y)[..|q|] && y == (q + y)[|q|..];
  }
}
