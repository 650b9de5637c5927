/** The metadata header of a .gguf file: what a writer lays out and what the reader makes of any
    bytes, as functions of the whole file and a position in it. */
module GgufFormat {
  import opened Common

  const UINT8: nat := 0
  const INT8: nat := 1
  const UINT16: nat := 2
  const INT16: nat := 3
  const UINT32: nat := 4
  const INT32: nat := 5
  const FLOAT32: nat := 6
  const BOOL: nat := 7
  const STRING: nat := 8
  const ARRAY: nat := 9
  const UINT64: nat := 10
  const INT64: nat := 11
  const FLOAT64: nat := 12

  const MAX_KV_COUNT: nat := 1048576
  const MAX_STRING_LEN: nat := 16777216
  const MAX_ARRAY_LEN: nat := 16777216
  const MAX_HEADER_BYTES: nat := 268435456

  const MAGIC: Bytes := [71, 71, 85, 70]

  // ---- little-endian numbers ----

  function Pow256(w: nat): (r: nat)
    ensures r > 0
  {
    if w == 0 then 1 else 256 * Pow256(w - 1)
  }

  function ToLE(n: nat, w: nat): (r: Bytes)
    ensures |r| == w
  {
    if w == 0 then [] else [(n % 256) as byte] + ToLE(n / 256, w - 1)
  }

  function FromLE(b: Bytes): nat {
    if b == [] then 0 else b[0] as nat + 256 * FromLE(b[1..])
  }

  lemma {:induction false} LERoundTrip(n: nat, w: nat)
    requires n < Pow256(w)
    ensures FromLE(ToLE(n, w)) == n
  {
    if w > 0 {
      assert n / 256 < Pow256(w - 1);
      LERoundTrip(n / 256, w - 1);
      assert ToLE(n, w)[1..] == ToLE(n / 256, w - 1);
    }
  }

  /** Two's complement of a given width. */
  function ToSigned(u: nat, w: nat): int {
    if 2 * u >= Pow256(w) then u - Pow256(w) else u
  }

  function FromSigned(v: int, w: nat): nat
    requires v + Pow256(w) >= 0
  {
    if v < 0 then v + Pow256(w) else v
  }

  // ---- values ----

  /** A scalar as normalised: an integer, a bool, or a float kept as its bits. */
  datatype Scalar = Int(i: int) | Bool(b: bool) | Float(wide: bool, bits: Bytes)

  datatype Norm =
    | One(scalar: Scalar)
    | Str(s: Bytes)
    | Ints(ints: seq<int>)
    | Bools(bools: seq<bool>)
    | Floats(floats: seq<Scalar>)
    | Strs(strs: seq<Bytes>)

  type Metadata = map<Bytes, Norm>

  datatype Error =
    | HeaderTooBig | ShortRead | LongString | LongArray | UnknownType(t: nat) | NestedArray | NotIntegral
    | BadMagic | TooManyKeys

  function Width(t: nat): nat {
    if t == UINT8 || t == INT8 || t == BOOL then 1
    else if t == UINT16 || t == INT16 then 2
    else if t == UINT32 || t == INT32 || t == FLOAT32 then 4
    else if t == UINT64 || t == INT64 || t == FLOAT64 then 8
    else 0
  }

  predicate IsSigned(t: nat) {
    t == INT8 || t == INT16 || t == INT32 || t == INT64
  }

  predicate IsIntegral(t: nat) {
    IsSigned(t) || t == UINT8 || t == UINT16 || t == UINT32 || t == UINT64
  }

  predicate IsFloat(t: nat) {
    t == FLOAT32 || t == FLOAT64
  }

  /** What the bytes of a scalar denote to the reader; an unsigned 64-bit value is taken as signed. */
  function Denoted(t: nat, b: Bytes): Scalar {
    if t == BOOL then Bool(b != [] && b[0] != 0)
    else if IsFloat(t) then Float(t == FLOAT64, b)
    else if IsSigned(t) || t == UINT64 then Int(ToSigned(FromLE(b), |b|))
    else Int(FromLE(b))
  }

  // ---- what the reader makes of a file ----

  /** A value read and where the next one starts. */
  datatype Got<T> = Got(value: T, next: nat)

  function Take(f: Bytes, at: nat, n: nat): Result<Bytes, Error> {
    if at + n > MAX_HEADER_BYTES then Err(HeaderTooBig)
    else if at + n > |f| then Err(ShortRead)
    else Ok(f[at..at + n])
  }

  function TakeNumber(f: Bytes, at: nat, w: nat): Result<Got<nat>, Error> {
    var b := Take(f, at, w);
    if b.Err? then Err(b.error) else Ok(Got(FromLE(b.value), at + w))
  }

  function TakeString(f: Bytes, at: nat): Result<Got<Bytes>, Error> {
    var n := TakeNumber(f, at, 8);
    if n.Err? then Err(n.error)
    else if n.value.value > MAX_STRING_LEN then Err(LongString)
    else
      var b := Take(f, n.value.next, n.value.value);
      if b.Err? then Err(b.error) else Ok(Got(b.value, n.value.next + n.value.value))
  }

  function TakeScalar(f: Bytes, at: nat, t: nat): Result<Got<Scalar>, Error> {
    if Width(t) == 0 then Err(UnknownType(t))
    else
      var b := Take(f, at, Width(t));
      if b.Err? then Err(b.error) else Ok(Got(Denoted(t, b.value), at + Width(t)))
  }

  function TakeScalars(f: Bytes, at: nat, t: nat, n: nat): Result<Got<seq<Scalar>>, Error> {
    if n == 0 then Ok(Got([], at))
    else
      var most := TakeScalars(f, at, t, n - 1);
      if most.Err? then Err(most.error)
      else
        var s := TakeScalar(f, most.value.next, t);
        if s.Err? then Err(s.error) else Ok(Got(most.value.value + [s.value.value], s.value.next))
  }

  function TakeStrings(f: Bytes, at: nat, n: nat): Result<Got<seq<Bytes>>, Error> {
    if n == 0 then Ok(Got([], at))
    else
      var most := TakeStrings(f, at, n - 1);
      if most.Err? then Err(most.error)
      else
        var s := TakeString(f, most.value.next);
        if s.Err? then Err(s.error) else Ok(Got(most.value.value + [s.value.value], s.value.next))
  }

  function IntsOf(ss: seq<Scalar>): seq<int> {
    if ss == [] then [] else IntsOf(ss[..|ss| - 1]) + [if ss[|ss| - 1].Int? then ss[|ss| - 1].i else 0]
  }

  function BoolsOf(ss: seq<Scalar>): seq<bool> {
    if ss == [] then [] else BoolsOf(ss[..|ss| - 1]) + [ss[|ss| - 1].Bool? && ss[|ss| - 1].b]
  }

  function TakeArray(f: Bytes, at: nat, t: nat, n: nat): Result<Got<Norm>, Error> {
    if t == STRING then
      var ss := TakeStrings(f, at, n);
      if ss.Err? then Err(ss.error) else Ok(Got(Strs(ss.value.value), ss.value.next))
    else if t == ARRAY then Err(NestedArray)
    else
      var ss := TakeScalars(f, at, t, n);
      if ss.Err? then Err(ss.error)
      else Ok(Got(if t == BOOL then Bools(BoolsOf(ss.value.value))
                  else if IsFloat(t) then Floats(ss.value.value)
                  else Ints(IntsOf(ss.value.value)), ss.value.next))
  }

  function TakeValue(f: Bytes, at: nat, t: nat): Result<Got<Norm>, Error> {
    if t == STRING then
      var s := TakeString(f, at);
      if s.Err? then Err(s.error) else Ok(Got(Str(s.value.value), s.value.next))
    else if t == ARRAY then
      var e := TakeNumber(f, at, 4);
      if e.Err? then Err(e.error)
      else
        var n := TakeNumber(f, e.value.next, 8);
        if n.Err? then Err(n.error)
        else if n.value.value > MAX_ARRAY_LEN then Err(LongArray)
        else TakeArray(f, n.value.next, e.value.value, n.value.value)
    else
      var s := TakeScalar(f, at, t);
      if s.Err? then Err(s.error) else Ok(Got(One(s.value.value), s.value.next))
  }

  function TakePair(f: Bytes, at: nat): Result<Got<(Bytes, Norm)>, Error> {
    var key := TakeString(f, at);
    if key.Err? then Err(key.error)
    else
      var t := TakeNumber(f, key.value.next, 4);
      if t.Err? then Err(t.error)
      else
        var v := TakeValue(f, t.value.next, t.value.value);
        if v.Err? then Err(v.error) else Ok(Got((key.value.value, v.value.value), v.value.next))
  }

  function TakePairs(f: Bytes, at: nat, n: nat): Result<Got<Metadata>, Error> {
    if n == 0 then Ok(Got(map[], at))
    else
      var most := TakePairs(f, at, n - 1);
      if most.Err? then Err(most.error)
      else
        var p := TakePair(f, most.value.next);
        if p.Err? then Err(p.error) else Ok(Got(most.value.value[p.value.value.0 := p.value.value.1], p.value.next))
  }

  function TakeHeader(f: Bytes): Result<Got<Metadata>, Error> {
    var magic := Take(f, 0, 4);
    if magic.Err? then Err(magic.error)
    else if magic.value != MAGIC then Err(BadMagic)
    else
      var version := TakeNumber(f, 4, 4);
      if version.Err? then Err(version.error)
      else
        var tensors := TakeNumber(f, 8, 8);
        if tensors.Err? then Err(tensors.error)
        else
          var n := TakeNumber(f, 16, 8);
          if n.Err? then Err(n.error)
          else if n.value.value > MAX_KV_COUNT then Err(TooManyKeys)
          else TakePairs(f, 24, n.value.value)
  }

  // ---- reading goes forward, stays in bounds, and looks at nothing beyond ----

  ghost predicate Sound<T>(f: Bytes, at: nat, r: Result<Got<T>, Error>) {
    r.Ok? ==>
      var next := r.value.next;
      at <= next && (at <= |f| ==> next <= |f|) && (at <= MAX_HEADER_BYTES ==> next <= MAX_HEADER_BYTES)
  }

  lemma {:induction false} ScalarsSound(f: Bytes, at: nat, t: nat, n: nat)
    ensures Sound(f, at, TakeScalars(f, at, t, n))
  {
    if n > 0 { ScalarsSound(f, at, t, n - 1); }
  }

  lemma {:induction false} StringsSound(f: Bytes, at: nat, n: nat)
    ensures Sound(f, at, TakeStrings(f, at, n))
  {
    if n > 0 { StringsSound(f, at, n - 1); }
  }

  lemma ValueSound(f: Bytes, at: nat, t: nat)
    ensures Sound(f, at, TakeValue(f, at, t))
  {
    if t == ARRAY {
      var e := TakeNumber(f, at, 4);
      if e.Ok? {
        var n := TakeNumber(f, e.value.next, 8);
        if n.Ok? {
          ScalarsSound(f, n.value.next, e.value.value, n.value.value);
          StringsSound(f, n.value.next, n.value.value);
        }
      }
    }
  }

  lemma PairSound(f: Bytes, at: nat)
    ensures Sound(f, at, TakePair(f, at))
  {
    var key := TakeString(f, at);
    if key.Ok? {
      var t := TakeNumber(f, key.value.next, 4);
      if t.Ok? { ValueSound(f, t.value.next, t.value.value); }
    }
  }

  lemma {:induction false} PairsSound(f: Bytes, at: nat, n: nat)
    ensures Sound(f, at, TakePairs(f, at, n))
  {
    hide TakePair;
    if n > 0 {
      PairsSound(f, at, n - 1);
      var most := TakePairs(f, at, n - 1);
      if most.Ok? { PairSound(f, most.value.next); }
    }
  }

  /** Whatever the file, a header that is read ends within the file and within the limit. */
  lemma {:induction false} HeaderWithinBounds(f: Bytes)
    ensures TakeHeader(f).Ok? ==> TakeHeader(f).value.next <= |f| && TakeHeader(f).value.next <= MAX_HEADER_BYTES
  {
    var n := TakeNumber(f, 16, 8);
    if n.Ok? { PairsSound(f, 24, n.value.value); }
  }

  lemma TakeAgrees(f: Bytes, g: Bytes, at: nat, n: nat)
    requires f <= g && Take(f, at, n).Ok?
    ensures Take(g, at, n) == Take(f, at, n)
  {
    assert g[..|f|] == f;
    assert f[at..at + n] == g[at..at + n];
  }

  lemma StringAgrees(f: Bytes, g: Bytes, at: nat)
    requires f <= g && TakeString(f, at).Ok?
    ensures TakeString(g, at) == TakeString(f, at)
  {
    TakeAgrees(f, g, at, 8);
    var n := TakeNumber(f, at, 8).value;
    TakeAgrees(f, g, n.next, n.value);
  }

  lemma {:induction false} ScalarsAgree(f: Bytes, g: Bytes, at: nat, t: nat, n: nat)
    requires f <= g && TakeScalars(f, at, t, n).Ok?
    ensures TakeScalars(g, at, t, n) == TakeScalars(f, at, t, n)
  {
    if n > 0 {
      ScalarsAgree(f, g, at, t, n - 1);
      TakeAgrees(f, g, TakeScalars(f, at, t, n - 1).value.next, Width(t));
    }
  }

  lemma {:induction false} StringsAgree(f: Bytes, g: Bytes, at: nat, n: nat)
    requires f <= g && TakeStrings(f, at, n).Ok?
    ensures TakeStrings(g, at, n) == TakeStrings(f, at, n)
  {
    if n > 0 {
      StringsAgree(f, g, at, n - 1);
      StringAgrees(f, g, TakeStrings(f, at, n - 1).value.next);
    }
  }

  lemma ValueAgrees(f: Bytes, g: Bytes, at: nat, t: nat)
    requires f <= g && TakeValue(f, at, t).Ok?
    ensures TakeValue(g, at, t) == TakeValue(f, at, t)
  {
    if t == STRING {
      StringAgrees(f, g, at);
    } else if t == ARRAY {
      TakeAgrees(f, g, at, 4);
      var e := TakeNumber(f, at, 4).value;
      TakeAgrees(f, g, e.next, 8);
      var n := TakeNumber(f, e.next, 8).value;
      if e.value == STRING {
        StringsAgree(f, g, n.next, n.value);
      } else {
        ScalarsAgree(f, g, n.next, e.value, n.value);
      }
    } else {
      TakeAgrees(f, g, at, Width(t));
    }
  }

  lemma PairAgrees(f: Bytes, g: Bytes, at: nat)
    requires f <= g && TakePair(f, at).Ok?
    ensures TakePair(g, at) == TakePair(f, at)
  {
    StringAgrees(f, g, at);
    var key := TakeString(f, at).value;
    TakeAgrees(f, g, key.next, 4);
    var t := TakeNumber(f, key.next, 4).value;
    ValueAgrees(f, g, t.next, t.value);
  }

  lemma {:induction false} PairsAgree(f: Bytes, g: Bytes, at: nat, n: nat)
    requires f <= g && TakePairs(f, at, n).Ok?
    ensures TakePairs(g, at, n) == TakePairs(f, at, n)
  {
    if n > 0 {
      PairsAgree(f, g, at, n - 1);
      PairAgrees(f, g, TakePairs(f, at, n - 1).value.next);
    }
  }

  /** A header that is read from a file is read alike from any longer one. */
  lemma HeaderAgrees(f: Bytes, g: Bytes)
    requires f <= g && TakeHeader(f).Ok?
    ensures TakeHeader(g) == TakeHeader(f)
  {
    TakeAgrees(f, g, 0, 4);
    TakeAgrees(f, g, 4, 4);
    TakeAgrees(f, g, 8, 8);
    TakeAgrees(f, g, 16, 8);
    PairsAgree(f, g, 24, TakeNumber(f, 16, 8).value.value);
  }
}
