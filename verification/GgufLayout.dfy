/** The layout of a .gguf header in literal bytes and numbers: the tags of the value types, what
    the bytes of each denote, and what a reader finds at which position. */
module GgufLayout {
  import opened Common
  import opened GgufFormat

  lemma Constants()
    ensures [UINT8, INT8, UINT16, INT16, UINT32, INT32, FLOAT32, BOOL, STRING, ARRAY, UINT64, INT64, FLOAT64] ==
      [0, 1, 2, 3, 4, 5, 6, 7, 8, 9, 10, 11, 12]
    ensures MAGIC == Ascii("GGUF")
    ensures MAX_KV_COUNT == 1024 * 1024 && MAX_STRING_LEN == 16 * 1024 * 1024
    ensures MAX_ARRAY_LEN == 16 * 1024 * 1024 && MAX_HEADER_BYTES == 256 * 1024 * 1024
  {
  }

  // ---- numbers ----

  /** Bytes read as a number, the lowest first. */
  function Low4(b: Bytes): nat
    requires |b| >= 4
  {
    b[0] as nat + 256 * b[1] as nat + 65536 * b[2] as nat + 16777216 * b[3] as nat
  }

  lemma FromLEStep(b: Bytes)
    requires b != []
    ensures FromLE(b) == b[0] as nat + 256 * FromLE(b[1..])
  {
  }

  lemma NumberIs(b: Bytes)
    ensures |b| == 1 ==> FromLE(b) == b[0] as nat
    ensures |b| == 2 ==> FromLE(b) == b[0] as nat + 256 * b[1] as nat
    ensures |b| == 4 ==> FromLE(b) == Low4(b)
    ensures |b| == 8 ==> FromLE(b) == Low4(b) + 4294967296 * Low4(b[4..])
  {
    hide FromLE;
    FromLENone();
    if |b| == 1 {
      OneByte(b);
    } else if |b| == 2 {
      TwoBytes(b);
    } else if |b| == 4 {
      FourBytes(b, []);
    } else if |b| == 8 {
      FourBytes(b[4..], []);
      FourBytes(b[..4], b[4..]);
      assert b[..4] + b[4..] == b;
    }
  }

  lemma FromLENone()
    ensures FromLE([]) == 0
  {
  }

  lemma OneByte(b: Bytes)
    requires |b| == 1
    ensures FromLE(b) == b[0] as nat
  {
    assert b[1..] == [];
  }

  lemma TwoBytes(b: Bytes)
    requires |b| == 2
    ensures FromLE(b) == b[0] as nat + 256 * b[1] as nat
  {
    OneByte(b[1..]);
  }

  lemma FourBytes(b: Bytes, rest: Bytes)
    requires |b| == 4
    ensures FromLE(b + rest) == Low4(b) + 4294967296 * FromLE(rest)
    ensures rest == [] ==> FromLE(b) == Low4(b)
  {
    hide FromLE;
    var c := b + rest;
    FromLEStep(c);
    FromLEStep(c[1..]);
    FromLEStep(c[1..][1..]);
    FromLEStep(c[1..][1..][1..]);
    assert c[1..][1..][1..][1..] == rest;
    FromLENone();
    assert rest == [] ==> c == b;
  }

  /** A number of so many bits as a signed one. */
  function Signed(u: nat, bound: nat): int {
    if u < bound / 2 then u else u - bound
  }

  // ---- scalars ----

  /** How many bytes a scalar of a type takes; none when the type is not one of a scalar. */
  function Size(t: nat): nat {
    if t in {0, 1, 7} then 1
    else if t in {2, 3} then 2
    else if t in {4, 5, 6} then 4
    else if t in {10, 11, 12} then 8
    else 0
  }

  /** What the bytes of a scalar denote: unsigned and signed integers of 1, 2 and 4 bytes, a bool,
      floats kept as bits, and integers of 8 bytes, both kinds taken as signed. */
  predicate Denotes(t: nat, b: Bytes, s: Scalar)
    requires |b| == Size(t) > 0
  {
    match t
    case 0 => s == Int(b[0] as int)
    case 1 => s == Int(Signed(b[0] as nat, 256))
    case 2 => s == Int(b[0] as nat + 256 * b[1] as nat)
    case 3 => s == Int(Signed(b[0] as nat + 256 * b[1] as nat, 65536))
    case 4 => s == Int(Low4(b))
    case 5 => s == Int(Signed(Low4(b), 4294967296))
    case 6 => s == Float(false, b)
    case 7 => s == Bool(b[0] != 0)
    case 12 => s == Float(true, b)
    case _ => s == Int(Signed(Low4(b) + 4294967296 * Low4(b[4..]), 18446744073709551616))
  }

  lemma Bounds()
    ensures Pow256(1) == 256 && Pow256(2) == 65536 && Pow256(4) == 4294967296 && Pow256(8) == 18446744073709551616
  {
    assert Pow256(3) == 16777216;
    assert Pow256(5) == 1099511627776;
    assert Pow256(6) == 281474976710656;
    assert Pow256(7) == 72057594037927936;
  }

  lemma ScalarDenotes(t: nat, b: Bytes)
    ensures Width(t) == Size(t)
    ensures |b| == Size(t) > 0 ==> Denotes(t, b, Denoted(t, b))
  {
    hide FromLE, Pow256, Low4;
    Bounds();
    if |b| == Size(t) > 0 { NumberIs(b); }
  }

  // ---- positions ----

  /** So many bytes from a position on, if they are there and within the limit. */
  predicate Finds(f: Bytes, at: nat, n: nat) {
    at + n <= |f| && at + n <= 268435456
  }

  /** Reading n bytes: too much for a header, more than there is, or exactly these. */
  lemma BytesFound(f: Bytes, at: nat, n: nat)
    ensures Take(f, at, n) ==
      if at + n > 268435456 then Err(HeaderTooBig) else if at + n > |f| then Err(ShortRead) else Ok(f[at..at + n])
  {
  }

  /** A scalar: its bytes, at its place. */
  lemma ScalarFound(f: Bytes, at: nat, t: nat)
    ensures Size(t) == 0 ==> TakeScalar(f, at, t) == Err(UnknownType(t))
    ensures Size(t) > 0 && Finds(f, at, Size(t)) ==>
      var r := TakeScalar(f, at, t);
      r.Ok? && r.value.next == at + Size(t) && Denotes(t, f[at..at + Size(t)], r.value.value)
  {
    hide Denoted, Denotes;
    if Finds(f, at, Size(t)) { ScalarDenotes(t, f[at..at + Size(t)]); }
    ScalarDenotes(t, []);
  }

  /** The number in the 8 bytes at a position. */
  function Count(f: Bytes, at: nat): nat
    requires Finds(f, at, 8)
  {
    Low4(f[at..at + 8]) + 4294967296 * Low4(f[at + 4..at + 8])
  }

  lemma CountFound(f: Bytes, at: nat)
    requires Finds(f, at, 8)
    ensures TakeNumber(f, at, 8) == Ok(Got(Count(f, at), at + 8))
  {
    hide FromLE, Low4;
    NumberIs(f[at..at + 8]);
    assert f[at..at + 8][4..] == f[at + 4..at + 8];
  }

  /** A string: its length in 8 bytes, refused beyond 16 MiB, and then its bytes. */
  lemma StringFound(f: Bytes, at: nat)
    requires Finds(f, at, 8)
    ensures var n := Count(f, at);
      TakeString(f, at) ==
        if n > 16777216 then Err(LongString)
        else if !Finds(f, at + 8, n) then Err(if at + 8 + n > 268435456 then HeaderTooBig else ShortRead)
        else Ok(Got(f[at + 8..at + 8 + n], at + 8 + n))
  {
    hide Count, TakeNumber;
    CountFound(f, at);
  }

  /** A value, by its type: a string, an array, which names the type of its elements in 4 bytes and
      their number in 8, refused beyond 16 Mi and when arrays are nested, or a scalar. */
  lemma ValueFound(f: Bytes, at: nat, t: nat)
    ensures t == 8 && TakeString(f, at).Ok? ==>
      TakeValue(f, at, t) == Ok(Got(Str(TakeString(f, at).value.value), TakeString(f, at).value.next))
    ensures t == 9 && Finds(f, at, 12) ==>
      var e, n := Low4(f[at..at + 4]), Count(f, at + 4);
      TakeValue(f, at, t) ==
        if n > 16777216 then Err(LongArray) else if e == 9 then Err(NestedArray) else TakeArray(f, at + 12, e, n)
    ensures t != 8 && t != 9 && TakeScalar(f, at, t).Ok? ==>
      TakeValue(f, at, t) == Ok(Got(One(TakeScalar(f, at, t).value.value), TakeScalar(f, at, t).value.next))
  {
    hide TakeString, TakeScalar, TakeStrings, TakeScalars, Count, FromLE, Low4;
    if Finds(f, at, 12) {
      NumberIs(f[at..at + 4]);
      CountFound(f, at + 4);
    }
  }

  /** What an array is normalised to, by the type of its elements. */
  lemma ArrayFound(f: Bytes, at: nat, t: nat, n: nat)
    requires TakeArray(f, at, t, n).Ok?
    ensures var v := TakeArray(f, at, t, n).value.value;
      (v.Strs? <==> t == 8) && (v.Bools? <==> t == 7) && (v.Floats? <==> t in {6, 12})
      && (v.Ints? <==> t !in {6, 7, 8, 12}) && t != 9
  {
    hide TakeStrings, TakeScalars, IntsOf, BoolsOf;
  }

  /** The header: the letters GGUF, a version and a number of tensors that are passed over, the
      number of keys, refused beyond 1 Mi, and then the keys with their values. */
  lemma HeaderFound(f: Bytes)
    ensures |f| < 24 ==> TakeHeader(f).Err?
    ensures |f| >= 24 ==>
      TakeHeader(f) ==
        if f[..4] != Ascii("GGUF") then Err(BadMagic)
        else if Count(f, 16) > 1048576 then Err(TooManyKeys)
        else TakePairs(f, 24, Count(f, 16))
  {
    hide Count, TakePairs, FromLE;
    Constants();
    if |f| >= 24 { CountFound(f, 16); }
  }

  /** A pair: its key, the type of its value in 4 bytes, and the value. */
  lemma PairFound(f: Bytes, at: nat)
    requires TakeString(f, at).Ok? && Finds(f, TakeString(f, at).value.next, 4)
    ensures var key, place := TakeString(f, at).value.value, TakeString(f, at).value.next;
      var v := TakeValue(f, place + 4, Low4(f[place..place + 4]));
      TakePair(f, at) == if v.Err? then Err(v.error) else Ok(Got((key, v.value.value), v.value.next))
  {
    hide TakeString, TakeValue, FromLE, Low4;
    var place := TakeString(f, at).value.next;
    NumberIs(f[place..place + 4]);
  }
}
