/** The reader of .gguf metadata against a writer of the same format. */
module GgufReader {
  import opened Common
  import opened GgufFormat

  // ---- a writer ----

  datatype Item = IntItem(t: nat, v: int) | BoolItem(b: bool) | FloatItem(t: nat, bits: Bytes)
  datatype Value =
    | OneValue(item: Item)
    | TextValue(s: Bytes)
    | ItemsValue(t: nat, items: seq<Item>)
    | TextsValue(ss: seq<Bytes>)
  datatype Pair = Pair(key: Bytes, value: Value)

  function TypeOf(i: Item): nat {
    match i
    case IntItem(t, _) => t
    case BoolItem(_) => BOOL
    case FloatItem(t, _) => t
  }

  predicate InRange(t: nat, v: int) {
    if IsSigned(t) then 0 <= 2 * v + Pow256(Width(t)) && 2 * v < Pow256(Width(t)) else 0 <= v < Pow256(Width(t))
  }

  predicate ValidItem(i: Item) {
    match i
    case IntItem(t, v) => IsIntegral(t) && InRange(t, v)
    case BoolItem(_) => true
    case FloatItem(t, bits) => IsFloat(t) && |bits| == Width(t)
  }

  predicate ValidItems(t: nat, items: seq<Item>) {
    items != [] ==>
      ValidItem(items[|items| - 1]) && TypeOf(items[|items| - 1]) == t && ValidItems(t, items[..|items| - 1])
  }

  predicate ValidTexts(ss: seq<Bytes>) {
    ss != [] ==> |ss[|ss| - 1]| <= MAX_STRING_LEN && ValidTexts(ss[..|ss| - 1])
  }

  /** Within the reader's limits; arrays of arrays are not written. */
  predicate ValidValue(v: Value) {
    match v
    case OneValue(i) => ValidItem(i)
    case TextValue(s) => |s| <= MAX_STRING_LEN
    case ItemsValue(t, items) => Width(t) > 0 && |items| <= MAX_ARRAY_LEN && ValidItems(t, items)
    case TextsValue(ss) => |ss| <= MAX_ARRAY_LEN && ValidTexts(ss)
  }

  predicate ValidPairs(ps: seq<Pair>) {
    ps != [] ==>
      |ps[|ps| - 1].key| <= MAX_STRING_LEN && ValidValue(ps[|ps| - 1].value) && ValidPairs(ps[..|ps| - 1])
  }

  function ItemBytes(i: Item): Bytes
    requires ValidItem(i)
  {
    match i
    case IntItem(t, v) => ToLE(FromSigned(v, Width(t)), Width(t))
    case BoolItem(b) => [if b then 1 else 0]
    case FloatItem(_, bits) => bits
  }

  function ItemsBytes(t: nat, items: seq<Item>): Bytes
    requires ValidItems(t, items)
  {
    if items == [] then [] else ItemsBytes(t, items[..|items| - 1]) + ItemBytes(items[|items| - 1])
  }

  function TextBytes(s: Bytes): Bytes {
    ToLE(|s|, 8) + s
  }

  function TextsBytes(ss: seq<Bytes>): Bytes {
    if ss == [] then [] else TextsBytes(ss[..|ss| - 1]) + TextBytes(ss[|ss| - 1])
  }

  function Tag(v: Value): nat
    requires ValidValue(v)
  {
    match v
    case OneValue(i) => TypeOf(i)
    case TextValue(_) => STRING
    case ItemsValue(_, _) => ARRAY
    case TextsValue(_) => ARRAY
  }

  function ValueBytes(v: Value): Bytes
    requires ValidValue(v)
  {
    match v
    case OneValue(i) => ItemBytes(i)
    case TextValue(s) => TextBytes(s)
    case ItemsValue(t, items) => ToLE(t, 4) + (ToLE(|items|, 8) + ItemsBytes(t, items))
    case TextsValue(ss) => ToLE(STRING, 4) + (ToLE(|ss|, 8) + TextsBytes(ss))
  }

  function PairBytes(p: Pair): Bytes
    requires ValidValue(p.value)
  {
    TextBytes(p.key) + (ToLE(Tag(p.value), 4) + ValueBytes(p.value))
  }

  function PairsBytes(ps: seq<Pair>): Bytes
    requires ValidPairs(ps)
  {
    if ps == [] then [] else PairsBytes(ps[..|ps| - 1]) + PairBytes(ps[|ps| - 1])
  }

  function HeaderBytes(version: nat, tensors: nat, ps: seq<Pair>): Bytes
    requires ValidPairs(ps)
  {
    MAGIC + (ToLE(version, 4) + (ToLE(tensors, 8) + (ToLE(|ps|, 8) + PairsBytes(ps))))
  }

  // ---- what the reader should make of it ----

  /** An unsigned 64-bit value from 2^63 on comes back as the negative of the same bits. */
  function Recovered(t: nat, v: int): int {
    if t == UINT64 && 2 * v >= Pow256(8) then v - Pow256(8) else v
  }

  function Normal(i: Item): Scalar {
    match i
    case IntItem(t, v) => Int(Recovered(t, v))
    case BoolItem(b) => Bool(b)
    case FloatItem(t, bits) => Float(t == FLOAT64, bits)
  }

  function Normals(items: seq<Item>): seq<Scalar> {
    if items == [] then [] else Normals(items[..|items| - 1]) + [Normal(items[|items| - 1])]
  }

  function NormalValue(v: Value): Norm {
    match v
    case OneValue(i) => One(Normal(i))
    case TextValue(s) => Str(s)
    case ItemsValue(t, items) =>
      if t == BOOL then Bools(BoolsOf(Normals(items)))
      else if IsFloat(t) then Floats(Normals(items))
      else Ints(IntsOf(Normals(items)))
    case TextsValue(ss) => Strs(ss)
  }

  /** The last value of each key. */
  function NormalPairs(ps: seq<Pair>): Metadata {
    if ps == [] then map[] else NormalPairs(ps[..|ps| - 1])[ps[|ps| - 1].key := NormalValue(ps[|ps| - 1].value)]
  }

  lemma Powers()
    ensures Pow256(1) == 256 && Pow256(2) == 65536 && Pow256(4) == 4294967296 && Pow256(8) == 18446744073709551616
  {
    assert Pow256(3) == 16777216;
    assert Pow256(5) == 1099511627776;
    assert Pow256(6) == 281474976710656;
    assert Pow256(7) == 72057594037927936;
  }

  /** An array of integers or of bools comes back element by element. */
  lemma {:induction false} ArraysRecovered(t: nat, items: seq<Item>)
    requires ValidItems(t, items)
    ensures IsIntegral(t) ==> |IntsOf(Normals(items))| == |items|
    ensures IsIntegral(t) ==>
      forall i | 0 <= i < |items| :: items[i].IntItem? && IntsOf(Normals(items))[i] == Recovered(t, items[i].v)
    ensures t == BOOL ==> |BoolsOf(Normals(items))| == |items|
    ensures t == BOOL ==> forall i | 0 <= i < |items| :: items[i].BoolItem? && BoolsOf(Normals(items))[i] == items[i].b
  {
    if items != [] {
      var most := items[..|items| - 1];
      ArraysRecovered(t, most);
      assert Normals(items)[..|Normals(items)| - 1] == Normals(most);
      assert items == most + [items[|items| - 1]];
    }
  }

  /** The bytes of an item denote its normal form. */
  lemma ItemRoundTrip(i: Item)
    requires ValidItem(i)
    ensures |ItemBytes(i)| == Width(TypeOf(i)) && Denoted(TypeOf(i), ItemBytes(i)) == Normal(i)
  {
    Powers();
    match i
    case IntItem(t, v) => LERoundTrip(FromSigned(v, Width(t)), Width(t));
    case BoolItem(_) =>
    case FloatItem(_, _) =>
  }

  /** The bytes of an integer are read back as that integer exactly unless it is an unsigned one
      of 2^63 or more. */
  lemma RecoveredIff(t: nat, v: int)
    requires IsIntegral(t) && InRange(t, v)
    ensures Denoted(t, ItemBytes(IntItem(t, v))) == Int(v) <==> !(t == UINT64 && v >= 9223372036854775808)
  {
    hide Denoted, ItemBytes;
    Powers();
    ItemRoundTrip(IntItem(t, v));
  }

  // ---- reading what was written ----

  /** A piece of a file, within the header limit. */
  predicate Holds(f: Bytes, at: nat, b: Bytes) {
    at + |b| <= |f| && at + |b| <= MAX_HEADER_BYTES && f[at..at + |b|] == b
  }

  lemma HoldsParts(f: Bytes, at: nat, a: Bytes, b: Bytes)
    requires Holds(f, at, a + b)
    ensures Holds(f, at, a) && Holds(f, at + |a|, b)
  {
    var whole := f[at..at + |a + b|];
    assert whole[..|a|] == f[at..at + |a|] && whole[|a|..] == f[at + |a|..at + |a| + |b|];
  }

  lemma ReadNumber(f: Bytes, at: nat, n: nat, w: nat)
    requires Holds(f, at, ToLE(n, w)) && n < Pow256(w)
    ensures TakeNumber(f, at, w) == Ok(Got(n, at + w))
  {
    LERoundTrip(n, w);
  }

  lemma ReadText(f: Bytes, at: nat, s: Bytes)
    requires Holds(f, at, TextBytes(s)) && |s| <= MAX_STRING_LEN
    ensures TakeString(f, at) == Ok(Got(s, at + |TextBytes(s)|))
  {
    Powers();
    HoldsParts(f, at, ToLE(|s|, 8), s);
    ReadNumber(f, at, |s|, 8);
  }

  lemma {:induction false} ReadTexts(f: Bytes, at: nat, ss: seq<Bytes>)
    requires Holds(f, at, TextsBytes(ss)) && ValidTexts(ss)
    ensures TakeStrings(f, at, |ss|) == Ok(Got(ss, at + |TextsBytes(ss)|))
  {
    hide Holds, TextBytes, TakeString;
    if ss != [] {
      var most, last := ss[..|ss| - 1], ss[|ss| - 1];
      HoldsParts(f, at, TextsBytes(most), TextBytes(last));
      ReadTexts(f, at, most);
      ReadText(f, at + |TextsBytes(most)|, last);
      assert ss == most + [last];
    }
  }

  lemma ReadItem(f: Bytes, at: nat, i: Item)
    requires ValidItem(i) && Holds(f, at, ItemBytes(i))
    ensures TakeScalar(f, at, TypeOf(i)) == Ok(Got(Normal(i), at + |ItemBytes(i)|))
  {
    ItemRoundTrip(i);
  }

  lemma {:induction false} ReadItems(f: Bytes, at: nat, t: nat, items: seq<Item>)
    requires ValidItems(t, items) && Holds(f, at, ItemsBytes(t, items))
    ensures TakeScalars(f, at, t, |items|) == Ok(Got(Normals(items), at + |ItemsBytes(t, items)|))
  {
    hide Holds, ItemBytes, TakeScalar, ValidItem;
    if items != [] {
      var most, last := items[..|items| - 1], items[|items| - 1];
      HoldsParts(f, at, ItemsBytes(t, most), ItemBytes(last));
      ReadItems(f, at, t, most);
      ReadItem(f, at + |ItemsBytes(t, most)|, last);
    }
  }

  lemma ReadArrayHead(f: Bytes, at: nat, t: nat, n: nat, body: Bytes)
    requires Holds(f, at, ToLE(t, 4) + (ToLE(n, 8) + body)) && t <= FLOAT64 && n <= MAX_ARRAY_LEN
    ensures TakeNumber(f, at, 4) == Ok(Got(t, at + 4)) && TakeNumber(f, at + 4, 8) == Ok(Got(n, at + 12))
    ensures Holds(f, at + 12, body)
  {
    Powers();
    HoldsParts(f, at, ToLE(t, 4), ToLE(n, 8) + body);
    HoldsParts(f, at + 4, ToLE(n, 8), body);
    ReadNumber(f, at, t, 4);
    ReadNumber(f, at + 4, n, 8);
  }

  /** A scalar's type is neither that of a string nor that of an array. */
  lemma ScalarTag(v: Value)
    requires ValidValue(v)
    ensures v.OneValue? ==> Tag(v) != STRING && Tag(v) != ARRAY
    ensures v.ItemsValue? ==> v.t != STRING && v.t != ARRAY && v.t <= FLOAT64
  {
  }

  lemma ReadItemsValue(f: Bytes, at: nat, t: nat, items: seq<Item>)
    requires var v := ItemsValue(t, items); ValidValue(v) && Holds(f, at, ValueBytes(v))
    ensures var v := ItemsValue(t, items); TakeValue(f, at, ARRAY) == Ok(Got(NormalValue(v), at + |ValueBytes(v)|))
  {
    hide Holds, TakeNumber, TakeString, TakeStrings, TakeScalar, TakeScalars, ItemBytes, TextBytes, IntsOf, BoolsOf,
      Pow256;
    ScalarTag(ItemsValue(t, items));
    ReadArrayHead(f, at, t, |items|, ItemsBytes(t, items));
    ReadItems(f, at + 12, t, items);
  }

  lemma ReadTextsValue(f: Bytes, at: nat, ss: seq<Bytes>)
    requires ValidValue(TextsValue(ss)) && Holds(f, at, ValueBytes(TextsValue(ss)))
    ensures TakeValue(f, at, ARRAY) == Ok(Got(NormalValue(TextsValue(ss)), at + |ValueBytes(TextsValue(ss))|))
  {
    hide Holds, TakeNumber, TakeString, TakeStrings, TakeScalar, TakeScalars, ItemBytes, TextBytes, IntsOf, BoolsOf,
      Pow256;
    ReadArrayHead(f, at, STRING, |ss|, TextsBytes(ss));
    ReadTexts(f, at + 12, ss);
  }

  lemma ReadOneValue(f: Bytes, at: nat, i: Item)
    requires ValidValue(OneValue(i)) && Holds(f, at, ValueBytes(OneValue(i)))
    ensures TakeValue(f, at, TypeOf(i)) == Ok(Got(NormalValue(OneValue(i)), at + |ValueBytes(OneValue(i))|))
  {
    hide Holds, TakeNumber, TakeString, TakeScalar, ItemBytes;
    ScalarTag(OneValue(i));
    ReadItem(f, at, i);
  }

  lemma ReadTextValue(f: Bytes, at: nat, s: Bytes)
    requires ValidValue(TextValue(s)) && Holds(f, at, ValueBytes(TextValue(s)))
    ensures TakeValue(f, at, STRING) == Ok(Got(NormalValue(TextValue(s)), at + |ValueBytes(TextValue(s))|))
  {
    hide Holds, TakeString, TextBytes;
    ReadText(f, at, s);
  }

  lemma ReadValue(f: Bytes, at: nat, v: Value)
    requires ValidValue(v) && Holds(f, at, ValueBytes(v))
    ensures TakeValue(f, at, Tag(v)) == Ok(Got(NormalValue(v), at + |ValueBytes(v)|))
  {
    hide Holds, TakeNumber, TakeString, TakeStrings, TakeScalar, TakeScalars, ItemBytes, TextBytes, IntsOf, BoolsOf,
      Pow256;
    hide TakeValue, ValueBytes, NormalValue, ValidValue;
    match v
    case OneValue(i) => ReadOneValue(f, at, i);
    case TextValue(s) => ReadTextValue(f, at, s);
    case ItemsValue(t, items) => ReadItemsValue(f, at, t, items);
    case TextsValue(ss) => ReadTextsValue(f, at, ss);
  }

  lemma SmallTag(v: Value)
    requires ValidValue(v)
    ensures Tag(v) < Pow256(4)
  {
    Powers();
  }

  lemma ReadPair(f: Bytes, at: nat, p: Pair)
    requires |p.key| <= MAX_STRING_LEN && ValidValue(p.value) && Holds(f, at, PairBytes(p))
    ensures TakePair(f, at) == Ok(Got((p.key, NormalValue(p.value)), at + |PairBytes(p)|))
  {
    hide Holds, TakeNumber, TakeString, TakeValue, TextBytes, ValueBytes, ValidValue, NormalValue;
    var tag := ToLE(Tag(p.value), 4);
    SmallTag(p.value);
    HoldsParts(f, at, TextBytes(p.key), tag + ValueBytes(p.value));
    HoldsParts(f, at + |TextBytes(p.key)|, tag, ValueBytes(p.value));
    ReadText(f, at, p.key);
    ReadNumber(f, at + |TextBytes(p.key)|, Tag(p.value), 4);
    ReadValue(f, at + |TextBytes(p.key)| + 4, p.value);
  }

  lemma {:induction false} ReadPairs(f: Bytes, at: nat, ps: seq<Pair>)
    requires ValidPairs(ps) && Holds(f, at, PairsBytes(ps))
    ensures TakePairs(f, at, |ps|) == Ok(Got(NormalPairs(ps), at + |PairsBytes(ps)|))
  {
    hide Holds, PairBytes, TakePair, ValidValue, NormalValue;
    if ps != [] {
      var most, last := ps[..|ps| - 1], ps[|ps| - 1];
      HoldsParts(f, at, PairsBytes(most), PairBytes(last));
      ReadPairs(f, at, most);
      ReadPair(f, at + |PairsBytes(most)|, last);
    }
  }

  /** A header within the limits reads back as exactly the key-values written, whatever follows
      it in the file, and reading stops exactly at its end. */
  lemma HeaderRoundTrip(version: nat, tensors: nat, ps: seq<Pair>, rest: Bytes)
    requires ValidPairs(ps) && |ps| <= MAX_KV_COUNT && |HeaderBytes(version, tensors, ps)| <= MAX_HEADER_BYTES
    ensures TakeHeader(HeaderBytes(version, tensors, ps) + rest) ==
      Ok(Got(NormalPairs(ps), |HeaderBytes(version, tensors, ps)|))
  {
    hide Holds, TakeNumber, TakePairs, PairsBytes, ValidPairs, NormalPairs, Pow256, ToLE;
    Powers();
    var head := HeaderBytes(version, tensors, ps);
    var f := head + rest;
    var n, v, t, body := ToLE(|ps|, 8), ToLE(version, 4), ToLE(tensors, 8), PairsBytes(ps);
    HoldsAll(head, rest);
    HoldsParts(f, 0, MAGIC, v + (t + (n + body)));
    HoldsParts(f, 4, v, t + (n + body));
    HoldsParts(f, 8, t, n + body);
    HoldsParts(f, 16, n, body);
    HoldsTake(f, 0, MAGIC);
    HoldsNumber(f, 4, v);
    HoldsNumber(f, 8, t);
    ReadNumber(f, 16, |ps|, 8);
    ReadPairs(f, 24, ps);
  }

  lemma HoldsAll(b: Bytes, rest: Bytes)
    requires |b| <= MAX_HEADER_BYTES
    ensures Holds(b + rest, 0, b)
  {
    assert (b + rest)[0..|b|] == b;
  }

  lemma HoldsTake(f: Bytes, at: nat, b: Bytes)
    requires Holds(f, at, b)
    ensures Take(f, at, |b|) == Ok(b)
  {
  }

  lemma HoldsNumber(f: Bytes, at: nat, b: Bytes)
    requires Holds(f, at, b)
    ensures TakeNumber(f, at, |b|).Ok? && TakeNumber(f, at, |b|).value.next == at + |b|
  {
  }

  /** Every strict prefix of a header is rejected. */
  lemma PrefixesAreRejected(version: nat, tensors: nat, ps: seq<Pair>, n: nat)
    requires ValidPairs(ps) && |ps| <= MAX_KV_COUNT && |HeaderBytes(version, tensors, ps)| <= MAX_HEADER_BYTES
    requires n < |HeaderBytes(version, tensors, ps)|
    ensures TakeHeader(HeaderBytes(version, tensors, ps)[..n]).Err?
  {
    var head := HeaderBytes(version, tensors, ps);
    if TakeHeader(head[..n]).Ok? {
      HeaderRoundTrip(version, tensors, ps, []);
      assert head + [] == head;
      HeaderAgrees(head[..n], head);
      HeaderWithinBounds(head[..n]);
    }
  }

  // ---- the reader as the program runs it ----

  class Reader {
    const file: Bytes
    var read: nat          // bytes consumed

    constructor (file: Bytes)
      ensures read == 0 && this.file == file
    {
      this.file, read := file, 0;
    }

    /** A read fails or advances to just past what it gives. */
    ghost predicate Gives<T>(at: nat, spec: Result<Got<T>, Error>, r: Result<T, Error>)
      reads this
    {
      match spec
      case Ok(g) => r == Ok(g.value) && read == g.next
      case Err(e) => r == Err(e)
    }

    method TakeBytes(n: nat) returns (r: Result<Bytes, Error>)
      modifies this`read
      ensures r == Take(file, old(read), n) && (r.Ok? ==> read == old(read) + n)
    {
      if read + n > MAX_HEADER_BYTES { return Err(HeaderTooBig); }
      if read + n > |file| { return Err(ShortRead); }
      r := Ok(file[read..read + n]);
      read := read + n;
    }

    method Number(w: nat) returns (r: Result<nat, Error>)
      modifies this`read
      ensures Gives(old(read), TakeNumber(file, old(read), w), r) && (r.Ok? ==> read == old(read) + w)
    {
      var b := TakeBytes(w);
      if b.Err? { return Err(b.error); }
      return Ok(FromLE(b.value));
    }

    method Text() returns (r: Result<Bytes, Error>)
      modifies this`read
      ensures Gives(old(read), TakeString(file, old(read)), r)
    {
      var n := Number(8);
      if n.Err? { return Err(n.error); }
      if n.value > MAX_STRING_LEN { return Err(LongString); }
      r := TakeBytes(n.value);
    }

    method OneScalar(t: nat) returns (r: Result<Scalar, Error>)
      modifies this`read
      ensures Gives(old(read), TakeScalar(file, old(read), t), r)
    {
      if Width(t) == 0 { return Err(UnknownType(t)); }
      var b := TakeBytes(Width(t));
      if b.Err? { return Err(b.error); }
      return Ok(Denoted(t, b.value));
    }

    method Scalars(t: nat, n: nat) returns (r: Result<seq<Scalar>, Error>)
      modifies this`read
      ensures Gives(old(read), TakeScalars(file, old(read), t, n), r)
    {
      var out: seq<Scalar> := [];
      for i := 0 to n
        invariant TakeScalars(file, old(read), t, i) == Ok(Got(out, read))
      {
        var s := OneScalar(t);
        if s.Err? {
          ScalarsFail(file, old(read), t, i + 1, n);
          return Err(s.error);
        }
        out := out + [s.value];
      }
      return Ok(out);
    }

    method Texts(n: nat) returns (r: Result<seq<Bytes>, Error>)
      modifies this`read
      ensures Gives(old(read), TakeStrings(file, old(read), n), r)
    {
      var out: seq<Bytes> := [];
      for i := 0 to n
        invariant TakeStrings(file, old(read), i) == Ok(Got(out, read))
      {
        var s := Text();
        if s.Err? {
          StringsFail(file, old(read), i + 1, n);
          return Err(s.error);
        }
        out := out + [s.value];
      }
      return Ok(out);
    }

    method Array(t: nat, n: nat) returns (r: Result<Norm, Error>)
      modifies this`read
      ensures Gives(old(read), TakeArray(file, old(read), t, n), r)
    {
      if t == STRING {
        var ss := Texts(n);
        if ss.Err? { return Err(ss.error); }
        return Ok(Strs(ss.value));
      }
      if t == ARRAY { return Err(NestedArray); }
      var ss := Scalars(t, n);
      if ss.Err? { return Err(ss.error); }
      if t == BOOL { return Ok(Bools(BoolsOf(ss.value))); }
      if IsFloat(t) { return Ok(Floats(ss.value)); }
      return Ok(Ints(IntsOf(ss.value)));
    }

    method AnyValue(t: nat) returns (r: Result<Norm, Error>)
      modifies this`read
      ensures Gives(old(read), TakeValue(file, old(read), t), r)
    {
      if t == STRING {
        var s := Text();
        if s.Err? { return Err(s.error); }
        return Ok(Str(s.value));
      }
      if t == ARRAY {
        var e := Number(4);
        if e.Err? { return Err(e.error); }
        var n := Number(8);
        if n.Err? { return Err(n.error); }
        if n.value > MAX_ARRAY_LEN { return Err(LongArray); }
        r := Array(e.value, n.value);
        return;
      }
      var s := OneScalar(t);
      if s.Err? { return Err(s.error); }
      return Ok(One(s.value));
    }

    method KeyValue() returns (r: Result<(Bytes, Norm), Error>)
      modifies this`read
      ensures Gives(old(read), TakePair(file, old(read)), r)
    {
      var key := Text();
      if key.Err? { return Err(key.error); }
      var t := Number(4);
      if t.Err? { return Err(t.error); }
      var v := AnyValue(t.value);
      if v.Err? { return Err(v.error); }
      return Ok((key.value, v.value));
    }

    /** The whole header, from the start of the file. */
    method ReadMetadata() returns (r: Result<Metadata, Error>)
      requires read == 0
      modifies this`read
      ensures Gives(0, TakeHeader(file), r)
    {
      hide TakeNumber, TakePair;
      var magic := TakeBytes(4);
      if magic.Err? { return Err(magic.error); }
      if magic.value != MAGIC { return Err(BadMagic); }
      var version := Number(4);
      if version.Err? { return Err(version.error); }
      var tensors := Number(8);
      if tensors.Err? { return Err(tensors.error); }
      var n := Number(8);
      if n.Err? { return Err(n.error); }
      if n.value > MAX_KV_COUNT { return Err(TooManyKeys); }
      var md: Metadata := map[];
      for i := 0 to n.value
        invariant TakePairs(file, 24, i) == Ok(Got(md, read))
      {
        var p := KeyValue();
        if p.Err? {
          PairsFail(file, 24, i + 1, n.value);
          return Err(p.error);
        }
        md := md[p.value.0 := p.value.1];
      }
      return Ok(md);
    }
  }

  lemma {:induction false} ScalarsFail(f: Bytes, at: nat, t: nat, i: nat, n: nat)
    requires i <= n && TakeScalars(f, at, t, i).Err?
    ensures TakeScalars(f, at, t, n) == TakeScalars(f, at, t, i)
    decreases n
  {
    if i < n { ScalarsFail(f, at, t, i, n - 1); }
  }

  lemma {:induction false} StringsFail(f: Bytes, at: nat, i: nat, n: nat)
    requires i <= n && TakeStrings(f, at, i).Err?
    ensures TakeStrings(f, at, n) == TakeStrings(f, at, i)
    decreases n
  {
    if i < n { StringsFail(f, at, i, n - 1); }
  }

  lemma {:induction false} PairsFail(f: Bytes, at: nat, i: nat, n: nat)
    requires i <= n && TakePairs(f, at, i).Err?
    ensures TakePairs(f, at, n) == TakePairs(f, at, i)
    decreases n
  {
    hide TakePair;
    if i < n { PairsFail(f, at, i, n - 1); }
  }
}
