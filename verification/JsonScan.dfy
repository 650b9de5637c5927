/** The scanner over raw JSON bytes: how far each skip goes, and that it stops exactly at the
    end of what the grammar renders. */
module JsonScan {
  import opened Common
  import opened JsonGrammar

  // ---- how far each scan goes, as functions of the text still ahead ----

  function SpaceLen(s: Bytes): (n: nat)
    ensures n <= |s|
  {
    if s != [] && IsSpace(s[0]) then 1 + SpaceLen(s[1..]) else 0
  }

  /** From just after an opening quote to just after the closing one. */
  function StringTail(s: Bytes): nat {
    if s == [] then 0
    else if s[0] == BACKSLASH then 2 + (if |s| >= 2 then StringTail(s[2..]) else 0)
    else if s[0] == QUOTE then 1
    else 1 + StringTail(s[1..])
  }

  function From(s: Bytes, n: nat): Bytes {
    if n <= |s| then s[n..] else []
  }

  predicate IsOpening(b: byte) {
    b == OPEN_BRACE || b == OPEN_BRACKET
  }

  predicate IsClosing(b: byte) {
    b == CLOSE_BRACE || b == CLOSE_BRACKET
  }

  /** From inside a bracket at the given depth to just after the bracket that brings it to 0. */
  function NestedTail(s: Bytes, depth: int): nat
    decreases |s|
  {
    if s == [] then 0
    else if s[0] == QUOTE then 1 + StringTail(s[1..]) + NestedTail(From(s, 1 + StringTail(s[1..])), depth)
    else if IsOpening(s[0]) then 1 + NestedTail(s[1..], depth + 1)
    else if IsClosing(s[0]) then if depth == 1 then 1 else 1 + NestedTail(s[1..], depth - 1)
    else 1 + NestedTail(s[1..], depth)
  }

  predicate EndsScalar(b: byte) {
    b == COMMA || b == CLOSE_BRACE || b == CLOSE_BRACKET || IsSpace(b)
  }

  function ScalarTail(s: Bytes): nat {
    if s != [] && !EndsScalar(s[0]) then 1 + ScalarTail(s[1..]) else 0
  }

  function ValueLen(s: Bytes): nat
    requires s != []
  {
    if s[0] == QUOTE then 1 + StringTail(s[1..])
    else if IsOpening(s[0]) then NestedTail(s, 0)
    else ScalarTail(s)
  }

  // ---- regrouping a member's text ----

  lemma Regroup(a: Bytes, b: Bytes, c: Bytes, d: Bytes, r: Bytes)
    ensures a + b + c + d + r == a + (b + (c + (d + r)))
  {
  }

  lemma KeyText(k: Key, r: Bytes)
    ensures RenderKey(Some(k)) + r == k.pre + (Quoted(k.chars) + (k.post + ([COLON] + r)))
  {
    Regroup(k.pre, Quoted(k.chars), k.post, [COLON], r);
  }

  lemma ElemTail(e: Elem, r: Bytes)
    ensures RenderElem(e) + r == RenderKey(e.key) + (e.pre + (Render(e.value) + (e.post + r)))
  {
    Regroup(RenderKey(e.key), e.pre, Render(e.value), e.post, r);
  }

  // ---- the scans land exactly on the ends of what the grammar renders ----

  lemma {:induction false} SpaceRun(ws: Bytes, rest: Bytes)
    requires AllSpace(ws) && (rest == [] || !IsSpace(rest[0]))
    ensures SpaceLen(ws + rest) == |ws|
  {
    if ws == [] {
      assert ws + rest == rest;
    } else {
      assert (ws + rest)[1..] == ws[1..] + rest;
      SpaceRun(ws[1..], rest);
    }
  }

  lemma CharStep(c: StrChar, t: Bytes)
    requires ValidChar(c)
    ensures StringTail(RenderChar(c) + t) == |RenderChar(c)| + StringTail(t)
  {
    var s := RenderChar(c) + t;
    match c
    case Plain(b) => assert s[1..] == t;
    case Escape(e) => assert s[2..] == t;
    case Unicode(hex) => assert s[2..] == hex + t; HexRun(hex, t);
  }

  lemma HexRun(hex: Bytes, t: Bytes)
    requires |hex| == 4 && forall i | 0 <= i < 4 :: IsHex(hex[i])
    ensures StringTail(hex + t) == 4 + StringTail(t)
  {
    var s := hex + t;
    assert s[1..][1..][1..][1..] == t;
    assert s[0] == hex[0] && s[1..][0] == hex[1] && s[1..][1..][0] == hex[2] && s[1..][1..][1..][0] == hex[3];
    assert StringTail(s[1..][1..]) == 2 + StringTail(t);
  }

  lemma {:induction false} StringRun(cs: seq<StrChar>, rest: Bytes)
    requires ValidChars(cs)
    ensures StringTail(RenderChars(cs) + [QUOTE] + rest) == |RenderChars(cs)| + 1
  {
    if cs != [] {
      var t := RenderChars(cs[1..]) + [QUOTE] + rest;
      assert RenderChars(cs) + [QUOTE] + rest == RenderChar(cs[0]) + t;
      CharStep(cs[0], t);
      StringRun(cs[1..], rest);
    }
  }

  /** Bytes a nested scan steps over one by one. */
  predicate Inert(s: Bytes) {
    forall i | 0 <= i < |s| :: s[i] != QUOTE && !IsOpening(s[i]) && !IsClosing(s[i])
  }

  lemma {:induction false} InertRun(s: Bytes, rest: Bytes, depth: int)
    requires Inert(s)
    ensures NestedTail(s + rest, depth) == |s| + NestedTail(rest, depth)
  {
    if s == [] {
      assert s + rest == rest;
    } else {
      assert (s + rest)[1..] == s[1..] + rest;
      InertRun(s[1..], rest, depth);
    }
  }

  lemma SpaceSkipped(s: Bytes, rest: Bytes, depth: int)
    requires AllSpace(s)
    ensures NestedTail(s + rest, depth) == |s| + NestedTail(rest, depth)
  {
    InertRun(s, rest, depth);
  }

  lemma NestedString(cs: seq<StrChar>, rest: Bytes, depth: int)
    requires ValidChars(cs)
    ensures NestedTail(Quoted(cs) + rest, depth) == |Quoted(cs)| + NestedTail(rest, depth)
  {
    var s := Quoted(cs) + rest;
    assert s[1..] == RenderChars(cs) + [QUOTE] + rest;
    StringRun(cs, rest);
    assert From(s, |Quoted(cs)|) == rest;
  }

  predicate NumberByte(b: byte) {
    IsDigit(b) || b == MINUS || b == PLUS || b == DOT || b == 101 || b == 69
  }

  lemma NumberBytes(s: Bytes)
    requires IsNumber(s)
    ensures s != [] && forall k | 0 <= k < |s| :: NumberByte(s[k])
  {
    var i, j :| 0 <= i <= j <= |s|
      && (IsInt(s[..i]) || (i > 0 && s[0] == MINUS && IsInt(s[1..i])))
      && IsFraction(s[i..j]) && IsExponent(s[j..]);
    forall k | 0 <= k < |s| ensures NumberByte(s[k]) {
      if k < i {
        if k > 0 && !IsInt(s[..i]) { assert s[k] == s[1..i][k - 1]; } else { assert s[k] == s[..i][k]; }
      } else if k < j {
        assert s[k] == s[i..j][k - i];
        if k > i { assert s[k] == s[i..j][1..][k - i - 1]; }
      } else {
        assert s[k] == s[j..][k - j];
        if k > j { assert s[k] == s[j..][1..][k - j - 1]; }
        if k > j + 1 { assert s[k] == s[j..][2..][k - j - 2]; }
      }
    }
  }

  /** Inside brackets, a scan steps over a value and stays at its depth. */
  lemma {:induction false} NestedValue(v: Value, rest: Bytes, depth: int)
    requires Valid(v) && depth >= 1
    ensures NestedTail(Render(v) + rest, depth) == |Render(v)| + NestedTail(rest, depth)
    decreases v, 1
  {
    match v
    case Literal(s) => InertRun(s, rest, depth);
    case Number(s) => NumberBytes(s); InertRun(s, rest, depth);
    case String(cs) => NestedString(cs, rest, depth);
    case Group(braces, gap, elems) =>
      GroupWhole(braces, gap, elems, rest, depth);
  }

  lemma Opens(b: byte, s: Bytes, depth: int)
    requires IsOpening(b)
    ensures NestedTail([b] + s, depth) == 1 + NestedTail(s, depth + 1)
  {
    assert ([b] + s)[1..] == s;
  }

  lemma Closes(b: byte, s: Bytes, depth: int)
    requires IsClosing(b)
    ensures NestedTail([b] + s, depth) == if depth == 1 then 1 else 1 + NestedTail(s, depth - 1)
  {
    assert ([b] + s)[1..] == s;
  }

  /** A whole bracketed group: at depth 0 the scan stops at its end, deeper it goes on. */
  lemma {:induction false} GroupWhole(braces: bool, gap: Bytes, elems: seq<Elem>, rest: Bytes, depth: int)
    requires AllSpace(gap) && ValidElems(braces, elems) && depth >= 0
    ensures var text := [Opening(braces)] + gap + RenderElems(elems) + [Closing(braces)];
      NestedTail(text + rest, depth) == |text| + if depth == 0 then 0 else NestedTail(rest, depth)
    decreases elems, 3
  {
    var close := [Closing(braces)] + rest;
    var inside := gap + (RenderElems(elems) + close);
    assert [Opening(braces)] + gap + RenderElems(elems) + [Closing(braces)] + rest == [Opening(braces)] + inside;
    Opens(Opening(braces), inside, depth);
    GroupBody(braces, gap, elems, close, depth + 1);
    Closes(Closing(braces), rest, depth + 1);
  }

  lemma {:induction false} GroupBody(braces: bool, gap: Bytes, elems: seq<Elem>, rest: Bytes, depth: int)
    requires AllSpace(gap) && ValidElems(braces, elems) && depth >= 1
    ensures NestedTail(gap + (RenderElems(elems) + rest), depth) ==
      |gap| + |RenderElems(elems)| + NestedTail(rest, depth)
    decreases elems, 2
  {
    SpaceSkipped(gap, RenderElems(elems) + rest, depth);
    NestedElems(braces, elems, rest, depth);
  }

  lemma {:induction false} NestedElems(braces: bool, es: seq<Elem>, rest: Bytes, depth: int)
    requires ValidElems(braces, es) && depth >= 1
    ensures NestedTail(RenderElems(es) + rest, depth) == |RenderElems(es)| + NestedTail(rest, depth)
    decreases es, 1
  {
    if es == [] {
      assert RenderElems(es) + rest == rest;
    } else if |es| == 1 {
      NestedElem(braces, es[0], rest, depth);
    } else {
      var head, tail := RenderElem(es[0]), RenderElems(es[1..]);
      assert RenderElems(es) == head + [COMMA] + tail;
      assert head + [COMMA] + tail + rest == head + ([COMMA] + (tail + rest));
      NestedElem(braces, es[0], [COMMA] + (tail + rest), depth);
      InertRun([COMMA], tail + rest, depth);
      NestedElems(braces, es[1..], rest, depth);
    }
  }

  lemma {:induction false} NestedElem(braces: bool, e: Elem, rest: Bytes, depth: int)
    requires ValidElem(braces, e) && depth >= 1
    ensures NestedTail(RenderElem(e) + rest, depth) == |RenderElem(e)| + NestedTail(rest, depth)
    decreases e, 2
  {
    var r3 := e.post + rest;
    var r2 := Render(e.value) + r3;
    var r1 := e.pre + r2;
    ElemTail(e, rest);
    NestedKey(braces, e.key, r1, depth);
    SpaceSkipped(e.pre, r2, depth);
    NestedValue(e.value, r3, depth);
    SpaceSkipped(e.post, rest, depth);
  }

  lemma NestedKey(braces: bool, k: Option<Key>, rest: Bytes, depth: int)
    requires ValidKey(braces, k)
    ensures NestedTail(RenderKey(k) + rest, depth) == |RenderKey(k)| + NestedTail(rest, depth)
  {
    match k
    case None => assert RenderKey(k) + rest == rest;
    case Some(key) =>
      KeyText(key, rest);
      var r3 := [COLON] + rest;
      var r2 := key.post + r3;
      SpaceSkipped(key.pre, Quoted(key.chars) + r2, depth);
      NestedString(key.chars, r2, depth);
      SpaceSkipped(key.post, r3, depth);
      InertRun([COLON], rest, depth);
  }

  lemma {:induction false} ScalarRun(s: Bytes, rest: Bytes)
    requires forall i | 0 <= i < |s| :: !EndsScalar(s[i])
    requires rest == [] || EndsScalar(rest[0])
    ensures ScalarTail(s + rest) == |s|
  {
    if s == [] {
      assert s + rest == rest;
    } else {
      assert (s + rest)[1..] == s[1..] + rest;
      ScalarRun(s[1..], rest);
    }
  }

  lemma ScalarEnd(s: Bytes, rest: Bytes)
    requires IsLiteral(s) || IsNumber(s)
    requires rest == [] || EndsScalar(rest[0])
    ensures s != [] && s[0] != QUOTE && !IsOpening(s[0]) && !IsClosing(s[0]) && !IsSpace(s[0]) && !EndsScalar(s[0])
    ensures ValueLen(s + rest) == |s|
  {
    if IsNumber(s) { NumberBytes(s); }
    ScalarRun(s, rest);
  }

  /** skipJSONValue lands exactly on the end of the value, whatever follows it. */
  lemma ValueEnd(v: Value, rest: Bytes)
    requires Valid(v) && (rest == [] || EndsScalar(rest[0]))
    ensures Render(v) != [] && ValueLen(Render(v) + rest) == |Render(v)|
    ensures !IsSpace(Render(v)[0]) && !EndsScalar(Render(v)[0])
    ensures Render(v)[0] == QUOTE <==> v.String?
  {
    match v
    case Literal(t) => ScalarEnd(t, rest);
    case Number(t) => ScalarEnd(t, rest);
    case String(cs) => StringEnd(cs, rest);
    case Group(braces, gap, elems) => GroupWhole(braces, gap, elems, rest, 0);
  }

  lemma StringEnd(cs: seq<StrChar>, rest: Bytes)
    requires ValidChars(cs)
    ensures ValueLen(Quoted(cs) + rest) == |Quoted(cs)|
  {
    assert (Quoted(cs) + rest)[1..] == RenderChars(cs) + [QUOTE] + rest;
    StringRun(cs, rest);
  }

  // ---- the scans as the program runs them ----

  method SkipJSONSpace(b: Bytes, start: nat) returns (i: nat)
    requires start <= |b|
    ensures i == start + SpaceLen(b[start..])
  {
    i := start;
    while i < |b| && IsSpace(b[i])
      invariant start <= i <= |b|
      invariant start + SpaceLen(b[start..]) == i + SpaceLen(b[i..])
    {
      assert b[i..][1..] == b[i + 1..];
      i := i + 1;
    }
  }

  method SkipJSONString(b: Bytes, start: nat) returns (i: nat)
    requires start < |b|
    ensures i == start + 1 + StringTail(b[start + 1..])
  {
    i := start + 1;
    while i < |b|
      invariant start < i <= |b| + 1
      invariant start + 1 + StringTail(b[start + 1..]) == i + StringTail(From(b, i))
    {
      if b[i] == BACKSLASH {
        assert i + 2 <= |b| ==> b[i..][2..] == b[i + 2..];
        i := i + 2;
      } else if b[i] == QUOTE {
        return i + 1;
      } else {
        assert b[i..][1..] == b[i + 1..];
        i := i + 1;
      }
    }
  }

  /** One step of the nested scan at position i. */
  lemma NestedStep(b: Bytes, i: nat, depth: int)
    requires i < |b|
    ensures NestedTail(From(b, i), depth) ==
      if b[i] == QUOTE then 1 + StringTail(b[i + 1..]) + NestedTail(From(b, i + 1 + StringTail(b[i + 1..])), depth)
      else if IsOpening(b[i]) then 1 + NestedTail(From(b, i + 1), depth + 1)
      else if IsClosing(b[i]) then if depth == 1 then 1 else 1 + NestedTail(From(b, i + 1), depth - 1)
      else 1 + NestedTail(From(b, i + 1), depth)
  {
    var ahead := b[i..];
    assert ahead[1..] == b[i + 1..];
    var n := 1 + StringTail(b[i + 1..]);
    assert From(ahead, n) == From(b, i + n);
  }

  method SkipNested(b: Bytes, start: nat) returns (i: nat)
    requires start < |b|
    ensures i == start + NestedTail(b[start..], 0)
  {
    i := start;
    var depth := 0;
    while i < |b|
      invariant start <= i
      invariant start + NestedTail(b[start..], 0) == i + NestedTail(From(b, i), depth)
      decreases |b| - i
    {
      NestedStep(b, i, depth);
      if b[i] == QUOTE {
        i := SkipJSONString(b, i);
        continue;
      } else if IsOpening(b[i]) {
        depth := depth + 1;
      } else if IsClosing(b[i]) {
        depth := depth - 1;
        if depth == 0 { return i + 1; }
      }
      i := i + 1;
    }
  }

  method SkipJSONValue(b: Bytes, start: nat) returns (i: nat)
    requires start < |b|
    ensures i == start + ValueLen(b[start..])
  {
    i := start;
    if b[i] == QUOTE {
      assert b[i..][1..] == b[i + 1..];
      i := SkipJSONString(b, i);
    } else if IsOpening(b[i]) {
      i := SkipNested(b, i);
    } else {
      while i < |b| && !EndsScalar(b[i])
        invariant start <= i <= |b|
        invariant start + ScalarTail(b[start..]) == i + ScalarTail(b[i..])
      {
        assert b[i..][1..] == b[i + 1..];
        i := i + 1;
      }
    }
  }
}
