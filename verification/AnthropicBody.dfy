/** Rewriting the model of a request body in place. */
module AnthropicBody {
  import opened Common
  import opened JsonGrammar
  import opened JsonScan
  import opened JsonUnambiguity

  /** Decoding a quoted string: the characters it denotes, or None if it is malformed. */
  function UnquoteTail(s: Bytes): Option<seq<int>> {
    if s == [] then None
    else if s[0] == QUOTE then if |s| == 1 then Some([]) else None
    else if s[0] == BACKSLASH then
      if |s| >= 6 && s[1] == 117 && forall i | 2 <= i < 6 :: IsHex(s[i])
      then Prepend(HexValue(s[2..6]), UnquoteTail(s[6..]))
      else if |s| >= 2 && IsEscape(s[1]) then Prepend(EscapeUnit(s[1]), UnquoteTail(s[2..]))
      else None
    else if s[0] < 32 then None
    else Prepend(s[0] as int, UnquoteTail(s[1..]))
  }

  function Prepend(unit: int, tail: Option<seq<int>>): Option<seq<int>> {
    if tail.Some? then Some([unit] + tail.value) else None
  }

  function Unquote(s: Bytes): Option<seq<int>> {
    if s != [] && s[0] == QUOTE then UnquoteTail(s[1..]) else None
  }

  lemma UnquoteChar(c: StrChar, t: Bytes)
    requires ValidChar(c)
    ensures UnquoteTail(RenderChar(c) + t) == Prepend(CharUnit(c), UnquoteTail(t))
  {
    var s := RenderChar(c) + t;
    match c
    case Plain(b) => assert s[1..] == t;
    case Escape(e) => assert s[2..] == t;
    case Unicode(hex) =>
      assert s[2..6] == hex && s[6..] == t;
      forall i | 2 <= i < 6 ensures IsHex(s[i]) { assert s[i] == hex[i - 2]; }
  }

  /** Decoding what the grammar renders gives back what it denotes. */
  lemma {:induction false} UnquoteRun(cs: seq<StrChar>)
    requires ValidChars(cs)
    ensures UnquoteTail(RenderChars(cs) + [QUOTE]) == Some(Units(cs))
  {
    if cs != [] {
      var t := RenderChars(cs[1..]) + [QUOTE];
      assert RenderChars(cs) + [QUOTE] == RenderChar(cs[0]) + t;
      UnquoteChar(cs[0], t);
      UnquoteRun(cs[1..]);
    }
  }

  lemma UnquoteQuoted(cs: seq<StrChar>)
    requires ValidChars(cs)
    ensures Unquote(Quoted(cs)) == Some(Units(cs))
  {
    assert Quoted(cs)[1..] == RenderChars(cs) + [QUOTE];
    UnquoteRun(cs);
  }

  // ---- where the model values are ----

  datatype BodyError = NotJson | NotObject | ModelNotString | NoModel

  datatype Span = Span(start: nat, end: nat)

  /** The byte range of the value of every member named "model", the first member starting at off. */
  ghost function ModelSpans(es: seq<Elem>, off: nat): seq<Span> {
    if es == [] then []
    else
      var start := off + |RenderKey(es[0].key)| + |es[0].pre|;
      var more := ModelSpans(es[1..], off + |RenderElem(es[0])| + 1);
      if IsModelMember(es[0]) then [Span(start, start + |Render(es[0].value)|)] + more else more
  }

  ghost predicate AllModelsAreStrings(es: seq<Elem>) {
    es != [] ==> (IsModelMember(es[0]) ==> es[0].value.String?) && AllModelsAreStrings(es[1..])
  }

  ghost function SpansOf(d: Doc): Result<seq<Span>, BodyError> {
    if !(d.value.Group? && d.value.braces) then Err(NotObject)
    else if !AllModelsAreStrings(d.value.elems) then Err(ModelNotString)
    else Ok(ModelSpans(d.value.elems, |d.pre| + 1))
  }

  /** What is ahead of the scan once it has passed all members but es. */
  ghost function Ahead(gap: Bytes, es: seq<Elem>, post: Bytes): Bytes {
    (if es == [] then gap else RenderElems(es)) + [CLOSE_BRACE] + post
  }

  lemma Pass(b: Bytes, i: nat, p: Bytes, rest: Bytes)
    requires i <= |b| && b[i..] == p + rest
    ensures i + |p| <= |b| && b[i + |p|..] == rest && b[i..i + |p|] == p
  {
    assert b[i..][|p|..] == b[i + |p|..];
    assert b[i..][..|p|] == b[i..i + |p|];
  }

  ghost function AfterFirst(es: seq<Elem>, post: Bytes): Bytes
    requires es != []
  {
    if |es| == 1 then [CLOSE_BRACE] + post else [COMMA] + Ahead([], es[1..], post)
  }

  /** A member's text from its key's quote on. */
  ghost function FromKey(e: Elem, after: Bytes): Bytes
    requires e.key.Some?
  {
    Quoted(e.key.value.chars) + (e.key.value.post + ([COLON] + FromValue(e, after)))
  }

  ghost function FromValue(e: Elem, after: Bytes): Bytes {
    e.pre + (Render(e.value) + (e.post + after))
  }

  lemma ElemText(e: Elem, after: Bytes)
    requires e.key.Some?
    ensures RenderElem(e) + after == e.key.value.pre + FromKey(e, after)
    ensures |RenderElem(e)| == |RenderKey(e.key)| + |e.pre| + |Render(e.value)| + |e.post|
    ensures |RenderKey(e.key)| == |e.key.value.pre| + |Quoted(e.key.value.chars)| + |e.key.value.post| + 1
  {
    var k, rest := e.key.value, FromValue(e, after);
    assert RenderElem(e) + after == RenderKey(e.key) + rest;
    assert RenderKey(e.key) + rest == k.pre + (Quoted(k.chars) + (k.post + ([COLON] + rest)));
  }

  lemma FirstMember(gap: Bytes, es: seq<Elem>, post: Bytes)
    requires es != [] && es[0].key.Some?
    ensures Ahead(gap, es, post) == es[0].key.value.pre + FromKey(es[0], AfterFirst(es, post))
  {
    var head, close := RenderElem(es[0]), [CLOSE_BRACE] + post;
    assert Ahead(gap, es, post) == head + AfterFirst(es, post) by {
      if |es| > 1 {
        SplitHead(head, [COMMA], RenderElems(es[1..]), [CLOSE_BRACE], post);
      } else {
        assert RenderElems(es) + [CLOSE_BRACE] + post == head + close;
      }
    }
    ElemText(es[0], AfterFirst(es, post));
  }

  lemma SplitHead(a: Bytes, b: Bytes, c: Bytes, d: Bytes, e: Bytes)
    ensures a + b + c + d + e == a + (b + (c + d + e))
  {
  }

  /** Scans a key and its colon. */
  method ScanKey(body: Bytes, at: nat, ghost k: Key, ghost rest: Bytes) returns (key: Option<seq<int>>, i: nat)
    requires at <= |body| && ValidChars(k.chars) && AllSpace(k.post)
    requires body[at..] == Quoted(k.chars) + (k.post + ([COLON] + rest))
    ensures key == Some(Units(k.chars))
    ensures i == at + |Quoted(k.chars)| + |k.post| + 1 && i <= |body| && body[i..] == rest
  {
    StringEnd(k.chars, k.post + ([COLON] + rest));
    Pass(body, at, Quoted(k.chars), k.post + ([COLON] + rest));
    var keyEnd := SkipJSONValue(body, at);
    UnquoteQuoted(k.chars);
    key := Unquote(body[at..keyEnd]);
    SpaceRun(k.post, [COLON] + rest);
    Pass(body, keyEnd, k.post, [COLON] + rest);
    i := SkipJSONSpace(body, keyEnd);
    Pass(body, i, [COLON], rest);
    i := i + 1;
  }

  /** Scans a value with the space around it. */
  method ScanValue(body: Bytes, at: nat, ghost pre: Bytes, ghost v: Value, ghost post: Bytes, ghost after: Bytes)
      returns (isString: bool, span: Span, i: nat)
    requires at <= |body| && AllSpace(pre) && Valid(v) && AllSpace(post)
    requires body[at..] == pre + (Render(v) + (post + after))
    requires after != [] && (after[0] == COMMA || after[0] == CLOSE_BRACE)
    ensures isString == v.String?
    ensures span.start == at + |pre| && span.end == span.start + |Render(v)| && i == span.end + |post|
    ensures i <= |body| && body[i..] == after
  {
    ValueEnd(v, post + after);
    SpaceRun(pre, Render(v) + (post + after));
    Pass(body, at, pre, Render(v) + (post + after));
    i := SkipJSONSpace(body, at);
    Pass(body, i, Render(v), post + after);
    isString := body[i] == QUOTE;
    var valEnd := SkipJSONValue(body, i);
    span := Span(i, valEnd);
    SpaceRun(post, after);
    Pass(body, valEnd, post, after);
    i := SkipJSONSpace(body, valEnd);
  }

  /** Scans one member, from its key's quote to the comma or brace after it. */
  method ScanMember(body: Bytes, at: nat, ghost start: nat, ghost e: Elem, ghost after: Bytes)
      returns (model: bool, isString: bool, span: Span, i: nat)
    requires at <= |body| && ValidElem(true, e) && e.key.Some? && body[at..] == FromKey(e, after)
    requires at == start + |e.key.value.pre|
    requires after != [] && (after[0] == COMMA || after[0] == CLOSE_BRACE)
    ensures model == IsModelMember(e) && isString == e.value.String?
    ensures span == FirstSpan(e, start) && i + 1 == NextStart(e, start)
    ensures i <= |body| && body[i..] == after
  {
    var key;
    key, i := ScanKey(body, at, e.key.value, FromValue(e, after));
    model := key == Some(MODEL);
    isString, span, i := ScanValue(body, i, e.pre, e.value, e.post, after);
  }

  lemma OpenObject(d: Doc, text: Bytes)
    requires ValidDoc(d) && d.value.Group? && d.value.braces
    requires text == Render(d.value) + d.post
    ensures text == [OPEN_BRACE] + Ahead(d.value.gap, d.value.elems, d.post)
  {
    var g, es := d.value.gap, RenderElems(d.value.elems);
    assert [OPEN_BRACE] + g + es + [CLOSE_BRACE] + d.post == [OPEN_BRACE] + (g + es + [CLOSE_BRACE] + d.post);
    assert d.value.elems == [] ==> g + es == g;
    assert d.value.elems != [] ==> g + es == es;
  }

  /** Skipping space before a key. */
  lemma BeforeKey(body: Bytes, i: nat, gap: Bytes, es: seq<Elem>, post: Bytes)
    requires i <= |body| && body[i..] == Ahead(gap, es, post) && es != [] && ValidElems(true, es)
    ensures es[0].key.Some?
    ensures var k, rest := es[0].key.value, FromKey(es[0], AfterFirst(es, post));
      SpaceLen(body[i..]) == |k.pre| && i + |k.pre| < |body| && body[i + |k.pre|..] == rest && rest[0] == QUOTE
  {
    var k, rest := es[0].key.value, FromKey(es[0], AfterFirst(es, post));
    FirstMember(gap, es, post);
    assert rest[0] == QUOTE;
    SpaceRun(k.pre, rest);
    Pass(body, i, k.pre, rest);
  }

  /** The ranges from one member on are its own, if it has one, and those of the rest. */
  lemma OneMember(es: seq<Elem>, off: nat)
    requires es != [] && es[0].key.Some?
    ensures var more := ModelSpans(es[1..], NextStart(es[0], off));
      ModelSpans(es, off) == if IsModelMember(es[0]) then [FirstSpan(es[0], off)] + more else more
  {
    ElemText(es[0], []);
  }

  lemma Found(es: seq<Elem>, off: nat, span: Span, i: nat)
    requires es != [] && es[0].key.Some? && span == FirstSpan(es[0], off)
    requires |es| == 1 || i == NextStart(es[0], off)
    ensures var more := ModelSpans(es[1..], i);
      ModelSpans(es, off) == if IsModelMember(es[0]) then [span] + more else more
  {
    OneMember(es, off);
    assert |es| == 1 ==> es[1..] == [];
  }

  ghost function FirstSpan(e: Elem, off: nat): Span
    requires e.key.Some?
  {
    var k := e.key.value;
    var start := off + |k.pre| + |Quoted(k.chars)| + |k.post| + 1 + |e.pre|;
    Span(start, start + |Render(e.value)|)
  }

  ghost function NextStart(e: Elem, off: nat): nat
    requires e.key.Some?
  {
    FirstSpan(e, off).end + |e.post| + 1
  }

  /** The scan stands before the members es, with all others behind it. */
  ghost predicate At(body: Bytes, i: nat, gap: Bytes, es: seq<Elem>, post: Bytes) {
    i <= |body| && AllSpace(gap) && ValidElems(true, es) && body[i..] == Ahead(gap, es, post)
  }

  /** After a member the scan is past its comma and before the next one, or before the brace. */
  lemma AfterMember(body: Bytes, i: nat, es: seq<Elem>, post: Bytes)
    requires i <= |body| && es != [] && ValidElems(true, es) && body[i..] == AfterFirst(es, post)
    ensures i < |body| && (body[i] == COMMA <==> |es| > 1)
    ensures At(body, if body[i] == COMMA then i + 1 else i, [], es[1..], post)
  {
    if |es| > 1 { Pass(body, i, [COMMA], Ahead([], es[1..], post)); }
  }

  /** Skips the space before a document's value and, if it is an object, its opening brace. */
  method EnterObject(body: Bytes, ghost d: Doc) returns (isObject: bool, i: nat)
    requires ValidDoc(d) && RenderDoc(d) == body
    ensures isObject == (d.value.Group? && d.value.braces)
    ensures isObject ==> i == |d.pre| + 1 && At(body, i, d.value.gap, d.value.elems, d.post)
  {
    FirstByte(d.value);
    ValueStart(d.value);
    SpaceRun(d.pre, Render(d.value) + d.post);
    assert RenderDoc(d) == d.pre + (Render(d.value) + d.post);
    assert body[0..] == body;
    Pass(body, 0, d.pre, Render(d.value) + d.post);
    i := SkipJSONSpace(body, 0);
    if i >= |body| || body[i] != OPEN_BRACE {
      return false, i;
    }
    OpenObject(d, Render(d.value) + d.post);
    Pass(body, i, [OPEN_BRACE], Ahead(d.value.gap, d.value.elems, d.post));
    return true, i + 1;
  }

  /** Skips the space before the next key, or before the closing brace. */
  method SkipToKey(body: Bytes, start: nat, ghost gap: Bytes, ghost es: seq<Elem>, ghost post: Bytes)
      returns (done: bool, i: nat)
    requires At(body, start, gap, es, post)
    ensures done <==> es == []
    ensures !done ==> es[0].key.Some? && i == start + |es[0].key.value.pre| && i <= |body|
    ensures !done ==> body[i..] == FromKey(es[0], AfterFirst(es, post))
  {
    if es == [] {
      SpaceRun(gap, [CLOSE_BRACE] + post);
      Pass(body, start, gap, [CLOSE_BRACE] + post);
    } else {
      BeforeKey(body, start, gap, es, post);
    }
    i := SkipJSONSpace(body, start);
    done := body[i] == CLOSE_BRACE;
  }

  /** One turn of the scan over an object's members. */
  method NextMember(body: Bytes, start: nat, ghost gap: Bytes, ghost es: seq<Elem>, ghost post: Bytes)
      returns (done: bool, model: bool, isString: bool, span: Span, i: nat)
    requires At(body, start, gap, es, post)
    ensures done <==> es == []
    ensures !done ==> model == IsModelMember(es[0]) && isString == es[0].value.String?
    ensures !done ==> es[0].key.Some? && span == FirstSpan(es[0], start) && (|es| == 1 || i == NextStart(es[0], start))
    ensures !done ==> At(body, i, [], es[1..], post)
  {
    model, isString, span := false, false, Span(0, 0);
    done, i := SkipToKey(body, start, gap, es, post);
    if done {
      return;
    }
    model, isString, span, i := ScanMember(body, i, start, es[0], AfterFirst(es, post));
    AfterMember(body, i, es, post);
    if body[i] == COMMA {
      i := i + 1;
    }
  }

  lemma Snoc(spans: seq<Span>, span: Span, more: seq<Span>)
    ensures spans + ([span] + more) == spans + [span] + more
    ensures spans + [] == spans
  {
  }

  /** The ranges of the top-level model values of a valid text. */
  method TopLevelModelSpans(body: Bytes, ghost d: Doc) returns (r: Result<seq<Span>, BodyError>)
    requires ValidDoc(d) && RenderDoc(d) == body
    ensures r == SpansOf(d)
  {
    var isObject, i := EnterObject(body, d);
    if !isObject {
      return Err(NotObject);
    }
    ghost var gap, es, all := d.value.gap, d.value.elems, ModelSpans(d.value.elems, i);
    var spans: seq<Span> := [];
    while true
      invariant At(body, i, gap, es, d.post)
      invariant spans + ModelSpans(es, i) == all
      invariant AllModelsAreStrings(es) <==> AllModelsAreStrings(d.value.elems)
      decreases |es|
    {
      var done, model, isString, span, next := NextMember(body, i, gap, es, d.post);
      if done {
        Snoc(spans, span, []);
        return Ok(spans);
      }
      Found(es, i, span, next);
      if model {
        if !isString {
          return Err(ModelNotString);
        }
        Snoc(spans, span, ModelSpans(es[1..], next));
        spans := spans + [span];
      }
      i, gap, es := next, [], es[1..];
    }
  }

  // ---- what the rewrite means ----

  /** The same members with the value of every one named "model" replaced. */
  ghost function ReplaceElems(es: seq<Elem>, name: seq<StrChar>): (r: seq<Elem>)
    ensures |r| == |es|
  {
    if es == [] then []
    else [if IsModelMember(es[0]) then es[0].(value := String(name)) else es[0]] + ReplaceElems(es[1..], name)
  }

  ghost function ReplaceDoc(d: Doc, name: seq<StrChar>): Doc
    requires d.value.Group?
  {
    d.(value := d.value.(elems := ReplaceElems(d.value.elems, name)))
  }

  ghost predicate HasModel(es: seq<Elem>) {
    es != [] && (IsModelMember(es[0]) || HasModel(es[1..]))
  }

  /** What the rewrite of a valid text is. */
  ghost function Rewritten(d: Doc, name: seq<StrChar>): Result<Bytes, BodyError> {
    if !(d.value.Group? && d.value.braces) then Err(NotObject)
    else if !AllModelsAreStrings(d.value.elems) then Err(ModelNotString)
    else if !HasModel(d.value.elems) then Err(NoModel)
    else Ok(RenderDoc(ReplaceDoc(d, name)))
  }

  /** Spans that lie in order within a text, from a position on. */
  ghost predicate Ordered(spans: seq<Span>, from: nat, end: nat) {
    from <= end && (spans != [] ==> from <= spans[0].start <= spans[0].end && Ordered(spans[1..], spans[0].end, end))
  }

  /** The text from a position on, with every span's bytes replaced. */
  ghost function Splice(b: Bytes, spans: seq<Span>, from: nat, v: Bytes): Bytes
    requires Ordered(spans, from, |b|)
  {
    if spans == [] then b[from..]
    else
      assert Ordered(spans[1..], spans[0].end, |b|);
      b[from..spans[0].start] + v + Splice(b, spans[1..], spans[0].end, v)
  }

  lemma SpliceStep(b: Bytes, spans: seq<Span>, k: nat, from: nat, v: Bytes, out: Bytes)
    requires k < |spans| && Ordered(spans[k..], from, |b|)
    ensures from <= spans[k].start <= spans[k].end <= |b| && Ordered(spans[k + 1..], spans[k].end, |b|)
    ensures out + Splice(b, spans[k..], from, v) ==
      out + b[from..spans[k].start] + v + Splice(b, spans[k + 1..], spans[k].end, v)
  {
    assert spans[k..][1..] == spans[k + 1..] && spans[k..][0] == spans[k];
    var head, more := b[from..spans[k].start], Splice(b, spans[k + 1..], spans[k].end, v);
    assert out + (head + v + more) == out + head + v + more;
  }

  method SpliceSpans(body: Bytes, spans: seq<Span>, newVal: Bytes) returns (out: Bytes)
    requires Ordered(spans, 0, |body|)
    ensures out == Splice(body, spans, 0, newVal)
  {
    out := [];
    var prev: nat := 0;
    ghost var whole := Splice(body, spans, 0, newVal);
    for k := 0 to |spans|
      invariant prev <= |body| && Ordered(spans[k..], prev, |body|)
      invariant whole == out + Splice(body, spans[k..], prev, newVal)
    {
      SpliceStep(body, spans, k, prev, newVal, out);
      out := out + body[prev..spans[k].start] + newVal;
      prev := spans[k].end;
    }
    out := out + body[prev..];
  }

  // ---- splicing, over plain bytes ----

  lemma Join(b: Bytes, p: nat, q: nat, r: nat)
    requires p <= q <= r <= |b|
    ensures b[p..r] == b[p..q] + b[q..r] && b[p..] == b[p..q] + b[q..]
  {
  }

  /** The splice of some members of a text: p is how far the copy has come, off where they start. */
  ghost predicate Spliced(b: Bytes, p: nat, off: nat, spans: seq<Span>, v: Bytes, text: Bytes) {
    p <= off <= |b| && Ordered(spans, p, |b|) && Splice(b, spans, p, v) == b[p..off] + text
  }

  /** A span starts after k: what is copied before it, its replacement, and what follows. */
  lemma SpliceOver(b: Bytes, p: nat, off: nat, k: Bytes, val: Bytes, q: Bytes, after: Bytes,
                   at: Span, more: seq<Span>, v: Bytes, rest: Bytes)
    requires p <= off <= |b| && b[off..] == k + (val + (q + after))
    requires at.start == off + |k| && at.end == at.start + |val|
    requires Spliced(b, at.end, at.end + |q|, more, v, rest)
    ensures Spliced(b, p, off, [at] + more, v, k + v + q + rest)
  {
    Pass(b, off, k, val + (q + after));
    Pass(b, at.start, val, q + after);
    Pass(b, at.end, q, after);
    Join(b, p, off, at.start);
    SpliceFirst(b, at, more, p, v, b[p..off], k, q, rest);
  }

  lemma SpliceFirst(b: Bytes, at: Span, more: seq<Span>, p: nat, v: Bytes, x: Bytes, k: Bytes, q: Bytes, r: Bytes)
    requires p <= at.start <= at.end && Ordered(more, at.end, |b|)
    requires at.end <= |b| && b[p..at.start] == x + k && Splice(b, more, at.end, v) == q + r
    ensures Ordered([at] + more, p, |b|)
    ensures Splice(b, [at] + more, p, v) == x + (k + v + q + r)
  {
    assert ([at] + more)[1..] == more;
    assert x + k + v + (q + r) == x + (k + v + q + r);
  }

  /** No span in m: it is copied. */
  lemma SplicePast(b: Bytes, p: nat, off: nat, m: Bytes, after: Bytes, spans: seq<Span>, v: Bytes, rest: Bytes)
    requires p <= off <= |b| && b[off..] == m + after
    requires Spliced(b, p, off + |m|, spans, v, rest)
    ensures Spliced(b, p, off, spans, v, m + rest)
  {
    Pass(b, off, m, after);
    Join(b, p, off, off + |m|);
    assert b[p..off] + m + rest == b[p..off] + (m + rest);
  }

  // ---- splicing the members of an object ----

  /** What follows the first of some members. */
  ghost function Rest(es: seq<Elem>, tail: Bytes): Bytes
    requires es != []
  {
    if |es| == 1 then tail else [COMMA] + (RenderElems(es[1..]) + tail)
  }

  lemma RestText(es: seq<Elem>, tail: Bytes)
    requires es != []
    ensures RenderElems(es) + tail == RenderElem(es[0]) + Rest(es, tail)
  {
    if |es| > 1 {
      var head, more := RenderElem(es[0]), RenderElems(es[1..]);
      assert head + [COMMA] + more + tail == head + ([COMMA] + (more + tail));
    }
  }

  lemma Renamed(e: Elem, name: seq<StrChar>)
    ensures RenderElem(e.(value := String(name))) == RenderKey(e.key) + e.pre + Quoted(name) + e.post
  {
  }

  lemma ElemParts(e: Elem, after: Bytes)
    ensures |RenderElem(e)| == |RenderKey(e.key)| + |e.pre| + |Render(e.value)| + |e.post|
    ensures RenderElem(e) + after == RenderKey(e.key) + e.pre + (Render(e.value) + (e.post + after))
  {
    hide RenderKey, Render;
    var k, val := RenderKey(e.key) + e.pre, Render(e.value);
    assert k + val + e.post + after == k + (val + (e.post + after));
  }

  lemma SpliceModel(b: Bytes, p: nat, off: nat, e: Elem, after: Bytes, at: Span, more: seq<Span>, v: Bytes, rest: Bytes)
    requires p <= off <= |b| && b[off..] == RenderElem(e) + after
    requires at.start == off + |RenderKey(e.key)| + |e.pre| && at.end == at.start + |Render(e.value)|
    requires Spliced(b, at.end, at.end + |e.post|, more, v, rest)
    ensures Spliced(b, p, off, [at] + more, v, RenderKey(e.key) + e.pre + v + e.post + rest)
  {
    hide RenderElem, RenderKey, Render, Spliced;
    ElemParts(e, after);
    SpliceOver(b, p, off, RenderKey(e.key) + e.pre, Render(e.value), e.post, after, at, more, v, rest);
  }

  /** Splicing the models of some members renders those members with their models replaced. */
  lemma {:induction false} SpliceElems(b: Bytes, p: nat, off: nat, es: seq<Elem>, tail: Bytes, name: seq<StrChar>)
    requires p <= off <= |b| && b[off..] == RenderElems(es) + tail
    ensures Spliced(b, p, off, ModelSpans(es, off), Quoted(name), RenderElems(ReplaceElems(es, name)) + tail)
    decreases |es|, 1
  {
    if es == [] {
      SpliceNone(b, p, off, tail, name);
    } else {
      hide RenderElem, RenderElems, ReplaceElems, Rest, ModelSpans, Spliced;
      RestText(es, tail);
      ReplacedText(es, tail, name);
      if IsModelMember(es[0]) {
        SpliceRenamed(b, p, off, es, tail, name);
      } else {
        SpliceOther(b, p, off, es, tail, name);
      }
    }
  }

  lemma SpliceNone(b: Bytes, p: nat, off: nat, tail: Bytes, name: seq<StrChar>)
    requires p <= off <= |b| && b[off..] == tail
    ensures Spliced(b, p, off, ModelSpans([], off), Quoted(name), RenderElems(ReplaceElems([], name)) + tail)
  {
    assert RenderElems([]) + tail == tail;
    Join(b, p, off, off);
  }

  /** What the first member becomes. */
  ghost function FirstText(e: Elem, name: seq<StrChar>): Bytes {
    if IsModelMember(e) then RenderKey(e.key) + e.pre + Quoted(name) + e.post else RenderElem(e)
  }

  lemma ReplacedText(es: seq<Elem>, tail: Bytes, name: seq<StrChar>)
    requires es != []
    ensures ReplaceElems(es, name) != []
    ensures RenderElems(ReplaceElems(es, name)) + tail == FirstText(es[0], name) + Rest(ReplaceElems(es, name), tail)
  {
    RestText(ReplaceElems(es, name), tail);
    Renamed(es[0], name);
    hide RenderElem, Render;
  }

  lemma {:induction false} SpliceRenamed(b: Bytes, p: nat, off: nat, es: seq<Elem>, tail: Bytes, name: seq<StrChar>)
    requires es != [] && IsModelMember(es[0])
    requires p <= off <= |b| && b[off..] == RenderElem(es[0]) + Rest(es, tail)
    ensures ReplaceElems(es, name) != []
    ensures Spliced(b, p, off, ModelSpans(es, off), Quoted(name),
                    FirstText(es[0], name) + Rest(ReplaceElems(es, name), tail))
    decreases |es|, 0, 1
  {
    hide RenderElem, RenderKey, Render, Spliced, Quoted, ReplaceElems, Rest, IsModelMember;
    var e, after, next := es[0], Rest(es, tail), off + |RenderElem(es[0])|;
    ElemParts(e, after);
    var start := off + |RenderKey(e.key)| + |e.pre|;
    var at := Span(start, start + |Render(e.value)|);
    var more, rest := ModelSpans(es[1..], next + 1), Rest(ReplaceElems(es, name), tail);
    assert ModelSpans(es, off) == [at] + more;
    Pass(b, off, RenderElem(e), after);
    SpliceRest(b, at.end, next, es, tail, name);
    SpliceModel(b, p, off, e, after, at, more, Quoted(name), rest);
  }

  lemma {:induction false} SpliceOther(b: Bytes, p: nat, off: nat, es: seq<Elem>, tail: Bytes, name: seq<StrChar>)
    requires es != [] && !IsModelMember(es[0])
    requires p <= off <= |b| && b[off..] == RenderElem(es[0]) + Rest(es, tail)
    ensures ReplaceElems(es, name) != []
    ensures Spliced(b, p, off, ModelSpans(es, off), Quoted(name),
                    FirstText(es[0], name) + Rest(ReplaceElems(es, name), tail))
    decreases |es|, 0, 1
  {
    hide RenderElem, Spliced, Quoted, ReplaceElems, Rest, IsModelMember;
    var m, after, at := RenderElem(es[0]), Rest(es, tail), off + |RenderElem(es[0])|;
    var spans, v, rest := ModelSpans(es[1..], at + 1), Quoted(name), Rest(ReplaceElems(es, name), tail);
    assert at <= |b| && b[at..] == after by { Pass(b, off, m, after); }
    assert Spliced(b, p, at, spans, v, rest) by { SpliceRest(b, p, at, es, tail, name); }
    assert Spliced(b, p, off, spans, v, m + rest) by { SplicePast(b, p, off, m, after, spans, v, rest); }
    assert ModelSpans(es, off) == spans;
  }

  /** What follows the first member, before and after the replacement. */
  lemma RestOfMore(es: seq<Elem>, tail: Bytes, name: seq<StrChar>)
    requires |es| > 1
    ensures Rest(es, tail) == [COMMA] + (RenderElems(es[1..]) + tail)
    ensures Rest(ReplaceElems(es, name), tail) == [COMMA] + (RenderElems(ReplaceElems(es[1..], name)) + tail)
  {
    hide RenderElems;
    assert ReplaceElems(es, name)[1..] == ReplaceElems(es[1..], name);
  }

  lemma NoMore(b: Bytes, p: nat, at: nat, e: Elem, tail: Bytes, name: seq<StrChar>)
    requires p <= at <= |b| && b[at..] == Rest([e], tail)
    ensures Spliced(b, p, at, ModelSpans([e][1..], at + 1), Quoted(name), Rest(ReplaceElems([e], name), tail))
  {
    assert [e][1..] == [];
    Join(b, p, at, at);
  }

  lemma {:induction false} SpliceRest(b: Bytes, p: nat, at: nat, es: seq<Elem>, tail: Bytes, name: seq<StrChar>)
    requires es != [] && p <= at <= |b| && b[at..] == Rest(es, tail)
    ensures Spliced(b, p, at, ModelSpans(es[1..], at + 1), Quoted(name), Rest(ReplaceElems(es, name), tail))
    decreases |es|, 0, 0
  {
    hide RenderElems, ReplaceElems, Rest, Spliced, ModelSpans, Quoted;
    if |es| == 1 {
      assert es == [es[0]];
      NoMore(b, p, at, es[0], tail, name);
    } else {
      var after, done := RenderElems(es[1..]) + tail, RenderElems(ReplaceElems(es[1..], name)) + tail;
      RestOfMore(es, tail, name);
      Pass(b, at, [COMMA], after);
      SpliceElems(b, p, at + 1, es[1..], tail, name);
      SplicePast(b, p, at, [COMMA], after, ModelSpans(es[1..], at + 1), Quoted(name), done);
    }
  }

  // ---- the rewrite ----

  lemma ObjectText(d: Doc)
    requires d.value.Group? && d.value.braces && d.value.gap == []
    ensures RenderDoc(d) == d.pre + [OPEN_BRACE] + (RenderElems(d.value.elems) + ([CLOSE_BRACE] + d.post))
  {
    var es := RenderElems(d.value.elems);
    assert [OPEN_BRACE] + [] + es + [CLOSE_BRACE] == [OPEN_BRACE] + es + [CLOSE_BRACE];
    assert d.pre + ([OPEN_BRACE] + es + [CLOSE_BRACE]) + d.post ==
      d.pre + [OPEN_BRACE] + (es + ([CLOSE_BRACE] + d.post));
  }

  /** Splicing the top-level model spans of an object gives the object with its models replaced. */
  lemma SpliceObject(d: Doc, name: seq<StrChar>)
    requires ValidDoc(d) && d.value.Group? && d.value.braces
    ensures var spans := ModelSpans(d.value.elems, |d.pre| + 1);
      Ordered(spans, 0, |RenderDoc(d)|) &&
        Splice(RenderDoc(d), spans, 0, Quoted(name)) == RenderDoc(ReplaceDoc(d, name))
  {
    var b, es, tail := RenderDoc(d), d.value.elems, [CLOSE_BRACE] + d.post;
    if es != [] {
      var head, text, done := d.pre + [OPEN_BRACE], RenderElems(es) + tail, RenderElems(ReplaceElems(es, name)) + tail;
      assert b == head + text by { ObjectText(d); }
      assert RenderDoc(ReplaceDoc(d, name)) == head + done by { ObjectText(ReplaceDoc(d, name)); }
      assert b[|head|..] == text && b[0..|head|] == head;
      SpliceElems(b, 0, |head|, es, tail, name);
    }
  }

  lemma {:induction false} NoSpans(es: seq<Elem>, off: nat)
    ensures ModelSpans(es, off) == [] <==> !HasModel(es)
  {
    if es != [] { NoSpans(es[1..], off + |RenderElem(es[0])| + 1); }
  }

  /** Replaces every top-level model of a body and leaves every other byte as it was. valid is
      the verdict of the JSON check, which accepts only JSON texts; name the encoded new model. */
  method MutateAnthropicBody(body: Bytes, valid: bool, name: seq<StrChar>) returns (r: Result<Bytes, BodyError>)
    requires valid ==> IsJson(body)
    requires ValidChars(name)
    ensures !valid ==> r == Err(NotJson)
    ensures valid ==> forall d | ValidDoc(d) && RenderDoc(d) == body :: r == Rewritten(d, name)
  {
    if !valid {
      return Err(NotJson);
    }
    ghost var d :| ValidDoc(d) && RenderDoc(d) == body;
    forall d2 | ValidDoc(d2) && RenderDoc(d2) == body ensures d2 == d { Unambiguous(d, d2); }
    var spans := TopLevelModelSpans(body, d);
    if spans.Err? {
      return Err(spans.error);
    }
    NoSpans(d.value.elems, |d.pre| + 1);
    if |spans.value| == 0 {
      return Err(NoModel);
    }
    SpliceObject(d, name);
    var out := SpliceSpans(body, spans.value, Quoted(name));
    return Ok(out);
  }

  // ---- what a reader of the new body sees ----

  lemma {:induction false} ReplaceKeepsValid(es: seq<Elem>, name: seq<StrChar>)
    requires ValidElems(true, es) && ValidChars(name)
    ensures ValidElems(true, ReplaceElems(es, name))
  {
    if es != [] {
      ReplaceKeepsValid(es[1..], name);
      assert ReplaceElems(es, name)[1..] == ReplaceElems(es[1..], name);
    }
  }

  lemma {:induction false} ReplaceAt(es: seq<Elem>, name: seq<StrChar>, i: nat)
    requires i < |es|
    ensures ReplaceElems(es, name)[i] == if IsModelMember(es[i]) then es[i].(value := String(name)) else es[i]
  {
    if i > 0 { ReplaceAt(es[1..], name, i - 1); }
  }

  /** Whatever valid document the new body is read as, it has the same members in the same
      order and layout; every top-level model, however its key is spelled and however often it
      occurs, has the new value, and every other value, nested models included, is untouched. */
  lemma RewriteMeaning(d: Doc, name: seq<StrChar>, read: Doc)
    requires ValidDoc(d) && ValidChars(name) && Rewritten(d, name).Ok?
    requires ValidDoc(read) && RenderDoc(read) == Rewritten(d, name).value
    ensures read.value.Group? && read.value.braces && |read.value.elems| == |d.value.elems|
    ensures read.pre == d.pre && read.post == d.post
    ensures forall i | 0 <= i < |d.value.elems| ::
      var was, now := d.value.elems[i], read.value.elems[i];
      && now.key == was.key && now.pre == was.pre && now.post == was.post
      && now.value == if IsModelMember(was) then String(name) else was.value
  {
    ReplaceKeepsValid(d.value.elems, name);
    Unambiguous(read, ReplaceDoc(d, name));
    forall i | 0 <= i < |d.value.elems|
      ensures read.value.elems[i] ==
        if IsModelMember(d.value.elems[i]) then d.value.elems[i].(value := String(name)) else d.value.elems[i]
    {
      ReplaceAt(d.value.elems, name, i);
    }
  }

  /** The new body is valid JSON. */
  lemma RewriteIsJson(d: Doc, name: seq<StrChar>)
    requires ValidDoc(d) && ValidChars(name) && Rewritten(d, name).Ok?
    ensures IsJson(Rewritten(d, name).value)
  {
    ReplaceKeepsValid(d.value.elems, name);
    assert ValidDoc(ReplaceDoc(d, name));
  }

  /** Rewriting again, as a second hop does, gives what rewriting once with the last name does. */
  lemma RewriteTwice(d: Doc, first: seq<StrChar>, second: seq<StrChar>)
    requires ValidDoc(d) && ValidChars(first) && Rewritten(d, first).Ok?
    ensures Rewritten(ReplaceDoc(d, first), second) == Rewritten(d, second)
  {
    ReplaceTwice(d.value.elems, first, second);
  }

  lemma {:induction false} ReplaceTwice(es: seq<Elem>, first: seq<StrChar>, second: seq<StrChar>)
    ensures ReplaceElems(ReplaceElems(es, first), second) == ReplaceElems(es, second)
    ensures AllModelsAreStrings(ReplaceElems(es, first)) && (HasModel(ReplaceElems(es, first)) <==> HasModel(es))
  {
    if es != [] {
      ReplaceTwice(es[1..], first, second);
      assert ReplaceElems(es, first)[1..] == ReplaceElems(es[1..], first);
    }
  }
}
