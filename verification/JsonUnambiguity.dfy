/** A text has at most one reading: rendering valid trees is injective. */
module JsonUnambiguity {
  import opened Common
  import opened JsonGrammar
  import opened JsonScan

  lemma CancelSpace(w1: Bytes, r1: Bytes, w2: Bytes, r2: Bytes)
    requires AllSpace(w1) && AllSpace(w2) && w1 + r1 == w2 + r2
    requires (r1 == [] || !IsSpace(r1[0])) && (r2 == [] || !IsSpace(r2[0]))
    ensures w1 == w2 && r1 == r2
  {
    SpaceRun(w1, r1);
    SpaceRun(w2, r2);
    CancelPrefix(w1, r1, w2, r2);
  }

  lemma CancelQuoted(cs1: seq<StrChar>, r1: Bytes, cs2: seq<StrChar>, r2: Bytes)
    requires ValidChars(cs1) && ValidChars(cs2) && Quoted(cs1) + r1 == Quoted(cs2) + r2
    ensures cs1 == cs2 && r1 == r2
  {
    StringEnd(cs1, r1);
    StringEnd(cs2, r2);
    CancelPrefix(Quoted(cs1), r1, Quoted(cs2), r2);
    var t1, t2 := RenderChars(cs1), RenderChars(cs2);
    assert Quoted(cs1)[1..|Quoted(cs1)| - 1] == t1 && Quoted(cs2)[1..|Quoted(cs2)| - 1] == t2;
    CharsInjective(cs1, cs2);
  }

  lemma {:induction false} CharsInjective(cs1: seq<StrChar>, cs2: seq<StrChar>)
    requires ValidChars(cs1) && ValidChars(cs2) && RenderChars(cs1) == RenderChars(cs2)
    ensures cs1 == cs2
  {
    if cs1 == [] || cs2 == [] {
    } else {
      var a, b := RenderChar(cs1[0]), RenderChar(cs2[0]);
      var s, t := RenderChars(cs1[1..]), RenderChars(cs2[1..]);
      assert (a + s)[0] == (b + t)[0];
      SameChar(cs1[0], s, cs2[0], t);
      CharsInjective(cs1[1..], cs2[1..]);
      assert cs1 == [cs1[0]] + cs1[1..] && cs2 == [cs2[0]] + cs2[1..];
    }
  }

  lemma SameChar(c1: StrChar, s1: Bytes, c2: StrChar, s2: Bytes)
    requires ValidChar(c1) && ValidChar(c2) && RenderChar(c1) + s1 == RenderChar(c2) + s2
    ensures c1 == c2 && s1 == s2
  {
    var a, b := RenderChar(c1), RenderChar(c2);
    var s := a + s1;
    assert s == b + s2;
    assert s[0] == a[0] && s[0] == b[0];
    if s[0] == BACKSLASH { assert s[1] == a[1] && s[1] == b[1]; }
    CancelPrefix(a, s1, b, s2);
    if c1.Unicode? { assert a[2..] == c1.hex && b[2..] == c2.hex; }
  }

  /** Where a value can be followed: the end, a comma, a closing bracket or space. */
  predicate Stops(r: Bytes) {
    r == [] || EndsScalar(r[0])
  }

  lemma {:induction false} CancelValue(v1: Value, r1: Bytes, v2: Value, r2: Bytes)
    requires Valid(v1) && Valid(v2) && Stops(r1) && Stops(r2) && Render(v1) + r1 == Render(v2) + r2
    ensures v1 == v2 && r1 == r2
    decreases v1, 2
  {
    ValueEnd(v1, r1);
    ValueEnd(v2, r2);
    CancelPrefix(Render(v1), r1, Render(v2), r2);
    SameKind(v1, v2);
    match v1
    case Literal(_) =>
    case Number(_) =>
    case String(cs) => CancelQuoted(cs, [], v2.chars, []);
    case Group(braces, gap, es) =>
      GroupText(v1);
      GroupText(v2);
      CancelGap(braces, gap, es, v2.gap, v2.elems);
  }

  lemma GroupText(v: Value)
    requires v.Group?
    ensures Render(v)[0] == Opening(v.braces)
    ensures Render(v)[1..] == v.gap + (RenderElems(v.elems) + [Closing(v.braces)])
  {
  }

  lemma SameKind(v1: Value, v2: Value)
    requires Valid(v1) && Valid(v2) && Render(v1) == Render(v2)
    ensures v1.Literal? == v2.Literal? && v1.Number? == v2.Number? && v1.String? == v2.String? && v1.Group? == v2.Group?
    ensures v1.Group? ==> v1.braces == v2.braces
  {
    FirstByte(v1);
    FirstByte(v2);
  }

  lemma FirstByte(v: Value)
    requires Valid(v)
    ensures Render(v) != []
    ensures v.String? <==> Render(v)[0] == QUOTE
    ensures v.Group? <==> IsOpening(Render(v)[0])
    ensures v.Group? ==> (v.braces <==> Render(v)[0] == OPEN_BRACE)
    ensures v.Number? <==> IsDigit(Render(v)[0]) || Render(v)[0] == MINUS
  {
    match v
    case Literal(_) =>
    case Number(s) => FirstOfNumber(s);
    case String(cs) =>
    case Group(braces, gap, es) =>
  }

  lemma FirstOfNumber(s: Bytes)
    requires IsNumber(s)
    ensures s != [] && (IsDigit(s[0]) || s[0] == MINUS)
  {
    var i, j :| 0 <= i <= j <= |s|
      && (IsInt(s[..i]) || (i > 0 && s[0] == MINUS && IsInt(s[1..i])))
      && IsFraction(s[i..j]) && IsExponent(s[j..]);
    if IsInt(s[..i]) { assert s[0] == s[..i][0]; }
  }

  /** Space before an element's first byte that is not space. */
  function Lead(e: Elem): Bytes {
    if e.key.Some? then e.key.value.pre else e.pre
  }

  function AfterLead(e: Elem): Bytes {
    if e.key.Some?
    then Quoted(e.key.value.chars) + (e.key.value.post + ([COLON] + (e.pre + (Render(e.value) + e.post))))
    else Render(e.value) + e.post
  }

  lemma SplitLead(braces: bool, e: Elem)
    requires ValidElem(braces, e)
    ensures RenderElem(e) == Lead(e) + AfterLead(e) && AllSpace(Lead(e))
    ensures AfterLead(e) != [] && !IsSpace(AfterLead(e)[0]) && !IsClosing(AfterLead(e)[0])
  {
    var text, tail := Render(e.value), Render(e.value) + e.post;
    ValueStart(e.value);
    assert RenderElem(e) == RenderKey(e.key) + (e.pre + tail) by {
      ElemTail(e, []);
      assert RenderElem(e) + [] == RenderElem(e) && e.post + [] == e.post;
    }
    if e.key.Some? {
      KeyText(e.key.value, e.pre + tail);
    } else {
      assert [] + (e.pre + tail) == e.pre + tail;
    }
  }

  lemma ValueStart(v: Value)
    requires Valid(v)
    ensures Render(v) != [] && !IsSpace(Render(v)[0]) && !EndsScalar(Render(v)[0]) && !IsClosing(Render(v)[0])
  {
    FirstByte(v);
  }

  /** The text of a group after its gap. */
  function Inside(braces: bool, es: seq<Elem>): Bytes {
    RenderElems(es) + [Closing(braces)]
  }

  function Following(braces: bool, es: seq<Elem>): Bytes
    requires es != []
  {
    if |es| == 1 then [Closing(braces)] else [COMMA] + Inside(braces, es[1..])
  }

  lemma InsideFirst(braces: bool, es: seq<Elem>)
    requires es != []
    ensures Inside(braces, es) == RenderElem(es[0]) + Following(braces, es)
  {
    if |es| > 1 {
      var head, tail := RenderElem(es[0]), RenderElems(es[1..]);
      assert head + [COMMA] + tail + [Closing(braces)] == head + ([COMMA] + (tail + [Closing(braces)]));
    }
  }

  lemma {:induction false} CancelGap(braces: bool, g1: Bytes, es1: seq<Elem>, g2: Bytes, es2: seq<Elem>)
    requires AllSpace(g1) && AllSpace(g2) && (es1 != [] ==> g1 == []) && (es2 != [] ==> g2 == [])
    requires ValidElems(braces, es1) && ValidElems(braces, es2)
    requires g1 + Inside(braces, es1) == g2 + Inside(braces, es2)
    ensures g1 == g2 && es1 == es2
    decreases es1, 3
  {
    var w1, t1 := LeadOfGroup(braces, g1, es1);
    var w2, t2 := LeadOfGroup(braces, g2, es2);
    CancelSpace(w1, t1, w2, t2);
    if es1 != [] && es2 != [] {
      assert [] + Inside(braces, es1) == Inside(braces, es1) && [] + Inside(braces, es2) == Inside(braces, es2);
      CancelElems(braces, es1, es2);
    }
  }

  lemma LeadOfGroup(braces: bool, g: Bytes, es: seq<Elem>) returns (w: Bytes, t: Bytes)
    requires AllSpace(g) && (es != [] ==> g == []) && ValidElems(braces, es)
    ensures g + Inside(braces, es) == w + t && AllSpace(w) && t != [] && !IsSpace(t[0])
    ensures es == [] <==> IsClosing(t[0])
    ensures es == [] ==> w == g
  {
    if es == [] {
      w, t := g, [Closing(braces)];
      assert Inside(braces, es) == t;
    } else {
      w, t := LeadOfElems(braces, es);
      assert g + Inside(braces, es) == Inside(braces, es);
    }
  }

  lemma LeadOfElems(braces: bool, es: seq<Elem>) returns (w: Bytes, t: Bytes)
    requires es != [] && ValidElems(braces, es)
    ensures Inside(braces, es) == w + t && AllSpace(w) && t != [] && !IsSpace(t[0]) && !IsClosing(t[0])
  {
    SplitLead(braces, es[0]);
    InsideFirst(braces, es);
    w, t := Lead(es[0]), AfterLead(es[0]) + Following(braces, es);
    SplitBytes(Inside(braces, es), RenderElem(es[0]), w, AfterLead(es[0]), Following(braces, es));
  }

  lemma SplitBytes(whole: Bytes, head: Bytes, lead: Bytes, mid: Bytes, rest: Bytes)
    requires whole == head + rest && head == lead + mid && mid != []
    ensures whole == lead + (mid + rest) && (mid + rest)[0] == mid[0]
  {
  }

  lemma {:induction false} CancelElems(braces: bool, es1: seq<Elem>, es2: seq<Elem>)
    requires ValidElems(braces, es1) && ValidElems(braces, es2) && es1 != [] && es2 != []
    requires Inside(braces, es1) == Inside(braces, es2)
    ensures es1 == es2
    decreases es1, 2
  {
    InsideFirst(braces, es1);
    InsideFirst(braces, es2);
    var f1, f2 := Following(braces, es1), Following(braces, es2);
    CancelElem(braces, es1[0], f1, es2[0], f2);
    if |es1| > 1 && |es2| > 1 {
      CancelPrefix([COMMA], Inside(braces, es1[1..]), [COMMA], Inside(braces, es2[1..]));
      CancelElems(braces, es1[1..], es2[1..]);
    }
    assert es1 == [es1[0]] + es1[1..] && es2 == [es2[0]] + es2[1..];
  }

  lemma {:induction false} CancelElem(braces: bool, e1: Elem, r1: Bytes, e2: Elem, r2: Bytes)
    requires ValidElem(braces, e1) && ValidElem(braces, e2)
    requires Ends(r1) && Ends(r2)
    requires RenderElem(e1) + r1 == RenderElem(e2) + r2
    ensures e1 == e2 && r1 == r2
    decreases e1, 3
  {
    var s1, s2 := e1.pre + (Render(e1.value) + (e1.post + r1)), e2.pre + (Render(e2.value) + (e2.post + r2));
    ElemTail(e1, r1);
    ElemTail(e2, r2);
    CancelKey(braces, e1.key, s1, e2.key, s2);
    CancelBody(e1, r1, e2, r2);
  }

  predicate Ends(r: Bytes) {
    r != [] && (r[0] == COMMA || IsClosing(r[0]))
  }

  lemma CancelKey(braces: bool, k1: Option<Key>, r1: Bytes, k2: Option<Key>, r2: Bytes)
    requires ValidKey(braces, k1) && ValidKey(braces, k2)
    requires RenderKey(k1) + r1 == RenderKey(k2) + r2
    ensures k1 == k2 && r1 == r2
  {
    if braces {
      var a, b := k1.value, k2.value;
      var a1, b1 := [COLON] + r1, [COLON] + r2;
      var a2, b2 := a.post + a1, b.post + b1;
      KeyText(a, r1);
      KeyText(b, r2);
      CancelSpace(a.pre, Quoted(a.chars) + a2, b.pre, Quoted(b.chars) + b2);
      CancelQuoted(a.chars, a2, b.chars, b2);
      CancelSpace(a.post, a1, b.post, b1);
      CancelPrefix([COLON], r1, [COLON], r2);
    } else {
      assert RenderKey(k1) + r1 == r1 && RenderKey(k2) + r2 == r2;
    }
  }

  lemma {:induction false} CancelBody(e1: Elem, r1: Bytes, e2: Elem, r2: Bytes)
    requires AllSpace(e1.pre) && AllSpace(e2.pre) && AllSpace(e1.post) && AllSpace(e2.post)
    requires Valid(e1.value) && Valid(e2.value) && Ends(r1) && Ends(r2)
    requires e1.pre + (Render(e1.value) + (e1.post + r1)) == e2.pre + (Render(e2.value) + (e2.post + r2))
    ensures e1.pre == e2.pre && e1.value == e2.value && e1.post == e2.post && r1 == r2
    decreases e1, 2
  {
    var t1, t2 := e1.post + r1, e2.post + r2;
    ValueEnd(e1.value, []);
    ValueEnd(e2.value, []);
    CancelSpace(e1.pre, Render(e1.value) + t1, e2.pre, Render(e2.value) + t2);
    CancelValue(e1.value, t1, e2.value, t2);
    CancelSpace(e1.post, r1, e2.post, r2);
  }

  /** Two valid documents with the same text are the same document. */
  lemma Unambiguous(d1: Doc, d2: Doc)
    requires ValidDoc(d1) && ValidDoc(d2) && RenderDoc(d1) == RenderDoc(d2)
    ensures d1 == d2
  {
    assert RenderDoc(d1) == d1.pre + (Render(d1.value) + d1.post);
    assert RenderDoc(d2) == d2.pre + (Render(d2.value) + d2.post);
    ValueEnd(d1.value, []);
    ValueEnd(d2.value, []);
    CancelSpace(d1.pre, Render(d1.value) + d1.post, d2.pre, Render(d2.value) + d2.post);
    CancelValue(d1.value, d1.post, d2.value, d2.post);
  }
}
