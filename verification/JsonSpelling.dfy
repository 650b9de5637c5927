/** The characters behind the grammar's numbers: what each spelling of a character decodes to,
    which members are named model, and which bodies are refused. */
module JsonSpelling {
  import opened Common
  import opened JsonGrammar
  import opened AnthropicBody

  // ---- the alphabet ----

  lemma Punctuation()
    ensures [QUOTE, BACKSLASH, COMMA, COLON, MINUS, PLUS, DOT] == Ascii("\"\\,:-+.")
    ensures [OPEN_BRACE, CLOSE_BRACE, OPEN_BRACKET, CLOSE_BRACKET] == Ascii("{}[]")
  {
  }

  /** Which bytes the grammar takes for space, digits, hex digits and escapes. */
  lemma Alphabet(b: byte)
    ensures IsSpace(b) <==> b as char in " \t\n\r"
    ensures IsDigit(b) <==> b as char in "0123456789"
    ensures IsHex(b) <==> b as char in "0123456789abcdefABCDEF"
    ensures IsEscape(b) <==> b as char in "\"\\/bfnrt"
    ensures ValidChar(Plain(b)) <==> b >= 32 && b as char !in "\"\\"
  {
  }

  lemma Literals(s: Bytes)
    ensures IsLiteral(s) <==> s == Ascii("true") || s == Ascii("false") || s == Ascii("null")
  {
  }

  // ---- what a spelling decodes to ----

  const LOWER := "0123456789abcdef"
  const UPPER := "0123456789ABCDEF"

  /** The byte is the hex digit d, in either case. */
  predicate Writes(b: byte, d: int) {
    0 <= d < 16 && (b as char == LOWER[d] || b as char == UPPER[d])
  }

  /** The four bytes write n in hex. */
  predicate WritesUnit(h: Bytes, n: nat) {
    |h| == 4 && n < 65536
    && Writes(h[0], n / 16 / 16 / 16) && Writes(h[1], n / 16 / 16 % 16)
    && Writes(h[2], n / 16 % 16) && Writes(h[3], n % 16)
  }

  lemma DigitWritten(b: byte, d: int)
    requires 0 <= d < 16
    ensures Writes(b, d) <==> IsHex(b) && HexDigit(b) == d
    ensures IsHex(b) ==> 0 <= HexDigit(b) < 16
  {
  }

  /** Four hex digits, in either case, decode to exactly the number they write. */
  lemma HexWrites(h: Bytes, n: nat)
    requires |h| == 4 && n < 65536
    ensures WritesUnit(h, n) <==> ValidChar(Unicode(h)) && HexValue(h) == n
  {
    var n1 := n / 16;
    var n2 := n1 / 16;
    DigitWritten(h[0], n2 / 16);
    DigitWritten(h[1], n2 % 16);
    DigitWritten(h[2], n1 % 16);
    DigitWritten(h[3], n % 16);
    assert ValidChar(Unicode(h)) <==> IsHex(h[0]) && IsHex(h[1]) && IsHex(h[2]) && IsHex(h[3]);
    if ValidChar(Unicode(h)) {
      hide IsHex, Writes;
      var a, b, c, d := HexDigit(h[0]), HexDigit(h[1]), HexDigit(h[2]), HexDigit(h[3]);
      hide HexDigit;
      LastDigit(n, (a * 16 + b) * 16 + c, d);
      LastDigit(n1, a * 16 + b, c);
      LastDigit(n2, a, b);
    }
  }

  lemma LastDigit(n: nat, q: int, d: int)
    requires 0 <= d < 16
    ensures q * 16 + d == n <==> q == n / 16 && d == n % 16
  {
  }

  /** What one escape letter stands for. */
  predicate Means(e: byte, unit: int) {
    match e as char
    case '"' => unit == 34
    case '\\' => unit == 92
    case '/' => unit == 47
    case 'b' => unit == 8
    case 'f' => unit == 12
    case 'n' => unit == 10
    case 'r' => unit == 13
    case 't' => unit == 9
    case _ => false
  }

  lemma EscapeMeans(e: byte)
    ensures IsEscape(e) <==> Means(e, EscapeUnit(e))
  {
  }

  lemma PlainDecodes(t: Bytes, b: byte)
    requires b >= 32 && b as char !in "\"\\"
    ensures UnquoteTail([b] + t) == Prepend(b as int, UnquoteTail(t))
  {
    Alphabet(b);
    assert [b] == RenderChar(Plain(b));
    hide UnquoteTail, RenderChar;
    UnquoteChar(Plain(b), t);
  }

  lemma EscapeDecodes(t: Bytes, e: byte)
    requires e as char in "\"\\/bfnrt"
    ensures Means(e, EscapeUnit(e))
    ensures UnquoteTail(Ascii("\\") + [e] + t) == Prepend(EscapeUnit(e), UnquoteTail(t))
  {
    Alphabet(e);
    EscapeMeans(e);
    assert Ascii("\\") + [e] == RenderChar(Escape(e));
    hide UnquoteTail, RenderChar, EscapeUnit;
    UnquoteChar(Escape(e), t);
  }

  lemma HexText(h: Bytes)
    ensures Ascii("\\u") + h == RenderChar(Unicode(h))
  {
    assert Ascii("\\u") == [BACKSLASH, 117];
  }

  lemma HexDecodes(t: Bytes, h: Bytes, n: nat)
    requires n < 65536 && WritesUnit(h, n)
    ensures UnquoteTail(Ascii("\\u") + h + t) == Prepend(n, UnquoteTail(t))
  {
    hide UnquoteTail, RenderChar, HexValue, Writes;
    HexWrites(h, n);
    HexText(h);
    UnquoteChar(Unicode(h), t);
  }

  /** Decoding a quoted text character by character: a plain one stands for itself, a backslash
      and a letter for what the letter means, and \u with four hex digits for what they write. */
  lemma Decodes(t: Bytes, b: byte, h: Bytes, n: nat)
    ensures UnquoteTail(Ascii("\"")) == Some([])
    ensures b >= 32 && b as char !in "\"\\" ==> UnquoteTail([b] + t) == Prepend(b as int, UnquoteTail(t))
    ensures b as char in "\"\\/bfnrt" ==>
      exists unit :: Means(b, unit) && UnquoteTail(Ascii("\\") + [b] + t) == Prepend(unit, UnquoteTail(t))
    ensures n < 65536 && WritesUnit(h, n) ==> UnquoteTail(Ascii("\\u") + h + t) == Prepend(n, UnquoteTail(t))
  {
    assert Ascii("\"") == [QUOTE] && UnquoteTail([QUOTE]) == Some([]);
    hide UnquoteTail, WritesUnit, Means;
    if b >= 32 && b as char !in "\"\\" { PlainDecodes(t, b); }
    if b as char in "\"\\/bfnrt" { EscapeDecodes(t, b); }
    if n < 65536 && WritesUnit(h, n) { HexDecodes(t, h, n); }
  }

  // ---- which members are named model ----

  /** The character is this letter, plain or as an escape written in these hex digits. */
  predicate Spells(c: StrChar, letter: char, lower: Bytes, upper: Bytes) {
    (c.Plain? && c.b as char == letter) || c == Unicode(lower) || c == Unicode(upper)
  }

  /** The key is the word model, every letter spelled either way. */
  predicate IsNamedModel(e: Elem) {
    && e.key.Some? && |e.key.value.chars| == 5
    && var cs := e.key.value.chars;
      && Spells(cs[0], 'm', Ascii("006d"), Ascii("006D")) && Spells(cs[1], 'o', Ascii("006f"), Ascii("006F"))
      && Spells(cs[2], 'd', Ascii("0064"), Ascii("0064")) && Spells(cs[3], 'e', Ascii("0065"), Ascii("0065"))
      && Spells(cs[4], 'l', Ascii("006c"), Ascii("006C"))
  }

  lemma WrittenTwice(h: Bytes, n: nat, lower: Bytes, upper: Bytes)
    requires |h| == |lower| == |upper| == 4 && n < 160
    requires [lower[0], lower[1]] == [upper[0], upper[1]] == Ascii("00")
    requires lower[2] == upper[2] == (48 + n / 16) as byte
    requires lower[3] as char == LOWER[n % 16] && upper[3] as char == UPPER[n % 16]
    ensures WritesUnit(h, n) <==> h == lower || h == upper
  {
    assert h == [h[0], h[1], h[2], h[3]] && lower == [lower[0], lower[1], lower[2], lower[3]];
    assert upper == [upper[0], upper[1], upper[2], upper[3]];
    assert n / 16 / 16 == 0 && 0 <= n / 16 < 10;
    assert lower[0] == 48 && lower[1] == 48;
  }

  lemma SpelledOnce(c: StrChar, letter: char, lower: Bytes, upper: Bytes)
    requires 100 <= letter as int < 128 && |lower| == |upper| == 4
    requires [lower[0], lower[1]] == [upper[0], upper[1]] == Ascii("00")
    requires lower[2] == upper[2] == (48 + letter as int / 16) as byte
    requires lower[3] as char == LOWER[letter as int % 16] && upper[3] as char == UPPER[letter as int % 16]
    ensures Spells(c, letter, lower, upper) <==> ValidChar(c) && CharUnit(c) == letter as int
  {
    hide WritesUnit, HexValue;
    match c
    case Plain(b) =>
    case Escape(e) => EscapeMeans(e);
    case Unicode(h) =>
      if |h| == 4 {
        HexWrites(h, letter as int);
        WrittenTwice(h, letter as int, lower, upper);
      }
  }

  lemma LetterSpelled(c: StrChar)
    ensures Spells(c, 'm', Ascii("006d"), Ascii("006D")) <==> ValidChar(c) && CharUnit(c) == 109
    ensures Spells(c, 'o', Ascii("006f"), Ascii("006F")) <==> ValidChar(c) && CharUnit(c) == 111
    ensures Spells(c, 'd', Ascii("0064"), Ascii("0064")) <==> ValidChar(c) && CharUnit(c) == 100
    ensures Spells(c, 'e', Ascii("0065"), Ascii("0065")) <==> ValidChar(c) && CharUnit(c) == 101
    ensures Spells(c, 'l', Ascii("006c"), Ascii("006C")) <==> ValidChar(c) && CharUnit(c) == 108
  {
    hide Spells, CharUnit, ValidChar;
    SpelledOnce(c, 'm', Ascii("006d"), Ascii("006D"));
    SpelledOnce(c, 'o', Ascii("006f"), Ascii("006F"));
    SpelledOnce(c, 'd', Ascii("0064"), Ascii("0064"));
    SpelledOnce(c, 'e', Ascii("0065"), Ascii("0065"));
    SpelledOnce(c, 'l', Ascii("006c"), Ascii("006C"));
  }

  /** The members the rewrite looks for are exactly those named model, in any spelling. */
  lemma NamedModelIff(e: Elem)
    ensures IsModelMember(e) <==> IsNamedModel(e)
  {
    hide Spells, CharUnit, ValidChar, ValidChars, Units;
    if e.key.Some? {
      var cs := e.key.value.chars;
      ValidEach(cs);
      if ValidChars(cs) { UnitsAre(cs); }
      if |cs| == 5 {
        forall i | 0 <= i < 5
          ensures Spells(cs[i], 'm', Ascii("006d"), Ascii("006D")) <==> ValidChar(cs[i]) && CharUnit(cs[i]) == 109
          ensures Spells(cs[i], 'o', Ascii("006f"), Ascii("006F")) <==> ValidChar(cs[i]) && CharUnit(cs[i]) == 111
          ensures Spells(cs[i], 'd', Ascii("0064"), Ascii("0064")) <==> ValidChar(cs[i]) && CharUnit(cs[i]) == 100
          ensures Spells(cs[i], 'e', Ascii("0065"), Ascii("0065")) <==> ValidChar(cs[i]) && CharUnit(cs[i]) == 101
          ensures Spells(cs[i], 'l', Ascii("006c"), Ascii("006C")) <==> ValidChar(cs[i]) && CharUnit(cs[i]) == 108
        {
          LetterSpelled(cs[i]);
        }
        if ValidChars(cs) {
          assert Units(cs) == [Units(cs)[0], Units(cs)[1], Units(cs)[2], Units(cs)[3], Units(cs)[4]];
        }
      }
    }
  }

  lemma {:induction false} ValidEach(cs: seq<StrChar>)
    ensures ValidChars(cs) <==> forall i | 0 <= i < |cs| :: ValidChar(cs[i])
  {
    if cs != [] {
      ValidEach(cs[1..]);
      assert forall i | 0 < i < |cs| :: cs[i] == cs[1..][i - 1];
    }
  }

  lemma {:induction false} UnitsAre(cs: seq<StrChar>)
    requires ValidChars(cs)
    ensures forall i | 0 <= i < |cs| :: ValidChar(cs[i]) && Units(cs)[i] == CharUnit(cs[i])
  {
    if cs != [] { UnitsAre(cs[1..]); }
  }

  // ---- which bodies are refused ----

  lemma {:induction false} HasModelIff(es: seq<Elem>)
    ensures HasModel(es) <==> exists i | 0 <= i < |es| :: IsNamedModel(es[i])
    ensures AllModelsAreStrings(es) <==> forall i | 0 <= i < |es| && IsNamedModel(es[i]) :: es[i].value.String?
  {
    hide IsModelMember, IsNamedModel;
    if es != [] {
      NamedModelIff(es[0]);
      HasModelIff(es[1..]);
      assert forall i | 0 < i < |es| :: es[i] == es[1..][i - 1];
      if j :| 0 <= j < |es[1..]| && IsNamedModel(es[1..][j]) { assert IsNamedModel(es[j + 1]); }
    }
  }

  /** A valid body is refused exactly when it is not an object, when the value of one of its
      members named model is not a string, or when it has no such member. */
  lemma RefusedIff(d: Doc, name: seq<StrChar>)
    requires ValidDoc(d)
    ensures Rewritten(d, name) == Err(NotObject) <==> !(d.value.Group? && d.value.braces)
    ensures Rewritten(d, name) == Err(ModelNotString) <==>
      d.value.Group? && d.value.braces
      && exists i | 0 <= i < |d.value.elems| :: IsNamedModel(d.value.elems[i]) && !d.value.elems[i].value.String?
    ensures Rewritten(d, name) == Err(NoModel) <==>
      d.value.Group? && d.value.braces && forall i | 0 <= i < |d.value.elems| :: !IsNamedModel(d.value.elems[i])
    ensures Rewritten(d, name) != Err(NotJson)
  {
    hide IsNamedModel;
    if d.value.Group? { HasModelIff(d.value.elems); }
  }

  /** And otherwise every reading of the new body has the members named model, in any spelling
      and only those, replaced. */
  lemma NamedModelsReplaced(d: Doc, name: seq<StrChar>, read: Doc)
    requires ValidDoc(d) && ValidChars(name) && Rewritten(d, name).Ok?
    requires ValidDoc(read) && RenderDoc(read) == Rewritten(d, name).value
    ensures read.value.Group? && |read.value.elems| == |d.value.elems|
    ensures forall i | 0 <= i < |d.value.elems| ::
      read.value.elems[i] ==
        if IsNamedModel(d.value.elems[i]) then d.value.elems[i].(value := String(name)) else d.value.elems[i]
  {
    hide IsNamedModel, IsModelMember;
    RewriteMeaning(d, name, read);
    forall i | 0 <= i < |d.value.elems|
      ensures IsModelMember(d.value.elems[i]) <==> IsNamedModel(d.value.elems[i])
    {
      NamedModelIff(d.value.elems[i]);
    }
  }
}
