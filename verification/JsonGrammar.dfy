/** JSON texts with their layout, after sections 2 to 7 of RFC 8259: a concrete syntax
    tree that keeps every byte, so rendering a tree gives back exactly its text. */
module JsonGrammar {
  import opened Common

  const QUOTE: byte := 34
  const BACKSLASH: byte := 92
  const COMMA: byte := 44
  const COLON: byte := 58
  const MINUS: byte := 45
  const PLUS: byte := 43
  const DOT: byte := 46
  const OPEN_BRACE: byte := 123
  const CLOSE_BRACE: byte := 125
  const OPEN_BRACKET: byte := 91
  const CLOSE_BRACKET: byte := 93

  /** One character of a string, as written. */
  datatype StrChar =
    | Plain(b: byte)
    | Escape(e: byte)              // \" \\ \/ \b \f \n \r \t
    | Unicode(hex: Bytes)          // \uXXXX

  datatype Value =
    | Literal(text: Bytes)         // true, false, null
    | Number(text: Bytes)
    | String(chars: seq<StrChar>)
    | Group(braces: bool, gap: Bytes, elems: seq<Elem>) // {...} or [...]; gap is the space of an empty one

  /** An array element, or an object member when it has a key. */
  datatype Elem = Elem(key: Option<Key>, pre: Bytes, value: Value, post: Bytes)
  datatype Key = Key(pre: Bytes, chars: seq<StrChar>, post: Bytes)

  datatype Doc = Doc(pre: Bytes, value: Value, post: Bytes)

  // ---- the grammar ----

  predicate IsSpace(b: byte) {
    b == 32 || b == 9 || b == 10 || b == 13
  }

  predicate AllSpace(s: Bytes) {
    forall i | 0 <= i < |s| :: IsSpace(s[i])
  }

  predicate IsDigit(b: byte) {
    48 <= b <= 57
  }

  predicate AllDigits(s: Bytes) {
    s != [] && forall i | 0 <= i < |s| :: IsDigit(s[i])
  }

  predicate IsHex(b: byte) {
    IsDigit(b) || 65 <= b <= 70 || 97 <= b <= 102
  }

  predicate IsEscape(b: byte) {
    b == 34 || b == 92 || b == 47 || b == 98 || b == 102 || b == 110 || b == 114 || b == 116
  }

  predicate IsLiteral(s: Bytes) {
    s == [116, 114, 117, 101] || s == [102, 97, 108, 115, 101] || s == [110, 117, 108, 108]
  }

  predicate IsInt(s: Bytes) {
    AllDigits(s) && (s[0] == 48 ==> |s| == 1)
  }

  predicate IsFraction(s: Bytes) {
    s == [] || (s[0] == DOT && AllDigits(s[1..]))
  }

  predicate IsExponent(s: Bytes) {
    s == [] || ((s[0] == 101 || s[0] == 69) &&
                (AllDigits(s[1..]) || (|s| > 1 && (s[1] == PLUS || s[1] == MINUS) && AllDigits(s[2..]))))
  }

  ghost predicate IsNumber(s: Bytes) {
    exists i, j | 0 <= i <= j <= |s| ::
      && (IsInt(s[..i]) || (i > 0 && s[0] == MINUS && IsInt(s[1..i])))
      && IsFraction(s[i..j]) && IsExponent(s[j..])
  }

  predicate ValidChar(c: StrChar) {
    match c
    case Plain(b) => b >= 32 && b != QUOTE && b != BACKSLASH
    case Escape(e) => IsEscape(e)
    case Unicode(hex) => |hex| == 4 && forall i | 0 <= i < 4 :: IsHex(hex[i])
  }

  predicate ValidChars(cs: seq<StrChar>) {
    cs != [] ==> ValidChar(cs[0]) && ValidChars(cs[1..])
  }

  ghost predicate ValidKey(braces: bool, k: Option<Key>) {
    match k
    case None => !braces
    case Some(key) => braces && AllSpace(key.pre) && ValidChars(key.chars) && AllSpace(key.post)
  }

  ghost predicate Valid(v: Value)
    decreases v, 1
  {
    match v
    case Literal(s) => IsLiteral(s)
    case Number(s) => IsNumber(s)
    case String(cs) => ValidChars(cs)
    case Group(braces, gap, elems) => AllSpace(gap) && (elems != [] ==> gap == []) && ValidElems(braces, elems)
  }

  ghost predicate ValidElem(braces: bool, e: Elem)
    decreases e, 1
  {
    ValidKey(braces, e.key) && AllSpace(e.pre) && Valid(e.value) && AllSpace(e.post)
  }

  ghost predicate ValidElems(braces: bool, es: seq<Elem>)
    decreases es, 0
  {
    es != [] ==> ValidElem(braces, es[0]) && ValidElems(braces, es[1..])
  }

  ghost predicate ValidDoc(d: Doc) {
    AllSpace(d.pre) && Valid(d.value) && AllSpace(d.post)
  }

  // ---- rendering ----

  function RenderChar(c: StrChar): Bytes {
    match c
    case Plain(b) => [b]
    case Escape(e) => [BACKSLASH, e]
    case Unicode(hex) => [BACKSLASH, 117] + hex
  }

  function RenderChars(cs: seq<StrChar>): Bytes {
    if cs == [] then [] else RenderChar(cs[0]) + RenderChars(cs[1..])
  }

  /** A string with its quotes. */
  function Quoted(cs: seq<StrChar>): Bytes {
    [QUOTE] + RenderChars(cs) + [QUOTE]
  }

  function Opening(braces: bool): byte {
    if braces then OPEN_BRACE else OPEN_BRACKET
  }

  function Closing(braces: bool): byte {
    if braces then CLOSE_BRACE else CLOSE_BRACKET
  }

  function Render(v: Value): Bytes
    decreases v, 1
  {
    match v
    case Literal(s) => s
    case Number(s) => s
    case String(cs) => Quoted(cs)
    case Group(braces, gap, elems) => [Opening(braces)] + gap + RenderElems(elems) + [Closing(braces)]
  }

  function RenderKey(k: Option<Key>): Bytes {
    match k
    case None => []
    case Some(key) => key.pre + Quoted(key.chars) + key.post + [COLON]
  }

  function RenderElem(e: Elem): Bytes
    decreases e, 1
  {
    RenderKey(e.key) + e.pre + Render(e.value) + e.post
  }

  function RenderElems(es: seq<Elem>): Bytes
    decreases es, 0
  {
    if es == [] then []
    else if |es| == 1 then RenderElem(es[0])
    else RenderElem(es[0]) + [COMMA] + RenderElems(es[1..])
  }

  function RenderDoc(d: Doc): Bytes {
    d.pre + Render(d.value) + d.post
  }

  ghost predicate IsJson(text: Bytes) {
    exists d :: ValidDoc(d) && RenderDoc(d) == text
  }

  // ---- what a string denotes ----

  function HexDigit(b: byte): int {
    if IsDigit(b) then b as int - 48 else if b >= 97 then b as int - 87 else b as int - 55
  }

  function EscapeUnit(e: byte): int {
    if e == 98 then 8 else if e == 102 then 12 else if e == 110 then 10
    else if e == 114 then 13 else if e == 116 then 9 else e as int
  }

  function HexValue(h: Bytes): int
    requires |h| == 4
  {
    ((HexDigit(h[0]) * 16 + HexDigit(h[1])) * 16 + HexDigit(h[2])) * 16 + HexDigit(h[3])
  }

  function CharUnit(c: StrChar): int
    requires ValidChar(c)
  {
    match c
    case Plain(b) => b as int
    case Escape(e) => EscapeUnit(e)
    case Unicode(hex) => HexValue(hex)
  }

  /** The characters a string denotes. An escape stands for its UTF-16 unit; other bytes,
      ASCII or not, stand for themselves. */
  function Units(cs: seq<StrChar>): (r: seq<int>)
    requires ValidChars(cs)
    ensures |r| == |cs|
  {
    if cs == [] then [] else [CharUnit(cs[0])] + Units(cs[1..])
  }

  /** "model" */
  const MODEL := [109, 111, 100, 101, 108]

  ghost predicate IsModelMember(e: Elem) {
    e.key.Some? && ValidChars(e.key.value.chars) && Units(e.key.value.chars) == MODEL
  }
}
