/** What survives the translation of a request, field by field: which id, name, argument, text
    and url of the client's blocks ends up where, and why a request is refused. */
module ConversationFields {
  import opened Common
  import opened RequestTranslation
  import M = StreamMeaning

  // ---- the client's blocks ----

  function OfKind(bs: seq<Block>, kind: string): seq<Block> {
    if bs == [] then [] else OfKind(bs[..|bs| - 1], kind) + (if bs[|bs| - 1].kind == kind then [bs[|bs| - 1]] else [])
  }

  function NotOfKind(bs: seq<Block>, kind: string): seq<Block> {
    if bs == [] then []
    else NotOfKind(bs[..|bs| - 1], kind) + (if bs[|bs| - 1].kind != kind then [bs[|bs| - 1]] else [])
  }

  /** The blocks of every message of a role, message by message. */
  function BlocksBy(ms: seq<Msg>, role: string): seq<seq<Block>> {
    if ms == [] then []
    else
      var m := ms[|ms| - 1];
      BlocksBy(ms[..|ms| - 1], role) + (if m.role == role && m.blocks.Some? then [m.blocks.value] else [])
  }

  function All(parts: seq<seq<Block>>): seq<Block> {
    if parts == [] then [] else All(parts[..|parts| - 1]) + parts[|parts| - 1]
  }

  lemma {:induction false} KindAppend(a: seq<Block>, b: seq<Block>, kind: string)
    ensures OfKind(a + b, kind) == OfKind(a, kind) + OfKind(b, kind)
    ensures NotOfKind(a + b, kind) == NotOfKind(a, kind) + NotOfKind(b, kind)
  {
    if b == [] {
      assert a + b == a;
      assert OfKind(a, kind) + [] == OfKind(a, kind) && NotOfKind(a, kind) + [] == NotOfKind(a, kind);
    } else {
      var most, last := b[..|b| - 1], b[|b| - 1];
      FrontOfAppend(a, b);
      KindAppend(a, most, kind);
      Assoc(OfKind(a, kind), OfKind(most, kind), if last.kind == kind then [last] else []);
      Assoc(NotOfKind(a, kind), NotOfKind(most, kind), if last.kind != kind then [last] else []);
    }
  }

  // ---- tool results ----

  /** The output answers the call the block answers, with what the block holds, marked as an
      error if and only if it is one. */
  predicate IsResultOf(o: Out, b: Block) {
    && o.ToolOut? && o.id == b.toolUseId
    && o.content == (if b.isError then "Error: " else "") + b.result
  }

  predicate ResultsMatch(outs: seq<Out>, bs: seq<Block>) {
    |outs| == |bs| && forall k | 0 <= k < |bs| :: IsResultOf(outs[k], bs[k])
  }

  lemma {:induction false} ResultsOfBlocks(bs: seq<Block>)
    ensures ResultsMatch(ToolResults(bs), OfKind(bs, "tool_result"))
  {
    if bs != [] {
      ResultsOfBlocks(bs[..|bs| - 1]);
      var b := bs[|bs| - 1];
      assert "" + b.result == b.result;
    }
  }

  lemma {:induction false} ResultsOfMessages(ms: seq<Msg>)
    ensures ResultsMatch(ResultsOf(ms), OfKind(All(BlocksBy(ms, "user")), "tool_result"))
  {
    if ms != [] {
      var most, m := ms[..|ms| - 1], ms[|ms| - 1];
      ResultsOfMessages(most);
      if m.role == "user" && m.blocks.Some? {
        OneMoreMessage(BlocksBy(most, "user"), m.blocks.value);
        KindAppend(All(BlocksBy(most, "user")), m.blocks.value, "tool_result");
        ResultsOfBlocks(m.blocks.value);
      } else {
        assert ResultsOf(most) + [] == ResultsOf(most) && BlocksBy(most, "user") + [] == BlocksBy(most, "user");
      }
    }
  }

  lemma OneMoreMessage(parts: seq<seq<Block>>, bs: seq<Block>)
    ensures All(parts + [bs]) == All(parts) + bs
  {
    assert (parts + [bs])[..|parts|] == parts;
  }

  // ---- tool calls ----

  predicate IsCallOf(c: Call, b: Block) {
    && (if b.id == "" then c.id == M.Generated else c.id == M.Given(b.id))
    && c.name == b.name && (if b.input == "" then c.args == "{}" else c.args == b.input)
  }

  predicate CallsMatch(calls: seq<Call>, bs: seq<Block>) {
    |calls| == |bs| && forall k | 0 <= k < |bs| :: IsCallOf(calls[k], bs[k])
  }

  lemma {:induction false} CallsOfBlocks(bs: seq<Block>)
    ensures CallsMatch(ToolUses(bs), OfKind(bs, "tool_use"))
  {
    if bs != [] { CallsOfBlocks(bs[..|bs| - 1]); }
  }

  lemma {:induction false} CallsOfMessages(ms: seq<Msg>)
    ensures CallsMatch(CallsOf(ms), OfKind(All(BlocksBy(ms, "assistant")), "tool_use"))
  {
    if ms != [] {
      var most, m := ms[..|ms| - 1], ms[|ms| - 1];
      CallsOfMessages(most);
      if m.role == "assistant" && m.blocks.Some? {
        OneMoreMessage(BlocksBy(most, "assistant"), m.blocks.value);
        KindAppend(All(BlocksBy(most, "assistant")), m.blocks.value, "tool_use");
        CallsOfBlocks(m.blocks.value);
      } else {
        assert CallsOf(most) + [] == CallsOf(most) && BlocksBy(most, "assistant") + [] == BlocksBy(most, "assistant");
      }
    }
  }

  // ---- the user's other content ----

  /** Texts and urls go through; what cannot be sent is named. */
  predicate IsPartOf(images: bool, p: Part, b: Block) {
    match b.kind
    case "text" => p == TextPart(b.text)
    case "image" =>
      if !images then p == TextPart("[image omitted: target model does not support vision]")
      else if b.image.Some? then p == ImagePart(b.image.value)
      else p == TextPart("[image omitted]")
    case "document" => p == TextPart("[document omitted]")
    case kind => p == TextPart("[unsupported content: " + kind + "]")
  }

  predicate PartsMatch(images: bool, ps: seq<Part>, bs: seq<Block>) {
    |ps| == |bs| && forall k | 0 <= k < |bs| :: IsPartOf(images, ps[k], bs[k])
  }

  lemma {:induction false} PartsOfBlocks(images: bool, bs: seq<Block>)
    ensures PartsMatch(images, UserParts(Seen(images, bs)), NotOfKind(bs, "tool_result"))
  {
    if bs != [] {
      var most := bs[..|bs| - 1];
      PartsOfBlocks(images, most);
      assert !images ==> StripAll(bs)[..|StripAll(bs)| - 1] == StripAll(most);
    }
  }

  lemma PartsAppend(images: bool, ps: seq<Part>, bs: seq<Block>, qs: seq<Part>, cs: seq<Block>)
    requires PartsMatch(images, ps, bs) && PartsMatch(images, qs, cs)
    ensures PartsMatch(images, ps + qs, bs + cs)
  {
    hide IsPartOf;
  }

  lemma {:induction false} PartsOfMessages(images: bool, ms: seq<Msg>)
    ensures PartsMatch(images, PartsOf(images, ms), NotOfKind(All(BlocksBy(ms, "user")), "tool_result"))
  {
    hide PartsMatch, UserParts, Seen, NotOfKind, All;
    if ms == [] {
      NoParts(images);
    } else {
      var most, m := ms[..|ms| - 1], ms[|ms| - 1];
      var before := BlocksBy(most, "user");
      PartsOfMessages(images, most);
      if m.role == "user" && m.blocks.Some? {
        OneMoreMessage(before, m.blocks.value);
        KindAppend(All(before), m.blocks.value, "tool_result");
        PartsOfBlocks(images, m.blocks.value);
        PartsAppend(images, PartsOf(images, most), NotOfKind(All(before), "tool_result"),
                    UserParts(Seen(images, m.blocks.value)), NotOfKind(m.blocks.value, "tool_result"));
      } else {
        assert PartsOf(images, most) + [] == PartsOf(images, most) && before + [] == before;
      }
    }
  }

  lemma NoParts(images: bool)
    ensures PartsMatch(images, [], NotOfKind(All(BlocksBy([], "user")), "tool_result"))
  {
  }

  // ---- what the assistant said ----

  /** Texts set apart by blank lines. */
  function Paragraphs(ts: seq<string>): string {
    if ts == [] then "" else if |ts| == 1 then ts[0] else ts[0] + "\n\n" + Paragraphs(ts[1..])
  }

  lemma {:induction false} JoinIsParagraphs(ts: seq<string>)
    ensures Join(ts) == Paragraphs(ts)
  {
    if |ts| > 1 {
      JoinIsParagraphs(ts[..|ts| - 1]);
      ParagraphsSnoc(ts[..|ts| - 1], ts[|ts| - 1]);
      assert ts == ts[..|ts| - 1] + [ts[|ts| - 1]];
    }
  }

  lemma {:induction false} ParagraphsSnoc(ts: seq<string>, t: string)
    requires ts != []
    ensures Paragraphs(ts + [t]) == Paragraphs(ts) + "\n\n" + t
  {
    assert (ts + [t])[1..] == ts[1..] + [t];
    if |ts| > 1 {
      ParagraphsSnoc(ts[1..], t);
      assert ts[0] + "\n\n" + (Paragraphs(ts[1..]) + "\n\n" + t) == ts[0] + "\n\n" + Paragraphs(ts[1..]) + "\n\n" + t;
    }
  }

  /** What one block of the assistant's says; calls and thinking say nothing. */
  function Words(images: bool, b: Block): Option<string> {
    match b.kind
    case "text" => Some(b.text)
    case "tool_use" => None
    case "thinking" => None
    case "redacted_thinking" => None
    case "image" =>
      Some(if images then "[unsupported content: image]" else "[image omitted: target model does not support vision]")
    case kind => Some("[unsupported content: " + kind + "]")
  }

  function AllWords(images: bool, bs: seq<Block>): seq<string> {
    if bs == [] then []
    else
      var w := Words(images, bs[|bs| - 1]);
      AllWords(images, bs[..|bs| - 1]) + (if w.Some? then [w.value] else [])
  }

  function AsSeen(images: bool, b: Block): Block {
    if images then b else Stripped(b)
  }

  lemma OneWord(images: bool, b: Block)
    ensures var w, seen := Words(images, b), AsSeen(images, b);
      (if w.Some? then [w.value] else []) ==
        if seen.kind == "tool_use" || IsThinking(seen) then []
        else if seen.kind == "text" then [seen.text] else [Unsupported(seen.kind)]
  {
    if b.kind == "image" && images { UnsupportedImage(); }
  }

  lemma OneBlockSays(images: bool, bs: seq<Block>, b: Block)
    ensures var w := Words(images, b);
      AssistantTexts(bs + [AsSeen(images, b)]) == AssistantTexts(bs) + (if w.Some? then [w.value] else [])
  {
    hide Words, AsSeen, Unsupported, IsThinking;
    assert (bs + [AsSeen(images, b)])[..|bs|] == bs;
    OneWord(images, b);
  }

  lemma UnsupportedImage()
    ensures Unsupported("image") == "[unsupported content: image]"
  {
  }

  lemma SeenSnoc(images: bool, bs: seq<Block>, b: Block)
    ensures Seen(images, bs + [b]) == Seen(images, bs) + [AsSeen(images, b)]
  {
    assert (bs + [b])[..|bs|] == bs;
  }

  lemma {:induction false} WordsOfBlocks(images: bool, bs: seq<Block>)
    ensures AssistantTexts(Seen(images, bs)) == AllWords(images, bs)
  {
    hide AssistantTexts, Seen, Words, AsSeen;
    if bs == [] {
      NoWords(images);
    } else {
      var most, last := bs[..|bs| - 1], bs[|bs| - 1];
      assert bs == most + [last];
      WordsOfBlocks(images, most);
      SeenSnoc(images, most, last);
      OneBlockSays(images, Seen(images, most), last);
    }
  }

  lemma NoWords(images: bool)
    ensures AssistantTexts(Seen(images, [])) == []
  {
  }

  /** An assistant's message says its words in paragraphs, or nothing if it has none. */
  predicate IsSaid(images: bool, said: Option<string>, bs: seq<Block>) {
    said == if AllWords(images, bs) == [] then None else Some(Paragraphs(AllWords(images, bs)))
  }

  predicate SaidMatch(images: bool, said: seq<Option<string>>, parts: seq<seq<Block>>) {
    |said| == |parts| && forall k | 0 <= k < |parts| :: IsSaid(images, said[k], parts[k])
  }

  lemma {:induction false} SaidOfMessages(images: bool, ms: seq<Msg>)
    ensures SaidMatch(images, SaidOf(images, ms), BlocksBy(ms, "assistant"))
  {
    hide AllWords, Paragraphs, Seen, AssistantTexts, Join;
    if ms != [] {
      var most, m := ms[..|ms| - 1], ms[|ms| - 1];
      SaidOfMessages(images, most);
      if m.role == "assistant" && m.blocks.Some? {
        WordsOfBlocks(images, m.blocks.value);
        JoinIsParagraphs(AllWords(images, m.blocks.value));
      } else {
        assert SaidOf(images, most) + [] == SaidOf(images, most);
        assert BlocksBy(most, "assistant") + [] == BlocksBy(most, "assistant");
      }
    }
  }

  // ---- the conversation ----

  /** Every successful translation answers each of the user's tool results under the id of its
      call, makes each of the assistant's calls under its id and name with its arguments, says
      what each assistant message says, and hands on the user's other content, all in order. */
  lemma FieldsAreConserved(images: bool, body: Option<Request>)
    requires Translated(images, body).Ok?
    ensures var out, ms := Translated(images, body).value, body.value.messages;
      && ResultsMatch(ResultsIn(out), OfKind(All(BlocksBy(ms, "user")), "tool_result"))
      && CallsMatch(CallsIn(out), OfKind(All(BlocksBy(ms, "assistant")), "tool_use"))
      && SaidMatch(images, SaidIn(out), BlocksBy(ms, "assistant"))
      && PartsMatch(images, PartsIn(out), NotOfKind(All(BlocksBy(ms, "user")), "tool_result"))
  {
    hide Translated, ResultsMatch, CallsMatch, SaidMatch, PartsMatch;
    assert body.Some? by { TranslatedIff(images, body); }
    var ms := body.value.messages;
    ConversationIsConserved(images, body);
    ResultsOfMessages(ms);
    CallsOfMessages(ms);
    SaidOfMessages(images, ms);
    PartsOfMessages(images, ms);
  }

  // ---- the system message ----

  /** What one block of a system message adds: text, if there is any. */
  function SystemWords(images: bool, b: Block): Option<string> {
    if b.kind == "text" && b.text != "" then Some(b.text)
    else if b.kind == "image" && !images then Some("[image omitted: target model does not support vision]")
    else None
  }

  function AllSystemWords(images: bool, bs: seq<Block>): seq<string> {
    if bs == [] then []
    else
      var w := SystemWords(images, bs[|bs| - 1]);
      AllSystemWords(images, bs[..|bs| - 1]) + (if w.Some? then [w.value] else [])
  }

  lemma {:induction false} SystemWordsAppend(images: bool, a: seq<Block>, b: seq<Block>)
    ensures AllSystemWords(images, a + b) == AllSystemWords(images, a) + AllSystemWords(images, b)
  {
    if b == [] {
      assert a + b == a;
    } else {
      var w := SystemWords(images, b[|b| - 1]);
      FrontOfAppend(a, b);
      SystemWordsAppend(images, a, b[..|b| - 1]);
      Assoc(AllSystemWords(images, a), AllSystemWords(images, b[..|b| - 1]), if w.Some? then [w.value] else []);
    }
  }

  lemma {:induction false} SystemOfBlocks(images: bool, bs: seq<Block>)
    ensures SystemTexts(Seen(images, bs)) == AllSystemWords(images, bs)
  {
    if bs != [] {
      var most := bs[..|bs| - 1];
      SystemOfBlocks(images, most);
      assert !images ==> StripAll(bs)[..|StripAll(bs)| - 1] == StripAll(most);
    }
  }

  lemma {:induction false} SystemOfMessages(images: bool, ms: seq<Msg>)
    ensures SystemPartsOf(images, ms) == AllSystemWords(images, All(BlocksBy(ms, "system")))
  {
    hide AllSystemWords, SystemTexts, Seen, All;
    if ms == [] {
      NoSystemWords(images);
    } else {
      var most, m := ms[..|ms| - 1], ms[|ms| - 1];
      SystemOfMessages(images, most);
      if m.role == "system" && m.blocks.Some? {
        OneMoreMessage(BlocksBy(most, "system"), m.blocks.value);
        SystemWordsAppend(images, All(BlocksBy(most, "system")), m.blocks.value);
        SystemOfBlocks(images, m.blocks.value);
      } else {
        assert SystemPartsOf(images, most) + [] == SystemPartsOf(images, most);
        assert BlocksBy(most, "system") + [] == BlocksBy(most, "system");
      }
    }
  }

  lemma NoSystemWords(images: bool)
    ensures AllSystemWords(images, All(BlocksBy([], "system"))) == []
  {
  }

  /** The texts of the system field; a block without a kind is text, too. */
  function FieldWords(s: SystemField): seq<string> {
    if !s.Given? then [] else Plain(s.blocks)
  }

  function Plain(bs: seq<Block>): seq<string> {
    if bs == [] then []
    else Plain(bs[..|bs| - 1]) + (if bs[|bs| - 1].kind in ["text", ""] then [bs[|bs| - 1].text] else [])
  }

  lemma {:induction false} PlainIs(bs: seq<Block>)
    ensures FieldTexts(bs) == Plain(bs)
  {
    if bs != [] { PlainIs(bs[..|bs| - 1]); }
  }

  /** There is a system message exactly when the system field, its texts in paragraphs, or some
      block of a system message has text; it comes first and holds all of it, the field ahead. */
  lemma SystemIs(images: bool, body: Option<Request>)
    requires Translated(images, body).Ok?
    ensures var out, r := Translated(images, body).value, body.value;
      var field := Paragraphs(FieldWords(r.system));
      var rest := AllSystemWords(images, All(BlocksBy(r.messages, "system")));
      var sources := (if field == "" then [] else [field]) + rest;
      && (sources != [] ==> out != [] && out[0] == SystemOut(Paragraphs(sources)))
      && (forall i | 0 <= i < |out| && (i > 0 || sources == []) :: !out[i].SystemOut?)
  {
    hide AllSystemWords, Paragraphs, Join, FieldTexts, Plain, SystemPartsOf, Segments, FirstBad, FirstServerTool,
      BlocksBy, All;
    var r := body.value;
    OneLeadingSystem(images, body);
    SystemOfMessages(images, r.messages);
    if r.system.Given? {
      PlainIs(r.system.blocks);
      JoinIsParagraphs(Plain(r.system.blocks));
    }
    NoParagraphs();
    JoinIsParagraphs(SystemParts(images, r));
  }

  lemma NoParagraphs()
    ensures Paragraphs([]) == ""
  {
  }

  // ---- refusals ----

  /** Why a message cannot be translated, if it cannot. */
  function Fault(m: Msg): Option<Error> {
    if m.blocks == None then Some(BadContent)
    else if m.role in ["user", "assistant", "system"] then None
    else Some(BadRole(m.role))
  }

  predicate OwnTool(kind: string) {
    kind in ["", "custom"]
  }

  /** The first message at fault has this fault. */
  predicate FirstFault(ms: seq<Msg>, e: Error) {
    exists i | 0 <= i < |ms| :: Fault(ms[i]) == Some(e) && forall j | 0 <= j < i :: Fault(ms[j]).None?
  }

  predicate NoFault(ms: seq<Msg>) {
    forall i | 0 <= i < |ms| :: Fault(ms[i]).None?
  }

  lemma OneMoreFault(most: seq<Msg>, last: Msg, e: Error)
    ensures NoFault(most + [last]) <==> NoFault(most) && Fault(last).None?
    ensures FirstFault(most, e) || (NoFault(most) && Fault(last) == Some(e)) ==> FirstFault(most + [last], e)
  {
    hide Fault;
    var ms := most + [last];
    assert ms[|most|] == last && forall i | 0 <= i < |most| :: ms[i] == most[i];
    if FirstFault(most, e) {
      var i :| 0 <= i < |most| && Fault(most[i]) == Some(e) && forall j | 0 <= j < i :: Fault(most[j]).None?;
      assert Fault(ms[i]) == Some(e);
    }
  }

  lemma {:induction false} FirstBadIs(ms: seq<Msg>)
    ensures FirstBad(ms).None? <==> NoFault(ms)
    ensures FirstBad(ms).Some? ==> FirstFault(ms, FirstBad(ms).value)
  {
    if ms != [] {
      hide NoFault, FirstFault;
      var most, last := ms[..|ms| - 1], ms[|ms| - 1];
      assert ms == most + [last];
      FirstBadIs(most);
      OneMoreFault(most, last, if FirstBad(ms).Some? then FirstBad(ms).value else BadContent);
    }
  }

  /** The first tool that is not the client's own is of this kind. */
  predicate FirstForeign(tools: seq<string>, kind: string) {
    exists i | 0 <= i < |tools| :: tools[i] == kind && !OwnTool(kind) && forall j | 0 <= j < i :: OwnTool(tools[j])
  }

  predicate AllOwn(tools: seq<string>) {
    forall i | 0 <= i < |tools| :: OwnTool(tools[i])
  }

  lemma OneMoreTool(most: seq<string>, last: string, kind: string)
    ensures AllOwn(most + [last]) <==> AllOwn(most) && OwnTool(last)
    ensures FirstForeign(most, kind) ==> FirstForeign(most + [last], kind)
    ensures AllOwn(most) && !OwnTool(last) ==> FirstForeign(most + [last], last)
  {
    hide OwnTool;
    var tools := most + [last];
    assert tools[|most|] == last && forall i | 0 <= i < |most| :: tools[i] == most[i];
    if FirstForeign(most, kind) {
      var i :| 0 <= i < |most| && most[i] == kind && !OwnTool(kind) && forall j | 0 <= j < i :: OwnTool(most[j]);
      assert tools[i] == kind;
    }
  }

  lemma {:induction false} FirstServerToolIs(tools: seq<string>)
    ensures FirstServerTool(tools).None? <==> AllOwn(tools)
    ensures FirstServerTool(tools).Some? ==>
      FirstServerTool(tools).value.ServerTool? && FirstForeign(tools, FirstServerTool(tools).value.kind)
  {
    if tools != [] {
      hide AllOwn, FirstForeign;
      var most, last := tools[..|tools| - 1], tools[|tools| - 1];
      assert tools == most + [last];
      FirstServerToolIs(most);
      OneMoreTool(most, last, if FirstServerTool(most).Some? then FirstServerTool(most).value.kind else last);
    }
  }

  /** A request is refused for the first of these that holds: it does not parse, has no message,
      has a malformed system field, a message at fault, or a tool that is not the client's own;
      of several messages or tools the first is blamed. */
  lemma RefusedFor(images: bool, body: Option<Request>)
    ensures body.None? ==> Translated(images, body) == Err(BadBody)
    ensures body.Some? ==>
      var r, answer := body.value, Translated(images, body);
      if r.messages == [] then answer == Err(NoMessages)
      else if r.system.Malformed? then answer == Err(BadSystem)
      else if !NoFault(r.messages) then answer.Err? && FirstFault(r.messages, answer.error)
      else if !AllOwn(r.tools) then answer.Err? && answer.error.ServerTool? && FirstForeign(r.tools, answer.error.kind)
      else answer.Ok?
  {
    hide Conversation, NoFault, FirstFault, AllOwn, FirstForeign;
    if body.Some? {
      FirstBadIs(body.value.messages);
      FirstServerToolIs(body.value.tools);
    }
  }
}
