/** Turning an Anthropic conversation into an OpenAI one without losing or reordering any of it. */
module RequestTranslation {
  import opened Common
  import M = StreamMeaning

  /** A content block; result is what a tool result's content renders to, image what an image
      block becomes when it can be sent. */
  datatype Block = Block(kind: string, text: string, id: string, name: string, input: string,
                         toolUseId: string, result: string, isError: bool, image: Option<string>)

  /** A message; its blocks are missing when its content is malformed. */
  datatype Msg = Msg(role: string, blocks: Option<seq<Block>>)

  datatype SystemField = Absent | Malformed | Given(blocks: seq<Block>)

  datatype Request = Request(system: SystemField, messages: seq<Msg>, tools: seq<string>)

  datatype Part = TextPart(text: string) | ImagePart(url: string)
  datatype Call = Call(id: M.Id, name: string, args: string)
  datatype Out =
    | SystemOut(content: string)
    | ToolOut(id: string, content: string)
    | UserOut(parts: seq<Part>)
    | AssistantOut(said: Option<string>, calls: seq<Call>)

  datatype Error = BadBody | NoMessages | BadSystem | BadContent | BadRole(role: string) | ServerTool(kind: string)

  const SEPARATOR := "\n\n"
  const NO_VISION := "[image omitted: target model does not support vision]"

  function Join(parts: seq<string>): string {
    if parts == [] then "" else if |parts| == 1 then parts[0]
    else Join(parts[..|parts| - 1]) + SEPARATOR + parts[|parts| - 1]
  }

  function Unsupported(kind: string): string {
    "[unsupported content: " + kind + "]"
  }

  // ---- what each block becomes ----

  function Stripped(b: Block): Block {
    if b.kind == "image" then Block("text", NO_VISION, "", "", "", "", "", false, None) else b
  }

  function StripAll(bs: seq<Block>): seq<Block> {
    if bs == [] then [] else StripAll(bs[..|bs| - 1]) + [Stripped(bs[|bs| - 1])]
  }

  function ToolResult(b: Block): Out {
    ToolOut(b.toolUseId, if b.isError then "Error: " + b.result else b.result)
  }

  /** The part a block other than a tool result becomes in a user message. */
  function UserPart(b: Block): Part {
    if b.kind == "text" then TextPart(b.text)
    else if b.kind == "image" then (if b.image.Some? then ImagePart(b.image.value) else TextPart("[image omitted]"))
    else if b.kind == "document" then TextPart("[document omitted]")
    else TextPart(Unsupported(b.kind))
  }

  function ToolUse(b: Block): Call {
    Call(if b.id == "" then M.Generated else M.Given(b.id), b.name, if b.input == "" then "{}" else b.input)
  }

  predicate IsThinking(b: Block) {
    b.kind == "thinking" || b.kind == "redacted_thinking"
  }

  function ToolResults(bs: seq<Block>): seq<Out> {
    if bs == [] then []
    else ToolResults(bs[..|bs| - 1]) + (if bs[|bs| - 1].kind == "tool_result" then [ToolResult(bs[|bs| - 1])] else [])
  }

  function UserParts(bs: seq<Block>): seq<Part> {
    if bs == [] then []
    else UserParts(bs[..|bs| - 1]) + (if bs[|bs| - 1].kind == "tool_result" then [] else [UserPart(bs[|bs| - 1])])
  }

  function ToolUses(bs: seq<Block>): seq<Call> {
    if bs == [] then []
    else ToolUses(bs[..|bs| - 1]) + (if bs[|bs| - 1].kind == "tool_use" then [ToolUse(bs[|bs| - 1])] else [])
  }

  function AssistantTexts(bs: seq<Block>): seq<string> {
    if bs == [] then []
    else
      var b := bs[|bs| - 1];
      AssistantTexts(bs[..|bs| - 1]) +
      (if b.kind == "tool_use" || IsThinking(b) then [] else if b.kind == "text" then [b.text]
       else [Unsupported(b.kind)])
  }

  function SystemTexts(bs: seq<Block>): seq<string> {
    if bs == [] then []
    else
      SystemTexts(bs[..|bs| - 1]) +
      (if bs[|bs| - 1].kind == "text" && bs[|bs| - 1].text != "" then [bs[|bs| - 1].text] else [])
  }

  /** The texts of the system field; here an untyped block is text and an empty one counts. */
  function FieldTexts(bs: seq<Block>): seq<string> {
    if bs == [] then []
    else
      FieldTexts(bs[..|bs| - 1]) +
      (if bs[|bs| - 1].kind == "text" || bs[|bs| - 1].kind == "" then [bs[|bs| - 1].text] else [])
  }

  // ---- what each message becomes ----

  function Seen(images: bool, bs: seq<Block>): seq<Block> {
    if images then bs else StripAll(bs)
  }

  function UserMessages(bs: seq<Block>): seq<Out> {
    ToolResults(bs) + (if UserParts(bs) != [] then [UserOut(UserParts(bs))] else [])
  }

  function Said(bs: seq<Block>): Option<string> {
    if AssistantTexts(bs) != [] then Some(Join(AssistantTexts(bs))) else None
  }

  function AssistantMessage(bs: seq<Block>): Out {
    AssistantOut(Said(bs), ToolUses(bs))
  }

  function Segment(role: string, bs: seq<Block>): seq<Out> {
    if role == "user" then UserMessages(bs) else if role == "assistant" then [AssistantMessage(bs)] else []
  }

  predicate KnownRole(role: string) {
    role == "user" || role == "assistant" || role == "system"
  }

  predicate GoodMsg(m: Msg) {
    m.blocks.Some? && KnownRole(m.role)
  }

  /** All that the conversation becomes, one segment a message. */
  function Segments(images: bool, ms: seq<Msg>): seq<Out> {
    if ms == [] then []
    else
      var m := ms[|ms| - 1];
      Segments(images, ms[..|ms| - 1]) + (if m.blocks.Some? then Segment(m.role, Seen(images, m.blocks.value)) else [])
  }

  function SystemPartsOf(images: bool, ms: seq<Msg>): seq<string> {
    if ms == [] then []
    else
      var m := ms[|ms| - 1];
      SystemPartsOf(images, ms[..|ms| - 1]) +
      (if m.role == "system" && m.blocks.Some? then SystemTexts(Seen(images, m.blocks.value)) else [])
  }

  /** The system field first, then the system messages, in order. */
  function SystemParts(images: bool, r: Request): seq<string> {
    (if r.system.Given? && Join(FieldTexts(r.system.blocks)) != "" then [Join(FieldTexts(r.system.blocks))] else [])
    + SystemPartsOf(images, r.messages)
  }

  function Conversation(images: bool, r: Request): seq<Out> {
    (if SystemParts(images, r) != [] then [SystemOut(Join(SystemParts(images, r)))] else []) +
      Segments(images, r.messages)
  }

  /** The first message that cannot be translated, if any. */
  function FirstBad(ms: seq<Msg>): Option<Error> {
    if ms == [] then None
    else
      var before, m := FirstBad(ms[..|ms| - 1]), ms[|ms| - 1];
      if before.Some? then before
      else if m.blocks.None? then Some(BadContent)
      else if !KnownRole(m.role) then Some(BadRole(m.role))
      else None
  }

  predicate LocalTool(kind: string) {
    kind == "" || kind == "custom"
  }

  function FirstServerTool(tools: seq<string>): Option<Error> {
    if tools == [] then None
    else
      var before := FirstServerTool(tools[..|tools| - 1]);
      if before.Some? then before else if LocalTool(tools[|tools| - 1]) then None
      else Some(ServerTool(tools[|tools| - 1]))
  }

  function Translated(images: bool, body: Option<Request>): Result<seq<Out>, Error> {
    if body.None? then Err(BadBody)
    else
      var r := body.value;
      if r.messages == [] then Err(NoMessages)
      else if r.system.Malformed? then Err(BadSystem)
      else if FirstBad(r.messages).Some? then Err(FirstBad(r.messages).value)
      else if FirstServerTool(r.tools).Some? then Err(FirstServerTool(r.tools).value)
      else Ok(Conversation(images, r))
  }

  // ---- the translation as the program runs it ----

  method StripImages(bs: seq<Block>) returns (out: seq<Block>)
    ensures out == StripAll(bs)
  {
    out := [];
    for k := 0 to |bs|
      invariant out == StripAll(bs[..k])
    {
      assert bs[..k + 1][..k] == bs[..k];
      if bs[k].kind == "image" {
        out := out + [Block("text", NO_VISION, "", "", "", "", "", false, None)];
        continue;
      }
      out := out + [bs[k]];
    }
    assert bs[..|bs|] == bs;
  }

  method TranslateUser(bs: seq<Block>) returns (out: seq<Out>)
    ensures out == UserMessages(bs)
  {
    var tools: seq<Out>, parts: seq<Part> := [], [];
    for k := 0 to |bs|
      invariant tools == ToolResults(bs[..k]) && parts == UserParts(bs[..k])
    {
      assert bs[..k + 1][..k] == bs[..k];
      assert tools + [] == tools && parts + [] == parts;
      var b := bs[k];
      if b.kind == "tool_result" {
        tools := tools + [ToolOut(b.toolUseId, if b.isError then "Error: " + b.result else b.result)];
      } else if b.kind == "text" {
        parts := parts + [TextPart(b.text)];
      } else if b.kind == "image" {
        parts := parts + [if b.image.Some? then ImagePart(b.image.value) else TextPart("[image omitted]")];
      } else if b.kind == "document" {
        parts := parts + [TextPart("[document omitted]")];
      } else {
        parts := parts + [TextPart(Unsupported(b.kind))];
      }
    }
    assert bs[..|bs|] == bs;
    out := tools;
    assert tools + [] == tools;
    if |parts| > 0 {
      out := out + [UserOut(parts)];
    }
  }

  method TranslateAssistant(bs: seq<Block>) returns (out: Out)
    ensures out == AssistantMessage(bs)
  {
    var texts: seq<string>, calls: seq<Call> := [], [];
    for k := 0 to |bs|
      invariant texts == AssistantTexts(bs[..k]) && calls == ToolUses(bs[..k])
    {
      assert bs[..k + 1][..k] == bs[..k];
      assert texts + [] == texts && calls + [] == calls;
      var b := bs[k];
      if b.kind == "text" {
        texts := texts + [b.text];
      } else if b.kind == "tool_use" {
        var args, id := "{}", M.Given(b.id);
        if b.input != "" { args := b.input; }
        if b.id == "" { id := M.Generated; }
        calls := calls + [Call(id, b.name, args)];
      } else if b.kind == "thinking" || b.kind == "redacted_thinking" {
      } else {
        texts := texts + [Unsupported(b.kind)];
      }
    }
    assert bs[..|bs|] == bs;
    return AssistantOut(if |texts| > 0 then Some(Join(texts)) else None, calls);
  }

  method TranslateMessage(role: string, bs: seq<Block>) returns (r: Result<seq<Out>, Error>)
    requires role != "system"
    ensures r == if KnownRole(role) then Ok(Segment(role, bs)) else Err(BadRole(role))
  {
    if role == "user" {
      var out := TranslateUser(bs);
      return Ok(out);
    } else if role == "assistant" {
      var out := TranslateAssistant(bs);
      return Ok([out]);
    } else {
      return Err(BadRole(role));
    }
  }

  method SystemText(bs: seq<Block>) returns (text: string)
    ensures text == Join(FieldTexts(bs))
  {
    var parts: seq<string> := [];
    for k := 0 to |bs|
      invariant parts == FieldTexts(bs[..k])
    {
      assert bs[..k + 1][..k] == bs[..k];
      assert parts + [] == parts;
      if bs[k].kind == "text" || bs[k].kind == "" {
        parts := parts + [bs[k].text];
      }
    }
    assert bs[..|bs|] == bs;
    return Join(parts);
  }

  method AddSystemTexts(parts: seq<string>, bs: seq<Block>) returns (r: seq<string>)
    ensures r == parts + SystemTexts(bs)
  {
    r := parts;
    assert parts + [] == parts;
    for k := 0 to |bs|
      invariant r == parts + SystemTexts(bs[..k])
    {
      assert bs[..k + 1][..k] == bs[..k];
      assert r + [] == r;
      if bs[k].kind == "text" && bs[k].text != "" {
        Assoc(parts, SystemTexts(bs[..k]), [bs[k].text]);
        r := r + [bs[k].text];
      }
    }
    assert bs[..|bs|] == bs;
  }

  lemma NoMessagesYet(images: bool, ms: seq<Msg>, field: seq<string>)
    ensures FirstBad(ms[..0]).None? && Segments(images, ms[..0]) == [] &&
      field + SystemPartsOf(images, ms[..0]) == field
  {
  }

  lemma OneMoreMessage(images: bool, ms: seq<Msg>, k: nat, field: seq<string>)
    requires k < |ms| && FirstBad(ms[..k]).None?
    ensures GoodMsg(ms[k]) ==> FirstBad(ms[..k + 1]).None?
    ensures !GoodMsg(ms[k]) ==> FirstBad(ms) == Some(if ms[k].blocks.None? then BadContent else BadRole(ms[k].role))
    ensures GoodMsg(ms[k]) ==>
      Segments(images, ms[..k + 1]) ==
        if ms[k].role == "system" then Segments(images, ms[..k])
        else Segments(images, ms[..k]) + Segment(ms[k].role, Seen(images, ms[k].blocks.value))
    ensures GoodMsg(ms[k]) ==>
      field + SystemPartsOf(images, ms[..k + 1]) ==
        if ms[k].role == "system"
        then field + SystemPartsOf(images, ms[..k]) + SystemTexts(Seen(images, ms[k].blocks.value))
        else field + SystemPartsOf(images, ms[..k])
  {
    assert ms[..k + 1][..k] == ms[..k];
    if GoodMsg(ms[k]) {
      Assoc(field, SystemPartsOf(images, ms[..k]), SystemTexts(Seen(images, ms[k].blocks.value)));
      assert SystemPartsOf(images, ms[..k]) + [] == SystemPartsOf(images, ms[..k]);
      assert Segments(images, ms[..k]) + [] == Segments(images, ms[..k]);
    } else {
      BadStays(ms, k + 1);
    }
  }

  /** The messages of a whole request, or why it is refused. */
  method AnthropicToOpenAI(body: Option<Request>, images: bool) returns (r: Result<seq<Out>, Error>)
    ensures r == Translated(images, body)
  {
    hide Segment, Segments, SystemPartsOf, FirstBad, FirstServerTool, SystemTexts, FieldTexts, Join;
    if body.None? { return Err(BadBody); }
    var req := body.value;
    if |req.messages| == 0 { return Err(NoMessages); }
    if req.system.Malformed? { return Err(BadSystem); }
    var systemParts: seq<string> := [];
    if req.system.Given? {
      var text := SystemText(req.system.blocks);
      if text != "" { systemParts := [text]; }
    }
    ghost var field := systemParts;
    assert field + [] == field;
    var messages: seq<Out> := [];
    NoMessagesYet(images, req.messages, field);
    for k := 0 to |req.messages|
      invariant FirstBad(req.messages[..k]).None?
      invariant messages == Segments(images, req.messages[..k])
      invariant systemParts == field + SystemPartsOf(images, req.messages[..k])
    {
      var m := req.messages[k];
      OneMoreMessage(images, req.messages, k, field);
      if m.blocks.None? { return Err(BadContent); }
      var blocks := m.blocks.value;
      if !images { blocks := StripImages(blocks); }
      if m.role == "system" {
        systemParts := AddSystemTexts(systemParts, blocks);
        continue;
      }
      var out := TranslateMessage(m.role, blocks);
      if out.Err? { return Err(out.error); }
      messages := messages + out.value;
    }
    assert req.messages[..|req.messages|] == req.messages;
    assert systemParts == SystemParts(images, req);
    assert [] + messages == messages;
    if |systemParts| > 0 {
      messages := [SystemOut(Join(systemParts))] + messages;
    }
    var bad := RefuseServerTools(req.tools);
    if bad.Some? { return Err(bad.value); }
    return Ok(messages);
  }

  method RefuseServerTools(tools: seq<string>) returns (r: Option<Error>)
    ensures r == FirstServerTool(tools)
  {
    for k := 0 to |tools|
      invariant FirstServerTool(tools[..k]).None?
    {
      assert tools[..k + 1][..k] == tools[..k];
      if tools[k] != "" && tools[k] != "custom" {
        ToolStays(tools, k + 1);
        return Some(ServerTool(tools[k]));
      }
    }
    assert tools[..|tools|] == tools;
    return None;
  }

  lemma {:induction false} BadStays(ms: seq<Msg>, n: nat)
    requires n <= |ms| && FirstBad(ms[..n]).Some?
    ensures FirstBad(ms) == FirstBad(ms[..n])
  {
    if n == |ms| {
      assert ms[..n] == ms;
    } else {
      assert ms[..|ms| - 1][..n] == ms[..n];
      BadStays(ms[..|ms| - 1], n);
    }
  }

  lemma {:induction false} ToolStays(tools: seq<string>, n: nat)
    requires n <= |tools| && FirstServerTool(tools[..n]).Some?
    ensures FirstServerTool(tools) == FirstServerTool(tools[..n])
  {
    if n == |tools| {
      assert tools[..n] == tools;
    } else {
      assert tools[..|tools| - 1][..n] == tools[..n];
      ToolStays(tools[..|tools| - 1], n);
    }
  }

  // ---- what survives the translation ----

  function SystemsIn(out: seq<Out>): seq<string> {
    if out == [] then []
    else SystemsIn(out[..|out| - 1]) + (if out[|out| - 1].SystemOut? then [out[|out| - 1].content] else [])
  }

  function ResultsIn(out: seq<Out>): seq<Out> {
    if out == [] then []
    else ResultsIn(out[..|out| - 1]) + (if out[|out| - 1].ToolOut? then [out[|out| - 1]] else [])
  }

  function CallsIn(out: seq<Out>): seq<Call> {
    if out == [] then []
    else CallsIn(out[..|out| - 1]) + (if out[|out| - 1].AssistantOut? then out[|out| - 1].calls else [])
  }

  function PartsIn(out: seq<Out>): seq<Part> {
    if out == [] then []
    else PartsIn(out[..|out| - 1]) + (if out[|out| - 1].UserOut? then out[|out| - 1].parts else [])
  }

  function SaidIn(out: seq<Out>): seq<Option<string>> {
    if out == [] then []
    else SaidIn(out[..|out| - 1]) + (if out[|out| - 1].AssistantOut? then [out[|out| - 1].said] else [])
  }

  /** The tool results of the user's messages, in order. */
  function ResultsOf(ms: seq<Msg>): seq<Out> {
    if ms == [] then []
    else
      var m := ms[|ms| - 1];
      ResultsOf(ms[..|ms| - 1]) + (if m.role == "user" && m.blocks.Some? then ToolResults(m.blocks.value) else [])
  }

  /** The tool calls of the assistant's messages, in order. */
  function CallsOf(ms: seq<Msg>): seq<Call> {
    if ms == [] then []
    else
      var m := ms[|ms| - 1];
      CallsOf(ms[..|ms| - 1]) + (if m.role == "assistant" && m.blocks.Some? then ToolUses(m.blocks.value) else [])
  }

  /** The user's other content, in order. */
  function PartsOf(images: bool, ms: seq<Msg>): seq<Part> {
    if ms == [] then []
    else
      var m := ms[|ms| - 1];
      PartsOf(images, ms[..|ms| - 1]) +
        (if m.role == "user" && m.blocks.Some? then UserParts(Seen(images, m.blocks.value)) else [])
  }

  /** What each of the assistant's messages says: its texts joined, or nothing. */
  function SaidOf(images: bool, ms: seq<Msg>): seq<Option<string>> {
    if ms == [] then []
    else
      var m := ms[|ms| - 1];
      SaidOf(images, ms[..|ms| - 1]) +
        (if m.role == "assistant" && m.blocks.Some? then [Said(Seen(images, m.blocks.value))] else [])
  }

  lemma {:induction false} SaidAppend(a: seq<Out>, b: seq<Out>)
    ensures SaidIn(a + b) == SaidIn(a) + SaidIn(b)
  {
    if b == [] {
      assert a + b == a;
      assert SaidIn(a) + [] == SaidIn(a);
    } else {
      var most, last := b[..|b| - 1], b[|b| - 1];
      FrontOfAppend(a, b);
      SaidAppend(a, most);
      Assoc(SaidIn(a), SaidIn(most), if last.AssistantOut? then [last.said] else []);
    }
  }

  lemma {:induction false} ResultsSayNothing(bs: seq<Block>)
    ensures SaidIn(ToolResults(bs)) == []
  {
    if bs != [] {
      ResultsSayNothing(bs[..|bs| - 1]);
      var most, last := ToolResults(bs[..|bs| - 1]), bs[|bs| - 1];
      var more := if last.kind == "tool_result" then [ToolResult(last)] else [];
      SaidAppend(most, more);
      assert more != [] ==> more[..0] == [];
    }
  }

  lemma SegmentSays(role: string, bs: seq<Block>)
    ensures SaidIn(Segment(role, bs)) == if role == "assistant" then [Said(bs)] else []
  {
    hide Said, ToolResults, UserParts, ToolUses;
    if role == "user" {
      ResultsSayNothing(bs);
      var more := if UserParts(bs) != [] then [UserOut(UserParts(bs))] else [];
      SaidAppend(ToolResults(bs), more);
      assert more != [] ==> more[..0] == [];
    } else if role == "assistant" {
      assert [AssistantMessage(bs)][..0] == [];
    }
  }

  lemma {:induction false} SegmentsSay(images: bool, ms: seq<Msg>)
    ensures SaidIn(Segments(images, ms)) == SaidOf(images, ms)
  {
    hide Segment, Said;
    if ms != [] {
      var most, m := ms[..|ms| - 1], ms[|ms| - 1];
      SegmentsSay(images, most);
      var seg := if m.blocks.Some? then Segment(m.role, Seen(images, m.blocks.value)) else [];
      if m.blocks.Some? { SegmentSays(m.role, Seen(images, m.blocks.value)); }
      SaidAppend(Segments(images, most), seg);
    }
  }

  lemma {:induction false} InAppend(a: seq<Out>, b: seq<Out>)
    ensures SystemsIn(a + b) == SystemsIn(a) + SystemsIn(b) && ResultsIn(a + b) == ResultsIn(a) + ResultsIn(b)
    ensures CallsIn(a + b) == CallsIn(a) + CallsIn(b) && PartsIn(a + b) == PartsIn(a) + PartsIn(b)
  {
    if b == [] {
      assert a + b == a;
      assert SystemsIn(a) + [] == SystemsIn(a) && ResultsIn(a) + [] == ResultsIn(a);
      assert CallsIn(a) + [] == CallsIn(a) && PartsIn(a) + [] == PartsIn(a);
    } else {
      var most, last := b[..|b| - 1], b[|b| - 1];
      FrontOfAppend(a, b);
      InAppend(a, most);
      Assoc(SystemsIn(a), SystemsIn(most), if last.SystemOut? then [last.content] else []);
      Assoc(ResultsIn(a), ResultsIn(most), if last.ToolOut? then [last] else []);
      Assoc(CallsIn(a), CallsIn(most), if last.AssistantOut? then last.calls else []);
      Assoc(PartsIn(a), PartsIn(most), if last.UserOut? then last.parts else []);
    }
  }

  lemma OneIn(o: Out)
    ensures SystemsIn([o]) == (if o.SystemOut? then [o.content] else []) &&
      ResultsIn([o]) == (if o.ToolOut? then [o] else [])
    ensures CallsIn([o]) == (if o.AssistantOut? then o.calls else []) &&
      PartsIn([o]) == (if o.UserOut? then o.parts else [])
  {
    assert [o][..0] == [];
  }

  lemma {:induction false} ToolResultsAre(bs: seq<Block>)
    ensures ResultsIn(ToolResults(bs)) == ToolResults(bs)
    ensures SystemsIn(ToolResults(bs)) == [] && CallsIn(ToolResults(bs)) == [] && PartsIn(ToolResults(bs)) == []
  {
    if bs != [] {
      var most, o := ToolResults(bs[..|bs| - 1]), ToolResult(bs[|bs| - 1]);
      ToolResultsAre(bs[..|bs| - 1]);
      if bs[|bs| - 1].kind == "tool_result" {
        SnocResult(most, o);
      } else {
        assert most + [] == most;
      }
    }
  }

  lemma SnocResult(out: seq<Out>, o: Out)
    requires o.ToolOut?
    ensures ResultsIn(out + [o]) == ResultsIn(out) + [o] && SystemsIn(out + [o]) == SystemsIn(out)
    ensures CallsIn(out + [o]) == CallsIn(out) && PartsIn(out + [o]) == PartsIn(out)
  {
    assert (out + [o])[..|out|] == out;
    assert SystemsIn(out) + [] == SystemsIn(out) && CallsIn(out) + [] == CallsIn(out) &&
      PartsIn(out) + [] == PartsIn(out);
  }

  lemma {:induction false} StripKeepsTools(bs: seq<Block>)
    ensures ToolResults(StripAll(bs)) == ToolResults(bs) && ToolUses(StripAll(bs)) == ToolUses(bs)
  {
    if bs != [] {
      StripKeepsTools(bs[..|bs| - 1]);
      assert StripAll(bs)[..|StripAll(bs)| - 1] == StripAll(bs[..|bs| - 1]);
    }
  }

  lemma UserHolds(bs: seq<Block>)
    ensures var seg := UserMessages(bs);
      SystemsIn(seg) == [] && ResultsIn(seg) == ToolResults(bs) && CallsIn(seg) == [] && PartsIn(seg) == UserParts(bs)
  {
    hide ToolResults, UserParts, SystemsIn, ResultsIn, CallsIn, PartsIn;
    ToolResultsAre(bs);
    OneIn(UserOut(UserParts(bs)));
    InAppend(ToolResults(bs), if UserParts(bs) != [] then [UserOut(UserParts(bs))] else []);
    NothingIn();
  }

  lemma NothingIn()
    ensures SystemsIn([]) == [] && ResultsIn([]) == [] && CallsIn([]) == [] && PartsIn([]) == []
  {
  }

  /** What one message's segment holds. */
  lemma SegmentHolds(images: bool, role: string, bs: seq<Block>)
    ensures var seg := Segment(role, Seen(images, bs));
      && SystemsIn(seg) == []
      && ResultsIn(seg) == (if role == "user" then ToolResults(bs) else [])
      && CallsIn(seg) == (if role == "assistant" then ToolUses(bs) else [])
      && PartsIn(seg) == (if role == "user" then UserParts(Seen(images, bs)) else [])
  {
    hide ToolResults, ToolUses, UserParts, AssistantTexts, StripAll, SystemsIn, ResultsIn, CallsIn, PartsIn;
    var seen := Seen(images, bs);
    StripKeepsTools(bs);
    if role == "user" {
      UserHolds(seen);
    } else if role == "assistant" {
      OneIn(AssistantMessage(seen));
    } else {
      NothingIn();
    }
  }

  lemma {:induction false} SegmentsHold(images: bool, ms: seq<Msg>)
    ensures var segs := Segments(images, ms);
      && SystemsIn(segs) == [] && ResultsIn(segs) == ResultsOf(ms)
      && CallsIn(segs) == CallsOf(ms) && PartsIn(segs) == PartsOf(images, ms)
  {
    if ms != [] {
      var most, m := ms[..|ms| - 1], ms[|ms| - 1];
      SegmentsHold(images, most);
      var seg := if m.blocks.Some? then Segment(m.role, Seen(images, m.blocks.value)) else [];
      if m.blocks.Some? { SegmentHolds(images, m.role, m.blocks.value); }
      InAppend(Segments(images, most), seg);
    }
  }

  /** Every successful translation keeps all tool results, all tool calls, all that the assistant
      said and all of the user's other content, each in its order over the whole conversation. */
  lemma ConversationIsConserved(images: bool, body: Option<Request>)
    requires Translated(images, body).Ok?
    ensures var out, ms := Translated(images, body).value, body.value.messages;
      && ResultsIn(out) == ResultsOf(ms) && CallsIn(out) == CallsOf(ms)
      && SaidIn(out) == SaidOf(images, ms) && PartsIn(out) == PartsOf(images, ms)
  {
    hide Segments, SystemParts, Join, FirstBad, FirstServerTool, SystemsIn, ResultsIn, CallsIn, PartsIn, SaidIn;
    var parts := SystemParts(images, body.value);
    var lead := if parts != [] then [SystemOut(Join(parts))] else [];
    var segments := Segments(images, body.value.messages);
    SegmentsHold(images, body.value.messages);
    SegmentsSay(images, body.value.messages);
    LeadHoldsNothing(lead, segments);
    LeadSaysNothing(lead, segments);
  }

  lemma LeadSaysNothing(lead: seq<Out>, out: seq<Out>)
    requires lead == [] || (|lead| == 1 && lead[0].SystemOut?)
    ensures SaidIn(lead + out) == SaidIn(out)
  {
    SaidAppend(lead, out);
    assert lead != [] ==> lead[..0] == [];
    assert [] + SaidIn(out) == SaidIn(out);
  }

  lemma LeadHoldsNothing(lead: seq<Out>, out: seq<Out>)
    requires lead == [] || (|lead| == 1 && lead[0].SystemOut?)
    ensures ResultsIn(lead + out) == ResultsIn(out) && CallsIn(lead + out) == CallsIn(out) &&
      PartsIn(lead + out) == PartsIn(out)
  {
    if lead == [] {
      assert lead + out == out;
    } else {
      OneIn(lead[0]);
      assert lead == [lead[0]];
      InAppend(lead, out);
      assert [] + ResultsIn(out) == ResultsIn(out) && [] + CallsIn(out) == CallsIn(out) &&
        [] + PartsIn(out) == PartsIn(out);
    }
  }

  lemma {:induction false} NoSystemsIn(out: seq<Out>)
    requires SystemsIn(out) == []
    ensures forall i | 0 <= i < |out| :: !out[i].SystemOut?
  {
    if out != [] { NoSystemsIn(out[..|out| - 1]); }
  }

  /** There is at most one system message, it is the first, and it joins every system source in
      order; there is one exactly when some source has text. */
  lemma OneLeadingSystem(images: bool, body: Option<Request>)
    requires Translated(images, body).Ok?
    ensures var out, parts := Translated(images, body).value, SystemParts(images, body.value);
      && (forall i | 0 < i < |out| :: !out[i].SystemOut?)
      && (parts != [] ==> out != [] && out[0] == SystemOut(Join(parts)))
      && (parts == [] ==> out != [] ==> !out[0].SystemOut?)
  {
    hide Segments, SystemParts, FirstBad, FirstServerTool;
    var segments := Segments(images, body.value.messages);
    SegmentsHold(images, body.value.messages);
    NoSystemsIn(segments);
  }

  /** Within what one message becomes, tool results come first, and after them at most one other message. */
  lemma ResultsComeFirst(role: string, bs: seq<Block>)
    ensures forall i | 0 <= i < |Segment(role, bs)| - 1 :: Segment(role, bs)[i].ToolOut?
    ensures role == "assistant" ==> |Segment(role, bs)| == 1
    ensures role == "user" ==> |Segment(role, bs)| == |ToolResults(bs)| + if UserParts(bs) != [] then 1 else 0
  {
    ToolResultsOnly(bs);
  }

  lemma {:induction false} ToolResultsOnly(bs: seq<Block>)
    ensures forall i | 0 <= i < |ToolResults(bs)| :: ToolResults(bs)[i].ToolOut?
  {
    if bs != [] { ToolResultsOnly(bs[..|bs| - 1]); }
  }

  /** Messages keep their order: what comes of a conversation is what comes of its first part,
      then of the rest. */
  lemma {:induction false} SegmentsAppend(images: bool, a: seq<Msg>, b: seq<Msg>)
    ensures Segments(images, a + b) == Segments(images, a) + Segments(images, b)
  {
    if b == [] {
      assert a + b == a;
    } else {
      var m := b[|b| - 1];
      FrontOfAppend(a, b);
      SegmentsAppend(images, a, b[..|b| - 1]);
      Assoc(Segments(images, a), Segments(images, b[..|b| - 1]),
              if m.blocks.Some? then Segment(m.role, Seen(images, m.blocks.value)) else []);
    }
  }

  /** A request is translated exactly when it parses, has a message, every content parses, every
      role is known and every tool is the client's own. */
  lemma TranslatedIff(images: bool, body: Option<Request>)
    ensures Translated(images, body).Ok? <==>
      body.Some? && body.value.messages != [] && !body.value.system.Malformed?
      && (forall i | 0 <= i < |body.value.messages| :: GoodMsg(body.value.messages[i]))
      && (forall i | 0 <= i < |body.value.tools| :: LocalTool(body.value.tools[i]))
  {
    if body.Some? {
      NoBadIff(body.value.messages);
      NoServerToolIff(body.value.tools);
    }
  }

  lemma {:induction false} NoBadIff(ms: seq<Msg>)
    ensures FirstBad(ms).None? <==> forall i | 0 <= i < |ms| :: GoodMsg(ms[i])
  {
    if ms != [] {
      var most, m := ms[..|ms| - 1], ms[|ms| - 1];
      NoBadIff(most);
      assert ms == most + [m];
      assert GoodMsg(ms[|ms| - 1]) == GoodMsg(m);
      forall i | 0 <= i < |most| ensures GoodMsg(most[i]) == GoodMsg(ms[i]) {}
    }
  }

  lemma {:induction false} NoServerToolIff(tools: seq<string>)
    ensures FirstServerTool(tools).None? <==> forall i | 0 <= i < |tools| :: LocalTool(tools[i])
  {
    if tools != [] {
      var most, t := tools[..|tools| - 1], tools[|tools| - 1];
      NoServerToolIff(most);
      assert tools == most + [t];
      assert LocalTool(tools[|tools| - 1]) == LocalTool(t);
      forall i | 0 <= i < |most| ensures LocalTool(most[i]) == LocalTool(tools[i]) {}
    }
  }
}
