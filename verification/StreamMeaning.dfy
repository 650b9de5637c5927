/** What a backend's deltas mean: the message they add up to, the Anthropic events that tell
    it, and a reader that turns events back into a message. */
module StreamMeaning {
  import opened Common
  import opened ByteLines
  import opened SseEvents

  const ACCUM_CAP: nat := 8388608

  // ---- the backend's side ----

  datatype ToolDelta = ToolDelta(index: int, id: string, name: string, args: Bytes)
  datatype Choice = Choice(content: Bytes, calls: seq<ToolDelta>, finish: string)
  datatype Usage = Usage(input: int, output: int)
  datatype Chunk = Chunk(choices: seq<Choice>, usage: Option<Usage>)

  /** What one chunk says, piece by piece in the order it is applied. */
  datatype Piece = Text(text: Bytes) | Tool(delta: ToolDelta) | Reason(reason: string) | Used(usage: Usage)

  /** The parts of the encoding library the translator relies on. */
  datatype Codec = Codec(trim: Bytes -> Bytes, decode: Bytes -> Option<Chunk>, validJson: Bytes -> bool)

  const DONE: Bytes := [91, 68, 79, 78, 69, 93]     // [DONE]
  const NO_ARGS: Bytes := [123, 125]                // {}

  /** The chunk a line carries, if it carries one. */
  function LineChunk(codec: Codec, line: Bytes): Option<Chunk> {
    var trimmed := codec.trim(line);
    if !(DATA <= trimmed) then None
    else
      var payload := codec.trim(trimmed[|DATA|..]);
      if payload == [] || payload == DONE then None else codec.decode(payload)
  }

  function ToolPieces(calls: seq<ToolDelta>): seq<Piece> {
    if calls == [] then [] else ToolPieces(calls[..|calls| - 1]) + [Tool(calls[|calls| - 1])]
  }

  function ChoicePieces(c: Choice): seq<Piece> {
    (if c.finish != "" then [Reason(c.finish)] else []) + (if c.content != [] then [Text(c.content)] else []) +
      ToolPieces(c.calls)
  }

  function ChoicesPieces(cs: seq<Choice>): seq<Piece> {
    if cs == [] then [] else ChoicesPieces(cs[..|cs| - 1]) + ChoicePieces(cs[|cs| - 1])
  }

  function ChunkPieces(c: Chunk): seq<Piece> {
    (if c.usage.Some? then [Used(c.usage.value)] else []) + ChoicesPieces(c.choices)
  }

  function LinePieces(codec: Codec, line: Bytes): seq<Piece> {
    var c := LineChunk(codec, line);
    if c.Some? then ChunkPieces(c.value) else []
  }

  function LinesPieces(codec: Codec, lines: seq<Bytes>): seq<Piece> {
    if lines == [] then [] else LinesPieces(codec, lines[..|lines| - 1]) + LinePieces(codec, lines[|lines| - 1])
  }

  /** All that some events say. */
  function PiecesOf(codec: Codec, events: seq<Bytes>): seq<Piece> {
    if events == [] then []
    else PiecesOf(codec, events[..|events| - 1]) + LinesPieces(codec, Lines(events[|events| - 1]))
  }

  // ---- what pieces add up to ----

  function Texts(h: seq<Piece>): seq<Bytes> {
    if h == [] then [] else Texts(h[..|h| - 1]) + (if h[|h| - 1].Text? then [h[|h| - 1].text] else [])
  }

  function Tools(h: seq<Piece>): seq<ToolDelta> {
    if h == [] then [] else Tools(h[..|h| - 1]) + (if h[|h| - 1].Tool? then [h[|h| - 1].delta] else [])
  }

  function FinishReason(h: seq<Piece>): string {
    if h == [] then "" else if h[|h| - 1].Reason? then h[|h| - 1].reason else FinishReason(h[..|h| - 1])
  }

  function LastUsage(h: seq<Piece>): Usage {
    if h == [] then Usage(0, 0) else if h[|h| - 1].Used? then h[|h| - 1].usage else LastUsage(h[..|h| - 1])
  }

  function Cap(s: Bytes): Bytes {
    if |s| > ACCUM_CAP then s[..ACCUM_CAP] else s
  }

  /** Tool indices in the order they first appear. */
  function Order(ds: seq<ToolDelta>): seq<int> {
    if ds == [] then []
    else
      var before := Order(ds[..|ds| - 1]);
      if ds[|ds| - 1].index in before then before else before + [ds[|ds| - 1].index]
  }

  /** The fragments of one tool call. */
  function Only(ds: seq<ToolDelta>, i: int): seq<ToolDelta> {
    if ds == [] then [] else Only(ds[..|ds| - 1], i) + (if ds[|ds| - 1].index == i then [ds[|ds| - 1]] else [])
  }

  datatype ToolCall = ToolCall(id: string, name: string, args: Bytes)

  /** The call some fragments make up: the last id and name given, all arguments joined. */
  function Joined(ds: seq<ToolDelta>): ToolCall {
    if ds == [] then ToolCall("", "", [])
    else
      var before, d := Joined(ds[..|ds| - 1]), ds[|ds| - 1];
      ToolCall(if d.id != "" then d.id else before.id, if d.name != "" then d.name else before.name,
               before.args + d.args)
  }

  function CallOf(ds: seq<ToolDelta>, i: int): ToolCall {
    var whole := Joined(Only(ds, i));
    whole.(args := Cap(whole.args))
  }

  // ---- the client's side ----

  datatype Id = Given(id: string) | Generated
  datatype Block = TextBlock(text: Bytes) | ToolBlock(id: Id, name: string, input: Bytes)
  datatype Message = Message(model: string, content: seq<Block>, stop: string, usage: Usage)

  datatype Head = TextHead | ToolHead(id: Id, name: string)
  datatype Delta = TextDelta(text: Bytes) | JsonDelta(json: Bytes)
  datatype Event =
    | MessageStart(model: string, inputEstimate: int)
    | BlockStart(index: nat, head: Head)
    | BlockDelta(index: nat, delta: Delta)
    | BlockStop(index: nat)
    | MessageDelta(stop: string, usage: Usage)
    | MessageStop
    | Ping
    | ErrorEvent

  function StopReason(anyTool: bool, finish: string): string {
    if anyTool || finish == "tool_calls" then "tool_use"
    else if finish == "length" then "max_tokens"
    else "end_turn"
  }

  function EstimateTokens(s: Bytes): nat {
    if s == [] then 0 else if |s| / 4 < 1 then 1 else |s| / 4
  }

  function FinalUsage(used: Usage, text: Bytes): Usage {
    if used.output == 0 then Usage(used.input, EstimateTokens(text)) else used
  }

  /** The arguments of a call as JSON: themselves if they are, and {} otherwise. */
  function ParsedArgs(codec: Codec, args: Bytes): Bytes {
    if codec.trim(args) != [] && codec.validJson(args) then args else NO_ARGS
  }

  function IdOf(id: string): Id {
    if id == "" then Generated else Given(id)
  }

  function ToolBlockOf(codec: Codec, ds: seq<ToolDelta>, i: int): Block {
    var call := CallOf(ds, i);
    ToolBlock(IdOf(call.id), call.name, ParsedArgs(codec, call.args))
  }

  function ToolBlocks(codec: Codec, ds: seq<ToolDelta>, order: seq<int>): seq<Block> {
    if order == [] then []
    else ToolBlocks(codec, ds, order[..|order| - 1]) + [ToolBlockOf(codec, ds, order[|order| - 1])]
  }

  function TextBlocks(text: Bytes): seq<Block> {
    if text == [] then [] else [TextBlock(text)]
  }

  /** The message some pieces make, given the text to show; its usage counts the capped text. */
  function MessageWith(codec: Codec, model: string, h: seq<Piece>, text: Bytes): Message {
    Message(model, TextBlocks(text) + ToolBlocks(codec, Tools(h), Order(Tools(h))),
            StopReason(Order(Tools(h)) != [], FinishReason(h)), FinalUsage(LastUsage(h), Cap(Concat(Texts(h)))))
  }

  /** The aggregated message: its text stops at the cap. */
  function MessageOf(codec: Codec, model: string, h: seq<Piece>): Message {
    MessageWith(codec, model, h, Cap(Concat(Texts(h))))
  }

  function TextDeltas(ts: seq<Bytes>): seq<Event> {
    if ts == [] then [] else TextDeltas(ts[..|ts| - 1]) + [BlockDelta(0, TextDelta(ts[|ts| - 1]))]
  }

  /** The events for more text, when a text block is open already or not. */
  function MoreText(open: bool, ts: seq<Bytes>): seq<Event> {
    (if !open && ts != [] then [BlockStart(0, TextHead)] else []) + TextDeltas(ts)
  }

  function ToolEvents(codec: Codec, index: nat, call: ToolCall): seq<Event> {
    [BlockStart(index, ToolHead(IdOf(call.id), call.name)),
     BlockDelta(index, JsonDelta(ParsedArgs(codec, call.args))),
     BlockStop(index)]
  }

  function AllToolEvents(codec: Codec, first: nat, ds: seq<ToolDelta>, order: seq<int>): seq<Event> {
    if order == [] then []
    else
      AllToolEvents(codec, first, ds, order[..|order| - 1])
      + ToolEvents(codec, first + |order| - 1, CallOf(ds, order[|order| - 1]))
  }

  function Closing(codec: Codec, h: seq<Piece>): seq<Event> {
    var started := Texts(h) != [];
    (if started then [BlockStop(0)] else [])
    + AllToolEvents(codec, if started then 1 else 0, Tools(h), Order(Tools(h)))
    + [MessageDelta(StopReason(Order(Tools(h)) != [], FinishReason(h)),
                    FinalUsage(LastUsage(h), Cap(Concat(Texts(h))))),
       MessageStop]
  }

  /** All events of one response. */
  function StreamOf(codec: Codec, model: string, estimate: int, h: seq<Piece>): seq<Event> {
    [MessageStart(model, estimate)] + MoreText(false, Texts(h)) + Closing(codec, h)
  }

  // ---- a reader of events ----

  datatype Phase = Fresh | Body | Ended | Done

  /** What has been read: finished blocks, the open one, and the rest of the message. */
  datatype Reader = Reader(phase: Phase, model: string, blocks: seq<Block>, open: Option<Block>, stop: string,
                           usage: Usage)

  const START := Reader(Fresh, "", [], None, "", Usage(0, 0))

  function Opened(head: Head): Block {
    match head
    case TextHead => TextBlock([])
    case ToolHead(id, name) => ToolBlock(id, name, [])
  }

  /** One event; None if it may not come now. */
  function Read(r: Reader, e: Event): Option<Reader> {
    match e
    case MessageStart(model, _) => if r.phase == Fresh then Some(r.(phase := Body, model := model)) else None
    case BlockStart(index, head) =>
      if r.phase == Body && r.open.None? && index == |r.blocks| then Some(r.(open := Some(Opened(head)))) else None
    case BlockDelta(index, delta) =>
      if r.phase == Body && r.open.Some? && index == |r.blocks| && (r.open.value.TextBlock? <==> delta.TextDelta?)
      then Some(r.(open := Some(Extended(r.open.value, delta)))) else None
    case BlockStop(index) =>
      if r.phase == Body && r.open.Some? && index == |r.blocks|
      then Some(r.(blocks := r.blocks + [r.open.value], open := None)) else None
    case MessageDelta(stop, usage) =>
      if r.phase == Body && r.open.None? then Some(r.(phase := Ended, stop := stop, usage := usage)) else None
    case MessageStop => if r.phase == Ended then Some(r.(phase := Done)) else None
    case Ping => if r.phase == Fresh || r.phase == Done then None else Some(r)
    case ErrorEvent => None
  }

  function Extended(b: Block, d: Delta): Block
    requires b.TextBlock? <==> d.TextDelta?
  {
    match b
    case TextBlock(text) => TextBlock(text + d.text)
    case ToolBlock(id, name, input) => ToolBlock(id, name, input + d.json)
  }

  function ReadAll(r: Reader, es: seq<Event>): Option<Reader> {
    if es == [] then Some(r)
    else
      var next := ReadAll(r, es[..|es| - 1]);
      if next.Some? then Read(next.value, es[|es| - 1]) else None
  }

  /** The message a whole stream tells, if it is well formed. */
  function Assemble(es: seq<Event>): Option<Message> {
    var r := ReadAll(START, es);
    if r.Some? && r.value.phase == Done then Some(Message(r.value.model, r.value.blocks, r.value.stop, r.value.usage))
    else None
  }

  // ---- appending ----

  lemma {:induction false} ReadAppend(r: Reader, a: seq<Event>, b: seq<Event>)
    ensures var mid := ReadAll(r, a);
      ReadAll(r, a + b) == if mid.Some? then ReadAll(mid.value, b) else None
  {
    if b == [] {
      assert a + b == a;
    } else {
      assert (a + b)[..|a + b| - 1] == a + b[..|b| - 1];
      ReadAppend(r, a, b[..|b| - 1]);
    }
  }

  lemma ReadSnoc(r: Reader, es: seq<Event>, e: Event)
    ensures ReadAll(r, es + [e]) == if ReadAll(r, es).Some? then Read(ReadAll(r, es).value, e) else None
  {
    assert (es + [e])[..|es|] == es;
  }

  lemma ReadOne(r: Reader, e: Event)
    ensures ReadAll(r, [e]) == Read(r, e)
  {
    assert [e][..0] == [];
  }

  lemma {:induction false} TextsAppend(a: seq<Piece>, b: seq<Piece>)
    ensures Texts(a + b) == Texts(a) + Texts(b)
  {
    if b == [] {
      assert a + b == a;
    } else {
      assert (a + b)[..|a + b| - 1] == a + b[..|b| - 1];
      TextsAppend(a, b[..|b| - 1]);
    }
  }

  lemma {:induction false} TextDeltasAppend(a: seq<Bytes>, b: seq<Bytes>)
    ensures TextDeltas(a + b) == TextDeltas(a) + TextDeltas(b)
  {
    if b == [] {
      assert a + b == a;
    } else {
      FrontOfAppend(a, b);
      TextDeltasAppend(a, b[..|b| - 1]);
      Assoc(TextDeltas(a), TextDeltas(b[..|b| - 1]), [BlockDelta(0, TextDelta(b[|b| - 1]))]);
    }
  }

  lemma MoreTextAppend(open: bool, a: seq<Bytes>, b: seq<Bytes>)
    ensures MoreText(open, a + b) == MoreText(open, a) + MoreText(open || a != [], b)
  {
    TextDeltasAppend(a, b);
    if a == [] {
      assert a + b == b;
      assert MoreText(open, a) == [];
    } else {
      assert MoreText(true, b) == TextDeltas(b);
      Assoc(if !open then [BlockStart(0, TextHead)] else [], TextDeltas(a), TextDeltas(b));
    }
  }

  lemma {:induction false} PiecesAppend(codec: Codec, a: seq<Bytes>, b: seq<Bytes>)
    ensures PiecesOf(codec, a + b) == PiecesOf(codec, a) + PiecesOf(codec, b)
  {
    if b == [] {
      assert a + b == a;
    } else {
      var most, last := b[..|b| - 1], LinesPieces(codec, Lines(b[|b| - 1]));
      FrontOfAppend(a, b);
      PiecesAppend(codec, a, most);
      Assoc(PiecesOf(codec, a), PiecesOf(codec, most), last);
    }
  }

  /** Capping as one goes is capping at the end. */
  lemma CapStep(a: Bytes, b: Bytes)
    ensures Cap(Cap(a) + b) == Cap(a + b)
  {
    if |a| > ACCUM_CAP {
      assert (a[..ACCUM_CAP] + b)[..ACCUM_CAP] == a[..ACCUM_CAP];
      assert (a + b)[..ACCUM_CAP] == a[..ACCUM_CAP];
    }
  }

  // ---- regrouping tool calls ----

  /** Each index once, in the order of first appearance. */
  lemma {:induction false} OrderIsFirstAppearance(ds: seq<ToolDelta>)
    ensures forall i :: i in Order(ds) <==> Only(ds, i) != []
    ensures forall j, k | 0 <= j < k < |Order(ds)| :: Order(ds)[j] != Order(ds)[k]
    ensures forall d | d in ds :: d.index in Order(ds)
    ensures ds != [] ==> Order(ds) != [] && Order(ds)[0] == ds[0].index
  {
    if ds != [] {
      var most := ds[..|ds| - 1];
      OrderIsFirstAppearance(most);
      assert ds == most + [ds[|ds| - 1]];
    }
  }

  /** An index that first appears in the earlier deltas comes before one that does not. */
  lemma {:induction false} EarlierFirst(a: seq<ToolDelta>, b: seq<ToolDelta>)
    ensures Order(a) <= Order(a + b)
  {
    if b == [] {
      assert a + b == a;
    } else {
      assert (a + b)[..|a + b| - 1] == a + b[..|b| - 1];
      EarlierFirst(a, b[..|b| - 1]);
    }
  }

  /** However the fragments of different calls interleave, only the fragments of each call and
      the order in which the calls first appear matter. */
  lemma {:induction false} InterleavingIrrelevant(codec: Codec, a: seq<ToolDelta>, b: seq<ToolDelta>, order: seq<int>)
    requires forall i :: Only(a, i) == Only(b, i)
    ensures ToolBlocks(codec, a, order) == ToolBlocks(codec, b, order)
  {
    if order != [] {
      InterleavingIrrelevant(codec, a, b, order[..|order| - 1]);
      assert Only(a, order[|order| - 1]) == Only(b, order[|order| - 1]);
    }
  }

  lemma {:induction false} SameToolEvents(codec: Codec, first: nat, a: seq<ToolDelta>, b: seq<ToolDelta>,
                                          order: seq<int>)
    requires forall i :: Only(a, i) == Only(b, i)
    ensures AllToolEvents(codec, first, a, order) == AllToolEvents(codec, first, b, order)
  {
    if order != [] {
      SameToolEvents(codec, first, a, b, order[..|order| - 1]);
      assert Only(a, order[|order| - 1]) == Only(b, order[|order| - 1]);
    }
  }

  /** Two backends that say the same texts, and the same fragments of each call with the calls
      first appearing in the same order, get the same stream and the same message, however they
      interleave the fragments. */
  lemma InterleavingUnobservable(codec: Codec, model: string, estimate: int, g: seq<Piece>, h: seq<Piece>)
    requires Texts(g) == Texts(h) && FinishReason(g) == FinishReason(h) && LastUsage(g) == LastUsage(h)
    requires Order(Tools(g)) == Order(Tools(h)) && forall i :: Only(Tools(g), i) == Only(Tools(h), i)
    ensures StreamOf(codec, model, estimate, g) == StreamOf(codec, model, estimate, h)
    ensures MessageOf(codec, model, g) == MessageOf(codec, model, h)
  {
    InterleavingIrrelevant(codec, Tools(g), Tools(h), Order(Tools(g)));
    SameToolEvents(codec, if Texts(g) != [] then 1 else 0, Tools(g), Tools(h), Order(Tools(g)));
  }

  // ---- the two renderings agree ----

  lemma {:induction false} ReadTexts(r: Reader, text: Bytes, ts: seq<Bytes>)
    requires r.phase == Body && r.blocks == [] && r.open == Some(TextBlock(text))
    ensures ReadAll(r, TextDeltas(ts)) == Some(r.(open := Some(TextBlock(text + Concat(ts)))))
  {
    if ts == [] {
      assert text + [] == text;
    } else {
      var most, last := ts[..|ts| - 1], ts[|ts| - 1];
      ReadTexts(r, text, most);
      FrontOfAppend(TextDeltas(most), [BlockDelta(0, TextDelta(last))]);
      assert [BlockDelta(0, TextDelta(last))][..0] == [] && TextDeltas(most) + [] == TextDeltas(most);
      Assoc(text, Concat(most), last);
    }
  }

  /** Reading the three events of one tool call. */
  lemma ReadTool(codec: Codec, r: Reader, call: ToolCall)
    requires r.phase == Body && r.open.None?
    ensures ReadAll(r, ToolEvents(codec, |r.blocks|, call)) ==
      Some(r.(blocks := r.blocks + [ToolBlock(IdOf(call.id), call.name, ParsedArgs(codec, call.args))]))
  {
    var es := ToolEvents(codec, |r.blocks|, call);
    assert [] + ParsedArgs(codec, call.args) == ParsedArgs(codec, call.args);
    ReadOne(r, es[0]);
    ReadSnoc(r, [es[0]], es[1]);
    ReadSnoc(r, [es[0]] + [es[1]], es[2]);
    assert es == [es[0]] + [es[1]] + [es[2]];
  }

  lemma {:induction false} ReadTools(codec: Codec, r: Reader, ds: seq<ToolDelta>, order: seq<int>)
    requires r.phase == Body && r.open.None?
    ensures ReadAll(r, AllToolEvents(codec, |r.blocks|, ds, order)) ==
      Some(r.(blocks := r.blocks + ToolBlocks(codec, ds, order)))
  {
    if order == [] {
      assert r.blocks + [] == r.blocks;
    } else {
      var most, i := order[..|order| - 1], order[|order| - 1];
      ReadTools(codec, r, ds, most);
      ToolBlocksLength(codec, ds, most);
      ReadTool(codec, r.(blocks := r.blocks + ToolBlocks(codec, ds, most)), CallOf(ds, i));
      ReadAppend(r, AllToolEvents(codec, |r.blocks|, ds, most),
                 ToolEvents(codec, |r.blocks| + |order| - 1, CallOf(ds, i)));
      Assoc(r.blocks, ToolBlocks(codec, ds, most), [ToolBlockOf(codec, ds, i)]);
    }
  }

  lemma {:induction false} ToolBlocksLength(codec: Codec, ds: seq<ToolDelta>, order: seq<int>)
    ensures |ToolBlocks(codec, ds, order)| == |order|
  {
    if order != [] { ToolBlocksLength(codec, ds, order[..|order| - 1]); }
  }

  /** Reading the text part of a stream. */
  lemma ReadText(model: string, estimate: int, ts: seq<Bytes>)
    requires ts != [] ==> Concat(ts) != []
    ensures ReadAll(START, [MessageStart(model, estimate)] + MoreText(false, ts)) ==
      Some(AfterText(model, ts != [], Concat(ts)))
  {
    var body := Reader(Body, model, [], None, "", Usage(0, 0));
    var first := [MessageStart(model, estimate)];
    assert first[..0] == [];
    assert ReadAll(START, first) == Some(body);
    if ts == [] {
      assert first + MoreText(false, ts) == first;
    } else {
      var start := [BlockStart(0, TextHead)];
      assert start[..0] == [];
      var open := body.(open := Some(TextBlock([])));
      assert ReadAll(body, start) == Some(open);
      ReadTexts(open, [], ts);
      assert [] + Concat(ts) == Concat(ts);
      ReadAppend(body, start, TextDeltas(ts));
      ReadAppend(START, first, start + TextDeltas(ts));
    }
  }

  /** Empty text deltas are never applied. */
  predicate NoEmptyText(h: seq<Piece>) {
    forall t | t in Texts(h) :: t != []
  }

  lemma NoEmptyTextAppend(a: seq<Piece>, b: seq<Piece>)
    requires NoEmptyText(a) && NoEmptyText(b)
    ensures NoEmptyText(a + b)
  {
    TextsAppend(a, b);
  }

  lemma TextsShow(ts: seq<Bytes>)
    requires forall t | t in ts :: t != []
    ensures ts != [] ==> Concat(ts) != []
  {
    if ts != [] { assert ts[|ts| - 1] in ts; }
  }

  /** The reader after the text part of a stream. */
  function AfterText(model: string, started: bool, text: Bytes): Reader {
    Reader(Body, model, [], if started then Some(TextBlock(text)) else None, "", Usage(0, 0))
  }

  lemma ReadStop(model: string, started: bool, text: Bytes)
    requires started <==> text != []
    ensures ReadAll(AfterText(model, started, text), if started then [BlockStop(0)] else []) ==
      Some(AfterText(model, false, []).(blocks := TextBlocks(text)))
  {
    ReadOne(AfterText(model, started, text), BlockStop(0));
    assert [] + [TextBlock(text)] == [TextBlock(text)];
  }

  lemma ReadEnd(r: Reader, stop: string, usage: Usage)
    requires r.phase == Body && r.open.None?
    ensures ReadAll(r, [MessageDelta(stop, usage), MessageStop]) ==
      Some(r.(phase := Done, stop := stop, usage := usage))
  {
    ReadOne(r, MessageDelta(stop, usage));
    ReadSnoc(r, [MessageDelta(stop, usage)], MessageStop);
    assert [MessageDelta(stop, usage)] + [MessageStop] == [MessageDelta(stop, usage), MessageStop];
  }

  /** Reading the closing events after the text. */
  lemma ReadClosing(codec: Codec, model: string, h: seq<Piece>, text: Bytes)
    requires text == [] <==> Texts(h) == []
    ensures var m := MessageWith(codec, model, h, text);
      ReadAll(AfterText(model, Texts(h) != [], text), Closing(codec, h)) ==
        Some(Reader(Done, model, m.content, None, m.stop, m.usage))
  {
    var ds, m := Tools(h), MessageWith(codec, model, h, text);
    var r := AfterText(model, Texts(h) != [], text);
    var shut := AfterText(model, false, []).(blocks := TextBlocks(text));
    var stop := if Texts(h) != [] then [BlockStop(0)] else [];
    var tools := AllToolEvents(codec, |TextBlocks(text)|, ds, Order(ds));
    var end := [MessageDelta(m.stop, m.usage), MessageStop];
    ReadStop(model, Texts(h) != [], text);
    ReadTools(codec, shut, ds, Order(ds));
    ReadEnd(shut.(blocks := m.content), m.stop, m.usage);
    ReadAppend(r, stop, tools);
    ReadAppend(r, stop + tools, end);
    assert Closing(codec, h) == stop + tools + end;
  }

  /** A stream is well formed whatever the backend sent, and tells the message its pieces make,
      text uncapped. */
  lemma StreamTellsMessage(codec: Codec, model: string, estimate: int, h: seq<Piece>)
    requires NoEmptyText(h)
    ensures Assemble(StreamOf(codec, model, estimate, h)) == Some(MessageWith(codec, model, h, Concat(Texts(h))))
  {
    TextsShow(Texts(h));
    ReadText(model, estimate, Texts(h));
    ReadClosing(codec, model, h, Concat(Texts(h)));
    ReadAppend(START, [MessageStart(model, estimate)] + MoreText(false, Texts(h)), Closing(codec, h));
  }

  /** The streamed events and the aggregated message agree exactly while the text is within the cap. */
  lemma RenderingsAgreeIffWithinCap(codec: Codec, model: string, estimate: int, h: seq<Piece>)
    requires NoEmptyText(h)
    ensures Assemble(StreamOf(codec, model, estimate, h)) == Some(MessageOf(codec, model, h)) <==>
      |Concat(Texts(h))| <= ACCUM_CAP
  {
    StreamTellsMessage(codec, model, estimate, h);
    var whole := Concat(Texts(h));
    if |whole| > ACCUM_CAP {
      var a, b := MessageWith(codec, model, h, whole), MessageOf(codec, model, h);
      assert a.content[0] == TextBlock(whole) && b.content[0] == TextBlock(Cap(whole));
      assert |Cap(whole)| == ACCUM_CAP;
    }
  }

  // ---- what is decoded never holds an empty text ----

  lemma {:induction false} ToolPiecesHoldNoText(calls: seq<ToolDelta>)
    ensures Texts(ToolPieces(calls)) == []
  {
    if calls != [] {
      ToolPiecesHoldNoText(calls[..|calls| - 1]);
      TextsAppend(ToolPieces(calls[..|calls| - 1]), [Tool(calls[|calls| - 1])]);
      assert [Tool(calls[|calls| - 1])][..0] == [];
    }
  }

  lemma TextsOfOne(p: Piece)
    ensures Texts([p]) == if p.Text? then [p.text] else []
  {
    assert [p][..0] == [];
  }

  lemma ChoiceText(c: Choice)
    ensures Texts(ChoicePieces(c)) == if c.content != [] then [c.content] else []
  {
    var a := if c.finish != "" then [Reason(c.finish)] else [];
    var b := if c.content != [] then [Text(c.content)] else [];
    TextsOfOne(Reason(c.finish));
    TextsOfOne(Text(c.content));
    ToolPiecesHoldNoText(c.calls);
    TextsAppend(a, b);
    TextsAppend(a + b, ToolPieces(c.calls));
  }

  lemma {:induction false} ChoicesHoldNoEmptyText(cs: seq<Choice>)
    ensures NoEmptyText(ChoicesPieces(cs))
  {
    if cs != [] {
      ChoicesHoldNoEmptyText(cs[..|cs| - 1]);
      ChoiceText(cs[|cs| - 1]);
      NoEmptyTextAppend(ChoicesPieces(cs[..|cs| - 1]), ChoicePieces(cs[|cs| - 1]));
    }
  }

  lemma LineHoldsNoEmptyText(codec: Codec, line: Bytes)
    ensures NoEmptyText(LinePieces(codec, line))
  {
    var c := LineChunk(codec, line);
    if c.Some? {
      ChoicesHoldNoEmptyText(c.value.choices);
      if c.value.usage.Some? {
        TextsOfOne(Used(c.value.usage.value));
        NoEmptyTextAppend([Used(c.value.usage.value)], ChoicesPieces(c.value.choices));
      } else {
        assert [] + ChoicesPieces(c.value.choices) == ChoicesPieces(c.value.choices);
      }
    }
  }

  lemma {:induction false} LinesHoldNoEmptyText(codec: Codec, lines: seq<Bytes>)
    ensures NoEmptyText(LinesPieces(codec, lines))
  {
    if lines != [] {
      LinesHoldNoEmptyText(codec, lines[..|lines| - 1]);
      LineHoldsNoEmptyText(codec, lines[|lines| - 1]);
      NoEmptyTextAppend(LinesPieces(codec, lines[..|lines| - 1]), LinePieces(codec, lines[|lines| - 1]));
    }
  }

  lemma {:induction false} EventsHoldNoEmptyText(codec: Codec, events: seq<Bytes>)
    ensures NoEmptyText(PiecesOf(codec, events))
  {
    if events != [] {
      EventsHoldNoEmptyText(codec, events[..|events| - 1]);
      LinesHoldNoEmptyText(codec, Lines(events[|events| - 1]));
      NoEmptyTextAppend(PiecesOf(codec, events[..|events| - 1]), LinesPieces(codec, Lines(events[|events| - 1])));
    }
  }

  /** For a stream that never leaves too much waiting and whose text is within the cap: the
      events streamed for one cutting of it, read back, are the message aggregated from any
      other cutting. */
  lemma StreamingAndAggregationAgree(codec: Codec, model: string, estimate: int, s: Bytes, live: seq<Bytes>,
                                     whole: seq<Bytes>)
    requires Quiet(s) && Concat(live) == s && Concat(whole) == s
    requires |Concat(Texts(PiecesOf(codec, Split(s).events)))| <= ACCUM_CAP
    ensures Assemble(StreamOf(codec, model, estimate, PiecesOf(codec, FedAll(live).events))) ==
      Some(MessageOf(codec, model, PiecesOf(codec, FedAll(whole).events)))
  {
    CutsUnobservableIffQuiet(s);
    EventsHoldNoEmptyText(codec, Split(s).events);
    RenderingsAgreeIffWithinCap(codec, model, estimate, PiecesOf(codec, Split(s).events));
  }

  // ---- pings ----

  function WithoutPings(es: seq<Event>): seq<Event> {
    if es == [] then [] else WithoutPings(es[..|es| - 1]) + (if es[|es| - 1].Ping? then [] else [es[|es| - 1]])
  }

  lemma PingKeeps(r: Reader)
    requires r.phase != Fresh && r.phase != Done
    ensures Read(r, Ping) == Some(r)
  {
  }

  lemma AfterDone(r: Reader, e: Event)
    requires Read(r, e).Some?
    ensures r.phase != Done && Read(r, e).value.phase != Fresh
    ensures e.Ping? ==> Read(r, e) == Some(r)
  {
  }

  lemma {:induction false} ReadPinged(es: seq<Event>, r: Reader)
    requires es != [] && es[0].MessageStart? && ReadAll(START, WithoutPings(es)) == Some(r)
    requires r.phase == Done ==> !es[|es| - 1].Ping?
    ensures ReadAll(START, es) == Some(r) && r.phase != Fresh
  {
    hide Read, ReadAll;
    var most, last := es[..|es| - 1], es[|es| - 1];
    var before := WithoutPings(most);
    assert es == most + [last];
    if most == [] {
      assert WithoutPings(es) == [last] && es == [last];
      ReadOne(START, last);
      AfterDone(START, last);
    } else if last.Ping? {
      assert before + [] == before;
      ReadPinged(most, r);
      PingKeeps(r);
      ReadSnoc(START, most, last);
    } else {
      ReadSnoc(START, before, last);
      var mid := ReadAll(START, before).value;
      AfterDone(mid, last);
      ReadPinged(most, mid);
      ReadSnoc(START, most, last);
    }
  }

  /** Pings between the first and the last event of a stream change nothing a reader sees. */
  lemma PingsAreIgnored(es: seq<Event>)
    requires es != [] && es[0].MessageStart? && !es[|es| - 1].Ping?
    ensures Assemble(WithoutPings(es)).Some? ==> Assemble(es) == Assemble(WithoutPings(es))
  {
    if Assemble(WithoutPings(es)).Some? { ReadPinged(es, ReadAll(START, WithoutPings(es)).value); }
  }
}
