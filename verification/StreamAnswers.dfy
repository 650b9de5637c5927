/** What a message says, in terms of the backend's pieces alone: its stop reason, its usage, and
    the id, name and arguments of every tool call. Both renderings of an answer are messages of
    this kind, the streamed one as its reader assembles it. */
module StreamAnswers {
  import opened Common
  import opened ByteLines
  import opened SseEvents
  import opened StreamMeaning

  // ---- what pieces hold ----

  /** One piece at a time; with the laws for appending this fixes both readings of any pieces. */
  lemma OnePiece(h: seq<Piece>, p: Piece)
    ensures Texts([]) == [] && Texts(h + [p]) == Texts(h) + (if p.Text? then [p.text] else [])
    ensures Tools([]) == [] && Tools(h + [p]) == Tools(h) + (if p.Tool? then [p.delta] else [])
  {
    assert (h + [p])[..|h|] == h;
  }

  predicate SomeTool(h: seq<Piece>) {
    exists k | 0 <= k < |h| :: h[k].Tool?
  }

  /** The last finish reason given is this one. */
  predicate LastReason(h: seq<Piece>, reason: string) {
    exists k | 0 <= k < |h| :: h[k] == Reason(reason) && forall j | k < j < |h| :: !h[j].Reason?
  }

  /** The last usage given is this one. */
  predicate LastUsed(h: seq<Piece>, usage: Usage) {
    exists k | 0 <= k < |h| :: h[k] == Used(usage) && forall j | k < j < |h| :: !h[j].Used?
  }

  predicate NoneUsed(h: seq<Piece>) {
    forall k | 0 <= k < |h| :: !h[k].Used?
  }

  lemma {:induction false} ToolsHeld(h: seq<Piece>)
    ensures Tools(h) != [] <==> SomeTool(h)
    ensures Order(Tools(h)) != [] <==> SomeTool(h)
  {
    OrderIsFirstAppearance(Tools(h));
    if h != [] {
      var most := h[..|h| - 1];
      ToolsHeld(most);
      if SomeTool(most) {
        var k :| 0 <= k < |most| && most[k].Tool?;
        assert h[k].Tool?;
      }
      assert h[|h| - 1].Tool? ==> SomeTool(h);
    }
  }

  lemma OneMoreReason(most: seq<Piece>, last: Piece, reason: string)
    ensures LastReason(most + [last], reason) <==>
      if last.Reason? then last.reason == reason else LastReason(most, reason)
  {
    var h := most + [last];
    assert h[|most|] == last;
    if LastReason(h, reason) {
      var k :| 0 <= k < |h| && h[k] == Reason(reason) && forall j | k < j < |h| :: !h[j].Reason?;
      if k < |most| {
        assert most[k] == h[k] && !h[|most|].Reason?;
        assert forall j | k < j < |most| :: most[j] == h[j];
      }
    }
    if LastReason(most, reason) && !last.Reason? {
      var k :| 0 <= k < |most| && most[k] == Reason(reason) && forall j | k < j < |most| :: !most[j].Reason?;
      assert h[k] == most[k] && forall j | k < j < |most| :: h[j] == most[j];
    }
  }

  lemma OneMoreUsed(most: seq<Piece>, last: Piece, u: Usage)
    ensures LastUsed(most + [last], u) <==> if last.Used? then last.usage == u else LastUsed(most, u)
    ensures NoneUsed(most + [last]) <==> NoneUsed(most) && !last.Used?
  {
    var h := most + [last];
    assert h[|most|] == last && forall j | 0 <= j < |most| :: h[j] == most[j];
    if LastUsed(h, u) {
      var k :| 0 <= k < |h| && h[k] == Used(u) && forall j | k < j < |h| :: !h[j].Used?;
      if k < |most| { assert most[k] == h[k] && !h[|most|].Used?; }
    }
    if LastUsed(most, u) && !last.Used? {
      var k :| 0 <= k < |most| && most[k] == Used(u) && forall j | k < j < |most| :: !most[j].Used?;
      assert h[k] == most[k];
    }
  }

  lemma {:induction false} ReasonHeld(h: seq<Piece>, reason: string)
    ensures reason != "" ==> (FinishReason(h) == reason <==> LastReason(h, reason))
  {
    if h != [] {
      hide LastReason;
      var most, last := h[..|h| - 1], h[|h| - 1];
      assert h == most + [last];
      OneMoreReason(most, last, reason);
      if !last.Reason? { ReasonHeld(most, reason); }
    }
  }

  lemma {:induction false} UsageHeld(h: seq<Piece>)
    ensures NoneUsed(h) ==> LastUsage(h) == Usage(0, 0)
    ensures !NoneUsed(h) ==> LastUsed(h, LastUsage(h))
    ensures forall u | LastUsed(h, u) :: u == LastUsage(h)
  {
    if h != [] {
      hide LastUsed, NoneUsed;
      var most, last := h[..|h| - 1], h[|h| - 1];
      assert h == most + [last];
      UsageHeld(most);
      OneMoreUsed(most, last, LastUsage(h));
      forall u | LastUsed(h, u) ensures u == LastUsage(h) { OneMoreUsed(most, last, u); }
    }
  }

  // ---- the stop reason ----

  /** The stop reason is tool_use exactly when some tool is called or the last finish reason is
      tool_calls, max_tokens exactly when none is and it is length, and end_turn otherwise. */
  lemma StopIff(codec: Codec, model: string, h: seq<Piece>, text: Bytes)
    ensures var stop := MessageWith(codec, model, h, text).stop;
      && (stop == "tool_use" <==> SomeTool(h) || LastReason(h, "tool_calls"))
      && (stop == "max_tokens" <==> !SomeTool(h) && LastReason(h, "length"))
      && (stop == "end_turn" <==> !SomeTool(h) && !LastReason(h, "tool_calls") && !LastReason(h, "length"))
  {
    ToolsHeld(h);
    ReasonHeld(h, "tool_calls");
    ReasonHeld(h, "length");
  }

  // ---- the usage ----

  /** Without a count of its own, a text counts a token for every four bytes, and at least one. */
  predicate Estimates(text: Bytes, n: int) {
    if text == [] then n == 0 else if |text| < 4 then n == 1 else 4 * n <= |text| < 4 * n + 4
  }

  /** The usage is the last one reported, the output estimated from the text kept when none or
      zero was reported. */
  lemma UsageIs(codec: Codec, model: string, h: seq<Piece>, text: Bytes)
    ensures var usage := MessageWith(codec, model, h, text).usage;
      && (forall u | LastUsed(h, u) :: usage.input == u.input && (u.output != 0 ==> usage.output == u.output))
      && (NoneUsed(h) ==> usage.input == 0)
      && (NoneUsed(h) || LastUsed(h, Usage(usage.input, 0)) ==> Estimates(Kept(Concat(Texts(h))), usage.output))
  {
    UsageHeld(h);
    KeptIs(Concat(Texts(h)));
  }

  /** At most 8 MiB of some text. */
  function Kept(s: Bytes): Bytes {
    if |s| <= 8 * 1024 * 1024 then s else s[..8 * 1024 * 1024]
  }

  lemma KeptIs(s: Bytes)
    ensures Cap(s) == Kept(s)
  {
  }

  // ---- the content ----

  /** The fragments of the call with this index say this last of it: an id, or nothing. */
  predicate LastId(ds: seq<ToolDelta>, i: int, id: string) {
    if id == "" then forall k | 0 <= k < |ds| && ds[k].index == i :: ds[k].id == ""
    else
      exists k | 0 <= k < |ds| :: ds[k].index == i && ds[k].id == id
        && forall j | k < j < |ds| && ds[j].index == i :: ds[j].id == ""
  }

  predicate LastName(ds: seq<ToolDelta>, i: int, name: string) {
    if name == "" then forall k | 0 <= k < |ds| && ds[k].index == i :: ds[k].name == ""
    else
      exists k | 0 <= k < |ds| :: ds[k].index == i && ds[k].name == name
        && forall j | k < j < |ds| && ds[j].index == i :: ds[j].name == ""
  }

  /** The argument fragments of the call with this index, in order. */
  function ArgsOf(ds: seq<ToolDelta>, i: int): Bytes {
    if ds == [] then []
    else ArgsOf(ds[..|ds| - 1], i) + (if ds[|ds| - 1].index == i then ds[|ds| - 1].args else [])
  }

  lemma OneMoreNamesNothing(most: seq<ToolDelta>, last: ToolDelta, i: int, id: string, name: string)
    ensures LastId(most, i, id) && (last.index == i ==> last.id == "") ==> LastId(most + [last], i, id)
    ensures LastName(most, i, name) && (last.index == i ==> last.name == "") ==> LastName(most + [last], i, name)
  {
    var ds := most + [last];
    if LastId(most, i, id) && (last.index == i ==> last.id == "") && id != "" {
      var k :| 0 <= k < |most| && most[k].index == i && most[k].id == id
        && forall j | k < j < |most| && most[j].index == i :: most[j].id == "";
      assert ds[k] == most[k];
    }
    if LastName(most, i, name) && (last.index == i ==> last.name == "") && name != "" {
      var k :| 0 <= k < |most| && most[k].index == i && most[k].name == name
        && forall j | k < j < |most| && most[j].index == i :: most[j].name == "";
      assert ds[k] == most[k];
    }
  }

  lemma OneMoreNames(most: seq<ToolDelta>, last: ToolDelta)
    ensures last.id != "" ==> LastId(most + [last], last.index, last.id)
    ensures last.name != "" ==> LastName(most + [last], last.index, last.name)
  {
    assert (most + [last])[|most|] == last;
  }

  lemma JoinedSnoc(ds: seq<ToolDelta>, d: ToolDelta)
    ensures var before := Joined(ds);
      Joined(ds + [d]) == ToolCall(if d.id != "" then d.id else before.id, if d.name != "" then d.name else before.name,
                                   before.args + d.args)
  {
    assert (ds + [d])[..|ds|] == ds;
  }

  lemma OneMoreFragment(most: seq<ToolDelta>, last: ToolDelta, i: int)
    ensures Joined(Only(most + [last], i)) ==
      if last.index != i then Joined(Only(most, i))
      else
        var before := Joined(Only(most, i));
        ToolCall(if last.id != "" then last.id else before.id, if last.name != "" then last.name else before.name,
                 before.args + last.args)
    ensures ArgsOf(most + [last], i) == if last.index == i then ArgsOf(most, i) + last.args else ArgsOf(most, i)
  {
    hide Joined;
    assert (most + [last])[..|most|] == most;
    assert Only(most, i) + [] == Only(most, i) && ArgsOf(most, i) + [] == ArgsOf(most, i);
    JoinedSnoc(Only(most, i), last);
  }

  lemma NoCall(i: int)
    ensures LastId([], i, Joined(Only([], i)).id) && LastName([], i, Joined(Only([], i)).name)
    ensures Joined(Only([], i)).args == ArgsOf([], i)
  {
  }

  lemma {:induction false} CallIs(ds: seq<ToolDelta>, i: int)
    ensures LastId(ds, i, Joined(Only(ds, i)).id) && LastName(ds, i, Joined(Only(ds, i)).name)
    ensures Joined(Only(ds, i)).args == ArgsOf(ds, i)
  {
    hide Joined, Only, ArgsOf, LastId, LastName;
    if ds == [] {
      NoCall(i);
    } else {
      var most, last := ds[..|ds| - 1], ds[|ds| - 1];
      assert ds == most + [last];
      CallIs(most, i);
      OneMoreFragment(most, last, i);
      OneMoreNames(most, last);
      OneMoreNamesNothing(most, last, i, Joined(Only(most, i)).id, Joined(Only(most, i)).name);
    }
  }

  /** The arguments as given when they are JSON, and {} when they are blank or are not. */
  predicate InputIs(codec: Codec, args: Bytes, input: Bytes) {
    if codec.trim(args) == [] || !codec.validJson(args) then input == Ascii("{}") else input == args
  }

  /** The block of the call with this index. */
  predicate IsCall(codec: Codec, ds: seq<ToolDelta>, i: int, b: Block) {
    && b.ToolBlock? && LastName(ds, i, b.name) && InputIs(codec, Kept(ArgsOf(ds, i)), b.input)
    && (if b.id == Generated then LastId(ds, i, "") else b.id.id != "" && LastId(ds, i, b.id.id))
  }

  lemma ToolBlockIs(codec: Codec, ds: seq<ToolDelta>, i: int)
    ensures IsCall(codec, ds, i, ToolBlockOf(codec, ds, i))
  {
    hide LastId, LastName;
    CallIs(ds, i);
    KeptIs(ArgsOf(ds, i));
    assert NO_ARGS == Ascii("{}");
  }

  lemma {:induction false} ToolBlocksAre(codec: Codec, ds: seq<ToolDelta>, order: seq<int>)
    ensures |ToolBlocks(codec, ds, order)| == |order|
    ensures forall k | 0 <= k < |order| :: IsCall(codec, ds, order[k], ToolBlocks(codec, ds, order)[k])
  {
    hide IsCall, ToolBlockOf;
    if order != [] {
      ToolBlocksAre(codec, ds, order[..|order| - 1]);
      ToolBlockIs(codec, ds, order[|order| - 1]);
    }
  }

  /** The content is the text, if there is any, and then one block for every call, in the order
      in which the calls first appear. */
  lemma ContentIs(codec: Codec, model: string, h: seq<Piece>, text: Bytes)
    ensures var m, ds, first := MessageWith(codec, model, h, text), Tools(h), if text == [] then 0 else 1;
      && m.model == model && |m.content| == first + |Order(ds)|
      && (text != [] ==> m.content[0] == TextBlock(text))
      && forall k | 0 <= k < |Order(ds)| :: IsCall(codec, ds, Order(ds)[k], m.content[first + k])
  {
    hide IsCall, Order, Tools, ToolBlocks, StopReason, FinalUsage, LastUsage, FinishReason, Texts, Concat, Cap;
    ToolBlocksAre(codec, Tools(h), Order(Tools(h)));
  }

  /** Both renderings of an answer, the message aggregated and the one its events tell, give the
      stop reason of the pieces. */
  lemma BothStopAlike(codec: Codec, model: string, estimate: int, h: seq<Piece>)
    requires NoEmptyText(h)
    ensures var whole, told := MessageOf(codec, model, h), Assemble(StreamOf(codec, model, estimate, h));
      && told.Some? && told.value.stop == whole.stop
      && (whole.stop == "tool_use" <==> SomeTool(h) || LastReason(h, "tool_calls"))
      && (whole.stop == "max_tokens" <==> !SomeTool(h) && LastReason(h, "length"))
      && (whole.stop == "end_turn" <==> !SomeTool(h) && !LastReason(h, "tool_calls") && !LastReason(h, "length"))
  {
    hide Assemble, StreamOf, SomeTool, LastReason, Cap, Concat;
    StreamTellsMessage(codec, model, estimate, h);
    StopIff(codec, model, h, Cap(Concat(Texts(h))));
  }

  // ---- what a line says ----

  /** A line carries what follows data:, blanks around it aside, unless that is nothing or the
      closing [DONE]. */
  lemma LineCarries(codec: Codec, line: Bytes)
    ensures var trimmed := codec.trim(line);
      LineChunk(codec, line) ==
        if |trimmed| < 5 || trimmed[..5] != Ascii("data:") then None
        else
          var payload := codec.trim(trimmed[5..]);
          if payload == [] || payload == Ascii("[DONE]") then None else codec.decode(payload)
  {
    assert DATA == Ascii("data:") && DONE == Ascii("[DONE]");
  }

  /** The texts of some choices that are not empty, in order. */
  function Contents(cs: seq<Choice>): seq<Bytes> {
    if cs == [] then []
    else Contents(cs[..|cs| - 1]) + (if cs[|cs| - 1].content == [] then [] else [cs[|cs| - 1].content])
  }

  function Calls(cs: seq<Choice>): seq<ToolDelta> {
    if cs == [] then [] else Calls(cs[..|cs| - 1]) + cs[|cs| - 1].calls
  }

  /** The last finish reason of some choices that give one. */
  function LastFinish(cs: seq<Choice>): string {
    if cs == [] then "" else if cs[|cs| - 1].finish != "" then cs[|cs| - 1].finish else LastFinish(cs[..|cs| - 1])
  }

  /** What has been heard: the texts, the fragments, the finish reason and the usage. */
  datatype Summary = Summary(texts: seq<Bytes>, calls: seq<ToolDelta>, finish: string, usage: Usage)

  function Heard(h: seq<Piece>): Summary {
    Summary(Texts(h), Tools(h), FinishReason(h), LastUsage(h))
  }

  lemma HeardSnoc(h: seq<Piece>, p: Piece)
    ensures Heard(h + [p]) ==
      match p
      case Text(t) => Heard(h).(texts := Texts(h) + [t])
      case Tool(d) => Heard(h).(calls := Tools(h) + [d])
      case Reason(r) => Heard(h).(finish := r)
      case Used(u) => Heard(h).(usage := u)
  {
    assert (h + [p])[..|h|] == h;
    assert Texts(h) + [] == Texts(h) && Tools(h) + [] == Tools(h);
  }

  lemma {:induction false} CallsHeard(h: seq<Piece>, calls: seq<ToolDelta>)
    ensures Heard(h + ToolPieces(calls)) == Heard(h).(calls := Tools(h) + calls)
  {
    if calls == [] {
      assert h + [] == h && Tools(h) + [] == Tools(h);
    } else {
      var most, last := calls[..|calls| - 1], calls[|calls| - 1];
      CallsHeard(h, most);
      Assoc(h, ToolPieces(most), [Tool(last)]);
      HeardSnoc(h + ToolPieces(most), Tool(last));
      assert Tools(h) + most + [last] == Tools(h) + calls;
    }
  }

  lemma ChoiceHeard(h: seq<Piece>, c: Choice)
    ensures Heard(h + ChoicePieces(c)) ==
      Summary(Texts(h) + (if c.content == [] then [] else [c.content]), Tools(h) + c.calls,
              if c.finish == "" then FinishReason(h) else c.finish, LastUsage(h))
  {
    var reason := if c.finish != "" then [Reason(c.finish)] else [];
    var text := if c.content != [] then [Text(c.content)] else [];
    Assoc(h, reason + text, ToolPieces(c.calls));
    Assoc(h, reason, text);
    assert h + [] == h && h + reason + [] == h + reason && Texts(h) + [] == Texts(h);
    if c.finish != "" { HeardSnoc(h, Reason(c.finish)); }
    if c.content != [] { HeardSnoc(h + reason, Text(c.content)); }
    CallsHeard(h + reason + text, c.calls);
  }

  lemma {:induction false} ChoicesHeard(h: seq<Piece>, cs: seq<Choice>)
    ensures Heard(h + ChoicesPieces(cs)) ==
      Summary(Texts(h) + Contents(cs), Tools(h) + Calls(cs),
              if LastFinish(cs) == "" then FinishReason(h) else LastFinish(cs), LastUsage(h))
  {
    hide Heard, ChoicePieces;
    if cs == [] {
      NothingHeard(h);
    } else {
      var most, last := cs[..|cs| - 1], cs[|cs| - 1];
      var before := h + ChoicesPieces(most);
      ChoicesHeard(h, most);
      Assoc(h, ChoicesPieces(most), ChoicePieces(last));
      ChoiceHeard(before, last);
      Fields(before);
      Assoc(Texts(h), Contents(most), if last.content == [] then [] else [last.content]);
      Assoc(Tools(h), Calls(most), last.calls);
    }
  }

  lemma Fields(h: seq<Piece>)
    ensures Heard(h) == Summary(Texts(h), Tools(h), FinishReason(h), LastUsage(h))
  {
  }

  lemma NothingHeard(h: seq<Piece>)
    ensures Heard(h + []) == Summary(Texts(h) + [], Tools(h) + [], FinishReason(h), LastUsage(h))
  {
    assert h + [] == h && Texts(h) + [] == Texts(h) && Tools(h) + [] == Tools(h);
  }

  /** What one more chunk adds to what has been heard: its texts that are not empty and its call
      fragments, choice by choice, the last finish reason it gives and the usage it reports. */
  lemma ChunkHeard(h: seq<Piece>, c: Chunk)
    ensures Heard(h + ChunkPieces(c)) ==
      Summary(Texts(h) + Contents(c.choices), Tools(h) + Calls(c.choices),
              if LastFinish(c.choices) == "" then FinishReason(h) else LastFinish(c.choices),
              if c.usage.Some? then c.usage.value else LastUsage(h))
  {
    hide Contents, Calls, LastFinish, ChoicesPieces;
    var used := if c.usage.Some? then [Used(c.usage.value)] else [];
    Assoc(h, used, ChoicesPieces(c.choices));
    assert h + [] == h;
    if c.usage.Some? { HeardSnoc(h, Used(c.usage.value)); }
    ChoicesHeard(h + used, c.choices);
  }
}
