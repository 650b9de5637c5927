/** The translator that turns a backend's chunks into Anthropic events as they come, or into
    one message at the end. */
module StreamTranslator {
  import opened Common
  import opened ByteLines
  import opened SseEvents
  import opened StreamMeaning

  /** Where events are written. */
  class Sink {
    var events: seq<Event>

    constructor ()
      ensures events == []
    {
      events := [];
    }

    method Write(e: Event)
      modifies this
      ensures events == old(events) + [e]
    {
      events := events + [e];
    }
  }

  // ---- one more piece ----

  lemma SnocPiece(h: seq<Piece>, p: Piece)
    ensures Texts(h + [p]) == if p.Text? then Texts(h) + [p.text] else Texts(h)
    ensures Tools(h + [p]) == if p.Tool? then Tools(h) + [p.delta] else Tools(h)
    ensures FinishReason(h + [p]) == if p.Reason? then p.reason else FinishReason(h)
    ensures LastUsage(h + [p]) == if p.Used? then p.usage else LastUsage(h)
  {
    assert (h + [p])[..|h|] == h;
    assert Texts(h) + [] == Texts(h) && Tools(h) + [] == Tools(h);
  }

  lemma SnocText(ts: seq<Bytes>, t: Bytes)
    ensures Concat(ts + [t]) == Concat(ts) + t
    ensures TextDeltas([t]) == [BlockDelta(0, TextDelta(t))]
  {
    assert (ts + [t])[..|ts|] == ts;
    assert [t][..0] == [];
  }

  lemma AccumText(ts: seq<Bytes>, t: Bytes)
    ensures Cap(Cap(Concat(ts)) + t) == Cap(Concat(ts + [t]))
  {
    SnocText(ts, t);
    CapStep(Concat(ts), t);
  }

  /** A tool call with one more fragment. */
  function Updated(call: ToolCall, d: ToolDelta): ToolCall {
    ToolCall(if d.id != "" then d.id else call.id, if d.name != "" then d.name else call.name, Cap(call.args + d.args))
  }

  /** What applying some pieces writes, after others have been applied. */
  function Out(streaming: bool, h: seq<Piece>, ps: seq<Piece>): seq<Event> {
    if streaming then MoreText(Texts(h) != [], Texts(ps)) else []
  }

  /** From one state of the pieces heard and the events written, some pieces lead to another. */
  predicate Leads(streaming: bool, h0: seq<Piece>, es0: seq<Event>, ps: seq<Piece>, h: seq<Piece>, es: seq<Event>) {
    h == h0 + ps && es == es0 + Out(streaming, h0, ps)
  }

  lemma LeadsOn(streaming: bool, h0: seq<Piece>, es0: seq<Event>, a: seq<Piece>, h1: seq<Piece>, es1: seq<Event>,
                b: seq<Piece>, h2: seq<Piece>, es2: seq<Event>)
    requires Leads(streaming, h0, es0, a, h1, es1) && Leads(streaming, h1, es1, b, h2, es2)
    ensures Leads(streaming, h0, es0, a + b, h2, es2)
  {
    Assoc(h0, a, b);
    TextsAppend(h0, a);
    TextsAppend(a, b);
    MoreTextAppend(Texts(h0) != [], Texts(a), Texts(b));
    Assoc(es0, Out(streaming, h0, a), Out(streaming, h1, b));
  }

  lemma LeadsNowhere(streaming: bool, h: seq<Piece>, es: seq<Event>)
    ensures Leads(streaming, h, es, [], h, es)
  {
    assert h + [] == h && es + [] == es && MoreText(Texts(h) != [], []) == [];
  }

  /** One piece that is no text writes nothing. */
  lemma LeadsQuietly(streaming: bool, h: seq<Piece>, es: seq<Event>, p: Piece)
    requires !p.Text?
    ensures Leads(streaming, h, es, [p], h + [p], es)
  {
    TextsOfOne(p);
    assert es + [] == es && MoreText(Texts(h) != [], []) == [];
  }

  lemma LeadsText(streaming: bool, h: seq<Piece>, es: seq<Event>, t: Bytes)
    ensures Leads(streaming, h, es, [Text(t)], h + [Text(t)],
                  if !streaming then es
                  else (if Texts(h) == [] then es + [BlockStart(0, TextHead)] else es) + [BlockDelta(0, TextDelta(t))])
  {
    TextsOfOne(Text(t));
    SnocText([], t);
    assert es + [] == es;
    Assoc(es, [BlockStart(0, TextHead)], [BlockDelta(0, TextDelta(t))]);
    assert MoreText(true, [t]) == [BlockDelta(0, TextDelta(t))];
  }

  lemma AssocEnd<T>(a: seq<T>, b: seq<T>, c: seq<T>, x: T, y: T)
    ensures a + b + c + [x] + [y] == a + (b + c + [x, y])
  {
  }

  /** The table of calls holds, for every index seen, what its fragments make up. */
  ghost predicate CallsAre(calls: map<int, ToolCall>, order: seq<int>, ds: seq<ToolDelta>) {
    && order == Order(ds)
    && (forall i | i in order :: i in calls)
    && (forall i | i in calls :: i in order && calls[i] == CallOf(ds, i))
  }

  /** The events done and those still to be split off. */
  function Resumed(done: seq<Bytes>, s: Bytes): Cut {
    Cut(done + Split(s).events, Split(s).rest)
  }

  lemma NothingDone(codec: Codec, s: Bytes)
    ensures Resumed([], s) == Split(s) && PiecesOf(codec, []) == []
  {
  }

  /** What is left to split either holds no whole event, or one that comes next. */
  lemma NextEvent(codec: Codec, done: seq<Bytes>, s: Bytes)
    ensures var idx := EventEnd(s);
      if idx + 1 >= |s| then Resumed(done, s) == Cut(done, s)
      else
        var event := s[..idx];
        && Resumed(done, s) == Resumed(done + [event], s[idx + 2..])
        && PiecesOf(codec, done + [event]) == PiecesOf(codec, done) + LinesPieces(codec, Lines(event))
  {
    hide Lines, LinesPieces, EventEnd;
    var idx := EventEnd(s);
    if idx + 1 < |s| {
      Assoc(done, [s[..idx]], Split(s[idx + 2..]).events);
      assert (done + [s[..idx]])[..|done|] == done;
    }
  }

  /** Some events, and those of the first k tools after them. */
  function WithTools(codec: Codec, first: nat, ds: seq<ToolDelta>, es: seq<Event>, order: seq<int>, k: nat): seq<Event>
    requires k <= |order|
  {
    es + AllToolEvents(codec, first, ds, order[..k])
  }

  lemma ToolsAround(codec: Codec, first: nat, ds: seq<ToolDelta>, es: seq<Event>, order: seq<int>)
    ensures WithTools(codec, first, ds, es, order, 0) == es
    ensures WithTools(codec, first, ds, es, order, |order|) == es + AllToolEvents(codec, first, ds, order)
  {
    assert es + [] == es && order[..|order|] == order;
  }

  lemma OneMoreTool(codec: Codec, first: nat, ds: seq<ToolDelta>, es: seq<Event>, order: seq<int>, k: nat)
    requires k < |order|
    ensures WithTools(codec, first, ds, es, order, k + 1) ==
      WithTools(codec, first, ds, es, order, k) + ToolEvents(codec, first + k, CallOf(ds, order[k]))
  {
    hide ToolEvents, CallOf;
    assert order[..k + 1][..k] == order[..k];
    Assoc(es, AllToolEvents(codec, first, ds, order[..k]), ToolEvents(codec, first + k, CallOf(ds, order[k])));
  }

  lemma OneMoreBlock(codec: Codec, ds: seq<ToolDelta>, before: seq<Block>, order: seq<int>, k: nat)
    requires k < |order|
    ensures before + ToolBlocks(codec, ds, order[..k + 1]) ==
      before + ToolBlocks(codec, ds, order[..k]) + [ToolBlockOf(codec, ds, order[k])]
  {
    hide ToolBlockOf;
    assert order[..k + 1][..k] == order[..k];
    Assoc(before, ToolBlocks(codec, ds, order[..k]), [ToolBlockOf(codec, ds, order[k])]);
  }

  lemma CallAt(calls: map<int, ToolCall>, order: seq<int>, ds: seq<ToolDelta>, k: nat)
    requires CallsAre(calls, order, ds) && k < |order|
    ensures order[k] in calls && calls[order[k]] == CallOf(ds, order[k])
  {
    var i := order[k];
    assert i in order;
  }

  function Before(calls: map<int, ToolCall>, i: int): ToolCall {
    if i in calls then calls[i] else ToolCall("", "", [])
  }

  lemma SnocCall(ds: seq<ToolDelta>, d: ToolDelta, i: int)
    ensures CallOf(ds + [d], i) == if i == d.index then Updated(CallOf(ds, i), d) else CallOf(ds, i)
  {
    var fragments := Only(ds, i);
    assert (ds + [d])[..|ds|] == ds && (ds + [d])[|ds|] == d;
    if i == d.index {
      assert Only(ds + [d], i) == fragments + [d];
      assert (fragments + [d])[..|fragments|] == fragments && (fragments + [d])[|fragments|] == d;
      assert Joined(fragments + [d]).args == Joined(fragments).args + d.args;
      CapStep(Joined(fragments).args, d.args);
    } else {
      assert fragments + [] == fragments;
      assert Only(ds + [d], i) == fragments;
    }
  }

  lemma CallsStep(calls: map<int, ToolCall>, order: seq<int>, ds: seq<ToolDelta>, d: ToolDelta)
    requires CallsAre(calls, order, ds)
    ensures |Before(calls, d.index).args| <= ACCUM_CAP
    ensures CallsAre(calls[d.index := Updated(Before(calls, d.index), d)],
                     if d.index in calls then order else order + [d.index], ds + [d])
  {
    var now := calls[d.index := Updated(Before(calls, d.index), d)];
    var next := if d.index in calls then order else order + [d.index];
    assert next == Order(ds + [d]) by { assert (ds + [d])[..|ds|] == ds; }
    assert Before(calls, d.index) == CallOf(ds, d.index) by { OrderIsFirstAppearance(ds); }
    forall i ensures (i in now <==> i in next) && (i in now ==> now[i] == CallOf(ds + [d], i)) { SnocCall(ds, d, i); }
  }

  // ---- the accumulated state, piece by piece ----

  /** What the translator accumulates. */
  datatype Acc = Acc(started: bool, calls: map<int, ToolCall>, order: seq<int>, finish: string, usage: Usage,
                     text: Bytes)

  /** Appends up to the cap and drops what is past it. */
  function Grown(acc: Bytes, s: Bytes): Bytes {
    if |acc| >= ACCUM_CAP then acc else acc + if ACCUM_CAP - |acc| < |s| then s[..ACCUM_CAP - |acc|] else s
  }

  lemma GrownIsCapped(acc: Bytes, s: Bytes)
    requires |acc| <= ACCUM_CAP
    ensures Grown(acc, s) == Cap(acc + s)
  {
    if |acc| >= ACCUM_CAP {
      assert (acc + s)[..ACCUM_CAP] == acc;
      assert s == [] ==> acc + s == acc;
    } else if ACCUM_CAP - |acc| < |s| {
      assert (acc + s)[..ACCUM_CAP] == acc + s[..ACCUM_CAP - |acc|];
    }
  }

  function Merged(call: ToolCall, d: ToolDelta): ToolCall {
    ToolCall(if d.id != "" then d.id else call.id, if d.name != "" then d.name else call.name,
             if d.args != [] then Grown(call.args, d.args) else call.args)
  }

  function Applied(streaming: bool, a: Acc, p: Piece): Acc {
    match p
    case Text(t) => a.(started := a.started || streaming, text := Grown(a.text, t))
    case Tool(d) =>
      a.(calls := a.calls[d.index := Merged(Before(a.calls, d.index), d)],
         order := if d.index in a.calls then a.order else a.order + [d.index])
    case Reason(reason) => a.(finish := reason)
    case Used(u) => a.(usage := u)
  }

  function Folded(streaming: bool, h: seq<Piece>): Acc {
    if h == [] then Acc(false, map[], [], "", Usage(0, 0), [])
    else Applied(streaming, Folded(streaming, h[..|h| - 1]), h[|h| - 1])
  }

  lemma FoldedSnoc(streaming: bool, h: seq<Piece>, p: Piece)
    ensures Folded(streaming, h + [p]) == Applied(streaming, Folded(streaming, h), p)
  {
    assert (h + [p])[..|h|] == h;
  }

  /** What is accumulated is what the pieces add up to. */
  ghost predicate Means(streaming: bool, a: Acc, h: seq<Piece>) {
    && a.text == Cap(Concat(Texts(h)))
    && CallsAre(a.calls, a.order, Tools(h)) && a.order == Order(Tools(h))
    && a.finish == FinishReason(h) && a.usage == LastUsage(h)
    && a.started == (streaming && Texts(h) != [])
  }

  lemma {:induction false} FoldedMeans(streaming: bool, h: seq<Piece>)
    ensures Means(streaming, Folded(streaming, h), h)
  {
    if h != [] {
      var most, p := h[..|h| - 1], h[|h| - 1];
      FoldedMeans(streaming, most);
      assert h == most + [p];
      SnocPiece(most, p);
      var a := Folded(streaming, most);
      match p
      case Text(t) =>
        GrownIsCapped(a.text, t);
        AccumText(Texts(most), t);
      case Tool(d) =>
        CallsStep(a.calls, a.order, Tools(most), d);
        MergedIsUpdated(Before(a.calls, d.index), d);
      case Reason(_) =>
      case Used(_) =>
    }
  }

  lemma FoldedStarted(streaming: bool, h: seq<Piece>)
    ensures Folded(streaming, h).started == (streaming && Texts(h) != [])
  {
    FoldedMeans(streaming, h);
  }

  lemma MergedIsUpdated(call: ToolCall, d: ToolDelta)
    requires |call.args| <= ACCUM_CAP
    ensures Merged(call, d) == Updated(call, d)
  {
    GrownIsCapped(call.args, d.args);
    assert d.args == [] ==> call.args + d.args == call.args;
  }

  method WriteCapped(acc: Bytes, s: Bytes) returns (r: Bytes)
    ensures r == Grown(acc, s)
  {
    if |acc| >= ACCUM_CAP {
      return acc;
    }
    var t := s;
    var remaining := ACCUM_CAP - |acc|;
    if remaining < |s| {
      t := s[..remaining];
    }
    return acc + t;
  }

  method Merge(call: ToolCall, d: ToolDelta) returns (r: ToolCall)
    ensures r == Merged(call, d)
  {
    r := call;
    if d.id != "" { r := r.(id := d.id); }
    if d.name != "" { r := r.(name := d.name); }
    if d.args != [] {
      var args := WriteCapped(r.args, d.args);
      r := r.(args := args);
    }
  }

  class Translator {
    const streaming: bool
    const model: string
    const estimate: int
    const codec: Codec
    var textStarted: bool
    var textBlockIndex: nat
    var nextBlockIndex: nat
    var toolCalls: map<int, ToolCall>
    var toolOrder: seq<int>
    var finishReason: string
    var usage: Usage
    var sseBuf: Bytes
    var textAccum: Bytes
    ghost var heard: seq<Piece>   // every piece applied so far

    constructor (streaming: bool, model: string, estimate: int, codec: Codec)
      ensures Valid() && heard == [] && sseBuf == []
      ensures this.streaming == streaming && this.model == model && this.estimate == estimate && this.codec == codec
    {
      this.streaming, this.model, this.estimate, this.codec := streaming, model, estimate, codec;
      textStarted, textBlockIndex, nextBlockIndex := false, 0, 0;
      toolCalls, toolOrder, finishReason, usage := map[], [], "", Usage(0, 0);
      sseBuf, textAccum, heard := [], [], [];
    }

    ghost function View(): Acc
      reads this
    {
      Acc(textStarted, toolCalls, toolOrder, finishReason, usage, textAccum)
    }

    /** The fields are what the pieces heard so far fold to; no block but the text's is open yet. */
    ghost predicate Valid()
      reads this
    {
      View() == Folded(streaming, heard) && textBlockIndex == 0 && nextBlockIndex == (if textStarted then 1 else 0)
    }

    method Start(w: Sink)
      modifies w
      ensures w.events == old(w.events) + if streaming then [MessageStart(model, estimate)] else []
    {
      if !streaming { return; }
      w.Write(MessageStart(model, estimate));
    }

    /** The events of one more text. */
    method EmitText(text: Bytes, w: Sink)
      requires textBlockIndex == 0 && nextBlockIndex == (if textStarted then 1 else 0)
      modifies this`textStarted, this`textBlockIndex, this`nextBlockIndex, w
      ensures textBlockIndex == 0 && nextBlockIndex == (if textStarted then 1 else 0)
      ensures textStarted == (old(textStarted) || streaming)
      ensures w.events == if !streaming then old(w.events)
        else
          (if old(textStarted) then old(w.events) else old(w.events) + [BlockStart(0, TextHead)])
          + [BlockDelta(0, TextDelta(text))]
    {
      if !streaming { return; }
      if !textStarted {
        textStarted := true;
        textBlockIndex := nextBlockIndex;
        nextBlockIndex := nextBlockIndex + 1;
        w.Write(BlockStart(textBlockIndex, TextHead));
      }
      w.Write(BlockDelta(textBlockIndex, TextDelta(text)));
    }

    method ApplyTextDelta(text: Bytes, w: Sink)
      requires Valid() && text != []
      modifies this, w
      ensures Valid() && sseBuf == old(sseBuf)
      ensures Leads(streaming, old(heard), old(w.events), [Text(text)], heard, w.events)
    {
      hide Leads, Folded;
      FoldedSnoc(streaming, heard, Text(text));
      FoldedStarted(streaming, heard);
      LeadsText(streaming, heard, w.events, text);
      textAccum := WriteCapped(textAccum, text);
      EmitText(text, w);
      heard := heard + [Text(text)];
    }

    method ApplyToolDelta(d: ToolDelta)
      requires Valid()
      modifies this
      ensures Valid() && sseBuf == old(sseBuf) && heard == old(heard) + [Tool(d)]
    {
      hide Leads, Folded;
      FoldedSnoc(streaming, heard, Tool(d));
      heard := heard + [Tool(d)];
      var call := ToolCall("", "", []);
      if d.index in toolCalls {
        call := toolCalls[d.index];
      } else {
        toolOrder := toolOrder + [d.index];
      }
      call := Merge(call, d);
      toolCalls := toolCalls[d.index := call];
    }

    method ApplyChoice(c: Choice, w: Sink)
      requires Valid()
      modifies this, w
      ensures Valid() && sseBuf == old(sseBuf)
      ensures Leads(streaming, old(heard), old(w.events), ChoicePieces(c), heard, w.events)
    {
      hide Leads, Folded;
      ghost var h0, es0, said := heard, w.events, [];
      LeadsNowhere(streaming, h0, es0);
      if c.finish != "" {
        FoldedSnoc(streaming, heard, Reason(c.finish));
        LeadsQuietly(streaming, heard, w.events, Reason(c.finish));
        finishReason := c.finish;
        heard := heard + [Reason(c.finish)];
        said := [Reason(c.finish)];
      }
      if c.content != [] {
        ghost var h1, es1 := heard, w.events;
        ApplyTextDelta(c.content, w);
        LeadsOn(streaming, h0, es0, said, h1, es1, [Text(c.content)], heard, w.events);
        said := said + [Text(c.content)];
      }
      assert said + ToolPieces(c.calls) == ChoicePieces(c) by {
        ghost var a := if c.finish != "" then [Reason(c.finish)] else [];
        assert a + [] == a;
      }
      ApplyCalls(c.calls, h0, es0, said, w);
    }

    method ApplyCalls(calls: seq<ToolDelta>, ghost h0: seq<Piece>, ghost es0: seq<Event>, ghost said: seq<Piece>,
                      w: Sink)
      requires Valid() && Leads(streaming, h0, es0, said, heard, w.events)
      modifies this
      ensures Valid() && sseBuf == old(sseBuf)
      ensures Leads(streaming, h0, es0, said + ToolPieces(calls), heard, w.events)
    {
      hide Leads, Folded;
      assert said + [] == said;
      for k := 0 to |calls|
        invariant Valid() && sseBuf == old(sseBuf)
        invariant Leads(streaming, h0, es0, said + ToolPieces(calls[..k]), heard, w.events)
      {
        LeadsQuietly(streaming, heard, w.events, Tool(calls[k]));
        LeadsOn(streaming, h0, es0, said + ToolPieces(calls[..k]), heard, w.events, [Tool(calls[k])],
                heard + [Tool(calls[k])], w.events);
        Assoc(said, ToolPieces(calls[..k]), [Tool(calls[k])]);
        assert calls[..k + 1][..k] == calls[..k];
        ApplyToolDelta(calls[k]);
      }
      assert calls[..|calls|] == calls;
    }

    method ApplyChunk(c: Chunk, w: Sink)
      requires Valid()
      modifies this, w
      ensures Valid() && sseBuf == old(sseBuf)
      ensures Leads(streaming, old(heard), old(w.events), ChunkPieces(c), heard, w.events)
    {
      hide Leads, Folded;
      ghost var h0, es0, said := heard, w.events, [];
      LeadsNowhere(streaming, h0, es0);
      if c.usage.Some? {
        FoldedSnoc(streaming, heard, Used(c.usage.value));
        LeadsQuietly(streaming, heard, w.events, Used(c.usage.value));
        usage := c.usage.value;
        heard := heard + [Used(c.usage.value)];
        said := [Used(c.usage.value)];
      }
      assert said + [] == said;
      for k := 0 to |c.choices|
        invariant Valid() && sseBuf == old(sseBuf)
        invariant Leads(streaming, h0, es0, said + ChoicesPieces(c.choices[..k]), heard, w.events)
      {
        ghost var h1, es1, ps := heard, w.events, ChoicesPieces(c.choices[..k]);
        ApplyChoice(c.choices[k], w);
        LeadsOn(streaming, h0, es0, said + ps, h1, es1, ChoicePieces(c.choices[k]), heard, w.events);
        Assoc(said, ps, ChoicePieces(c.choices[k]));
        assert c.choices[..k + 1][..k] == c.choices[..k];
      }
      assert c.choices[..|c.choices|] == c.choices;
    }

    method ApplyLine(raw: Bytes, w: Sink)
      requires Valid()
      modifies this, w
      ensures Valid() && sseBuf == old(sseBuf)
      ensures Leads(streaming, old(heard), old(w.events), LinePieces(codec, raw), heard, w.events)
    {
      LeadsNowhere(streaming, heard, w.events);
      var line := codec.trim(raw);
      if !(DATA <= line) {
        return;
      }
      var payload := codec.trim(line[|DATA|..]);
      if payload == [] || payload == DONE {
        return;
      }
      var chunk := codec.decode(payload);
      if chunk.None? {
        return;
      }
      ApplyChunk(chunk.value, w);
    }

    method ApplyEvent(event: Bytes, w: Sink)
      requires Valid()
      modifies this, w
      ensures Valid() && sseBuf == old(sseBuf)
      ensures Leads(streaming, old(heard), old(w.events), LinesPieces(codec, Lines(event)), heard, w.events)
    {
      hide Leads, Folded;
      ghost var h0, es0 := heard, w.events;
      LeadsNowhere(streaming, h0, es0);
      var lines := Lines(event);
      for k := 0 to |lines|
        invariant Valid() && sseBuf == old(sseBuf)
        invariant Leads(streaming, h0, es0, LinesPieces(codec, lines[..k]), heard, w.events)
      {
        ghost var h1, es1 := heard, w.events;
        ApplyLine(lines[k], w);
        assert lines[..k + 1][..k] == lines[..k];
        LeadsOn(streaming, h0, es0, LinesPieces(codec, lines[..k]), h1, es1, LinePieces(codec, lines[k]), heard,
                w.events);
      }
      assert lines[..|lines|] == lines;
    }

    /** Takes in a chunk cut anywhere: every event it completes is applied, in order, and the
        rest waits, unless too much is waiting. */
    method Feed(chunk: Bytes, w: Sink)
      requires Valid()
      modifies this, w
      ensures Valid()
      ensures var cut := Split(old(sseBuf) + chunk);
        sseBuf == Capped(cut.rest) &&
          Leads(streaming, old(heard), old(w.events), PiecesOf(codec, cut.events), heard, w.events)
    {
      hide Leads, Folded, LinesPieces, Lines, Split, PiecesOf, Resumed;
      ghost var h0, es0, cut, done := heard, w.events, Split(sseBuf + chunk), [];
      LeadsNowhere(streaming, h0, es0);
      if |chunk| > 0 {
        sseBuf := sseBuf + chunk;
      } else {
        assert sseBuf + chunk == sseBuf;
      }
      NothingDone(codec, sseBuf);
      while true
        invariant Valid()
        invariant cut == Resumed(done, sseBuf)
        invariant Leads(streaming, h0, es0, PiecesOf(codec, done), heard, w.events)
        decreases |sseBuf|
      {
        var idx := EventEnd(sseBuf);
        NextEvent(codec, done, sseBuf);
        if idx + 1 >= |sseBuf| {
          if |sseBuf| > BUFFER_CAP {
            sseBuf := [];
          }
          return;
        }
        ghost var h1, es1 := heard, w.events;
        var event := sseBuf[..idx];
        sseBuf := sseBuf[idx + 2..];
        ApplyEvent(event, w);
        LeadsOn(streaming, h0, es0, PiecesOf(codec, done), h1, es1, LinesPieces(codec, Lines(event)), heard, w.events);
        done := done + [event];
      }
    }

    /** The events that end a stream. */
    method Finish(w: Sink)
      requires Valid()
      modifies this`nextBlockIndex, w
      ensures w.events == if streaming then old(w.events) + Closing(codec, heard) else old(w.events)
    {
      if !streaming { return; }
      hide Folded, CallsAre;
      FoldedMeans(streaming, heard);
      ghost var es0, ds := w.events, Tools(heard);
      ghost var stopped := if textStarted then [BlockStop(0)] else [];
      ghost var tools := AllToolEvents(codec, nextBlockIndex, ds, toolOrder);
      if textStarted {
        w.Write(BlockStop(textBlockIndex));
      }
      assert w.events == es0 + stopped;
      WriteTools(ds, w);
      var outputTokens := usage.output;
      if outputTokens == 0 {
        outputTokens := EstimateTokens(textAccum);
      }
      var last := MessageDelta(StopReason(|toolOrder| > 0, finishReason), Usage(usage.input, outputTokens));
      w.Write(last);
      w.Write(MessageStop);
      AssocEnd(es0, stopped, tools, last, MessageStop);
      assert Closing(codec, heard) == stopped + tools + [last, MessageStop];
    }

    method WriteTools(ghost ds: seq<ToolDelta>, w: Sink)
      requires CallsAre(toolCalls, toolOrder, ds)
      modifies this`nextBlockIndex, w
      ensures w.events == old(w.events) + AllToolEvents(codec, old(nextBlockIndex), ds, toolOrder)
    {
      hide CallsAre, ToolEvents, AllToolEvents, WithTools;
      ghost var es0, first := w.events, nextBlockIndex;
      ToolsAround(codec, first, ds, es0, toolOrder);
      for k := 0 to |toolOrder|
        invariant nextBlockIndex == first + k
        invariant w.events == WithTools(codec, first, ds, es0, toolOrder, k)
      {
        CallAt(toolCalls, toolOrder, ds, k);
        OneMoreTool(codec, first, ds, es0, toolOrder, k);
        var call := toolCalls[toolOrder[k]];
        var blockIndex := nextBlockIndex;
        nextBlockIndex := nextBlockIndex + 1;
        WriteTool(blockIndex, call, w);
      }
    }

    method WriteTool(index: nat, call: ToolCall, w: Sink)
      modifies w
      ensures w.events == old(w.events) + ToolEvents(codec, index, call)
    {
      var parsed := ParsedArgs(codec, call.args);
      w.Write(BlockStart(index, ToolHead(IdOf(call.id), call.name)));
      w.Write(BlockDelta(index, JsonDelta(parsed)));
      w.Write(BlockStop(index));
    }

    /** The whole response as one message. */
    method BuildMessage() returns (m: Message)
      requires Valid()
      ensures m == MessageOf(codec, model, heard)
    {
      hide Folded, CallsAre, Concat, Texts, Order, FinishReason, LastUsage, Tools;
      FoldedMeans(streaming, heard);
      ghost var ds := Tools(heard);
      var content: seq<Block> := [];
      if |textAccum| > 0 {
        content := [TextBlock(textAccum)];
      }
      ghost var texts := content;
      assert texts + [] == texts;
      for k := 0 to |toolOrder|
        invariant content == texts + ToolBlocks(codec, ds, toolOrder[..k])
      {
        CallAt(toolCalls, toolOrder, ds, k);
        var call := toolCalls[toolOrder[k]];
        OneMoreBlock(codec, ds, texts, toolOrder, k);
        var input := NO_ARGS;
        if codec.trim(call.args) != [] && codec.validJson(call.args) {
          input := call.args;
        }
        content := content + [ToolBlock(IdOf(call.id), call.name, input)];
      }
      assert toolOrder[..|toolOrder|] == toolOrder;
      var outputTokens := usage.output;
      if outputTokens == 0 {
        outputTokens := EstimateTokens(textAccum);
      }
      assert TextBlocks(textAccum) == texts;
      return Message(model, content, StopReason(|toolOrder| > 0, finishReason), Usage(usage.input, outputTokens));
    }
  }
}
