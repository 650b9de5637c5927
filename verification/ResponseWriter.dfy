/** The writer that holds a backend's response back until its status is known and then answers
    in Anthropic's shape, over every sequence of calls on it. */
module ResponseWriter {
  import opened Common
  import opened SseEvents
  import opened StreamMeaning
  import opened StreamTranslator

  const OK_STATUS: int := 200
  const BAD_GATEWAY: int := 502

  datatype Body = NoBody | ErrorEnvelope(status: int, text: Bytes) | Whole(message: Message)

  // ---- the client's connection ----

  /** What has gone to the client: the final status its first byte or flush fixes, how often a
      status line was asked for, the events and the body, and whether the connection refused a
      status with a panic. */
  datatype Wire = Wire(status: Option<int>, headerCalls: nat, events: seq<Event>, body: Body, panicked: bool)

  const NOTHING_SENT := Wire(None, 0, [], NoBody, false)

  /** A status the connection takes; any other one panics, unless a final one has gone before. */
  predicate IsStatus(status: int) {
    100 <= status <= 999
  }

  /** It ends the header; the others are sent as interim responses and leave the status open. */
  predicate IsFinal(status: int) {
    status == 101 || 200 <= status <= 999
  }

  predicate AllowsBody(status: int) {
    status >= 200 && status != 204 && status != 304
  }

  function Committed(w: Wire, status: int): Wire {
    if w.status.None? then w.(status := Some(status)) else w
  }

  /** A status line is asked for. */
  function Asked(w: Wire, status: int): Wire {
    var asked := w.(headerCalls := w.headerCalls + 1);
    if w.status.Some? then asked
    else if !IsStatus(status) then asked.(panicked := true)
    else if IsFinal(status) then asked.(status := Some(status))
    else asked
  }

  /** A body is written, which implies 200 before any final status. */
  function Sent(w: Wire, b: Body): Wire {
    var w2 := Committed(w, OK_STATUS);
    if AllowsBody(w2.status.value) then w2.(body := b) else w2
  }

  class Client {
    var status: Option<int>
    var headerCalls: nat
    var body: Body
    var panicked: bool
    const sink: Sink

    constructor ()
      ensures View() == NOTHING_SENT && fresh(sink)
    {
      status, headerCalls, body, panicked := None, 0, NoBody, false;
      sink := new Sink();
    }

    function View(): Wire
      reads this, sink
    {
      Wire(status, headerCalls, sink.events, body, panicked)
    }

    method WriteHeader(s: int)
      modifies this
      ensures View() == Asked(old(View()), s)
    {
      headerCalls := headerCalls + 1;
      if status.Some? { return; }
      if !IsStatus(s) {
        panicked := true;
      } else if IsFinal(s) {
        status := Some(s);
      }
    }

    /** A flush or a write before any status line implies 200. */
    method Touch()
      modifies this
      ensures View() == Committed(old(View()), OK_STATUS)
    {
      if status.None? { status := Some(OK_STATUS); }
    }

    method Send(b: Body)
      modifies this
      ensures View() == Sent(old(View()), b)
    {
      Touch();
      if AllowsBody(status.value) { body := b; }
    }
  }

  // ---- the writer's states and calls ----

  datatype Call = Header(status: int) | Data(bytes: Bytes) | FlushCall | Tick

  datatype State = State(status: int, isError: bool, errText: Bytes, started: bool, fed: seq<Bytes>, wire: Wire)

  const IDLE := State(0, false, [], false, [], NOTHING_SENT)

  /** What a response is made for. */
  datatype Setup = Setup(wantStream: bool, pinging: bool, model: string, estimate: int, codec: Codec)

  function Begun(u: Setup, s: State): State {
    if !u.wantStream then s
    else
      var w := Asked(s.wire, OK_STATUS);
      s.(started := true, wire := Committed(w.(events := w.events + [MessageStart(u.model, u.estimate)]), OK_STATUS))
  }

  function Heard(u: Setup, fed: seq<Bytes>): seq<Piece> {
    PiecesOf(u.codec, FedAll(fed).events)
  }

  function FedOne(u: Setup, s: State, b: Bytes): State {
    var news := PiecesOf(u.codec, Split(FedAll(s.fed).rest + b).events);
    var events := s.wire.events + Out(u.wantStream, Heard(u, s.fed), news);
    s.(fed := s.fed + [b], wire := (if u.wantStream then Committed(s.wire, OK_STATUS) else s.wire).(events := events))
  }

  function Decided(u: Setup, s: State, status: int): State {
    var t := s.(status := status);
    if status != OK_STATUS then t.(isError := true) else Begun(u, t)
  }

  function Received(u: Setup, s: State, b: Bytes): State {
    var t := if s.status == 0 then Begun(u, s.(status := OK_STATUS)) else s;
    if t.isError then t.(errText := t.errText + b) else FedOne(u, t, b)
  }

  function Step(u: Setup, s: State, c: Call): State {
    match c
    case Header(status) => if s.status != 0 then s else Decided(u, s, status)
    case Data(b) => Received(u, s, b)
    case FlushCall => if u.wantStream then s.(wire := Committed(s.wire, OK_STATUS)) else s
    case Tick =>
      if u.pinging && s.started && !s.isError && s.status == OK_STATUS then
        s.(wire := Committed(s.wire, OK_STATUS).(events := s.wire.events + [Ping]))
      else s
  }

  datatype Ending = InBandError | InBandNoResponse | MappedError(status: int) | NoResponse | EndStream | OneMessage

  /** Which way the response ends. */
  function EndingOf(u: Setup, s: State): Ending {
    if s.isError then if s.started then InBandError else MappedError(s.status)
    else if s.status == 0 then if s.started then InBandNoResponse else NoResponse
    else if u.wantStream then EndStream
    else OneMessage
  }

  /** A panic over the status leaves nothing else to send. */
  function WithError(w: Wire, status: int, text: Bytes): Wire {
    var asked := Asked(w, status);
    if asked.panicked then asked else Sent(asked, ErrorEnvelope(status, text))
  }

  function Answer(u: Setup, s: State): Wire {
    match EndingOf(u, s)
    case InBandError => Committed(s.wire, OK_STATUS).(events := s.wire.events + [ErrorEvent])
    case InBandNoResponse => Committed(s.wire, OK_STATUS).(events := s.wire.events + [ErrorEvent])
    case MappedError(status) => WithError(s.wire, status, s.errText)
    case NoResponse => WithError(s.wire, BAD_GATEWAY, [])
    case EndStream => Committed(s.wire, OK_STATUS).(events := s.wire.events + Closing(u.codec, Heard(u, s.fed)))
    case OneMessage =>
      Sent(Asked(s.wire, OK_STATUS), Whole(MessageOf(u.codec, u.model, Heard(u, s.fed))))
  }

  function Run(u: Setup, calls: seq<Call>): State {
    if calls == [] then IDLE else Step(u, Run(u, calls[..|calls| - 1]), calls[|calls| - 1])
  }

  // ---- what a run comes to ----

  /** The call that fixes the backend's status: the first chunk or status line other than 0. */
  function Deciding(calls: seq<Call>): (r: Option<Call>)
    ensures r.Some? ==> r.value.Data? || (r.value.Header? && r.value.status != 0)
  {
    if calls == [] then None
    else
      var before, c := Deciding(calls[..|calls| - 1]), calls[|calls| - 1];
      if before.Some? then before
      else if c.Data? || (c.Header? && c.status != 0) then Some(c)
      else None
  }

  /** A status line of 0 came before the deciding call. */
  predicate ZeroFirst(calls: seq<Call>) {
    calls != [] &&
    (ZeroFirst(calls[..|calls| - 1]) || (Deciding(calls[..|calls| - 1]).None? && calls[|calls| - 1] == Header(0)))
  }

  function ChunksIn(calls: seq<Call>): seq<Bytes> {
    if calls == [] then []
    else ChunksIn(calls[..|calls| - 1]) + (if calls[|calls| - 1].Data? then [calls[|calls| - 1].bytes] else [])
  }

  predicate Flushed(calls: seq<Call>) {
    calls != [] && (calls[|calls| - 1].FlushCall? || Flushed(calls[..|calls| - 1]))
  }

  function BackendStatus(calls: seq<Call>): int {
    match Deciding(calls)
    case None => 0
    case Some(c) => if c.Header? then c.status else OK_STATUS
  }

  /** The whole state, from the status decided, whether a status line of 0 came first, the
      chunks received and whether there was a flush. */
  ghost predicate Shape(u: Setup, status: int, zero: bool, chunks: seq<Bytes>, flushed: bool, s: State) {
    && s.status == status
    && s.isError == (zero || (status != 0 && status != OK_STATUS))
    && s.started == (u.wantStream && status == OK_STATUS)
    && s.fed == (if s.isError then [] else chunks)
    && s.errText == (if s.isError then Concat(chunks) else [])
    && (status == 0 ==> chunks == [])
    && s.wire.headerCalls == (if s.started then 1 else 0)
    && s.wire.body == NoBody && !s.wire.panicked
    && s.wire.status == (if s.started || (u.wantStream && flushed) then Some(OK_STATUS) else None)
    && (!s.started ==> s.wire.events == [])
    && (s.started ==> Telling(u, s.wire.events, s.fed))
  }

  /** The events so far start a message and, pings apart, tell the text of some chunks. */
  ghost predicate Telling(u: Setup, events: seq<Event>, fed: seq<Bytes>) {
    && events != [] && events[0] == MessageStart(u.model, u.estimate)
    && WithoutPings(events) == [MessageStart(u.model, u.estimate)] + MoreText(false, Texts(Heard(u, fed)))
  }

  /** The whole state after some calls, from the calls alone. */
  ghost predicate Tells(u: Setup, calls: seq<Call>, s: State) {
    Shape(u, BackendStatus(calls), ZeroFirst(calls), ChunksIn(calls), Flushed(calls), s)
  }

  lemma {:induction false} RunTells(u: Setup, calls: seq<Call>)
    ensures Tells(u, calls, Run(u, calls))
  {
    if calls != [] {
      var most := calls[..|calls| - 1];
      RunTells(u, most);
      StepTells(u, most, Run(u, most), calls[|calls| - 1], calls);
    }
  }

  lemma StepTells(u: Setup, most: seq<Call>, s: State, c: Call, calls: seq<Call>)
    requires Tells(u, most, s) && calls != [] && calls[..|calls| - 1] == most && calls[|calls| - 1] == c
    ensures Tells(u, calls, Step(u, s, c))
  {
    hide Telling, FedOne;
    assert ChunksIn(most) + [] == ChunksIn(most);
    match c
    case Header(status) => if s.status == 0 && status == OK_STATUS { BeginShape(u, ZeroFirst(most), Flushed(most), s); }
    case Data(b) => DataTells(u, most, s, b, calls);
    case FlushCall =>
    case Tick => TickShape(u, s);
  }

  lemma DataTells(u: Setup, most: seq<Call>, s: State, b: Bytes, calls: seq<Call>)
    requires Tells(u, most, s) && calls != [] && calls[..|calls| - 1] == most && calls[|calls| - 1] == Data(b)
    ensures Tells(u, calls, Step(u, s, Data(b)))
  {
    hide Telling, Begun, FedOne;
    var t := s;
    if s.status == 0 {
      BeginShape(u, ZeroFirst(most), Flushed(most), s);
      t := Begun(u, s.(status := OK_STATUS));
    }
    DataShape(u, BackendStatus(calls), ZeroFirst(calls), ChunksIn(most), Flushed(most), t, b);
  }

  lemma TickShape(u: Setup, s: State)
    requires s.started ==> Telling(u, s.wire.events, s.fed)
    ensures s.started ==> Telling(u, s.wire.events + [Ping], s.fed)
  {
    NoPing(s.wire.events, Ping);
  }

  lemma NoPing(es: seq<Event>, e: Event)
    ensures WithoutPings(es + [e]) == if e.Ping? then WithoutPings(es) else WithoutPings(es) + [e]
  {
    assert (es + [e])[..|es|] == es;
    assert WithoutPings(es) + [] == WithoutPings(es);
  }

  lemma BeginShape(u: Setup, zero: bool, flushed: bool, s: State)
    requires Shape(u, 0, zero, [], flushed, s)
    ensures Shape(u, OK_STATUS, zero, [], flushed, Begun(u, s.(status := OK_STATUS)))
  {
    StartTells(u);
  }

  lemma StartTells(u: Setup)
    ensures var start := [MessageStart(u.model, u.estimate)];
      WithoutPings(start) == start && [] + start == start && start + MoreText(false, Texts(Heard(u, []))) == start
  {
    NoPing([], MessageStart(u.model, u.estimate));
  }

  lemma {:induction false} NoPings(es: seq<Event>, ts: seq<Bytes>)
    ensures WithoutPings(es + TextDeltas(ts)) == WithoutPings(es) + TextDeltas(ts)
  {
    if ts == [] {
      assert es + [] == es && WithoutPings(es) + [] == WithoutPings(es);
    } else {
      var most, last := TextDeltas(ts[..|ts| - 1]), [BlockDelta(0, TextDelta(ts[|ts| - 1]))];
      NoPings(es, ts[..|ts| - 1]);
      Assoc(es, most, last);
      NoPing(es + most, last[0]);
      Assoc(WithoutPings(es), most, last);
    }
  }

  lemma NoPingsInText(es: seq<Event>, open: bool, ts: seq<Bytes>)
    ensures WithoutPings(es + MoreText(open, ts)) == WithoutPings(es) + MoreText(open, ts)
  {
    var head := if !open && ts != [] then [BlockStart(0, TextHead)] else [];
    NoPings(es + head, ts);
    NoPing(es, BlockStart(0, TextHead));
    assert es + [] == es && WithoutPings(es) + [] == WithoutPings(es);
    Assoc(es, head, TextDeltas(ts));
    Assoc(WithoutPings(es), head, TextDeltas(ts));
  }

  lemma HeardMore(u: Setup, fed: seq<Bytes>, b: Bytes)
    ensures Heard(u, fed + [b]) == Heard(u, fed) + PiecesOf(u.codec, Split(FedAll(fed).rest + b).events)
  {
    assert (fed + [b])[..|fed|] == fed;
    PiecesAppend(u.codec, FedAll(fed).events, Split(FedAll(fed).rest + b).events);
  }

  /** The text part of the stream grows by what a chunk says. */
  lemma TextGrows(u: Setup, es: seq<Event>, fed: seq<Bytes>, b: Bytes)
    requires u.wantStream
    requires WithoutPings(es) == [MessageStart(u.model, u.estimate)] + MoreText(false, Texts(Heard(u, fed)))
    ensures var news := PiecesOf(u.codec, Split(FedAll(fed).rest + b).events);
      WithoutPings(es + Out(true, Heard(u, fed), news)) ==
        [MessageStart(u.model, u.estimate)] + MoreText(false, Texts(Heard(u, fed + [b])))
  {
    var h, news := Heard(u, fed), PiecesOf(u.codec, Split(FedAll(fed).rest + b).events);
    HeardMore(u, fed, b);
    TextsAppend(h, news);
    MoreTextAppend(false, Texts(h), Texts(news));
    NoPingsInText(es, Texts(h) != [], Texts(news));
    Assoc([MessageStart(u.model, u.estimate)], MoreText(false, Texts(h)), MoreText(Texts(h) != [], Texts(news)));
  }

  lemma DataShape(u: Setup, status: int, zero: bool, chunks: seq<Bytes>, flushed: bool, s: State, b: Bytes)
    requires Shape(u, status, zero, chunks, flushed, s) && status != 0
    ensures Shape(u, status, zero, chunks + [b], flushed,
                  if s.isError then s.(errText := s.errText + b) else FedOne(u, s, b))
  {
    SnocText(chunks, b);
    if !s.isError && u.wantStream { TextGrows(u, s.wire.events, s.fed, b); }
  }

  // ---- what the calls amount to ----

  /** The call decides the backend's status: a chunk stands for 200, a status line of 0 for nothing. */
  predicate Decides(c: Call, status: int) {
    status != 0 && (if c.Data? then status == 200 else c == Header(status))
  }

  predicate Undecided(c: Call) {
    c == Header(0) || c == FlushCall || c == Tick
  }

  /** The first call that decides the status is this one. */
  predicate FirstDecides(calls: seq<Call>, status: int) {
    exists i | 0 <= i < |calls| :: Decides(calls[i], status) && forall j | 0 <= j < i :: Undecided(calls[j])
  }

  lemma {:induction false} StatusIs(calls: seq<Call>)
    ensures BackendStatus(calls) == 0 <==> forall i | 0 <= i < |calls| :: Undecided(calls[i])
    ensures BackendStatus(calls) != 0 ==> FirstDecides(calls, BackendStatus(calls))
    ensures ZeroFirst(calls) <==>
      exists i | 0 <= i < |calls| :: calls[i] == Header(0) && forall j | 0 <= j < i :: Undecided(calls[j])
  {
    if calls != [] {
      var most, last := calls[..|calls| - 1], calls[|calls| - 1];
      StatusIs(most);
      assert calls[|most|] == last && forall i | 0 <= i < |most| :: calls[i] == most[i];
      assert ZeroFirst(most) ==> ZeroFirst(calls);
      if FirstDecides(most, BackendStatus(most)) {
        var i :| 0 <= i < |most| && Decides(most[i], BackendStatus(most))
          && forall j | 0 <= j < i :: Undecided(most[j]);
        assert Decides(calls[i], BackendStatus(most));
      }
    }
  }

  lemma {:induction false} FlushedIff(calls: seq<Call>)
    ensures Flushed(calls) <==> FlushCall in calls
  {
    if calls != [] {
      FlushedIff(calls[..|calls| - 1]);
      assert calls == calls[..|calls| - 1] + [calls[|calls| - 1]];
    }
  }

  // ---- theorems over every run ----

  /** The ending is in-band exactly when a status line of 0 came before the call that began the
      real stream; without such a call both in-band branches are unreachable. */
  lemma InBandIffZeroFirst(u: Setup, calls: seq<Call>)
    ensures EndingOf(u, Run(u, calls)) != InBandNoResponse
    ensures EndingOf(u, Run(u, calls)) == InBandError <==>
      u.wantStream && ZeroFirst(calls) && BackendStatus(calls) == OK_STATUS
    ensures !ZeroFirst(calls) ==> !(Run(u, calls).isError && Run(u, calls).started)
  {
    hide Telling, Heard, Closing, MessageOf, Run, ChunksIn, Concat, ZeroFirst, Deciding, Flushed;
    RunTells(u, calls);
  }

  /** Such a run: a status line of 0, then one of 200. */
  lemma ZeroThenOkEndsInBand(u: Setup)
    requires u.wantStream
    ensures EndingOf(u, Run(u, [Header(0), Header(OK_STATUS)])) == InBandError
  {
    var calls := [Header(0), Header(OK_STATUS)];
    assert calls[..1] == [Header(0)] && calls[..1][..0] == [];
    assert Deciding(calls[..1]) == None;
    InBandIffZeroFirst(u, calls);
  }

  /** How a run ends, when no status line of 0 came first. */
  lemma {:induction false} EndingFollowsBackend(u: Setup, calls: seq<Call>)
    requires !ZeroFirst(calls)
    ensures EndingOf(u, Run(u, calls)) ==
      if BackendStatus(calls) == 0 then NoResponse
      else if BackendStatus(calls) != 200 then MappedError(BackendStatus(calls))
      else if u.wantStream then EndStream else OneMessage
    ensures Intended(EndingOf(u, Run(u, calls))) == if BackendStatus(calls) == 0 then 502 else BackendStatus(calls)
  {
    RunTells(u, calls);
  }

  /** A status line is asked of the client's connection at most once before the end and exactly
      once in all. */
  lemma OneStatusLine(u: Setup, calls: seq<Call>)
    ensures Run(u, calls).wire.headerCalls <= 1
    ensures Answer(u, Run(u, calls)).headerCalls == 1
  {
    hide Telling, Heard, Closing, MessageOf, Run, ChunksIn, Concat, ZeroFirst, Deciding, Flushed;
    RunTells(u, calls);
  }

  /** The status the response should have. */
  function Intended(e: Ending): int {
    if e.MappedError? then e.status else if e.NoResponse? then BAD_GATEWAY else OK_STATUS
  }

  /** A flush of a streaming response has committed 200 before anything was known. */
  predicate FlushedEarly(u: Setup, calls: seq<Call>) {
    u.wantStream && Flushed(calls)
  }

  /** The client gets the intended status exactly when it is a final one, and no flush of a
      streaming response has committed 200 before an error is known. */
  lemma StatusReachesClient(u: Setup, calls: seq<Call>)
    ensures var e := EndingOf(u, Run(u, calls));
      Answer(u, Run(u, calls)).status == Some(Intended(e)) <==>
        (Intended(e) == 101 || 200 <= Intended(e) <= 999) && !(FlushedEarly(u, calls) && Intended(e) != 200)
  {
    hide Telling, Heard, Closing, MessageOf, Run, ChunksIn, Concat, ZeroFirst, Deciding, Flushed;
    RunTells(u, calls);
  }

  /** The connection panics exactly when an error with a status out of range is the first thing
      it is asked for. */
  lemma PanicsIffOutOfRange(u: Setup, calls: seq<Call>)
    ensures Answer(u, Run(u, calls)).panicked <==>
      !(100 <= Intended(EndingOf(u, Run(u, calls))) <= 999) && !FlushedEarly(u, calls)
  {
    hide Telling, Heard, Closing, MessageOf, Run, ChunksIn, Concat, ZeroFirst, Deciding, Flushed;
    RunTells(u, calls);
  }

  /** A turn of the ping loop sends one ping exactly in a streamed response that has begun without
      an error, and nothing otherwise. */
  lemma PingsIff(u: Setup, calls: seq<Call>)
    ensures Run(u, calls + [Tick]).wire.events ==
      Run(u, calls).wire.events
      + (if u.pinging && u.wantStream && BackendStatus(calls) == 200 && !ZeroFirst(calls) then [Ping] else [])
  {
    hide Telling, Heard, Closing, MessageOf, Run, ChunksIn, Concat, ZeroFirst, Deciding, Flushed;
    RunTells(u, calls);
    RunSnoc(u, calls, Tick);
    assert Run(u, calls).wire.events + [] == Run(u, calls).wire.events;
  }

  lemma RunSnoc(u: Setup, calls: seq<Call>, c: Call)
    ensures Run(u, calls + [c]) == Step(u, Run(u, calls), c)
  {
    assert (calls + [c])[..|calls|] == calls;
  }

  /** Until the end nothing of a message asked for whole reaches the client; of a stream nothing
      but a flush does until the backend has answered 200. */
  lemma NothingEarly(u: Setup, calls: seq<Call>)
    ensures !u.wantStream ==> Run(u, calls).wire == IDLE.wire
    ensures u.wantStream && BackendStatus(calls) != OK_STATUS ==>
      Run(u, calls).wire == if Flushed(calls) then Committed(IDLE.wire, OK_STATUS) else IDLE.wire
  {
    hide Telling, Heard, Closing, MessageOf, Run, ChunksIn, Concat, ZeroFirst, Deciding, Flushed;
    RunTells(u, calls);
  }

  /** As when the backend's only word is a status line of 0. */
  lemma ZeroAlonePanics(u: Setup)
    ensures Answer(u, Run(u, [Header(0)])).panicked
  {
    var calls := [Header(0)];
    assert calls[..0] == [];
    assert Run(u, calls) == IDLE.(isError := true);
    PanicsIffOutOfRange(u, calls);
  }

  /** An error answer is the envelope of every byte the backend sent, or nothing: it is the
      envelope exactly when 200 has been committed already or the status is one that allows a
      body, interim statuses among them. */
  lemma ErrorTextIsKept(u: Setup, calls: seq<Call>)
    requires EndingOf(u, Run(u, calls)).MappedError?
    ensures var (status, body) := (BackendStatus(calls), Answer(u, Run(u, calls)).body);
      if FlushedEarly(u, calls) || (100 <= status <= 999 && status !in {101, 204, 304})
      then body == ErrorEnvelope(status, Concat(ChunksIn(calls)))
      else body == NoBody
    ensures Answer(u, Run(u, calls)).events == []
  {
    hide Telling, Heard, Closing, MessageOf, Run, ChunksIn, Concat, ZeroFirst, Deciding, Flushed;
    RunTells(u, calls);
  }

  lemma {:induction false} NoPingsInClosing(es: seq<Event>, more: seq<Event>)
    requires forall e | e in more :: !e.Ping?
    ensures WithoutPings(es + more) == WithoutPings(es) + more
  {
    if more == [] {
      assert es + [] == es && WithoutPings(es) + [] == WithoutPings(es);
    } else {
      var most, last := more[..|more| - 1], more[|more| - 1];
      assert last in more && forall e | e in most :: e in more;
      NoPingsInClosing(es, most);
      assert more == most + [last];
      Assoc(es, most, [last]);
      NoPing(es + most, last);
      Assoc(WithoutPings(es), most, [last]);
    }
  }

  lemma {:induction false} ToolEventsHoldNoPing(codec: Codec, first: nat, ds: seq<ToolDelta>, order: seq<int>)
    ensures forall e | e in AllToolEvents(codec, first, ds, order) :: !e.Ping?
  {
    if order != [] { ToolEventsHoldNoPing(codec, first, ds, order[..|order| - 1]); }
  }

  lemma EndedStream(u: Setup, calls: seq<Call>)
    requires EndingOf(u, Run(u, calls)) == EndStream
    ensures var fed := ChunksIn(calls);
      var told := Run(u, calls).wire.events;
      Answer(u, Run(u, calls)).events == told + Closing(u.codec, Heard(u, fed)) && Telling(u, told, fed)
  {
    hide Telling, Heard, Closing, MessageOf, Run, ChunksIn, Concat, ZeroFirst, Deciding, Flushed;
    RunTells(u, calls);
  }

  lemma ClosingEvents(u: Setup, h: seq<Piece>)
    ensures Closing(u.codec, h) != [] && Closing(u.codec, h)[|Closing(u.codec, h)| - 1] == MessageStop
    ensures forall e | e in Closing(u.codec, h) :: !e.Ping?
  {
    ToolEventsHoldNoPing(u.codec, if Texts(h) != [] then 1 else 0, Tools(h), Order(Tools(h)));
  }

  /** A finished stream, pings and all, starts with message_start, ends with message_stop, is well
      formed and tells the message of exactly the chunks received. */
  lemma FinishedStreamTellsMessage(u: Setup, calls: seq<Call>)
    requires EndingOf(u, Run(u, calls)) == EndStream
    ensures var es := Answer(u, Run(u, calls)).events;
      && es != [] && es[0] == MessageStart(u.model, u.estimate) && es[|es| - 1] == MessageStop
      && WithoutPings(es) == StreamOf(u.codec, u.model, u.estimate, Heard(u, ChunksIn(calls)))
      && Assemble(es) ==
           Some(MessageWith(u.codec, u.model, Heard(u, ChunksIn(calls)), Concat(Texts(Heard(u, ChunksIn(calls))))))
  {
    hide Closing, MessageWith, Assemble, Run, Answer, EndingOf, MoreText, Texts, Concat, FedAll, PiecesOf, WithoutPings,
      ChunksIn;
    EndedStream(u, calls);
    var fed, told, es := ChunksIn(calls), Run(u, calls).wire.events, Answer(u, Run(u, calls)).events;
    var h := Heard(u, fed);
    ClosingEvents(u, h);
    NoPingsInClosing(told, Closing(u.codec, h));
    EventsHoldNoEmptyText(u.codec, FedAll(fed).events);
    StreamTellsMessage(u.codec, u.model, u.estimate, h);
    PingsAreIgnored(es);
  }

  lemma WholeMessageIsSent(u: Setup, calls: seq<Call>)
    requires EndingOf(u, Run(u, calls)) == OneMessage
    ensures Answer(u, Run(u, calls)).body == Whole(MessageOf(u.codec, u.model, Heard(u, ChunksIn(calls))))
    ensures Answer(u, Run(u, calls)).events == []
  {
    RunTells(u, calls);
  }

  /** The same backend answer, cut differently and with any pings and flushes, reads the same
      whether the client streamed it or took it whole. */
  lemma StreamedAndWholeAgree(live: Setup, whole: Setup, a: seq<Call>, b: seq<Call>, s: Bytes)
    requires live.codec == whole.codec && live.model == whole.model
    requires EndingOf(live, Run(live, a)) == EndStream && EndingOf(whole, Run(whole, b)) == OneMessage
    requires Concat(ChunksIn(a)) == s && Concat(ChunksIn(b)) == s && Quiet(s)
    requires |Concat(Texts(PiecesOf(live.codec, Split(s).events)))| <= ACCUM_CAP
    ensures Assemble(Answer(live, Run(live, a)).events).Some?
    ensures Answer(whole, Run(whole, b)).body == Whole(Assemble(Answer(live, Run(live, a)).events).value)
  {
    FinishedStreamTellsMessage(live, a);
    WholeMessageIsSent(whole, b);
    CutsUnobservableIffQuiet(s);
  }

  // ---- the writer as the program runs it ----

  class TranslatingResponseWriter {
    const setup: Setup
    const client: Client
    const translator: Translator
    var backendStatus: int
    var isError: bool
    var errBuf: Bytes
    var realStarted: bool
    ghost var fed: seq<Bytes>     // the chunks the translator has taken in

    constructor (u: Setup)
      ensures Valid() && View() == IDLE && setup == u && fresh(client) && fresh(client.sink) && fresh(translator)
    {
      setup := u;
      client := new Client();
      translator := new Translator(u.wantStream, u.model, u.estimate, u.codec);
      backendStatus, isError, errBuf, realStarted, fed := 0, false, [], false, [];
    }

    ghost function View(): State
      reads this, client, client.sink
    {
      State(backendStatus, isError, errBuf, realStarted, fed, client.View())
    }

    ghost predicate Valid()
      reads this, translator
    {
      && translator.streaming == setup.wantStream && translator.model == setup.model
      && translator.estimate == setup.estimate && translator.codec == setup.codec
      && translator.Valid() && translator.heard == Heard(setup, fed) && translator.sseBuf == FedAll(fed).rest
    }

    method BeginReal()
      requires Valid()
      modifies this`realStarted, client, client.sink
      ensures Valid() && View() == Begun(setup, old(View()))
    {
      if setup.wantStream {
        realStarted := true;
        client.WriteHeader(OK_STATUS);
        translator.Start(client.sink);
        client.Touch();
      }
    }

    method WriteHeader(status: int)
      requires Valid()
      modifies this, client, client.sink
      ensures Valid() && View() == Step(setup, old(View()), Header(status))
    {
      if backendStatus != 0 { return; }
      backendStatus := status;
      if status != OK_STATUS {
        isError := true;
        return;
      }
      BeginReal();
    }

    method FeedChunk(b: Bytes)
      requires Valid()
      modifies this`fed, translator, client, client.sink
      ensures Valid() && View() == FedOne(setup, old(View()), b)
    {
      HeardMore(setup, fed, b);
      assert (fed + [b])[..|fed|] == fed;
      translator.Feed(b, client.sink);
      if setup.wantStream {
        client.Touch();
      }
      fed := fed + [b];
    }

    method Write(b: Bytes)
      requires Valid()
      modifies this, translator, client, client.sink
      ensures Valid() && View() == Step(setup, old(View()), Data(b))
    {
      if backendStatus == 0 {
        backendStatus := OK_STATUS;
        BeginReal();
      }
      if isError {
        errBuf := errBuf + b;
        return;
      }
      FeedChunk(b);
    }

    method Flush()
      requires Valid()
      modifies client
      ensures Valid() && View() == Step(setup, old(View()), FlushCall)
    {
      if setup.wantStream { client.Touch(); }
    }

    /** One turn of the ping loop, which runs once a stream has begun and until the end. */
    method PingTick()
      requires Valid() && setup.pinging && realStarted
      modifies client, client.sink
      ensures Valid() && View() == Step(setup, old(View()), Tick)
    {
      if !isError && backendStatus == OK_STATUS {
        client.sink.Write(Ping);
        client.Touch();
      }
    }

    method Finish()
      requires Valid()
      modifies translator, client, client.sink
      ensures client.View() == Answer(setup, old(View()))
    {
      if isError {
        if realStarted {
          client.sink.Write(ErrorEvent);
          client.Touch();
          return;
        }
        WriteError(backendStatus, errBuf);
        return;
      }
      if backendStatus == 0 {
        if realStarted {
          client.sink.Write(ErrorEvent);
          client.Touch();
          return;
        }
        WriteError(BAD_GATEWAY, []);
        return;
      }
      if setup.wantStream {
        translator.Finish(client.sink);
        client.Touch();
        return;
      }
      client.WriteHeader(OK_STATUS);
      var m := translator.BuildMessage();
      client.Send(Whole(m));
    }

    method WriteError(status: int, text: Bytes)
      modifies client
      ensures client.View() == WithError(old(client.View()), status, text)
    {
      client.WriteHeader(status);
      if client.panicked { return; }
      client.Send(ErrorEnvelope(status, text));
    }
  }
}
