/** Counting the token usage of a response as it passes, without touching a byte of it. */
module UsageTap {
  import opened Common
  import opened ByteLines

  const CARRIAGE_RETURN: byte := 13
  const MAX_LINE: nat := 1048576
  const MAX_BODY: nat := 8388608

  /** "message_start" and "message_delta", quotes included. */
  const START_MARK: Bytes := [34, 109, 101, 115, 115, 97, 103, 101, 95, 115, 116, 97, 114, 116, 34]
  const DELTA_MARK: Bytes := [34, 109, 101, 115, 115, 97, 103, 101, 95, 100, 101, 108, 116, 97, 34]

  datatype Usage = Usage(input: int, output: int, cacheRead: int, cacheCreation: int)

  const NO_USAGE := Usage(0, 0, 0, 0)

  /** An event as decoded: its type and the usage it or its message carries. */
  datatype Event = Event(kind: string, usage: Option<Usage>, messageUsage: Option<Usage>)

  /** The decoding the tap relies on: an event's payload, and the usage of a whole body. */
  datatype Decoders = Decoders(event: Bytes -> Option<Event>, body: Bytes -> Option<Option<Usage>>)

  // ---- lines ----

  function Last(ls: seq<Bytes>): Bytes
    requires ls != []
  {
    ls[|ls| - 1]
  }

  function Whole(ls: seq<Bytes>): seq<Bytes>
    requires ls != []
  {
    ls[..|ls| - 1]
  }

  // ---- the usage some lines report ----

  function TrimRight(line: Bytes): Bytes {
    if line != [] && line[|line| - 1] == CARRIAGE_RETURN then TrimRight(line[..|line| - 1]) else line
  }

  function Contains(s: Bytes, part: Bytes): bool {
    part <= s || (s != [] && Contains(s[1..], part))
  }

  /** The usage a line reports, if any. */
  function LineUsage(d: Decoders, raw: Bytes): Option<Usage> {
    var line := TrimRight(raw);
    if !(DATA <= line) then None
    else
      var data := line[|DATA|..];
      if !Contains(data, START_MARK) && !Contains(data, DELTA_MARK) then None
      else
        var e := d.event(data);
        if e.None? then None
        else if e.value.kind == "message_start" then e.value.messageUsage
        else if e.value.kind == "message_delta" then e.value.usage
        else None
  }

  /** Overlays the positive counts. */
  function Overlay(u: Usage, more: Usage): Usage {
    Usage(if more.input > 0 then more.input else u.input,
          if more.output > 0 then more.output else u.output,
          if more.cacheRead > 0 then more.cacheRead else u.cacheRead,
          if more.cacheCreation > 0 then more.cacheCreation else u.cacheCreation)
  }

  function Merged(acc: Option<Usage>, u: Option<Usage>): Option<Usage> {
    if u.None? then acc else Some(Overlay(if acc.Some? then acc.value else NO_USAGE, u.value))
  }

  /** What the lines that are not too long report together; None if none reports anything. */
  function LinesUsage(d: Decoders, ls: seq<Bytes>): Option<Usage> {
    if ls == [] then None
    else
      var before, l := LinesUsage(d, ls[..|ls| - 1]), ls[|ls| - 1];
      if |l| <= MAX_LINE then Merged(before, LineUsage(d, l)) else before
  }

  /** What a whole response reports. */
  function StreamUsage(sse: bool, d: Decoders, s: Bytes): Option<Usage> {
    if sse then LinesUsage(d, Lines(s))
    else if s == [] || |s| > MAX_BODY || d.body(s).None? then None
    else Merged(None, d.body(s).value)
  }

  // ---- one more piece of a stream ----

  lemma PrependLine(head: Bytes, more: seq<Bytes>, b: Bytes)
    requires more != []
    ensures Whole([head] + more) == [head] + Whole(more) && Last([head] + more) == Last(more)
    ensures [head] + (Whole(more) + [Last(more) + b]) == Whole([head] + more) + [Last([head] + more) + b]
  {
  }

  lemma CutEarly(s: Bytes, b: Bytes, n: nat)
    requires n < |s|
    ensures (s + b)[..n] == s[..n] && (s + b)[n + 1..] == s[n + 1..] + b
  {
  }

  lemma {:induction false} LinesExtend(s: Bytes, b: Bytes)
    requires LineEnd(b) == |b|
    ensures Lines(s + b) == Whole(Lines(s)) + [Last(Lines(s)) + b]
    decreases |s|
  {
    hide LineEnd;
    var n := LineEnd(s);
    EndOfAppend(s, b);
    if n == |s| {
      assert Whole([s]) == [];
    } else {
      CutEarly(s, b, n);
      LinesExtend(s[n + 1..], b);
      PrependLine(s[..n], Lines(s[n + 1..]), b);
    }
  }

  lemma {:induction false} EndOfAppend(s: Bytes, b: Bytes)
    ensures LineEnd(s + b) == if LineEnd(s) < |s| then LineEnd(s) else |s| + LineEnd(b)
  {
    if s == [] {
      assert s + b == b;
    } else {
      assert (s + b)[1..] == s[1..] + b;
      EndOfAppend(s[1..], b);
    }
  }

  lemma {:induction false} LinesEnd(s: Bytes)
    ensures Lines(s + [NEWLINE]) == Lines(s) + [[]]
    decreases |s|
  {
    var n, t := LineEnd(s), s + [NEWLINE];
    EndOfAppend(s, [NEWLINE]);
    if n == |s| {
      assert t[..n] == s && t[n + 1..] == [];
      assert Lines([]) == [[]];
    } else {
      CutEarly(s, [NEWLINE], n);
      LinesEnd(s[n + 1..]);
      assert [s[..n]] + (Lines(s[n + 1..]) + [[]]) == [s[..n]] + Lines(s[n + 1..]) + [[]];
    }
  }

  lemma {:induction false} NoNewlineBefore(b: Bytes, n: nat)
    requires n <= LineEnd(b)
    ensures LineEnd(b[..n]) == n
  {
    if n > 0 {
      assert b[..n][1..] == b[1..][..n - 1];
      NoNewlineBefore(b[1..], n - 1);
    }
  }

  lemma CutAt(s: Bytes, eaten: Bytes, b: Bytes, n: nat)
    requires n <= |b|
    ensures n == |b| ==> s + eaten + b[..n] == s + (eaten + b)
    ensures n < |b| && b[n] == NEWLINE ==>
      s + eaten + b[..n] + [NEWLINE] == s + (eaten + b[..n + 1]) && eaten + b[..n + 1] + b[n + 1..] == eaten + b
  {
    if n == |b| {
      assert b[..n] == b && s + eaten + b == s + (eaten + b);
    } else if b[n] == NEWLINE {
      assert b[..n + 1] == b[..n] + [NEWLINE];
      assert s + eaten + b[..n] + [NEWLINE] == s + (eaten + (b[..n] + [NEWLINE]));
      assert b == b[..n + 1] + b[n + 1..];
      assert eaten + b[..n + 1] + b[n + 1..] == eaten + (b[..n + 1] + b[n + 1..]);
    }
  }

  lemma SnocLine(d: Decoders, ls: seq<Bytes>, l: Bytes)
    ensures LinesUsage(d, ls + [l]) ==
      if |l| <= MAX_LINE then Merged(LinesUsage(d, ls), LineUsage(d, l)) else LinesUsage(d, ls)
  {
    assert (ls + [l])[..|ls|] == ls;
  }

  lemma LineIsWhole(d: Decoders, s: Bytes)
    ensures var ls := Lines(s);
      && Whole(Lines(s + [NEWLINE])) == ls && Last(Lines(s + [NEWLINE])) == []
      && LinesUsage(d, ls) ==
           if |Last(ls)| <= MAX_LINE then Merged(LinesUsage(d, Whole(ls)), LineUsage(d, Last(ls)))
           else LinesUsage(d, Whole(ls))
  {
    hide Lines, LineUsage, LinesUsage, Merged;
    LinesEnd(s);
    assert Whole(Lines(s) + [[]]) == Lines(s) && Lines(s) == Whole(Lines(s)) + [Last(Lines(s))];
    SnocLine(d, Whole(Lines(s)), Last(Lines(s)));
  }

  /** The usage of a stream, from its whole lines and what follows them. */
  lemma LastLineCounts(d: Decoders, s: Bytes)
    ensures var ls := Lines(s);
      LinesUsage(d, ls) ==
        if Last(ls) == [] || |Last(ls)| > MAX_LINE then LinesUsage(d, Whole(ls))
        else Merged(LinesUsage(d, Whole(ls)), LineUsage(d, Last(ls)))
  {
    hide Lines, LinesUsage;
    var ls := Lines(s);
    assert ls == Whole(ls) + [Last(ls)];
    SnocLine(d, Whole(ls), Last(ls));
  }

  // ---- the tap as the program runs it ----

  class UsageTap {
    const sse: bool
    const decoders: Decoders
    var finished: bool
    var seen: bool
    var usage: Usage
    var line: Bytes
    var skipLine: bool
    var buf: Bytes
    var overflow: bool
    var reports: seq<Usage>       // the calls of the usage callback
    ghost var stream: Bytes       // everything read before the end

    constructor (sse: bool, decoders: Decoders)
      ensures Valid() && stream == [] && reports == [] && !finished
      ensures this.sse == sse && this.decoders == decoders
    {
      this.sse, this.decoders := sse, decoders;
      finished, seen, usage, line, skipLine := false, false, NO_USAGE, [], false;
      buf, overflow, reports, stream := [], false, [], [];
    }

    ghost function Counted(): Option<Usage>
      reads this
    {
      if seen then Some(usage) else None
    }

    ghost predicate NothingUnseen()
      reads this
    {
      !seen ==> usage == NO_USAGE
    }

    /** The fields stand for the stream read so far, an event stream after some whole lines and part of another. */
    ghost predicate Holds(s: Bytes)
      reads this
    {
      && (sse ==>
           && Counted() == LinesUsage(decoders, Whole(Lines(s)))
           && skipLine == (|Last(Lines(s))| > MAX_LINE)
           && line == (if skipLine then [] else Last(Lines(s))))
      && (!sse ==> !seen && overflow == (|s| > MAX_BODY) && buf == (if overflow then [] else s))
    }

    ghost predicate Valid()
      reads this
    {
      |reports| <= (if finished then 1 else 0) && NothingUnseen() && (!finished ==> Holds(stream))
    }

    method Merge(u: Option<Usage>)
      requires NothingUnseen()
      modifies this`seen, this`usage
      ensures Counted() == Merged(old(Counted()), u) && NothingUnseen()
    {
      if u.None? { return; }
      seen := true;
      var more := u.value;
      if more.input > 0 { usage := usage.(input := more.input); }
      if more.output > 0 { usage := usage.(output := more.output); }
      if more.cacheRead > 0 { usage := usage.(cacheRead := more.cacheRead); }
      if more.cacheCreation > 0 { usage := usage.(cacheCreation := more.cacheCreation); }
    }

    method ParseSSELine(raw: Bytes)
      requires NothingUnseen()
      modifies this`seen, this`usage
      ensures Counted() == Merged(old(Counted()), LineUsage(decoders, raw)) && NothingUnseen()
    {
      var l := TrimRight(raw);
      if !(DATA <= l) { return; }
      var data := l[|DATA|..];
      if !Contains(data, START_MARK) && !Contains(data, DELTA_MARK) { return; }
      var e := decoders.event(data);
      if e.None? { return; }
      if e.value.kind == "message_start" {
        Merge(e.value.messageUsage);
      } else if e.value.kind == "message_delta" {
        Merge(e.value.usage);
      }
    }

    method AppendLine(b: Bytes, ghost s: Bytes)
      requires sse && LineEnd(b) == |b|
      modifies this`line, this`skipLine
      ensures old(Holds(s)) ==> Holds(s + b)
    {
      LinesExtend(s, b);
      assert Whole(Whole(Lines(s)) + [Last(Lines(s)) + b]) == Whole(Lines(s));
      if skipLine { return; }
      if |line| + |b| > MAX_LINE {
        skipLine, line := true, [];
        return;
      }
      line := line + b;
    }

    /** The end of a line. */
    method EndLine(ghost s: Bytes)
      requires sse && NothingUnseen()
      modifies this`line, this`skipLine, this`seen, this`usage
      ensures NothingUnseen() && (old(Holds(s)) ==> Holds(s + [NEWLINE]))
    {
      hide Lines, LineUsage, LinesUsage, Merged;
      LineIsWhole(decoders, s);
      if !skipLine {
        ParseSSELine(line);
      }
      line, skipLine := [], false;
    }

    /** Takes in more lines; when the fields stood for s, they go on to stand for all of it. */
    method FeedLines(chunk: Bytes, ghost s: Bytes)
      requires sse && NothingUnseen()
      modifies this`line, this`skipLine, this`seen, this`usage
      ensures NothingUnseen() && (old(Holds(s)) ==> Holds(s + chunk))
    {
      hide Holds, LineEnd;
      var b := chunk;
      ghost var eaten: Bytes := [];
      assert s + [] == s;
      while |b| > 0
        invariant chunk == eaten + b && NothingUnseen() && (old(Holds(s)) ==> Holds(s + eaten))
        decreases |b|
      {
        var nl := LineEnd(b);
        NoNewlineBefore(b, nl);
        AppendLine(b[..nl], s + eaten);
        CutAt(s, eaten, b, nl);
        if nl == |b| {
          return;
        }
        EndLine(s + eaten + b[..nl]);
        eaten, b := eaten + b[..nl + 1], b[nl + 1..];
      }
      assert eaten + b == eaten;
    }

    /** More bytes; after the end they are still taken in, and make no difference. */
    method Feed(b: Bytes)
      requires Valid()
      modifies this
      ensures Valid() && finished == old(finished) && reports == old(reports)
      ensures stream == if finished then old(stream) else old(stream) + b
    {
      if !sse {
        if !overflow {
          if |buf| + |b| > MAX_BODY {
            overflow, buf := true, [];
          } else {
            buf := buf + b;
          }
        }
      } else {
        FeedLines(b, stream);
      }
      if !finished { stream := stream + b; }
    }

    /** Reports what was seen, the first time only. */
    method Finish()
      requires Valid()
      modifies this
      ensures Valid() && finished && stream == old(stream)
      ensures old(finished) ==> reports == old(reports)
      ensures !old(finished) ==>
        var u := StreamUsage(sse, decoders, stream);
        reports == if u.Some? then [u.value] else []
    {
      hide Lines, LineUsage, LinesUsage, Merged;
      if finished { return; }
      finished := true;
      if sse {
        LastLineCounts(decoders, stream);
        if |line| > 0 && !skipLine {
          ParseSSELine(line);
        }
      } else if !overflow && |buf| > 0 {
        var u := decoders.body(buf);
        if u.Some? {
          Merge(u.value);
        }
      }
      buf, line := [], [];
      if seen {
        reports := reports + [usage];
      }
    }

    /** One read: what the upstream gave goes on unchanged. The first one that meets the end
        reports; reads after the end or a Close report nothing more. */
    method Read(given: Bytes, eof: bool) returns (out: Bytes)
      requires Valid()
      modifies this
      ensures Valid() && out == given && finished == (old(finished) || eof)
      ensures stream == if old(finished) then old(stream) else old(stream) + given
      ensures reports ==
        if old(finished) || !eof then old(reports)
        else var u := StreamUsage(sse, decoders, stream); if u.Some? then [u.value] else []
    {
      if |given| > 0 {
        Feed(given);
      } else {
        assert stream + given == stream;
      }
      if eof {
        Finish();
      }
      return given;
    }

    /** The response is over, read to its end or not. */
    method Close()
      requires Valid()
      modifies this
      ensures Valid() && finished && stream == old(stream)
      ensures reports ==
        if old(finished) then old(reports)
        else var u := StreamUsage(sse, decoders, stream); if u.Some? then [u.value] else []
    {
      Finish();
    }
  }

  // ---- what the usage of a stream is ----

  datatype Counter = Input | Output | CacheRead | CacheCreation

  function Count(u: Usage, c: Counter): int {
    match c
    case Input => u.input
    case Output => u.output
    case CacheRead => u.cacheRead
    case CacheCreation => u.cacheCreation
  }

  /** A line within the limit that reports a positive count. */
  predicate Reports(d: Decoders, l: Bytes, c: Counter) {
    |l| <= MAX_LINE && LineUsage(d, l).Some? && Count(LineUsage(d, l).value, c) > 0
  }

  /** Each of the four counts is the last positive one any line within the limit reports, ... */
  lemma {:induction false} LaterCountsWin(d: Decoders, ls: seq<Bytes>, c: Counter, i: nat)
    requires i < |ls| && Reports(d, ls[i], c)
    requires forall j | i < j < |ls| :: !Reports(d, ls[j], c)
    ensures LinesUsage(d, ls).Some? && Count(LinesUsage(d, ls).value, c) == Count(LineUsage(d, ls[i]).value, c)
  {
    hide LineUsage;
    if i < |ls| - 1 {
      var most := ls[..|ls| - 1];
      forall j | i < j < |most| ensures !Reports(d, most[j], c) {
        assert most[j] == ls[j];
      }
      LaterCountsWin(d, most, c, i);
      assert !Reports(d, ls[|ls| - 1], c);
    }
  }

  /** ... and zero when no line reports a positive one. */
  lemma {:induction false} UnreportedIsZero(d: Decoders, ls: seq<Bytes>, c: Counter)
    requires forall j | 0 <= j < |ls| :: !Reports(d, ls[j], c)
    ensures LinesUsage(d, ls).Some? ==> Count(LinesUsage(d, ls).value, c) == 0
  {
    hide LineUsage;
    if ls != [] {
      var most := ls[..|ls| - 1];
      forall j | 0 <= j < |most| ensures !Reports(d, most[j], c) {
        assert most[j] == ls[j];
      }
      UnreportedIsZero(d, most, c);
      assert !Reports(d, ls[|ls| - 1], c);
    }
  }

  /** Nothing is reported exactly when no line within the limit reports usage. */
  lemma {:induction false} SilentIff(d: Decoders, ls: seq<Bytes>)
    ensures LinesUsage(d, ls).None? <==> forall j | 0 <= j < |ls| && |ls[j]| <= MAX_LINE :: LineUsage(d, ls[j]).None?
  {
    if ls != [] {
      var most := ls[..|ls| - 1];
      SilentIff(d, most);
      assert ls == most + [ls[|ls| - 1]];
    }
  }

  // ---- which lines and bodies report usage ----

  lemma Constants()
    ensures START_MARK == Ascii("\"message_start\"") && DELTA_MARK == Ascii("\"message_delta\"")
    ensures DATA == Ascii("data:") && NEWLINE as char == '\n' && CARRIAGE_RETURN as char == '\r'
    ensures MAX_LINE == 1024 * 1024 && MAX_BODY == 8 * 1024 * 1024
  {
  }

  /** What is trimmed is every carriage return at the end and nothing else. */
  lemma {:induction false} TrimIs(line: Bytes)
    ensures var kept := TrimRight(line);
      kept <= line && (kept != [] ==> kept[|kept| - 1] as char != '\r')
      && forall i | |kept| <= i < |line| :: line[i] as char == '\r'
  {
    if line != [] && line[|line| - 1] == CARRIAGE_RETURN { TrimIs(line[..|line| - 1]); }
  }

  predicate OccursAt(s: Bytes, part: Bytes, i: nat) {
    i + |part| <= |s| && s[i..i + |part|] == part
  }

  lemma {:induction false} ContainsIff(s: Bytes, part: Bytes)
    ensures Contains(s, part) <==> exists i: nat :: OccursAt(s, part, i)
  {
    if part <= s {
      assert OccursAt(s, part, 0);
    } else if s != [] {
      ContainsIff(s[1..], part);
      forall i: nat ensures OccursAt(s[1..], part, i) <==> OccursAt(s, part, i + 1) { LaterOccurs(s, part, i); }
      if i: nat :| OccursAt(s, part, i) {
        assert i > 0 && OccursAt(s[1..], part, i - 1);
      }
    }
  }

  lemma LaterOccurs(s: Bytes, part: Bytes, i: nat)
    requires s != []
    ensures OccursAt(s[1..], part, i) <==> OccursAt(s, part, i + 1)
  {
    if i + 1 + |part| <= |s| { assert s[1..][i..i + |part|] == s[i + 1..i + 1 + |part|]; }
  }

  /** A line reports usage exactly when it starts with data:, mentions one of the two events and
      decodes to one: the message's usage for message_start, its own for message_delta. */
  lemma LineReports(d: Decoders, raw: Bytes)
    ensures var line := TrimRight(raw);
      LineUsage(d, raw) ==
        if |line| < 5 || line[..5] != Ascii("data:") then None
        else
          var data := line[5..];
          if !Contains(data, Ascii("\"message_start\"")) && !Contains(data, Ascii("\"message_delta\"")) then None
          else
            match d.event(data)
            case None => None
            case Some(e) =>
              if e.kind == "message_start" then e.messageUsage else if e.kind == "message_delta" then e.usage else None
  {
    hide Contains, TrimRight;
    Constants();
  }

  /** A body reports usage when it has at most 8 MiB and decodes to one that does: the positive
      counts, zero for the others. */
  lemma BodyReports(d: Decoders, s: Bytes)
    ensures StreamUsage(false, d, s) ==
      if s == [] || |s| > 8388608 || d.body(s).None? || d.body(s).value.None? then None
      else
        var u := d.body(s).value.value;
        Some(Usage(if u.input > 0 then u.input else 0, if u.output > 0 then u.output else 0,
                   if u.cacheRead > 0 then u.cacheRead else 0, if u.cacheCreation > 0 then u.cacheCreation else 0))
  {
  }
}
