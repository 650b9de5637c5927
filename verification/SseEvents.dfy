/** Cutting a byte stream into events at two consecutive newlines, chunk by chunk, with the
    cap on what may wait for a terminator. */
module SseEvents {
  import opened Common
  import opened ByteLines

  const BUFFER_CAP: nat := 8388608

  /** What has been cut off so far and what still waits for its terminator. */
  datatype Cut = Cut(events: seq<Bytes>, rest: Bytes)

  /** Where the first terminator is; there is none if that leaves no room for two newlines. */
  function EventEnd(s: Bytes): (n: nat)
    ensures n <= |s|
  {
    if |s| < 2 then |s|
    else if s[0] == NEWLINE && s[1] == NEWLINE then 0
    else 1 + EventEnd(s[1..])
  }

  predicate Complete(s: Bytes) {
    EventEnd(s) + 1 < |s|
  }

  function Split(s: Bytes): Cut
    decreases |s|
  {
    var i := EventEnd(s);
    if i + 1 < |s| then Prepend(s[..i], Split(s[i + 2..])) else Cut([], s)
  }

  function Prepend(event: Bytes, c: Cut): Cut {
    Cut([event] + c.events, c.rest)
  }

  /** Cutting goes on over what is waiting and some more bytes. */
  function More(c: Cut, s: Bytes): Cut {
    var n := Split(c.rest + s);
    Cut(c.events + n.events, n.rest)
  }

  function Capped(rest: Bytes): Bytes {
    if |rest| > BUFFER_CAP then [] else rest
  }

  /** One chunk more. */
  function Fed(c: Cut, chunk: Bytes): Cut {
    var n := More(c, chunk);
    Cut(n.events, Capped(n.rest))
  }

  function FedAll(chunks: seq<Bytes>): Cut {
    if chunks == [] then Cut([], []) else Fed(FedAll(chunks[..|chunks| - 1]), chunks[|chunks| - 1])
  }

  function Concat(parts: seq<Bytes>): Bytes {
    if parts == [] then [] else Concat(parts[..|parts| - 1]) + parts[|parts| - 1]
  }

  /** No point of the stream leaves more than the cap waiting. */
  ghost predicate Quiet(s: Bytes) {
    forall n | 0 <= n <= |s| :: |Split(s[..n]).rest| <= BUFFER_CAP
  }

  predicate Terminates(s: Bytes, i: nat) {
    i + 1 < |s| && s[i] == NEWLINE && s[i + 1] == NEWLINE
  }

  /** An event ends at the first of its terminators. */
  lemma {:induction false} EventEndIsFirst(s: Bytes)
    ensures Complete(s) ==> Terminates(s, EventEnd(s))
    ensures forall i: nat | Terminates(s, i) :: EventEnd(s) <= i && Complete(s)
  {
    if |s| >= 2 && !(s[0] == NEWLINE && s[1] == NEWLINE) {
      EventEndIsFirst(s[1..]);
      forall i: nat | Terminates(s, i) ensures EventEnd(s) <= i && Complete(s) {
        assert Terminates(s[1..], i - 1);
      }
    }
  }

  lemma {:induction false} EventEndAppend(a: Bytes, b: Bytes)
    requires Complete(a)
    ensures EventEnd(a + b) == EventEnd(a)
  {
    assert (a + b)[0] == a[0] && (a + b)[1] == a[1];
    if !(a[0] == NEWLINE && a[1] == NEWLINE) {
      assert (a + b)[1..] == a[1..] + b;
      EventEndAppend(a[1..], b);
    }
  }

  lemma SliceAppend(a: Bytes, b: Bytes, i: nat)
    requires i + 2 <= |a|
    ensures (a + b)[..i] == a[..i] && (a + b)[i + 2..] == a[i + 2..] + b
  {
  }

  lemma MorePrepend(event: Bytes, c: Cut, s: Bytes)
    ensures More(Prepend(event, c), s) == Prepend(event, More(c, s))
  {
    var n := Split(c.rest + s).events;
    assert [event] + c.events + n == [event] + (c.events + n);
  }

  /** Cutting in two steps, keeping the rest in between, is cutting at once. */
  lemma {:induction false} SplitAppend(a: Bytes, b: Bytes)
    ensures Split(a + b) == More(Split(a), b)
    decreases |a|
  {
    if Complete(a) {
      var i := EventEnd(a);
      assert Split(a + b) == Prepend(a[..i], Split(a[i + 2..] + b)) by {
        EventEndAppend(a, b);
        SliceAppend(a, b, i);
      }
      SplitAppend(a[i + 2..], b);
      MorePrepend(a[..i], Split(a[i + 2..]), b);
    } else {
      assert [] + Split(a + b).events == Split(a + b).events;
    }
  }

  /** Every byte is in an event, in a terminator or still waiting. */
  function Weight(c: Cut): nat {
    Size(c.events) + |c.rest|
  }

  function Size(events: seq<Bytes>): nat {
    if events == [] then 0 else |events[0]| + 2 + Size(events[1..])
  }

  lemma {:induction false} SizeAppend(a: seq<Bytes>, b: seq<Bytes>)
    ensures Size(a + b) == Size(a) + Size(b)
  {
    if a == [] {
      assert a + b == b;
    } else {
      assert (a + b)[1..] == a[1..] + b;
      SizeAppend(a[1..], b);
    }
  }

  lemma {:induction false} SplitKeepsEveryByte(s: Bytes)
    ensures Weight(Split(s)) == |s|
    decreases |s|
  {
    if Complete(s) { SplitKeepsEveryByte(s[EventEnd(s) + 2..]); }
  }

  lemma {:induction false} QuietCuts(s: Bytes, chunks: seq<Bytes>)
    requires Quiet(s) && Concat(chunks) <= s
    ensures FedAll(chunks) == Split(Concat(chunks))
  {
    if chunks != [] {
      var most, last := chunks[..|chunks| - 1], chunks[|chunks| - 1];
      var a := Concat(most);
      assert a <= s;
      QuietCuts(s, most);
      SplitAppend(a, last);
      assert Concat(chunks) == s[..|Concat(chunks)|];
    }
  }

  lemma FedTwo(a: Bytes, b: Bytes)
    ensures Concat([a, b]) == a + b
    ensures FedAll([a, b]) == Fed(Fed(Cut([], []), a), b)
  {
    assert [a, b][..1] == [a] && [a][..0] == [];
    assert Concat([a]) == Concat([]) + a;
    assert FedAll([a]) == Fed(FedAll([]), a);
  }

  /** Feeding a stream in two where too much waits at the cut loses bytes for good. */
  lemma LoudCut(s: Bytes, n: nat)
    requires n <= |s| && |Split(s[..n]).rest| > BUFFER_CAP
    ensures Concat([s[..n], s[n..]]) == s && FedAll([s[..n], s[n..]]) != Split(s)
  {
    var a, b := s[..n], s[n..];
    FedTwo(a, b);
    assert a + b == s && [] + a == a && [] + b == b;
    var first, second := Split(a), Split(b);
    assert [] + first.events == first.events;
    assert Fed(Cut([], []), a) == Cut(first.events, []);
    assert FedAll([a, b]) == Cut(first.events + second.events, Capped(second.rest));
    SizeAppend(first.events, second.events);
    SplitKeepsEveryByte(a);
    SplitKeepsEveryByte(b);
    SplitKeepsEveryByte(s);
  }

  /** However the network cuts a stream, the same events come out. */
  ghost predicate CutsUnobservable(s: Bytes) {
    forall chunks | Concat(chunks) == s :: FedAll(chunks) == Split(s)
  }

  /** How the network cuts a stream cannot be observed, exactly when no point of the stream
      leaves more than the cap waiting for a terminator. */
  lemma CutsUnobservableIffQuiet(s: Bytes)
    ensures CutsUnobservable(s) <==> Quiet(s)
  {
    if Quiet(s) {
      forall chunks | Concat(chunks) == s ensures FedAll(chunks) == Split(s) { QuietCuts(s, chunks); }
    } else {
      var n :| 0 <= n <= |s| && |Split(s[..n]).rest| > BUFFER_CAP;
      LoudCut(s, n);
    }
  }
}
