/** The counters of proxied requests: which are in flight, what they have moved, and a ring of
    the most recent ones that ended. */
module Metrics {
  import opened Common

  const RING: nat := 64

  /** One request that has ended. */
  datatype Info = Info(id: nat, status: int, attempts: int, bytesIn: int, bytesOut: int, finishedAt: int,
                       firstByteAfter: Option<int>)

  /** A connection; it is known by its number, the first being 1. */
  datatype Conn = Conn(startedAt: int, bytesIn: nat, upgradedBytesIn: nat, bytesOut: nat, attempts: nat,
                       statusCode: int, headerAt: Option<int>, lastWriteAt: int, ended: bool)

  // ---- sums over all connections ever begun ----

  function OutOf(cs: seq<Conn>): nat {
    if cs == [] then 0 else OutOf(cs[..|cs| - 1]) + cs[|cs| - 1].bytesOut
  }

  function InOf(cs: seq<Conn>): nat {
    if cs == [] then 0 else InOf(cs[..|cs| - 1]) + cs[|cs| - 1].bytesIn + cs[|cs| - 1].upgradedBytesIn
  }

  lemma {:induction false} OneMoved(cs: seq<Conn>, i: nat, c: Conn)
    requires i < |cs|
    ensures OutOf(cs[i := c]) == OutOf(cs) - cs[i].bytesOut + c.bytesOut
    ensures InOf(cs[i := c]) == InOf(cs) - cs[i].bytesIn - cs[i].upgradedBytesIn + c.bytesIn + c.upgradedBytesIn
  {
    var most := cs[..|cs| - 1];
    if i == |cs| - 1 {
      assert cs[i := c][..|cs| - 1] == most;
    } else {
      assert cs[i := c][..|cs| - 1] == most[i := c];
      OneMoved(most, i, c);
    }
  }

  lemma OneBegun(cs: seq<Conn>, c: Conn)
    ensures OutOf(cs + [c]) == OutOf(cs) + c.bytesOut && InOf(cs + [c]) == InOf(cs) + c.bytesIn + c.upgradedBytesIn
  {
    assert (cs + [c])[..|cs|] == cs;
  }

  // ---- the ring ----

  function Min(a: nat, b: nat): nat {
    if a < b then a else b
  }

  /** The ring holds the last ended requests, each at its number modulo its size. */
  predicate RingHolds(recent: seq<Info>, next: nat, ended: seq<Info>) {
    && |recent| == Min(|ended|, RING) && next == |ended| % RING
    && forall j | |ended| - |recent| <= j < |ended| :: recent[j % RING] == ended[j]
  }

  /** The last n, newest first. */
  function Newest(ended: seq<Info>, n: nat): (r: seq<Info>)
    requires n <= |ended|
    ensures |r| == n && forall i | 0 <= i < n :: r[i] == ended[|ended| - 1 - i]
  {
    if n == 0 then [] else [ended[|ended| - 1]] + Newest(ended[..|ended| - 1], n - 1)
  }

  lemma Apart(a: nat, j: nat)
    requires a - RING < j < a
    ensures j % RING != a % RING
  {
  }

  lemma RingStep(recent: seq<Info>, next: nat, ended: seq<Info>, info: Info)
    requires RingHolds(recent, next, ended)
    ensures |recent| < RING ==> RingHolds(recent + [info], (next + 1) % RING, ended + [info])
    ensures |recent| == RING ==> next < RING && RingHolds(recent[next := info], (next + 1) % RING, ended + [info])
  {
    var all := ended + [info];
    if |recent| == RING {
      var after := recent[next := info];
      forall j | |all| - RING <= j < |all| ensures after[j % RING] == all[j] {
        if j < |ended| {
          Apart(|ended|, j);
          assert recent[j % RING] == ended[j];
        }
      }
    } else {
      var after := recent + [info];
      forall j | 0 <= j < |all| ensures after[j % RING] == all[j] {
        assert j % RING == j;
        if j < |ended| { assert recent[j % RING] == ended[j]; }
      }
    }
  }

  /** The i-th newest is where the snapshot looks for it. */
  lemma RingIndex(recent: seq<Info>, next: nat, ended: seq<Info>, i: nat)
    requires RingHolds(recent, next, ended) && i < |recent|
    ensures var idx := (next + RING - 1 - i) % RING;
      idx < |recent| && recent[idx] == ended[|ended| - 1 - i]
  {
    var j := |ended| - 1 - i;
    SameIndex(|ended|, i);
    assert recent[j % RING] == ended[j];
    if |recent| < RING { assert j % RING == j; }
  }

  lemma SameIndex(a: nat, i: nat)
    requires i < RING && i < a
    ensures (a % RING + RING - 1 - i) % RING == (a - 1 - i) % RING
  {
  }

  lemma RingSize(recent: seq<Info>, next: nat, ended: seq<Info>)
    requires RingHolds(recent, next, ended)
    ensures |recent| == Min(|ended|, RING) && next < RING
  {
  }

  lemma NewestSnoc(ended: seq<Info>, n: nat)
    requires n < |ended|
    ensures Newest(ended, n + 1) == Newest(ended, n) + [ended[|ended| - 1 - n]]
  {
  }

  /** What is active is exactly what has begun and not ended. */
  ghost predicate Tracks(conns: seq<Conn>, active: set<nat>, ended: seq<Info>) {
    && (forall id | id in active :: 1 <= id <= |conns| && !conns[id - 1].ended)
    && (forall id | 1 <= id <= |conns| && !conns[id - 1].ended :: id in active)
    && |active| + |ended| == |conns|
  }

  lemma TrackBegun(conns: seq<Conn>, active: set<nat>, ended: seq<Info>, c: Conn)
    requires Tracks(conns, active, ended) && !c.ended
    ensures Tracks(conns + [c], active + {|conns| + 1}, ended)
  {
  }

  lemma TrackSame(conns: seq<Conn>, active: set<nat>, ended: seq<Info>, id: nat, c: Conn)
    requires Tracks(conns, active, ended) && 1 <= id <= |conns| && c.ended == conns[id - 1].ended
    ensures Tracks(conns[id - 1 := c], active, ended)
  {
  }

  lemma TrackEnded(conns: seq<Conn>, active: set<nat>, ended: seq<Info>, id: nat, c: Conn, info: Info)
    requires Tracks(conns, active, ended) && 1 <= id <= |conns| && !conns[id - 1].ended && c.ended
    ensures Tracks(conns[id - 1 := c], active - {id}, ended + [info])
  {
    assert id in active;
  }

  class ProxyMetrics {
    var conns: seq<Conn>          // every connection ever begun, held by its request
    var active: set<nat>
    var recent: seq<Info>
    var recentNext: nat
    var totalRequests: nat
    var totalBytesIn: nat
    var totalBytesOut: nat
    ghost var ended: seq<Info>    // every request that has ended, in order

    constructor ()
      ensures Valid() && conns == [] && ended == [] && totalRequests == 0 && totalBytesIn == 0 && totalBytesOut == 0
    {
      conns, active, recent, recentNext := [], {}, [], 0;
      totalRequests, totalBytesIn, totalBytesOut, ended := 0, 0, 0, [];
    }

    /** Beside what is active: the totals are the sums over all connections ever begun, and the
        ring holds the most recent requests that ended. */
    ghost predicate Valid()
      reads this
    {
      && Tracks(conns, active, ended) && RingHolds(recent, recentNext, ended)
      && totalRequests == |conns| && totalBytesOut == OutOf(conns) && totalBytesIn == InOf(conns)
    }

    /** A request begins; an unknown body length counts as none. */
    method Begin(bodyLen: int, now: int) returns (id: nat)
      requires Valid()
      modifies this
      ensures Valid() && id == |conns| && ended == old(ended)
      ensures conns == old(conns) + [Conn(now, if bodyLen < 0 then 0 else bodyLen, 0, 0, 0, 0, None, 0, false)]
    {
      hide Tracks, RingHolds, OutOf, InOf;
      var n: nat := if bodyLen < 0 then 0 else bodyLen;
      var c := Conn(now, n, 0, 0, 0, 0, None, 0, false);
      TrackBegun(conns, active, ended, c);
      OneBegun(conns, c);
      totalRequests := totalRequests + 1;
      totalBytesIn := totalBytesIn + n;
      conns := conns + [c];
      id := |conns|;
      active := active + {id};
    }

    /** The first header of a response; later ones change nothing. */
    method NoteHeader(id: nat, status: int, now: int)
      requires Valid() && 1 <= id <= |conns|
      modifies this`conns
      ensures Valid()
      ensures conns == if old(conns)[id - 1].headerAt.Some? then old(conns)
        else old(conns)[id - 1 := old(conns)[id - 1].(headerAt := Some(now), statusCode := status, lastWriteAt := now)]
    {
      hide Tracks, RingHolds, OutOf, InOf;
      var c := conns[id - 1];
      if c.headerAt.None? {
        c := c.(headerAt := Some(now), statusCode := status, lastWriteAt := now);
        TrackSame(conns, active, ended, id, c);
        OneMoved(conns, id - 1, c);
        conns := conns[id - 1 := c];
      }
    }

    /** One candidate of a virtual model is attempted. */
    method NoteAttempt(id: nat)
      requires Valid() && 1 <= id <= |conns|
      modifies this`conns
      ensures Valid()
      ensures conns == old(conns)[id - 1 := old(conns)[id - 1].(attempts := old(conns)[id - 1].attempts + 1)]
    {
      hide Tracks, RingHolds, OutOf, InOf;
      var c := conns[id - 1];
      c := c.(attempts := c.attempts + 1);
      TrackSame(conns, active, ended, id, c);
      OneMoved(conns, id - 1, c);
      conns := conns[id - 1 := c];
    }

    /** Bytes that reached the client. */
    method NoteWrite(id: nat, n: int, now: int)
      requires Valid() && 1 <= id <= |conns|
      modifies this`conns, this`totalBytesOut
      ensures Valid()
      ensures conns == if n <= 0 then old(conns)
        else old(conns)[id - 1 := old(conns)[id - 1].(bytesOut := old(conns)[id - 1].bytesOut + n, lastWriteAt := now)]
    {
      if n <= 0 { return; }
      hide Tracks, RingHolds, OutOf, InOf;
      var c := conns[id - 1];
      c := c.(bytesOut := c.bytesOut + n, lastWriteAt := now);
      TrackSame(conns, active, ended, id, c);
      OneMoved(conns, id - 1, c);
      conns := conns[id - 1 := c];
      totalBytesOut := totalBytesOut + n;
    }

    /** Bytes a client sent on an upgraded connection. */
    method NoteRead(id: nat, n: int, now: int)
      requires Valid() && 1 <= id <= |conns|
      modifies this`conns, this`totalBytesIn
      ensures Valid()
      ensures conns == if n <= 0 then old(conns)
        else old(conns)[id - 1 := old(conns)[id - 1].(upgradedBytesIn := old(conns)[id - 1].upgradedBytesIn + n,
                                                      lastWriteAt := now)]
    {
      if n <= 0 { return; }
      hide Tracks, RingHolds, OutOf, InOf;
      var c := conns[id - 1];
      c := c.(upgradedBytesIn := c.upgradedBytesIn + n, lastWriteAt := now);
      TrackSame(conns, active, ended, id, c);
      OneMoved(conns, id - 1, c);
      conns := conns[id - 1 := c];
      totalBytesIn := totalBytesIn + n;
    }

    /** A request ends; only the first call for it has an effect. */
    method End(id: nat, now: int)
      requires Valid() && 1 <= id <= |conns|
      modifies this`conns, this`active, this`recent, this`recentNext, this`ended
      ensures Valid()
      ensures old(conns)[id - 1].ended ==>
        conns == old(conns) && active == old(active) && ended == old(ended) && recent == old(recent)
      ensures !old(conns)[id - 1].ended ==>
        conns == old(conns)[id - 1 := old(conns)[id - 1].(ended := true)] && active == old(active) - {id}
      ensures !old(conns)[id - 1].ended ==>
        var c, info := old(conns)[id - 1], ended[|ended| - 1];
        && ended == old(ended) + [info] && info.id == id && info.status == c.statusCode && info.finishedAt == now
        && info.attempts == (if c.attempts == 0 then 1 else c.attempts)
        && info.bytesIn == c.bytesIn + c.upgradedBytesIn && info.bytesOut == c.bytesOut
        && info.firstByteAfter == match c.headerAt { case None => None case Some(at) => Some(at - c.startedAt) }
    {
      hide Tracks, RingHolds, OutOf, InOf;
      var c := conns[id - 1];
      if c.ended { return; }
      c := c.(ended := true);
      var attempts: nat := if c.attempts == 0 then 1 else c.attempts;
      var first: Option<int> := if c.headerAt.Some? then Some(c.headerAt.value - c.startedAt) else None;
      var info := Info(id, c.statusCode, attempts, c.bytesIn + c.upgradedBytesIn, c.bytesOut, now, first);
      TrackEnded(conns, active, ended, id, c, info);
      OneMoved(conns, id - 1, c);
      RingStep(recent, recentNext, ended, info);
      RingSize(recent, recentNext, ended);
      conns := conns[id - 1 := c];
      active := active - {id};
      if |recent| < RING {
        recent := recent + [info];
      } else {
        recent := recent[recentNext := info];
      }
      recentNext := (recentNext + 1) % RING;
      ended := ended + [info];
    }

    /** How many are in flight, and the most recent that ended, newest first. */
    method Snapshot() returns (activeCount: nat, recentOut: seq<Info>)
      requires Valid()
      ensures activeCount == |conns| - |ended|
      ensures recentOut == Newest(ended, if |ended| < 64 then |ended| else 64)
    {
      var n := |recent|;
      RingSize(recent, recentNext, ended);
      hide RingHolds, OutOf, InOf;
      recentOut := [];
      for i := 0 to n
        invariant recentOut == Newest(ended, i)
      {
        var idx := (recentNext + RING - 1 - i) % RING;
        RingIndex(recent, recentNext, ended, i);
        NewestSnoc(ended, i);
        recentOut := recentOut + [recent[idx]];
      }
      activeCount := |active|;
    }
  }
}
