/** The failover walk over a virtual model's candidates. */
module VirtualWalk {
  import opened Affinity
  import opened VirtualTargets

  const SERVER_ERROR: int := 500

  /** How one attempt went: whether anything reached the client, the status, whether it failed. */
  datatype Attempt = Attempt(wrote: bool, status: int, failed: bool)

  /** What happens to a walk: whether the caller is gone before each attempt, and each attempt. */
  datatype Fate = Fate(gone: nat -> bool, attempt: nat -> Attempt)

  datatype End = Abandoned | Answered | Committed | AllFailed
  datatype Walked = Walked(at: nat, end: End)

  /** Where a walk that has come to candidate i ends, and how. */
  function WalkFrom(n: nat, i: nat, f: Fate): Walked
    requires i <= n
    decreases n - i
  {
    if i == n then Walked(i, AllFailed)
    else if f.gone(i) then Walked(i, Abandoned)
    else if !f.attempt(i).failed then Walked(i, Answered)
    else if f.attempt(i).wrote then Walked(i, Committed)
    else WalkFrom(n, i + 1, f)
  }

  /** Candidate j was attempted. */
  predicate Attempted(w: Walked, j: nat) {
    j < w.at || (j == w.at && (w.end == Answered || w.end == Committed))
  }

  /** The walk stops at the first candidate that answers or commits; every one before it failed
      having written nothing, so at most one candidate writes to the client, and none has when
      all failed. */
  lemma {:induction false} WalkStopsAtFirst(n: nat, i: nat, f: Fate)
    requires i <= n
    ensures var w := WalkFrom(n, i, f);
      && i <= w.at <= n && (w.end == AllFailed <==> w.at == n)
      && (forall j | i <= j < w.at :: !f.gone(j) && f.attempt(j).failed && !f.attempt(j).wrote)
      && (w.end == Abandoned ==> f.gone(w.at))
      && (w.end == Answered ==> !f.attempt(w.at).failed)
      && (w.end == Committed ==> f.attempt(w.at).failed && f.attempt(w.at).wrote)
    decreases n - i
  {
    if i < n && !f.gone(i) && f.attempt(i).failed && !f.attempt(i).wrote { WalkStopsAtFirst(n, i + 1, f); }
  }

  /** A candidate is attempted exactly when every earlier one was and failed having written
      nothing, and the caller was still there each time. */
  lemma {:induction false} AttemptedIff(n: nat, i: nat, f: Fate, j: nat)
    requires i <= n && i <= j
    ensures Attempted(WalkFrom(n, i, f), j) <==>
      j < n && (forall k | i <= k <= j :: !f.gone(k))
      && (forall k | i <= k < j :: f.attempt(k).failed && !f.attempt(k).wrote)
    decreases n - i
  {
    WalkStopsAtFirst(n, i, f);
    if i < j && i < n && !f.gone(i) && f.attempt(i).failed && !f.attempt(i).wrote { AttemptedIff(n, i + 1, f, j); }
  }

  lemma AtMostOneWrites(n: nat, f: Fate, j: nat, k: nat)
    requires var w := WalkFrom(n, 0, f); Attempted(w, j) && Attempted(w, k)
    requires f.attempt(j).wrote && f.attempt(k).wrote
    ensures j == k
  {
    WalkStopsAtFirst(n, 0, f);
  }

  /** What a walk leaves in the store: a pin on the candidate that answered, unless it answered
      with a server error. */
  ghost predicate Leaves(l: Limits, m: Pins, key: Key, cs: seq<Candidate>, f: Fate, now: int, m2: Pins) {
    var w := WalkFrom(|cs|, 0, f);
    if w.end == Answered && w.at < |cs| && f.attempt(w.at).status < SERVER_ERROR
    then Records(l, m, key, Identity(cs[w.at]), now, m2)
    else m2 == m
  }

  /** The candidate that answers is pinned exactly when its status is below 500; any other walk
      leaves the store as it was. */
  lemma PinnedIff(l: Limits, m: Pins, key: Key, cs: seq<Candidate>, f: Fate, now: int, m2: Pins)
    requires Leaves(l, m, key, cs, f, now, m2)
    ensures var w := WalkFrom(|cs|, 0, f);
      if w.end == Answered && f.attempt(w.at).status < 500
      then w.at < |cs| && Records(l, m, key, Identity(cs[w.at]), now, m2)
      else m2 == m
  {
    hide Records, Identity;
    WalkStopsAtFirst(|cs|, 0, f);
  }

  method RouteVirtualWith(store: VirtualAffinityStore, name: string, conversation: string, cs: seq<Candidate>, f: Fate,
                          now: int)
      returns (w: Walked)
    requires store.Valid() && store.last <= now
    modifies store
    ensures store.Valid() && w == WalkFrom(|cs|, 0, f)
    ensures Leaves(store.limits, old(store.entries), Key(name, conversation), cs, f, now, store.entries)
  {
    for i := 0 to |cs|
      invariant store.Valid() && store.entries == old(store.entries) && store.last <= now
      invariant WalkFrom(|cs|, 0, f) == WalkFrom(|cs|, i, f)
    {
      if f.gone(i) {
        return Walked(i, Abandoned);
      }
      var a := f.attempt(i);
      if !a.failed {
        if a.status < SERVER_ERROR {
          store.Record(name, conversation, Identity(cs[i]), now);
        }
        return Walked(i, Answered);
      }
      if a.wrote {
        return Walked(i, Committed);
      }
    }
    return Walked(|cs|, AllFailed);
  }

  // ---- what an attempt is seen to write ----

  datatype Written = StatusLine(status: int) | Bytes(count: nat)

  /** Watches one attempt's writes on their way to the client. */
  class ResponseRecorder {
    var wrote: bool
    var statusCode: int
    var forwarded: seq<Written>

    constructor ()
      ensures Valid() && forwarded == []
    {
      wrote, statusCode, forwarded := false, 0, [];
    }

    /** It knows of a write exactly when one has gone through; its status is the last one given. */
    ghost predicate Valid()
      reads this
    {
      (wrote <==> forwarded != []) && (!wrote ==> statusCode == 0)
    }

    method WriteHeader(status: int)
      requires Valid()
      modifies this
      ensures Valid() && statusCode == status && forwarded == old(forwarded) + [StatusLine(status)]
    {
      wrote, statusCode := true, status;
      forwarded := forwarded + [StatusLine(status)];
    }

    method Write(count: nat)
      requires Valid()
      modifies this
      ensures Valid() && forwarded == old(forwarded) + [Bytes(count)]
      ensures statusCode == if old(statusCode) == 0 then 200 else old(statusCode)
    {
      wrote := true;
      if statusCode == 0 { statusCode := 200; }
      forwarded := forwarded + [Bytes(count)];
    }
  }
}
