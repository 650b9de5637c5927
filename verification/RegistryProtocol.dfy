/** The probe protocol of the endpoint registry, as a step system: every critical section, every
    fetch and every channel close is a step of one goroutine, so a run is any interleaving of
    lookups and snapshots. A close of a closed channel would panic; here it sets `panicked`. */
module RegistryProtocol {
  datatype Config = Config(endpoints: set<string>, ttl: int)

  datatype Found = Found(online: bool, detail: string)
  datatype Status = Status(found: Found, checked: int)
  datatype Stored = Stored(name: string, status: Status)

  /** Where a goroutine stands between two steps. */
  datatype Point =
    | Checking(name: string)                        // about to ask whether the status is fresh
    | Locking(name: string, mark: nat)              // found it stale after so many stores, about to enter the probe
    | Waiting(name: string, ch: nat)                // somebody else's fetch is in flight
    | Fetching(name: string, ch: nat)               // its own fetch is running
    | Storing(name: string, ch: nat, status: Status)
    | Clearing(name: string, ch: nat)               // about to take its channel out of the table
    | Closing(name: string, ch: nat)                // about to close it
    | Woken(name: string)                           // was woken by a close
    | Finished

  datatype State = State(
    status: map<string, Status>,
    inflight: map<string, nat>,
    closed: set<nat>,
    makers: seq<nat>,          // which goroutine made each channel
    threads: map<nat, Point>,
    fetches: seq<string>,      // every fetch ever started
    stores: seq<Stored>,       // every status ever stored
    cancelled: set<nat>,       // goroutines whose caller has hung up
    now: int,
    panicked: bool)

  datatype Action =
    | Ask(t: nat, name: string)
    | CheckFresh(t: nat)
    | Enter(t: nat)
    | Wake(t: nat)
    | Hangup(t: nat)             // its caller goes away
    | Cancel(t: nat)             // and it gives up waiting
    | FetchEnds(t: nat, found: Found)
    | Store(t: nat)
    | Clear(t: nat)
    | Close(t: nat)
    | Return(t: nat)
    | Tick(later: int)

  predicate Fresh(c: Config, s: State, name: string) {
    name in s.status && s.now - s.status[name].checked < c.ttl
  }

  function At(s: State, t: nat): Point {
    if t in s.threads then s.threads[t] else Finished
  }

  predicate Enabled(c: Config, s: State, a: Action) {
    match a
    case Ask(t, name) => t !in s.threads
    case CheckFresh(t) => At(s, t).Checking?
    case Enter(t) => At(s, t).Locking?
    case Wake(t) => At(s, t).Waiting? && At(s, t).ch in s.closed
    case Hangup(t) => t in s.threads
    case Cancel(t) => At(s, t).Waiting? && t in s.cancelled
    case FetchEnds(t, _) => At(s, t).Fetching?
    case Store(t) => At(s, t).Storing?
    case Clear(t) => At(s, t).Clearing?
    case Close(t) => At(s, t).Closing?
    case Return(t) => At(s, t).Woken?
    case Tick(later) => s.now <= later
  }

  function Moved(s: State, t: nat, p: Point): State {
    s.(threads := s.threads[t := p])
  }

  function Apply(c: Config, s: State, a: Action): State
    requires Enabled(c, s, a)
  {
    match a
    case Ask(t, name) => Moved(s, t, if name in c.endpoints then Checking(name) else Finished)
    case CheckFresh(t) =>
      Moved(s, t, if Fresh(c, s, At(s, t).name) then Finished else Locking(At(s, t).name, |s.stores|))
    case Enter(t) =>
      var name := At(s, t).name;
      if name in s.inflight then Moved(s, t, Waiting(name, s.inflight[name]))
      else
        var ch := |s.makers|;
        Moved(s, t, Fetching(name, ch)).(inflight := s.inflight[name := ch], makers := s.makers + [t],
                                         fetches := s.fetches + [name])
    case Wake(t) => Moved(s, t, Woken(At(s, t).name))
    case Hangup(t) => s.(cancelled := s.cancelled + {t})
    case Cancel(t) => Moved(s, t, Finished)
    case FetchEnds(t, found) => Moved(s, t, Storing(At(s, t).name, At(s, t).ch, Status(found, s.now)))
    case Store(t) =>
      var p := At(s, t);
      Moved(s, t, Clearing(p.name, p.ch)).(status := s.status[p.name := p.status],
                                           stores := s.stores + [Stored(p.name, p.status)])
    case Clear(t) =>
      var p := At(s, t);
      Moved(s, t, Closing(p.name, p.ch)).(inflight := s.inflight - {p.name})
    case Close(t) =>
      var p := At(s, t);
      Moved(s, t, Finished).(closed := s.closed + {p.ch}, panicked := s.panicked || p.ch in s.closed)
    case Return(t) => Moved(s, t, Finished)
    case Tick(later) => s.(now := later)
  }

  const EMPTY := State(map[], map[], {}, [], map[], [], [], {}, 0, false)

  // ---- what every step keeps ----

  /** Holds a channel that it alone will close. */
  predicate Owns(p: Point) {
    p.Fetching? || p.Storing? || p.Clearing? || p.Closing?
  }

  /** Holds the channel in the table: from starting a fetch until taking it out. */
  predicate InFlight(p: Point) {
    p.Fetching? || p.Storing? || p.Clearing?
  }

  /** A channel's maker still holds it, for a given endpoint. */
  predicate Held(s: State, ch: nat, name: string) {
    && ch < |s.makers| && s.makers[ch] in s.threads
    && Owns(s.threads[s.makers[ch]]) && s.threads[s.makers[ch]].name == name && s.threads[s.makers[ch]].ch == ch
  }

  ghost predicate ThreadInv(c: Config, s: State, t: nat)
    requires t in s.threads
  {
    var p := s.threads[t];
    && (!p.Finished? ==> p.name in c.endpoints)
    && (Owns(p) ==> p.ch < |s.makers| && s.makers[p.ch] == t && p.ch !in s.closed)
    && (InFlight(p) ==> p.name in s.inflight && s.inflight[p.name] == p.ch)
    && (p.Clearing? || p.Closing? || p.Woken? ==> p.name in s.status)
    && (p.Waiting? && p.ch in s.closed ==> p.name in s.status)
    && (p.Waiting? && p.ch !in s.closed ==> Held(s, p.ch, p.name))
  }

  ghost predicate TableInv(s: State) {
    forall name | name in s.inflight ::
      Held(s, s.inflight[name], name) && InFlight(s.threads[s.makers[s.inflight[name]]])
  }

  ghost predicate Inv(c: Config, s: State) {
    && !s.panicked
    && (forall t | t in s.threads :: ThreadInv(c, s, t))
    && TableInv(s)
    && (forall ch | ch in s.closed :: ch < |s.makers|)
    && (forall name | name in s.status :: name in c.endpoints)
    && (forall name | name in s.fetches :: name in c.endpoints)
  }

  /** Goroutines other than t, and the channels others hold, are as they were. */
  lemma OthersKeep(c: Config, s: State, t: nat, u: nat)
    requires Inv(c, s) && Enabled(c, s, Enter(t)) && At(s, t).name !in s.inflight && u in s.threads && u != t
    ensures ThreadInv(c, Apply(c, s, Enter(t)), u)
  {
    assert ThreadInv(c, s, u) && ThreadInv(c, s, t);
  }

  lemma EnterStarts(c: Config, s: State, t: nat)
    requires Inv(c, s) && Enabled(c, s, Enter(t)) && At(s, t).name !in s.inflight
    ensures Inv(c, Apply(c, s, Enter(t)))
  {
    var s2 := Apply(c, s, Enter(t));
    assert ThreadInv(c, s, t);
    forall u | u in s2.threads ensures ThreadInv(c, s2, u) {
      if u != t { OthersKeep(c, s, t, u); }
    }
    hide ThreadInv;
  }

  lemma EnterKeeps(c: Config, s: State, t: nat)
    requires Inv(c, s) && Enabled(c, s, Enter(t))
    ensures Inv(c, Apply(c, s, Enter(t)))
  {
    if At(s, t).name !in s.inflight {
      EnterStarts(c, s, t);
    } else {
      assert ThreadInv(c, s, t);
    }
  }

  lemma StoreKeeps(c: Config, s: State, t: nat)
    requires Inv(c, s) && Enabled(c, s, Store(t))
    ensures Inv(c, Apply(c, s, Store(t)))
  {
  }

  lemma ClearKeeps(c: Config, s: State, t: nat)
    requires Inv(c, s) && Enabled(c, s, Clear(t))
    ensures Inv(c, Apply(c, s, Clear(t)))
  {
  }

  lemma CloseKeeps(c: Config, s: State, t: nat)
    requires Inv(c, s) && Enabled(c, s, Close(t))
    ensures Inv(c, Apply(c, s, Close(t)))
  {
  }

  lemma FetchEndsKeeps(c: Config, s: State, t: nat, found: Found)
    requires Inv(c, s) && Enabled(c, s, FetchEnds(t, found))
    ensures Inv(c, Apply(c, s, FetchEnds(t, found)))
  {
  }

  /** A goroutine that makes no fetch of its own may move on, if what it goes on to is in order. */
  lemma MoveKeeps(c: Config, s: State, t: nat, p: Point)
    requires Inv(c, s) && !Owns(At(s, t)) && (p.Finished? || p.Checking? || p.Locking? || p.Woken?)
    requires !p.Finished? ==> p.name in c.endpoints && (p.Woken? ==> p.name in s.status)
    ensures Inv(c, Moved(s, t, p))
  {
    var s2 := Moved(s, t, p);
    forall u | u in s2.threads ensures ThreadInv(c, s2, u) {
      if u != t { assert ThreadInv(c, s, u); }
    }
    hide ThreadInv;
  }

  lemma MoverKeeps(c: Config, s: State, a: Action)
    requires a.Ask? || a.CheckFresh? || a.Wake? || a.Cancel? || a.Return?
    requires Inv(c, s) && Enabled(c, s, a)
    ensures Inv(c, Apply(c, s, a))
  {
    if a.t in s.threads { assert ThreadInv(c, s, a.t); }
    hide Inv, ThreadInv, Fresh;
    match a
    case Ask(t, name) => MoveKeeps(c, s, t, if name in c.endpoints then Checking(name) else Finished);
    case CheckFresh(t) => MoveKeeps(c, s, t, At(Apply(c, s, a), t));
    case Wake(t) => MoveKeeps(c, s, t, Woken(At(s, t).name));
    case Cancel(t) => MoveKeeps(c, s, t, Finished);
    case Return(t) => MoveKeeps(c, s, t, Finished);
  }

  lemma NobodyMovesKeeps(c: Config, s: State, a: Action)
    requires a.Hangup? || a.Tick?
    requires Inv(c, s) && Enabled(c, s, a)
    ensures Inv(c, Apply(c, s, a))
  {
    var s2 := Apply(c, s, a);
    assert forall t | t in s2.threads :: ThreadInv(c, s, t);
  }

  lemma StepKeeps(c: Config, s: State, a: Action)
    requires Inv(c, s) && Enabled(c, s, a)
    ensures Inv(c, Apply(c, s, a))
  {
    match a
    case Enter(t) => EnterKeeps(c, s, t);
    case Store(t) => StoreKeeps(c, s, t);
    case Clear(t) => ClearKeeps(c, s, t);
    case Close(t) => CloseKeeps(c, s, t);
    case Ask(_, _) => MoverKeeps(c, s, a);
    case CheckFresh(_) => MoverKeeps(c, s, a);
    case Tick(_) => NobodyMovesKeeps(c, s, a);
    case Wake(_) => MoverKeeps(c, s, a);
    case Hangup(_) => NobodyMovesKeeps(c, s, a);
    case Cancel(_) => MoverKeeps(c, s, a);
    case FetchEnds(t, found) => FetchEndsKeeps(c, s, t, found);
    case Return(_) => MoverKeeps(c, s, a);
  }

  // ---- what has been stored ----

  ghost predicate IsStored(s: State, name: string) {
    name in s.status && exists k | 0 <= k < |s.stores| :: s.stores[k] == Stored(name, s.status[name])
  }

  /** Nothing of that name among the first `mark` stores is young enough. */
  ghost predicate AllStale(c: Config, s: State, name: string, mark: nat) {
    mark <= |s.stores| && forall k | 0 <= k < mark && s.stores[k].name == name ::
      s.now - s.stores[k].status.checked >= c.ttl
  }

  ghost predicate TimeInv(c: Config, s: State, p: Point) {
    && (p.Locking? ==> AllStale(c, s, p.name, p.mark))
    && (p.Storing? ==> p.status.checked <= s.now)
    && (p.Storing? && p.name in s.status ==> s.status[p.name].checked <= p.status.checked)
  }

  /** The status of a name is the latest of those stored for it. */
  ghost predicate LogInv(c: Config, s: State) {
    && (forall name | name in s.status :: IsStored(s, name) && s.status[name].checked <= s.now)
    && (forall k | 0 <= k < |s.stores| ::
          s.stores[k].name in s.status && s.stores[k].status.checked <= s.status[s.stores[k].name].checked)
    && (forall t | t in s.threads :: TimeInv(c, s, s.threads[t]))
  }

  lemma OtherTimes(c: Config, s: State, t: nat, u: nat)
    requires Inv(c, s) && LogInv(c, s) && Enabled(c, s, Store(t)) && u in s.threads && u != t
    ensures TimeInv(c, Apply(c, s, Store(t)), s.threads[u])
  {
    assert ThreadInv(c, s, t) && ThreadInv(c, s, u) && TimeInv(c, s, s.threads[u]);
  }

  lemma StatusesAreStored(c: Config, s: State, t: nat, name: string)
    requires LogInv(c, s) && Enabled(c, s, Store(t)) && name in Apply(c, s, Store(t)).status
    ensures IsStored(Apply(c, s, Store(t)), name)
  {
    var s2 := Apply(c, s, Store(t));
    if name == At(s, t).name {
      assert s2.stores[|s.stores|] == Stored(name, s2.status[name]);
    } else {
      assert IsStored(s, name);
      var k :| 0 <= k < |s.stores| && s.stores[k] == Stored(name, s.status[name]);
      assert s2.stores[k] == s.stores[k];
    }
  }

  lemma StoresAreOlder(c: Config, s: State, t: nat)
    requires LogInv(c, s) && Enabled(c, s, Store(t)) && TimeInv(c, s, At(s, t))
    ensures var s2 := Apply(c, s, Store(t));
      && (forall name | name in s2.status :: s2.status[name].checked <= s2.now)
      && (forall k | 0 <= k < |s2.stores| ::
            s2.stores[k].name in s2.status && s2.stores[k].status.checked <= s2.status[s2.stores[k].name].checked)
  {
    hide IsStored, AllStale;
  }

  lemma StoreKeepsTimes(c: Config, s: State, t: nat, u: nat)
    requires Inv(c, s) && LogInv(c, s) && Enabled(c, s, Store(t)) && u in Apply(c, s, Store(t)).threads
    ensures TimeInv(c, Apply(c, s, Store(t)), Apply(c, s, Store(t)).threads[u])
  {
    if u != t { OtherTimes(c, s, t, u); }
  }

  lemma StoreKeepsLog(c: Config, s: State, t: nat)
    requires Inv(c, s) && LogInv(c, s) && Enabled(c, s, Store(t))
    ensures LogInv(c, Apply(c, s, Store(t)))
  {
    hide Inv, IsStored, TimeInv, Apply;
    var s2 := Apply(c, s, Store(t));
    StoresAreOlder(c, s, t);
    forall name | name in s2.status ensures IsStored(s2, name) { StatusesAreStored(c, s, t, name); }
    forall u | u in s2.threads ensures TimeInv(c, s2, s2.threads[u]) { StoreKeepsTimes(c, s, t, u); }
  }

  lemma MoveKeepsLog(c: Config, s: State, s2: State, t: nat, p: Point)
    requires LogInv(c, s) && s2.status == s.status && s2.stores == s.stores && s.now == s2.now
    requires s2.threads == s.threads[t := p] && TimeInv(c, s, p)
    ensures LogInv(c, s2)
  {
    forall u | u in s2.threads ensures TimeInv(c, s2, s2.threads[u]) {
      if u != t { assert TimeInv(c, s, s.threads[u]); }
    }
    hide TimeInv;
    forall name | name in s2.status ensures IsStored(s2, name) { assert IsStored(s, name); }
  }

  lemma StaleHasNoYoung(c: Config, s: State, name: string)
    requires LogInv(c, s) && !Fresh(c, s, name)
    ensures AllStale(c, s, name, |s.stores|)
  {
  }

  predicate Moves(a: Action) {
    !a.Store? && !a.Hangup? && !a.Tick?
  }

  lemma MoveIs(c: Config, s: State, a: Action)
    requires Moves(a) && Enabled(c, s, a)
    ensures var s2 := Apply(c, s, a);
      s2.threads == s.threads[a.t := At(s2, a.t)] && s2.status == s.status && s2.stores == s.stores && s2.now == s.now
  {
    hide Fresh;
  }

  lemma MovesInTime(c: Config, s: State, a: Action)
    requires LogInv(c, s) && Moves(a) && Enabled(c, s, a)
    ensures TimeInv(c, s, At(Apply(c, s, a), a.t))
  {
    if a.CheckFresh? && !Fresh(c, s, At(s, a.t).name) { StaleHasNoYoung(c, s, At(s, a.t).name); }
    hide AllStale, Fresh;
  }

  lemma StepKeepsLog(c: Config, s: State, a: Action)
    requires Inv(c, s) && LogInv(c, s) && Enabled(c, s, a)
    ensures LogInv(c, Apply(c, s, a))
  {
    if a.Store? {
      StoreKeepsLog(c, s, a.t);
    } else if Moves(a) {
      hide Inv, LogInv, Enabled, Apply;
      MoveIs(c, s, a);
      MovesInTime(c, s, a);
      MoveKeepsLog(c, s, Apply(c, s, a), a.t, At(Apply(c, s, a), a.t));
    } else {
      var s2 := Apply(c, s, a);
      hide Inv, Enabled, Apply;
      assert forall t | t in s2.threads :: TimeInv(c, s, s.threads[t]);
      assert forall name | name in s2.status :: IsStored(s, name);
    }
  }

  // ---- every run ----

  ghost predicate IsRun(c: Config, states: seq<State>, actions: seq<Action>) {
    && |states| == |actions| + 1 && states[0] == EMPTY
    && (forall i | 0 <= i < |actions| ::
          Enabled(c, states[i], actions[i]) && states[i + 1] == Apply(c, states[i], actions[i]))
  }

  lemma {:induction false} RunIsSafe(c: Config, states: seq<State>, actions: seq<Action>, n: nat)
    requires IsRun(c, states, actions) && n < |states|
    ensures Inv(c, states[n]) && LogInv(c, states[n])
  {
    hide Inv, LogInv, Apply;
    if n > 0 {
      RunIsSafe(c, states, actions, n - 1);
      StepKeeps(c, states[n - 1], actions[n - 1]);
      StepKeepsLog(c, states[n - 1], actions[n - 1]);
    } else {
      EmptyIsSafe(c);
    }
  }

  ghost predicate Reachable(c: Config, s: State) {
    exists states, actions :: IsRun(c, states, actions) && states != [] && states[|states| - 1] == s
  }

  lemma EmptyIsSafe(c: Config)
    ensures Inv(c, EMPTY) && LogInv(c, EMPTY)
  {
  }

  /** Every reachable state satisfies the invariant. */
  lemma ReachableIsSafe(c: Config, s: State)
    requires Reachable(c, s)
    ensures Inv(c, s) && LogInv(c, s)
  {
    var states, actions :| IsRun(c, states, actions) && states != [] && states[|states| - 1] == s;
    RunIsSafe(c, states, actions, |states| - 1);
  }

  /** At most one fetch of an endpoint is running. */
  lemma OneFetchAtATime(c: Config, s: State, t: nat, u: nat)
    requires Reachable(c, s) && At(s, t).Fetching? && At(s, u).Fetching? && At(s, t).name == At(s, u).name
    ensures t == u
  {
    ReachableIsSafe(c, s);
    assert ThreadInv(c, s, t) && ThreadInv(c, s, u);
  }

  /** A channel is closed once only, by the goroutine that made it, and only after a status of
      its endpoint has been stored. */
  lemma ClosedOnceAfterStore(c: Config, s: State, t: nat)
    requires Reachable(c, s) && Enabled(c, s, Close(t))
    ensures At(s, t).ch !in s.closed && At(s, t).ch < |s.makers| && s.makers[At(s, t).ch] == t &&
      At(s, t).name in s.status
    ensures !Apply(c, s, Close(t)).panicked
  {
    ReachableIsSafe(c, s);
    assert ThreadInv(c, s, t);
  }

  /** A waiter that is woken finds a status. */
  lemma WokenFindsStatus(c: Config, s: State, t: nat)
    requires Reachable(c, s) && (At(s, t).Woken? || Enabled(c, s, Wake(t)))
    ensures At(s, t).name in s.status
  {
    ReachableIsSafe(c, s);
    assert ThreadInv(c, s, t);
  }

  /** A waiter whose channel is still open waits for a goroutine that has a step to take towards
      closing it. */
  lemma NobodyWaitsInVain(c: Config, s: State, t: nat, found: Found)
    requires Reachable(c, s) && At(s, t).Waiting? && At(s, t).ch !in s.closed
    ensures At(s, t).ch < |s.makers|
    ensures var o := s.makers[At(s, t).ch];
      && o in s.threads && Owns(At(s, o)) && At(s, o).name == At(s, t).name && At(s, o).ch == At(s, t).ch
      && (Enabled(c, s, FetchEnds(o, found)) || Enabled(c, s, Store(o)) || Enabled(c, s, Clear(o)) ||
            Enabled(c, s, Close(o)))
  {
    ReachableIsSafe(c, s);
    assert ThreadInv(c, s, t);
  }

  /** A goroutine stops waiting only when its channel is closed or its own caller has hung up. */
  lemma WaitsUntil(c: Config, s: State, a: Action, t: nat)
    requires Enabled(c, s, a) && At(s, t).Waiting? && At(Apply(c, s, a), t) != At(s, t)
    ensures At(s, t).ch in s.closed || t in s.cancelled
    ensures At(s, t).ch !in s.closed ==> At(Apply(c, s, a), t).Finished?
  {
  }

  /** A name that is not configured never starts a fetch. */
  lemma OnlyConfiguredAreFetched(c: Config, s: State, name: string, t: nat)
    requires Reachable(c, s) && name !in c.endpoints
    ensures name !in s.fetches && name !in s.status
    ensures Enabled(c, s, Ask(t, name)) ==> At(Apply(c, s, Ask(t, name)), t).Finished?
  {
    ReachableIsSafe(c, s);
  }

  /** A goroutine that found the status stale starts a fetch nevertheless while the status is
      fresh if and only if, since it looked, a status of that endpoint has been stored that is
      still younger than the time to live. */
  lemma FetchesFreshIffStoredSince(c: Config, s: State, t: nat)
    requires Reachable(c, s) && At(s, t).Locking? && At(s, t).name !in s.inflight
    ensures var p := At(s, t);
      && Apply(c, s, Enter(t)).fetches == s.fetches + [p.name]
      && (Fresh(c, s, p.name) <==>
            exists k | p.mark <= k < |s.stores| ::
              s.stores[k].name == p.name && s.now - s.stores[k].status.checked < c.ttl)
  {
    ReachableIsSafe(c, s);
    var p := At(s, t);
    assert TimeInv(c, s, p);
    if Fresh(c, s, p.name) {
      assert IsStored(s, p.name);
      var k :| 0 <= k < |s.stores| && s.stores[k] == Stored(p.name, s.status[p.name]);
    }
  }

  // ---- callers that hang up ----

  /** The run's actions without the callers that hang up and the waiters that give up. */
  function Patient(actions: seq<Action>): seq<Action> {
    if actions == [] then []
    else
      var a := actions[|actions| - 1];
      Patient(actions[..|actions| - 1]) + if a.Hangup? || a.Cancel? then [] else [a]
  }

  /** The same to everybody: what is recorded, in flight, closed, fetched and stored, and where
      everybody stands but for waiters that have given up. */
  ghost predicate SameButGivenUp(s: State, r: State) {
    && r == s.(threads := r.threads, cancelled := {})
    && r.threads.Keys == s.threads.Keys
    && forall t | t in s.threads :: r.threads[t] == s.threads[t] || (s.threads[t].Finished? && r.threads[t].Waiting?)
  }

  lemma PatientMoves(c: Config, s: State, r: State, a: Action)
    requires a.Ask? || a.CheckFresh? || a.Wake? || a.FetchEnds? || a.Return? || a.Tick?
    requires SameButGivenUp(s, r) && Enabled(c, s, a)
    ensures Enabled(c, r, a) && SameButGivenUp(Apply(c, s, a), Apply(c, r, a))
  {
  }

  lemma PatientActs(c: Config, s: State, r: State, a: Action)
    requires a.Enter? || a.Store? || a.Clear? || a.Close?
    requires SameButGivenUp(s, r) && Enabled(c, s, a)
    ensures Enabled(c, r, a) && SameButGivenUp(Apply(c, s, a), Apply(c, r, a))
  {
    assert At(r, a.t) == At(s, a.t);
  }

  lemma PatientStep(c: Config, s: State, r: State, a: Action)
    requires SameButGivenUp(s, r) && Enabled(c, s, a)
    ensures if a.Hangup? || a.Cancel? then SameButGivenUp(Apply(c, s, a), r)
            else Enabled(c, r, a) && SameButGivenUp(Apply(c, s, a), Apply(c, r, a))
  {
    if !a.Hangup? && !a.Cancel? {
      hide SameButGivenUp, Enabled, Apply;
      if a.Enter? || a.Store? || a.Clear? || a.Close? { PatientActs(c, s, r, a); } else { PatientMoves(c, s, r, a); }
    }
  }

  /** Callers that hang up, the one that started the fetch among them, change nothing for anybody
      else: without all the hangups and the waiters giving up, the rest of any run is a run and
      ends with the same statuses, fetches, stores and channels. */
  lemma {:induction false} CancellationIsInvisible(c: Config, states: seq<State>, actions: seq<Action>, n: nat)
      returns (patient: seq<State>)
    requires IsRun(c, states, actions) && n < |states|
    ensures IsRun(c, patient, Patient(actions[..n])) && patient != []
    ensures SameButGivenUp(states[n], patient[|patient| - 1])
  {
    hide Enabled, Apply, SameButGivenUp;
    if n == 0 {
      patient := [EMPTY];
      assert SameButGivenUp(EMPTY, EMPTY) by { EmptyIsSame(); }
    } else {
      patient := CancellationIsInvisible(c, states, actions, n - 1);
      var a, r := actions[n - 1], patient[|patient| - 1];
      PatientStep(c, states[n - 1], r, a);
      assert actions[..n][..n - 1] == actions[..n - 1];
      if !(a.Hangup? || a.Cancel?) { patient := patient + [Apply(c, r, a)]; }
    }
  }

  lemma EmptyIsSame()
    ensures SameButGivenUp(EMPTY, EMPTY)
  {
  }

  // ---- what it does not promise ----

  const SLOW := Config({"e"}, 15)
  const UP := Found(true, "")

  lemma Extend(c: Config, states: seq<State>, actions: seq<Action>, s: State, a: Action)
      returns (states2: seq<State>, actions2: seq<Action>, s2: State)
    requires IsRun(c, states, actions) && states != [] && states[|states| - 1] == s && Enabled(c, s, a)
    ensures IsRun(c, states2, actions2) && states2 != [] && states2[|states2| - 1] == s2 && s2 == Apply(c, s, a)
  {
    s2 := Apply(c, s, a);
    states2, actions2 := states + [s2], actions + [a];
  }

  lemma Start(c: Config) returns (states: seq<State>, actions: seq<Action>)
    ensures IsRun(c, states, actions) && states != [] && states[|states| - 1] == EMPTY
  {
    states, actions := [EMPTY], [];
  }

  /** Two goroutines have found the endpoint stale and the first is fetching it. */
  const BOTH_FOUND_IT_STALE :=
    State(map[], map["e" := 0], {}, [0], map[0 := Fetching("e", 0), 1 := Locking("e", 0)], ["e"], [], {}, 0, false)

  lemma BothFindItStale() returns (states: seq<State>, actions: seq<Action>)
    ensures IsRun(SLOW, states, actions) && states != [] && states[|states| - 1] == BOTH_FOUND_IT_STALE
  {
    hide IsRun;
    var s := EMPTY;
    states, actions := Start(SLOW);
    states, actions, s := Extend(SLOW, states, actions, s, Ask(0, "e"));
    states, actions, s := Extend(SLOW, states, actions, s, Ask(1, "e"));
    states, actions, s := Extend(SLOW, states, actions, s, CheckFresh(0));
    states, actions, s := Extend(SLOW, states, actions, s, CheckFresh(1));
    states, actions, s := Extend(SLOW, states, actions, s, Enter(0));
    assert s.threads == BOTH_FOUND_IT_STALE.threads;
  }

  /** The first one has stored what it found. */
  const FIRST_FETCH_DONE :=
    State(map["e" := Status(UP, 0)], map[], {0}, [0], map[0 := Finished, 1 := Locking("e", 0)], ["e"],
          [Stored("e", Status(UP, 0))], {}, 0, false)

  lemma FirstFetchEnds() returns (states: seq<State>, actions: seq<Action>)
    ensures IsRun(SLOW, states, actions) && states != [] && states[|states| - 1] == FIRST_FETCH_DONE
  {
    hide IsRun;
    var s := BOTH_FOUND_IT_STALE;
    states, actions := BothFindItStale();
    states, actions, s := Extend(SLOW, states, actions, s, FetchEnds(0, UP));
    states, actions, s := Extend(SLOW, states, actions, s, Store(0));
    states, actions, s := Extend(SLOW, states, actions, s, Clear(0));
    states, actions, s := Extend(SLOW, states, actions, s, Close(0));
    assert s.threads == FIRST_FETCH_DONE.threads && s.inflight == map[];
  }

  /** Freshness and the fetch are checked in separate steps, so an endpoint can be fetched again
      while its status is fresh: both goroutines found it stale before the first one fetched. */
  lemma FetchedAgainWhileFresh() returns (states: seq<State>, actions: seq<Action>)
    ensures IsRun(SLOW, states, actions) && states != []
    ensures var s := states[|states| - 1];
      s.fetches == ["e", "e"] && Fresh(SLOW, s, "e") && At(s, 1).Fetching?
  {
    hide IsRun;
    var s := FIRST_FETCH_DONE;
    states, actions := FirstFetchEnds();
    states, actions, s := Extend(SLOW, states, actions, s, Enter(1));
  }
}
