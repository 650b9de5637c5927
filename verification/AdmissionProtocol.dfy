/** The lock protocol of a managed-server manager, as a step system.

    Every critical section under the manager's lock, every channel close and
    every atomic store made outside the lock is one step of one goroutine, so a
    run is any interleaving of Acquire calls, releases, evictions, idle sweeps,
    explicit stops, health-check outcomes and process exits.

    Channels are numbered in the order they are made. A close of a channel that
    is already closed would panic in the program; here it sets `panicked`. */
module AdmissionProtocol {
  import opened Budget

  datatype Config = Config(limits: Limits, estimate: map<Alias, int>, idleTimeout: int)

  /** One call of leaseLocked that has not been undone: on which instance, by which goroutine. */
  datatype Handle = Handle(inst: nat, owner: nat)

  datatype Resume = Nobody | Requester(alias: Alias)

  /** Where a goroutine stands between two steps. */
  datatype Point =
    | Top(alias: Alias)                             // head of Acquire's loop
    | Deadline(alias: Alias)                        // about to check the admission deadline
    | WaitReady(alias: Alias, inst: nat)            // waiting out somebody else's launch
    | DropFailed(alias: Alias, inst: nat)           // saw that launch fail, about to lock
    | WaitIdle(alias: Alias, signal: nat)           // waiting for capacity
    | Stopping(queue: seq<Alias>, mark: nat, resume: Resume)  // StopInstance calls still to make
    | Polling(alias: Alias, inst: nat, handle: nat) // owner of a launch: health check running
    | FailRemove(alias: Alias, inst: nat, handle: nat)
    | FailClose(alias: Alias, inst: nat, handle: nat)
    | FailRelease(alias: Alias, inst: nat, handle: nat)
    | Publish(alias: Alias, inst: nat, handle: nat)
    | PublishClose(alias: Alias, inst: nat, handle: nat)
    | Holding(alias: Alias, inst: nat, handle: nat) // Acquire returned this lease
    | Finished

  datatype State = State(
    slots: map<Alias, nat>,     // alias -> instance, the map guarded by the lock
    insts: seq<Inst>,           // every instance ever launched
    live: map<nat, Handle>,     // leases not yet released
    nextHandle: nat,
    idle: nat,                  // the current idleSignal
    closed: set<nat>,           // the idleSignals already closed
    threads: map<nat, Point>,
    now: int,
    panicked: bool)

  datatype Action =
    | Spawn(t: nat, alias: Alias)
    | GiveUp(t: nat)
    | Reuse(t: nat)
    | DropDead(t: nat)
    | AwaitOther(t: nat)
    | SeeFailure(t: nat)
    | LeaveReadyWait(t: nat)
    | DropAfterFailure(t: nat)
    | Retry(t: nat)
    | Evict(t: nat, victim: Alias)
    | Sleep(t: nat)
    | LeaveIdleWait(t: nat)
    | LaunchError(t: nat)
    | Launch(t: nat)
    | HealthFail(t: nat)
    | HealthOk(t: nat)
    | RemoveFailed(t: nat)
    | CloseFailed(t: nat)
    | ReleaseFailed(t: nat)
    | StoreHealthy(t: nat)
    | CloseHealthy(t: nat)
    | Release(t: nat)
    | Reap(t: nat, queue: seq<Alias>)
    | StopRequest(t: nat, alias: Alias)
    | StopNext(t: nat)
    | StopDone(t: nat)
    | Exit(inst: nat)
    | Tick(later: int)

  ghost predicate ValidConfig(c: Config) {
    && "" !in c.estimate
    && forall a | a in c.estimate :: c.estimate[a] >= 0
  }

  function Init(now: int): State {
    State(map[], [], map[], 0, 0, {}, map[], now, false)
  }

  ghost function View(s: State): Tracked {
    map a | a in s.slots && s.slots[a] < |s.insts| :: s.insts[s.slots[a]]
  }

  // ---- the pieces the steps are made of ----

  function At(s: State, t: nat): Point {
    if t in s.threads then s.threads[t] else Finished
  }

  function Go(s: State, t: nat, p: Point): State {
    s.(threads := s.threads[t := p])
  }

  function Signal(s: State): State {
    s.(panicked := s.panicked || s.idle in s.closed, closed := s.closed + {s.idle}, idle := s.idle + 1)
  }

  function Drop(s: State, alias: Alias, i: nat): State {
    if alias in s.slots && s.slots[alias] == i then Signal(s.(slots := s.slots - {alias})) else s
  }

  function Lease(s: State, i: nat, t: nat): State
    requires i < |s.insts|
  {
    var inst := s.insts[i];
    s.(insts := s.insts[i := inst.(leases := inst.leases + 1, lastUsed := s.now)],
       live := s.live[s.nextHandle := Handle(i, t)], nextHandle := s.nextHandle + 1)
  }

  function ReleaseHandle(s: State, h: nat): State
    requires h in s.live ==> s.live[h].inst < |s.insts|
  {
    if h !in s.live then s
    else
      var i := s.live[h].inst;
      var inst := s.insts[i];
      var left := if inst.leases > 0 then inst.leases - 1 else inst.leases;
      var s1 := s.(insts := s.insts[i := inst.(leases := left, lastUsed := s.now)], live := s.live - {h});
      if left == 0 then Signal(s1) else s1
  }

  function CloseReady(s: State, i: nat): State
    requires i < |s.insts|
  {
    s.(panicked := s.panicked || s.insts[i].ready, insts := s.insts[i := s.insts[i].(ready := true)])
  }

  function AddInstance(s: State, t: nat, alias: Alias, need: int): State {
    s.(slots := s.slots[alias := |s.insts|],
       insts := s.insts + [Inst(alias, t, need, false, false, false, 0, s.now)])
  }

  function Launched(c: Config, s: State, t: nat): State
    requires At(s, t).Top? && At(s, t).alias in c.estimate
  {
    Lease(AddInstance(s, t, At(s, t).alias, c.estimate[At(s, t).alias]), |s.insts|, t)
  }

  function StoreHealth(s: State, i: nat): State
    requires i < |s.insts|
  {
    s.(insts := s.insts[i := s.insts[i].(healthy := true)])
  }

  // ---- steps ----

  ghost predicate SlotFree(c: Config, s: State, t: nat) {
    At(s, t).Top? && At(s, t).alias !in s.slots && At(s, t).alias in c.estimate
  }

  ghost predicate SlotTaken(s: State, t: nat) {
    At(s, t).Top? && At(s, t).alias in s.slots && s.slots[At(s, t).alias] < |s.insts|
  }

  ghost predicate FitsNow(c: Config, s: State, t: nat)
    requires SlotFree(c, s, t)
  {
    var alias := At(s, t).alias;
    Fits(c.limits, View(s), alias, c.estimate[alias])
  }

  ghost predicate IdleLongEnough(c: Config, s: State, a: Alias) {
    a in View(s) && View(s)[a].leases == 0 && !View(s)[a].exited && s.now - View(s)[a].lastUsed >= c.idleTimeout
  }

  ghost predicate Enabled(c: Config, s: State, a: Action) {
    match a
    case Spawn(t, alias) =>
      t !in s.threads && alias in c.estimate && !(c.limits.maxMemory > 0 && c.estimate[alias] > c.limits.maxMemory)
    case GiveUp(t) => At(s, t).Top? || At(s, t).Deadline?
    case Reuse(t) =>
      SlotTaken(s, t) && !s.insts[s.slots[At(s, t).alias]].exited && s.insts[s.slots[At(s, t).alias]].healthy
    case DropDead(t) => SlotTaken(s, t) && s.insts[s.slots[At(s, t).alias]].exited
    case AwaitOther(t) =>
      SlotTaken(s, t) && !s.insts[s.slots[At(s, t).alias]].exited && !s.insts[s.slots[At(s, t).alias]].healthy
    case SeeFailure(t) =>
      && At(s, t).WaitReady? && At(s, t).inst < |s.insts|
      && s.insts[At(s, t).inst].ready && (!s.insts[At(s, t).inst].healthy || s.insts[At(s, t).inst].exited)
    case LeaveReadyWait(t) => At(s, t).WaitReady?
    case DropAfterFailure(t) => At(s, t).DropFailed?
    case Retry(t) => At(s, t).Deadline?
    case Evict(t, victim) =>
      SlotFree(c, s, t) && !FitsNow(c, s, t) && IsVictim(View(s), At(s, t).alias, victim)
    case Sleep(t) =>
      SlotFree(c, s, t) && !FitsNow(c, s, t) && forall v :: !Evictable(View(s), At(s, t).alias, v)
    case LeaveIdleWait(t) => At(s, t).WaitIdle?
    case LaunchError(t) => SlotFree(c, s, t) && FitsNow(c, s, t)
    case Launch(t) => SlotFree(c, s, t) && FitsNow(c, s, t)
    case HealthFail(t) => At(s, t).Polling?
    case HealthOk(t) => At(s, t).Polling? && At(s, t).inst < |s.insts| && !s.insts[At(s, t).inst].exited
    case RemoveFailed(t) => At(s, t).FailRemove?
    case CloseFailed(t) => At(s, t).FailClose? && At(s, t).inst < |s.insts|
    case ReleaseFailed(t) => At(s, t).FailRelease? && Releasable(s, At(s, t).handle)
    case StoreHealthy(t) => At(s, t).Publish? && At(s, t).inst < |s.insts|
    case CloseHealthy(t) => At(s, t).PublishClose? && At(s, t).inst < |s.insts|
    case Release(t) => At(s, t).Holding? && Releasable(s, At(s, t).handle)
    case Reap(t, queue) =>
      && t !in s.threads && c.idleTimeout > 0
      && forall a :: a in queue <==> IdleLongEnough(c, s, a)
    case StopRequest(t, alias) => t !in s.threads
    case StopNext(t) =>
      && At(s, t).Stopping? && At(s, t).queue != []
    case StopDone(t) => At(s, t).Stopping? && At(s, t).queue == []
    case Exit(i) => i < |s.insts|
    case Tick(later) => s.now <= later
  }

  ghost predicate Releasable(s: State, h: nat) {
    h in s.live ==> s.live[h].inst < |s.insts|
  }

  ghost function Apply(c: Config, s: State, a: Action): State
    requires Enabled(c, s, a)
  {
    match a
    case Spawn(t, alias) => Go(s, t, Top(alias))
    case GiveUp(t) => Go(s, t, Finished)
    case Reuse(t) =>
      var alias := At(s, t).alias;
      Go(Lease(s, s.slots[alias], t), t, Holding(alias, s.slots[alias], s.nextHandle))
    case DropDead(t) =>
      var alias := At(s, t).alias;
      Go(Drop(s, alias, s.slots[alias]), t, Deadline(alias))
    case AwaitOther(t) => Go(s, t, WaitReady(At(s, t).alias, s.slots[At(s, t).alias]))
    case SeeFailure(t) => Go(s, t, DropFailed(At(s, t).alias, At(s, t).inst))
    case LeaveReadyWait(t) => Go(s, t, Deadline(At(s, t).alias))
    case DropAfterFailure(t) => Go(Drop(s, At(s, t).alias, At(s, t).inst), t, Deadline(At(s, t).alias))
    case Retry(t) => Go(s, t, Top(At(s, t).alias))
    case Evict(t, victim) => Go(s, t, Stopping([victim], s.nextHandle, Requester(At(s, t).alias)))
    case Sleep(t) => Go(s, t, WaitIdle(At(s, t).alias, s.idle))
    case LeaveIdleWait(t) => Go(s, t, Deadline(At(s, t).alias))
    case LaunchError(t) => Go(s, t, Finished)
    case Launch(t) =>
      Go(Launched(c, s, t), t, Polling(At(s, t).alias, |s.insts|, s.nextHandle))
    case HealthFail(t) => Go(s, t, FailRemove(At(s, t).alias, At(s, t).inst, At(s, t).handle))
    case HealthOk(t) => Go(s, t, Publish(At(s, t).alias, At(s, t).inst, At(s, t).handle))
    case RemoveFailed(t) =>
      Go(Drop(s, At(s, t).alias, At(s, t).inst), t, FailClose(At(s, t).alias, At(s, t).inst, At(s, t).handle))
    case CloseFailed(t) =>
      Go(CloseReady(s, At(s, t).inst), t, FailRelease(At(s, t).alias, At(s, t).inst, At(s, t).handle))
    case ReleaseFailed(t) => Go(ReleaseHandle(s, At(s, t).handle), t, Finished)
    case StoreHealthy(t) =>
      Go(StoreHealth(s, At(s, t).inst), t, PublishClose(At(s, t).alias, At(s, t).inst, At(s, t).handle))
    case CloseHealthy(t) =>
      Go(CloseReady(s, At(s, t).inst), t, Holding(At(s, t).alias, At(s, t).inst, At(s, t).handle))
    case Release(t) => ReleaseHandle(s, At(s, t).handle)
    case Reap(t, queue) => Go(s, t, Stopping(queue, s.nextHandle, Nobody))
    case StopRequest(t, alias) => Go(s, t, Stopping([alias], 0, Nobody))
    case StopNext(t) =>
      var p := At(s, t);
      var s1 := if p.queue[0] in s.slots then Drop(s, p.queue[0], s.slots[p.queue[0]]) else s;
      Go(s1, t, Stopping(p.queue[1..], p.mark, p.resume))
    case StopDone(t) =>
      Go(s, t, if At(s, t).resume.Nobody? then Finished else Deadline(At(s, t).resume.alias))
    case Exit(i) => s.(insts := s.insts[i := s.insts[i].(exited := true)])
    case Tick(later) => s.(now := later)
  }

  // ---- the invariant ----

  ghost function HandlesOf(live: map<nat, Handle>, i: nat): set<nat> {
    set h | h in live && live[h].inst == i
  }

  ghost predicate InstancesOk(c: Config, s: State) {
    && (forall a | a in s.slots :: s.slots[a] < |s.insts| && s.insts[s.slots[a]].alias == a)
    && (forall i | 0 <= i < |s.insts| ::
          s.insts[i].alias in c.estimate && s.insts[i].memory == c.estimate[s.insts[i].alias])
    && (forall h | h in s.live :: h < s.nextHandle && s.live[h].inst < |s.insts|)
  }

  /** Every lease counter is exactly the number of unreleased handles on its instance. */
  ghost predicate LeasesConserved(s: State) {
    forall i | 0 <= i < |s.insts| :: s.insts[i].leases == |HandlesOf(s.live, i)|
  }

  /** The idleSignals closed so far are exactly the earlier ones, and nothing was closed twice. */
  ghost predicate SignalsOk(s: State) {
    && !s.panicked
    && (forall ch | ch in s.closed :: ch < s.idle)
  }

  ghost predicate HasLease(s: State, t: nat, p: Point)
    requires p.Polling? || p.FailRemove? || p.FailClose? || p.FailRelease? || p.Publish? || p.PublishClose?
  {
    p.handle in s.live && s.live[p.handle] == Handle(p.inst, t)
  }

  ghost predicate OwnsLaunch(p: Point) {
    p.Polling? || p.FailRemove? || p.FailClose? || p.Publish? || p.PublishClose?
  }

  /** What is known about a goroutine from where it stands. */
  ghost predicate PointOk(c: Config, s: State, t: nat, p: Point) {
    match p
    case Top(alias) => alias in c.estimate
    case Deadline(alias) => alias in c.estimate
    case WaitReady(alias, i) => alias in c.estimate && i < |s.insts|
    case DropFailed(alias, i) =>
      && alias in c.estimate && i < |s.insts|
      && s.insts[i].ready && (!s.insts[i].healthy || s.insts[i].exited)
    case WaitIdle(alias, ch) => alias in c.estimate && (ch in s.closed || ch == s.idle)
    case Stopping(queue, mark, resume) =>
      && mark <= s.nextHandle
      && (resume.Requester? ==> resume.alias in c.estimate)
    case Holding(alias, i, h) =>
      && i < |s.insts| && s.insts[i].healthy && h < s.nextHandle
      && (h in s.live ==> s.live[h] == Handle(i, t))
    case FailRelease(alias, i, h) => i < |s.insts| && HasLease(s, t, p) && s.insts[i].ready
    case Finished => true
    case _ =>
      && p.inst < |s.insts| && HasLease(s, t, p)
      && s.insts[p.inst].launcher == t && !s.insts[p.inst].ready
      && (s.insts[p.inst].healthy <==> p.PublishClose?)
      && (p.FailClose? ==> p.alias !in s.slots || s.slots[p.alias] != p.inst)
      && s.insts[p.inst].alias == p.alias
  }

  ghost predicate PointsOk(c: Config, s: State) {
    forall t | t in s.threads :: PointOk(c, s, t, s.threads[t])
  }

  /** A launch not yet resolved is owned by the goroutine that started it; a
      resolved one is healthy or out of its slot. */
  ghost predicate LaunchOwned(s: State) {
    forall i | 0 <= i < |s.insts| ::
      if !s.insts[i].ready then
        && s.insts[i].launcher in s.threads
        && OwnsLaunch(s.threads[s.insts[i].launcher])
        && s.threads[s.insts[i].launcher].inst == i
      else
        s.insts[i].healthy || s.insts[i].alias !in s.slots || s.slots[s.insts[i].alias] != i
  }

  /** A goroutine sleeping on a signal not yet closed: nothing it could evict exists,
      and even counting exited instances the budget is spent. */
  ghost predicate SleepOk(c: Config, s: State, alias: Alias) {
    && (forall v :: !Evictable(View(s), alias, v))
    && (alias in c.estimate ==> !RoomFor(c.limits, Occupied(View(s), alias), c.estimate[alias]))
  }

  ghost predicate SleepersOk(c: Config, s: State) {
    forall t | t in s.threads && s.threads[t].WaitIdle? && s.threads[t].signal !in s.closed ::
      SleepOk(c, s, s.threads[t].alias)
  }

  /** Whatever sits in a slot chosen for eviction has only leases taken after the choice. */
  ghost predicate YoungLeases(s: State, queue: seq<Alias>, mark: nat) {
    forall a, h | a in queue && a in s.slots && h in s.live && s.live[h].inst == s.slots[a] :: mark <= h
  }

  ghost predicate StoppersOk(s: State) {
    forall t | t in s.threads && s.threads[t].Stopping? :: YoungLeases(s, s.threads[t].queue, s.threads[t].mark)
  }

  ghost predicate Inv(c: Config, s: State) {
    && InstancesOk(c, s)
    && LeasesConserved(s)
    && SignalsOk(s)
    && PointsOk(c, s)
    && LaunchOwned(s)
    && SleepersOk(c, s)
    && StoppersOk(s)
    && Within(c.limits, View(s))
  }
}
