/** What the lock protocol guarantees over whole runs, and where it falls short
    of what its comments say. */
module AdmissionRuns {
  import opened Common
  import opened Budget
  import opened AdmissionProtocol
  import opened AdmissionSafety

  /** The state after these steps, or None when one of them could not happen. */
  ghost function Run(c: Config, now: int, steps: seq<Action>): Option<State> {
    if steps == [] then Some(Init(now))
    else
      match Run(c, now, steps[..|steps| - 1])
      case None => None
      case Some(s) => if Enabled(c, s, steps[|steps| - 1]) then Some(Apply(c, s, steps[|steps| - 1])) else None
  }

  ghost predicate IsRun(c: Config, now: int, steps: seq<Action>, s: State) {
    Run(c, now, steps) == Some(s)
  }

  ghost predicate Reachable(c: Config, s: State) {
    ValidConfig(c) && exists now, steps :: IsRun(c, now, steps, s)
  }

  /** Every state of every interleaving satisfies the invariant. */
  lemma {:induction false} RunKeepsInvariant(c: Config, now: int, steps: seq<Action>, s: State)
    requires ValidConfig(c) && IsRun(c, now, steps, s)
    ensures Inv(c, s)
    decreases |steps|
  {
    if steps == [] {
      assert Alive(View(s)) == map[];
    } else {
      var n := |steps| - 1;
      RunKeepsInvariant(c, now, steps[..n], Run(c, now, steps[..n]).value);
      StepKeeps(c, Run(c, now, steps[..n]).value, steps[n]);
    }
  }

  lemma ReachableIsSafe(c: Config, s: State)
    requires Reachable(c, s)
    ensures Inv(c, s)
  {
    var now, steps :| IsRun(c, now, steps, s);
    RunKeepsInvariant(c, now, steps, s);
  }

  lemma ReachNext(c: Config, s: State, a: Action)
    requires Reachable(c, s) && Enabled(c, s, a)
    ensures Reachable(c, Apply(c, s, a))
  {
    var now, steps :| IsRun(c, now, steps, s);
    assert (steps + [a])[..|steps|] == steps;
    assert IsRun(c, now, steps + [a], Apply(c, s, a));
  }

  /** A goroutine asleep on an open signal never coexists with an instance it could evict,
      and the signal it sleeps on is the one the next release or removal will close. */
  lemma NoLostWakeup(c: Config, s: State, t: nat)
    requires Reachable(c, s)
    requires t in s.threads && s.threads[t].WaitIdle? && s.threads[t].signal !in s.closed
    ensures s.threads[t].signal == s.idle
    ensures forall a | a in s.slots && a != s.threads[t].alias ::
              s.slots[a] < |s.insts| && (s.insts[s.slots[a]].exited || s.insts[s.slots[a]].leases > 0)
  {
    ReachableIsSafe(c, s);
    assert PointOk(c, s, t, s.threads[t]);
    forall a | a in s.slots && a != s.threads[t].alias
      ensures s.insts[s.slots[a]].exited || s.insts[s.slots[a]].leases > 0
    {
      assert !Evictable(View(s), s.threads[t].alias, a);
    }
  }

  /** No channel is closed twice, in any interleaving. */
  lemma NoDoubleClose(c: Config, s: State)
    requires Reachable(c, s)
    ensures !s.panicked && s.idle !in s.closed
  {
    ReachableIsSafe(c, s);
  }

  /** A ready channel is open whenever its launcher is about to close it. */
  lemma ReadyClosedOnce(c: Config, s: State, t: nat)
    requires Reachable(c, s) && (Enabled(c, s, CloseFailed(t)) || Enabled(c, s, CloseHealthy(t)))
    ensures At(s, t).inst < |s.insts| && !s.insts[At(s, t).inst].ready
  {
    ReachableIsSafe(c, s);
    assert PointOk(c, s, t, At(s, t));
  }

  /** A lease counter is the number of unreleased handles, so a release of a live
      handle always finds it positive. */
  lemma LeasesAreHandles(c: Config, s: State, i: nat)
    requires Reachable(c, s) && i < |s.insts|
    ensures s.insts[i].leases == |HandlesOf(s.live, i)|
    ensures forall h | h in s.live && s.live[h].inst == i :: s.insts[i].leases > 0
  {
    ReachableIsSafe(c, s);
    forall h | h in s.live && s.live[h].inst == i ensures s.insts[i].leases > 0 {
      assert h in HandlesOf(s.live, i);
    }
  }

  /** An instance still starting up carries its launcher's lease, so it is never a victim. */
  lemma StartingIsNeverVictim(c: Config, s: State, a: Alias, requester: Alias)
    requires Reachable(c, s) && a in s.slots
    ensures s.slots[a] < |s.insts|
    ensures !s.insts[s.slots[a]].healthy ==>
              && s.insts[s.slots[a]].leases > 0
              && s.insts[s.slots[a]].launcher in s.threads
              && OwnsLaunch(s.threads[s.insts[s.slots[a]].launcher])
              && !Evictable(View(s), requester, a)
  {
    ReachableIsSafe(c, s);
    var i := s.slots[a];
    if !s.insts[i].healthy {
      var t := s.insts[i].launcher;
      assert PointOk(c, s, t, s.threads[t]);
      assert s.threads[t].handle in HandlesOf(s.live, i);
    }
  }

  /** Once `ready` is closed its instance is healthy or has left its slot. */
  lemma ReadyMeansResolved(c: Config, s: State, i: nat)
    requires Reachable(c, s) && i < |s.insts| && s.insts[i].ready
    ensures s.insts[i].healthy || forall a | a in s.slots :: s.slots[a] != i
  {
    ReachableIsSafe(c, s);
  }

  /** A caller that Acquire gave a lease to got a healthy instance, and as long as it keeps
      the lease the instance is not selected for eviction. */
  lemma HeldIsHealthyAndNotSelected(c: Config, s: State, t: nat, requester: Alias)
    requires Reachable(c, s) && t in s.threads && s.threads[t].Holding?
    ensures s.threads[t].inst < |s.insts| && s.insts[s.threads[t].inst].healthy
    ensures s.threads[t].handle in s.live ==>
              forall a | a in s.slots && s.slots[a] == s.threads[t].inst :: !Evictable(View(s), requester, a)
  {
    ReachableIsSafe(c, s);
    var p := s.threads[t];
    assert PointOk(c, s, t, p);
    if p.handle in s.live {
      assert p.handle in HandlesOf(s.live, p.inst);
    }
  }

  /** The tracked instances whose process runs never exceed either cap. */
  lemma BudgetSafety(c: Config, s: State)
    requires Reachable(c, s)
    ensures c.limits.maxLoaded > 0 ==> |Alive(View(s))| <= c.limits.maxLoaded
    ensures c.limits.maxMemory > 0 ==> Total(Alive(View(s)), Bytes) <= c.limits.maxMemory
    ensures forall a | a in s.slots ::
              && s.slots[a] < |s.insts| && a in c.estimate
              && (!s.insts[s.slots[a]].exited ==> a in Alive(View(s)) && Alive(View(s))[a] == c.estimate[a])
  {
    ReachableIsSafe(c, s);
    TotalSlots(Alive(View(s)));
  }

  /** Who may empty a slot: its own launch failing, somebody who found it exited, or StopInstance. */
  ghost predicate MayEmpty(s: State, a: Action, alias: Alias)
    requires alias in s.slots
  {
    || (a.StopNext? && At(s, a.t).Stopping? && At(s, a.t).queue != [] && At(s, a.t).queue[0] == alias)
    || (a.RemoveFailed? && At(s, a.t).FailRemove? && At(s, a.t).alias == alias && At(s, a.t).inst == s.slots[alias])
    || (a.DropDead? && At(s, a.t) == Top(alias) && s.slots[alias] < |s.insts| && s.insts[s.slots[alias]].exited)
    || (a.DropAfterFailure? && At(s, a.t) == DropFailed(alias, s.slots[alias]) && s.slots[alias] < |s.insts| &&
          s.insts[s.slots[alias]].exited)
  }

  /** Steps that may fill or empty a slot. */
  predicate TouchesSlots(a: Action) {
    a.StopNext? || a.RemoveFailed? || a.DropDead? || a.DropAfterFailure? || a.Launch?
  }

  predicate TouchesLeases(a: Action) {
    a.Reuse? || a.Release? || a.ReleaseFailed?
  }

  /** Steps that lease, release or set a flag of an instance. */
  predicate TouchesInstance(a: Action) {
    TouchesLeases(a) || a.CloseFailed? || a.CloseHealthy? || a.StoreHealthy? || a.Exit?
  }

  lemma MovesLeaveSlots(c: Config, s: State, a: Action)
    requires Enabled(c, s, a) && !TouchesSlots(a) && !TouchesInstance(a)
    ensures Apply(c, s, a).slots == s.slots
  {
    hide Fits, Evictable, IsVictim, View;
  }

  lemma LeasesLeaveSlots(c: Config, s: State, a: Action)
    requires Enabled(c, s, a) && TouchesLeases(a)
    ensures Apply(c, s, a).slots == s.slots
  {
  }

  lemma FlagsLeaveSlots(c: Config, s: State, a: Action)
    requires Enabled(c, s, a) && TouchesInstance(a) && !TouchesLeases(a)
    ensures Apply(c, s, a).slots == s.slots
  {
  }

  lemma OccupantStopped(c: Config, s: State, t: nat, alias: Alias)
    requires Enabled(c, s, StopNext(t)) && alias in s.slots
    ensures var s1 := Apply(c, s, StopNext(t));
      if alias in s1.slots then s1.slots[alias] == s.slots[alias] else MayEmpty(s, StopNext(t), alias)
  {
  }

  lemma OccupantDropped(c: Config, s: State, a: Action, alias: Alias)
    requires InstancesOk(c, s) && Enabled(c, s, a) && alias in s.slots
    requires a.DropDead? || a.DropAfterFailure? || a.RemoveFailed?
    requires LaunchOwned(s) && PointOk(c, s, a.t, At(s, a.t))
    ensures var s1 := Apply(c, s, a);
      if alias in s1.slots then s1.slots[alias] == s.slots[alias] else MayEmpty(s, a, alias)
  {
  }

  lemma OccupantBesideLaunch(c: Config, s: State, t: nat, alias: Alias)
    requires Enabled(c, s, Launch(t)) && alias in s.slots
    ensures alias in Apply(c, s, Launch(t)).slots && Apply(c, s, Launch(t)).slots[alias] == s.slots[alias]
  {
    hide FitsNow;
  }

  lemma OccupantStep(c: Config, s: State, a: Action, alias: Alias)
    requires InstancesOk(c, s) && LaunchOwned(s) && Enabled(c, s, a) && alias in s.slots
    requires TouchesSlots(a) && PointOk(c, s, a.t, At(s, a.t))
    ensures var s1 := Apply(c, s, a);
      if alias in s1.slots then s1.slots[alias] == s.slots[alias] else MayEmpty(s, a, alias)
  {
    hide InstancesOk, LaunchOwned, Enabled, Apply, PointOk, MayEmpty;
    if a.StopNext? {
      OccupantStopped(c, s, a.t, alias);
    } else if a.Launch? {
      OccupantBesideLaunch(c, s, a.t, alias);
    } else {
      OccupantDropped(c, s, a, alias);
    }
  }

  /** Nobody else ever empties a slot, and nobody replaces its occupant in place: a late
      launcher or waiter cannot remove the instance that took over its slot. */
  lemma OnlyOwnOccupantRemoved(c: Config, s: State, a: Action, alias: Alias)
    requires Reachable(c, s) && Enabled(c, s, a) && alias in s.slots
    ensures alias in Apply(c, s, a).slots ==> Apply(c, s, a).slots[alias] == s.slots[alias]
    ensures alias !in Apply(c, s, a).slots ==> MayEmpty(s, a, alias)
  {
    hide Reachable, Inv, Enabled, Apply, MayEmpty;
    if TouchesSlots(a) {
      KnownOfMover(c, s, a);
      OccupantStep(c, s, a, alias);
    } else if TouchesLeases(a) {
      LeasesLeaveSlots(c, s, a);
    } else if TouchesInstance(a) {
      FlagsLeaveSlots(c, s, a);
    } else {
      MovesLeaveSlots(c, s, a);
    }
  }

  lemma KnownOfMover(c: Config, s: State, a: Action)
    requires Reachable(c, s) && Enabled(c, s, a) && TouchesSlots(a)
    ensures InstancesOk(c, s) && LaunchOwned(s) && PointOk(c, s, a.t, At(s, a.t))
  {
    hide Reachable, InstancesOk, LaunchOwned, PointOk, FitsNow;
    ReachableIsSafe(c, s);
  }

  /** A tracked instance of another alias that nobody leases and whose process runs. */
  predicate IdleFor(s: State, requester: Alias, a: Alias) {
    && a in s.slots && a != requester && s.slots[a] < |s.insts|
    && s.insts[s.slots[a]].leases <= 0 && !s.insts[s.slots[a]].exited
  }

  lemma IdleIsEvictable(s: State, requester: Alias, a: Alias)
    ensures IdleFor(s, requester, a) <==> Evictable(View(s), requester, a)
    ensures IdleFor(s, requester, a) ==> View(s)[a] == s.insts[s.slots[a]]
  {
  }

  /** Launching the model of goroutine t beside all other running tracked instances breaks a cap. */
  ghost predicate BreaksACap(c: Config, s: State, alias: Alias)
    requires alias in c.estimate
  {
    var others := Alive(View(s) - {alias});
    || (c.limits.maxLoaded > 0 && |others| + 1 > c.limits.maxLoaded)
    || (c.limits.maxMemory > 0 && Total(others, Bytes) + c.estimate[alias] > c.limits.maxMemory)
  }

  lemma NoRoomBreaksACap(c: Config, s: State, alias: Alias)
    requires alias in c.estimate && !Fits(c.limits, View(s), alias, c.estimate[alias])
    ensures BreaksACap(c, s, alias)
  {
    assert Others(View(s), alias) == Alive(View(s) - {alias});
    TotalSlots(Alive(View(s) - {alias}));
  }

  /** A goroutine evicts or sleeps only at the head of its loop, with its slot free, and only when
      launching its model beside all other running tracked instances would break a cap. */
  lemma EvictsOnlyForRoom(c: Config, s: State, t: nat, victim: Alias)
    requires Enabled(c, s, Evict(t, victim)) || Enabled(c, s, Sleep(t))
    ensures At(s, t).Top? && At(s, t).alias !in s.slots && At(s, t).alias in c.estimate &&
      BreaksACap(c, s, At(s, t).alias)
  {
    hide View, Fits, BreaksACap, Evictable;
    NoRoomBreaksACap(c, s, At(s, t).alias);
  }

  /** What it evicts is idle, and no idle instance has been unused for longer; it sleeps only when
      there is none. */
  lemma EvictsOldestIdle(c: Config, s: State, t: nat, victim: Alias)
    ensures Enabled(c, s, Evict(t, victim)) ==>
      IdleFor(s, At(s, t).alias, victim)
      && forall a | IdleFor(s, At(s, t).alias, a) :: s.insts[s.slots[victim]].lastUsed <= s.insts[s.slots[a]].lastUsed
    ensures Enabled(c, s, Sleep(t)) ==> forall a :: !IdleFor(s, At(s, t).alias, a)
  {
    if At(s, t).Top? {
      var requester := At(s, t).alias;
      forall a
        ensures IdleFor(s, requester, a) <==> Evictable(View(s), requester, a)
        ensures IdleFor(s, requester, a) ==> View(s)[a] == s.insts[s.slots[a]]
      {
        IdleIsEvictable(s, requester, a);
      }
      hide View, Fits, Evictable;
    }
  }

  /** A sweep stops exactly the tracked instances that nobody leases, whose process runs, and that
      have been unused for at least the idle timeout, if there is one. */
  lemma SweepsIdle(c: Config, s: State, t: nat, queue: seq<Alias>, a: Alias)
    requires Reachable(c, s) && Enabled(c, s, Reap(t, queue))
    ensures c.idleTimeout > 0
    ensures a in queue <==>
      a in s.slots && s.slots[a] < |s.insts|
      && var i := s.insts[s.slots[a]];
        i.leases == 0 && !i.exited && i.lastUsed + c.idleTimeout <= s.now
  {
    hide Reachable;
    assert a in queue <==> IdleLongEnough(c, s, a);
  }

  /** Instance i is stamped exactly if its unreleased handles change. */
  ghost predicate Stamped(s: State, s2: State, i: nat)
    requires i < |s.insts|
  {
    i < |s2.insts|
    && s2.insts[i].lastUsed == if HandlesOf(s2.live, i) != HandlesOf(s.live, i) then s.now else s.insts[i].lastUsed
  }

  lemma LeaseStamps(c: Config, s: State, i: nat, t: nat, j: nat)
    requires InstancesOk(c, s) && i < |s.insts| && j < |s.insts|
    ensures Stamped(s, Lease(s, i, t), j)
  {
    if i == j {
      assert s.nextHandle in HandlesOf(Lease(s, i, t).live, i) && s.nextHandle !in HandlesOf(s.live, i);
    } else {
      assert HandlesOf(Lease(s, i, t).live, j) == HandlesOf(s.live, j);
    }
  }

  lemma ReleaseStamps(c: Config, s: State, h: nat, j: nat)
    requires InstancesOk(c, s) && j < |s.insts|
    ensures Stamped(s, ReleaseHandle(s, h), j)
  {
    if h in s.live {
      if s.live[h].inst == j {
        assert h !in HandlesOf(ReleaseHandle(s, h).live, j) && h in HandlesOf(s.live, j);
      } else {
        assert HandlesOf(ReleaseHandle(s, h).live, j) == HandlesOf(s.live, j);
      }
    }
  }

  lemma LaunchStamps(c: Config, s: State, t: nat, j: nat)
    requires InstancesOk(c, s) && At(s, t).Top? && At(s, t).alias in c.estimate && j < |s.insts|
    ensures Stamped(s, Launched(c, s, t), j)
    ensures Launched(c, s, t).insts[|s.insts|].lastUsed == s.now
  {
    assert HandlesOf(Launched(c, s, t).live, j) == HandlesOf(s.live, j);
  }

  /** No lease is given or given back, and nothing is stamped. */
  ghost predicate StampsNothing(s: State, s2: State) {
    && s2.live == s.live && |s2.insts| == |s.insts|
    && forall i | 0 <= i < |s.insts| :: s2.insts[i].lastUsed == s.insts[i].lastUsed
  }

  lemma MovesStampNothing(c: Config, s: State, a: Action)
    requires Enabled(c, s, a) && !TouchesSlots(a) && !TouchesInstance(a)
    ensures StampsNothing(s, Apply(c, s, a))
  {
    hide Fits, Evictable, IsVictim, View;
  }

  lemma FlagsStampNothing(c: Config, s: State, a: Action)
    requires Enabled(c, s, a) && TouchesInstance(a) && !TouchesLeases(a)
    ensures StampsNothing(s, Apply(c, s, a))
  {
  }

  lemma DropsStampNothing(c: Config, s: State, a: Action)
    requires Enabled(c, s, a) && TouchesSlots(a) && !a.Launch?
    ensures StampsNothing(s, Apply(c, s, a))
  {
  }

  /** An instance was last used when somebody last leased it or gave a lease of it back. */
  lemma LastUseIsLastLease(c: Config, s: State, a: Action, i: nat)
    requires Reachable(c, s) && Enabled(c, s, a) && i < |s.insts|
    ensures Stamped(s, Apply(c, s, a), i)
  {
    hide Reachable, Inv, Fits, Evictable, IsVictim, View, InstancesOk, Lease, ReleaseHandle, Launched;
    Known(c, s);
    if a.Reuse? {
      LeaseStamps(c, s, s.slots[At(s, a.t).alias], a.t, i);
    } else if a.Launch? {
      LaunchStamps(c, s, a.t, i);
    } else if TouchesLeases(a) {
      ReleaseStamps(c, s, At(s, a.t).handle, i);
    } else {
      hide Enabled, Apply;
      if TouchesSlots(a) {
        DropsStampNothing(c, s, a);
      } else if TouchesInstance(a) {
        FlagsStampNothing(c, s, a);
      } else {
        MovesStampNothing(c, s, a);
      }
    }
  }

  lemma Known(c: Config, s: State)
    requires Reachable(c, s)
    ensures InstancesOk(c, s)
  {
    ReachableIsSafe(c, s);
  }

  /** A process exit frees budget without a signal. A goroutine asleep on an open signal
      although its model now fits always owes that to a tracked instance that exited. */
  lemma SleepsWithRoomOnlyAfterExit(c: Config, s: State, t: nat)
    requires Reachable(c, s)
    requires t in s.threads && s.threads[t].WaitIdle? && s.threads[t].signal !in s.closed
    ensures s.threads[t].alias in c.estimate
    ensures (forall a | a in View(s) && a != s.threads[t].alias :: !View(s)[a].exited)
              ==> !Fits(c.limits, View(s), s.threads[t].alias, c.estimate[s.threads[t].alias])
  {
    ReachableIsSafe(c, s);
    var alias := s.threads[t].alias;
    assert PointOk(c, s, t, s.threads[t]);
    assert SleepOk(c, s, alias);
    if forall a | a in View(s) && a != alias :: !View(s)[a].exited {
      assert Others(View(s), alias) == Occupied(View(s), alias);
    }
  }

  /** Eviction picks its victim in one critical section and stops it in a later one. The
      instance it then stops is leased exactly when somebody leased it after the choice. */
  lemma StopsLeasedOnlyIfLeasedSince(c: Config, s: State, t: nat)
    requires Reachable(c, s) && Enabled(c, s, StopNext(t)) && At(s, t).queue[0] in s.slots
    ensures s.slots[At(s, t).queue[0]] < |s.insts|
    ensures s.insts[s.slots[At(s, t).queue[0]]].leases > 0 <==>
              exists h :: h in s.live && s.live[h].inst == s.slots[At(s, t).queue[0]] && At(s, t).mark <= h
  {
    ReachableIsSafe(c, s);
    var p := At(s, t);
    var i := s.slots[p.queue[0]];
    assert YoungLeases(s, p.queue, p.mark);
    if s.insts[i].leases > 0 {
      assert HandlesOf(s.live, i) != {};
      var h :| h in HandlesOf(s.live, i);
      assert p.mark <= h;
    }
    if h :| h in s.live && s.live[h].inst == i && p.mark <= h {
      assert h in HandlesOf(s.live, i);
    }
  }

  // ---- two runs in which the code does less than its comments promise ----

  ghost predicate SameState(s: State, r: State) {
    && s.slots == r.slots && s.insts == r.insts && s.live == r.live && s.nextHandle == r.nextHandle
    && s.idle == r.idle && s.closed == r.closed && s.threads == r.threads && s.now == r.now && s.panicked == r.panicked
  }

  ghost predicate StepTo(c: Config, s: State, a: Action, r: State) {
    Enabled(c, s, a) && SameState(Apply(c, s, a), r)
  }

  function OneSlot(): Config {
    Config(Limits(1, 0), map["a" := 0, "b" := 0], 0)
  }

  /** "a" is the only loaded model, as instance 0. */
  function LoadedA(inst: Inst, live: map<nat, Handle>, next: nat, idle: nat, closed: set<nat>,
                   threads: map<nat, Point>): State
  {
    State(map["a" := 0], [inst], live, next, idle, closed, threads, 0, false)
  }

  function StateA(healthy: bool, ready: bool, p: Point): State {
    LoadedA(Inst("a", 0, 0, false, healthy, ready, 1, 0), map[0 := Handle(0, 0)], 1, 0, {}, map[0 := p])
  }

  lemma Advance(c: Config, s: State, a: Action, r: State)
    requires Reachable(c, s) && StepTo(c, s, a, r)
    ensures Reachable(c, r)
  {
    ReachNext(c, s, a);
  }

  lemma StartA()
    ensures StepTo(OneSlot(), Init(0), Spawn(0, "a"), Init(0).(threads := map[0 := Top("a")]))
    ensures StepTo(OneSlot(), Init(0).(threads := map[0 := Top("a")]), Launch(0),
                   StateA(false, false, Polling("a", 0, 0)))
  {
    assert Others(View(Init(0).(threads := map[0 := Top("a")])), "a") == map[];
  }

  lemma PublishA()
    ensures StepTo(OneSlot(), StateA(false, false, Polling("a", 0, 0)), HealthOk(0),
                   StateA(false, false, Publish("a", 0, 0)))
  {}

  lemma HealthyA()
    ensures StepTo(OneSlot(), StateA(false, false, Publish("a", 0, 0)), StoreHealthy(0),
                   StateA(true, false, PublishClose("a", 0, 0)))
  {}

  lemma ReadyA()
    ensures StepTo(OneSlot(), StateA(true, false, PublishClose("a", 0, 0)), CloseHealthy(0),
                   StateA(true, true, Holding("a", 0, 0)))
  {}

  /** Goroutine 0 launched "a" and holds it. */
  lemma HoldA()
    ensures Reachable(OneSlot(), StateA(true, true, Holding("a", 0, 0)))
  {
    var c := OneSlot();
    assert IsRun(c, 0, [], Init(0));
    StartA();
    Advance(c, Init(0), Spawn(0, "a"), Init(0).(threads := map[0 := Top("a")]));
    Advance(c, Init(0).(threads := map[0 := Top("a")]), Launch(0), StateA(false, false, Polling("a", 0, 0)));
    PublishA();
    HealthyA();
    ReadyA();
    Advance(c, StateA(false, false, Polling("a", 0, 0)), HealthOk(0), StateA(false, false, Publish("a", 0, 0)));
    Advance(c, StateA(false, false, Publish("a", 0, 0)), StoreHealthy(0), StateA(true, false, PublishClose("a", 0, 0)));
    Advance(c, StateA(true, false, PublishClose("a", 0, 0)), CloseHealthy(0), StateA(true, true, Holding("a", 0, 0)));
  }

  /** Goroutine 0 holds or has released "a" while goroutine 1, which wants "b", is at p. */
  function Contended(exited: bool, leases: nat, p: Point): State {
    LoadedA(Inst("a", 0, 0, exited, true, true, leases, 0), if leases == 0 then map[] else map[0 := Handle(0, 0)], 1,
            if leases == 0 then 1 else 0, if leases == 0 then {0} else {}, map[0 := Holding("a", 0, 0), 1 := p])
  }

  lemma WantB()
    ensures StepTo(OneSlot(), StateA(true, true, Holding("a", 0, 0)), Spawn(1, "b"), Contended(false, 1, Top("b")))
  {}

  lemma NoRoomForB()
    ensures var v := View(Contended(false, 1, Top("b")));
      (forall a :: !Evictable(v, "b", a)) && !Fits(OneSlot().limits, v, "b", 0)
  {
    TotalSlots(map["a" := 0]);
    assert Others(View(Contended(false, 1, Top("b"))), "b") == map["a" := 0];
  }

  lemma SleepB()
    ensures StepTo(OneSlot(), Contended(false, 1, Top("b")), Sleep(1), Contended(false, 1, WaitIdle("b", 0)))
  {
    NoRoomForB();
  }

  lemma CrashA()
    ensures StepTo(OneSlot(), Contended(false, 1, WaitIdle("b", 0)), Exit(0), Contended(true, 1, WaitIdle("b", 0)))
  {}

  /** "b" goes to sleep because "a" is leased; "a" then crashes, so "b" fits, and still sleeps. */
  lemma SleepsThroughAnExit()
    ensures exists s, t ::
              && Reachable(OneSlot(), s)
              && At(s, t) == WaitIdle("b", s.idle) && s.idle !in s.closed
              && Fits(OneSlot().limits, View(s), "b", OneSlot().estimate["b"])
  {
    HoldA();
    WantB();
    SleepB();
    CrashA();
    Advance(OneSlot(), StateA(true, true, Holding("a", 0, 0)), Spawn(1, "b"), Contended(false, 1, Top("b")));
    Advance(OneSlot(), Contended(false, 1, Top("b")), Sleep(1), Contended(false, 1, WaitIdle("b", 0)));
    Advance(OneSlot(), Contended(false, 1, WaitIdle("b", 0)), Exit(0), Contended(true, 1, WaitIdle("b", 0)));
    var s := Contended(true, 1, WaitIdle("b", 0));
    assert Others(View(s), "b") == map[];
    assert At(s, 1) == WaitIdle("b", s.idle);
  }

  lemma IdleA()
    ensures StepTo(OneSlot(), Contended(false, 1, Top("b")), Release(0), Contended(false, 0, Top("b")))
  {}

  lemma OnlyVictimA()
    ensures var v := View(Contended(false, 0, Top("b")));
      IsVictim(v, "b", "a") && !Fits(OneSlot().limits, v, "b", 0)
  {
    TotalSlots(map["a" := 0]);
    assert Others(View(Contended(false, 0, Top("b"))), "b") == map["a" := 0];
  }

  lemma ChooseA()
    ensures StepTo(OneSlot(), Contended(false, 0, Top("b")), Evict(1, "a"),
                   Contended(false, 0, Stopping(["a"], 1, Requester("b"))))
  {
    OnlyVictimA();
  }

  /** Goroutine 1 chose "a" as its victim; goroutine 2, which wants "a", is at p. */
  function Chosen(leased: bool, p: Point): State {
    LoadedA(Inst("a", 0, 0, false, true, true, if leased then 1 else 0, 0),
            if leased then map[1 := Handle(0, 2)] else map[],
            if leased then 2 else 1, 1, {0},
            map[0 := Holding("a", 0, 0), 1 := Stopping(["a"], 1, Requester("b")), 2 := p])
  }

  /** Goroutine 1, which wants "b", has chosen idle "a" as its victim. */
  lemma VictimChosen()
    ensures Reachable(OneSlot(), Contended(false, 0, Stopping(["a"], 1, Requester("b"))))
  {
    hide Reachable, StepTo, Contended, StateA;
    HoldA();
    WantB();
    IdleA();
    ChooseA();
    Advance(OneSlot(), StateA(true, true, Holding("a", 0, 0)), Spawn(1, "b"), Contended(false, 1, Top("b")));
    Advance(OneSlot(), Contended(false, 1, Top("b")), Release(0), Contended(false, 0, Top("b")));
    Advance(OneSlot(), Contended(false, 0, Top("b")), Evict(1, "a"),
            Contended(false, 0, Stopping(["a"], 1, Requester("b"))));
  }

  lemma LeaseChosenA()
    ensures StepTo(OneSlot(), Contended(false, 0, Stopping(["a"], 1, Requester("b"))), Spawn(2, "a"),
                   Chosen(false, Top("a")))
    ensures StepTo(OneSlot(), Chosen(false, Top("a")), Reuse(2), Chosen(true, Holding("a", 0, 1)))
  {}

  /** "b" chooses idle "a" as its victim; before it stops "a", goroutine 2 leases it; "a" is stopped mid-turn. */
  lemma EvictsALeasedInstance()
    ensures exists s, t, victim ::
              && Reachable(OneSlot(), s) && Enabled(OneSlot(), s, StopNext(t))
              && At(s, t).resume.Requester? && At(s, t).queue[0] == victim && victim in View(s)
              && View(s)[victim].leases > 0 && View(s)[victim].healthy
              && victim !in Apply(OneSlot(), s, StopNext(t)).slots
  {
    VictimChosen();
    LeaseChosenA();
    Advance(OneSlot(), Contended(false, 0, Stopping(["a"], 1, Requester("b"))), Spawn(2, "a"), Chosen(false, Top("a")));
    Advance(OneSlot(), Chosen(false, Top("a")), Reuse(2), Chosen(true, Holding("a", 0, 1)));
    StopsChosenA();
  }

  lemma StopsChosenA()
    ensures var s := Chosen(true, Holding("a", 0, 1));
      && Enabled(OneSlot(), s, StopNext(1)) && At(s, 1).resume.Requester? && At(s, 1).queue[0] == "a"
      && "a" in View(s) && View(s)["a"].leases > 0 && View(s)["a"].healthy
      && "a" !in Apply(OneSlot(), s, StopNext(1)).slots
  {}
}
