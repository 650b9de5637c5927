/** The invariant of the lock protocol is kept by every step. */
module AdmissionSafety {
  import opened Budget
  import opened AdmissionProtocol

  lemma SlotsGrow(c: Config, s: State, s1: State, alias: Alias)
    requires ValidConfig(c) && InstancesOk(c, s) && InstancesOk(c, s1)
    requires forall a | a in s.slots :: a in s1.slots
    requires alias in c.estimate && !RoomFor(c.limits, Occupied(View(s), alias), c.estimate[alias])
    ensures !RoomFor(c.limits, Occupied(View(s1), alias), c.estimate[alias])
  {
    var m, n := Occupied(View(s), alias), Occupied(View(s1), alias);
    assert NonNegative(n);
    assert Submap(m, n);
    TotalSubmap(m, n, Slots);
    TotalSubmap(m, n, Bytes);
  }

  /** Moving one goroutine, nothing else. */
  lemma GoKeeps(c: Config, s: State, t: nat, p: Point)
    requires Inv(c, s) && PointOk(c, s, t, p)
    requires p.WaitIdle? && p.signal !in s.closed ==> SleepOk(c, s, p.alias)
    requires p.Stopping? ==> YoungLeases(s, p.queue, p.mark)
    requires OwnsLaunch(At(s, t)) ==> OwnsLaunch(p) && p.inst == At(s, t).inst
    ensures Inv(c, Go(s, t, p))
  {
    var s1 := Go(s, t, p);
    assert View(s1) == View(s);
    LeasesKept(s, s1);
    assert StoppersOk(s1) by {
      forall u | u in s1.threads && s1.threads[u].Stopping?
        ensures YoungLeases(s1, s1.threads[u].queue, s1.threads[u].mark)
      {
        if u != t { assert YoungLeases(s, s.threads[u].queue, s.threads[u].mark); }
      }
    }
    assert LaunchOwned(s1);
    assert PointsOk(c, s1);
    assert SleepersOk(c, s1) by {
      forall u | u in s1.threads && s1.threads[u].WaitIdle? && s1.threads[u].signal !in s1.closed
        ensures SleepOk(c, s1, s1.threads[u].alias)
      {
        if u != t { assert SleepOk(c, s, s.threads[u].alias); }
      }
    }
  }

  // ---- what a step leaves true of the goroutines it does not move ----

  ghost predicate Evolved(x: Inst, y: Inst) {
    && y.alias == x.alias && y.launcher == x.launcher && y.memory == x.memory
    && (x.exited ==> y.exited) && (x.healthy ==> y.healthy) && (x.ready ==> y.ready && y.healthy == x.healthy)
  }

  /** The shared state moved from s to s1: instances evolve, signals get closed,
      slots keep their occupant, lose it, or take a new instance. */
  ghost predicate Extends(s: State, s1: State) {
    && |s.insts| <= |s1.insts|
    && (forall i | 0 <= i < |s.insts| :: Evolved(s.insts[i], s1.insts[i]))
    && s.nextHandle <= s1.nextHandle
    && (forall h | h in s1.live :: h < s.nextHandle ==> h in s.live && s1.live[h] == s.live[h])
    && s.closed <= s1.closed && (s1.idle == s.idle || s.idle in s1.closed)
    && (forall a | a in s1.slots :: (a in s.slots && s1.slots[a] == s.slots[a]) || s1.slots[a] >= |s.insts|)
  }

  /** What goroutine u needs kept: its lease, and the flags of a launch it still owns. */
  ghost predicate Spares(s: State, s1: State, u: nat, p: Point) {
    && (OwnsLaunch(p) || p.FailRelease? ==> (p.handle in s.live ==> p.handle in s1.live))
    && (OwnsLaunch(p) && p.inst < |s.insts| && p.inst < |s1.insts| ==>
          s1.insts[p.inst].healthy == s.insts[p.inst].healthy && s1.insts[p.inst].ready == s.insts[p.inst].ready)
  }

  /** No new occupant: the budget in use does not grow. */
  lemma WithinSub(c: Config, s: State, s1: State)
    requires ValidConfig(c) && InstancesOk(c, s) && Within(c.limits, View(s))
    requires |s1.insts| == |s.insts| && forall i | 0 <= i < |s.insts| :: Evolved(s.insts[i], s1.insts[i])
    requires forall a | a in s1.slots :: a in s.slots && s1.slots[a] == s.slots[a]
    ensures Within(c.limits, View(s1))
  {
    assert NonNegative(Alive(View(s)));
    assert Submap(Alive(View(s1)), Alive(View(s)));
    TotalSubmap(Alive(View(s1)), Alive(View(s)), Slots);
    TotalSubmap(Alive(View(s1)), Alive(View(s)), Bytes);
  }

  lemma PointKeeps(c: Config, s: State, s1: State, u: nat, p: Point)
    requires InstancesOk(c, s) && PointOk(c, s, u, p) && Extends(s, s1) && Spares(s, s1, u, p)
    ensures PointOk(c, s1, u, p)
  {
    match p
    case WaitReady(_, i) => assert Evolved(s.insts[i], s1.insts[i]);
    case DropFailed(_, i) => assert Evolved(s.insts[i], s1.insts[i]);
    case Holding(_, i, h) => assert Evolved(s.insts[i], s1.insts[i]);
    case FailRelease(_, i, h) => assert Evolved(s.insts[i], s1.insts[i]); assert h in s1.live;
    case Polling(_, i, h) => assert Evolved(s.insts[i], s1.insts[i]); assert h in s1.live;
    case FailRemove(_, i, h) => assert Evolved(s.insts[i], s1.insts[i]); assert h in s1.live;
    case FailClose(_, i, h) => assert Evolved(s.insts[i], s1.insts[i]); assert h in s1.live;
    case Publish(_, i, h) => assert Evolved(s.insts[i], s1.insts[i]); assert h in s1.live;
    case PublishClose(_, i, h) => assert Evolved(s.insts[i], s1.insts[i]); assert h in s1.live;
    case _ =>
  }

  lemma StoppersKeep(c: Config, s: State, s1: State)
    requires InstancesOk(c, s) && PointsOk(c, s) && StoppersOk(s) && Extends(s, s1) && s1.threads == s.threads
    requires forall h | h in s1.live && s1.live[h].inst >= |s.insts| :: h >= s.nextHandle
    ensures StoppersOk(s1)
  {
    forall u | u in s1.threads && s1.threads[u].Stopping?
      ensures YoungLeases(s1, s1.threads[u].queue, s1.threads[u].mark)
    {
      var p := s.threads[u];
      assert PointOk(c, s, u, p) && YoungLeases(s, p.queue, p.mark);
      forall a, h | a in p.queue && a in s1.slots && h in s1.live && s1.live[h].inst == s1.slots[a]
        ensures p.mark <= h
      {
        if h < s.nextHandle { assert h in s.live && s1.live[h] == s.live[h]; }
      }
    }
  }

  /** Sleepers are kept when nothing leaves a slot and nothing becomes evictable. */
  lemma SleepersKeep(c: Config, s: State, s1: State)
    requires ValidConfig(c) && InstancesOk(c, s) && InstancesOk(c, s1) && SleepersOk(c, s)
    requires s1.threads == s.threads && s1.closed >= s.closed && s1.slots == s.slots && |s1.insts| == |s.insts|
    requires forall i | 0 <= i < |s.insts| :: !s1.insts[i].exited && s1.insts[i].leases <= 0 ==>
               !s.insts[i].exited && s.insts[i].leases <= 0
    ensures SleepersOk(c, s1)
  {
    forall u | u in s1.threads && s1.threads[u].WaitIdle? && s1.threads[u].signal !in s1.closed
      ensures SleepOk(c, s1, s1.threads[u].alias)
    {
      var alias := s.threads[u].alias;
      assert SleepOk(c, s, alias);
      forall v ensures !Evictable(View(s1), alias, v) { assert !Evictable(View(s), alias, v); }
      if alias in c.estimate { SlotsGrow(c, s, s1, alias); }
    }
  }

  /** After a signal no goroutine sleeps on an open channel. */
  lemma NobodySleeps(c: Config, s: State, s1: State)
    requires PointsOk(c, s) && s1.threads == s.threads && s1.closed >= s.closed + {s.idle}
    ensures SleepersOk(c, s1)
  {
    forall u | u in s1.threads && s1.threads[u].WaitIdle? ensures s1.threads[u].signal in s1.closed {
      assert PointOk(c, s, u, s.threads[u]);
    }
  }

  lemma LeasesKept(s: State, s1: State)
    requires LeasesConserved(s) && s1.live == s.live && |s1.insts| == |s.insts|
    requires forall i | 0 <= i < |s.insts| :: s1.insts[i].leases == s.insts[i].leases
    ensures LeasesConserved(s1)
  {
    forall i | 0 <= i < |s1.insts| ensures s1.insts[i].leases == |HandlesOf(s1.live, i)| {
      assert HandlesOf(s1.live, i) == HandlesOf(s.live, i);
    }
  }

  lemma HandleAdded(live: map<nat, Handle>, h: nat, hd: Handle, i: nat)
    requires h !in live
    ensures |HandlesOf(live[h := hd], i)| == |HandlesOf(live, i)| + if hd.inst == i then 1 else 0
  {
    if hd.inst == i {
      assert HandlesOf(live[h := hd], i) == HandlesOf(live, i) + {h};
    } else {
      assert HandlesOf(live[h := hd], i) == HandlesOf(live, i);
    }
  }

  lemma HandleRemoved(live: map<nat, Handle>, h: nat, i: nat)
    requires h in live
    ensures |HandlesOf(live, i)| == |HandlesOf(live - {h}, i)| + if live[h].inst == i then 1 else 0
  {
    HandleAdded(live - {h}, h, live[h], i);
    assert (live - {h})[h := live[h]] == live;
  }

  lemma LeaseCounts(c: Config, s: State, i: nat, t: nat)
    requires InstancesOk(c, s) && LeasesConserved(s) && i < |s.insts|
    ensures InstancesOk(c, Lease(s, i, t)) && LeasesConserved(Lease(s, i, t))
  {
    forall j | 0 <= j < |s.insts| ensures Lease(s, i, t).insts[j].leases == |HandlesOf(Lease(s, i, t).live, j)| {
      HandleAdded(s.live, s.nextHandle, Handle(i, t), j);
    }
  }

  lemma LeaseKeeps(c: Config, s: State, i: nat, t: nat)
    requires ValidConfig(c) && Inv(c, s) && i < |s.insts|
    ensures Inv(c, Lease(s, i, t))
  {
    var s1 := Lease(s, i, t);
    assert Extends(s, s1);
    assert InstancesOk(c, s1) && LeasesConserved(s1) by { LeaseCounts(c, s, i, t); }
    assert Within(c.limits, View(s1)) by { WithinSub(c, s, s1); }
    assert PointsOk(c, s1) by { PointsKept(c, s, s1); }
    assert SleepersOk(c, s1) by { SleepersKeep(c, s, s1); }
    assert StoppersOk(s1) by { StoppersKeep(c, s, s1); }
  }

  lemma PointsKept(c: Config, s: State, s1: State)
    requires InstancesOk(c, s) && PointsOk(c, s) && Extends(s, s1) && s1.threads == s.threads
    requires forall u | u in s.threads :: Spares(s, s1, u, s.threads[u])
    ensures PointsOk(c, s1)
  {
    forall u | u in s1.threads ensures PointOk(c, s1, u, s1.threads[u]) {
      PointKeeps(c, s, s1, u, s.threads[u]);
    }
  }

  lemma DropExtends(c: Config, s: State, alias: Alias, i: nat)
    requires InstancesOk(c, s) && SignalsOk(s)
    ensures var s1 := Drop(s, alias, i);
      && Extends(s, s1) && InstancesOk(c, s1) && SignalsOk(s1)
      && s1.insts == s.insts && s1.live == s.live
      && (forall a | a in s1.slots :: a in s.slots && s1.slots[a] == s.slots[a])
  {
  }

  lemma DropShared(c: Config, s: State, alias: Alias, i: nat)
    requires ValidConfig(c) && InstancesOk(c, s) && LeasesConserved(s) && SignalsOk(s) && Within(c.limits, View(s))
    ensures var s1 := Drop(s, alias, i);
      Extends(s, s1) && InstancesOk(c, s1) && LeasesConserved(s1) && SignalsOk(s1) && Within(c.limits, View(s1))
  {
    hide InstancesOk, SignalsOk, Extends, LeasesConserved, Within, View, Drop, ValidConfig;
    var s1 := Drop(s, alias, i);
    DropExtends(c, s, alias, i);
    LeasesKept(s, s1);
    WithinSub(c, s, s1);
  }

  lemma DropKeeps(c: Config, s: State, alias: Alias, i: nat)
    requires ValidConfig(c) && Inv(c, s)
    ensures Inv(c, Drop(s, alias, i))
  {
    var s1 := Drop(s, alias, i);
    if s1 != s {
      DropShared(c, s, alias, i);
      assert PointsOk(c, s1) by { PointsKept(c, s, s1); }
      assert SleepersOk(c, s1) by { NobodySleeps(c, s, s1); }
      assert StoppersOk(s1) by { StoppersKeep(c, s, s1); }
      assert LaunchOwned(s1) by { LaunchesKept(s, s1); }
    }
  }

  lemma ReleaseCounts(c: Config, s: State, h: nat)
    requires InstancesOk(c, s) && LeasesConserved(s) && h in s.live
    ensures InstancesOk(c, ReleaseHandle(s, h)) && LeasesConserved(ReleaseHandle(s, h))
    ensures s.insts[s.live[h].inst].leases > 0
  {
    HandleRemoved(s.live, h, s.live[h].inst);
    forall j | 0 <= j < |s.insts|
      ensures ReleaseHandle(s, h).insts[j].leases == |HandlesOf(ReleaseHandle(s, h).live, j)|
    {
      HandleRemoved(s.live, h, j);
    }
  }

  ghost predicate FreeToRelease(s: State, h: nat) {
    h in s.live ==> !OwnsLaunch(At(s, s.live[h].owner)) && !At(s, s.live[h].owner).FailRelease?
  }

  lemma LaunchesKept(s: State, s1: State)
    requires LaunchOwned(s) && s1.threads == s.threads && |s1.insts| == |s.insts|
    requires forall i | 0 <= i < |s.insts| ::
               && s1.insts[i].ready == s.insts[i].ready && s1.insts[i].healthy == s.insts[i].healthy
               && s1.insts[i].launcher == s.insts[i].launcher && s1.insts[i].alias == s.insts[i].alias
    requires forall a | a in s1.slots :: a in s.slots && s1.slots[a] == s.slots[a]
    ensures LaunchOwned(s1)
  {}

  lemma ReleaseSleepers(c: Config, s: State, h: nat)
    requires ValidConfig(c) && InstancesOk(c, s) && PointsOk(c, s) && SleepersOk(c, s) && h in s.live
    requires InstancesOk(c, ReleaseHandle(s, h)) && s.insts[s.live[h].inst].leases > 0
    ensures SleepersOk(c, ReleaseHandle(s, h))
  {
    var s1 := ReleaseHandle(s, h);
    if s1.insts[s.live[h].inst].leases == 0 { NobodySleeps(c, s, s1); } else { SleepersKeep(c, s, s1); }
  }

  lemma ReleaseShared(c: Config, s: State, h: nat)
    requires ValidConfig(c) && InstancesOk(c, s) && Within(c.limits, View(s)) && h in s.live
    ensures Extends(s, ReleaseHandle(s, h)) && Within(c.limits, View(ReleaseHandle(s, h)))
  {
    WithinSub(c, s, ReleaseHandle(s, h));
  }

  lemma ReleaseSpares(c: Config, s: State, h: nat)
    requires InstancesOk(c, s) && PointsOk(c, s) && h in s.live && FreeToRelease(s, h)
    ensures forall u | u in s.threads :: Spares(s, ReleaseHandle(s, h), u, s.threads[u])
  {
    forall u | u in s.threads ensures Spares(s, ReleaseHandle(s, h), u, s.threads[u]) {
      assert PointOk(c, s, u, s.threads[u]);
    }
  }

  lemma ReleaseKeeps(c: Config, s: State, h: nat)
    requires ValidConfig(c) && Inv(c, s) && FreeToRelease(s, h)
    ensures Inv(c, ReleaseHandle(s, h))
  {
    if h in s.live {
      var s1 := ReleaseHandle(s, h);
      ReleaseCounts(c, s, h);
      ReleaseShared(c, s, h);
      ReleaseSleepers(c, s, h);
      assert PointsOk(c, s1) by { ReleaseSpares(c, s, h); PointsKept(c, s, s1); }
      assert StoppersOk(s1) by { StoppersKeep(c, s, s1); }
      assert LaunchOwned(s1) by { LaunchesKept(s, s1); }
    }
  }

  /** Setting flags of instance i while its launcher t moves on, or a process exit. */
  ghost predicate FlagStep(s: State, s1: State, i: nat) {
    && i < |s.insts| && |s1.insts| == |s.insts|
    && s1 == s.(insts := s1.insts, threads := s1.threads)
    && (forall j | 0 <= j < |s.insts| && j != i :: s1.insts[j] == s.insts[j])
    && Evolved(s.insts[i], s1.insts[i])
    && s1.insts[i].leases == s.insts[i].leases && s1.insts[i].lastUsed == s.insts[i].lastUsed
  }

  lemma FlagKeeps(c: Config, s: State, s1: State, i: nat)
    requires ValidConfig(c) && Inv(c, s) && FlagStep(s, s1, i) && s1.threads == s.threads
    ensures InstancesOk(c, s1) && LeasesConserved(s1) && SignalsOk(s1) && SleepersOk(c, s1) && StoppersOk(s1) &&
      Within(c.limits, View(s1))
  {
    assert Extends(s, s1);
    assert LeasesConserved(s1) by { LeasesKept(s, s1); }
    assert Within(c.limits, View(s1)) by { WithinSub(c, s, s1); }
    assert SleepersOk(c, s1) by { SleepersKeep(c, s, s1); }
    assert StoppersOk(s1) by { StoppersKeep(c, s, s1); }
  }

  lemma ExitIsFlag(s: State, i: nat)
    requires i < |s.insts|
    ensures FlagStep(s, s.(insts := s.insts[i := s.insts[i].(exited := true)]), i)
  {
  }

  lemma ExitKeeps(c: Config, s: State, i: nat)
    requires ValidConfig(c) && Inv(c, s) && i < |s.insts|
    ensures Inv(c, s.(insts := s.insts[i := s.insts[i].(exited := true)]))
  {
    hide Extends, LeasesConserved, SleepersOk, StoppersOk, Within, View, SignalsOk, PointOk;
    var s1 := s.(insts := s.insts[i := s.insts[i].(exited := true)]);
    ExitIsFlag(s, i);
    FlagKeeps(c, s, s1, i);
    ExitSpares(s, s1, i);
    PointsKept(c, s, s1);
    hide PointsOk, InstancesOk, FlagStep;
    LaunchesKept(s, s1);
  }

  lemma ExitSpares(s: State, s1: State, i: nat)
    requires i < |s.insts| && s1 == s.(insts := s.insts[i := s.insts[i].(exited := true)])
    requires forall a | a in s.slots :: s.slots[a] < |s.insts|
    requires forall h | h in s.live :: h < s.nextHandle
    ensures Extends(s, s1) && forall u | u in s.threads :: Spares(s, s1, u, s.threads[u])
  {
  }

  /** Moving t and nothing else, seen from the other goroutines. */
  lemma GoOthers(c: Config, s: State, t: nat, p: Point)
    requires InstancesOk(c, s) && LeasesConserved(s) && SignalsOk(s) && SleepersOk(c, s) && StoppersOk(s) &&
      Within(c.limits, View(s))
    requires !p.WaitIdle? && !p.Stopping?
    ensures var s1 := Go(s, t, p);
      InstancesOk(c, s1) && LeasesConserved(s1) && SignalsOk(s1) && SleepersOk(c, s1) && StoppersOk(s1) &&
        Within(c.limits, View(s1))
  {
    var s1 := Go(s, t, p);
    assert View(s1) == View(s);
    LeasesKept(s, s1);
    assert StoppersOk(s1) by {
      forall u | u in s1.threads && s1.threads[u].Stopping?
        ensures YoungLeases(s1, s1.threads[u].queue, s1.threads[u].mark)
      {
        assert YoungLeases(s, s.threads[u].queue, s.threads[u].mark);
      }
    }
    assert SleepersOk(c, s1) by {
      forall u | u in s1.threads && s1.threads[u].WaitIdle? && s1.threads[u].signal !in s1.closed
        ensures SleepOk(c, s1, s1.threads[u].alias)
      {
        assert SleepOk(c, s, s.threads[u].alias);
      }
    }
  }

  /** No other goroutine owns the launch of the instance whose flags change. */
  lemma LauncherSpares(c: Config, s: State, s0: State, i: nat, t: nat)
    requires InstancesOk(c, s) && PointsOk(c, s) && FlagStep(s, s0, i) && s0.threads == s.threads
    requires t in s.threads && OwnsLaunch(s.threads[t]) && s.threads[t].inst == i
    ensures Extends(s, s0)
    ensures forall u | u in s.threads && u != t :: Spares(s, s0, u, s.threads[u])
  {
    assert PointOk(c, s, t, s.threads[t]);
    forall u | u in s.threads && u != t ensures Spares(s, s0, u, s.threads[u]) {
      assert PointOk(c, s, u, s.threads[u]);
    }
  }

  lemma LauncherPoints(c: Config, s: State, s0: State, i: nat, t: nat, p: Point)
    requires InstancesOk(c, s) && PointsOk(c, s) && FlagStep(s, s0, i) && s0.threads == s.threads
    requires t in s.threads && OwnsLaunch(s.threads[t]) && s.threads[t].inst == i
    requires !p.WaitIdle? && !p.Stopping? && PointOk(c, s0, t, p)
    ensures PointsOk(c, Go(s0, t, p))
  {
    LauncherSpares(c, s, s0, i, t);
    forall u | u in s.threads && u != t ensures PointOk(c, Go(s0, t, p), u, s.threads[u]) {
      PointKeeps(c, s, s0, u, s.threads[u]);
    }
  }

  lemma LauncherOwns(c: Config, s: State, s0: State, i: nat, t: nat, p: Point)
    requires InstancesOk(c, s) && PointsOk(c, s) && LaunchOwned(s) && FlagStep(s, s0, i) && s0.threads == s.threads
    requires t in s.threads && OwnsLaunch(s.threads[t]) && s.threads[t].inst == i
    requires if s0.insts[i].ready
             then s0.insts[i].healthy || s0.insts[i].alias !in s.slots || s.slots[s0.insts[i].alias] != i
             else OwnsLaunch(p) && p.inst == i
    ensures LaunchOwned(Go(s0, t, p))
  {
    assert PointOk(c, s, t, s.threads[t]);
  }

  /** The launcher t of instance i stores its flag or closes its channel, and moves to p. */
  lemma LauncherKeeps(c: Config, s: State, s0: State, i: nat, t: nat, p: Point)
    requires ValidConfig(c) && Inv(c, s) && FlagStep(s, s0, i) && s0.threads == s.threads
    requires t in s.threads && OwnsLaunch(s.threads[t]) && s.threads[t].inst == i
    requires !p.WaitIdle? && !p.Stopping? && PointOk(c, s0, t, p)
    requires OwnsLaunch(p) ==> p.inst == i && !s0.insts[i].ready
    requires !OwnsLaunch(p) ==> s0.insts[i].ready
    requires s0.insts[i].ready ==>
      s0.insts[i].healthy || s0.insts[i].alias !in s.slots || s.slots[s0.insts[i].alias] != i
    ensures Inv(c, Go(s0, t, p))
  {
    FlagKeeps(c, s, s0, i);
    GoOthers(c, s0, t, p);
    var s1 := Go(s0, t, p);
    assert PointsOk(c, s1) by { LauncherPoints(c, s, s0, i, t, p); }
    assert LaunchOwned(s1) by { LauncherOwns(c, s, s0, i, t, p); }
  }

  ghost predicate CanLaunch(c: Config, s: State, t: nat) {
    SlotFree(c, s, t) && FitsNow(c, s, t)
  }

  lemma LaunchCounts(c: Config, s: State, t: nat)
    requires InstancesOk(c, s) && LeasesConserved(s) && CanLaunch(c, s, t)
    ensures InstancesOk(c, Launched(c, s, t)) && LeasesConserved(Launched(c, s, t))
  {
    var s1 := AddInstance(s, t, At(s, t).alias, c.estimate[At(s, t).alias]);
    forall i | 0 <= i < |s1.insts| ensures s1.insts[i].leases == |HandlesOf(s1.live, i)| {
      if i < |s.insts| {
        assert HandlesOf(s1.live, i) == HandlesOf(s.live, i);
      } else {
        assert HandlesOf(s1.live, i) == {};
      }
    }
    assert InstancesOk(c, s1);
    LeaseCounts(c, s1, |s.insts|, t);
  }

  lemma LaunchAlive(c: Config, s: State, t: nat)
    requires InstancesOk(c, s) && SlotFree(c, s, t)
    ensures var alias := At(s, t).alias;
      Alive(View(Launched(c, s, t))) == Alive(View(s))[alias := c.estimate[alias]]
  {
    var s1, alias := Launched(c, s, t), At(s, t).alias;
    assert View(s1) == View(s)[alias := s1.insts[|s.insts|]];
  }

  lemma LaunchWithin(c: Config, s: State, t: nat)
    requires ValidConfig(c) && InstancesOk(c, s) && Within(c.limits, View(s)) && CanLaunch(c, s, t)
    ensures Within(c.limits, View(Launched(c, s, t)))
  {
    var alias := At(s, t).alias;
    var need := c.estimate[alias];
    assert Others(View(s), alias) == Alive(View(s));
    LaunchAlive(c, s, t);
    TotalAdd(Alive(View(s)), Slots, alias, need);
    TotalAdd(Alive(View(s)), Bytes, alias, need);
  }

  lemma LaunchSleepers(c: Config, s: State, t: nat)
    requires ValidConfig(c) && InstancesOk(c, s) && SleepersOk(c, s) && CanLaunch(c, s, t)
    requires InstancesOk(c, Launched(c, s, t))
    ensures SleepersOk(c, Launched(c, s, t))
  {
    var s1 := Launched(c, s, t);
    forall u | u in s1.threads && s1.threads[u].WaitIdle? && s1.threads[u].signal !in s1.closed
      ensures SleepOk(c, s1, s1.threads[u].alias)
    {
      var alias := s.threads[u].alias;
      assert SleepOk(c, s, alias);
      forall v ensures !Evictable(View(s1), alias, v) { assert !Evictable(View(s), alias, v); }
      if alias in c.estimate { SlotsGrow(c, s, s1, alias); }
    }
  }

  lemma LaunchSpares(c: Config, s: State, t: nat)
    requires InstancesOk(c, s) && PointsOk(c, s) && CanLaunch(c, s, t)
    ensures Extends(s, Launched(c, s, t))
    ensures forall u | u in s.threads :: Spares(s, Launched(c, s, t), u, s.threads[u])
  {
    forall u | u in s.threads ensures Spares(s, Launched(c, s, t), u, s.threads[u]) {
      assert PointOk(c, s, u, s.threads[u]);
    }
  }

  lemma LaunchPoints(c: Config, s: State, t: nat, p: Point)
    requires InstancesOk(c, s) && PointsOk(c, s) && CanLaunch(c, s, t)
    requires p == Polling(At(s, t).alias, |s.insts|, s.nextHandle)
    ensures PointsOk(c, Go(Launched(c, s, t), t, p))
  {
    var s1 := Launched(c, s, t);
    LaunchSpares(c, s, t);
    forall u | u in s.threads && u != t ensures PointOk(c, Go(s1, t, p), u, s.threads[u]) {
      hide InstancesOk, Extends, Spares, Launched, CanLaunch;
      PointKeeps(c, s, s1, u, s.threads[u]);
      GoPoint(c, s1, t, p, u, s.threads[u]);
    }
    hide InstancesOk, PointsOk, Extends, Spares, CanLaunch;
  }

  /** What is known about one goroutine does not depend on where the others stand. */
  lemma GoPoint(c: Config, s: State, t: nat, p: Point, u: nat, q: Point)
    requires PointOk(c, s, u, q)
    ensures PointOk(c, Go(s, t, p), u, q)
  {
  }

  lemma LaunchOwners(c: Config, s: State, t: nat, p: Point)
    requires InstancesOk(c, s) && LaunchOwned(s) && CanLaunch(c, s, t)
    requires p == Polling(At(s, t).alias, |s.insts|, s.nextHandle)
    ensures LaunchOwned(Go(Launched(c, s, t), t, p))
  {
    hide FitsNow;
  }

  lemma LaunchKeeps(c: Config, s: State, t: nat)
    requires ValidConfig(c) && Inv(c, s) && CanLaunch(c, s, t)
    ensures Inv(c, Go(Launched(c, s, t), t, Polling(At(s, t).alias, |s.insts|, s.nextHandle)))
  {
    var s1 := Launched(c, s, t);
    assert InstancesOk(c, s1) && LeasesConserved(s1) by { LaunchCounts(c, s, t); }
    assert Within(c.limits, View(s1)) by { LaunchWithin(c, s, t); }
    assert SleepersOk(c, s1) by { LaunchSleepers(c, s, t); }
    assert StoppersOk(s1) by { LaunchSpares(c, s, t); StoppersKeep(c, s, s1); }
    LaunchPoints(c, s, t, Polling(At(s, t).alias, |s.insts|, s.nextHandle));
    LaunchOwners(c, s, t, Polling(At(s, t).alias, |s.insts|, s.nextHandle));
    GoOthers(c, s1, t, Polling(At(s, t).alias, |s.insts|, s.nextHandle));
  }

  // ---- one step of every kind ----

  // Steps of a goroutine that only move it.

  lemma LeaveKeeps(c: Config, s: State, a: Action)
    requires ValidConfig(c) && Inv(c, s) && Enabled(c, s, a)
    requires a.GiveUp? || a.LaunchError? || a.StopDone?
    ensures Inv(c, Apply(c, s, a))
  {
    var t := a.t;
    var p := Apply(c, s, a).threads[t];
    assert Apply(c, s, a) == Go(s, t, p);
    assert PointOk(c, s, t, s.threads[t]);
    assert PointOk(c, s, t, p);
    GoKeeps(c, s, t, p);
  }

  lemma LoopKeeps(c: Config, s: State, a: Action)
    requires ValidConfig(c) && Inv(c, s) && Enabled(c, s, a)
    requires a.Retry? || a.LeaveIdleWait? || a.LeaveReadyWait?
    ensures Inv(c, Apply(c, s, a))
  {
    var t := a.t;
    var p := Apply(c, s, a).threads[t];
    assert Apply(c, s, a) == Go(s, t, p);
    assert PointOk(c, s, t, s.threads[t]);
    assert PointOk(c, s, t, p);
    GoKeeps(c, s, t, p);
  }

  lemma WaitKeeps(c: Config, s: State, a: Action)
    requires ValidConfig(c) && Inv(c, s) && Enabled(c, s, a)
    requires a.AwaitOther? || a.SeeFailure?
    ensures Inv(c, Apply(c, s, a))
  {
    var t := a.t;
    var p := Apply(c, s, a).threads[t];
    assert Apply(c, s, a) == Go(s, t, p);
    assert PointOk(c, s, t, s.threads[t]);
    assert PointOk(c, s, t, p);
    GoKeeps(c, s, t, p);
  }

  lemma HealthKeeps(c: Config, s: State, a: Action)
    requires ValidConfig(c) && Inv(c, s) && Enabled(c, s, a)
    requires a.HealthFail? || a.HealthOk?
    ensures Inv(c, Apply(c, s, a))
  {
    var t := a.t;
    var p := Apply(c, s, a).threads[t];
    assert Apply(c, s, a) == Go(s, t, p);
    assert PointOk(c, s, t, s.threads[t]);
    assert PointOk(c, s, t, p);
    GoKeeps(c, s, t, p);
  }

  /** Steps that start a goroutine. */
  lemma StartKeeps(c: Config, s: State, a: Action)
    requires ValidConfig(c) && Inv(c, s) && Enabled(c, s, a)
    requires a.Spawn? || a.StopRequest? || a.Reap?
    ensures Inv(c, Apply(c, s, a))
  {
    if a.Reap? {
      forall b | b in a.queue ensures IdleLongEnough(c, s, b) {}
      NoLeaseNoHandle(c, s, a.queue);
    }
    GoKeeps(c, s, a.t, Apply(c, s, a).threads[a.t]);
  }

  /** An instance without leases has no unreleased handle, so any handle it gets is new. */
  lemma NoLeaseNoHandle(c: Config, s: State, queue: seq<Alias>)
    requires InstancesOk(c, s) && LeasesConserved(s)
    requires forall a | a in queue :: a in View(s) && View(s)[a].leases <= 0
    ensures YoungLeases(s, queue, s.nextHandle)
  {
    forall a | a in queue && a in s.slots ensures forall h | h in s.live :: s.live[h].inst != s.slots[a] {
      assert View(s)[a] == s.insts[s.slots[a]];
      var none := HandlesOf(s.live, s.slots[a]);
      assert none == {};
      forall h | h in s.live ensures s.live[h].inst != s.slots[a] { assert h !in none; }
    }
  }

  lemma EvictKeeps(c: Config, s: State, t: nat, victim: Alias)
    requires ValidConfig(c) && Inv(c, s) && Enabled(c, s, Evict(t, victim))
    ensures Inv(c, Apply(c, s, Evict(t, victim)))
  {
    NoLeaseNoHandle(c, s, [victim]);
    GoKeeps(c, s, t, Stopping([victim], s.nextHandle, Requester(At(s, t).alias)));
  }

  lemma SleepKeeps(c: Config, s: State, t: nat)
    requires ValidConfig(c) && Inv(c, s) && Enabled(c, s, Sleep(t))
    ensures Inv(c, Apply(c, s, Sleep(t)))
  {
    var alias := At(s, t).alias;
    var m, n := Others(View(s), alias), Occupied(View(s), alias);
    if RoomFor(c.limits, n, c.estimate[alias]) {
      RoomAntitone(c.limits, m, n, c.estimate[alias]);
    }
    GoKeeps(c, s, t, WaitIdle(alias, s.idle));
  }

  /** Steps that empty a slot: the goroutine's own check said so, or StopInstance. */
  lemma DropThenGo(c: Config, s: State, alias: Alias, i: nat, t: nat, p: Point)
    requires ValidConfig(c) && Inv(c, s) && PointOk(c, Drop(s, alias, i), t, p)
    requires !p.WaitIdle? && !p.Stopping?
    requires OwnsLaunch(At(s, t)) ==> OwnsLaunch(p) && p.inst == At(s, t).inst
    ensures Inv(c, Go(Drop(s, alias, i), t, p))
  {
    DropKeeps(c, s, alias, i);
    GoKeeps(c, Drop(s, alias, i), t, p);
  }

  lemma DropStepKeeps(c: Config, s: State, a: Action)
    requires ValidConfig(c) && Inv(c, s) && Enabled(c, s, a)
    requires a.DropDead? || a.DropAfterFailure?
    ensures Inv(c, Apply(c, s, a))
  {
    assert PointOk(c, s, a.t, s.threads[a.t]);
    var alias := At(s, a.t).alias;
    DropThenGo(c, s, alias, if a.DropDead? then s.slots[alias] else At(s, a.t).inst, a.t, Deadline(alias));
  }

  lemma RemoveFailedKeeps(c: Config, s: State, t: nat)
    requires ValidConfig(c) && Inv(c, s) && Enabled(c, s, RemoveFailed(t))
    ensures Inv(c, Apply(c, s, RemoveFailed(t)))
  {
    var p := At(s, t);
    assert PointOk(c, s, t, p);
    DropThenGo(c, s, p.alias, p.inst, t, FailClose(p.alias, p.inst, p.handle));
  }

  lemma StopNextKeeps(c: Config, s: State, t: nat)
    requires ValidConfig(c) && Inv(c, s) && Enabled(c, s, StopNext(t))
    ensures Inv(c, Apply(c, s, StopNext(t)))
  {
    var p := At(s, t);
    assert PointOk(c, s, t, p);
    var s1 := if p.queue[0] in s.slots then Drop(s, p.queue[0], s.slots[p.queue[0]]) else s;
    if p.queue[0] in s.slots { DropKeeps(c, s, p.queue[0], s.slots[p.queue[0]]); }
    assert YoungLeases(s1, p.queue, p.mark);
    GoKeeps(c, s1, t, Stopping(p.queue[1..], p.mark, p.resume));
  }

  lemma CloseFailedKeeps(c: Config, s: State, t: nat)
    requires ValidConfig(c) && Inv(c, s) && Enabled(c, s, CloseFailed(t))
    ensures Inv(c, Apply(c, s, CloseFailed(t)))
  {
    var p := At(s, t);
    assert PointOk(c, s, t, p);
    LauncherKeeps(c, s, CloseReady(s, p.inst), p.inst, t, FailRelease(p.alias, p.inst, p.handle));
  }

  lemma StoreHealthyKeeps(c: Config, s: State, t: nat)
    requires ValidConfig(c) && Inv(c, s) && Enabled(c, s, StoreHealthy(t))
    ensures Inv(c, Apply(c, s, StoreHealthy(t)))
  {
    var p := At(s, t);
    assert PointOk(c, s, t, p);
    LauncherKeeps(c, s, StoreHealth(s, p.inst), p.inst, t,
      PublishClose(p.alias, p.inst, p.handle));
  }

  lemma CloseHealthyKeeps(c: Config, s: State, t: nat)
    requires ValidConfig(c) && Inv(c, s) && Enabled(c, s, CloseHealthy(t))
    ensures Inv(c, Apply(c, s, CloseHealthy(t)))
  {
    var p := At(s, t);
    assert PointOk(c, s, t, p);
    LauncherKeeps(c, s, CloseReady(s, p.inst), p.inst, t, Holding(p.alias, p.inst, p.handle));
  }

  lemma ReleaseStepKeeps(c: Config, s: State, t: nat)
    requires ValidConfig(c) && Inv(c, s) && Enabled(c, s, Release(t))
    ensures Inv(c, Apply(c, s, Release(t)))
  {
    assert PointOk(c, s, t, s.threads[t]);
    ReleaseKeeps(c, s, At(s, t).handle);
  }

  lemma ReleaseFailedKeeps(c: Config, s: State, t: nat)
    requires ValidConfig(c) && Inv(c, s) && Enabled(c, s, ReleaseFailed(t))
    ensures Inv(c, Apply(c, s, ReleaseFailed(t)))
  {
    assert PointOk(c, s, t, s.threads[t]);
    GoKeeps(c, s, t, Finished);
    ReleaseKeeps(c, Go(s, t, Finished), At(s, t).handle);
    assert Apply(c, s, ReleaseFailed(t)) == ReleaseHandle(Go(s, t, Finished), At(s, t).handle);
  }

  lemma ReuseKeeps(c: Config, s: State, t: nat)
    requires ValidConfig(c) && Inv(c, s) && Enabled(c, s, Reuse(t))
    ensures Inv(c, Apply(c, s, Reuse(t)))
  {
    var alias := At(s, t).alias;
    var i := s.slots[alias];
    assert PointOk(c, s, t, s.threads[t]);
    LeaseKeeps(c, s, i, t);
    GoKeeps(c, Lease(s, i, t), t, Holding(alias, i, s.nextHandle));
  }

  lemma TickKeeps(c: Config, s: State, later: int)
    requires ValidConfig(c) && Inv(c, s)
    ensures Inv(c, s.(now := later))
  {
    var s1 := s.(now := later);
    assert View(s1) == View(s);
    LeasesKept(s, s1);
    WithinSub(c, s, s1);
    PointsKept(c, s, s1);
    SleepersKeep(c, s, s1);
    StoppersKeep(c, s, s1);
    LaunchesKept(s, s1);
  }

  lemma WorldStepKeeps(c: Config, s: State, a: Action)
    requires ValidConfig(c) && Inv(c, s) && Enabled(c, s, a) && (a.Tick? || a.Exit?)
    ensures Inv(c, Apply(c, s, a))
  {
    hide Inv, ValidConfig;
    if a.Tick? { TickKeeps(c, s, a.later); } else { ExitKeeps(c, s, a.inst); }
  }

  lemma AdmissionStepKeeps(c: Config, s: State, a: Action)
    requires ValidConfig(c) && Inv(c, s) && Enabled(c, s, a)
    requires a.Reuse? || a.Evict? || a.Sleep? || a.Release?
    ensures Inv(c, Apply(c, s, a))
  {
    hide Inv, Enabled, Apply, ValidConfig;
    match a
    case Reuse(t) => ReuseKeeps(c, s, t);
    case Evict(t, victim) => EvictKeeps(c, s, t, victim);
    case Sleep(t) => SleepKeeps(c, s, t);
    case Release(t) => ReleaseStepKeeps(c, s, t);
  }

  lemma EmptyingStepKeeps(c: Config, s: State, a: Action)
    requires ValidConfig(c) && Inv(c, s) && Enabled(c, s, a)
    requires a.DropDead? || a.DropAfterFailure? || a.StopNext? || a.RemoveFailed?
    ensures Inv(c, Apply(c, s, a))
  {
    hide Inv, Enabled, Apply, ValidConfig;
    if a.StopNext? {
      StopNextKeeps(c, s, a.t);
    } else if a.RemoveFailed? {
      RemoveFailedKeeps(c, s, a.t);
    } else {
      DropStepKeeps(c, s, a);
    }
  }

  lemma LaunchStepKeeps(c: Config, s: State, t: nat)
    requires ValidConfig(c) && Inv(c, s) && Enabled(c, s, Launch(t))
    ensures Inv(c, Apply(c, s, Launch(t)))
  {
    hide Inv, ValidConfig, SlotFree, FitsNow, Launched;
    LaunchKeeps(c, s, t);
  }

  lemma LauncherStepKeeps(c: Config, s: State, a: Action)
    requires ValidConfig(c) && Inv(c, s) && Enabled(c, s, a)
    requires a.Launch? || a.CloseFailed? || a.StoreHealthy? || a.CloseHealthy? || a.ReleaseFailed?
    ensures Inv(c, Apply(c, s, a))
  {
    hide Inv, Enabled, Apply, ValidConfig;
    match a
    case CloseFailed(t) => CloseFailedKeeps(c, s, t);
    case StoreHealthy(t) => StoreHealthyKeeps(c, s, t);
    case CloseHealthy(t) => CloseHealthyKeeps(c, s, t);
    case ReleaseFailed(t) => ReleaseFailedKeeps(c, s, t);
    case Launch(t) => LaunchStepKeeps(c, s, t);
  }

  /** Every step of every goroutine and of the environment keeps the invariant. */
  lemma StepKeeps(c: Config, s: State, a: Action)
    requires ValidConfig(c) && Inv(c, s) && Enabled(c, s, a)
    ensures Inv(c, Apply(c, s, a))
  {
    hide Inv, Enabled, Apply, ValidConfig;
    if a.Exit? || a.Tick? {
      WorldStepKeeps(c, s, a);
    } else if a.Spawn? || a.StopRequest? || a.Reap? {
      StartKeeps(c, s, a);
    } else if a.Launch? || a.CloseFailed? || a.StoreHealthy? || a.CloseHealthy? || a.ReleaseFailed? {
      LauncherStepKeeps(c, s, a);
    } else if a.Reuse? || a.Evict? || a.Sleep? || a.Release? {
      AdmissionStepKeeps(c, s, a);
    } else if a.DropDead? || a.DropAfterFailure? || a.StopNext? || a.RemoveFailed? {
      EmptyingStepKeeps(c, s, a);
    } else if a.GiveUp? || a.LaunchError? || a.StopDone? {
      LeaveKeeps(c, s, a);
    } else if a.Retry? || a.LeaveIdleWait? || a.LeaveReadyWait? {
      LoopKeeps(c, s, a);
    } else if a.AwaitOther? || a.SeeFailure? {
      WaitKeeps(c, s, a);
    } else {
      HealthKeeps(c, s, a);
    }
  }
}
