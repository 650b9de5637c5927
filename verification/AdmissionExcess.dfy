/** The processes that run, tracked or not. A slot is freed before its process is gone, so the
    caps bound the running processes only up to those that have left their slots. */
module AdmissionExcess {
  import opened Budget
  import opened AdmissionProtocol
  import opened AdmissionRuns

  predicate InSlot(s: State, i: nat)
    requires i < |s.insts|
  {
    s.insts[i].alias in s.slots && s.slots[s.insts[i].alias] == i
  }

  /** Its process runs, but it is no longer tracked. */
  predicate Stray(s: State, i: nat)
    requires i < |s.insts|
  {
    !s.insts[i].exited && !InSlot(s, i)
  }

  /** What the first n instances weigh whose processes run. */
  function Running(s: State, n: nat, u: Measure): int
    requires n <= |s.insts|
  {
    if n == 0 then 0
    else Running(s, n - 1, u) + if s.insts[n - 1].exited then 0 else Weight(s.insts[n - 1].memory, u)
  }

  /** What the strays among them weigh. */
  function Strays(s: State, n: nat, u: Measure): int
    requires n <= |s.insts|
  {
    if n == 0 then 0
    else Strays(s, n - 1, u) + if Stray(s, n - 1) then Weight(s.insts[n - 1].memory, u) else 0
  }

  /** The tracked instances whose process runs, among the first n. */
  ghost function AliveBelow(s: State, n: nat): map<Alias, int> {
    map a | a in s.slots && s.slots[a] < |s.insts| && s.slots[a] < n && !s.insts[s.slots[a]].exited ::
      s.insts[s.slots[a]].memory
  }

  lemma OneMore(c: Config, s: State, n: nat)
    requires InstancesOk(c, s) && n < |s.insts|
    ensures var i := s.insts[n];
      if !i.exited && InSlot(s, n)
      then i.alias !in AliveBelow(s, n) && AliveBelow(s, n + 1) == AliveBelow(s, n)[i.alias := i.memory]
      else AliveBelow(s, n + 1) == AliveBelow(s, n)
  {
  }

  lemma NothingBelow(s: State, u: Measure)
    ensures Total(AliveBelow(s, 0), u) == 0
  {
    assert AliveBelow(s, 0) == map[];
  }

  lemma AllBelow(s: State)
    ensures AliveBelow(s, |s.insts|) == Alive(View(s))
  {
  }

  lemma {:induction false} RunningIs(c: Config, s: State, n: nat, u: Measure)
    requires InstancesOk(c, s) && n <= |s.insts|
    ensures Running(s, n, u) == Total(AliveBelow(s, n), u) + Strays(s, n, u)
  {
    hide AliveBelow, InstancesOk, Total;
    if n == 0 {
      NothingBelow(s, u);
    } else {
      RunningIs(c, s, n - 1, u);
      OneMore(c, s, n - 1);
      var i := s.insts[n - 1];
      if !i.exited && InSlot(s, n - 1) { TotalAdd(AliveBelow(s, n - 1), u, i.alias, i.memory); }
    }
  }

  /** In every reachable state the processes that run weigh, in number and in memory, exactly what
      the tracked ones do and the strays do. */
  lemma RunningIsTrackedAndStrays(c: Config, s: State, u: Measure)
    requires Reachable(c, s)
    ensures Running(s, |s.insts|, u) == Total(Alive(View(s)), u) + Strays(s, |s.insts|, u)
  {
    hide Reachable, InstancesOk, AliveBelow, Alive, View, Total, Running, Strays;
    assert InstancesOk(c, s) by { ReachableIsSafe(c, s); }
    RunningIs(c, s, |s.insts|, u);
    AllBelow(s);
  }

  lemma {:induction false} NoStrays(s: State, n: nat, u: Measure)
    requires n <= |s.insts| && forall i | 0 <= i < n :: !Stray(s, i)
    ensures Strays(s, n, u) == 0
  {
    if n > 0 { NoStrays(s, n - 1, u); }
  }

  /** So they exceed a cap by no more than the strays, and not at all once every instance out of
      its slot has exited. */
  lemma RunningWithinCaps(c: Config, s: State)
    requires Reachable(c, s)
    ensures c.limits.maxLoaded > 0 ==> Running(s, |s.insts|, Slots) <= c.limits.maxLoaded + Strays(s, |s.insts|, Slots)
    ensures c.limits.maxMemory > 0 ==> Running(s, |s.insts|, Bytes) <= c.limits.maxMemory + Strays(s, |s.insts|, Bytes)
    ensures (forall i | 0 <= i < |s.insts| :: InSlot(s, i) || s.insts[i].exited) ==>
              forall u :: Strays(s, |s.insts|, u) == 0 && Running(s, |s.insts|, u) == Total(Alive(View(s)), u)
  {
    hide Reachable, Alive, View, Total, Running, Strays;
    BudgetSafety(c, s);
    TotalSlots(Alive(View(s)));
    RunningIsTrackedAndStrays(c, s, Slots);
    RunningIsTrackedAndStrays(c, s, Bytes);
    if forall i | 0 <= i < |s.insts| :: InSlot(s, i) || s.insts[i].exited {
      forall u ensures Strays(s, |s.insts|, u) == 0 && Running(s, |s.insts|, u) == Total(Alive(View(s)), u) {
        NoStrays(s, |s.insts|, u);
        RunningIsTrackedAndStrays(c, s, u);
      }
    }
  }

  lemma InstancesUntouched(c: Config, s: State, a: Action)
    requires Enabled(c, s, a) && !TouchesInstance(a) && !a.Launch?
    ensures Apply(c, s, a).insts == s.insts
  {
  }

  /** Instance i of s is still there, of the same alias, and once exited stays so. */
  ghost predicate Stays(s: State, s2: State, i: nat)
    requires i < |s.insts|
  {
    i < |s2.insts| && s2.insts[i].alias == s.insts[i].alias && (s.insts[i].exited ==> s2.insts[i].exited)
  }

  lemma LeaseStays(c: Config, s: State, a: Action, i: nat)
    requires Enabled(c, s, a) && i < |s.insts| && TouchesLeases(a)
    ensures Stays(s, Apply(c, s, a), i)
  {
  }

  lemma FlagStays(c: Config, s: State, a: Action, i: nat)
    requires Enabled(c, s, a) && i < |s.insts| && TouchesInstance(a) && !TouchesLeases(a)
    ensures Stays(s, Apply(c, s, a), i)
  {
  }

  lemma LaunchStays(c: Config, s: State, t: nat, i: nat)
    requires Enabled(c, s, Launch(t)) && i < |s.insts|
    ensures Stays(s, Apply(c, s, Launch(t)), i)
  {
    hide FitsNow;
  }

  lemma InstancesStay(c: Config, s: State, a: Action, i: nat)
    requires Enabled(c, s, a) && i < |s.insts|
    ensures Stays(s, Apply(c, s, a), i)
  {
    hide Enabled, Apply;
    if a.Launch? {
      LaunchStays(c, s, a.t, i);
    } else if TouchesLeases(a) {
      LeaseStays(c, s, a, i);
    } else if TouchesInstance(a) {
      FlagStays(c, s, a, i);
    } else {
      InstancesUntouched(c, s, a);
    }
  }

  /** An instance becomes a stray in two ways only: it is stopped, or its own launch failed. */
  lemma StrayOnlyByStop(c: Config, s: State, a: Action, i: nat)
    requires Reachable(c, s) && Enabled(c, s, a) && i < |s.insts| && !Stray(s, i)
    ensures i < |Apply(c, s, a).insts|
    ensures Stray(Apply(c, s, a), i) ==> a.StopNext? || (a.RemoveFailed? && At(s, a.t).inst == i)
  {
    hide Reachable, Enabled, Apply;
    InstancesStay(c, s, a, i);
    if InSlot(s, i) { OnlyOwnOccupantRemoved(c, s, a, s.insts[i].alias); }
  }

  // ---- more processes than the cap ----

  /** Under a cap of one, "a" has been stopped and still runs; goroutine 1, which wants "b", is at p. */
  function Stopped(p: Point): State {
    State(map[], [Inst("a", 0, 0, false, true, true, 0, 0)], map[], 1, 2, {0, 1}, map[0 := Holding("a", 0, 0), 1 := p],
          0, false)
  }

  /** And "b" has been launched in its place. */
  function BothRun(): State {
    State(map["b" := 1], [Inst("a", 0, 0, false, true, true, 0, 0), Inst("b", 1, 0, false, false, false, 1, 0)],
          map[1 := Handle(1, 1)], 2, 2, {0, 1}, map[0 := Holding("a", 0, 0), 1 := Polling("b", 1, 1)], 0, false)
  }

  lemma StopA()
    ensures StepTo(OneSlot(), Contended(false, 0, Stopping(["a"], 1, Requester("b"))), StopNext(1),
                   Stopped(Stopping([], 1, Requester("b"))))
  {
    assert map["a" := 0] - {"a"} == map[];
    assert ["a"][1..] == [];
  }

  lemma RetryB()
    ensures StepTo(OneSlot(), Stopped(Stopping([], 1, Requester("b"))), StopDone(1), Stopped(Deadline("b")))
    ensures StepTo(OneSlot(), Stopped(Deadline("b")), Retry(1), Stopped(Top("b")))
  {
  }

  lemma LaunchB()
    ensures StepTo(OneSlot(), Stopped(Top("b")), Launch(1), BothRun())
  {
    assert Others(View(Stopped(Top("b"))), "b") == map[];
  }

  /** An evictor stops "a" and launches "b" while the process of "a" still runs: two processes
      under a cap of one. */
  lemma RunsOverTheCap()
    ensures OneSlot().limits.maxLoaded == 1
    ensures exists s :: Reachable(OneSlot(), s) && Running(s, |s.insts|, Slots) == 2 && Strays(s, |s.insts|, Slots) == 1
  {
    hide Reachable, StepTo, Contended;
    VictimChosen();
    StopA();
    RetryB();
    LaunchB();
    Advance(OneSlot(), Contended(false, 0, Stopping(["a"], 1, Requester("b"))), StopNext(1),
            Stopped(Stopping([], 1, Requester("b"))));
    Advance(OneSlot(), Stopped(Stopping([], 1, Requester("b"))), StopDone(1), Stopped(Deadline("b")));
    Advance(OneSlot(), Stopped(Deadline("b")), Retry(1), Stopped(Top("b")));
    Advance(OneSlot(), Stopped(Top("b")), Launch(1), BothRun());
    var s := BothRun();
    assert !Stray(s, 1) && Stray(s, 0);
    assert Running(s, 1, Slots) == 1 && Strays(s, 1, Slots) == 1;
  }
}
