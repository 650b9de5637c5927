/** The managed-server manager as an object: the critical sections of the lock
    protocol as methods over mutable instances, and one Acquire that nobody
    interrupts. Starting a process and polling its health are outcomes passed in
    by the caller; the clock moves only where Acquire waits. */
module ServerManager {
  import opened Budget

  class ServerInstance {
    const alias: Alias
    const memory: int
    var exited: bool
    var healthy: bool
    var ready: bool
    var leases: int
    var lastUsed: int

    constructor (alias: Alias, memory: int, now: int)
      ensures this.alias == alias && this.memory == memory
      ensures View() == Inst(alias, 0, memory, false, false, false, 0, now)
    {
      this.alias, this.memory := alias, memory;
      exited, healthy, ready, leases, lastUsed := false, false, false, 0, now;
    }

    ghost function View(): Inst
      reads this
    {
      Inst(alias, 0, memory, exited, healthy, ready, leases, lastUsed)
    }
  }

  /** A broadcast channel: closed once, then replaced. */
  class Signal {
    var closed: bool
    constructor ()
      ensures !closed
    {
      closed := false;
    }
  }

  /** The release function of one lease. */
  class Lease {
    const inst: ServerInstance
    var released: bool
    constructor (inst: ServerInstance)
      ensures this.inst == inst && !released
    {
      this.inst := inst;
      released := false;
    }
  }

  datatype Outcome =
    | Unknown            // no such alias is configured
    | TooBig             // could not fit an empty manager
    | Leased(lease: Lease)
    | TimedOut           // the admission deadline passed
    | LaunchFailed       // the process did not start
    | Unhealthy          // it started and failed its health check

  // ---- the eviction plan, as a property of what was tracked when Acquire began ----

  /** What a caller that wants `alias` may not evict: leased or exited instances. */
  ghost function Busy(t: Tracked, alias: Alias): Tracked {
    t - IdleSet(t, alias)
  }

  ghost function IdleSet(t: Tracked, alias: Alias): set<Alias> {
    set a | a in t && Evictable(t, alias, a)
  }

  ghost function Elements(s: seq<Alias>): set<Alias> {
    set a | a in s
  }

  /** Evicting `victims` one after the other: each time the model does not fit yet, and the
      victim is the oldest idle instance left. */
  ghost predicate Evictions(l: Limits, t: Tracked, alias: Alias, need: int, victims: seq<Alias>) {
    victims == [] ||
    (&& !Fits(l, t, alias, need)
     && IsVictim(t, alias, victims[0])
     && Evictions(l, t - {victims[0]}, alias, need, victims[1..]))
  }

  /** The evictions stopped as soon as the model fitted, or when nothing idle was left. */
  ghost predicate Admitted(l: Limits, t: Tracked, alias: Alias, need: int, victims: seq<Alias>, fits: bool) {
    && Evictions(l, t, alias, need, victims)
    && (fits <==> Fits(l, t - Elements(victims), alias, need))
    && (!fits ==> IdleSet(t - Elements(victims), alias) == {})
  }

  lemma {:induction false} OneMore(l: Limits, t: Tracked, alias: Alias, need: int, victims: seq<Alias>, v: Alias)
    requires Evictions(l, t, alias, need, victims)
    requires !Fits(l, t - Elements(victims), alias, need) && IsVictim(t - Elements(victims), alias, v)
    ensures Evictions(l, t, alias, need, victims + [v])
  {
    if victims == [] {
      assert t - Elements([]) == t;
    } else {
      assert Elements(victims) == {victims[0]} + Elements(victims[1..]);
      assert t - Elements(victims) == t - {victims[0]} - Elements(victims[1..]);
      OneMore(l, t - {victims[0]}, alias, need, victims[1..], v);
      assert (victims + [v])[1..] == victims[1..] + [v];
    }
  }

  ghost predicate NonNegativeMemory(t: Tracked) {
    forall a | a in t :: t[a].memory >= 0
  }

  lemma FitsAntitone(l: Limits, t: Tracked, alias: Alias, need: int, fewer: set<Alias>, more: set<Alias>)
    requires NonNegativeMemory(t) && fewer <= more && Fits(l, t - fewer, alias, need)
    ensures Fits(l, t - more, alias, need)
  {
    RoomAntitone(l, Others(t - more, alias), Others(t - fewer, alias), need);
  }

  /** The victims are idle instances, each once, oldest first, and every idle instance
      left alone was used no earlier than any of them. */
  lemma {:induction false} EvictionOrder(l: Limits, t: Tracked, alias: Alias, need: int, victims: seq<Alias>)
    requires Evictions(l, t, alias, need, victims)
    ensures forall i | 0 <= i < |victims| :: Evictable(t, alias, victims[i])
    ensures forall i, j | 0 <= i < j < |victims| ::
              victims[i] != victims[j] && t[victims[i]].lastUsed <= t[victims[j]].lastUsed
    ensures forall i, a | 0 <= i < |victims| && Evictable(t, alias, a) && a !in victims ::
              t[victims[i]].lastUsed <= t[a].lastUsed
  {
    if victims != [] {
      var v, rest := victims[0], victims[1..];
      EvictionOrder(l, t - {v}, alias, need, rest);
      forall i | 0 < i < |victims| ensures Evictable(t, alias, victims[i]) && victims[i] != v {
        assert victims[i] == rest[i - 1];
      }
      forall i, j | 0 <= i < j < |victims|
        ensures victims[i] != victims[j] && t[victims[i]].lastUsed <= t[victims[j]].lastUsed
      {
        assert victims[j] == rest[j - 1];
        if i > 0 { assert victims[i] == rest[i - 1]; }
      }
      forall i, a | 0 <= i < |victims| && Evictable(t, alias, a) && a !in victims
        ensures t[victims[i]].lastUsed <= t[a].lastUsed
      {
        if i > 0 { assert victims[i] == rest[i - 1] && a !in rest && Evictable(t - {v}, alias, a); }
      }
    }
  }

  /** No shorter run of evictions would have been enough. */
  lemma {:induction false} NoShorterRun(l: Limits, t: Tracked, alias: Alias, need: int, victims: seq<Alias>, k: nat)
    requires Evictions(l, t, alias, need, victims) && k < |victims|
    ensures !Fits(l, t - Elements(victims[..k]), alias, need)
  {
    if k == 0 {
      assert t - Elements([]) == t;
    } else {
      NoShorterRun(l, t - {victims[0]}, alias, need, victims[1..], k - 1);
      assert Elements(victims[..k]) == {victims[0]} + Elements(victims[1..][..k - 1]) by {
        assert victims[..k] == [victims[0]] + victims[1..][..k - 1];
      }
      assert t - Elements(victims[..k]) == t - {victims[0]} - Elements(victims[1..][..k - 1]);
    }
  }

  /** The model was admitted exactly when the busy instances alone leave it room. */
  lemma BusyDecides(l: Limits, t: Tracked, alias: Alias, need: int, victims: seq<Alias>, fits: bool)
    requires NonNegativeMemory(t) && Admitted(l, t, alias, need, victims, fits)
    ensures fits <==> Fits(l, Busy(t, alias), alias, need)
    ensures !fits ==> IdleSet(t, alias) == Elements(victims)
  {
    EvictionOrder(l, t, alias, need, victims);
    assert Elements(victims) <= IdleSet(t, alias);
    if fits {
      FitsAntitone(l, t, alias, need, Elements(victims), IdleSet(t, alias));
    } else {
      forall a | a in IdleSet(t, alias) ensures a in Elements(victims) {
        assert a !in IdleSet(t - Elements(victims), alias);
      }
      assert Elements(victims) == IdleSet(t, alias);
    }
  }

  /** What a caller may not evict: exited instances, leased ones, and its own. */
  lemma BusyAre(t: Tracked, alias: Alias, a: Alias)
    ensures a in Busy(t, alias) <==> a in t && (t[a].exited || t[a].leases > 0 || a == alias)
    ensures a in Busy(t, alias) ==> Busy(t, alias)[a] == t[a]
  {
  }

  /** The caps leave room for one more instance of this size beside the running ones of t. */
  ghost predicate LeavesRoom(l: Limits, t: Tracked, need: int) {
    && (l.maxLoaded > 0 ==> |Alive(t)| + 1 <= l.maxLoaded)
    && (l.maxMemory > 0 && need > 0 ==> Total(Alive(t), Bytes) + need <= l.maxMemory)
  }

  /** The model is refused exactly when launching it beside the busy instances alone would break
      a cap, and admitting it breaks none. */
  lemma AdmittedIffBusyLeaveRoom(l: Limits, t: Tracked, alias: Alias, need: int, victims: seq<Alias>, fits: bool)
    requires NonNegativeMemory(t) && alias !in t && Admitted(l, t, alias, need, victims, fits)
    ensures fits <==> LeavesRoom(l, Busy(t, alias), need)
    ensures fits && Within(l, t) && need >= 0 ==> forall i: Inst | i.memory == need && !i.exited ::
              Within(l, (t - Elements(victims))[alias := i])
  {
    BusyDecides(l, t, alias, need, victims, fits);
    assert Others(Busy(t, alias), alias) == Alive(Busy(t, alias));
    TotalSlots(Alive(Busy(t, alias)));
    if fits && Within(l, t) && need >= 0 {
      var left := t - Elements(victims);
      assert left - {alias} == left;
      WithinFewer(l, t, left);
      forall i: Inst | i.memory == need && !i.exited ensures Within(l, left[alias := i]) {
        FitsIffWithinAfter(l, left, alias, i);
        TotalSlots(Alive(left[alias := i]));
      }
    }
  }

  lemma WithinFewer(l: Limits, t: Tracked, fewer: Tracked)
    requires NonNegativeMemory(t) && Within(l, t) && forall a | a in fewer :: a in t && fewer[a] == t[a]
    ensures Within(l, fewer)
  {
    TotalSubmap(Alive(fewer), Alive(t), Slots);
    TotalSubmap(Alive(fewer), Alive(t), Bytes);
  }

  /** The up-front rejection tells exactly the models that do not fit an empty manager by memory. */
  lemma TooBigIffEmptyCannotHold(l: Limits, need: int)
    requires need >= 0
    ensures l.maxMemory > 0 && need > l.maxMemory <==> !RoomFor(l.(maxLoaded := 0), map[], need)
  {
    assert Total(map[], Bytes) == 0;
  }

  /** The part of m a scan has passed once only the keys in `left` remain. */
  ghost function Outside(m: map<Alias, int>, left: set<Alias>): map<Alias, int> {
    map a | a in m && a !in left :: m[a]
  }

  lemma OutsideStep(m: map<Alias, int>, left: set<Alias>, a: Alias)
    requires a in left
    ensures var next := Outside(m, left - {a});
      if a in m then
        && Total(next, Slots) == Total(Outside(m, left), Slots) + 1
        && Total(next, Bytes) == Total(Outside(m, left), Bytes) + m[a]
      else next == Outside(m, left)
  {
    if a in m {
      TotalAdd(Outside(m, left), Slots, a, m[a]);
      TotalAdd(Outside(m, left), Bytes, a, m[a]);
      assert Outside(m, left - {a}) == Outside(m, left)[a := m[a]];
    }
  }

  lemma MinusMinus<V>(m: map<Alias, V>, victims: seq<Alias>, v: Alias)
    ensures m - Elements(victims) - {v} == m - Elements(victims + [v])
  {
    assert Elements(victims + [v]) == Elements(victims) + {v};
  }

  class Manager {
    const limits: Limits
    const estimate: map<Alias, int>
    const idleTimeout: int
    const admissionTimeout: int
    var instances: map<Alias, ServerInstance>
    var idleSignal: Signal
    var now: int

    ghost predicate Valid()
      reads this, instances.Values, idleSignal
    {
      && !idleSignal.closed
      && "" !in instances
      && (forall a | a in estimate :: a != "" && estimate[a] >= 0)
      && (forall a | a in instances :: instances[a].alias == a && instances[a].memory >= 0)
    }

    ghost function View(): Tracked
      reads this, instances.Values
    {
      map a | a in instances :: instances[a].View()
    }

    constructor (limits: Limits, estimate: map<Alias, int>, idleTimeout: int, admissionTimeout: int, now: int)
      requires forall a | a in estimate :: a != "" && estimate[a] >= 0
      requires admissionTimeout > 0
      ensures Valid() && View() == map[] && fresh(idleSignal)
      ensures this.limits == limits && this.estimate == estimate && this.idleTimeout == idleTimeout && this.now == now
    {
      this.limits, this.estimate := limits, estimate;
      this.idleTimeout, this.admissionTimeout, this.now := idleTimeout, admissionTimeout, now;
      instances := map[];
      idleSignal := new Signal();
    }

    method FitsLocked(alias: Alias, need: int) returns (fits: bool)
      requires Valid()
      ensures View() == old(View()) && fits == Fits(limits, View(), alias, need)
    {
      var left := instances.Keys;
      var count, used := 0, 0;
      ghost var others := Others(View(), alias);
      assert Outside(others, left) == map[];
      while left != {}
        invariant left <= instances.Keys
        invariant count == Total(Outside(others, left), Slots)
        invariant used == Total(Outside(others, left), Bytes)
        decreases |left|
      {
        var a :| a in left;
        OutsideStep(others, left, a);
        left := left - {a};
        if !(a == alias || instances[a].exited) {
          count, used := count + 1, used + instances[a].memory;
        }
      }
      assert Outside(others, {}) == others;
      if limits.maxLoaded > 0 && count + 1 > limits.maxLoaded { return false; }
      if limits.maxMemory > 0 && need > 0 && used + need > limits.maxMemory { return false; }
      return true;
    }

    method LruIdleVictimLocked(exclude: Alias) returns (victim: Alias, found: bool)
      requires Valid()
      ensures View() == old(View()) && (found ==> IsVictim(View(), exclude, victim))
      ensures !found ==> forall a :: !Evictable(View(), exclude, a)
    {
      var left := instances.Keys;
      var oldest := 0;
      victim := "";
      while left != {}
        invariant left <= instances.Keys
        invariant victim == "" ==> forall a | a !in left :: !Evictable(View(), exclude, a)
        invariant victim != "" ==> Evictable(View(), exclude, victim) && oldest == View()[victim].lastUsed
        invariant victim != "" ==>
          forall a | a !in left && Evictable(View(), exclude, a) :: oldest <= View()[a].lastUsed
        decreases |left|
      {
        var a :| a in left;
        left := left - {a};
        var inst := instances[a];
        if !(a == exclude || inst.leases > 0 || inst.exited) {
          if victim == "" || inst.lastUsed < oldest {
            victim, oldest := a, inst.lastUsed;
          }
        }
      }
      found := victim != "";
    }

    method LeaseLocked(inst: ServerInstance)
      modifies inst`leases, inst`lastUsed
      ensures inst.View() == old(inst.View()).(leases := old(inst.leases) + 1, lastUsed := now)
    {
      inst.leases := inst.leases + 1;
      inst.lastUsed := now;
    }

    method SignalIdleLocked()
      requires !idleSignal.closed
      modifies this`idleSignal, idleSignal
      ensures fresh(idleSignal) && !idleSignal.closed && old(idleSignal).closed
    {
      idleSignal.closed := true;
      idleSignal := new Signal();
    }

    /** Releases a lease once; later calls change nothing. */
    method Release(lease: Lease)
      requires Valid()
      modifies lease, lease.inst`leases, lease.inst`lastUsed, this`idleSignal, idleSignal
      ensures Valid() && lease.released && (idleSignal == old(idleSignal) || fresh(idleSignal))
      ensures old(lease.released) ==> lease.inst.View() == old(lease.inst.View()) && idleSignal == old(idleSignal)
      ensures !old(lease.released) ==>
        lease.inst.View() == old(lease.inst.View()).(
          leases := if old(lease.inst.leases) > 0 then old(lease.inst.leases) - 1 else old(lease.inst.leases),
          lastUsed := now)
      ensures !old(lease.released) ==> (old(idleSignal).closed <==> lease.inst.leases == 0)
      ensures old(idleSignal).closed || idleSignal == old(idleSignal)
    {
      if lease.released { return; }
      lease.released := true;
      var inst := lease.inst;
      if inst.leases > 0 {
        inst.leases := inst.leases - 1;
      }
      inst.lastUsed := now;
      if inst.leases == 0 {
        SignalIdleLocked();
      }
    }

    method DropLocked(alias: Alias, inst: ServerInstance)
      requires Valid()
      modifies this`instances, this`idleSignal, idleSignal
      ensures Valid()
      ensures if alias in old(instances) && old(instances)[alias] == inst
              then instances == old(instances) - {alias} && old(idleSignal).closed && fresh(idleSignal)
              else instances == old(instances) && idleSignal == old(idleSignal)
    {
      if !(alias in instances && instances[alias] == inst) { return; }
      instances := instances - {alias};
      SignalIdleLocked();
    }

    /** Frees the slot; the process itself is told to stop afterwards. */
    method StopInstance(alias: Alias) returns (running: bool)
      requires Valid()
      modifies this`instances, this`idleSignal, idleSignal
      ensures Valid()
      ensures running == (alias in old(instances)) && instances == old(instances) - {alias}
      ensures running ==> old(idleSignal).closed && fresh(idleSignal)
      ensures !running ==> idleSignal == old(idleSignal)
    {
      if alias !in instances { return false; }
      DropLocked(alias, instances[alias]);
      return true;
    }

    ghost predicate IdleTooLong(a: Alias)
      reads this, instances.Values
    {
      a in instances && instances[a].leases == 0 && !instances[a].exited && now - instances[a].lastUsed >= idleTimeout
    }

    /** Stops exactly the unleased running instances idle for at least the timeout, and wakes the
        waiters exactly when there were any. */
    method ReapIdle()
      requires Valid()
      modifies this`instances, this`idleSignal, idleSignal
      ensures Valid()
      ensures forall a | a in instances :: a in old(instances) && instances[a] == old(instances)[a]
      ensures forall a | a in old(instances) :: a !in instances <==>
                (idleTimeout > 0 && old(instances[a].leases) == 0 && !old(instances[a].exited)
                 && now - old(instances[a].lastUsed) >= idleTimeout)
      ensures instances == old(instances) ==> idleSignal == old(idleSignal) && !idleSignal.closed
      ensures instances != old(instances) ==> old(idleSignal).closed && fresh(idleSignal)
    {
      if idleTimeout <= 0 { return; }
      var victims := [];
      var left := instances.Keys;
      while left != {}
        invariant left <= instances.Keys
        invariant forall a :: a in victims <==> a !in left && IdleTooLong(a)
        decreases |left|
      {
        var a :| a in left;
        left := left - {a};
        if instances[a].leases == 0 && !instances[a].exited && now - instances[a].lastUsed >= idleTimeout {
          victims := victims + [a];
        }
      }
      assert victims != [] ==> victims[0] in Elements(victims);
      StopAll(victims);
    }

    /** Stops some instances one after the other. */
    method StopAll(victims: seq<Alias>)
      requires Valid() && forall a | a in victims :: a in instances
      modifies this`instances, this`idleSignal, idleSignal
      ensures Valid() && instances == old(instances) - Elements(victims)
      ensures if victims == [] then idleSignal == old(idleSignal) else old(idleSignal).closed && fresh(idleSignal)
    {
      for i := 0 to |victims|
        invariant Valid()
        invariant instances == old(instances) - Elements(victims[..i])
        invariant i == 0 ==> idleSignal == old(idleSignal)
        invariant i > 0 ==> old(idleSignal).closed && fresh(idleSignal)
      {
        var _ := StopInstance(victims[i]);
        MinusMinus(old(instances), victims[..i], victims[i]);
        assert victims[..i + 1] == victims[..i] + [victims[i]];
      }
      assert victims[..|victims|] == victims;
    }

    /** Launches alias into its free slot and waits for the health check: the process starts
        if `launches`, and passes if `healthy`. Only a healthy instance stays in the slot. */
    method Start(alias: Alias, launches: bool, healthy: bool) returns (r: Outcome)
      requires Valid() && alias !in instances && alias in estimate
      modifies this`instances, this`idleSignal, idleSignal
      ensures Valid() && (idleSignal == old(idleSignal) || fresh(idleSignal))
      ensures r == LaunchFailed <==> !launches
      ensures r == Unhealthy <==> launches && !healthy
      ensures r.Leased? <==> launches && healthy
      ensures r.Leased? ==>
        && instances == old(instances)[alias := r.lease.inst]
        && fresh(r.lease) && fresh(r.lease.inst) && !r.lease.released
        && r.lease.inst.View() == Inst(alias, 0, estimate[alias], false, true, true, 1, now)
      ensures !r.Leased? ==> instances == old(instances)
    {
      if !launches { return LaunchFailed; }
      var inst := new ServerInstance(alias, estimate[alias], now);
      instances := instances[alias := inst];
      LeaseLocked(inst);
      var lease := new Lease(inst);
      if !healthy {
        DropLocked(alias, inst);
        assert instances == old(instances);
        inst.ready := true;
        Release(lease);
        return Unhealthy;
      }
      inst.healthy := true;
      inst.ready := true;
      return Leased(lease);
    }

    /** The fast path: keeps a living instance of alias, drops a dead one. */
    method FastPath(alias: Alias) returns (taken: bool)
      requires Valid()
      modifies this`instances, this`idleSignal, idleSignal
      ensures Valid() && (idleSignal == old(idleSignal) || fresh(idleSignal))
      ensures taken <==> alias in old(instances) && !old(instances)[alias].exited
      ensures instances == if taken then old(instances) else old(instances) - {alias}
      ensures View() == if taken then old(View()) else old(View()) - {alias}
    {
      if alias !in instances { return false; }
      if !instances[alias].exited { return true; }
      DropLocked(alias, instances[alias]);
      return false;
    }

    /** Evicts idle instances, oldest first, until the model fits or none is left. */
    method MakeRoom(alias: Alias, need: int) returns (fits: bool, evicted: seq<Alias>)
      requires Valid() && alias !in instances
      modifies this`instances, this`idleSignal, idleSignal
      ensures Valid() && (idleSignal == old(idleSignal) || fresh(idleSignal))
      ensures Admitted(limits, old(View()), alias, need, evicted, fits)
      ensures fits <==> LeavesRoom(limits, Busy(old(View()), alias), need)
      ensures instances == old(instances) - Elements(evicted)
    {
      evicted := [];
      ghost var t := View();
      assert t - Elements([]) == t && old(instances) - Elements([]) == instances;
      fits := FitsLocked(alias, need);
      while !fits
        invariant Valid() && (idleSignal == old(idleSignal) || fresh(idleSignal))
        invariant instances == old(instances) - Elements(evicted)
        invariant View() == t - Elements(evicted)
        invariant Evictions(limits, t, alias, need, evicted)
        invariant fits == Fits(limits, t - Elements(evicted), alias, need)
        decreases |instances|
      {
        var victim, found := EvictOldest(alias);
        if !found {
          assert IdleSet(t - Elements(evicted), alias) == {};
          break;
        }
        OneMore(limits, t, alias, need, evicted, victim);
        MinusMinus(t, evicted, victim);
        MinusMinus(old(instances), evicted, victim);
        evicted := evicted + [victim];
        fits := FitsLocked(alias, need);
      }
      AdmittedIffBusyLeaveRoom(limits, t, alias, need, evicted, fits);
    }

    /** Stops the least recently used idle instance, if there is one. */
    method EvictOldest(alias: Alias) returns (victim: Alias, found: bool)
      requires Valid()
      modifies this`instances, this`idleSignal, idleSignal
      ensures Valid() && (idleSignal == old(idleSignal) || fresh(idleSignal))
      ensures found ==>
        IsVictim(old(View()), alias, victim) && instances == old(instances) - {victim} && |instances| < |old(instances)|
      ensures !found ==> instances == old(instances) && forall a :: !Evictable(View(), alias, a)
      ensures View() == if found then old(View()) - {victim} else old(View())
    {
      victim, found := LruIdleVictimLocked(alias);
      if found {
        var _ := StopInstance(victim);
        assert old(instances).Keys == instances.Keys + {victim};
      }
    }

    /** One Acquire with nobody else running. Returns also the instances it evicted, in order. */
    method Acquire(alias: Alias, launches: bool, healthy: bool) returns (r: Outcome, evicted: seq<Alias>)
      requires Valid()
      modifies this, idleSignal, instances.Values`leases, instances.Values`lastUsed
      ensures Valid()
      ensures r == Unknown <==> alias !in estimate
      ensures r == TooBig <==> alias in estimate && limits.maxMemory > 0 && estimate[alias] > limits.maxMemory
      ensures r == Unknown || r == TooBig ==> evicted == [] && instances == old(instances)
      // an instance is already there, and lives
      ensures r != Unknown && r != TooBig && alias in old(View()) && !old(View())[alias].exited ==>
        && evicted == [] && instances == old(instances)
        && if old(View())[alias].healthy
           then r.Leased? && r.lease.inst == instances[alias] &&
             r.lease.inst.View() == old(View())[alias].(leases := old(View())[alias].leases + 1, lastUsed := now)
           else r == TimedOut
      // the slot is free, or holds a dead instance
      ensures r != Unknown && r != TooBig && !(alias in old(View()) && !old(View())[alias].exited) ==>
        && Admitted(limits, old(View()) - {alias}, alias, estimate[alias], evicted, r != TimedOut)
        && (r != TimedOut <==> LeavesRoom(limits, Busy(old(View()) - {alias}, alias), estimate[alias]))
        && (r == TimedOut || (r == LaunchFailed && !launches) || (r == Unhealthy && launches && !healthy) ||
              (r.Leased? && launches && healthy))
        && (if r.Leased? then
              && instances == (old(instances) - {alias} - Elements(evicted))[alias := r.lease.inst]
              && r.lease.inst.View() == Inst(alias, 0, estimate[alias], false, true, true, 1, now)
            else instances == old(instances) - {alias} - Elements(evicted))
      // nobody else's lease or last use changes, evicted or not, and only waiting takes time
      ensures forall i | i in old(instances.Values) && !(r.Leased? && i == r.lease.inst) :: i.View() == old(i.View())
      ensures now == if r == TimedOut then old(now) + admissionTimeout else old(now)
    {
      hide Admitted, Elements, LeavesRoom, Busy;
      evicted := [];
      if alias !in estimate { return Unknown, evicted; }
      var need := estimate[alias];
      if limits.maxMemory > 0 && need > limits.maxMemory { return TooBig, evicted; }
      var deadline := now + admissionTimeout;
      var taken := FastPath(alias);
      if taken {
        r := Reuse(instances[alias]);
        if r == TimedOut { now := deadline; } // nobody finishes that launch
        return r, evicted;
      }
      var fits;
      fits, evicted := MakeRoom(alias, need);
      if !fits {
        now := deadline; // nobody releases a lease
        return TimedOut, evicted;
      }
      r := Start(alias, launches, healthy);
    }

    /** Leases a living instance if it is healthy; waits in vain if it is not. */
    method Reuse(inst: ServerInstance) returns (r: Outcome)
      requires Valid()
      modifies inst`leases, inst`lastUsed
      ensures Valid()
      ensures if inst.healthy then r.Leased? && r.lease.inst == inst else r == TimedOut
      ensures inst.View() ==
        if inst.healthy then old(inst.View()).(leases := old(inst.leases) + 1, lastUsed := now) else old(inst.View())
    {
      if !inst.healthy { return TimedOut; }
      LeaseLocked(inst);
      var lease := new Lease(inst);
      return Leased(lease);
    }
  }
}
