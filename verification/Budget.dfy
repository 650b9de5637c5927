/** The admission budget of a managed-server manager: how many instances may be
    tracked at once, how much memory they may hold, and which instance is the
    next one to evict. Both the concurrent protocol and the class that runs one
    uninterrupted Acquire are specified with these definitions. */
module Budget {

  type Alias = string

  /** A cap of 0 or less means "no cap". */
  datatype Limits = Limits(maxLoaded: int, maxMemory: int)

  /** One launched server process. `launcher` is the goroutine that started it. */
  datatype Inst = Inst(
    alias: Alias, launcher: nat, memory: int,
    exited: bool, healthy: bool, ready: bool,
    leases: int, lastUsed: int)

  type Tracked = map<Alias, Inst>

  /** The two caps measure the loaded instances in slots or in bytes. */
  datatype Measure = Slots | Bytes

  function Weight(bytes: int, u: Measure): int {
    if u.Slots? then 1 else bytes
  }

  ghost function Total(m: map<Alias, int>, u: Measure): int {
    if m == map[] then 0
    else
      var a :| a in m;
      Weight(m[a], u) + Total(m - {a}, u)
  }

  lemma {:induction false} TotalRemove(m: map<Alias, int>, u: Measure, a: Alias)
    requires a in m
    ensures Total(m, u) == Weight(m[a], u) + Total(m - {a}, u)
    decreases |m|
  {
    var b :| b in m && Total(m, u) == Weight(m[b], u) + Total(m - {b}, u);
    if a != b {
      TotalRemove(m - {b}, u, a);
      TotalRemove(m - {a}, u, b);
      assert m - {b} - {a} == m - {a} - {b};
    }
  }

  lemma TotalAdd(m: map<Alias, int>, u: Measure, a: Alias, v: int)
    requires a !in m
    ensures Total(m[a := v], u) == Total(m, u) + Weight(v, u)
  {
    TotalRemove(m[a := v], u, a);
    assert m[a := v] - {a} == m;
  }

  /** In slots, the total is the number of entries. */
  lemma {:induction false} TotalSlots(m: map<Alias, int>)
    ensures Total(m, Slots) == |m|
    decreases |m|
  {
    if m != map[] {
      var a :| a in m;
      TotalRemove(m, Slots, a);
      TotalSlots(m - {a});
      assert (m - {a}).Keys == m.Keys - {a};
    }
  }

  ghost predicate NonNegative(m: map<Alias, int>) {
    forall a | a in m :: m[a] >= 0
  }

  ghost predicate Submap(m: map<Alias, int>, n: map<Alias, int>) {
    forall a | a in m :: a in n && n[a] == m[a]
  }

  /** Fewer non-negative entries never weigh more. */
  lemma {:induction false} TotalSubmap(m: map<Alias, int>, n: map<Alias, int>, u: Measure)
    requires Submap(m, n) && NonNegative(n)
    ensures 0 <= Total(m, u) <= Total(n, u)
    decreases |n|
  {
    if n == map[] {
      assert m == map[];
    } else {
      var a :| a in n;
      TotalRemove(n, u, a);
      TotalSubmap(m - {a}, n - {a}, u);
      if a in m {
        TotalRemove(m, u, a);
      } else {
        assert m - {a} == m;
      }
    }
  }

  /** What the tracked instances other than `exclude` weigh, the exited ones left out. */
  ghost function Others(t: Tracked, exclude: Alias): map<Alias, int> {
    map a | a in t && a != exclude && !t[a].exited :: t[a].memory
  }

  /** The same, exited instances included. */
  ghost function Occupied(t: Tracked, exclude: Alias): map<Alias, int> {
    map a | a in t && a != exclude :: t[a].memory
  }

  ghost function Alive(t: Tracked): map<Alias, int> {
    map a | a in t && !t[a].exited :: t[a].memory
  }

  /** Whether `need` more bytes in one more slot stay inside the caps when `others` are loaded. */
  ghost predicate RoomFor(l: Limits, others: map<Alias, int>, need: int) {
    && (l.maxLoaded > 0 ==> Total(others, Slots) + 1 <= l.maxLoaded)
    && (l.maxMemory > 0 && need > 0 ==> Total(others, Bytes) + need <= l.maxMemory)
  }

  ghost predicate Fits(l: Limits, t: Tracked, alias: Alias, need: int) {
    RoomFor(l, Others(t, alias), need)
  }

  lemma RoomAntitone(l: Limits, m: map<Alias, int>, n: map<Alias, int>, need: int)
    requires Submap(m, n) && NonNegative(n) && RoomFor(l, n, need)
    ensures RoomFor(l, m, need)
  {
    TotalSubmap(m, n, Slots);
    TotalSubmap(m, n, Bytes);
  }

  ghost predicate Within(l: Limits, t: Tracked) {
    && (l.maxLoaded > 0 ==> Total(Alive(t), Slots) <= l.maxLoaded)
    && (l.maxMemory > 0 ==> Total(Alive(t), Bytes) <= l.maxMemory)
  }

  /** Counting bytes adds up what each entry weighs. */
  lemma BytesAddUp(m: map<Alias, int>, a: Alias, v: int)
    requires a !in m
    ensures Total(map[], Bytes) == 0 && Total(m[a := v], Bytes) == Total(m, Bytes) + v
  {
    TotalAdd(m, Bytes, a, v);
  }

  lemma LaunchedAlive(t: Tracked, alias: Alias, i: Inst)
    requires !i.exited
    ensures Others(t, alias) == Alive(t - {alias}) && alias !in Alive(t - {alias})
    ensures Alive((t - {alias})[alias := i]) == Alive(t - {alias})[alias := i.memory]
  {
  }

  /** A model is admitted exactly when both caps still hold with it launched: never over a cap,
      and never refused while there is room. */
  lemma FitsIffWithinAfter(l: Limits, t: Tracked, alias: Alias, i: Inst)
    requires Within(l, t - {alias}) && i.memory >= 0 && !i.exited
    ensures var after := Alive((t - {alias})[alias := i]);
      Fits(l, t, alias, i.memory) <==>
        (l.maxLoaded > 0 ==> |after| <= l.maxLoaded) && (l.maxMemory > 0 ==> Total(after, Bytes) <= l.maxMemory)
  {
    var before := Alive(t - {alias});
    LaunchedAlive(t, alias, i);
    hide Alive, Others, Total;
    TotalAdd(before, Bytes, alias, i.memory);
    TotalAdd(before, Slots, alias, i.memory);
    TotalSlots(before[alias := i.memory]);
  }

  /** An instance nobody leases, of another alias, whose process still runs. */
  ghost predicate Evictable(t: Tracked, exclude: Alias, a: Alias) {
    a in t && a != exclude && t[a].leases <= 0 && !t[a].exited
  }

  ghost predicate IsVictim(t: Tracked, exclude: Alias, v: Alias) {
    && Evictable(t, exclude, v)
    && forall a | Evictable(t, exclude, a) :: t[v].lastUsed <= t[a].lastUsed
  }
}
