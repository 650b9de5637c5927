/** The pins that keep a conversation on its backend: a bounded, lazily expired store that
    refines an unbounded timestamped map. */
module Affinity {
  import opened Common

  datatype Key = Key(virtual: string, conversation: string)
  datatype Entry = Entry(target: string, lastUsed: int)
  type Pins = map<Key, Entry>

  datatype Limits = Limits(cap: nat, ttl: int)

  predicate Live(e: Entry, now: int, ttl: int) {
    now - e.lastUsed <= ttl
  }

  function Unexpired(m: Pins, now: int, ttl: int): Pins {
    map k | k in m && Live(m[k], now, ttl) :: m[k]
  }

  /** The pinned target, or "" when there is no live pin. */
  function Lookup(m: Pins, key: Key, now: int, ttl: int): string {
    if key.conversation == "" || key !in m || !Live(m[key], now, ttl) then "" else m[key].target
  }

  /** No entry is older. */
  ghost predicate IsOldest(m: Pins, key: Key) {
    key in m && forall k | k in m :: m[key].lastUsed <= m[k].lastUsed
  }

  /** One step of the store: what is expired goes, and a new key goes in place of an oldest
      entry when the store is full. */
  ghost predicate Records(l: Limits, m: Pins, key: Key, target: string, now: int, m2: Pins) {
    var live := Unexpired(m, now, l.ttl);
    if key.conversation == "" then m2 == m
    else if key in live || |live| < l.cap then m2 == live[key := Entry(target, now)]
    else if live == map[] then m2 == map[key := Entry(target, now)]
    else exists v :: IsOldest(live, v) && m2 == (live - {v})[key := Entry(target, now)]
  }

  // ---- the unbounded map it refines ----

  function Remembered(all: Pins, key: Key, target: string, now: int): Pins {
    if key.conversation == "" then all else all[key := Entry(target, now)]
  }

  /** The other keys recorded at least as recently. */
  ghost function AtLeastAsRecent(all: Pins, key: Key): set<Key>
    requires key in all
  {
    set k | k in all && k != key && all[k].lastUsed >= all[key].lastUsed
  }

  /** The store holds only what was last recorded, never more than its capacity, and has lost
      something live only to as many others at least as recent as it can hold. */
  ghost predicate Refines(l: Limits, m: Pins, all: Pins, now: int) {
    && (forall k | k in m :: k in all && m[k] == all[k])
    && (forall k | k in all :: all[k].lastUsed <= now && k.conversation != "")
    && |m| <= l.cap
    && (forall k | k in all && k !in m && Live(all[k], now, l.ttl) :: |AtLeastAsRecent(all, k)| >= l.cap)
  }

  lemma RefinesEmpty(l: Limits, now: int)
    ensures Refines(l, map[], map[], now)
  {
  }

  lemma SizeOfSubset<T>(a: set<T>, b: set<T>)
    requires a <= b
    ensures |a| <= |b|
  {
    if a != {} {
      var x :| x in a;
      SizeOfSubset(a - {x}, b - {x});
    }
  }

  /** Recording only adds to what is at least as recent as an older entry. */
  lemma RecencyGrows(all: Pins, key: Key, target: string, now: int, k: Key)
    requires k in all && k != key && forall j | j in all :: all[j].lastUsed <= now
    ensures AtLeastAsRecent(all, k) <= AtLeastAsRecent(all[key := Entry(target, now)], k)
    ensures key in AtLeastAsRecent(all[key := Entry(target, now)], k)
  {
  }

  lemma EvictedToMoreRecent(l: Limits, live: Pins, all: Pins, key: Key, target: string, now: int, victim: Key)
    requires (forall k | k in live :: k in all && live[k] == all[k]) && (forall k | k in all :: all[k].lastUsed <= now)
    requires IsOldest(live, victim) && key !in live && |live| >= l.cap
    ensures |AtLeastAsRecent(all[key := Entry(target, now)], victim)| >= l.cap
  {
    var recent := AtLeastAsRecent(all[key := Entry(target, now)], victim);
    var others := live.Keys - {victim} + {key};
    assert |others| == |live.Keys|;
    assert others <= recent;
    SizeOfSubset(others, recent);
  }

  /** Every step keeps the refinement. */
  lemma RecordKeepsRefinement(l: Limits, m: Pins, all: Pins, last: int, key: Key, target: string, now: int, m2: Pins)
    requires Refines(l, m, all, last) && last <= now && l.cap > 0 && Records(l, m, key, target, now, m2)
    ensures Refines(l, m2, Remembered(all, key, target, now), now)
  {
    if key.conversation != "" {
      var live, all2 := Unexpired(m, now, l.ttl), all[key := Entry(target, now)];
      assert live.Keys <= m.Keys;
      SizeOfSubset(live.Keys, m.Keys);
      forall k | k in all2 && k !in m2 && Live(all2[k], now, l.ttl) ensures |AtLeastAsRecent(all2, k)| >= l.cap {
        assert k != key;
        RecencyGrows(all, key, target, now, k);
        if k !in m {
          SizeOfSubset(AtLeastAsRecent(all, k), AtLeastAsRecent(all2, k));
        } else {
          EvictedToMoreRecent(l, live, all, key, target, now, k);
        }
      }
    }
  }

  /** A lookup gives what was last recorded under that very key while it is live, or a miss; a
      live pin is missed only when as many others as the store can hold are at least as recent. */
  lemma LookupRefines(l: Limits, m: Pins, all: Pins, last: int, key: Key, now: int)
    requires Refines(l, m, all, last) && last <= now
    ensures Lookup(m, key, now, l.ttl) != "" ==>
      key in all && Live(all[key], now, l.ttl) && Lookup(m, key, now, l.ttl) == all[key].target
    ensures key in all && Live(all[key], now, l.ttl) && Lookup(m, key, now, l.ttl) != all[key].target ==>
      |AtLeastAsRecent(all, key)| >= l.cap
  {
  }

  /** A pin is found from its writing on until more than the time to live has passed, under a
      conversation's key only. */
  lemma LookupFinds(m: Pins, key: Key, now: int, ttl: int)
    ensures Lookup(m, key, now, ttl) ==
      if key.conversation != "" && key in m && now - m[key].lastUsed <= ttl then m[key].target else ""
  {
  }

  /** A write under a conversation pins it, refreshed, within the capacity. Every other pin is the
      one there was; one that has not outlived its time is missing only when the store was full
      of such pins, none of them of this key, and then it is one, no younger than any that stays. */
  lemma RecordPins(l: Limits, m: Pins, key: Key, target: string, now: int, m2: Pins)
    requires Records(l, m, key, target, now, m2) && key.conversation != "" && l.cap > 0
    ensures key in m2 && m2[key] == Entry(target, now)
    ensures forall k | k in m2 && k != key :: k in m && m2[k] == m[k] && now - m[k].lastUsed <= l.ttl
    ensures var alive := set k | k in m && now - m[k].lastUsed <= l.ttl;
      && (key in alive || |alive| < l.cap ==> alive <= m2.Keys)
      && (key !in alive && |alive| >= l.cap ==>
            exists v | v in alive :: alive - {v} <= m2.Keys && v !in m2 && IsOldest(Unexpired(m, now, l.ttl), v))
  {
    var live := Unexpired(m, now, l.ttl);
    assert live.Keys == set k | k in m && now - m[k].lastUsed <= l.ttl;
    assert |live| == |live.Keys|;
    if key !in live && |live| >= l.cap {
      assert live != map[];
      var v :| IsOldest(live, v) && m2 == (live - {v})[key := Entry(target, now)];
      assert v in live.Keys && live.Keys - {v} <= m2.Keys && v !in m2;
    }
  }

  /** One write, as a caller asks for it. */
  datatype Write = Write(key: Key, target: string, now: int)

  /** What a sweep at some time, if there is one, leaves. */
  function Swept(m: Pins, at: Option<int>, ttl: int): Pins {
    if at.Some? then Unexpired(m, at.value, ttl) else m
  }

  /** A store from empty, through some writes at times that never go back; before each of them
      there may be a sweep of what has expired. */
  ghost predicate IsSweptHistory(l: Limits, stores: seq<Pins>, writes: seq<Write>, sweeps: seq<Option<int>>,
                                 start: int)
  {
    && l.cap > 0 && |stores| == |writes| + 1 && |sweeps| == |writes| && stores[0] == map[]
    && (forall i | 0 <= i < |writes| :: LastTime(writes, i, start) <= writes[i].now)
    && (forall i | 0 <= i < |writes| :: SweepsThenRecords(l, stores[i], sweeps[i], writes[i], stores[i + 1]))
  }

  ghost predicate SweepsThenRecords(l: Limits, m: Pins, at: Option<int>, w: Write, m2: Pins) {
    (at.Some? ==> at.value <= w.now) && Records(l, Swept(m, at, l.ttl), w.key, w.target, w.now, m2)
  }

  /** Nothing but the writes themselves expires anything, as in the program. */
  ghost predicate IsHistory(l: Limits, stores: seq<Pins>, writes: seq<Write>, start: int) {
    IsSweptHistory(l, stores, writes, seq(|writes|, _ => None), start)
  }

  function LastTime(writes: seq<Write>, n: nat, start: int): int
    requires n <= |writes|
  {
    if n == 0 then start else writes[n - 1].now
  }

  /** The last write of every key, whatever its age. */
  function Everything(writes: seq<Write>): Pins {
    if writes == [] then map[]
    else
      var w := writes[|writes| - 1];
      Remembered(Everything(writes[..|writes| - 1]), w.key, w.target, w.now)
  }

  lemma HistoryStart(l: Limits, stores: seq<Pins>, writes: seq<Write>, start: int)
    requires IsHistory(l, stores, writes, start)
    ensures Refines(l, stores[0], Everything(writes[..0]), LastTime(writes, 0, start))
  {
    RefinesEmpty(l, start);
  }

  lemma HistoryStep(l: Limits, stores: seq<Pins>, writes: seq<Write>, start: int, n: nat)
    requires IsHistory(l, stores, writes, start) && n < |writes|
    ensures LastTime(writes, n, start) <= LastTime(writes, n + 1, start) == writes[n].now
    ensures Records(l, stores[n], writes[n].key, writes[n].target, writes[n].now, stores[n + 1])
    ensures Everything(writes[..n + 1]) ==
      Remembered(Everything(writes[..n]), writes[n].key, writes[n].target, writes[n].now)
  {
    hide Records, Remembered;
    var sweeps: seq<Option<int>> := seq(|writes|, _ => None);
    assert SweepsThenRecords(l, stores[n], sweeps[n], writes[n], stores[n + 1]);
    assert writes[..n + 1][..n] == writes[..n];
  }

  lemma {:induction false} HistoryRefines(l: Limits, stores: seq<Pins>, writes: seq<Write>, start: int, n: nat)
    requires IsHistory(l, stores, writes, start) && n <= |writes|
    ensures Refines(l, stores[n], Everything(writes[..n]), LastTime(writes, n, start))
  {
    hide Refines, Records, Everything, Remembered, LastTime;
    if n == 0 {
      HistoryStart(l, stores, writes, start);
    } else {
      var w := writes[n - 1];
      HistoryRefines(l, stores, writes, start, n - 1);
      HistoryStep(l, stores, writes, start, n - 1);
      RecordKeepsRefinement(l, stores[n - 1], Everything(writes[..n - 1]), LastTime(writes, n - 1, start), w.key,
                            w.target, w.now, stores[n]);
    }
  }

  /** After any history of writes the store is within its capacity, and a lookup gives the target
      last written under that very key while it is live, or a miss; a live one is missed only
      when as many others as the store can hold were written at least as recently. */
  lemma LookupOverHistory(l: Limits, stores: seq<Pins>, writes: seq<Write>, start: int, key: Key, now: int)
    requires IsHistory(l, stores, writes, start) && LastTime(writes, |writes|, start) <= now
    ensures var m, all, found := stores[|writes|], Everything(writes), Lookup(stores[|writes|], key, now, l.ttl);
      && |m| <= l.cap
      && (found != "" ==> key in all && Live(all[key], now, l.ttl) && found == all[key].target)
      && (key in all && Live(all[key], now, l.ttl) && found != all[key].target ==> |AtLeastAsRecent(all, key)| >= l.cap)
  {
    HistoryRefines(l, stores, writes, start, |writes|);
    assert writes[..|writes|] == writes;
    LookupRefines(l, stores[|writes|], Everything(writes), LastTime(writes, |writes|, start), key, now);
  }

  // ---- lazy expiry cannot be observed ----

  ghost function PinsOn(m: Pins, now: int, ttl: int, virtual: string, target: string): set<Key> {
    set k | k in m && Live(m[k], now, ttl) && k.virtual == virtual && m[k].target == target
  }

  /** Dropping what is expired at some time changes no lookup and no count at that or any later time. */
  lemma ExpiryUnobservable(m: Pins, at: int, now: int, ttl: int, key: Key, virtual: string, target: string)
    requires at <= now
    ensures Lookup(Unexpired(m, at, ttl), key, now, ttl) == Lookup(m, key, now, ttl)
    ensures PinsOn(Unexpired(m, at, ttl), now, ttl, virtual, target) == PinsOn(m, now, ttl, virtual, target)
  {
  }

  /** The same pins are alive from some time on. */
  ghost predicate AliveAlike(m: Pins, m2: Pins, since: int, ttl: int) {
    Unexpired(m, since, ttl) == Unexpired(m2, since, ttl)
  }

  lemma AlikeLater(m: Pins, m2: Pins, since: int, now: int, ttl: int)
    requires AliveAlike(m, m2, since, ttl) && since <= now
    ensures AliveAlike(m, m2, now, ttl)
  {
    assert Unexpired(m, now, ttl) == Unexpired(Unexpired(m, since, ttl), now, ttl);
    assert Unexpired(m2, now, ttl) == Unexpired(Unexpired(m2, since, ttl), now, ttl);
  }

  lemma AlikeObserved(m: Pins, m2: Pins, now: int, ttl: int, key: Key, virtual: string, target: string)
    requires AliveAlike(m, m2, now, ttl)
    ensures Lookup(m, key, now, ttl) == Lookup(m2, key, now, ttl)
    ensures PinsOn(m, now, ttl, virtual, target) == PinsOn(m2, now, ttl, virtual, target)
  {
    ExpiryUnobservable(m, now, now, ttl, key, virtual, target);
    ExpiryUnobservable(m2, now, now, ttl, key, virtual, target);
  }

  /** Whatever was swept before, a write under a conversation leaves exactly the same stores. */
  lemma WriteAfterSweep(l: Limits, m: Pins, at: Option<int>, w: Write, m2: Pins)
    requires w.key.conversation != "" && (at.Some? ==> at.value <= w.now)
    ensures Records(l, Swept(m, at, l.ttl), w.key, w.target, w.now, m2) <==> Records(l, m, w.key, w.target, w.now, m2)
  {
    assert Unexpired(Swept(m, at, l.ttl), w.now, l.ttl) == Unexpired(m, w.now, l.ttl);
  }

  /** One write keeps two stores alike, however each was swept before it. */
  lemma SweptStep(l: Limits, m: Pins, at: Option<int>, w: Write, m2: Pins, r: Pins, at2: Option<int>, last: int)
      returns (r2: Pins)
    requires AliveAlike(m, r, last, l.ttl) && last <= w.now
    requires SweepsThenRecords(l, m, at, w, m2) && (at2.Some? ==> at2.value <= w.now)
    ensures SweepsThenRecords(l, r, at2, w, r2) && AliveAlike(m2, r2, w.now, l.ttl)
  {
    AlikeLater(m, r, last, w.now, l.ttl);
    assert Unexpired(Swept(m, at, l.ttl), w.now, l.ttl) == Unexpired(m, w.now, l.ttl);
    assert Unexpired(Swept(r, at2, l.ttl), w.now, l.ttl) == Unexpired(r, w.now, l.ttl);
    r2 := if w.key.conversation == "" then Swept(r, at2, l.ttl) else m2;
  }

  /** A history with other sweeps up to its n-th write, its stores alike throughout. */
  ghost predicate Follows(l: Limits, stores: seq<Pins>, writes: seq<Write>, start: int, others: seq<Option<int>>,
                          n: nat, swept: seq<Pins>)
    requires n <= |writes| == |others| && |stores| == |writes| + 1
  {
    && |swept| == n + 1 && swept[0] == map[]
    && (forall i | 0 <= i < n :: SweepsThenRecords(l, swept[i], others[i], writes[i], swept[i + 1]))
    && (forall i | 0 <= i <= n :: AliveAlike(stores[i], swept[i], LastTime(writes, i, start), l.ttl))
  }

  lemma FollowsOn(l: Limits, stores: seq<Pins>, writes: seq<Write>, start: int, others: seq<Option<int>>,
                  n: nat, swept: seq<Pins>, next: Pins)
    requires n < |writes| == |others| && |stores| == |writes| + 1
    requires Follows(l, stores, writes, start, others, n, swept)
    requires SweepsThenRecords(l, swept[n], others[n], writes[n], next)
    requires AliveAlike(stores[n + 1], next, writes[n].now, l.ttl)
    ensures Follows(l, stores, writes, start, others, n + 1, swept + [next])
  {
    hide SweepsThenRecords, AliveAlike;
  }

  lemma {:induction false} SweptUpTo(l: Limits, stores: seq<Pins>, writes: seq<Write>, sweeps: seq<Option<int>>,
                                     start: int, others: seq<Option<int>>, n: nat)
      returns (swept: seq<Pins>)
    requires IsSweptHistory(l, stores, writes, sweeps, start) && n <= |writes|
    requires |others| == |writes| && forall i | 0 <= i < |writes| && others[i].Some? :: others[i].value <= writes[i].now
    ensures Follows(l, stores, writes, start, others, n, swept)
  {
    hide SweepsThenRecords, AliveAlike;
    if n == 0 {
      swept := [map[]];
      SameIsAlike(map[], start, l.ttl);
    } else {
      swept := SweptUpTo(l, stores, writes, sweeps, start, others, n - 1);
      var next := SweptStep(l, stores[n - 1], sweeps[n - 1], writes[n - 1], stores[n], swept[n - 1], others[n - 1],
                            LastTime(writes, n - 1, start));
      FollowsOn(l, stores, writes, start, others, n - 1, swept, next);
      swept := swept + [next];
    }
  }

  lemma SameIsAlike(m: Pins, since: int, ttl: int)
    ensures AliveAlike(m, m, since, ttl)
  {
  }

  /** When what has expired is swept cannot be observed over any history: with any other sweeps,
      none or one before every write, there is a history of the same writes whose stores answer
      every lookup and every count alike, at every point and any later time. */
  lemma SweepsUnobservable(l: Limits, stores: seq<Pins>, writes: seq<Write>, sweeps: seq<Option<int>>, start: int,
                           others: seq<Option<int>>) returns (swept: seq<Pins>)
    requires IsSweptHistory(l, stores, writes, sweeps, start)
    requires |others| == |writes| && forall i | 0 <= i < |writes| && others[i].Some? :: others[i].value <= writes[i].now
    ensures IsSweptHistory(l, swept, writes, others, start)
    ensures forall i, key, now | 0 <= i <= |writes| && LastTime(writes, i, start) <= now ::
              Lookup(swept[i], key, now, l.ttl) == Lookup(stores[i], key, now, l.ttl)
    ensures forall i, now, virtual, target | 0 <= i <= |writes| && LastTime(writes, i, start) <= now ::
              PinsOn(swept[i], now, l.ttl, virtual, target) == PinsOn(stores[i], now, l.ttl, virtual, target)
  {
    hide SweepsThenRecords, AliveAlike, Lookup, PinsOn, LastTime;
    swept := SweptUpTo(l, stores, writes, sweeps, start, others, |writes|);
    forall i, key, now | 0 <= i <= |writes| && LastTime(writes, i, start) <= now
      ensures Lookup(swept[i], key, now, l.ttl) == Lookup(stores[i], key, now, l.ttl)
    {
      AlikeLater(stores[i], swept[i], LastTime(writes, i, start), now, l.ttl);
      AlikeObserved(stores[i], swept[i], now, l.ttl, key, "", "");
    }
    forall i, now, virtual, target | 0 <= i <= |writes| && LastTime(writes, i, start) <= now
      ensures PinsOn(swept[i], now, l.ttl, virtual, target) == PinsOn(stores[i], now, l.ttl, virtual, target)
    {
      AlikeLater(stores[i], swept[i], LastTime(writes, i, start), now, l.ttl);
      AlikeObserved(stores[i], swept[i], now, l.ttl, Key("", ""), virtual, target);
    }
  }

  // ---- the store as the program runs it ----

  type Counts = map<string, map<string, nat>>

  function CountIn(c: Counts, virtual: string, target: string): nat {
    if virtual in c && target in c[virtual] then c[virtual][target] else 0
  }

  function Bumped(c: Counts, virtual: string, target: string): Counts {
    var byTarget := if virtual in c then c[virtual] else map[];
    c[virtual := byTarget[target := (if target in byTarget then byTarget[target] else 0) + 1]]
  }

  lemma OneMoreCount(c: Counts, virtual: string, target: string)
    ensures forall v, t ::
      CountIn(Bumped(c, virtual, target), v, t) == CountIn(c, v, t) + if v == virtual && t == target then 1 else 0
  {
  }

  class VirtualAffinityStore {
    const limits: Limits
    var entries: Pins
    ghost var all: Pins     // everything ever recorded, the last of each key
    ghost var last: int     // the time of the last record

    constructor (limits: Limits, now: int)
      requires limits.cap > 0
      ensures Valid() && entries == map[] && all == map[] && last == now && this.limits == limits
    {
      this.limits, entries, all, last := limits, map[], map[], now;
    }

    ghost predicate Valid()
      reads this
    {
      limits.cap > 0 && Refines(limits, entries, all, last)
    }

    method LookupPin(virtual: string, conversation: string, now: int) returns (target: string)
      ensures target == Lookup(entries, Key(virtual, conversation), now, limits.ttl)
    {
      if conversation == "" { return ""; }
      var key := Key(virtual, conversation);
      if key !in entries || now - entries[key].lastUsed > limits.ttl { return ""; }
      return entries[key].target;
    }

    /** Drops every entry past its time to live. */
    method ExpireLocked(now: int)
      modifies this`entries
      ensures entries == Unexpired(old(entries), now, limits.ttl)
    {
      var todo := entries.Keys;
      while todo != {}
        invariant todo <= entries.Keys <= old(entries.Keys)
        invariant forall k | k in entries ::
                    entries[k] == old(entries)[k] && (k in todo || Live(entries[k], now, limits.ttl))
        invariant forall k | k in old(entries) && Live(old(entries)[k], now, limits.ttl) :: k in entries
        decreases todo
      {
        var k :| k in todo;
        todo := todo - {k};
        if now - entries[k].lastUsed > limits.ttl {
          entries := entries - {k};
        }
      }
    }

    /** Drops one entry none is older than. */
    method EvictLRULocked()
      modifies this`entries
      ensures old(entries) == map[] ==> entries == map[]
      ensures old(entries) != map[] ==> exists k :: IsOldest(old(entries), k) && entries == old(entries) - {k}
    {
      var todo := entries.Keys;
      var oldest: Option<Key> := None;
      while todo != {}
        invariant todo <= entries.Keys
        invariant oldest.None? ==> todo == entries.Keys
        invariant oldest.Some? ==> oldest.value in entries
        invariant oldest.Some? ==>
          forall k | k in entries && k !in todo :: entries[oldest.value].lastUsed <= entries[k].lastUsed
        decreases todo
      {
        var k :| k in todo;
        todo := todo - {k};
        if oldest.None? || entries[k].lastUsed < entries[oldest.value].lastUsed {
          oldest := Some(k);
        }
      }
      if oldest.Some? {
        assert IsOldest(entries, oldest.value);
        entries := entries - {oldest.value};
      } else {
        assert entries.Keys == {};
      }
    }

    /** Pins or refreshes a conversation's target. */
    method Record(virtual: string, conversation: string, target: string, now: int)
      requires Valid() && last <= now
      modifies this
      ensures Valid() && last == now
      ensures Records(limits, old(entries), Key(virtual, conversation), target, now, entries)
      ensures all == Remembered(old(all), Key(virtual, conversation), target, now)
    {
      ghost var before := entries;
      var key := Key(virtual, conversation);
      if conversation != "" {
        ExpireLocked(now);
        if key !in entries && |entries| >= limits.cap {
          EvictLRULocked();
        }
        entries := entries[key := Entry(target, now)];
      }
      RecordKeepsRefinement(limits, before, all, last, key, target, now, entries);
      all, last := Remembered(all, key, target, now), now;
    }

    /** How many live pins each target of each virtual model has. */
    method PinCounts(now: int) returns (out: Counts)
      ensures forall v, t :: CountIn(out, v, t) == |PinsOn(entries, now, limits.ttl, v, t)|
    {
      out := map[];
      var todo := entries.Keys;
      ghost var done: Pins := map[];
      while todo != {}
        invariant todo <= entries.Keys
        invariant done == map k | k in entries && k !in todo :: entries[k]
        invariant forall v, t :: CountIn(out, v, t) == |PinsOn(done, now, limits.ttl, v, t)|
        decreases todo
      {
        var k :| k in todo;
        todo := todo - {k};
        OneMorePin(done, k, entries[k], now, limits.ttl);
        if now - entries[k].lastUsed <= limits.ttl {
          OneMoreCount(out, k.virtual, entries[k].target);
          out := Bumped(out, k.virtual, entries[k].target);
        }
        done := done[k := entries[k]];
      }
      assert done == entries;
    }
  }

  lemma OneMorePin(done: Pins, k: Key, e: Entry, now: int, ttl: int)
    requires k !in done
    ensures forall v, t ::
      |PinsOn(done[k := e], now, ttl, v, t)| ==
        |PinsOn(done, now, ttl, v, t)| + if Live(e, now, ttl) && k.virtual == v && e.target == t then 1 else 0
  {
    forall v, t ensures |PinsOn(done[k := e], now, ttl, v, t)| ==
      |PinsOn(done, now, ttl, v, t)| + if Live(e, now, ttl) && k.virtual == v && e.target == t then 1 else 0
    {
      var was, more := PinsOn(done, now, ttl, v, t), PinsOn(done[k := e], now, ttl, v, t);
      if Live(e, now, ttl) && k.virtual == v && e.target == t {
        assert more == was + {k};
      } else {
        assert more == was;
      }
    }
  }
}
