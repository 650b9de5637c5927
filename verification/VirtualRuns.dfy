/** What the pins mean for a conversation, over every interleaving of requests. A request takes
    the store's lock twice: once to look its pin up, which fixes the order of its candidates, and
    once more, after the whole response has passed, to record the candidate that answered. In
    between any other requests, of the same conversation too, may do either. */
module VirtualRuns {
  import opened Common
  import opened Affinity
  import opened VirtualTargets
  import opened VirtualWalk

  /** A request as it arrives: its conversation, the configuration, what is believed of it. */
  datatype Ask = Ask(key: Key, targets: seq<Target>, statuses: seq<Status>, managers: seq<Manager>)

  /** A request that has looked its pin up: the candidates in the order it will attempt them. */
  datatype Request = Request(key: Key, order: seq<Candidate>)

  /** Requests are numbered in the order they look up; `open` are those not yet finished. `all` is
      everything ever recorded, the last of each key. */
  datatype State = State(store: Pins, all: Pins, asked: seq<Request>, open: set<nat>, now: int)

  datatype Action =
    | Look(ask: Ask)
    | Finish(t: nat, fate: Fate, store: Pins)   // the walk is over; the store after its record
    | Tick(later: int)

  function Choices(a: Ask): seq<Candidate> {
    Candidates(a.targets, a.statuses, a.managers)
  }

  /** What a finished request records, if anything: the candidate that answered, unless with a
      server error. */
  function Recorded(r: Request, f: Fate): Option<string> {
    var w := WalkFrom(|r.order|, 0, f);
    if w.end == Answered && w.at < |r.order| && f.attempt(w.at).status < SERVER_ERROR
    then Some(Identity(r.order[w.at])) else None
  }

  ghost predicate Enabled(l: Limits, s: State, a: Action) {
    match a
    case Look(_) => true
    case Finish(t, fate, store) =>
      t in s.open && t < |s.asked| && Leaves(l, s.store, s.asked[t].key, s.asked[t].order, fate, s.now, store)
    case Tick(later) => s.now <= later
  }

  ghost function Apply(l: Limits, s: State, a: Action): State
    requires Enabled(l, s, a)
  {
    match a
    case Look(ask) =>
      var r := Request(ask.key, Reordered(Choices(ask), Lookup(s.store, ask.key, s.now, l.ttl)));
      s.(asked := s.asked + [r], open := s.open + {|s.asked|})
    case Finish(t, fate, store) =>
      var to := Recorded(s.asked[t], fate);
      s.(store := store, open := s.open - {t},
         all := if to.Some? then Remembered(s.all, s.asked[t].key, to.value, s.now) else s.all)
    case Tick(later) => s.(now := later)
  }

  function Empty(now: int): State {
    State(map[], map[], [], {}, now)
  }

  datatype Run = Run(states: seq<State>, actions: seq<Action>)

  ghost predicate IsRun(l: Limits, r: Run) {
    && l.cap > 0 && |r.states| == |r.actions| + 1 && r.states[0] == Empty(r.states[0].now)
    && (forall i | 0 <= i < |r.actions| ::
          Enabled(l, r.states[i], r.actions[i]) && r.states[i + 1] == Apply(l, r.states[i], r.actions[i]))
  }

  // ---- the store refines everything recorded ----

  ghost predicate Inv(l: Limits, s: State) {
    l.cap > 0 && Refines(l, s.store, s.all, s.now) && forall t | t in s.open :: t < |s.asked|
  }

  lemma RefinesLater(l: Limits, m: Pins, all: Pins, last: int, now: int)
    requires Refines(l, m, all, last) && last <= now
    ensures Refines(l, m, all, now)
  {
  }

  lemma FinishKeeps(l: Limits, s: State, t: nat, f: Fate, store: Pins)
    requires Inv(l, s) && Enabled(l, s, Finish(t, f, store))
    ensures Inv(l, Apply(l, s, Finish(t, f, store)))
  {
    hide Refines, Records;
    var to := Recorded(s.asked[t], f);
    if to.Some? {
      RecordKeepsRefinement(l, s.store, s.all, s.now, s.asked[t].key, to.value, s.now, store);
    }
  }

  lemma StepKeeps(l: Limits, s: State, a: Action)
    requires Inv(l, s) && Enabled(l, s, a)
    ensures Inv(l, Apply(l, s, a))
  {
    hide Refines, Leaves, Reordered, Recorded;
    match a
    case Look(_) =>
    case Finish(t, f, store) => FinishKeeps(l, s, t, f, store);
    case Tick(later) => RefinesLater(l, s.store, s.all, s.now, later);
  }

  /** In every state of every interleaving the store refines all that was recorded. */
  lemma {:induction false} RunRefines(l: Limits, r: Run, n: nat)
    requires IsRun(l, r) && n <= |r.actions|
    ensures Inv(l, r.states[n])
  {
    if n == 0 {
      RefinesEmpty(l, r.states[0].now);
    } else {
      RunRefines(l, r, n - 1);
      assert Enabled(l, r.states[n - 1], r.actions[n - 1]);
      StepKeeps(l, r.states[n - 1], r.actions[n - 1]);
    }
  }

  // ---- conversations ----

  ghost predicate PinnedTo(s: State, key: Key, target: string) {
    key in s.all && s.all[key].target == target
  }

  /** The target is still configured, has answered within the time to live, and fewer other
      conversations than the store can hold are at least as recent. */
  ghost predicate Held(l: Limits, s: State, ask: Ask, target: string) {
    && Offers(Choices(ask), target)
    && ask.key in s.all && Live(s.all[ask.key], s.now, l.ttl) && |AtLeastAsRecent(s.all, ask.key)| < l.cap
  }

  /** The first candidate responds before it fails, or is never attempted. */
  predicate Responds(f: Fate) {
    !(f.attempt(0).failed && !f.attempt(0).wrote)
  }

  /** The circumstances of one step: a lookup of the conversation finds its pin held, and a
      request of it that looked up from `mark` on does not see its first candidate fail before
      responding. */
  ghost predicate Favourable(l: Limits, s: State, a: Action, key: Key, target: string, mark: nat) {
    match a
    case Look(ask) => ask.key == key ==> Held(l, s, ask, target)
    case Finish(t, fate, _) => t < |s.asked| && s.asked[t].key == key && mark <= t ==> Responds(fate)
    case Tick(_) => true
  }

  ghost predicate AllFavourable(l: Limits, r: Run, p: nat, n: nat, key: Key, target: string)
    requires p <= n <= |r.actions| < |r.states|
  {
    forall i | p <= i < n :: Favourable(l, r.states[i], r.actions[i], key, target, |r.states[p].asked|)
  }

  /** A request of the conversation that had looked up before state p records, if anything, its pin. */
  ghost predicate Quiet(s: State, a: Action, key: Key, target: string, mark: nat) {
    a.Finish? && a.t < |s.asked| && a.t < mark && s.asked[a.t].key == key ==>
      Recorded(s.asked[a.t], a.fate) == None || Recorded(s.asked[a.t], a.fate) == Some(target)
  }

  ghost predicate OldOnesQuiet(r: Run, p: nat, n: nat, key: Key, target: string)
    requires p <= n <= |r.actions| < |r.states|
  {
    forall i | p <= i < n :: Quiet(r.states[i], r.actions[i], key, target, |r.states[p].asked|)
  }

  /** Its first candidate is the target. */
  predicate StartsAt(r: Request, target: string) {
    r.order != [] && Identity(r.order[0]) == target
  }

  ghost predicate NewOnesStartAt(s: State, mark: nat, key: Key, target: string) {
    forall t | mark <= t < |s.asked| && s.asked[t].key == key :: StartsAt(s.asked[t], target)
  }

  /** A walk whose first candidate responds attempts no other one and records no other one. */
  lemma OnlyFirstAttempted(r: Request, f: Fate, target: string)
    requires StartsAt(r, target) && Responds(f)
    ensures WalkFrom(|r.order|, 0, f).at == 0
    ensures forall j :: Attempted(WalkFrom(|r.order|, 0, f), j) ==> j == 0
    ensures Recorded(r, f) == None || Recorded(r, f) == Some(target)
  {
  }

  lemma HeldIsFound(l: Limits, s: State, ask: Ask, target: string)
    requires Inv(l, s) && PinnedTo(s, ask.key, target) && Held(l, s, ask, target) && target != ""
    ensures StartsAt(Request(ask.key, Reordered(Choices(ask), Lookup(s.store, ask.key, s.now, l.ttl))), target)
  {
    LookupRefines(l, s.store, s.all, s.now, ask.key, s.now);
    PinnedGoesFirst(Choices(ask), target);
  }

  /** One favourable step in which no old request records another target keeps the pin and sends
      every new request to it. */
  lemma StepSticks(l: Limits, s: State, a: Action, key: Key, target: string, mark: nat)
    requires Inv(l, s) && Enabled(l, s, a) && target != "" && mark <= |s.asked|
    requires PinnedTo(s, key, target) && NewOnesStartAt(s, mark, key, target)
    requires Favourable(l, s, a, key, target, mark) && Quiet(s, a, key, target, mark)
    ensures PinnedTo(Apply(l, s, a), key, target) && NewOnesStartAt(Apply(l, s, a), mark, key, target)
    ensures mark <= |Apply(l, s, a).asked|
  {
    hide Refines, Leaves, Reordered, StartsAt, Recorded;
    match a
    case Look(ask) => if ask.key == key { HeldIsFound(l, s, ask, target); }
    case Finish(t, f, _) => if mark <= t && s.asked[t].key == key { OnlyFirstAttempted(s.asked[t], f, target); }
    case Tick(_) =>
  }

  lemma {:induction false} Sticks(l: Limits, r: Run, p: nat, n: nat, key: Key, target: string)
    requires IsRun(l, r) && p <= n <= |r.actions| && target != "" && PinnedTo(r.states[p], key, target)
    requires AllFavourable(l, r, p, n, key, target) && OldOnesQuiet(r, p, n, key, target)
    ensures PinnedTo(r.states[n], key, target) && NewOnesStartAt(r.states[n], |r.states[p].asked|, key, target)
    ensures |r.states[p].asked| <= |r.states[n].asked|
  {
    hide Inv, PinnedTo, Favourable, Quiet, NewOnesStartAt, Apply;
    if n == p {
      NoneNewYet(r.states[p], key, target);
    } else {
      Sticks(l, r, p, n - 1, key, target);
      RunRefines(l, r, n - 1);
      assert Enabled(l, r.states[n - 1], r.actions[n - 1]);
      StepSticks(l, r.states[n - 1], r.actions[n - 1], key, target, |r.states[p].asked|);
    }
  }

  lemma NoneNewYet(s: State, key: Key, target: string)
    ensures NewOnesStartAt(s, |s.asked|, key, target)
  {
  }

  lemma LoudStepMovesPin(l: Limits, s: State, a: Action, key: Key, target: string, mark: nat)
    requires Inv(l, s) && Enabled(l, s, a) && PinnedTo(s, key, target) && !Quiet(s, a, key, target, mark)
    ensures !PinnedTo(Apply(l, s, a), key, target)
  {
    hide Leaves, Recorded;
  }

  /** Once a conversation is pinned to a target, and as long as its circumstances are favourable,
      its pin stays if and only if no request of it that had looked up before the pin answers
      afterwards from another candidate, whatever the registry believes and however the requests
      of all conversations interleave. */
  lemma PinStaysIffOldOnesQuiet(l: Limits, r: Run, p: nat, n: nat, key: Key, target: string)
    requires IsRun(l, r) && p <= n <= |r.actions| && target != "" && PinnedTo(r.states[p], key, target)
    requires AllFavourable(l, r, p, n, key, target)
    ensures (forall i | p <= i <= n :: PinnedTo(r.states[i], key, target)) <==> OldOnesQuiet(r, p, n, key, target)
  {
    if OldOnesQuiet(r, p, n, key, target) {
      forall i | p <= i <= n ensures PinnedTo(r.states[i], key, target) { Sticks(l, r, p, i, key, target); }
    } else {
      var i :| p <= i < n && !Quiet(r.states[i], r.actions[i], key, target, |r.states[p].asked|);
      if PinnedTo(r.states[i], key, target) {
        RunRefines(l, r, i);
        assert Enabled(l, r.states[i], r.actions[i]);
        LoudStepMovesPin(l, r.states[i], r.actions[i], key, target, |r.states[p].asked|);
        assert !PinnedTo(r.states[i + 1], key, target);
      }
    }
  }

  /** And then every request of the conversation that looks up after the pin, overlapping with
      what it may, attempts the target first and, when it finishes, has attempted no other. */
  lemma ConversationSticks(l: Limits, r: Run, p: nat, n: nat, key: Key, target: string)
    requires IsRun(l, r) && p <= n <= |r.actions| && target != "" && PinnedTo(r.states[p], key, target)
    requires AllFavourable(l, r, p, n, key, target) && OldOnesQuiet(r, p, n, key, target)
    ensures PinnedTo(r.states[n], key, target)
    ensures forall t | |r.states[p].asked| <= t < |r.states[n].asked| && r.states[n].asked[t].key == key ::
              StartsAt(r.states[n].asked[t], target)
    ensures forall i | p <= i < n && r.actions[i].Finish? ::
              var t := r.actions[i].t;
              |r.states[p].asked| <= t < |r.states[i].asked| && r.states[i].asked[t].key == key ==>
                forall j :: Attempted(WalkFrom(|r.states[i].asked[t].order|, 0, r.actions[i].fate), j) ==> j == 0
  {
    Sticks(l, r, p, n, key, target);
    var mark := |r.states[p].asked|;
    forall i | p <= i < n && r.actions[i].Finish? && mark <= r.actions[i].t < |r.states[i].asked|
        && r.states[i].asked[r.actions[i].t].key == key
      ensures forall j ::
                Attempted(WalkFrom(|r.states[i].asked[r.actions[i].t].order|, 0, r.actions[i].fate), j) ==> j == 0
    {
      Sticks(l, r, p, i, key, target);
      assert Favourable(l, r.states[i], r.actions[i], key, target, mark);
      OnlyFirstAttempted(r.states[i].asked[r.actions[i].t], r.actions[i].fate, target);
    }
  }

  /** A target's pin is its own: nothing but a candidate of the same alias, or of the same
      endpoint and model, can be what a conversation sticks to. */
  lemma SticksToOneBackend(r: Request, c: Candidate)
    requires StartsAt(r, Identity(c))
    ensures NameOf(r.order[0]) == NameOf(c)
  {
    IdentityIffSameName(r.order[0], c);
  }

  // ---- what it does not promise ----

  const KEY := Key("v", "c")
  const FEW := Limits(2, 10)
  const ONE := Endpoint("a", "", false)
  const TWO := Endpoint("b", "", false)
  const BOTH := [Target("a", "m", "", ""), Target("b", "m", "", "")]
  const FIRST := EndpointModel(ONE, "m", "")
  const SECOND := EndpointModel(TWO, "m", "")
  const ALL_UP := Ask(KEY, BOTH, [Status(ONE, true), Status(TWO, true)], [])
  const ONE_DOWN := Ask(KEY, BOTH, [Status(ONE, false), Status(TWO, true)], [])
  const ANSWERS := Fate(_ => false, _ => Attempt(true, 200, false))

  lemma TwoTargets(t: Target, u: Target, statuses: seq<Status>)
    ensures Candidates([t, u], statuses, [])
         == FreshOne(t, statuses, []) + FreshOne(u, statuses, []) + (StaleOne(t, statuses) + StaleOne(u, statuses))
  {
    var ts := [t, u];
    assert ts[..1] == [t] && ts[..1][..0] == [];
    assert Fresh(ts[..1], statuses, []) == FreshOne(t, statuses, []);
    assert Stale(ts[..1], statuses) == StaleOne(t, statuses);
    assert ts[..|ts| - 1] == ts[..1];
  }

  lemma TwoStatuses(a: Status, b: Status, name: string, onlineOnly: bool)
    ensures FindStatus([a, b], name, onlineOnly)
         == if b.endpoint.name == name && (onlineOnly ==> b.online) then Some(b.endpoint)
            else if a.endpoint.name == name && (onlineOnly ==> a.online) then Some(a.endpoint) else None
  {
    var ss := [a, b];
    assert ss[..1] == [a] && ss[..1][..0] == [] && ss[..|ss| - 1] == ss[..1];
    assert FindStatus(ss[..1], name, onlineOnly) ==
      if a.endpoint.name == name && (onlineOnly ==> a.online) then Some(a.endpoint) else None;
  }

  lemma ChoicesOfBoth()
    ensures Choices(ALL_UP) == [FIRST, SECOND] && Choices(ONE_DOWN) == [SECOND, FIRST]
  {
    hide Fresh, Stale, FindStatus;
    forall online: bool, name: string, only: bool
      ensures FindStatus([Status(ONE, online), Status(TWO, true)], name, only)
         == if name == "b" then Some(TWO) else if name == "a" && (only ==> online) then Some(ONE) else None
    {
      TwoStatuses(Status(ONE, online), Status(TWO, true), name, only);
    }
    TwoTargets(BOTH[0], BOTH[1], ALL_UP.statuses);
    TwoTargets(BOTH[0], BOTH[1], ONE_DOWN.statuses);
  }

  lemma NamesDiffer()
    ensures Identity(FIRST) != Identity(SECOND) && Identity(FIRST) != "" && Identity(SECOND) != ""
  {
    IdentityIffSameName(FIRST, SECOND);
    IdentityIffSameName(SECOND, FIRST);
  }

  /** Two requests of a conversation have looked up before either answered; the first believed
      both endpoints up, the second only the second one. */
  const OVERLAPPING := [Request(KEY, [FIRST, SECOND]), Request(KEY, [SECOND, FIRST])]

  lemma BothLookUp() returns (r: Run)
    ensures IsRun(FEW, r) && |r.actions| == 2 && r.states[2] == State(map[], map[], OVERLAPPING, {0, 1}, 0)
  {
    ChoicesOfBoth();
    hide Candidates, Leaves;
    var s1 := State(map[], map[], [Request(KEY, [FIRST, SECOND])], {0}, 0);
    var s2 := State(map[], map[], OVERLAPPING, {0, 1}, 0);
    assert Apply(FEW, Empty(0), Look(ALL_UP)) == s1;
    assert Apply(FEW, s1, Look(ONE_DOWN)) == s2;
    r := Run([Empty(0), s1, s2], [Look(ALL_UP), Look(ONE_DOWN)]);
  }

  /** The pins once the first request has answered, and once the second one has. */
  const FIRST_PIN := map[KEY := Entry(Identity(FIRST), 0)]
  const SECOND_PIN := map[KEY := Entry(Identity(SECOND), 0)]

  lemma FirstAnswers(r: Request, m: Pins)
    requires r == OVERLAPPING[0] || r == OVERLAPPING[1]
    requires m == map[] || m == FIRST_PIN
    ensures Recorded(r, ANSWERS) == Some(Identity(r.order[0]))
    ensures Leaves(FEW, m, KEY, r.order, ANSWERS, 0, map[KEY := Entry(Identity(r.order[0]), 0)])
    ensures Remembered(m, KEY, Identity(r.order[0]), 0) == map[KEY := Entry(Identity(r.order[0]), 0)]
  {
    hide Identity;
    assert Unexpired(m, 0, FEW.ttl) == m;
  }

  lemma ThirdGoesSecond()
    ensures Reordered(Choices(ALL_UP), Lookup(SECOND_PIN, KEY, 0, FEW.ttl)) == [SECOND, FIRST]
  {
    ChoicesOfBoth();
    NamesDiffer();
    hide Identity, Candidates;
    assert [FIRST, SECOND][1..] == [SECOND];
    assert IndexOf([FIRST, SECOND], Identity(SECOND)) == 1;
  }

  const PINNED := State(FIRST_PIN, FIRST_PIN, OVERLAPPING, {1}, 0)
  const MOVED := State(SECOND_PIN, SECOND_PIN, OVERLAPPING, {}, 0)
  const GONE := State(SECOND_PIN, SECOND_PIN, OVERLAPPING + [Request(KEY, [SECOND, FIRST])], {2}, 0)
  const FIRST_DONE := Finish(0, ANSWERS, FIRST_PIN)
  const SECOND_DONE := Finish(1, ANSWERS, SECOND_PIN)

  lemma OverlappingSteps()
    ensures var s := State(map[], map[], OVERLAPPING, {0, 1}, 0);
      Enabled(FEW, s, FIRST_DONE) && Apply(FEW, s, FIRST_DONE) == PINNED
    ensures Enabled(FEW, PINNED, SECOND_DONE) && Apply(FEW, PINNED, SECOND_DONE) == MOVED
    ensures Apply(FEW, MOVED, Look(ALL_UP)) == GONE
  {
    FirstAnswers(OVERLAPPING[0], map[]);
    FirstAnswers(OVERLAPPING[1], FIRST_PIN);
    ThirdGoesSecond();
    hide Candidates, Leaves, Identity, Reordered, Recorded, Lookup;
  }

  lemma Extend(l: Limits, r: Run, a: Action) returns (r2: Run)
    requires IsRun(l, r) && Enabled(l, r.states[|r.actions|], a)
    ensures r2 == Run(r.states + [Apply(l, r.states[|r.actions|], a)], r.actions + [a]) && IsRun(l, r2)
  {
    hide Enabled, Apply;
    r2 := Run(r.states + [Apply(l, r.states[|r.actions|], a)], r.actions + [a]);
  }

  lemma StillFavourable()
    ensures Favourable(FEW, PINNED, SECOND_DONE, KEY, Identity(FIRST), 2)
    ensures !Quiet(PINNED, SECOND_DONE, KEY, Identity(FIRST), 2)
    ensures Favourable(FEW, MOVED, Look(ALL_UP), KEY, Identity(FIRST), 2)
  {
    ChoicesOfBoth();
    NamesDiffer();
    FirstAnswers(OVERLAPPING[1], FIRST_PIN);
    hide Candidates, Identity, Recorded;
    assert FIRST in [FIRST, SECOND];
    assert AtLeastAsRecent(SECOND_PIN, KEY) == {};
  }

  /** A pin is recorded after the whole response, so it moves when a request that had looked up
      before it answers from elsewhere: in circumstances as favourable as can be, the next
      request of the conversation goes to the second endpoint, though the first one never failed. */
  lemma OverlapMovesPin() returns (r: Run)
    ensures IsRun(FEW, r) && |r.actions| == 5
    ensures PinnedTo(r.states[3], KEY, Identity(FIRST)) && Identity(FIRST) != ""
    ensures AllFavourable(FEW, r, 3, 5, KEY, Identity(FIRST)) && !OldOnesQuiet(r, 3, 5, KEY, Identity(FIRST))
    ensures r.states[5].asked == OVERLAPPING + [Request(KEY, [SECOND, FIRST])]
    ensures !StartsAt(r.states[5].asked[2], Identity(FIRST))
  {
    NamesDiffer();
    StillFavourable();
    OverlappingSteps();
    hide Enabled, Apply, Identity, Favourable, Quiet;
    r := BothLookUp();
    r := Extend(FEW, r, FIRST_DONE);
    r := Extend(FEW, r, SECOND_DONE);
    assert Enabled(FEW, r.states[4], Look(ALL_UP)) by { LookIsEnabled(r.states[4], ALL_UP); }
    r := Extend(FEW, r, Look(ALL_UP));
    assert !Quiet(r.states[3], r.actions[3], KEY, Identity(FIRST), |r.states[3].asked|);
  }

  lemma LookIsEnabled(s: State, a: Ask)
    ensures Enabled(FEW, s, Look(a))
  {
  }
}
