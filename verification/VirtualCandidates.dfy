/** What each target of a virtual model contributes to the order in which its candidates are
    tried, and which identities and dialects they have. */
module VirtualCandidates {
  import opened Common
  import opened VirtualTargets

  /** Some status is of an endpoint of this name, believed online if that is asked for. */
  predicate Listed(statuses: seq<Status>, name: string, onlineOnly: bool) {
    exists i | 0 <= i < |statuses| :: statuses[i].endpoint.name == name && (onlineOnly ==> statuses[i].online)
  }

  /** The configuration the last such status has. */
  predicate LastListed(statuses: seq<Status>, name: string, onlineOnly: bool, e: Endpoint) {
    exists i | 0 <= i < |statuses| ::
      && statuses[i].endpoint == e && e.name == name && (onlineOnly ==> statuses[i].online)
      && forall j | i < j < |statuses| :: !(statuses[j].endpoint.name == name && (onlineOnly ==> statuses[j].online))
  }

  predicate Managing(managers: seq<Manager>, alias: string) {
    exists i | 0 <= i < |managers| :: alias in managers[i].aliases
  }

  predicate FirstManaging(managers: seq<Manager>, alias: string, m: Manager) {
    exists i | 0 <= i < |managers| ::
      managers[i] == m && alias in m.aliases && forall j | 0 <= j < i :: alias !in managers[j].aliases
  }

  predicate Matches(s: Status, name: string, onlineOnly: bool) {
    s.endpoint.name == name && (onlineOnly ==> s.online)
  }

  lemma OneMoreListed(most: seq<Status>, last: Status, name: string, onlineOnly: bool, e: Endpoint)
    ensures Matches(last, name, onlineOnly) ==> LastListed(most + [last], name, onlineOnly, last.endpoint)
    ensures !Matches(last, name, onlineOnly) ==>
      (Listed(most + [last], name, onlineOnly) <==> Listed(most, name, onlineOnly))
      && (LastListed(most, name, onlineOnly, e) ==> LastListed(most + [last], name, onlineOnly, e))
  {
    var all := most + [last];
    assert all[|most|] == last && forall i | 0 <= i < |most| :: all[i] == most[i];
    if !Matches(last, name, onlineOnly) && LastListed(most, name, onlineOnly, e) {
      var i :| 0 <= i < |most| && most[i].endpoint == e && e.name == name && (onlineOnly ==> most[i].online)
        && forall j | i < j < |most| :: !(most[j].endpoint.name == name && (onlineOnly ==> most[j].online));
      assert all[i].endpoint == e;
    }
  }

  lemma LastIsListed(statuses: seq<Status>, name: string, onlineOnly: bool, e: Endpoint)
    requires LastListed(statuses, name, onlineOnly, e)
    ensures Listed(statuses, name, onlineOnly)
  {
  }

  lemma {:induction false} FindStatusIs(statuses: seq<Status>, name: string, onlineOnly: bool)
    ensures var r := FindStatus(statuses, name, onlineOnly);
      if Listed(statuses, name, onlineOnly) then r.Some? && LastListed(statuses, name, onlineOnly, r.value) else r.None?
  {
    if statuses != [] {
      hide Listed, LastListed;
      var most, last := statuses[..|statuses| - 1], statuses[|statuses| - 1];
      assert statuses == most + [last];
      FindStatusIs(most, name, onlineOnly);
      if Matches(last, name, onlineOnly) {
        OneMoreListed(most, last, name, onlineOnly, last.endpoint);
        LastIsListed(statuses, name, onlineOnly, last.endpoint);
      } else {
        var before := FindStatus(most, name, onlineOnly);
        OneMoreListed(most, last, name, onlineOnly, if before.Some? then before.value else last.endpoint);
      }
    }
  }

  lemma {:induction false} FindManagerIs(managers: seq<Manager>, alias: string)
    ensures var r := FindManager(managers, alias);
      if Managing(managers, alias) then r.Some? && FirstManaging(managers, alias, r.value) else r.None?
  {
    if managers != [] {
      var rest := managers[1..];
      FindManagerIs(rest, alias);
      assert forall i | 0 < i < |managers| :: managers[i] == rest[i - 1];
      if alias in managers[0].aliases {
        assert FirstManaging(managers, alias, managers[0]);
      } else if Managing(rest, alias) {
        var m := FindManager(rest, alias).value;
        var i :| 0 <= i < |rest| && rest[i] == m && alias in m.aliases
          && forall j | 0 <= j < i :: alias !in rest[j].aliases;
        assert managers[i + 1] == m;
      }
    }
  }

  /** What a target contributes to the fresh candidates or to the stale ones: an endpoint and
      model one candidate, fresh if and only if some status has the endpoint online, stale if it
      is only listed; an alias without them one fresh candidate if some manager has it; any other
      target nothing. */
  predicate Contributes(t: Target, statuses: seq<Status>, managers: seq<Manager>, isFresh: bool, cs: seq<Candidate>) {
    if t.endpoint != "" && t.model != "" then
      var online := Listed(statuses, t.endpoint, true);
      if isFresh == online && Listed(statuses, t.endpoint, false)
      then
        && |cs| == 1 && cs[0].EndpointModel? && cs[0].upstream == t.model && cs[0].params == t.params
        && LastListed(statuses, t.endpoint, online, cs[0].endpoint)
      else cs == []
    else if t.alias != "" && isFresh && Managing(managers, t.alias) then
      && |cs| == 1 && cs[0].Managed? && cs[0].alias == t.alias && cs[0].params == t.params
      && FirstManaging(managers, t.alias, cs[0].manager)
    else cs == []
  }

  lemma OnlineIsListed(statuses: seq<Status>, name: string)
    ensures Listed(statuses, name, true) ==> Listed(statuses, name, false)
  {
  }

  lemma TargetContributes(t: Target, statuses: seq<Status>, managers: seq<Manager>)
    ensures Contributes(t, statuses, managers, true, FreshOne(t, statuses, managers))
    ensures Contributes(t, statuses, managers, false, StaleOne(t, statuses))
  {
    hide Listed, LastListed, Managing, FirstManaging, FindStatus, FindManager;
    FindStatusIs(statuses, t.endpoint, true);
    FindStatusIs(statuses, t.endpoint, false);
    FindManagerIs(managers, t.alias);
    OnlineIsListed(statuses, t.endpoint);
  }

  function Flat(parts: seq<seq<Candidate>>): seq<Candidate> {
    if parts == [] then [] else Flat(parts[..|parts| - 1]) + parts[|parts| - 1]
  }

  predicate AllContribute(ts: seq<Target>, statuses: seq<Status>, managers: seq<Manager>, isFresh: bool,
                          parts: seq<seq<Candidate>>)
  {
    |parts| == |ts| && forall k | 0 <= k < |ts| :: Contributes(ts[k], statuses, managers, isFresh, parts[k])
  }

  lemma OneMoreContributes(ts: seq<Target>, statuses: seq<Status>, managers: seq<Manager>, isFresh: bool,
                           parts: seq<seq<Candidate>>, part: seq<Candidate>)
    requires ts != [] && AllContribute(ts[..|ts| - 1], statuses, managers, isFresh, parts)
    requires Contributes(ts[|ts| - 1], statuses, managers, isFresh, part)
    ensures AllContribute(ts, statuses, managers, isFresh, parts + [part])
    ensures Flat(parts + [part]) == Flat(parts) + part
  {
    hide Contributes;
    assert (parts + [part])[..|parts|] == parts;
  }

  lemma {:induction false} Contributions(ts: seq<Target>, statuses: seq<Status>, managers: seq<Manager>)
      returns (freshOnes: seq<seq<Candidate>>, staleOnes: seq<seq<Candidate>>)
    ensures AllContribute(ts, statuses, managers, true, freshOnes) && Flat(freshOnes) == Fresh(ts, statuses, managers)
    ensures AllContribute(ts, statuses, managers, false, staleOnes) && Flat(staleOnes) == Stale(ts, statuses)
  {
    if ts == [] {
      freshOnes, staleOnes := [], [];
    } else {
      hide AllContribute, Contributes, Flat, FreshOne, StaleOne;
      var t := ts[|ts| - 1];
      freshOnes, staleOnes := Contributions(ts[..|ts| - 1], statuses, managers);
      TargetContributes(t, statuses, managers);
      OneMoreContributes(ts, statuses, managers, true, freshOnes, FreshOne(t, statuses, managers));
      OneMoreContributes(ts, statuses, managers, false, staleOnes, StaleOne(t, statuses));
      freshOnes, staleOnes := freshOnes + [FreshOne(t, statuses, managers)], staleOnes + [StaleOne(t, statuses)];
    }
  }

  /** The candidates are what the targets contribute fresh, in declared order, and after them
      what they contribute stale, in declared order; the count is of the fresh ones. */
  lemma CandidatesAre(ts: seq<Target>, statuses: seq<Status>, managers: seq<Manager>)
      returns (freshOnes: seq<seq<Candidate>>, staleOnes: seq<seq<Candidate>>)
    ensures AllContribute(ts, statuses, managers, true, freshOnes)
    ensures AllContribute(ts, statuses, managers, false, staleOnes)
    ensures Candidates(ts, statuses, managers) == Flat(freshOnes) + Flat(staleOnes)
    ensures |Fresh(ts, statuses, managers)| == |Flat(freshOnes)|
  {
    freshOnes, staleOnes := Contributions(ts, statuses, managers);
  }

  // ---- identities ----

  /** Without slashes and backslashes in its parts an identity is plainly what it names. */
  lemma PlainIdentity(c: Candidate)
    requires c.EndpointModel? ==> forall x | x in c.endpoint.name + c.upstream :: x !in "/\\"
    ensures Identity(c) ==
      match c
      case Managed(_, alias, _) => "alias:" + alias
      case EndpointModel(e, upstream, _) => "endpoint:" + e.name + "/" + upstream
  {
    if c.EndpointModel? {
      var a, x := c.endpoint.name, c.upstream;
      assert forall y | y in a :: y in a + x;
      assert forall y | y in x :: y in a + x;
      NothingToEscape(a);
      NothingToEscape(x);
    }
  }

  lemma {:induction false} NothingToEscape(s: string)
    requires forall x | x in s :: x !in "/\\"
    ensures EscapeIdentityPart(s) == s
  {
    TwoPassesEscapeEach(s);
    EachPlain(s);
  }

  lemma {:induction false} EachPlain(s: string)
    requires forall x | x in s :: x !in "/\\"
    ensures EscapeEach(s) == s
  {
    if s != "" {
      assert s[0] in s;
      EachPlain(s[1..]);
    }
  }

  // ---- the native decision ----

  predicate Speaks(c: Candidate) {
    if c.Managed? then c.manager.anthropic else c.endpoint.anthropic
  }

  /** A name is dispatched as a managed alias, else as a virtual model, else as an online endpoint's
      model, and is native exactly when whatever it stands for, all of it, speaks the dialect. */
  lemma NativeIff(target: string, n: Naming)
    ensures Managing(n.managers, target) ==>
      exists m :: FirstManaging(n.managers, target, m)
        && Resolved(target, n) == if m.anthropic then NativeSingle(Managed(m, target, "")) else NotNative
    ensures !Managing(n.managers, target) && n.virtual.Some? ==>
      var cs := Candidates(n.virtual.value, n.statuses, n.managers);
      Resolved(target, n) == if cs != [] && (forall c | c in cs :: Speaks(c)) then NativeVirtual(cs) else NotNative
    ensures !Managing(n.managers, target) && n.virtual.None? ==>
      if n.endpoint.Some? && Listed(n.statuses, n.endpoint.value.0, true)
      then
        exists e :: LastListed(n.statuses, n.endpoint.value.0, true, e)
          && Resolved(target, n) ==
               if e.anthropic then NativeSingle(EndpointModel(e, n.endpoint.value.1, "")) else NotNative
      else Resolved(target, n) == NotNative
  {
    hide Listed, LastListed, Managing, FirstManaging, FindStatus, FindManager, Candidates;
    FindManagerIs(n.managers, target);
    if n.endpoint.Some? { FindStatusIs(n.statuses, n.endpoint.value.0, true); }
    assert forall c :: Speaks(c) == SpeaksAnthropic(c);
  }
}
