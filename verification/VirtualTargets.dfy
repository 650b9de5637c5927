/** The targets of a virtual model: their identities, the order they are tried in, and whether
    they speak the Anthropic dialect. */
module VirtualTargets {
  import opened Common

  /** An endpoint as configured, its dialect being part of the configuration. */
  datatype Endpoint = Endpoint(name: string, url: string, anthropic: bool)
  datatype Status = Status(endpoint: Endpoint, online: bool)
  datatype Manager = Manager(aliases: set<string>, anthropic: bool)

  datatype Target = Target(endpoint: string, model: string, alias: string, params: string)

  datatype Candidate =
    | EndpointModel(endpoint: Endpoint, upstream: string, params: string)
    | Managed(manager: Manager, alias: string, params: string)

  datatype Shape = InvalidTarget | EndpointTarget | AliasTarget

  function Classify(t: Target): Shape {
    if t.endpoint != "" && t.model != "" then EndpointTarget else if t.alias != "" then AliasTarget else InvalidTarget
  }

  // ---- identities ----

  function ReplaceAll(s: string, c: char, sub: string): string {
    if s == "" then "" else (if s[0] == c then sub else [s[0]]) + ReplaceAll(s[1..], c, sub)
  }

  /** Backslashes are doubled first, then slashes get a backslash. */
  function EscapeIdentityPart(s: string): string {
    ReplaceAll(ReplaceAll(s, '\\', "\\\\"), '/', "\\/")
  }

  function Identity(c: Candidate): string {
    match c
    case Managed(_, alias, _) => "alias:" + alias
    case EndpointModel(e, upstream, _) => "endpoint:" + EscapeIdentityPart(e.name) + "/" + EscapeIdentityPart(upstream)
  }

  function EscapeChar(c: char): string {
    if c == '\\' then "\\\\" else if c == '/' then "\\/" else [c]
  }

  function EscapeEach(s: string): string {
    if s == "" then "" else EscapeChar(s[0]) + EscapeEach(s[1..])
  }

  lemma {:induction false} ReplaceAppend(a: string, b: string, c: char, sub: string)
    ensures ReplaceAll(a + b, c, sub) == ReplaceAll(a, c, sub) + ReplaceAll(b, c, sub)
  {
    if a == "" {
      assert a + b == b;
    } else {
      assert (a + b)[1..] == a[1..] + b;
      ReplaceAppend(a[1..], b, c, sub);
    }
  }

  /** The two passes escape each character on its own. */
  lemma {:induction false} TwoPassesEscapeEach(s: string)
    ensures EscapeIdentityPart(s) == EscapeEach(s)
  {
    if s != "" {
      var first := if s[0] == '\\' then "\\\\" else [s[0]];
      TwoPassesEscapeEach(s[1..]);
      ReplaceAppend(first, ReplaceAll(s[1..], '\\', "\\\\"), '/', "\\/");
      if s[0] == '\\' {
        assert first[1..] == "\\" && first[1..][1..] == "";
      } else {
        assert first[1..] == "";
      }
    }
  }

  /** An escaped part, a slash and what follows. */
  function Joined(a: string, x: string): string {
    if a == "" then "/" + x else EscapeChar(a[0]) + Joined(a[1..], x)
  }

  lemma {:induction false} JoinedIs(a: string, x: string)
    ensures Joined(a, x) == EscapeEach(a) + "/" + x
  {
    if a != "" {
      JoinedIs(a[1..], x);
      assert EscapeChar(a[0]) + EscapeEach(a[1..]) + "/" + x == EscapeChar(a[0]) + (EscapeEach(a[1..]) + "/" + x);
    }
  }

  lemma SameEscape(c: char, x: string, d: char, y: string)
    requires EscapeChar(c) + x == EscapeChar(d) + y
    ensures c == d && x == y
  {
    var s := EscapeChar(c) + x;
    assert s[0] == EscapeChar(c)[0] && s[0] == EscapeChar(d)[0];
    CancelPrefix(EscapeChar(c), x, EscapeChar(d), y);
  }

  lemma JoinedHead(a: string, x: string)
    ensures Joined(a, x) != "" && (Joined(a, x)[0] == '/' <==> a == "")
  {
    if a != "" { assert Joined(a, x)[0] == EscapeChar(a[0])[0]; }
  }

  /** Where the first unescaped slash is tells the two parts apart. */
  lemma {:induction false} EscapeInjective(a: string, x: string, b: string, y: string)
    requires Joined(a, x) == Joined(b, y)
    ensures a == b && x == y
  {
    if a == "" && b == "" {
      CancelPrefix("/", x, "/", y);
    } else if a != "" && b != "" {
      SameEscape(a[0], Joined(a[1..], x), b[0], Joined(b[1..], y));
      EscapeInjective(a[1..], x, b[1..], y);
      assert a == [a[0]] + a[1..] && b == [b[0]] + b[1..];
    } else {
      JoinedHead(a, x);
      JoinedHead(b, y);
    }
  }

  lemma EscapeAlone(a: string, b: string)
    requires EscapeEach(a) == EscapeEach(b)
    ensures a == b
  {
    JoinedIs(a, "");
    JoinedIs(b, "");
    EscapeInjective(a, "", b, "");
  }

  /** What an identity stands for: a managed alias, or an endpoint name with a model. */
  datatype Named = NamedAlias(alias: string) | NamedModel(endpoint: string, model: string)

  function NameOf(c: Candidate): Named {
    match c
    case Managed(_, alias, _) => NamedAlias(alias)
    case EndpointModel(e, upstream, _) => NamedModel(e.name, upstream)
  }

  /** Two candidates have the same identity exactly when they name the same alias, or the same
      endpoint and model; an alias and an endpoint never do. */
  lemma IdentityIffSameName(c: Candidate, d: Candidate)
    ensures Identity(c) == Identity(d) <==> NameOf(c) == NameOf(d)
    ensures Identity(c) != ""
  {
    if c.Managed? && d.Managed? {
      if Identity(c) == Identity(d) { CancelPrefix("alias:", c.alias, "alias:", d.alias); }
    } else if c.EndpointModel? && d.EndpointModel? {
      if Identity(c) == Identity(d) { SameModel(c, d); }
    } else {
      assert Identity(c)[0] != Identity(d)[0];
    }
  }

  lemma EndpointIdentity(c: Candidate)
    requires c.EndpointModel?
    ensures Identity(c) == "endpoint:" + Joined(c.endpoint.name, EscapeEach(c.upstream))
  {
    var a, x := c.endpoint.name, c.upstream;
    TwoPassesEscapeEach(a);
    TwoPassesEscapeEach(x);
    JoinedIs(a, EscapeEach(x));
    assert "endpoint:" + EscapeEach(a) + "/" + EscapeEach(x) == "endpoint:" + (EscapeEach(a) + "/" + EscapeEach(x));
  }

  lemma SameModel(c: Candidate, d: Candidate)
    requires c.EndpointModel? && d.EndpointModel? && Identity(c) == Identity(d)
    ensures NameOf(c) == NameOf(d)
  {
    EndpointIdentity(c);
    EndpointIdentity(d);
    CancelPrefix("endpoint:", Joined(c.endpoint.name, EscapeEach(c.upstream)),
                 "endpoint:", Joined(d.endpoint.name, EscapeEach(d.upstream)));
    EscapeInjective(c.endpoint.name, EscapeEach(c.upstream), d.endpoint.name, EscapeEach(d.upstream));
    EscapeAlone(c.upstream, d.upstream);
  }

  // ---- the order of candidates ----

  /** The last status of an endpoint, and of an endpoint believed online. */
  function FindStatus(statuses: seq<Status>, name: string, onlineOnly: bool): Option<Endpoint> {
    if statuses == [] then None
    else
      var s := statuses[|statuses| - 1];
      if s.endpoint.name == name && (onlineOnly ==> s.online) then Some(s.endpoint)
      else FindStatus(statuses[..|statuses| - 1], name, onlineOnly)
  }

  function FindManager(managers: seq<Manager>, alias: string): Option<Manager> {
    if managers == [] then None else if alias in managers[0].aliases then Some(managers[0])
    else FindManager(managers[1..], alias)
  }

  function FreshOne(t: Target, statuses: seq<Status>, managers: seq<Manager>): seq<Candidate> {
    match Classify(t)
    case EndpointTarget =>
      var e := FindStatus(statuses, t.endpoint, true);
      if e.Some? then [EndpointModel(e.value, t.model, t.params)] else []
    case AliasTarget =>
      var m := FindManager(managers, t.alias);
      if m.Some? then [Managed(m.value, t.alias, t.params)] else []
    case InvalidTarget => []
  }

  function StaleOne(t: Target, statuses: seq<Status>): seq<Candidate> {
    if Classify(t) != EndpointTarget || FindStatus(statuses, t.endpoint, true).Some? then []
    else
      var e := FindStatus(statuses, t.endpoint, false);
      if e.Some? then [EndpointModel(e.value, t.model, t.params)] else []
  }

  function Fresh(ts: seq<Target>, statuses: seq<Status>, managers: seq<Manager>): seq<Candidate> {
    if ts == [] then [] else Fresh(ts[..|ts| - 1], statuses, managers) + FreshOne(ts[|ts| - 1], statuses, managers)
  }

  function Stale(ts: seq<Target>, statuses: seq<Status>): seq<Candidate> {
    if ts == [] then [] else Stale(ts[..|ts| - 1], statuses) + StaleOne(ts[|ts| - 1], statuses)
  }

  function Candidates(ts: seq<Target>, statuses: seq<Status>, managers: seq<Manager>): seq<Candidate> {
    Fresh(ts, statuses, managers) + Stale(ts, statuses)
  }

  ghost predicate Reflects(m: map<string, Endpoint>, statuses: seq<Status>, onlineOnly: bool) {
    forall name :: (name in m <==> FindStatus(statuses, name, onlineOnly).Some?)
      && (name in m ==> m[name] == FindStatus(statuses, name, onlineOnly).value)
  }

  method EndpointMaps(statuses: seq<Status>) returns (online: map<string, Endpoint>, configured: map<string, Endpoint>)
    ensures Reflects(online, statuses, true) && Reflects(configured, statuses, false)
  {
    online, configured := map[], map[];
    for k := 0 to |statuses|
      invariant Reflects(online, statuses[..k], true) && Reflects(configured, statuses[..k], false)
    {
      assert statuses[..k + 1][..k] == statuses[..k];
      configured := configured[statuses[k].endpoint.name := statuses[k].endpoint];
      if statuses[k].online {
        online := online[statuses[k].endpoint.name := statuses[k].endpoint];
      }
    }
    assert statuses[..|statuses|] == statuses;
  }

  method FindAlias(managers: seq<Manager>, alias: string) returns (r: Option<Manager>)
    ensures r == FindManager(managers, alias)
  {
    for k := 0 to |managers|
      invariant FindManager(managers, alias) == FindManager(managers[k..], alias)
    {
      assert managers[k..][1..] == managers[k + 1..];
      if alias in managers[k].aliases { return Some(managers[k]); }
    }
    return None;
  }

  method CandidatesForVirtual(targets: seq<Target>, statuses: seq<Status>, managers: seq<Manager>)
      returns (candidates: seq<Candidate>, freshCount: nat)
    ensures candidates == Candidates(targets, statuses, managers)
    ensures freshCount == |Fresh(targets, statuses, managers)|
  {
    var online, configured := EndpointMaps(statuses);
    var freshOnes: seq<Candidate>, staleOnes: seq<Candidate> := [], [];
    for k := 0 to |targets|
      invariant freshOnes == Fresh(targets[..k], statuses, managers) && staleOnes == Stale(targets[..k], statuses)
    {
      assert targets[..k + 1][..k] == targets[..k];
      assert freshOnes + [] == freshOnes && staleOnes + [] == staleOnes;
      var t := targets[k];
      match Classify(t)
      case EndpointTarget =>
        if t.endpoint in online {
          freshOnes := freshOnes + [EndpointModel(online[t.endpoint], t.model, t.params)];
        } else if t.endpoint in configured {
          staleOnes := staleOnes + [EndpointModel(configured[t.endpoint], t.model, t.params)];
        }
      case AliasTarget =>
        var m := FindAlias(managers, t.alias);
        if m.Some? {
          freshOnes := freshOnes + [Managed(m.value, t.alias, t.params)];
        }
      case InvalidTarget =>
    }
    assert targets[..|targets|] == targets;
    return freshOnes + staleOnes, |freshOnes|;
  }

  // ---- reachability only reorders ----

  /** The same endpoints in the same places, whatever is believed of them; a name always has the
      same configuration. */
  predicate SameEndpoints(a: seq<Status>, b: seq<Status>) {
    && |a| == |b|
    && (forall i | 0 <= i < |a| :: a[i].endpoint == b[i].endpoint)
    && (forall i, j | 0 <= i < |a| && 0 <= j < |a| && a[i].endpoint.name == a[j].endpoint.name ::
          a[i].endpoint == a[j].endpoint)
  }

  lemma {:induction false} FoundIsThere(statuses: seq<Status>, name: string, onlineOnly: bool)
    ensures FindStatus(statuses, name, onlineOnly).Some? ==>
      exists i | 0 <= i < |statuses| :: statuses[i].endpoint == FindStatus(statuses, name, onlineOnly).value
    ensures FindStatus(statuses, name, onlineOnly).Some? ==> FindStatus(statuses, name, onlineOnly).value.name == name
    ensures FindStatus(statuses, name, onlineOnly).Some? ==> FindStatus(statuses, name, false).Some?
  {
    if statuses != [] {
      var most := statuses[..|statuses| - 1];
      FoundIsThere(most, name, onlineOnly);
      assert statuses[|statuses| - 1].endpoint == statuses[|statuses| - 1].endpoint;
      if FindStatus(most, name, onlineOnly).Some? {
        var i :| 0 <= i < |most| && most[i].endpoint == FindStatus(most, name, onlineOnly).value;
        assert statuses[i].endpoint == most[i].endpoint;
      }
    }
  }

  lemma {:induction false} ConfiguredAlike(a: seq<Status>, b: seq<Status>, name: string)
    requires |a| == |b| && forall i | 0 <= i < |a| :: a[i].endpoint == b[i].endpoint
    ensures FindStatus(a, name, false) == FindStatus(b, name, false)
  {
    if a != [] { ConfiguredAlike(a[..|a| - 1], b[..|b| - 1], name); }
  }

  lemma OnlineIsConfigured(statuses: seq<Status>, name: string)
    requires SameEndpoints(statuses, statuses)
    ensures FindStatus(statuses, name, true).Some? ==>
      FindStatus(statuses, name, true) == FindStatus(statuses, name, false)
  {
    FoundIsThere(statuses, name, true);
    FoundIsThere(statuses, name, false);
  }

  /** Fresh or stale, a target becomes the same candidate. */
  function OneOf(t: Target, statuses: seq<Status>, managers: seq<Manager>): seq<Candidate> {
    FreshOne(t, statuses, managers) + StaleOne(t, statuses)
  }

  lemma SameCandidate(t: Target, a: seq<Status>, b: seq<Status>, managers: seq<Manager>)
    requires SameEndpoints(a, b)
    ensures OneOf(t, a, managers) == OneOf(t, b, managers)
  {
    ConfiguredAlike(a, b, t.endpoint);
    OnlineIsConfigured(a, t.endpoint);
    assert SameEndpoints(b, b);
    OnlineIsConfigured(b, t.endpoint);
    FoundIsThere(a, t.endpoint, true);
    FoundIsThere(b, t.endpoint, true);
  }

  function All(ts: seq<Target>, statuses: seq<Status>, managers: seq<Manager>): seq<Candidate> {
    if ts == [] then [] else All(ts[..|ts| - 1], statuses, managers) + OneOf(ts[|ts| - 1], statuses, managers)
  }

  lemma {:induction false} SameAll(ts: seq<Target>, a: seq<Status>, b: seq<Status>, managers: seq<Manager>)
    requires SameEndpoints(a, b)
    ensures All(ts, a, managers) == All(ts, b, managers)
  {
    if ts != [] {
      SameAll(ts[..|ts| - 1], a, b, managers);
      SameCandidate(ts[|ts| - 1], a, b, managers);
    }
  }

  lemma {:induction false} CandidatesAreAll(ts: seq<Target>, statuses: seq<Status>, managers: seq<Manager>)
    ensures multiset(Candidates(ts, statuses, managers)) == multiset(All(ts, statuses, managers))
  {
    if ts != [] {
      var most, t := ts[..|ts| - 1], ts[|ts| - 1];
      CandidatesAreAll(most, statuses, managers);
      assert multiset(Candidates(ts, statuses, managers)) ==
        multiset(Fresh(most, statuses, managers)) + multiset(FreshOne(t, statuses, managers))
        + (multiset(Stale(most, statuses)) + multiset(StaleOne(t, statuses)));
    }
  }

  /** What is believed about reachability changes the order of the candidates and nothing else:
      fresh ones first, each group in declared order. */
  lemma ReachabilityOnlyReorders(ts: seq<Target>, a: seq<Status>, b: seq<Status>, managers: seq<Manager>)
    requires SameEndpoints(a, b)
    ensures multiset(Candidates(ts, a, managers)) == multiset(Candidates(ts, b, managers))
    ensures |Candidates(ts, a, managers)| == |Candidates(ts, b, managers)|
  {
    SameAll(ts, a, b, managers);
    CandidatesAreAll(ts, a, managers);
    CandidatesAreAll(ts, b, managers);
    assert |multiset(Candidates(ts, a, managers))| == |Candidates(ts, a, managers)|;
  }

  // ---- affinity ----

  function IndexOf(cs: seq<Candidate>, pinned: string): (i: nat)
    ensures i <= |cs|
  {
    if cs == [] || Identity(cs[0]) == pinned then 0 else 1 + IndexOf(cs[1..], pinned)
  }

  function Reordered(cs: seq<Candidate>, pinned: string): seq<Candidate> {
    var i := IndexOf(cs, pinned);
    if pinned == "" || i == |cs| then cs else MoveToFront(cs, i)
  }

  function MoveToFront(cs: seq<Candidate>, i: nat): (r: seq<Candidate>)
    requires i < |cs|
    ensures |r| == |cs|
  {
    [cs[i]] + cs[..i] + cs[i + 1..]
  }

  method ApplyAffinity(cs: seq<Candidate>, pinned: string) returns (r: seq<Candidate>)
    ensures r == Reordered(cs, pinned)
  {
    if pinned == "" { return cs; }
    var idx := FindPinned(cs, pinned);
    if idx <= 0 {
      assert idx == 0 ==> [cs[0]] + cs[..0] + cs[1..] == cs;
      return cs;
    }
    return [cs[idx]] + cs[..idx] + cs[idx + 1..];
  }

  method FindPinned(cs: seq<Candidate>, pinned: string) returns (idx: int)
    ensures idx == if IndexOf(cs, pinned) == |cs| then -1 else IndexOf(cs, pinned)
  {
    for i := 0 to |cs|
      invariant IndexOf(cs, pinned) == i + IndexOf(cs[i..], pinned)
    {
      assert cs[i..][1..] == cs[i + 1..];
      if Identity(cs[i]) == pinned { return i; }
    }
    return -1;
  }

  /** Some candidate is the pinned one. */
  predicate Offers(cs: seq<Candidate>, pinned: string) {
    exists c | c in cs :: Identity(c) == pinned
  }

  lemma {:induction false} IndexOfIsFirst(cs: seq<Candidate>, pinned: string)
    ensures IndexOf(cs, pinned) < |cs| ==> Identity(cs[IndexOf(cs, pinned)]) == pinned
    ensures Offers(cs, pinned) <==> IndexOf(cs, pinned) < |cs|
  {
    if cs != [] && Identity(cs[0]) != pinned {
      IndexOfIsFirst(cs[1..], pinned);
      assert cs == [cs[0]] + cs[1..];
    }
  }

  lemma MovedToFront(cs: seq<Candidate>, i: nat)
    requires i < |cs|
    ensures multiset(MoveToFront(cs, i)) == multiset(cs)
    ensures MoveToFront(cs, i)[0] == cs[i] && MoveToFront(cs, i)[1..] == cs[..i] + cs[i + 1..]
  {
    assert cs == cs[..i] + [cs[i]] + cs[i + 1..];
  }

  /** A pinned candidate goes first, all others keep their order, and no candidate is lost or made up. */
  lemma PinnedGoesFirst(cs: seq<Candidate>, pinned: string)
    ensures multiset(Reordered(cs, pinned)) == multiset(cs)
    ensures pinned != "" && Offers(cs, pinned) ==>
      Reordered(cs, pinned) != [] && Identity(Reordered(cs, pinned)[0]) == pinned
      && IndexOf(cs, pinned) < |cs|
      && Reordered(cs, pinned)[1..] == cs[..IndexOf(cs, pinned)] + cs[IndexOf(cs, pinned) + 1..]
    ensures !Offers(cs, pinned) ==> Reordered(cs, pinned) == cs
  {
    hide Identity, Offers, MoveToFront, IndexOf;
    IndexOfIsFirst(cs, pinned);
    if IndexOf(cs, pinned) < |cs| { MovedToFront(cs, IndexOf(cs, pinned)); }
  }

  // ---- the native decision ----

  predicate SpeaksAnthropic(c: Candidate) {
    match c
    case Managed(m, _, _) => m.anthropic
    case EndpointModel(e, _, _) => e.anthropic
  }

  predicate AllSpeak(cs: seq<Candidate>) {
    forall c | c in cs :: SpeaksAnthropic(c)
  }

  /** What a name stands for, in dispatch order, and what the registry believes. */
  datatype Naming = Naming(managers: seq<Manager>, virtual: Option<seq<Target>>, statuses: seq<Status>,
                           endpoint: Option<(string, string)>)

  datatype Resolution = NotNative | NativeSingle(candidate: Candidate) | NativeVirtual(candidates: seq<Candidate>)

  /** The endpoint of a name of the form endpoint/model, found only while believed online. */
  function OnlineEndpoint(n: Naming): Option<Candidate> {
    if n.endpoint.None? then None
    else
      var e := FindStatus(n.statuses, n.endpoint.value.0, true);
      if e.Some? then Some(EndpointModel(e.value, n.endpoint.value.1, "")) else None
  }

  method ResolveAnthropicNative(target: string, n: Naming) returns (r: Resolution)
    ensures r == Resolved(target, n)
  {
    var m := FindAlias(n.managers, target);
    if m.Some? {
      if !m.value.anthropic { return NotNative; }
      return NativeSingle(Managed(m.value, target, ""));
    }
    if n.virtual.Some? {
      var candidates, _ := CandidatesForVirtual(n.virtual.value, n.statuses, n.managers);
      if |candidates| == 0 { return NotNative; }
      for i := 0 to |candidates|
        invariant AllSpeak(candidates[..i])
      {
        if !SpeaksAnthropic(candidates[i]) {
          assert candidates[i] in candidates;
          return NotNative;
        }
      }
      assert candidates[..|candidates|] == candidates;
      return NativeVirtual(candidates);
    }
    var e := OnlineEndpoint(n);
    if e.Some? && SpeaksAnthropic(e.value) { return NativeSingle(e.value); }
    return NotNative;
  }

  function Resolved(target: string, n: Naming): Resolution {
    var m := FindManager(n.managers, target);
    if m.Some? then if m.value.anthropic then NativeSingle(Managed(m.value, target, "")) else NotNative
    else if n.virtual.Some? then
      var cs := Candidates(n.virtual.value, n.statuses, n.managers);
      if cs != [] && AllSpeak(cs) then NativeVirtual(cs) else NotNative
    else
      var e := OnlineEndpoint(n);
      if e.Some? && SpeaksAnthropic(e.value) then NativeSingle(e.value) else NotNative
  }

  /** Whether a managed alias or a virtual model is served natively does not depend on what is
      believed about reachability. */
  lemma NativeUnaffectedByReachability(target: string, n: Naming, statuses: seq<Status>)
    requires SameEndpoints(n.statuses, statuses)
    requires FindManager(n.managers, target).Some? || n.virtual.Some?
    ensures Resolved(target, n).NotNative? == Resolved(target, n.(statuses := statuses)).NotNative?
  {
    if n.virtual.Some? {
      ReachabilityOnlyReorders(n.virtual.value, n.statuses, statuses, n.managers);
      SameMembers(Candidates(n.virtual.value, n.statuses, n.managers),
                  Candidates(n.virtual.value, statuses, n.managers));
    }
  }

  lemma SameMembers(a: seq<Candidate>, b: seq<Candidate>)
    requires multiset(a) == multiset(b)
    ensures AllSpeak(a) == AllSpeak(b) && (a == [] <==> b == [])
  {
    assert forall c :: c in a <==> c in multiset(a);
    assert forall c :: c in b <==> c in multiset(b);
    assert |multiset(a)| == |a| && |multiset(b)| == |b|;
  }

  predicate Online(statuses: seq<Status>, name: string) {
    FindStatus(statuses, name, true).Some?
  }

  /** It is configured to speak the dialect. */
  predicate Speaks(statuses: seq<Status>, name: string) {
    FindStatus(statuses, name, false).Some? && FindStatus(statuses, name, false).value.anthropic
  }

  /** A plain endpoint model is native exactly while its endpoint is believed online and speaks
      the dialect, so there reachability does decide: of two beliefs about the same endpoints
      the verdicts differ exactly when one has it online, the other not, and it speaks. */
  lemma EndpointNativeIffOnline(target: string, n: Naming, statuses: seq<Status>)
    requires FindManager(n.managers, target).None? && n.virtual.None? && n.endpoint.Some?
    requires SameEndpoints(n.statuses, statuses)
    ensures !Resolved(target, n).NotNative? <==>
      Online(n.statuses, n.endpoint.value.0) && Speaks(n.statuses, n.endpoint.value.0)
    ensures Resolved(target, n).NotNative? != Resolved(target, n.(statuses := statuses)).NotNative? <==>
      Online(n.statuses, n.endpoint.value.0) != Online(statuses, n.endpoint.value.0) &&
        Speaks(n.statuses, n.endpoint.value.0)
  {
    hide FindStatus;
    var name := n.endpoint.value.0;
    OnlineIsConfigured(n.statuses, name);
    ConfiguredAlike(n.statuses, statuses, name);
    OnlineIsConfigured(statuses, name);
  }
}
