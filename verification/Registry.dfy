/** The endpoint registry as one caller sees it when no other is probing. */
module Registry {
  import opened Common
  import P = RegistryProtocol

  /** What the endpoints would answer if asked. */
  type World = string -> P.Found

  function CutAt(id: string): nat {
    if id == "" || id[0] == '/' then 0 else 1 + CutAt(id[1..])
  }

  /** An id of the form endpoint/model, both parts non-empty; the first slash divides. */
  function Parse(id: string): Option<(string, string)> {
    var n := CutAt(id);
    if 0 < n && n + 1 < |id| then Some((id[..n], id[n + 1..])) else None
  }

  predicate IsFresh(status: map<string, P.Status>, name: string, now: int, ttl: int) {
    name in status && now - status[name].checked < ttl
  }

  function Asked(status: map<string, P.Status>, name: string, world: World, now: int, ttl: int): map<string, P.Status> {
    if IsFresh(status, name, now, ttl) then status else status[name := P.Status(world(name), now)]
  }

  /** The statuses once every endpoint of a list has been brought up to date. */
  function AllAsked(status: map<string, P.Status>, names: seq<string>, world: World, now: int, ttl: int)
      : map<string, P.Status>
  {
    if names == [] then status
    else Asked(AllAsked(status, names[..|names| - 1], world, now, ttl), names[|names| - 1], world, now, ttl)
  }

  lemma {:induction false} AllAskedAt(status: map<string, P.Status>, names: seq<string>, world: World, now: int,
                                      ttl: int, name: string)
    requires ttl > 0
    ensures var after := AllAsked(status, names, world, now, ttl);
      && (name in names ==> name in after)
      && (name in names ==>
            after[name] == if IsFresh(status, name, now, ttl) then status[name] else P.Status(world(name), now))
      && (name !in names ==> (name in after <==> name in status) && (name in after ==> after[name] == status[name]))
  {
    if names != [] {
      AllAskedAt(status, names[..|names| - 1], world, now, ttl, name);
      assert names == names[..|names| - 1] + [names[|names| - 1]];
    }
  }

  class ProxyRegistry {
    const endpoints: seq<string>
    const ttl: int
    var status: map<string, P.Status>
    var inflight: map<string, nat>
    var closed: set<nat>
    var made: nat                 // channels made so far
    var fetched: seq<string>      // fetches so far

    constructor (endpoints: seq<string>, ttl: int)
      ensures Valid() && status == map[] && fetched == [] && this.endpoints == endpoints && this.ttl == ttl
    {
      this.endpoints, this.ttl := endpoints, ttl;
      status, inflight, closed, made, fetched := map[], map[], {}, 0, [];
    }

    /** Nothing is in flight, and every channel made has been closed. */
    ghost predicate Valid()
      reads this
    {
      inflight == map[] && forall ch: nat :: ch in closed <==> ch < made
    }

    /** A fetch of its own: the status is stored before the channel is taken out and closed. */
    method Probe(name: string, world: World, now: int)
      requires Valid()
      modifies this
      ensures Valid() && status == old(status)[name := P.Status(world(name), now)] && fetched == old(fetched) + [name]
    {
      var ch := made;
      made := made + 1;
      inflight := inflight[name := ch];
      fetched := fetched + [name];
      var found := world(name);
      status := status[name := P.Status(found, now)];
      inflight := inflight - {name};
      assert ch !in closed;
      closed := closed + {ch};
    }

    /** The endpoint and model of an id, if the endpoint is configured and online; a missing or
        stale status is brought up to date first, and nothing else is fetched. */
    method LookupModel(id: string, world: World, now: int) returns (r: Option<(string, string)>)
      requires Valid()
      modifies this
      ensures Valid()
      ensures var p := Parse(id);
        if p.None? || p.value.0 !in endpoints then r.None? && status == old(status) && fetched == old(fetched)
        else
          && status == Asked(old(status), p.value.0, world, now, ttl)
          && fetched == (if IsFresh(old(status), p.value.0, now, ttl) then old(fetched) else old(fetched) + [p.value.0])
          && r == if status[p.value.0].found.online then p else None
    {
      var p := Parse(id);
      if p.None? || p.value.0 !in endpoints { return None; }
      var name := p.value.0;
      if !(name in status && now - status[name].checked < ttl) {
        Probe(name, world, now);
      }
      if name !in status || !status[name].found.online { return None; }
      return p;
    }

    /** Every configured endpoint's status, brought up to date, in configured order. */
    method Snapshot(world: World, now: int) returns (out: seq<P.Status>)
      requires Valid() && ttl > 0
      modifies this
      ensures Valid() && status == AllAsked(old(status), endpoints, world, now, ttl)
      ensures |out| == |endpoints|
      ensures forall i | 0 <= i < |endpoints| :: endpoints[i] in status && out[i] == status[endpoints[i]]
    {
      for i := 0 to |endpoints|
        invariant Valid() && status == AllAsked(old(status), endpoints[..i], world, now, ttl)
      {
        assert endpoints[..i + 1][..i] == endpoints[..i];
        var name := endpoints[i];
        if !(name in status && now - status[name].checked < ttl) {
          Probe(name, world, now);
        }
      }
      assert endpoints[..|endpoints|] == endpoints;
      out := [];
      for i := 0 to |endpoints|
        invariant Valid() && status == AllAsked(old(status), endpoints, world, now, ttl)
        invariant |out| == i && forall j | 0 <= j < i :: endpoints[j] in status && out[j] == status[endpoints[j]]
      {
        assert endpoints[i] in endpoints;
        AllAskedAt(old(status), endpoints, world, now, ttl, endpoints[i]);
        out := out + [status[endpoints[i]]];
      }
    }
  }

  lemma {:induction false} ParseRoundTrip(name: string, model: string)
    requires name != "" && model != "" && '/' !in name
    ensures Parse(name + "/" + model) == Some((name, model))
  {
    CutAtSlash(name, model);
    var id := name + "/" + model;
    assert id[..|name|] == name && id[|name| + 1..] == model;
  }

  lemma {:induction false} CutAtSlash(name: string, model: string)
    requires '/' !in name
    ensures CutAt(name + "/" + model) == |name|
  {
    if name != "" {
      assert (name + "/" + model)[1..] == name[1..] + "/" + model;
      assert name[0] in name && forall c | c in name[1..] :: c in name;
      CutAtSlash(name[1..], model);
    }
  }

  /** An id names an endpoint and a model exactly when it has a slash with something before and
      something after it; the first slash divides. */
  lemma ParseIff(id: string, name: string, model: string)
    ensures Parse(id) == Some((name, model)) <==> name != "" && model != "" && '/' !in name && id == name + "/" + model
  {
    if name != "" && model != "" && '/' !in name && id == name + "/" + model { ParseRoundTrip(name, model); }
    CutAtIsFirst(id);
    if Parse(id) == Some((name, model)) {
      assert id == id[..CutAt(id)] + "/" + id[CutAt(id) + 1..];
    }
  }

  lemma {:induction false} CutAtIsFirst(id: string)
    ensures CutAt(id) <= |id| && (CutAt(id) < |id| ==> id[CutAt(id)] == '/')
    ensures '/' !in id[..CutAt(id)]
  {
    if id != "" && id[0] != '/' {
      CutAtIsFirst(id[1..]);
      assert id[..CutAt(id)] == [id[0]] + id[1..][..CutAt(id[1..])];
    }
  }

  /** A lone caller takes a status for fresh exactly when it is younger than the time to live, as
      the protocol does. */
  lemma FreshAlike(c: P.Config, s: P.State, name: string)
    ensures IsFresh(s.status, name, s.now, c.ttl) == P.Fresh(c, s, name)
    ensures P.Fresh(c, s, name) <==> name in s.status && s.now < s.status[name].checked + c.ttl
  {
  }
}
