/** Merging a target's declared default fields into a request: a deep merge the client wins. */
module VirtualParams {
  import opened Common

  /** A JSON value as the merge sees it: an object, or anything else kept as it is written. */
  datatype Json = Obj(fields: map<string, Json>) | Other(raw: string)

  type Fields = map<string, Json>
  type Path = seq<string>

  // ---- what the merge is ----

  predicate BothObjects(c: Json, d: Json, k: string)
    requires c.Obj? && d.Obj?
  {
    k in c.fields && k in d.fields && c.fields[k].Obj? && d.fields[k].Obj?
  }

  function Merge(c: Json, d: Json): (r: Json)
    requires c.Obj? && d.Obj?
    ensures r.Obj? && r.fields.Keys == c.fields.Keys + d.fields.Keys
    decreases d
  {
    Obj(map k | k in c.fields.Keys + d.fields.Keys ::
      if k !in c.fields then d.fields[k]
      else if BothObjects(c, d, k) then Merge(c.fields[k], d.fields[k])
      else c.fields[k])
  }

  /** The paths of what the merge adds under one key. */
  ghost function InjectedAt(c: Json, d: Json, prefix: string, k: string): set<string>
    requires c.Obj? && d.Obj? && k in d.fields
    decreases d, 0
  {
    if k !in c.fields then {prefix + k}
    else if BothObjects(c, d, k) then Injected(c.fields[k], d.fields[k], prefix + k + ".")
    else {}
  }

  ghost function Injected(c: Json, d: Json, prefix: string): set<string>
    requires c.Obj? && d.Obj?
    decreases d, 1
  {
    set k, s | k in d.fields && s in InjectedAt(c, d, prefix, k) :: s
  }

  /** The paths of declared values the client's own stand against. */
  ghost function KeptAt(c: Json, d: Json, prefix: string, k: string): set<string>
    requires c.Obj? && d.Obj? && k in d.fields
    decreases d, 0
  {
    if k !in c.fields then {}
    else if BothObjects(c, d, k) then Kept(c.fields[k], d.fields[k], prefix + k + ".")
    else {prefix + k}
  }

  ghost function Kept(c: Json, d: Json, prefix: string): set<string>
    requires c.Obj? && d.Obj?
    decreases d, 1
  {
    set k, s | k in d.fields && s in KeptAt(c, d, prefix, k) :: s
  }

  // ---- the merge as the program runs it ----

  class ParamsUse {
    var injected: seq<string>
    var kept: seq<string>

    constructor ()
      ensures injected == [] && kept == []
    {
      injected, kept := [], [];
    }
  }

  /** A client object, updated in place. */
  class ClientObject {
    var fields: Fields

    constructor (fields: Fields)
      ensures this.fields == fields
    {
      this.fields := fields;
    }
  }

  /** Merges declared fields into the client's, notes what was injected and what was kept, and
      says whether anything was injected. */
  method MergeParams(client: ClientObject, declared: Json, prefix: string, use: ParamsUse) returns (changed: bool)
    requires declared.Obj?
    modifies client, use
    ensures Obj(client.fields) == Merge(Obj(old(client.fields)), declared)
    ensures changed <==> Injected(Obj(old(client.fields)), declared, prefix) != {}
    ensures forall s :: s in use.injected <==>
              s in old(use.injected) || s in Injected(Obj(old(client.fields)), declared, prefix)
    ensures forall s :: s in use.kept <==> s in old(use.kept) || s in Kept(Obj(old(client.fields)), declared, prefix)
    decreases declared
  {
    ghost var c, d := Obj(client.fields), declared;
    ghost var done: set<string>, added: set<string>, left: set<string> := {}, {}, {};
    changed := false;
    var todo := declared.fields.Keys;
    while todo != {}
      invariant todo !! done && todo + done == d.fields.Keys
      invariant client.fields == Halfway(c, d, done)
      invariant added == InjectedBy(c, d, prefix, done) && left == KeptBy(c, d, prefix, done)
      invariant changed <==> added != {}
      invariant forall s :: s in use.injected <==> s in old(use.injected) || s in added
      invariant forall s :: s in use.kept <==> s in old(use.kept) || s in left
      decreases todo
    {
      var key :| key in todo;
      todo := todo - {key};
      Half(c, d, prefix, done, key);
      var one := MergeField(client, c, declared, key, prefix, use);
      changed := changed || one;
      done, added, left := done + {key}, added + InjectedAt(c, d, prefix, key), left + KeptAt(c, d, prefix, key);
    }
    assert done == d.fields.Keys;
    AllDone(c, d, prefix);
  }

  /** The client's fields once some declared keys have been merged. */
  ghost function Halfway(c: Json, d: Json, done: set<string>): Fields
    requires c.Obj? && d.Obj? && done <= d.fields.Keys
  {
    map k | k in c.fields.Keys + done :: if k in done then Merge(c, d).fields[k] else c.fields[k]
  }

  ghost function InjectedBy(c: Json, d: Json, prefix: string, done: set<string>): set<string>
    requires c.Obj? && d.Obj? && done <= d.fields.Keys
  {
    set k, s | k in done && s in InjectedAt(c, d, prefix, k) :: s
  }

  ghost function KeptBy(c: Json, d: Json, prefix: string, done: set<string>): set<string>
    requires c.Obj? && d.Obj? && done <= d.fields.Keys
  {
    set k, s | k in done && s in KeptAt(c, d, prefix, k) :: s
  }

  lemma AllDone(c: Json, d: Json, prefix: string)
    requires c.Obj? && d.Obj?
    ensures Halfway(c, d, d.fields.Keys) == Merge(c, d).fields
    ensures InjectedBy(c, d, prefix, d.fields.Keys) == Injected(c, d, prefix)
    ensures KeptBy(c, d, prefix, d.fields.Keys) == Kept(c, d, prefix)
  {
    forall s ensures s in KeptBy(c, d, prefix, d.fields.Keys) <==> s in Kept(c, d, prefix) {}
    forall s ensures s in InjectedBy(c, d, prefix, d.fields.Keys) <==> s in Injected(c, d, prefix) {}
  }

  lemma Half(c: Json, d: Json, prefix: string, done: set<string>, key: string)
    requires c.Obj? && d.Obj? && done <= d.fields.Keys && key in d.fields && key !in done
    ensures Halfway(c, d, done + {key}) == Halfway(c, d, done)[key := Merge(c, d).fields[key]]
    ensures key in Halfway(c, d, done) <==> key in c.fields
    ensures key in c.fields ==> Halfway(c, d, done)[key] == c.fields[key]
    ensures InjectedBy(c, d, prefix, done + {key}) == InjectedBy(c, d, prefix, done) + InjectedAt(c, d, prefix, key)
    ensures KeptBy(c, d, prefix, done + {key}) == KeptBy(c, d, prefix, done) + KeptAt(c, d, prefix, key)
  {
  }

  /** One declared field. */
  method MergeField(client: ClientObject, ghost c: Json, declared: Json, key: string, prefix: string, use: ParamsUse)
      returns (changed: bool)
    requires c.Obj? && declared.Obj? && key in declared.fields
    requires (key in client.fields <==> key in c.fields) && (key in c.fields ==> client.fields[key] == c.fields[key])
    modifies client, use
    ensures client.fields == old(client.fields)[key := Merge(c, declared).fields[key]]
    ensures changed <==> InjectedAt(c, declared, prefix, key) != {}
    ensures forall s :: s in use.injected <==> s in old(use.injected) || s in InjectedAt(c, declared, prefix, key)
    ensures forall s :: s in use.kept <==> s in old(use.kept) || s in KeptAt(c, declared, prefix, key)
    decreases declared, 0
  {
    var path := prefix + key;
    var dv := declared.fields[key];
    changed := false;
    if key !in client.fields {
      client.fields := client.fields[key := dv];
      use.injected := use.injected + [path];
      return true;
    }
    var cv := client.fields[key];
    if dv.Obj? && cv.Obj? {
      var cObj := new ClientObject(cv.fields);
      var inner := MergeParams(cObj, dv, path + ".", use);
      if inner {
        client.fields := client.fields[key := Obj(cObj.fields)];
        changed := true;
      } else {
        NothingInjected(cv, dv, path + ".");
      }
      return;
    }
    use.kept := use.kept + [path];
  }

  /** Nothing is injected exactly when the merge is the client's own object. */
  lemma {:induction false} NothingInjected(c: Json, d: Json, prefix: string)
    requires c.Obj? && d.Obj?
    ensures Injected(c, d, prefix) == {} <==> Merge(c, d) == c
    decreases d
  {
    forall k | k in d.fields
      ensures InjectedAt(c, d, prefix, k) == {} <==> k in c.fields && Merge(c, d).fields[k] == c.fields[k]
    {
      if BothObjects(c, d, k) { NothingInjected(c.fields[k], d.fields[k], prefix + k + "."); }
    }
    if Injected(c, d, prefix) == {} {
      forall k | k in d.fields ensures InjectedAt(c, d, prefix, k) == {} {
        assert InjectedAt(c, d, prefix, k) <= Injected(c, d, prefix);
      }
      assert Merge(c, d).fields == c.fields;
    }
  }

  /** What goes upstream: the very bytes received, or a re-encoding of some fields. */
  datatype Sent = Original | Encoded(fields: Fields)

  /** params and body as decoded, if they decode. */
  method ApplyVirtualParams(body: Option<Json>, params: Option<Json>)
      returns (sent: Sent, applied: bool, use: ParamsUse)
    ensures applied <==>
      params.Some? && params.value.Obj? && params.value.fields != map[] && body.Some? && body.value.Obj?
    ensures !applied ==> sent == Original
    ensures applied ==>
      var merged := Merge(body.value, params.value);
      sent == if merged == body.value then Original else Encoded(merged.fields)
    ensures applied ==> forall s :: s in use.injected <==> s in Injected(body.value, params.value, "")
    ensures applied ==> forall s :: s in use.kept <==> s in Kept(body.value, params.value, "")
  {
    use := new ParamsUse();
    if params.None? || !params.value.Obj? || params.value.fields == map[] { return Original, false, use; }
    if body.None? || !body.value.Obj? { return Original, false, use; }
    var client := new ClientObject(body.value.fields);
    var changed := MergeParams(client, params.value, "", use);
    NothingInjected(body.value, params.value, "");
    if !changed { return Original, true, use; }
    return Encoded(client.fields), true, use;
  }

  // ---- the client wins, and nothing declared is lost or made up ----

  /** The value at a path. */
  function At(j: Json, p: Path): Option<Json> {
    if p == [] then Some(j)
    else if j.Obj? && p[0] in j.fields then At(j.fields[p[0]], p[1..])
    else None
  }

  predicate IsLeaf(v: Option<Json>) {
    v.Some? && v.value.Other?
  }

  /** Every value of the client's that is no object is in the merge, where it was. */
  lemma {:induction false} ClientWins(c: Json, d: Json, p: Path)
    requires c.Obj? && d.Obj? && IsLeaf(At(c, p))
    ensures At(Merge(c, d), p) == At(c, p)
    decreases d
  {
    if BothObjects(c, d, p[0]) { ClientWins(c.fields[p[0]], d.fields[p[0]], p[1..]); }
  }

  /** The client leaves room for a declared value at a path: nothing of the client's, other than
      objects on the way, stands there. */
  predicate Room(c: Json, d: Json, p: Path)
    requires c.Obj? && d.Obj?
    decreases p
  {
    p != [] && (p[0] !in c.fields || (BothObjects(c, d, p[0]) && Room(c.fields[p[0]], d.fields[p[0]], p[1..])))
  }

  /** A declared value is in the merge exactly where the client leaves room for it. */
  lemma {:induction false} DeclaredWhereThereIsRoom(c: Json, d: Json, p: Path)
    requires c.Obj? && d.Obj? && IsLeaf(At(d, p))
    ensures Room(c, d, p) ==> At(Merge(c, d), p) == At(d, p)
    ensures !Room(c, d, p) ==> At(Merge(c, d), p) == At(c, p)
    decreases d
  {
    if BothObjects(c, d, p[0]) { DeclaredWhereThereIsRoom(c.fields[p[0]], d.fields[p[0]], p[1..]); }
  }

  /** Nothing else is in the merge. */
  lemma {:induction false} NothingMadeUp(c: Json, d: Json, p: Path)
    requires c.Obj? && d.Obj? && IsLeaf(At(Merge(c, d), p))
    ensures At(Merge(c, d), p) == At(c, p) || At(Merge(c, d), p) == At(d, p)
    decreases d
  {
    if BothObjects(c, d, p[0]) { NothingMadeUp(c.fields[p[0]], d.fields[p[0]], p[1..]); }
  }

  /** At every object both sides hold, the merge has the keys of both. */
  lemma {:induction false} KeysAreUnited(c: Json, d: Json, p: Path)
    requires c.Obj? && d.Obj? && At(c, p).Some? && At(c, p).value.Obj? && At(d, p).Some? && At(d, p).value.Obj?
    ensures At(Merge(c, d), p).Some? && At(Merge(c, d), p).value == Merge(At(c, p).value, At(d, p).value)
    ensures At(Merge(c, d), p).value.fields.Keys == At(c, p).value.fields.Keys + At(d, p).value.fields.Keys
    decreases d
  {
    if p != [] { KeysAreUnited(c.fields[p[0]], d.fields[p[0]], p[1..]); }
  }

  /** Merging again adds nothing: a request that has been merged comes back as it is. */
  lemma {:induction false} MergeTwice(c: Json, d: Json)
    requires c.Obj? && d.Obj?
    ensures Merge(Merge(c, d), d) == Merge(c, d)
    decreases d
  {
    var once := Merge(c, d);
    forall k | k in once.fields ensures Merge(once, d).fields[k] == once.fields[k] {
      if BothObjects(c, d, k) {
        MergeTwice(c.fields[k], d.fields[k]);
      } else if k in d.fields && k !in c.fields && d.fields[k].Obj? {
        MergeSelf(d.fields[k]);
      }
    }
    assert Merge(once, d).fields == once.fields;
  }

  lemma {:induction false} MergeSelf(d: Json)
    requires d.Obj?
    ensures Merge(d, d) == d
    decreases d
  {
    forall k | k in d.fields ensures Merge(d, d).fields[k] == d.fields[k] {
      if d.fields[k].Obj? { MergeSelf(d.fields[k]); }
    }
    assert Merge(d, d).fields == d.fields;
  }

  // ---- what is reported ----

  /** A path as it is reported. */
  function Dotted(p: Path): string {
    if p == [] then "" else if |p| == 1 then p[0] else p[0] + "." + Dotted(p[1..])
  }

  /** A declared value stands at the path, and there the client's own object has nothing. */
  predicate Missing(c: Json, d: Json, p: Path) {
    p != [] && At(d, p).Some? && At(c, p).None? && At(c, p[..|p| - 1]).Some? && At(c, p[..|p| - 1]).value.Obj?
  }

  /** Both have a value at the path, and not two objects. */
  predicate Overridden(c: Json, d: Json, p: Path) {
    p != [] && At(c, p).Some? && At(d, p).Some? && !(At(c, p).value.Obj? && At(d, p).value.Obj?)
  }

  lemma FirstStep(c: Json, d: Json, k: string, p: Path)
    requires c.Obj? && d.Obj?
    ensures Missing(c, d, [k] + p) <==>
      k in d.fields && if BothObjects(c, d, k) then Missing(c.fields[k], d.fields[k], p) else p == [] && k !in c.fields
    ensures Overridden(c, d, [k] + p) <==>
      k in c.fields && k in d.fields
      && if BothObjects(c, d, k) then Overridden(c.fields[k], d.fields[k], p) else p == []
    ensures p != [] ==> Dotted([k] + p) == k + "." + Dotted(p)
  {
    assert ([k] + p)[1..] == p;
    AtStep(c, k, p);
    AtStep(d, k, p);
    if p != [] {
      assert ([k] + p)[..|p|] == [k] + p[..|p| - 1];
      AtStep(c, k, p[..|p| - 1]);
      AtObject(d.fields, k, p);
      AtObject(c.fields, k, p);
      AtObject(c.fields, k, p[..|p| - 1]);
    } else {
      assert ([k] + p)[..0] == [];
    }
  }

  lemma AtStep(j: Json, k: string, p: Path)
    requires j.Obj?
    ensures At(j, [k] + p) == if k in j.fields then At(j.fields[k], p) else None
  {
    assert ([k] + p)[1..] == p;
  }

  lemma AtObject(fields: Fields, k: string, p: Path)
    ensures k in fields && p != [] && At(fields[k], p).Some? ==> fields[k].Obj?
    ensures k in fields && p == [] ==> At(fields[k], p) == Some(fields[k])
  {
  }

  lemma Deeper(prefix: string, k: string, p: Path)
    requires p != []
    ensures prefix + k + "." + Dotted(p) == prefix + (k + "." + Dotted(p))
  {
  }

  /** What is reported as injected is exactly every path, below the prefix, at which a declared
      value stands where the client's own object has nothing. */
  lemma {:induction false} InjectedIff(c: Json, d: Json, prefix: string, s: string)
    requires c.Obj? && d.Obj?
    ensures s in Injected(c, d, prefix) <==> exists p: Path :: Missing(c, d, p) && s == prefix + Dotted(p)
    decreases d
  {
    hide Missing, Dotted;
    if s in Injected(c, d, prefix) {
      var k :| k in d.fields && s in InjectedAt(c, d, prefix, k);
      if BothObjects(c, d, k) {
        InjectedIff(c.fields[k], d.fields[k], prefix + k + ".", s);
        var p: Path :| Missing(c.fields[k], d.fields[k], p) && s == prefix + k + "." + Dotted(p);
        NeverHere(c.fields[k], d.fields[k], p);
        FirstStep(c, d, k, p);
        Deeper(prefix, k, p);
      } else {
        FirstStep(c, d, k, []);
        OneStep(k);
        assert Missing(c, d, [k] + []) && s == prefix + Dotted([k] + []);
      }
    }
    if p: Path :| Missing(c, d, p) && s == prefix + Dotted(p) {
      NeverHere(c, d, p);
      var k, rest := p[0], p[1..];
      assert p == [k] + rest;
      FirstStep(c, d, k, rest);
      if BothObjects(c, d, k) {
        NeverHere(c.fields[k], d.fields[k], rest);
        Deeper(prefix, k, rest);
        InjectedIff(c.fields[k], d.fields[k], prefix + k + ".", s);
      } else {
        OneStep(k);
      }
      assert s in InjectedAt(c, d, prefix, k);
    }
  }

  /** And as kept exactly every path at which the client's own value stands against a declared one. */
  lemma {:induction false} KeptIff(c: Json, d: Json, prefix: string, s: string)
    requires c.Obj? && d.Obj?
    ensures s in Kept(c, d, prefix) <==> exists p: Path :: Overridden(c, d, p) && s == prefix + Dotted(p)
    decreases d
  {
    hide Overridden, Dotted;
    if s in Kept(c, d, prefix) {
      var k :| k in d.fields && s in KeptAt(c, d, prefix, k);
      if BothObjects(c, d, k) {
        KeptIff(c.fields[k], d.fields[k], prefix + k + ".", s);
        var p: Path :| Overridden(c.fields[k], d.fields[k], p) && s == prefix + k + "." + Dotted(p);
        NeverHere(c.fields[k], d.fields[k], p);
        FirstStep(c, d, k, p);
        Deeper(prefix, k, p);
      } else {
        FirstStep(c, d, k, []);
        OneStep(k);
        assert Overridden(c, d, [k] + []) && s == prefix + Dotted([k] + []);
      }
    }
    if p: Path :| Overridden(c, d, p) && s == prefix + Dotted(p) {
      NeverHere(c, d, p);
      var k, rest := p[0], p[1..];
      assert p == [k] + rest;
      FirstStep(c, d, k, rest);
      if BothObjects(c, d, k) {
        NeverHere(c.fields[k], d.fields[k], rest);
        Deeper(prefix, k, rest);
        KeptIff(c.fields[k], d.fields[k], prefix + k + ".", s);
      } else {
        OneStep(k);
      }
      assert s in KeptAt(c, d, prefix, k);
    }
  }

  lemma NeverHere(c: Json, d: Json, p: Path)
    ensures Missing(c, d, p) || Overridden(c, d, p) ==> p != []
  {
  }

  lemma OneStep(k: string)
    ensures [k] + [] == [k] && Dotted([k]) == k
  {
  }
}
