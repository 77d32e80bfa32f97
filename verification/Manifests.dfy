/** Collection manifests, and the stream filter resolved from one of them. */
module Manifests {
  import opened Base
  import opened StreamRequests

  datatype ManifestCollection = ManifestCollection(uid: nat, name: string)

  datatype ManifestScope = ManifestScope(uid: nat, name: string, collections: seq<ManifestCollection>) {
    function Ids(): set<nat> {
      set c <- collections :: c.uid
    }

    predicate Identified() {
      forall i, j :: 0 <= i < j < |collections| ==>
        collections[i].uid != collections[j].uid && collections[i].name != collections[j].name
    }
  }

  datatype Manifest = Manifest(uid: nat, scopes: seq<ManifestScope>) {
    /** Every UID names one thing: scopes, and collections across all scopes; names are unique in place. */
    predicate Identified() {
      && (forall s <- scopes :: s.Identified())
      && (forall i, j :: 0 <= i < j < |scopes| ==>
           && scopes[i].uid != scopes[j].uid && scopes[i].name != scopes[j].name
           && scopes[i].Ids() !! scopes[j].Ids())
    }
  }

  method CheckScope(scope: ManifestScope, seen: set<nat>) returns (ok: bool, ids: set<nat>)
    ensures ok <==> scope.Identified() && scope.Ids() !! seen
    ensures ok ==> ids == seen + scope.Ids()
  {
    ids := seen;
    var names: set<string> := {};
    var i := 0;
    while i < |scope.collections|
      invariant 0 <= i <= |scope.collections|
      invariant names == set c <- scope.collections[..i] :: c.name
      invariant ids == seen + scope.(collections := scope.collections[..i]).Ids()
      invariant scope.(collections := scope.collections[..i]).Identified()
      invariant scope.(collections := scope.collections[..i]).Ids() !! seen
    {
      var c := scope.collections[i];
      var before := scope.(collections := scope.collections[..i]);
      var after := scope.(collections := scope.collections[..i + 1]);
      assert scope.collections[..i + 1] == scope.collections[..i] + [c];
      assert after.Ids() == before.Ids() + {c.uid};
      if c.uid in ids {
        if c.uid in before.Ids() {
          var k :| 0 <= k < i && scope.collections[..i][k].uid == c.uid;
        } else {
          assert c.uid in scope.Ids() && c.uid in seen;
        }
        return false, ids;
      }
      ids := ids + {c.uid};
      if c.name in names {
        var k :| 0 <= k < i && scope.collections[..i][k].name == c.name;
        return false, ids;
      }
      names := names + {c.name};
      i := i + 1;
    }
    assert scope.(collections := scope.collections[..i]) == scope;
    ok := true;
  }

  predicate Clash(scopes: seq<ManifestScope>, i: nat, j: nat)
    requires i < j < |scopes|
  {
    scopes[i].uid == scopes[j].uid || scopes[i].name == scopes[j].name || !(scopes[i].Ids() !! scopes[j].Ids())
  }

  method ValidateIdentity(manifest: Manifest) returns (ok: bool)
    ensures ok <==> manifest.Identified()
  {
    var scopeIds: set<nat> := {};
    var scopeNames: set<string> := {};
    var collectionIds: set<nat> := {};
    var i := 0;
    while i < |manifest.scopes|
      invariant 0 <= i <= |manifest.scopes|
      invariant manifest.(scopes := manifest.scopes[..i]).Identified()
      invariant forall u :: u in scopeIds <==> exists k :: 0 <= k < i && manifest.scopes[k].uid == u
      invariant forall n :: n in scopeNames <==> exists k :: 0 <= k < i && manifest.scopes[k].name == n
      invariant forall c :: c in collectionIds <==> exists k :: 0 <= k < i && c in manifest.scopes[k].Ids()
    {
      var scope := manifest.scopes[i];
      if scope.uid in scopeIds {
        return false;
      }
      scopeIds := scopeIds + {scope.uid};
      if scope.name in scopeNames {
        return false;
      }
      scopeNames := scopeNames + {scope.name};
      var ok', ids := CheckScope(scope, collectionIds);
      if !ok' {
        if scope.Identified() {
          var c :| c in scope.Ids() && c in collectionIds;
          var k :| 0 <= k < i && c in manifest.scopes[k].Ids();
          assert Clash(manifest.scopes, k, i);
        }
        return false;
      }
      collectionIds := ids;
      i := i + 1;
    }
    assert manifest.(scopes := manifest.scopes[..i]) == manifest;
    ok := true;
  }

  // ---------------------------------------------------------------- resolution

  predicate ValidName(name: string) {
    && 1 <= |name| <= 251
    && forall c <- name :: 'a' <= c <= 'z' || 'A' <= c <= 'Z' || '0' <= c <= '9' || c == '_' || c == '-' || c == '%'
  }

  datatype CollectionFilter = CollectionFilter(scope: string, collections: seq<string>) {
    predicate Valid() {
      && ValidName(scope)
      && (forall c <- collections :: ValidName(c))
      && (forall i, j :: 0 <= i < j < |collections| ==> collections[i] != collections[j])
    }
  }

  datatype Resolved = Resolved(
    manifestUid: nat, scopeId: nat, collectionIds: seq<nat>, names: map<nat, string>, filter: StreamFilter)

  function ScopeNamed(scopes: seq<ManifestScope>, name: string, from: nat): (k: nat)
    requires from <= |scopes|
    ensures from <= k <= |scopes|
    ensures forall i :: from <= i < k ==> scopes[i].name != name
    ensures k < |scopes| ==> scopes[k].name == name
    decreases |scopes| - from
  {
    if from == |scopes| || scopes[from].name == name then from else ScopeNamed(scopes, name, from + 1)
  }

  function CollectionNamed(collections: seq<ManifestCollection>, name: string, from: nat): (k: nat)
    requires from <= |collections|
    ensures from <= k <= |collections|
    ensures forall i :: from <= i < k ==> collections[i].name != name
    ensures k < |collections| ==> collections[k].name == name
    decreases |collections| - from
  {
    if from == |collections| || collections[from].name == name then from
    else CollectionNamed(collections, name, from + 1)
  }

  predicate Offers(scope: ManifestScope, name: string) {
    CollectionNamed(scope.collections, name, 0) < |scope.collections|
  }

  function IdOf(scope: ManifestScope, name: string): nat
    requires Offers(scope, name)
  {
    scope.collections[CollectionNamed(scope.collections, name, 0)].uid
  }

  datatype ResolveError = BadFilter | NoScope | NoCollection

  /** The first `count` configured collections, by id and by name. */
  ghost predicate Selects(scope: ManifestScope, names: seq<string>, count: nat, ids: seq<nat>, byId: map<nat, string>)
    requires count <= |names|
  {
    && |ids| == count
    && (forall i :: 0 <= i < count ==> Offers(scope, names[i]) && ids[i] == IdOf(scope, names[i]) && ids[i] in byId)
    && (forall id <- byId :: exists i :: 0 <= i < count && ids[i] == id && names[i] == byId[id])
  }

  /** Every one of the first `count` collections of a scope. */
  ghost predicate SelectsAll(scope: ManifestScope, count: nat, byId: map<nat, string>)
    requires count <= |scope.collections|
  {
    && (forall i :: 0 <= i < count ==> scope.collections[i].uid in byId)
    && (forall id <- byId ::
         exists i :: 0 <= i < count && scope.collections[i].uid == id && scope.collections[i].name == byId[id])
  }

  ghost predicate ResolvesTo(manifest: Manifest, configured: CollectionFilter, streamId: Option<nat>, r: Resolved) {
    && configured.Valid()
    && var k := ScopeNamed(manifest.scopes, configured.scope, 0);
    && k < |manifest.scopes|
    && var scope := manifest.scopes[k];
    && r.manifestUid == manifest.uid && r.scopeId == scope.uid
    && r.filter == StreamFilter(if configured.collections == [] then Some(scope.uid) else None,
                                r.collectionIds, None, streamId)
    && (if configured.collections == []
        then r.collectionIds == [] && SelectsAll(scope, |scope.collections|, r.names)
        else Selects(scope, configured.collections, |configured.collections|, r.collectionIds, r.names))
  }

  method Resolve(manifest: Manifest, configured: CollectionFilter, streamId: Option<nat>)
    returns (r: Result<Resolved, ResolveError>)
    ensures r.Ok? ==> ResolvesTo(manifest, configured, streamId, r.value)
    ensures r == Err(BadFilter) <==> !configured.Valid()
    ensures r == Err(NoScope) <==>
            configured.Valid() && forall s <- manifest.scopes :: s.name != configured.scope
    ensures r == Err(NoCollection) <==>
            && configured.Valid() && ScopeNamed(manifest.scopes, configured.scope, 0) < |manifest.scopes|
            && var scope := manifest.scopes[ScopeNamed(manifest.scopes, configured.scope, 0)];
            && exists c :: c in configured.collections && !Offers(scope, c)
  {
    if !configured.Valid() {
      return Err(BadFilter);
    }
    var k := ScopeNamed(manifest.scopes, configured.scope, 0);
    if k == |manifest.scopes| {
      return Err(NoScope);
    }
    var scope := manifest.scopes[k];
    var ids: seq<nat> := [];
    var names: map<nat, string> := map[];
    var i := 0;
    if configured.collections == [] {
      while i < |scope.collections|
        invariant 0 <= i <= |scope.collections|
        invariant SelectsAll(scope, i, names)
      {
        names := names[scope.collections[i].uid := scope.collections[i].name];
        i := i + 1;
      }
    } else {
      while i < |configured.collections|
        invariant 0 <= i <= |configured.collections|
        invariant Selects(scope, configured.collections, i, ids, names)
      {
        if !Offers(scope, configured.collections[i]) {
          return Err(NoCollection);
        }
        var id := IdOf(scope, configured.collections[i]);
        ids := ids + [id];
        names := names[id := configured.collections[i]];
        i := i + 1;
      }
    }
    var filter := StreamFilter(if configured.collections == [] then Some(scope.uid) else None, ids, None, streamId);
    r := Ok(Resolved(manifest.uid, scope.uid, ids, names, filter));
  }

  ghost predicate Injective(names: map<nat, string>) {
    forall a, b :: a in names && b in names && names[a] == names[b] ==> a == b
  }

  /** A filter resolved from an identified manifest passes the wire checks, and no name has two ids. */
  lemma {:induction false} ResolvedFilterEncodes(manifest: Manifest, configured: CollectionFilter,
                                                 streamId: Option<nat>, r: Resolved)
    requires manifest.Identified() && ResolvesTo(manifest, configured, streamId, r)
    ensures FilterEncodes(r.filter) <==> streamId != Some(0)
    ensures FilterEncodes(r.filter.(streamId := None))
    ensures Injective(r.names)
    ensures r.collectionIds != [] ==> forall id :: id in r.names <==> id in r.collectionIds
  {
    var scope := manifest.scopes[ScopeNamed(manifest.scopes, configured.scope, 0)];
    assert scope.Identified();
    if configured.collections == [] {
      AllNamesDiffer(scope, r.names);
    } else {
      IdsDiffer(scope, configured.collections, r.collectionIds, r.names);
    }
  }

  lemma {:induction false} AllNamesDiffer(scope: ManifestScope, names: map<nat, string>)
    requires scope.Identified() && SelectsAll(scope, |scope.collections|, names)
    ensures Injective(names)
  {
    forall a, b | a in names && b in names && names[a] == names[b] ensures a == b {
      var i :| 0 <= i < |scope.collections| && scope.collections[i].uid == a && scope.collections[i].name == names[a];
      var j :| 0 <= j < |scope.collections| && scope.collections[j].uid == b && scope.collections[j].name == names[b];
    }
  }

  lemma {:induction false} IdsDiffer(scope: ManifestScope, names: seq<string>, ids: seq<nat>, byId: map<nat, string>)
    requires scope.Identified() && Selects(scope, names, |names|, ids, byId)
    requires forall i, j :: 0 <= i < j < |names| ==> names[i] != names[j]
    ensures Distinct(ids) && Injective(byId)
    ensures forall id :: id in byId <==> id in ids
  {
    forall i, j | 0 <= i < j < |ids| ensures ids[i] != ids[j] {
      var a := CollectionNamed(scope.collections, names[i], 0);
      var b := CollectionNamed(scope.collections, names[j], 0);
      assert scope.collections[a].name != scope.collections[b].name;
    }
    forall a, b | a in byId && b in byId && byId[a] == byId[b] ensures a == b {
      var i :| 0 <= i < |names| && ids[i] == a && names[i] == byId[a];
      var j :| 0 <= j < |names| && ids[j] == b && names[j] == byId[b];
    }
  }
}
