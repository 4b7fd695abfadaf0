/** The service object in front of one project's cache and backend. Its methods take the steps of the original
    one by one and are proved to do what `ServiceModel` and `Transparency.Step` say. */
module AuthzServices {
  import opened Types
  import opened Cel
  import opened CacheModel
  import opened Backends
  import opened ServiceModel
  import opened ProjectAuthzCaches
  import L = Lookups
  import T = Transparency

  /** The management SDK: the backend with its current database, and which of its endpoints answer. */
  class Remote {
    const backend: Backend
    var db: Db
    var up: Up

    constructor (backend: Backend, db: Db, up: Up)
      ensures this.backend == backend && this.db == db && this.up == up
    {
      this.backend, this.db, this.up := backend, db, up;
    }

    method CheckWithContext(relations: seq<Relation>, extraContext: Context) returns (checks: Option<seq<Check>>)
      ensures checks == if up.check then Some(SdkChecks(backend, db, relations, extraContext)) else None
    {
      checks := if up.check then Some(SdkChecks(backend, db, relations, extraContext)) else None;
    }

    method LoadSchema() returns (schema: Option<Schema>)
      ensures schema == if up.load then Some(db.schema) else None
    {
      schema := if up.load then Some(db.schema) else None;
    }

    /** `compiled` is the schema the backend makes of the source text. */
    method SaveSchema(dsl: string, compiled: Schema) returns (ok: bool)
      modifies this`db
      ensures ok == up.write && db == if ok then old(db).(schema := compiled) else old(db)
    {
      ok := up.write;
      if ok { db := db.(schema := compiled); }
    }

    method CreateRelations(relations: seq<Relation>) returns (ok: bool)
      modifies this`db
      ensures ok == up.write && db == if ok then T.Create(old(db), relations) else old(db)
    {
      ok := up.write;
      if ok { db := T.Create(db, relations); }
    }

    method DeleteRelations(relations: seq<Relation>) returns (ok: bool)
      modifies this`db
      ensures ok == up.write && db == if ok then T.Delete(old(db), relations) else old(db)
    {
      ok := up.write;
      if ok { db := T.Delete(db, relations); }
    }

    method WhoCanAccess(resource: string, relationDefinition: string, namespace: string)
      returns (targets: Option<seq<string>>)
      ensures targets == if up.lookup then Some(backend.who(db, resource, relationDefinition, namespace)) else None
    {
      targets := if up.lookup then Some(backend.who(db, resource, relationDefinition, namespace)) else None;
    }

    method WhatCanTargetAccess(target: string) returns (relations: Option<seq<AuthzRelation>>)
      ensures relations == if up.lookup then Some(backend.what(db, target)) else None
    {
      relations := if up.lookup then Some(backend.what(db, target)) else None;
    }
  }

  // ---------------------------------------------------------------- loops over answers

  method HasCacheableConditional(checks: seq<Check>) returns (has: bool)
    ensures has == exists i :: 0 <= i < |checks| && CacheableConditional(checks[i])
  {
    for i := 0 to |checks|
      invariant forall k :: 0 <= k < i ==> !CacheableConditional(checks[k])
    {
      if CacheableConditional(checks[i]) {
        return true;
      }
    }
    has := false;
  }

  /** Fewer relations leave fewer unchecked. */
  lemma {:induction false} UncheckedMonotone(e: Engine, c: Cache, rs: seq<Relation>, n: nat, context: Context)
    requires n <= |rs|
    ensures |Unchecked(e, c, rs[..n], context)| <= |Unchecked(e, c, rs, context)|
  {
    hide Serve;
    if n == |rs| {
      assert rs[..n] == rs;
    } else {
      assert rs[..|rs| - 1][..n] == rs[..n];
      UncheckedMonotone(e, c, rs[..|rs| - 1], n, context);
    }
  }

  lemma MergeStep(e: Engine, c: Cache, rs: seq<Relation>, i: nat, context: Context, sdk: seq<Check>)
    requires i < |rs| && |sdk| >= |Unchecked(e, c, rs, context)|
    ensures |Unchecked(e, c, rs[..i], context)| <= |Unchecked(e, c, rs[..i + 1], context)| <= |sdk|
    ensures var check := Serve(e, c, rs[i], context);
      && (check.Some? ==>
           && Merge(e, c, rs[..i + 1], context, sdk) == Merge(e, c, rs[..i], context, sdk) + [check.value]
           && Unchecked(e, c, rs[..i + 1], context) == Unchecked(e, c, rs[..i], context))
      && (check.None? ==>
           && |Unchecked(e, c, rs[..i], context)| < |sdk|
           && Merge(e, c, rs[..i + 1], context, sdk) ==
                Merge(e, c, rs[..i], context, sdk) + [sdk[|Unchecked(e, c, rs[..i], context)|]]
           && |Unchecked(e, c, rs[..i + 1], context)| == |Unchecked(e, c, rs[..i], context)| + 1)
  {
    hide Serve;
    UncheckedMonotone(e, c, rs, i + 1, context);
    assert rs[..i + 1][..i] == rs[..i];
    UncheckedMonotone(e, c, rs[..i + 1], i, context);
  }

  /** The merge of the answers from the cache, by position, with those fetched, in order. */
  method MergeChecks(relations: seq<Relation>, indexToCachedChecks: map<nat, Check>, sdkChecks: seq<Check>,
                     ghost e: Engine, ghost c: Cache, ghost context: Context) returns (result: seq<Check>)
    requires |sdkChecks| >= |Unchecked(e, c, relations, context)|
    requires indexToCachedChecks == ServedAt(e, c, relations, context)
    ensures result == Merge(e, c, relations, context, sdkChecks)
  {
    result := [];
    var j := 0;
    UncheckedMonotone(e, c, relations, 0, context);
    for i := 0 to |relations|
      invariant j == |Unchecked(e, c, relations[..i], context)| <= |sdkChecks|
      invariant result == Merge(e, c, relations[..i], context, sdkChecks)
    {
      MergeStep(e, c, relations, i, context, sdkChecks);
      if i in indexToCachedChecks {
        result := result + [indexToCachedChecks[i]];
      } else {
        result := result + [sdkChecks[j]];
        j := j + 1;
      }
    }
    assert relations[..|relations|] == relations;
  }

  /** Keeps, in order, the candidates whose check is allowed. */
  method KeepAllowed<C>(candidates: seq<C>, checks: seq<Check>) returns (verified: seq<C>)
    requires |checks| == |candidates|
    ensures verified == Allowed(candidates, checks)
  {
    verified := [];
    for i := 0 to |checks|
      invariant verified == Allowed(candidates[..i], checks[..i])
    {
      assert candidates[..i + 1][..i] == candidates[..i] && checks[..i + 1][..i] == checks[..i];
      if checks[i].allowed {
        verified := verified + [candidates[i]];
      }
    }
    assert candidates[..|checks|] == candidates && checks[..|checks|] == checks;
  }

  // ---------------------------------------------------------------- the service

  class AuthzCache {
    const cache: ProjectAuthzCache
    const remote: Remote

    ghost function Repr(): set<object> {
      cache.Repr() + {this, remote}
    }

    ghost predicate Valid()
      reads Repr()
    {
      && remote as object !in cache.Repr() && this as object !in cache.Repr()
      && cache.engine == remote.backend.engine
      && cache.Valid()
    }

    ghost function System(): T.System
      reads Repr()
    {
      T.System(cache.Value(), remote.db)
    }

    constructor (cache: ProjectAuthzCache, remote: Remote)
      requires cache.Valid() && cache.engine == remote.backend.engine
      requires remote as object !in cache.Repr()
      ensures Valid() && this.cache == cache && this.remote == remote
    {
      this.cache, this.remote := cache, remote;
    }

    method CreateFGASchema(dsl: string, compiled: Schema) returns (ok: bool)
      requires Valid()
      modifies Repr()
      ensures Valid() && remote.up == old(remote.up) && ok == remote.up.write
      ensures System() == T.Step(remote.backend, old(System()), T.SchemaOp(dsl, compiled, remote.up))
    {
      ok := remote.SaveSchema(dsl, compiled);
      if !ok {
        return;
      }
      cache.UpdateCacheWithSchema(Some(Schema(dsl, "", [])));
    }

    method CreateFGARelations(relations: seq<Relation>, clock: nat -> nat) returns (ok: bool)
      requires Valid()
      modifies Repr()
      ensures Valid() && remote.up == old(remote.up) && ok == (relations == [] || remote.up.write)
      ensures System() == T.Step(remote.backend, old(System()), T.CreateOp(relations, clock, remote.up))
    {
      if |relations| == 0 {
        return true;
      }
      ok := remote.CreateRelations(relations);
      if !ok {
        return;
      }
      cache.UpdateCacheWithAddedRelations(relations, clock);
    }

    method DeleteFGARelations(relations: seq<Relation>) returns (ok: bool)
      requires Valid()
      modifies Repr()
      ensures Valid() && remote.up == old(remote.up) && ok == (relations == [] || remote.up.write)
      ensures System() == T.Step(remote.backend, old(System()), T.DeleteOp(relations, remote.up))
    {
      if |relations| == 0 {
        return true;
      }
      ok := remote.DeleteRelations(relations);
      if !ok {
        return;
      }
      cache.UpdateCacheWithDeletedRelations(relations);
    }

    method EnsureSchemaLoaded()
      requires Valid()
      modifies cache.Repr()
      ensures Valid() && cache.Value() == LoadSchema(cache.engine, old(cache.Value()), remote.db.schema, remote.up)
    {
      var loaded := cache.GetSchema();
      if loaded.Some? && loaded.value.version != "" {
        return;
      }
      var schema := remote.LoadSchema();
      if schema.None? {
        return;
      }
      cache.EnsureSchemaLoaded(schema);
    }

    /** Takes in what the backend answered, loading the schema first if an answer needs it. */
    method LearnChecks(sdkChecks: seq<Check>)
      requires Valid()
      modifies cache.Repr()
      ensures Valid()
      ensures old(cache.Value()).direct.cache.Valid() && old(cache.Value()).indirect.Valid()
      ensures cache.Value() == Learn(cache.engine, old(cache.Value()), remote.db.schema, sdkChecks, remote.up)
    {
      hide InsertAll, ServiceModel.LoadSchema;
      var has := HasCacheableConditional(sdkChecks);
      if has {
        EnsureSchemaLoaded();
      }
      cache.UpdateCacheWithChecks(sdkChecks);
    }

    /** Answers every relation, from the cache where it can and from the backend otherwise, in input order. */
    method Check(relations: seq<Relation>, extraContext: Context) returns (result: Option<seq<Check>>)
      requires Valid()
      modifies cache.Repr()
      ensures Valid() && Good(remote.backend.engine, old(cache.Value()))
      ensures (cache.Value(), result) ==
              CheckAll(remote.backend, old(cache.Value()), remote.db, relations, extraContext, remote.up)
    {
      hide Good, Learn, TouchAll, Unchecked, ServedChecks, Merge, ServedAt;
      ghost var c := cache.Value();
      var cachedChecks, toCheckViaSDK, indexToCachedChecks := cache.CheckRelations(relations, extraContext);
      if |toCheckViaSDK| == 0 {
        return Some(cachedChecks);
      }
      var sdkChecks := remote.CheckWithContext(toCheckViaSDK, extraContext);
      if sdkChecks.None? {
        return None;
      }
      LearnChecks(sdkChecks.value);
      var merged := MergeChecks(relations, indexToCachedChecks, sdkChecks.value, cache.engine, c, extraContext);
      result := Some(merged);
    }

    method FilterWhoCanAccessCandidates(resource: string, relationDefinition: string, namespace: string,
                                        candidates: seq<string>, extraContext: Context)
      returns (verified: Option<seq<string>>)
      requires Valid()
      modifies cache.Repr()
      ensures Valid() && Good(remote.backend.engine, old(cache.Value()))
      ensures var rs := WhoRelations(resource, relationDefinition, namespace, candidates);
        var (c', checks) := CheckAll(remote.backend, old(cache.Value()), remote.db, rs, extraContext, remote.up);
        && cache.Value() == c' && (checks.Some? ==> |checks.value| == |candidates|)
        && verified == if checks.Some? then Some(Allowed(candidates, checks.value)) else None
    {
      hide Good, CheckAll, Allowed;
      var relations := WhoRelations(resource, relationDefinition, namespace, candidates);
      CheckAnswers(remote.backend, cache.Value(), remote.db, relations, extraContext, remote.up);
      var checks := Check(relations, extraContext);
      if checks.None? {
        return None;
      }
      var kept := KeepAllowed(candidates, checks.value);
      verified := Some(kept);
    }

    method FilterWhatCanTargetAccessCandidates(target: string, candidates: seq<AuthzRelation>, extraContext: Context)
      returns (verified: Option<seq<AuthzRelation>>)
      requires Valid()
      modifies cache.Repr()
      ensures Valid() && Good(remote.backend.engine, old(cache.Value()))
      ensures var rs := WhatRelations(candidates, target);
        var (c', checks) := CheckAll(remote.backend, old(cache.Value()), remote.db, rs, extraContext, remote.up);
        && cache.Value() == c' && (checks.Some? ==> |checks.value| == |candidates|)
        && verified == if checks.Some? then Some(Allowed(candidates, checks.value)) else None
    {
      hide Good, CheckAll, Allowed;
      var relations := WhatRelations(candidates, target);
      CheckAnswers(remote.backend, cache.Value(), remote.db, relations, extraContext, remote.up);
      var checks := Check(relations, extraContext);
      if checks.None? {
        return None;
      }
      var kept := KeepAllowed(candidates, checks.value);
      verified := Some(kept);
    }

    /** `now` is the clock when the cached list is read, `storedAt` when a fetched one is stored. */
    method WhoCanAccess(resource: string, relationDefinition: string, namespace: string, extraContext: Context,
                        now: nat, storedAt: nat)
      returns (targets: Option<seq<string>>)
      requires Valid()
      modifies cache.Repr()
      ensures Valid() && Good(remote.backend.engine, old(cache.Value()))
      ensures (cache.Value(), targets) ==
              ServiceModel.WhoCanAccess(remote.backend, old(cache.Value()), remote.db, resource, relationDefinition,
                                        namespace, extraContext, now, storedAt, remote.up)
    {
      hide Good, CheckAll, Allowed, L.Touch, L.Put, L.Served;
      var candidates := cache.GetWhoCanAccessCached(resource, relationDefinition, namespace, now);
      if candidates.Some? && |candidates.value| > 0 {
        targets := FilterWhoCanAccessCandidates(resource, relationDefinition, namespace, candidates.value,
                                                extraContext);
        return;
      }
      targets := remote.WhoCanAccess(resource, relationDefinition, namespace);
      if targets.None? {
        return;
      }
      cache.SetWhoCanAccessCached(resource, relationDefinition, namespace, targets.value, storedAt);
    }

    method WhatCanTargetAccess(target: string, extraContext: Context, now: nat, storedAt: nat)
      returns (relations: Option<seq<AuthzRelation>>)
      requires Valid()
      modifies cache.Repr()
      ensures Valid() && Good(remote.backend.engine, old(cache.Value()))
      ensures (cache.Value(), relations) ==
              ServiceModel.WhatCanTargetAccess(remote.backend, old(cache.Value()), remote.db, target, extraContext,
                                               now, storedAt, remote.up)
    {
      hide Good, CheckAll, Allowed, L.Touch, L.PutRows, L.ServedRows;
      var candidates := cache.GetWhatCanTargetAccessCached(target, now);
      if candidates.Some? && |candidates.value| > 0 {
        relations := FilterWhatCanTargetAccessCandidates(target, candidates.value, extraContext);
        return;
      }
      relations := remote.WhatCanTargetAccess(target);
      if relations.None? {
        return;
      }
      cache.SetWhatCanTargetAccessCached(target, relations.value, storedAt);
    }
  }
}
