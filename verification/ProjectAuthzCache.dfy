/** The cache object of one project. Each method is one critical section of the original; each is proved
    to do to the object's value what the function of the same purpose in `CacheModel` does, and to keep
    the object's invariant. Clock readings and remote replies are parameters. */
module ProjectAuthzCaches {
  import opened Types
  import opened Keys
  import opened Lrus
  import opened Cel
  import opened GrantStore
  import opened CacheModel
  import L = Lookups

  lemma RemoveFirstAt(keys: seq<Key>, k: Key, i: nat)
    requires i < |keys| && keys[i] == k && k !in keys[..i]
    ensures RemoveFirst(keys, k) == keys[..i] + keys[i + 1..]
  {
    if i > 0 {
      assert keys[0] == keys[..i][0];
      assert keys[1..][..i - 1] == keys[..i][1..];
      RemoveFirstAt(keys[1..], k, i - 1);
      assert keys[..i] + keys[i + 1..] == [keys[0]] + (keys[1..][..i - 1] + keys[1..][i..]);
    }
  }

  lemma RemoveFirstNone(keys: seq<Key>, k: Key)
    requires k !in keys
    ensures RemoveFirst(keys, k) == keys
  {
  }

  /** Reads do not change what the cache answers. */
  lemma {:induction false} ServeAfterTouches(e: Engine, c: Cache, rs: seq<Relation>, r: Relation, context: Context)
    ensures Serve(e, TouchAll(c, rs), r, context) == Serve(e, c, r, context)
    ensures TouchAll(c, rs).direct.cache.entries == c.direct.cache.entries
    ensures TouchAll(c, rs).indirect.entries == c.indirect.entries
    ensures TouchAll(c, rs).conditions == c.conditions
  {
    if rs != [] {
      ServeAfterTouches(e, c, rs[..|rs| - 1], r, context);
    }
  }

  /** How the split grows by one relation. */
  lemma SplitStep(e: Engine, c: Cache, rs: seq<Relation>, i: nat, context: Context)
    requires i < |rs|
    ensures TouchAll(c, rs[..i + 1]) == TouchGrant(TouchAll(c, rs[..i]), RelationKey(rs[i]))
    ensures var check := Serve(e, c, rs[i], context);
      && ServedChecks(e, c, rs[..i + 1], context) ==
           (if check.Some? then ServedChecks(e, c, rs[..i], context) + [check.value]
            else ServedChecks(e, c, rs[..i], context))
      && Unchecked(e, c, rs[..i + 1], context) ==
           (if check.Some? then Unchecked(e, c, rs[..i], context) else Unchecked(e, c, rs[..i], context) + [rs[i]])
  {
    assert rs[..i + 1][..i] == rs[..i];
  }

  lemma ServedAtStep(e: Engine, c: Cache, rs: seq<Relation>, i: nat, context: Context)
    requires i < |rs|
    ensures var check := Serve(e, c, rs[i], context);
      ServedAt(e, c, rs[..i + 1], context) ==
        if check.Some? then ServedAt(e, c, rs[..i], context)[i := check.value] else ServedAt(e, c, rs[..i], context)
  {
    var sofar, next := rs[..i], rs[..i + 1];
    assert next[i] == rs[i] && forall j :: 0 <= j < i ==> next[j] == sofar[j];
    var m, m' := ServedAt(e, c, sofar, context), ServedAt(e, c, next, context);
    forall j: nat
      ensures j in m' <==> j in m || (j == i && Serve(e, c, rs[i], context).Some?)
      ensures j in m ==> m'[j] == m[j]
    {
    }
  }

  ghost function KeysOf(inner: map<string, seq<Key>>, names: set<string>): set<Key>
    requires names <= inner.Keys
  {
    set b, k | b in names && k in inner[b] :: k
  }

  lemma KeysOfStep(inner: map<string, seq<Key>>, todo: set<string>, b: string)
    requires b in todo && todo <= inner.Keys
    ensures KeysOf(inner, inner.Keys - (todo - {b})) == KeysOf(inner, inner.Keys - todo) + (set k | k in inner[b])
  {
    assert inner.Keys - (todo - {b}) == (inner.Keys - todo) + {b};
  }

  class ProjectAuthzCache {
    const engine: Engine
    const directRelationCache: LruCache<Key, Grant>
    const indirectRelationCache: LruCache<Key, Grant>
    const lookupCache: LruCache?<Key, L.Entry>
    const lookupCacheEnabled: bool
    const lookupCacheTTL: nat
    const lookupCacheMaxResult: int
    const purgeCooldownWindow: nat

    var schemaCache: Option<Schema>
    var compiledConditions: Programs
    var loadedSchemaVersion: string
    ghost var generation: nat

    var directResourcesIndex: Index
    var directTargetsIndex: Index
    var directKeyComponents: map<Key, Components>

    var lastPollTime: nat
    var purgeCooldownTimer: Option<Timer>
    /** The runtime's timers started here that were neither stopped nor fired. */
    var pendingTimers: set<Timer>
    var nextTimer: nat

    ghost function Repr(): set<object> {
      {this, directRelationCache, indirectRelationCache} + LookupRepr()
    }

    ghost function LookupRepr(): set<object> {
      if lookupCache == null then {} else {lookupCache}
    }

    ghost function Direct(): Store
      reads this, directRelationCache
    {
      Store(directRelationCache.Value(), directResourcesIndex, directTargetsIndex, directKeyComponents)
    }

    ghost function SchemaState(): Conditions
      reads this
    {
      Conditions(schemaCache, compiledConditions, loadedSchemaVersion, generation)
    }

    ghost function LookupState(): L.LookupCache
      reads LookupRepr()
    {
      L.LookupCache(lookupCacheEnabled, lookupCacheTTL, lookupCacheMaxResult,
                    if lookupCache == null then None else Some(lookupCache.Value()))
    }

    ghost function PollingState(): Polling
      reads this
    {
      Polling(lastPollTime, purgeCooldownWindow, purgeCooldownTimer, pendingTimers, nextTimer)
    }

    ghost function Value(): Cache
      reads Repr()
    {
      Cache(Direct(), indirectRelationCache.Value(), SchemaState(), LookupState(), PollingState())
    }

    /** The three caches are separate objects and usable. */
    ghost predicate Shape()
      reads Repr()
    {
      && directRelationCache != indirectRelationCache
      && directRelationCache as object !in LookupRepr() && indirectRelationCache as object !in LookupRepr()
      && directRelationCache.Valid() && indirectRelationCache.Valid()
      && (lookupCache != null ==> lookupCache.Valid())
    }

    ghost predicate Valid()
      reads Repr()
    {
      Shape() && Good(engine, Value())
    }

    constructor (engine: Engine, config: Config, now: nat)
      requires config.Valid()
      ensures Valid() && fresh(Repr()) && this.engine == engine
      ensures Value() == NewCache(config, now).(conditions := Conditions(None, map[], "", 0))
    {
      this.engine := engine;
      directRelationCache := new LruCache(config.directSize);
      indirectRelationCache := new LruCache(config.indirectSize);
      if config.lookupEnabled {
        lookupCache := new LruCache(config.lookupSize);
      } else {
        lookupCache := null;
      }
      lookupCacheEnabled := config.lookupEnabled;
      lookupCacheTTL, lookupCacheMaxResult := config.ttl, config.maxResult;
      purgeCooldownWindow := config.window;
      schemaCache, compiledConditions, loadedSchemaVersion, generation := None, map[], "", 0;
      directResourcesIndex, directTargetsIndex, directKeyComponents := map[], map[], map[];
      lastPollTime, purgeCooldownTimer, pendingTimers, nextTimer := now, None, {}, 0;
      new;
      NewCacheGood(engine, config, now);
    }

    // ---------------------------------------------------------------- direct grants and their indexes

    static method RemoveKeyFromIndex(index: Index, a: string, b: string, keyToRemove: Key) returns (index': Index)
      ensures index' == UnfileKey(index, a, b, keyToRemove)
    {
      index' := index;
      if a in index {
        var inner := index[a];
        var keys := KeysAt(inner, b);
        var i := 0;
        while i < |keys| && keys[i] != keyToRemove
          invariant i <= |keys| && keyToRemove !in keys[..i]
        {
          i := i + 1;
        }
        if i < |keys| {
          RemoveFirstAt(keys, keyToRemove, i);
          keys := keys[..i] + keys[i + 1..];
          inner := inner[b := keys];
        } else {
          assert keys[..i] == keys;
          RemoveFirstNone(keys, keyToRemove);
        }
        assert keys == RemoveFirst(KeysAt(index[a], b), keyToRemove);
        if |keys| == 0 {
          inner := inner - {b};
        }
        index' := if inner == map[] then index - {a} else index[a := inner];
        assert inner == if keys == [] then index[a] - {b} else index[a][b := keys];
      }
    }

    method RemoveIndexOnCacheEviction(key: Key)
      modifies this`directResourcesIndex, this`directTargetsIndex, this`directKeyComponents
      ensures Direct() == Evict(old(Direct()), key)
    {
      if key !in directKeyComponents {
        return;
      }
      var components := directKeyComponents[key];
      directResourcesIndex := RemoveKeyFromIndex(directResourcesIndex, components.resource, components.target, key);
      directTargetsIndex := RemoveKeyFromIndex(directTargetsIndex, components.target, components.resource, key);
      directKeyComponents := directKeyComponents - {key};
    }

    method AddDirectRelation(r: Relation, grant: Grant)
      requires directRelationCache.Valid()
      modifies directRelationCache, this`directResourcesIndex, this`directTargetsIndex, this`directKeyComponents
      ensures directRelationCache.Valid() && Direct() == AddDirect(old(Direct()), TripleOf(r), grant)
    {
      var key := RelationKey(r);
      var evicted := directRelationCache.Add(key, grant);
      if evicted.Some? {
        RemoveIndexOnCacheEviction(evicted.value);
      }
      directKeyComponents := directKeyComponents[key := Components(r.resource, r.target)];
      directResourcesIndex := FileKey(directResourcesIndex, r.resource, r.target, key);
      directTargetsIndex := FileKey(directTargetsIndex, r.target, r.resource, key);
    }

    method RemoveKeys(keys: seq<Key>)
      requires directRelationCache.Valid()
      modifies directRelationCache
      ensures directRelationCache.Valid()
      ensures directRelationCache.Value() == old(directRelationCache.Value()).RemoveAll(set k | k in keys)
    {
      hide Lru.RemoveAll;
      RemoveNone(directRelationCache.Value());
      ghost var none := keys[..0];
      assert (set k | k in none) == {};
      for i := 0 to |keys|
        invariant directRelationCache.Valid()
        invariant directRelationCache.Value() == old(directRelationCache.Value()).RemoveAll(set k | k in keys[..i])
      {
        RemoveNext(old(directRelationCache.Value()), keys[..i], keys[..i + 1], keys[i]);
        directRelationCache.Remove(keys[i]);
      }
      assert keys[..|keys|] == keys;
    }

    /** Removes every key of an inner map, list by list, in no particular order. */
    method RemoveKeysOf(inner: map<string, seq<Key>>)
      requires directRelationCache.Valid()
      modifies directRelationCache
      ensures directRelationCache.Valid()
      ensures directRelationCache.Value() == old(directRelationCache.Value()).RemoveAll(KeysOf(inner, inner.Keys))
    {
      var todo := inner.Keys;
      RemoveNone(directRelationCache.Value());
      assert KeysOf(inner, inner.Keys - todo) == {};
      while todo != {}
        invariant todo <= inner.Keys
        invariant directRelationCache.Valid()
        invariant directRelationCache.Value() ==
          old(directRelationCache.Value()).RemoveAll(KeysOf(inner, inner.Keys - todo))
        decreases todo
      {
        var b :| b in todo;
        KeysOfStep(inner, todo, b);
        RemoveTwice(old(directRelationCache.Value()), KeysOf(inner, inner.Keys - todo), set k | k in inner[b]);
        RemoveKeys(inner[b]);
        todo := todo - {b};
      }
      assert inner.Keys - todo == inner.Keys;
    }

    method RemoveDirectRelationsByResource(r: string)
      requires directRelationCache.Valid()
      modifies directRelationCache, this`directResourcesIndex
      ensures directRelationCache.Valid() && Direct() == SweepResource(old(Direct()), r)
    {
      RemoveNone(directRelationCache.Value());
      if r in directResourcesIndex {
        RemoveKeysOf(directResourcesIndex[r]);
        assert KeysUnder(directResourcesIndex, r) == KeysOf(directResourcesIndex[r], directResourcesIndex[r].Keys);
      }
      directResourcesIndex := directResourcesIndex - {r};
    }

    method RemoveDirectRelationsByTarget(t: string)
      requires directRelationCache.Valid()
      modifies directRelationCache, this`directTargetsIndex
      ensures directRelationCache.Valid() && Direct() == SweepTarget(old(Direct()), t)
    {
      RemoveNone(directRelationCache.Value());
      if t in directTargetsIndex {
        RemoveKeysOf(directTargetsIndex[t]);
        assert KeysUnder(directTargetsIndex, t) == KeysOf(directTargetsIndex[t], directTargetsIndex[t].Keys);
      }
      directTargetsIndex := directTargetsIndex - {t};
    }

    method RemoveDirectRelationsByResourceAndTarget(r: Relation)
      requires directRelationCache.Valid()
      modifies directRelationCache, this`directResourcesIndex, this`directTargetsIndex
      ensures directRelationCache.Valid()
      ensures Direct() == SweepTarget(SweepResource(old(Direct()), r.resource), r.target)
    {
      RemoveDirectRelationsByResource(r.resource);
      RemoveDirectRelationsByTarget(r.target);
    }

    // ---------------------------------------------------------------- schema

    method SetSchema(schema: Option<Schema>)
      modifies this`schemaCache, this`compiledConditions, this`loadedSchemaVersion, this`generation
      ensures SchemaState() == CacheModel.SetSchema(engine, old(SchemaState()), schema)
    {
      schemaCache, compiledConditions, loadedSchemaVersion := schema, map[], "";
      generation := generation + 1;
      if schema.None? {
        return;
      }
      loadedSchemaVersion := schema.value.version;
      var conditions := schema.value.conditions;
      var compiled: Programs := map[];
      for i := 0 to |conditions|
        invariant compiled == CompileAll(engine, conditions[..i])
      {
        assert conditions[..i + 1][..i] == conditions[..i];
        var program := Compile(engine, conditions[i]);
        if program.Some? {
          compiled := compiled[conditions[i].id := program.value];
        }
      }
      assert conditions[..|conditions|] == conditions;
      compiledConditions := compiled;
    }

    /** Empties the direct grants. The indexes are replaced first, so the eviction callbacks find nothing to do. */
    method PurgeDirectRelations()
      requires directRelationCache.Valid()
      modifies directRelationCache, this`directResourcesIndex, this`directTargetsIndex, this`directKeyComponents
      ensures directRelationCache.Valid() && Direct() == Purge(old(Direct()))
    {
      directResourcesIndex, directTargetsIndex, directKeyComponents := map[], map[], map[];
      var evicted := directRelationCache.Purge();
      for i := 0 to |evicted|
        invariant directRelationCache.Valid() && Direct() == Purge(old(Direct()))
      {
        RemoveIndexOnCacheEviction(evicted[i]);
      }
    }

    method PurgeRelationCaches()
      requires Shape()
      modifies directRelationCache, indirectRelationCache, LookupRepr(),
               this`directResourcesIndex, this`directTargetsIndex, this`directKeyComponents
      ensures Shape() && Value() == PurgeRelations(old(Value())) && Emptied(old(Value()), Value())
    {
      PurgesEmpty(engine, Value(), None, 0);
      PurgeDirectRelations();
      var _ := indirectRelationCache.Purge();
      if lookupCache != null {
        var _ := lookupCache.Purge();
      }
    }

    method UpdateCacheWithSchema(schema: Option<Schema>)
      requires Valid()
      modifies Repr()
      ensures Valid() && Value() == UpdateSchema(engine, old(Value()), schema)
      ensures Emptied(old(Value()), Value()) && SchemaState().schema == schema
    {
      UpdateSchemaEffect(engine, Value(), schema);
      SetSchema(schema);
      PurgeRelationCaches();
    }

    method EnsureSchemaLoaded(schema: Option<Schema>)
      requires Valid()
      modifies this`schemaCache, this`compiledConditions, this`loadedSchemaVersion, this`generation
      ensures Valid() && Value() == EnsureSchema(engine, old(Value()), schema)
    {
      EnsureSchemaEffect(engine, Value(), schema);
      if schemaCache.Some? && loadedSchemaVersion != "" {
        return;
      }
      SetSchema(schema);
    }

    method GetSchema() returns (schema: Option<Schema>)
      ensures schema == SchemaState().schema
    {
      schema := schemaCache;
    }

    // ---------------------------------------------------------------- reads

    method GetCachedGrant(r: Relation) returns (found: Option<(Grant, bool)>)
      requires Shape()
      modifies directRelationCache, indirectRelationCache
      ensures Shape() && Value() == TouchGrant(old(Value()), RelationKey(r))
      ensures found == FindGrant(old(Value()), RelationKey(r))
    {
      var k := RelationKey(r);
      var grant := directRelationCache.Get(k);
      if grant.Some? {
        return Some((grant.value, true));
      }
      grant := indirectRelationCache.Get(k);
      found := if grant.Some? then Some((grant.value, false)) else None;
    }

    /** The answer for one relation and the recency update that reading it causes. */
    method CheckRelation(r: Relation, extraContext: Context) returns (check: Option<Check>)
      requires Shape()
      modifies directRelationCache, indirectRelationCache
      ensures Shape() && Value() == TouchGrant(old(Value()), RelationKey(r))
      ensures check == Serve(engine, old(Value()), r, extraContext)
    {
      var found := GetCachedGrant(r);
      if found.None? {
        return None;
      }
      var (grant, direct) := found.value;
      if grant.cond.None? {
        return Some(Check(grant.allowed, r, PLAIN.(direct := direct)));
      }
      var matches := CertMatches(engine, compiledConditions, grant.cond.value, extraContext);
      check := if matches then Some(Check(grant.allowed, r, PLAIN.(conditional := true))) else None;
    }

    /** Splits the relations into those the cache answers and those left to the backend, both in order, and
        says which positions were answered. */
    method CheckRelations(relations: seq<Relation>, extraContext: Context)
      returns (checks: seq<Check>, unchecked: seq<Relation>, indexToCheck: map<nat, Check>)
      requires Valid()
      modifies directRelationCache, indirectRelationCache
      ensures Valid()
      ensures Value() == TouchAll(old(Value()), relations)
      ensures checks == ServedChecks(engine, old(Value()), relations, extraContext)
      ensures unchecked == Unchecked(engine, old(Value()), relations, extraContext)
      ensures indexToCheck == ServedAt(engine, old(Value()), relations, extraContext)
    {
      ghost var c := Value();
      checks, unchecked, indexToCheck := [], [], map[];
      for i := 0 to |relations|
        invariant Shape() && Value() == TouchAll(c, relations[..i])
        invariant checks == ServedChecks(engine, c, relations[..i], extraContext)
        invariant unchecked == Unchecked(engine, c, relations[..i], extraContext)
        invariant indexToCheck == ServedAt(engine, c, relations[..i], extraContext)
      {
        ServeAfterTouches(engine, c, relations[..i], relations[i], extraContext);
        SplitStep(engine, c, relations, i, extraContext);
        ServedAtStep(engine, c, relations, i, extraContext);
        var check := CheckRelation(relations[i], extraContext);
        if check.None? {
          unchecked := unchecked + [relations[i]];
        } else {
          checks := checks + [check.value];
          indexToCheck := indexToCheck[i := check.value];
        }
      }
      assert relations[..|relations|] == relations;
      TouchAllEffect(engine, c, relations);
    }

    // ---------------------------------------------------------------- answers from the backend

    method HasAllCompiledConditions(ids: seq<CondId>) returns (all: bool)
      ensures all == AllCompiled(compiledConditions, ids)
    {
      for i := 0 to |ids|
        invariant AllCompiled(compiledConditions, ids[..i])
      {
        if ids[i] !in compiledConditions {
          return false;
        }
      }
      all := true;
    }

    method CacheableGrant(c: Check) returns (grant: Option<Grant>)
      ensures grant == Cacheable(SchemaState(), c)
    {
      if c.info.factUsed {
        return None;
      }
      if !c.info.conditional {
        return Some(Grant(c.allowed, None));
      }
      var trues := HasAllCompiledConditions(c.info.trueConditions);
      var falses := HasAllCompiledConditions(c.info.falseConditions);
      if c.info.schemaVersion != loadedSchemaVersion ||
         (|c.info.trueConditions| == 0 && |c.info.falseConditions| == 0) || !trues || !falses {
        return None;
      }
      if |c.info.missingContext| != 0 || c.info.conditionalErr != "" {
        return None;
      }
      grant := Some(Grant(c.allowed, Some(Cert(c.info.trueConditions, c.info.falseConditions))));
    }

    method InsertCheck(c: Check)
      requires Shape()
      modifies directRelationCache, indirectRelationCache,
               this`directResourcesIndex, this`directTargetsIndex, this`directKeyComponents
      ensures Shape() && Value() == Insert(old(Value()), c)
    {
      var grant := CacheableGrant(c);
      if grant.Some? {
        if c.info.direct {
          AddDirectRelation(c.relation, grant.value);
        } else {
          var _ := indirectRelationCache.Add(RelationKey(c.relation), grant.value);
        }
      }
    }

    method UpdateCacheWithChecks(sdkChecks: seq<Check>)
      requires Valid()
      modifies Repr()
      ensures Valid() && Value() == InsertAll(old(Value()), sdkChecks)
    {
      InsertAllGood(engine, Value(), sdkChecks);
      for i := 0 to |sdkChecks|
        invariant Shape() && Value() == InsertAll(old(Value()), sdkChecks[..i])
      {
        assert sdkChecks[..i + 1][..i] == sdkChecks[..i];
        InsertCheck(sdkChecks[i]);
      }
      assert sdkChecks[..|sdkChecks|] == sdkChecks;
    }

    // ---------------------------------------------------------------- local writes

    /** The loop of `UpdateCacheWithAddedRelations`. */
    method SweepAndExtend(relations: seq<Relation>, clock: nat -> nat)
      requires Shape()
      modifies directRelationCache, this`directResourcesIndex, this`directTargetsIndex, LookupRepr()
      ensures Shape()
      ensures Direct() == SweepRelations(old(Direct()), relations)
      ensures LookupState() == L.AddRelations(old(LookupState()), relations, clock)
    {
      hide SweepRelations, L.AddRelations, L.AddRelation, SweepResource, SweepTarget;
      SweepNone(Direct());
      L.AddNone(LookupState(), clock);
      assert relations[..0] == [];
      for i := 0 to |relations|
        invariant Shape()
        invariant Direct() == SweepRelations(old(Direct()), relations[..i])
        invariant LookupState() == L.AddRelations(old(LookupState()), relations[..i], clock)
      {
        SweepNext(old(Direct()), relations, i);
        L.AddNext(old(LookupState()), relations, i, clock);
        RemoveDirectRelationsByResourceAndTarget(relations[i]);
        AddToLookupCache(relations[i], clock(2 * i), clock(2 * i + 1));
      }
      assert relations[..|relations|] == relations;
    }

    /** `clock` gives the clock's readings during the call, by number. */
    method UpdateCacheWithAddedRelations(relations: seq<Relation>, clock: nat -> nat)
      requires Valid()
      modifies Repr()
      ensures Valid() && Value() == AddedRelations(old(Value()), relations, clock)
    {
      AddedRelationsGood(engine, Value(), relations, clock);
      AddRelations(relations, clock);
    }

    method AddRelations(relations: seq<Relation>, clock: nat -> nat)
      requires Shape()
      modifies directRelationCache, indirectRelationCache, this`directResourcesIndex, this`directTargetsIndex,
               LookupRepr()
      ensures Shape() && Value() == AddedRelations(old(Value()), relations, clock)
    {
      hide SweepRelations, L.AddRelations;
      if |relations| == 0 {
        return;
      }
      var _ := indirectRelationCache.Purge();
      SweepAndExtend(relations, clock);
    }

    /** The loop of `UpdateCacheWithDeletedRelations`. */
    method SweepWritten(relations: seq<Relation>)
      requires directRelationCache.Valid()
      modifies directRelationCache, this`directResourcesIndex, this`directTargetsIndex
      ensures directRelationCache.Valid() && Direct() == SweepRelations(old(Direct()), relations)
    {
      hide SweepRelations, SweepResource, SweepTarget;
      SweepNone(Direct());
      assert relations[..0] == [];
      for i := 0 to |relations|
        invariant directRelationCache.Valid() && Direct() == SweepRelations(old(Direct()), relations[..i])
      {
        SweepNext(old(Direct()), relations, i);
        RemoveDirectRelationsByResourceAndTarget(relations[i]);
      }
      assert relations[..|relations|] == relations;
    }

    method UpdateCacheWithDeletedRelations(relations: seq<Relation>)
      requires Valid()
      modifies Repr()
      ensures Valid() && Value() == DeletedRelations(old(Value()), relations)
    {
      DeletedRelationsGood(engine, Value(), relations);
      DeleteRelations(relations);
    }

    method DeleteRelations(relations: seq<Relation>)
      requires Shape()
      modifies directRelationCache, indirectRelationCache, this`directResourcesIndex, this`directTargetsIndex
      ensures Shape() && Value() == DeletedRelations(old(Value()), relations)
    {
      hide SweepRelations;
      if |relations| == 0 {
        return;
      }
      var _ := indirectRelationCache.Purge();
      SweepWritten(relations);
    }

    // ---------------------------------------------------------------- polling

    method PurgeAllCaches(now: nat)
      requires Shape()
      modifies Repr()
      ensures Shape() && Value() == PurgeAll(engine, old(Value()), now)
      ensures Emptied(old(Value()), Value()) && NoSchema(SchemaState()) && lastPollTime == now
    {
      PurgesEmpty(engine, Value(), None, now);
      SetSchema(None);
      PurgeRelationCaches();
      lastPollTime := now;
    }

    method CancelPurgeCooldown()
      modifies this`purgeCooldownTimer, this`pendingTimers
      ensures Value() == CancelCooldown(old(Value()))
    {
      if purgeCooldownTimer.None? {
        return;
      }
      pendingTimers := pendingTimers - {purgeCooldownTimer.value};
      purgeCooldownTimer := None;
    }

    method PurgeAfterCooldown(now: nat)
      requires Shape()
      modifies Repr()
      ensures Shape() && Value() == AfterError(engine, old(Value()), now)
    {
      if purgeCooldownWindow == 0 {
        PurgeAllCaches(now);
        return;
      }
      if purgeCooldownTimer.None? {
        var timer := Timer(nextTimer, now + purgeCooldownWindow);
        purgeCooldownTimer := Some(timer);
        pendingTimers := pendingTimers + {timer};
        nextTimer := nextTimer + 1;
      }
    }

    /** The callback of a cooldown timer. */
    method CooldownElapsed(now: nat)
      requires Valid()
      modifies Repr()
      ensures Valid() && Value() == CacheModel.CooldownElapsed(engine, old(Value()), now)
      ensures old(purgeCooldownTimer).Some? ==> Emptied(old(Value()), Value()) && NoSchema(SchemaState())
    {
      PurgesEmpty(engine, Value(), None, now);
      CooldownElapsedEffect(engine, Value(), now);
      if purgeCooldownTimer.Some? {
        PurgeAllCaches(now);
        purgeCooldownTimer := None;
      }
    }

    /** One poll of the remote. `start` is the clock before the remote call, `end` the clock after it. */
    method UpdateCacheWithRemotePolling(start: nat, end: nat, remote: nat -> Reply)
      requires Valid()
      modifies Repr()
      ensures Valid() && Value() == Poll(engine, old(Value()), start, end, remote)
    {
      PollGood(engine, Value(), start, end, remote);
      PollRemote(start, end, remote);
    }

    method PollRemote(start: nat, end: nat, remote: nat -> Reply)
      requires Shape()
      modifies Repr()
      ensures Shape() && Value() == Poll(engine, old(Value()), start, end, remote)
    {
      hide Replied;
      var direct := directRelationCache.Len();
      var indirect := indirectRelationCache.Len();
      if direct == 0 && indirect == 0 {
        lastPollTime := start;
        SetSchema(None);
      } else {
        HandleReply(remote(lastPollTime), start, end);
      }
    }

    method HandleReply(reply: Reply, start: nat, end: nat)
      requires Shape()
      modifies Repr()
      ensures Shape() && Value() == Replied(engine, old(Value()), reply, start, end)
    {
      match reply
      case TooMany =>
        CancelPurgeCooldown();
        PurgeAllCaches(end);
      case Error =>
        PurgeAfterCooldown(end);
      case Modified(resources, targets, schemaChanged) =>
        lastPollTime := start;
        CancelPurgeCooldown();
        ApplyRemoteChanges(resources, targets, schemaChanged, end);
    }

    method ApplyRemoteChanges(resources: seq<string>, targets: seq<string>, schemaChanged: bool, end: nat)
      requires Shape()
      modifies Repr()
      ensures Shape()
      ensures Value() == Applied(engine, old(Value()), resources, targets, schemaChanged, end)
    {
      hide SweepResources, SweepTargets;
      if schemaChanged {
        PurgeAllCaches(end);
        return;
      }
      if |resources| <= 0 && |targets| <= 0 {
        return;
      }
      var _ := indirectRelationCache.Purge();
      SweepReported(resources, targets);
    }

    method SweepReported(resources: seq<string>, targets: seq<string>)
      requires directRelationCache.Valid()
      modifies directRelationCache, this`directResourcesIndex, this`directTargetsIndex
      ensures directRelationCache.Valid()
      ensures Direct() == SweepTargets(SweepResources(old(Direct()), resources), targets)
    {
      hide SweepResources, SweepTargets, SweepResource, SweepTarget;
      SweepNamesNone(Direct());
      assert resources[..0] == [] && targets[..0] == [];
      for i := 0 to |resources|
        invariant directRelationCache.Valid() && Direct() == SweepResources(old(Direct()), resources[..i])
      {
        SweepNamesNext(old(Direct()), resources, i);
        RemoveDirectRelationsByResource(resources[i]);
      }
      assert resources[..|resources|] == resources;
      ghost var swept := Direct();
      SweepNamesNone(swept);
      for i := 0 to |targets|
        invariant directRelationCache.Valid() && Direct() == SweepTargets(swept, targets[..i])
      {
        SweepNamesNext(swept, targets, i);
        RemoveDirectRelationsByTarget(targets[i]);
      }
      assert targets[..|targets|] == targets;
    }

    // ---------------------------------------------------------------- lookups

    /** The live results under a key. */
    method GetLive(k: Key, now: nat) returns (results: Option<seq<string>>)
      requires Valid()
      modifies LookupRepr()
      ensures Valid() && Value() == old(Value()).(lookups := L.Touch(old(Value()).lookups, k))
      ensures results == L.Served(old(Value()).lookups, k, now)
    {
      hide Complete, Compiled, L.Sane, Without, NoDup;
      L.TouchPurgeSane(Value().lookups, k);
      if !lookupCacheEnabled || lookupCache == null {
        return None;
      }
      var entry := lookupCache.Get(k);
      results := if entry.None? || now > entry.value.expiresAt then None else Some(entry.value.results);
    }

    method GetWhoCanAccessCached(resource: string, relationDefinition: string, namespace: string, now: nat)
      returns (targets: Option<seq<string>>)
      requires Valid()
      modifies LookupRepr()
      ensures var k := WhoCanAccessKey(resource, relationDefinition, namespace);
        && Valid() && Value() == old(Value()).(lookups := L.Touch(old(Value()).lookups, k))
        && targets == L.Served(old(Value()).lookups, k, now)
    {
      targets := GetLive(WhoCanAccessKey(resource, relationDefinition, namespace), now);
    }

    method SetWhoCanAccessCached(resource: string, relationDefinition: string, namespace: string,
                                 targets: seq<string>, now: nat)
      requires Valid()
      modifies LookupRepr()
      ensures Valid()
      ensures var k := WhoCanAccessKey(resource, relationDefinition, namespace);
        Value() == old(Value()).(lookups := L.Put(old(Value()).lookups, k, targets, now))
    {
      L.PutTargetsSane(Value().lookups, resource, relationDefinition, namespace, targets, now);
      if !lookupCacheEnabled || lookupCache == null || |targets| > lookupCacheMaxResult {
        return;
      }
      PutEntry(WhoCanAccessKey(resource, relationDefinition, namespace), targets, now);
    }

    method PutEntry(k: Key, results: seq<string>, now: nat)
      requires lookupCacheEnabled && lookupCache != null && lookupCache.Valid() && |results| <= lookupCacheMaxResult
      modifies LookupRepr()
      ensures lookupCache.Valid() && LookupState() == L.Put(old(LookupState()), k, results, now)
    {
      var _ := lookupCache.Add(k, L.Entry(results, now, now + lookupCacheTTL));
    }

    method GetWhatCanTargetAccessCached(target: string, now: nat) returns (relations: Option<seq<AuthzRelation>>)
      requires Valid()
      modifies LookupRepr()
      ensures Valid()
      ensures Value() == old(Value()).(lookups := L.Touch(old(Value()).lookups, WhatCanTargetAccessKey(target)))
      ensures relations == L.ServedRows(old(Value()).lookups, target, now)
    {
      hide Complete, Compiled, L.Sane, L.Touch, L.Served, L.DecodeRows, WhatCanTargetAccessKey;
      var results := GetLive(WhatCanTargetAccessKey(target), now);
      if results.None? {
        return None;
      }
      var decoded := DecodeAll(results.value, target);
      relations := if |decoded| == 0 then None else Some(decoded);
    }

    method SetWhatCanTargetAccessCached(target: string, relations: seq<AuthzRelation>, now: nat)
      requires Valid()
      modifies LookupRepr()
      ensures Valid()
      ensures Value() == old(Value()).(lookups := L.PutRows(old(Value()).lookups, target, relations, now))
    {
      L.PutRowsSane(Value().lookups, target, relations, now);
      if !lookupCacheEnabled || lookupCache == null || |relations| > lookupCacheMaxResult {
        return;
      }
      var results := EncodeAll(relations);
      PutEntry(WhatCanTargetAccessKey(target), results, now);
    }

    static method EncodeAll(relations: seq<AuthzRelation>) returns (results: seq<string>)
      ensures results == L.EncodeRows(relations)
    {
      results := [];
      for i := 0 to |relations|
        invariant results == L.EncodeRows(relations[..i])
      {
        assert relations[..i + 1][..i] == relations[..i];
        var r := relations[i];
        results := results + [EncodeRow(r.resource, r.relationDefinition, r.namespace)];
      }
      assert relations[..|relations|] == relations;
    }

    static method DecodeAll(rows: seq<string>, target: string) returns (relations: seq<AuthzRelation>)
      ensures relations == L.DecodeRows(rows, target)
    {
      relations := [];
      for i := 0 to |rows|
        invariant relations == L.DecodeRows(rows[..i], target)
      {
        assert rows[..i + 1][..i] == rows[..i];
        var parts := SplitN(rows[i], '|', 3);
        if |parts| == 3 {
          relations := relations + [AuthzRelation(parts[0], parts[1], parts[2], target)];
        }
      }
      assert rows[..|rows|] == rows;
    }

    method InvalidateLookupCache()
      requires Valid()
      modifies LookupRepr()
      ensures Valid() && Value() == old(Value()).(lookups := if lookupCacheEnabled then L.Purge(old(Value()).lookups)
                                                             else old(Value()).lookups)
    {
      L.TouchPurgeSane(Value().lookups, "");
      if lookupCacheEnabled && lookupCache != null {
        var _ := lookupCache.Purge();
      }
    }

    /** Appends a candidate to a live entry that lacks it. */
    method AppendCandidate(k: Key, candidate: string, now: nat)
      requires lookupCacheEnabled && lookupCache != null && lookupCache.Valid()
      modifies LookupRepr()
      ensures lookupCache.Valid() && LookupState() == L.AppendIfLive(old(LookupState()), k, candidate, now)
    {
      hide Without, NoDup;
      var entry := lookupCache.Get(k);
      if entry.Some? && now < entry.value.expiresAt && candidate !in entry.value.results {
        var e := entry.value;
        lookupCache.entries := lookupCache.entries[k := e.(results := e.results + [candidate])];
      }
    }

    method AddToLookupCache(r: Relation, whoAt: nat, whatAt: nat)
      requires Shape()
      modifies LookupRepr()
      ensures Shape() && LookupState() == L.AddRelation(old(LookupState()), r, whoAt, whatAt)
    {
      if !lookupCacheEnabled || lookupCache == null {
        return;
      }
      AppendCandidate(WhoCanAccessKey(r.resource, r.relation, r.resourceType), r.target, whoAt);
      AppendCandidate(WhatCanTargetAccessKey(r.target), EncodeRow(r.resource, r.relation, r.resourceType), whatAt);
    }
  }
}
