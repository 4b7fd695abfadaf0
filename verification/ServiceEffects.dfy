/** What the service's operations do that a later call can see: writes reach the backend and the lookup lists,
    purges forget every list, and what a miss fetched the next call finds. */
module ServiceEffects {
  import opened Types
  import opened Keys
  import opened Lrus
  import opened Cel
  import opened GrantStore
  import opened CacheModel
  import opened Backends
  import opened ServiceModel
  import opened Transparency
  import L = Lookups
  import C = CheckEffects

  // ---------------------------------------------------------------- one operation

  /** Creating relations adds exactly them to the backend, empties the indirect grants and extends the lookup
      lists; a failed write or an empty one does nothing. */
  lemma CreateEffect(b: Backend, s: System, rs: seq<Relation>, clock: nat -> nat, up: Up)
    requires Good(b.engine, s.cache)
    ensures var s' := Step(b, s, CreateOp(rs, clock, up));
      && (rs == [] || !up.write ==> s' == s)
      && (rs != [] && up.write ==>
           && s'.db == s.db.(tuples := s'.db.tuples)
           && (forall t :: t in s'.db.tuples <==> t in s.db.tuples || t in rs)
           && s'.cache.indirect == Lru(s.cache.indirect.capacity, map[], [])
           && s'.cache.conditions == s.cache.conditions && s'.cache.polling == s.cache.polling
           && (s.cache.lookups.Active() ==>
                && s'.cache.lookups.Active()
                && (forall k :: s.cache.lookups.Find(k).None? ==> s'.cache.lookups.Find(k).None?)
                && (forall k, e :: s.cache.lookups.Find(k) == Some(e) ==>
                     s'.cache.lookups.Find(k) == Some(L.Extended(e, L.Additions(k, rs, clock, e.expiresAt))))))
  {
    hide SweepRelations, L.AddRelations, L.Extended, L.Additions;
    if s.cache.lookups.Active() {
      CreatesExtendLookups(s.cache, rs, clock);
    }
  }

  /** Deleting relations removes exactly them from the backend, empties the indirect grants and leaves the lookup
      lists alone; a failed write or an empty one does nothing. */
  lemma DeleteEffect(b: Backend, s: System, rs: seq<Relation>, up: Up)
    requires Good(b.engine, s.cache)
    ensures var s' := Step(b, s, DeleteOp(rs, up));
      && (rs == [] || !up.write ==> s' == s)
      && (rs != [] && up.write ==>
           && s'.db == s.db.(tuples := s'.db.tuples)
           && (forall t :: t in s'.db.tuples <==> t in s.db.tuples && t !in rs)
           && s'.cache == s.cache.(direct := s'.cache.direct, indirect := Lru(s.cache.indirect.capacity, map[], [])))
  {
    hide SweepRelations;
  }

  /** Saving a schema gives it to the backend and leaves the cache empty, under a schema of no version and no
      conditions; a failed write does nothing. */
  lemma SchemaEffect(b: Backend, s: System, dsl: string, schema: Schema, up: Up)
    requires Good(b.engine, s.cache)
    ensures var s' := Step(b, s, SchemaOp(dsl, schema, up));
      && (!up.write ==> s' == s)
      && (up.write ==>
           && s'.db == s.db.(schema := schema) && s'.cache.polling == s.cache.polling
           && Emptied(s.cache, s'.cache)
           && s'.cache.conditions.schema == Some(Schema(dsl := dsl, version := "", conditions := []))
           && s'.cache.conditions.version == "" && s'.cache.conditions.programs == map[])
  {
    UpdateSchemaEffect(b.engine, s.cache, Some(Partial(dsl)));
    hide Good;
  }

  // ---------------------------------------------------------------- purges forget the lists

  /** The operation empties the cache: a saved schema, a poll that finds too many changes, a changed schema or,
      without a cooldown, an error, and the callback of an armed cooldown. */
  ghost predicate Purges(s: System, op: Op) {
    match op
    case SchemaOp(_, _, up) => up.write
    case PollOp(_, _, remote) =>
      var reply := remote(s.cache.polling.lastPollTime);
      !NoRelations(s.cache) && (reply.TooMany? || (reply.Modified? && reply.schemaChanged)
                                || (reply.Error? && s.cache.polling.window == 0))
    case TimerOp(_) => s.cache.polling.timer.Some?
    case _ => false
  }

  lemma PurgesEmptyAll(b: Backend, s: System, op: Op)
    requires Good(b.engine, s.cache) && Purges(s, op)
    ensures Emptied(s.cache, Step(b, s, op).cache)
  {
    hide Emptied, NoSchema, UpdateSchema, Poll, CooldownElapsed, NoRelations;
    match op
    case SchemaOp(dsl, schema, up) => PurgesEmpty(b.engine, s.cache, Some(Partial(dsl)), 0);
    case PollOp(start, end, remote) => PollByReply(b.engine, s.cache, start, end, remote);
    case TimerOp(now) => PurgesEmpty(b.engine, s.cache, None, now);
  }

  /** After a purge every lookup asks the backend, whatever was cached before. */
  lemma PurgesForgetLookups(b: Backend, s: System, op: Op, resource: string, definition: string, namespace: string,
                            target: string, context: Context, now: nat, storedAt: nat, up: Up)
    requires Good(b.engine, s.cache) && Purges(s, op)
    ensures var s' := Step(b, s, op);
      && WhoCanAccess(b, s'.cache, s'.db, resource, definition, namespace, context, now, storedAt, up).1 ==
           (if up.lookup then Some(b.who(s'.db, resource, definition, namespace)) else None)
      && WhatCanTargetAccess(b, s'.cache, s'.db, target, context, now, storedAt, up).1 ==
           (if up.lookup then Some(b.what(s'.db, target)) else None)
  {
    hide Step, WhoCanAccess, WhatCanTargetAccess, Good, L.Served;
    PurgesEmptyAll(b, s, op);
    var s' := Step(b, s, op);
    WhoMissFetches(b, s'.cache, s'.db, resource, definition, namespace, context, now, storedAt, up);
    WhatMissFetches(b, s'.cache, s'.db, target, context, now, storedAt, up);
  }

  // ---------------------------------------------------------------- what a miss fetched

  /** A list fetched by a miss is what the next calls filter, for one TTL. */
  lemma WhoMissThenHit(b: Backend, c: Cache, db: Db, resource: string, definition: string, namespace: string,
                       context: Context, now: nat, storedAt: nat, up: Up,
                       db': Db, context': Context, now': nat, storedAt': nat, up': Up, rs: seq<Relation>)
    requires Good(b.engine, c) && L.NothingLive(c.lookups, WhoCanAccessKey(resource, definition, namespace), now)
    requires c.lookups.Active() && up.lookup && now' <= storedAt + c.lookups.ttl
    requires var targets := b.who(db, resource, definition, namespace);
      0 < |targets| <= c.lookups.maxResult && AsksAboutTargets(rs, resource, definition, namespace, targets)
    ensures var (c', _) := WhoCanAccess(b, c, db, resource, definition, namespace, context, now, storedAt, up);
      var (_, answer) := WhoCanAccess(b, c', db', resource, definition, namespace, context', now', storedAt', up');
      Filtered(b, c', db', b.who(db, resource, definition, namespace), rs, context', up', answer)
  {
    hide WhoCanAccess, Filtered, L.Served, L.NothingLive, AsksAboutTargets, CheckAll, Good;
    WhoMissFetches(b, c, db, resource, definition, namespace, context, now, storedAt, up);
    var c' := WhoCanAccess(b, c, db, resource, definition, namespace, context, now, storedAt, up).0;
    L.NothingLiveNotServed(c'.lookups, WhoCanAccessKey(resource, definition, namespace), now');
    WhoHitIsVerified(b, c', db', resource, definition, namespace, context', now', storedAt', up', rs);
  }

  /** Rows come back as they were fetched if their resources and relation definitions hold no bar. */
  lemma WhatMissThenHit(b: Backend, c: Cache, db: Db, target: string, context: Context,
                        now: nat, storedAt: nat, up: Up,
                        db': Db, context': Context, now': nat, storedAt': nat, up': Up, rs: seq<Relation>)
    requires Good(b.engine, c) && L.NothingLive(c.lookups, WhatCanTargetAccessKey(target), now)
    requires c.lookups.Active() && up.lookup && now' <= storedAt + c.lookups.ttl
    requires var rows := b.what(db, target);
      && 0 < |rows| <= c.lookups.maxResult && AsksAboutRows(rs, rows, target)
      && forall i :: 0 <= i < |rows| ==>
           rows[i].target == target && '|' !in rows[i].resource && '|' !in rows[i].relationDefinition
    ensures var (c', _) := WhatCanTargetAccess(b, c, db, target, context, now, storedAt, up);
      var (_, answer) := WhatCanTargetAccess(b, c', db', target, context', now', storedAt', up');
      Filtered(b, c', db', b.what(db, target), rs, context', up', answer)
  {
    var rows := b.what(db, target);
    L.RowsRoundTrip(rows, target);
    hide WhatCanTargetAccess, Filtered, L.Served, L.NothingLive, AsksAboutRows, CheckAll, Good;
    WhatMissFetches(b, c, db, target, context, now, storedAt, up);
    var c' := WhatCanTargetAccess(b, c, db, target, context, now, storedAt, up).0;
    L.NothingLiveNotServed(c'.lookups, WhatCanTargetAccessKey(target), now');
    assert L.ServedRows(c'.lookups, target, now') == Some(rows);
    WhatHitIsVerified(b, c', db', target, context', now', storedAt', up', rs);
  }

  // ---------------------------------------------------------------- created relations are found

  /** A sublist holds exactly the members at kept positions. */
  lemma {:induction false} SublistMembers<T>(ys: seq<T>, xs: seq<T>, keep: seq<bool>, y: T)
    requires IsSublist(ys, xs, keep)
    ensures y in ys <==> exists i :: 0 <= i < |xs| && keep[i] && xs[i] == y
  {
    if xs != [] {
      var n := |xs| - 1;
      var ys' := if keep[n] then ys[..|ys| - 1] else ys;
      assert forall i :: 0 <= i < n ==> keep[..n][..i] == keep[..i];
      forall i | 0 <= i < n && keep[i]
        ensures Count(keep[..i]) < |ys'| && ys'[Count(keep[..i])] == xs[i]
      {
        CountGrows(keep[..n], i);
        assert keep[..n][..i] == keep[..i];
      }
      assert IsSublist(ys', xs[..n], keep[..n]);
      SublistMembers(ys', xs[..n], keep[..n], y);
      if keep[n] {
        assert ys == ys' + [ys[|ys| - 1]] && ys[|ys| - 1] == xs[n];
      }
    }
  }

  /** A kept position is counted. */
  lemma {:induction false} CountGrows(keep: seq<bool>, i: nat)
    requires i < |keep| && keep[i]
    ensures Count(keep[..i]) < Count(keep)
  {
    var n := |keep| - 1;
    if i < n {
      CountGrows(keep[..n], i);
      assert keep[..n][..i] == keep[..i];
    }
  }

  lemma ExecNext(b: Backend, s: System, ops: seq<Op>, op: Op)
    requires Good(b.engine, s.cache)
    ensures Exec(b, s, ops + [op]) == Step(b, Exec(b, s, ops), op)
  {
    hide Step;
    assert (ops + [op])[..|ops|] == ops;
  }

  /** What is offered to an entry is in it afterwards. */
  lemma ExtendedHolds(e: L.Entry, vs: seq<string>)
    ensures forall v :: v in vs ==> v in L.Extended(e, vs).results
    ensures L.Extended(e, vs).expiresAt == e.expiresAt
  {
  }

  /** After a successful create the live list under each of the created relations' keys offers them. */
  lemma CreatedIsListed(b: Backend, s: System, rs: seq<Relation>, clock: nat -> nat, up: Up, r: Relation,
                        k: Key, e: L.Entry, now: nat)
    requires Good(b.engine, s.cache) && r in rs && up.write
    requires s.cache.lookups.Active() && s.cache.lookups.Find(k) == Some(e)
    requires (forall i: nat :: clock(i) < e.expiresAt) && now <= e.expiresAt
    ensures var l' := Step(b, s, CreateOp(rs, clock, up)).cache.lookups;
      && (k == WhoCanAccessKey(r.resource, r.relation, r.resourceType) ==>
           !L.NothingLive(l', k, now) && L.Served(l', k, now).Some? && r.target in L.Served(l', k, now).value)
      && (k == WhatCanTargetAccessKey(r.target) ==>
           && !L.NothingLive(l', k, now) && L.Served(l', k, now).Some?
           && EncodeRow(r.resource, r.relation, r.resourceType) in L.Served(l', k, now).value)
  {
    hide Step, L.Extended, L.Additions, WhoCanAccessKey, WhatCanTargetAccessKey, EncodeRow;
    CreateEffect(b, s, rs, clock, up);
    var vs := L.Additions(k, rs, clock, e.expiresAt);
    L.AdditionsByClock(k, rs, clock, e.expiresAt);
    ExtendedHolds(e, vs);
    assert Step(b, s, CreateOp(rs, clock, up)).cache.lookups.Find(k) == Some(L.Extended(e, vs));
  }

  /** Creates are seen at once: after a create through this instance, with the list of targets still live,
      WhoCanAccess finds the new target exactly when the backend allows it. */
  lemma CreatedIsFoundByWho(b: Backend, s: System, ops: seq<Op>, play: iset<Triple>, rs: seq<Relation>,
                            clock: nat -> nat, up: Up, r: Relation, e: L.Entry, op: Op)
    requires Initial(b, s) && Good(b.engine, s.cache) && Separates(play)
    requires AllAdmissible(b, s, ops + [CreateOp(rs, clock, up)], play) && r in rs && up.write
    requires var l := Exec(b, s, ops).cache.lookups;
      l.Active() && l.Find(WhoCanAccessKey(r.resource, r.relation, r.resourceType)) == Some(e)
    requires (forall i: nat :: clock(i) < e.expiresAt)
    requires op.WhoOp? && op.resource == r.resource && op.definition == r.relation && op.namespace == r.resourceType
    requires op.now <= e.expiresAt && Admissible(Exec(b, s, ops + [CreateOp(rs, clock, up)]), op, play)
    ensures var now := Exec(b, s, ops + [CreateOp(rs, clock, up)]);
      var (_, answer) := WhoCanAccess(b, now.cache, now.db, r.resource, r.relation, r.resourceType, op.context,
                                      op.now, op.storedAt, op.up);
      && (answer.None? ==> !op.up.check)
      && (answer.Some? ==> (r.target in answer.value <==>
           b.answer(now.db, Triple(r.resource, r.target, r.relation), op.context).allowed))
  {
    hide Initial, Good, Separates, AllAdmissible, Admissible, Step, Exec, WhoCanAccess, IsSublist, L.Served,
         L.NothingLive, WhoCanAccessKey;
    var create := CreateOp(rs, clock, up);
    ExecNext(b, s, ops, create);
    var now, k := Exec(b, s, ops + [create]), WhoCanAccessKey(r.resource, r.relation, r.resourceType);
    CreatedIsListed(b, Exec(b, s, ops), rs, clock, up, r, k, e, op.now);
    WhoHitsAreCurrent(b, s, ops + [create], play, op);
    var targets := L.Served(now.cache.lookups, k, op.now).value;
    var keep := AllowedTargets(b, now.db, r.resource, r.relation, targets, op.context);
    var answer := WhoCanAccess(b, now.cache, now.db, r.resource, r.relation, r.resourceType, op.context,
                               op.now, op.storedAt, op.up).1;
    var i :| 0 <= i < |targets| && targets[i] == r.target;
    if answer.Some? {
      SublistMembers(answer.value, targets, keep, r.target);
    }
  }

  /** A stored row that splits in three is read back. */
  lemma {:induction false} RowIsRead(results: seq<string>, row: string, target: string)
    requires L.RowsReadable(results) && row in results
    ensures DecodeRow(row, target).Some? && DecodeRow(row, target).value in L.DecodeRows(results, target)
  {
    hide SplitN;
    var n := |results| - 1;
    if row == results[n] {
      assert DecodeRow(results[n], "").Some?;
    } else {
      assert results == results[..n] + [results[n]];
      RowIsRead(results[..n], row, target);
    }
  }

  /** And so does WhatCanTargetAccess the new row, if its resource and relation definition hold no bar. */
  lemma CreatedIsFoundByWhat(b: Backend, s: System, ops: seq<Op>, play: iset<Triple>, rs: seq<Relation>,
                             clock: nat -> nat, up: Up, r: Relation, e: L.Entry, op: Op)
    requires Initial(b, s) && Good(b.engine, s.cache) && Separates(play)
    requires AllAdmissible(b, s, ops + [CreateOp(rs, clock, up)], play) && r in rs && up.write
    requires var l := Exec(b, s, ops).cache.lookups; l.Active() && l.Find(WhatCanTargetAccessKey(r.target)) == Some(e)
    requires (forall i: nat :: clock(i) < e.expiresAt) && '|' !in r.resource && '|' !in r.relation
    requires op.WhatOp? && op.target == r.target
    requires op.now <= e.expiresAt && Admissible(Exec(b, s, ops + [CreateOp(rs, clock, up)]), op, play)
    ensures var now := Exec(b, s, ops + [CreateOp(rs, clock, up)]);
      var (_, answer) := WhatCanTargetAccess(b, now.cache, now.db, r.target, op.context, op.now, op.storedAt, op.up);
      && (answer.None? ==> !op.up.check)
      && (answer.Some? ==> (AuthzRelation(r.resource, r.relation, r.resourceType, r.target) in answer.value <==>
           b.answer(now.db, Triple(r.resource, r.target, r.relation), op.context).allowed))
  {
    RowRoundTrip(r.resource, r.relation, r.resourceType, r.target);
    hide Initial, Good, Separates, AllAdmissible, Admissible, Step, Exec, WhatCanTargetAccess, IsSublist, L.NothingLive,
         WhatCanTargetAccessKey, DecodeRow, EncodeRow;
    var create := CreateOp(rs, clock, up);
    ExecNext(b, s, ops, create);
    var now, k := Exec(b, s, ops + [create]), WhatCanTargetAccessKey(r.target);
    CreatedIsListed(b, Exec(b, s, ops), rs, clock, up, r, k, e, op.now);
    SaneRows(b.engine, now.cache, r.target, op.now);
    WhatHitsAreCurrent(b, s, ops + [create], play, op);
    RowIsRead(L.Served(now.cache.lookups, k, op.now).value, EncodeRow(r.resource, r.relation, r.resourceType),
              r.target);
    var rows := L.ServedRows(now.cache.lookups, r.target, op.now).value;
    var row := AuthzRelation(r.resource, r.relation, r.resourceType, r.target);
    var keep := AllowedRows(b, now.db, rows, r.target, op.context);
    var answer := WhatCanTargetAccess(b, now.cache, now.db, r.target, op.context, op.now, op.storedAt, op.up).1;
    var i :| 0 <= i < |rows| && rows[i] == row;
    if answer.Some? {
      SublistMembers(answer.value, rows, keep, row);
    }
  }

  lemma SaneRows(e: Engine, c: Cache, target: string, now: nat)
    requires Good(e, c) && L.Served(c.lookups, WhatCanTargetAccessKey(target), now).Some?
    ensures L.RowsReadable(L.Served(c.lookups, WhatCanTargetAccessKey(target), now).value)
  {
  }

  // ---------------------------------------------------------------- configuration

  lemma PollLeavesConfig(e: Engine, c: Cache, start: nat, end: nat, remote: nat -> Reply)
    ensures L.SameConfig(c.lookups, Poll(e, c, start, end, remote).lookups)
  {
    hide Poll, NoRelations, NoSchema;
    PollByReply(e, c, start, end, remote);
  }

  lemma CheckLeavesConfig(b: Backend, c: Cache, db: Db, rs: seq<Relation>, context: Context, up: Up)
    requires Good(b.engine, c)
    ensures CheckAll(b, c, db, rs, context, up).0.lookups == c.lookups
  {
    hide CheckAll, C.KeepsOld;
    C.CheckLeavesRest(b, c, db, rs, context, up);
  }

  lemma WhoLeavesConfig(b: Backend, c: Cache, db: Db, resource: string, definition: string, namespace: string,
                        context: Context, now: nat, storedAt: nat, up: Up)
    requires Good(b.engine, c)
    ensures L.SameConfig(c.lookups,
                         WhoCanAccess(b, c, db, resource, definition, namespace, context, now, storedAt, up).0.lookups)
  {
    var k := WhoCanAccessKey(resource, definition, namespace);
    L.TouchPurgeSane(c.lookups, k);
    var c1 := c.(lookups := L.Touch(c.lookups, k));
    assert L.SameConfig(c.lookups, c1.lookups);
    hide CheckAll, WhoCanAccess, L.Served, L.Touch, L.OthersStay, Filtered, Good;
    if L.NothingLive(c.lookups, k, now) {
      WhoMissFetches(b, c, db, resource, definition, namespace, context, now, storedAt, up);
    } else {
      L.NothingLiveNotServed(c.lookups, k, now);
      var rs := WhoRelations(resource, definition, namespace, L.Served(c.lookups, k, now).value);
      WhoHitIsVerified(b, c, db, resource, definition, namespace, context, now, storedAt, up, rs);
      CheckLeavesConfig(b, c1, db, rs, context, up);
    }
  }

  lemma WhatLeavesConfig(b: Backend, c: Cache, db: Db, target: string, context: Context,
                         now: nat, storedAt: nat, up: Up)
    requires Good(b.engine, c)
    ensures L.SameConfig(c.lookups, WhatCanTargetAccess(b, c, db, target, context, now, storedAt, up).0.lookups)
  {
    var k := WhatCanTargetAccessKey(target);
    L.TouchPurgeSane(c.lookups, k);
    L.SaneServesAll(c.lookups, target, now);
    var c1 := c.(lookups := L.Touch(c.lookups, k));
    assert L.SameConfig(c.lookups, c1.lookups);
    hide CheckAll, WhatCanTargetAccess, L.Served, L.ServedRows, L.Touch, L.OthersStay, Filtered, Good;
    if L.NothingLive(c.lookups, k, now) {
      WhatMissFetches(b, c, db, target, context, now, storedAt, up);
    } else {
      L.NothingLiveNotServed(c.lookups, k, now);
      var rs := WhatRelations(L.ServedRows(c.lookups, target, now).value, target);
      WhatHitIsVerified(b, c, db, target, context, now, storedAt, up, rs);
      CheckLeavesConfig(b, c1, db, rs, context, up);
    }
  }

  /** No operation changes the lookup cache's configuration or size. */
  lemma StepKeepsLookupConfig(b: Backend, s: System, op: Op)
    requires Good(b.engine, s.cache)
    ensures L.SameConfig(s.cache.lookups, Step(b, s, op).cache.lookups)
  {
    hide Good, CheckAll, L.AddRelations, SweepRelations, WhoCanAccess, WhatCanTargetAccess, Poll, CooldownElapsed,
         UpdateSchema, NoSchema;
    var e, c := b.engine, s.cache;
    match op
    case CheckOp(rs, context, up) => CheckLeavesConfig(b, c, s.db, rs, context, up);
    case CreateOp(rs, clock, up) => L.AddRelationsKeepConfig(c.lookups, rs, clock);
    case DeleteOp(rs, up) =>
    case SchemaOp(dsl, schema, up) => PurgesEmpty(e, c, Some(Partial(dsl)), 0);
    case WhoOp(r, d, n, context, now, storedAt, up) => WhoLeavesConfig(b, c, s.db, r, d, n, context, now, storedAt, up);
    case WhatOp(t, context, now, storedAt, up) => WhatLeavesConfig(b, c, s.db, t, context, now, storedAt, up);
    case FactsOp(facts) =>
    case PollOp(start, end, remote) => PollLeavesConfig(e, c, start, end, remote);
    case TimerOp(now) =>
      PurgesEmpty(e, c, None, now);
      CooldownElapsedEffect(e, c, now);
  }

  /** In every run the lookup cache is the configured one: enabled or not, with its TTL, result limit and size. */
  lemma {:induction false} ExecKeepsLookupConfig(b: Backend, config: Config, db: Db, now: nat, ops: seq<Op>)
    requires config.Valid() && Good(b.engine, NewCache(config, now))
    ensures var l := Exec(b, System(NewCache(config, now), db), ops).cache.lookups;
      && l.enabled == config.lookupEnabled && l.ttl == config.ttl && l.maxResult == config.maxResult
      && (l.Active() <==> config.lookupEnabled) && (l.Active() ==> l.cache.value.capacity == config.lookupSize)
  {
    hide Step, Good;
    if ops != [] {
      var s := System(NewCache(config, now), db);
      ExecKeepsLookupConfig(b, config, db, now, ops[..|ops| - 1]);
      StepKeepsLookupConfig(b, Exec(b, s, ops[..|ops| - 1]), ops[|ops| - 1]);
    }
  }
}
