/** The cached service against the plain one: in any sequence of operations in which every tuple and schema
    write goes through this instance, Check allows what the backend allows. */
module Transparency {
  import opened Types
  import opened Keys
  import opened Cel
  import opened GrantStore
  import opened CacheModel
  import opened Backends
  import opened ServiceModel
  import L = Lookups
  import F = FormulaBackends

  datatype System = System(cache: Cache, db: Db)

  /** Everything that can happen: requests, changes of the facts the edge never hears of, ticks of the poller
      with any remote reply, and timer callbacks, late or not. */
  datatype Op =
    | CheckOp(rs: seq<Relation>, context: Context, up: Up)
    | CreateOp(rs: seq<Relation>, clock: nat -> nat, up: Up)
    | DeleteOp(rs: seq<Relation>, up: Up)
    | SchemaOp(dsl: string, schema: Schema, up: Up)
    | WhoOp(resource: string, definition: string, namespace: string, context: Context, now: nat, storedAt: nat,
            up: Up)
    | WhatOp(target: string, context: Context, now: nat, storedAt: nat, up: Up)
    | FactsOp(facts: int)
    | PollOp(start: nat, end: nat, remote: nat -> Reply)
    | TimerOp(now: nat)

  function Create(db: Db, rs: seq<Relation>): Db {
    db.(tuples := db.tuples + set r | r in rs)
  }

  function Delete(db: Db, rs: seq<Relation>): Db {
    db.(tuples := db.tuples - set r | r in rs)
  }

  /** What CreateFGASchema stores: the source text, with no version and no conditions. */
  function Partial(dsl: string): Schema {
    Schema(dsl, "", [])
  }

  function Step(b: Backend, s: System, op: Op): (s': System)
    requires Good(b.engine, s.cache)
    ensures Good(b.engine, s'.cache)
  {
    var e := b.engine;
    match op
    case CheckOp(rs, context, up) => s.(cache := CheckAll(b, s.cache, s.db, rs, context, up).0)
    case CreateOp(rs, clock, up) =>
      AddedRelationsGood(e, s.cache, rs, clock);
      if rs == [] || !up.write then s else System(AddedRelations(s.cache, rs, clock), Create(s.db, rs))
    case DeleteOp(rs, up) =>
      DeletedRelationsGood(e, s.cache, rs);
      if rs == [] || !up.write then s else System(DeletedRelations(s.cache, rs), Delete(s.db, rs))
    case SchemaOp(dsl, schema, up) =>
      UpdateSchemaEffect(e, s.cache, Some(Partial(dsl)));
      if !up.write then s else System(UpdateSchema(e, s.cache, Some(Partial(dsl))), s.db.(schema := schema))
    case WhoOp(r, d, n, context, now, storedAt, up) =>
      s.(cache := WhoCanAccess(b, s.cache, s.db, r, d, n, context, now, storedAt, up).0)
    case WhatOp(t, context, now, storedAt, up) =>
      s.(cache := WhatCanTargetAccess(b, s.cache, s.db, t, context, now, storedAt, up).0)
    case FactsOp(facts) => s.(db := s.db.(facts := facts))
    case PollOp(start, end, remote) =>
      PollGood(e, s.cache, start, end, remote);
      s.(cache := Poll(e, s.cache, start, end, remote))
    case TimerOp(now) =>
      CooldownElapsedEffect(e, s.cache, now);
      s.(cache := CooldownElapsed(e, s.cache, now))
  }

  /** The relations an operation asks about. */
  function Asked(s: System, op: Op): seq<Relation> {
    match op
    case CheckOp(rs, _, _) => rs
    case WhoOp(r, d, n, _, now, _, _) =>
      var cached := L.Served(s.cache.lookups, WhoCanAccessKey(r, d, n), now);
      if cached.Some? then WhoRelations(r, d, n, cached.value) else []
    case WhatOp(t, _, now, _, _) =>
      var cached := L.ServedRows(s.cache.lookups, t, now);
      if cached.Some? then WhatRelations(cached.value, t) else []
    case _ => []
  }

  /** Operations ask about relations in play, and a new schema carries conditions only under a version. */
  ghost predicate Admissible(s: System, op: Op, play: iset<Triple>) {
    && (forall i :: 0 <= i < |Asked(s, op)| ==> TripleOf(Asked(s, op)[i]) in play)
    && (op.SchemaOp? ==> Versioned(Some(op.schema)))
  }

  function Exec(b: Backend, s: System, ops: seq<Op>): (s': System)
    requires Good(b.engine, s.cache)
    ensures Good(b.engine, s'.cache)
  {
    if ops == [] then s else Step(b, Exec(b, s, ops[..|ops| - 1]), ops[|ops| - 1])
  }

  ghost predicate AllAdmissible(b: Backend, s: System, ops: seq<Op>, play: iset<Triple>)
    requires Good(b.engine, s.cache)
  {
    forall i :: 0 <= i < |ops| ==> Admissible(Exec(b, s, ops[..i]), ops[i], play)
  }

  ghost predicate Initial(b: Backend, s: System) {
    && Contract(b)
    && Versioned(Some(s.db.schema))
    && exists config: Config, now: nat :: config.Valid() && s.cache == NewCache(config, now)
  }

  // ---------------------------------------------------------------- the invariant

  ghost predicate AllStand(b: Backend, c: Cache, db: Db, play: iset<Triple>) {
    && (forall q :: q in play && KeyOf(q) in c.direct.cache.entries ==>
         Stands(b, db, q, c.direct.cache.entries[KeyOf(q)], true))
    && (forall q :: q in play && KeyOf(q) in c.indirect.entries ==>
         Stands(b, db, q, c.indirect.entries[KeyOf(q)], false))
  }

  /** Every cached grant is certified and stands in the backend's database. */
  ghost predicate Current(b: Backend, c: Cache, db: Db, play: iset<Triple>) {
    && Good(b.engine, c)
    && Honest(c.direct, play)
    && AllCertified(c)
    && Versioned(c.conditions.schema) && Versioned(Some(db.schema))
    && (c.conditions.version != "" ==> c.conditions.schema == Some(db.schema))
    && AllStand(b, c, db, play)
  }

  /** A current cache answers as the backend does. */
  lemma CurrentAnswers(b: Backend, c: Cache, db: Db, play: iset<Triple>, r: Relation, context: Context)
    requires Current(b, c, db, play) && TripleOf(r) in play
    ensures AnswerAt(b, c, db, r, context).allowed == b.answer(db, TripleOf(r), context).allowed
  {
    var q := TripleOf(r);
    var found := FindGrant(c, KeyOf(q));
    if found.Some? && Serve(b.engine, c, r, context).Some? {
      var (g, direct) := found.value;
      assert Stands(b, db, q, g, direct);
      StandsNow(b, db, q, g, direct, context);
    }
  }

  /** Dropping grants, reordering them and changing lookups and polling state keep a cache current. */
  lemma ShrinkKeepsCurrent(b: Backend, c: Cache, c': Cache, db: Db, play: iset<Triple>)
    requires Current(b, c, db, play) && Shrinks(c, c')
    requires Good(b.engine, c') && Honest(c'.direct, play)
    requires c'.conditions == c.conditions
             || (c'.direct.cache.entries == map[] && c'.indirect.entries == map[] && c'.conditions.version == ""
                 && Versioned(c'.conditions.schema))
    ensures Current(b, c', db, play)
  {
  }

  /** The backend may change as long as no cached grant can tell. */
  lemma SimilarKeepsCurrent(b: Backend, c: Cache, db: Db, db': Db, play: iset<Triple>)
    requires Current(b, c, db, play) && db'.schema == db.schema
    requires forall q :: q in play && KeyOf(q) in c.direct.cache.entries ==> Similar(db, db', q, true)
    requires c.indirect.entries == map[] || db'.tuples == db.tuples
    ensures Current(b, c, db', play)
  {
    forall q | q in play && KeyOf(q) in c.direct.cache.entries
      ensures Stands(b, db', q, c.direct.cache.entries[KeyOf(q)], true)
    {
      StandsOn(b, db, db', q, c.direct.cache.entries[KeyOf(q)], true);
    }
    forall q | q in play && KeyOf(q) in c.indirect.entries
      ensures Stands(b, db', q, c.indirect.entries[KeyOf(q)], false)
    {
      StandsOn(b, db, db', q, c.indirect.entries[KeyOf(q)], false);
    }
  }

  // ---------------------------------------------------------------- every operation keeps it

  lemma InsertKeepsStanding(b: Backend, c: Cache, db: Db, play: iset<Triple>, check: Check, context: Context)
    requires Contract(b) && Separates(play) && Good(b.engine, c) && AllStand(b, c, db, play)
    requires TripleOf(check.relation) in play
    requires Verdict(check.allowed, check.info) == b.answer(db, TripleOf(check.relation), context)
    ensures AllStand(b, Insert(c, check), db, play)
  {
    InsertEffect(b.engine, c, check);
    hide Insert, Cacheable, Contract, Good, Stands;
    var q := TripleOf(check.relation);
    var c' := Insert(c, check);
    if Cacheable(c.conditions, check).Some? {
      KeptGrantStands(b, c.conditions, db, q, context, check);
      forall p | p in play && KeyOf(p) in c'.direct.cache.entries
        ensures Stands(b, db, p, c'.direct.cache.entries[KeyOf(p)], true)
      {
        assert KeyOf(p) == KeyOf(q) ==> p == q;
      }
      forall p | p in play && KeyOf(p) in c'.indirect.entries
        ensures Stands(b, db, p, c'.indirect.entries[KeyOf(p)], false)
      {
        assert KeyOf(p) == KeyOf(q) ==> p == q;
      }
    }
  }

  lemma InsertKeepsCurrent(b: Backend, c: Cache, db: Db, play: iset<Triple>, check: Check, context: Context)
    requires Contract(b) && Separates(play) && Current(b, c, db, play)
    requires TripleOf(check.relation) in play
    requires Verdict(check.allowed, check.info) == b.answer(db, TripleOf(check.relation), context)
    ensures Current(b, Insert(c, check), db, play)
  {
    hide Insert, Cacheable, Contract, Separates, Honest, Certified, Complete, L.Sane, AllStand;
    CurrentIsGood(b, c, db, play);
    InsertKeepsStanding(b, c, db, play, check, context);
    InsertEffect(b.engine, c, check);
    InsertHonest(b.engine, c, check, play);
    if Cacheable(c.conditions, check).Some? {
      CacheableCertified(b.engine, c, check);
    }
  }

  lemma {:induction false} InsertAllKeepsCurrent(b: Backend, c: Cache, db: Db, play: iset<Triple>,
                                                 rs: seq<Relation>, context: Context, n: nat)
    requires Contract(b) && Separates(play) && Current(b, c, db, play)
    requires n <= |rs| && forall i :: 0 <= i < |rs| ==> TripleOf(rs[i]) in play
    ensures Current(b, InsertAll(c, SdkChecks(b, db, rs, context)[..n]), db, play)
  {
    hide Current, Insert, Contract, Separates;
    var sdk := SdkChecks(b, db, rs, context);
    if n > 0 {
      InsertAllKeepsCurrent(b, c, db, play, rs, context, n - 1);
      assert sdk[..n][..n - 1] == sdk[..n - 1];
      assert sdk[n - 1].relation == rs[n - 1];
      CurrentIsGood(b, c, db, play);
      CurrentIsGood(b, InsertAll(c, sdk[..n - 1]), db, play);
      InsertKeepsCurrent(b, InsertAll(c, sdk[..n - 1]), db, play, sdk[n - 1], context);
    }
  }

  lemma CurrentIsGood(b: Backend, c: Cache, db: Db, play: iset<Triple>)
    requires Current(b, c, db, play)
    ensures Good(b.engine, c) && c.direct.cache.Valid() && c.indirect.Valid()
  {
  }

  lemma LoadKeepsCurrent(b: Backend, c: Cache, db: Db, play: iset<Triple>, up: Up)
    requires Current(b, c, db, play)
    ensures Current(b, LoadSchema(b.engine, c, db.schema, up), db, play)
  {
    EnsureSchemaEffect(b.engine, c, Some(db.schema));
    EnsureSchemaCertified(b.engine, c, Some(db.schema));
  }

  lemma LearnKeepsCurrent(b: Backend, c: Cache, db: Db, play: iset<Triple>, rs: seq<Relation>, context: Context, up: Up)
    requires Contract(b) && Separates(play) && Current(b, c, db, play)
    requires forall i :: 0 <= i < |rs| ==> TripleOf(rs[i]) in play
    ensures Current(b, Learn(b.engine, c, db.schema, SdkChecks(b, db, rs, context), up), db, play)
  {
    hide Current, Contract, Separates, InsertAll, LoadSchema;
    var sdk := SdkChecks(b, db, rs, context);
    CurrentIsGood(b, c, db, play);
    LoadKeepsCurrent(b, c, db, play, up);
    assert sdk[..|rs|] == sdk;
    InsertAllKeepsCurrent(b, c, db, play, rs, context, |rs|);
    InsertAllKeepsCurrent(b, LoadSchema(b.engine, c, db.schema, up), db, play, rs, context, |rs|);
  }

  lemma TouchKeepsCurrent(b: Backend, c: Cache, db: Db, play: iset<Triple>, rs: seq<Relation>)
    requires Current(b, c, db, play)
    ensures Current(b, TouchAll(c, rs), db, play)
  {
    hide TouchAll;
    TouchAllEffect(b.engine, c, rs);
    HonestIgnoresRecency(c.direct, TouchAll(c, rs).direct, play);
    ShrinkKeepsCurrent(b, c, TouchAll(c, rs), db, play);
  }

  lemma {:induction false} UncheckedInPlay(e: Engine, c: Cache, rs: seq<Relation>, context: Context, play: iset<Triple>)
    requires forall i :: 0 <= i < |rs| ==> TripleOf(rs[i]) in play
    ensures forall i :: 0 <= i < |Unchecked(e, c, rs, context)| ==> TripleOf(Unchecked(e, c, rs, context)[i]) in play
  {
    hide Serve;
    if rs != [] {
      UncheckedInPlay(e, c, rs[..|rs| - 1], context, play);
    }
  }

  lemma CheckKeepsCurrent(b: Backend, c: Cache, db: Db, play: iset<Triple>, rs: seq<Relation>, context: Context, up: Up)
    requires Contract(b) && Separates(play) && Current(b, c, db, play)
    requires forall i :: 0 <= i < |rs| ==> TripleOf(rs[i]) in play
    ensures Current(b, CheckAll(b, c, db, rs, context, up).0, db, play)
  {
    hide Current, Contract, Separates, Unchecked, Learn, TouchAll;
    CurrentIsGood(b, c, db, play);
    TouchKeepsCurrent(b, c, db, play, rs);
    UncheckedInPlay(b.engine, c, rs, context, play);
    LearnKeepsCurrent(b, TouchAll(c, rs), db, play, Unchecked(b.engine, c, rs, context), context, up);
  }

  lemma WriteKeepsCurrent(b: Backend, c: Cache, db: Db, db': Db, play: iset<Triple>, rs: seq<Relation>,
                          clock: nat -> nat)
    requires Separates(play) && Current(b, c, db, play) && rs != []
    requires db' == Create(db, rs) || db' == Delete(db, rs)
    ensures Current(b, AddedRelations(c, rs, clock), db', play) && Current(b, DeletedRelations(c, rs), db', play)
  {
    hide SweepRelations, L.AddRelations, Stands, Certified, Complete, Honest, Resources, Targets, KeyOf, L.Sane,
         Compiled;
    var added, deleted := AddedRelations(c, rs, clock), DeletedRelations(c, rs);
    AddedRelationsGood(b.engine, c, rs, clock);
    DeletedRelationsGood(b.engine, c, rs);
    WritesSweep(b.engine, c, rs, clock, play);
    ShrinkKeepsCurrent(b, c, added, db, play);
    ShrinkKeepsCurrent(b, c, deleted, db, play);
    forall q | q in play && KeyOf(q) in added.direct.cache.entries
      ensures Similar(db, db', q, true)
    {
      WrittenElsewhere(db, db', rs, q);
    }
    SimilarKeepsCurrent(b, added, db, db', play);
    SimilarKeepsCurrent(b, deleted, db, db', play);
  }

  lemma WrittenElsewhere(db: Db, db': Db, rs: seq<Relation>, q: Triple)
    requires db' == Create(db, rs) || db' == Delete(db, rs)
    requires !SharesResourceOrTarget(q, rs)
    ensures Similar(db, db', q, true)
  {
    forall r | r in rs
      ensures r.resource != q.resource && r.target != q.target
    {
      var i :| 0 <= i < |rs| && rs[i] == r;
    }
    assert Around(db.tuples, q) == Around(db'.tuples, q);
  }

  lemma PollKeepsCurrent(b: Backend, c: Cache, db: Db, play: iset<Triple>, start: nat, end: nat, remote: nat -> Reply)
    requires Separates(play) && Current(b, c, db, play)
    ensures Current(b, Poll(b.engine, c, start, end, remote), db, play)
  {
    hide Poll, Stands;
    PollGood(b.engine, c, start, end, remote);
    PollShrinks(b.engine, c, start, end, remote);
    PollHonest(b.engine, c, start, end, remote, play);
    ShrinkKeepsCurrent(b, c, Poll(b.engine, c, start, end, remote), db, play);
  }

  lemma TimerKeepsCurrent(b: Backend, c: Cache, db: Db, play: iset<Triple>, now: nat)
    requires Current(b, c, db, play)
    ensures Current(b, CooldownElapsed(b.engine, c, now), db, play)
  {
    hide CooldownElapsed, Stands;
    CooldownElapsedEffect(b.engine, c, now);
    ShrinkKeepsCurrent(b, c, CooldownElapsed(b.engine, c, now), db, play);
  }

  lemma LookupsKeepCurrent(b: Backend, c: Cache, c': Cache, db: Db, play: iset<Triple>)
    requires Current(b, c, db, play) && Good(b.engine, c') && c' == c.(lookups := c'.lookups)
    ensures Current(b, c', db, play)
  {
  }

  lemma WhoKeepsCurrent(b: Backend, s: System, op: Op, play: iset<Triple>)
    requires Contract(b) && Separates(play) && Current(b, s.cache, s.db, play) && Admissible(s, op, play) && op.WhoOp?
    ensures Current(b, Step(b, s, op).cache, s.db, play)
  {
    hide Current, Contract, Separates, CheckAll, L.Put, L.Touch, L.Served;
    var k := WhoCanAccessKey(op.resource, op.definition, op.namespace);
    var cached := L.Served(s.cache.lookups, k, op.now);
    CurrentIsGood(b, s.cache, s.db, play);
    L.TouchPurgeSane(s.cache.lookups, k);
    var c1 := s.cache.(lookups := L.Touch(s.cache.lookups, k));
    LookupsKeepCurrent(b, s.cache, c1, s.db, play);
    if cached.Some? && cached.value != [] {
      CheckKeepsCurrent(b, c1, s.db, play, Asked(s, op), op.context, op.up);
    } else if op.up.lookup {
      LookupsKeepCurrent(b, c1, Step(b, s, op).cache, s.db, play);
    }
  }

  lemma WhatKeepsCurrent(b: Backend, s: System, op: Op, play: iset<Triple>)
    requires Contract(b) && Separates(play) && Current(b, s.cache, s.db, play) && Admissible(s, op, play) && op.WhatOp?
    ensures Current(b, Step(b, s, op).cache, s.db, play)
  {
    hide Current, Contract, Separates, CheckAll, L.PutRows, L.Touch, L.ServedRows;
    var k := WhatCanTargetAccessKey(op.target);
    var cached := L.ServedRows(s.cache.lookups, op.target, op.now);
    CurrentIsGood(b, s.cache, s.db, play);
    L.TouchPurgeSane(s.cache.lookups, k);
    var c1 := s.cache.(lookups := L.Touch(s.cache.lookups, k));
    LookupsKeepCurrent(b, s.cache, c1, s.db, play);
    if cached.Some? && cached.value != [] {
      CheckKeepsCurrent(b, c1, s.db, play, Asked(s, op), op.context, op.up);
    } else if op.up.lookup {
      LookupsKeepCurrent(b, c1, Step(b, s, op).cache, s.db, play);
    }
  }

  lemma SchemaKeepsCurrent(b: Backend, c: Cache, db: Db, dsl: string, schema: Schema, play: iset<Triple>)
    requires Current(b, c, db, play) && Versioned(Some(schema))
    ensures Current(b, UpdateSchema(b.engine, c, Some(Partial(dsl))), db.(schema := schema), play)
  {
    UpdateSchemaEffect(b.engine, c, Some(Partial(dsl)));
  }

  lemma FactsKeepCurrent(b: Backend, c: Cache, db: Db, facts: int, play: iset<Triple>)
    requires Current(b, c, db, play)
    ensures Current(b, c, db.(facts := facts), play)
  {
    SimilarKeepsCurrent(b, c, db, db.(facts := facts), play);
  }

  lemma StepKeepsCurrent(b: Backend, s: System, op: Op, play: iset<Triple>)
    requires Contract(b) && Separates(play) && Current(b, s.cache, s.db, play) && Admissible(s, op, play)
    ensures Current(b, Step(b, s, op).cache, Step(b, s, op).db, play)
  {
    hide Current, Contract, Separates, CheckAll, AddedRelations, DeletedRelations, UpdateSchema, WhoCanAccess,
         WhatCanTargetAccess, Poll, CooldownElapsed, Create, Delete;
    CurrentIsGood(b, s.cache, s.db, play);
    match op
    case CheckOp(rs, context, up) =>
      assert Asked(s, op) == rs;
      CheckKeepsCurrent(b, s.cache, s.db, play, rs, context, up);
    case CreateOp(rs, clock, up) =>
      if rs != [] { WriteKeepsCurrent(b, s.cache, s.db, Create(s.db, rs), play, rs, clock); }
    case DeleteOp(rs, up) =>
      if rs != [] { WriteKeepsCurrent(b, s.cache, s.db, Delete(s.db, rs), play, rs, k => k); }
    case SchemaOp(dsl, schema, up) => SchemaKeepsCurrent(b, s.cache, s.db, dsl, schema, play);
    case WhoOp(_, _, _, _, _, _, _) => WhoKeepsCurrent(b, s, op, play);
    case WhatOp(_, _, _, _, _) => WhatKeepsCurrent(b, s, op, play);
    case FactsOp(facts) => FactsKeepCurrent(b, s.cache, s.db, facts, play);
    case PollOp(start, end, remote) => PollKeepsCurrent(b, s.cache, s.db, play, start, end, remote);
    case TimerOp(now) => TimerKeepsCurrent(b, s.cache, s.db, play, now);
  }

  lemma InitialCurrent(b: Backend, s: System, play: iset<Triple>)
    requires Initial(b, s)
    ensures Current(b, s.cache, s.db, play)
  {
    var config: Config, now: nat :| config.Valid() && s.cache == NewCache(config, now);
    NewCacheGood(b.engine, config, now);
  }

  lemma AdmissiblePrefix(b: Backend, s: System, ops: seq<Op>, play: iset<Triple>)
    requires Good(b.engine, s.cache) && AllAdmissible(b, s, ops, play) && ops != []
    ensures AllAdmissible(b, s, ops[..|ops| - 1], play)
    ensures Admissible(Exec(b, s, ops[..|ops| - 1]), ops[|ops| - 1], play)
  {
    hide Exec, Admissible, Good;
    var front := ops[..|ops| - 1];
    forall i | 0 <= i < |front|
      ensures Admissible(Exec(b, s, front[..i]), front[i], play)
    {
      assert front[..i] == ops[..i];
    }
  }

  lemma {:induction false} ExecKeepsCurrent(b: Backend, s: System, ops: seq<Op>, play: iset<Triple>)
    requires Initial(b, s) && Good(b.engine, s.cache) && Separates(play) && AllAdmissible(b, s, ops, play)
    ensures Current(b, Exec(b, s, ops).cache, Exec(b, s, ops).db, play)
  {
    hide Current, Contract, Separates, Step, Admissible, AllAdmissible, Good;
    if ops == [] {
      InitialCurrent(b, s, play);
    } else {
      var n := |ops| - 1;
      AdmissiblePrefix(b, s, ops, play);
      ExecKeepsCurrent(b, s, ops[..n], play);
      StepKeepsCurrent(b, Exec(b, s, ops[..n]), ops[n], play);
    }
  }

  // ---------------------------------------------------------------- refinement of the plain service

  /** What a service without a cache would allow. */
  function Plain(b: Backend, db: Db, rs: seq<Relation>, context: Context): (r: seq<bool>)
    ensures |r| == |rs|
  {
    seq(|rs|, i requires 0 <= i < |rs| =>
      b.answer(db, Triple(rs[i].resource, rs[i].target, rs[i].relation), context).allowed)
  }

  /** The cache is observably transparent: after any admissible operations, Check answers every relation in
      order, allowing exactly what the backend allows at that moment; it fails only when the backend does not
      answer. */
  lemma CacheIsTransparent(b: Backend, s: System, ops: seq<Op>, play: iset<Triple>,
                           rs: seq<Relation>, context: Context, up: Up)
    requires Initial(b, s) && Good(b.engine, s.cache) && Separates(play) && AllAdmissible(b, s, ops, play)
    requires forall i :: 0 <= i < |rs| ==> TripleOf(rs[i]) in play
    ensures var now := Exec(b, s, ops);
      var (_, answers) := CheckAll(b, now.cache, now.db, rs, context, up);
      && (answers.None? ==> !up.check)
      && (answers.Some? ==> |answers.value| == |rs| && forall i :: 0 <= i < |rs| ==>
           answers.value[i].relation == rs[i] && answers.value[i].allowed == Plain(b, now.db, rs, context)[i])
  {
    hide CheckAll, Current, Exec, AnswerAt;
    ExecKeepsCurrent(b, s, ops, play);
    var now := Exec(b, s, ops);
    CheckAnswers(b, now.cache, now.db, rs, context, up);
    forall i | 0 <= i < |rs| {
      CurrentAnswers(b, now.cache, now.db, play, rs[i], context);
    }
  }

  /** Which targets the backend allows the relation to the resource, and which rows it allows the target. */
  ghost function AllowedTargets(b: Backend, db: Db, resource: string, definition: string, targets: seq<string>,
                                context: Context): (keep: seq<bool>)
    ensures |keep| == |targets|
  {
    seq(|targets|, i requires 0 <= i < |targets| =>
      b.answer(db, Triple(resource := resource, target := targets[i], relation := definition), context).allowed)
  }

  ghost function AllowedRows(b: Backend, db: Db, rows: seq<AuthzRelation>, target: string, context: Context)
    : (keep: seq<bool>)
    ensures |keep| == |rows|
  {
    seq(|rows|, i requires 0 <= i < |rows| =>
      b.answer(db, Triple(resource := rows[i].resource, target := target, relation := rows[i].relationDefinition),
               context).allowed)
  }

  lemma AllowedIsCurrent(b: Backend, c: Cache, db: Db, play: iset<Triple>, rs: seq<Relation>, context: Context)
    requires Current(b, c, db, play) && forall i :: 0 <= i < |rs| ==> TripleOf(rs[i]) in play
    ensures forall i :: 0 <= i < |rs| ==>
      AllowedNow(b, c, db, rs, context)[i] == b.answer(db, TripleOf(rs[i]), context).allowed
  {
    hide Current, AnswerAt;
    forall i | 0 <= i < |rs| {
      CurrentAnswers(b, c, db, play, rs[i], context);
    }
  }

  /** In such runs a lookup hit returns exactly the cached candidates the backend allows at that moment. */
  lemma WhoHitsAreCurrent(b: Backend, s: System, ops: seq<Op>, play: iset<Triple>, op: Op)
    requires Initial(b, s) && Good(b.engine, s.cache) && Separates(play) && AllAdmissible(b, s, ops, play)
    requires op.WhoOp? && Admissible(Exec(b, s, ops), op, play)
    requires var k := WhoCanAccessKey(op.resource, op.definition, op.namespace);
      !L.NothingLive(Exec(b, s, ops).cache.lookups, k, op.now)
    ensures var now := Exec(b, s, ops);
      var k := WhoCanAccessKey(op.resource, op.definition, op.namespace);
      var targets := L.Served(now.cache.lookups, k, op.now);
      var (_, answer) := WhoCanAccess(b, now.cache, now.db, op.resource, op.definition, op.namespace, op.context,
                                      op.now, op.storedAt, op.up);
      && targets.Some? && (answer.None? ==> !op.up.check)
      && (answer.Some? ==> IsSublist(answer.value, targets.value,
           AllowedTargets(b, now.db, op.resource, op.definition, targets.value, op.context)))
  {
    hide Current, Exec, AllowedNow, WhoCanAccess, IsSublist, L.Served, CheckAll, Initial, AllAdmissible, Separates;
    ExecKeepsCurrent(b, s, ops, play);
    var now := Exec(b, s, ops);
    var k := WhoCanAccessKey(op.resource, op.definition, op.namespace);
    L.NothingLiveNotServed(now.cache.lookups, k, op.now);
    var targets, rs := L.Served(now.cache.lookups, k, op.now).value, Asked(now, op);
    WhoHitIsVerified(b, now.cache, now.db, op.resource, op.definition, op.namespace, op.context,
                     op.now, op.storedAt, op.up, rs);
    AllowedIsCurrent(b, now.cache, now.db, play, rs, op.context);
    assert AllowedNow(b, now.cache, now.db, rs, op.context) ==
           AllowedTargets(b, now.db, op.resource, op.definition, targets, op.context);
  }

  lemma WhatHitsAreCurrent(b: Backend, s: System, ops: seq<Op>, play: iset<Triple>, op: Op)
    requires Initial(b, s) && Good(b.engine, s.cache) && Separates(play) && AllAdmissible(b, s, ops, play)
    requires op.WhatOp? && Admissible(Exec(b, s, ops), op, play)
    requires !L.NothingLive(Exec(b, s, ops).cache.lookups, WhatCanTargetAccessKey(op.target), op.now)
    ensures var now := Exec(b, s, ops);
      var rows := L.ServedRows(now.cache.lookups, op.target, op.now);
      var (_, answer) := WhatCanTargetAccess(b, now.cache, now.db, op.target, op.context, op.now, op.storedAt, op.up);
      && rows.Some? && (answer.None? ==> !op.up.check)
      && (answer.Some? ==> IsSublist(answer.value, rows.value,
           AllowedRows(b, now.db, rows.value, op.target, op.context)))
  {
    hide Current, Exec, AllowedNow, WhatCanTargetAccess, IsSublist, L.Served, L.ServedRows, CheckAll, Initial,
         AllAdmissible, Separates;
    ExecKeepsCurrent(b, s, ops, play);
    var now := Exec(b, s, ops);
    CurrentIsGood(b, now.cache, now.db, play);
    L.NothingLiveNotServed(now.cache.lookups, WhatCanTargetAccessKey(op.target), op.now);
    L.SaneServesAll(now.cache.lookups, op.target, op.now);
    var rows, rs := L.ServedRows(now.cache.lookups, op.target, op.now).value, Asked(now, op);
    WhatHitIsVerified(b, now.cache, now.db, op.target, op.context, op.now, op.storedAt, op.up, rs);
    AllowedIsCurrent(b, now.cache, now.db, play, rs, op.context);
    assert AllowedNow(b, now.cache, now.db, rs, op.context) ==
           AllowedRows(b, now.db, rows, op.target, op.context);
  }

  // ---------------------------------------------------------------- without key separation

  const NO_CONTEXT: Context := map[]
  const ALL_UP: Up := Up(true, true, true, true)

  /** A backend in which a relation is allowed when its tuple exists. */
  ghost function TupleBackend(e: Engine): Backend {
    F.FormulaBackend(e, (schema, q: Triple) => F.HasTuple(q.resource, q.target, q.relation))
  }

  function Plainly(q: Triple): Relation {
    Relation(q.resource, "", q.relation, q.target, "")
  }

  /** A fresh instance over a database that holds nothing but the tuple `a`. */
  function OneTuple(a: Triple): System {
    System(NewCache(Config(1, 1, false, 1, 0, 0, 0), 0), Db(Schema("", "", []), {Plainly(a)}, 0))
  }

  lemma OneTupleInitial(e: Engine, a: Triple)
    ensures Initial(TupleBackend(e), OneTuple(a)) && Good(e, OneTuple(a).cache)
  {
    var config := Config(1, 1, false, 1, 0, 0, 0);
    NewCacheGood(e, config, 0);
    assert config.Valid() && OneTuple(a).cache == NewCache(config, 0);
    F.FormulaBackendMeetsContract(e, (schema, q: Triple) => F.HasTuple(q.resource, q.target, q.relation));
  }

  lemma TupleAnswer(e: Engine, a: Triple, q: Triple)
    ensures var v := TupleBackend(e).answer(OneTuple(a).db, q, NO_CONTEXT);
      && v.allowed == (q == a)
      && v.info.direct && !v.info.conditional && !v.info.factUsed
  {
    assert Plainly(a) in OneTuple(a).db.tuples;
  }

  /** Asking about `a` caches its grant under its key. */
  lemma AskOnce(e: Engine, a: Triple)
    requires Good(e, OneTuple(a).cache)
    ensures var s' := Step(TupleBackend(e), OneTuple(a), CheckOp([Plainly(a)], NO_CONTEXT, ALL_UP));
      && s'.db == OneTuple(a).db
      && KeyOf(a) in s'.cache.direct.cache.entries && s'.cache.direct.cache.entries[KeyOf(a)] == Grant(true, None)
  {
    hide InsertAll, AddDirect, Honest;
    var b, c, r := TupleBackend(e), OneTuple(a).cache, Plainly(a);
    var rs := [r];
    assert rs[..0] == [];
    assert Unchecked(e, c, rs, NO_CONTEXT) == rs;
    TouchAllEffect(e, c, rs);
    assert TouchAll(c, rs) == c;
    TupleAnswer(e, a, a);
    var sdk := SdkChecks(b, OneTuple(a).db, rs, NO_CONTEXT);
    InsertOne(c, sdk);
    InsertEffect(e, c, sdk[0]);
  }

  lemma InsertOne(c: Cache, sdk: seq<Check>)
    requires c.direct.cache.Valid() && c.indirect.Valid() && |sdk| == 1
    ensures InsertAll(c, sdk) == Insert(c, sdk[0])
  {
    assert sdk[..0] == [];
  }

  lemma ExecOne(b: Backend, s: System, op: Op)
    requires Good(b.engine, s.cache)
    ensures Exec(b, s, [op]) == Step(b, s, op)
  {
    hide Step;
    assert [op][..0] == [];
    assert Exec(b, s, []) == s;
  }

  /** If two relations share a key, asking about an allowed one makes the cache allow the other. */
  lemma CollisionMisleads(e: Engine, a: Triple, q: Triple)
    requires KeyOf(a) == KeyOf(q) && a != q
    requires Good(e, OneTuple(a).cache)
    ensures var b, s := TupleBackend(e), OneTuple(a);
      var now := Exec(b, s, [CheckOp([Plainly(a)], NO_CONTEXT, ALL_UP)]);
      var (_, answers) := CheckAll(b, now.cache, now.db, [Plainly(q)], NO_CONTEXT, ALL_UP);
      && answers.Some? && |answers.value| == 1 && answers.value[0].allowed
      && !Plain(b, now.db, [Plainly(q)], NO_CONTEXT)[0]
  {
    hide Step, CheckAll;
    var b, s := TupleBackend(e), OneTuple(a);
    var op := CheckOp([Plainly(a)], NO_CONTEXT, ALL_UP);
    ExecOne(b, s, op);
    var now := Exec(b, s, [op]);
    AskOnce(e, a);
    CheckAnswers(b, now.cache, now.db, [Plainly(q)], NO_CONTEXT, ALL_UP);
    TupleAnswer(e, a, q);
  }

  /** Transparency holds over exactly the sets of relations whose keys are separate: if no two relations in
      play share a key it holds for every backend that meets the contract and every run, and otherwise some
      backend and run break it. */
  lemma TransparentExactlyWhenSeparate(e: Engine, play: iset<Triple>)
    ensures Separates(play) <==>
      forall b: Backend, s: System, ops: seq<Op>, r: Relation, context: Context, up: Up ::
        Initial(b, s) && Good(b.engine, s.cache) && AllAdmissible(b, s, ops, play) && TripleOf(r) in play ==>
          var now := Exec(b, s, ops);
          var answers := CheckAll(b, now.cache, now.db, [r], context, up).1;
          answers.Some? ==>
            |answers.value| == 1 && answers.value[0].allowed == b.answer(now.db, TripleOf(r), context).allowed
  {
    hide CheckAll, Exec, Initial, AllAdmissible, Good;
    if Separates(play) {
      forall b: Backend, s: System, ops: seq<Op>, r: Relation, context: Context, up: Up
        | Initial(b, s) && Good(b.engine, s.cache) && AllAdmissible(b, s, ops, play) && TripleOf(r) in play
        ensures var now := Exec(b, s, ops);
          var answers := CheckAll(b, now.cache, now.db, [r], context, up).1;
          answers.Some? ==>
            |answers.value| == 1 && answers.value[0].allowed == b.answer(now.db, TripleOf(r), context).allowed
      {
        CacheIsTransparent(b, s, ops, play, [r], context, up);
      }
    } else {
      var a, q :| a in play && q in play && KeyOf(a) == KeyOf(q) && a != q;
      OneTupleInitial(e, a);
      CollisionMisleads(e, a, q);
      CollisionAdmissible(e, a, play);
    }
  }

  lemma CollisionAdmissible(e: Engine, a: Triple, play: iset<Triple>)
    requires a in play && Good(e, OneTuple(a).cache)
    ensures AllAdmissible(TupleBackend(e), OneTuple(a), [CheckOp([Plainly(a)], NO_CONTEXT, ALL_UP)], play)
  {
    var op := CheckOp([Plainly(a)], NO_CONTEXT, ALL_UP);
    assert Asked(OneTuple(a), op) == [Plainly(a)];
    assert Admissible(OneTuple(a), op, play);
    assert [op][..0] == [];
  }
}
