/** The whole state of one project's cache as a value, each of its operations as a function on that value,
    and what every operation keeps. */
module CacheModel {
  import opened Types
  import opened Keys
  import opened Lrus
  import opened Cel
  import opened GrantStore
  import L = Lookups

  /** The loaded schema. `generation` counts how often it was replaced; it only serves proofs. */
  datatype Conditions = Conditions(schema: Option<Schema>, programs: Programs, version: string, generation: nat)

  datatype Timer = Timer(id: nat, deadline: nat)

  /** `timer` is the armed cooldown; `pending` are the runtime timers started and neither stopped nor fired. */
  datatype Polling = Polling(lastPollTime: nat, window: nat, timer: Option<Timer>, pending: set<Timer>, nextTimer: nat)

  datatype Cache = Cache(direct: Store, indirect: Lru<Key, Grant>, conditions: Conditions,
                         lookups: L.LookupCache, polling: Polling)

  datatype Config = Config(directSize: nat, indirectSize: nat, lookupEnabled: bool, lookupSize: nat,
                           ttl: nat, maxResult: int, window: nat)
  {
    /** Sizes the underlying cache accepts. */
    predicate Valid() {
      directSize > 0 && indirectSize > 0 && (lookupEnabled ==> lookupSize > 0)
    }
  }

  function NewCache(config: Config, now: nat): Cache {
    Cache(Store(Lru(config.directSize, map[], []), map[], map[], map[]),
          Lru(config.indirectSize, map[], []),
          Conditions(None, map[], "", 0),
          L.LookupCache(config.lookupEnabled, config.ttl, config.maxResult,
                        if config.lookupEnabled then Some(Lru(config.lookupSize, map[], [])) else None),
          Polling(now, config.window, None, {}, 0))
  }

  // ---------------------------------------------------------------- schema

  function SetSchema(e: Engine, cs: Conditions, schema: Option<Schema>): Conditions {
    match schema
    case None => Conditions(None, map[], "", cs.generation + 1)
    case Some(s) => Conditions(schema, CompileAll(e, s.conditions), s.version, cs.generation + 1)
  }

  function PurgeRelations(c: Cache): Cache {
    c.(direct := Purge(c.direct), indirect := c.indirect.Purge(), lookups := L.Purge(c.lookups))
  }

  function UpdateSchema(e: Engine, c: Cache, schema: Option<Schema>): Cache {
    PurgeRelations(c.(conditions := SetSchema(e, c.conditions, schema)))
  }

  function EnsureSchema(e: Engine, c: Cache, schema: Option<Schema>): Cache {
    if c.conditions.schema.Some? && c.conditions.version != "" then c
    else c.(conditions := SetSchema(e, c.conditions, schema))
  }

  // ---------------------------------------------------------------- reads

  /** The grant cached for a key and whether it is a direct one; direct grants come first. */
  function FindGrant(c: Cache, k: Key): Option<(Grant, bool)> {
    if k in c.direct.cache.entries then Some((c.direct.cache.entries[k], true))
    else if k in c.indirect.entries then Some((c.indirect.entries[k], false))
    else None
  }

  const PLAIN: Info := Info(false, false, false, "", [], [], [], "")

  /** The answer the cache gives by itself, if it can. */
  function Serve(e: Engine, c: Cache, r: Relation, context: Context): Option<Check> {
    match FindGrant(c, RelationKey(r))
    case None => None
    case Some((grant, direct)) =>
      if grant.cond.None? then Some(Check(grant.allowed, r, PLAIN.(direct := direct)))
      else if Matches(e, c.conditions.programs, grant.cond.value, context)
      then Some(Check(grant.allowed, r, PLAIN.(conditional := true)))
      else None
  }

  function ServedChecks(e: Engine, c: Cache, rs: seq<Relation>, context: Context): seq<Check> {
    if rs == [] then []
    else
      var front := ServedChecks(e, c, rs[..|rs| - 1], context);
      match Serve(e, c, rs[|rs| - 1], context)
      case Some(check) => front + [check]
      case None => front
  }

  function Unchecked(e: Engine, c: Cache, rs: seq<Relation>, context: Context): seq<Relation> {
    if rs == [] then []
    else
      var front := Unchecked(e, c, rs[..|rs| - 1], context);
      if Serve(e, c, rs[|rs| - 1], context).Some? then front else front + [rs[|rs| - 1]]
  }

  /** Which inputs were served, by position. */
  function ServedAt(e: Engine, c: Cache, rs: seq<Relation>, context: Context): map<nat, Check> {
    map i: nat | 0 <= i < |rs| && Serve(e, c, rs[i], context).Some? :: Serve(e, c, rs[i], context).value
  }

  /** Reading a grant makes it the most recently used in the cache it was found in. */
  function TouchGrant(c: Cache, k: Key): Cache {
    if k in c.direct.cache.entries then c.(direct := TouchDirect(c.direct, k))
    else c.(indirect := c.indirect.Touch(k))
  }

  function TouchAll(c: Cache, rs: seq<Relation>): Cache {
    if rs == [] then c else TouchGrant(TouchAll(c, rs[..|rs| - 1]), RelationKey(rs[|rs| - 1]))
  }

  // ---------------------------------------------------------------- answers from the backend

  predicate AllCompiled(programs: Programs, ids: seq<CondId>) {
    forall i :: 0 <= i < |ids| ==> ids[i] in programs
  }

  /** The grant an answer may be kept as; None when it must not be kept. */
  function Cacheable(cs: Conditions, c: Check): Option<Grant> {
    var info := c.info;
    if info.factUsed then None
    else if !info.conditional then Some(Grant(c.allowed, None))
    else if info.schemaVersion != cs.version || (info.trueConditions == [] && info.falseConditions == [])
            || !AllCompiled(cs.programs, info.trueConditions) || !AllCompiled(cs.programs, info.falseConditions)
    then None
    else if info.missingContext != [] || info.conditionalErr != "" then None
    else Some(Grant(c.allowed, Some(Cert(info.trueConditions, info.falseConditions))))
  }

  function Insert(c: Cache, check: Check): Cache
    requires c.direct.cache.Valid() && c.indirect.Valid()
  {
    match Cacheable(c.conditions, check)
    case None => c
    case Some(grant) =>
      if check.info.direct then c.(direct := AddDirect(c.direct, TripleOf(check.relation), grant))
      else c.(indirect := c.indirect.Add(RelationKey(check.relation), grant).0)
  }

  function InsertAll(c: Cache, checks: seq<Check>): (r: Cache)
    requires c.direct.cache.Valid() && c.indirect.Valid()
    ensures r.direct.cache.Valid() && r.indirect.Valid()
  {
    if checks == [] then c else Insert(InsertAll(c, checks[..|checks| - 1]), checks[|checks| - 1])
  }

  // ---------------------------------------------------------------- local writes

  function AddedRelations(c: Cache, rs: seq<Relation>, clock: nat -> nat): Cache {
    if rs == [] then c
    else c.(indirect := c.indirect.Purge(), direct := SweepRelations(c.direct, rs),
            lookups := L.AddRelations(c.lookups, rs, clock))
  }

  function DeletedRelations(c: Cache, rs: seq<Relation>): Cache {
    if rs == [] then c
    else c.(indirect := c.indirect.Purge(), direct := SweepRelations(c.direct, rs))
  }

  // ---------------------------------------------------------------- polling

  datatype Reply = TooMany | Error | Modified(resources: seq<string>, targets: seq<string>, schemaChanged: bool)

  predicate NoRelations(c: Cache) {
    |c.direct.cache.entries| == 0 && |c.indirect.entries| == 0
  }

  function SetPollTime(c: Cache, now: nat): Cache {
    c.(polling := c.polling.(lastPollTime := now))
  }

  function PurgeAll(e: Engine, c: Cache, now: nat): Cache {
    SetPollTime(PurgeRelations(c.(conditions := SetSchema(e, c.conditions, None))), now)
  }

  function CancelCooldown(c: Cache): Cache {
    if c.polling.timer.None? then c
    else c.(polling := c.polling.(timer := None, pending := c.polling.pending - {c.polling.timer.value}))
  }

  function AfterError(e: Engine, c: Cache, now: nat): Cache {
    if c.polling.window == 0 then PurgeAll(e, c, now)
    else if c.polling.timer.None? then
      var t := Timer(c.polling.nextTimer, now + c.polling.window);
      c.(polling := c.polling.(timer := Some(t), pending := c.polling.pending + {t},
                               nextTimer := c.polling.nextTimer + 1))
    else c
  }

  /** A tick of the poller: `start` is read before the remote call and `end` after it. */
  function Poll(e: Engine, c: Cache, start: nat, end: nat, remote: nat -> Reply): Cache {
    if NoRelations(c) then SetPollTime(c, start).(conditions := SetSchema(e, c.conditions, None))
    else Replied(e, c, remote(c.polling.lastPollTime), start, end)
  }

  /** What the remote's reply does. */
  function Replied(e: Engine, c: Cache, reply: Reply, start: nat, end: nat): Cache {
    match reply
    case TooMany => PurgeAll(e, CancelCooldown(c), end)
    case Error => AfterError(e, c, end)
    case Modified(resources, targets, schemaChanged) =>
      Applied(e, CancelCooldown(SetPollTime(c, start)), resources, targets, schemaChanged, end)
  }

  /** What a successful reply does to the cached grants. */
  function Applied(e: Engine, c: Cache, resources: seq<string>, targets: seq<string>, schemaChanged: bool,
                   end: nat): Cache {
    if schemaChanged then PurgeAll(e, c, end)
    else if resources == [] && targets == [] then c
    else c.(indirect := c.indirect.Purge(), direct := SweepTargets(SweepResources(c.direct, resources), targets))
  }

  /** A fired cooldown timer's callback, once it holds the lock. It does not look at which timer fired. */
  function CooldownElapsed(e: Engine, c: Cache, now: nat): Cache {
    if c.polling.timer.None? then c
    else var c' := PurgeAll(e, c, now); c'.(polling := c'.polling.(timer := None))
  }

  // ---------------------------------------------------------------- invariants

  /** The programs in use are those of the loaded schema. */
  ghost predicate Compiled(e: Engine, cs: Conditions) {
    match cs.schema
    case None => cs.programs == map[] && cs.version == ""
    case Some(s) => cs.programs == CompileAll(e, s.conditions) && cs.version == s.version
  }

  /** What every operation keeps, whatever its arguments are. */
  ghost predicate Good(e: Engine, c: Cache) {
    && Complete(c.direct)
    && c.indirect.Valid()
    && L.Sane(c.lookups)
    && Compiled(e, c.conditions)
  }

  /** Every cached conditional grant has a certificate that can still be evaluated: it is not empty, some
      schema version is loaded and each of its conditions has a program. */
  ghost predicate Certified(cs: Conditions, g: Grant) {
    g.cond.Some? ==>
      && (g.cond.value.trueConds != [] || g.cond.value.falseConds != [])
      && cs.version != ""
      && AllCompiled(cs.programs, g.cond.value.trueConds)
      && AllCompiled(cs.programs, g.cond.value.falseConds)
  }

  ghost predicate AllCertified(c: Cache) {
    && (forall k :: k in c.direct.cache.entries ==> Certified(c.conditions, c.direct.cache.entries[k]))
    && (forall k :: k in c.indirect.entries ==> Certified(c.conditions, c.indirect.entries[k]))
  }

  ghost predicate Unconditional(c: Cache) {
    && (forall k :: k in c.direct.cache.entries ==> c.direct.cache.entries[k].cond.None?)
    && (forall k :: k in c.indirect.entries ==> c.indirect.entries[k].cond.None?)
  }

  /** A schema without a version carries no conditions. */
  ghost predicate Versioned(schema: Option<Schema>) {
    schema.Some? && schema.value.version == "" ==> schema.value.conditions == []
  }

  /** Nothing is cached in `c'` that was not cached, unchanged, in `c`. */
  ghost predicate Shrinks(c: Cache, c': Cache) {
    && Within(c.direct, c'.direct)
    && (forall k :: k in c'.indirect.entries ==>
         k in c.indirect.entries && c'.indirect.entries[k] == c.indirect.entries[k])
  }

  lemma NewCacheGood(e: Engine, config: Config, now: nat)
    requires config.Valid()
    ensures Good(e, NewCache(config, now)) && AllCertified(NewCache(config, now)) && NoRelations(NewCache(config, now))
    ensures forall play :: Honest(NewCache(config, now).direct, play)
  {
  }

  lemma NoRelationsIsEmpty(c: Cache)
    ensures NoRelations(c) <==> c.direct.cache.entries == map[] && c.indirect.entries == map[]
  {
    assert c.direct.cache.entries == map[] <==> |c.direct.cache.entries| == 0;
    assert c.indirect.entries == map[] <==> |c.indirect.entries| == 0;
  }

  /** No grant, no index entry and no lookup list is left; sizes and configuration stay. */
  ghost predicate Emptied(c: Cache, c': Cache) {
    && c'.direct == Store(Lru(c.direct.cache.capacity, map[], []), map[], map[], map[])
    && c'.indirect == Lru(c.indirect.capacity, map[], [])
    && L.Cleared(c.lookups, c'.lookups)
  }

  ghost predicate NoSchema(cs: Conditions) {
    cs.schema.None? && cs.version == "" && cs.programs == map[]
  }

  lemma PurgesEmpty(e: Engine, c: Cache, schema: Option<Schema>, now: nat)
    ensures Emptied(c, PurgeRelations(c)) && Emptied(c, UpdateSchema(e, c, schema))
    ensures Emptied(c, PurgeAll(e, c, now)) && NoSchema(PurgeAll(e, c, now).conditions)
    ensures c.polling.timer.Some? ==>
      Emptied(c, CooldownElapsed(e, c, now)) && NoSchema(CooldownElapsed(e, c, now).conditions)
  {
    hide L.Purge;
  }

  lemma PurgeAllEffect(e: Engine, c: Cache, now: nat)
    requires Good(e, c)
    ensures var c' := PurgeAll(e, c, now);
      && Good(e, c') && NoRelations(c') && c'.direct.cache.entries == map[] && c'.indirect.entries == map[]
      && c'.conditions.schema.None? && c'.conditions.version == ""
      && c'.polling == c.polling.(lastPollTime := now)
      && forall play :: Honest(c'.direct, play)
  {
    L.TouchPurgeSane(c.lookups, "");
  }

  lemma UpdateSchemaEffect(e: Engine, c: Cache, schema: Option<Schema>)
    requires Good(e, c)
    ensures var c' := UpdateSchema(e, c, schema);
      && Emptied(c, c')
      && Good(e, c') && NoRelations(c') && c'.direct.cache.entries == map[] && c'.indirect.entries == map[]
      && c'.conditions.schema == schema && c'.polling == c.polling
      && forall play :: Honest(c'.direct, play)
  {
    L.TouchPurgeSane(c.lookups, "");
  }

  lemma EnsureSchemaEffect(e: Engine, c: Cache, schema: Option<Schema>)
    requires Good(e, c)
    ensures var c' := EnsureSchema(e, c, schema);
      && Good(e, c')
      && c'.direct == c.direct && c'.indirect == c.indirect && c'.polling == c.polling && c'.lookups == c.lookups
      && (c.conditions.version != "" ==> c' == c)
      && (c.conditions.version == "" ==> c'.conditions.schema == schema)
  {
  }

  /** A schema that is already in use is never replaced under conditional grants: loading keeps them certified. */
  lemma EnsureSchemaCertified(e: Engine, c: Cache, schema: Option<Schema>)
    requires Good(e, c) && AllCertified(c)
    ensures AllCertified(EnsureSchema(e, c, schema))
    ensures !Unconditional(c) ==> EnsureSchema(e, c, schema) == c
  {
  }

  lemma TouchGrantEffect(e: Engine, c: Cache, k: Key)
    requires Good(e, c)
    ensures var c' := TouchGrant(c, k);
      && Good(e, c')
      && c'.direct.cache.entries == c.direct.cache.entries && c'.indirect.entries == c.indirect.entries
      && c'.direct == c.direct.(cache := c'.direct.cache)
      && c'.direct.cache.capacity == c.direct.cache.capacity && c'.indirect.capacity == c.indirect.capacity
      && c'.conditions == c.conditions && c'.lookups == c.lookups && c'.polling == c.polling
  {
    var c' := TouchGrant(c, k);
    assert forall k' :: Located(c.direct, k') ==> Located(c'.direct, k');
  }

  /** Reads change nothing but which grants were used most recently. */
  lemma {:induction false} TouchAllEffect(e: Engine, c: Cache, rs: seq<Relation>)
    requires Good(e, c)
    ensures var c' := TouchAll(c, rs);
      && Good(e, c')
      && c'.direct.cache.entries == c.direct.cache.entries && c'.indirect.entries == c.indirect.entries
      && c'.direct == c.direct.(cache := c'.direct.cache)
      && c'.direct.cache.capacity == c.direct.cache.capacity && c'.indirect.capacity == c.indirect.capacity
      && c'.conditions == c.conditions && c'.lookups == c.lookups && c'.polling == c.polling
  {
    if rs != [] {
      TouchAllEffect(e, c, rs[..|rs| - 1]);
      TouchGrantEffect(e, TouchAll(c, rs[..|rs| - 1]), RelationKey(rs[|rs| - 1]));
    }
  }

  lemma HonestIgnoresRecency(s: Store, s': Store, play: iset<Triple>)
    requires Honest(s, play) && s' == s.(cache := s'.cache)
    ensures Honest(s', play)
  {
  }

  /** One answer adds at most one grant, under its own key, to the cache its directness chooses; that cache does
      with it what a write to an LRU does, and nothing else changes. */
  lemma InsertEffect(e: Engine, c: Cache, check: Check)
    requires Good(e, c)
    ensures var c' := Insert(c, check);
      var k := RelationKey(check.relation);
      var grant := Cacheable(c.conditions, check);
      && Good(e, c')
      && c'.conditions == c.conditions && c'.lookups == c.lookups && c'.polling == c.polling
      && (grant.None? ==> c' == c)
      && (grant.Some? && check.info.direct ==>
           && c'.indirect == c.indirect && c'.direct == AddDirect(c.direct, TripleOf(check.relation), grant.value)
           && c'.direct.cache == c.direct.cache.Add(k, grant.value).0
           && k in c'.direct.cache.entries && c'.direct.cache.entries[k] == grant.value)
      && (grant.Some? && !check.info.direct ==>
           && c'.direct == c.direct && c'.indirect == c.indirect.Add(k, grant.value).0
           && k in c'.indirect.entries && c'.indirect.entries[k] == grant.value)
      && (forall x :: x in c'.direct.cache.entries && !(x == k && check.info.direct) ==>
           x in c.direct.cache.entries && c'.direct.cache.entries[x] == c.direct.cache.entries[x])
      && (forall x :: x in c'.indirect.entries && !(x == k && !check.info.direct) ==>
           x in c.indirect.entries && c'.indirect.entries[x] == c.indirect.entries[x])
  {
    assert c.direct.cache.Valid();
    hide Cacheable, AddDirect, KeyOf, Complete, L.Sane, Compiled, Lru.Add, NoDup, Without;
    var grant := Cacheable(c.conditions, check);
    var k := RelationKey(check.relation);
    if grant.Some? {
      if check.info.direct {
        AddDirectComplete(c.direct, TripleOf(check.relation), grant.value);
        AddDirectCache(c.direct, TripleOf(check.relation), grant.value);
        AddEffect(c.direct.cache, k, grant.value);
      } else {
        AddEffect(c.indirect, k, grant.value);
      }
    }
  }

  lemma {:induction false} InsertAllGood(e: Engine, c: Cache, checks: seq<Check>)
    requires Good(e, c)
    ensures Good(e, InsertAll(c, checks))
  {
    if checks != [] {
      InsertAllGood(e, c, checks[..|checks| - 1]);
      InsertEffect(e, InsertAll(c, checks[..|checks| - 1]), checks[|checks| - 1]);
    }
  }

  /** What is kept is certified, provided a schema without a version carries no conditions. */
  lemma CacheableCertified(e: Engine, c: Cache, check: Check)
    requires Good(e, c) && Versioned(c.conditions.schema) && Cacheable(c.conditions, check).Some?
    ensures Certified(c.conditions, Cacheable(c.conditions, check).value)
  {
    var trues, falses := check.info.trueConditions, check.info.falseConditions;
    if check.info.conditional {
      SomeCompiled(c.conditions.programs, if trues != [] then trues else falses);
    }
  }

  lemma SomeCompiled(programs: Programs, ids: seq<CondId>)
    requires AllCompiled(programs, ids) && ids != []
    ensures programs != map[]
  {
    assert ids[0] in programs;
  }

  lemma InsertHonest(e: Engine, c: Cache, check: Check, play: iset<Triple>)
    requires Good(e, c) && Honest(c.direct, play) && TripleOf(check.relation) in play
    ensures Honest(Insert(c, check).direct, play)
  {
    var grant := Cacheable(c.conditions, check);
    if grant.Some? && check.info.direct {
      AddDirectHonest(c.direct, TripleOf(check.relation), grant.value, play);
    }
  }

  lemma AddedRelationsGood(e: Engine, c: Cache, rs: seq<Relation>, clock: nat -> nat)
    requires Good(e, c)
    ensures Good(e, AddedRelations(c, rs, clock))
  {
    SweepRelationsComplete(c.direct, rs);
    L.AddRelationsSane(c.lookups, rs, clock);
  }

  lemma DeletedRelationsGood(e: Engine, c: Cache, rs: seq<Relation>)
    requires Good(e, c)
    ensures Good(e, DeletedRelations(c, rs))
  {
    SweepRelationsComplete(c.direct, rs);
  }

  /** After local creates each lookup list is the old one extended by the candidates the creates offer it while
      it is live; no list comes or goes. */
  lemma CreatesExtendLookups(c: Cache, rs: seq<Relation>, clock: nat -> nat)
    requires c.lookups.Valid() && c.lookups.Active()
    ensures var l, l' := c.lookups, AddedRelations(c, rs, clock).lookups;
      && l'.Valid() && l'.Active() && L.SameConfig(l, l')
      && (forall k :: l.Find(k).None? ==> l'.Find(k).None?)
      && (forall k :: l.Find(k).Some? ==>
           var e := l.Find(k).value;
           l'.Find(k) == Some(L.Extended(e, L.Additions(k, rs, clock, e.expiresAt))))
  {
    hide L.Extended, L.Additions;
    L.CreatesReachLiveEntries(c.lookups, rs, clock);
    L.AddNone(c.lookups, clock);
  }

  /** After local writes the direct grants are the old ones that share no resource and no target with a
      written relation, unchanged, and no indirect grant is left. Nothing is newly cached. */
  lemma WritesSweep(e: Engine, c: Cache, rs: seq<Relation>, clock: nat -> nat, play: iset<Triple>)
    requires Good(e, c) && Honest(c.direct, play) && Separates(play) && rs != []
    ensures var c' := AddedRelations(c, rs, clock);
      && c'.direct == DeletedRelations(c, rs).direct && c'.indirect == DeletedRelations(c, rs).indirect
      && Swept(c.direct, c'.direct, Resources(rs), Targets(rs), play)
      && c'.indirect == Lru(c.indirect.capacity, map[], [])
      && c'.conditions == c.conditions && c'.polling == c.polling
      && DeletedRelations(c, rs) == c'.(lookups := c.lookups)
      && (forall q :: q in play ==>
           c'.direct.cache.Find(KeyOf(q)) ==
           if SharesResourceOrTarget(q, rs) then None else c.direct.cache.Find(KeyOf(q)))
  {
    hide SweepRelations, L.AddRelations, Swept, Complete, Honest, KeyOf;
    SweepRelationsExact(c.direct, rs, play);
    forall q | q in play {
      SweepKeepsUnrelated(c.direct, rs, q, play);
    }
  }

  // ---------------------------------------------------------------- polls

  lemma CancelEffect(e: Engine, c: Cache)
    ensures var c' := CancelCooldown(c);
      && c' == c.(polling := c'.polling) && c'.polling.lastPollTime == c.polling.lastPollTime
      && c'.polling.window == c.polling.window
      && c'.polling.timer.None? && c'.polling.pending <= c.polling.pending
      && (c.polling.timer.Some? ==> c'.polling.pending == c.polling.pending - {c.polling.timer.value})
      && c'.polling.nextTimer == c.polling.nextTimer
  {
  }

  lemma GoodIsComplete(e: Engine, c: Cache)
    requires Good(e, c)
    ensures Complete(c.direct) && c.direct.cache.Valid() && c.indirect.Valid()
  {
  }

  lemma PollGood(e: Engine, c: Cache, start: nat, end: nat, remote: nat -> Reply)
    requires Good(e, c)
    ensures Good(e, Poll(e, c, start, end, remote))
  {
    CancelEffect(e, c);
    CancelEffect(e, SetPollTime(c, start));
    PurgeAllEffect(e, c, end);
    PurgeAllEffect(e, CancelCooldown(c), end);
    PurgeAllEffect(e, CancelCooldown(SetPollTime(c, start)), end);
    if !NoRelations(c) {
      match remote(c.polling.lastPollTime)
      case Modified(resources, targets, schemaChanged) =>
        SweepNamesComplete(c.direct, resources);
        SweepNamesComplete(SweepResources(c.direct, resources), targets);
      case _ =>
    }
  }

  /** A poll that reports changes keeps, unchanged, exactly the direct grants of unreported resources and
      targets, and no indirect grant. */
  lemma PollSweeps(e: Engine, c: Cache, start: nat, end: nat, remote: nat -> Reply, play: iset<Triple>)
    requires Good(e, c) && Honest(c.direct, play) && Separates(play) && !NoRelations(c)
    requires var reply := remote(c.polling.lastPollTime);
      reply.Modified? && !reply.schemaChanged && (reply.resources != [] || reply.targets != [])
    ensures var c' := Poll(e, c, start, end, remote);
      var reply := remote(c.polling.lastPollTime);
      && Swept(c.direct, c'.direct, reply.resources, reply.targets, play)
      && c'.indirect.entries == map[]
      && c'.conditions == c.conditions
  {
    hide SweepResources, SweepTargets, Swept, Complete, Honest, Separates, L.Sane, Compiled;
    var reply := remote(c.polling.lastPollTime);
    CancelEffect(e, SetPollTime(c, start));
    GoodIsComplete(e, c);
    SweepResourcesExact(c.direct, reply.resources, play);
    SweepTargetsExact(c.direct, SweepResources(c.direct, reply.resources), reply.resources, reply.targets, play);
  }

  /** What a poll leaves, by reply: an empty cache skips the remote and forgets the schema; too many changes, a
      changed schema or an error without a cooldown empty everything; another error and a reply that names
      nothing leave all but the polling state; names drop all indirect grants and leave schema and lookups. */
  lemma PollByReply(e: Engine, c: Cache, start: nat, end: nat, remote: nat -> Reply)
    ensures var c', reply := Poll(e, c, start, end, remote), remote(c.polling.lastPollTime);
      && (NoRelations(c) ==>
           && c' == c.(conditions := c'.conditions, polling := c.polling.(lastPollTime := start))
           && NoSchema(c'.conditions))
      && (!NoRelations(c) && (reply.TooMany? || (reply.Error? && c.polling.window == 0)
                              || (reply.Modified? && reply.schemaChanged)) ==>
           Emptied(c, c') && NoSchema(c'.conditions) && c'.polling.lastPollTime == end)
      && (!NoRelations(c) && reply.Error? && c.polling.window > 0 ==>
           c' == c.(polling := c'.polling) && c'.polling.lastPollTime == c.polling.lastPollTime)
      && (!NoRelations(c) && reply.Modified? && !reply.schemaChanged ==> c'.polling.lastPollTime == start)
      && (!NoRelations(c) && reply.Modified? && !reply.schemaChanged ==>
           if reply.resources == [] && reply.targets == [] then c' == c.(polling := c'.polling)
           else
             && c' == c.(direct := c'.direct, indirect := c'.indirect, polling := c'.polling)
             && c'.indirect == Lru(c.indirect.capacity, map[], [])
             && c'.direct.components == c.direct.components && c'.direct.cache.capacity == c.direct.cache.capacity
             && c'.direct.byResource == c.direct.byResource - (set n | n in reply.resources)
             && c'.direct.byTarget == c.direct.byTarget - (set n | n in reply.targets))
  {
    hide SweepResources, SweepTargets, L.Cleared, L.Purge;
    CancelEffect(e, c);
    CancelEffect(e, SetPollTime(c, start));
    var timed := CancelCooldown(SetPollTime(c, start));
    PurgesEmpty(e, c, None, end);
    PurgesEmpty(e, CancelCooldown(c), None, end);
    PurgesEmpty(e, timed, None, end);
    match remote(c.polling.lastPollTime)
    case Modified(resources, targets, _) =>
      SweepNamesIndexes(c.direct, resources);
      SweepNamesIndexes(SweepResources(c.direct, resources), targets);
    case _ =>
  }

  /** Whatever the remote says, a poll caches nothing new, and it keeps the schema in use or leaves nothing
      cached. */
  lemma PollShrinks(e: Engine, c: Cache, start: nat, end: nat, remote: nat -> Reply)
    ensures var c' := Poll(e, c, start, end, remote);
      && Shrinks(c, c')
      && (c'.conditions == c.conditions
          || (c'.direct.cache.entries == map[] && c'.indirect.entries == map[]
              && c'.conditions.schema.None? && c'.conditions.version == ""))
  {
    hide Applied;
    NoRelationsIsEmpty(c);
    CancelEffect(e, c);
    if !NoRelations(c) {
      match remote(c.polling.lastPollTime)
      case Modified(resources, targets, schemaChanged) =>
        CancelEffect(e, SetPollTime(c, start));
        AppliedShrinks(e, CancelCooldown(SetPollTime(c, start)), resources, targets, schemaChanged, end);
      case _ =>
    }
  }

  lemma AppliedShrinks(e: Engine, c: Cache, resources: seq<string>, targets: seq<string>, schemaChanged: bool,
                       end: nat)
    ensures var c' := Applied(e, c, resources, targets, schemaChanged, end);
      && Shrinks(c, c')
      && (c'.conditions == c.conditions
          || (c'.direct.cache.entries == map[] && c'.indirect.entries == map[]
              && c'.conditions.schema.None? && c'.conditions.version == ""))
  {
    hide SweepResources, SweepTargets;
    SweepNamesWithin(c.direct, resources);
    SweepNamesWithin(SweepResources(c.direct, resources), targets);
  }

  /** and files nothing under a name it was not filed under. */
  lemma PollHonest(e: Engine, c: Cache, start: nat, end: nat, remote: nat -> Reply, play: iset<Triple>)
    requires Honest(c.direct, play)
    ensures Honest(Poll(e, c, start, end, remote).direct, play)
  {
    hide SweepResources, SweepTargets;
    CancelEffect(e, c);
    CancelEffect(e, SetPollTime(c, start));
    if !NoRelations(c) {
      match remote(c.polling.lastPollTime)
      case Modified(resources, targets, _) =>
        SweepNamesHonest(c.direct, resources, play);
        SweepNamesHonest(SweepResources(c.direct, resources), targets, play);
      case _ =>
    }
  }

  lemma CooldownElapsedEffect(e: Engine, c: Cache, now: nat)
    requires Good(e, c)
    ensures var c' := CooldownElapsed(e, c, now);
      && Good(e, c')
      && (c.polling.timer.None? ==> c' == c)
      && (c.polling.timer.Some? ==> Emptied(c, c') && NoRelations(c')
                                    && c'.direct.cache.entries == map[] && c'.indirect.entries == map[]
                                    && c'.conditions.version == "" && c'.conditions.schema.None?
                                    && c'.polling == c.polling.(lastPollTime := now, timer := None)
                                    && forall play :: Honest(c'.direct, play))
  {
    PurgeAllEffect(e, c, now);
    PurgesEmpty(e, c, None, now);
  }
}
