/** The cache among everything that runs beside it: the backend changing on its own, answers fetched without
    the lock and inserted later, polls that take time, cooldown timers and their late callbacks. */
module Protocol {
  import opened Types
  import opened Keys
  import opened CacheModel
  import opened Backends
  import L = Lookups

  /** One state of the backend and the time it came about. */
  datatype Version = Version(db: Db, from: nat)

  /** An answer fetched from the backend: the version and the time it was given in. */
  datatype Read = Read(version: nat, check: Check, context: Context, at: nat)

  /** A poll that holds the lock: when it started and the backend version at that time. */
  datatype InPoll = InPoll(start: nat, version: nat)

  datatype ReplyKind = GotTooMany | GotError | GotChanges

  /** What is only recorded to state properties. `late` are the keys last written from an answer given before
      the poll time in force when it was written; `covered` are the backend changes inside the window of a
      successful poll; `emptied` is the last version at which both relation caches were seen empty; `firstError`
      is when the first poll failed since one last succeeded or purged and a cooldown callback last ran;
      `stamps` hold the schema generation under which each key was last written. */
  datatype Book = Book(lateDirect: set<Key>, lateIndirect: set<Key>, covered: set<nat>, emptied: nat,
                       lastReply: Option<ReplyKind>, purged: bool, firstError: Option<nat>, lastTick: nat,
                       stamps: map<(Key, bool), nat>)

  /** `waiting` are fired timers whose callback has not yet got the lock. */
  datatype World = World(now: nat, history: seq<Version>, cache: Cache, fetched: set<Read>,
                         poll: Option<InPoll>, waiting: multiset<Timer>, book: Book)

  datatype Step =
    | Advance(time: nat)
    | Change(db: Db)
    | Ask(relation: Relation, context: Context)
    | InsertRead(read: Read)
    | Serving(rs: seq<Relation>)
    | Load(version: nat)
    | SchemaWritten(dsl: string)
    | RelationsCreated(rs: seq<Relation>, clock: nat -> nat)
    | RelationsDeleted(rs: seq<Relation>)
    | LookupsChanged(lookups: L.LookupCache)
    | BeginPoll
    | EndPoll(remote: nat -> Reply, upto: nat)
    | Fire(timer: Timer)
    | Callback(timer: Timer)

  function Latest(w: World): nat
    requires w.history != []
  {
    |w.history| - 1
  }

  function Start(config: Config, db: Db, now: nat): World {
    World(now, [Version(db, now)], NewCache(config, now), {}, None, multiset{},
          Book({}, {}, {}, 0, None, false, None, now, map[]))
  }

  /** The poll time is past, and a running poll started after it and knows all versions before its start. */
  ghost predicate Timely(w: World) {
    && w.cache.polling.lastPollTime <= w.now
    && (w.poll.Some? ==>
         && w.cache.polling.lastPollTime <= w.poll.value.start <= w.now
         && w.poll.value.version < |w.history|
         && forall v :: w.poll.value.version < v < |w.history| ==> w.history[v].from >= w.poll.value.start)
  }

  // ---------------------------------------------------------------- what the remote promises

  /** A reply that names a change: the schema flag for a schema change, resource and target of each tuple. */
  ghost predicate Reports(reply: Reply, db: Db, db': Db) {
    reply.Modified? ==>
      && (db.schema != db'.schema ==> reply.schemaChanged)
      && (forall t :: t in db.tuples - db'.tuples || t in db'.tuples - db.tuples ==>
           t.resource in reply.resources && t.target in reply.targets)
  }

  /** Version `v` gave way to the next one at `since` or later. */
  predicate ChangedSince(history: seq<Version>, v: nat, since: nat) {
    v + 1 < |history| && history[v + 1].from >= since
  }

  /** A successful reply names every change made at `since` or later and before version `upto`. */
  ghost predicate Conforms(reply: Reply, history: seq<Version>, since: nat, upto: nat) {
    forall v: nat :: v < upto && ChangedSince(history, v, since) ==> Reports(reply, history[v].db, history[v + 1].db)
  }

  // ---------------------------------------------------------------- steps

  /** The lock is free, except for what needs no lock or belongs to the poll holding it. */
  ghost predicate Enabled(b: Backend, w: World, step: Step, play: iset<Triple>) {
    && w.history != []
    && match step
       case Advance(_) => true
       case Change(db) =>
         && Versioned(Some(db.schema))
         && (db.schema.version != "" ==>
              forall v :: 0 <= v < |w.history| && w.history[v].db.schema.version == db.schema.version ==>
                w.history[v].db.schema == db.schema)
       case Ask(r, _) => TripleOf(r) in play
       case InsertRead(read) => w.poll.None? && read in w.fetched
       case Load(v) => w.poll.None? && v < |w.history|
       case LookupsChanged(lookups) => w.poll.None? && L.Sane(lookups)
       case EndPoll(remote, upto) =>
         && w.poll.Some? && w.poll.value.version <= upto < |w.history|
         && Conforms(remote(w.cache.polling.lastPollTime), w.history, w.cache.polling.lastPollTime, upto)
       case Fire(t) => t in w.cache.polling.pending && t.deadline <= w.now
       case Callback(t) => w.poll.None? && t in w.waiting
       case _ => w.poll.None?
  }

  function AskedRead(b: Backend, w: World, r: Relation, context: Context): Read
    requires w.history != []
  {
    var v := b.answer(w.history[Latest(w)].db, TripleOf(r), context);
    Read(Latest(w), Check(v.allowed, r, v.info), context, w.now)
  }

  function Marked(keys: set<Key>, k: Key, late: bool): set<Key> {
    if late then keys + {k} else keys - {k}
  }

  /** The books after an answer is inserted. */
  function Entered(w: World, read: Read): Book {
    var k := RelationKey(read.check.relation);
    var direct := read.check.info.direct;
    if Cacheable(w.cache.conditions, read.check).None? then w.book
    else
      var late := read.at < w.cache.polling.lastPollTime;
      w.book.(
        lateDirect := if direct then Marked(w.book.lateDirect, k, late) else w.book.lateDirect,
        lateIndirect := if direct then w.book.lateIndirect else Marked(w.book.lateIndirect, k, late),
        stamps := w.book.stamps[(k, direct) := w.cache.conditions.generation])
  }

  /** The books after a poll. */
  function Polled(w: World, c': Cache, remote: nat -> Reply, upto: nat): Book
    requires w.history != [] && w.poll.Some?
  {
    var since := w.cache.polling.lastPollTime;
    var ticked := w.book.(lastTick := w.poll.value.start,
                          emptied := if NoRelations(c') then Latest(w) else w.book.emptied);
    if NoRelations(w.cache) then ticked
    else match remote(since)
      case TooMany => ticked.(lastReply := Some(GotTooMany), firstError := None)
      case Error =>
        var purged := w.cache.polling.window == 0;
        ticked.(lastReply := Some(GotError), purged := purged,
                firstError := if purged then None
                              else if ticked.firstError.None? then Some(w.now) else ticked.firstError)
      case Modified(_, _, _) =>
        ticked.(lastReply := Some(GotChanges), firstError := None,
                covered := w.book.covered + set v: nat | v < upto && ChangedSince(w.history, v, since))
  }

  function Apply(b: Backend, w: World, step: Step): (w': World)
    requires Good(b.engine, w.cache) && w.history != []
    requires step.Load? ==> step.version < |w.history|
    requires step.EndPoll? ==> w.poll.Some?
    requires step.LookupsChanged? ==> L.Sane(step.lookups)
    ensures Good(b.engine, w'.cache) && w'.history != []
  {
    var e := b.engine;
    match step
    case Advance(time) => w.(now := w.now + time)
    case Change(db) => w.(history := w.history + [Version(db, w.now)])
    case Ask(r, context) => w.(fetched := w.fetched + {AskedRead(b, w, r, context)})
    case InsertRead(read) =>
      InsertEffect(e, w.cache, read.check);
      w.(cache := Insert(w.cache, read.check), book := Entered(w, read))
    case Serving(rs) =>
      TouchAllEffect(e, w.cache, rs);
      w.(cache := TouchAll(w.cache, rs))
    case Load(v) =>
      EnsureSchemaEffect(e, w.cache, Some(w.history[v].db.schema));
      w.(cache := EnsureSchema(e, w.cache, Some(w.history[v].db.schema)))
    case SchemaWritten(dsl) =>
      UpdateSchemaEffect(e, w.cache, Some(Schema(dsl, "", [])));
      w.(cache := UpdateSchema(e, w.cache, Some(Schema(dsl, "", []))), book := w.book.(emptied := Latest(w)))
    case RelationsCreated(rs, clock) =>
      AddedRelationsGood(e, w.cache, rs, clock);
      w.(cache := AddedRelations(w.cache, rs, clock))
    case RelationsDeleted(rs) =>
      DeletedRelationsGood(e, w.cache, rs);
      w.(cache := DeletedRelations(w.cache, rs))
    case LookupsChanged(lookups) => w.(cache := w.cache.(lookups := lookups))
    case BeginPoll => w.(poll := Some(InPoll(w.now, Latest(w))))
    case EndPoll(remote, upto) =>
      PollGood(e, w.cache, w.poll.value.start, w.now, remote);
      var c' := Poll(e, w.cache, w.poll.value.start, w.now, remote);
      w.(cache := c', poll := None, book := Polled(w, c', remote, upto))
    case Fire(t) =>
      w.(cache := w.cache.(polling := w.cache.polling.(pending := w.cache.polling.pending - {t})),
         waiting := w.waiting + multiset{t})
    case Callback(t) =>
      CooldownElapsedEffect(e, w.cache, w.now);
      w.(cache := CooldownElapsed(e, w.cache, w.now), waiting := w.waiting - multiset{t},
         book := if w.cache.polling.timer.Some? then w.book.(purged := true, emptied := Latest(w), firstError := None)
                 else w.book.(firstError := None))
  }

  /** A run: the worlds passed through, each step enabled where it is taken. */
  ghost predicate Run(b: Backend, ws: seq<World>, steps: seq<Step>, play: iset<Triple>) {
    && |ws| == |steps| + 1
    && (exists config: Config, db: Db, now: nat ::
          config.Valid() && Versioned(Some(db.schema)) && ws[0] == Start(config, db, now))
    && forall i :: 0 <= i < |steps| ==>
         && Good(b.engine, ws[i].cache) && Enabled(b, ws[i], steps[i], play)
         && ws[i + 1] == Apply(b, ws[i], steps[i])
  }

  lemma RunPrefix(b: Backend, ws: seq<World>, steps: seq<Step>, play: iset<Triple>)
    requires Run(b, ws, steps, play) && steps != []
    ensures Run(b, ws[..|steps|], steps[..|steps| - 1], play)
    ensures Good(b.engine, ws[|steps| - 1].cache) && Enabled(b, ws[|steps| - 1], steps[|steps| - 1], play)
    ensures ws[|steps|] == Apply(b, ws[|steps| - 1], steps[|steps| - 1])
  {
    hide Good, Enabled, Apply, Start;
    var i := |steps| - 1;
    assert Good(b.engine, ws[i].cache);
  }

  /** Runs are never stuck for want of a good cache: any enabled step extends a run. */
  lemma RunExtends(b: Backend, ws: seq<World>, steps: seq<Step>, play: iset<Triple>, step: Step)
    requires Run(b, ws, steps, play)
    ensures Good(b.engine, ws[|steps|].cache)
    ensures Enabled(b, ws[|steps|], step, play) ==>
      Run(b, ws + [Apply(b, ws[|steps|], step)], steps + [step], play)
  {
    LastIsGood(b, ws, steps, play);
    hide Good, Enabled, Apply, Start;
  }

  lemma LastIsGood(b: Backend, ws: seq<World>, steps: seq<Step>, play: iset<Triple>)
    requires Run(b, ws, steps, play)
    ensures Good(b.engine, ws[|steps|].cache) && ws[|steps|].history != []
  {
    hide Enabled, Apply;
    if steps == [] {
      var config: Config, db: Db, now: nat :|
        config.Valid() && Versioned(Some(db.schema)) && ws[0] == Start(config, db, now);
      NewCacheGood(b.engine, config, now);
    } else {
      RunPrefix(b, ws, steps, play);
    }
  }
}
