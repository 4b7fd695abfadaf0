/** Properties of the poll time, the cooldown and the certificates over whole runs. None of them needs the
    backend's contract or separate keys. */
module PollingRuns {
  import opened Types
  import opened Keys
  import opened Lrus
  import opened Cel
  import opened GrantStore
  import opened CacheModel
  import opened Backends
  import opened Protocol
  import L = Lookups

  // ---------------------------------------------------------------- what a poll does to the polling state

  ghost predicate Outcome(c: Cache, c': Cache, start: nat, end: nat, remote: nat -> Reply) {
    var p := c.polling;
    var cancelled := p.(timer := None, pending := if p.timer.Some? then p.pending - {p.timer.value} else p.pending);
    if NoRelations(c) then c'.polling == p.(lastPollTime := start) && NoRelations(c')
    else match remote(p.lastPollTime)
      case TooMany => c'.polling == cancelled.(lastPollTime := end) && NoRelations(c')
      case Error =>
        if p.window == 0 then c'.polling == p.(lastPollTime := end) && NoRelations(c')
        else c' == c.(polling := c'.polling) &&
             (if p.timer.Some? then c'.polling == p
              else var t := Timer(p.nextTimer, end + p.window);
                c'.polling == p.(timer := Some(t), pending := p.pending + {t}, nextTimer := p.nextTimer + 1))
      case Modified(_, _, schemaChanged) =>
        && c'.polling == cancelled.(lastPollTime := if schemaChanged then end else start)
        && (schemaChanged ==> NoRelations(c'))
  }

  lemma PollOutcome(e: Engine, c: Cache, start: nat, end: nat, remote: nat -> Reply)
    requires Good(e, c)
    ensures Outcome(c, Poll(e, c, start, end, remote), start, end, remote)
  {
    hide SweepResources, SweepTargets, Good;
    CancelGood(e, c);
    SetTimeGood(e, c, start);
    PurgeAllEffect(e, c, end);
    PurgeAllEffect(e, CancelCooldown(c), end);
    PurgeAllEffect(e, CancelCooldown(SetPollTime(c, start)), end);
    CancelEffect(e, c);
    CancelEffect(e, SetPollTime(c, start));
  }

  lemma CancelGood(e: Engine, c: Cache)
    requires Good(e, c)
    ensures Good(e, CancelCooldown(c))
  {
  }

  lemma SetTimeGood(e: Engine, c: Cache, now: nat)
    requires Good(e, c)
    ensures Good(e, SetPollTime(c, now)) && Good(e, CancelCooldown(SetPollTime(c, now)))
  {
  }

  /** Of the steps, only the end of a poll, a timer's firing and its callback touch the polling state. */
  lemma OtherStepsLeavePolling(b: Backend, w: World, step: Step, play: iset<Triple>)
    requires Good(b.engine, w.cache) && Enabled(b, w, step, play)
    requires !step.EndPoll? && !step.Callback? && !step.Fire?
    ensures Apply(b, w, step).cache.polling == w.cache.polling
    ensures Apply(b, w, step).waiting == w.waiting
  {
    hide Good, Insert, TouchAll, SweepRelations, L.AddRelations;
    match step
    case InsertRead(read) => InsertEffect(b.engine, w.cache, read.check);
    case Serving(rs) => TouchAllEffect(b.engine, w.cache, rs);
    case _ =>
  }

  lemma CallbackPolling(b: Backend, w: World, t: Timer, play: iset<Triple>)
    requires Good(b.engine, w.cache) && Enabled(b, w, Callback(t), play)
    ensures var w' := Apply(b, w, Callback(t));
      && w'.waiting == w.waiting - multiset{t}
      && (w.cache.polling.timer.None? ==> w'.cache == w.cache && w'.book == w.book.(firstError := None))
      && (w.cache.polling.timer.Some? ==>
           && w'.cache.polling == w.cache.polling.(lastPollTime := w.now, timer := None)
           && Emptied(w.cache, w'.cache) && NoSchema(w'.cache.conditions)
           && NoRelations(w'.cache) && w'.book == w.book.(purged := true, emptied := Latest(w), firstError := None))
  {
    CooldownElapsedEffect(b.engine, w.cache, w.now);
    PurgesEmpty(b.engine, w.cache, None, w.now);
  }

  lemma EndPollPolling(b: Backend, w: World, remote: nat -> Reply, upto: nat, play: iset<Triple>)
    requires Good(b.engine, w.cache) && Enabled(b, w, EndPoll(remote, upto), play)
    ensures var w' := Apply(b, w, EndPoll(remote, upto));
      && Outcome(w.cache, w'.cache, w.poll.value.start, w.now, remote)
      && w'.book == Polled(w, w'.cache, remote, upto)
  {
    hide Good, Poll, Polled;
    PollOutcome(b.engine, w.cache, w.poll.value.start, w.now, remote);
  }

  // ---------------------------------------------------------------- clocks

  ghost predicate Clocks(w: World) {
    && w.history != [] && Timely(w)
    && (forall v :: 0 <= v < |w.history| ==> w.history[v].from <= w.now)
  }

  /** The poll time never moves back, and clocks stay consistent. */
  lemma StepClocks(b: Backend, w: World, step: Step, play: iset<Triple>)
    requires Good(b.engine, w.cache) && Enabled(b, w, step, play) && Clocks(w)
    ensures Clocks(Apply(b, w, step))
    ensures w.cache.polling.lastPollTime <= Apply(b, w, step).cache.polling.lastPollTime
  {
    hide Good, Insert, TouchAll, SweepRelations, L.AddRelations, Poll, CooldownElapsed, Conforms, Polled;
    match step
    case EndPoll(remote, upto) => EndPollClocks(b, w, remote, upto, play);
    case Callback(t) => CallbackPolling(b, w, t, play);
    case Fire(t) =>
    case _ => OtherStepsLeavePolling(b, w, step, play);
  }

  lemma EndPollClocks(b: Backend, w: World, remote: nat -> Reply, upto: nat, play: iset<Triple>)
    requires Good(b.engine, w.cache) && Enabled(b, w, EndPoll(remote, upto), play) && Clocks(w)
    ensures Clocks(Apply(b, w, EndPoll(remote, upto)))
    ensures w.cache.polling.lastPollTime <= Apply(b, w, EndPoll(remote, upto)).cache.polling.lastPollTime
  {
    hide Good, Poll, Conforms, Polled, NoRelations;
    EndPollPolling(b, w, remote, upto, play);
  }

  // ---------------------------------------------------------------- poll windows leave no gap

  /** A change is ahead of the poll time, or some successful poll covered it, or both relation caches were seen
      empty at a later version. */
  ghost predicate AccountedFor(w: World, v: nat) {
    ChangedSince(w.history, v, w.cache.polling.lastPollTime) || v in w.book.covered || v < w.book.emptied
  }

  ghost predicate NoGap(w: World) {
    && w.history != [] && w.book.emptied < |w.history|
    && forall v: nat :: v + 1 < |w.history| ==> AccountedFor(w, v)
  }

  lemma StepNoGap(b: Backend, w: World, step: Step, play: iset<Triple>)
    requires Good(b.engine, w.cache) && Enabled(b, w, step, play) && Clocks(w) && NoGap(w)
    ensures NoGap(Apply(b, w, step))
  {
    hide Good, Insert, TouchAll, SweepRelations, L.AddRelations, Poll, CooldownElapsed, Conforms, Polled, UpdateSchema;
    var w' := Apply(b, w, step);
    match step
    case EndPoll(remote, upto) => EndPollNoGap(b, w, remote, upto, play);
    case Callback(t) =>
      CallbackPolling(b, w, t, play);
      assert forall v: nat :: v + 1 < |w.history| && AccountedFor(w, v) ==> AccountedFor(w', v);
    case Fire(t) =>
      assert forall v: nat :: AccountedFor(w, v) ==> AccountedFor(w', v);
    case Change(db) =>
      forall v: nat | v + 1 < |w'.history|
        ensures AccountedFor(w', v)
      {
        assert v + 1 < |w.history| ==> AccountedFor(w, v);
      }
    case InsertRead(read) =>
      OtherStepsLeavePolling(b, w, step, play);
      assert forall v: nat :: AccountedFor(w, v) ==> AccountedFor(w', v);
    case _ =>
      OtherStepsLeavePolling(b, w, step, play);
      assert forall v: nat :: v + 1 < |w.history| && AccountedFor(w, v) ==> AccountedFor(w', v);
  }

  lemma EndPollNoGap(b: Backend, w: World, remote: nat -> Reply, upto: nat, play: iset<Triple>)
    requires Good(b.engine, w.cache) && Enabled(b, w, EndPoll(remote, upto), play) && Clocks(w) && NoGap(w)
    ensures NoGap(Apply(b, w, EndPoll(remote, upto)))
  {
    hide Good, Poll, Conforms, NoRelations;
    var w' := Apply(b, w, EndPoll(remote, upto));
    EndPollPolling(b, w, remote, upto, play);
    var since := w.cache.polling.lastPollTime;
    forall v: nat | v + 1 < |w'.history|
      ensures AccountedFor(w', v)
    {
      assert AccountedFor(w, v);
      if w'.cache.polling.lastPollTime == w.poll.value.start && !NoRelations(w'.cache)
         && ChangedSince(w.history, v, since) && !ChangedSince(w.history, v, w.poll.value.start) {
        assert v < w.poll.value.version <= upto;
      }
    }
  }

  // ---------------------------------------------------------------- cooldown

  /** An armed cooldown means that the last poll which reached the remote got an ordinary error; and after such
      an error the cooldown is armed or the caches have been purged since. */
  ghost predicate CooldownSafe(w: World) {
    var p := w.cache.polling;
    && (p.timer.Some? ==>
         && p.window > 0 && w.book.lastReply == Some(GotError)
         && (p.timer.value in p.pending || p.timer.value in w.waiting))
    && (w.book.lastReply == Some(GotError) ==> p.timer.Some? || w.book.purged)
  }

  lemma StepCooldownSafe(b: Backend, w: World, step: Step, play: iset<Triple>)
    requires Good(b.engine, w.cache) && Enabled(b, w, step, play) && CooldownSafe(w)
    ensures CooldownSafe(Apply(b, w, step))
  {
    hide Good, Insert, TouchAll, SweepRelations, L.AddRelations, Poll, CooldownElapsed, Conforms, UpdateSchema,
         NoRelations, Cacheable, AddDirect, Lru.Add, Emptied, NoSchema;
    match step
    case EndPoll(remote, upto) => EndPollPolling(b, w, remote, upto, play);
    case Callback(t) => CallbackPolling(b, w, t, play);
    case Fire(t) =>
    case _ => OtherStepsLeavePolling(b, w, step, play);
  }

  /** An armed cooldown's deadline is one window after the first error since the last success, purge or
      callback; and the cooldown is armed exactly while there is such an error. */
  ghost predicate DeadlineFixed(w: World) {
    var p := w.cache.polling;
    && (p.timer.Some? <==> w.book.firstError.Some?)
    && (p.timer.Some? ==> p.timer.value.deadline == w.book.firstError.value + p.window)
  }

  lemma StepDeadlineFixed(b: Backend, w: World, step: Step, play: iset<Triple>)
    requires Good(b.engine, w.cache) && Enabled(b, w, step, play) && CooldownSafe(w) && DeadlineFixed(w)
    ensures DeadlineFixed(Apply(b, w, step))
  {
    hide Good, Insert, TouchAll, SweepRelations, L.AddRelations, Poll, CooldownElapsed, Conforms, UpdateSchema,
         NoRelations, Cacheable, AddDirect, Lru.Add, Emptied, NoSchema;
    match step
    case EndPoll(remote, upto) => EndPollPolling(b, w, remote, upto, play);
    case Callback(t) => CallbackPolling(b, w, t, play);
    case Fire(t) =>
    case _ => OtherStepsLeavePolling(b, w, step, play);
  }

  /** Further errors under an armed cooldown change nothing in the cache. */
  lemma ErrorsKeepDeadline(e: Engine, w: World, start: nat, end: nat, remote: nat -> Reply)
    requires CooldownSafe(w) && w.cache.polling.timer.Some?
    requires !NoRelations(w.cache) && remote(w.cache.polling.lastPollTime).Error?
    ensures Poll(e, w.cache, start, end, remote) == w.cache
  {
  }

  /** A failed poll either leaves nothing cached or leaves the poll time, the grants, the lookups and the schema
      alone. */
  lemma FailedPollsStay(e: Engine, c: Cache, start: nat, end: nat, remote: nat -> Reply)
    requires !NoRelations(c) && !remote(c.polling.lastPollTime).Modified?
    ensures var c' := Poll(e, c, start, end, remote);
      || NoRelations(c')
      || (c' == c.(polling := c'.polling) && c'.polling.lastPollTime == c.polling.lastPollTime)
  {
  }

  // ---------------------------------------------------------------- timed freshness

  /** Time does not pass while a poll runs, a callback waits or a timer is due, and polls start at most
      `interval` apart. */
  ghost predicate Punctual(w: World, step: Step, interval: nat) {
    step.Advance? ==>
      && w.poll.None? && w.waiting == multiset{}
      && w.now + step.time <= w.book.lastTick + interval
      && forall t :: t in w.cache.polling.pending ==> w.now + step.time <= t.deadline
  }

  ghost predicate OnTime(w: World, interval: nat) {
    var p := w.cache.polling;
    && Clocks(w)
    && CooldownSafe(w)
    && w.book.lastTick <= w.now <= w.book.lastTick + interval
    && (w.poll.Some? ==> w.poll.value.start == w.now)
    && (p.timer.None? ==> p.lastPollTime >= w.book.lastTick)
    && (p.timer.Some? ==> w.now <= p.timer.value.deadline <= p.lastPollTime + interval + p.window)
  }

  lemma StepOnTime(b: Backend, w: World, step: Step, play: iset<Triple>, interval: nat)
    requires Good(b.engine, w.cache) && Enabled(b, w, step, play) && Punctual(w, step, interval) && OnTime(w, interval)
    ensures OnTime(Apply(b, w, step), interval)
  {
    hide Good, Insert, TouchAll, SweepRelations, L.AddRelations, Poll, CooldownElapsed, Conforms, UpdateSchema,
         NoRelations, Cacheable, Clocks, CooldownSafe;
    StepClocks(b, w, step, play);
    StepCooldownSafe(b, w, step, play);
    match step
    case EndPoll(remote, upto) => EndPollOnTime(b, w, remote, upto, play, interval);
    case Callback(t) => CallbackPolling(b, w, t, play);
    case Advance(time) => AdvanceOnTime(b, w, time, interval);
    case Fire(t) =>
    case _ => OtherStepsLeavePolling(b, w, step, play);
  }

  lemma AdvanceOnTime(b: Backend, w: World, time: nat, interval: nat)
    requires OnTime(w, interval) && Punctual(w, Advance(time), interval)
    ensures w.now + time <= w.book.lastTick + interval && w.poll.None?
    ensures w.cache.polling.timer.Some? ==> w.now + time <= w.cache.polling.timer.value.deadline
  {
  }

  lemma EndPollOnTime(b: Backend, w: World, remote: nat -> Reply, upto: nat, play: iset<Triple>, interval: nat)
    requires Good(b.engine, w.cache) && Enabled(b, w, EndPoll(remote, upto), play) && OnTime(w, interval)
    ensures var w' := Apply(b, w, EndPoll(remote, upto));
      var p := w'.cache.polling;
      && w'.book.lastTick == w.now
      && (p.timer.None? ==> p.lastPollTime >= w'.book.lastTick)
      && (p.timer.Some? ==> w.now <= p.timer.value.deadline <= p.lastPollTime + interval + p.window)
  {
    hide Good, Poll, Conforms, NoRelations;
    EndPollPolling(b, w, remote, upto, play);
  }

  /** Timed freshness: with punctual polls and callbacks the poll time is never further back than the polling
      interval and the cooldown window together. */
  lemma OnTimeIsFresh(w: World, interval: nat)
    requires OnTime(w, interval)
    ensures w.now - w.cache.polling.lastPollTime <= interval + w.cache.polling.window
  {
  }

  // ---------------------------------------------------------------- certificates

  /** Each cached conditional grant is certified and was written under the schema still in use. */
  ghost predicate CertsInForce(w: World) {
    && AllCertified(w.cache)
    && (forall k :: k in w.cache.direct.cache.entries && w.cache.direct.cache.entries[k].cond.Some? ==>
         (k, true) in w.book.stamps && w.book.stamps[(k, true)] == w.cache.conditions.generation)
    && (forall k :: k in w.cache.indirect.entries && w.cache.indirect.entries[k].cond.Some? ==>
         (k, false) in w.book.stamps && w.book.stamps[(k, false)] == w.cache.conditions.generation)
  }

  ghost predicate CertInv(w: World) {
    && CertsInForce(w)
    && Versioned(w.cache.conditions.schema)
    && (forall v :: 0 <= v < |w.history| ==> Versioned(Some(w.history[v].db.schema)))
  }

  /** Nothing newly cached; the schema kept, or no conditional grant left. */
  lemma ShrinkKeepsCerts(w: World, w': World)
    requires CertsInForce(w) && Shrinks(w.cache, w'.cache) && w'.book.stamps == w.book.stamps
    requires w'.cache.conditions == w.cache.conditions || Unconditional(w'.cache)
    ensures CertsInForce(w')
  {
  }

  lemma InsertKeepsCerts(b: Backend, w: World, read: Read, play: iset<Triple>)
    requires Good(b.engine, w.cache) && Enabled(b, w, InsertRead(read), play) && CertInv(w)
    ensures CertInv(Apply(b, w, InsertRead(read)))
  {
    hide Good, Insert, AddDirect, Lru.Add, Cacheable, Certified, RelationKey;
    InsertEffect(b.engine, w.cache, read.check);
    if Cacheable(w.cache.conditions, read.check).Some? {
      CacheableCertified(b.engine, w.cache, read.check);
    }
  }

  lemma LoadKeepsCerts(b: Backend, w: World, v: nat, play: iset<Triple>)
    requires Good(b.engine, w.cache) && Enabled(b, w, Load(v), play) && CertInv(w)
    ensures CertInv(Apply(b, w, Load(v)))
  {
    hide Complete;
    EnsureSchemaEffect(b.engine, w.cache, Some(w.history[v].db.schema));
    ShrinkKeepsCerts(w, Apply(b, w, Load(v)));
  }

  lemma StepCerts(b: Backend, w: World, step: Step, play: iset<Triple>)
    requires Good(b.engine, w.cache) && Enabled(b, w, step, play) && CertInv(w)
    ensures CertInv(Apply(b, w, step))
  {
    hide Good, Insert, TouchAll, SweepRelations, L.AddRelations, Poll, CooldownElapsed, Conforms, Certified,
         AllCertified, UpdateSchema, Polled, EnsureSchema, Entered;
    var w' := Apply(b, w, step);
    match step
    case InsertRead(read) => InsertKeepsCerts(b, w, read, play);
    case Load(v) => LoadKeepsCerts(b, w, v, play);
    case Serving(rs) =>
      TouchAllEffect(b.engine, w.cache, rs);
      ShrinkKeepsCerts(w, w');
    case SchemaWritten(dsl) =>
      UpdateSchemaEffect(b.engine, w.cache, Some(Schema(dsl, "", [])));
      ShrinkKeepsCerts(w, w');
    case RelationsCreated(rs, _) =>
      SweepRelationsWithin(w.cache.direct, rs);
      ShrinkKeepsCerts(w, w');
    case RelationsDeleted(rs) =>
      SweepRelationsWithin(w.cache.direct, rs);
      ShrinkKeepsCerts(w, w');
    case EndPoll(remote, upto) =>
      PollShrinks(b.engine, w.cache, w.poll.value.start, w.now, remote);
      PolledStamps(w, w'.cache, remote, upto);
      ShrinkKeepsCerts(w, w');
    case Callback(t) =>
      CooldownElapsedEffect(b.engine, w.cache, w.now);
      ShrinkKeepsCerts(w, w');
    case _ => ShrinkKeepsCerts(w, w');
  }

  lemma PolledStamps(w: World, c': Cache, remote: nat -> Reply, upto: nat)
    requires w.history != [] && w.poll.Some?
    ensures Polled(w, c', remote, upto).stamps == w.book.stamps
  {
  }

  // ---------------------------------------------------------------- runs

  lemma StartHolds(b: Backend, config: Config, db: Db, now: nat)
    requires config.Valid() && Versioned(Some(db.schema))
    ensures var w := Start(config, db, now);
      && Clocks(w) && NoGap(w) && CooldownSafe(w) && DeadlineFixed(w) && CertInv(w)
      && forall i :: OnTime(w, i)
  {
  }

  /** In every reachable world clocks agree, poll windows leave no gap, the cooldown is safe and due one window
      after the first error, and every conditional grant is certified under the schema still in use. */
  lemma {:induction false} RunIsSafe(b: Backend, ws: seq<World>, steps: seq<Step>, play: iset<Triple>)
    requires Run(b, ws, steps, play)
    ensures var w := ws[|steps|]; Clocks(w) && NoGap(w) && CooldownSafe(w) && DeadlineFixed(w) && CertInv(w)
  {
    hide Clocks, NoGap, CooldownSafe, DeadlineFixed, CertInv, Apply, Enabled, Good, Start;
    if steps == [] {
      var config: Config, db: Db, now: nat :|
        config.Valid() && Versioned(Some(db.schema)) && ws[0] == Start(config, db, now);
      StartHolds(b, config, db, now);
    } else {
      var w, step := ws[|steps| - 1], steps[|steps| - 1];
      RunPrefix(b, ws, steps, play);
      RunIsSafe(b, ws[..|steps|], steps[..|steps| - 1], play);
      StepClocks(b, w, step, play);
      StepNoGap(b, w, step, play);
      StepCooldownSafe(b, w, step, play);
      StepDeadlineFixed(b, w, step, play);
      StepCerts(b, w, step, play);
    }
  }

  ghost predicate PunctualRun(ws: seq<World>, steps: seq<Step>, interval: nat) {
    && |ws| == |steps| + 1
    && forall i :: 0 <= i < |steps| ==> Punctual(ws[i], steps[i], interval)
  }

  lemma {:induction false} RunOnTime(b: Backend, ws: seq<World>, steps: seq<Step>, play: iset<Triple>, interval: nat)
    requires Run(b, ws, steps, play) && PunctualRun(ws, steps, interval)
    ensures OnTime(ws[|steps|], interval)
  {
    hide OnTime, Apply, Enabled, Good, Start, Punctual;
    if steps == [] {
      var config: Config, db: Db, now: nat :|
        config.Valid() && Versioned(Some(db.schema)) && ws[0] == Start(config, db, now);
      StartHolds(b, config, db, now);
    } else {
      RunPrefix(b, ws, steps, play);
      RunOnTime(b, ws[..|steps|], steps[..|steps| - 1], play, interval);
      StepOnTime(b, ws[|steps| - 1], steps[|steps| - 1], play, interval);
    }
  }

  // ---------------------------------------------------------------- configuration

  /** The cooldown window and the sizes of the grant caches are the configured ones, and the sizes are kept to. */
  ghost predicate Configured(c: Cache, config: Config) {
    && c.polling.window == config.window
    && c.direct.cache.capacity == config.directSize && |c.direct.cache.entries| <= config.directSize
    && c.indirect.capacity == config.indirectSize && |c.indirect.entries| <= config.indirectSize
  }

  lemma SizeKept(e: Engine, c: Cache)
    requires Good(e, c)
    ensures |c.direct.cache.entries| <= c.direct.cache.capacity && |c.indirect.entries| <= c.indirect.capacity
  {
    OrderIsSize(c.direct.cache);
    OrderIsSize(c.indirect);
  }

  ghost predicate SameSizes(c: Cache, c': Cache) {
    && c'.polling.window == c.polling.window
    && c'.direct.cache.capacity == c.direct.cache.capacity && c'.indirect.capacity == c.indirect.capacity
  }

  lemma OperationsKeepSizes(e: Engine, c: Cache, rs: seq<Relation>, schema: Option<Schema>, clock: nat -> nat, now: nat)
    requires Good(e, c)
    ensures SameSizes(c, c) && SameSizes(c, TouchAll(c, rs)) && SameSizes(c, EnsureSchema(e, c, schema))
    ensures SameSizes(c, UpdateSchema(e, c, schema)) && SameSizes(c, CooldownElapsed(e, c, now))
    ensures SameSizes(c, AddedRelations(c, rs, clock)) && SameSizes(c, DeletedRelations(c, rs))
  {
    TouchAllEffect(e, c, rs);
    EnsureSchemaEffect(e, c, schema);
    SweepRelationsIndexes(c.direct, rs);
    hide TouchAll, SweepRelations, L.AddRelations, L.Purge, Good, SetSchema;
  }

  lemma StepKeepsSizes(b: Backend, w: World, step: Step, play: iset<Triple>)
    requires Good(b.engine, w.cache) && Enabled(b, w, step, play)
    ensures SameSizes(w.cache, Apply(b, w, step).cache)
  {
    hide Good, Insert, TouchAll, AddedRelations, DeletedRelations, Poll, CooldownElapsed, Conforms, UpdateSchema,
         EnsureSchema, Polled, Entered, L.Sane, Versioned;
    var c, none, clock: nat -> nat := w.cache, [], k => k;
    OperationsKeepSizes(b.engine, c, none, None, clock, w.now);
    match step
    case InsertRead(read) => InsertKeepsSizes(b.engine, c, read.check);
    case Serving(rs) => OperationsKeepSizes(b.engine, c, rs, None, clock, 0);
    case Load(v) => OperationsKeepSizes(b.engine, c, none, Some(w.history[v].db.schema), clock, 0);
    case SchemaWritten(dsl) => OperationsKeepSizes(b.engine, c, none, Some(Schema(dsl, "", [])), clock, 0);
    case RelationsCreated(rs, readings) => OperationsKeepSizes(b.engine, c, rs, None, readings, 0);
    case RelationsDeleted(rs) => OperationsKeepSizes(b.engine, c, rs, None, clock, 0);
    case EndPoll(remote, upto) => PollKeepsSizes(b.engine, c, w.poll.value.start, w.now, remote);
    case _ =>
  }

  lemma SizesKeepConfig(e: Engine, c: Cache, c': Cache, config: Config)
    requires Good(e, c') && SameSizes(c, c') && Configured(c, config)
    ensures Configured(c', config)
  {
    SizeKept(e, c');
  }

  lemma PollKeepsSizes(e: Engine, c: Cache, start: nat, end: nat, remote: nat -> Reply)
    requires Good(e, c)
    ensures SameSizes(c, Poll(e, c, start, end, remote))
  {
    hide Poll, NoRelations, Good, L.Cleared;
    PollOutcome(e, c, start, end, remote);
    PollByReply(e, c, start, end, remote);
  }

  lemma InsertKeepsSizes(e: Engine, c: Cache, check: Check)
    requires Good(e, c)
    ensures SameSizes(c, Insert(c, check))
  {
    GoodIsComplete(e, c);
    InsertEffect(e, c, check);
    var grant := Cacheable(c.conditions, check);
    if grant.Some? {
      AddEffect(c.direct.cache, RelationKey(check.relation), grant.value);
      AddEffect(c.indirect, RelationKey(check.relation), grant.value);
    }
    hide Insert, AddDirect, Lru.Add, Cacheable, RelationKey, Good;
  }

  /** The bounds hold for the configuration the cache was made with: window and sizes never change, and the grant
      caches never outgrow their sizes. */
  lemma {:induction false} RunKeepsConfig(b: Backend, ws: seq<World>, steps: seq<Step>, play: iset<Triple>,
                                          config: Config, db: Db, now: nat)
    requires Run(b, ws, steps, play) && ws[0] == Start(config, db, now)
    ensures Configured(ws[|steps|].cache, config)
  {
    hide Configured, SameSizes, Apply, Enabled, Good;
    if steps == [] {
      assert Configured(Start(config, db, now).cache, config) by { StartConfigured(config, db, now); }
    } else {
      hide Start;
      RunPrefix(b, ws, steps, play);
      RunKeepsConfig(b, ws[..|steps|], steps[..|steps| - 1], play, config, db, now);
      StepKeepsSizes(b, ws[|steps| - 1], steps[|steps| - 1], play);
      LastIsGood(b, ws, steps, play);
      SizesKeepConfig(b.engine, ws[|steps| - 1].cache, ws[|steps|].cache, config);
    }
  }

  lemma StartConfigured(config: Config, db: Db, now: nat)
    ensures Configured(Start(config, db, now).cache, config)
  {
  }

  /** Timed freshness bound: in every run with punctual polls and callbacks, whatever the remote replies, the
      poll time is at most the polling interval and the cooldown window back. */
  lemma TimedFreshness(b: Backend, ws: seq<World>, steps: seq<Step>, play: iset<Triple>, interval: nat)
    requires Run(b, ws, steps, play) && PunctualRun(ws, steps, interval)
    ensures var w := ws[|steps|]; w.now - w.cache.polling.lastPollTime <= interval + w.cache.polling.window
  {
    RunOnTime(b, ws, steps, play, interval);
    OnTimeIsFresh(ws[|steps|], interval);
  }
}
