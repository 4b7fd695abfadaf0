/** Bounded staleness over whole runs: what the cache serves was the backend's answer no earlier than the last
    poll time. */
module Staleness {
  import opened Types
  import opened Keys
  import opened Lrus
  import opened Cel
  import opened GrantStore
  import opened CacheModel
  import opened Backends
  import opened Protocol
  import L = Lookups

  /** Version `v` was the backend's state at some time not earlier than `since`. */
  ghost predicate Recent(history: seq<Version>, v: nat, since: nat) {
    && v < |history|
    && (v + 1 < |history| ==> history[v + 1].from >= since)
  }

  /** The grant stands in a version that was current not earlier than `since`, under the loaded schema if
      serving it needs one. */
  ghost predicate FreshAt(b: Backend, history: seq<Version>, cs: Conditions, since: nat, v: nat,
                          q: Triple, g: Grant, direct: bool) {
    && Recent(history, v, since)
    && Stands(b, history[v].db, q, g, direct)
    && (g.cond.Some? ==> cs.schema == Some(history[v].db.schema))
  }

  ghost predicate Fresh(b: Backend, history: seq<Version>, cs: Conditions, since: nat,
                        q: Triple, g: Grant, direct: bool) {
    exists v: nat :: FreshAt(b, history, cs, since, v, q, g, direct)
  }

  ghost predicate AllFresh(b: Backend, w: World, play: iset<Triple>) {
    var since := w.cache.polling.lastPollTime;
    && (forall q :: q in play && KeyOf(q) in w.cache.direct.cache.entries && KeyOf(q) !in w.book.lateDirect ==>
         Fresh(b, w.history, w.cache.conditions, since, q, w.cache.direct.cache.entries[KeyOf(q)], true))
    && (forall q :: q in play && KeyOf(q) in w.cache.indirect.entries && KeyOf(q) !in w.book.lateIndirect ==>
         Fresh(b, w.history, w.cache.conditions, since, q, w.cache.indirect.entries[KeyOf(q)], false))
  }

  // ---------------------------------------------------------------- the rest of the invariant

  ghost predicate Ordered(history: seq<Version>, now: nat) {
    && history != []
    && (forall u, v :: 0 <= u <= v < |history| ==> history[u].from <= history[v].from)
    && history[|history| - 1].from <= now
  }

  ghost predicate VersionsIdentify(history: seq<Version>) {
    && (forall v :: 0 <= v < |history| ==> Versioned(Some(history[v].db.schema)))
    && (forall u, v :: 0 <= u < |history| && 0 <= v < |history| ==>
         history[u].db.schema.version == history[v].db.schema.version != "" ==>
         history[u].db.schema == history[v].db.schema)
  }

  ghost predicate InHistory(history: seq<Version>, schema: Schema) {
    exists v :: 0 <= v < |history| && history[v].db.schema == schema
  }

  ghost predicate HonestRead(b: Backend, w: World, read: Read, play: iset<Triple>) {
    && Recent(w.history, read.version, read.at) && read.at <= w.now
    && TripleOf(read.check.relation) in play
    && var v := b.answer(w.history[read.version].db, TripleOf(read.check.relation), read.context);
       read.check.allowed == v.allowed && read.check.info == v.info
  }

  ghost predicate Settled(b: Backend, w: World, play: iset<Triple>) {
    && Good(b.engine, w.cache) && Honest(w.cache.direct, play) && AllCertified(w.cache)
    && Ordered(w.history, w.now) && VersionsIdentify(w.history) && Timely(w)
    && Versioned(w.cache.conditions.schema)
    && (w.cache.conditions.version != "" ==>
         w.cache.conditions.schema.Some? && InHistory(w.history, w.cache.conditions.schema.value))
    && (forall read :: read in w.fetched ==> HonestRead(b, w, read, play))
  }

  ghost predicate Inv(b: Backend, w: World, play: iset<Triple>) {
    Settled(b, w, play) && AllFresh(b, w, play)
  }

  // ---------------------------------------------------------------- freshness carries over

  lemma FreshCarries(b: Backend, h: seq<Version>, cs: Conditions, since: nat,
                     h': seq<Version>, cs': Conditions, since': nat, q: Triple, g: Grant, direct: bool)
    requires Fresh(b, h, cs, since, q, g, direct)
    requires |h| <= |h'| && h == h'[..|h|] && since' <= since
    requires forall v :: |h| <= v < |h'| ==> h'[v].from >= since
    requires cs' == cs || g.cond.None?
    ensures Fresh(b, h', cs', since', q, g, direct)
  {
    var v: nat :| FreshAt(b, h, cs, since, v, q, g, direct);
    assert h'[v] == h[v];
    assert v + 1 < |h| ==> h'[v + 1] == h[v + 1];
    assert FreshAt(b, h', cs', since', v, q, g, direct);
  }

  /** Nothing newly cached, same history and poll time, schema kept or no conditional grant left. */
  lemma ShrinkKeepsFresh(b: Backend, w: World, w': World, play: iset<Triple>)
    requires AllFresh(b, w, play) && Shrinks(w.cache, w'.cache)
    requires w'.book.lateDirect == w.book.lateDirect && w'.book.lateIndirect == w.book.lateIndirect
    requires |w.history| <= |w'.history| && w.history == w'.history[..|w.history|]
    requires forall v :: |w.history| <= v < |w'.history| ==> w'.history[v].from >= w.cache.polling.lastPollTime
    requires w'.cache.polling.lastPollTime == w.cache.polling.lastPollTime
    requires w'.cache.conditions == w.cache.conditions || Unconditional(w'.cache)
    ensures AllFresh(b, w', play)
  {
    hide Fresh;
    var since := w.cache.polling.lastPollTime;
    forall q | q in play && KeyOf(q) in w'.cache.direct.cache.entries && KeyOf(q) !in w'.book.lateDirect
      ensures Fresh(b, w'.history, w'.cache.conditions, since, q, w'.cache.direct.cache.entries[KeyOf(q)], true)
    {
      FreshCarries(b, w.history, w.cache.conditions, since, w'.history, w'.cache.conditions, since,
                   q, w.cache.direct.cache.entries[KeyOf(q)], true);
    }
    forall q | q in play && KeyOf(q) in w'.cache.indirect.entries && KeyOf(q) !in w'.book.lateIndirect
      ensures Fresh(b, w'.history, w'.cache.conditions, since, q, w'.cache.indirect.entries[KeyOf(q)], false)
    {
      FreshCarries(b, w.history, w.cache.conditions, since, w'.history, w'.cache.conditions, since,
                   q, w.cache.indirect.entries[KeyOf(q)], false);
    }
  }

  lemma EmptyIsFresh(b: Backend, w: World, play: iset<Triple>)
    requires w.cache.direct.cache.entries == map[] && w.cache.indirect.entries == map[]
    ensures AllFresh(b, w, play) && AllCertified(w.cache)
  {
  }

  // ---------------------------------------------------------------- polls

  /** Across versions whose changes a reply names, a grant the reply does not touch keeps standing. */
  lemma {:induction false} UntouchedStands(b: Backend, history: seq<Version>, now: nat, reply: Reply,
                                           since: nat, upto: nat, v: nat, u: nat, q: Triple, g: Grant, direct: bool)
    requires Ordered(history, now) && Conforms(reply, history, since, upto)
    requires reply.Modified? && !reply.schemaChanged
    requires direct ==> q.resource !in reply.resources && q.target !in reply.targets
    requires !direct ==> reply.resources == [] && reply.targets == []
    requires v <= u <= upto < |history| && Recent(history, v, since)
    requires Stands(b, history[v].db, q, g, direct)
    ensures Stands(b, history[u].db, q, g, direct) && history[u].db.schema == history[v].db.schema
  {
    if v < u {
      UntouchedStands(b, history, now, reply, since, upto, v, u - 1, q, g, direct);
      assert history[v + 1].from <= history[u].from;
      assert ChangedSince(history, u - 1, since);
      assert Reports(reply, history[u - 1].db, history[u].db);
      UntouchedSimilar(reply, history[u - 1].db, history[u].db, q, direct);
      StandsOn(b, history[u - 1].db, history[u].db, q, g, direct);
    }
  }

  lemma UntouchedSimilar(reply: Reply, db: Db, db': Db, q: Triple, direct: bool)
    requires Reports(reply, db, db') && reply.Modified? && !reply.schemaChanged
    requires direct ==> q.resource !in reply.resources && q.target !in reply.targets
    requires !direct ==> reply.resources == [] && reply.targets == []
    ensures Similar(db, db', q, direct)
  {
    if direct {
      SparedAround(db.tuples, db'.tuples, reply.resources, reply.targets, q);
    } else {
      forall t
        ensures t in db.tuples <==> t in db'.tuples
      {
        assert t !in db.tuples - db'.tuples && t !in db'.tuples - db.tuples;
      }
    }
  }

  /** After a successful poll an untouched grant is fresh with respect to the poll's own start. */
  lemma PollRefreshes(b: Backend, w: World, reply: Reply, upto: nat, q: Triple, g: Grant, direct: bool)
    requires Ordered(w.history, w.now) && Timely(w) && w.poll.Some?
    requires w.poll.value.version <= upto < |w.history|
    requires Conforms(reply, w.history, w.cache.polling.lastPollTime, upto)
    requires reply.Modified? && !reply.schemaChanged
    requires direct ==> q.resource !in reply.resources && q.target !in reply.targets
    requires !direct ==> reply.resources == [] && reply.targets == []
    requires Fresh(b, w.history, w.cache.conditions, w.cache.polling.lastPollTime, q, g, direct)
    ensures Fresh(b, w.history, w.cache.conditions, w.poll.value.start, q, g, direct)
  {
    hide Conforms, Stands;
    var since, start, p := w.cache.polling.lastPollTime, w.poll.value.start, w.poll.value.version;
    var v: nat :| FreshAt(b, w.history, w.cache.conditions, since, v, q, g, direct);
    if v < p {
      UntouchedStands(b, w.history, w.now, reply, since, upto, v, p, q, g, direct);
      assert FreshAt(b, w.history, w.cache.conditions, start, p, q, g, direct);
    } else {
      assert FreshAt(b, w.history, w.cache.conditions, start, v, q, g, direct);
    }
  }

  /** Which grants survive a successful poll without schema change. */
  lemma PollSurvivors(b: Backend, c: Cache, start: nat, end: nat, remote: nat -> Reply, play: iset<Triple>)
    requires Good(b.engine, c) && Honest(c.direct, play) && Separates(play) && !NoRelations(c)
    requires var reply := remote(c.polling.lastPollTime); reply.Modified? && !reply.schemaChanged
    ensures var c' := Poll(b.engine, c, start, end, remote);
      var reply := remote(c.polling.lastPollTime);
      && c'.conditions == c.conditions && c'.polling.lastPollTime == start
      && (forall q :: q in play && KeyOf(q) in c'.direct.cache.entries ==>
           && KeyOf(q) in c.direct.cache.entries
           && c'.direct.cache.entries[KeyOf(q)] == c.direct.cache.entries[KeyOf(q)]
           && q.resource !in reply.resources && q.target !in reply.targets)
      && (forall k :: k in c'.indirect.entries ==>
           && k in c.indirect.entries && c'.indirect.entries[k] == c.indirect.entries[k]
           && reply.resources == [] && reply.targets == [])
  {
    hide SweepResources, SweepTargets;
    var reply := remote(c.polling.lastPollTime);
    CancelEffect(b.engine, SetPollTime(c, start));
    if reply.resources != [] || reply.targets != [] {
      PollSweeps(b.engine, c, start, end, remote, play);
      var c' := Poll(b.engine, c, start, end, remote);
      forall q | q in play && KeyOf(q) in c'.direct.cache.entries
        ensures q.resource !in reply.resources && q.target !in reply.targets
      {
        assert Located(c.direct, KeyOf(q));
        NamesKey(play, q, c.direct.components[KeyOf(q)].resource, c.direct.components[KeyOf(q)].target);
      }
    }
  }

  /** The other outcomes: nothing is left, or nothing happened to grants, schema and poll time. */
  lemma PollOtherwise(e: Engine, c: Cache, start: nat, end: nat, remote: nat -> Reply)
    requires Good(e, c) && c.polling.lastPollTime <= start <= end
    requires NoRelations(c) || var reply := remote(c.polling.lastPollTime); !reply.Modified? || reply.schemaChanged
    ensures var c' := Poll(e, c, start, end, remote);
      || (c'.direct.cache.entries == map[] && c'.indirect.entries == map[]
          && c'.conditions.schema.None? && c'.conditions.version == ""
          && c.polling.lastPollTime <= c'.polling.lastPollTime <= end)
      || (c'.direct == c.direct && c'.indirect == c.indirect && c'.conditions == c.conditions
          && c'.polling.lastPollTime == c.polling.lastPollTime)
  {
    hide Poll, NoRelations, L.Cleared, Good;
    NoRelationsIsEmpty(c);
    PollByReply(e, c, start, end, remote);
  }

  lemma EndPollKeepsFresh(b: Backend, w: World, remote: nat -> Reply, upto: nat, play: iset<Triple>)
    requires Inv(b, w, play) && Separates(play) && Enabled(b, w, EndPoll(remote, upto), play)
    ensures var w' := Apply(b, w, EndPoll(remote, upto));
      && AllFresh(b, w', play) && AllCertified(w'.cache)
      && w.cache.polling.lastPollTime <= w'.cache.polling.lastPollTime <= w.now
      && (w'.cache.conditions == w.cache.conditions
          || (w'.cache.conditions.schema.None? && w'.cache.conditions.version == ""))
  {
    hide Poll, Polled, Conforms, Fresh, Certified, Good, Honest;
    var w' := Apply(b, w, EndPoll(remote, upto));
    var start := w.poll.value.start;
    var reply := remote(w.cache.polling.lastPollTime);
    PolledKeepsLate(w, w'.cache, remote, upto);
    if NoRelations(w.cache) || !reply.Modified? || reply.schemaChanged {
      PollOtherwise(b.engine, w.cache, start, w.now, remote);
      if w'.cache.direct.cache.entries == map[] && w'.cache.indirect.entries == map[] {
        EmptyIsFresh(b, w', play);
      }
    } else {
      PollSurvivors(b, w.cache, start, w.now, remote, play);
      PollShrinks(b.engine, w.cache, start, w.now, remote);
      forall q | q in play && KeyOf(q) in w'.cache.direct.cache.entries && KeyOf(q) !in w'.book.lateDirect
        ensures Fresh(b, w'.history, w'.cache.conditions, start, q, w'.cache.direct.cache.entries[KeyOf(q)], true)
      {
        PollRefreshes(b, w, reply, upto, q, w.cache.direct.cache.entries[KeyOf(q)], true);
      }
      forall q | q in play && KeyOf(q) in w'.cache.indirect.entries && KeyOf(q) !in w'.book.lateIndirect
        ensures Fresh(b, w'.history, w'.cache.conditions, start, q, w'.cache.indirect.entries[KeyOf(q)], false)
      {
        PollRefreshes(b, w, reply, upto, q, w.cache.indirect.entries[KeyOf(q)], false);
      }
    }
  }

  lemma PolledKeepsLate(w: World, c': Cache, remote: nat -> Reply, upto: nat)
    requires w.history != [] && w.poll.Some?
    ensures var book := Polled(w, c', remote, upto);
      book.lateDirect == w.book.lateDirect && book.lateIndirect == w.book.lateIndirect && book.stamps == w.book.stamps
  {
  }

  // ---------------------------------------------------------------- inserted answers

  lemma InsertReadKeepsInv(b: Backend, w: World, read: Read, play: iset<Triple>)
    requires Contract(b) && Separates(play) && Inv(b, w, play) && Enabled(b, w, InsertRead(read), play)
    ensures Inv(b, Apply(b, w, InsertRead(read)), play)
  {
    hide Insert, AddDirect, Lru.Add, Cacheable, Contract, Honest, Certified, Stands, Fresh, Ordered, VersionsIdentify,
         InHistory, Good;
    var w' := Apply(b, w, InsertRead(read));
    var q := TripleOf(read.check.relation);
    assert HonestRead(b, w, read, play);
    InsertEffect(b.engine, w.cache, read.check);
    InsertHonest(b.engine, w.cache, read.check, play);
    assert forall r :: r in w.fetched ==> HonestRead(b, w', r, play);
    if Cacheable(w.cache.conditions, read.check).Some? {
      CacheableCertified(b.engine, w.cache, read.check);
      if read.at >= w.cache.polling.lastPollTime {
        InsertedIsFresh(b, w, read, play);
      }
      forall p | p in play && KeyOf(p) in w'.cache.direct.cache.entries && KeyOf(p) !in w'.book.lateDirect
        ensures Fresh(b, w'.history, w'.cache.conditions, w'.cache.polling.lastPollTime, p,
                      w'.cache.direct.cache.entries[KeyOf(p)], true)
      {
        assert KeyOf(p) == KeyOf(q) ==> p == q;
      }
      forall p | p in play && KeyOf(p) in w'.cache.indirect.entries && KeyOf(p) !in w'.book.lateIndirect
        ensures Fresh(b, w'.history, w'.cache.conditions, w'.cache.polling.lastPollTime, p,
                      w'.cache.indirect.entries[KeyOf(p)], false)
      {
        assert KeyOf(p) == KeyOf(q) ==> p == q;
      }
    }
  }

  /** An answer given at the poll time or later is fresh when it is inserted. */
  lemma InsertedIsFresh(b: Backend, w: World, read: Read, play: iset<Triple>)
    requires Contract(b) && Settled(b, w, play) && HonestRead(b, w, read, play)
    requires read.at >= w.cache.polling.lastPollTime
    requires Cacheable(w.cache.conditions, read.check).Some?
    ensures Fresh(b, w.history, w.cache.conditions, w.cache.polling.lastPollTime, TripleOf(read.check.relation),
                  Cacheable(w.cache.conditions, read.check).value, read.check.info.direct)
  {
    hide Stands, KeepsPromises, Honest, Good, Ordered, Timely;
    var q, db := TripleOf(read.check.relation), w.history[read.version].db;
    var g := Cacheable(w.cache.conditions, read.check).value;
    KeptGrantStands(b, w.cache.conditions, db, q, read.context, read.check);
    if g.cond.Some? {
      CacheableCertified(b.engine, w.cache, read.check);
      assert read.check.info.schemaVersion == db.schema.version;
      LoadedVersion(b, w, play);
      var v :| 0 <= v < |w.history| && w.history[v].db.schema == w.cache.conditions.schema.value;
    }
    assert FreshAt(b, w.history, w.cache.conditions, w.cache.polling.lastPollTime, read.version, q, g,
                   read.check.info.direct);
  }

  lemma LoadedVersion(b: Backend, w: World, play: iset<Triple>)
    requires Settled(b, w, play) && w.cache.conditions.version != ""
    ensures w.cache.conditions.schema.Some? && w.cache.conditions.schema.value.version == w.cache.conditions.version
  {
  }

  // ---------------------------------------------------------------- every step

  lemma ReadsSurvive(b: Backend, w: World, w': World, play: iset<Triple>)
    requires forall read :: read in w.fetched ==> HonestRead(b, w, read, play)
    requires w'.fetched == w.fetched && w'.history == w.history && w.now <= w'.now
    ensures forall read :: read in w'.fetched ==> HonestRead(b, w', read, play)
  {
  }

  lemma ReadsSurviveChange(b: Backend, w: World, db: Db, play: iset<Triple>)
    requires forall read :: read in w.fetched ==> HonestRead(b, w, read, play)
    requires w.history != [] && Good(b.engine, w.cache)
    ensures var w' := Apply(b, w, Change(db)); forall read :: read in w'.fetched ==> HonestRead(b, w', read, play)
  {
    hide Good;
    var w' := Apply(b, w, Change(db));
    forall read | read in w'.fetched
      ensures HonestRead(b, w', read, play)
    {
      assert HonestRead(b, w, read, play);
      assert w'.history[read.version] == w.history[read.version];
    }
  }

  lemma ChangeKeepsInv(b: Backend, w: World, db: Db, play: iset<Triple>)
    requires Inv(b, w, play) && Enabled(b, w, Change(db), play)
    ensures Inv(b, Apply(b, w, Change(db)), play)
  {
    hide Honest, Stands, Fresh, AllCertified, Good, Conforms, HonestRead, Ordered, VersionsIdentify, InHistory;
    var w' := Apply(b, w, Change(db));
    assert w.history == w'.history[..|w.history|];
    ShrinkKeepsFresh(b, w, w', play);
    ReadsSurviveChange(b, w, db, play);
    HistoryGrows(w, db);
  }

  lemma HistoryGrows(w: World, db: Db)
    requires Ordered(w.history, w.now) && VersionsIdentify(w.history) && Versioned(Some(db.schema))
    requires db.schema.version != "" ==>
      forall v :: 0 <= v < |w.history| && w.history[v].db.schema.version == db.schema.version ==>
        w.history[v].db.schema == db.schema
    ensures var history := w.history + [Version(db, w.now)];
      && Ordered(history, w.now) && VersionsIdentify(history)
      && (forall schema :: InHistory(w.history, schema) ==> InHistory(history, schema))
  {
    var history := w.history + [Version(db, w.now)];
    forall schema | InHistory(w.history, schema)
      ensures InHistory(history, schema)
    {
      var v :| 0 <= v < |w.history| && w.history[v].db.schema == schema;
      assert history[v].db.schema == schema;
    }
  }

  lemma AskKeepsInv(b: Backend, w: World, r: Relation, context: Context, play: iset<Triple>)
    requires Inv(b, w, play) && Enabled(b, w, Ask(r, context), play)
    ensures Inv(b, Apply(b, w, Ask(r, context)), play)
  {
    hide Honest, Stands, Fresh, AllCertified, Good, Conforms, InHistory;
    var w' := Apply(b, w, Ask(r, context));
    ShrinkKeepsFresh(b, w, w', play);
    assert HonestRead(b, w', AskedRead(b, w, r, context), play);
    forall read | read in w'.fetched
      ensures HonestRead(b, w', read, play)
    {
      assert read in w.fetched ==> HonestRead(b, w, read, play);
    }
  }

  lemma AdvanceKeepsInv(b: Backend, w: World, time: nat, play: iset<Triple>)
    requires Inv(b, w, play) && Enabled(b, w, Advance(time), play)
    ensures Inv(b, Apply(b, w, Advance(time)), play)
  {
    hide Honest, Stands, Fresh, AllCertified, Good, Conforms, InHistory;
    var w' := Apply(b, w, Advance(time));
    ShrinkKeepsFresh(b, w, w', play);
    ReadsSurvive(b, w, w', play);
  }

  /** Steps of the cache that keep history, poll time and poll state, and cache nothing new. */
  lemma QuietStepKeepsInv(b: Backend, w: World, w': World, play: iset<Triple>)
    requires Inv(b, w, play)
    requires w'.now == w.now && w'.history == w.history && w'.fetched == w.fetched
    requires w'.book.lateDirect == w.book.lateDirect && w'.book.lateIndirect == w.book.lateIndirect
    requires w'.cache.polling.lastPollTime == w.cache.polling.lastPollTime
    requires w'.poll == w.poll || w'.poll == Some(InPoll(w.now, Latest(w)))
    requires Good(b.engine, w'.cache) && Honest(w'.cache.direct, play) && Shrinks(w.cache, w'.cache)
    requires w'.cache.conditions == w.cache.conditions
             || (Unconditional(w'.cache) && Versioned(w'.cache.conditions.schema)
                 && (w'.cache.conditions.version != "" ==>
                      w'.cache.conditions.schema.Some? && InHistory(w.history, w'.cache.conditions.schema.value)))
    ensures Inv(b, w', play)
  {
    hide Honest, Stands, Fresh, Good, InHistory;
    ShrinkKeepsFresh(b, w, w', play);
    ReadsSurvive(b, w, w', play);
  }

  lemma CacheStepKeepsInv(b: Backend, w: World, step: Step, play: iset<Triple>)
    requires Inv(b, w, play) && Separates(play) && Enabled(b, w, step, play)
    requires step.Serving? || step.Load? || step.RelationsCreated? || step.RelationsDeleted? || step.LookupsChanged?
             || step.BeginPoll? || step.Fire?
    ensures Inv(b, Apply(b, w, step), play)
  {
    hide Inv, Honest, Complete, SweepRelations, TouchAll, L.AddRelations, EnsureSchema, Certified,
         SharesResourceOrTarget, Resources, Targets, KeyOf, Swept;
    InvIsSettled(b, w, play);
    var w' := Apply(b, w, step);
    match step
    case Serving(rs) =>
      TouchAllEffect(b.engine, w.cache, rs);
      HonestIgnoresRecency(w.cache.direct, w'.cache.direct, play);
      QuietStepKeepsInv(b, w, w', play);
    case Load(v) =>
      var schema := w.history[v].db.schema;
      EnsureSchemaEffect(b.engine, w.cache, Some(schema));
      LoadingIsQuiet(b, w, v, play);
      QuietStepKeepsInv(b, w, w', play);
    case RelationsCreated(rs, clock) =>
      if rs != [] {
        WritesSweep(b.engine, w.cache, rs, clock, play);
        SweptIs(w.cache.direct, w'.cache.direct, rs, play);
      }
      QuietStepKeepsInv(b, w, w', play);
    case RelationsDeleted(rs) =>
      if rs != [] {
        WritesSweep(b.engine, w.cache, rs, k => k, play);
        SweptIs(w.cache.direct, w'.cache.direct, rs, play);
      }
      QuietStepKeepsInv(b, w, w', play);
    case LookupsChanged(lookups) =>
      QuietStepKeepsInv(b, w, w', play);
    case BeginPoll =>
      QuietStepKeepsInv(b, w, w', play);
    case Fire(t) =>
      QuietStepKeepsInv(b, w, w', play);
  }

  lemma SweptIs(s: Store, s': Store, rs: seq<Relation>, play: iset<Triple>)
    requires Swept(s, s', Resources(rs), Targets(rs), play)
    ensures Honest(s', play)
    ensures forall k :: k in s'.cache.entries ==> k in s.cache.entries && s'.cache.entries[k] == s.cache.entries[k]
  {
  }

  lemma InvIsSettled(b: Backend, w: World, play: iset<Triple>)
    requires Inv(b, w, play)
    ensures Good(b.engine, w.cache) && Honest(w.cache.direct, play) && AllCertified(w.cache) && w.history != []
    ensures VersionsIdentify(w.history) && Versioned(w.cache.conditions.schema)
  {
  }

  lemma LoadingIsQuiet(b: Backend, w: World, v: nat, play: iset<Triple>)
    requires Inv(b, w, play) && v < |w.history|
    ensures var c' := EnsureSchema(b.engine, w.cache, Some(w.history[v].db.schema));
      c'.conditions == w.cache.conditions
      || (Unconditional(c') && Versioned(c'.conditions.schema)
          && c'.conditions.schema.Some? && InHistory(w.history, c'.conditions.schema.value))
  {
    hide Honest, Stands, Fresh, Good;
  }

  /** Steps that leave nothing cached. */
  lemma PurgingStepKeepsInv(b: Backend, w: World, w': World, play: iset<Triple>)
    requires Inv(b, w, play)
    requires w'.now == w.now && w'.history == w.history && w'.fetched == w.fetched && w.poll.None? && w'.poll.None?
    requires w.cache.polling.lastPollTime <= w'.cache.polling.lastPollTime <= w.now
    requires Good(b.engine, w'.cache) && Honest(w'.cache.direct, play)
    requires w'.cache.direct.cache.entries == map[] && w'.cache.indirect.entries == map[]
    requires w'.cache.conditions.version == "" && Versioned(w'.cache.conditions.schema)
    ensures Inv(b, w', play)
  {
    hide Honest, Stands, Fresh, Good, InHistory;
    EmptyIsFresh(b, w', play);
    ReadsSurvive(b, w, w', play);
  }

  lemma EndPollKeepsInv(b: Backend, w: World, remote: nat -> Reply, upto: nat, play: iset<Triple>)
    requires Inv(b, w, play) && Separates(play) && Enabled(b, w, EndPoll(remote, upto), play)
    ensures Inv(b, Apply(b, w, EndPoll(remote, upto)), play)
  {
    hide Honest, Stands, Fresh, Good, InHistory, Poll, Polled, Conforms, AllCertified, AllFresh;
    EndPollKeepsFresh(b, w, remote, upto, play);
    PollHonest(b.engine, w.cache, w.poll.value.start, w.now, remote, play);
    ReadsSurvive(b, w, Apply(b, w, EndPoll(remote, upto)), play);
  }

  lemma StepKeepsInv(b: Backend, w: World, step: Step, play: iset<Triple>)
    requires Contract(b) && Separates(play) && Inv(b, w, play) && Enabled(b, w, step, play)
    requires Good(b.engine, w.cache)
    ensures Inv(b, Apply(b, w, step), play)
  {
    hide Inv, Contract, Separates, Good, Insert, Poll, CooldownElapsed, UpdateSchema, Polled, Entered, Honest, Conforms;
    InvIsSettled(b, w, play);
    var w' := Apply(b, w, step);
    match step
    case Advance(time) => AdvanceKeepsInv(b, w, time, play);
    case Change(db) => ChangeKeepsInv(b, w, db, play);
    case Ask(r, context) => AskKeepsInv(b, w, r, context, play);
    case InsertRead(read) => InsertReadKeepsInv(b, w, read, play);
    case SchemaWritten(dsl) =>
      UpdateSchemaEffect(b.engine, w.cache, Some(Schema(dsl, "", [])));
      SchemaWrittenVersion(b.engine, w.cache, dsl);
      PollTimePast(b, w, play);
      PurgingStepKeepsInv(b, w, w', play);
    case EndPoll(remote, upto) => EndPollKeepsInv(b, w, remote, upto, play);
    case Callback(t) =>
      CooldownElapsedEffect(b.engine, w.cache, w.now);
      PollTimePast(b, w, play);
      if w.cache.polling.timer.Some? {
        PurgingStepKeepsInv(b, w, w', play);
      } else {
        QuietStepKeepsInv(b, w, w', play);
      }
    case _ => CacheStepKeepsInv(b, w, step, play);
  }

  lemma PollTimePast(b: Backend, w: World, play: iset<Triple>)
    requires Inv(b, w, play)
    ensures w.cache.polling.lastPollTime <= w.now
  {
  }

  lemma SchemaWrittenVersion(e: Engine, c: Cache, dsl: string)
    ensures var c' := UpdateSchema(e, c, Some(Schema(dsl, "", [])));
      c'.conditions.version == "" && Versioned(c'.conditions.schema)
  {
  }

  lemma StartInv(b: Backend, config: Config, db: Db, now: nat, play: iset<Triple>)
    requires config.Valid() && Versioned(Some(db.schema))
    ensures Inv(b, Start(config, db, now), play)
  {
    NewCacheGood(b.engine, config, now);
    EmptyIsFresh(b, Start(config, db, now), play);
  }

  lemma {:induction false} RunKeepsInv(b: Backend, ws: seq<World>, steps: seq<Step>, play: iset<Triple>)
    requires Contract(b) && Separates(play) && Run(b, ws, steps, play)
    ensures Inv(b, ws[|steps|], play)
  {
    hide Inv, Contract, Separates, Apply, Enabled, Good, Start;
    if steps == [] {
      var config: Config, db: Db, now: nat :|
        config.Valid() && Versioned(Some(db.schema)) && ws[0] == Start(config, db, now);
      StartInv(b, config, db, now, play);
    } else {
      RunPrefix(b, ws, steps, play);
      RunKeepsInv(b, ws[..|steps|], steps[..|steps| - 1], play);
      StepKeepsInv(b, ws[|steps| - 1], steps[|steps| - 1], play);
    }
  }

  // ---------------------------------------------------------------- the theorem

  /** Version `v` was current at some time not earlier than the last poll time, and its answer was `allowed`. */
  ghost predicate WasAnswer(b: Backend, w: World, v: nat, q: Triple, context: Context, allowed: bool) {
    && Recent(w.history, v, w.cache.polling.lastPollTime)
    && b.answer(w.history[v].db, q, context).allowed == allowed
  }

  /** The grant the cache holds for `r` was last written from an answer given before the poll time then in
      force. */
  ghost predicate Overtaken(w: World, r: Relation) {
    var found := FindGrant(w.cache, RelationKey(r));
    found.Some? && RelationKey(r) in (if found.value.1 then w.book.lateDirect else w.book.lateIndirect)
  }

  /** Bounded staleness: in every reachable world, whatever the cache serves for a relation was the backend's
      answer, for that very request context, at some time not earlier than the last poll time, unless it was
      cached from an answer older than the poll time in force when it was written. */
  lemma BoundedStaleness(b: Backend, ws: seq<World>, steps: seq<Step>, play: iset<Triple>,
                         r: Relation, context: Context)
    requires Contract(b) && Separates(play) && Run(b, ws, steps, play) && TripleOf(r) in play
    requires var w := ws[|steps|]; Serve(b.engine, w.cache, r, context).Some? && !Overtaken(w, r)
    ensures exists v: nat ::
      WasAnswer(b, ws[|steps|], v, TripleOf(r), context, Serve(b.engine, ws[|steps|].cache, r, context).value.allowed)
  {
    RunKeepsInv(b, ws, steps, play);
    ServedWasAnswer(b, ws[|steps|], play, r, context);
  }

  lemma ServedWasAnswer(b: Backend, w: World, play: iset<Triple>, r: Relation, context: Context)
    requires Inv(b, w, play) && TripleOf(r) in play
    requires Serve(b.engine, w.cache, r, context).Some? && !Overtaken(w, r)
    ensures exists v: nat ::
      WasAnswer(b, w, v, TripleOf(r), context, Serve(b.engine, w.cache, r, context).value.allowed)
  {
    hide Stands, Honest, Complete, Matches;
    var (g, direct) := FindGrant(w.cache, RelationKey(r)).value;
    var q, since := TripleOf(r), w.cache.polling.lastPollTime;
    assert Fresh(b, w.history, w.cache.conditions, since, q, g, direct);
    var v: nat :| FreshAt(b, w.history, w.cache.conditions, since, v, q, g, direct);
    StandsNow(b, w.history[v].db, q, g, direct, context);
    assert WasAnswer(b, w, v, q, context, g.allowed);
  }
}
