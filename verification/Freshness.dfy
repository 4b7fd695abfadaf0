/** Staleness and timing together, and exactly which inserted answers are fresh. */
module Freshness {
  import opened Types
  import opened Keys
  import opened Cel
  import opened CacheModel
  import opened Backends
  import opened Protocol
  import opened Staleness
  import opened PollingRuns
  import T = Transparency

  /** With punctual polls and callbacks a served answer was the backend's within the last polling interval and
      cooldown window: either the version it held in is still current, or that version ended no longer ago. */
  lemma ServedWithinBound(b: Backend, ws: seq<World>, steps: seq<Step>, play: iset<Triple>, interval: nat,
                          r: Relation, context: Context)
    requires Contract(b) && Separates(play) && Run(b, ws, steps, play) && TripleOf(r) in play
    requires PunctualRun(ws, steps, interval)
    requires var w := ws[|steps|]; Serve(b.engine, w.cache, r, context).Some? && !Overtaken(w, r)
    ensures var w := ws[|steps|];
      exists v: nat ::
        && WasAnswer(b, w, v, TripleOf(r), context, Serve(b.engine, w.cache, r, context).value.allowed)
        && (v + 1 < |w.history| ==> w.history[v + 1].from + interval + w.cache.polling.window >= w.now)
  {
    hide PunctualRun, Serve, Contract, Separates, Overtaken;
    BoundedStaleness(b, ws, steps, play, r, context);
    TimedFreshness(b, ws, steps, play, interval);
    var w := ws[|steps|];
    var v: nat :| WasAnswer(b, w, v, TripleOf(r), context, Serve(b.engine, w.cache, r, context).value.allowed);
    assert WasAnswer(b, w, v, TripleOf(r), context, Serve(b.engine, w.cache, r, context).value.allowed);
  }

  // ---------------------------------------------------------------- an overtaken answer

  lemma Extend(b: Backend, ws: seq<World>, steps: seq<Step>, play: iset<Triple>, step: Step)
    returns (ws': seq<World>, steps': seq<Step>)
    requires Run(b, ws, steps, play) && Enabled(b, ws[|steps|], step, play)
    ensures Run(b, ws', steps', play) && steps' == steps + [step]
    ensures Good(b.engine, ws[|steps|].cache) && ws' == ws + [Apply(b, ws[|steps|], step)]
  {
    hide Good, Apply, Start;
    LastIsGood(b, ws, steps, play);
    RunExtends(b, ws, steps, play, step);
    ws', steps' := ws + [Apply(b, ws[|steps|], step)], steps + [step];
  }

  const SILENT: nat -> Reply := (since: nat) => TooMany

  /** The database of `OneTuple` before and after its tuple is deleted. */
  function Before(a: Triple): Db {
    Db(Schema("", "", []), {T.Plainly(a)}, 0)
  }

  function After(): Db {
    Db(Schema("", "", []), {}, 0)
  }

  const TINY: Config := Config(1, 1, false, 1, 0, 0, 0)

  ghost function FetchedRead(e: Engine, a: Triple, at: nat): Read {
    var v := T.TupleBackend(e).answer(Before(a), a, T.NO_CONTEXT);
    Read(0, Check(v.allowed, T.Plainly(a), v.info), T.NO_CONTEXT, at)
  }

  /** At `p` a poll runs over an empty cache, the tuple is gone since `at`, and the answer given at `at` is
      still to be inserted. */
  ghost predicate Overtaking(e: Engine, a: Triple, at: nat, p: nat, w: World) {
    && w.history == [Version(Before(a), at), Version(After(), at)] && w.now == p
    && w.cache == NewCache(TINY, at) && w.fetched == {FetchedRead(e, a, at)} && w.poll == Some(InPoll(p, 1))
  }

  lemma UntilOvertaking(e: Engine, a: Triple, at: nat, p: nat) returns (ws: seq<World>, steps: seq<Step>)
    requires at <= p
    ensures Run(T.TupleBackend(e), ws, steps, iset{a}) && |ws| == |steps| + 1 && Overtaking(e, a, at, p, ws[|steps|])
  {
    hide Run, Good;
    var b, play, r := T.TupleBackend(e), iset{a}, T.Plainly(a);
    NewCacheGood(e, TINY, at);
    ws, steps := [Start(TINY, Before(a), at)], [];
    StartRuns(b, TINY, Before(a), at, play);
    ws, steps := Extend(b, ws, steps, play, Ask(r, T.NO_CONTEXT));
    assert ws[|steps|].fetched == {FetchedRead(e, a, at)};
    ws, steps := Extend(b, ws, steps, play, Change(After()));
    ws, steps := Extend(b, ws, steps, play, Advance(p - at));
    ws, steps := Extend(b, ws, steps, play, BeginPoll);
  }

  /** An answer given before the poll time in force at its insertion can be served although the backend gave
      no such answer at any time since that poll, whatever the two times are. The answer for `a` is given at
      `at`, when also the tuple behind it is deleted; at `p` a tick finds nothing cached and moves the poll
      time past the deletion without asking; then the answer is inserted. */
  lemma OvertakenAnswerIsStale(e: Engine, a: Triple, at: nat, p: nat)
    returns (ws: seq<World>, steps: seq<Step>, read: Read)
    requires at < p
    ensures Contract(T.TupleBackend(e)) && Run(T.TupleBackend(e), ws, steps + [InsertRead(read)], iset{a})
    ensures |ws| == |steps| + 2 && read == FetchedRead(e, a, at)
    ensures ws[|steps|].cache.polling.lastPollTime == p && Cacheable(ws[|steps|].cache.conditions, read.check).Some?
    ensures var w := ws[|steps| + 1];
      && Serve(e, w.cache, T.Plainly(a), T.NO_CONTEXT).Some?
      && FindGrant(w.cache, RelationKey(T.Plainly(a))) == Some((Grant(true, None), true))
      && (forall v: nat :: !WasAnswer(T.TupleBackend(e), w, v, a, T.NO_CONTEXT,
                                      Serve(e, w.cache, T.Plainly(a), T.NO_CONTEXT).value.allowed))
      && Overtaken(w, T.Plainly(a))
  {
    hide Good, Contract, Insert, Poll, Serve, Run, Conforms;
    var b, play := T.TupleBackend(e), iset{a};
    read := FetchedRead(e, a, at);
    T.OneTupleInitial(e, a);
    ws, steps := UntilOvertaking(e, a, at, p);
    var before := ws[|steps|];
    SilentConforms(before.history, at, 1);
    ws, steps := Extend(b, ws, steps, play, EndPoll(SILENT, 1));
    NewCacheGood(e, TINY, at);
    SkippedPoll(e, before.cache, p, SILENT);
    var polled := ws[|steps|];
    var steps': seq<Step>;
    ws, steps' := Extend(b, ws, steps, play, InsertRead(read));
    T.TupleAnswer(e, a, a);
    InsertEffect(e, polled.cache, read.check);
    ServedPlain(e, ws[|steps'|].cache, T.Plainly(a));
    AbsentTuple(e, a);
  }

  lemma SilentConforms(history: seq<Version>, since: nat, upto: nat)
    ensures Conforms(SILENT(since), history, since, upto)
  {
  }

  lemma StartRuns(b: Backend, config: Config, db: Db, now: nat, play: iset<Triple>)
    requires config.Valid() && Versioned(Some(db.schema))
    ensures Run(b, [Start(config, db, now)], [], play)
  {
  }

  lemma SkippedPoll(e: Engine, c: Cache, start: nat, remote: nat -> Reply)
    requires NoRelations(c)
    ensures Poll(e, c, start, start, remote).polling.lastPollTime == start
    ensures Poll(e, c, start, start, remote).direct == c.direct
    ensures Poll(e, c, start, start, remote).indirect == c.indirect
  {
  }

  lemma ServedPlain(e: Engine, c: Cache, r: Relation)
    requires RelationKey(r) in c.direct.cache.entries && c.direct.cache.entries[RelationKey(r)] == Grant(true, None)
    ensures Serve(e, c, r, T.NO_CONTEXT).Some? && Serve(e, c, r, T.NO_CONTEXT).value.allowed
  {
  }

  lemma AbsentTuple(e: Engine, a: Triple)
    ensures !T.TupleBackend(e).answer(After(), a, T.NO_CONTEXT).allowed
  {
  }

  // ---------------------------------------------------------------- exactly which answers are fresh

  /** Whether `r` is served from the direct grants or the indirect ones. */
  function ServedFrom(c: Cache, r: Relation): Option<bool> {
    var found := FindGrant(c, RelationKey(r));
    if found.Some? then Some(found.value.1) else None
  }

  /** If the answer is kept on the way from `w` to `w'`, then whatever the cache serves from it was the
      backend's answer at some time not earlier than the poll time. */
  ghost predicate ServesFresh(b: Backend, w: World, w': World, read: Read) {
    var r := read.check.relation;
    Cacheable(w.cache.conditions, read.check).Some? ==>
      forall context ::
        && Serve(b.engine, w'.cache, r, context).Some?
        && ServedFrom(w'.cache, r) == Some(read.check.info.direct)
        ==> exists v: nat ::
              WasAnswer(b, w', v, TripleOf(r), context, Serve(b.engine, w'.cache, r, context).value.allowed)
  }

  lemma GivenSincePollIsFresh(b: Backend, ws: seq<World>, steps: seq<Step>, play: iset<Triple>, read: Read)
    requires Contract(b) && Separates(play) && Run(b, ws, steps + [InsertRead(read)], play)
    requires read.at >= ws[|steps|].cache.polling.lastPollTime
    ensures ServesFresh(b, ws[|steps|], ws[|steps| + 1], read)
  {
    hide Serve, Insert, Contract, Separates, Good, Start, WasAnswer;
    var all, w, w', r := steps + [InsertRead(read)], ws[|steps|], ws[|steps| + 1], read.check.relation;
    RunPrefix(b, ws, all, play);
    assert all[..|steps|] == steps;
    RunKeepsInv(b, ws[..|all|], steps, play);
    RunKeepsInv(b, ws, all, play);
    assert HonestRead(b, w, read, play);
    if Cacheable(w.cache.conditions, read.check).Some? {
      forall context |
          && Serve(b.engine, w'.cache, r, context).Some?
          && ServedFrom(w'.cache, r) == Some(read.check.info.direct)
        ensures exists v: nat ::
          WasAnswer(b, w', v, TripleOf(r), context, Serve(b.engine, w'.cache, r, context).value.allowed)
      {
        ServedWasAnswer(b, w', play, r, context);
      }
    }
  }

  lemma OvertakenServesStale(e: Engine, a: Triple, ws: seq<World>, steps: seq<Step>, read: Read)
    requires |ws| == |steps| + 2 && read == FetchedRead(e, a, read.at)
    requires Cacheable(ws[|steps|].cache.conditions, read.check).Some?
    requires var w := ws[|steps| + 1];
      && Serve(e, w.cache, T.Plainly(a), T.NO_CONTEXT).Some?
      && FindGrant(w.cache, RelationKey(T.Plainly(a))) == Some((Grant(true, None), true))
      && (forall v: nat :: !WasAnswer(T.TupleBackend(e), w, v, a, T.NO_CONTEXT,
                                      Serve(e, w.cache, T.Plainly(a), T.NO_CONTEXT).value.allowed))
    ensures !ServesFresh(T.TupleBackend(e), ws[|steps|], ws[|steps| + 1], read)
  {
    hide Serve, WasAnswer;
    T.TupleAnswer(e, a, a);
  }

  /** An answer given at `at` and inserted under poll time `p` is fresh, for every backend that meets the
      contract, all relations with separate keys and every run, if and only if it was given at the poll time
      or later: even answers given while the poll was running are. */
  lemma FreshExactlyWhenGivenSincePoll(e: Engine, at: nat, p: nat)
    ensures at >= p <==>
      forall b: Backend, ws: seq<World>, steps: seq<Step>, play: iset<Triple>, read: Read ::
        && Contract(b) && Separates(play) && Run(b, ws, steps + [InsertRead(read)], play)
        && read.at == at && ws[|steps|].cache.polling.lastPollTime == p
        ==> ServesFresh(b, ws[|steps|], ws[|steps| + 1], read)
  {
    hide Contract, ServesFresh, Apply, Enabled, Good, Start;
    if at >= p {
      forall b: Backend, ws: seq<World>, steps: seq<Step>, play: iset<Triple>, read: Read
        | Contract(b) && Separates(play) && Run(b, ws, steps + [InsertRead(read)], play)
          && read.at == at && ws[|steps|].cache.polling.lastPollTime == p
        ensures ServesFresh(b, ws[|steps|], ws[|steps| + 1], read)
      {
        GivenSincePollIsFresh(b, ws, steps, play, read);
      }
    } else {
      var a := Triple("", "", "");
      var ws, steps, read := OvertakenAnswerIsStale(e, a, at, p);
      OvertakenServesStale(e, a, ws, steps, read);
      var b, play := T.TupleBackend(e), iset{a};
      assert Contract(b) && Separates(play) && Run(b, ws, steps + [InsertRead(read)], play);
      assert read.at == at && ws[|steps|].cache.polling.lastPollTime == p;
      assert !ServesFresh(b, ws[|steps|], ws[|steps| + 1], read);
    }
  }
}
