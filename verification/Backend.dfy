/** The authorization backend as the edge sees it: a database and a total answer function, with the
    contract its answers must meet for caching them to be sound. */
module Backends {
  import opened Types
  import opened Cel
  import opened CacheModel

  /** `facts` is state the edge never hears about. */
  datatype Db = Db(schema: Schema, tuples: set<Relation>, facts: int)

  datatype Verdict = Verdict(allowed: bool, info: Info)

  datatype Backend = Backend(engine: Engine,
                             answer: (Db, Triple, Context) -> Verdict,
                             who: (Db, string, string, string) -> seq<string>,
                             what: (Db, string) -> seq<AuthzRelation>)

  /** The tuples that share a resource or a target with `q`. */
  ghost function Around(tuples: set<Relation>, q: Triple): set<Relation> {
    set t | t in tuples && (t.resource == q.resource || t.target == q.target)
  }

  /** Databases an answer for `q` does not tell apart when it used no facts: the schema is the same, and so
      are the tuples, of which a direct answer only looks at those around `q`. */
  ghost predicate Similar(db: Db, db': Db, q: Triple, direct: bool) {
    && db.schema == db'.schema
    && (if direct then Around(db.tuples, q) == Around(db'.tuples, q) else db.tuples == db'.tuples)
  }

  ghost predicate Certifiable(info: Info) {
    && !info.factUsed
    && (info.conditional ==> info.missingContext == [] && info.conditionalErr == "")
  }

  /** The request context gives the certificate's conditions the values they had. */
  ghost predicate Reproduces(e: Engine, schema: Schema, info: Info, context: Context) {
    info.conditional ==> CertHolds(e, schema.conditions, Cert(info.trueConditions, info.falseConditions), context)
  }

  /** What an answer's info promises: without facts and without evaluation problems, the answer stands in
      every similar database and for every context that reproduces its certificate. */
  ghost predicate KeepsPromises(b: Backend) {
    forall db, q, context, db', context' ::
      var v := b.answer(db, q, context);
      && Certifiable(v.info)
      && Similar(db, db', q, v.info.direct)
      && Reproduces(b.engine, db.schema, v.info, context')
      ==> b.answer(db', q, context').allowed == v.allowed
  }

  /** Conditional answers carry the version of the schema they were reached under. */
  ghost predicate Stamps(b: Backend) {
    forall db, q, context :: b.answer(db, q, context).info.conditional ==>
      b.answer(db, q, context).info.schemaVersion == db.schema.version
  }

  ghost predicate Contract(b: Backend) {
    KeepsPromises(b) && Stamps(b)
  }

  // ---------------------------------------------------------------- grants that stand

  ghost predicate GrantApplies(e: Engine, schema: Schema, g: Grant, context: Context) {
    g.cond.Some? ==> Matches(e, CompileAll(e, schema.conditions), g.cond.value, context)
  }

  /** Wherever `g` may be served, in `db` or a database similar to it, the backend gives the same answer. */
  ghost predicate Stands(b: Backend, db: Db, q: Triple, g: Grant, direct: bool) {
    forall db', context ::
      Similar(db, db', q, direct) && GrantApplies(b.engine, db.schema, g, context)
      ==> b.answer(db', q, context).allowed == g.allowed
  }

  /** A grant that stands is the backend's answer. */
  lemma StandsNow(b: Backend, db: Db, q: Triple, g: Grant, direct: bool, context: Context)
    requires Stands(b, db, q, g, direct) && GrantApplies(b.engine, db.schema, g, context)
    ensures b.answer(db, q, context).allowed == g.allowed
  {
    assert Similar(db, db, q, direct);
  }

  /** A grant keeps standing while the database stays similar. */
  lemma StandsOn(b: Backend, db: Db, db': Db, q: Triple, g: Grant, direct: bool)
    requires Stands(b, db, q, g, direct) && Similar(db, db', q, direct)
    ensures Stands(b, db', q, g, direct)
  {
    forall db'', context | Similar(db', db'', q, direct) && GrantApplies(b.engine, db'.schema, g, context)
      ensures b.answer(db'', q, context).allowed == g.allowed
    {
      assert Similar(db, db'', q, direct);
    }
  }

  /** What the cache keeps of an answer stands in the database the answer came from, if the loaded schema is
      that database's. */
  lemma KeptGrantStands(b: Backend, cs: Conditions, db: Db, q: Triple, context: Context, check: Check)
    requires Contract(b)
    requires check.allowed == b.answer(db, q, context).allowed && check.info == b.answer(db, q, context).info
    requires Cacheable(cs, check).Some?
    ensures Stands(b, db, q, Cacheable(cs, check).value, check.info.direct)
  {
    var g := Cacheable(cs, check).value;
    var v := b.answer(db, q, context);
    forall db', context' | Similar(db, db', q, v.info.direct) && GrantApplies(b.engine, db.schema, g, context')
      ensures b.answer(db', q, context').allowed == g.allowed
    {
      if v.info.conditional {
        MatchesExactly(b.engine, db.schema.conditions, g.cond.value, context');
      }
      assert Certifiable(v.info) && Reproduces(b.engine, db.schema, v.info, context');
    }
  }

  /** A change of the database that spares the resource and target of `q` does not show in a direct answer. */
  lemma SparedAround(before: set<Relation>, after: set<Relation>, resources: seq<string>, targets: seq<string>,
                     q: Triple)
    requires forall t :: t in before - after || t in after - before ==> t.resource in resources && t.target in targets
    requires q.resource !in resources && q.target !in targets
    ensures Around(before, q) == Around(after, q)
  {
  }
}
