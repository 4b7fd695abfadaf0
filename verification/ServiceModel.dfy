/** The service's operations as functions on the cache value and the backend's database. */
module ServiceModel {
  import opened Types
  import opened Keys
  import opened Cel
  import opened GrantStore
  import opened CacheModel
  import opened Backends
  import L = Lookups

  /** The backend's answers, one for each relation, in order. */
  function SdkChecks(b: Backend, db: Db, rs: seq<Relation>, context: Context): (checks: seq<Check>)
    ensures |checks| == |rs|
  {
    seq(|rs|, i requires 0 <= i < |rs| =>
      var v := b.answer(db, TripleOf(rs[i]), context); Check(v.allowed, rs[i], v.info))
  }

  /** Answers with a certificate the edge could use. */
  predicate CacheableConditional(c: Check) {
    && c.info.conditional && !c.info.factUsed && c.info.missingContext == [] && c.info.conditionalErr == ""
    && (c.info.trueConditions != [] || c.info.falseConditions != [])
  }

  /** Which of the remote's endpoints answer. */
  datatype Up = Up(check: bool, load: bool, write: bool, lookup: bool)

  function LoadSchema(e: Engine, c: Cache, schema: Schema, up: Up): Cache {
    if c.conditions.schema.Some? && c.conditions.schema.value.version != "" then c
    else if up.load then EnsureSchema(e, c, Some(schema)) else c
  }

  /** The cache after the backend answered what the cache could not. */
  function Learn(e: Engine, c: Cache, schema: Schema, sdk: seq<Check>, up: Up): Cache
    requires c.direct.cache.Valid() && c.indirect.Valid()
  {
    var needed := exists i :: 0 <= i < |sdk| && CacheableConditional(sdk[i]);
    var loaded := if needed then LoadSchema(e, c, schema, up) else c;
    InsertAll(loaded, sdk)
  }

  lemma LearnGood(e: Engine, c: Cache, schema: Schema, sdk: seq<Check>, up: Up)
    requires Good(e, c)
    ensures Good(e, Learn(e, c, schema, sdk, up))
  {
    EnsureSchemaEffect(e, c, Some(schema));
    InsertAllGood(e, c, sdk);
    InsertAllGood(e, LoadSchema(e, c, schema, up), sdk);
  }

  /** The merge of served and fetched answers: position by position, the served one where there is one,
      else the next fetched one. */
  function Merge(e: Engine, c: Cache, rs: seq<Relation>, context: Context, sdk: seq<Check>): (r: seq<Check>)
    requires |sdk| >= |Unchecked(e, c, rs, context)|
    ensures |r| == |rs|
  {
    if rs == [] then []
    else
      var front, last := rs[..|rs| - 1], rs[|rs| - 1];
      var check := Serve(e, c, last, context);
      Merge(e, c, front, context, sdk) +
      [if check.Some? then check.value else sdk[|Unchecked(e, c, front, context)|]]
  }

  /** Check: the cache afterwards and the answers; None when the backend was needed and did not answer. */
  function CheckAll(b: Backend, c: Cache, db: Db, rs: seq<Relation>, context: Context, up: Up)
    : (r: (Cache, Option<seq<Check>>))
    requires Good(b.engine, c)
    ensures Good(b.engine, r.0)
  {
    TouchAllEffect(b.engine, c, rs);
    var e := b.engine;
    var c' := TouchAll(c, rs);
    var unchecked := Unchecked(e, c, rs, context);
    if unchecked == [] then (c', Some(ServedChecks(e, c, rs, context)))
    else if !up.check then (c', None)
    else
      var sdk := SdkChecks(b, db, unchecked, context);
      LearnGood(e, c', db.schema, sdk, up);
      (Learn(e, c', db.schema, sdk, up), Some(Merge(e, c, rs, context, sdk)))
  }

  // ---------------------------------------------------------------- the split and the merge

  lemma {:induction false} SplitAt(e: Engine, c: Cache, rs: seq<Relation>, context: Context, i: nat)
    requires i < |rs|
    ensures Serve(e, c, rs[i], context).None? ==>
      && |Unchecked(e, c, rs[..i], context)| < |Unchecked(e, c, rs, context)|
      && Unchecked(e, c, rs, context)[|Unchecked(e, c, rs[..i], context)|] == rs[i]
    ensures Serve(e, c, rs[i], context).Some? ==>
      && |ServedChecks(e, c, rs[..i], context)| < |ServedChecks(e, c, rs, context)|
      && ServedChecks(e, c, rs, context)[|ServedChecks(e, c, rs[..i], context)|] == Serve(e, c, rs[i], context).value
  {
    hide Serve;
    var front := rs[..|rs| - 1];
    if i < |front| {
      SplitAt(e, c, front, context, i);
      assert front[..i] == rs[..i] && front[i] == rs[i];
    }
  }

  /** The split loses nothing: a relation is found among the served or the unchecked, at the number of its kind
      before it. */
  lemma SplitInOrder(e: Engine, c: Cache, rs: seq<Relation>, context: Context)
    ensures forall i :: 0 <= i < |rs| && Serve(e, c, rs[i], context).None? ==>
      && |Unchecked(e, c, rs[..i], context)| < |Unchecked(e, c, rs, context)|
      && Unchecked(e, c, rs, context)[|Unchecked(e, c, rs[..i], context)|] == rs[i]
    ensures forall i :: 0 <= i < |rs| && Serve(e, c, rs[i], context).Some? ==>
      && |ServedChecks(e, c, rs[..i], context)| < |ServedChecks(e, c, rs, context)|
      && ServedChecks(e, c, rs, context)[|ServedChecks(e, c, rs[..i], context)|] == Serve(e, c, rs[i], context).value
  {
    forall i | 0 <= i < |rs| {
      SplitAt(e, c, rs, context, i);
    }
  }

  lemma {:induction false} SplitCounts(e: Engine, c: Cache, rs: seq<Relation>, context: Context)
    ensures |ServedChecks(e, c, rs, context)| + |Unchecked(e, c, rs, context)| == |rs|
  {
    hide Serve;
    if rs != [] {
      SplitCounts(e, c, rs[..|rs| - 1], context);
    }
  }

  /** CheckRelations partitions its input: the served and the unchecked are complementary subsequences, and
      the positions it reports are exactly those of the served ones. */
  lemma SplitIsPartition(e: Engine, c: Cache, rs: seq<Relation>, context: Context)
    ensures |ServedChecks(e, c, rs, context)| + |Unchecked(e, c, rs, context)| == |rs|
    ensures forall i: nat :: i in ServedAt(e, c, rs, context) ==>
      && i < |rs| && |ServedChecks(e, c, rs[..i], context)| < |ServedChecks(e, c, rs, context)|
      && ServedChecks(e, c, rs, context)[|ServedChecks(e, c, rs[..i], context)|] == ServedAt(e, c, rs, context)[i]
      && ServedAt(e, c, rs, context)[i].relation == rs[i]
    ensures forall i: nat :: i < |rs| && i !in ServedAt(e, c, rs, context) ==>
      && |Unchecked(e, c, rs[..i], context)| < |Unchecked(e, c, rs, context)|
      && Unchecked(e, c, rs, context)[|Unchecked(e, c, rs[..i], context)|] == rs[i]
  {
    hide ServedChecks, Unchecked;
    SplitCounts(e, c, rs, context);
    SplitInOrder(e, c, rs, context);
  }

  /** Check is an order-preserving merge: one answer per relation; a served relation gets the cache's answer
      and any other the backend's answer to that very relation. */
  lemma {:induction false} MergeInOrder(e: Engine, c: Cache, rs: seq<Relation>, context: Context, sdk: seq<Check>)
    requires |sdk| >= |Unchecked(e, c, rs, context)|
    ensures forall i :: 0 <= i < |rs| && Serve(e, c, rs[i], context).Some? ==>
      Merge(e, c, rs, context, sdk)[i] == Serve(e, c, rs[i], context).value
    ensures forall i :: 0 <= i < |rs| && Serve(e, c, rs[i], context).None? ==>
      var j := |Unchecked(e, c, rs[..i], context)|;
      j < |Unchecked(e, c, rs, context)| && Merge(e, c, rs, context, sdk)[i] == sdk[j]
  {
    SplitInOrder(e, c, rs, context);
    forall i | 0 <= i < |rs| {
      MergeAt(e, c, rs, context, sdk, i);
    }
  }

  lemma {:induction false} MergeAt(e: Engine, c: Cache, rs: seq<Relation>, context: Context, sdk: seq<Check>, i: nat)
    requires |sdk| >= |Unchecked(e, c, rs, context)| && i < |rs|
    ensures Serve(e, c, rs[i], context).Some? ==>
      Merge(e, c, rs, context, sdk)[i] == Serve(e, c, rs[i], context).value
    ensures Serve(e, c, rs[i], context).None? ==>
      var j := |Unchecked(e, c, rs[..i], context)|;
      j < |sdk| && Merge(e, c, rs, context, sdk)[i] == sdk[j]
  {
    hide Serve;
    var front := rs[..|rs| - 1];
    if i < |front| {
      MergeAt(e, c, front, context, sdk, i);
      assert front[..i] == rs[..i] && front[i] == rs[i];
    }
  }

  /** When nothing is left to fetch, the served answers are the merge. */
  lemma {:induction false} AllServedIsMerge(e: Engine, c: Cache, rs: seq<Relation>, context: Context, sdk: seq<Check>)
    requires Unchecked(e, c, rs, context) == []
    ensures ServedChecks(e, c, rs, context) == Merge(e, c, rs, context, sdk)
  {
    if rs != [] {
      AllServedIsMerge(e, c, rs[..|rs| - 1], context, sdk);
    }
  }

  /** The answer Check gives at one position. */
  function AnswerAt(b: Backend, c: Cache, db: Db, r: Relation, context: Context): Check {
    var served := Serve(b.engine, c, r, context);
    var v := b.answer(db, TripleOf(r), context);
    if served.Some? then served.value else Check(v.allowed, r, v.info)
  }

  /** Check's answers, relation by relation, whichever way they were reached. */
  lemma CheckAnswers(b: Backend, c: Cache, db: Db, rs: seq<Relation>, context: Context, up: Up)
    requires Good(b.engine, c)
    ensures var (_, answers) := CheckAll(b, c, db, rs, context, up);
      && (answers.None? <==> !up.check && exists i :: 0 <= i < |rs| && Serve(b.engine, c, rs[i], context).None?)
      && (answers.Some? ==>
           && |answers.value| == |rs|
           && forall i :: 0 <= i < |rs| ==>
                answers.value[i] == AnswerAt(b, c, db, rs[i], context) && answers.value[i].relation == rs[i])
  {
    hide InsertAll, LoadSchema, TouchAll, Learn, Unchecked, ServedChecks, Merge, Serve, AnswerAt;
    var e := b.engine;
    var unchecked := Unchecked(e, c, rs, context);
    var sdk := SdkChecks(b, db, unchecked, context);
    NothingUnchecked(e, c, rs, context);
    if unchecked == [] {
      AllServedIsMerge(e, c, rs, context, sdk);
    }
    forall i | 0 <= i < |rs| {
      MergeAnswers(b, c, db, rs, context, i);
    }
  }

  lemma MergeAnswers(b: Backend, c: Cache, db: Db, rs: seq<Relation>, context: Context, i: nat)
    requires i < |rs|
    ensures var sdk := SdkChecks(b, db, Unchecked(b.engine, c, rs, context), context);
      && Merge(b.engine, c, rs, context, sdk)[i] == AnswerAt(b, c, db, rs[i], context)
      && AnswerAt(b, c, db, rs[i], context).relation == rs[i]
  {
    hide Unchecked, ServedChecks, Merge;
    var sdk := SdkChecks(b, db, Unchecked(b.engine, c, rs, context), context);
    SplitAt(b.engine, c, rs, context, i);
    MergeAt(b.engine, c, rs, context, sdk, i);
  }

  lemma {:induction false} NothingUnchecked(e: Engine, c: Cache, rs: seq<Relation>, context: Context)
    ensures Unchecked(e, c, rs, context) == [] <==> forall i :: 0 <= i < |rs| ==> Serve(e, c, rs[i], context).Some?
  {
    hide Serve;
    if rs != [] {
      var front := rs[..|rs| - 1];
      NothingUnchecked(e, c, front, context);
      assert rs == front + [rs[|rs| - 1]];
    }
  }

  // ---------------------------------------------------------------- certificates decide the split

  /** What a cached grant serves: an unconditional one its own answer, marked direct or not; a conditional one
      its answer, marked conditional, exactly while its certificate holds under the loaded schema. */
  ghost predicate ServesAs(e: Engine, c: Cache, r: Relation, context: Context, g: Grant, direct: bool) {
    var served := Serve(e, c, r, context);
    && (g.cond.None? ==> served == Some(Check(g.allowed, r, Info(direct, false, false, "", [], [], [], ""))))
    && (g.cond.Some? ==>
         && (served.Some? <==> c.conditions.schema.Some?
                               && CertHolds(e, c.conditions.schema.value.conditions, g.cond.value, context))
         && (served.Some? ==> served.value == Check(g.allowed, r, Info(false, true, false, "", [], [], [], ""))))
  }

  /** Serving, exactly: the direct grant under the relation's key if there is one, else the indirect one, else
      nothing. Certificates count by what their conditions' code yields for the request context. */
  lemma ServedIsCached(e: Engine, c: Cache, r: Relation, context: Context)
    requires Compiled(e, c.conditions)
    ensures var k := r.resource + ":" + r.target + ":" + r.relation;
      && (k in c.direct.cache.entries ==> ServesAs(e, c, r, context, c.direct.cache.entries[k], true))
      && (k !in c.direct.cache.entries && k in c.indirect.entries ==>
           ServesAs(e, c, r, context, c.indirect.entries[k], false))
      && (k !in c.direct.cache.entries && k !in c.indirect.entries ==> Serve(e, c, r, context).None?)
  {
    hide CertHolds, Matches, CompileAll;
    var found := FindGrant(c, RelationKey(r));
    if found.Some? && found.value.0.cond.Some? {
      if c.conditions.schema.Some? {
        MatchesExactly(e, c.conditions.schema.value.conditions, found.value.0.cond.value, context);
      } else {
        NoProgramsNoMatch(e, found.value.0.cond.value, context);
      }
    }
  }

  lemma NoProgramsNoMatch(e: Engine, cert: Cert, context: Context)
    ensures !Matches(e, map[], cert, context)
  {
    var programs: Programs := map[];
    assert cert.trueConds != [] ==> cert.trueConds[0] !in programs;
    assert cert.falseConds != [] ==> cert.falseConds[0] !in programs;
  }

  /** Two contexts that agree on the parameters of every certificate involved. */
  ghost predicate AgreeOnRelations(c: Cache, rs: seq<Relation>, x: Context, y: Context) {
    forall i :: 0 <= i < |rs| ==>
      var found := FindGrant(c, RelationKey(rs[i]));
      found.Some? && found.value.0.cond.Some? ==> AgreeOnCert(c.conditions.programs, found.value.0.cond.value, x, y)
  }

  /** Serving depends on nothing in the request context but the declared parameters of the conditions
      involved: such contexts give the same split and the same served answers. */
  lemma {:induction false} SplitDependsOnParams(e: Engine, c: Cache, rs: seq<Relation>, x: Context, y: Context)
    requires AgreeOnRelations(c, rs, x, y)
    ensures ServedChecks(e, c, rs, x) == ServedChecks(e, c, rs, y)
    ensures Unchecked(e, c, rs, x) == Unchecked(e, c, rs, y)
    ensures ServedAt(e, c, rs, x) == ServedAt(e, c, rs, y)
  {
    forall i | 0 <= i < |rs|
      ensures Serve(e, c, rs[i], x) == Serve(e, c, rs[i], y)
    {
      var found := FindGrant(c, RelationKey(rs[i]));
      if found.Some? && found.value.0.cond.Some? {
        MatchDependsOnParams(e, c.conditions.programs, found.value.0.cond.value, x, y);
      }
    }
    SameServeSameSplit(e, c, rs, x, y);
  }

  lemma {:induction false} SameServeSameSplit(e: Engine, c: Cache, rs: seq<Relation>, x: Context, y: Context)
    requires forall i :: 0 <= i < |rs| ==> Serve(e, c, rs[i], x) == Serve(e, c, rs[i], y)
    ensures ServedChecks(e, c, rs, x) == ServedChecks(e, c, rs, y)
    ensures Unchecked(e, c, rs, x) == Unchecked(e, c, rs, y)
    ensures ServedAt(e, c, rs, x) == ServedAt(e, c, rs, y)
  {
    hide Serve;
    if rs != [] {
      var front := rs[..|rs| - 1];
      assert forall i :: 0 <= i < |front| ==> front[i] == rs[i];
      SameServeSameSplit(e, c, front, x, y);
    }
  }

  // ---------------------------------------------------------------- lookups

  /** Check is to be asked whether each target has the relation to the resource; the target type does not matter. */
  ghost predicate AsksAboutTargets(rs: seq<Relation>, resource: string, definition: string, namespace: string,
                                   targets: seq<string>) {
    && |rs| == |targets|
    && forall i :: 0 <= i < |rs| ==>
         rs[i] == Relation(resource := resource, resourceType := namespace, relation := definition,
                           target := targets[i], targetType := "*")
  }

  /** Check is to be asked whether the target has each row's relation to its resource. */
  ghost predicate AsksAboutRows(rs: seq<Relation>, rows: seq<AuthzRelation>, target: string) {
    && |rs| == |rows|
    && forall i :: 0 <= i < |rs| ==>
         rs[i] == Relation(resource := rows[i].resource, resourceType := rows[i].namespace,
                           relation := rows[i].relationDefinition, target := target, targetType := "*")
  }

  function WhoRelations(resource: string, definition: string, namespace: string, targets: seq<string>)
    : (rs: seq<Relation>)
    ensures AsksAboutTargets(rs, resource, definition, namespace, targets)
  {
    seq(|targets|, i requires 0 <= i < |targets| => Relation(resource, namespace, definition, targets[i], "*"))
  }

  function WhatRelations(rows: seq<AuthzRelation>, target: string): (rs: seq<Relation>)
    ensures AsksAboutRows(rs, rows, target)
  {
    seq(|rows|, i requires 0 <= i < |rows| =>
      Relation(rows[i].resource, rows[i].namespace, rows[i].relationDefinition, target, "*"))
  }

  /** The members of `xs` whose check is allowed, in order. */
  function Allowed<T>(xs: seq<T>, checks: seq<Check>): seq<T>
    requires |checks| == |xs|
  {
    if xs == [] then []
    else
      var front := Allowed(xs[..|xs| - 1], checks[..|xs| - 1]);
      if checks[|xs| - 1].allowed then front + [xs[|xs| - 1]] else front
  }

  function WhoCanAccess(b: Backend, c: Cache, db: Db, resource: string, definition: string, namespace: string,
                        context: Context, now: nat, storedAt: nat, up: Up): (r: (Cache, Option<seq<string>>))
    requires Good(b.engine, c)
    ensures Good(b.engine, r.0)
  {
    var k := WhoCanAccessKey(resource, definition, namespace);
    var cached := L.Served(c.lookups, k, now);
    L.TouchPurgeSane(c.lookups, k);
    var c1 := c.(lookups := L.Touch(c.lookups, k));
    if cached.Some? && cached.value != [] then
      var rs := WhoRelations(resource, definition, namespace, cached.value);
      var (c2, checks) := CheckAll(b, c1, db, rs, context, up);
      CheckAnswers(b, c1, db, rs, context, up);
      (c2, if checks.Some? then Some(Allowed(cached.value, checks.value)) else None)
    else if !up.lookup then (c1, None)
    else
      var targets := b.who(db, resource, definition, namespace);
      L.PutTargetsSane(c1.lookups, resource, definition, namespace, targets, storedAt);
      (c1.(lookups := L.Put(c1.lookups, k, targets, storedAt)), Some(targets))
  }

  function WhatCanTargetAccess(b: Backend, c: Cache, db: Db, target: string, context: Context,
                               now: nat, storedAt: nat, up: Up)
    : (r: (Cache, Option<seq<AuthzRelation>>))
    requires Good(b.engine, c)
    ensures Good(b.engine, r.0)
  {
    var k := WhatCanTargetAccessKey(target);
    var cached := L.ServedRows(c.lookups, target, now);
    L.TouchPurgeSane(c.lookups, k);
    var c1 := c.(lookups := L.Touch(c.lookups, k));
    if cached.Some? && cached.value != [] then
      var rs := WhatRelations(cached.value, target);
      var (c2, checks) := CheckAll(b, c1, db, rs, context, up);
      CheckAnswers(b, c1, db, rs, context, up);
      (c2, if checks.Some? then Some(Allowed(cached.value, checks.value)) else None)
    else if !up.lookup then (c1, None)
    else
      var rows := b.what(db, target);
      L.PutRowsSane(c1.lookups, target, rows, storedAt);
      (c1.(lookups := L.PutRows(c1.lookups, target, rows, storedAt)), Some(rows))
  }

  /** `ys` is the sublist of `xs` at the positions where `keep` holds: each kept position has its place. */
  ghost predicate IsSublist<T>(ys: seq<T>, xs: seq<T>, keep: seq<bool>) {
    && |keep| == |xs|
    && |ys| == Count(keep)
    && forall i :: 0 <= i < |xs| && keep[i] ==> Count(keep[..i]) < |ys| && ys[Count(keep[..i])] == xs[i]
  }

  ghost function Count(keep: seq<bool>): nat {
    if keep == [] then 0 else Count(keep[..|keep| - 1]) + (if keep[|keep| - 1] then 1 else 0)
  }

  ghost function AllowedAt(checks: seq<Check>): (keep: seq<bool>)
    ensures |keep| == |checks|
    ensures forall i :: 0 <= i < |checks| ==> keep[i] == checks[i].allowed
  {
    seq(|checks|, i requires 0 <= i < |checks| => checks[i].allowed)
  }

  lemma {:induction false} AllowedIsSublist<T>(xs: seq<T>, checks: seq<Check>)
    requires |checks| == |xs|
    ensures IsSublist(Allowed(xs, checks), xs, AllowedAt(checks))
  {
    if xs != [] {
      var keep := AllowedAt(checks);
      var n := |xs| - 1;
      AllowedIsSublist(xs[..n], checks[..n]);
      hide AllowedAt;
      assert AllowedAt(checks[..n]) == keep[..n];
      forall i | 0 <= i < n
        ensures keep[..n][..i] == keep[..i]
      {
      }
    } else {
      assert AllowedAt(checks) == [];
    }
  }

  lemma AnswerIgnoresLookups(b: Backend, c: Cache, c': Cache, db: Db, r: Relation, context: Context)
    requires c' == c.(lookups := c'.lookups)
    ensures AnswerAt(b, c', db, r, context) == AnswerAt(b, c, db, r, context)
    ensures Serve(b.engine, c', r, context) == Serve(b.engine, c, r, context)
  {
  }

  /** Which of the relations Check allows. */
  ghost function AllowedNow(b: Backend, c: Cache, db: Db, rs: seq<Relation>, context: Context): (keep: seq<bool>)
    ensures |keep| == |rs|
    ensures forall i :: 0 <= i < |rs| ==> keep[i] == AnswerAt(b, c, db, rs[i], context).allowed
  {
    seq(|rs|, i requires 0 <= i < |rs| => AnswerAt(b, c, db, rs[i], context).allowed)
  }

  /** The answer for candidates that went through Check: the allowed ones in order, or a failure when Check fails. */
  ghost predicate Filtered<T>(b: Backend, c: Cache, db: Db, xs: seq<T>, rs: seq<Relation>, context: Context, up: Up,
                              answer: Option<seq<T>>) {
    && (answer.Some? ==> IsSublist(answer.value, xs, AllowedNow(b, c, db, rs, context)))
    && (answer.None? <==> !up.check && exists i :: 0 <= i < |rs| && Serve(b.engine, c, rs[i], context).None?)
  }

  lemma CheckFilters<T>(b: Backend, c: Cache, c1: Cache, db: Db, xs: seq<T>, rs: seq<Relation>, context: Context,
                        up: Up)
    requires Good(b.engine, c1) && c1 == c.(lookups := c1.lookups) && |rs| == |xs|
    ensures var (_, checks) := CheckAll(b, c1, db, rs, context, up);
      && (checks.Some? ==> |checks.value| == |xs|)
      && Filtered(b, c, db, xs, rs, context, up, if checks.Some? then Some(Allowed(xs, checks.value)) else None)
  {
    hide CheckAll, AnswerAt, IsSublist, Allowed, AllowedAt, AllowedNow, Serve;
    CheckAnswers(b, c1, db, rs, context, up);
    var (_, checks) := CheckAll(b, c1, db, rs, context, up);
    forall i | 0 <= i < |rs| {
      AnswerIgnoresLookups(b, c, c1, db, rs[i], context);
    }
    if checks.Some? {
      AllowedIsSublist(xs, checks.value);
      assert AllowedAt(checks.value) == AllowedNow(b, c, db, rs, context);
    }
  }

  /** Lookup hits are sound for any cached candidates: what is returned is exactly the sublist of candidates
      that Check allows for this request, in order; it fails exactly when Check does, and leaves what Check leaves. */
  lemma WhoHitIsVerified(b: Backend, c: Cache, db: Db, resource: string, definition: string, namespace: string,
                         context: Context, now: nat, storedAt: nat, up: Up, rs: seq<Relation>)
    requires Good(b.engine, c) && !L.NothingLive(c.lookups, WhoCanAccessKey(resource, definition, namespace), now)
    requires var targets := L.Served(c.lookups, WhoCanAccessKey(resource, definition, namespace), now);
      targets.Some? ==> AsksAboutTargets(rs, resource, definition, namespace, targets.value)
    ensures var k := WhoCanAccessKey(resource, definition, namespace);
      var targets := L.Served(c.lookups, k, now);
      var (c', answer) := WhoCanAccess(b, c, db, resource, definition, namespace, context, now, storedAt, up);
      && targets.Some? && Filtered(b, c, db, targets.value, rs, context, up, answer)
      && Good(b.engine, c.(lookups := L.Touch(c.lookups, k)))
      && c' == CheckAll(b, c.(lookups := L.Touch(c.lookups, k)), db, rs, context, up).0
  {
    var k := WhoCanAccessKey(resource, definition, namespace);
    L.NothingLiveNotServed(c.lookups, k, now);
    hide CheckAll, Filtered, L.Served, Allowed, L.Put;
    var targets := L.Served(c.lookups, k, now).value;
    L.TouchPurgeSane(c.lookups, k);
    assert rs == WhoRelations(resource, definition, namespace, targets);
    CheckFilters(b, c, c.(lookups := L.Touch(c.lookups, k)), db, targets, rs, context, up);
  }

  lemma WhatHitIsVerified(b: Backend, c: Cache, db: Db, target: string, context: Context,
                          now: nat, storedAt: nat, up: Up, rs: seq<Relation>)
    requires Good(b.engine, c) && !L.NothingLive(c.lookups, WhatCanTargetAccessKey(target), now)
    requires var rows := L.ServedRows(c.lookups, target, now); rows.Some? ==> AsksAboutRows(rs, rows.value, target)
    ensures var k := WhatCanTargetAccessKey(target);
      var rows := L.ServedRows(c.lookups, target, now);
      var (c', answer) := WhatCanTargetAccess(b, c, db, target, context, now, storedAt, up);
      && rows.Some? && Filtered(b, c, db, rows.value, rs, context, up, answer)
      && Good(b.engine, c.(lookups := L.Touch(c.lookups, k)))
      && c' == CheckAll(b, c.(lookups := L.Touch(c.lookups, k)), db, rs, context, up).0
  {
    hide CheckAll, Filtered, L.ServedRows, L.Served, L.NothingLive, L.Touch, Allowed, L.PutRows, WhatRelations,
         Complete, Compiled, L.EncodeRows;
    var k := WhatCanTargetAccessKey(target);
    L.NothingLiveNotServed(c.lookups, k, now);
    L.SaneServesAll(c.lookups, target, now);
    L.ServedRowsNotEmpty(c.lookups, target, now);
    var rows := L.ServedRows(c.lookups, target, now).value;
    L.TouchPurgeSane(c.lookups, k);
    assert rs == WhatRelations(rows, target);
    CheckFilters(b, c, c.(lookups := L.Touch(c.lookups, k)), db, rows, rs, context, up);
  }

  /** Lookup misses ask the backend and return its list as it is, or fail if it does not answer. A list within
      the size limit is then cached for one TTL, one over it changes nothing; grants, schema and polling state
      stay. */
  lemma WhoMissFetches(b: Backend, c: Cache, db: Db, resource: string, definition: string, namespace: string,
                       context: Context, now: nat, storedAt: nat, up: Up)
    requires Good(b.engine, c) && L.NothingLive(c.lookups, WhoCanAccessKey(resource, definition, namespace), now)
    ensures var k := WhoCanAccessKey(resource, definition, namespace);
      var targets := b.who(db, resource, definition, namespace);
      var (c', answer) := WhoCanAccess(b, c, db, resource, definition, namespace, context, now, storedAt, up);
      && answer == (if up.lookup then Some(targets) else None)
      && c' == c.(lookups := c'.lookups)
      && L.SameConfig(c.lookups, c'.lookups) && L.OthersStay(c.lookups, c'.lookups, k)
      && (up.lookup && |targets| <= c.lookups.maxResult && c.lookups.Active() ==>
           forall t: nat :: L.Served(c'.lookups, k, t) == if t <= storedAt + c.lookups.ttl then Some(targets) else None)
      && (!up.lookup || |targets| > c.lookups.maxResult || !c.lookups.Active() ==>
           forall x :: c'.lookups.Find(x) == c.lookups.Find(x))
  {
    var k := WhoCanAccessKey(resource, definition, namespace);
    L.NothingLiveNotServed(c.lookups, k, now);
    hide L.Served, L.NothingLive, L.Put, L.Touch, L.OthersStay, L.SameConfig, CheckAll;
    L.MissEffect(c.lookups, k, if up.lookup then Some(b.who(db, resource, definition, namespace)) else None, storedAt);
  }

  lemma WhatMissFetches(b: Backend, c: Cache, db: Db, target: string, context: Context,
                        now: nat, storedAt: nat, up: Up)
    requires Good(b.engine, c) && L.NothingLive(c.lookups, WhatCanTargetAccessKey(target), now)
    ensures var k := WhatCanTargetAccessKey(target);
      var rows := b.what(db, target);
      var (c', answer) := WhatCanTargetAccess(b, c, db, target, context, now, storedAt, up);
      && answer == (if up.lookup then Some(rows) else None)
      && c' == c.(lookups := c'.lookups)
      && L.SameConfig(c.lookups, c'.lookups) && L.OthersStay(c.lookups, c'.lookups, k)
      && (up.lookup && |rows| <= c.lookups.maxResult && c.lookups.Active() ==>
           forall t: nat :: L.Served(c'.lookups, k, t) ==
                            if t <= storedAt + c.lookups.ttl then Some(L.EncodeRows(rows)) else None)
      && (!up.lookup || |rows| > c.lookups.maxResult || !c.lookups.Active() ==>
           forall x :: c'.lookups.Find(x) == c.lookups.Find(x))
  {
    var k := WhatCanTargetAccessKey(target);
    L.NothingLiveNotServed(c.lookups, k, now);
    L.SaneServesAll(c.lookups, target, now);
    hide L.Served, L.NothingLive, L.Put, L.Touch, L.OthersStay, L.SameConfig, CheckAll, L.ServedRows, L.EncodeRows;
    L.MissEffect(c.lookups, k, if up.lookup then Some(L.EncodeRows(b.what(db, target))) else None, storedAt);
  }
}
