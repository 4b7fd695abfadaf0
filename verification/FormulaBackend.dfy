/** A backend that meets the contract: answers are boolean formulas over tuples, facts and conditions,
    evaluated with short circuits, and certificates list the conditions met on the way. */
module FormulaBackends {
  import opened Types
  import opened Cel
  import opened Backends

  datatype Formula =
    | HasTuple(resource: string, target: string, relation: string)
    | Fact(threshold: int)
    | Met(id: CondId)
    | Not(f: Formula)
    | And(f: Formula, g: Formula)
    | Or(f: Formula, g: Formula)

  /** What an evaluation found: its value, the conditions that were true and false before any negation, and
      whether it read facts or met a condition it could not evaluate. */
  datatype Trace = Trace(value: bool, trues: seq<CondId>, falses: seq<CondId>, facts: bool, stuck: bool)

  function Then(t: Trace, u: Trace): Trace {
    Trace(u.value, t.trues + u.trues, t.falses + u.falses, t.facts || u.facts, t.stuck || u.stuck)
  }

  predicate Present(tuples: set<Relation>, resource: string, target: string, relation: string) {
    exists t :: t in tuples && t.resource == resource && t.target == target && t.relation == relation
  }

  ghost function ConditionTrace(e: Engine, conditions: seq<Condition>, id: CondId, context: Context): Trace {
    if Holds(e, conditions, id, true, context) then Trace(true, [id], [], false, false)
    else if Holds(e, conditions, id, false, context) then Trace(false, [], [id], false, false)
    else Trace(false, [], [], false, true)
  }

  ghost function Run(e: Engine, conditions: seq<Condition>, db: Db, f: Formula, context: Context): Trace {
    match f
    case HasTuple(r, t, n) => Trace(Present(db.tuples, r, t, n), [], [], false, false)
    case Fact(n) => Trace(db.facts > n, [], [], true, false)
    case Met(id) => ConditionTrace(e, conditions, id, context)
    case Not(g) => var t := Run(e, conditions, db, g, context); t.(value := !t.value)
    case And(g, h) =>
      var t := Run(e, conditions, db, g, context);
      if t.value then Then(t, Run(e, conditions, db, h, context)) else t
    case Or(g, h) =>
      var t := Run(e, conditions, db, g, context);
      if t.value then t else Then(t, Run(e, conditions, db, h, context))
  }

  /** Every tuple the formula may look at shares a resource or a target with `q`. */
  predicate LooksAround(f: Formula, q: Triple) {
    match f
    case HasTuple(r, t, _) => r == q.resource || t == q.target
    case Fact(_) => true
    case Met(_) => true
    case Not(g) => LooksAround(g, q)
    case And(g, h) => LooksAround(g, q) && LooksAround(h, q)
    case Or(g, h) => LooksAround(g, q) && LooksAround(h, q)
  }

  ghost function Answer(e: Engine, rules: (Schema, Triple) -> Formula, db: Db, q: Triple, context: Context): Verdict {
    var f := rules(db.schema, q);
    var t := Run(e, db.schema.conditions, db, f, context);
    var conditional := t.trues != [] || t.falses != [] || t.stuck;
    Verdict(t.value, Info(LooksAround(f, q), conditional, t.facts, db.schema.version, t.trues, t.falses, [],
                          if t.stuck then "not evaluated" else ""))
  }

  /** Whatever formula a schema gives a relation. */
  ghost function FormulaBackend(e: Engine, rules: (Schema, Triple) -> Formula): Backend {
    Backend(e, (db, q, context) => Answer(e, rules, db, q, context), (db, r, d, n) => [], (db, t) => [])
  }

  /** A certificate pins down the evaluation: if no facts were read, no condition was stuck, the formula's
      tuples did not change and each listed condition evaluates as listed, the evaluation is the same. */
  lemma {:induction false} SameRun(e: Engine, conditions: seq<Condition>, db: Db, db': Db, f: Formula, q: Triple,
                                   context: Context, context': Context, direct: bool)
    requires var t := Run(e, conditions, db, f, context);
      && !t.facts && !t.stuck
      && AllHold(e, conditions, t.trues, true, context')
      && AllHold(e, conditions, t.falses, false, context')
    requires Similar(db, db', q, direct) && (direct ==> LooksAround(f, q))
    ensures Run(e, conditions, db', f, context') == Run(e, conditions, db, f, context)
  {
    var t := Run(e, conditions, db, f, context);
    match f
    case HasTuple(r, tg, n) =>
      SamePresence(db, db', q, direct, r, tg, n);
    case Fact(n) =>
    case Met(id) =>
      if t.value {
        assert t.trues[0] == id;
      } else {
        assert t.falses[0] == id;
        HoldsOneWay(e, conditions, id, context');
      }
    case Not(g) =>
      SameRun(e, conditions, db, db', g, q, context, context', direct);
    case And(g, h) =>
      var u, v := Run(e, conditions, db, g, context), Run(e, conditions, db, h, context);
      if u.value {
        SplitAll(e, conditions, u.trues, v.trues, true, context');
        SplitAll(e, conditions, u.falses, v.falses, false, context');
        SameRun(e, conditions, db, db', h, q, context, context', direct);
      }
      SameRun(e, conditions, db, db', g, q, context, context', direct);
    case Or(g, h) =>
      var u, v := Run(e, conditions, db, g, context), Run(e, conditions, db, h, context);
      if !u.value {
        SplitAll(e, conditions, u.trues, v.trues, true, context');
        SplitAll(e, conditions, u.falses, v.falses, false, context');
        SameRun(e, conditions, db, db', h, q, context, context', direct);
      }
      SameRun(e, conditions, db, db', g, q, context, context', direct);
  }

  ghost predicate AllHold(e: Engine, conditions: seq<Condition>, ids: seq<CondId>, want: bool, context: Context) {
    forall id :: id in ids ==> Holds(e, conditions, id, want, context)
  }

  lemma SplitAll(e: Engine, conditions: seq<Condition>, a: seq<CondId>, b: seq<CondId>, want: bool, context: Context)
    requires AllHold(e, conditions, a + b, want, context)
    ensures AllHold(e, conditions, a, want, context) && AllHold(e, conditions, b, want, context)
  {
    assert forall id :: id in a ==> id in a + b;
    assert forall id :: id in b ==> id in a + b;
  }

  lemma SamePresence(db: Db, db': Db, q: Triple, direct: bool, r: string, t: string, n: string)
    requires Similar(db, db', q, direct) && (direct ==> r == q.resource || t == q.target)
    ensures Present(db.tuples, r, t, n) == Present(db'.tuples, r, t, n)
  {
    if direct {
      forall x: Relation | x.resource == r && x.target == t
        ensures x in db.tuples <==> x in db'.tuples
      {
        assert x in db.tuples <==> x in Around(db.tuples, q);
        assert x in db'.tuples <==> x in Around(db'.tuples, q);
      }
    }
  }

  /** The contract can be met: every formula backend meets it. */
  lemma FormulaBackendMeetsContract(e: Engine, rules: (Schema, Triple) -> Formula)
    ensures Contract(FormulaBackend(e, rules))
  {
    var b := FormulaBackend(e, rules);
    forall db, q, context, db', context' |
        var v := b.answer(db, q, context);
        && Certifiable(v.info)
        && Similar(db, db', q, v.info.direct)
        && Reproduces(b.engine, db.schema, v.info, context')
      ensures b.answer(db', q, context').allowed == b.answer(db, q, context).allowed
    {
      var v := b.answer(db, q, context);
      SameRun(e, db.schema.conditions, db, db', rules(db.schema, q), q, context, context',
              v.info.direct);
    }
  }
}
