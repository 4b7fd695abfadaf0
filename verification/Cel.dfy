/** Evaluation of schema conditions at the edge. Loading a checked program, coercing a value and running
    a program are foreign code: deterministic functions handed in as an `Engine`. */
module Cel {
  import opened Types

  datatype Outcome = Failed | NotBool | Result(value: bool)

  datatype Engine = Engine(loads: string -> bool,
                           coerce: (string, Value) -> Option<Value>,
                           run: (string, map<string, Value>) -> Outcome)

  datatype Program = Program(name: string, code: string, params: seq<Param>)

  /** A condition becomes a program when it carries a checked expression the engine can load. */
  function Compile(e: Engine, c: Condition): Option<Program> {
    if c.checkedExpr == "" || !e.loads(c.checkedExpr) then None
    else Some(Program(c.name, c.checkedExpr, c.params))
  }

  function Bind(e: Engine, p: Param, context: Context): Option<Value> {
    if p.name in context then e.coerce(p.kind, context[p.name]) else None
  }

  /** Every parameter bound to its coerced context value; a later parameter of the same name wins. */
  function BindAll(e: Engine, params: seq<Param>, context: Context): Option<map<string, Value>> {
    if params == [] then Some(map[])
    else
      var front := BindAll(e, params[..|params| - 1], context);
      var p := params[|params| - 1];
      var v := Bind(e, p, context);
      if front.Some? && v.Some? then Some(front.value[p.name := v.value]) else None
  }

  /** The condition's value for a request context; None when the decision is left to the backend. */
  function Evaluate(e: Engine, p: Program, context: Context): Option<bool> {
    var vars := BindAll(e, p.params, context);
    if vars.None? then None
    else match e.run(p.code, vars.value)
      case Result(b) => Some(b)
      case _ => None
  }

  // ---------------------------------------------------------------- what evaluation means

  /** Every parameter is in the context and coercible, and `vars` holds exactly the parameters' names, each with
      the coerced value of the last parameter of that name. */
  ghost predicate Binds(e: Engine, params: seq<Param>, context: Context, vars: map<string, Value>) {
    && (forall i :: 0 <= i < |params| ==>
         params[i].name in context && e.coerce(params[i].kind, context[params[i].name]).Some? && params[i].name in vars)
    && (forall n :: n in vars ==> exists i :: 0 <= i < |params| && params[i].name == n)
    && (forall i :: 0 <= i < |params| && (forall j :: i < j < |params| ==> params[j].name != params[i].name) ==>
         Some(vars[params[i].name]) == e.coerce(params[i].kind, context[params[i].name]))
  }

  /** Checked code run over the bound parameters yields `b`. */
  ghost predicate Yields(e: Engine, code: string, params: seq<Param>, context: Context, b: bool) {
    exists vars :: Binds(e, params, context, vars) && e.run(code, vars) == Result(b)
  }

  lemma BindsOnce(e: Engine, params: seq<Param>, context: Context, v: map<string, Value>, w: map<string, Value>)
    requires Binds(e, params, context, v) && Binds(e, params, context, w)
    ensures v == w
  {
    forall n | n in v
      ensures n in w && v[n] == w[n]
    {
      LastOf(params, n, |params|);
    }
  }

  /** A name that occurs has a last occurrence. */
  lemma {:induction false} LastOf(params: seq<Param>, n: string, k: nat)
    requires k <= |params| && exists i :: 0 <= i < k && params[i].name == n
    requires forall i :: k <= i < |params| ==> params[i].name != n
    ensures exists i :: 0 <= i < |params| && params[i].name == n && forall j :: i < j < |params| ==> params[j].name != n
  {
    if params[k - 1].name != n {
      LastOf(params, n, k - 1);
    }
  }

  lemma BindsNext(e: Engine, front: seq<Param>, p: Param, context: Context, vars: map<string, Value>, v: Value)
    requires Binds(e, front, context, vars) && Bind(e, p, context) == Some(v)
    ensures Binds(e, front + [p], context, vars[p.name := v])
  {
    var params, next := front + [p], vars[p.name := v];
    forall n | n in next
      ensures exists i :: 0 <= i < |params| && params[i].name == n
    {
      if n == p.name {
        assert params[|front|] == p;
      } else {
        var i :| 0 <= i < |front| && front[i].name == n;
        assert params[i].name == n;
      }
    }
    forall i | 0 <= i < |params| && (forall j :: i < j < |params| ==> params[j].name != params[i].name)
      ensures params[i].name in next
      ensures Some(next[params[i].name]) == e.coerce(params[i].kind, context[params[i].name])
    {
      if i < |front| {
        assert params[|front|] == p && params[i] == front[i];
        assert forall j :: i < j < |front| ==> front[j] == params[j];
      }
    }
  }

  lemma {:induction false} BindAllBinds(e: Engine, params: seq<Param>, context: Context)
    ensures var vars := BindAll(e, params, context); vars.Some? ==> Binds(e, params, context, vars.value)
  {
    if params != [] {
      var n := |params| - 1;
      BindAllBinds(e, params[..n], context);
      hide Binds, Bind;
      if BindAll(e, params, context).Some? {
        var v := Bind(e, params[n], context);
        BindsNext(e, params[..n], params[n], context, BindAll(e, params[..n], context).value, v.value);
        assert params == params[..n] + [params[n]];
      }
    }
  }

  lemma UnboundBindsNot(e: Engine, params: seq<Param>, context: Context, vars: map<string, Value>)
    requires BindAll(e, params, context).None?
    ensures !Binds(e, params, context, vars)
  {
    BindsAll(e, params, context);
    hide BindAll;
  }

  /** Evaluation gives `b` exactly when the program's code over the bound parameters yields `b`. */
  lemma EvaluateYields(e: Engine, p: Program, context: Context, b: bool)
    ensures Evaluate(e, p, context) == Some(b) <==> Yields(e, p.code, p.params, context, b)
  {
    hide Binds, BindAll;
    BindAllBinds(e, p.params, context);
    var vars := BindAll(e, p.params, context);
    forall w | Binds(e, p.params, context, w)
      ensures vars == Some(w)
    {
      if vars.None? {
        UnboundBindsNot(e, p.params, context, w);
      } else {
        BindsOnce(e, p.params, context, w, vars.value);
      }
    }
  }

  /** A program's value for a request context, or false, false when the decision is left to the backend. */
  method Eval(e: Engine, p: Program, context: Context) returns (pass: bool, ok: bool)
    ensures ok <==> Yields(e, p.code, p.params, context, true) || Yields(e, p.code, p.params, context, false)
    ensures ok ==> Yields(e, p.code, p.params, context, pass) && !Yields(e, p.code, p.params, context, !pass)
    ensures Evaluate(e, p, context) == if ok then Some(pass) else None
    ensures !ok ==> !pass
  {
    hide Yields;
    EvaluateYields(e, p, context, true);
    EvaluateYields(e, p, context, false);
    var vars: map<string, Value> := map[];
    for i := 0 to |p.params|
      invariant BindAll(e, p.params[..i], context) == Some(vars)
    {
      var q := p.params[i];
      assert p.params[..i + 1][..i] == p.params[..i];
      if q.name !in context {
        BindPrefix(e, p.params, i + 1, context);
        return false, false;
      }
      var v := e.coerce(q.kind, context[q.name]);
      if v.None? {
        BindPrefix(e, p.params, i + 1, context);
        return false, false;
      }
      vars := vars[q.name := v.value];
    }
    assert p.params[..|p.params|] == p.params;
    match e.run(p.code, vars)
    case Result(b) => pass, ok := b, true;
    case _ => pass, ok := false, false;
  }

  /** One unbound parameter leaves the whole list unbound. */
  lemma {:induction false} BindPrefix(e: Engine, params: seq<Param>, n: nat, context: Context)
    requires n <= |params| && BindAll(e, params[..n], context).None?
    ensures BindAll(e, params, context).None?
  {
    if n == |params| {
      assert params[..n] == params;
    } else {
      assert params[..|params| - 1][..n] == params[..n];
      BindPrefix(e, params[..|params| - 1], n, context);
    }
  }

  /** A parameter list binds exactly when each parameter does. */
  lemma {:induction false} BindsAll(e: Engine, params: seq<Param>, context: Context)
    ensures BindAll(e, params, context).Some? <==> forall i :: 0 <= i < |params| ==> Bind(e, params[i], context).Some?
  {
    if params != [] {
      var front := params[..|params| - 1];
      BindsAll(e, front, context);
      assert forall i :: 0 <= i < |front| ==> front[i] == params[i];
      if BindAll(e, params, context).None? && BindAll(e, front, context).Some? {
        assert Bind(e, params[|params| - 1], context).None?;
      }
    }
  }

  // ---------------------------------------------------------------- programs of a schema

  type Programs = map<CondId, Program>

  /** The programs of the conditions that compile; a later condition with the same id wins. */
  function CompileAll(e: Engine, conditions: seq<Condition>): Programs {
    if conditions == [] then map[]
    else
      var front := CompileAll(e, conditions[..|conditions| - 1]);
      var c := conditions[|conditions| - 1];
      match Compile(e, c)
      case Some(p) => front[c.id := p]
      case None => front
  }

  predicate Loads(e: Engine, c: Condition) {
    c.checkedExpr != "" && e.loads(c.checkedExpr)
  }

  /** The condition an id stands for: the last one with that id that loads. */
  ghost predicate Defines(e: Engine, conditions: seq<Condition>, i: nat, id: CondId) {
    && i < |conditions| && conditions[i].id == id && Loads(e, conditions[i])
    && forall j :: i < j < |conditions| && conditions[j].id == id ==> !Loads(e, conditions[j])
  }

  /** An id gets a program exactly when it stands for a condition, and then that condition's code and parameters. */
  lemma {:induction false} CompileAllExactly(e: Engine, conditions: seq<Condition>, id: CondId)
    ensures id in CompileAll(e, conditions) <==> exists i: nat :: Defines(e, conditions, i, id)
    ensures forall i: nat :: Defines(e, conditions, i, id) ==>
      && id in CompileAll(e, conditions)
      && CompileAll(e, conditions)[id].code == conditions[i].checkedExpr
      && CompileAll(e, conditions)[id].params == conditions[i].params
  {
    if conditions != [] {
      var n := |conditions| - 1;
      var front, last := conditions[..n], conditions[n];
      CompileAllExactly(e, front, id);
      assert forall i :: 0 <= i < n ==> front[i] == conditions[i];
      if last.id == id && Loads(e, last) {
        assert Defines(e, conditions, n, id);
      } else {
        assert forall i: nat :: Defines(e, conditions, i, id) <==> Defines(e, front, i, id);
      }
    }
  }

  // ---------------------------------------------------------------- certificates

  /** The condition an id stands for evaluates to `want`. */
  ghost predicate Holds(e: Engine, conditions: seq<Condition>, id: CondId, want: bool, context: Context) {
    exists i: nat :: Defines(e, conditions, i, id)
                     && Yields(e, conditions[i].checkedExpr, conditions[i].params, context, want)
  }

  /** A certificate that is not empty and whose conditions evaluate as recorded. */
  ghost predicate CertHolds(e: Engine, conditions: seq<Condition>, cert: Cert, context: Context) {
    && (cert.trueConds != [] || cert.falseConds != [])
    && (forall id :: id in cert.trueConds ==> Holds(e, conditions, id, true, context))
    && (forall id :: id in cert.falseConds ==> Holds(e, conditions, id, false, context))
  }

  lemma HoldsExactly(e: Engine, conditions: seq<Condition>, id: CondId, want: bool, context: Context)
    ensures var programs := CompileAll(e, conditions);
      Holds(e, conditions, id, want, context) <==> id in programs && Evaluate(e, programs[id], context) == Some(want)
  {
    hide Yields, Defines, CompileAll, Evaluate;
    CompileAllExactly(e, conditions, id);
    var programs := CompileAll(e, conditions);
    if id in programs {
      EvaluateYields(e, programs[id], context, want);
    }
  }

  lemma HoldsOneWay(e: Engine, conditions: seq<Condition>, id: CondId, context: Context)
    ensures !(Holds(e, conditions, id, true, context) && Holds(e, conditions, id, false, context))
  {
    hide Holds, Evaluate, CompileAll;
    HoldsExactly(e, conditions, id, true, context);
    HoldsExactly(e, conditions, id, false, context);
  }

  lemma AllInOrder(e: Engine, programs: Programs, ids: seq<CondId>, want: bool, context: Context)
    ensures AllEvaluateTo(e, programs, ids, want, context) <==>
      forall id :: id in ids ==> id in programs && Evaluate(e, programs[id], context) == Some(want)
  {
    hide Evaluate;
    if AllEvaluateTo(e, programs, ids, want, context) {
      forall id | id in ids
        ensures id in programs && Evaluate(e, programs[id], context) == Some(want)
      {
        var i :| 0 <= i < |ids| && ids[i] == id;
      }
    }
    if forall id :: id in ids ==> id in programs && Evaluate(e, programs[id], context) == Some(want) {
      forall i | 0 <= i < |ids|
        ensures ids[i] in programs && Evaluate(e, programs[ids[i]], context) == Some(want)
      {
        assert ids[i] in ids;
      }
    }
  }

  /** Certificates match exactly when they hold, in terms of the schema and the engine alone. */
  lemma MatchesExactly(e: Engine, conditions: seq<Condition>, cert: Cert, context: Context)
    ensures Matches(e, CompileAll(e, conditions), cert, context) <==> CertHolds(e, conditions, cert, context)
  {
    hide Holds, Evaluate, CompileAll;
    forall id, want
      ensures Holds(e, conditions, id, want, context) <==>
              id in CompileAll(e, conditions) && Evaluate(e, CompileAll(e, conditions)[id], context) == Some(want)
    {
      HoldsExactly(e, conditions, id, want, context);
    }
    AllInOrder(e, CompileAll(e, conditions), cert.trueConds, true, context);
    AllInOrder(e, CompileAll(e, conditions), cert.falseConds, false, context);
  }

  /** Every id has a program and the program evaluates to `want`. */
  predicate AllEvaluateTo(e: Engine, programs: Programs, ids: seq<CondId>, want: bool, context: Context) {
    forall i :: 0 <= i < |ids| ==> ids[i] in programs && Evaluate(e, programs[ids[i]], context) == Some(want)
  }

  predicate Matches(e: Engine, programs: Programs, cert: Cert, context: Context) {
    && (cert.trueConds != [] || cert.falseConds != [])
    && AllEvaluateTo(e, programs, cert.trueConds, true, context)
    && AllEvaluateTo(e, programs, cert.falseConds, false, context)
  }

  method ConditionsEvalTo(e: Engine, programs: Programs, ids: seq<CondId>, want: bool, context: Context)
    returns (r: bool)
    ensures r == AllEvaluateTo(e, programs, ids, want, context)
  {
    for i := 0 to |ids|
      invariant AllEvaluateTo(e, programs, ids[..i], want, context)
    {
      if ids[i] !in programs {
        return false;
      }
      var got, evaluated := Eval(e, programs[ids[i]], context);
      if !evaluated || got != want {
        return false;
      }
    }
    r := true;
  }

  method CertMatches(e: Engine, programs: Programs, cert: Cert, context: Context) returns (r: bool)
    ensures r == Matches(e, programs, cert, context)
  {
    if |cert.trueConds| == 0 && |cert.falseConds| == 0 {
      return false;
    }
    r := ConditionsEvalTo(e, programs, cert.trueConds, true, context);
    if r {
      r := ConditionsEvalTo(e, programs, cert.falseConds, false, context);
    }
  }

  /** Two contexts say the same about every parameter of a program. */
  ghost predicate AgreeOn(params: seq<Param>, c: Context, d: Context) {
    forall i :: 0 <= i < |params| ==>
      var n := params[i].name; (n in c <==> n in d) && (n in c ==> c[n] == d[n])
  }

  lemma {:induction false} BindDependsOnParams(e: Engine, params: seq<Param>, c: Context, d: Context)
    requires AgreeOn(params, c, d)
    ensures BindAll(e, params, c) == BindAll(e, params, d)
  {
    if params != [] {
      var front := params[..|params| - 1];
      assert forall i :: 0 <= i < |front| ==> front[i] == params[i];
      BindDependsOnParams(e, front, c, d);
    }
  }

  /** Two contexts agree on the parameters of every program a certificate names. */
  ghost predicate AgreeOnCert(programs: Programs, cert: Cert, c: Context, d: Context) {
    forall id :: (id in cert.trueConds || id in cert.falseConds) && id in programs ==>
      AgreeOn(programs[id].params, c, d)
  }

  /** Matching a certificate looks at nothing but the declared parameters of its conditions. */
  lemma MatchDependsOnParams(e: Engine, programs: Programs, cert: Cert, c: Context, d: Context)
    requires AgreeOnCert(programs, cert, c, d)
    ensures Matches(e, programs, cert, c) == Matches(e, programs, cert, d)
  {
    forall id | (id in cert.trueConds || id in cert.falseConds) && id in programs
      ensures Evaluate(e, programs[id], c) == Evaluate(e, programs[id], d)
    {
      BindDependsOnParams(e, programs[id].params, c, d);
    }
  }
}
