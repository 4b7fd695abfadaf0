/** The values that travel between the edge cache, its callers and the authorization backend. */
module Types {

  datatype Option<+T> = None | Some(value: T)

  /** A relation as clients name it. */
  datatype Relation = Relation(resource: string, resourceType: string, relation: string,
                               target: string, targetType: string)

  /** The part of a relation that cache keys and backend answers depend on. */
  datatype Triple = Triple(resource: string, target: string, relation: string)

  function TripleOf(r: Relation): Triple {
    Triple(r.resource, r.target, r.relation)
  }

  type CondId = int

  /** What the backend says about how it reached an answer. */
  datatype Info = Info(direct: bool, conditional: bool, factUsed: bool, schemaVersion: string,
                       trueConditions: seq<CondId>, falseConditions: seq<CondId>,
                       missingContext: seq<string>, conditionalErr: string)

  datatype Check = Check(allowed: bool, relation: Relation, info: Info)

  /** The condition ids that evaluated true and false on the path that decided a grant. */
  datatype Cert = Cert(trueConds: seq<CondId>, falseConds: seq<CondId>)

  datatype Grant = Grant(allowed: bool, cond: Option<Cert>)

  datatype Param = Param(name: string, kind: string)

  datatype Condition = Condition(id: CondId, name: string, params: seq<Param>, checkedExpr: string)

  datatype Schema = Schema(dsl: string, version: string, conditions: seq<Condition>)

  /** A row of a WhatCanTargetAccess answer. */
  datatype AuthzRelation = AuthzRelation(resource: string, relationDefinition: string,
                                         namespace: string, target: string)

  /** A request context value, as decoded from the request body. */
  datatype Value = Null | Bool(b: bool) | Int(i: int) | Double(d: real) | Str(s: string) | List(vs: seq<Value>)

  type Context = map<string, Value>
}
