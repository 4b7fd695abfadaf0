/** Call metrics: the collector, interleaved recording and snapshots, and the reported payload. Counters and
    sums are 64-bit and wrap around. */
module Metrics {
  import opened Types

  const MAX64 := 0x7fff_ffff_ffff_ffff
  const TWO64 := 0x1_0000_0000_0000_0000

  /** The value a 64-bit signed integer takes for a mathematical one. */
  function Wrap(x: int): (r: int)
    ensures -MAX64 - 1 <= r <= MAX64
    ensures (r - x) % TWO64 == 0
    ensures -MAX64 - 1 <= x <= MAX64 ==> r == x
  {
    (x + MAX64 + 1) % TWO64 - MAX64 - 1
  }

  datatype Call = Call(cacheHit: bool, candidates: int, filtered: int, resultSize: int, durationMs: int)

  datatype Aggregate = Aggregate(
    hitCount: int, missCount: int, totalCalls: int,
    sumCandidates: int, sumFiltered: int, sumResultSize: int,
    sumDurationHitsMs: int, sumDurationMissesMs: int,
    minDurationHitsMs: int, maxDurationHitsMs: int, minDurationMissesMs: int, maxDurationMissesMs: int)

  const EMPTY: Aggregate := Aggregate(0, 0, 0, 0, 0, 0, 0, 0, MAX64, 0, MAX64, 0)

  function Max(a: int, b: int): int { if a > b then a else b }
  function Min(a: int, b: int): int { if a < b then a else b }

  function Accumulate(a: Aggregate, m: Call): Aggregate {
    var b := a.(totalCalls := Wrap(a.totalCalls + 1),
                sumCandidates := Wrap(a.sumCandidates + m.candidates),
                sumFiltered := Wrap(a.sumFiltered + m.filtered),
                sumResultSize := Wrap(a.sumResultSize + m.resultSize));
    if m.cacheHit then
      b.(hitCount := Wrap(b.hitCount + 1), sumDurationHitsMs := Wrap(b.sumDurationHitsMs + m.durationMs),
         minDurationHitsMs := Min(b.minDurationHitsMs, m.durationMs),
         maxDurationHitsMs := Max(b.maxDurationHitsMs, m.durationMs))
    else
      b.(missCount := Wrap(b.missCount + 1), sumDurationMissesMs := Wrap(b.sumDurationMissesMs + m.durationMs),
         minDurationMissesMs := Min(b.minDurationMissesMs, m.durationMs),
         maxDurationMissesMs := Max(b.maxDurationMissesMs, m.durationMs))
  }

  /** The aggregate of a sequence of calls. */
  function Fold(calls: seq<Call>): Aggregate {
    if calls == [] then EMPTY else Accumulate(Fold(calls[..|calls| - 1]), calls[|calls| - 1])
  }

  // ---------------------------------------------------------------- counters and sums

  datatype Field = Hits | Misses | Total | Candidates | Filtered | ResultSize | HitMs | MissMs

  function Get(a: Aggregate, f: Field): int {
    match f
    case Hits => a.hitCount
    case Misses => a.missCount
    case Total => a.totalCalls
    case Candidates => a.sumCandidates
    case Filtered => a.sumFiltered
    case ResultSize => a.sumResultSize
    case HitMs => a.sumDurationHitsMs
    case MissMs => a.sumDurationMissesMs
  }

  /** What one call adds to a field. */
  function Adds(m: Call, f: Field): int {
    match f
    case Hits => if m.cacheHit then 1 else 0
    case Misses => if m.cacheHit then 0 else 1
    case Total => 1
    case Candidates => m.candidates
    case Filtered => m.filtered
    case ResultSize => m.resultSize
    case HitMs => if m.cacheHit then m.durationMs else 0
    case MissMs => if m.cacheHit then 0 else m.durationMs
  }

  function Sum(calls: seq<Call>, f: Field): int {
    if calls == [] then 0 else Sum(calls[..|calls| - 1], f) + Adds(calls[|calls| - 1], f)
  }

  lemma {:induction false} SumConcat(a: seq<Call>, b: seq<Call>, f: Field)
    ensures Sum(a + b, f) == Sum(a, f) + Sum(b, f)
  {
    if b == [] {
      assert a + b == a;
    } else {
      assert (a + b)[..|a + b| - 1] == a + b[..|b| - 1];
      SumConcat(a, b[..|b| - 1], f);
    }
  }

  lemma WrapAdd(x: int, y: int)
    ensures Wrap(Wrap(x) + y) == Wrap(x + y)
  {
    var d := Wrap(x) - x;
    assert d % TWO64 == 0;
    assert Wrap(x) + y == x + y + d;
  }

  lemma AccumulateAdds(a: Aggregate, m: Call, f: Field, x: int)
    requires Get(a, f) == Wrap(x)
    ensures Get(Accumulate(a, m), f) == Wrap(x + Adds(m, f))
  {
    WrapAdd(x, Adds(m, f));
    hide Wrap;
  }

  /** Every counter and sum of an aggregate is the total over its calls, as a 64-bit value. */
  lemma {:induction false} FoldIsSum(calls: seq<Call>, f: Field)
    ensures Get(Fold(calls), f) == Wrap(Sum(calls, f))
  {
    if calls != [] {
      var front, last := calls[..|calls| - 1], calls[|calls| - 1];
      FoldIsSum(front, f);
      AccumulateAdds(Fold(front), last, f, Sum(front, f));
      hide Get, Accumulate, Wrap, Adds;
    }
  }

  // ---------------------------------------------------------------- interleaved recording and snapshots

  type Live = map<string, map<string, Aggregate>>

  function Recorded(live: Live, project: string, api: string, m: Call): Live {
    var byAPI := if project in live then live[project] else map[];
    live[project := byAPI[api := Accumulate(if api in byAPI then byAPI[api] else EMPTY, m)]]
  }

  /** Each step holds one project's lock: a call is recorded, or that project is copied and reset. */
  datatype Step = Record(project: string, api: string, call: Call) | Snap(project: string)

  datatype Snapshot = Snapshot(project: string, byAPI: map<string, Aggregate>)

  datatype State = State(live: Live, taken: seq<Snapshot>)

  function Apply(s: State, step: Step): State {
    match step
    case Record(p, api, m) => s.(live := Recorded(s.live, p, api, m))
    case Snap(p) =>
      if p in s.live && s.live[p] != map[] then State(s.live[p := map[]], s.taken + [Snapshot(p, s.live[p])]) else s
  }

  function Exec(steps: seq<Step>): State {
    if steps == [] then State(map[], []) else Apply(Exec(steps[..|steps| - 1]), steps[|steps| - 1])
  }

  function CallsOf(steps: seq<Step>, p: string, api: string): seq<Call> {
    if steps == [] then []
    else
      var front, step := CallsOf(steps[..|steps| - 1], p, api), steps[|steps| - 1];
      if step.Record? && step.project == p && step.api == api then front + [step.call] else front
  }

  /** The calls between the snapshots of a project, and those since the last one. */
  function Segments(steps: seq<Step>, p: string, api: string): (seq<seq<Call>>, seq<Call>) {
    if steps == [] then ([], [])
    else
      var (closed, open) := Segments(steps[..|steps| - 1], p, api);
      match steps[|steps| - 1]
      case Record(p', api', m) => (closed, if p' == p && api' == api then open + [m] else open)
      case Snap(p') => if p' == p && open != [] then (closed + [open], []) else (closed, open)
  }

  function Flatten(segments: seq<seq<Call>>): seq<Call> {
    if segments == [] then [] else Flatten(segments[..|segments| - 1]) + segments[|segments| - 1]
  }

  function Folds(segments: seq<seq<Call>>): seq<Aggregate> {
    if segments == [] then [] else Folds(segments[..|segments| - 1]) + [Fold(segments[|segments| - 1])]
  }

  /** The aggregates of one API in the snapshots taken of a project. */
  function TakenOf(taken: seq<Snapshot>, p: string, api: string): seq<Aggregate> {
    if taken == [] then []
    else
      var front, last := TakenOf(taken[..|taken| - 1], p, api), taken[|taken| - 1];
      if last.project == p && api in last.byAPI then front + [last.byAPI[api]] else front
  }

  function LiveOf(live: Live, p: string, api: string): Option<Aggregate> {
    if p in live && api in live[p] then Some(live[p][api]) else None
  }

  /** What the snapshots and the live aggregates hold is the folds of consecutive pieces of the calls. */
  ghost predicate Accounted(s: State, segments: (seq<seq<Call>>, seq<Call>), p: string, api: string) {
    && TakenOf(s.taken, p, api) == Folds(segments.0)
    && LiveOf(s.live, p, api) == (if segments.1 == [] then None else Some(Fold(segments.1)))
  }

  lemma FoldNext(calls: seq<Call>, m: Call)
    ensures Fold(calls + [m]) == Accumulate(Fold(calls), m) && Fold([]) == EMPTY
  {
    assert (calls + [m])[..|calls|] == calls;
  }

  lemma RecordAccounted(s: State, closed: seq<seq<Call>>, open: seq<Call>, p: string, api: string, step: Step)
    requires Accounted(s, (closed, open), p, api) && step.Record?
    ensures var open' := if step.project == p && step.api == api then open + [step.call] else open;
      Accounted(Apply(s, step), (closed, open'), p, api)
  {
    hide TakenOf, Folds, Accumulate, Fold;
    FoldNext(open, step.call);
  }

  lemma SnapAccounted(s: State, closed: seq<seq<Call>>, open: seq<Call>, p: string, api: string, step: Step)
    requires Accounted(s, (closed, open), p, api) && step.Snap?
    ensures var segments := if step.project == p && open != [] then (closed + [open], []) else (closed, open);
      Accounted(Apply(s, step), segments, p, api)
  {
    hide Fold;
    SnapProject(s, step.project);
    assert (closed + [open])[..|closed|] == closed;
  }

  lemma {:induction false} PiecesAreCalls(steps: seq<Step>, p: string, api: string)
    ensures var (closed, open) := Segments(steps, p, api); Flatten(closed) + open == CallsOf(steps, p, api)
  {
    if steps != [] {
      var front, step := steps[..|steps| - 1], steps[|steps| - 1];
      PiecesAreCalls(front, p, api);
      var (closed, open) := Segments(front, p, api);
      assert (closed + [open])[..|closed|] == closed;
      assert step.Record? ==> Flatten(closed) + (open + [step.call]) == Flatten(closed) + open + [step.call];
    }
  }

  /** Over any interleaving every recorded call is in exactly one aggregate, in order: the snapshots of a
      project and its live aggregate are the folds of consecutive pieces of its calls. */
  lemma {:induction false} EveryCallCountedOnce(steps: seq<Step>, p: string, api: string)
    ensures var (closed, open) := Segments(steps, p, api);
      Flatten(closed) + open == CallsOf(steps, p, api) && Accounted(Exec(steps), (closed, open), p, api)
  {
    PiecesAreCalls(steps, p, api);
    if steps != [] {
      var front, step := steps[..|steps| - 1], steps[|steps| - 1];
      EveryCallCountedOnce(front, p, api);
      var (closed, open) := Segments(front, p, api);
      hide Accounted, Apply;
      if step.Record? {
        RecordAccounted(Exec(front), closed, open, p, api, step);
      } else {
        SnapAccounted(Exec(front), closed, open, p, api, step);
      }
    }
  }

  function SumOver(aggregates: seq<Aggregate>, f: Field): int {
    if aggregates == [] then 0 else SumOver(aggregates[..|aggregates| - 1], f) + Get(aggregates[|aggregates| - 1], f)
  }

  function LiveValue(live: Live, p: string, api: string, f: Field): int {
    match LiveOf(live, p, api)
    case Some(a) => Get(a, f)
    case None => 0
  }

  lemma {:induction false} FoldsCongruent(segments: seq<seq<Call>>, f: Field)
    ensures (SumOver(Folds(segments), f) - Sum(Flatten(segments), f)) % TWO64 == 0
  {
    hide Wrap;
    if segments != [] {
      var front, last := segments[..|segments| - 1], segments[|segments| - 1];
      FoldsCongruent(front, f);
      FoldIsSum(last, f);
      SumConcat(Flatten(front), last, f);
      assert Folds(segments)[..|Folds(segments)| - 1] == Folds(front);
    }
  }

  lemma AddCongruent(a: int, a': int, b: int, b': int)
    requires (a - a') % TWO64 == 0 && (b - b') % TWO64 == 0
    ensures (a + b - (a' + b')) % TWO64 == 0
  {
    assert a + b - (a' + b') == (a - a') + (b - b');
  }

  /** Conservation across resets: for every project and API, each counter and sum over all snapshots plus the
      live aggregate is the total over all recorded calls, up to 64-bit wrap-around. */
  lemma Conservation(steps: seq<Step>, p: string, api: string, f: Field)
    ensures var s := Exec(steps);
      var counted := SumOver(TakenOf(s.taken, p, api), f) + LiveValue(s.live, p, api, f);
      (counted - Sum(CallsOf(steps, p, api), f)) % TWO64 == 0
  {
    hide Exec, TakenOf, Segments, Folds, Flatten, Sum, SumOver, CallsOf, Fold, LiveOf, Get;
    var (closed, open) := Segments(steps, p, api);
    EveryCallCountedOnce(steps, p, api);
    FoldsCongruent(closed, f);
    SumConcat(Flatten(closed), open, f);
    var s := Exec(steps);
    LiveCongruent(s, (closed, open), p, api, f);
    AddCongruent(SumOver(Folds(closed), f), Sum(Flatten(closed), f), LiveValue(s.live, p, api, f), Sum(open, f));
  }

  lemma LiveCongruent(s: State, segments: (seq<seq<Call>>, seq<Call>), p: string, api: string, f: Field)
    requires Accounted(s, segments, p, api)
    ensures LiveValue(s.live, p, api, f) == Wrap(Sum(segments.1, f))
    ensures (LiveValue(s.live, p, api, f) - Sum(segments.1, f)) % TWO64 == 0
  {
    FoldIsSum(segments.1, f);
    hide Wrap, Fold, TakenOf, Folds, LiveOf, Get;
    assert segments.1 == [] ==> Sum(segments.1, f) == 0;
  }

  lemma {:induction false} SumNonNegative(calls: seq<Call>, f: Field)
    requires forall i :: 0 <= i < |calls| ==> Adds(calls[i], f) >= 0
    ensures Sum(calls, f) >= 0
  {
    if calls != [] {
      SumNonNegative(calls[..|calls| - 1], f);
    }
  }

  lemma {:induction false} FoldsExact(segments: seq<seq<Call>>, f: Field)
    requires forall m :: m in Flatten(segments) ==> Adds(m, f) >= 0
    requires Sum(Flatten(segments), f) <= MAX64
    ensures SumOver(Folds(segments), f) == Sum(Flatten(segments), f) && Sum(Flatten(segments), f) >= 0
  {
    if segments != [] {
      var front, last := segments[..|segments| - 1], segments[|segments| - 1];
      assert Flatten(segments) == Flatten(front) + last;
      SumConcat(Flatten(front), last, f);
      SumNonNegative(Flatten(front), f);
      SumNonNegative(last, f);
      FoldsExact(front, f);
      FoldIsSum(last, f);
      assert Folds(segments)[..|Folds(segments)| - 1] == Folds(front);
    }
  }

  /** While the true total fits, conservation is exact. */
  lemma ConservationExact(steps: seq<Step>, p: string, api: string, f: Field)
    requires forall m :: m in CallsOf(steps, p, api) ==> Adds(m, f) >= 0
    requires Sum(CallsOf(steps, p, api), f) <= MAX64
    ensures var s := Exec(steps);
      SumOver(TakenOf(s.taken, p, api), f) + LiveValue(s.live, p, api, f) == Sum(CallsOf(steps, p, api), f)
  {
    var (closed, open) := Segments(steps, p, api);
    EveryCallCountedOnce(steps, p, api);
    SumConcat(Flatten(closed), open, f);
    SumNonNegative(Flatten(closed), f);
    SumNonNegative(open, f);
    FoldsExact(closed, f);
    LiveCongruent(Exec(steps), (closed, open), p, api, f);
  }

  lemma {:induction false} CountsOfCalls(calls: seq<Call>)
    ensures Sum(calls, Total) == |calls| == Sum(calls, Hits) + Sum(calls, Misses)
    ensures Sum(calls, Hits) >= 0 && Sum(calls, Misses) >= 0
  {
    if calls != [] {
      CountsOfCalls(calls[..|calls| - 1]);
    }
  }

  /** In every aggregate hits and misses make up the calls: as 64-bit values always, and as they stand below
      2^63 calls. */
  lemma HitsAndMisses(calls: seq<Call>)
    ensures Wrap(Fold(calls).hitCount + Fold(calls).missCount) == Fold(calls).totalCalls
    ensures |calls| <= MAX64 ==> Fold(calls).hitCount + Fold(calls).missCount == Fold(calls).totalCalls == |calls|
  {
    CountsOfCalls(calls);
    FoldIsSum(calls, Hits);
    FoldIsSum(calls, Misses);
    FoldIsSum(calls, Total);
    WrapAdd(Sum(calls, Hits), Wrap(Sum(calls, Misses)));
    WrapAdd(Sum(calls, Misses), Sum(calls, Hits));
    hide Wrap, Fold, Sum;
  }

  // ---------------------------------------------------------------- the collector

  class Collector {
    var projects: Live

    constructor ()
      ensures projects == map[]
    {
      projects := map[];
    }

    method GetOrCreateProjectMetrics(projectID: string)
      modifies this
      ensures projects == if projectID in old(projects) then old(projects) else old(projects)[projectID := map[]]
    {
      if projectID !in projects {
        projects := projects[projectID := map[]];
      }
    }

    method Record(projectID: string, api: string, m: Call)
      modifies this
      ensures projects == Recorded(old(projects), projectID, api, m)
    {
      hide Wrap;
      GetOrCreateProjectMetrics(projectID);
      var byAPI := projects[projectID];
      var agg := if api in byAPI then byAPI[api] else EMPTY;
      agg := agg.(totalCalls := Wrap(agg.totalCalls + 1));
      agg := agg.(sumCandidates := Wrap(agg.sumCandidates + m.candidates));
      agg := agg.(sumFiltered := Wrap(agg.sumFiltered + m.filtered));
      agg := agg.(sumResultSize := Wrap(agg.sumResultSize + m.resultSize));
      if m.cacheHit {
        agg := agg.(hitCount := Wrap(agg.hitCount + 1));
        agg := agg.(sumDurationHitsMs := Wrap(agg.sumDurationHitsMs + m.durationMs));
        if m.durationMs < agg.minDurationHitsMs {
          agg := agg.(minDurationHitsMs := m.durationMs);
        }
        if m.durationMs > agg.maxDurationHitsMs {
          agg := agg.(maxDurationHitsMs := m.durationMs);
        }
      } else {
        agg := agg.(missCount := Wrap(agg.missCount + 1));
        agg := agg.(sumDurationMissesMs := Wrap(agg.sumDurationMissesMs + m.durationMs));
        if m.durationMs < agg.minDurationMissesMs {
          agg := agg.(minDurationMissesMs := m.durationMs);
        }
        if m.durationMs > agg.maxDurationMissesMs {
          agg := agg.(maxDurationMissesMs := m.durationMs);
        }
      }
      projects := projects[projectID := byAPI[api := agg]];
    }

    /** Copies and resets every project that has something recorded, in no particular order. */
    method SnapshotAndReset() returns (snapshot: Live)
      modifies this
      ensures snapshot == map p | p in old(projects) && old(projects)[p] != map[] :: old(projects)[p]
      ensures projects == map p | p in old(projects) :: map[]
    {
      snapshot := map[];
      var todo := projects.Keys;
      while todo != {}
        invariant todo <= old(projects).Keys && projects.Keys == old(projects).Keys
        invariant forall p :: p in projects ==> projects[p] == if p in todo then old(projects)[p] else map[]
        invariant snapshot == map p | p in old(projects) && p !in todo && old(projects)[p] != map[] :: old(projects)[p]
        decreases todo
      {
        var p :| p in todo;
        todo := todo - {p};
        if projects[p] != map[] {
          snapshot := snapshot[p := projects[p]];
          projects := projects[p := map[]];
        }
      }
    }
  }

  /** A whole snapshot is one `Snap` step for each project: it takes what they take and leaves what they leave. */
  lemma SnapProject(s: State, p: string)
    ensures var s' := Apply(s, Snap(p));
      && (forall q, api :: LiveOf(s'.live, q, api) == if q == p then None else LiveOf(s.live, q, api))
      && (forall q, api :: TakenOf(s'.taken, q, api) ==
            TakenOf(s.taken, q, api) +
            (if q == p && LiveOf(s.live, p, api).Some? then [LiveOf(s.live, p, api).value] else []))
  {
    var s' := Apply(s, Snap(p));
    if p in s.live && s.live[p] != map[] {
      assert s'.taken[..|s'.taken| - 1] == s.taken;
    }
    forall q, api ensures TakenOf(s.taken, q, api) + [] == TakenOf(s.taken, q, api) {
      assert TakenOf(s.taken, q, api) + [] == TakenOf(s.taken, q, api);
    }
  }

  // ---------------------------------------------------------------- the payload

  datatype Payload = Payload(
    api: string, hitCount: int, missCount: int, totalCalls: int,
    avgHitCandidates: real, avgHitFiltered: real, avgResultSize: real,
    avgDurationMs: int, minDurationMs: int, maxDurationMs: int,
    avgDurationHitMs: int, minDurationHitMs: int, maxDurationHitMs: int,
    avgDurationMissMs: int, minDurationMissMs: int, maxDurationMissMs: int)

  /** Integer division truncating toward zero. */
  function Quotient(a: int, b: int): int
    requires b > 0
  {
    if a >= 0 then a / b else -((-a) / b)
  }

  method BuildPayload(api: string, agg: Aggregate) returns (p: Payload)
    ensures p.api == api && p.hitCount == agg.hitCount && p.missCount == agg.missCount && p.totalCalls == agg.totalCalls
    ensures p.avgDurationMs ==
      if agg.totalCalls > 0 then Quotient(Wrap(agg.sumDurationHitsMs + agg.sumDurationMissesMs), agg.totalCalls) else 0
    ensures p.avgResultSize == if agg.totalCalls > 0 then agg.sumResultSize as real / agg.totalCalls as real else 0.0
    ensures agg.hitCount > 0 ==>
      && p.avgDurationHitMs == Quotient(agg.sumDurationHitsMs, agg.hitCount)
      && p.minDurationHitMs == agg.minDurationHitsMs && p.maxDurationHitMs == agg.maxDurationHitsMs
      && p.avgHitCandidates == agg.sumCandidates as real / agg.hitCount as real
      && p.avgHitFiltered == agg.sumFiltered as real / agg.hitCount as real
    ensures agg.hitCount <= 0 ==>
      && p.avgDurationHitMs == p.minDurationHitMs == p.maxDurationHitMs == 0
      && p.avgHitCandidates == p.avgHitFiltered == 0.0
    ensures agg.missCount > 0 ==>
      && p.avgDurationMissMs == Quotient(agg.sumDurationMissesMs, agg.missCount)
      && p.minDurationMissMs == agg.minDurationMissesMs && p.maxDurationMissMs == agg.maxDurationMissesMs
    ensures agg.missCount <= 0 ==> p.avgDurationMissMs == p.minDurationMissMs == p.maxDurationMissMs == 0
    ensures var least := Min(if agg.hitCount == 0 then MAX64 else agg.minDurationHitsMs,
                             if agg.missCount == 0 then MAX64 else agg.minDurationMissesMs);
      p.minDurationMs == if least == MAX64 then 0 else least
    ensures p.maxDurationMs == Max(agg.maxDurationHitsMs, agg.maxDurationMissesMs)
  {
    p := Payload(api, agg.hitCount, agg.missCount, agg.totalCalls, 0.0, 0.0, 0.0, 0, 0, 0, 0, 0, 0, 0, 0, 0);
    if agg.totalCalls > 0 {
      p := p.(avgResultSize := agg.sumResultSize as real / agg.totalCalls as real);
      var totalDuration := Wrap(agg.sumDurationHitsMs + agg.sumDurationMissesMs);
      p := p.(avgDurationMs := Quotient(totalDuration, agg.totalCalls));
    }
    if agg.hitCount > 0 {
      p := p.(avgHitCandidates := agg.sumCandidates as real / agg.hitCount as real);
      p := p.(avgHitFiltered := agg.sumFiltered as real / agg.hitCount as real);
      p := p.(avgDurationHitMs := Quotient(agg.sumDurationHitsMs, agg.hitCount),
              minDurationHitMs := agg.minDurationHitsMs, maxDurationHitMs := agg.maxDurationHitsMs);
    }
    if agg.missCount > 0 {
      p := p.(avgDurationMissMs := Quotient(agg.sumDurationMissesMs, agg.missCount),
              minDurationMissMs := agg.minDurationMissesMs, maxDurationMissMs := agg.maxDurationMissesMs);
    }
    var minHit := agg.minDurationHitsMs;
    if agg.hitCount == 0 {
      minHit := MAX64;
    }
    var minMiss := agg.minDurationMissesMs;
    if agg.missCount == 0 {
      minMiss := MAX64;
    }
    p := p.(minDurationMs := Min(minHit, minMiss));
    if p.minDurationMs == MAX64 {
      p := p.(minDurationMs := 0);
    }
    p := p.(maxDurationMs := Max(agg.maxDurationHitsMs, agg.maxDurationMissesMs));
  }

  /** Non-negative durations whose sums stay within 64 bits. */
  ghost predicate InRange(calls: seq<Call>) {
    && |calls| <= MAX64
    && (forall i :: 0 <= i < |calls| ==> 0 <= calls[i].durationMs <= MAX64)
    && Sum(calls, HitMs) + Sum(calls, MissMs) <= MAX64
  }

  lemma ScaleMin(lo: int, lo': int, d: int, n: nat, sum: int)
    requires lo * n <= sum && lo' <= lo && lo' <= d
    ensures lo' * (n + 1) <= sum + d
  {
    assert lo' * n <= lo * n;
    assert lo' * (n + 1) == lo' * n + lo';
  }

  lemma ScaleMax(hi: int, hi': int, d: int, n: nat, sum: int)
    requires sum <= hi * n && hi <= hi' && d <= hi'
    ensures sum + d <= hi' * (n + 1)
  {
    assert hi * n <= hi' * n;
    assert hi' * (n + 1) == hi' * n + hi';
  }

  /** The minima and maxima of an aggregate bound its sums. */
  ghost predicate Bounded(a: Aggregate) {
    && a.hitCount >= 0 && a.missCount >= 0
    && a.minDurationHitsMs * a.hitCount <= a.sumDurationHitsMs <= a.maxDurationHitsMs * a.hitCount
    && a.minDurationMissesMs * a.missCount <= a.sumDurationMissesMs <= a.maxDurationMissesMs * a.missCount
    && 0 <= a.minDurationHitsMs <= MAX64 && 0 <= a.minDurationMissesMs <= MAX64
    && 0 <= a.maxDurationHitsMs <= MAX64 && 0 <= a.maxDurationMissesMs <= MAX64
  }

  lemma AccumulateBounded(a: Aggregate, m: Call)
    requires Bounded(a) && 0 <= m.durationMs <= MAX64
    requires a.hitCount < MAX64 && a.missCount < MAX64
    requires 0 <= a.sumDurationHitsMs + m.durationMs <= MAX64 || !m.cacheHit
    requires 0 <= a.sumDurationMissesMs + m.durationMs <= MAX64 || m.cacheHit
    ensures Bounded(Accumulate(a, m))
  {
    var b := Accumulate(a, m);
    hide Wrap;
    if m.cacheHit {
      ScaleMin(a.minDurationHitsMs, b.minDurationHitsMs, m.durationMs, a.hitCount, a.sumDurationHitsMs);
      ScaleMax(a.maxDurationHitsMs, b.maxDurationHitsMs, m.durationMs, a.hitCount, a.sumDurationHitsMs);
    } else {
      ScaleMin(a.minDurationMissesMs, b.minDurationMissesMs, m.durationMs, a.missCount, a.sumDurationMissesMs);
      ScaleMax(a.maxDurationMissesMs, b.maxDurationMissesMs, m.durationMs, a.missCount, a.sumDurationMissesMs);
    }
  }

  lemma {:induction false} MillisNonNegative(calls: seq<Call>)
    requires forall i :: 0 <= i < |calls| ==> 0 <= calls[i].durationMs
    ensures Sum(calls, HitMs) >= 0 && Sum(calls, MissMs) >= 0
  {
    if calls != [] {
      MillisNonNegative(calls[..|calls| - 1]);
    }
  }

  lemma InRangePrefix(calls: seq<Call>)
    requires InRange(calls) && calls != []
    ensures InRange(calls[..|calls| - 1])
  {
    MillisNonNegative(calls[..|calls| - 1]);
  }

  /** In range, nothing wraps around. */
  lemma InRangeExact(calls: seq<Call>)
    requires InRange(calls)
    ensures var a := Fold(calls);
      && a.hitCount == Sum(calls, Hits) && a.missCount == Sum(calls, Misses)
      && a.totalCalls == |calls| == a.hitCount + a.missCount
      && a.sumDurationHitsMs == Sum(calls, HitMs) && a.sumDurationMissesMs == Sum(calls, MissMs)
  {
    HitsAndMisses(calls);
    CountsOfCalls(calls);
    MillisNonNegative(calls);
    FoldIsSum(calls, Hits);
    FoldIsSum(calls, Misses);
    FoldIsSum(calls, HitMs);
    FoldIsSum(calls, MissMs);
  }

  lemma {:induction false} FoldBounded(calls: seq<Call>)
    requires InRange(calls)
    ensures Bounded(Fold(calls))
  {
    if calls != [] {
      var front, m := calls[..|calls| - 1], calls[|calls| - 1];
      InRangePrefix(calls);
      FoldBounded(front);
      InRangeExact(front);
      MillisNonNegative(calls);
      CountsOfCalls(front);
      assert Fold(calls) == Accumulate(Fold(front), m);
      hide Accumulate, Bounded, Fold;
      AccumulateBounded(Fold(front), m);
    }
  }

  // ---------------------------------------------------------------- extremes

  /** `lo` and `hi` bound the durations of the calls of one kind, and each is one of them unless nothing came
      below the initial minimum or above the initial maximum. */
  ghost predicate Extremes(calls: seq<Call>, hit: bool, lo: int, hi: int) {
    && (forall m :: m in calls && m.cacheHit == hit ==> lo <= m.durationMs <= hi)
    && (lo == MAX64 || exists m :: m in calls && m.cacheHit == hit && m.durationMs == lo)
    && (hi == 0 || exists m :: m in calls && m.cacheHit == hit && m.durationMs == hi)
  }

  lemma ExtremesNext(calls: seq<Call>, m: Call, hit: bool, lo: int, hi: int)
    requires Extremes(calls, hit, lo, hi)
    ensures m.cacheHit == hit ==> Extremes(calls + [m], hit, Min(lo, m.durationMs), Max(hi, m.durationMs))
    ensures m.cacheHit != hit ==> Extremes(calls + [m], hit, lo, hi)
  {
    assert m in calls + [m];
    assert forall x :: x in calls ==> x in calls + [m];
  }

  lemma {:induction false} FoldExtremes(calls: seq<Call>)
    ensures var a := Fold(calls);
      && Extremes(calls, true, a.minDurationHitsMs, a.maxDurationHitsMs)
      && Extremes(calls, false, a.minDurationMissesMs, a.maxDurationMissesMs)
  {
    if calls != [] {
      var front, m := calls[..|calls| - 1], calls[|calls| - 1];
      FoldExtremes(front);
      var a := Fold(front);
      assert Fold(calls) == Accumulate(a, m);
      hide Extremes, Wrap, Fold;
      assert front + [m] == calls;
      ExtremesNext(front, m, true, a.minDurationHitsMs, a.maxDurationHitsMs);
      ExtremesNext(front, m, false, a.minDurationMissesMs, a.maxDurationMissesMs);
    }
  }

  /** For 64-bit durations that are not negative the recorded minimum and maximum of each kind of call are the
      least and the greatest of its durations. */
  lemma ExtremesAttained(calls: seq<Call>, hit: bool)
    requires forall m :: m in calls ==> 0 <= m.durationMs <= MAX64
    requires exists m :: m in calls && m.cacheHit == hit
    ensures var a := Fold(calls);
      var lo := if hit then a.minDurationHitsMs else a.minDurationMissesMs;
      var hi := if hit then a.maxDurationHitsMs else a.maxDurationMissesMs;
      && (forall m :: m in calls && m.cacheHit == hit ==> lo <= m.durationMs <= hi)
      && (exists m :: m in calls && m.cacheHit == hit && m.durationMs == lo)
      && (exists m :: m in calls && m.cacheHit == hit && m.durationMs == hi)
  {
    FoldExtremes(calls);
    hide Fold;
    var m :| m in calls && m.cacheHit == hit;
  }

  /** The quotient truncates toward zero. */
  lemma QuotientTruncates(sum: int, n: int)
    requires n > 0
    ensures sum >= 0 ==> Quotient(sum, n) * n <= sum < (Quotient(sum, n) + 1) * n
    ensures sum <= 0 ==> (Quotient(sum, n) - 1) * n < sum <= Quotient(sum, n) * n
  {
    if sum >= 0 {
      assert sum == sum / n * n + sum % n;
    } else {
      assert -sum == (-sum) / n * n + (-sum) % n;
    }
  }

  lemma MulOrder(a: int, b: int, n: nat)
    requires a <= b
    ensures a * n <= b * n
  {
  }

  /** A truncated average lies between bounds that scale to the sum. */
  lemma QuotientBounds(sum: int, n: int, lo: int, hi: int)
    requires n > 0 && 0 <= lo && lo * n <= sum <= hi * n
    ensures lo <= Quotient(sum, n) <= hi
  {
    MulOrder(0, lo, n);
    var q := sum / n;
    assert sum == q * n + sum % n;
    if q + 1 <= lo {
      MulOrder(q + 1, lo, n);
      assert false;
    }
    if hi + 1 <= q {
      MulOrder(hi + 1, q, n);
      assert false;
    }
  }

  lemma OverallBounds(minHit: int, maxHit: int, hits: nat, hitMs: int,
                      minMiss: int, maxMiss: int, misses: nat, missMs: int, lo: int, hi: int)
    requires minHit * hits <= hitMs <= maxHit * hits && minMiss * misses <= missMs <= maxMiss * misses
    requires (hits > 0 ==> lo <= minHit) && (misses > 0 ==> lo <= minMiss) && hi >= maxHit && hi >= maxMiss
    ensures lo * (hits + misses) <= hitMs + missMs <= hi * (hits + misses)
  {
    assert lo * hits <= minHit * hits && maxHit * hits <= hi * hits;
    assert lo * misses <= minMiss * misses && maxMiss * misses <= hi * misses;
    assert lo * (hits + misses) == lo * hits + lo * misses;
    assert hi * (hits + misses) == hi * hits + hi * misses;
  }

  /** Average bound: for any recorded calls with non-negative durations and sums within 64 bits, the truncated
      averages lie between the minimum and the maximum, overall and for hits and misses separately. */
  lemma AverageBound(calls: seq<Call>)
    requires InRange(calls) && calls != []
    ensures var a := Fold(calls);
      var lo := Min(if a.hitCount == 0 then MAX64 else a.minDurationHitsMs,
                    if a.missCount == 0 then MAX64 else a.minDurationMissesMs);
      && a.hitCount + a.missCount == a.totalCalls == |calls|
      && (if lo == MAX64 then 0 else lo) <= Quotient(Wrap(a.sumDurationHitsMs + a.sumDurationMissesMs), a.totalCalls)
           <= Max(a.maxDurationHitsMs, a.maxDurationMissesMs)
      && (a.hitCount > 0 ==> a.minDurationHitsMs <= Quotient(a.sumDurationHitsMs, a.hitCount) <= a.maxDurationHitsMs)
      && (a.missCount > 0 ==>
           a.minDurationMissesMs <= Quotient(a.sumDurationMissesMs, a.missCount) <= a.maxDurationMissesMs)
  {
    hide Fold, Quotient;
    var a := Fold(calls);
    FoldBounded(calls);
    InRangeExact(calls);
    var lo := Min(if a.hitCount == 0 then MAX64 else a.minDurationHitsMs,
                  if a.missCount == 0 then MAX64 else a.minDurationMissesMs);
    var least := if lo == MAX64 then 0 else lo;
    var most := Max(a.maxDurationHitsMs, a.maxDurationMissesMs);
    OverallBounds(a.minDurationHitsMs, a.maxDurationHitsMs, a.hitCount, a.sumDurationHitsMs,
                  a.minDurationMissesMs, a.maxDurationMissesMs, a.missCount, a.sumDurationMissesMs, least, most);
    QuotientBounds(a.sumDurationHitsMs + a.sumDurationMissesMs, a.totalCalls, least, most);
    if a.hitCount > 0 {
      QuotientBounds(a.sumDurationHitsMs, a.hitCount, a.minDurationHitsMs, a.maxDurationHitsMs);
    }
    if a.missCount > 0 {
      QuotientBounds(a.sumDurationMissesMs, a.missCount, a.minDurationMissesMs, a.maxDurationMissesMs);
    }
  }

  /** What the averages of a payload promise its reader. */
  ghost predicate Sound(p: Payload) {
    && p.totalCalls == p.hitCount + p.missCount
    && p.minDurationMs <= p.avgDurationMs <= p.maxDurationMs
    && p.minDurationHitMs <= p.avgDurationHitMs <= p.maxDurationHitMs
    && p.minDurationMissMs <= p.avgDurationMissMs <= p.maxDurationMissMs
  }

  /** A payload of a project's report. */
  ghost predicate Reported(p: Payload, byAPI: map<string, Aggregate>, calls: map<string, seq<Call>>) {
    && p.api in byAPI && p.api in calls
    && p.totalCalls == byAPI[p.api].totalCalls != 0
    && (InRange(calls[p.api]) ==> p.totalCalls == |calls[p.api]| && Sound(p))
  }

  /** One project's report: one payload for every API with calls counted, each with averages within its
      extremes if durations and sums stay in range. */
  method Report(byAPI: map<string, Aggregate>, ghost calls: map<string, seq<Call>>) returns (payloads: seq<Payload>)
    requires calls.Keys == byAPI.Keys
    requires forall api :: api in byAPI ==> byAPI[api] == Fold(calls[api])
    ensures forall api :: api in byAPI ==>
      (byAPI[api].totalCalls != 0 <==> exists i :: 0 <= i < |payloads| && payloads[i].api == api)
    ensures forall i, j :: 0 <= i < j < |payloads| ==> payloads[i].api != payloads[j].api
    ensures forall i :: 0 <= i < |payloads| ==> Reported(payloads[i], byAPI, calls)
  {
    hide Fold, InRange, Quotient, Wrap;
    payloads := [];
    var todo := byAPI.Keys;
    while todo != {}
      invariant todo <= byAPI.Keys
      invariant forall api :: api in byAPI && api !in todo && byAPI[api].totalCalls != 0 ==>
        exists i :: 0 <= i < |payloads| && payloads[i].api == api
      invariant forall i, j :: 0 <= i < j < |payloads| ==> payloads[i].api != payloads[j].api
      invariant forall i :: 0 <= i < |payloads| ==> payloads[i].api !in todo && Reported(payloads[i], byAPI, calls)
      decreases todo
    {
      var api :| api in todo;
      todo := todo - {api};
      if byAPI[api].totalCalls == 0 {
        continue;
      }
      var p := BuildPayload(api, byAPI[api]);
      if InRange(calls[api]) {
        InRangeExact(calls[api]);
        AverageBound(calls[api]);
      }
      ghost var before := payloads;
      payloads := payloads + [p];
      assert payloads[|before|] == p;
      assert forall i :: 0 <= i < |before| ==> payloads[i] == before[i];
    }
  }
}
