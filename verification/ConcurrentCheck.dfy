/** A whole Check in the concurrent machine: the split, the fetch and the merge happen in different worlds of a
    run, with anything in between. */
module ConcurrentChecks {
  import opened Types
  import opened Keys
  import opened CacheModel
  import opened Backends
  import opened ServiceModel
  import opened Protocol
  import opened Staleness

  /** What the backend answers to each relation, in the world in which it is asked. */
  ghost function Fetched(b: Backend, ws: seq<World>, rs: seq<Relation>, context: Context, asked: seq<nat>)
    : (sdk: seq<Check>)
    requires |asked| == |rs|
    requires forall j :: 0 <= j < |asked| ==> asked[j] < |ws| && ws[asked[j]].history != []
    ensures |sdk| == |rs|
    ensures forall j :: 0 <= j < |rs| ==> sdk[j] == AskedRead(b, ws[asked[j]], rs[j], context).check
  {
    seq(|rs|, j requires 0 <= j < |rs| => AskedRead(b, ws[asked[j]], rs[j], context).check)
  }

  /** Check within a run: the relations are split at step `served`, those left over are asked at the later steps
      `asked`, and the answers are merged. When nothing is left over the served answers are returned. */
  ghost predicate Checked(b: Backend, ws: seq<World>, steps: seq<Step>, rs: seq<Relation>, context: Context,
                          served: nat, asked: seq<nat>, answers: seq<Check>)
    requires |ws| == |steps| + 1
  {
    && served < |steps| && steps[served] == Serving(rs)
    && var c := ws[served].cache;
       var unchecked := Unchecked(b.engine, c, rs, context);
       && |asked| == |unchecked|
       && (forall j :: 0 <= j < |asked| ==>
            && served < asked[j] < |steps| && steps[asked[j]] == Ask(unchecked[j], context)
            && ws[asked[j]].history != [])
       && answers == if unchecked == [] then ServedChecks(b.engine, c, rs, context)
                     else Merge(b.engine, c, rs, context, Fetched(b, ws, unchecked, context, asked))
  }

  /** A version current at the world's poll time or later answered so. */
  ghost predicate Bounded(b: Backend, w: World, q: Triple, context: Context, allowed: bool) {
    exists v: nat :: WasAnswer(b, w, v, q, context, allowed)
  }

  /** The answer for `r` is bounded: in the world of the split if it was served there, unless from an overtaken
      answer, and otherwise in a world in which `r` itself was asked. */
  ghost predicate BoundedWhenGiven(b: Backend, ws: seq<World>, steps: seq<Step>, served: nat, asked: seq<nat>,
                                   r: Relation, context: Context, allowed: bool)
    requires served < |ws| == |steps| + 1
  {
    if Serve(b.engine, ws[served].cache, r, context).Some?
    then !Overtaken(ws[served], r) ==> Bounded(b, ws[served], TripleOf(r), context, allowed)
    else exists t :: t in asked && t < |steps| && steps[t] == Ask(r, context)
                     && Bounded(b, ws[t], TripleOf(r), context, allowed)
  }

  lemma RunTake(b: Backend, ws: seq<World>, steps: seq<Step>, play: iset<Triple>, n: nat)
    requires Run(b, ws, steps, play) && n <= |steps|
    ensures Run(b, ws[..n + 1], steps[..n], play)
  {
    hide Good, Enabled, Apply, Start;
  }

  lemma AskedIsAnswer(b: Backend, w: World, r: Relation, context: Context)
    requires w.history != []
    ensures Bounded(b, w, TripleOf(r), context, AskedRead(b, w, r, context).check.allowed)
  {
    assert WasAnswer(b, w, Latest(w), TripleOf(r), context, AskedRead(b, w, r, context).check.allowed);
  }

  lemma ServedIsAnswer(b: Backend, ws: seq<World>, steps: seq<Step>, play: iset<Triple>, served: nat,
                       r: Relation, context: Context)
    requires Contract(b) && Separates(play) && Run(b, ws, steps, play) && served < |ws| && TripleOf(r) in play
    requires Serve(b.engine, ws[served].cache, r, context).Some? && !Overtaken(ws[served], r)
    ensures Bounded(b, ws[served], TripleOf(r), context, Serve(b.engine, ws[served].cache, r, context).value.allowed)
  {
    hide Contract, Separates, Serve, Overtaken, WasAnswer, Good, Enabled, Apply, Start;
    RunTake(b, ws, steps, play, served);
    BoundedStaleness(b, ws[..served + 1], steps[..served], play, r, context);
  }

  /** Check in any interleaving: every answer is for the relation asked, and it was the backend's at or after
      the poll time in force when it was served or fetched, unless it was served from an overtaken answer. */
  lemma CheckIsBoundedlyStale(b: Backend, ws: seq<World>, steps: seq<Step>, play: iset<Triple>,
                              rs: seq<Relation>, context: Context, served: nat, asked: seq<nat>, answers: seq<Check>)
    requires Contract(b) && Separates(play) && Run(b, ws, steps, play)
    requires forall i :: 0 <= i < |rs| ==> TripleOf(rs[i]) in play
    requires Checked(b, ws, steps, rs, context, served, asked, answers)
    ensures |answers| == |rs|
    ensures forall i :: 0 <= i < |rs| ==>
      && answers[i].relation == rs[i]
      && BoundedWhenGiven(b, ws, steps, served, asked, rs[i], context, answers[i].allowed)
  {
    hide Contract, Separates, Good, Enabled, Apply, Start, Overtaken, Bounded, Unchecked, ServedChecks, Merge, Fetched;
    var e, c := b.engine, ws[served].cache;
    var unchecked := Unchecked(e, c, rs, context);
    var sdk := Fetched(b, ws, unchecked, context, asked);
    if unchecked == [] {
      AllServedIsMerge(e, c, rs, context, sdk);
    }
    forall i | 0 <= i < |rs|
      ensures answers[i].relation == rs[i]
      ensures BoundedWhenGiven(b, ws, steps, served, asked, rs[i], context, answers[i].allowed)
    {
      SplitAt(e, c, rs, context, i);
      MergeAt(e, c, rs, context, sdk, i);
      if Serve(e, c, rs[i], context).None? {
        var j := |Unchecked(e, c, rs[..i], context)|;
        AskedIsAnswer(b, ws[asked[j]], rs[i], context);
      } else if !Overtaken(ws[served], rs[i]) {
        ServedIsAnswer(b, ws, steps, play, served, rs[i], context);
      }
    }
  }

  /** A lookup hit in any interleaving: for any candidates, however stale, what is returned is their ordered
      sublist at the positions Check allows, and each such decision was the backend's, at or after the poll time
      in force when it was served or fetched. */
  lemma HitIsBoundedlyStale<T>(b: Backend, ws: seq<World>, steps: seq<Step>, play: iset<Triple>, candidates: seq<T>,
                               rs: seq<Relation>, context: Context, served: nat, asked: seq<nat>, answers: seq<Check>)
    requires Contract(b) && Separates(play) && Run(b, ws, steps, play) && |rs| == |candidates|
    requires forall i :: 0 <= i < |rs| ==> TripleOf(rs[i]) in play
    requires Checked(b, ws, steps, rs, context, served, asked, answers)
    ensures |answers| == |candidates|
    ensures IsSublist(Allowed(candidates, answers), candidates, AllowedAt(answers))
    ensures forall i :: 0 <= i < |rs| ==>
      BoundedWhenGiven(b, ws, steps, served, asked, rs[i], context, AllowedAt(answers)[i])
  {
    hide Contract, Separates, Good, Enabled, Apply, Start, BoundedWhenGiven, Checked, Serve, IsSublist, Allowed;
    CheckIsBoundedlyStale(b, ws, steps, play, rs, context, served, asked, answers);
    AllowedIsSublist(candidates, answers);
  }
}
