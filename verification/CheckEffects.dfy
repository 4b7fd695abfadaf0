/** What Check leaves in the grant caches: which grants were used last, and that fetched answers are kept. */
module CheckEffects {
  import opened Types
  import opened Keys
  import opened Lrus
  import opened Cel
  import opened GrantStore
  import opened CacheModel
  import opened Backends
  import opened ServiceModel
  import T = Transparency

  // ---------------------------------------------------------------- recency

  /** The keys a split finds among the direct grants, in the order asked; the rest are looked up among the
      indirect ones. */
  ghost function DirectHits(c: Cache, rs: seq<Relation>): seq<Key> {
    if rs == [] then []
    else
      var front, k := DirectHits(c, rs[..|rs| - 1]), RelationKey(rs[|rs| - 1]);
      if k in c.direct.cache.entries then front + [k] else front
  }

  ghost function IndirectHits(c: Cache, rs: seq<Relation>): seq<Key> {
    if rs == [] then []
    else
      var front, k := IndirectHits(c, rs[..|rs| - 1]), RelationKey(rs[|rs| - 1]);
      if k !in c.direct.cache.entries && k in c.indirect.entries then front + [k] else front
  }

  /** The keys of the answers that are kept as direct or as indirect grants, in order. */
  ghost function KeptKeys(cs: Conditions, sdk: seq<Check>, direct: bool): seq<Key> {
    if sdk == [] then []
    else
      var front, last := KeptKeys(cs, sdk[..|sdk| - 1], direct), sdk[|sdk| - 1];
      if Cacheable(cs, last).Some? && last.info.direct == direct then front + [RelationKey(last.relation)] else front
  }

  /** Both caches keep their grants in the order of their last uses. */
  ghost predicate InUseOrder(c: Cache, direct: seq<Key>, indirect: seq<Key>) {
    ByLastUse(c.direct.cache.order, direct) && ByLastUse(c.indirect.order, indirect)
  }

  lemma TouchUse(e: Engine, c: Cache, k: Key, direct: seq<Key>, indirect: seq<Key>)
    requires Good(e, c) && InUseOrder(c, direct, indirect)
    ensures InUseOrder(TouchGrant(c, k),
                       if k in c.direct.cache.entries then direct + [k] else direct,
                       if k !in c.direct.cache.entries && k in c.indirect.entries then indirect + [k] else indirect)
  {
    hide ByLastUse, Complete;
    ReadsKeepRecency(c.direct.cache, direct, k, {});
    ReadsKeepRecency(c.indirect, indirect, k, {});
  }

  lemma {:induction false} TouchAllUse(e: Engine, c: Cache, rs: seq<Relation>, direct: seq<Key>, indirect: seq<Key>)
    requires Good(e, c) && InUseOrder(c, direct, indirect)
    ensures InUseOrder(TouchAll(c, rs), direct + DirectHits(c, rs), indirect + IndirectHits(c, rs))
  {
    hide InUseOrder, TouchGrant, Good;
    if rs == [] {
      assert direct + [] == direct && indirect + [] == indirect;
    } else {
      var front, k := rs[..|rs| - 1], RelationKey(rs[|rs| - 1]);
      TouchAllUse(e, c, front, direct, indirect);
      TouchAllEffect(e, c, front);
      TouchUse(e, TouchAll(c, front), k, direct + DirectHits(c, front), indirect + IndirectHits(c, front));
      assert direct + (DirectHits(c, front) + [k]) == direct + DirectHits(c, front) + [k];
      assert indirect + (IndirectHits(c, front) + [k]) == indirect + IndirectHits(c, front) + [k];
    }
  }

  lemma InsertUse(e: Engine, c: Cache, check: Check, direct: seq<Key>, indirect: seq<Key>)
    requires Good(e, c) && InUseOrder(c, direct, indirect)
    ensures var k, kept := RelationKey(check.relation), Cacheable(c.conditions, check).Some?;
      InUseOrder(Insert(c, check), if kept && check.info.direct then direct + [k] else direct,
                 if kept && !check.info.direct then indirect + [k] else indirect)
  {
    InsertEffect(e, c, check);
    var grant := Cacheable(c.conditions, check);
    if grant.Some? {
      assert c.direct.cache.Valid() && c.indirect.Valid();
      WritesEvictLeastRecent(c.direct.cache, direct, RelationKey(check.relation), grant.value);
      WritesEvictLeastRecent(c.indirect, indirect, RelationKey(check.relation), grant.value);
    }
    hide ByLastUse, Insert, AddDirect, Lru.Add, Cacheable, RelationKey;
  }

  lemma {:induction false} InsertAllUse(e: Engine, c: Cache, sdk: seq<Check>, direct: seq<Key>, indirect: seq<Key>)
    requires Good(e, c) && InUseOrder(c, direct, indirect)
    ensures InsertAll(c, sdk).conditions == c.conditions
    ensures InUseOrder(InsertAll(c, sdk), direct + KeptKeys(c.conditions, sdk, true),
                       indirect + KeptKeys(c.conditions, sdk, false))
  {
    hide InUseOrder, Insert, Cacheable, Good, RelationKey, AddDirect, Lru.Add;
    if sdk == [] {
      assert direct + [] == direct && indirect + [] == indirect;
    } else {
      var front, last := sdk[..|sdk| - 1], sdk[|sdk| - 1];
      GoodIsComplete(e, c);
      InsertAllUse(e, c, front, direct, indirect);
      InsertAllGood(e, c, front);
      InsertEffect(e, InsertAll(c, front), last);
      var d, i := KeptKeys(c.conditions, front, true), KeptKeys(c.conditions, front, false);
      var k := RelationKey(last.relation);
      InsertUse(e, InsertAll(c, front), last, direct + d, indirect + i);
      assert direct + (d + [k]) == direct + d + [k] && indirect + (i + [k]) == indirect + i + [k];
    }
  }

  /** After Check the grants are in the order of their last uses, each hit counting as a use and then each answer
      kept: so eviction takes what was neither asked for nor learned for the longest time. */
  lemma CheckKeepsUseOrder(b: Backend, c: Cache, db: Db, rs: seq<Relation>, context: Context, up: Up,
                           direct: seq<Key>, indirect: seq<Key>)
    requires Good(b.engine, c) && InUseOrder(c, direct, indirect)
    ensures var c' := CheckAll(b, c, db, rs, context, up).0;
      var sdk := if up.check then SdkChecks(b, db, Unchecked(b.engine, c, rs, context), context) else [];
      InUseOrder(c', direct + DirectHits(c, rs) + KeptKeys(c'.conditions, sdk, true),
                 indirect + IndirectHits(c, rs) + KeptKeys(c'.conditions, sdk, false))
  {
    hide InUseOrder, DirectHits, IndirectHits, Good, Unchecked, TouchAll, InsertAll, LoadSchema, ServedChecks, Merge;
    var c1, unchecked := TouchAll(c, rs), Unchecked(b.engine, c, rs, context);
    var d, i := direct + DirectHits(c, rs), indirect + IndirectHits(c, rs);
    TouchAllUse(b.engine, c, rs, direct, indirect);
    TouchAllEffect(b.engine, c, rs);
    var sdk := SdkChecks(b, db, unchecked, context);
    if unchecked == [] || !up.check {
      assert d + [] == d && i + [] == i;
    } else {
      LoadIsQuiet(b.engine, c1, db.schema, up, d, i);
      InsertAllUse(b.engine, c1, sdk, d, i);
      InsertAllUse(b.engine, LoadSchema(b.engine, c1, db.schema, up), sdk, d, i);
    }
  }

  lemma LoadIsQuiet(e: Engine, c: Cache, schema: Schema, up: Up, direct: seq<Key>, indirect: seq<Key>)
    requires Good(e, c)
    ensures var c' := LoadSchema(e, c, schema, up);
      && Good(e, c') && c' == c.(conditions := c'.conditions)
      && (InUseOrder(c, direct, indirect) ==> InUseOrder(c', direct, indirect))
  {
    EnsureSchemaEffect(e, c, Some(schema));
    hide ByLastUse, Good;
  }

  // ---------------------------------------------------------------- what is used lately stays

  lemma {:induction false} LastUseAfter<K>(uses: seq<K>, i: nat)
    requires i < |uses|
    ensures LastUse(uses, uses[i]) >= i
  {
    if uses[|uses| - 1] != uses[i] {
      LastUseAfter(uses[..|uses| - 1], i);
    }
  }

  lemma {:induction false} FewerThanUses<K(!new)>(s: seq<K>)
    ensures |set x | x in s| <= |s|
  {
    if s != [] {
      var front, last := s[..|s| - 1], s[|s| - 1];
      FewerThanUses(front);
      assert s == front + [last];
      assert (set x | x in s) == (set x | x in front) + {last};
    }
  }

  /** Everything used since the `n`-th use is cached. */
  ghost predicate HoldsSince<K(!new), V>(l: Lru<K, V>, uses: seq<K>, n: nat) {
    forall j :: n <= j < |uses| ==> uses[j] in l.entries
  }

  /** A write evicts nothing that was used among the last uses, if these are fewer than the cache can hold. */
  lemma WritesSpareRecent<K(!new), V>(l: Lru<K, V>, uses: seq<K>, n: nat, k: K, v: V)
    requires l.Valid() && ByLastUse(l.order, uses) && HoldsSince(l, uses, n)
    requires n <= |uses| < n + l.capacity
    ensures HoldsSince(l.Add(k, v).0, uses + [k], n)
    ensures forall j :: n <= j < |uses| && uses[j] != k ==> l.Add(k, v).0.Find(uses[j]) == l.Find(uses[j])
  {
    AddEffect(l, k, v);
    WritesEvictLeastRecent(l, uses, k, v);
    var evicted := l.Add(k, v).1;
    if evicted.Some? {
      hide ByLastUse, LastUse, Lru.Add;
      forall j | n <= j < |uses|
        ensures uses[j] != evicted.value
      {
        if uses[j] == evicted.value {
          LastUseAfter(uses, j);
          OthersAreRecent(l, uses, n, evicted.value);
          assert false;
        }
      }
    }
  }

  /** If the least recently used key was used since the `n`-th use, so was every cached key. */
  lemma OthersAreRecent<K(!new), V>(l: Lru<K, V>, uses: seq<K>, n: nat, victim: K)
    requires n <= |uses| && LastUse(uses, victim) >= n
    requires forall x :: x in l.entries && x != victim ==> LastUse(uses, victim) < LastUse(uses, x)
    ensures |l.entries| <= |uses| - n
  {
    var recent := uses[n..];
    forall x | x in l.entries
      ensures x in recent
    {
      var m := LastUse(uses, x);
      assert m >= n && uses[m] == x;
      assert recent[m - n] == x;
    }
    FewerThanUses(recent);
    SubsetSize(l.entries.Keys, set x | x in recent);
    assert |l.entries| == |l.entries.Keys|;
  }

  lemma SubsetSize<K>(a: set<K>, b: set<K>)
    requires a <= b
    ensures |a| <= |b|
  {
    assert b == a + (b - a);
  }

  lemma OrderIsAHistory<K(!new), V>(l: Lru<K, V>)
    requires l.Valid()
    ensures ByLastUse(l.order, l.order)
  {
    forall i | 0 <= i < |l.order|
      ensures LastUse(l.order, l.order[i]) == i
    {
      LastUseAfter(l.order, i);
    }
  }

  // ---------------------------------------------------------------- answers that are kept

  /** Answers under one key are the same answer. */
  ghost predicate Consistent(sdk: seq<Check>) {
    forall i, j :: 0 <= i < |sdk| && 0 <= j < |sdk| && RelationKey(sdk[i].relation) == RelationKey(sdk[j].relation) ==>
      sdk[i].allowed == sdk[j].allowed && sdk[i].info == sdk[j].info
  }

  /** The answer is in the cache its directness chooses, where it is the one to be found. */
  ghost predicate Found(c: Cache, check: Check, g: Grant) {
    var k := RelationKey(check.relation);
    if check.info.direct then c.direct.cache.Find(k) == Some(g)
    else c.indirect.Find(k) == Some(g) && k !in c.direct.cache.entries
  }

  lemma {:induction false} KeptCount(cs: Conditions, sdk: seq<Check>, direct: bool)
    ensures |KeptKeys(cs, sdk, direct)| <= |sdk|
  {
    hide Cacheable, RelationKey;
    if sdk != [] {
      KeptCount(cs, sdk[..|sdk| - 1], direct);
    }
  }

  lemma {:induction false} KeptHas(cs: Conditions, sdk: seq<Check>, i: nat)
    requires i < |sdk| && Cacheable(cs, sdk[i]).Some?
    ensures RelationKey(sdk[i].relation) in KeptKeys(cs, sdk, sdk[i].info.direct)
  {
    hide Cacheable, RelationKey;
    if i < |sdk| - 1 {
      KeptHas(cs, sdk[..|sdk| - 1], i);
    }
  }

  /** The keys kept are used after the whole history of the caches before. */
  ghost function Uses(c: Cache, sdk: seq<Check>, direct: bool): seq<Key> {
    (if direct then c.direct.cache.order else c.indirect.order) + KeptKeys(c.conditions, sdk, direct)
  }

  ghost predicate AllHeld(c: Cache, c': Cache, sdk: seq<Check>) {
    && c'.conditions == c.conditions
    && c'.direct.cache.capacity == c.direct.cache.capacity && c'.indirect.capacity == c.indirect.capacity
    && InUseOrder(c', Uses(c, sdk, true), Uses(c, sdk, false))
    && HoldsSince(c'.direct.cache, Uses(c, sdk, true), |c.direct.cache.order|)
    && HoldsSince(c'.indirect, Uses(c, sdk, false), |c.indirect.order|)
  }

  /** Nothing among `keys` but `k` changed. */
  ghost predicate Spared<K(!new), V>(l: Lru<K, V>, l': Lru<K, V>, keys: seq<K>, k: Option<K>) {
    forall x :: x in keys && k != Some(x) ==> l'.Find(x) == l.Find(x)
  }

  lemma WriteHolds<K(!new), V>(l: Lru<K, V>, history: seq<K>, kept: seq<K>, k: K, v: V)
    requires l.Valid() && ByLastUse(l.order, history + kept) && HoldsSince(l, history + kept, |history|)
    requires |kept| < l.capacity
    ensures l.Add(k, v).0.capacity == l.capacity
    ensures ByLastUse(l.Add(k, v).0.order, history + (kept + [k]))
    ensures HoldsSince(l.Add(k, v).0, history + (kept + [k]), |history|)
    ensures Spared(l, l.Add(k, v).0, kept, Some(k))
  {
    AddEffect(l, k, v);
    WritesEvictLeastRecent(l, history + kept, k, v);
    WritesSpareRecent(l, history + kept, |history|, k, v);
    assert history + (kept + [k]) == history + kept + [k];
    hide ByLastUse, Lru.Add, HoldsSince;
    forall x | x in kept && x != k
      ensures l.Add(k, v).0.Find(x) == l.Find(x)
    {
      var m :| 0 <= m < |kept| && kept[m] == x;
      assert (history + kept)[|history| + m] == x;
    }
  }

  lemma InsertHolds(e: Engine, c: Cache, c1: Cache, front: seq<Check>, check: Check)
    requires Good(e, c1) && AllHeld(c, c1, front)
    requires |front| < c.direct.cache.capacity && |front| < c.indirect.capacity
    ensures AllHeld(c, Insert(c1, check), front + [check])
    ensures var k := if Cacheable(c.conditions, check).Some? then Some(RelationKey(check.relation)) else None;
      && Spared(c1.direct.cache, Insert(c1, check).direct.cache, KeptKeys(c.conditions, front, true),
                if check.info.direct then k else None)
      && Spared(c1.indirect, Insert(c1, check).indirect, KeptKeys(c.conditions, front, false),
                if check.info.direct then None else k)
  {
    hide Insert, AddDirect, Lru.Add, Cacheable, RelationKey, Good, ByLastUse, HoldsSince;
    GoodIsComplete(e, c1);
    InsertEffect(e, c1, check);
    assert (front + [check])[..|front|] == front;
    var grant, k := Cacheable(c.conditions, check), RelationKey(check.relation);
    var d, i := KeptKeys(c.conditions, front, true), KeptKeys(c.conditions, front, false);
    KeptCount(c.conditions, front, true);
    KeptCount(c.conditions, front, false);
    if grant.Some? && check.info.direct {
      WriteHolds(c1.direct.cache, c.direct.cache.order, d, k, grant.value);
    } else if grant.Some? {
      WriteHolds(c1.indirect, c.indirect.order, i, k, grant.value);
    }
  }

  lemma {:induction false} InsertAllHolds(e: Engine, c: Cache, sdk: seq<Check>)
    requires Good(e, c) && |sdk| <= c.direct.cache.capacity && |sdk| <= c.indirect.capacity
    ensures AllHeld(c, InsertAll(c, sdk), sdk)
  {
    hide Insert, Cacheable, Good;
    GoodIsComplete(e, c);
    if sdk == [] {
      OrderIsAHistory(c.direct.cache);
      OrderIsAHistory(c.indirect);
      assert c.direct.cache.order + [] == c.direct.cache.order && c.indirect.order + [] == c.indirect.order;
    } else {
      hide AllHeld;
      var n := |sdk| - 1;
      InsertAllHolds(e, c, sdk[..n]);
      InsertAllGood(e, c, sdk[..n]);
      InsertHolds(e, c, InsertAll(c, sdk[..n]), sdk[..n], sdk[n]);
      assert sdk[..n] + [sdk[n]] == sdk;
    }
  }

  /** A batch no larger than the caches evicts none of its own answers: what is kept of each is found afterwards. */
  lemma {:induction false} InsertsStay(e: Engine, c: Cache, sdk: seq<Check>, i: nat)
    requires Good(e, c) && Consistent(sdk) && |sdk| <= c.direct.cache.capacity && |sdk| <= c.indirect.capacity
    requires i < |sdk| && Cacheable(c.conditions, sdk[i]).Some?
    requires sdk[i].info.direct || RelationKey(sdk[i].relation) !in c.direct.cache.entries
    ensures Found(InsertAll(c, sdk), sdk[i], Cacheable(c.conditions, sdk[i]).value)
  {
    hide Insert, Good, AddDirect, Lru.Add, RelationKey, AllHeld;
    GoodIsComplete(e, c);
    var n := |sdk| - 1;
    var front, c1 := sdk[..n], InsertAll(c, sdk[..n]);
    InsertAllGood(e, c, front);
    InsertAllHolds(e, c, front);
    assert c1.conditions == c.conditions by { InsertAllKeepsConditions(e, c, front); }
    InsertEffect(e, c1, sdk[n]);
    if i < n {
      assert Consistent(front);
      InsertsStay(e, c, front, i);
      KeptHas(c.conditions, front, i);
      InsertHolds(e, c, c1, front, sdk[n]);
    } else if !sdk[i].info.direct {
      StaysIndirect(e, c, front, RelationKey(sdk[i].relation));
    }
  }

  lemma {:induction false} InsertAllKeepsConditions(e: Engine, c: Cache, sdk: seq<Check>)
    requires Good(e, c)
    ensures InsertAll(c, sdk).conditions == c.conditions
  {
    hide Insert, Good;
    GoodIsComplete(e, c);
    if sdk != [] {
      InsertAllKeepsConditions(e, c, sdk[..|sdk| - 1]);
      InsertAllGood(e, c, sdk[..|sdk| - 1]);
      InsertEffect(e, InsertAll(c, sdk[..|sdk| - 1]), sdk[|sdk| - 1]);
    }
  }

  lemma {:induction false} StaysIndirect(e: Engine, c: Cache, sdk: seq<Check>, k: Key)
    requires Good(e, c) && k !in c.direct.cache.entries
    requires forall j :: 0 <= j < |sdk| && RelationKey(sdk[j].relation) == k ==> !sdk[j].info.direct
    ensures k !in InsertAll(c, sdk).direct.cache.entries
  {
    hide Insert, Good, AddDirect, Lru.Add, RelationKey, Cacheable;
    GoodIsComplete(e, c);
    if sdk != [] {
      StaysIndirect(e, c, sdk[..|sdk| - 1], k);
      InsertAllGood(e, c, sdk[..|sdk| - 1]);
      InsertEffect(e, InsertAll(c, sdk[..|sdk| - 1]), sdk[|sdk| - 1]);
    }
  }

  /** The edge can keep the answer and evaluate its conditions later: no facts, no evaluation trouble, and for a
      conditional one a versioned schema of the backend that is loaded already or can be. */
  ghost predicate Keepable(c: Cache, db: Db, info: Info, up: Up) {
    && !info.factUsed
    && (info.conditional ==>
         && info.missingContext == [] && info.conditionalErr == "" && db.schema.version != ""
         && (c.conditions.schema == Some(db.schema) || (c.conditions.version == "" && up.load)))
  }

  ghost predicate CertApplies(e: Engine, schema: Schema, info: Info, context: Context) {
    info.conditional ==> CertHolds(e, schema.conditions, Cert(info.trueConditions, info.falseConditions), context)
  }

  /** How a cached answer is reported when it is served. */
  function Reported(info: Info): Info {
    if info.conditional then Info(false, true, false, "", [], [], [], "")
    else Info(info.direct, false, false, "", [], [], [], "")
  }

  /** `c'` is `c` under the schema the answers are learned under: the backend's, if answer `i` needs it. */
  ghost predicate LearnsUnder(e: Engine, c: Cache, c': Cache, schema: Schema, sdk: seq<Check>, up: Up, i: nat)
    requires i < |sdk| && c.direct.cache.Valid() && c.indirect.Valid()
  {
    && Good(e, c') && c' == c.(conditions := c'.conditions) && Learn(e, c, schema, sdk, up) == InsertAll(c', sdk)
    && (sdk[i].info.conditional && Keepable(c, Db(schema, {}, 0), sdk[i].info, up)
        && (sdk[i].info.trueConditions != [] || sdk[i].info.falseConditions != []) ==>
          c'.conditions.schema == Some(schema))
  }

  lemma LearnLoads(e: Engine, c: Cache, schema: Schema, sdk: seq<Check>, up: Up, i: nat)
    requires Good(e, c) && i < |sdk|
    ensures c.direct.cache.Valid() && c.indirect.Valid()
    ensures exists c' :: LearnsUnder(e, c, c', schema, sdk, up, i)
  {
    GoodIsComplete(e, c);
    EnsureSchemaEffect(e, c, Some(schema));
    hide InsertAll, EnsureSchema;
    var needed := exists j :: 0 <= j < |sdk| && CacheableConditional(sdk[j]);
    var c' := if needed then LoadSchema(e, c, schema, up) else c;
    assert LearnsUnder(e, c, c', schema, sdk, up, i);
  }

  lemma CertCompiles(e: Engine, schema: Schema, cert: Cert, context: Context)
    requires CertHolds(e, schema.conditions, cert, context)
    ensures AllCompiled(CompileAll(e, schema.conditions), cert.trueConds)
    ensures AllCompiled(CompileAll(e, schema.conditions), cert.falseConds)
  {
    MatchesExactly(e, schema.conditions, cert, context);
    hide CompileAll, CertHolds;
  }

  /** Answers are kept: what Check fetched, the cache serves at once for every context in which the certificate
      holds, if the edge can evaluate it, the batch fits into the caches, and no direct grant left under the key
      hides an indirect answer. */
  lemma FetchedIsServed(b: Backend, c: Cache, db: Db, play: iset<Triple>, rs: seq<Relation>, context: Context, up: Up,
                        i: nat, later: Context)
    requires Good(b.engine, c) && Contract(b) && Separates(play) && up.check && i < |rs|
    requires forall j :: 0 <= j < |rs| ==> TripleOf(rs[j]) in play
    requires |rs| <= c.direct.cache.capacity && |rs| <= c.indirect.capacity
    requires Serve(b.engine, c, rs[i], context).None?
    requires var info := b.answer(db, TripleOf(rs[i]), context).info;
      && Keepable(c, db, info, up) && CertApplies(b.engine, db.schema, info, later)
      && (info.direct || RelationKey(rs[i]) !in c.direct.cache.entries)
    ensures var v := b.answer(db, TripleOf(rs[i]), context);
      Serve(b.engine, CheckAll(b, c, db, rs, context, up).0, rs[i], later) ==
        Some(Check(v.allowed, rs[i], Reported(v.info)))
  {
    hide Contract, Separates, Good, Unchecked, TouchAll, Learn, ServedChecks, Merge, Serve, CertApplies;
    var e := b.engine;
    var c1, unchecked := TouchAll(c, rs), Unchecked(e, c, rs, context);
    TouchAllEffect(e, c, rs);
    SplitAt(e, c, rs, context, i);
    SplitCounts(e, c, rs, context);
    T.UncheckedInPlay(e, c, rs, context, play);
    LearnServes(b, c1, db, play, unchecked, context, up, |Unchecked(e, c, rs[..i], context)|, later);
  }

  lemma LearnServes(b: Backend, c: Cache, db: Db, play: iset<Triple>, rs: seq<Relation>, context: Context, up: Up,
                    i: nat, later: Context)
    requires Good(b.engine, c) && Contract(b) && Separates(play) && i < |rs|
    requires forall j :: 0 <= j < |rs| ==> TripleOf(rs[j]) in play
    requires |rs| <= c.direct.cache.capacity && |rs| <= c.indirect.capacity
    requires var info := b.answer(db, TripleOf(rs[i]), context).info;
      && Keepable(c, db, info, up) && CertApplies(b.engine, db.schema, info, later)
      && (info.direct || RelationKey(rs[i]) !in c.direct.cache.entries)
    ensures c.direct.cache.Valid() && c.indirect.Valid()
    ensures var v := b.answer(db, TripleOf(rs[i]), context);
      Serve(b.engine, Learn(b.engine, c, db.schema, SdkChecks(b, db, rs, context), up), rs[i], later) ==
        Some(Check(v.allowed, rs[i], Reported(v.info)))
  {
    var info := b.answer(db, TripleOf(rs[i]), context).info;
    assert info.conditional ==> info.trueConditions != [] || info.falseConditions != [];
    hide Contract, Separates, Good, InsertAll, Learn, Serve, CertHolds, Cacheable, RelationKey, KeyOf, Found,
         Consistent, Lru.Valid, CacheableConditional, Reported, CertApplies;
    var e, sdk := b.engine, SdkChecks(b, db, rs, context);
    SdkConsistent(b, db, play, rs, context);
    LearnLoads(e, c, db.schema, sdk, up, i);
    var c' :| LearnsUnder(e, c, c', db.schema, sdk, up, i);
    KeptGrant(b, c', db, rs[i], context, sdk[i], later);
    InsertsStay(e, c', sdk, i);
    InsertAllGood(e, c', sdk);
    InsertAllKeepsConditions(e, c', sdk);
    FoundServes(e, InsertAll(c', sdk), sdk[i], Cacheable(c'.conditions, sdk[i]).value, later);
  }

  lemma SdkConsistent(b: Backend, db: Db, play: iset<Triple>, rs: seq<Relation>, context: Context)
    requires Separates(play) && forall j :: 0 <= j < |rs| ==> TripleOf(rs[j]) in play
    ensures Consistent(SdkChecks(b, db, rs, context))
  {
  }

  lemma KeptGrant(b: Backend, c: Cache, db: Db, r: Relation, context: Context, check: Check, later: Context)
    requires Good(b.engine, c) && Contract(b)
    requires var v := b.answer(db, TripleOf(r), context); check == Check(v.allowed, r, v.info)
    requires !check.info.factUsed && CertApplies(b.engine, db.schema, check.info, later)
    requires check.info.conditional ==>
      check.info.missingContext == [] && check.info.conditionalErr == "" && c.conditions.schema == Some(db.schema)
    ensures Cacheable(c.conditions, check) ==
      Some(Grant(check.allowed, if check.info.conditional
                                then Some(Cert(check.info.trueConditions, check.info.falseConditions)) else None))
    ensures CertApplies(b.engine, db.schema, check.info, later)
  {
    if check.info.conditional {
      CertCompiles(b.engine, db.schema, Cert(check.info.trueConditions, check.info.falseConditions), later);
    }
    hide KeepsPromises, CompileAll;
  }

  lemma FoundServes(e: Engine, c: Cache, check: Check, g: Grant, context: Context)
    requires Good(e, c) && Found(c, check, g) && g.allowed == check.allowed
    requires check.info.conditional ==>
      c.conditions.schema.Some? && CertApplies(e, c.conditions.schema.value, check.info, context)
    requires g.cond == if check.info.conditional
                       then Some(Cert(check.info.trueConditions, check.info.falseConditions)) else None
    ensures Serve(e, c, check.relation, context) ==
      Some(Check(check.allowed, check.relation, Reported(check.info)))
  {
    hide Serve, CertHolds;
    ServedIsCached(e, c, check.relation, context);
  }

  /** The last condition is needed: a direct grant whose certificate fails in this context hides an indirect
      answer fetched for it, so the same request is left to the backend again. */
  lemma HiddenIsRefetched(b: Backend, c: Cache, db: Db, r: Relation, context: Context, up: Up)
    requires Good(b.engine, c) && up.check && Serve(b.engine, c, r, context).None? && c.conditions.version != ""
    requires RelationKey(r) in c.direct.cache.entries && !b.answer(db, TripleOf(r), context).info.direct
    ensures Serve(b.engine, CheckAll(b, c, db, [r], context, up).0, r, context).None?
  {
    var e, rs := b.engine, [r];
    assert rs[..0] == [];
    assert Unchecked(e, c, rs, context) == rs;
    hide Good, Serve, TouchAll, InsertAll, Unchecked, ServedChecks, Merge;
    var c1, sdk := TouchAll(c, rs), SdkChecks(b, db, rs, context);
    TouchAllEffect(e, c, rs);
    GoodIsComplete(e, c1);
    EnsureSchemaEffect(e, c1, Some(db.schema));
    LoadedStays(e, c1, db.schema, up);
    InsertedIndirect(e, c1, sdk);
    SameDirectServes(e, c, InsertAll(c1, sdk), r, context);
  }

  lemma LoadedStays(e: Engine, c: Cache, schema: Schema, up: Up)
    requires Good(e, c) && c.conditions.version != ""
    ensures LoadSchema(e, c, schema, up) == c
  {
  }

  lemma InsertedIndirect(e: Engine, c: Cache, sdk: seq<Check>)
    requires Good(e, c) && |sdk| == 1 && !sdk[0].info.direct
    ensures c.direct.cache.Valid() && c.indirect.Valid()
    ensures InsertAll(c, sdk).direct == c.direct && InsertAll(c, sdk).conditions == c.conditions
  {
    GoodIsComplete(e, c);
    assert sdk[..0] == [];
    InsertEffect(e, c, sdk[0]);
    hide Insert, Cacheable, AddDirect, Lru.Add;
  }

  lemma SameDirectServes(e: Engine, c: Cache, c': Cache, r: Relation, context: Context)
    requires RelationKey(r) in c.direct.cache.entries && c'.direct.cache.entries == c.direct.cache.entries
    requires c'.conditions == c.conditions
    ensures Serve(e, c', r, context) == Serve(e, c, r, context)
  {
  }

  // ---------------------------------------------------------------- and nothing else

  /** Every old grant is still there, and unchanged unless an answer was given under its key. */
  ghost predicate KeepsOld(l: Lru<Key, Grant>, l': Lru<Key, Grant>, answered: seq<Key>) {
    forall k :: k in l.entries ==> k in l'.entries && (l'.entries[k] == l.entries[k] || k in answered)
  }

  ghost function Answered(sdk: seq<Check>): (keys: seq<Key>)
    ensures |keys| == |sdk|
  {
    seq(|sdk|, i requires 0 <= i < |sdk| => RelationKey(sdk[i].relation))
  }

  /** A write to a cache with room keeps every old entry. */
  lemma WriteKeepsOld(l: Lru<Key, Grant>, l1: Lru<Key, Grant>, answered: seq<Key>, k: Key, g: Grant)
    requires l1.Valid() && |l1.entries| < l1.capacity && KeepsOld(l, l1, answered)
    ensures var l' := l1.Add(k, g).0;
      KeepsOld(l, l', answered + [k]) && |l'.entries| <= |l1.entries| + 1 && l'.capacity == l1.capacity
  {
    AddEffect(l1, k, g);
    var l' := l1.Add(k, g).0;
    assert l'.entries.Keys == l1.entries.Keys + {k};
    assert |l'.entries| == |l'.entries.Keys| && |l1.entries| == |l1.entries.Keys|;
    assert k in answered + [k];
    hide Lru.Add, Lru.Valid;
  }

  lemma LongerKeepsOld(l: Lru<Key, Grant>, l': Lru<Key, Grant>, answered: seq<Key>, k: Key)
    requires KeepsOld(l, l', answered)
    ensures KeepsOld(l, l', answered + [k])
  {
  }

  ghost predicate BatchKeepsOld(c: Cache, c': Cache, answered: seq<Key>) {
    && c'.lookups == c.lookups && c'.polling == c.polling
    && c'.direct.cache.capacity == c.direct.cache.capacity && c'.indirect.capacity == c.indirect.capacity
    && (|c.direct.cache.entries| + |answered| <= c.direct.cache.capacity ==>
         && KeepsOld(c.direct.cache, c'.direct.cache, answered)
         && |c'.direct.cache.entries| <= |c.direct.cache.entries| + |answered|)
    && (|c.indirect.entries| + |answered| <= c.indirect.capacity ==>
         && KeepsOld(c.indirect, c'.indirect, answered)
         && |c'.indirect.entries| <= |c.indirect.entries| + |answered|)
  }

  lemma InsertKeepsOld(e: Engine, c: Cache, c1: Cache, answered: seq<Key>, check: Check)
    requires Good(e, c1) && BatchKeepsOld(c, c1, answered)
    ensures BatchKeepsOld(c, Insert(c1, check), answered + [RelationKey(check.relation)])
  {
    hide KeepsOld, Insert, AddDirect, Lru.Add, Cacheable, RelationKey, Good;
    GoodIsComplete(e, c1);
    InsertEffect(e, c1, check);
    var grant, k := Cacheable(c1.conditions, check), RelationKey(check.relation);
    if |c.direct.cache.entries| + |answered| < c.direct.cache.capacity {
      LongerKeepsOld(c.direct.cache, c1.direct.cache, answered, k);
      if grant.Some? { WriteKeepsOld(c.direct.cache, c1.direct.cache, answered, k, grant.value); }
    }
    if |c.indirect.entries| + |answered| < c.indirect.capacity {
      LongerKeepsOld(c.indirect, c1.indirect, answered, k);
      if grant.Some? { WriteKeepsOld(c.indirect, c1.indirect, answered, k, grant.value); }
    }
    if grant.Some? {
      AddEffect(c1.direct.cache, k, grant.value);
      AddEffect(c1.indirect, k, grant.value);
    }
  }

  lemma NothingKeepsOld(c: Cache)
    ensures BatchKeepsOld(c, c, [])
  {
  }

  lemma {:induction false} InsertAllKeepsOld(e: Engine, c: Cache, sdk: seq<Check>)
    requires Good(e, c)
    ensures BatchKeepsOld(c, InsertAll(c, sdk), Answered(sdk))
  {
    hide Good, Insert, BatchKeepsOld, RelationKey;
    GoodIsComplete(e, c);
    if sdk == [] {
      NothingKeepsOld(c);
      assert Answered(sdk) == [];
    } else {
      var n := |sdk| - 1;
      InsertAllKeepsOld(e, c, sdk[..n]);
      InsertAllGood(e, c, sdk[..n]);
      InsertKeepsOld(e, c, InsertAll(c, sdk[..n]), Answered(sdk[..n]), sdk[n]);
      assert Answered(sdk) == Answered(sdk[..n]) + [RelationKey(sdk[n].relation)];
    }
  }

  /** Check leaves the rest alone: lookups and polling state always; all grants and the schema, but for recency,
      when it learns nothing; and otherwise, if the batch fits beside them, every grant not asked for again. The
      schema changes only from an unversioned one to the backend's. */
  lemma CheckLeavesRest(b: Backend, c: Cache, db: Db, rs: seq<Relation>, context: Context, up: Up)
    requires Good(b.engine, c)
    ensures var c' := CheckAll(b, c, db, rs, context, up).0;
      var unchecked := Unchecked(b.engine, c, rs, context);
      var answered := Answered(SdkChecks(b, db, unchecked, context));
      && c'.lookups == c.lookups && c'.polling == c.polling
      && (unchecked == [] || !up.check ==>
           && c' == c.(direct := c.direct.(cache := c'.direct.cache), indirect := c'.indirect)
           && c'.direct.cache.entries == c.direct.cache.entries && c'.indirect.entries == c.indirect.entries)
      && (|c.direct.cache.entries| + |unchecked| <= c.direct.cache.capacity ==>
           KeepsOld(c.direct.cache, c'.direct.cache, answered))
      && (|c.indirect.entries| + |unchecked| <= c.indirect.capacity ==> KeepsOld(c.indirect, c'.indirect, answered))
      && (c'.conditions == c.conditions
          || (c.conditions.version == "" && up.load && c'.conditions.schema == Some(db.schema)))
  {
    hide Good, Unchecked, TouchAll, InsertAll, ServedChecks, Merge, Learn, Answered;
    var e := b.engine;
    var c1, unchecked := TouchAll(c, rs), Unchecked(e, c, rs, context);
    var sdk := SdkChecks(b, db, unchecked, context);
    TouchAllEffect(e, c, rs);
    if unchecked != [] && up.check {
      LearnKeepsOld(e, c1, db.schema, sdk, up);
    }
  }

  lemma LearnKeepsOld(e: Engine, c: Cache, schema: Schema, sdk: seq<Check>, up: Up)
    requires Good(e, c)
    ensures c.direct.cache.Valid() && c.indirect.Valid()
    ensures var c' := Learn(e, c, schema, sdk, up);
      && BatchKeepsOld(c, c', Answered(sdk))
      && (c'.conditions == c.conditions
          || (c.conditions.version == "" && up.load && c'.conditions.schema == Some(schema)))
  {
    GoodIsComplete(e, c);
    EnsureSchemaEffect(e, c, Some(schema));
    var c1 := LoadSchema(e, c, schema, up);
    InsertAllKeepsOld(e, c, sdk);
    InsertAllKeepsOld(e, c1, sdk);
    InsertAllKeepsConditions(e, c, sdk);
    InsertAllKeepsConditions(e, c1, sdk);
    hide InsertAll, Good, KeepsOld, Answered, SetSchema;
  }
}
