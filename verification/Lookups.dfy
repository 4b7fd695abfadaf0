/** The cached candidate lists of WhoCanAccess and WhatCanTargetAccess, as values. */
module Lookups {
  import opened Types
  import opened Keys
  import opened Lrus

  datatype Entry = Entry(results: seq<string>, cachedAt: nat, expiresAt: nat)

  /** `cache` is absent when the service was started without the lookup cache. */
  datatype LookupCache = LookupCache(enabled: bool, ttl: nat, maxResult: int, cache: Option<Lru<Key, Entry>>) {
    ghost predicate Valid() {
      cache.Some? ==> cache.value.Valid()
    }

    predicate Active() {
      enabled && cache.Some?
    }

    function Find(k: Key): Option<Entry> {
      if cache.Some? then cache.value.Find(k) else None
    }
  }

  /** Reading an entry makes it the most recently used one, expired or not. */
  function Touch(l: LookupCache, k: Key): (r: LookupCache)
    ensures l.Valid() ==> r.Valid()
    ensures forall x :: r.Find(x) == l.Find(x)
  {
    if l.Active() then l.(cache := Some(l.cache.value.Touch(k))) else l
  }

  function Purge(l: LookupCache): (r: LookupCache)
    ensures l.Valid() ==> r.Valid()
    ensures Cleared(l, r)
  {
    if l.cache.Some? then l.(cache := Some(l.cache.value.Purge())) else l
  }

  /** The live results under a key; an entry is still served at the instant it expires. */
  function Served(l: LookupCache, k: Key, now: nat): Option<seq<string>> {
    if !l.Active() then None
    else match l.Find(k)
      case Some(e) => if now > e.expiresAt then None else Some(e.results)
      case None => None
  }

  function Put(l: LookupCache, k: Key, results: seq<string>, now: nat): (r: LookupCache)
    requires l.Valid()
    ensures r.Valid()
  {
    if !l.Active() || |results| > l.maxResult then l
    else l.(cache := Some(l.cache.value.Add(k, Entry(results, now, now + l.ttl)).0))
  }

  /** Nothing is cached any more and the configuration is as it was. */
  ghost predicate Cleared(l: LookupCache, l': LookupCache) {
    (forall k :: l'.Find(k) == None) && SameConfig(l, l')
  }

  /** The cache holds no list for `k`, an expired one or an empty one. */
  ghost predicate NothingLive(l: LookupCache, k: Key, now: nat) {
    l.Active() && l.Find(k).Some? ==> l.Find(k).value.expiresAt < now || l.Find(k).value.results == []
  }

  lemma NothingLiveNotServed(l: LookupCache, k: Key, now: nat)
    ensures NothingLive(l, k, now) <==> Served(l, k, now).None? || Served(l, k, now).value == []
  {
  }

  /** All lists but those under `k` stay, except that one may be evicted from a full cache. */
  ghost predicate OthersStay(l: LookupCache, l': LookupCache, k: Key) {
    exists evicted: Option<Key> :: AllStayBut(l, l', k, evicted)
  }

  ghost predicate AllStayBut(l: LookupCache, l': LookupCache, k: Key, evicted: Option<Key>) {
    && (forall x :: x != k ==> l'.Find(x) == if evicted == Some(x) then None else l.Find(x))
    && (evicted.Some? ==> l.cache.Some? && |l.cache.value.entries| == l.cache.value.capacity)
  }

  /** Enabling, TTL, result limit and size are the same. */
  ghost predicate SameConfig(l: LookupCache, l': LookupCache) {
    && l'.enabled == l.enabled && l'.ttl == l.ttl && l'.maxResult == l.maxResult
    && l'.cache.Some? == l.cache.Some? && (l.cache.Some? ==> l'.cache.value.capacity == l.cache.value.capacity)
  }

  /** A list within the size limit is served as it is for one TTL; one over the limit changes nothing. No other
      list changes, though one may be evicted from a full cache. */
  lemma PutEffect(l: LookupCache, k: Key, results: seq<string>, now: nat)
    requires l.Valid() && l.Active()
    ensures var l' := Put(l, k, results, now);
      && l'.Active() && SameConfig(l, l')
      && (|results| > l.maxResult ==> l' == l)
      && (|results| <= l.maxResult ==>
           && l'.Find(k) == Some(Entry(results, now, now + l.ttl))
           && forall t: nat :: Served(l', k, t) == if t <= now + l.ttl then Some(results) else None)
      && OthersStay(l, l', k)
  {
    hide Lru.Touch, Without, NoDup;
    AddEffect(l.cache.value, k, Entry(results, now, now + l.ttl));
    var evicted := if |results| > l.maxResult then None else l.cache.value.Add(k, Entry(results, now, now + l.ttl)).1;
    var l' := Put(l, k, results, now);
    hide Lru.Add, Lru.Valid;
    assert AllStayBut(l, l', k, evicted);
  }

  /** A lookup that found nothing live, and stores what it fetched if it fetched something. */
  lemma MissEffect(l: LookupCache, k: Key, fetched: Option<seq<string>>, storedAt: nat)
    requires l.Valid()
    ensures var l1 := Touch(l, k);
      var l' := if fetched.Some? then Put(l1, k, fetched.value, storedAt) else l1;
      && SameConfig(l, l') && OthersStay(l, l', k)
      && (fetched.Some? && |fetched.value| <= l.maxResult && l.Active() ==>
           forall t: nat :: Served(l', k, t) == if t <= storedAt + l.ttl then Some(fetched.value) else None)
      && (fetched.None? || |fetched.value| > l.maxResult || !l.Active() ==> forall x :: l'.Find(x) == l.Find(x))
  {
    var l1 := Touch(l, k);
    assert l.Active() ==> |l1.cache.value.entries| == |l.cache.value.entries|;
    if fetched.Some? && l.Active() {
      PutEffect(l1, k, fetched.value, storedAt);
      var l' := Put(l1, k, fetched.value, storedAt);
      hide Put, Touch, Served;
      var evicted :| AllStayBut(l1, l', k, evicted);
      assert AllStayBut(l, l', k, evicted);
    } else {
      assert AllStayBut(l, l1, k, None);
    }
  }

  /** Lists are kept in the order of their last uses: reads that hit, live or expired, and writes count as uses,
      and so do created relations offered to a list. */
  lemma ReadsKeepUseOrder(l: LookupCache, uses: seq<Key>, k: Key, v: string, now: nat)
    requires l.Active() && ByLastUse(l.cache.value.order, uses)
    ensures var uses' := if l.Find(k).Some? then uses + [k] else uses;
      && ByLastUse(Touch(l, k).cache.value.order, uses')
      && AppendIfLive(l, k, v, now).Active() && ByLastUse(AppendIfLive(l, k, v, now).cache.value.order, uses')
  {
    hide ByLastUse, Without;
    ReadsKeepRecency(l.cache.value, uses, k, {});
  }

  lemma PutKeepsUseOrder(l: LookupCache, uses: seq<Key>, k: Key, results: seq<string>, now: nat)
    requires l.Valid() && l.Active() && ByLastUse(l.cache.value.order, uses)
    ensures ByLastUse(Put(l, k, results, now).cache.value.order, if |results| <= l.maxResult then uses + [k] else uses)
  {
    hide ByLastUse;
    WritesEvictLeastRecent(l.cache.value, uses, k, Entry(results, now, now + l.ttl));
    hide Lru.Add, NoDup;
  }

  // ---------------------------------------------------------------- rows

  function EncodeRows(rows: seq<AuthzRelation>): (r: seq<string>)
    ensures |r| == |rows|
    ensures forall i :: 0 <= i < |rows| ==>
      r[i] == EncodeRow(rows[i].resource, rows[i].relationDefinition, rows[i].namespace)
  {
    if rows == [] then [] else
      var last := rows[|rows| - 1];
      EncodeRows(rows[..|rows| - 1]) + [EncodeRow(last.resource, last.relationDefinition, last.namespace)]
  }

  /** The rows that split into three parts, in order. */
  function DecodeRows(results: seq<string>, target: string): seq<AuthzRelation> {
    if results == [] then []
    else
      var front := DecodeRows(results[..|results| - 1], target);
      match DecodeRow(results[|results| - 1], target)
      case Some(row) => front + [row]
      case None => front
  }

  function ServedRows(l: LookupCache, target: string, now: nat): Option<seq<AuthzRelation>> {
    match Served(l, WhatCanTargetAccessKey(target), now)
    case None => None
    case Some(results) =>
      var rows := DecodeRows(results, target);
      if rows == [] then None else Some(rows)
  }

  predicate RowsReadable(results: seq<string>) {
    forall i :: 0 <= i < |results| ==> DecodeRow(results[i], "").Some?
  }

  /** Every candidate list of a target can be read back whole, and every entry lives for one TTL. */
  ghost predicate Sane(l: LookupCache) {
    && l.Valid()
    && (forall t, e :: l.Find(WhatCanTargetAccessKey(t)) == Some(e) ==> RowsReadable(e.results))
    && (forall k, e :: l.Find(k) == Some(e) ==> e.expiresAt == e.cachedAt + l.ttl)
  }

  lemma {:induction false} ReadableDecodes(results: seq<string>, target: string)
    requires RowsReadable(results)
    ensures EncodeRows(DecodeRows(results, target)) == results
    ensures forall i :: 0 <= i < |DecodeRows(results, target)| ==> DecodeRows(results, target)[i].target == target
  {
    hide SplitN;
    if results != [] {
      var front, row := results[..|results| - 1], results[|results| - 1];
      assert forall i :: 0 <= i < |front| ==> front[i] == results[i];
      ReadableDecodes(front, target);
      assert DecodeRow(row, "").Some?;
      DecodeEncode(row, target);
      var rows := DecodeRows(results, target);
      assert rows[..|rows| - 1] == DecodeRows(front, target);
      assert results == front + [row];
    }
  }

  /** Rows without bars in their resource and relation definition come back as they were written. */
  lemma {:induction false} RowsRoundTrip(rows: seq<AuthzRelation>, target: string)
    requires forall i :: 0 <= i < |rows| ==> rows[i].target == target
    requires forall i :: 0 <= i < |rows| ==> '|' !in rows[i].resource && '|' !in rows[i].relationDefinition
    ensures DecodeRows(EncodeRows(rows), target) == rows
  {
    if rows != [] {
      var front, row := rows[..|rows| - 1], rows[|rows| - 1];
      RowsRoundTrip(front, target);
      RowRoundTrip(row.resource, row.relationDefinition, row.namespace, target);
      assert EncodeRows(rows)[..|rows| - 1] == EncodeRows(front);
      assert rows == front + [row];
    }
  }

  lemma EncodedReadable(rows: seq<AuthzRelation>)
    ensures RowsReadable(EncodeRows(rows))
  {
    forall i | 0 <= i < |rows|
      ensures DecodeRow(EncodeRows(rows)[i], "").Some?
    {
      WrittenRowDecodes(rows[i].resource, rows[i].relationDefinition, rows[i].namespace, "");
    }
  }

  function PutRows(l: LookupCache, target: string, rows: seq<AuthzRelation>, now: nat): LookupCache
    requires l.Valid()
  {
    Put(l, WhatCanTargetAccessKey(target), EncodeRows(rows), now)
  }

  /** Lookup round trip: a non-empty list within the size limit is served back unchanged for as long as its
      entry has neither expired nor been evicted or rewritten. */
  lemma PutThenServe(l: LookupCache, target: string, rows: seq<AuthzRelation>, putAt: nat, l': LookupCache, now: nat)
    requires l.Valid() && l.Active() && l'.Active() && 0 < |rows| <= l.maxResult
    requires forall i :: 0 <= i < |rows| ==> rows[i].target == target
    requires forall i :: 0 <= i < |rows| ==> '|' !in rows[i].resource && '|' !in rows[i].relationDefinition
    requires var k := WhatCanTargetAccessKey(target); l'.Find(k) == PutRows(l, target, rows, putAt).Find(k)
    ensures ServedRows(l', target, now) == (if now <= putAt + l.ttl then Some(rows) else None)
  {
    AddEffect(l.cache.value, WhatCanTargetAccessKey(target), Entry(EncodeRows(rows), putAt, putAt + l.ttl));
    RowsRoundTrip(rows, target);
  }

  // ---------------------------------------------------------------- locally created relations

  function AppendIfLive(l: LookupCache, k: Key, v: string, now: nat): LookupCache {
    if !l.Active() then l
    else
      var touched := l.cache.value.Touch(k);
      match l.Find(k)
      case None => l
      case Some(e) =>
        if now < e.expiresAt && v !in e.results
        then l.(cache := Some(touched.(entries := touched.entries[k := e.(results := e.results + [v])])))
        else l.(cache := Some(touched))
  }

  function AddRelation(l: LookupCache, r: Relation, whoAt: nat, whatAt: nat): LookupCache {
    var l' := AppendIfLive(l, WhoCanAccessKey(r.resource, r.relation, r.resourceType), r.target, whoAt);
    AppendIfLive(l', WhatCanTargetAccessKey(r.target), EncodeRow(r.resource, r.relation, r.resourceType), whatAt)
  }

  /** The clock is read twice for each relation, in order: `clock` gives the readings by number. */
  function AddRelations(l: LookupCache, rs: seq<Relation>, clock: nat -> nat): LookupCache {
    if rs == [] then l
    else
      var n := |rs| - 1;
      AddRelation(AddRelations(l, rs[..n], clock), rs[n], clock(2 * n), clock(2 * n + 1))
  }

  lemma AddNone(l: LookupCache, clock: nat -> nat)
    ensures AddRelations(l, [], clock) == l
  {
  }

  lemma AddNext(l: LookupCache, rs: seq<Relation>, i: nat, clock: nat -> nat)
    requires i < |rs|
    ensures AddRelations(l, rs[..i + 1], clock) ==
      AddRelation(AddRelations(l, rs[..i], clock), rs[i], clock(2 * i), clock(2 * i + 1))
  {
    hide AddRelation;
    assert rs[..i + 1][..i] == rs[..i];
  }

  /** What a created relation has to say under one key, if the clock had not reached `expiry`. */
  function Addition(k: Key, r: Relation, whoAt: nat, whatAt: nat, expiry: nat): seq<string> {
    if k == WhoCanAccessKey(r.resource, r.relation, r.resourceType) then if whoAt < expiry then [r.target] else []
    else if k == WhatCanTargetAccessKey(r.target)
    then if whatAt < expiry then [EncodeRow(r.resource, r.relation, r.resourceType)] else []
    else []
  }

  /** What created relations have to say, in the order they were created. */
  function Additions(k: Key, rs: seq<Relation>, clock: nat -> nat, expiry: nat): seq<string> {
    if rs == [] then []
    else
      var n := |rs| - 1;
      Additions(k, rs[..n], clock, expiry) + Addition(k, rs[n], clock(2 * n), clock(2 * n + 1), expiry)
  }

  /** The first occurrences in `vs` of values that are not in `seen`. */
  function Missing(seen: seq<string>, vs: seq<string>): (r: seq<string>)
    ensures forall x :: x in r <==> x in vs && x !in seen
    ensures NoDup(r)
  {
    if vs == [] then []
    else
      var front, v := vs[..|vs| - 1], vs[|vs| - 1];
      assert vs == front + [v];
      var r := Missing(seen, front);
      if v in seen || v in front then r else r + [v]
  }

  /** An entry after the creates: it gains what it misses. */
  function Extended(e: Entry, vs: seq<string>): Entry {
    e.(results := e.results + Missing(e.results, vs))
  }

  /** An entry after one candidate is offered. */
  function Gained(e: Entry, v: string, now: nat): Entry {
    if now < e.expiresAt && v !in e.results then e.(results := e.results + [v]) else e
  }

  lemma AppendEffect(l: LookupCache, k: Key, v: string, now: nat)
    requires l.Valid() && l.Active()
    ensures var l' := AppendIfLive(l, k, v, now);
      && l'.Valid() && l'.Active() && SameConfig(l, l')
      && (forall x :: l'.Find(x) ==
           if x == k && l.Find(k).Some? then Some(Gained(l.Find(k).value, v, now)) else l.Find(x))
  {
  }

  lemma ExtendOnce(e: Entry, vs: seq<string>, v: string)
    ensures var e1 := Extended(e, vs);
      Extended(e, vs + [v]) == if v !in e1.results then e1.(results := e1.results + [v]) else e1
  {
    assert (vs + [v])[..|vs|] == vs;
    assert v in Extended(e, vs).results <==> v in e.results || v in vs;
  }

  /** An entry under `k` after one created relation. */
  function GainedBy(k: Key, e: Entry, r: Relation, whoAt: nat, whatAt: nat): Entry {
    if k == WhoCanAccessKey(r.resource, r.relation, r.resourceType) then Gained(e, r.target, whoAt)
    else if k == WhatCanTargetAccessKey(r.target)
    then Gained(e, EncodeRow(r.resource, r.relation, r.resourceType), whatAt)
    else e
  }

  lemma AddRelationEffect(l: LookupCache, r: Relation, whoAt: nat, whatAt: nat)
    requires l.Valid() && l.Active()
    ensures var l' := AddRelation(l, r, whoAt, whatAt);
      && l'.Valid() && l'.Active() && SameConfig(l, l')
      && (forall k :: l'.Find(k) ==
           if l.Find(k).Some? then Some(GainedBy(k, l.Find(k).value, r, whoAt, whatAt)) else None)
  {
    hide AppendIfLive;
    var who := WhoCanAccessKey(r.resource, r.relation, r.resourceType);
    LookupFamiliesDisjoint(r.resource, r.relation, r.resourceType, r.target);
    AppendEffect(l, who, r.target, whoAt);
    AppendEffect(AppendIfLive(l, who, r.target, whoAt), WhatCanTargetAccessKey(r.target),
                 EncodeRow(r.resource, r.relation, r.resourceType), whatAt);
  }

  lemma ExtendNext(k: Key, e: Entry, vs: seq<string>, r: Relation, whoAt: nat, whatAt: nat)
    ensures GainedBy(k, Extended(e, vs), r, whoAt, whatAt) ==
      Extended(e, vs + Addition(k, r, whoAt, whatAt, e.expiresAt))
  {
    hide WhoCanAccessKey, WhatCanTargetAccessKey, EncodeRow;
    ExtendOnce(e, vs, r.target);
    ExtendOnce(e, vs, EncodeRow(r.resource, r.relation, r.resourceType));
    hide Missing;
    assert vs + [] == vs;
  }

  /** Local creates reach live lookup entries: under each key the cached list is the old one followed by
      the candidates it misses, in first-occurrence order, of those the clock allowed; whole entries neither
      come nor go, and all expiry times stay. */
  lemma {:induction false} CreatesReachLiveEntries(l: LookupCache, rs: seq<Relation>, clock: nat -> nat)
    requires l.Valid() && l.Active()
    ensures var l' := AddRelations(l, rs, clock);
      && l'.Valid() && l'.Active() && SameConfig(l, l')
      && (forall k :: l.Find(k).None? ==> l'.Find(k).None?)
      && (forall k :: l.Find(k).Some? ==>
           var e := l.Find(k).value;
           l'.Find(k) == Some(Extended(e, Additions(k, rs, clock, e.expiresAt))))
  {
    hide AddRelation, GainedBy, Addition, LookupCache.Find, LookupCache.Valid, LookupCache.Active;
    if rs == [] {
      forall k | l.Find(k).Some?
        ensures Extended(l.Find(k).value, []) == l.Find(k).value
      {
        assert l.Find(k).value.results + [] == l.Find(k).value.results;
      }
    } else {
      hide Extended, Missing;
      var n := |rs| - 1;
      CreatesReachLiveEntries(l, rs[..n], clock);
      AddRelationEffect(AddRelations(l, rs[..n], clock), rs[n], clock(2 * n), clock(2 * n + 1));
      forall k, e | l.Find(k) == Some(e)
        ensures AddRelations(l, rs, clock).Find(k) == Some(Extended(e, Additions(k, rs, clock, e.expiresAt)))
      {
        ExtendNext(k, e, Additions(k, rs[..n], clock, e.expiresAt), rs[n], clock(2 * n), clock(2 * n + 1));
      }
    }
  }

  lemma {:induction false} AddRelationsKeepConfig(l: LookupCache, rs: seq<Relation>, clock: nat -> nat)
    ensures SameConfig(l, AddRelations(l, rs, clock))
  {
    if rs != [] {
      AddRelationsKeepConfig(l, rs[..|rs| - 1], clock);
    }
  }

  /** Which candidates the clock allows: all of them while it stays before the expiry, none from then on. */
  lemma {:induction false} AdditionsByClock(k: Key, rs: seq<Relation>, clock: nat -> nat, expiry: nat)
    ensures (forall i: nat :: clock(i) >= expiry) ==> Additions(k, rs, clock, expiry) == []
    ensures (forall i: nat :: clock(i) < expiry) ==> forall r :: r in rs ==>
      && (k == WhoCanAccessKey(r.resource, r.relation, r.resourceType) ==> r.target in Additions(k, rs, clock, expiry))
      && (k == WhatCanTargetAccessKey(r.target) ==>
           EncodeRow(r.resource, r.relation, r.resourceType) in Additions(k, rs, clock, expiry))
  {
    if rs != [] {
      var last := rs[|rs| - 1];
      AdditionsByClock(k, rs[..|rs| - 1], clock, expiry);
      LookupFamiliesDisjoint(last.resource, last.relation, last.resourceType, last.target);
      assert rs == rs[..|rs| - 1] + [last];
    }
  }

  /** A list without repetitions stays so. */
  lemma ExtendedNoDup(e: Entry, vs: seq<string>)
    requires NoDup(e.results)
    ensures NoDup(Extended(e, vs).results)
    ensures Extended(e, vs).expiresAt == e.expiresAt
    ensures e.results <= Extended(e, vs).results
    ensures forall v :: v in vs ==> v in Extended(e, vs).results
  {
    var more := Missing(e.results, vs);
    var all := e.results + more;
    forall i, j | 0 <= i < j < |all|
      ensures all[i] != all[j]
    {
      if i < |e.results| <= j {
        assert more[j - |e.results|] in more;
        assert all[i] in e.results;
      }
    }
  }

  // ---------------------------------------------------------------- every operation keeps lists readable

  lemma PutSane(l: LookupCache, k: Key, results: seq<string>, now: nat)
    requires Sane(l)
    requires (forall t :: k != WhatCanTargetAccessKey(t)) || RowsReadable(results)
    ensures Sane(Put(l, k, results, now))
  {
    if l.Active() && |results| <= l.maxResult {
      AddEffect(l.cache.value, k, Entry(results, now, now + l.ttl));
      var l' := Put(l, k, results, now);
      assert forall x :: x != k && l'.Find(x).Some? ==> l.Find(x) == l'.Find(x);
    }
  }

  lemma PutTargetsSane(l: LookupCache, r: string, d: string, n: string, targets: seq<string>, now: nat)
    requires Sane(l)
    ensures Sane(Put(l, WhoCanAccessKey(r, d, n), targets, now))
  {
    forall t {
      LookupFamiliesDisjoint(r, d, n, t);
    }
    PutSane(l, WhoCanAccessKey(r, d, n), targets, now);
  }

  lemma PutRowsSane(l: LookupCache, target: string, rows: seq<AuthzRelation>, now: nat)
    requires Sane(l)
    ensures Sane(PutRows(l, target, rows, now))
  {
    EncodedReadable(rows);
    PutSane(l, WhatCanTargetAccessKey(target), EncodeRows(rows), now);
  }

  lemma TouchPurgeSane(l: LookupCache, k: Key)
    requires Sane(l)
    ensures Sane(Touch(l, k)) && Sane(Purge(l))
  {
    assert forall x :: Purge(l).Find(x) == None;
  }

  lemma AppendSane(l: LookupCache, k: Key, v: string, now: nat)
    requires Sane(l)
    requires (forall t :: k != WhatCanTargetAccessKey(t)) || DecodeRow(v, "").Some?
    ensures Sane(AppendIfLive(l, k, v, now))
  {
    if l.Active() {
      AppendEffect(l, k, v, now);
    }
  }

  lemma AddRelationSane(l: LookupCache, r: Relation, whoAt: nat, whatAt: nat)
    requires Sane(l)
    ensures Sane(AddRelation(l, r, whoAt, whatAt))
  {
    hide AppendIfLive;
    var who := WhoCanAccessKey(r.resource, r.relation, r.resourceType);
    forall t {
      LookupFamiliesDisjoint(r.resource, r.relation, r.resourceType, t);
    }
    AppendSane(l, who, r.target, whoAt);
    WrittenRowDecodes(r.resource, r.relation, r.resourceType, "");
    AppendSane(AppendIfLive(l, who, r.target, whoAt), WhatCanTargetAccessKey(r.target),
               EncodeRow(r.resource, r.relation, r.resourceType), whatAt);
  }

  lemma {:induction false} AddRelationsSane(l: LookupCache, rs: seq<Relation>, clock: nat -> nat)
    requires Sane(l)
    ensures Sane(AddRelations(l, rs, clock))
  {
    hide Sane, AddRelation;
    if rs != [] {
      var n := |rs| - 1;
      AddRelationsSane(l, rs[..n], clock);
      AddRelationSane(AddRelations(l, rs[..n], clock), rs[n], clock(2 * n), clock(2 * n + 1));
    }
  }

  lemma ServedRowsNotEmpty(l: LookupCache, target: string, now: nat)
    ensures ServedRows(l, target, now).Some? ==> ServedRows(l, target, now).value != []
  {
  }

  /** In a sane cache a target's candidates are served whole: none is skipped for not splitting in three. */
  lemma SaneServesAll(l: LookupCache, target: string, now: nat)
    requires Sane(l)
    ensures var results := Served(l, WhatCanTargetAccessKey(target), now);
      && (results.Some? && results.value != [] ==>
           ServedRows(l, target, now).Some? && EncodeRows(ServedRows(l, target, now).value) == results.value)
      && (results.None? || results.value == [] ==> ServedRows(l, target, now).None?)
  {
    var results := Served(l, WhatCanTargetAccessKey(target), now);
    if results.Some? {
      ReadableDecodes(results.value, target);
    }
  }
}
