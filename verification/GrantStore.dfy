/** The direct grants with the reverse indexes kept beside them, as values: what adding, evicting and
    sweeping do to them, and the invariants that make sweeping find every grant it must drop. */
module GrantStore {
  import opened Types
  import opened Keys
  import opened Lrus

  /** First name, then second name, then the keys filed under both. */
  type Index = map<string, map<string, seq<Key>>>

  datatype Components = Components(resource: string, target: string)

  datatype Store = Store(cache: Lru<Key, Grant>, byResource: Index, byTarget: Index,
                         components: map<Key, Components>)

  // ---------------------------------------------------------------- one index

  ghost predicate Filed(ix: Index, a: string, b: string, k: Key) {
    a in ix && b in ix[a] && k in ix[a][b]
  }

  /** No empty lists and no empty inner maps. */
  ghost predicate Tidy(ix: Index) {
    forall a :: a in ix ==> ix[a] != map[] && forall b :: b in ix[a] ==> ix[a][b] != []
  }

  function KeysAt(inner: map<string, seq<Key>>, b: string): seq<Key> {
    if b in inner then inner[b] else []
  }

  /** The keys filed under `a` and `b`, in the order they were filed. */
  function ListAt(ix: Index, a: string, b: string): seq<Key> {
    if a in ix then KeysAt(ix[a], b) else []
  }

  function FileKey(ix: Index, a: string, b: string, k: Key): Index {
    if a in ix then ix[a := ix[a][b := KeysAt(ix[a], b) + [k]]] else ix[a := map[b := [k]]]
  }

  function RemoveFirst(keys: seq<Key>, k: Key): (r: seq<Key>)
    ensures forall x :: x in r ==> x in keys
    ensures forall x :: x in keys && x != k ==> x in r
  {
    if keys == [] then []
    else if keys[0] == k then keys[1..]
    else [keys[0]] + RemoveFirst(keys[1..], k)
  }

  lemma RemoveFirstTakesOne(keys: seq<Key>, k: Key)
    ensures multiset(RemoveFirst(keys, k)) == multiset(keys) - multiset{k}
  {
    if keys != [] {
      assert keys == [keys[0]] + keys[1..];
      RemoveFirstTakesOne(keys[1..], k);
    }
  }

  /** One occurrence of `k` is taken out, with the list and the inner map it leaves empty. */
  function UnfileKey(ix: Index, a: string, b: string, k: Key): Index {
    if a !in ix then ix
    else
      var keys := RemoveFirst(KeysAt(ix[a], b), k);
      var inner := if keys == [] then ix[a] - {b} else ix[a][b := keys];
      if inner == map[] then ix - {a} else ix[a := inner]
  }

  /** All keys filed under `a`. */
  function KeysUnder(ix: Index, a: string): set<Key> {
    if a in ix then set b, k | b in ix[a] && k in ix[a][b] :: k else {}
  }

  lemma UnderIsFiled(ix: Index, a: string, k: Key)
    ensures k in KeysUnder(ix, a) <==> exists b :: Filed(ix, a, b, k)
  {
    if k in KeysUnder(ix, a) {
      var b :| b in ix[a] && k in ix[a][b];
      assert Filed(ix, a, b, k);
    }
    if b :| Filed(ix, a, b, k) {
      assert b in ix[a] && k in ix[a][b];
    }
  }

  lemma FileEffect(ix: Index, a: string, b: string, k: Key)
    requires Tidy(ix)
    ensures Tidy(FileKey(ix, a, b, k)) && Filed(FileKey(ix, a, b, k), a, b, k)
    ensures forall a', b', k' :: Filed(FileKey(ix, a, b, k), a', b', k')
                                 <==> Filed(ix, a', b', k') || (a' == a && b' == b && k' == k)
  {
  }

  lemma UnfileEffect(ix: Index, a: string, b: string, k: Key)
    requires Tidy(ix)
    ensures Tidy(UnfileKey(ix, a, b, k))
    ensures forall a', b', k' :: Filed(UnfileKey(ix, a, b, k), a', b', k') ==> Filed(ix, a', b', k')
    ensures forall a', b', k' :: k' != k && Filed(ix, a', b', k') ==> Filed(UnfileKey(ix, a, b, k), a', b', k')
  {
    var ix' := UnfileKey(ix, a, b, k);
    if a in ix {
      var keys := RemoveFirst(KeysAt(ix[a], b), k);
      forall a', b', k' | k' != k && Filed(ix, a', b', k')
        ensures Filed(ix', a', b', k')
      {
        if a' == a && b' == b {
          assert k' in keys;
        }
        if a' == a {
          var inner := if keys == [] then ix[a] - {b} else ix[a][b := keys];
          assert b' in inner;
        }
      }
    }
  }

  /** Filing appends the key to its own list and touches no other. */
  lemma FileExactly(ix: Index, a: string, b: string, k: Key)
    ensures forall a', b' :: ListAt(FileKey(ix, a, b, k), a', b') ==
                             if a' == a && b' == b then ListAt(ix, a', b') + [k] else ListAt(ix, a', b')
  {
  }

  /** Unfiling takes one occurrence of the key out of its own list and touches no other. */
  lemma UnfileExactly(ix: Index, a: string, b: string, k: Key)
    ensures forall a', b' :: multiset(ListAt(UnfileKey(ix, a, b, k), a', b')) ==
                             multiset(ListAt(ix, a', b')) - (if a' == a && b' == b then multiset{k} else multiset{})
  {
    forall a', b'
      ensures ListAt(UnfileKey(ix, a, b, k), a', b') ==
              if a' == a && b' == b then RemoveFirst(ListAt(ix, a', b'), k) else ListAt(ix, a', b')
    {
      UnfiledAt(ix, a, b, k, a', b');
    }
    RemoveFirstTakesOne(ListAt(ix, a, b), k);
    hide UnfileKey, RemoveFirst, ListAt;
  }

  lemma UnfiledAt(ix: Index, a: string, b: string, k: Key, a': string, b': string)
    ensures ListAt(UnfileKey(ix, a, b, k), a', b') ==
            if a' == a && b' == b then RemoveFirst(ListAt(ix, a', b'), k) else ListAt(ix, a', b')
  {
    assert RemoveFirst([], k) == [];
    hide RemoveFirst;
    if a in ix {
      var keys := RemoveFirst(KeysAt(ix[a], b), k);
      var inner := if keys == [] then ix[a] - {b} else ix[a][b := keys];
      assert KeysAt(inner, b') == if b' == b then keys else KeysAt(ix[a], b');
    }
  }

  // ---------------------------------------------------------------- operations

  function AddDirect(s: Store, q: Triple, g: Grant): Store
    requires s.cache.Valid()
  {
    var k := KeyOf(q);
    var (cache, evicted) := s.cache.Add(k, g);
    var s' := if evicted.Some? then Evict(s, evicted.value) else s;
    Store(cache, FileKey(s'.byResource, q.resource, q.target, k), FileKey(s'.byTarget, q.target, q.resource, k),
          s'.components[k := Components(q.resource, q.target)])
  }

  /** The index side of an eviction. */
  function Evict(s: Store, k: Key): Store {
    if k !in s.components then s
    else
      var c := s.components[k];
      Store(s.cache, UnfileKey(s.byResource, c.resource, c.target, k),
            UnfileKey(s.byTarget, c.target, c.resource, k), s.components - {k})
  }

  function SweepResource(s: Store, r: string): Store {
    Store(s.cache.RemoveAll(KeysUnder(s.byResource, r)), s.byResource - {r}, s.byTarget, s.components)
  }

  function SweepTarget(s: Store, t: string): Store {
    Store(s.cache.RemoveAll(KeysUnder(s.byTarget, t)), s.byResource, s.byTarget - {t}, s.components)
  }

  function SweepResources(s: Store, rs: seq<string>): Store {
    if rs == [] then s else SweepResource(SweepResources(s, rs[..|rs| - 1]), rs[|rs| - 1])
  }

  function SweepTargets(s: Store, ts: seq<string>): Store {
    if ts == [] then s else SweepTarget(SweepTargets(s, ts[..|ts| - 1]), ts[|ts| - 1])
  }

  /** A sweep for each relation in turn: its resource, then its target. */
  function SweepRelations(s: Store, rs: seq<Relation>): Store {
    if rs == [] then s
    else
      var s' := SweepRelations(s, rs[..|rs| - 1]);
      var r := rs[|rs| - 1];
      SweepTarget(SweepResource(s', r.resource), r.target)
  }

  lemma SweepNone(s: Store)
    ensures SweepRelations(s, []) == s
  {
  }

  lemma SweepNext(s: Store, rs: seq<Relation>, i: nat)
    requires i < |rs|
    ensures SweepRelations(s, rs[..i + 1]) ==
      SweepTarget(SweepResource(SweepRelations(s, rs[..i]), rs[i].resource), rs[i].target)
  {
    hide SweepResource, SweepTarget;
    assert rs[..i + 1][..i] == rs[..i];
  }

  lemma SweepNamesNone(s: Store)
    ensures SweepResources(s, []) == s && SweepTargets(s, []) == s
  {
  }

  lemma SweepNamesNext(s: Store, names: seq<string>, i: nat)
    requires i < |names|
    ensures SweepResources(s, names[..i + 1]) == SweepResource(SweepResources(s, names[..i]), names[i])
    ensures SweepTargets(s, names[..i + 1]) == SweepTarget(SweepTargets(s, names[..i]), names[i])
  {
    hide SweepResource, SweepTarget;
    assert names[..i + 1][..i] == names[..i];
  }

  function Purge(s: Store): Store {
    Store(s.cache.Purge(), map[], map[], map[])
  }

  function TouchDirect(s: Store, k: Key): Store {
    s.(cache := s.cache.Touch(k))
  }

  // ---------------------------------------------------------------- invariants

  ghost predicate Located(s: Store, k: Key) {
    && k in s.components
    && Filed(s.byResource, s.components[k].resource, s.components[k].target, k)
    && Filed(s.byTarget, s.components[k].target, s.components[k].resource, k)
  }

  /** Every cached key is filed under its components in both indexes, and the indexes hold nothing empty.
      The indexes may hold more: a sweep leaves keys behind in the other index, and writing a cached key
      again files it a second time. */
  ghost predicate Complete(s: Store) {
    && s.cache.Valid()
    && Tidy(s.byResource) && Tidy(s.byTarget)
    && (forall k :: k in s.cache.entries ==> Located(s, k))
  }

  /** `k` is the key of a relation in play with this resource and target. */
  ghost predicate Names(play: iset<Triple>, k: Key, r: string, t: string) {
    exists n: string :: Triple(r, t, n) in play && k == KeyOf(Triple(r, t, n))
  }

  /** Keys are only ever filed under the resource and target of a relation in play. */
  ghost predicate Honest(s: Store, play: iset<Triple>) {
    && (forall r, t, k :: Filed(s.byResource, r, t, k) ==> Names(play, k, r, t))
    && (forall r, t, k :: Filed(s.byTarget, t, r, k) ==> Names(play, k, r, t))
    && (forall k :: k in s.components ==> Names(play, k, s.components[k].resource, s.components[k].target))
  }

  lemma NamesOnce(play: iset<Triple>, k: Key, r: string, t: string, r': string, t': string)
    requires Separates(play) && Names(play, k, r, t) && Names(play, k, r', t')
    ensures r == r' && t == t'
  {
  }

  lemma NamesKey(play: iset<Triple>, q: Triple, r: string, t: string)
    requires Separates(play) && q in play && Names(play, KeyOf(q), r, t)
    ensures r == q.resource && t == q.target
  {
    assert q == Triple(q.resource, q.target, q.relation);
  }

  // ---------------------------------------------------------------- every operation keeps the invariants

  lemma EvictKeeps(s: Store, k: Key)
    requires Tidy(s.byResource) && Tidy(s.byTarget)
    ensures var s' := Evict(s, k);
      && s'.cache == s.cache && Tidy(s'.byResource) && Tidy(s'.byTarget)
      && (forall k' :: k' != k && Located(s, k') ==> Located(s', k'))
      && (forall a, b, k' :: Filed(s'.byResource, a, b, k') ==> Filed(s.byResource, a, b, k'))
      && (forall a, b, k' :: Filed(s'.byTarget, a, b, k') ==> Filed(s.byTarget, a, b, k'))
      && (forall k' :: k' in s'.components ==> k' in s.components && s'.components[k'] == s.components[k'])
  {
    if k in s.components {
      var c := s.components[k];
      UnfileEffect(s.byResource, c.resource, c.target, k);
      UnfileEffect(s.byTarget, c.target, c.resource, k);
    }
  }

  /** The eviction callback forgets the key: its components, and one occurrence in each index at its place. */
  lemma EvictExactly(s: Store, k: Key)
    ensures var s' := Evict(s, k);
      && s'.cache == s.cache && s'.components == s.components - {k}
      && (k !in s.components ==> s' == s)
      && (k in s.components ==>
           var c := s.components[k];
           forall a, b ::
             && multiset(ListAt(s'.byResource, a, b)) == multiset(ListAt(s.byResource, a, b))
                  - (if a == c.resource && b == c.target then multiset{k} else multiset{})
             && multiset(ListAt(s'.byTarget, a, b)) == multiset(ListAt(s.byTarget, a, b))
                  - (if a == c.target && b == c.resource then multiset{k} else multiset{}))
  {
    if k in s.components {
      var c := s.components[k];
      UnfileExactly(s.byResource, c.resource, c.target, k);
      UnfileExactly(s.byTarget, c.target, c.resource, k);
    } else {
      assert s.components - {k} == s.components;
    }
  }

  lemma AddDirectComplete(s: Store, q: Triple, g: Grant)
    requires Complete(s)
    ensures Complete(AddDirect(s, q, g))
  {
    var k := KeyOf(q);
    AddEffect(s.cache, k, g);
    var evicted := s.cache.Add(k, g).1;
    var s1 := if evicted.Some? then Evict(s, evicted.value) else s;
    if evicted.Some? {
      EvictKeeps(s, evicted.value);
    }
    FileEffect(s1.byResource, q.resource, q.target, k);
    FileEffect(s1.byTarget, q.target, q.resource, k);
    var s' := AddDirect(s, q, g);
    forall k' | k' in s'.cache.entries
      ensures Located(s', k')
    {
      if k' != k {
        assert Located(s, k') && Located(s1, k');
      }
    }
  }

  lemma AddDirectCache(s: Store, q: Triple, g: Grant)
    requires s.cache.Valid()
    ensures AddDirect(s, q, g).cache == s.cache.Add(KeyOf(q), g).0
  {
  }

  lemma AddDirectHonest(s: Store, q: Triple, g: Grant, play: iset<Triple>)
    requires Complete(s) && Honest(s, play) && q in play
    ensures Honest(AddDirect(s, q, g), play)
  {
    var k := KeyOf(q);
    assert q == Triple(q.resource, q.target, q.relation);
    assert Names(play, k, q.resource, q.target);
    var evicted := s.cache.Add(k, g).1;
    var s1 := if evicted.Some? then Evict(s, evicted.value) else s;
    if evicted.Some? {
      EvictKeeps(s, evicted.value);
    }
    FileEffect(s1.byResource, q.resource, q.target, k);
    FileEffect(s1.byTarget, q.target, q.resource, k);
  }

  lemma SweepResourceComplete(s: Store, r: string)
    requires Complete(s)
    ensures Complete(SweepResource(s, r))
  {
    var s' := SweepResource(s, r);
    forall k | k in s'.cache.entries
      ensures Located(s', k)
    {
      assert Located(s, k);
      UnderIsFiled(s.byResource, r, k);
    }
  }

  lemma SweepTargetComplete(s: Store, t: string)
    requires Complete(s)
    ensures Complete(SweepTarget(s, t))
  {
    var s' := SweepTarget(s, t);
    forall k | k in s'.cache.entries
      ensures Located(s', k)
    {
      assert Located(s, k);
      UnderIsFiled(s.byTarget, t, k);
    }
  }

  lemma SweepHonest(s: Store, r: string, t: string, play: iset<Triple>)
    requires Honest(s, play)
    ensures Honest(SweepResource(s, r), play) && Honest(SweepTarget(s, t), play)
  {
    assert forall a, b, k :: Filed(SweepResource(s, r).byResource, a, b, k) ==> Filed(s.byResource, a, b, k);
    assert forall a, b, k :: Filed(SweepTarget(s, t).byTarget, a, b, k) ==> Filed(s.byTarget, a, b, k);
  }

  // ---------------------------------------------------------------- what a sweep drops

  /** Among the cached keys, a resource sweep drops exactly those cached for that resource. */
  lemma SweepResourceExact(s: Store, r: string, play: iset<Triple>)
    requires Complete(s) && Honest(s, play) && Separates(play)
    ensures forall k :: k in s.cache.entries ==>
      (k in SweepResource(s, r).cache.entries <==> s.components[k].resource != r)
    ensures forall k :: k in SweepResource(s, r).cache.entries ==>
      k in s.cache.entries && SweepResource(s, r).cache.entries[k] == s.cache.entries[k]
  {
    forall k | k in s.cache.entries
      ensures k in KeysUnder(s.byResource, r) <==> s.components[k].resource == r
    {
      assert Located(s, k);
      UnderIsFiled(s.byResource, r, k);
      if k in KeysUnder(s.byResource, r) {
        var t :| Filed(s.byResource, r, t, k);
        NamesOnce(play, k, r, t, s.components[k].resource, s.components[k].target);
      }
    }
  }

  lemma SweepTargetExact(s: Store, t: string, play: iset<Triple>)
    requires Complete(s) && Honest(s, play) && Separates(play)
    ensures forall k :: k in s.cache.entries ==>
      (k in SweepTarget(s, t).cache.entries <==> s.components[k].target != t)
    ensures forall k :: k in SweepTarget(s, t).cache.entries ==>
      k in s.cache.entries && SweepTarget(s, t).cache.entries[k] == s.cache.entries[k]
  {
    forall k | k in s.cache.entries
      ensures k in KeysUnder(s.byTarget, t) <==> s.components[k].target == t
    {
      assert Located(s, k);
      UnderIsFiled(s.byTarget, t, k);
      if k in KeysUnder(s.byTarget, t) {
        var r :| Filed(s.byTarget, t, r, k);
        NamesOnce(play, k, r, t, s.components[k].resource, s.components[k].target);
      }
    }
  }

  /** What a sweep did: `s'` is a good store with the components of `s`, and kept, unchanged, exactly the
      keys whose resource and target are not in the two lists. */
  ghost predicate Swept(s: Store, s': Store, resources: seq<string>, targets: seq<string>, play: iset<Triple>) {
    && Complete(s') && Honest(s', play)
    && s'.components == s.components && s'.cache.capacity == s.cache.capacity
    && (forall k :: k in s'.cache.entries <==>
        k in s.cache.entries && k in s.components
        && s.components[k].resource !in resources && s.components[k].target !in targets)
    && (forall k :: k in s'.cache.entries ==> s'.cache.entries[k] == s.cache.entries[k])
  }

  lemma SweptByResource(s: Store, s': Store, rs: seq<string>, ts: seq<string>, r: string, play: iset<Triple>)
    requires Complete(s) && Swept(s, s', rs, ts, play) && Separates(play)
    ensures Swept(s, SweepResource(s', r), rs + [r], ts, play)
  {
    SweepResourceComplete(s', r);
    SweepHonest(s', r, r, play);
    SweepResourceExact(s', r, play);
  }

  lemma SweptByTarget(s: Store, s': Store, rs: seq<string>, ts: seq<string>, t: string, play: iset<Triple>)
    requires Complete(s) && Swept(s, s', rs, ts, play) && Separates(play)
    ensures Swept(s, SweepTarget(s', t), rs, ts + [t], play)
  {
    SweepTargetComplete(s', t);
    SweepHonest(s', t, t, play);
    SweepTargetExact(s', t, play);
  }

  lemma {:induction false} SweepResourcesExact(s: Store, rs: seq<string>, play: iset<Triple>)
    requires Complete(s) && Honest(s, play) && Separates(play)
    ensures Swept(s, SweepResources(s, rs), rs, [], play)
  {
    if rs != [] {
      var front, r := rs[..|rs| - 1], rs[|rs| - 1];
      SweepResourcesExact(s, front, play);
      SweptByResource(s, SweepResources(s, front), front, [], r, play);
      assert front + [r] == rs;
    } else {
      assert forall k :: k in s.cache.entries ==> Located(s, k);
    }
  }

  lemma {:induction false} SweepTargetsExact(s: Store, s': Store, rs: seq<string>, ts: seq<string>, play: iset<Triple>)
    requires Complete(s) && Swept(s, s', rs, [], play) && Separates(play)
    ensures Swept(s, SweepTargets(s', ts), rs, ts, play)
  {
    hide Swept, Complete, Separates, SweepTarget;
    if ts != [] {
      var front, t := ts[..|ts| - 1], ts[|ts| - 1];
      SweepTargetsExact(s, s', rs, front, play);
      SweptByTarget(s, SweepTargets(s', front), rs, front, t, play);
      assert front + [t] == ts;
    }
  }

  function Resources(rs: seq<Relation>): (r: seq<string>)
    ensures forall i :: 0 <= i < |rs| ==> rs[i].resource in r
    ensures forall x :: x in r ==> exists i :: 0 <= i < |rs| && rs[i].resource == x
  {
    if rs == [] then [] else
      assert forall i :: 0 <= i < |rs| - 1 ==> rs[..|rs| - 1][i] == rs[i];
      Resources(rs[..|rs| - 1]) + [rs[|rs| - 1].resource]
  }

  function Targets(rs: seq<Relation>): (r: seq<string>)
    ensures forall i :: 0 <= i < |rs| ==> rs[i].target in r
    ensures forall x :: x in r ==> exists i :: 0 <= i < |rs| && rs[i].target == x
  {
    if rs == [] then [] else
      assert forall i :: 0 <= i < |rs| - 1 ==> rs[..|rs| - 1][i] == rs[i];
      Targets(rs[..|rs| - 1]) + [rs[|rs| - 1].target]
  }

  /** A sweep for written relations drops exactly the keys sharing a resource or a target with one. */
  lemma {:induction false} SweepRelationsExact(s: Store, rs: seq<Relation>, play: iset<Triple>)
    requires Complete(s) && Honest(s, play) && Separates(play)
    ensures Swept(s, SweepRelations(s, rs), Resources(rs), Targets(rs), play)
  {
    if rs != [] {
      var front, r := rs[..|rs| - 1], rs[|rs| - 1];
      SweepRelationsExact(s, front, play);
      var s1 := SweepRelations(s, front);
      SweptByResource(s, s1, Resources(front), Targets(front), r.resource, play);
      SweptByTarget(s, SweepResource(s1, r.resource), Resources(rs), Targets(front), r.target, play);
    } else {
      assert forall k :: k in s.cache.entries ==> Located(s, k);
    }
  }

  lemma WithoutNames(ix: Index, gone: set<string>, n: string, all: set<string>)
    requires all == gone + {n}
    ensures ix - gone - {n} == ix - all
  {
  }

  /** Sweeps drop the swept names' lists in one index each and nothing else of the indexes. */
  lemma {:induction false} SweepNamesIndexes(s: Store, names: seq<string>)
    ensures var gone := set n | n in names;
      && SweepResources(s, names).byResource == s.byResource - gone && SweepResources(s, names).byTarget == s.byTarget
      && SweepTargets(s, names).byTarget == s.byTarget - gone && SweepTargets(s, names).byResource == s.byResource
      && SweepResources(s, names).components == SweepTargets(s, names).components == s.components
      && SweepResources(s, names).cache.capacity == SweepTargets(s, names).cache.capacity == s.cache.capacity
  {
    hide KeysUnder;
    if names != [] {
      var front, n := names[..|names| - 1], names[|names| - 1];
      SweepNamesIndexes(s, front);
      assert names == front + [n];
      WithoutNames(s.byResource, (set x | x in front), n, (set x | x in names));
      WithoutNames(s.byTarget, (set x | x in front), n, (set x | x in names));
    }
  }

  lemma {:induction false} SweepRelationsIndexes(s: Store, rs: seq<Relation>)
    ensures SweepRelations(s, rs).byResource == s.byResource - set n | n in Resources(rs)
    ensures SweepRelations(s, rs).byTarget == s.byTarget - set n | n in Targets(rs)
    ensures SweepRelations(s, rs).components == s.components
    ensures SweepRelations(s, rs).cache.capacity == s.cache.capacity
  {
    hide KeysUnder, SweepRelations;
    if rs == [] {
      SweepNone(s);
    } else {
      var n := |rs| - 1;
      SweepRelationsIndexes(s, rs[..n]);
      SweepNext(s, rs, n);
      assert rs[..n + 1] == rs;
      SetNext(Resources(rs[..n]), rs[n].resource);
      SetNext(Targets(rs[..n]), rs[n].target);
      WithoutNames(s.byResource, (set x | x in Resources(rs[..n])), rs[n].resource, (set x | x in Resources(rs)));
      WithoutNames(s.byTarget, (set x | x in Targets(rs[..n])), rs[n].target, (set x | x in Targets(rs)));
    }
  }

  lemma SetNext(names: seq<string>, n: string)
    ensures (set x | x in names + [n]) == (set x | x in names) + {n}
  {
  }

  /** Two relations that share a resource or a target with one another. */
  ghost predicate SharesResourceOrTarget(q: Triple, written: seq<Relation>) {
    exists i :: 0 <= i < |written| && (q.resource == written[i].resource || q.target == written[i].target)
  }

  /** Sweep exactness, relation by relation: a cached relation survives the sweep for written relations,
      with its grant unchanged, exactly when it shares no resource and no target with any of them. */
  lemma SweepKeepsUnrelated(s: Store, written: seq<Relation>, q: Triple, play: iset<Triple>)
    requires Complete(s) && Honest(s, play) && Separates(play) && q in play
    ensures var s' := SweepRelations(s, written);
      s'.cache.Find(KeyOf(q)) == (if SharesResourceOrTarget(q, written) then None else s.cache.Find(KeyOf(q)))
  {
    hide SweepRelations;
    SweepRelationsExact(s, written, play);
    if KeyOf(q) in s.cache.entries {
      assert Located(s, KeyOf(q));
      var c := s.components[KeyOf(q)];
      NamesKey(play, q, c.resource, c.target);
    }
  }

  // ---------------------------------------------------------------- sweeps without key injectivity

  lemma {:induction false} SweepRelationsComplete(s: Store, rs: seq<Relation>)
    requires Complete(s)
    ensures Complete(SweepRelations(s, rs))
  {
    if rs != [] {
      var s1 := SweepRelations(s, rs[..|rs| - 1]);
      SweepRelationsComplete(s, rs[..|rs| - 1]);
      SweepResourceComplete(s1, rs[|rs| - 1].resource);
      SweepTargetComplete(SweepResource(s1, rs[|rs| - 1].resource), rs[|rs| - 1].target);
    }
  }

  lemma {:induction false} SweepNamesComplete(s: Store, names: seq<string>)
    requires Complete(s)
    ensures Complete(SweepResources(s, names)) && Complete(SweepTargets(s, names))
  {
    if names != [] {
      var front, n := names[..|names| - 1], names[|names| - 1];
      SweepNamesComplete(s, front);
      SweepResourceComplete(SweepResources(s, front), n);
      SweepTargetComplete(SweepTargets(s, front), n);
    }
  }

  lemma {:induction false} SweepNamesHonest(s: Store, names: seq<string>, play: iset<Triple>)
    requires Honest(s, play)
    ensures Honest(SweepResources(s, names), play) && Honest(SweepTargets(s, names), play)
  {
    hide Honest, SweepResource, SweepTarget;
    if names != [] {
      var front, n := names[..|names| - 1], names[|names| - 1];
      SweepNamesHonest(s, front, play);
      SweepHonest(SweepResources(s, front), n, n, play);
      SweepHonest(SweepTargets(s, front), n, n, play);
    }
  }

  /** Everything cached in `s'` is cached, unchanged, in `s`. */
  ghost predicate Within(s: Store, s': Store) {
    forall k :: k in s'.cache.entries ==> k in s.cache.entries && s'.cache.entries[k] == s.cache.entries[k]
  }

  lemma {:induction false} SweepRelationsWithin(s: Store, rs: seq<Relation>)
    ensures Within(s, SweepRelations(s, rs))
  {
    hide KeysUnder;
    if rs != [] {
      SweepRelationsWithin(s, rs[..|rs| - 1]);
    }
  }

  lemma {:induction false} SweepNamesWithin(s: Store, names: seq<string>)
    ensures Within(s, SweepResources(s, names)) && Within(s, SweepTargets(s, names))
  {
    hide KeysUnder;
    if names != [] {
      SweepNamesWithin(s, names[..|names| - 1]);
    }
  }
}
