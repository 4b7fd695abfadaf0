/** The bounded least-recently-used cache the edge is built on: its value and the object holding it. */
module Lrus {
  import opened Types

  ghost predicate NoDup<K>(s: seq<K>) {
    forall i, j :: 0 <= i < j < |s| ==> s[i] != s[j]
  }

  /** `s` without the members of `gone`, in order. */
  function Without<K(==,!new)>(s: seq<K>, gone: set<K>): (r: seq<K>)
    ensures |r| <= |s|
    ensures forall k :: k in r <==> k in s && k !in gone
    ensures NoDup(s) ==> NoDup(r)
  {
    if s == [] then [] else
      var front := Without(s[..|s| - 1], gone);
      assert s == s[..|s| - 1] + [s[|s| - 1]];
      if s[|s| - 1] in gone then front else front + [s[|s| - 1]]
  }

  /** Dropping a member that occurs once shortens the sequence by one. */
  lemma WithoutOne<K(!new)>(s: seq<K>, k: K)
    requires NoDup(s) && k in s
    ensures |Without(s, {k})| == |s| - 1
  {
    var last := s[|s| - 1];
    assert s == s[..|s| - 1] + [last];
    if last == k {
      WithoutNone(s[..|s| - 1], {k});
    } else {
      WithoutOne(s[..|s| - 1], k);
    }
  }

  lemma WithoutNone<K(!new)>(s: seq<K>, gone: set<K>)
    requires forall k :: k in s ==> k !in gone
    ensures Without(s, gone) == s
  {
    if s != [] {
      assert s == s[..|s| - 1] + [s[|s| - 1]];
      WithoutNone(s[..|s| - 1], gone);
    }
  }

  /** The cache's value: what it maps, and its keys from least to most recently used. */
  datatype Lru<K(==,!new), V> = Lru(capacity: nat, entries: map<K, V>, order: seq<K>) {

    ghost predicate Valid() {
      && capacity > 0
      && NoDup(order)
      && |order| <= capacity
      && (forall k :: k in order <==> k in entries)
    }

    function Find(k: K): Option<V> {
      if k in entries then Some(entries[k]) else None
    }

    /** A read of `k`: when present it becomes the most recently used key. */
    function Touch(k: K): (r: Lru<K, V>)
      ensures Valid() ==> r.Valid()
    {
      if k in entries then
        assert Valid() ==> |Without(order, {k})| == |order| - 1 by {
          if Valid() { WithoutOne(order, k); }
        }
        Lru(capacity, entries, Without(order, {k}) + [k])
      else this
    }

    /** A write of `k`, and the key evicted to make room for it, if any. */
    function Add(k: K, v: V): (r: (Lru<K, V>, Option<K>))
      requires Valid()
      ensures r.0.Valid()
    {
      if k in entries then (Touch(k).(entries := entries[k := v]), None)
      else if |order| < capacity then (Lru(capacity, entries[k := v], order + [k]), None)
      else
        var victim := order[0];
        (Lru(capacity, (entries - {victim})[k := v], order[1..] + [k]), Some(victim))
    }

    function RemoveAll(gone: set<K>): (r: Lru<K, V>)
      ensures Valid() ==> r.Valid()
    {
      Lru(capacity, entries - gone, Without(order, gone))
    }

    function Purge(): (r: Lru<K, V>)
      ensures Valid() ==> r.Valid()
    {
      Lru(capacity, map[], [])
    }
  }

  /** After a write only the written key is new, and at most one other key is gone: the evicted one. */
  lemma AddEffect<K(!new), V>(c: Lru<K, V>, k: K, v: V)
    requires c.Valid()
    ensures var (c', evicted) := c.Add(k, v);
      && c'.capacity == c.capacity
      && k in c'.entries && c'.entries[k] == v
      && (evicted.None? ==> c'.entries == c.entries[k := v])
      && (evicted.Some? ==> k !in c.entries && evicted.value in c.entries && |c.entries| == c.capacity
                            && c'.entries == (c.entries - {evicted.value})[k := v])
  {
    if k !in c.entries && |c.order| >= c.capacity {
      assert c.order[0] in c.entries;
      OrderIsSize(c);
    }
  }

  lemma OrderIsSize<K(!new), V>(c: Lru<K, V>)
    requires c.Valid()
    ensures |c.order| == |c.entries|
  {
    assert c.entries.Keys == set k | k in c.order;
    SetOfDistinct(c.order);
    assert |c.entries| == |c.entries.Keys|;
  }

  lemma SetOfDistinct<K(!new)>(s: seq<K>)
    requires NoDup(s)
    ensures |set k | k in s| == |s|
  {
    if s != [] {
      var last := s[|s| - 1];
      var front := s[..|s| - 1];
      assert s == front + [last];
      SetOfDistinct(front);
      assert (set k | k in s) == (set k | k in front) + {last};
    }
  }

  lemma {:induction false} WithoutTwice<K(!new)>(s: seq<K>, a: set<K>, b: set<K>)
    ensures Without(Without(s, a), b) == Without(s, a + b)
  {
    if s != [] {
      var front, last := s[..|s| - 1], s[|s| - 1];
      WithoutTwice(front, a, b);
      if last !in a {
        var kept := Without(s, a);
        assert kept[..|kept| - 1] == Without(front, a);
      }
    }
  }

  /** Removals add up. */
  lemma RemoveTwice<K(!new), V>(c: Lru<K, V>, a: set<K>, b: set<K>)
    ensures c.RemoveAll(a).RemoveAll(b) == c.RemoveAll(a + b)
  {
    WithoutTwice(c.order, a, b);
    assert c.entries - a - b == c.entries - (a + b);
  }

  lemma RemoveNext<K(!new), V>(c: Lru<K, V>, gone: seq<K>, next: seq<K>, k: K)
    requires next == gone + [k]
    ensures c.RemoveAll(set x | x in next) == c.RemoveAll(set x | x in gone).RemoveAll({k})
  {
    assert (set x | x in next) == (set x | x in gone) + {k};
    RemoveTwice(c, set x | x in gone, {k});
  }

  lemma RemoveNone<K(!new), V>(c: Lru<K, V>)
    ensures c.RemoveAll({}) == c
  {
    WithoutNone(c.order, {});
    assert c.entries - {} == c.entries;
  }

  // ---------------------------------------------------------------- recency

  /** When `k` was last used in a history of uses, -1 for never. */
  ghost function LastUse<K>(uses: seq<K>, k: K): (n: int)
    ensures -1 <= n < |uses| && (n >= 0 ==> uses[n] == k)
  {
    if uses == [] then -1
    else if uses[|uses| - 1] == k then |uses| - 1
    else LastUse(uses[..|uses| - 1], k)
  }

  ghost predicate ByLastUse<K>(s: seq<K>, uses: seq<K>) {
    forall i, j :: 0 <= i < j < |s| ==> LastUse(uses, s[i]) < LastUse(uses, s[j])
  }

  lemma {:induction false} WithoutByLastUse<K(!new)>(s: seq<K>, gone: set<K>, uses: seq<K>)
    requires ByLastUse(s, uses)
    ensures ByLastUse(Without(s, gone), uses)
  {
    if s != [] {
      var front, last := s[..|s| - 1], s[|s| - 1];
      WithoutByLastUse(front, gone, uses);
      forall k | k in Without(front, gone)
        ensures LastUse(uses, k) < LastUse(uses, last)
      {
        var i :| 0 <= i < |front| && front[i] == k;
        assert s[i] == k;
      }
    }
  }

  /** A use comes after all others and moves none of them. */
  lemma UsedLast<K>(s: seq<K>, uses: seq<K>, k: K)
    requires ByLastUse(s, uses) && k !in s
    ensures ByLastUse(s + [k], uses + [k])
  {
    var uses' := uses + [k];
    assert uses'[..|uses|] == uses;
    assert forall x :: x in s ==> LastUse(uses', x) == LastUse(uses, x);
  }

  /** The cache's order is the order of last uses: a read counts as a use if it hits, and removals do not
      disturb the rest. */
  lemma ReadsKeepRecency<K(!new), V>(c: Lru<K, V>, uses: seq<K>, k: K, gone: set<K>)
    requires ByLastUse(c.order, uses)
    ensures ByLastUse(c.Touch(k).order, if k in c.entries then uses + [k] else uses)
    ensures ByLastUse(c.RemoveAll(gone).order, uses)
  {
    hide ByLastUse;
    WithoutByLastUse(c.order, gone, uses);
    WithoutByLastUse(c.order, {k}, uses);
    UsedLast(Without(c.order, {k}), uses, k);
  }

  /** A write counts as a use, and when it evicts it takes the least recently used key: every other cached key
      was used after it. */
  lemma WritesEvictLeastRecent<K(!new), V>(c: Lru<K, V>, uses: seq<K>, k: K, v: V)
    requires c.Valid() && ByLastUse(c.order, uses)
    ensures ByLastUse(c.Add(k, v).0.order, uses + [k])
    ensures c.Add(k, v).1.Some? ==> forall x :: x in c.entries && x != c.Add(k, v).1.value ==>
      LastUse(uses, c.Add(k, v).1.value) < LastUse(uses, x)
  {
    assert c.order != [] ==> ByLastUse(c.order[1..], uses);
    assert forall i :: 0 < i < |c.order| ==> LastUse(uses, c.order[0]) < LastUse(uses, c.order[i]);
    hide ByLastUse, LastUse;
    if k in c.entries {
      ReadsKeepRecency(c, uses, k, {});
    } else {
      UsedLast(c.order, uses, k);
      if c.order != [] {
        UsedLast(c.order[1..], uses, k);
      }
    }
  }

  /** The cache object. Capacity eviction is reported to the caller; removal is not. */
  class LruCache<K(==,!new), V> {
    const capacity: nat
    var entries: map<K, V>
    var order: seq<K>

    ghost predicate Valid()
      reads this
    {
      Value().Valid()
    }

    ghost function Value(): Lru<K, V>
      reads this
    {
      Lru(capacity, entries, order)
    }

    constructor (capacity: nat)
      requires capacity > 0
      ensures Valid() && Value() == Lru(capacity, map[], [])
    {
      this.capacity := capacity;
      entries, order := map[], [];
    }

    method Get(k: K) returns (v: Option<V>)
      requires Valid()
      modifies this
      ensures Valid() && Value() == old(Value()).Touch(k)
      ensures v == old(Value()).Find(k)
    {
      if k !in entries {
        return None;
      }
      WithoutOne(order, k);
      order := Without(order, {k}) + [k];
      v := Some(entries[k]);
    }

    method Add(k: K, v: V) returns (evicted: Option<K>)
      requires Valid()
      modifies this
      ensures Valid() && (Value(), evicted) == old(Value()).Add(k, v)
    {
      evicted := None;
      if k in entries {
        WithoutOne(order, k);
        entries := entries[k := v];
        order := Without(order, {k}) + [k];
        return;
      }
      if |order| == capacity {
        evicted := Some(order[0]);
        entries := entries - {order[0]};
        order := order[1..];
      }
      entries := entries[k := v];
      order := order + [k];
    }

    method Remove(k: K)
      requires Valid()
      modifies this
      ensures Valid() && Value() == old(Value()).RemoveAll({k})
    {
      entries := entries - {k};
      order := Without(order, {k});
    }

    /** Empties the cache; the keys it held, for the eviction callback. */
    method Purge() returns (evicted: seq<K>)
      requires Valid()
      modifies this
      ensures Valid() && Value() == old(Value()).Purge()
      ensures evicted == old(order)
    {
      evicted := order;
      entries, order := map[], [];
    }

    method Len() returns (n: nat)
      requires Valid()
      ensures n == |entries|
    {
      n := |entries|;
    }
  }
}
