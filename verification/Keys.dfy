/** Cache keys and the string form of lookup rows, with what separates them. */
module Keys {
  import opened Types

  type Key = string

  function KeyOf(q: Triple): Key {
    q.resource + ":" + q.target + ":" + q.relation
  }

  function RelationKey(r: Relation): Key {
    KeyOf(TripleOf(r))
  }

  function WhoCanAccessKey(resource: string, relationDefinition: string, namespace: string): Key {
    "wca:" + resource + ":" + relationDefinition + ":" + namespace
  }

  function WhatCanTargetAccessKey(target: string): Key {
    "wcta:" + target
  }

  /** Distinct relations in play have distinct keys. */
  ghost predicate Separates(play: iset<Triple>) {
    forall a, b :: a in play && b in play && KeyOf(a) == KeyOf(b) ==> a == b
  }

  /** A string cut at its first separator can be cut in one way only. */
  lemma CutAtFirst(c: char, x: string, y: string, x': string, y': string)
    requires c !in x && c !in x'
    requires x + [c] + y == x' + [c] + y'
    ensures x == x' && y == y'
  {
    var s := x + [c] + y;
    var s' := x' + [c] + y';
    assert s[|x|] == c && s'[|x'|] == c;
    assert |x| == |x'|;
    assert x == s[..|x|] == s'[..|x|] == x';
    assert y == s[|x| + 1..] == s'[|x| + 1..] == y';
  }

  /** A string cut at its last separator can be cut in one way only. */
  lemma CutAtLast(c: char, x: string, y: string, x': string, y': string)
    requires c !in y && c !in y'
    requires x + [c] + y == x' + [c] + y'
    ensures x == x' && y == y'
  {
    var s := x + [c] + y;
    var s' := x' + [c] + y';
    assert s[|x|] == c && s'[|x'|] == c;
    assert |x| == |x'|;
    assert x == s[..|x|] == s'[..|x|] == x';
    assert y == s[|x| + 1..] == s'[|x| + 1..] == y';
  }

  ghost predicate LeadingColonFree(q: Triple) {
    ':' !in q.resource && ':' !in q.target
  }

  ghost predicate TrailingColonFree(q: Triple) {
    ':' !in q.target && ':' !in q.relation
  }

  /** Relation keys tell relations apart when the resource and the target hold no colon, and also when
      the target and the relation name hold none. */
  lemma KeyInjective(a: Triple, b: Triple)
    requires KeyOf(a) == KeyOf(b)
    requires (LeadingColonFree(a) && LeadingColonFree(b)) || (TrailingColonFree(a) && TrailingColonFree(b))
    ensures a == b
  {
    if LeadingColonFree(a) && LeadingColonFree(b) {
      var ya, yb := a.target + ":" + a.relation, b.target + ":" + b.relation;
      assert KeyOf(a) == a.resource + [':'] + ya;
      assert KeyOf(b) == b.resource + [':'] + yb;
      CutAtFirst(':', a.resource, ya, b.resource, yb);
      assert ya == a.target + [':'] + a.relation && yb == b.target + [':'] + b.relation;
      CutAtFirst(':', a.target, a.relation, b.target, b.relation);
    } else {
      var xa, xb := a.resource + ":" + a.target, b.resource + ":" + b.target;
      assert KeyOf(a) == xa + [':'] + a.relation && KeyOf(b) == xb + [':'] + b.relation;
      CutAtLast(':', xa, a.relation, xb, b.relation);
      CutAtLast(':', a.resource, a.target, b.resource, b.target);
    }
  }

  /** Both colon-free families of relations can be in play without two relations sharing a key. */
  lemma ColonFreeSeparates()
    ensures Separates(iset q | LeadingColonFree(q))
    ensures Separates(iset q | TrailingColonFree(q))
  {
    forall a, b | KeyOf(a) == KeyOf(b) && ((LeadingColonFree(a) && LeadingColonFree(b)) ||
                                            (TrailingColonFree(a) && TrailingColonFree(b)))
      ensures a == b
    {
      KeyInjective(a, b);
    }
  }

  /** Colons on both sides do make two different relations share one key. */
  lemma KeyCollision()
    ensures var a, b := Triple("org:doc", "ann", "owner"), Triple("org", "doc:ann", "owner");
      a != b && KeyOf(a) == KeyOf(b)
  {
    var a, b := Triple("org:doc", "ann", "owner"), Triple("org", "doc:ann", "owner");
    assert a.resource == "org:doc" && b.resource == "org";
    assert |a.resource| != |b.resource|;
    assert KeyOf(a) == "org:doc:ann:owner" == KeyOf(b);
  }

  /** WhoCanAccess keys tell questions apart when the resource and relation definition hold no colon. */
  lemma WhoCanAccessKeyInjective(r: string, d: string, n: string, r': string, d': string, n': string)
    requires WhoCanAccessKey(r, d, n) == WhoCanAccessKey(r', d', n')
    requires ':' !in r && ':' !in d && ':' !in r' && ':' !in d'
    ensures r == r' && d == d' && n == n'
  {
    var k, k' := KeyOf(Triple(r, d, n)), KeyOf(Triple(r', d', n'));
    assert WhoCanAccessKey(r, d, n) == "wca:" + k && WhoCanAccessKey(r', d', n') == "wca:" + k';
    assert k == ("wca:" + k)[4..] == ("wca:" + k')[4..] == k';
    KeyInjective(Triple(r, d, n), Triple(r', d', n'));
  }

  /** Targets have different keys, for all strings. */
  lemma WhatCanTargetAccessKeyInjective(t: string, t': string)
    requires WhatCanTargetAccessKey(t) == WhatCanTargetAccessKey(t')
    ensures t == t'
  {
    assert t == WhatCanTargetAccessKey(t)[5..] == WhatCanTargetAccessKey(t')[5..] == t';
  }

  /** The two lookup families never share a key, whatever strings they are built from. */
  lemma LookupFamiliesDisjoint(r: string, d: string, n: string, t: string)
    ensures WhoCanAccessKey(r, d, n) != WhatCanTargetAccessKey(t)
  {
    assert WhoCanAccessKey(r, d, n)[2] == 'a';
    assert WhatCanTargetAccessKey(t)[2] == 't';
  }

  // ---------------------------------------------------------------- rows of the target lookup

  function EncodeRow(resource: string, relationDefinition: string, namespace: string): string {
    resource + "|" + relationDefinition + "|" + namespace
  }

  /** Index of the first `c` in `s`. */
  function FirstIndex(s: string, c: char): (i: nat)
    requires c in s
    ensures i < |s| && s[i] == c && c !in s[..i]
  {
    if s[0] == c then 0 else
      assert s == [s[0]] + s[1..];
      var i := FirstIndex(s[1..], c) + 1;
      assert s[..i] == [s[0]] + s[1..][..i - 1];
      i
  }

  /** Go's `strings.SplitN` for a one-character separator and a positive count: at most `n` parts,
      the last one unsplit. */
  function SplitN(s: string, c: char, n: nat): seq<string>
    requires n > 0
  {
    if n == 1 || c !in s then [s]
    else var i := FirstIndex(s, c); [s[..i]] + SplitN(s[i + 1..], c, n - 1)
  }

  /** A stored row as it is read back; None when it does not split into three parts. */
  function DecodeRow(row: string, target: string): Option<AuthzRelation> {
    var parts := SplitN(row, '|', 3);
    if |parts| == 3 then Some(AuthzRelation(parts[0], parts[1], parts[2], target)) else None
  }

  lemma CutAgain(s: string, c: char)
    requires c in s
    ensures s == s[..FirstIndex(s, c)] + [c] + s[FirstIndex(s, c) + 1..]
  {
  }

  /** What splitting in at most two gives. */
  lemma SplitTwo(s: string, c: char)
    ensures c !in s ==> SplitN(s, c, 2) == [s]
    ensures c in s ==> SplitN(s, c, 2) == [s[..FirstIndex(s, c)], s[FirstIndex(s, c) + 1..]]
  {
  }

  /** What splitting in at most three gives. */
  lemma SplitThree(s: string, c: char)
    ensures c !in s ==> SplitN(s, c, 3) == [s]
    ensures c in s ==> SplitN(s, c, 3) == [s[..FirstIndex(s, c)]] + SplitN(s[FirstIndex(s, c) + 1..], c, 2)
  {
  }

  /** Reading then writing a row gives the row back, and what is read holds no bar but in its namespace. */
  lemma DecodeEncode(row: string, target: string)
    ensures var back := DecodeRow(row, target);
      back.Some? ==>
        && EncodeRow(back.value.resource, back.value.relationDefinition, back.value.namespace) == row
        && '|' !in back.value.resource && '|' !in back.value.relationDefinition
        && back.value.target == target
  {
    SplitThree(row, '|');
    if '|' in row {
      var i := FirstIndex(row, '|');
      var rest := row[i + 1..];
      CutAgain(row, '|');
      SplitTwo(rest, '|');
      if '|' in rest {
        CutAgain(rest, '|');
        var j := FirstIndex(rest, '|');
        RowOfParts(row, row[..i], rest, rest[..j], rest[j + 1..]);
      }
    }
  }

  lemma RowOfParts(row: string, r: string, rest: string, d: string, n: string)
    requires row == r + ['|'] + rest && rest == d + ['|'] + n
    ensures EncodeRow(r, d, n) == row
  {
  }

  /** A row with two bars can be read back. */
  lemma TwoBarsDecode(row: string, i: nat, j: nat, target: string)
    requires i < j < |row| && row[i] == row[j] == '|'
    ensures DecodeRow(row, target).Some?
  {
    var first := FirstIndex(row, '|');
    assert first <= i;
    var rest := row[first + 1..];
    assert rest[j - first - 1] == '|';
    SplitThree(row, '|');
    SplitTwo(rest, '|');
  }

  /** Every row the cache writes can be read back. */
  lemma WrittenRowDecodes(r: string, d: string, n: string, target: string)
    ensures DecodeRow(EncodeRow(r, d, n), target).Some?
  {
    TwoBarsDecode(EncodeRow(r, d, n), |r|, |r| + 1 + |d|, target);
  }

  /** The round trip is exact when the resource and relation definition hold no bar, and only then. */
  lemma RowRoundTrip(r: string, d: string, n: string, target: string)
    ensures DecodeRow(EncodeRow(r, d, n), target) == Some(AuthzRelation(r, d, n, target))
            <==> '|' !in r && '|' !in d
  {
    var row := EncodeRow(r, d, n);
    WrittenRowDecodes(r, d, n, target);
    DecodeEncode(row, target);
    var v := DecodeRow(row, target).value;
    if '|' !in r && '|' !in d {
      EncodeInjective(r, d, n, v.resource, v.relationDefinition, v.namespace);
    }
  }

  lemma EncodeInjective(r: string, d: string, n: string, r': string, d': string, n': string)
    requires EncodeRow(r, d, n) == EncodeRow(r', d', n')
    requires '|' !in r && '|' !in d && '|' !in r' && '|' !in d'
    ensures r == r' && d == d' && n == n'
  {
    var y, y' := d + "|" + n, d' + "|" + n';
    assert EncodeRow(r, d, n) == r + ['|'] + y && EncodeRow(r', d', n') == r' + ['|'] + y';
    CutAtFirst('|', r, y, r', y');
    assert y == d + ['|'] + n && y' == d' + ['|'] + n';
    CutAtFirst('|', d, n, d', n');
  }
}
