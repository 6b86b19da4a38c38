/** Sums over maps and sorted listings of their keys. */
module Totals {
  ghost function SumMap(m: map<nat, int>): int
    decreases |m|
  {
    if m == map[] then 0
    else
      var k :| k in m;
      m[k] + SumMap(m - {k})
  }

  // Any key may be taken out first.
  lemma {:induction false} SumMapTakesOut(m: map<nat, int>, key: nat)
    requires key in m
    ensures SumMap(m) == m[key] + SumMap(m - {key})
    decreases |m|
  {
    var k :| k in m && SumMap(m) == m[k] + SumMap(m - {k});
    if k != key {
      SumMapTakesOut(m - {k}, key);
      SumMapTakesOut(m - {key}, k);
      assert m - {k} - {key} == m - {key} - {k};
    }
  }

  function Get(m: map<nat, int>, key: nat): int {
    if key in m then m[key] else 0
  }

  lemma SumMapPut(m: map<nat, int>, key: nat, value: int)
    ensures SumMap(m[key := value]) == SumMap(m) - Get(m, key) + value
  {
    SumMapTakesOut(m[key := value], key);
    if key in m {
      SumMapTakesOut(m, key);
      assert m[key := value] - {key} == m - {key};
    } else {
      assert m[key := value] - {key} == m;
    }
  }

  // Strictly increasing.
  predicate Increasing(keys: seq<nat>) {
    forall i, j :: 0 <= i < j < |keys| ==> keys[i] < keys[j]
  }

  ghost predicate Lists(keys: seq<nat>, domain: set<nat>) {
    Increasing(keys) && (forall k :: k in keys <==> k in domain)
  }

  // Insertion into an increasing list.
  method Insert(keys: seq<nat>, key: nat) returns (r: seq<nat>)
    requires Increasing(keys) && key !in keys
    ensures Increasing(r) && forall k :: k in r <==> k in keys || k == key
  {
    var i := 0;
    while i < |keys| && keys[i] < key
      invariant i <= |keys|
      invariant forall j :: 0 <= j < i ==> keys[j] < key
    {
      i := i + 1;
    }
    r := keys[..i] + [key] + keys[i..];
    assert forall k :: k in keys <==> k in keys[..i] || k in keys[i..];
  }

  // The library sort, on keys that are all different.
  method Sort(domain: set<nat>) returns (keys: seq<nat>)
    ensures Lists(keys, domain)
  {
    keys := [];
    var rest := domain;
    while rest != {}
      invariant rest <= domain
      invariant Lists(keys, domain - rest)
      decreases |rest|
    {
      var key :| key in rest;
      keys := Insert(keys, key);
      rest := rest - {key};
    }
  }

  function SumKeys(m: map<nat, int>, keys: seq<nat>): int
    decreases |keys|
  {
    if keys == [] then 0 else SumKeys(m, keys[..|keys| - 1]) + Get(m, keys[|keys| - 1])
  }

  // A listing of the keys adds up to the map's sum.
  lemma {:induction false} SumListed(m: map<nat, int>, keys: seq<nat>)
    requires Increasing(keys) && forall key :: key in keys <==> key in m
    ensures SumKeys(m, keys) == SumMap(m)
    decreases |keys|
  {
    if keys == [] {
      assert forall key :: key in m ==> key in keys;
      assert m == map[];
    } else {
      var front, last := keys[..|keys| - 1], keys[|keys| - 1];
      var less := m - {last};
      assert last in keys;
      SumMapTakesOut(m, last);
      forall key ensures key in front <==> key in less {
        assert key in keys <==> key in front || key == last;
      }
      SumListed(less, front);
      SumKeysSame(m, less, front);
    }
  }

  lemma {:induction false} SumKeysSame(m: map<nat, int>, n: map<nat, int>, keys: seq<nat>)
    requires forall key :: key in keys ==> Get(m, key) == Get(n, key)
    ensures SumKeys(m, keys) == SumKeys(n, keys)
    decreases |keys|
  {
    if keys != [] {
      SumKeysSame(m, n, keys[..|keys| - 1]);
    }
  }

  // Entries of value zero may be left out.
  lemma {:induction false} SumWithoutZeros(m: map<nat, int>, n: map<nat, int>)
    requires forall k :: k in n ==> k in m && n[k] == m[k]
    requires forall k :: k in m && k !in n ==> m[k] == 0
    ensures SumMap(m) == SumMap(n)
    decreases |m|
  {
    if m != map[] {
      var k :| k in m;
      SumMapTakesOut(m, k);
      if k in n {
        SumMapTakesOut(n, k);
        SumWithoutZeros(m - {k}, n - {k});
      } else {
        SumWithoutZeros(m - {k}, n);
      }
    } else {
      assert n == map[];
    }
  }

  // Two maps added up, with 0 for a missing entry.
  function PlusMaps(a: map<nat, int>, b: map<nat, int>): (m: map<nat, int>)
    ensures m.Keys == a.Keys + b.Keys
    ensures forall k :: k in m ==> m[k] == Get(a, k) + Get(b, k)
  {
    map k | k in a.Keys + b.Keys :: Get(a, k) + Get(b, k)
  }

  lemma SumPlus(a: map<nat, int>, b: map<nat, int>)
    ensures SumMap(PlusMaps(a, b)) == SumMap(a) + SumMap(b)
  {
    SumOfBoth(a, b, PlusMaps(a, b));
  }

  lemma {:induction false} SumOfBoth(a: map<nat, int>, b: map<nat, int>, c: map<nat, int>)
    requires forall k :: k in c <==> k in a || k in b
    requires forall k :: k in c ==> c[k] == Get(a, k) + Get(b, k)
    ensures SumMap(c) == SumMap(a) + SumMap(b)
    decreases |b|
  {
    if b == map[] {
      assert c == a;
    } else {
      var k :| k in b;
      var less := if k in a then c[k := a[k]] else c - {k};
      SumMapTakesOut(b, k);
      SumOfBoth(a, b - {k}, less);
      SumMapPut(less, k, c[k]);
      assert less[k := c[k]] == c;
    }
  }

  lemma {:induction false} SumAtMost(a: map<nat, int>, b: map<nat, int>)
    requires forall k :: k in b ==> b[k] >= 0
    requires forall k :: k in a ==> a[k] <= Get(b, k)
    ensures SumMap(a) <= SumMap(b)
    decreases |a|, |b|
  {
    if a == map[] {
      SumNotNegative(b);
    } else {
      var k :| k in a;
      SumMapTakesOut(a, k);
      if k in b {
        SumMapTakesOut(b, k);
        SumAtMost(a - {k}, b - {k});
      } else {
        SumAtMost(a - {k}, b);
      }
    }
  }

  lemma {:induction false} SumNotNegative(m: map<nat, int>)
    requires forall k :: k in m ==> m[k] >= 0
    ensures SumMap(m) >= 0
    decreases |m|
  {
    if m != map[] {
      var k :| k in m;
      SumMapTakesOut(m, k);
      SumNotNegative(m - {k});
    }
  }
}
