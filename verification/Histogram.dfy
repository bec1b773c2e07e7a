/** Counter maps as histograms of the keys fed to them. */
module Histogram {
  import opened Order
  import opened Sequences

  /** Go's `counts[key]++`. */
  function Bump<K>(counts: map<K, int>, key: K): map<K, int> {
    counts[key := (if key in counts then counts[key] else 0) + 1]
  }

  /** `counts` holds exactly the keys that occur in `keys`, each with its number of occurrences. */
  ghost predicate Records<K(!new)>(counts: map<K, int>, keys: seq<K>) {
    && (forall k :: k in counts <==> k in keys)
    && (forall k | k in counts :: counts[k] == multiset(keys)[k])
  }

  lemma BumpRecords<K(!new)>(counts: map<K, int>, keys: seq<K>, key: K)
    requires Records(counts, keys)
    ensures Records(Bump(counts, key), keys + [key])
  {
    assert multiset(keys + [key]) == multiset(keys) + multiset{key};
    assert forall k :: k in keys <==> k in multiset(keys);
    assert forall k :: k in keys + [key] <==> k in keys || k == key;
  }

  /** What a counter map holds depends only on how often each key was fed. */
  lemma RecordsIsOrderFree<K(!new)>(a: map<K, int>, b: map<K, int>, keys: seq<K>, keys': seq<K>)
    requires Records(a, keys) && Records(b, keys') && multiset(keys) == multiset(keys')
    ensures a == b
  {
    assert forall k :: k in keys <==> k in multiset(keys);
    assert forall k :: k in keys' <==> k in multiset(keys');
  }

  function CountWhere<K>(keys: seq<K>, p: K -> bool): nat {
    if keys == [] then 0
    else CountWhere(keys[..|keys| - 1], p) + if p(keys[|keys| - 1]) then 1 else 0
  }

  lemma CountOneMore<K>(keys: seq<K>, key: K, p: K -> bool)
    ensures CountWhere(keys + [key], p) == CountWhere(keys, p) + if p(key) then 1 else 0
  {
    assert (keys + [key])[..|keys|] == keys;
  }

  lemma {:induction false} CountWhereConcat<K>(a: seq<K>, b: seq<K>, p: K -> bool)
    ensures CountWhere(a + b, p) == CountWhere(a, p) + CountWhere(b, p)
  {
    if b == [] {
      assert a + b == a;
    } else {
      CountWhereConcat(a, b[..|b| - 1], p);
      assert (a + b)[..|a + b| - 1] == a + b[..|b| - 1];
    }
  }

  lemma {:induction false} CountWhereAll<K>(keys: seq<K>)
    ensures CountWhere(keys, k => true) == |keys|
  {
    if keys != [] { CountWhereAll(keys[..|keys| - 1]); }
  }

  lemma {:induction false} CountWhereSame<K(!new)>(keys: seq<K>, p: K -> bool, q: K -> bool)
    requires forall k :: p(k) == q(k)
    ensures CountWhere(keys, p) == CountWhere(keys, q)
  {
    if keys != [] { CountWhereSame(keys[..|keys| - 1], p, q); }
  }

  lemma CountWhereWithout<K>(keys: seq<K>, j: nat, p: K -> bool)
    requires j < |keys|
    ensures CountWhere(keys, p) == CountWhere(keys[..j] + keys[j + 1..], p) + if p(keys[j]) then 1 else 0
  {
    hide CountWhere;
    assert keys == keys[..j] + [keys[j]] + keys[j + 1..];
    CountWhereConcat(keys[..j] + [keys[j]], keys[j + 1..], p);
    CountOneMore(keys[..j], keys[j], p);
    CountWhereConcat(keys[..j], keys[j + 1..], p);
  }

  /** Counting does not depend on the order. */
  lemma {:induction false} CountWherePermute<K>(a: seq<K>, b: seq<K>, p: K -> bool)
    requires multiset(a) == multiset(b)
    ensures CountWhere(a, p) == CountWhere(b, p)
  {
    if a == [] {
      assert |b| == |multiset(b)| == 0;
    } else {
      var j := FindLast(a, b);
      CountWherePermute(a[..|a| - 1], b[..j] + b[j + 1..], p);
      CountWhereWithout(b, j, p);
    }
  }

  /** `order` visits each member of `s` once: one of the orders a map may be iterated in. */
  ghost predicate Enumerates<K(!new)>(order: seq<K>, s: set<K>) {
    Distinct(order) && forall k :: k in order <==> k in s
  }

  /** The sum of the counters whose key satisfies `p`, visited in the given order. */
  function SumWhere<K>(order: seq<K>, counts: map<K, int>, p: K -> bool): int {
    if order == [] then 0
    else
      var k := order[0];
      (if p(k) && k in counts then counts[k] else 0) + SumWhere(order[1..], counts, p)
  }

  lemma {:induction false} SumOfBump<K>(order: seq<K>, counts: map<K, int>, key: K, p: K -> bool)
    requires Distinct(order)
    ensures SumWhere(order, Bump(counts, key), p)
         == SumWhere(order, counts, p) + if key in order && p(key) then 1 else 0
  {
    if order != [] {
      SumOfBump(order[1..], counts, key, p);
      assert order == [order[0]] + order[1..];
    }
  }

  lemma {:induction false} SumOfNothing<K>(order: seq<K>, p: K -> bool)
    ensures SumWhere(order, map[], p) == 0
  {
    if order != [] { SumOfNothing(order[1..], p); }
  }

  /** A histogram of the keys exists, and is what counting them one by one builds. */
  function Tally<K(!new)>(keys: seq<K>): (counts: map<K, int>)
    ensures Records(counts, keys)
  {
    if keys == [] then map[]
    else
      var init := keys[..|keys| - 1];
      BumpRecords(Tally(init), init, keys[|keys| - 1]);
      assert keys == init + [keys[|keys| - 1]];
      Bump(Tally(init), keys[|keys| - 1])
  }

  lemma {:induction false} SumOfTally<K(!new)>(order: seq<K>, keys: seq<K>, p: K -> bool)
    requires Distinct(order) && forall k | k in keys :: k in order
    ensures SumWhere(order, Tally(keys), p) == CountWhere(keys, p)
  {
    if keys == [] {
      SumOfNothing(order, p);
    } else {
      var init := keys[..|keys| - 1];
      SumOfTally(order, init, p);
      SumOfBump(order, Tally(init), keys[|keys| - 1], p);
    }
  }

  /** Marginals: summing the counters over part of the keys counts the fed keys in that part,
      whatever the iteration order. */
  lemma MarginalCounts<K(!new)>(order: seq<K>, counts: map<K, int>, keys: seq<K>, p: K -> bool)
    requires Records(counts, keys) && Enumerates(order, counts.Keys)
    ensures SumWhere(order, counts, p) == CountWhere(keys, p)
  {
    RecordsIsOrderFree(counts, Tally(keys), keys, keys);
    SumOfTally(order, keys, p);
  }

  /** One counter is the number of times its key was fed; `p` singles the key out. */
  lemma {:induction false} CounterCounts<K(!new)>(counts: map<K, int>, keys: seq<K>, key: K, p: K -> bool)
    requires Records(counts, keys) && forall k :: p(k) <==> k == key
    ensures (if key in counts then counts[key] else 0) == CountWhere(keys, p)
  {
    RecordsIsOrderFree(counts, Tally(keys), keys, keys);
    if keys != [] {
      var init := keys[..|keys| - 1];
      CounterCounts(Tally(init), init, key, p);
    }
  }

  /** The keys of a map, collected in an arbitrary iteration order and then sorted. */
  method SortedKeys<K(!new)>(less: (K, K) -> bool, keys: set<K>) returns (out: seq<K>)
    requires StrictOrder(less)
    ensures out == Listing(less, keys)
  {
    var collected := [];
    var rest := keys;
    while rest != {}
      invariant rest <= keys && Distinct(collected)
      invariant forall k :: k in collected <==> k in keys - rest
    {
      var k :| k in rest;
      assert k !in keys - rest && k !in collected;
      collected := collected + [k];
      rest := rest - {k};
    }
    StrictOrderIsWeak(less);
    out := SortSlice(less, collected);
    SortedMembersAreTheListing(less, collected, out, keys);
  }
}
