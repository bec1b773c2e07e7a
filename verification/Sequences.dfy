/** Mapping each element of a stream to a run of results and joining the runs. */
module Sequences {

  function FlatMap<T, K>(part: T -> seq<K>, items: seq<T>): seq<K> {
    if items == [] then []
    else FlatMap(part, items[..|items| - 1]) + part(items[|items| - 1])
  }

  lemma FlatMapOneMore<T, K>(part: T -> seq<K>, items: seq<T>, item: T)
    ensures FlatMap(part, items + [item]) == FlatMap(part, items) + part(item)
  {
    assert (items + [item])[..|items|] == items;
  }

  lemma {:induction false} FlatMapAppend<T, K>(part: T -> seq<K>, a: seq<T>, b: seq<T>)
    ensures FlatMap(part, a + b) == FlatMap(part, a) + FlatMap(part, b)
  {
    if b == [] {
      assert a + b == a;
    } else {
      var n := |b| - 1;
      FlatMapAppend(part, a, b[..n]);
      assert a + b == (a + b[..n]) + [b[n]];
      FlatMapOneMore(part, a + b[..n], b[n]);
      Regroup(FlatMap(part, a), FlatMap(part, b[..n]), part(b[n]));
    }
  }

  lemma Regroup<T>(x: seq<T>, y: seq<T>, z: seq<T>)
    ensures (x + y) + z == x + (y + z)
  {
  }

  lemma TakingOneOut<T, K>(part: T -> seq<K>, items: seq<T>, j: nat)
    requires j < |items|
    ensures multiset(FlatMap(part, items))
         == multiset(FlatMap(part, items[..j] + items[j + 1..])) + multiset(part(items[j]))
  {
    hide FlatMap;
    var before, t, after := items[..j], items[j], items[j + 1..];
    assert items == (before + [t]) + after;
    FlatMapAppend(part, before, after);
    FlatMapAppend(part, before + [t], after);
    FlatMapOneMore(part, before, t);
  }

  lemma MultisetWithout<T>(s: seq<T>, j: nat)
    requires j < |s|
    ensures multiset(s[..j] + s[j + 1..]) == multiset(s) - multiset{s[j]}
  {
    assert s == s[..j] + [s[j]] + s[j + 1..];
  }

  /** The last element of `a` is somewhere in its rearrangement `b`, and the rest agree. */
  lemma FindLast<T>(a: seq<T>, b: seq<T>) returns (j: nat)
    requires a != [] && multiset(a) == multiset(b)
    ensures j < |b| && b[j] == a[|a| - 1]
    ensures multiset(a[..|a| - 1]) == multiset(b[..j] + b[j + 1..])
  {
    var n := |a| - 1;
    assert a[n] in multiset(b);
    j :| 0 <= j < |b| && b[j] == a[n];
    assert a[..n] + a[n + 1..] == a[..n];
    MultisetWithout(a, n);
    MultisetWithout(b, j);
  }

  /** Permuting the items permutes their results. */
  lemma {:induction false} FlatMapPermute<T, K>(part: T -> seq<K>, a: seq<T>, b: seq<T>)
    requires multiset(a) == multiset(b)
    ensures multiset(FlatMap(part, a)) == multiset(FlatMap(part, b))
  {
    if a == [] {
      assert |b| == |multiset(b)| == 0;
    } else {
      var j := FindLast(a, b);
      FlatMapPermute(part, a[..|a| - 1], b[..j] + b[j + 1..]);
      TakingOneOut(part, b, j);
    }
  }

  /** When every item gives nothing, so does the whole. */
  lemma {:induction false} FlatMapNone<T, K>(part: T -> seq<K>, items: seq<T>)
    requires forall i | 0 <= i < |items| :: part(items[i]) == []
    ensures FlatMap(part, items) == []
  {
    if items != [] { FlatMapNone(part, items[..|items| - 1]); }
  }

  /** When every item gives one value, the whole gives the values. */
  lemma {:induction false} FlatMapEach<T, K>(part: T -> seq<K>, items: seq<T>, values: seq<K>)
    requires |items| == |values|
    requires forall i | 0 <= i < |items| :: part(items[i]) == [values[i]]
    ensures FlatMap(part, items) == values
  {
    if items != [] {
      var n := |items| - 1;
      FlatMapEach(part, items[..n], values[..n]);
      assert values == values[..n] + [values[n]];
    }
  }
}
