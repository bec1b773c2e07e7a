/** Strict orders, the sorted listing of a set, and the standard library's sort. */
module Order {

  ghost predicate StrictOrder<T(!new)>(less: (T, T) -> bool) {
    && (forall x :: !less(x, x))
    && (forall x, y, z :: less(x, y) && less(y, z) ==> less(x, z))
    && (forall x, y :: x != y ==> less(x, y) || less(y, x))
  }

  /** What `sort.Slice` asks of a comparison: elements that compare as equal form classes. */
  ghost predicate StrictWeakOrder<T(!new)>(less: (T, T) -> bool) {
    && (forall x :: !less(x, x))
    && (forall x, y, z :: less(x, y) && less(y, z) ==> less(x, z))
    && (forall x, y, z :: less(x, z) ==> less(x, y) || less(y, z))
  }

  lemma StrictOrderIsWeak<T(!new)>(less: (T, T) -> bool)
    requires StrictOrder(less)
    ensures StrictWeakOrder(less)
  {
    forall x, y, z | less(x, z) ensures less(x, y) || less(y, z) {
      assert x != y ==> less(x, y) || less(y, x);
    }
  }

  predicate Increasing<T>(less: (T, T) -> bool, s: seq<T>) {
    forall i, j | 0 <= i < j < |s| :: less(s[i], s[j])
  }

  /** Go's `<` on strings: the first differing character decides, a proper prefix is smaller. */
  predicate StringLess(a: string, b: string) {
    if b == "" then false
    else if a == "" then true
    else if a[0] != b[0] then a[0] < b[0]
    else StringLess(a[1..], b[1..])
  }

  lemma {:induction false} StringLessTotal(a: string, b: string)
    ensures !StringLess(a, a)
    ensures a != b ==> StringLess(a, b) || StringLess(b, a)
  {
    if a != "" {
      StringLessTotal(a[1..], if b == "" then b else b[1..]);
      if b != "" && a[0] == b[0] {
        assert a == [a[0]] + a[1..] && b == [b[0]] + b[1..];
      }
    }
  }

  lemma {:induction false} StringLessTransitive(a: string, b: string, c: string)
    requires StringLess(a, b) && StringLess(b, c)
    ensures StringLess(a, c)
  {
    if a != "" && a[0] == b[0] == c[0] {
      StringLessTransitive(a[1..], b[1..], c[1..]);
    }
  }

  lemma StringLessIsStrictOrder()
    ensures StrictOrder(StringLess)
  {
    forall a: string, b: string ensures !StringLess(a, a) && (a != b ==> StringLess(a, b) || StringLess(b, a)) {
      StringLessTotal(a, b);
    }
    forall a: string, b: string, c: string | StringLess(a, b) && StringLess(b, c) ensures StringLess(a, c) {
      StringLessTransitive(a, b, c);
    }
  }

  // ----- what comes before what

  /** The strings agree before position `k`, and there `a` ends or has the smaller character. */
  predicate PartAt(a: string, b: string, k: nat) {
    k <= |a| && k < |b| && a[..k] == b[..k] && (k == |a| || a[k] < b[k])
  }

  /** Dictionary order. */
  predicate Precedes(a: string, b: string) {
    exists k | 0 <= k < |b| :: PartAt(a, b, k)
  }

  lemma {:induction false} StringLessParts(a: string, b: string)
    requires StringLess(a, b)
    ensures Precedes(a, b)
  {
    if a == "" || a[0] != b[0] {
      assert PartAt(a, b, 0);
    } else {
      StringLessParts(a[1..], b[1..]);
      var k :| 0 <= k < |b[1..]| && PartAt(a[1..], b[1..], k);
      assert a[..k + 1] == [a[0]] + a[1..][..k] && b[..k + 1] == [b[0]] + b[1..][..k];
      assert PartAt(a, b, k + 1);
    }
  }

  lemma {:induction false} PartsStringLess(a: string, b: string, k: nat)
    requires PartAt(a, b, k)
    ensures StringLess(a, b)
  {
    if k > 0 {
      assert a[0] == a[..k][0] == b[..k][0] == b[0];
      assert a[1..][..k - 1] == a[..k][1..] && b[1..][..k - 1] == b[..k][1..];
      PartsStringLess(a[1..], b[1..], k - 1);
    }
  }

  /** The comparison is dictionary order: at the first difference the smaller character, or the end,
      comes first. */
  lemma StringLessIsDictionaryOrder(a: string, b: string)
    ensures StringLess(a, b) <==> Precedes(a, b)
  {
    if StringLess(a, b) { StringLessParts(a, b); }
    if Precedes(a, b) {
      var k :| 0 <= k < |b| && PartAt(a, b, k);
      PartsStringLess(a, b, k);
    }
  }

  /** `r` lists the members of `s`, each once, in increasing order. */
  ghost predicate IsListing<T>(less: (T, T) -> bool, r: seq<T>, s: set<T>) {
    && Increasing(less, r)
    && (forall x | x in r :: x in s)
    && (forall x | x in s :: x in r)
  }

  lemma FirstIsLeast<T(!new)>(less: (T, T) -> bool, a: seq<T>, x: T, s: set<T>)
    requires StrictOrder(less) && IsListing(less, a, s) && x in s
    ensures a != [] && !less(x, a[0]) && (x == a[0] || less(a[0], x))
  {
    assert x in a;
  }

  lemma RestIsListing<T(!new)>(less: (T, T) -> bool, a: seq<T>, s: set<T>)
    requires StrictOrder(less) && IsListing(less, a, s) && a != []
    ensures IsListing(less, a[1..], s - {a[0]})
  {
    assert a == [a[0]] + a[1..];
    forall x ensures x in a[1..] <==> x in s - {a[0]} {
      assert x in s <==> x in a;
    }
  }

  /** A sorted listing is determined by the set: neither iteration order nor sort stability can show. */
  lemma {:induction false} ListingUnique<T(!new)>(less: (T, T) -> bool, a: seq<T>, b: seq<T>, s: set<T>)
    requires StrictOrder(less)
    requires IsListing(less, a, s) && IsListing(less, b, s)
    ensures a == b
  {
    if b != [] { FirstIsLeast(less, a, b[0], s); }
    if a != [] {
      FirstIsLeast(less, b, a[0], s);
      RestIsListing(less, a, s);
      RestIsListing(less, b, s);
      ListingUnique(less, a[1..], b[1..], s - {a[0]});
      assert a == [a[0]] + a[1..] && b == [b[0]] + b[1..];
    }
  }

  /** Put `x` in its place. */
  function Insert<T>(less: (T, T) -> bool, x: T, s: seq<T>): (r: seq<T>)
    ensures multiset(r) == multiset(s) + multiset{x}
  {
    if s == [] then [x]
    else if less(s[0], x) then
      assert s == [s[0]] + s[1..];
      [s[0]] + Insert(less, x, s[1..])
    else [x] + s
  }

  /** No element comes before a smaller one. */
  predicate Ordered<T>(less: (T, T) -> bool, s: seq<T>) {
    forall i, j | 0 <= i < j < |s| :: !less(s[j], s[i])
  }

  lemma {:induction false} InsertKeepsOrdered<T(!new)>(less: (T, T) -> bool, x: T, s: seq<T>)
    requires StrictWeakOrder(less) && Ordered(less, s)
    ensures Ordered(less, Insert(less, x, s))
  {
    if s != [] && less(s[0], x) {
      InsertKeepsOrdered(less, x, s[1..]);
      var t := Insert(less, x, s[1..]);
      forall y | y in t ensures !less(y, s[0]) {
        assert y in multiset(t);
        assert y == x || y in s[1..];
      }
    }
  }

  predicate Distinct<T(==)>(s: seq<T>) {
    forall i, j | 0 <= i < j < |s| :: s[i] != s[j]
  }

  /** A rearrangement of distinct elements is distinct. */
  lemma DistinctRearranged<T>(a: seq<T>, b: seq<T>)
    requires Distinct(a) && multiset(a) == multiset(b)
    ensures Distinct(b)
  {
    forall x ensures multiset(a)[x] <= 1 { DistinctCountsOnce(a, x); }
    forall i, j | 0 <= i < j < |b| ensures b[i] != b[j] {
      var x := b[i];
      assert b == b[..j] + b[j..] && b[..j][i] == x;
      assert multiset(b) == multiset(b[..j]) + multiset(b[j..]);
      assert x in b[..j];
      assert b[j..][0] == b[j];
      assert x in multiset(b[..j]) && b[j] in multiset(b[j..]);
      assert x == b[j] ==> multiset(b)[x] >= 2;
    }
  }

  lemma {:induction false} DistinctCountsOnce<T>(a: seq<T>, x: T)
    requires Distinct(a)
    ensures multiset(a)[x] == if x in a then 1 else 0
  {
    if a != [] {
      DistinctCountsOnce(a[1..], x);
      assert a == [a[0]] + a[1..];
    }
  }

  lemma OneMoreMember<T(!new)>(t: seq<T>, x: T, r: seq<T>)
    requires multiset(r) == multiset(t) + multiset{x}
    ensures forall y :: y in r <==> y in t || y == x
  {
    forall y ensures y in r <==> y in t || y == x {
      assert y in r <==> y in multiset(r);
      assert y in t <==> y in multiset(t);
    }
  }

  lemma InsertIntoListing<T(!new)>(less: (T, T) -> bool, x: T, t: seq<T>, s: set<T>)
    requires StrictOrder(less) && x in s && IsListing(less, t, s - {x})
    ensures IsListing(less, Insert(less, x, t), s)
  {
    StrictOrderIsWeak(less);
    InsertKeepsOrdered(less, x, t);
    hide Insert;
    var r := Insert(less, x, t);
    OneMoreMember(t, x, r);
    assert x !in t;
    DistinctRearranged([x] + t, r);
  }

  lemma {:induction false} ListingExists<T(!new)>(less: (T, T) -> bool, s: set<T>)
    requires StrictOrder(less)
    ensures exists r :: IsListing(less, r, s)
  {
    if s == {} {
      assert IsListing(less, [], s);
    } else {
      var x :| x in s;
      ListingExists(less, s - {x});
      var t :| IsListing(less, t, s - {x});
      InsertIntoListing(less, x, t, s);
    }
  }

  lemma {:induction false} DistinctCover<T>(s: seq<T>, members: set<T>)
    requires Distinct(s) && (forall x | x in s :: x in members) && forall x | x in members :: x in s
    ensures |s| == |members|
  {
    if s == [] {
      assert members == {};
    } else {
      assert s == [s[0]] + s[1..];
      forall x | x in s[1..] ensures x in members - {s[0]} { }
      DistinctCover(s[1..], members - {s[0]});
    }
  }

  /** A listing in one order is a listing in any other that says the same. */
  lemma ListingByDictionary(r: seq<string>, s: set<string>)
    requires IsListing(StringLess, r, s)
    ensures IsListing(Precedes, r, s)
  {
    forall i, j | 0 <= i < j < |r| ensures Precedes(r[i], r[j]) {
      StringLessIsDictionaryOrder(r[i], r[j]);
    }
  }

  /** The sorted listing of a set. */
  ghost function Listing<T(!new)>(less: (T, T) -> bool, s: set<T>): (r: seq<T>)
    requires StrictOrder(less)
    ensures IsListing(less, r, s)
  {
    ListingExists(less, s);
    var r :| IsListing(less, r, s);
    r
  }

  /** `sort.Slice`, whose callers may rely only on this contract: a rearrangement with no
      element before a smaller one. The insertion sort stands in for the library. */
  method SortSlice<T(!new)>(less: (T, T) -> bool, items: seq<T>) returns (r: seq<T>)
    requires StrictWeakOrder(less)
    ensures multiset(r) == multiset(items)
    ensures Ordered(less, r)
  {
    r := [];
    for n := 0 to |items|
      invariant multiset(r) == multiset(items[..n])
      invariant Ordered(less, r)
    {
      assert items[..n + 1] == items[..n] + [items[n]];
      InsertKeepsOrdered(less, items[n], r);
      r := Insert(less, items[n], r);
    }
    assert items[..|items|] == items;
  }

  /** Sorting the collected members of a set, however they were collected, gives its listing. */
  lemma SortedMembersAreTheListing<T(!new)>(less: (T, T) -> bool, collected: seq<T>, sorted: seq<T>, s: set<T>)
    requires StrictOrder(less)
    requires Distinct(collected) && forall x :: x in collected <==> x in s
    requires multiset(sorted) == multiset(collected) && Ordered(less, sorted)
    ensures sorted == Listing(less, s)
  {
    DistinctRearranged(collected, sorted);
    forall x ensures x in sorted <==> x in s {
      assert x in multiset(sorted) <==> x in multiset(collected);
    }
    ListingUnique(less, sorted, Listing(less, s), s);
  }
}
