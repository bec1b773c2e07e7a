/** The summary renderer: running totals and the top-N lists printed when it is closed. */
module Summary {
  import opened Model
  import opened Order
  import opened Histogram
  import opened Sequences
  import opened Metrics

  // ----- what one trace counts

  function ExchangeNames(trace: RoutingTrace): seq<string> {
    [ExchangeLabel(trace)]
  }

  function QueueNames(trace: RoutingTrace): seq<string> {
    LabelsOf(Destinations(trace))
  }

  function LabelsOf(ds: seq<QueueDestination>): seq<string> {
    seq(|ds|, i requires 0 <= i < |ds| => QueueLabel(ds[i]))
  }

  function RoutingKeys(trace: RoutingTrace): seq<string> {
    if trace.event.routingKey == "" then [] else [trace.event.routingKey]
  }

  function OfType(lower: Lower, eventType: string): RoutingTrace -> bool {
    (trace: RoutingTrace) => lower(trace.event.eventType) == eventType
  }

  function IsUnrouted(lower: Lower): RoutingTrace -> bool {
    (trace: RoutingTrace) => Unrouted(lower, trace)
  }

  // ----- ranking

  datatype CountEntry = CountEntry(name: string, count: int)

  /** Higher counts first, names break ties. */
  predicate RankLess(a: CountEntry, b: CountEntry) {
    if a.count != b.count then a.count > b.count else StringLess(a.name, b.name)
  }

  lemma RankLessIsStrictOrder()
    ensures StrictOrder(RankLess)
  {
    hide StringLess;
    StringLessIsStrictOrder();
  }

  function EntriesOf(counts: map<string, int>): set<CountEntry> {
    set name | name in counts :: CountEntry(name, counts[name])
  }

  /** All entries, best first. */
  ghost function Ranking(counts: map<string, int>): seq<CountEntry> {
    RankLessIsStrictOrder();
    Listing(RankLess, EntriesOf(counts))
  }

  function Names(entries: seq<CountEntry>): (names: seq<string>)
    ensures |names| == |entries| && forall i | 0 <= i < |entries| :: names[i] == entries[i].name
  {
    seq(|entries|, i requires 0 <= i < |entries| => entries[i].name)
  }

  /** The ranking names every counter once. */
  lemma RankingEnumerates(counts: map<string, int>)
    ensures Enumerates(Names(Ranking(counts)), counts.Keys) && |Ranking(counts)| == |counts|
  {
    RankLessIsStrictOrder();
    var r := Ranking(counts);
    var names := Names(r);
    forall i | 0 <= i < |r| ensures names[i] in counts && r[i] == CountEntry(names[i], counts[names[i]]) {
      assert r[i] in EntriesOf(counts);
    }
    forall i, j | 0 <= i < j < |r| ensures names[i] != names[j] {
      assert RankLess(r[i], r[j]);
    }
    forall k | k in counts ensures k in names {
      assert CountEntry(k, counts[k]) in EntriesOf(counts);
      var i :| 0 <= i < |r| && r[i] == CountEntry(k, counts[k]);
      assert names[i] == k;
    }
    DistinctCover(names, counts.Keys);
    assert |counts| == |counts.Keys|;
  }

  /** The shown list: the best entries, as many as asked for. */
  ghost function Top(counts: map<string, int>, n: nat): seq<CountEntry> {
    var r := Ranking(counts);
    if |r| > n then r[..n] else r
  }

  /** `shown` is a fair top-n list: entries of the map in strictly decreasing rank, as many as
      possible, and none that is left out outranks one that is shown. */
  ghost predicate IsTopN(counts: map<string, int>, n: nat, shown: seq<CountEntry>) {
    && |shown| == (if |counts| > n then n else |counts|)
    && Increasing(RankLess, shown)
    && (forall e | e in shown :: e in EntriesOf(counts))
    && (forall e, o | e in shown && o in EntriesOf(counts) && o !in shown :: RankLess(e, o))
  }

  /** The list is fair, and it is the only fair one. */
  lemma TopIsTheFairList(counts: map<string, int>, n: nat, shown: seq<CountEntry>)
    ensures IsTopN(counts, n, shown) <==> shown == Top(counts, n)
  {
    hide RankLess;
    TopIsFair(counts, n);
    if IsTopN(counts, n, shown) {
      FairListsAgree(shown, Top(counts, n), EntriesOf(counts));
    }
  }

  /** In an increasing list the first `n` entries outrank the others. */
  lemma PrefixOutranks(r: seq<CountEntry>, n: nat, e: CountEntry, o: CountEntry)
    requires Increasing(RankLess, r) && n <= |r|
    requires e in r[..n] && o in r && o !in r[..n]
    ensures RankLess(e, o)
  {
    hide RankLess;
    var i :| 0 <= i < n && r[..n][i] == e;
    var j :| 0 <= j < |r| && r[j] == o;
    assert forall k | 0 <= k < n :: r[k] == r[..n][k] && r[..n][k] in r[..n];
  }

  lemma TopIsFair(counts: map<string, int>, n: nat)
    ensures IsTopN(counts, n, Top(counts, n))
  {
    hide RankLess, Enumerates;
    RankLessIsStrictOrder();
    RankingEnumerates(counts);
    var r := Ranking(counts);
    var top := Top(counts, n);
    assert r[..|top|] == top;
    forall e, o | e in top && o in EntriesOf(counts) && o !in top ensures RankLess(e, o) {
      PrefixOutranks(r, |top|, e, o);
    }
  }

  /** The first comes before the second on the list: it has the higher count or, at equal counts, the
      name that is earlier in the dictionary. */
  ghost predicate Outranks(name: string, count: int, other: string, otherCount: int) {
    count > otherCount || (count == otherCount && Precedes(name, other))
  }

  /** `shown` lists counters of the map, highest first, as many as asked for, and each outranks the
      next ones and every counter that is left out. */
  ghost predicate ShowsTheHighest(counts: map<string, int>, n: nat, shown: seq<CountEntry>) {
    && |shown| == (if |counts| > n then n else |counts|)
    && (forall e | e in shown :: e.name in counts && e.count == counts[e.name])
    && (forall i, j | 0 <= i < j < |shown| ::
          Outranks(shown[i].name, shown[i].count, shown[j].name, shown[j].count))
    && (forall e, name | e in shown && name in counts && CountEntry(name, counts[name]) !in shown ::
          Outranks(e.name, e.count, name, counts[name]))
  }

  lemma RankLessOutranks(a: CountEntry, b: CountEntry)
    ensures RankLess(a, b) <==> Outranks(a.name, a.count, b.name, b.count)
  {
    StringLessIsDictionaryOrder(a.name, b.name);
  }

  lemma TopShowsTheHighest(counts: map<string, int>, n: nat)
    ensures ShowsTheHighest(counts, n, Top(counts, n))
  {
    hide RankLess, Outranks, Top;
    TopIsFair(counts, n);
    var shown := Top(counts, n);
    forall e | e in shown ensures e.name in counts && e.count == counts[e.name] {
      assert e in EntriesOf(counts);
    }
    forall i, j | 0 <= i < j < |shown|
      ensures Outranks(shown[i].name, shown[i].count, shown[j].name, shown[j].count)
    {
      RankLessOutranks(shown[i], shown[j]);
    }
    forall e, name | e in shown && name in counts && CountEntry(name, counts[name]) !in shown
      ensures Outranks(e.name, e.count, name, counts[name])
    {
      assert CountEntry(name, counts[name]) in EntriesOf(counts);
      RankLessOutranks(e, CountEntry(name, counts[name]));
    }
  }

  /** Collect the counters in map order, sort, cut. */
  method WriteTopN(counts: map<string, int>, n: nat) returns (shown: seq<CountEntry>)
    ensures shown == Top(counts, n)
    ensures ShowsTheHighest(counts, n, shown)
  {
    TopShowsTheHighest(counts, n);
    RankLessIsStrictOrder();
    StrictOrderIsWeak(RankLess);
    if |counts| == 0 {
      RankingEnumerates(counts);
      return [];
    }
    var entries: seq<CountEntry> := [];
    var rest := counts.Keys;
    while rest != {}
      invariant rest <= counts.Keys && Distinct(entries)
      invariant forall e :: e in entries <==> e.name in counts.Keys - rest && e.count == counts[e.name]
    {
      var name :| name in rest;
      assert name !in counts.Keys - rest && CountEntry(name, counts[name]) !in entries;
      entries := entries + [CountEntry(name, counts[name])];
      rest := rest - {name};
    }
    shown := SortSlice(RankLess, entries);
    SortedMembersAreTheListing(RankLess, entries, shown, EntriesOf(counts));
    if |shown| > n {
      shown := shown[..n];
    }
  }

  /** Two lists of the same length: if one has an element of its own, so has the other. */
  lemma OwnMember<T>(a: seq<T>, b: seq<T>, x: T) returns (y: T)
    requires Distinct(a) && Distinct(b) && |a| == |b|
    requires x in a && x !in b
    ensures y in b && y !in a
  {
    var sa, sb := set e | e in a, set e | e in b;
    DistinctCover(a, sa);
    DistinctCover(b, sb);
    if sb <= sa { SubsetSize(sb, sa - {x}); }
    y :| y in sb && y !in sa;
  }

  lemma RankAsymmetric(x: CountEntry, y: CountEntry)
    ensures !(RankLess(x, y) && RankLess(y, x))
  {
    hide RankLess;
    RankLessIsStrictOrder();
    assert !RankLess(x, x);
  }

  lemma IncreasingIsDistinct(s: seq<CountEntry>)
    requires Increasing(RankLess, s)
    ensures Distinct(s)
  {
    RankLessIsStrictOrder();
  }

  lemma FairListsAgree(a: seq<CountEntry>, b: seq<CountEntry>, all: set<CountEntry>)
    requires |a| == |b| && Increasing(RankLess, a) && Increasing(RankLess, b)
    requires (forall e | e in a :: e in all) && forall e | e in b :: e in all
    requires forall e, o | e in a && o in all && o !in a :: RankLess(e, o)
    requires forall e, o | e in b && o in all && o !in b :: RankLess(e, o)
    ensures a == b
  {
    IncreasingIsDistinct(a);
    IncreasingIsDistinct(b);
    forall x ensures x in a <==> x in b {
      if x in a && x !in b {
        var y := OwnMember(a, b, x);
        RankAsymmetric(x, y);
      }
      if x in b && x !in a {
        var y := OwnMember(b, a, x);
        RankAsymmetric(y, x);
      }
    }
    RankLessIsStrictOrder();
    ListingUnique(RankLess, a, b, set e | e in a);
  }

  lemma {:induction false} SubsetSize<T>(a: set<T>, b: set<T>)
    requires a <= b
    ensures |a| <= |b|
  {
    if a != {} {
      var x :| x in a;
      SubsetSize(a - {x}, b - {x});
    }
  }

  function SumCounts(entries: seq<CountEntry>): int {
    if entries == [] then 0 else entries[0].count + SumCounts(entries[1..])
  }

  lemma TotalsOneMore(lower: Lower, seen: seq<RoutingTrace>, trace: RoutingTrace)
    ensures CountWhere(seen + [trace], OfType(lower, "publish"))
         == CountWhere(seen, OfType(lower, "publish")) + if lower(trace.event.eventType) == "publish" then 1 else 0
    ensures CountWhere(seen + [trace], OfType(lower, "deliver"))
         == CountWhere(seen, OfType(lower, "deliver")) + if lower(trace.event.eventType) == "deliver" then 1 else 0
    ensures CountWhere(seen + [trace], IsUnrouted(lower))
         == CountWhere(seen, IsUnrouted(lower)) + if Unrouted(lower, trace) then 1 else 0
  {
    CountOneMore(seen, trace, OfType(lower, "publish"));
    CountOneMore(seen, trace, OfType(lower, "deliver"));
    CountOneMore(seen, trace, IsUnrouted(lower));
  }

  // ----- the renderer

  datatype Report = Report(
    totalEvents: int,
    publishEvents: int,
    deliverEvents: int,
    unrouted: int,
    topExchanges: seq<CountEntry>,
    topQueues: seq<CountEntry>,
    topRoutingKeys: seq<CountEntry>)

  class Summary {
    const lower: Lower
    var closed: bool
    var totalEvents: int
    var publishEvents: int
    var deliverEvents: int
    var unrouted: int
    var exchanges: map<string, int>
    var queues: map<string, int>
    var routingKeys: map<string, int>

    /** The traces accepted so far. */
    ghost var seen: seq<RoutingTrace>

    ghost predicate Valid()
      reads this
    {
      && totalEvents == |seen|
      && publishEvents == CountWhere(seen, OfType(lower, "publish"))
      && deliverEvents == CountWhere(seen, OfType(lower, "deliver"))
      && unrouted == CountWhere(seen, IsUnrouted(lower))
      && Records(exchanges, FlatMap(ExchangeNames, seen))
      && Records(queues, FlatMap(QueueNames, seen))
      && Records(routingKeys, FlatMap(RoutingKeys, seen))
    }

    constructor (lower: Lower)
      ensures Valid() && seen == [] && !closed && this.lower == lower
    {
      this.lower := lower;
      closed, totalEvents, publishEvents, deliverEvents, unrouted := false, 0, 0, 0, 0;
      exchanges, queues, routingKeys, seen := map[], map[], map[], [];
    }

    method CountQueues(destinations: seq<QueueDestination>, ghost before: seq<string>)
      requires Records(queues, before)
      modifies this`queues
      ensures Records(queues, before + LabelsOf(destinations))
    {
      hide Records;
      ghost var added := LabelsOf(destinations);
      assert before + added[..0] == before;
      for i := 0 to |destinations|
        invariant Records(queues, before + added[..i])
      {
        var queue := destinations[i].queueName;
        if queue == "" {
          queue := "(unknown-queue)";
        }
        assert before + added[..i + 1] == before + added[..i] + [queue];
        BumpRecords(queues, before + added[..i], queue);
        queues := Bump(queues, queue);
      }
      assert added[..|destinations|] == added;
    }

    /** The counters by name. */
    method CountNames(trace: RoutingTrace, exchange: string, destinations: seq<QueueDestination>)
      requires exchange == ExchangeLabel(trace) && destinations == Destinations(trace)
      requires Records(exchanges, FlatMap(ExchangeNames, seen))
      requires Records(queues, FlatMap(QueueNames, seen))
      requires Records(routingKeys, FlatMap(RoutingKeys, seen))
      modifies this`exchanges, this`queues, this`routingKeys
      ensures Records(exchanges, FlatMap(ExchangeNames, seen + [trace]))
      ensures Records(queues, FlatMap(QueueNames, seen + [trace]))
      ensures Records(routingKeys, FlatMap(RoutingKeys, seen + [trace]))
      ensures routingKeys == if trace.event.routingKey != "" then Bump(old(routingKeys), trace.event.routingKey)
                             else old(routingKeys)
    {
      hide FlatMap, Records, LabelsOf;
      FlatMapOneMore(ExchangeNames, seen, trace);
      BumpRecords(exchanges, FlatMap(ExchangeNames, seen), exchange);
      exchanges := Bump(exchanges, exchange);
      FlatMapOneMore(QueueNames, seen, trace);
      CountQueues(destinations, FlatMap(QueueNames, seen));
      FlatMapOneMore(RoutingKeys, seen, trace);
      if trace.event.routingKey != "" {
        BumpRecords(routingKeys, FlatMap(RoutingKeys, seen), trace.event.routingKey);
        routingKeys := Bump(routingKeys, trace.event.routingKey);
      } else {
        assert FlatMap(RoutingKeys, seen) + [] == FlatMap(RoutingKeys, seen);
      }
    }

    /** A closed renderer refuses traces and stays as it is. */
    method RenderTrace(trace: RoutingTrace) returns (ok: bool)
      requires Valid()
      modifies this
      ensures Valid() && closed == old(closed) && ok == !closed
      ensures seen == if ok then old(seen) + [trace] else old(seen)
      ensures routingKeys == if ok && trace.event.routingKey != "" then Bump(old(routingKeys), trace.event.routingKey)
                             else old(routingKeys)
    {
      hide FlatMap, Records, LabelsOf, CountWhere, OfType, IsUnrouted;
      if closed {
        return false;
      }
      totalEvents := totalEvents + 1;
      var eventType := lower(trace.event.eventType);
      if eventType == "publish" {
        publishEvents := publishEvents + 1;
      } else if eventType == "deliver" {
        deliverEvents := deliverEvents + 1;
      }
      var exchange := trace.event.exchangeName;
      if exchange == "" {
        exchange := "(unknown-exchange)";
      }
      var destinations := trace.destinations;
      if |destinations| == 0 {
        destinations := trace.event.destinations;
      }
      if |destinations| == 0 && lower(trace.event.eventType) == "publish" {
        unrouted := unrouted + 1;
      }
      CountNames(trace, exchange, destinations);
      TotalsOneMore(lower, seen, trace);
      seen := seen + [trace];
      return true;
    }

    /** The first Close reports; later ones do nothing. */
    method Close() returns (report: Option<Report>)
      requires Valid()
      modifies this`closed
      ensures Valid() && closed
      ensures report == if old(closed) then None else
                Some(Report(totalEvents, publishEvents, deliverEvents, unrouted,
                            Top(exchanges, 10), Top(queues, 10), Top(routingKeys, 10)))
    {
      hide Top, ShowsTheHighest, Records, FlatMap, CountWhere;
      if closed {
        return None;
      }
      closed := true;
      var topExchanges := WriteTopN(exchanges, 10);
      var topQueues := WriteTopN(queues, 10);
      var topRoutingKeys := WriteTopN(routingKeys, 10);
      return Some(Report(totalEvents, publishEvents, deliverEvents, unrouted, topExchanges, topQueues, topRoutingKeys));
    }
  }

  /** What Close would report of the counters. */
  ghost function ReportOf(s: Summary): Report
    reads s
  {
    Report(s.totalEvents, s.publishEvents, s.deliverEvents, s.unrouted,
           Top(s.exchanges, 10), Top(s.queues, 10), Top(s.routingKeys, 10))
  }

  /** The report shows nothing of the order in which the traces came. */
  lemma ReportIsOrderFree(a: Summary, b: Summary)
    requires a.Valid() && b.Valid() && a.lower == b.lower
    requires multiset(a.seen) == multiset(b.seen)
    ensures ReportOf(a) == ReportOf(b)
  {
    hide FlatMap, Records, CountWhere, Top;
    assert |a.seen| == |multiset(a.seen)| == |multiset(b.seen)| == |b.seen|;
    CountWherePermute(a.seen, b.seen, OfType(a.lower, "publish"));
    CountWherePermute(a.seen, b.seen, OfType(a.lower, "deliver"));
    CountWherePermute(a.seen, b.seen, IsUnrouted(a.lower));
    FlatMapPermute(ExchangeNames, a.seen, b.seen);
    FlatMapPermute(QueueNames, a.seen, b.seen);
    FlatMapPermute(RoutingKeys, a.seen, b.seen);
    RecordsIsOrderFree(a.exchanges, b.exchanges, FlatMap(ExchangeNames, a.seen), FlatMap(ExchangeNames, b.seen));
    RecordsIsOrderFree(a.queues, b.queues, FlatMap(QueueNames, a.seen), FlatMap(QueueNames, b.seen));
    RecordsIsOrderFree(a.routingKeys, b.routingKeys, FlatMap(RoutingKeys, a.seen), FlatMap(RoutingKeys, b.seen));
  }
}
