/** Three renderers fed the same stream keep different indexes of it; here their marginals meet. */
module Agreement {
  import opened Text
  import opened Model
  import opened Histogram
  import opened Sequences
  import opened Edges
  import opened Metrics
  import opened Summary
  import opened Graph
  import opened Parser

  function CounterAt<K>(counts: map<K, int>, key: K): int {
    if key in counts then counts[key] else 0
  }

  // ----- counting two indexes of one stream

  /** If every item contributes equally to both counts, the counts over the stream agree. */
  lemma {:induction false} CountsAgree<T, K, L>(
    f: T -> seq<K>, p: K -> bool, g: T -> seq<L>, q: L -> bool, items: seq<T>)
    requires forall t | t in items :: CountWhere(f(t), p) == CountWhere(g(t), q)
    ensures CountWhere(FlatMap(f, items), p) == CountWhere(FlatMap(g, items), q)
  {
    if items != [] {
      var n := |items| - 1;
      CountsAgree(f, p, g, q, items[..n]);
      CountWhereConcat(FlatMap(f, items[..n]), f(items[n]), p);
      CountWhereConcat(FlatMap(g, items[..n]), g(items[n]), q);
    }
  }

  /** The same for a property of the items themselves. */
  lemma {:induction false} CountsItems<T, K>(f: T -> seq<K>, p: K -> bool, q: T -> bool, items: seq<T>)
    requires forall t | t in items :: CountWhere(f(t), p) == if q(t) then 1 else 0
    ensures CountWhere(FlatMap(f, items), p) == CountWhere(items, q)
  {
    if items != [] {
      var n := |items| - 1;
      CountsItems(f, p, q, items[..n]);
      CountWhereConcat(FlatMap(f, items[..n]), f(items[n]), p);
    }
  }

  lemma CountOfOne<K>(k: K, p: K -> bool)
    ensures CountWhere([k], p) == if p(k) then 1 else 0
  {
    assert [k][..0] == [];
  }

  // ----- summary against Prometheus

  function AtExchange(exchange: string): ExchangeEvent -> bool {
    (k: ExchangeEvent) => k.exchange == exchange
  }

  function WithType(eventType: string): ExchangeEvent -> bool {
    (k: ExchangeEvent) => k.eventType == eventType
  }

  function ToQueue(queue: string): ExchangeQueue -> bool {
    (k: ExchangeQueue) => k.queue == queue
  }

  function Equals(name: string): string -> bool {
    (k: string) => k == name
  }

  function Always<K>(): K -> bool {
    (k: K) => true
  }

  /** `order` is any order in which the counters are added up. */
  lemma ExchangesAgree(p: Prometheus, s: Summary, order: seq<ExchangeEvent>, exchange: string)
    requires p.Valid() && s.Valid() && p.lower == s.lower && p.seen == s.seen
    requires Enumerates(order, p.events.Keys)
    ensures CounterAt(s.exchanges, exchange) == SumWhere(order, p.events, AtExchange(exchange))
  {
    var f := EventKeys(p.lower);
    MarginalCounts(order, p.events, FlatMap(f, p.seen), AtExchange(exchange));
    CounterOf(s.exchanges, FlatMap(ExchangeNames, s.seen), exchange);
    forall t ensures CountWhere(f(t), AtExchange(exchange)) == CountWhere(ExchangeNames(t), Equals(exchange)) {
      CountOfOne(ExchangeEvent(ExchangeLabel(t), TypeLabel(p.lower, t)), AtExchange(exchange));
      CountOfOne(ExchangeLabel(t), Equals(exchange));
    }
    CountsAgree(f, AtExchange(exchange), ExchangeNames, Equals(exchange), p.seen);
  }

  lemma CounterOf(counts: map<string, int>, keys: seq<string>, key: string)
    requires Records(counts, keys)
    ensures CounterAt(counts, key) == CountWhere(keys, Equals(key))
  {
    CounterCounts(counts, keys, key, Equals(key));
  }

  lemma QueuesAgree(p: Prometheus, s: Summary, order: seq<ExchangeQueue>, queue: string)
    requires p.Valid() && s.Valid() && p.lower == s.lower && p.seen == s.seen
    requires Enumerates(order, p.deliveries.Keys)
    ensures CounterAt(s.queues, queue) == SumWhere(order, p.deliveries, ToQueue(queue))
  {
    MarginalCounts(order, p.deliveries, FlatMap(DeliveryKeys, p.seen), ToQueue(queue));
    CounterOf(s.queues, FlatMap(QueueNames, s.seen), queue);
    forall t ensures CountWhere(DeliveryKeys(t), ToQueue(queue)) == CountWhere(QueueNames(t), Equals(queue)) {
      LabelsCountAlike(ExchangeLabel(t), Destinations(t), queue);
    }
    CountsAgree(DeliveryKeys, ToQueue(queue), QueueNames, Equals(queue), p.seen);
  }

  lemma {:induction false} LabelsCountAlike(exchange: string, ds: seq<QueueDestination>, queue: string)
    ensures CountWhere(DeliveriesTo(exchange, ds), ToQueue(queue)) == CountWhere(LabelsOf(ds), Equals(queue))
  {
    if ds != [] {
      var n := |ds| - 1;
      LabelsCountAlike(exchange, ds[..n], queue);
      assert DeliveriesTo(exchange, ds)[..n] == DeliveriesTo(exchange, ds[..n]);
      assert LabelsOf(ds)[..n] == LabelsOf(ds[..n]);
    }
  }

  /** Every trace is counted in one event counter. */
  lemma EventCountersTotal(p: Prometheus, order: seq<ExchangeEvent>)
    requires p.Valid() && Enumerates(order, p.events.Keys)
    ensures SumWhere(order, p.events, Always()) == |p.seen|
  {
    var f := EventKeys(p.lower);
    MarginalCounts(order, p.events, FlatMap(f, p.seen), Always());
    forall t ensures CountWhere(f(t), Always()) == 1 { CountOfOne(f(t)[0], Always()); }
    CountsItems(f, Always(), Always(), p.seen);
    CountWhereSame(p.seen, Always(), t => true);
    CountWhereAll(p.seen);
  }

  /** Total, publish and deliver counts are the matching sums over the event counters. */
  lemma EventTotalsAgree(p: Prometheus, s: Summary, order: seq<ExchangeEvent>)
    requires p.Valid() && s.Valid() && p.lower == s.lower && p.seen == s.seen
    requires Enumerates(order, p.events.Keys)
    ensures s.totalEvents == SumWhere(order, p.events, Always())
    ensures s.publishEvents == SumWhere(order, p.events, WithType("publish"))
    ensures s.deliverEvents == SumWhere(order, p.events, WithType("deliver"))
  {
    EventCountersTotal(p, order);
    TypeTotal(p, order, "publish");
    TypeTotal(p, order, "deliver");
  }

  lemma TypeTotal(p: Prometheus, order: seq<ExchangeEvent>, eventType: string)
    requires p.Valid() && Enumerates(order, p.events.Keys)
    requires eventType != "" && eventType != "unknown"
    ensures SumWhere(order, p.events, WithType(eventType)) == CountWhere(p.seen, OfType(p.lower, eventType))
  {
    var f := EventKeys(p.lower);
    MarginalCounts(order, p.events, FlatMap(f, p.seen), WithType(eventType));
    forall t ensures CountWhere(f(t), WithType(eventType)) == if OfType(p.lower, eventType)(t) then 1 else 0 {
      CountOfOne(f(t)[0], WithType(eventType));
    }
    CountsItems(f, WithType(eventType), OfType(p.lower, eventType), p.seen);
  }

  lemma UnroutedTotalAgrees(p: Prometheus, s: Summary, order: seq<string>)
    requires p.Valid() && s.Valid() && p.lower == s.lower && p.seen == s.seen
    requires Enumerates(order, p.unrouted.Keys)
    ensures s.unrouted == SumWhere(order, p.unrouted, Always())
  {
    var f := UnroutedKeys(p.lower);
    MarginalCounts(order, p.unrouted, FlatMap(f, p.seen), Always());
    forall t ensures CountWhere(f(t), Always()) == if IsUnrouted(p.lower)(t) then 1 else 0 {
      CountOfOne(ExchangeLabel(t), Always());
    }
    CountsItems(f, Always(), IsUnrouted(p.lower), p.seen);
  }

  // ----- graph against Prometheus

  /** A trace as the service builds it from a parsed event: names already trimmed. */
  predicate CleanTrace(trace: RoutingTrace) {
    CleanNames(trace.event) && CleanDestinations(trace.destinations)
  }

  /** Neither the exchange nor any queue of the trace has blanks at its ends. */
  predicate TrimmedNames(trace: RoutingTrace) {
    Trimmed(trace.event.exchangeName) && forall d | d in Destinations(trace) :: Trimmed(d.queueName)
  }

  lemma CleanNamesAreTrimmed(trace: RoutingTrace)
    requires CleanTrace(trace)
    ensures TrimmedNames(trace)
  {
    forall d | d in Destinations(trace) ensures Trimmed(d.queueName) {
      assert CleanDestination(d);
    }
  }

  function Between(exchange: string, queue: string): EdgeKey -> bool {
    (k: EdgeKey) => k.from == exchange && k.to == queue
  }

  function Pair(exchange: string, queue: string): ExchangeQueue -> bool {
    (k: ExchangeQueue) => k == ExchangeQueue(exchange, queue)
  }

  /** A trace of this exchange that names no destination. */
  function Destinationless(exchange: string): RoutingTrace -> bool {
    (trace: RoutingTrace) => |Destinations(trace)| == 0 && ExchangeLabel(trace) == exchange
  }

  /** The graph and Prometheus call a thing the same exactly when its name is trimmed. */
  lemma NamesAgree(name: string, fallback: string)
    requires Trimmed(fallback)
    ensures Normalize(name, fallback) == OrElse(name, fallback) <==> Trimmed(name)
  {
  }

  lemma TraceNamesAgree(trace: RoutingTrace)
    requires TrimmedNames(trace)
    ensures ExchangeName(trace) == ExchangeLabel(trace)
    ensures forall d | d in Destinations(trace) :: Normalize(d.queueName, "(unknown-queue)") == QueueLabel(d)
  {
    assert Trimmed("(unknown-exchange)") && Trimmed("(unknown-queue)");
    NamesAgree(trace.event.exchangeName, "(unknown-exchange)");
    forall d | d in Destinations(trace) ensures Normalize(d.queueName, "(unknown-queue)") == QueueLabel(d) {
      NamesAgree(d.queueName, "(unknown-queue)");
    }
  }

  /** What one trace adds to the edges between two nodes, and to the delivery counter. */
  lemma TraceCountsAgree(trace: RoutingTrace, exchange: string, queue: string)
    requires TrimmedNames(trace)
    ensures CountWhere(TraceKeys(trace), Between(exchange, queue))
         == CountWhere(DeliveryKeys(trace), Pair(exchange, queue))
            + if queue == "(unrouted)" && Destinationless(exchange)(trace) then 1 else 0
  {
    TraceNamesAgree(trace);
    if |Destinations(trace)| == 0 {
      assert DeliveryKeys(trace) == [];
      assert TraceKeys(trace) == [KeyOf(trace, QueueDestination("(unrouted)", ""))];
      assert Trimmed("(unrouted)");
      CountOfOne(TraceKeys(trace)[0], Between(exchange, queue));
    } else {
      DestinationsCountAlike(trace, Destinations(trace), exchange, queue);
    }
  }

  lemma KeysToOneMore(trace: RoutingTrace, ds: seq<QueueDestination>, d: QueueDestination)
    ensures KeysTo(trace, ds + [d]) == KeysTo(trace, ds) + [KeyOf(trace, d)]
    ensures DeliveriesTo(ExchangeLabel(trace), ds + [d])
         == DeliveriesTo(ExchangeLabel(trace), ds) + [ExchangeQueue(ExchangeLabel(trace), QueueLabel(d))]
  {
    hide KeyOf, QueueLabel, ExchangeLabel;
  }

  lemma {:induction false} DestinationsCountAlike(
    trace: RoutingTrace, ds: seq<QueueDestination>, exchange: string, queue: string)
    requires ExchangeName(trace) == ExchangeLabel(trace)
    requires forall d | d in ds :: Normalize(d.queueName, "(unknown-queue)") == QueueLabel(d)
    ensures CountWhere(KeysTo(trace, ds), Between(exchange, queue))
         == CountWhere(DeliveriesTo(ExchangeLabel(trace), ds), Pair(exchange, queue))
  {
    hide Normalize, QueueLabel, ExchangeName, ExchangeLabel, FirstNonEmpty;
    if ds != [] {
      var n := |ds| - 1;
      DestinationsCountAlike(trace, ds[..n], exchange, queue);
      KeysToOneMore(trace, ds[..n], ds[n]);
      assert ds == ds[..n] + [ds[n]] && ds[n] in ds;
      CountOneMore(KeysTo(trace, ds[..n]), KeyOf(trace, ds[n]), Between(exchange, queue));
      CountOneMore(DeliveriesTo(ExchangeLabel(trace), ds[..n]),
                   ExchangeQueue(ExchangeLabel(trace), QueueLabel(ds[n])), Pair(exchange, queue));
    }
  }

  lemma {:induction false} StreamCountsAgree(traces: seq<RoutingTrace>, exchange: string, queue: string)
    requires forall t | t in traces :: TrimmedNames(t)
    ensures CountWhere(FlatMap(TraceKeys, traces), Between(exchange, queue))
         == CountWhere(FlatMap(DeliveryKeys, traces), Pair(exchange, queue))
            + if queue == "(unrouted)" then CountWhere(traces, Destinationless(exchange)) else 0
  {
    hide TraceKeys, DeliveryKeys, TrimmedNames;
    if traces != [] {
      var n := |traces| - 1;
      StreamCountsAgree(traces[..n], exchange, queue);
      TraceCountsAgree(traces[n], exchange, queue);
      CountWhereConcat(FlatMap(TraceKeys, traces[..n]), TraceKeys(traces[n]), Between(exchange, queue));
      CountWhereConcat(FlatMap(DeliveryKeys, traces[..n]), DeliveryKeys(traces[n]), Pair(exchange, queue));
    }
  }

  /** What Prometheus has counted for this pair, and, at the `(unrouted)` node, the traces of the
      exchange that named no destination. */
  ghost function Expected(p: Prometheus, exchange: string, queue: string): int
    reads p
  {
    CounterAt(p.deliveries, ExchangeQueue(exchange, queue))
      + if queue == "(unrouted)" then CountWhere(p.seen, Destinationless(exchange)) else 0
  }

  /** Summing the edge counts over all labels gives the delivery counter, plus, for the
      `(unrouted)` node, the traces of that exchange that named no destination. */
  lemma GraphAgreesWithPrometheus(g: Graph, p: Prometheus, order: seq<EdgeKey>, exchange: string, queue: string)
    requires g.Valid() && p.Valid() && g.seen == p.seen
    requires forall t | t in g.seen :: TrimmedNames(t)
    requires Enumerates(order, g.edges.Keys)
    ensures SumWhere(order, g.Counts(), Between(exchange, queue)) == Expected(p, exchange, queue)
  {
    hide FlatMap, CountWhere, TrimmedNames;
    MarginalCounts(order, g.Counts(), StreamKeys(g.seen), Between(exchange, queue));
    StreamCountsAgree(g.seen, exchange, queue);
    DeliveryCounter(p, exchange, queue);
  }

  lemma DeliveryCounter(p: Prometheus, exchange: string, queue: string)
    requires p.Valid()
    ensures CounterAt(p.deliveries, ExchangeQueue(exchange, queue))
         == CountWhere(FlatMap(DeliveryKeys, p.seen), Pair(exchange, queue))
  {
    hide FlatMap, CountWhere;
    CounterCounts(p.deliveries, FlatMap(DeliveryKeys, p.seen), ExchangeQueue(exchange, queue), Pair(exchange, queue));
  }

  // ----- untrimmed names

  lemma {:induction false} CountsNone<K>(keys: seq<K>, p: K -> bool)
    requires forall k | k in keys :: !p(k)
    ensures CountWhere(keys, p) == 0
  {
    if keys != [] { CountsNone(keys[..|keys| - 1], p); }
  }

  lemma {:induction false} CountsSome<K>(keys: seq<K>, k: K, p: K -> bool)
    requires k in keys && p(k)
    ensures CountWhere(keys, p) > 0
  {
    if k in keys[..|keys| - 1] { CountsSome(keys[..|keys| - 1], k, p); }
  }

  lemma {:induction false} PartInWhole<T, K>(f: T -> seq<K>, items: seq<T>, t: T, k: K)
    requires t in items && k in f(t)
    ensures k in FlatMap(f, items)
  {
    if t in items[..|items| - 1] { PartInWhole(f, items[..|items| - 1], t, k); }
  }

  lemma TraceEndsAreTrimmed(trace: RoutingTrace, k: EdgeKey)
    requires k in TraceKeys(trace)
    ensures Trimmed(k.from) && Trimmed(k.to)
  {
    hide Trimmed, KeyOf;
    var i :| 0 <= i < |TraceKeys(trace)| && TraceKeys(trace)[i] == k;
    KeysAreClean(trace, DrawnDestinations(trace)[i]);
  }

  lemma {:induction false} EdgeEndsAreTrimmed(traces: seq<RoutingTrace>, k: EdgeKey)
    requires k in StreamKeys(traces)
    ensures Trimmed(k.from) && Trimmed(k.to)
  {
    hide Trimmed, TraceKeys;
    var n := |traces| - 1;
    if k in StreamKeys(traces[..n]) {
      EdgeEndsAreTrimmed(traces[..n], k);
    } else {
      TraceEndsAreTrimmed(traces[n], k);
    }
  }

  /** The graph draws nothing between ends of which one is not trimmed. */
  lemma NoEdgesThere(g: Graph, order: seq<EdgeKey>, exchange: string, queue: string)
    requires g.Valid() && Enumerates(order, g.edges.Keys)
    requires !Trimmed(exchange) || !Trimmed(queue)
    ensures SumWhere(order, g.Counts(), Between(exchange, queue)) == 0
  {
    hide FlatMap, CountWhere, Trimmed;
    MarginalCounts(order, g.Counts(), StreamKeys(g.seen), Between(exchange, queue));
    forall k | k in StreamKeys(g.seen) ensures !Between(exchange, queue)(k) {
      EdgeEndsAreTrimmed(g.seen, k);
    }
    CountsNone(StreamKeys(g.seen), Between(exchange, queue));
  }

  /** Where a trace names something untrimmed: the pair under which Prometheus counts it. */
  lemma UntrimmedPair(trace: RoutingTrace) returns (exchange: string, queue: string)
    requires !TrimmedNames(trace)
    ensures !Trimmed(exchange) || !Trimmed(queue)
    ensures if |Destinations(trace)| == 0 then queue == "(unrouted)" && Destinationless(exchange)(trace)
            else ExchangeQueue(exchange, queue) in DeliveryKeys(trace)
  {
    exchange, queue := ExchangeLabel(trace), "(unrouted)";
    var ds := Destinations(trace);
    if ds != [] {
      var d := ds[0];
      if Trimmed(trace.event.exchangeName) {
        d :| d in ds && !Trimmed(d.queueName);
      }
      queue := QueueLabel(d);
      var i :| 0 <= i < |ds| && ds[i] == d;
      assert DeliveryKeys(trace)[i] == ExchangeQueue(exchange, queue);
    }
  }

  /** A trace with an untrimmed name makes the two counts differ: Prometheus counts it under the
      name as it is, where the graph has no edge at all. */
  lemma UntrimmedNamesDisagree(g: Graph, p: Prometheus, order: seq<EdgeKey>, trace: RoutingTrace)
    returns (exchange: string, queue: string)
    requires g.Valid() && p.Valid() && g.seen == p.seen
    requires trace in g.seen && !TrimmedNames(trace)
    requires Enumerates(order, g.edges.Keys)
    ensures SumWhere(order, g.Counts(), Between(exchange, queue)) == 0 < Expected(p, exchange, queue)
  {
    hide FlatMap, CountWhere, TrimmedNames, Trimmed, DeliveryKeys;
    exchange, queue := UntrimmedPair(trace);
    NoEdgesThere(g, order, exchange, queue);
    DeliveryCounter(p, exchange, queue);
    if |Destinations(trace)| == 0 {
      CountsSome(p.seen, trace, Destinationless(exchange));
    } else {
      PartInWhole(DeliveryKeys, p.seen, trace, ExchangeQueue(exchange, queue));
      CountsSome(FlatMap(DeliveryKeys, p.seen), ExchangeQueue(exchange, queue), Pair(exchange, queue));
    }
  }

  /** The two agree on every pair exactly when every name that came in was trimmed. */
  lemma GraphAgreesWithPrometheusIff(g: Graph, p: Prometheus, order: seq<EdgeKey>)
    requires g.Valid() && p.Valid() && g.seen == p.seen
    requires Enumerates(order, g.edges.Keys)
    ensures (forall exchange, queue ::
               SumWhere(order, g.Counts(), Between(exchange, queue)) == Expected(p, exchange, queue))
       <==> (forall t | t in g.seen :: TrimmedNames(t))
  {
    hide TrimmedNames, SumWhere, Expected;
    if forall t | t in g.seen :: TrimmedNames(t) {
      forall exchange, queue
        ensures SumWhere(order, g.Counts(), Between(exchange, queue)) == Expected(p, exchange, queue)
      {
        GraphAgreesWithPrometheus(g, p, order, exchange, queue);
      }
    } else {
      var t :| t in g.seen && !TrimmedNames(t);
      var exchange, queue := UntrimmedNamesDisagree(g, p, order, t);
    }
  }

  // ----- shown counts

  lemma ExchangeCountsTotal(s: Summary, order: seq<string>)
    requires s.Valid() && Enumerates(order, s.exchanges.Keys)
    ensures SumWhere(order, s.exchanges, Always()) == s.totalEvents
  {
    MarginalCounts(order, s.exchanges, FlatMap(ExchangeNames, s.seen), Always());
    forall t ensures CountWhere(ExchangeNames(t), Always()) == 1 { CountOfOne(ExchangeLabel(t), Always()); }
    CountsItems(ExchangeNames, Always(), Always(), s.seen);
    CountWhereSame(s.seen, Always(), t => true);
    CountWhereAll(s.seen);
  }

  /** The exchanges of the summary account for every event, so the shown ones never exceed the total. */
  lemma ShownExchangesWithinTotal(s: Summary, n: nat)
    requires s.Valid()
    ensures SumCounts(Ranking(s.exchanges)) == s.totalEvents
    ensures SumCounts(Top(s.exchanges, n)) <= s.totalEvents
  {
    hide FlatMap, CountWhere, SumWhere, SumCounts, RankLess;
    var r := Ranking(s.exchanges);
    RankingEnumerates(s.exchanges);
    ExchangeCountsTotal(s, Names(r));
    RankLessIsStrictOrder();
    forall e | e in r ensures e.name in s.exchanges && e.count == s.exchanges[e.name] && e.count >= 0 {
      assert e in EntriesOf(s.exchanges);
    }
    SumCountsIsSum(r, s.exchanges);
    PrefixSums(r, |Top(s.exchanges, n)|);
    assert r[..|r|] == r;
  }

  lemma {:induction false} SumCountsIsSum(entries: seq<CountEntry>, counts: map<string, int>)
    requires forall e | e in entries :: e.name in counts && e.count == counts[e.name]
    ensures SumCounts(entries) == SumWhere(Names(entries), counts, Always())
  {
    if entries != [] {
      SumCountsIsSum(entries[1..], counts);
      assert Names(entries)[1..] == Names(entries[1..]);
      assert entries[0] in entries;
    }
  }

  lemma {:induction false} PrefixSums(entries: seq<CountEntry>, n: nat)
    requires n <= |entries| && forall e | e in entries :: e.count >= 0
    ensures 0 <= SumCounts(entries[..n]) <= SumCounts(entries)
  {
    if entries != [] {
      assert entries[0] in entries;
      if n > 0 {
        PrefixSums(entries[1..], n - 1);
        assert entries[..n][1..] == entries[1..][..n - 1];
      } else {
        PrefixSums(entries[1..], 0);
        assert entries[1..][..0] == [];
      }
    }
  }
}
