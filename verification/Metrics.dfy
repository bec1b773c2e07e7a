/** The Prometheus renderer's three counter families. */
module Metrics {
  import opened Model
  import opened Order
  import opened Histogram
  import opened Sequences

  datatype ExchangeEvent = ExchangeEvent(exchange: string, eventType: string)
  datatype ExchangeQueue = ExchangeQueue(exchange: string, queue: string)

  /** `strings.ToLower`. */
  type Lower = string -> string

  function OrElse(value: string, fallback: string): string {
    if value == "" then fallback else value
  }

  function ExchangeLabel(trace: RoutingTrace): string {
    OrElse(trace.event.exchangeName, "(unknown-exchange)")
  }

  function TypeLabel(lower: Lower, trace: RoutingTrace): string {
    OrElse(lower(trace.event.eventType), "unknown")
  }

  function QueueLabel(d: QueueDestination): string {
    OrElse(d.queueName, "(unknown-queue)")
  }

  // ----- what one trace counts

  function EventKeys(lower: Lower): RoutingTrace -> seq<ExchangeEvent> {
    trace => [ExchangeEvent(ExchangeLabel(trace), TypeLabel(lower, trace))]
  }

  function DeliveriesTo(exchange: string, ds: seq<QueueDestination>): seq<ExchangeQueue> {
    seq(|ds|, i requires 0 <= i < |ds| => ExchangeQueue(exchange, QueueLabel(ds[i])))
  }

  function DeliveryKeys(trace: RoutingTrace): seq<ExchangeQueue> {
    DeliveriesTo(ExchangeLabel(trace), Destinations(trace))
  }

  /** A publish event without destinations. */
  predicate Unrouted(lower: Lower, trace: RoutingTrace) {
    |Destinations(trace)| == 0 && lower(trace.event.eventType) == "publish"
  }

  function UnroutedKeys(lower: Lower): RoutingTrace -> seq<string> {
    trace => if Unrouted(lower, trace) then [ExchangeLabel(trace)] else []
  }

  // ----- sample orders

  predicate EventLess(a: ExchangeEvent, b: ExchangeEvent) {
    if a.exchange != b.exchange then StringLess(a.exchange, b.exchange) else StringLess(a.eventType, b.eventType)
  }

  predicate QueueLess(a: ExchangeQueue, b: ExchangeQueue) {
    if a.exchange != b.exchange then StringLess(a.exchange, b.exchange) else StringLess(a.queue, b.queue)
  }

  lemma SampleOrders()
    ensures StrictOrder(EventLess) && StrictOrder(QueueLess) && StrictOrder(StringLess)
  {
    hide StringLess;
    StringLessIsStrictOrder();
  }

  /** A sample line: a label set and its counter. */
  datatype Sample<+K> = Sample(key: K, value: int)

  function SamplesOf<K>(keys: seq<K>, counts: map<K, int>): (samples: seq<Sample<K>>)
    requires forall k | k in keys :: k in counts
    ensures |samples| == |keys|
    ensures forall i | 0 <= i < |keys| :: samples[i] == Sample(keys[i], counts[keys[i]])
  {
    seq(|keys|, i requires 0 <= i < |keys| => Sample(keys[i], counts[keys[i]]))
  }

  /** The samples of a family in the order of their label sets. */
  ghost function SortedSamples<K(!new)>(less: (K, K) -> bool, counts: map<K, int>): seq<Sample<K>>
    requires StrictOrder(less)
  {
    SamplesOf(Listing(less, counts.Keys), counts)
  }

  /** By exchange, then by the other label, each in dictionary order. */
  ghost predicate EventsInOrder(samples: seq<Sample<ExchangeEvent>>) {
    forall i, j | 0 <= i < j < |samples| ::
      var a, b := samples[i].key, samples[j].key;
      Precedes(a.exchange, b.exchange) || (a.exchange == b.exchange && Precedes(a.eventType, b.eventType))
  }

  ghost predicate QueuesInOrder(samples: seq<Sample<ExchangeQueue>>) {
    forall i, j | 0 <= i < j < |samples| ::
      var a, b := samples[i].key, samples[j].key;
      Precedes(a.exchange, b.exchange) || (a.exchange == b.exchange && Precedes(a.queue, b.queue))
  }

  lemma EventSamplesInOrder(counts: map<ExchangeEvent, int>)
    ensures StrictOrder(EventLess)
    ensures EventsInOrder(SortedSamples(EventLess, counts))
  {
    SampleOrders();
    var keys := Listing(EventLess, counts.Keys);
    forall i, j | 0 <= i < j < |keys|
      ensures Precedes(keys[i].exchange, keys[j].exchange)
           || (keys[i].exchange == keys[j].exchange && Precedes(keys[i].eventType, keys[j].eventType))
    {
      assert EventLess(keys[i], keys[j]);
      StringLessIsDictionaryOrder(keys[i].exchange, keys[j].exchange);
      StringLessIsDictionaryOrder(keys[i].eventType, keys[j].eventType);
    }
  }

  lemma QueueSamplesInOrder(counts: map<ExchangeQueue, int>)
    ensures StrictOrder(QueueLess)
    ensures QueuesInOrder(SortedSamples(QueueLess, counts))
  {
    SampleOrders();
    var keys := Listing(QueueLess, counts.Keys);
    forall i, j | 0 <= i < j < |keys|
      ensures Precedes(keys[i].exchange, keys[j].exchange)
           || (keys[i].exchange == keys[j].exchange && Precedes(keys[i].queue, keys[j].queue))
    {
      assert QueueLess(keys[i], keys[j]);
      StringLessIsDictionaryOrder(keys[i].exchange, keys[j].exchange);
      StringLessIsDictionaryOrder(keys[i].queue, keys[j].queue);
    }
  }

  class Prometheus {
    const lower: Lower
    var events: map<ExchangeEvent, int>
    var deliveries: map<ExchangeQueue, int>
    var unrouted: map<string, int>

    /** The traces rendered so far. */
    ghost var seen: seq<RoutingTrace>

    ghost predicate Valid()
      reads this
    {
      && Records(events, FlatMap(EventKeys(lower), seen))
      && Records(deliveries, FlatMap(DeliveryKeys, seen))
      && Records(unrouted, FlatMap(UnroutedKeys(lower), seen))
    }

    constructor (lower: Lower)
      ensures Valid() && seen == [] && this.lower == lower
    {
      this.lower := lower;
      events, deliveries, unrouted, seen := map[], map[], map[], [];
    }

    /** The destination loop. */
    method CountDeliveries(exchange: string, destinations: seq<QueueDestination>, ghost before: seq<ExchangeQueue>)
      requires Records(deliveries, before)
      modifies this`deliveries
      ensures Records(deliveries, before + DeliveriesTo(exchange, destinations))
    {
      hide Records;
      ghost var added := DeliveriesTo(exchange, destinations);
      assert before + added[..0] == before;
      for i := 0 to |destinations|
        invariant Records(deliveries, before + added[..i])
      {
        var queue := destinations[i].queueName;
        if queue == "" {
          queue := "(unknown-queue)";
        }
        assert before + added[..i + 1] == before + added[..i] + [ExchangeQueue(exchange, queue)];
        BumpRecords(deliveries, before + added[..i], ExchangeQueue(exchange, queue));
        deliveries := Bump(deliveries, ExchangeQueue(exchange, queue));
      }
      assert added[..|destinations|] == added;
    }

    method RenderTrace(trace: RoutingTrace)
      requires Valid()
      modifies this
      ensures Valid() && seen == old(seen) + [trace]
      ensures var exchange := if trace.event.exchangeName == "" then "(unknown-exchange)" else trace.event.exchangeName;
              var eventType := lower(trace.event.eventType);
              && events == Bump(old(events), ExchangeEvent(exchange, if eventType == "" then "unknown" else eventType))
              && unrouted == (if |Destinations(trace)| == 0 && eventType == "publish"
                              then Bump(old(unrouted), exchange) else old(unrouted))
    {
      hide FlatMap, Records, DeliveriesTo, Bump;
      var exchange := trace.event.exchangeName;
      if exchange == "" {
        exchange := "(unknown-exchange)";
      }
      var eventType := lower(trace.event.eventType);
      if eventType == "" {
        eventType := "unknown";
      }
      FlatMapOneMore(EventKeys(lower), seen, trace);
      FlatMapOneMore(DeliveryKeys, seen, trace);
      FlatMapOneMore(UnroutedKeys(lower), seen, trace);
      BumpRecords(events, FlatMap(EventKeys(lower), seen), ExchangeEvent(exchange, eventType));
      events := Bump(events, ExchangeEvent(exchange, eventType));

      var destinations := trace.destinations;
      if |destinations| == 0 {
        destinations := trace.event.destinations;
      }
      if |destinations| == 0 && eventType == "publish" {
        BumpRecords(unrouted, FlatMap(UnroutedKeys(lower), seen), exchange);
        unrouted := Bump(unrouted, exchange);
      } else {
        assert FlatMap(UnroutedKeys(lower), seen) + [] == FlatMap(UnroutedKeys(lower), seen);
      }
      CountDeliveries(exchange, destinations, FlatMap(DeliveryKeys, seen));
      seen := seen + [trace];
    }

    /** The samples in the order they are written; the unrouted family may be empty. */
    method MetricsRows()
      returns (
        eventRows: seq<Sample<ExchangeEvent>>,
        deliveryRows: seq<Sample<ExchangeQueue>>,
        unroutedRows: seq<Sample<string>>)
      ensures StrictOrder(EventLess) && StrictOrder(QueueLess) && StrictOrder(StringLess)
      ensures eventRows == SortedSamples(EventLess, events)
      ensures deliveryRows == SortedSamples(QueueLess, deliveries)
      ensures unroutedRows == SortedSamples(StringLess, unrouted)
      ensures EventsInOrder(eventRows)
      ensures QueuesInOrder(deliveryRows)
      ensures forall i, j | 0 <= i < j < |unroutedRows| :: Precedes(unroutedRows[i].key, unroutedRows[j].key)
    {
      SampleOrders();
      EventSamplesInOrder(events);
      QueueSamplesInOrder(deliveries);
      ListingByDictionary(Listing(StringLess, unrouted.Keys), unrouted.Keys);
      hide StringLess, Precedes, EventLess, QueueLess, EventsInOrder, QueuesInOrder;
      var keys := SortedKeys(EventLess, events.Keys);
      eventRows := SamplesOf(keys, events);
      var qkeys := SortedKeys(QueueLess, deliveries.Keys);
      deliveryRows := SamplesOf(qkeys, deliveries);
      var exchanges := SortedKeys(StringLess, unrouted.Keys);
      unroutedRows := SamplesOf(exchanges, unrouted);
    }
  }

  /** The scrape shows nothing of the order in which the traces came. */
  lemma MetricsAreOrderFree(a: Prometheus, b: Prometheus)
    requires a.Valid() && b.Valid() && a.lower == b.lower
    requires multiset(a.seen) == multiset(b.seen)
    ensures a.events == b.events && a.deliveries == b.deliveries && a.unrouted == b.unrouted
  {
    hide FlatMap, Records;
    var events, unrouted := EventKeys(a.lower), UnroutedKeys(a.lower);
    FlatMapPermute(events, a.seen, b.seen);
    FlatMapPermute(DeliveryKeys, a.seen, b.seen);
    FlatMapPermute(unrouted, a.seen, b.seen);
    RecordsIsOrderFree(a.events, b.events, FlatMap(events, a.seen), FlatMap(events, b.seen));
    RecordsIsOrderFree(a.deliveries, b.deliveries, FlatMap(DeliveryKeys, a.seen), FlatMap(DeliveryKeys, b.seen));
    RecordsIsOrderFree(a.unrouted, b.unrouted, FlatMap(unrouted, a.seen), FlatMap(unrouted, b.seen));
  }
}
