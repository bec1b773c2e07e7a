/** The routing graph as a value: the edge occurrences each trace contributes, and their table. */
module Edges {
  import opened Text
  import opened Model
  import opened Order
  import opened Sequences

  datatype EdgeKey = EdgeKey(from: string, to: string, tag: string)

  /** An exported edge. */
  datatype EdgeRow = EdgeRow(key: EdgeKey, count: nat)

  /** Sorted by exchange, then queue, then label. */
  predicate EdgeLess(a: EdgeKey, b: EdgeKey) {
    if a.from != b.from then StringLess(a.from, b.from)
    else if a.to != b.to then StringLess(a.to, b.to)
    else StringLess(a.tag, b.tag)
  }

  lemma EdgeLessIsStrictOrder()
    ensures StrictOrder(EdgeLess)
  {
    hide StringLess;
    StringLessIsStrictOrder();
  }

  function Normalize(value: string, fallback: string): string {
    if TrimSpace(value) == "" then fallback else TrimSpace(value)
  }

  /** The destinations a trace draws edges to: at least one. */
  function DrawnDestinations(trace: RoutingTrace): (ds: seq<QueueDestination>)
    ensures |ds| == if |Destinations(trace)| == 0 then 1 else |Destinations(trace)|
  {
    if |Destinations(trace)| == 0 then [QueueDestination("(unrouted)", "")] else Destinations(trace)
  }

  function ExchangeName(trace: RoutingTrace): string {
    Normalize(trace.event.exchangeName, "(unknown-exchange)")
  }

  function KeyOf(trace: RoutingTrace, d: QueueDestination): EdgeKey {
    EdgeKey(
      ExchangeName(trace),
      Normalize(d.queueName, "(unknown-queue)"),
      FirstNonEmpty([d.bindingKey, trace.event.routingKey, "(no-key)"]))
  }

  /** Every edge has the trimmed names as its ends, or the fallbacks for blank ones, and the label is
      the binding key if there is one, else the routing key if there is one. */
  lemma KeysAreClean(trace: RoutingTrace, d: QueueDestination)
    ensures var k := KeyOf(trace, d);
            && k.from != "" && k.to != "" && k.tag != ""
            && k.from == (if AllSpace(trace.event.exchangeName) then "(unknown-exchange)"
                          else TrimSpace(trace.event.exchangeName))
            && k.to == (if AllSpace(d.queueName) then "(unknown-queue)" else TrimSpace(d.queueName))
            && Trimmed(k.from) && Trimmed(k.to) && Trimmed(k.tag)
            && (!AllSpace(d.bindingKey) ==> k.tag == TrimSpace(d.bindingKey))
            && (AllSpace(d.bindingKey) && !AllSpace(trace.event.routingKey) ==>
                  k.tag == TrimSpace(trace.event.routingKey))
            && (AllSpace(d.bindingKey) && AllSpace(trace.event.routingKey) ==> k.tag == "(no-key)")
  {
    hide AllSpace;
    var keys := [d.bindingKey, trace.event.routingKey, "(no-key)"];
    assert keys[1..][0] == trace.event.routingKey && keys[1..][1..] == ["(no-key)"];
    assert Trimmed("(no-key)") && Trimmed("(unknown-exchange)") && Trimmed("(unknown-queue)");
    assert FirstNonEmpty(["(no-key)"]) == "(no-key)";
    assert FirstNonEmpty(keys[1..]) ==
           if TrimSpace(trace.event.routingKey) != "" then TrimSpace(trace.event.routingKey) else "(no-key)";
  }

  function KeysTo(trace: RoutingTrace, ds: seq<QueueDestination>): (keys: seq<EdgeKey>)
    ensures |keys| == |ds|
  {
    seq(|ds|, i requires 0 <= i < |ds| => KeyOf(trace, ds[i]))
  }

  /** The edge occurrences of one trace. */
  function TraceKeys(trace: RoutingTrace): (keys: seq<EdgeKey>)
    ensures |keys| == if |Destinations(trace)| == 0 then 1 else |Destinations(trace)|
  {
    KeysTo(trace, DrawnDestinations(trace))
  }

  /** The edge occurrences of a stream of traces. */
  function StreamKeys(traces: seq<RoutingTrace>): seq<EdgeKey> {
    FlatMap(TraceKeys, traces)
  }

  function Froms(keys: seq<EdgeKey>): set<string> {
    set k | k in keys :: k.from
  }

  function Tos(keys: seq<EdgeKey>): set<string> {
    set k | k in keys :: k.to
  }

  /** The rows of a list of keys, with their counts. */
  function RowsOf(keys: seq<EdgeKey>, occurrences: multiset<EdgeKey>): (rows: seq<EdgeRow>)
    ensures |rows| == |keys|
    ensures forall i | 0 <= i < |keys| :: rows[i] == EdgeRow(keys[i], occurrences[keys[i]])
  {
    seq(|keys|, i requires 0 <= i < |keys| => EdgeRow(keys[i], occurrences[keys[i]]))
  }

  function Support(occurrences: multiset<EdgeKey>): set<EdgeKey> {
    set k | k in occurrences
  }

  /** The sorted edge table of the given occurrences: what an export of the graph shows. */
  ghost function EdgeTable(occurrences: multiset<EdgeKey>): seq<EdgeRow> {
    EdgeLessIsStrictOrder();
    RowsOf(Listing(EdgeLess, Support(occurrences)), occurrences)
  }

  /** How exported rows are compared: by key, whatever the count. */
  predicate RowLess(a: EdgeRow, b: EdgeRow) {
    EdgeLess(a.key, b.key)
  }

  lemma RowLessIsStrictWeak()
    ensures StrictWeakOrder(RowLess)
  {
    hide EdgeLess;
    EdgeLessIsStrictOrder();
    StrictOrderIsWeak(EdgeLess);
    forall x: EdgeRow, y: EdgeRow, z: EdgeRow
      ensures !RowLess(x, x)
      ensures RowLess(x, y) && RowLess(y, z) ==> RowLess(x, z)
      ensures RowLess(x, z) ==> RowLess(x, y) || RowLess(y, z)
    {
      assert EdgeLess(x.key, z.key) ==> EdgeLess(x.key, y.key) || EdgeLess(y.key, z.key);
    }
  }

  /** Sorting the rows of a set of keys, collected in any order, gives its table. */
  lemma SortedRowsAreTheTable(keys: seq<EdgeKey>, sorted: seq<EdgeRow>, occurrences: multiset<EdgeKey>)
    requires Distinct(keys) && forall k :: k in keys <==> k in Support(occurrences)
    requires multiset(sorted) == multiset(RowsOf(keys, occurrences)) && Ordered(RowLess, sorted)
    ensures sorted == EdgeTable(occurrences)
  {
    var rows := RowsOf(keys, occurrences);
    DistinctRearranged(rows, sorted);
    forall r ensures r in sorted <==> r in rows {
      assert r in sorted <==> r in multiset(sorted);
    }
    var ks := seq(|sorted|, i requires 0 <= i < |sorted| => sorted[i].key);
    forall i | 0 <= i < |sorted| ensures sorted[i] == EdgeRow(ks[i], occurrences[ks[i]]) && ks[i] in keys {
      assert sorted[i] in rows;
    }
    EdgeLessIsStrictOrder();
    assert Increasing(EdgeLess, ks) by {
      forall i, j | 0 <= i < j < |ks| ensures EdgeLess(ks[i], ks[j]) {
        assert !RowLess(sorted[j], sorted[i]) && ks[i] != ks[j];
      }
    }
    forall k | k in keys ensures k in ks {
      assert EdgeRow(k, occurrences[k]) in rows;
      var i :| 0 <= i < |sorted| && sorted[i] == EdgeRow(k, occurrences[k]);
      assert ks[i] == k;
    }
    ListingUnique(EdgeLess, ks, Listing(EdgeLess, Support(occurrences)), Support(occurrences));
  }

  /** The order of exported edges: by exchange, then queue, then label, each in dictionary order. */
  ghost predicate KeyBefore(a: EdgeKey, b: EdgeKey) {
    || Precedes(a.from, b.from)
    || (a.from == b.from && Precedes(a.to, b.to))
    || (a.from == b.from && a.to == b.to && Precedes(a.tag, b.tag))
  }

  ghost predicate InKeyOrder(rows: seq<EdgeRow>) {
    forall i, j | 0 <= i < j < |rows| :: KeyBefore(rows[i].key, rows[j].key)
  }

  lemma TableIsInKeyOrder(occurrences: multiset<EdgeKey>)
    ensures InKeyOrder(EdgeTable(occurrences))
  {
    EdgeLessIsStrictOrder();
    var order := Listing(EdgeLess, Support(occurrences));
    forall i, j | 0 <= i < j < |order| ensures KeyBefore(order[i], order[j]) {
      assert EdgeLess(order[i], order[j]);
      StringLessIsDictionaryOrder(order[i].from, order[j].from);
      StringLessIsDictionaryOrder(order[i].to, order[j].to);
      StringLessIsDictionaryOrder(order[i].tag, order[j].tag);
    }
  }

  /** Each key once, with the number of its occurrences. */
  lemma TableCountsOccurrences(keys: seq<EdgeKey>)
    ensures var rows := EdgeTable(multiset(keys));
            && |rows| == |Support(multiset(keys))|
            && (forall i | 0 <= i < |rows| :: rows[i].key in keys && rows[i].count == multiset(keys)[rows[i].key])
            && (forall k | k in keys :: EdgeRow(k, multiset(keys)[k]) in rows)
  {
    EdgeLessIsStrictOrder();
    hide EdgeLess;
    var occurrences := multiset(keys);
    var order := Listing(EdgeLess, Support(occurrences));
    var rows := EdgeTable(occurrences);
    DistinctCover(order, Support(occurrences));
    assert forall k :: k in keys <==> k in Support(occurrences);
    forall i | 0 <= i < |rows| ensures rows[i].key in keys {
      assert order[i] in Support(occurrences);
    }
    forall k | k in keys ensures EdgeRow(k, occurrences[k]) in rows {
      assert k in order;
      var i :| 0 <= i < |order| && order[i] == k;
      assert rows[i] == EdgeRow(k, occurrences[k]);
    }
  }

  /** The total number of edge occurrences: every trace gives one per destination, and at least one. */
  lemma {:induction false} TotalOccurrences(traces: seq<RoutingTrace>)
    ensures |StreamKeys(traces)| == DrawnCount(traces)
  {
    if traces != [] { TotalOccurrences(traces[..|traces| - 1]); }
  }

  function DrawnCount(traces: seq<RoutingTrace>): nat {
    if traces == [] then 0
    else
      var n := |Destinations(traces[|traces| - 1])|;
      DrawnCount(traces[..|traces| - 1]) + if n == 0 then 1 else n
  }
}
