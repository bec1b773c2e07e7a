/** The mutable routing graph behind the DOT and Mermaid renderers. */
module Graph {
  import opened Text
  import opened Model
  import opened Order
  import opened Histogram
  import opened Sequences
  import opened Edges
  import opened Dot

  /** An edge object: its count is updated in place. */
  class Edge {
    var fromExchange: string
    var toQueue: string
    var tag: string
    var count: int

    constructor (fromExchange: string, toQueue: string, tag: string)
      ensures this.fromExchange == fromExchange && this.toQueue == toQueue && this.tag == tag && count == 0
    {
      this.fromExchange, this.toQueue, this.tag, this.count := fromExchange, toQueue, tag, 0;
    }

    function Key(): EdgeKey
      reads this`fromExchange, this`toQueue, this`tag
    {
      EdgeKey(fromExchange, toQueue, tag)
    }
  }

  class Graph {
    const name: string
    var exchanges: set<string>
    var queues: set<string>
    var edges: map<EdgeKey, Edge>

    /** The traces folded in so far. */
    ghost var seen: seq<RoutingTrace>

    ghost function Counts(): map<EdgeKey, int>
      reads this`edges, edges.Values
    {
      map k | k in edges :: edges[k].count
    }

    /** Every edge object carries its key's names. */
    ghost predicate FieldsMatchKeys()
      reads this`edges, edges.Values
    {
      forall k | k in edges :: edges[k].Key() == k
    }

    /** The graph is the histogram of everything it has seen, and its nodes are the edge ends. */
    ghost predicate Valid()
      reads this, edges.Values
    {
      && FieldsMatchKeys()
      && Records(Counts(), StreamKeys(seen))
      && exchanges == Froms(StreamKeys(seen))
      && queues == Tos(StreamKeys(seen))
    }

    constructor (name: string)
      ensures Valid() && seen == [] && edges == map[]
      ensures this.name == if AllSpace(name) then "routing" else TrimSpace(name)
    {
      this.name := Normalize(name, "routing");
      exchanges, queues, edges, seen := {}, {}, map[], [];
    }

    /** Distinct keys hold distinct objects. */
    lemma DistinctEdgeObjects(k: EdgeKey, l: EdgeKey)
      requires FieldsMatchKeys() && k in edges && l in edges
      ensures edges[k] == edges[l] <==> k == l
    {
    }

    /** The object of an edge, created with count 0 when there is none. */
    method FindOrCreate(key: EdgeKey) returns (edge: Edge)
      requires FieldsMatchKeys()
      modifies this`edges
      ensures FieldsMatchKeys() && edges == old(edges)[key := edge] && edge.Key() == key
      ensures if key in old(edges) then edge == old(edges)[key] else fresh(edge) && edge.count == 0
      ensures edge.count == (if key in old(Counts()) then old(Counts())[key] else 0)
      ensures Counts() == old(Counts())[key := edge.count]
    {
      if key !in edges {
        edge := new Edge(key.from, key.to, key.tag);
        edges := edges[key := edge];
      }
      edge := edges[key];
    }

    method Increment(edge: Edge)
      requires FieldsMatchKeys() && edge.Key() in edges && edges[edge.Key()] == edge
      modifies edge`count
      ensures FieldsMatchKeys()
      ensures Counts() == old(Counts())[edge.Key() := old(edge.count) + 1]
    {
      edge.count := edge.count + 1;
    }

    /** One more occurrence of an edge, counted in place. */
    method CountEdge(key: EdgeKey, ghost keys: seq<EdgeKey>)
      requires FieldsMatchKeys() && Records(Counts(), keys)
      modifies this`edges, edges.Values
      ensures FieldsMatchKeys() && Records(Counts(), keys + [key])
      ensures Counts() == Bump(old(Counts()), key)
      ensures fresh(edges.Values - old(edges.Values))
    {
      hide Records, Counts, FieldsMatchKeys;
      BumpRecords(Counts(), keys, key);
      ghost var counts := Counts();
      var edge := FindOrCreate(key);
      Increment(edge);
      assert Counts() == Bump(counts, key);
    }

    /** The body of the destination loop: one queue, one edge occurrence. */
    method AddDestination(trace: RoutingTrace, exchange: string, destination: QueueDestination,
                          ghost keys: seq<EdgeKey>)
      requires exchange == ExchangeName(trace)
      requires FieldsMatchKeys() && Records(Counts(), keys) && queues == Tos(keys)
      modifies this`queues, this`edges, edges.Values
      ensures FieldsMatchKeys()
      ensures Records(Counts(), keys + [KeyOf(trace, destination)]) && queues == Tos(keys + [KeyOf(trace, destination)])
      ensures fresh(edges.Values - old(edges.Values))
    {
      hide FirstNonEmpty, TrimSpace, Records;
      var queue := Normalize(destination.queueName, "(unknown-queue)");
      queues := queues + {queue};
      var tag := FirstNonEmpty([destination.bindingKey, trace.event.routingKey, "(no-key)"]);
      TosOneMore(keys, EdgeKey(exchange, queue, tag));
      CountEdge(EdgeKey(exchange, queue, tag), keys);
    }

    /** The destination loop; `before` are the occurrences counted so far. */
    method AddDestinations(trace: RoutingTrace, exchange: string, destinations: seq<QueueDestination>,
                           ghost before: seq<EdgeKey>)
      requires exchange == ExchangeName(trace)
      requires FieldsMatchKeys() && Records(Counts(), before) && queues == Tos(before)
      modifies this`queues, this`edges, edges.Values
      ensures FieldsMatchKeys()
      ensures Records(Counts(), before + KeysTo(trace, destinations))
      ensures queues == Tos(before + KeysTo(trace, destinations))
      ensures fresh(edges.Values - old(edges.Values))
    {
      hide Records, KeyOf, Tos;
      ghost var added := KeysTo(trace, destinations);
      assert before + added[..0] == before;
      for i := 0 to |destinations|
        invariant FieldsMatchKeys() && Records(Counts(), before + added[..i]) && queues == Tos(before + added[..i])
        invariant fresh(edges.Values - old(edges.Values))
      {
        AddDestination(trace, exchange, destinations[i], before + added[..i]);
        assert before + added[..i + 1] == before + added[..i] + [KeyOf(trace, destinations[i])];
      }
      assert added[..|destinations|] == added;
    }

    /** Folds one trace into the graph. */
    method AddTrace(trace: RoutingTrace)
      requires Valid()
      modifies this, edges.Values
      ensures Valid() && seen == old(seen) + [trace]
      ensures fresh(edges.Values - old(edges.Values))
    {
      hide FirstNonEmpty, TrimSpace, FlatMap, Records, KeysTo, Tos, Froms, Counts, FieldsMatchKeys;
      var exchange := Normalize(trace.event.exchangeName, "(unknown-exchange)");
      var destinations := trace.destinations;
      if |destinations| == 0 {
        destinations := trace.event.destinations;
      }
      if |destinations| == 0 {
        destinations := [QueueDestination("(unrouted)", "")];
      }
      assert destinations == DrawnDestinations(trace);
      exchanges := exchanges + {exchange};
      AddDestinations(trace, exchange, destinations, StreamKeys(seen));
      FromsOfTrace(StreamKeys(seen), trace);
      seen := seen + [trace];
      FlatMapOneMore(TraceKeys, old(seen), trace);
    }

    /** A sorted copy of the edges, whatever order the map is iterated in. */
    method Edges() returns (rows: seq<EdgeRow>)
      requires Valid()
      ensures rows == EdgeTable(multiset(StreamKeys(seen))) && InKeyOrder(rows)
      ensures forall i | 0 <= i < |rows| :: rows[i].key in edges && rows[i].count == edges[rows[i].key].count
      ensures |rows| == |edges|
    {
      hide StreamKeys, EdgeTable, RowLess, Ordered;
      ghost var occurrences := multiset(StreamKeys(seen));
      assert forall k :: k in edges <==> k in StreamKeys(seen);
      assert edges.Keys == Support(occurrences);
      var out: seq<EdgeRow> := [];
      ghost var keys: seq<EdgeKey> := [];
      var rest := edges.Keys;
      while rest != {}
        invariant rest <= edges.Keys && Distinct(keys)
        invariant forall k :: k in keys <==> k in edges.Keys - rest
        invariant out == RowsOf(keys, occurrences)
      {
        var k :| k in rest;
        assert k !in edges.Keys - rest && k !in keys;
        var edge := edges[k];
        assert edge.count == Counts()[k] == occurrences[k];
        out := out + [EdgeRow(edge.Key(), edge.count)];
        keys := keys + [k];
        rest := rest - {k};
      }
      RowLessIsStrictWeak();
      rows := SortSlice(RowLess, out);
      SortedRowsAreTheTable(keys, rows, occurrences);
      TableIsInKeyOrder(occurrences);
      TableCountsOccurrences(StreamKeys(seen));
      assert |edges| == |edges.Keys|;
    }

    /** The graph in Graphviz DOT format. */
    method DOT() returns (text: string)
      requires Valid()
      ensures text == GraphText(name, multiset(StreamKeys(seen)))
    {
      hide Print, Quoted, StreamKeys, EdgeTable, Records;
      StringLessIsStrictOrder();
      SameEnds(StreamKeys(seen));
      var builder := DIGRAPH + Quoted(name) + PREAMBLE;
      var exs := SortedKeys(StringLess, exchanges);
      var qs := SortedKeys(StringLess, queues);
      builder := WriteExchanges(builder, exs);
      builder := WriteQueues(builder, qs);
      var rows := Edges();
      builder := WriteEdges(builder, rows);
      text := builder + "}\n";
    }
  }

  method WriteExchanges(builder: string, exchanges: seq<string>) returns (out: string)
    ensures out == builder + Print(ExchangeNodes(exchanges))
  {
    hide Print, StatementText;
    out := builder;
    PrintNothing(ExchangeNodes(exchanges[..0]));
    for i := 0 to |exchanges|
      invariant out == builder + Print(ExchangeNodes(exchanges[..i]))
    {
      PrintNext(ExchangeNodes(exchanges[..i]), ExchangeNodes(exchanges[..i + 1]), builder);
      out := out + StatementText(ExchangeNode(exchanges[i]));
    }
    assert exchanges[..|exchanges|] == exchanges;
  }

  method WriteQueues(builder: string, queues: seq<string>) returns (out: string)
    ensures out == builder + Print(QueueNodes(queues))
  {
    hide Print, StatementText;
    out := builder;
    PrintNothing(QueueNodes(queues[..0]));
    for i := 0 to |queues|
      invariant out == builder + Print(QueueNodes(queues[..i]))
    {
      PrintNext(QueueNodes(queues[..i]), QueueNodes(queues[..i + 1]), builder);
      out := out + StatementText(QueueNode(queues[i]));
    }
    assert queues[..|queues|] == queues;
  }

  method WriteEdges(builder: string, rows: seq<EdgeRow>) returns (out: string)
    ensures out == builder + Print(EdgeLines(rows))
  {
    hide Print, StatementText;
    out := builder;
    PrintNothing(EdgeLines(rows[..0]));
    for i := 0 to |rows|
      invariant out == builder + Print(EdgeLines(rows[..i]))
    {
      PrintNext(EdgeLines(rows[..i]), EdgeLines(rows[..i + 1]), builder);
      out := out + StatementText(LineOf(rows[i]));
    }
    assert rows[..|rows|] == rows;
  }

  lemma PrintNothing(statements: seq<Statement>)
    requires |statements| == 0
    ensures forall s :: s + Print(statements) == s
  {
  }

  /** Printing one more statement appends its text. */
  lemma PrintNext(before: seq<Statement>, after: seq<Statement>, head: string)
    requires |after| == |before| + 1 && after[..|before|] == before
    ensures head + Print(after) == head + Print(before) + StatementText(after[|before|])
  {
    hide StatementText;
    Regroup(head, Print(before), StatementText(after[|before|]));
  }

  lemma TosOneMore(keys: seq<EdgeKey>, key: EdgeKey)
    ensures Tos(keys + [key]) == Tos(keys) + {key.to}
  {
    assert forall k :: k in keys + [key] <==> k in keys || k == key;
  }

  /** All edges of a trace leave its exchange, and there is at least one. */
  lemma FromsOfTrace(keys: seq<EdgeKey>, trace: RoutingTrace)
    ensures Froms(keys + TraceKeys(trace)) == Froms(keys) + {ExchangeName(trace)}
  {
    hide FirstNonEmpty, TrimSpace, ExchangeName;
    var added := TraceKeys(trace);
    assert forall i | 0 <= i < |added| :: added[i].from == ExchangeName(trace);
    assert forall k :: k in keys + added <==> k in keys || k in added;
    assert added[0] in added;
  }

  function FromsOf(occurrences: multiset<EdgeKey>): set<string> {
    set k | k in occurrences :: k.from
  }

  function TosOf(occurrences: multiset<EdgeKey>): set<string> {
    set k | k in occurrences :: k.to
  }

  lemma SameEnds(keys: seq<EdgeKey>)
    ensures Froms(keys) == FromsOf(multiset(keys)) && Tos(keys) == TosOf(multiset(keys))
  {
    assert forall k :: k in keys <==> k in multiset(keys);
  }

  /** The document a graph with these edge occurrences exports: sorted nodes and edges. */
  ghost function GraphDocument(name: string, occurrences: multiset<EdgeKey>): Document {
    StringLessIsStrictOrder();
    Document(
      name,
      Listing(StringLess, FromsOf(occurrences)),
      Listing(StringLess, TosOf(occurrences)),
      EdgeTable(occurrences))
  }

  ghost function GraphText(name: string, occurrences: multiset<EdgeKey>): string {
    DocumentText(GraphDocument(name, occurrences))
  }

  // ----- what an export says

  /** Neither the order of the traces nor that of map iteration can be seen in an export. */
  lemma ExportIsOrderFree(a: Graph, b: Graph)
    requires a.Valid() && b.Valid()
    requires multiset(a.seen) == multiset(b.seen)
    ensures a.Counts() == b.Counts() && a.exchanges == b.exchanges && a.queues == b.queues
    ensures EdgeTable(multiset(StreamKeys(a.seen))) == EdgeTable(multiset(StreamKeys(b.seen)))
    ensures a.name == b.name ==>
              GraphText(a.name, multiset(StreamKeys(a.seen))) == GraphText(b.name, multiset(StreamKeys(b.seen)))
  {
    hide FlatMap, Records;
    FlatMapPermute(TraceKeys, a.seen, b.seen);
    RecordsIsOrderFree(a.Counts(), b.Counts(), StreamKeys(a.seen), StreamKeys(b.seen));
    SameEnds(StreamKeys(a.seen));
    SameEnds(StreamKeys(b.seen));
  }

  /** Reading the exported text gives back the graph: its name, its nodes, and each edge object
      with its count, all in strictly increasing order. */
  lemma ExportReadsBack(g: Graph)
    requires g.Valid()
    ensures var r := ReadDot(GraphText(g.name, multiset(StreamKeys(g.seen))));
            && r.Some? && r.value.name == g.name
            && IsListing(Precedes, r.value.exchanges, g.exchanges)
            && IsListing(Precedes, r.value.queues, g.queues)
            && (forall k: EdgeKey, n: nat :: EdgeRow(k, n) in r.value.edges <==> k in g.edges && g.edges[k].count == n)
            && InKeyOrder(r.value.edges)
  {
    hide StreamKeys, EdgeTable, GraphText, ReadDot, InKeyOrder, IsListing, StringLess, Precedes;
    var keys := StreamKeys(g.seen);
    TextReadsBack(g.name, keys);
    TableCountsOccurrences(keys);
    TableIsInKeyOrder(multiset(keys));
    var rows := EdgeTable(multiset(keys));
    forall k: EdgeKey, n: nat ensures EdgeRow(k, n) in rows <==> k in g.edges && g.edges[k].count == n {
      assert k in g.Counts() <==> k in g.edges;
    }
  }

  lemma TextReadsBack(name: string, keys: seq<EdgeKey>)
    ensures var r := ReadDot(GraphText(name, multiset(keys)));
            && r.Some? && r.value.name == name && r.value.edges == EdgeTable(multiset(keys))
            && IsListing(Precedes, r.value.exchanges, Froms(keys))
            && IsListing(Precedes, r.value.queues, Tos(keys))
  {
    hide EdgeTable, ReadDot, DocumentText, StringLess, Precedes;
    var occurrences := multiset(keys);
    StringLessIsStrictOrder();
    SameEnds(keys);
    DotRoundTrip(GraphDocument(name, occurrences));
    ListingByDictionary(Listing(StringLess, FromsOf(occurrences)), FromsOf(occurrences));
    ListingByDictionary(Listing(StringLess, TosOf(occurrences)), TosOf(occurrences));
  }

  /** The counts of all edges, in whatever order they are added up, make one per destination of
      every trace and one for each trace without destinations. */
  lemma TotalCount(g: Graph, order: seq<EdgeKey>)
    requires g.Valid() && Enumerates(order, g.edges.Keys)
    ensures SumWhere(order, g.Counts(), k => true) == DrawnCount(g.seen)
  {
    MarginalCounts(order, g.Counts(), StreamKeys(g.seen), k => true);
    CountWhereAll(StreamKeys(g.seen));
    TotalOccurrences(g.seen);
  }
}
