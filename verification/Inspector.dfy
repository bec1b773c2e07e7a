/** The whole inspector: the session machine run with the parser and the filter, and renderers fed
    what it renders. */
module Inspector {
  import opened Model
  import opened Histogram
  import opened Parser
  import opened Matcher
  import opened Pipeline
  import opened Session
  import opened Edges
  import opened Metrics
  import opened Graph
  import opened Agreement

  ghost function InspectorConfig(format: Formatter, filter: Option<Matcher>, maxEvents: int): Config {
    Config((d: Delivery) => ParseDelivery(format, d), (t: RoutingTrace) => Passes(filter, t), maxEvents)
  }

  /** The trace is one the inspector makes: its names are clean and it passes the filter. */
  ghost predicate Proper(filter: Option<Matcher>, trace: RoutingTrace) {
    CleanTrace(trace) && Passes(filter, trace) && trace.destinations == trace.event.destinations
  }

  /** A delivery is selected exactly when it parses and its trace passes, and then it is that trace. */
  lemma SelectedIsProper(format: Formatter, filter: Option<Matcher>, maxEvents: int, d: Delivery)
    ensures var r := Selected(InspectorConfig(format, filter, maxEvents), d);
            && (r.Some? ==> Proper(filter, r.value) && ParseDelivery(format, d) == Some(r.value.event))
            && (r.None? ==> ParseDelivery(format, d).Some? ==>
                  var e := ParseDelivery(format, d).value; !Passes(filter, RoutingTrace(e, e.destinations)))
  {
    hide Passes, ParseDelivery;
    if ParseDelivery(format, d).Some? { ParsedNamesAreClean(format, d); }
  }

  lemma {:induction false} AllSelectedAreProper(
    format: Formatter, filter: Option<Matcher>, maxEvents: int, ds: seq<Delivery>)
    ensures forall t | t in SelectedAll(InspectorConfig(format, filter, maxEvents), ds) :: Proper(filter, t)
  {
    hide Selected, Proper;
    if ds != [] {
      AllSelectedAreProper(format, filter, maxEvents, ds[..|ds| - 1]);
      SelectedIsProper(format, filter, maxEvents, ds[|ds| - 1]);
    }
  }

  lemma {:induction false} RenderedAreAttempted(attempts: seq<Attempt>)
    ensures forall t | t in Rendered(attempts) :: t in Attempted(attempts)
  {
    if attempts != [] {
      var n := |attempts| - 1;
      RenderedAreAttempted(attempts[..n]);
      AttemptOneMore(attempts[..n], attempts[n]);
      assert attempts == attempts[..n] + [attempts[n]];
    }
  }

  /** In every interleaving, whatever the broker delivers, each trace that reaches the renderer has
      clean names and passes the filter. */
  lemma RunsRenderProperTraces(format: Formatter, filter: Option<Matcher>, maxEvents: int, steps: seq<Step>)
    requires Runs(InspectorConfig(format, filter, maxEvents), INITIAL, steps)
    ensures var s := After(InspectorConfig(format, filter, maxEvents), INITIAL, steps);
            forall t | t in Attempted(s.attempts) :: Proper(filter, t)
  {
    hide Proper, Attempted, SelectedAll, AllHanded, Rendered, InspectorConfig;
    var cfg := InspectorConfig(format, filter, maxEvents);
    OutputIsTheSelectedStream(cfg, steps);
    AllSelectedAreProper(format, filter, maxEvents, After(cfg, INITIAL, steps).handled);
  }

  /** The graph and Prometheus agree on every pair after every run. */
  lemma RunsAgree(format: Formatter, filter: Option<Matcher>, maxEvents: int, steps: seq<Step>,
                  g: Graph, p: Prometheus, order: seq<EdgeKey>, exchange: string, queue: string)
    requires Runs(InspectorConfig(format, filter, maxEvents), INITIAL, steps)
    requires g.Valid() && p.Valid() && Enumerates(order, g.edges.Keys)
    requires g.seen == p.seen == Rendered(After(InspectorConfig(format, filter, maxEvents), INITIAL, steps).attempts)
    ensures SumWhere(order, g.Counts(), Between(exchange, queue)) == Expected(p, exchange, queue)
  {
    hide Attempted, Rendered, InspectorConfig, Passes, CleanTrace, TrimmedNames, SumWhere, Expected;
    RunsRenderProperTraces(format, filter, maxEvents, steps);
    RenderedAreAttempted(After(InspectorConfig(format, filter, maxEvents), INITIAL, steps).attempts);
    forall t | t in g.seen ensures TrimmedNames(t) {
      CleanNamesAreTrimmed(t);
    }
    GraphAgreesWithPrometheus(g, p, order, exchange, queue);
  }

  /** The event counters add up to the service's match counter, and so never exceed its limit. */
  lemma CountersAddUpToTheMatches(cfg: Config, steps: seq<Step>, p: Prometheus, order: seq<ExchangeEvent>)
    requires Runs(cfg, INITIAL, steps) && p.Valid() && Enumerates(order, p.events.Keys)
    requires p.seen == Rendered(After(cfg, INITIAL, steps).attempts)
    ensures SumWhere(order, p.events, Always()) == After(cfg, INITIAL, steps).matched
    ensures cfg.maxEvents > 0 ==> SumWhere(order, p.events, Always()) <= cfg.maxEvents
  {
    hide Attempted, Rendered, SelectedAll, AllHanded, SumWhere;
    OutputIsTheSelectedStream(cfg, steps);
    EventCountersTotal(p, order);
  }
}
