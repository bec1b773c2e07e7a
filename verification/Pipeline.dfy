/** What the service does with one delivery, and with the error that ends a session. */
module Pipeline {
  import opened Model
  import opened Sequences
  import opened Parser

  /** The parser, the filter and the event limit; a limit of 0 or less is none. */
  datatype Config = Config(
    parse: Delivery -> Option<RoutingEvent>,
    matches: RoutingTrace -> bool,
    maxEvents: int)

  /** The trace a delivery is to be rendered as; None when it does not parse or does not match. */
  function Selected(cfg: Config, d: Delivery): Option<RoutingTrace> {
    match cfg.parse(d)
    case None => None
    case Some(event) =>
      var trace := RoutingTrace(event, event.destinations);
      if cfg.matches(trace) then Some(trace) else None
  }

  function SelectedPart(cfg: Config): Delivery -> seq<RoutingTrace> {
    (d: Delivery) => if Selected(cfg, d).Some? then [Selected(cfg, d).value] else []
  }

  /** Parse-then-match over a stream of deliveries. */
  function SelectedAll(cfg: Config, deliveries: seq<Delivery>): seq<RoutingTrace> {
    FlatMap(SelectedPart(cfg), deliveries)
  }

  /** A call of the renderer and its answer. */
  datatype Attempt = Attempt(trace: RoutingTrace, ok: bool)

  function TraceOf(): Attempt -> seq<RoutingTrace> {
    (a: Attempt) => [a.trace]
  }

  function RenderedBy(): Attempt -> seq<RoutingTrace> {
    (a: Attempt) => if a.ok then [a.trace] else []
  }

  function Attempted(attempts: seq<Attempt>): seq<RoutingTrace> {
    FlatMap(TraceOf(), attempts)
  }

  /** The traces that reached the output. */
  function Rendered(attempts: seq<Attempt>): seq<RoutingTrace> {
    FlatMap(RenderedBy(), attempts)
  }

  predicate AllSucceeded(attempts: seq<Attempt>) {
    forall i | 0 <= i < |attempts| :: attempts[i].ok
  }

  lemma {:induction false} AllRendered(attempts: seq<Attempt>)
    requires AllSucceeded(attempts)
    ensures Rendered(attempts) == Attempted(attempts)
  {
    if attempts != [] { AllRendered(attempts[..|attempts| - 1]); }
  }

  /** What one more handled delivery adds. */
  lemma HandledOneMore(cfg: Config, handled: seq<Delivery>, d: Delivery)
    ensures SelectedAll(cfg, handled + [d])
         == SelectedAll(cfg, handled) + if Selected(cfg, d).Some? then [Selected(cfg, d).value] else []
  {
    FlatMapOneMore(SelectedPart(cfg), handled, d);
  }

  lemma SelectedAllConcat(cfg: Config, a: seq<Delivery>, b: seq<Delivery>)
    ensures SelectedAll(cfg, a + b) == SelectedAll(cfg, a) + SelectedAll(cfg, b)
  {
    FlatMapAppend(SelectedPart(cfg), a, b);
  }

  lemma AttemptOneMore(attempts: seq<Attempt>, a: Attempt)
    ensures Attempted(attempts + [a]) == Attempted(attempts) + [a.trace]
    ensures Rendered(attempts + [a]) == Rendered(attempts) + if a.ok then [a.trace] else []
  {
    FlatMapOneMore(TraceOf(), attempts, a);
    FlatMapOneMore(RenderedBy(), attempts, a);
  }

  /** The first `maxEvents` traces, or all when there is no limit. */
  function Limited(cfg: Config, traces: seq<RoutingTrace>): seq<RoutingTrace> {
    if cfg.maxEvents > 0 && |traces| > cfg.maxEvents then traces[..cfg.maxEvents] else traces
  }

  predicate LimitReached(cfg: Config, matched: nat) {
    cfg.maxEvents > 0 && matched >= cfg.maxEvents
  }

  /** Why a session ended. `cancelLike` marks an error that wraps a context error. */
  datatype SessionError =
    | ContextDone
    | MaxEventsReached
    | ReconnectNeeded
    | RenderFailed(cancelLike: bool)
    | ConsumeFailed(cancelLike: bool)

  /** Whether the run goes on to another session. */
  predicate Continues(err: SessionError, cancelled: bool) {
    match err
    case ContextDone => !cancelled
    case MaxEventsReached => false
    case ReconnectNeeded => true
    case RenderFailed(cancelLike) => cancelLike && !cancelled
    case ConsumeFailed(cancelLike) => cancelLike && !cancelled
  }
}
