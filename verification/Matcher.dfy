/** The trace filter: exchange glob, event type, topic key and queue glob. */
module Matcher {
  import opened Text
  import opened Model
  import opened Topic

  /** The configured patterns; "" switches a filter off. `glob` stands for `path.Match`
      (false on a malformed pattern) and `lower` for `strings.ToLower`. */
  datatype Matcher = Matcher(
    exchange: string,
    queue: string,
    routingKey: string,
    eventType: string,
    glob: (string, string) -> bool,
    lower: string -> string)

  /** `core` is what is left of `s` when the white space at its ends is taken away. */
  ghost predicate IsCore(s: string, core: string) {
    Trimmed(core) && exists left, right :: AllSpace(left) && AllSpace(right) && s == left + core + right
  }

  lemma CoreIsTrimSpace(s: string, core: string)
    requires IsCore(s, core)
    ensures TrimSpace(s) == core
  {
    var left, right :| AllSpace(left) && AllSpace(right) && s == left + core + right;
    TrimSpaceIsTheCore(left, core, right);
  }

  function NewMatcher(exchange: string, queue: string, routingKey: string, eventType: string,
                      glob: (string, string) -> bool, lower: string -> string): (m: Matcher)
    ensures Trimmed(m.exchange) && Trimmed(m.queue) && Trimmed(m.routingKey)
  {
    Matcher(TrimSpace(exchange), TrimSpace(queue), TrimSpace(routingKey), lower(TrimSpace(eventType)), glob, lower)
  }

  /** White space around the configured patterns is ignored, and the event type's case. */
  lemma NewMatcherTakesTheCores(
    exchange: string, queue: string, routingKey: string, eventType: string, cores: Matcher, eventCore: string)
    requires IsCore(exchange, cores.exchange) && IsCore(queue, cores.queue) && IsCore(routingKey, cores.routingKey)
    requires IsCore(eventType, eventCore) && cores.eventType == cores.lower(eventCore)
    ensures NewMatcher(exchange, queue, routingKey, eventType, cores.glob, cores.lower) == cores
  {
    hide TrimSpace;
    CoreIsTrimSpace(exchange, cores.exchange);
    CoreIsTrimSpace(queue, cores.queue);
    CoreIsTrimSpace(routingKey, cores.routingKey);
    CoreIsTrimSpace(eventType, eventCore);
  }

  ghost predicate ExchangePasses(m: Matcher, trace: RoutingTrace) {
    m.exchange == "" || m.glob(m.exchange, trace.event.exchangeName)
  }

  ghost predicate EventTypePasses(m: Matcher, trace: RoutingTrace) {
    m.eventType == "" || m.lower(trace.event.eventType) == m.eventType
  }

  ghost predicate RoutingKeyPasses(m: Matcher, trace: RoutingTrace) {
    TopicFilter(m.routingKey, trace.event.routingKey)
  }

  ghost predicate QueuePasses(m: Matcher, trace: RoutingTrace) {
    m.queue == "" || exists d | d in Destinations(trace) :: m.glob(m.queue, d.queueName)
  }

  /** Every configured filter lets the trace through; a missing matcher passes all. */
  ghost predicate Passes(m: Option<Matcher>, trace: RoutingTrace) {
    m.Some? ==>
      && ExchangePasses(m.value, trace)
      && EventTypePasses(m.value, trace)
      && RoutingKeyPasses(m.value, trace)
      && QueuePasses(m.value, trace)
  }

  /** The patterns work one by one: a trace passes exactly when it passes each alone, and these are
      what each alone lets through. */
  lemma FiltersWorkAlone(m: Matcher, trace: RoutingTrace)
    ensures Passes(Some(m), trace) <==>
              && Passes(Some(m.(queue := "", routingKey := "", eventType := "")), trace)
              && Passes(Some(m.(exchange := "", queue := "", routingKey := "")), trace)
              && Passes(Some(m.(exchange := "", queue := "", eventType := "")), trace)
              && Passes(Some(m.(exchange := "", routingKey := "", eventType := "")), trace)
    ensures Passes(Some(m.(queue := "", routingKey := "", eventType := "")), trace) <==>
              m.exchange == "" || m.glob(m.exchange, trace.event.exchangeName)
    ensures Passes(Some(m.(exchange := "", queue := "", routingKey := "")), trace) <==>
              m.eventType == "" || m.lower(trace.event.eventType) == m.eventType
    ensures Passes(Some(m.(exchange := "", queue := "", eventType := "")), trace) <==>
              m.routingKey == "" || Matches(SplitDots(m.routingKey), SplitDots(trace.event.routingKey))
    ensures Passes(Some(m.(exchange := "", routingKey := "", eventType := "")), trace) <==>
              m.queue == "" || exists i | 0 <= i < |Destinations(trace)| ::
                                 m.glob(m.queue, Destinations(trace)[i].queueName)
    ensures Passes(None, trace)
  {
    if i :| 0 <= i < |Destinations(trace)| && m.glob(m.queue, Destinations(trace)[i].queueName) {
      assert Destinations(trace)[i] in Destinations(trace);
    }
  }

  method Match(m: Option<Matcher>, trace: RoutingTrace) returns (ok: bool)
    ensures ok <==> Passes(m, trace)
  {
    hide Matches;
    if m.None? {
      return true;
    }
    var m := m.value;
    if m.exchange != "" && !m.glob(m.exchange, trace.event.exchangeName) {
      return false;
    }
    if m.eventType != "" && m.lower(trace.event.eventType) != m.eventType {
      return false;
    }
    if m.routingKey != "" {
      var keyOk := MatchTopicKey(m.routingKey, trace.event.routingKey);
      if !keyOk {
        return false;
      }
    }
    if m.queue == "" {
      return true;
    }
    var destinations := Destinations(trace);
    for i := 0 to |destinations|
      invariant forall j | 0 <= j < i :: !m.glob(m.queue, destinations[j].queueName)
    {
      if m.glob(m.queue, destinations[i].queueName) {
        return true;
      }
    }
    return false;
  }
}
