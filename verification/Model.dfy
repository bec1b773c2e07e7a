/** The values that flow from the parser to the renderers. */
module Model {

  datatype Option<+T> = None | Some(value: T)

  datatype QueueDestination = QueueDestination(queueName: string, bindingKey: string)

  /** A routing event without its timestamp and body preview. */
  datatype RoutingEvent = RoutingEvent(
    exchangeName: string,
    exchangeType: string,
    routingKey: string,
    messageId: string,
    correlationId: string,
    eventType: string,
    destinations: seq<QueueDestination>)

  datatype RoutingTrace = RoutingTrace(event: RoutingEvent, destinations: seq<QueueDestination>)

  /** The destinations every renderer and the filter use: the trace's own, else its event's. */
  function Destinations(trace: RoutingTrace): seq<QueueDestination> {
    if |trace.destinations| == 0 then trace.event.destinations else trace.destinations
  }
}
