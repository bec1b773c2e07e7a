/** The consumer object: channel setup with its failure paths, the once-guarded cleanup, and the
    forwarding loop of one goroutine, driven by a script of what its selects pick. */
module Consumer {
  import opened Text
  import opened Sequences
  import opened Parser

  /** A call on the channel, with the arguments the consumer chooses. */
  datatype Call =
    | Qos(prefetchCount: int, prefetchSize: int, global: bool)
    | QueueDeclare(name: string, durable: bool, autoDelete: bool, exclusive: bool, noWait: bool)
    | QueueBind(name: string, key: string, exchange: string, noWait: bool)
    | StartConsuming(queue: string, tag: string, autoAck: bool, exclusive: bool, noLocal: bool, noWait: bool)

  class AmqpChannel {
    var calls: seq<Call>
    var closes: nat

    constructor ()
      ensures calls == [] && closes == 0
    {
      calls, closes := [], 0;
    }
  }

  /** The cleanup closure: the first call closes the channel, later ones repeat its answer. */
  class Cleanup {
    const channel: AmqpChannel
    var done: bool
    var cleanupOk: bool

    constructor (channel: AmqpChannel)
      ensures this.channel == channel && !done && cleanupOk
    {
      this.channel, this.done, this.cleanupOk := channel, false, true;
    }

    method Invoke(closeOk: bool) returns (ok: bool)
      modifies this, channel`closes
      ensures done && ok == cleanupOk
      ensures channel.closes == old(channel.closes) + if old(done) then 0 else 1
      ensures cleanupOk == if old(done) then old(cleanupOk) else closeOk
    {
      if !done {
        channel.closes := channel.closes + 1;
        cleanupOk := closeOk;
        done := true;
      }
      ok := cleanupOk;
    }
  }

  /** The first setup step to fail, if any. */
  datatype Setup = NilConnection | OpenFails | QosFails | DeclareFails | BindFails | ConsumeFails | Succeeds

  /** How many calls on the channel were made, the failing one included. */
  function CallsMade(setup: Setup): nat {
    match setup
    case NilConnection => 0
    case OpenFails => 0
    case QosFails => 1
    case DeclareFails => 2
    case BindFails => 3
    case ConsumeFails => 4
    case Succeeds => 4
  }

  class Consumer {
    const exchange: string
    const queueName: string
    const consumerTag: string
    const prefetch: int

    constructor (exchange: string, queueName: string, consumerTag: string, prefetch: int)
      ensures this.exchange == if AllSpace(exchange) then "amq.rabbitmq.trace" else TrimSpace(exchange)
      ensures this.queueName == TrimSpace(queueName) && this.consumerTag == TrimSpace(consumerTag)
      ensures this.prefetch > 0 && (prefetch > 0 ==> this.prefetch == prefetch)
      ensures prefetch <= 0 ==> this.prefetch == 200
    {
      var name := TrimSpace(exchange);
      if name == "" {
        name := "amq.rabbitmq.trace";
      }
      this.exchange := name;
      this.queueName := TrimSpace(queueName);
      this.consumerTag := TrimSpace(consumerTag);
      this.prefetch := if prefetch <= 0 then 200 else prefetch;
    }

    /** The queue always goes with its last consumer, and is exclusive when the broker names it. */
    function DeclareQueue(): Call {
      if queueName == "" then QueueDeclare("", false, true, true, false)
      else QueueDeclare(queueName, false, true, false, false)
    }

    /** A complete setup; `declared` is the name the broker gave the queue. Everything the exchange
        routes goes to the queue, and deliveries need no acknowledgement. */
    function SetupCalls(declared: string): (calls: seq<Call>)
      ensures |calls| == 4
    {
      [ Qos(prefetch, 0, false),
        DeclareQueue(),
        QueueBind(declared, "#", exchange, false),
        StartConsuming(declared, consumerTag, true, false, false, false)]
    }

    /** What is asked of the broker: this prefetch; a queue that goes with its last consumer and is
        exclusive exactly when the broker names it; everything of the exchange; no acknowledgements. */
    lemma SetupAsksFor(declared: string)
      ensures var c := SetupCalls(declared);
              && c[0] == Qos(prefetch, 0, false)
              && c[1].QueueDeclare? && c[1].name == queueName && (c[1].exclusive <==> queueName == "")
              && c[1].autoDelete && !c[1].durable && !c[1].noWait
              && c[2] == QueueBind(declared, "#", exchange, false)
              && c[3] == StartConsuming(declared, consumerTag, true, false, false, false)
    {
    }

    /** The setup calls are made in order up to the first that fails. A channel that was opened is
        closed again on every failure, and left to the cleanup on success. */
    method Consume(setup: Setup, declared: string) returns (channel: AmqpChannel?, cleanup: Cleanup?)
      ensures channel == null <==> setup.NilConnection? || setup.OpenFails?
      ensures channel != null ==> fresh(channel) && channel.closes == if setup == Succeeds then 0 else 1
      ensures channel != null ==> channel.calls == SetupCalls(declared)[..CallsMade(setup)]
      ensures cleanup != null <==> setup == Succeeds
      ensures cleanup != null ==> fresh(cleanup) && !cleanup.done && cleanup.channel == channel
    {
      channel, cleanup := null, null;
      if setup == NilConnection || setup == OpenFails {
        return;
      }
      channel := new AmqpChannel();
      channel.calls := channel.calls + [Qos(prefetch, 0, false)];
      if setup == QosFails {
        channel.closes := channel.closes + 1;
        return;
      }
      channel.calls := channel.calls + [DeclareQueue()];
      if setup == DeclareFails {
        channel.closes := channel.closes + 1;
        return;
      }
      channel.calls := channel.calls + [QueueBind(declared, "#", exchange, false)];
      if setup == BindFails {
        channel.closes := channel.closes + 1;
        return;
      }
      channel.calls := channel.calls + [StartConsuming(declared, consumerTag, true, false, false, false)];
      if setup == ConsumeFails {
        channel.closes := channel.closes + 1;
        return;
      }
      cleanup := new Cleanup(channel);
    }
  }

  // ----- the goroutine

  /** One round of the loop: the outer select, and for a delivery whether the inner one sends it. */
  datatype Round = ContextDone | BrokerClosed | Received(delivery: Delivery, sent: bool)

  /** The round that ends the loop. */
  predicate Ends(r: Round) {
    !r.Received? || !r.sent
  }

  predicate AllButLastGoOn(rounds: seq<Round>) {
    forall j | 0 <= j < |rounds| - 1 :: !Ends(rounds[j])
  }

  function Delivered(): Round -> seq<Delivery> {
    (r: Round) => if r.Received? then [r.delivery] else []
  }

  function SentBy(): Round -> seq<Delivery> {
    (r: Round) => if r.Received? && r.sent then [r.delivery] else []
  }

  function DroppedBy(): Round -> seq<Delivery> {
    (r: Round) => if r.Received? && !r.sent then [r.delivery] else []
  }

  /** What was sent, then the at most one delivery that was dropped, is what was received, in order. */
  lemma {:induction false} SentThenDropped(rounds: seq<Round>)
    requires AllButLastGoOn(rounds)
    ensures FlatMap(SentBy(), rounds) + FlatMap(DroppedBy(), rounds) == FlatMap(Delivered(), rounds)
    ensures |FlatMap(DroppedBy(), rounds)| <= 1
    ensures FlatMap(DroppedBy(), rounds) != [] ==> Ends(rounds[|rounds| - 1])
  {
    if rounds != [] {
      var n := |rounds| - 1;
      SentThenDropped(rounds[..n]);
      assert n > 0 ==> rounds[..n][n - 1] == rounds[n - 1];
    }
  }

  /** Only a round that ends the loop with a delivery in hand drops one. */
  lemma LastOfRounds(rounds: seq<Round>)
    requires AllButLastGoOn(rounds)
    ensures FlatMap(DroppedBy(), rounds) != [] <==> rounds != [] && DroppedBy()(rounds[|rounds| - 1]) != []
  {
    if rounds != [] { SentThenDropped(rounds[..|rounds| - 1]); }
  }

  lemma NoRounds(rounds: seq<Round>)
    requires |rounds| == 0
    ensures FlatMap(SentBy(), rounds) == [] && FlatMap(DroppedBy(), rounds) == []
  {
  }

  lemma OneMoreRound(rounds: seq<Round>, round: Round)
    ensures var sent := FlatMap(SentBy(), rounds);
            FlatMap(SentBy(), rounds + [round])
            == if round.Received? && round.sent then sent + [round.delivery] else sent
    ensures var dropped := FlatMap(DroppedBy(), rounds);
            FlatMap(DroppedBy(), rounds + [round])
            == if round.Received? && !round.sent then dropped + [round.delivery] else dropped
  {
    FlatMapOneMore(SentBy(), rounds, round);
    FlatMapOneMore(DroppedBy(), rounds, round);
  }

  /** The goroutine: rounds follow each other up to the first that ends the loop; then the channel
      is cleaned up and the output closed. A script that runs out is a cancelled context. */
  method Forward(rounds: seq<Round>, cleanup: Cleanup, closeOk: bool)
    returns (sent: seq<Delivery>, dropped: seq<Delivery>, outClosed: bool, used: nat)
    modifies cleanup, cleanup.channel`closes
    ensures used <= |rounds| && AllButLastGoOn(rounds[..used])
    ensures used < |rounds| ==> used > 0 && Ends(rounds[used - 1])
    ensures sent == FlatMap(SentBy(), rounds[..used]) && dropped == FlatMap(DroppedBy(), rounds[..used])
    ensures sent + dropped == FlatMap(Delivered(), rounds[..used]) && |dropped| <= 1
    ensures outClosed && cleanup.done
    ensures cleanup.channel.closes == old(cleanup.channel.closes) + if old(cleanup.done) then 0 else 1
  {
    hide FlatMap;
    sent, dropped, outClosed, used := [], [], false, 0;
    NoRounds(rounds[..0]);
    var running := true;
    while running && used < |rounds|
      invariant used <= |rounds| && forall j | 0 <= j < used - 1 :: !Ends(rounds[j])
      invariant used > 0 ==> (running <==> !Ends(rounds[used - 1]))
      invariant used == 0 ==> running
      invariant sent == FlatMap(SentBy(), rounds[..used]) && dropped == FlatMap(DroppedBy(), rounds[..used])
      invariant cleanup.done == old(cleanup.done) && cleanup.channel.closes == old(cleanup.channel.closes)
      decreases running, |rounds| - used
    {
      var round := rounds[used];
      assert rounds[..used + 1] == rounds[..used] + [round];
      OneMoreRound(rounds[..used], round);
      used := used + 1;
      if round.Received? {
        if round.sent {
          sent := sent + [round.delivery];
        } else {
          dropped := dropped + [round.delivery];
          running := false;
        }
      } else {
        running := false;
      }
    }
    SentThenDropped(rounds[..used]);
    var ok := cleanup.Invoke(closeOk);
    outClosed := true;
  }
}
