# A verified model of the routing inspector

The inspector taps a RabbitMQ firehose exchange: it keeps a connection alive, forwards deliveries
from the broker to a service loop, parses them into routing events, filters them, and hands the
resulting traces to a renderer that aggregates or broadcasts them. This project models that pipeline
in Dafny and proves what each stage keeps, over every input and every interleaving.

| file | models |
|---|---|
| `Session.dfy`, `Pipeline.dfy` | the session protocol as a small-step machine: forwarder goroutines, select loop, reconnect loop, cancellation, broker |
| `Blocking.dfy` | forwarders that outlive their session: which stay blocked, and until when |
| `Shutdown.dfy` | cancelled runs: never deadlocked, and able to end with nothing left behind |
| `Causes.dfy` | why sessions and runs end, and that lost connections are followed by new ones |
| `Service.dfy`, `Consumer.dfy` | the same two components as objects with loops, driven by scripts of what the environment does |
| `Refinement.dfy` | every interleaving of the machine is a script of those objects |
| `Broadcast.dfy` | server-sent events: a machine for every interleaving of render, close and request handlers, and the renderer object |
| `Topic.dfy`, `Matcher.dfy` | the topic matcher against the meaning of AMQP 0-9-1 topic patterns (section 3.1.3.3), and the trace filter |
| `Parser.dfy`, `Fields.dfy` | firehose keys and headers into routing events; deduplication; where each field comes from |
| `Edges.dfy`, `Graph.dfy`, `Dot.dfy` | the mutable edge histogram, its sorted export, the DOT printer and a quote-aware reader |
| `Metrics.dfy`, `Summary.dfy`, `Agreement.dfy` | the Prometheus and summary counters, and where they and the graph must agree |
| `Inspector.dfy` | the machine run with the parser and the filter, and renderers fed what it renders |
| `Backoff.dfy` | retry delays in 64-bit nanoseconds |
| `Text.dfy`, `Order.dfy`, `Histogram.dfy`, `Sequences.dfy`, `Model.dfy` | strings, sorting, counter maps, streams, shared values |

How to read the main results:

* A run of a machine is a sequence of enabled steps from its initial state. Lemmas about runs
  quantify over all of them, so over every interleaving. The invariants are one-step lemmas
  (`StepKeeps...`) lifted to runs.
* An aggregating object carries a ghost field `seen`, the traces it has accepted. Its `Valid()`
  says that its counter maps are exactly the histograms of the keys those traces contribute, so the
  lemmas over two or three objects with equal `seen` speak about their real fields.
* Sums over a counter map are stated for any enumeration of its keys, and exports are the sorted
  listing of a set, which is unique; iteration order and sort stability therefore cannot show.
* Map iteration picks an arbitrary remaining key. The library sort is a method of which callers see
  only the contract: a rearrangement with no element before a smaller one.

Where the code does not meet a property everywhere, the exact condition is proved:

* The retry waits are `min(initial * 2^k, max)` for all `k` if and only if `max < 2^62` ns
  (`WaitsAsIntendedIff`); at `2^62` the doubled delay wraps to a negative one (`OverflowingCap`).
* Deduplication by `queue|binding` keeps every destination if and only if no two different ones
  share that text (`DedupePreservesTheSetIff`); names with a bar can (`BarCanLoseADestination`).
* A bare `publish.<exchange>` or `deliver.<queue>` gives the name back if and only if the name does
  not end in a dot and the routing key (`BarePublishKeyInvertsIff`, `BareDeliverKeyInvertsIff`);
  with the routing key `created`, `orders.created` comes back as `orders` (`BareKeysCanLoseWords`).
* A forwarder whose session is over can exit without a cancellation if and only if it neither holds a
  delivery nor is waiting with one left to take (`LeftForwarderExitsIff`). Otherwise it stays blocked
  in every continuation until the context is cancelled (`LeftForwarderStaysBlocked`), and then it can
  always exit (`CancellationFrees`), each step of its own taking it closer (`CancelledForwarderMovesOn`).
  A run that stops on its event limit can leave either kind (`AForwarderCanBeLeftBlocked`,
  `AForwarderCanBeLeftWithABacklog`).
* The graph and Prometheus agree on every exchange and queue if and only if every exchange and queue
  name that came in was trimmed (`GraphAgreesWithPrometheusIff`). The parser trims them, so they agree
  after every run (`RunsAgree`).
* A service run again after it reached its event limit counts one event past the limit before it
  stops, and never more (`RunLimit`).
* The filter documentation speaks of zero or more words; the code splits the empty routing key into
  one empty word, so `*` matches it (`StarTakesDotlessKeys`).

## Model

| member | source | states |
|---|---|---|
| Session.DeliveriesKeepTheirOrder | internal/firehose/consumer.go:173-193 | In every interleaving and session, what the service received followed by at most one held or dropped delivery is a prefix of the broker's stream |
| Session.OutputIsTheSelectedStream | internal/app/service.go:211-242 | Over all reconnects the renderer was called with exactly parse-then-match of the handled deliveries; the counter is the number rendered, never above a positive limit; without renderer errors the output is all of them |
| Session.OutputIsTheFirstEvents | internal/app/service.go:236-239 | Of any stream that the handled deliveries begin, a run that reached its limit rendered the first `maxEvents` selected traces |
| Session.LimitStopsTheRun | internal/app/service.go:155-159 | After the event that reaches the limit nothing is handled, rendered or connected any more |
| Session.OverIsFinal | internal/app/service.go:134-171 | Once only teardown is left, every continuation leaves the output and the sessions as they are |
| Session.ResourcesAreClosedInOrder | internal/app/service.go:150-153 | At most one connection is open at a time, each is closed at most once, and its channel exactly once and before it although two parties try |
| Session.RendererClosesLast | internal/app/service.go:128-132 | The renderer is closed exactly when the run has stopped, once, and nothing is rendered after |
| Blocking.LeftForwarderExitsIff | internal/firehose/consumer.go:178-191 | A forwarder whose session is over has an exit without cancellation exactly when it neither holds a delivery nor waits with one left to take |
| Blocking.LeftForwarderStaysBlocked | internal/firehose/consumer.go:186-190 | A stuck forwarder stays stuck, with what it holds, in every continuation until the context is cancelled |
| Blocking.CancellationFrees | internal/firehose/consumer.go:180-189 | Once cancelled, every left forwarder has an exit that takes only its own and the broker's steps |
| Blocking.CancelledForwarderMovesOn | internal/firehose/consumer.go:174-189 | After a cancellation an own step is always open until the exit, each takes it closer, and no step takes it back |
| Blocking.AForwarderCanBeLeftBlocked | internal/app/service.go:236-239 | A run stopped by its limit with everything closed and a forwarder still holding a delivery exists |
| Blocking.AForwarderCanBeLeftWithABacklog | internal/app/service.go:236-239 | And one whose forwarder waits before a stream with a delivery left |
| Session.ForwarderKeepsSession | internal/firehose/consumer.go:166-193 | Each forwarder and broker step keeps the order of deliveries and the once-only close, and leaves to the service what is the service's |
| Session.ServiceKeepsSession | internal/app/service.go:174-209 | Each service step inside a session keeps the order of deliveries, the once-only close and the channel-before-connection order |
| Session.StepKeepsSessions | internal/app/service.go:134-209 | Every step of either side keeps the invariant of all sessions, past and current |
| Session.StepKeepsOutput | internal/app/service.go:134-242 | Every step keeps the output equal to parse-then-match of what was handled, within the limit |
| Session.RunKeepsInvariants | internal/app/service.go:123-172 | Both invariants hold after every run |
| Causes.StoppedRunsHaveACause | internal/app/service.go:134-171 | A run only stops when it was cancelled, could not connect, reached its limit, or consuming or rendering failed with an error of its own |
| Causes.SessionErrorsHaveACause | internal/app/service.go:190-208 | A session ends as done, at the limit, lost or failed only when the context, the count, the connection or stream, the renderer or the consumer says so |
| Causes.LostConnectionsReconnect | internal/app/service.go:165-167 | From a lost session every continuation comes back to the top of the reconnect loop, where only a cancellation keeps it from connecting |
| Causes.ARunReconnects | internal/app/service.go:134-171 | Runs exist that lose their first connection, or its stream, and render the delivery of their second session |
| Causes.NextDeliveryCanGoThrough | internal/app/service.go:200-242 | What the broker has produced can be taken and handled, also after it closed the stream; a selected one may be accepted or refused, and a refusal ends the session |
| Service.Service.HandleDelivery | internal/app/service.go:211-242 | A parse error or a non-match is skipped; a match is rendered, and counted if accepted; the error, if any, is the renderer's or the limit, exactly, whatever the count before |
| Service.Service.RunSession | internal/app/service.go:190-208 | Deliveries are handled in order up to the first pick that ends the session, and the error is that pick's; it is the limit exactly when an event that reached it was counted |
| Service.SessionIsDetermined | internal/app/service.go:190-208 | That description leaves one number of picks and one error |
| Service.PicksRenderTheSelected | internal/app/service.go:211-234 | The renderer calls are parse-then-match of the deliveries handled |
| Service.Service.Run | internal/app/service.go:123-172 | Turn follows turn exactly as long as none stops the run, said of the script; a lost connection or stream is always followed by the next turn; the failure reported is that of the last turn; what was picked is the concatenation; connections are closed as often as opened, the renderer once |
| Service.RunsStopExactly | internal/app/service.go:155-170 | A run stops on a context done before a turn, a refused or nil connection, the limit, an error of its own, or an error that wraps a context error when the context is done, and on nothing else |
| Service.ReportsTheLastTurn | internal/app/service.go:140-169 | Which failure is reported, read off the last turn |
| Service.RunLimit | internal/app/service.go:155-159 | The counter stays within the limit, or passes it by one event when it began there; the last session ends on the limit exactly when an event that reached it was counted |
| Refinement.RunsAreScripts | internal/app/service.go:123-242 | Every interleaving is, as far as it has come, a script of the service: session by session the picked arrivals are what was handed over (less the one in hand), with the same renderer calls and count |
| Refinement.StoppedRunsAreScripts | internal/app/service.go:134-171 | One that has stopped is, session by session, a complete script, whose last turn does not go on |
| Refinement.ForwardersAreScripts | internal/firehose/consumer.go:173-193 | The rounds each forwarder went through in the run are a script of the forwarding loop: same deliveries sent and dropped, at its end exactly when the loop was left, and left for what its last round names: a drained, closed stream or a cancelled context |
| Refinement.NothingIsLostUncancelled | internal/firehose/consumer.go:178-191 | Without a cancellation a forwarder that has left its loop handed over all its broker produced |
| Shutdown.CancelledRunNeverDeadlocks | internal/app/service.go:134-209 | Once cancelled, in every reachable phase but the last a step towards the stop is open |
| Shutdown.CancelledRunCanStop | internal/app/service.go:123-209 | From wherever it is cancelled a run can stop within nine steps, all the service's own but for a forwarder ending a cleanup it has begun |
| Shutdown.CancelledRunCanEndCleanly | internal/firehose/consumer.go:161-193 | It can go on until every connection and opened channel is closed and every started forwarder has exited |
| Consumer.Consumer.constructor | internal/firehose/consumer.go:105-124 | Names are trimmed; a blank exchange and a non-positive prefetch get the defaults |
| Consumer.Consumer.Consume | internal/firehose/consumer.go:127-212 | Prefetch, declaration, binding and consuming are called with these arguments, in order, up to the first that fails; a channel that was opened is closed again on every failure and open with an unused cleanup on success |
| Consumer.Consumer.SetupAsksFor | internal/firehose/consumer.go:137-212 | The arguments: prefetch, an auto-deleted queue, exclusive exactly when unnamed, the binding key `#`, no acknowledgements |
| Consumer.Cleanup.Invoke | internal/firehose/consumer.go:161-171 | Only the first call closes the channel; later calls repeat its answer |
| Consumer.Forward | internal/firehose/consumer.go:173-193 | The loop runs up to the first round that ends it; what was sent, then the at most one dropped delivery, is what was received, in order; then the channel is cleaned up and the output closed |
| Consumer.SentThenDropped | internal/firehose/consumer.go:178-191 | Sending and dropping split what was received without loss or reordering |
| Broadcast.EveryClientSeesTheStream | internal/output/web.go:94-115 | In every interleaving a registered client's received and buffered messages are an in-order subsequence of the broadcasts since it registered, received + buffered + dropped equals their number, the buffer is at most 32, and nothing panics |
| Broadcast.DepartedClientsSawAPrefix | internal/output/web.go:71-85 | For clients that left or were closed the same holds for the broadcasts offered to them |
| Broadcast.DropsOnlyWhenFull | internal/output/web.go:107-113 | A step drops a message for a client exactly when it offers one to a full buffer |
| Broadcast.StepKeepsInv | internal/output/web.go:65-129 | Every step keeps: no send on a closed channel, no second close, offers complete and in order |
| Broadcast.RunKeepsInv | internal/output/web.go:65-129 | The invariant holds after every run |
| Broadcast.ClosedIsFinal | internal/output/web.go:102-104 | After Close nothing is broadcast any more |
| Broadcast.ReceivedOnlyGrows | internal/output/web.go:82-89 | What a handler has written is never taken back |
| Broadcast.ClosedClientReadsOn | internal/output/web.go:78-91 | After a close a handler reads all that is buffered and then returns, and not before |
| Broadcast.CloseReachesEveryone | internal/output/web.go:117-129 | Every client registered when the close begins has its channel closed by the time the loop is over |
| Broadcast.LateClientHearsNothing | internal/output/web.go:65-91 | A request after the close is registered, hears nothing in any continuation, and ends only with the request |
| Broadcast.UninterruptedSends | internal/output/web.go:107-113 | The broadcast loop, in any client order, offers the message to every registered client once and to nobody else |
| Broadcast.WebRenderer.Register | internal/output/web.go:65-69 | A new open, empty channel joins the clients |
| Broadcast.WebRenderer.Unregister | internal/output/web.go:71-75 | Exactly this channel leaves the clients |
| Broadcast.WebRenderer.RenderTrace | internal/output/web.go:100-114 | Each client's buffer gets the message if it has room; a closed renderer changes nothing |
| Broadcast.WebRenderer.Close | internal/output/web.go:117-129 | The first close closes every client's channel and forgets them, keeping what they hold; later ones do nothing |
| Broadcast.SseChannel.Receive | internal/output/web.go:82-86 | Messages come out in the order they went in |
| Topic.TopicMatch | internal/filter/matcher.go:94-117 | The matcher answers true exactly when the key can be cut into consecutive runs, one per pattern word, that the words accept; it terminates |
| Topic.MatchesConcat | internal/filter/matcher.go:98-116 | A concatenated pattern matches exactly the keys with a split that matches the parts |
| Topic.MatchesReverse | internal/filter/matcher.go:98-116 | Reversing pattern and key together changes nothing |
| Topic.MatchesCongruence | internal/filter/matcher.go:98-116 | Patterns that match the same keys may replace each other inside any pattern |
| Topic.DoubleHash | internal/filter/matcher.go:98-109 | `#.#` is equivalent to `#` in every context |
| Topic.HashStarCommute | internal/filter/matcher.go:98-114 | `#.*` is equivalent to `*.#` in every context |
| Topic.HashUnrolls | internal/filter/matcher.go:102-107 | A leading `#` takes nothing, or one word and stays |
| Topic.MatchTopicKey | internal/filter/matcher.go:85-92 | The string filter decides the word-level meaning; the empty pattern matches everything |
| Topic.LiteralPattern | internal/filter/matcher.go:89-91 | A non-empty pattern without wildcard words matches exactly itself |
| Topic.LiteralPrefixPattern | internal/filter/matcher.go:89-91 | `P.#` for a literal `P` matches exactly `P` and the keys starting with `P.` |
| Topic.StarTakesDotlessKeys | internal/filter/matcher.go:89-91 | `*` matches exactly the keys without a dot, the empty key included |
| Matcher.Match | internal/filter/matcher.go:33-70 | A trace passes exactly when each configured filter lets it through, the queue filter through some destination |
| Matcher.FiltersWorkAlone | internal/filter/matcher.go:33-70 | A trace passes exactly when it passes each pattern alone, and what each alone lets through |
| Matcher.NewMatcherTakesTheCores | internal/filter/matcher.go:23-30 | White space around the four patterns is ignored, and the event type's case |
| Text.TrimSpaceIsTheCore | internal/parser/parser.go:241-243 | Trimming gives the one trimmed core between blank ends |
| Text.SpaceCharacters | internal/parser/parser.go:241-243 | What counts as white space, character by character |
| Text.FirstNonEmptyIsTheFirst | internal/parser/parser.go:317-324 | The first value that is not blank is taken, trimmed |
| Text.JoinUndoesSplit | internal/filter/matcher.go:89-90 | Joining the words of a split gives the string back |
| Text.SplitUndoesJoin | internal/filter/matcher.go:89-90 | Splitting joined dotless words gives the words back |
| Parser.PublishKeyInverts | internal/parser/parser.go:38-60 | `publish.<exchange>.<key>` gives back event type, exchange and key, dots included, when only the key speaks |
| Parser.DeliverKeyInverts | internal/parser/parser.go:88-116 | `deliver.<queue>.<key>` gives back the queue as the only destination, dots included |
| Parser.BarePublishKeyInvertsIff | internal/parser/parser.go:240-287 | The bare publish form gives the exchange back exactly when its name does not end in the routing key |
| Parser.BareDeliverKeyInvertsIff | internal/parser/parser.go:289-307 | The bare deliver form gives the queue back exactly when its name does not end in the routing key |
| Parser.BareKeysCanLoseWords | internal/parser/parser.go:264-303 | Two deliveries where the bare form loses the last word of the name |
| Parser.NameFromKey | internal/parser/parser.go:240-307 | Both key readers take the same name off the same rest |
| Fields.RoutingKeyFromHeaders | internal/parser/parser.go:118-153 | The routing key is the first text of `routing_key`, `routing-key`, or of the list `routing_keys`, trimmed; else the firehose key |
| Fields.KeysInvertWithNamedKey | internal/parser/parser.go:240-307 | With the key named in any of these ways `publish.<name>.<key>` and `deliver.<name>.<key>` give exchange and queue back |
| Fields.NamesFromHeaders | internal/parser/parser.go:41-54 | Event type, exchange and exchange type come from the first of their headers, by name, that has a text |
| Fields.IdsFromDeliveryOrHeaders | internal/parser/parser.go:56-57 | Message and correlation id are the delivery's own, else their headers' |
| Fields.EventTypeFromFirstWord | internal/parser/parser.go:309-315 | Without a header the event type is the word before the first dot |
| Fields.UnknownExchange | internal/parser/parser.go:62-64 | Without header or firehose key the exchange is unknown |
| Fields.ExchangeFromSecondWord | internal/parser/parser.go:249-264 | A key that does not begin with the event type gives its second word as the exchange |
| Fields.ExchangeOfOtherEvents | internal/parser/parser.go:266-286 | For other events than `publish` the exchange is what stands before a named routing key, else the first word after the event type |
| Fields.DeliverKeyWithoutPrefix | internal/parser/parser.go:289-307 | A `deliver` event's key without that prefix is its queue, less a named routing key |
| Fields.EntryFields | internal/parser/parser.go:188-207 | Queue and binding of a list entry are those fields of its table; a string is a queue |
| Fields.DestinationsFromTheirHeader | internal/parser/parser.go:71-75 | A destinations header alone decides, deduplicated |
| Fields.DestinationFromQueueHeader | internal/parser/parser.go:98-115 | Without it the queue header names the only destination, and without that only a `deliver` event has one |
| Fields.BindingFromHeader | internal/parser/parser.go:112-115 | The binding of that destination comes from its own header |
| Parser.HeadersDecide | internal/parser/parser.go:41-55 | A header that names event type, exchange, routing key or queue decides it, whatever the firehose key says |
| Parser.HeaderStringTakesTheFirst | internal/parser/parser.go:209-221 | Among the accepted header names the first that is not blank decides |
| Parser.ParseFailsIff | internal/parser/parser.go:155-207 | Parsing fails exactly on a `destinations` header of an unsupported shape |
| Parser.ParsedNamesAreClean | internal/parser/parser.go:38-116 | Every exchange, queue, binding and routing key leaving the parser is trimmed, and the exchange is not empty |
| Parser.ParseDestinationList | internal/parser/parser.go:155-186 | The list loops compute the named destinations in order, or the error |
| Parser.DestinationListFailsIff | internal/parser/parser.go:155-207 | A list fails exactly when its type or one of its entries is unsupported |
| Parser.DedupeDestinations | internal/parser/parser.go:326-338 | The loop computes the first occurrences |
| Parser.DedupeKeepsFirstOccurrences | internal/parser/parser.go:326-338 | The result is the order-preserving subsequence of exactly the first occurrences under the key |
| Parser.DedupedKeysAreDistinct | internal/parser/parser.go:330-333 | The kept keys are pairwise distinct |
| Parser.EveryKeyIsKept | internal/parser/parser.go:330-335 | Every key has a kept destination |
| Parser.DedupeIdempotent | internal/parser/parser.go:326-338 | Deduplicating twice is deduplicating once |
| Parser.DedupePreservesTheSetIff | internal/parser/parser.go:330-333 | No destination is lost exactly when no two different ones share a key |
| Parser.BarlessKeysIdentify | internal/parser/parser.go:330 | Without a bar in queue names equal keys mean equal destinations |
| Parser.BarCanLoseADestination | internal/parser/parser.go:330 | Two different destinations of which one is dropped |
| Graph.Graph.constructor | internal/graph/graph.go:34-46 | An empty graph with a trimmed or default name |
| Graph.Graph.FindOrCreate | internal/graph/graph.go:66-70 | The edge object of the key, new with count 0 when there was none; all other edges untouched |
| Graph.Graph.CountEdge | internal/graph/graph.go:65-71 | Exactly this key's count goes up by one, in place |
| Graph.Graph.AddTrace | internal/graph/graph.go:49-73 | The graph stays the histogram of all occurrences seen, its nodes the edge ends, each object carrying its key |
| Graph.Graph.DistinctEdgeObjects | internal/graph/graph.go:66-71 | Distinct keys hold distinct objects |
| Graph.Graph.Edges | internal/graph/graph.go:76-92 | Every edge once with its count, by exchange, then queue, then label, each in dictionary order; whatever the iteration order |
| Graph.Graph.DOT | internal/graph/graph.go:95-136 | The text is that of the sorted nodes and edges |
| Graph.ExportIsOrderFree | internal/graph/graph.go:76-152 | Graphs fed permuted traces have equal counts, equal tables and equal texts |
| Graph.ExportReadsBack | internal/graph/graph.go:95-152 | Reading the text gives back the name, the exchanges, the queues, and exactly the edges with their counts, strictly increasing |
| Graph.TotalCount | internal/graph/graph.go:49-73 | All counts together are the sum over the traces of their destinations, at least one each |
| Edges.KeysAreClean | internal/graph/graph.go:154-170 | Ends and label are trimmed and non-empty, the label from the binding key, else the routing key |
| Edges.SortedRowsAreTheTable | internal/graph/graph.go:76-92 | Sorting rows collected in any order gives the one sorted table |
| Edges.TableIsInKeyOrder | internal/graph/graph.go:82-90 | The table is in that order |
| Order.ListingUnique | internal/graph/graph.go:138-147 | A set has one increasing listing |
| Order.StringLessIsStrictOrder | internal/graph/graph.go:143-145 | String comparison is a strict total order |
| Order.StringLessIsDictionaryOrder | internal/graph/graph.go:143-145 | And exactly dictionary order: at the first difference the smaller character, or the end, comes first |
| Histogram.SortedKeys | internal/graph/graph.go:138-147 | Keys collected in any order and sorted are the listing of the key set |
| Dot.QuotedRoundTrip | internal/graph/graph.go:149-152 | Any value survives escaping and quoting, and its own quotes never end the string |
| Dot.EscapeOne | internal/graph/graph.go:149-152 | A quote and a backslash get one backslash, any other character stays |
| Dot.EscapeConcat | internal/graph/graph.go:149-152 | Escaping works character by character |
| Dot.EscapeKeepsPlain | internal/graph/graph.go:149-152 | Text without quotes and backslashes is printed as it is |
| Dot.EscapeLength | internal/graph/graph.go:149-152 | One backslash is added per quote and backslash, and nothing else |
| Dot.DecimalNotation | internal/graph/graph.go:125 | Counts are printed in decimal, without leading zeros |
| Dot.EdgeLineText | internal/graph/graph.go:126-131 | The literal text of an edge line |
| Dot.SmallDocumentText | internal/graph/graph.go:95-136 | The literal text of a document with one exchange, queue and edge |
| Dot.LabelRoundTrip | internal/graph/graph.go:125 | The trailing count is read back whatever the label |
| Dot.StatementRoundTrip | internal/graph/graph.go:104-132 | Each node or edge line is read back, with its kind from the `ex:` or `q:` id |
| Dot.DotRoundTrip | internal/graph/graph.go:95-152 | Reading a printed document gives it back, for any names and lists |
| Dot.DotTextInjective | internal/graph/graph.go:95-152 | Different documents print differently |
| Metrics.Prometheus.RenderTrace | internal/output/prometheus.go:72-104 | All three counter families stay the histograms of the traces rendered; a publish event without destinations counts as unrouted at its exchange |
| Metrics.Prometheus.MetricsRows | internal/output/prometheus.go:120-165 | The samples are written once each, by exchange and then the other label, in dictionary order |
| Metrics.MetricsAreOrderFree | internal/output/prometheus.go:72-104 | Permuted traces give equal counters |
| Summary.Summary.RenderTrace | internal/output/summary.go:39-83 | An open renderer counts the trace in every total and map; a closed one refuses it and stays as it is |
| Summary.Summary.Close | internal/output/summary.go:85-112 | The first close reports the totals and the top-10 lists; later ones nothing |
| Summary.WriteTopN | internal/output/summary.go:119-137 | The highest counts are shown, ties by name, as many as asked for; each outranks those below it and those left out |
| Summary.TopShowsTheHighest | internal/output/summary.go:128-137 | The same of the ranking, in terms of counts and names |
| Summary.TopIsTheFairList | internal/output/summary.go:128-137 | It is the only list of min(n, size) entries in strictly decreasing rank that no omitted entry outranks |
| Summary.RankingEnumerates | internal/output/summary.go:124-127 | The ranking names every counter once |
| Summary.ReportIsOrderFree | internal/output/summary.go:39-112 | Permuted traces give the same report |
| Histogram.MarginalCounts | internal/output/prometheus.go:86-101 | Summing part of a counter map in any order counts the fed keys in that part |
| Agreement.GraphAgreesWithPrometheusIff | internal/graph/graph.go:49-73 | Edge counts summed over labels equal, for every pair, the delivery counter plus the destination-less traces of the exchange at the `(unrouted)` node, exactly when all names that came in were trimmed |
| Agreement.GraphAgreesWithPrometheus | internal/output/prometheus.go:72-104 | With trimmed names they are equal, pair by pair |
| Inspector.SelectedIsProper | internal/app/service.go:211-230 | A delivery is selected exactly when it parses and its trace passes, and then it is that trace |
| Inspector.RunsRenderProperTraces | internal/app/service.go:211-234 | In every interleaving each trace that reaches the renderer has clean names and passes the filter |
| Inspector.RunsAgree | internal/parser/parser.go:38-116 | After every run the graph and Prometheus, fed what was rendered, agree on every pair |
| Inspector.CountersAddUpToTheMatches | internal/app/service.go:236-237 | The event counters add up to the service's match counter, and so stay within its limit |
| Agreement.UntrimmedNamesDisagree | internal/output/prometheus.go:77-80 | A trace with an untrimmed name gives a pair that Prometheus has counted and where the graph has no edge |
| Agreement.ExchangesAgree | internal/output/summary.go:56-60 | A summary exchange count is the event counter summed over types |
| Agreement.QueuesAgree | internal/output/summary.go:62-75 | A summary queue count is the delivery counter summed over exchanges |
| Agreement.EventTotalsAgree | internal/output/summary.go:46-54 | Total, publish and deliver counts are the matching sums of the event counters |
| Agreement.UnroutedTotalAgrees | internal/output/summary.go:66-68 | The unrouted count is the sum of the unrouted counters |
| Agreement.ShownExchangesWithinTotal | internal/output/summary.go:107 | Exchange counts sum to the total, so the shown ones never exceed it |
| Backoff.WaitClosedForm | internal/connection/manager.go:77-83 | Below 2^62 the wait after failure `k` is `min(initial * 2^k, max)` and its doubling fits 64 bits |
| Backoff.WaitsNeverShrink | internal/connection/manager.go:73 | Waits never decrease and never exceed the cap |
| Backoff.CapIsReached | internal/connection/manager.go:77-83 | The wait is the cap exactly once `initial * 2^k` reaches it, and always from failure 62 on |
| Backoff.WaitsAsIntendedIff | internal/connection/manager.go:77-83 | The waits are the capped doublings exactly when the cap is below 2^62 |
| Backoff.OverflowingCap | internal/connection/manager.go:78 | A cap of 2^62 makes the second wait negative |
| Backoff.Manager.constructor | internal/connection/manager.go:25-46 | Defaults for non-positive settings, and a cap never below the first wait |
| Backoff.Manager.ConnectWithRetry | internal/connection/manager.go:49-75 | The timers started are the waits in order; the outcome is that of the first round that does not elapse |

## Left out

- Dialling, listeners, HTTP serving, UDP, configuration files, flags, signals and logging: input and output.
- Glob matching of exchanges and queues: `path.Match` is a parameter of the matcher.
- Lower-casing and `%v` formatting: parameters; the lemmas hold for any such functions.
- Timestamps, body previews, rates, percentages, and the CLI, JSON, StatsD and Mermaid texts.
- Shutdown of the HTTP servers and whether handlers ever return: only safety is claimed.
- Counters are unbounded integers; `int` and `int64` wrap-around of counts is not modelled. Durations are 64-bit.
- Characters are code points; Go compares and trims UTF-8 bytes, which gives the same order for valid text.
- Backoff.Manager.ConnectWithRetry: the rounds are a finite script; one that runs out is reported as still trying.
- Broadcast.WebRenderer.RenderTrace: the loop under the mutex without receives in between; module-level lemmas cover receives at any point.
- A nil context, logger or cleanup: replaced by a default on entry, with nothing to prove.
- Refinement.RunsAreScripts: one direction, because a script may contradict itself (a context done in one turn and not in the next) and is then no interleaving.
- Service.Service.Run: the script of the environment is finite, and running out of it is read as a cancelled context.
- Service.Service.RunSession: as for the run, a script that runs out is a cancelled context.
- Consumer.Forward: one goroutine on its own; `Refinement.ForwardersAreScripts` leads its interleavings back to it.
- Metrics.Prometheus.MetricsRows: gives the rows; their quoted text follows Go's `%q`, which depends on Unicode tables.
- Summary.Summary.Close: gives the totals and lists; duration, rate, percentages and column layout are left out.
- Blocking.AForwarderCanBeLeftWithABacklog: takes the delivery channel as a buffered channel that keeps its contents when closed; the AMQP client library is not part of this model, and one that discards undelivered messages would free a waiting forwarder.
- Consumer.Consumer.Consume: does not start the goroutine or return its output channel; `Consumer.Forward` is the goroutine, and module Session runs it beside the service.
- Shutdown.CancelledRunCanStop: a way to the stop, not a promise that every schedule takes it; `select` is free to go on picking deliveries.
