/** From a firehose delivery to a routing event. */
module Parser {
  import opened Text
  import opened Model

  /** A header value. `Other` carries the text its String method or `%v` would give. */
  datatype Value =
    | Nil
    | Str(text: string)
    | Bytes(bytes: string)
    | Strs(strs: seq<string>)
    | List(items: seq<Value>)
    | Table(fields: map<string, Value>)
    | Other(shown: string)

  type Headers = Option<map<string, Value>>

  /** How `fmt` prints lists and tables with `%v`. */
  type Formatter = Value -> string

  datatype Delivery = Delivery(routingKey: string, messageId: string, correlationId: string, headers: Headers)

  function StringFromAny(format: Formatter, value: Value): string {
    match value
    case Nil => ""
    case Str(text) => text
    case Bytes(bytes) => bytes
    case Other(shown) => shown
    case _ => format(value)
  }

  /** The first of the named headers that is not blank, trimmed. */
  function HeaderString(format: Formatter, headers: Headers, keys: seq<string>): (r: string)
    ensures Trimmed(r)
  {
    if headers.None? || keys == [] then ""
    else
      var first := if keys[0] in headers.value then TrimSpace(StringFromAny(format, headers.value[keys[0]])) else "";
      if first != "" then first else HeaderString(format, headers, keys[1..])
  }

  /** The header is missing or blank. */
  predicate BlankHeader(format: Formatter, headers: Headers, key: string) {
    headers.None? || key !in headers.value || AllSpace(StringFromAny(format, headers.value[key]))
  }

  /** The names are tried in order: the first that is not blank decides. */
  lemma {:induction false} HeaderStringTakesTheFirst(format: Formatter, headers: Headers, keys: seq<string>, i: nat)
    requires i < |keys| && !BlankHeader(format, headers, keys[i])
    requires forall j | 0 <= j < i :: BlankHeader(format, headers, keys[j])
    ensures HeaderString(format, headers, keys) == TrimSpace(StringFromAny(format, headers.value[keys[i]])) != ""
  {
    hide TrimSpace, StringFromAny;
    if i > 0 {
      assert forall j | 0 <= j < i - 1 :: keys[1..][j] == keys[j + 1];
      HeaderStringTakesTheFirst(format, headers, keys[1..], i - 1);
      assert BlankHeader(format, headers, keys[0]);
    }
  }

  lemma {:induction false} HeaderStringAllBlank(format: Formatter, headers: Headers, keys: seq<string>)
    requires forall k | k in keys :: BlankHeader(format, headers, k)
    ensures HeaderString(format, headers, keys) == ""
  {
    hide TrimSpace, StringFromAny;
    if keys != [] {
      assert BlankHeader(format, headers, keys[0]);
      HeaderStringAllBlank(format, headers, keys[1..]);
    }
  }

  function StringSliceFirst(format: Formatter, value: Value): (r: string)
    ensures Trimmed(r)
  {
    match value
    case Strs(strs) => FirstNonEmpty(strs)
    case List(items) => FirstNonEmpty(seq(|items|, i requires 0 <= i < |items| => StringFromAny(format, items[i])))
    case _ => ""
  }

  function ParseRoutingKey(format: Formatter, headers: Headers): (r: string)
    ensures Trimmed(r)
  {
    var named := HeaderString(format, headers, ["routing_key", "routing-key"]);
    if named != "" then named
    else if headers.Some? && "routing_keys" in headers.value then
      StringSliceFirst(format, headers.value["routing_keys"])
    else ""
  }

  function ParseEventTypeFromRoutingKey(routingKey: string): (r: string)
    ensures Trimmed(r)
  {
    TrimSpace(SplitDots(TrimSpace(routingKey))[0])
  }

  function SecondWord(key: string): (r: string)
    ensures Trimmed(r)
  {
    var parts := SplitDots(key);
    if |parts| < 2 then "" else TrimSpace(parts[1])
  }

  /** `remainder` without a trailing `.key`, or "" when that leaves nothing or there is no such tail. */
  function WithoutKey(remainder: string, key: string): (r: string)
    ensures Trimmed(r)
  {
    if key != "" && HasSuffix(remainder, "." + key) then TrimSpace(TrimSuffix(remainder, "." + key)) else ""
  }

  function ParseExchangeFromFirehoseRoutingKey(firehoseKey: string, eventType: string, parsedKey: string): (r: string)
    ensures Trimmed(r)
  {
    var firehoseKey, eventType, parsedKey := TrimSpace(firehoseKey), TrimSpace(eventType), TrimSpace(parsedKey);
    var prefix := eventType + ".";
    if firehoseKey == "" then ""
    else if eventType == "" || !(prefix <= firehoseKey) then SecondWord(firehoseKey)
    else
      var remainder := TrimSpace(TrimPrefix(firehoseKey, prefix));
      if remainder == "" then ""
      else if WithoutKey(remainder, parsedKey) != "" then WithoutKey(remainder, parsedKey)
      else if eventType == "publish" then remainder
      else TrimSpace(SplitDots(remainder)[0])
  }

  function ParseDeliverQueueFromFirehoseRoutingKey(firehoseKey: string, parsedKey: string): (r: string)
    ensures Trimmed(r)
  {
    var remainder := TrimSpace(TrimPrefix(TrimSpace(firehoseKey), "deliver."));
    var candidate := WithoutKey(remainder, TrimSpace(parsedKey));
    if remainder == "" then "" else if candidate != "" then candidate else remainder
  }

  // ----- destinations

  function Field(format: Formatter, fields: map<string, Value>, name: string): string {
    if name in fields then StringFromAny(format, fields[name]) else ""
  }

  /** One entry of a destination list; None for an entry of an unsupported type. */
  function ParseDestinationEntry(format: Formatter, value: Value): (r: Option<QueueDestination>)
    ensures r.Some? <==> value.Nil? || value.Table? || value.Str?
    ensures r.Some? ==> Trimmed(r.value.queueName) && Trimmed(r.value.bindingKey)
  {
    match value
    case Nil => Some(QueueDestination("", ""))
    case Table(fields) =>
      Some(QueueDestination(
             FirstNonEmpty([Field(format, fields, "queue_name"), Field(format, fields, "queue")]),
             FirstNonEmpty([Field(format, fields, "binding_key"), Field(format, fields, "binding-key")])))
    case Str(text) => Some(QueueDestination(TrimSpace(text), ""))
    case _ => None
  }

  /** The named destinations of a list, in order; None when some entry is unsupported. */
  function ParsedEntries(format: Formatter, items: seq<Value>): Option<seq<QueueDestination>> {
    if items == [] then Some([])
    else
      var n := |items| - 1;
      var init := ParsedEntries(format, items[..n]);
      var last := ParseDestinationEntry(format, items[n]);
      if init.None? || last.None? then None
      else if last.value.queueName == "" then init
      else Some(init.value + [last.value])
  }

  /** The non-empty strings of a list as queue names, trimmed after the test. */
  function QueuesOf(strs: seq<string>): seq<QueueDestination> {
    if strs == [] then []
    else
      var n := |strs| - 1;
      QueuesOf(strs[..n]) + if strs[n] == "" then [] else [QueueDestination(TrimSpace(strs[n]), "")]
  }

  function DestinationList(format: Formatter, value: Value): Option<seq<QueueDestination>> {
    match value
    case List(items) => ParsedEntries(format, items)
    case Strs(strs) => Some(QueuesOf(strs))
    case Str(text) => Some(if TrimSpace(text) == "" then [] else [QueueDestination(TrimSpace(text), "")])
    case _ => None
  }

  method ParseDestinationList(format: Formatter, value: Value) returns (r: Option<seq<QueueDestination>>)
    ensures r == DestinationList(format, value)
  {
    hide TrimSpace, FirstNonEmpty, ParseDestinationEntry;
    match value
    case List(items) =>
      var out := [];
      for i := 0 to |items|
        invariant ParsedEntries(format, items[..i]) == Some(out)
      {
        assert items[..i + 1][..i] == items[..i];
        var destination := ParseDestinationEntry(format, items[i]);
        if destination.None? {
          UnsupportedEntryFails(format, items, i);
          return None;
        }
        if destination.value.queueName != "" {
          out := out + [destination.value];
        }
      }
      assert items[..|items|] == items;
      return Some(out);
    case Strs(strs) =>
      var out := [];
      for i := 0 to |strs|
        invariant QueuesOf(strs[..i]) == out
      {
        assert strs[..i + 1][..i] == strs[..i];
        if strs[i] != "" {
          out := out + [QueueDestination(TrimSpace(strs[i]), "")];
        }
      }
      assert strs[..|strs|] == strs;
      return Some(out);
    case Str(text) =>
      return Some(if TrimSpace(text) == "" then [] else [QueueDestination(TrimSpace(text), "")]);
    case _ =>
      return None;
  }

  lemma {:induction false} UnsupportedEntryFails(format: Formatter, items: seq<Value>, i: nat)
    requires i < |items| && ParseDestinationEntry(format, items[i]).None?
    ensures ParsedEntries(format, items).None?
  {
    if i < |items| - 1 {
      UnsupportedEntryFails(format, items[..|items| - 1], i);
    }
  }

  lemma {:induction false} EntriesSucceed(format: Formatter, items: seq<Value>)
    requires forall v | v in items :: ParseDestinationEntry(format, v).Some?
    ensures ParsedEntries(format, items).Some?
  {
    if items != [] { EntriesSucceed(format, items[..|items| - 1]); }
  }

  function ParseDestinations(
    format: Formatter, headers: Headers, eventType: string, firehoseKey: string, parsedKey: string)
    : Option<seq<QueueDestination>>
  {
    var fromKey :=
      if eventType == "deliver" then ParseDeliverQueueFromFirehoseRoutingKey(firehoseKey, parsedKey) else "";
    var inferred := if fromKey != "" then [QueueDestination(fromKey, "")] else [];
    if headers.None? then Some(inferred)
    else if "destinations" in headers.value then DestinationList(format, headers.value["destinations"])
    else
      var queueName := HeaderString(format, headers, ["queue_name", "queue", "destination_queue"]);
      if queueName == "" then Some(inferred)
      else Some([QueueDestination(queueName, HeaderString(format, headers, ["binding_key", "binding-key"]))])
  }

  // ----- duplicates

  /** The text under which a destination is remembered. */
  function DedupeKey(d: QueueDestination): string {
    d.queueName + "|" + d.bindingKey
  }

  predicate IsFirst(ds: seq<QueueDestination>, i: nat)
    requires i < |ds|
  {
    forall j | 0 <= j < i :: DedupeKey(ds[j]) != DedupeKey(ds[i])
  }

  /** The elements that are the first with their key, in order. */
  function FirstOccurrences(ds: seq<QueueDestination>): seq<QueueDestination> {
    if ds == [] then []
    else
      var n := |ds| - 1;
      FirstOccurrences(ds[..n]) + if IsFirst(ds, n) then [ds[n]] else []
  }

  method DedupeDestinations(destinations: seq<QueueDestination>) returns (result: seq<QueueDestination>)
    ensures result == FirstOccurrences(destinations)
  {
    var seen := {};
    result := [];
    for i := 0 to |destinations|
      invariant result == FirstOccurrences(destinations[..i])
      invariant forall key :: key in seen <==> exists j :: 0 <= j < i && DedupeKey(destinations[j]) == key
    {
      assert destinations[..i + 1][..i] == destinations[..i];
      var key := DedupeKey(destinations[i]);
      assert key !in seen <==> IsFirst(destinations[..i + 1], i);
      if key !in seen {
        seen := seen + {key};
        result := result + [destinations[i]];
      }
    }
    assert destinations[..|destinations|] == destinations;
  }

  lemma IsFirstInPrefix(ds: seq<QueueDestination>, n: nat, i: nat)
    requires i < n <= |ds|
    ensures IsFirst(ds[..n], i) <==> IsFirst(ds, i)
  {
    assert forall j | 0 <= j <= i :: ds[..n][j] == ds[j];
  }

  /** Where the first occurrences stand. */
  function FirstPositions(ds: seq<QueueDestination>): (at: seq<nat>)
    ensures forall k | 0 <= k < |at| :: at[k] < |ds|
  {
    if ds == [] then []
    else
      var n := |ds| - 1;
      FirstPositions(ds[..n]) + if IsFirst(ds, n) then [n] else []
  }

  /** Deduplication keeps exactly the first occurrences, in their order. */
  lemma {:induction false} DedupeKeepsFirstOccurrences(ds: seq<QueueDestination>)
    ensures var at, r := FirstPositions(ds), FirstOccurrences(ds);
            && |at| == |r|
            && (forall k | 0 <= k < |at| :: r[k] == ds[at[k]])
            && (forall k, l | 0 <= k < l < |at| :: at[k] < at[l])
    ensures forall i | 0 <= i < |ds| :: i in FirstPositions(ds) <==> IsFirst(ds, i)
  {
    if ds != [] {
      var n := |ds| - 1;
      DedupeKeepsFirstOccurrences(ds[..n]);
      forall i | 0 <= i < n ensures IsFirst(ds[..n], i) <==> IsFirst(ds, i) {
        IsFirstInPrefix(ds, n, i);
      }
      var before := FirstPositions(ds[..n]);
      assert forall k | 0 <= k < |before| :: ds[..n][before[k]] == ds[before[k]];
      assert n !in before;
    }
  }

  predicate DistinctKeys(ds: seq<QueueDestination>) {
    forall k, l | 0 <= k < l < |ds| :: DedupeKey(ds[k]) != DedupeKey(ds[l])
  }

  lemma DedupedKeysAreDistinct(ds: seq<QueueDestination>)
    ensures DistinctKeys(FirstOccurrences(ds))
    ensures forall d | d in FirstOccurrences(ds) :: d in ds
  {
    DedupeKeepsFirstOccurrences(ds);
    var at, r := FirstPositions(ds), FirstOccurrences(ds);
    forall k, l | 0 <= k < l < |r| ensures DedupeKey(r[k]) != DedupeKey(r[l]) {
      assert at[l] in at && IsFirst(ds, at[l]);
    }
  }

  lemma EveryKeyIsKept(ds: seq<QueueDestination>, i: nat) returns (e: QueueDestination)
    requires i < |ds|
    ensures e in FirstOccurrences(ds) && DedupeKey(e) == DedupeKey(ds[i])
  {
    DedupeKeepsFirstOccurrences(ds);
    var f := FirstWithKey(ds, i);
    var k :| 0 <= k < |FirstPositions(ds)| && FirstPositions(ds)[k] == f;
    e := FirstOccurrences(ds)[k];
  }

  lemma {:induction false} FirstWithKey(ds: seq<QueueDestination>, i: nat) returns (f: nat)
    requires i < |ds|
    ensures f <= i && IsFirst(ds, f) && DedupeKey(ds[f]) == DedupeKey(ds[i])
  {
    if IsFirst(ds, i) {
      f := i;
    } else {
      var j :| 0 <= j < i && DedupeKey(ds[j]) == DedupeKey(ds[i]);
      f := FirstWithKey(ds, j);
    }
  }

  lemma {:induction false} DistinctKeysAreKept(ds: seq<QueueDestination>)
    requires DistinctKeys(ds)
    ensures FirstOccurrences(ds) == ds
  {
    if ds != [] {
      DistinctKeysAreKept(ds[..|ds| - 1]);
      assert ds == ds[..|ds| - 1] + [ds[|ds| - 1]];
    }
  }

  lemma DedupeIdempotent(ds: seq<QueueDestination>)
    ensures FirstOccurrences(FirstOccurrences(ds)) == FirstOccurrences(ds)
  {
    DedupedKeysAreDistinct(ds);
    DistinctKeysAreKept(FirstOccurrences(ds));
  }

  predicate KeysIdentify(ds: seq<QueueDestination>) {
    forall i, j | 0 <= i < |ds| && 0 <= j < |ds| && DedupeKey(ds[i]) == DedupeKey(ds[j]) :: ds[i] == ds[j]
  }

  /** Deduplication loses no destination exactly when no two different ones share a key. */
  lemma DedupePreservesTheSetIff(ds: seq<QueueDestination>)
    ensures (forall d | d in ds :: d in FirstOccurrences(ds)) <==> KeysIdentify(ds)
  {
    var r := FirstOccurrences(ds);
    DedupedKeysAreDistinct(ds);
    if KeysIdentify(ds) {
      forall d | d in ds ensures d in r {
        var i :| 0 <= i < |ds| && ds[i] == d;
        var e := EveryKeyIsKept(ds, i);
        assert e in ds;
      }
    } else {
      var i, j :| 0 <= i < |ds| && 0 <= j < |ds| && DedupeKey(ds[i]) == DedupeKey(ds[j]) && ds[i] != ds[j];
      assert ds[i] in ds && ds[j] in ds;
      assert !(ds[i] in r && ds[j] in r);
    }
  }

  /** Without a bar in the queue names, sharing a key is being equal. */
  lemma {:induction false} BarlessKeysIdentify(d: QueueDestination, e: QueueDestination)
    requires '|' !in d.queueName && '|' !in e.queueName
    ensures DedupeKey(d) == DedupeKey(e) <==> d == e
  {
    if DedupeKey(d) == DedupeKey(e) {
      var m, n := |d.queueName|, |e.queueName|;
      assert DedupeKey(d)[m] == '|' && DedupeKey(e)[n] == '|';
      assert forall i | 0 <= i < n :: DedupeKey(e)[i] == e.queueName[i];
      assert forall i | 0 <= i < m :: DedupeKey(d)[i] == d.queueName[i];
      assert m == n;
      assert d.queueName == DedupeKey(d)[..m] && e.queueName == DedupeKey(e)[..n];
      assert d.bindingKey == DedupeKey(d)[m + 1..] && e.bindingKey == DedupeKey(e)[n + 1..];
    }
  }

  /** Two different destinations, one of which deduplication drops. */
  lemma BarCanLoseADestination()
    ensures var ds := [QueueDestination("a|b", "c"), QueueDestination("a", "b|c")];
            FirstOccurrences(ds) == [ds[0]] && ds[0] != ds[1]
  {
    var ds := [QueueDestination("a|b", "c"), QueueDestination("a", "b|c")];
    assert ds[..1] == [ds[0]] && ds[..1][..0] == [];
    assert DedupeKey(ds[0]) == DedupeKey(ds[1]);
    assert IsFirst(ds[..1], 0);
    assert FirstOccurrences(ds[..1]) == [ds[0]];
  }

  // ----- deliveries

  const EVENT_HEADERS := ["event_type", "event-type", "event"]
  const EXCHANGE_HEADERS := ["exchange_name", "exchange", "x-exchange", "exchange-name"]
  const QUEUE_HEADERS := ["queue_name", "queue", "destination_queue"]

  function EventTypeOf(format: Formatter, d: Delivery): (r: string)
    ensures Trimmed(r)
  {
    FirstNonEmpty([HeaderString(format, d.headers, EVENT_HEADERS), ParseEventTypeFromRoutingKey(d.routingKey)])
  }

  function ExchangeOf(format: Formatter, d: Delivery): (r: string)
    ensures Trimmed(r)
  {
    FirstNonEmpty([
      HeaderString(format, d.headers, EXCHANGE_HEADERS),
      ParseExchangeFromFirehoseRoutingKey(d.routingKey, EventTypeOf(format, d), ParseRoutingKey(format, d.headers))])
  }

  function RoutingKeyOf(format: Formatter, d: Delivery): (r: string)
    ensures Trimmed(r)
  {
    FirstNonEmpty([ParseRoutingKey(format, d.headers), d.routingKey])
  }

  function IdOf(format: Formatter, headers: Headers, property: string, names: seq<string>): string {
    FirstNonEmpty([property, HeaderString(format, headers, names)])
  }

  function DestinationsOf(format: Formatter, d: Delivery): Option<seq<QueueDestination>> {
    ParseDestinations(format, d.headers, EventTypeOf(format, d), d.routingKey, ParseRoutingKey(format, d.headers))
  }

  /** None stands for the parse error. */
  function ParseDelivery(format: Formatter, d: Delivery): Option<RoutingEvent> {
    var destinations := DestinationsOf(format, d);
    if destinations.None? then None
    else Some(RoutingEvent(
      if ExchangeOf(format, d) == "" then "(unknown-exchange)" else ExchangeOf(format, d),
      HeaderString(format, d.headers, ["exchange_type", "exchange-type", "x-exchange-type"]),
      RoutingKeyOf(format, d),
      IdOf(format, d.headers, d.messageId, ["message_id", "message-id"]),
      IdOf(format, d.headers, d.correlationId, ["correlation_id", "correlation-id"]),
      EventTypeOf(format, d),
      FirstOccurrences(destinations.value)))
  }

  predicate SupportedEntry(v: Value) {
    v.Nil? || v.Table? || v.Str?
  }

  predicate Supported(v: Value) {
    v.Str? || v.Strs? || (v.List? && forall i | 0 <= i < |v.items| :: SupportedEntry(v.items[i]))
  }

  lemma DestinationListFailsIff(format: Formatter, v: Value)
    ensures DestinationList(format, v).None? <==> !Supported(v)
  {
    if v.List? {
      if Supported(v) {
        EntriesSucceed(format, v.items);
      } else {
        var i :| 0 <= i < |v.items| && !SupportedEntry(v.items[i]);
        UnsupportedEntryFails(format, v.items, i);
      }
    }
  }

  /** Parsing fails exactly on a `destinations` header that is not a string, a list of strings,
      or a list of strings, tables and nils. */
  lemma ParseFailsIff(format: Formatter, d: Delivery)
    ensures ParseDelivery(format, d).None?
       <==> d.headers.Some? && "destinations" in d.headers.value && !Supported(d.headers.value["destinations"])
  {
    if d.headers.Some? && "destinations" in d.headers.value {
      DestinationListFailsIff(format, d.headers.value["destinations"]);
    }
  }

  predicate CleanDestination(d: QueueDestination) {
    Trimmed(d.queueName) && Trimmed(d.bindingKey)
  }

  predicate CleanDestinations(ds: seq<QueueDestination>) {
    forall d | d in ds :: CleanDestination(d)
  }

  /** Names as they leave the parser: trimmed, and the exchange never empty. */
  predicate CleanNames(event: RoutingEvent) {
    && Trimmed(event.exchangeName) && event.exchangeName != ""
    && Trimmed(event.routingKey)
    && CleanDestinations(event.destinations)
  }

  lemma {:induction false} EntriesAreClean(format: Formatter, items: seq<Value>)
    ensures ParsedEntries(format, items).Some? ==> CleanDestinations(ParsedEntries(format, items).value)
  {
    if items != [] { EntriesAreClean(format, items[..|items| - 1]); }
  }

  lemma {:induction false} QueuesAreClean(strs: seq<string>)
    ensures CleanDestinations(QueuesOf(strs))
  {
    if strs != [] { QueuesAreClean(strs[..|strs| - 1]); }
  }

  lemma DestinationListIsClean(format: Formatter, value: Value)
    ensures DestinationList(format, value).Some? ==> CleanDestinations(DestinationList(format, value).value)
  {
    match value
    case List(items) => EntriesAreClean(format, items);
    case Strs(strs) => QueuesAreClean(strs);
    case _ =>
  }

  lemma DestinationsAreClean(
    format: Formatter, headers: Headers, eventType: string, firehoseKey: string, parsedKey: string)
    ensures var r := ParseDestinations(format, headers, eventType, firehoseKey, parsedKey);
            r.Some? ==> CleanDestinations(r.value)
  {
    if headers.Some? && "destinations" in headers.value {
      DestinationListIsClean(format, headers.value["destinations"]);
    }
  }

  lemma ParsedNamesAreClean(format: Formatter, d: Delivery)
    requires ParseDelivery(format, d).Some?
    ensures CleanNames(ParseDelivery(format, d).value)
  {
    hide ParseDestinations, HeaderString, ExchangeOf, RoutingKeyOf, EventTypeOf, IdOf, FirstOccurrences;
    DestinationsAreClean(format, d.headers, EventTypeOf(format, d), d.routingKey, ParseRoutingKey(format, d.headers));
    DedupedKeysAreDistinct(DestinationsOf(format, d).value);
    assert Trimmed("(unknown-exchange)");
  }

  /** A header that names a thing decides it, whatever the firehose key says. */
  lemma HeadersDecide(format: Formatter, d: Delivery)
    requires ParseDelivery(format, d).Some?
    ensures var e := ParseDelivery(format, d).value;
            var h := d.headers;
            && (HeaderString(format, h, EVENT_HEADERS) != "" ==> e.eventType == HeaderString(format, h, EVENT_HEADERS))
            && (HeaderString(format, h, EXCHANGE_HEADERS) != "" ==>
                  e.exchangeName == HeaderString(format, h, EXCHANGE_HEADERS))
            && (ParseRoutingKey(format, h) != "" ==> e.routingKey == ParseRoutingKey(format, h))
            && (HeaderString(format, h, QUEUE_HEADERS) != "" && "destinations" !in h.value ==>
                  e.destinations
                  == [QueueDestination(HeaderString(format, h, QUEUE_HEADERS),
                                       HeaderString(format, h, ["binding_key", "binding-key"]))])
  {
    hide HeaderString, ParseRoutingKey, TrimSpace, IdOf, FirstNonEmpty, FirstOccurrences;
    hide ParseEventTypeFromRoutingKey, ParseExchangeFromFirehoseRoutingKey, ParseDeliverQueueFromFirehoseRoutingKey;
    FirstOfTwo(HeaderString(format, d.headers, EVENT_HEADERS), ParseEventTypeFromRoutingKey(d.routingKey));
    var key := ParseRoutingKey(format, d.headers);
    FirstOfTwo(HeaderString(format, d.headers, EXCHANGE_HEADERS),
               ParseExchangeFromFirehoseRoutingKey(d.routingKey, EventTypeOf(format, d), key));
    FirstKnown(key, d.routingKey);
    assert HeaderString(format, d.headers, QUEUE_HEADERS) != "" ==> d.headers.Some? by { NoHeaders(format, d.headers); }
    DistinctKeysAreKept([QueueDestination(HeaderString(format, d.headers, QUEUE_HEADERS),
                                          HeaderString(format, d.headers, ["binding_key", "binding-key"]))]);
  }

  lemma NoHeaders(format: Formatter, headers: Headers)
    ensures headers.None? ==> HeaderString(format, headers, QUEUE_HEADERS) == ""
  {
  }

  lemma FirstKnown(a: string, b: string)
    requires Trimmed(a)
    ensures a != "" ==> FirstNonEmpty([a, b]) == a
  {
  }

  // ----- the firehose key, read back

  /** No header names the event type, the exchange, a queue or the destinations. */
  predicate OnlyTheKeySpeaks(format: Formatter, headers: Headers) {
    && HeaderString(format, headers, EVENT_HEADERS) == ""
    && HeaderString(format, headers, EXCHANGE_HEADERS) == ""
    && HeaderString(format, headers, QUEUE_HEADERS) == ""
    && (headers.Some? ==> "destinations" !in headers.value)
  }

  /** The last words of `name` are the routing key, with something before them. */
  predicate EndsInKey(name: string, key: string) {
    key != "" && HasSuffix(name, "." + key) && |name| > |key| + 1
  }

  lemma FirstOfTwo(a: string, b: string)
    requires Trimmed(a) && Trimmed(b)
    ensures FirstNonEmpty([a, b]) == if a != "" then a else b
  {
    assert [a, b][1..] == [b] && [b][1..] == [];
    assert FirstNonEmpty([b]) == b;
  }

  /** The event type is the word before the first dot. */
  lemma EventTypeOfKey(eventType: string, rest: string)
    requires eventType != "" && Trimmed(eventType) && '.' !in eventType
    requires rest != "" && Trimmed(rest)
    ensures TrimSpace(eventType + "." + rest) == eventType + "." + rest
    ensures ParseEventTypeFromRoutingKey(eventType + "." + rest) == eventType
    ensures TrimPrefix(eventType + "." + rest, eventType + ".") == rest
  {
    SplitAtDot(eventType, rest);
    SplitDotless(eventType);
  }

  /** Stripping the key changes a trimmed name exactly when the name ends in it. */
  lemma WithoutKeyOfName(name: string, key: string)
    requires name != "" && Trimmed(name) && Trimmed(key)
    ensures WithoutKey(name, key) != "" <==> EndsInKey(name, key)
    ensures |WithoutKey(name, key)| < |name|
  {
    if key != "" && HasSuffix(name, "." + key) {
      var head := TrimSuffix(name, "." + key);
      assert name == head + ("." + key);
      assert head != "" ==> head[0] == name[0];
      assert head != "" ==> !AllSpace(head);
    }
  }

  lemma WithoutKeyOfSuffixed(name: string, key: string)
    requires name != "" && Trimmed(name) && key != ""
    ensures WithoutKey(name + "." + key, key) == name
  {
    assert name + "." + key == name + ("." + key);
    assert (name + ("." + key))[|name|..] == "." + key;
  }

  /** The name left when the routing key is taken off the end, if that leaves one. */
  function Stripped(rest: string, key: string): string {
    if WithoutKey(rest, key) != "" then WithoutKey(rest, key) else rest
  }

  lemma NameFromKey(rest: string, key: string)
    requires rest != "" && Trimmed(rest) && Trimmed(key)
    ensures ParseExchangeFromFirehoseRoutingKey("publish." + rest, "publish", key) == Stripped(rest, key)
    ensures ParseDeliverQueueFromFirehoseRoutingKey("deliver." + rest, key) == Stripped(rest, key)
  {
    hide TrimSpace, WithoutKey, SplitDots, ParseEventTypeFromRoutingKey;
    EventTypeOfKey("publish", rest);
    EventTypeOfKey("deliver", rest);
    assert "publish" + "." == "publish." && "deliver" + "." == "deliver.";
  }

  lemma EventTypeFromKey(format: Formatter, d: Delivery, eventType: string, rest: string)
    requires HeaderString(format, d.headers, EVENT_HEADERS) == ""
    requires eventType != "" && Trimmed(eventType) && '.' !in eventType
    requires rest != "" && Trimmed(rest) && d.routingKey == eventType + "." + rest
    ensures EventTypeOf(format, d) == eventType
    ensures RoutingKeyOf(format, d)
         == if ParseRoutingKey(format, d.headers) != "" then ParseRoutingKey(format, d.headers) else d.routingKey
  {
    hide HeaderString, SplitDots, ParseRoutingKey, TrimSpace;
    EventTypeOfKey(eventType, rest);
    FirstOfTwo("", eventType);
    FirstOfTwo(ParseRoutingKey(format, d.headers), d.routingKey);
  }

  lemma PublishKeyAlone(format: Formatter, d: Delivery, rest: string)
    requires OnlyTheKeySpeaks(format, d.headers)
    requires rest != "" && Trimmed(rest) && d.routingKey == "publish." + rest
    ensures var rk := ParseRoutingKey(format, d.headers);
            var e := ParseDelivery(format, d);
            && e.Some? && e.value.eventType == "publish" && e.value.destinations == []
            && e.value.exchangeName == Stripped(rest, rk)
            && e.value.routingKey == (if rk != "" then rk else d.routingKey)
  {
    hide HeaderString, RoutingKeyOf, EventTypeOf, IdOf, ParseRoutingKey, ParseExchangeFromFirehoseRoutingKey,
      ParseDeliverQueueFromFirehoseRoutingKey, FirstNonEmpty, TrimSpace;
    assert d.routingKey == "publish" + "." + rest;
    EventTypeFromKey(format, d, "publish", rest);
    NameFromKey(rest, ParseRoutingKey(format, d.headers));
    FirstOfTwo("", Stripped(rest, ParseRoutingKey(format, d.headers)));
    DistinctKeysAreKept([]);
  }

  lemma DeliverKeyAlone(format: Formatter, d: Delivery, rest: string)
    requires OnlyTheKeySpeaks(format, d.headers)
    requires rest != "" && Trimmed(rest) && d.routingKey == "deliver." + rest
    ensures var rk := ParseRoutingKey(format, d.headers);
            var e := ParseDelivery(format, d);
            && e.Some? && e.value.eventType == "deliver"
            && e.value.destinations == [QueueDestination(Stripped(rest, rk), "")]
            && e.value.routingKey == (if rk != "" then rk else d.routingKey)
  {
    hide HeaderString, RoutingKeyOf, EventTypeOf, IdOf, ParseRoutingKey, ParseExchangeFromFirehoseRoutingKey,
      ParseDeliverQueueFromFirehoseRoutingKey, FirstNonEmpty, TrimSpace;
    assert d.routingKey == "deliver" + "." + rest;
    EventTypeFromKey(format, d, "deliver", rest);
    NameFromKey(rest, ParseRoutingKey(format, d.headers));
    DistinctKeysAreKept([QueueDestination(Stripped(rest, ParseRoutingKey(format, d.headers)), "")]);
  }

  /** `publish.<exchange>.<key>` gives back event type, exchange and key, dots included. */
  lemma PublishKeyInverts(format: Formatter, d: Delivery, exchange: string)
    requires OnlyTheKeySpeaks(format, d.headers) && ParseRoutingKey(format, d.headers) != ""
    requires exchange != "" && Trimmed(exchange)
    requires d.routingKey == "publish." + exchange + "." + ParseRoutingKey(format, d.headers)
    ensures var e := ParseDelivery(format, d);
            && e.Some? && e.value.eventType == "publish" && e.value.exchangeName == exchange
            && e.value.routingKey == ParseRoutingKey(format, d.headers) && e.value.destinations == []
  {
    hide ParseDelivery, ParseRoutingKey, WithoutKey, OnlyTheKeySpeaks;
    var rk := ParseRoutingKey(format, d.headers);
    var rest := exchange + "." + rk;
    assert rest[0] == exchange[0] && rest[|rest| - 1] == rk[|rk| - 1];
    assert d.routingKey == "publish." + rest;
    PublishKeyAlone(format, d, rest);
    WithoutKeyOfSuffixed(exchange, rk);
  }

  /** `deliver.<queue>.<key>` gives back the queue, dots included. */
  lemma DeliverKeyInverts(format: Formatter, d: Delivery, queue: string)
    requires OnlyTheKeySpeaks(format, d.headers) && ParseRoutingKey(format, d.headers) != ""
    requires queue != "" && Trimmed(queue)
    requires d.routingKey == "deliver." + queue + "." + ParseRoutingKey(format, d.headers)
    ensures var e := ParseDelivery(format, d);
            && e.Some? && e.value.eventType == "deliver"
            && e.value.destinations == [QueueDestination(queue, "")]
            && e.value.routingKey == ParseRoutingKey(format, d.headers)
  {
    hide ParseDelivery, ParseRoutingKey, WithoutKey, OnlyTheKeySpeaks;
    var rk := ParseRoutingKey(format, d.headers);
    var rest := queue + "." + rk;
    assert rest[0] == queue[0] && rest[|rest| - 1] == rk[|rk| - 1];
    assert d.routingKey == "deliver." + rest;
    DeliverKeyAlone(format, d, rest);
    WithoutKeyOfSuffixed(queue, rk);
  }

  /** The bare `publish.<exchange>` gives back the exchange exactly when its name does not end in the key. */
  lemma BarePublishKeyInvertsIff(format: Formatter, d: Delivery, exchange: string)
    requires OnlyTheKeySpeaks(format, d.headers)
    requires exchange != "" && Trimmed(exchange) && d.routingKey == "publish." + exchange
    ensures var e := ParseDelivery(format, d);
            && e.Some? && e.value.eventType == "publish" && e.value.destinations == []
            && (e.value.exchangeName == exchange <==> !EndsInKey(exchange, ParseRoutingKey(format, d.headers)))
  {
    PublishKeyAlone(format, d, exchange);
    WithoutKeyOfName(exchange, ParseRoutingKey(format, d.headers));
  }

  /** The bare `deliver.<queue>` gives back the queue exactly when its name does not end in the key. */
  lemma BareDeliverKeyInvertsIff(format: Formatter, d: Delivery, queue: string)
    requires OnlyTheKeySpeaks(format, d.headers)
    requires queue != "" && Trimmed(queue) && d.routingKey == "deliver." + queue
    ensures var e := ParseDelivery(format, d);
            && e.Some? && e.value.eventType == "deliver"
            && (e.value.destinations == [QueueDestination(queue, "")]
                <==> !EndsInKey(queue, ParseRoutingKey(format, d.headers)))
  {
    DeliverKeyAlone(format, d, queue);
    WithoutKeyOfName(queue, ParseRoutingKey(format, d.headers));
  }

  /** A firehose delivery of the given key whose only header is the routing key "created". */
  function CreatedDelivery(firehoseKey: string): Delivery {
    Delivery(firehoseKey, "", "", Some(map["routing_key" := Str("created")]))
  }

  lemma CreatedHeaderAlone(format: Formatter)
    ensures OnlyTheKeySpeaks(format, CreatedDelivery("").headers)
    ensures ParseRoutingKey(format, CreatedDelivery("").headers) == "created"
  {
    hide TrimSpace, HeaderString, StringSliceFirst;
    var h := CreatedDelivery("").headers;
    assert forall key :: key != "routing_key" ==> BlankHeader(format, h, key);
    HeaderStringAllBlank(format, h, EVENT_HEADERS);
    HeaderStringAllBlank(format, h, EXCHANGE_HEADERS);
    HeaderStringAllBlank(format, h, QUEUE_HEADERS);
    assert Trimmed("created") && !AllSpace("created") by { assert !IsSpace("created"[0]); }
    HeaderStringTakesTheFirst(format, h, ["routing_key", "routing-key"], 0);
  }

  /** Bare keys of an exchange and of a queue named "orders.created", both read as "orders". */
  lemma BareKeysCanLoseWords(format: Formatter)
    ensures var p := ParseDelivery(format, CreatedDelivery("publish.orders.created"));
            p.Some? && p.value.eventType == "publish" && p.value.exchangeName == "orders"
    ensures var d := ParseDelivery(format, CreatedDelivery("deliver.orders.created"));
            d.Some? && d.value.eventType == "deliver" && d.value.destinations == [QueueDestination("orders", "")]
  {
    hide ParseDelivery, ParseRoutingKey, OnlyTheKeySpeaks;
    CreatedHeaderAlone(format);
    assert Trimmed("orders") by { assert !IsSpace('o') && !IsSpace('s'); }
    assert "publish." + "orders" + "." + "created" == "publish.orders.created";
    assert "deliver." + "orders" + "." + "created" == "deliver.orders.created";
    PublishKeyInverts(format, CreatedDelivery("publish.orders.created"), "orders");
    DeliverKeyInverts(format, CreatedDelivery("deliver.orders.created"), "orders");
  }
}
