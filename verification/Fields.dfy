/** Where each field of a parsed event comes from: the headers by name, then the firehose key. */
module Fields {
  import opened Text
  import opened Model
  import opened Parser

  // ----- headers by name

  /** How a header value reads. */
  lemma ValueTexts(format: Formatter, text: string, v: Value)
    ensures StringFromAny(format, Nil) == "" && StringFromAny(format, Str(text)) == text
    ensures StringFromAny(format, Bytes(text)) == text && StringFromAny(format, Other(text)) == text
    ensures v.Strs? || v.List? || v.Table? ==> StringFromAny(format, v) == format(v)
  {
  }

  /** Of the named headers, `key` is the first that is not blank. */
  ghost predicate Speaks(format: Formatter, h: Headers, names: seq<string>, key: string) {
    exists i | 0 <= i < |names| :: SpeaksAt(format, h, names, i) && names[i] == key
  }

  predicate SpeaksAt(format: Formatter, h: Headers, names: seq<string>, i: nat)
    requires i < |names|
  {
    !BlankHeader(format, h, names[i]) && forall j | 0 <= j < i :: BlankHeader(format, h, names[j])
  }

  /** None of the named headers is there with a text. */
  predicate Silent(format: Formatter, h: Headers, names: seq<string>) {
    forall n | n in names :: BlankHeader(format, h, n)
  }

  /** The text of a header, trimmed. */
  function TextOf(format: Formatter, h: Headers, key: string): string {
    if h.Some? && key in h.value then TrimSpace(StringFromAny(format, h.value[key])) else ""
  }

  lemma SpeakingHeader(format: Formatter, h: Headers, names: seq<string>, key: string)
    ensures Speaks(format, h, names, key) ==>
              HeaderString(format, h, names) == TextOf(format, h, key) && TextOf(format, h, key) != ""
    ensures Silent(format, h, names) ==> HeaderString(format, h, names) == ""
  {
    hide HeaderString;
    if Speaks(format, h, names, key) {
      var i :| 0 <= i < |names| && SpeaksAt(format, h, names, i) && names[i] == key;
      HeaderStringTakesTheFirst(format, h, names, i);
    }
    if Silent(format, h, names) { HeaderStringAllBlank(format, h, names); }
  }

  // ----- names and types

  /** Event type, exchange and exchange type from their headers, the first with a text deciding. */
  lemma NamesFromHeaders(format: Formatter, d: Delivery, key: string)
    requires ParseDelivery(format, d).Some?
    ensures var e, text := ParseDelivery(format, d).value, TextOf(format, d.headers, key);
            && (Speaks(format, d.headers, ["event_type", "event-type", "event"], key) ==> e.eventType == text)
            && (Speaks(format, d.headers, ["exchange_name", "exchange", "x-exchange", "exchange-name"], key) ==>
                  e.exchangeName == text)
            && (Speaks(format, d.headers, ["exchange_type", "exchange-type", "x-exchange-type"], key) ==>
                  e.exchangeType == text)
            && (Silent(format, d.headers, ["exchange_type", "exchange-type", "x-exchange-type"]) ==>
                  e.exchangeType == "")
  {
    hide HeaderString, Speaks, Silent, TextOf, ParseDelivery;
    SpeakingHeader(format, d.headers, EVENT_HEADERS, key);
    SpeakingHeader(format, d.headers, EXCHANGE_HEADERS, key);
    SpeakingHeader(format, d.headers, ["exchange_type", "exchange-type", "x-exchange-type"], key);
    HeadersDecide(format, d);
    ExchangeTypeIsItsHeader(format, d);
  }

  lemma ExchangeTypeIsItsHeader(format: Formatter, d: Delivery)
    requires ParseDelivery(format, d).Some?
    ensures ParseDelivery(format, d).value.exchangeType
         == HeaderString(format, d.headers, ["exchange_type", "exchange-type", "x-exchange-type"])
  {
    hide HeaderString, DestinationsOf, ExchangeOf, EventTypeOf, RoutingKeyOf, IdOf, FirstOccurrences;
  }

  /** Where the delivery has no text of its own, the ids come from their headers. */
  lemma IdsFromDeliveryOrHeaders(format: Formatter, d: Delivery, key: string)
    requires ParseDelivery(format, d).Some?
    ensures var e, text := ParseDelivery(format, d).value, TextOf(format, d.headers, key);
            && (!AllSpace(d.messageId) ==> e.messageId == TrimSpace(d.messageId))
            && (AllSpace(d.messageId) && Speaks(format, d.headers, ["message_id", "message-id"], key) ==>
                  e.messageId == text)
            && (AllSpace(d.messageId) && Silent(format, d.headers, ["message_id", "message-id"]) ==>
                  e.messageId == "")
            && (!AllSpace(d.correlationId) ==> e.correlationId == TrimSpace(d.correlationId))
            && (AllSpace(d.correlationId) && Speaks(format, d.headers, ["correlation_id", "correlation-id"], key) ==>
                  e.correlationId == text)
            && (AllSpace(d.correlationId) && Silent(format, d.headers, ["correlation_id", "correlation-id"]) ==>
                  e.correlationId == "")
  {
    hide HeaderString, Speaks, Silent, TextOf, DestinationsOf, ExchangeOf, EventTypeOf, RoutingKeyOf, FirstOccurrences;
    hide FirstNonEmpty, TrimSpace;
    SpeakingHeader(format, d.headers, ["message_id", "message-id"], key);
    SpeakingHeader(format, d.headers, ["correlation_id", "correlation-id"], key);
    FirstOfProperty(d.messageId, HeaderString(format, d.headers, ["message_id", "message-id"]));
    FirstOfProperty(d.correlationId, HeaderString(format, d.headers, ["correlation_id", "correlation-id"]));
  }

  lemma FirstOfProperty(property: string, header: string)
    requires Trimmed(header)
    ensures FirstNonEmpty([property, header]) == if AllSpace(property) then header else TrimSpace(property)
  {
    hide AllSpace;
    assert [property, header][1..] == [header] && [header][1..] == [];
    assert FirstNonEmpty([header]) == header;
  }

  // ----- the routing key

  /** `k` is the first text, and not a blank one, of a list of values or of strings. */
  ghost predicate FirstText(format: Formatter, v: Value, k: string) {
    || (v.Strs? && exists i | 0 <= i < |v.strs| ::
          v.strs[i] == k && !AllSpace(k) && forall j | 0 <= j < i :: AllSpace(v.strs[j]))
    || (v.List? && exists i | 0 <= i < |v.items| ::
          StringFromAny(format, v.items[i]) == k && !AllSpace(k)
          && forall j | 0 <= j < i :: AllSpace(StringFromAny(format, v.items[j])))
  }

  /** The headers name the routing key `rk`: on its own, or as the first text of `routing_keys`. */
  ghost predicate NamesKey(format: Formatter, h: Headers, rk: string) {
    || (exists key :: Speaks(format, h, ["routing_key", "routing-key"], key) && rk == TextOf(format, h, key))
    || (&& Silent(format, h, ["routing_key", "routing-key"])
        && h.Some? && "routing_keys" in h.value
        && exists k :: FirstText(format, h.value["routing_keys"], k) && rk == TrimSpace(k))
  }

  lemma FirstTextIsTaken(format: Formatter, v: Value, k: string)
    requires FirstText(format, v, k)
    ensures StringSliceFirst(format, v) == TrimSpace(k) && StringSliceFirst(format, v) != ""
  {
    hide TrimSpace, FirstNonEmpty, AllSpace, StringFromAny;
    if v.Strs? {
      var i :| 0 <= i < |v.strs| && v.strs[i] == k && !AllSpace(k) && forall j | 0 <= j < i :: AllSpace(v.strs[j]);
      FirstNonEmptyIsTheFirst(v.strs, i);
    } else {
      var i :| 0 <= i < |v.items| && StringFromAny(format, v.items[i]) == k && !AllSpace(k)
               && forall j | 0 <= j < i :: AllSpace(StringFromAny(format, v.items[j]));
      var texts := seq(|v.items|, j requires 0 <= j < |v.items| => StringFromAny(format, v.items[j]));
      FirstNonEmptyIsTheFirst(texts, i);
    }
  }

  lemma NamedKeyIsParsed(format: Formatter, h: Headers, rk: string)
    requires NamesKey(format, h, rk)
    ensures ParseRoutingKey(format, h) == rk && rk != "" && Trimmed(rk)
  {
    hide HeaderString, Speaks, Silent, TextOf, StringSliceFirst, TrimSpace, FirstText;
    if Silent(format, h, ["routing_key", "routing-key"]) {
      SpeakingHeader(format, h, ["routing_key", "routing-key"], "");
    }
    if key :| Speaks(format, h, ["routing_key", "routing-key"], key) && rk == TextOf(format, h, key) {
      SpeakingHeader(format, h, ["routing_key", "routing-key"], key);
    } else {
      var k :| FirstText(format, h.value["routing_keys"], k) && rk == TrimSpace(k);
      FirstTextIsTaken(format, h.value["routing_keys"], k);
    }
  }

  /** The event's routing key is the one the headers name, else the trimmed firehose key. */
  lemma RoutingKeyFromHeaders(format: Formatter, d: Delivery, rk: string)
    requires ParseDelivery(format, d).Some?
    ensures NamesKey(format, d.headers, rk) ==> ParseDelivery(format, d).value.routingKey == rk
    ensures NoKeyNamed(format, d.headers) ==> ParseDelivery(format, d).value.routingKey == TrimSpace(d.routingKey)
  {
    hide HeaderString, NamesKey, NoKeyNamed, DestinationsOf, ExchangeOf, EventTypeOf, IdOf, FirstOccurrences;
    hide ParseRoutingKey, FirstNonEmpty, TrimSpace, AllSpace;
    if NamesKey(format, d.headers, rk) {
      NamedKeyIsParsed(format, d.headers, rk);
      FirstKnown(rk, d.routingKey);
    }
    if NoKeyNamed(format, d.headers) {
      UnnamedKeyIsEmpty(format, d.headers);
      OnlyTheSecond(d.routingKey);
    }
  }

  /** No routing key in the headers: not on its own, and no list with a text in it. */
  ghost predicate NoKeyNamed(format: Formatter, h: Headers) {
    && Silent(format, h, ["routing_key", "routing-key"])
    && (h.Some? && "routing_keys" in h.value ==>
          var v := h.value["routing_keys"];
          && (v.Strs? ==> forall i | 0 <= i < |v.strs| :: AllSpace(v.strs[i]))
          && (v.List? ==> forall i | 0 <= i < |v.items| :: AllSpace(StringFromAny(format, v.items[i]))))
  }

  lemma UnnamedKeyIsEmpty(format: Formatter, h: Headers)
    requires NoKeyNamed(format, h)
    ensures ParseRoutingKey(format, h) == ""
  {
    hide HeaderString, Silent, FirstNonEmpty, StringFromAny, AllSpace;
    SpeakingHeader(format, h, ["routing_key", "routing-key"], "");
    if h.Some? && "routing_keys" in h.value {
      match h.value["routing_keys"]
      case Strs(strs) => FirstNonEmptyIsTheFirst(strs, |strs|);
      case List(items) =>
        FirstNonEmptyIsTheFirst(
          seq(|items|, i requires 0 <= i < |items| => StringFromAny(format, items[i])), |items|);
      case _ =>
    }
  }

  lemma OnlyTheSecond(b: string)
    ensures FirstNonEmpty(["", b]) == TrimSpace(b)
  {
    hide TrimSpace;
    assert TrimSpace("") == "";
    FirstOfFields("", b);
  }

  lemma FirstOfFields(a: string, b: string)
    ensures FirstNonEmpty([a, b]) == if TrimSpace(a) != "" then TrimSpace(a) else TrimSpace(b)
  {
    hide TrimSpace;
    assert [a, b][1..] == [b] && [b][1..] == [];
    assert FirstNonEmpty([b]) == TrimSpace(b);
  }

  // ----- the firehose key

  /** Nothing but the firehose key tells the event type, the exchange or a destination. */
  ghost predicate KeyAlone(format: Formatter, h: Headers) {
    && Silent(format, h, ["event_type", "event-type", "event"])
    && Silent(format, h, ["exchange_name", "exchange", "x-exchange", "exchange-name"])
    && Silent(format, h, ["queue_name", "queue", "destination_queue"])
    && (h.Some? ==> "destinations" !in h.value)
  }

  lemma KeyAloneSpeaks(format: Formatter, h: Headers)
    requires KeyAlone(format, h)
    ensures OnlyTheKeySpeaks(format, h)
  {
    hide HeaderString, Silent;
    SpeakingHeader(format, h, EVENT_HEADERS, "");
    SpeakingHeader(format, h, EXCHANGE_HEADERS, "");
    SpeakingHeader(format, h, QUEUE_HEADERS, "");
  }

  /** With the routing key named by the headers, in whatever form, `publish.<exchange>.<key>` gives
      event type, exchange and key back, and `deliver.<queue>.<key>` the queue. */
  lemma KeysInvertWithNamedKey(format: Formatter, d: Delivery, name: string, rk: string)
    requires KeyAlone(format, d.headers) && NamesKey(format, d.headers, rk)
    requires name != "" && Trimmed(name)
    ensures d.routingKey == "publish." + name + "." + rk ==>
              var e := ParseDelivery(format, d);
              && e.Some? && e.value.eventType == "publish" && e.value.exchangeName == name
              && e.value.routingKey == rk && e.value.destinations == []
    ensures d.routingKey == "deliver." + name + "." + rk ==>
              var e := ParseDelivery(format, d);
              && e.Some? && e.value.eventType == "deliver" && e.value.routingKey == rk
              && e.value.destinations == [QueueDestination(name, "")]
  {
    hide KeyAlone, NamesKey, ParseDelivery, OnlyTheKeySpeaks, ParseRoutingKey, Trimmed;
    KeyAloneSpeaks(format, d.headers);
    NamedKeyIsParsed(format, d.headers, rk);
    if d.routingKey == "publish." + name + "." + rk { PublishKeyInverts(format, d, name); }
    if d.routingKey == "deliver." + name + "." + rk { DeliverKeyInverts(format, d, name); }
  }

  /** Without a header naming the event type it is the word before the key's first dot. */
  lemma EventTypeFromFirstWord(format: Formatter, d: Delivery, word: string, rest: string)
    requires ParseDelivery(format, d).Some?
    requires Silent(format, d.headers, ["event_type", "event-type", "event"])
    requires word != "" && Trimmed(word) && '.' !in word && rest != "" && Trimmed(rest)
    requires d.routingKey == word + "." + rest
    ensures ParseDelivery(format, d).value.eventType == word
  {
    hide HeaderString, Silent, DestinationsOf, ExchangeOf, EventTypeOf, RoutingKeyOf, IdOf, FirstOccurrences;
    SpeakingHeader(format, d.headers, EVENT_HEADERS, "");
    EventTypeFromKey(format, d, word, rest);
  }

  /** Without a header or a firehose key the exchange is unknown. */
  lemma UnknownExchange(format: Formatter, d: Delivery)
    requires ParseDelivery(format, d).Some? && AllSpace(d.routingKey)
    requires Silent(format, d.headers, ["exchange_name", "exchange", "x-exchange", "exchange-name"])
    ensures ParseDelivery(format, d).value.exchangeName == "(unknown-exchange)"
  {
    hide HeaderString, Silent, DestinationsOf, EventTypeOf, RoutingKeyOf, IdOf, FirstOccurrences, FirstNonEmpty;
    hide ParseRoutingKey;
    SpeakingHeader(format, d.headers, EXCHANGE_HEADERS, "");
    FirstOfTwo("", "");
  }

  function OrUnknown(name: string): string {
    if TrimSpace(name) == "" then "(unknown-exchange)" else TrimSpace(name)
  }

  lemma ExchangeIsGuessed(format: Formatter, d: Delivery)
    requires ParseDelivery(format, d).Some?
    requires Silent(format, d.headers, ["exchange_name", "exchange", "x-exchange", "exchange-name"])
    ensures var e := ParseDelivery(format, d).value;
            e.exchangeName
            == OrUnknown(ParseExchangeFromFirehoseRoutingKey(
                 d.routingKey, e.eventType, ParseRoutingKey(format, d.headers)))
  {
    hide HeaderString, Silent, DestinationsOf, EventTypeOf, RoutingKeyOf, IdOf, FirstOccurrences, FirstNonEmpty;
    hide ParseRoutingKey, ParseExchangeFromFirehoseRoutingKey;
    SpeakingHeader(format, d.headers, EXCHANGE_HEADERS, "");
    var key := ParseRoutingKey(format, d.headers);
    FirstOfTwo("", ParseExchangeFromFirehoseRoutingKey(d.routingKey, EventTypeOf(format, d), key));
  }

  /** A firehose key that does not begin with the event type: its second word is taken for the exchange. */
  lemma ExchangeFromSecondWord(format: Formatter, d: Delivery)
    requires ParseDelivery(format, d).Some? && !AllSpace(d.routingKey)
    requires Silent(format, d.headers, ["exchange_name", "exchange", "x-exchange", "exchange-name"])
    requires var kind := ParseDelivery(format, d).value.eventType;
             kind == "" || !(kind + "." <= TrimSpace(d.routingKey))
    ensures var words := SplitDots(TrimSpace(d.routingKey));
            ParseDelivery(format, d).value.exchangeName
            == if |words| < 2 then "(unknown-exchange)" else OrUnknown(words[1])
  {
    hide ParseDelivery, Silent, ParseRoutingKey, SplitDots;
    TypeIsTrimmed(format, d);
    ExchangeIsGuessed(format, d);
    assert TrimSpace("") == "";
  }

  lemma TypeIsTrimmed(format: Formatter, d: Delivery)
    requires ParseDelivery(format, d).Some?
    ensures Trimmed(ParseDelivery(format, d).value.eventType)
  {
    hide DestinationsOf, ExchangeOf, EventTypeOf, RoutingKeyOf, IdOf, FirstOccurrences;
  }

  /** Another event's key: what stands between its type and the routing key is taken for the exchange
      or, when the headers name no key, the first word after the type. */
  lemma ExchangeOfOtherEvents(format: Formatter, d: Delivery, rest: string, name: string, rk: string)
    requires ParseDelivery(format, d).Some?
    requires Silent(format, d.headers, ["exchange_name", "exchange", "x-exchange", "exchange-name"])
    requires rest != "" && Trimmed(rest)
    requires var kind := ParseDelivery(format, d).value.eventType;
             kind != "" && kind != "publish" && d.routingKey == kind + "." + rest
    ensures NoKeyNamed(format, d.headers) ==>
              ParseDelivery(format, d).value.exchangeName == OrUnknown(SplitDots(rest)[0])
    ensures NamesKey(format, d.headers, rk) && name != "" && Trimmed(name) && rest == name + "." + rk ==>
              ParseDelivery(format, d).value.exchangeName == name
  {
    hide ParseDelivery, Silent, ParseRoutingKey, SplitDots, NoKeyNamed, NamesKey;
    TypeIsTrimmed(format, d);
    ExchangeIsGuessed(format, d);
    var kind := ParseDelivery(format, d).value.eventType;
    GuessFromRest(kind, rest, ParseRoutingKey(format, d.headers));
    if NoKeyNamed(format, d.headers) { UnnamedKeyIsEmpty(format, d.headers); }
    if NamesKey(format, d.headers, rk) && name != "" && Trimmed(name) && rest == name + "." + rk {
      NamedKeyIsParsed(format, d.headers, rk);
      WithoutKeyOfSuffixed(name, rk);
    }
  }

  lemma GuessFromRest(eventType: string, rest: string, key: string)
    requires eventType != "" && Trimmed(eventType) && eventType != "publish"
    requires rest != "" && Trimmed(rest) && Trimmed(key)
    ensures ParseExchangeFromFirehoseRoutingKey(eventType + "." + rest, eventType, key)
         == if WithoutKey(rest, key) != "" then WithoutKey(rest, key) else TrimSpace(SplitDots(rest)[0])
  {
    hide TrimSpace, WithoutKey, SplitDots;
    var whole := eventType + "." + rest;
    assert whole[0] == eventType[0] && whole[|whole| - 1] == rest[|rest| - 1];
    assert TrimSpace(whole) == whole && TrimSpace(eventType) == eventType;
    assert TrimPrefix(whole, eventType + ".") == rest;
  }

  // ----- destinations

  /** The text of a table's field, and "" when it is missing. */
  function FieldText(format: Formatter, fields: map<string, Value>, name: string): string {
    if name in fields then TrimSpace(StringFromAny(format, fields[name])) else ""
  }

  /** An entry of a destination list: a table's queue and binding each under two names, the first with
      a text deciding; a string is a queue; a nil names nothing. */
  lemma EntryFields(format: Formatter, fields: map<string, Value>, text: string)
    ensures var d := ParseDestinationEntry(format, Table(fields));
            && d.Some?
            && d.value.queueName == (if FieldText(format, fields, "queue_name") != ""
                                     then FieldText(format, fields, "queue_name")
                                     else FieldText(format, fields, "queue"))
            && d.value.bindingKey == (if FieldText(format, fields, "binding_key") != ""
                                      then FieldText(format, fields, "binding_key")
                                      else FieldText(format, fields, "binding-key"))
    ensures ParseDestinationEntry(format, Str(text)) == Some(QueueDestination(TrimSpace(text), ""))
    ensures ParseDestinationEntry(format, Nil) == Some(QueueDestination("", ""))
  {
    hide TrimSpace, StringFromAny, FirstNonEmpty;
    FirstOfFields(Field(format, fields, "queue_name"), Field(format, fields, "queue"));
    FirstOfFields(Field(format, fields, "binding_key"), Field(format, fields, "binding-key"));
    assert TrimSpace("") == "";
  }

  /** A `destinations` header alone decides the destinations: its list, deduplicated. */
  lemma DestinationsFromTheirHeader(format: Formatter, d: Delivery)
    requires ParseDelivery(format, d).Some? && d.headers.Some? && "destinations" in d.headers.value
    ensures var list := DestinationList(format, d.headers.value["destinations"]);
            list.Some? && ParseDelivery(format, d).value.destinations == FirstOccurrences(list.value)
  {
    hide ExchangeOf, EventTypeOf, RoutingKeyOf, IdOf, DestinationList, ParseRoutingKey, FirstOccurrences;
  }

  /** Without one the queue header names the only destination, and without that, only a `deliver`
      event has one. */
  lemma DestinationFromQueueHeader(format: Formatter, d: Delivery, key: string)
    requires ParseDelivery(format, d).Some? && (d.headers.Some? ==> "destinations" !in d.headers.value)
    ensures var e, names := ParseDelivery(format, d).value, ["queue_name", "queue", "destination_queue"];
            && (Speaks(format, d.headers, names, key) ==>
                  |e.destinations| == 1 && e.destinations[0].queueName == TextOf(format, d.headers, key))
            && (e.eventType != "deliver" && Silent(format, d.headers, names) ==> e.destinations == [])
  {
    hide HeaderString, Speaks, Silent, TextOf, ExchangeOf, EventTypeOf, RoutingKeyOf, IdOf, ParseRoutingKey;
    hide ParseDeliverQueueFromFirehoseRoutingKey, FirstOccurrences;
    SpeakingHeader(format, d.headers, QUEUE_HEADERS, key);
    HeadersDecide(format, d);
    NoHeaders(format, d.headers);
    DistinctKeysAreKept([]);
  }

  /** A `deliver` event, named so by whatever header, whose key does not begin with `deliver.`: the whole
      key is its queue, or what stands before the routing key the headers name. */
  lemma DeliverKeyWithoutPrefix(format: Formatter, d: Delivery, name: string, rk: string)
    requires ParseDelivery(format, d).Some? && ParseDelivery(format, d).value.eventType == "deliver"
    requires d.headers.Some? ==> "destinations" !in d.headers.value
    requires Silent(format, d.headers, ["queue_name", "queue", "destination_queue"])
    requires d.routingKey != "" && Trimmed(d.routingKey) && !("deliver." <= d.routingKey)
    ensures NoKeyNamed(format, d.headers) ==>
              ParseDelivery(format, d).value.destinations == [QueueDestination(d.routingKey, "")]
    ensures NamesKey(format, d.headers, rk) && name != "" && Trimmed(name) && d.routingKey == name + "." + rk ==>
              ParseDelivery(format, d).value.destinations == [QueueDestination(name, "")]
  {
    hide HeaderString, Silent, ExchangeOf, EventTypeOf, RoutingKeyOf, IdOf, ParseRoutingKey, NoKeyNamed, NamesKey;
    hide WithoutKey, TrimSpace;
    SpeakingHeader(format, d.headers, QUEUE_HEADERS, "");
    assert TrimSpace(d.routingKey) == d.routingKey;
    var key := ParseRoutingKey(format, d.headers);
    DistinctKeysAreKept([QueueDestination(Stripped(d.routingKey, key), "")]);
    if NoKeyNamed(format, d.headers) {
      UnnamedKeyIsEmpty(format, d.headers);
      NothingToStrip(d.routingKey);
    }
    if NamesKey(format, d.headers, rk) && name != "" && Trimmed(name) && d.routingKey == name + "." + rk {
      NamedKeyIsParsed(format, d.headers, rk);
      WithoutKeyOfSuffixed(name, rk);
    }
  }

  lemma NothingToStrip(rest: string)
    ensures WithoutKey(rest, "") == ""
  {
  }

  /** The binding of a queue header comes from its own header. */
  lemma BindingFromHeader(format: Formatter, d: Delivery, key: string)
    requires ParseDelivery(format, d).Some? && d.headers.Some? && "destinations" !in d.headers.value
    requires !Silent(format, d.headers, ["queue_name", "queue", "destination_queue"])
    ensures var e := ParseDelivery(format, d).value;
            && |e.destinations| == 1
            && (Speaks(format, d.headers, ["binding_key", "binding-key"], key) ==>
                  e.destinations[0].bindingKey == TextOf(format, d.headers, key))
            && (Silent(format, d.headers, ["binding_key", "binding-key"]) ==> e.destinations[0].bindingKey == "")
  {
    hide HeaderString, Speaks, TextOf, ParseDelivery;
    var names := ["queue_name", "queue", "destination_queue"];
    var spoken := FirstSpoken(format, d.headers, names);
    SpeakingHeader(format, d.headers, names, spoken);
    SpeakingHeader(format, d.headers, ["binding_key", "binding-key"], key);
    HeadersDecide(format, d);
  }

  lemma {:induction false} FirstSpoken(format: Formatter, h: Headers, names: seq<string>) returns (key: string)
    requires !Silent(format, h, names)
    ensures Speaks(format, h, names, key)
  {
    hide BlankHeader;
    if !BlankHeader(format, h, names[0]) {
      key := names[0];
      assert SpeaksAt(format, h, names, 0);
    } else {
      assert names == [names[0]] + names[1..];
      key := FirstSpoken(format, h, names[1..]);
      var i :| 0 <= i < |names[1..]| && SpeaksAt(format, h, names[1..], i) && names[1..][i] == key;
      assert forall j | 0 < j <= i :: names[j] == names[1..][j - 1];
      assert SpeaksAt(format, h, names, i + 1);
    }
  }
}
