/** Graphviz text: the printer's pieces, a quote-aware reader, and their round trip. */
module Dot {
  import opened Model
  import opened Sequences
  import opened Edges

  // ----- quoted strings

  /** Backslashes and quotes get a backslash in front. */
  function Escape(value: string): string {
    if value == "" then ""
    else (if value[0] == '\\' || value[0] == '"' then ['\\', value[0]] else [value[0]]) + Escape(value[1..])
  }

  /** The content of a quoted string up to its first unescaped quote, and what follows that quote. */
  function ReadQuoted(s: string): (r: Option<(string, string)>)
    ensures r.Some? ==> |r.value.1| < |s|
  {
    if s == "" then None
    else if s[0] == '"' then Some(("", s[1..]))
    else if s[0] == '\\' then
      if |s| < 2 then None
      else
        var r := ReadQuoted(s[2..]);
        if r.None? then None else Some(([s[1]] + r.value.0, r.value.1))
    else
      var r := ReadQuoted(s[1..]);
      if r.None? then None else Some(([s[0]] + r.value.0, r.value.1))
  }

  function SpecialCount(value: string): nat {
    if value == "" then 0
    else SpecialCount(value[..|value| - 1]) + if value[|value| - 1] in "\"\\" then 1 else 0
  }

  lemma {:induction false} EscapeConcat(a: string, b: string)
    ensures Escape(a + b) == Escape(a) + Escape(b)
  {
    if a == "" {
      assert a + b == b;
    } else {
      EscapeConcat(a[1..], b);
      assert (a + b)[0] == a[0] && (a + b)[1..] == a[1..] + b;
      var first := if a[0] == '\\' || a[0] == '"' then ['\\', a[0]] else [a[0]];
      assert Escape(a) == first + Escape(a[1..]);
      assert first + (Escape(a[1..]) + Escape(b)) == (first + Escape(a[1..])) + Escape(b);
    }
  }

  /** One character at a time: quotes and backslashes are doubled up with a backslash, all else stays. */
  lemma EscapeOne(c: char)
    ensures Escape("\"") == "\\\"" && Escape("\\") == "\\\\"
    ensures c != '"' && c != '\\' ==> Escape([c]) == [c]
  {
    assert "\""[1..] == "" && "\\"[1..] == "" && [c][1..] == "";
    assert Escape("\"") == ['\\', '"'] + Escape("") == "\\\"";
    assert Escape("\\") == ['\\', '\\'] + Escape("") == "\\\\";
  }

  /** A text without quotes and backslashes is printed as it is. */
  lemma {:induction false} EscapeKeepsPlain(value: string)
    requires '"' !in value && '\\' !in value
    ensures Escape(value) == value
  {
    if value != "" {
      EscapeKeepsPlain(value[1..]);
      assert value == [value[0]] + value[1..];
    }
  }

  /** Escaping adds one backslash for each quote and each backslash, and nothing else. */
  lemma {:induction false} EscapeLength(value: string)
    ensures |Escape(value)| == |value| + SpecialCount(value)
  {
    if value != "" {
      var n := |value| - 1;
      EscapeLength(value[..n]);
      assert value == value[..n] + [value[n]];
      EscapeConcat(value[..n], [value[n]]);
      EscapeOne(value[n]);
    }
  }

  /** Any name survives being quoted, and its quotes never end the string early. */
  lemma {:induction false} QuotedRoundTrip(value: string, rest: string)
    ensures ReadQuoted(Escape(value) + ("\"" + rest)) == Some((value, rest))
  {
    var s := Escape(value) + ("\"" + rest);
    if value == "" {
      assert s == "\"" + rest;
    } else {
      QuotedRoundTrip(value[1..], rest);
      var tail := Escape(value[1..]) + ("\"" + rest);
      if value[0] == '\\' || value[0] == '"' {
        assert s == ['\\', value[0]] + tail;
        assert s[2..] == tail;
      } else {
        assert s == [value[0]] + tail;
        assert s[1..] == tail;
      }
      assert value == [value[0]] + value[1..];
    }
  }

  // ----- numbers

  function Digit(d: nat): char
    requires d < 10
  {
    '0' + d as char
  }

  predicate IsDigit(c: char) {
    '0' <= c <= '9'
  }

  /** `%d` of a natural number. */
  function Decimal(n: nat): (s: string)
    ensures |s| >= 1 && forall i | 0 <= i < |s| :: IsDigit(s[i])
  {
    (if n < 10 then "" else Decimal(n / 10)) + [Digit(n % 10)]
  }

  function ReadDecimal(s: string): nat
    requires forall i | 0 <= i < |s| :: IsDigit(s[i])
  {
    if s == "" then 0
    else
      assert IsDigit(s[|s| - 1]);
      ReadDecimal(s[..|s| - 1]) * 10 + (s[|s| - 1] as int - '0' as int)
  }

  lemma {:induction false} DecimalRoundTrip(n: nat)
    ensures ReadDecimal(Decimal(n)) == n
  {
    if n >= 10 { DecimalRoundTrip(n / 10); }
    var s := Decimal(n);
    assert s[..|s| - 1] == if n < 10 then "" else Decimal(n / 10);
  }

  /** The usual decimal notation, digit by digit and without leading zeros. */
  lemma DecimalNotation(n: nat, d: nat)
    requires d < 10
    ensures Decimal(10 * n + d) == (if n == 0 then "" else Decimal(n)) + ["0123456789"[d]]
    ensures Decimal(n)[0] == '0' ==> n == 0
  {
    assert (10 * n + d) / 10 == n && (10 * n + d) % 10 == d;
    NoLeadingZero(n);
  }

  lemma {:induction false} NoLeadingZero(n: nat)
    ensures Decimal(n)[0] == '0' ==> n == 0
  {
    if n >= 10 { NoLeadingZero(n / 10); }
  }

  // ----- edge labels

  function LabelText(tag: string, count: nat): string {
    tag + " (" + Decimal(count) + ")"
  }

  /** The number of digits at the end. */
  function TrailingDigits(s: string): (n: nat)
    ensures n <= |s| && forall i | |s| - n <= i < |s| :: IsDigit(s[i])
  {
    if s == "" || !IsDigit(s[|s| - 1]) then 0 else 1 + TrailingDigits(s[..|s| - 1])
  }

  function ReadLabel(s: string): Option<(string, nat)> {
    if s == "" || s[|s| - 1] != ')' then None
    else
      var t := s[..|s| - 1];
      var cut := |t| - TrailingDigits(t);
      if cut == |t| || cut < 2 || t[cut - 2..cut] != " (" then None
      else Some((t[..cut - 2], ReadDecimal(t[cut..])))
  }

  lemma {:induction false} TrailingDigitsAre(s: string, start: nat)
    requires 0 < start <= |s| && !IsDigit(s[start - 1])
    requires forall i | start <= i < |s| :: IsDigit(s[i])
    ensures TrailingDigits(s) == |s| - start
  {
    if start < |s| { TrailingDigitsAre(s[..|s| - 1], start); }
  }

  /** The trailing ` (count)` is read back whatever the label, even one that ends in ` (7)` itself. */
  lemma LabelRoundTrip(tag: string, count: nat)
    ensures ReadLabel(LabelText(tag, count)) == Some((tag, count))
  {
    hide Decimal;
    var digits := Decimal(count);
    var s := LabelText(tag, count);
    var t := s[..|s| - 1];
    assert t == tag + " (" + digits;
    var there := |tag| + 2;
    assert t[there..] == digits && t[there - 2..there] == " (" && t[..there - 2] == tag;
    TrailingDigitsAre(t, there);
    DecimalRoundTrip(count);
  }

  // ----- statements

  datatype Statement =
    | ExchangeNode(exchange: string)
    | QueueNode(queue: string)
    | EdgeLine(from: string, to: string, tag: string, count: nat)

  const OPEN := "  \""
  const EXCHANGE_LABEL := " [label=\"exchange: "
  const EXCHANGE_STYLE := ", shape=box, style=\"rounded,filled\", fillcolor=\"#E8F1FF\"];\n"
  const QUEUE_LABEL := " [label=\"queue: "
  const QUEUE_STYLE := ", shape=ellipse, style=\"filled\", fillcolor=\"#FFF4E6\"];\n"
  const ARROW := " -> \""
  const EDGE_LABEL := " [label=\""
  const EDGE_END := "];\n"

  /** A quoted string up to and including its closing quote. */
  function Quoted(value: string): string {
    Escape(value) + "\""
  }

  function StatementText(st: Statement): string {
    match st
    case ExchangeNode(x) => OPEN + Quoted("ex:" + x) + EXCHANGE_LABEL + Quoted(x) + EXCHANGE_STYLE
    case QueueNode(q) => OPEN + Quoted("q:" + q) + QUEUE_LABEL + Quoted(q) + QUEUE_STYLE
    case EdgeLine(x, q, tag, n) =>
      OPEN + Quoted("ex:" + x) + ARROW + Quoted("q:" + q) + EDGE_LABEL + Quoted(LabelText(tag, n)) + EDGE_END
  }

  function Print(statements: seq<Statement>): string {
    FlatMap(StatementText, statements)
  }

  // ----- the reader

  function Expect(token: string, s: string): (r: Option<string>)
    ensures r.Some? ==> s == token + r.value
  {
    if token <= s then Some(s[|token|..]) else None
  }

  /** `token`, then a quoted string. */
  function ReadField(token: string, s: string): (r: Option<(string, string)>)
    ensures r.Some? ==> |r.value.1| < |s|
  {
    var after := Expect(token, s);
    if after.None? then None else ReadQuoted(after.value)
  }

  /** The node kind comes from the id's prefix; the label must agree with it. */
  function ReadNode(id: string, s: string): (r: Option<(Statement, string)>)
    ensures r.Some? ==> |r.value.1| < |s|
  {
    if "ex:" <= id then
      var tag := ReadField(EXCHANGE_LABEL, s);
      if tag.None? || tag.value.0 != id[3..] then None
      else
        var rest := Expect(EXCHANGE_STYLE, tag.value.1);
        if rest.None? then None else Some((ExchangeNode(id[3..]), rest.value))
    else if "q:" <= id then
      var tag := ReadField(QUEUE_LABEL, s);
      if tag.None? || tag.value.0 != id[2..] then None
      else
        var rest := Expect(QUEUE_STYLE, tag.value.1);
        if rest.None? then None else Some((QueueNode(id[2..]), rest.value))
    else None
  }

  function ReadEdge(id: string, s: string): (r: Option<(Statement, string)>)
    ensures r.Some? ==> |r.value.1| < |s|
  {
    var to := ReadField(ARROW, s);
    if to.None? || !("ex:" <= id) || !("q:" <= to.value.0) then None
    else
      var text := ReadField(EDGE_LABEL, to.value.1);
      if text.None? then None
      else
        var tag := ReadLabel(text.value.0);
        var rest := Expect(EDGE_END, text.value.1);
        if tag.None? || rest.None? then None
        else Some((EdgeLine(id[3..], to.value.0[2..], tag.value.0, tag.value.1), rest.value))
  }

  function ReadStatement(s: string): (r: Option<(Statement, string)>)
    ensures r.Some? ==> |r.value.1| < |s|
  {
    var id := ReadField(OPEN, s);
    if id.None? then None
    else if ARROW <= id.value.1 then ReadEdge(id.value.0, id.value.1)
    else ReadNode(id.value.0, id.value.1)
  }

  function ReadStatements(s: string): Option<seq<Statement>>
    decreases |s|
  {
    if s == "}\n" then Some([])
    else
      var first := ReadStatement(s);
      if first.None? then None
      else
        var others := ReadStatements(first.value.1);
        if others.None? then None else Some([first.value.0] + others.value)
  }

  lemma FieldRoundTrip(token: string, value: string, rest: string)
    ensures ReadField(token, token + (Quoted(value) + rest)) == Some((value, rest))
  {
    QuotedRoundTrip(value, rest);
    assert Quoted(value) + rest == Escape(value) + ("\"" + rest);
    assert (token + (Quoted(value) + rest))[|token|..] == Quoted(value) + rest;
  }

  lemma TokenRoundTrip(token: string, rest: string)
    ensures Expect(token, token + rest) == Some(rest)
  {
    assert (token + rest)[|token|..] == rest;
  }

  lemma ExchangeNodeRoundTrip(x: string, rest: string)
    ensures ReadStatement(StatementText(ExchangeNode(x)) + rest) == Some((ExchangeNode(x), rest))
  {
    hide Escape, ReadQuoted, ReadField, EXCHANGE_STYLE;
    var id := "ex:" + x;
    var s2 := EXCHANGE_STYLE + rest;
    var s1 := EXCHANGE_LABEL + (Quoted(x) + s2);
    var s0 := OPEN + (Quoted(id) + s1);
    assert StatementText(ExchangeNode(x)) + rest == s0;
    FieldRoundTrip(OPEN, id, s1);
    FieldRoundTrip(EXCHANGE_LABEL, x, s2);
    TokenRoundTrip(EXCHANGE_STYLE, rest);
    assert s1[1] == '[' && id[3..] == x;
  }

  lemma QueueNodeRoundTrip(q: string, rest: string)
    ensures ReadStatement(StatementText(QueueNode(q)) + rest) == Some((QueueNode(q), rest))
  {
    hide Escape, ReadQuoted, ReadField, QUEUE_STYLE;
    var id := "q:" + q;
    var s2 := QUEUE_STYLE + rest;
    var s1 := QUEUE_LABEL + (Quoted(q) + s2);
    var s0 := OPEN + (Quoted(id) + s1);
    assert StatementText(QueueNode(q)) + rest == s0;
    FieldRoundTrip(OPEN, id, s1);
    FieldRoundTrip(QUEUE_LABEL, q, s2);
    TokenRoundTrip(QUEUE_STYLE, rest);
    assert s1[1] == '[' && id[2..] == q && id[0] == 'q';
  }

  lemma EdgeLineRoundTrip(x: string, q: string, tag: string, n: nat, rest: string)
    ensures ReadStatement(StatementText(EdgeLine(x, q, tag, n)) + rest) == Some((EdgeLine(x, q, tag, n), rest))
  {
    hide Escape, ReadQuoted, ReadField, LabelText, ReadLabel;
    var from, to, text := "ex:" + x, "q:" + q, LabelText(tag, n);
    var s3 := EDGE_END + rest;
    var s2 := EDGE_LABEL + (Quoted(text) + s3);
    var s1 := ARROW + (Quoted(to) + s2);
    var s0 := OPEN + (Quoted(from) + s1);
    assert StatementText(EdgeLine(x, q, tag, n)) + rest == s0;
    FieldRoundTrip(OPEN, from, s1);
    FieldRoundTrip(ARROW, to, s2);
    FieldRoundTrip(EDGE_LABEL, text, s3);
    TokenRoundTrip(EDGE_END, rest);
    LabelRoundTrip(tag, n);
    assert from[3..] == x && to[2..] == q;
  }

  lemma StatementRoundTrip(st: Statement, rest: string)
    ensures ReadStatement(StatementText(st) + rest) == Some((st, rest))
  {
    match st
    case ExchangeNode(x) => ExchangeNodeRoundTrip(x, rest);
    case QueueNode(q) => QueueNodeRoundTrip(q, rest);
    case EdgeLine(x, q, tag, n) => EdgeLineRoundTrip(x, q, tag, n, rest);
  }

  lemma PrintHead(st: Statement, others: seq<Statement>)
    ensures Print([st] + others) == StatementText(st) + Print(others)
  {
    hide StatementText;
    FlatMapAppend(StatementText, [st], others);
    assert [st][..0] == [];
  }

  lemma {:induction false} StatementsRoundTrip(statements: seq<Statement>)
    ensures ReadStatements(Print(statements) + "}\n") == Some(statements)
  {
    hide StatementText, ReadStatement;
    if statements == [] {
      assert "" + "}\n" == "}\n";
    } else {
      var st, others := statements[0], statements[1..];
      PrintHead(st, others);
      assert statements == [st] + others;
      var rest := Print(others) + "}\n";
      var s := Print(statements) + "}\n";
      assert s == StatementText(st) + rest;
      StatementRoundTrip(st, rest);
      StatementsRoundTrip(others);
      StatementStartsWithSpace(st);
      assert s[0] == ' ';
    }
  }

  lemma StatementStartsWithSpace(st: Statement)
    ensures StatementText(st) != "" && StatementText(st)[0] == ' '
  {
    assert OPEN[0] == ' ';
  }

  // ----- documents

  /** What a DOT export says. */
  datatype Document = Document(name: string, exchanges: seq<string>, queues: seq<string>, edges: seq<EdgeRow>)

  const DIGRAPH := "digraph \""
  const PREAMBLE := " {\n  rankdir=LR;\n  node [fontname=\"Helvetica\"];\n"

  function ExchangeNodes(exchanges: seq<string>): seq<Statement> {
    seq(|exchanges|, i requires 0 <= i < |exchanges| => ExchangeNode(exchanges[i]))
  }

  function QueueNodes(queues: seq<string>): seq<Statement> {
    seq(|queues|, i requires 0 <= i < |queues| => QueueNode(queues[i]))
  }

  function LineOf(row: EdgeRow): Statement {
    EdgeLine(row.key.from, row.key.to, row.key.tag, row.count)
  }

  function EdgeLines(edges: seq<EdgeRow>): seq<Statement> {
    seq(|edges|, i requires 0 <= i < |edges| => LineOf(edges[i]))
  }

  function DocumentText(doc: Document): string {
    DIGRAPH + Quoted(doc.name) + PREAMBLE
    + Print(ExchangeNodes(doc.exchanges)) + Print(QueueNodes(doc.queues)) + Print(EdgeLines(doc.edges))
    + "}\n"
  }

  /** The lines of a document as they stand in the text. */
  function ExchangeText(name: string): string {
    "  \"ex:" + Escape(name) + "\" [label=\"exchange: " + Escape(name)
    + ("\"" + ", shape=box, style=\"rounded,filled\", fillcolor=\"#E8F1FF\"];\n")
  }

  function QueueText(name: string): string {
    "  \"q:" + Escape(name) + "\" [label=\"queue: " + Escape(name)
    + ("\"" + ", shape=ellipse, style=\"filled\", fillcolor=\"#FFF4E6\"];\n")
  }

  function EdgeText(from: string, to: string, tag: string, count: nat): string {
    "  \"ex:" + Escape(from) + "\" -> \"q:" + Escape(to) + "\" [label=\""
    + Escape(tag) + (" (" + Decimal(count) + ")") + "\"];\n"
  }

  /** Adjacent constant pieces run together. */
  lemma NodeJoins(open: string, id: string, a: string, mid: string, b: string, end: string,
                  start: string, between: string, close: string)
    requires open + id == start && "\"" + mid == between && "\"" + end == close
    ensures open + ((id + a) + "\"") + mid + (b + "\"") + end == start + a + between + b + close
  {
    assert open + ((id + a) + "\"") == (start + a) + "\"";
    assert (start + a) + "\"" + mid == start + a + between;
    assert start + a + between + (b + "\"") + end == start + a + between + b + close;
  }

  lemma ExchangeLine(name: string)
    ensures StatementText(ExchangeNode(name)) == ExchangeText(name)
  {
    hide Escape;
    PrefixedId("ex:", name);
    NodeJoins(OPEN, "ex:", Escape(name), EXCHANGE_LABEL, Escape(name), EXCHANGE_STYLE,
              "  \"ex:", "\" [label=\"exchange: ",
              "\"" + ", shape=box, style=\"rounded,filled\", fillcolor=\"#E8F1FF\"];\n");
  }

  lemma QueueLine(name: string)
    ensures StatementText(QueueNode(name)) == QueueText(name)
  {
    hide Escape;
    PrefixedId("q:", name);
    NodeJoins(OPEN, "q:", Escape(name), QUEUE_LABEL, Escape(name), QUEUE_STYLE,
              "  \"q:", "\" [label=\"queue: ",
              "\"" + ", shape=ellipse, style=\"filled\", fillcolor=\"#FFF4E6\"];\n");
  }

  lemma EdgeJoins(open: string, id: string, a: string, arrow: string, id': string, b: string, mid: string,
                  c: string, d: string, end: string,
                  start: string, between: string, before: string, close: string)
    requires open + id == start && "\"" + arrow + id' == between && "\"" + mid == before && "\"" + end == close
    ensures open + ((id + a) + "\"") + arrow + ((id' + b) + "\"") + mid + ((c + d) + "\"") + end
         == start + a + between + b + before + c + d + close
  {
    assert open + ((id + a) + "\"") == (start + a) + "\"";
    assert (start + a) + "\"" + arrow + ((id' + b) + "\"") == (start + a + between + b) + "\"";
    var head := start + a + between + b;
    assert head + "\"" + mid + ((c + d) + "\"") == (head + before + c + d) + "\"";
    assert (head + before + c + d) + "\"" + end == head + before + c + d + close;
  }

  lemma EdgeLineText(from: string, to: string, tag: string, count: nat)
    ensures StatementText(EdgeLine(from, to, tag, count)) == EdgeText(from, to, tag, count)
  {
    hide Escape, Decimal, LabelText;
    PrefixedId("ex:", from);
    PrefixedId("q:", to);
    EscapedLabel(tag, count);
    EdgeJoins(OPEN, "ex:", Escape(from), ARROW, "q:", Escape(to), EDGE_LABEL,
              Escape(tag), " (" + Decimal(count) + ")", EDGE_END,
              "  \"ex:", "\" -> \"q:", "\" [label=\"", "\"];\n");
  }

  lemma PrefixedId(prefix: string, name: string)
    requires '"' !in prefix && '\\' !in prefix
    ensures Escape(prefix + name) == prefix + Escape(name)
  {
    EscapeConcat(prefix, name);
    EscapeKeepsPlain(prefix);
  }

  lemma EscapedLabel(tag: string, count: nat)
    ensures Escape(LabelText(tag, count)) == Escape(tag) + (" (" + Decimal(count) + ")")
  {
    hide Escape, Decimal;
    var tail := " (" + Decimal(count) + ")";
    assert LabelText(tag, count) == tag + tail;
    EscapeConcat(tag, tail);
    assert forall i | 0 <= i < |Decimal(count)| :: IsDigit(Decimal(count)[i]);
    assert forall i | 0 <= i < |tail| :: tail[i] != '"' && tail[i] != '\\';
    EscapeKeepsPlain(tail);
  }

  lemma PrintOne(st: Statement)
    ensures Print([st]) == StatementText(st)
  {
    hide StatementText;
    assert [st][..0] == [];
    assert FlatMap(StatementText, []) == "" && "" + StatementText(st) == StatementText(st);
  }

  /** The text of a whole document with one exchange, one queue and one edge between them. */
  lemma SmallDocumentText(name: string, exchange: string, queue: string, tag: string, count: nat)
    ensures DocumentText(Document(name, [exchange], [queue], [EdgeRow(EdgeKey(exchange, queue, tag), count)]))
         == "digraph \"" + (Escape(name) + "\"") + " {\n  rankdir=LR;\n  node [fontname=\"Helvetica\"];\n"
            + ExchangeText(exchange) + QueueText(queue) + EdgeText(exchange, queue, tag, count) + "}\n"
  {
    hide StatementText, Escape, Decimal, ExchangeText, QueueText, EdgeText, Print;
    ExchangeLine(exchange);
    QueueLine(queue);
    EdgeLineText(exchange, queue, tag, count);
    PrintOne(ExchangeNode(exchange));
    PrintOne(QueueNode(queue));
    PrintOne(EdgeLine(exchange, queue, tag, count));
    assert ExchangeNodes([exchange]) == [ExchangeNode(exchange)];
    assert QueueNodes([queue]) == [QueueNode(queue)];
    assert EdgeLines([EdgeRow(EdgeKey(exchange, queue, tag), count)]) == [EdgeLine(exchange, queue, tag, count)];
  }

  function ExchangeIn(st: Statement): seq<string> {
    if st.ExchangeNode? then [st.exchange] else []
  }

  function QueueIn(st: Statement): seq<string> {
    if st.QueueNode? then [st.queue] else []
  }

  function EdgeIn(st: Statement): seq<EdgeRow> {
    if st.EdgeLine? then [EdgeRow(EdgeKey(st.from, st.to, st.tag), st.count)] else []
  }

  function ReadDot(s: string): Option<Document> {
    var name := ReadField(DIGRAPH, s);
    if name.None? then None
    else
      var body := Expect(PREAMBLE, name.value.1);
      if body.None? then None
      else
        var statements := ReadStatements(body.value);
        if statements.None? then None
        else Some(Document(
          name.value.0,
          FlatMap(ExchangeIn, statements.value),
          FlatMap(QueueIn, statements.value),
          FlatMap(EdgeIn, statements.value)))
  }

  function StatementsOf(doc: Document): seq<Statement> {
    ExchangeNodes(doc.exchanges) + QueueNodes(doc.queues) + EdgeLines(doc.edges)
  }

  /** A part that only one of the three kinds has is found again among all statements. */
  lemma GatherFromDocument<T>(part: Statement -> seq<T>, doc: Document)
    ensures FlatMap(part, StatementsOf(doc))
         == FlatMap(part, ExchangeNodes(doc.exchanges)) + FlatMap(part, QueueNodes(doc.queues))
            + FlatMap(part, EdgeLines(doc.edges))
  {
    FlatMapAppend(part, ExchangeNodes(doc.exchanges) + QueueNodes(doc.queues), EdgeLines(doc.edges));
    FlatMapAppend(part, ExchangeNodes(doc.exchanges), QueueNodes(doc.queues));
  }

  lemma GatherExchanges(doc: Document)
    ensures FlatMap(ExchangeIn, StatementsOf(doc)) == doc.exchanges
  {
    hide StatementsOf, FlatMap;
    GatherFromDocument(ExchangeIn, doc);
    FlatMapEach(ExchangeIn, ExchangeNodes(doc.exchanges), doc.exchanges);
    FlatMapNone(ExchangeIn, QueueNodes(doc.queues));
    FlatMapNone(ExchangeIn, EdgeLines(doc.edges));
  }

  lemma GatherQueues(doc: Document)
    ensures FlatMap(QueueIn, StatementsOf(doc)) == doc.queues
  {
    hide StatementsOf, FlatMap;
    GatherFromDocument(QueueIn, doc);
    FlatMapNone(QueueIn, ExchangeNodes(doc.exchanges));
    FlatMapEach(QueueIn, QueueNodes(doc.queues), doc.queues);
    FlatMapNone(QueueIn, EdgeLines(doc.edges));
  }

  lemma GatherEdges(doc: Document)
    ensures FlatMap(EdgeIn, StatementsOf(doc)) == doc.edges
  {
    hide StatementsOf, FlatMap;
    GatherFromDocument(EdgeIn, doc);
    FlatMapNone(EdgeIn, ExchangeNodes(doc.exchanges));
    FlatMapNone(EdgeIn, QueueNodes(doc.queues));
    FlatMapEach(EdgeIn, EdgeLines(doc.edges), doc.edges);
  }

  lemma RegroupText(a: string, b: string, c: string, d: string, e: string, f: string, g: string)
    ensures a + b + c + d + e + f + g == a + (b + (c + ((d + e + f) + g)))
  {
  }

  /** Reading a printed document gives it back: any names, with quotes, backslashes and line breaks. */
  lemma DotRoundTrip(doc: Document)
    ensures ReadDot(DocumentText(doc)) == Some(doc)
  {
    hide FlatMap, ReadStatements, ReadField, Quoted;
    var xs, qs, es := ExchangeNodes(doc.exchanges), QueueNodes(doc.queues), EdgeLines(doc.edges);
    FlatMapAppend(StatementText, xs + qs, es);
    FlatMapAppend(StatementText, xs, qs);
    var body := Print(xs + qs + es) + "}\n";
    RegroupText(DIGRAPH, Quoted(doc.name), PREAMBLE, Print(xs), Print(qs), Print(es), "}\n");
    FieldRoundTrip(DIGRAPH, doc.name, PREAMBLE + body);
    TokenRoundTrip(PREAMBLE, body);
    StatementsRoundTrip(StatementsOf(doc));
    GatherExchanges(doc);
    GatherQueues(doc);
    GatherEdges(doc);
  }

  /** Different documents print differently. */
  lemma DotTextInjective(a: Document, b: Document)
    ensures DocumentText(a) == DocumentText(b) <==> a == b
  {
    DotRoundTrip(a);
    DotRoundTrip(b);
  }
}
