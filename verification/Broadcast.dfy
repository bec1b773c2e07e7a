/** Server-sent events: one renderer broadcasting to clients that come, read and go.
    A small-step machine for every interleaving of the render call, Close and the request
    handlers. Steps under the renderer's mutex need the lock; receiving does not. */
module Broadcast {
  import opened Sequences

  type ClientId = nat
  type Msg = string

  const BUFFER := 32

  /** Where a request handler is: in its receive loop, on its way out, or returned. */
  datatype Phase = Serving | Leaving | Gone

  /** A client's channel and handler. `received`, `accepted` and `since` are history: what the
      handler has written out, whether each message offered so far was taken, and how many
      broadcasts had begun when the client registered. */
  datatype Client = Client(
    phase: Phase,
    buffer: seq<Msg>,
    channelClosed: bool,
    received: seq<Msg>,
    accepted: seq<bool>,
    since: nat)

  /** Who holds the mutex, with the clients its loop has still to visit. */
  datatype Lock = Free | Broadcasting(pending: set<ClientId>) | Closing(pending: set<ClientId>)

  /** `panicked` records a send on, or a second close of, a closed channel. */
  datatype State = State(
    clients: map<ClientId, Client>,
    registered: set<ClientId>,
    closed: bool,
    broadcasts: seq<Msg>,
    lock: Lock,
    panicked: bool)

  datatype Step =
    | Register(client: ClientId)
    | Receive(client: ClientId)
    | SeeClosed(client: ClientId)
    | RequestDone(client: ClientId)
    | Unregister(client: ClientId)
    | BeginBroadcast(msg: Msg)
    | Send(client: ClientId)
    | EndBroadcast
    | BeginClose
    | CloseOne(client: ClientId)
    | EndClose

  const INITIAL := State(map[], {}, false, [], Free, false)

  predicate InPhase(s: State, c: ClientId, phase: Phase) {
    c in s.clients && s.clients[c].phase == phase
  }

  predicate Enabled(s: State, step: Step) {
    match step
    case Register(c) => s.lock.Free? && c !in s.clients
    case Receive(c) => InPhase(s, c, Serving) && s.clients[c].buffer != []
    case SeeClosed(c) => InPhase(s, c, Serving) && s.clients[c].buffer == [] && s.clients[c].channelClosed
    case RequestDone(c) => InPhase(s, c, Serving)
    case Unregister(c) => s.lock.Free? && InPhase(s, c, Leaving)
    case BeginBroadcast(msg) => s.lock.Free? && !s.closed
    case Send(c) => s.lock.Broadcasting? && c in s.lock.pending && c in s.clients && s.broadcasts != []
    case EndBroadcast => s.lock.Broadcasting? && s.lock.pending == {}
    case BeginClose => s.lock.Free? && !s.closed
    case CloseOne(c) => s.lock.Closing? && c in s.lock.pending && c in s.clients
    case EndClose => s.lock.Closing? && s.lock.pending == {}
  }

  /** A send that does not block: the message goes into the buffer if there is room. */
  function Pushed(buffer: seq<Msg>, msg: Msg): seq<Msg> {
    if |buffer| < BUFFER then buffer + [msg] else buffer
  }

  function Apply(s: State, step: Step): State
    requires Enabled(s, step)
  {
    match step
    case Register(c) =>
      s.(clients := s.clients[c := Client(Serving, [], false, [], [], |s.broadcasts|)],
         registered := s.registered + {c})
    case Receive(c) =>
      var k := s.clients[c];
      s.(clients := s.clients[c := k.(buffer := k.buffer[1..], received := k.received + [k.buffer[0]])])
    case SeeClosed(c) => s.(clients := s.clients[c := s.clients[c].(phase := Leaving)])
    case RequestDone(c) => s.(clients := s.clients[c := s.clients[c].(phase := Leaving)])
    case Unregister(c) =>
      s.(clients := s.clients[c := s.clients[c].(phase := Gone)], registered := s.registered - {c})
    case BeginBroadcast(msg) =>
      s.(broadcasts := s.broadcasts + [msg], lock := Broadcasting(s.registered))
    case Send(c) =>
      var k := s.clients[c];
      if k.channelClosed then s.(panicked := true)
      else
        s.(clients := s.clients[c := k.(buffer := Pushed(k.buffer, s.broadcasts[|s.broadcasts| - 1]),
                                        accepted := k.accepted + [|k.buffer| < BUFFER])],
           lock := Broadcasting(s.lock.pending - {c}))
    case EndBroadcast => s.(lock := Free)
    case BeginClose => s.(closed := true, lock := Closing(s.registered))
    case CloseOne(c) =>
      var k := s.clients[c];
      if k.channelClosed then s.(panicked := true)
      else
        s.(clients := s.clients[c := k.(channelClosed := true)],
           registered := s.registered - {c},
           lock := Closing(s.lock.pending - {c}))
    case EndClose => s.(lock := Free)
  }

  // ----- runs

  predicate Runs(s: State, steps: seq<Step>)
    decreases steps
  {
    steps == [] || (Enabled(s, steps[0]) && Runs(Apply(s, steps[0]), steps[1..]))
  }

  function After(s: State, steps: seq<Step>): State
    requires Runs(s, steps)
    decreases steps
  {
    if steps == [] then s else After(Apply(s, steps[0]), steps[1..])
  }

  // ----- the invariant

  /** The offered messages that were taken. */
  function Kept(msgs: seq<Msg>, accepted: seq<bool>): seq<Msg>
    requires |msgs| == |accepted|
  {
    if msgs == [] then []
    else
      var n := |msgs| - 1;
      Kept(msgs[..n], accepted[..n]) + if accepted[n] then [msgs[n]] else []
  }

  function Dropped(accepted: seq<bool>): nat {
    if accepted == [] then 0
    else Dropped(accepted[..|accepted| - 1]) + if accepted[|accepted| - 1] then 0 else 1
  }

  /** A client has been offered the broadcasts since it registered, one after the other, and
      what it has received and holds is what it took of them. */
  predicate ClientOk(k: Client, broadcasts: seq<Msg>) {
    && |k.buffer| <= BUFFER
    && k.since + |k.accepted| <= |broadcasts|
    && k.received + k.buffer == Kept(broadcasts[k.since..k.since + |k.accepted|], k.accepted)
  }

  function Pending(s: State): set<ClientId> {
    if s.lock.Free? then {} else s.lock.pending
  }

  /** A registered client's channel is open; it has been offered every broadcast but, at most,
      the one whose loop has not come to it yet. */
  predicate RegisteredOk(s: State, c: ClientId) {
    && c in s.clients
    && !s.clients[c].channelClosed
    && s.clients[c].phase != Gone
    && s.clients[c].since + |s.clients[c].accepted|
       == |s.broadcasts| - if s.lock.Broadcasting? && c in s.lock.pending then 1 else 0
  }

  ghost predicate Inv(s: State) {
    && !s.panicked
    && Pending(s) <= s.registered
    && (s.lock.Broadcasting? ==> s.broadcasts != [])
    && (forall c | c in s.clients :: ClientOk(s.clients[c], s.broadcasts))
    && (forall c | c in s.registered :: RegisteredOk(s, c))
  }

  lemma KeptOneMore(msgs: seq<Msg>, accepted: seq<bool>, msg: Msg, taken: bool)
    requires |msgs| == |accepted|
    ensures Kept(msgs + [msg], accepted + [taken]) == Kept(msgs, accepted) + if taken then [msg] else []
    ensures Dropped(accepted + [taken]) == Dropped(accepted) + if taken then 0 else 1
  {
    assert (msgs + [msg])[..|msgs|] == msgs && (accepted + [taken])[..|msgs|] == accepted;
  }

  lemma SendKeepsClient(k: Client, broadcasts: seq<Msg>)
    requires ClientOk(k, broadcasts) && k.since + |k.accepted| == |broadcasts| - 1
    ensures ClientOk(
      k.(buffer := Pushed(k.buffer, broadcasts[|broadcasts| - 1]), accepted := k.accepted + [|k.buffer| < BUFFER]),
      broadcasts)
  {
    hide Kept;
    var n := |broadcasts| - 1;
    var msgs := broadcasts[k.since..n];
    var taken := |k.buffer| < BUFFER;
    assert broadcasts[k.since..n + 1] == msgs + [broadcasts[n]];
    KeptOneMore(msgs, k.accepted, broadcasts[n], taken);
    var more := if taken then [broadcasts[n]] else [];
    assert Pushed(k.buffer, broadcasts[n]) == k.buffer + more;
    Regroup(k.received, k.buffer, more);
  }

  lemma BroadcastKeepsClient(k: Client, broadcasts: seq<Msg>, msg: Msg)
    requires ClientOk(k, broadcasts)
    ensures ClientOk(k, broadcasts + [msg])
  {
    var n := k.since + |k.accepted|;
    assert (broadcasts + [msg])[k.since..n] == broadcasts[k.since..n];
  }

  lemma NewClientOk(broadcasts: seq<Msg>)
    ensures ClientOk(Client(Serving, [], false, [], [], |broadcasts|), broadcasts)
  {
    assert broadcasts[|broadcasts|..|broadcasts|] == [];
  }

  lemma ReceiveKeepsClient(k: Client, broadcasts: seq<Msg>)
    requires ClientOk(k, broadcasts) && k.buffer != []
    ensures ClientOk(k.(buffer := k.buffer[1..], received := k.received + [k.buffer[0]]), broadcasts)
  {
    hide Kept;
    assert k.received + [k.buffer[0]] + k.buffer[1..] == k.received + k.buffer;
  }

  lemma StepKeepsInv(s: State, step: Step)
    requires Inv(s) && Enabled(s, step)
    ensures Inv(Apply(s, step))
  {
    hide ClientOk, Pushed;
    match step
    case Register(c) => NewClientOk(s.broadcasts);
    case Receive(c) => ReceiveKeepsClient(s.clients[c], s.broadcasts);
    case SeeClosed(c) => PhaseKeepsClient(s.clients[c], s.broadcasts, Leaving);
    case RequestDone(c) => PhaseKeepsClient(s.clients[c], s.broadcasts, Leaving);
    case Unregister(c) => PhaseKeepsClient(s.clients[c], s.broadcasts, Gone);
    case BeginBroadcast(msg) =>
      forall c | c in s.clients ensures ClientOk(s.clients[c], s.broadcasts + [msg]) {
        BroadcastKeepsClient(s.clients[c], s.broadcasts, msg);
      }
    case Send(c) =>
      assert RegisteredOk(s, c);
      SendKeepsClient(s.clients[c], s.broadcasts);
    case CloseOne(c) =>
      assert RegisteredOk(s, c);
      CloseKeepsClient(s.clients[c], s.broadcasts);
    case _ =>
  }

  lemma PhaseKeepsClient(k: Client, broadcasts: seq<Msg>, phase: Phase)
    requires ClientOk(k, broadcasts)
    ensures ClientOk(k.(phase := phase), broadcasts)
  {
  }

  lemma CloseKeepsClient(k: Client, broadcasts: seq<Msg>)
    requires ClientOk(k, broadcasts)
    ensures ClientOk(k.(channelClosed := true), broadcasts)
  {
  }

  /** The invariant holds in every interleaving. */
  lemma {:induction false} RunKeepsInv(s: State, steps: seq<Step>)
    requires Inv(s) && Runs(s, steps)
    ensures Inv(After(s, steps))
    decreases steps
  {
    if steps != [] {
      StepKeepsInv(s, steps[0]);
      RunKeepsInv(Apply(s, steps[0]), steps[1..]);
    }
  }

  // ----- what it means

  lemma {:induction false} KeptPlusDropped(msgs: seq<Msg>, accepted: seq<bool>)
    requires |msgs| == |accepted|
    ensures |Kept(msgs, accepted)| + Dropped(accepted) == |msgs|
  {
    if msgs != [] { KeptPlusDropped(msgs[..|msgs| - 1], accepted[..|msgs| - 1]); }
  }

  /** Positions `at` pick `a` out of `b` in order. */
  ghost predicate PicksOut(a: seq<Msg>, b: seq<Msg>, at: seq<nat>) {
    && |at| == |a|
    && (forall i | 0 <= i < |a| :: at[i] < |b| && b[at[i]] == a[i])
    && (forall i, j | 0 <= i < j < |at| :: at[i] < at[j])
  }

  ghost predicate Subsequence(a: seq<Msg>, b: seq<Msg>) {
    exists at :: PicksOut(a, b, at)
  }

  lemma PickOneMore(a: seq<Msg>, b: seq<Msg>, at: seq<nat>, msg: Msg)
    requires PicksOut(a, b, at)
    ensures Subsequence(a, b + [msg]) && Subsequence(a + [msg], b + [msg])
  {
    assert PicksOut(a, b + [msg], at);
    assert PicksOut(a + [msg], b + [msg], at + [|b|]);
  }

  lemma {:induction false} KeptIsSubsequence(msgs: seq<Msg>, accepted: seq<bool>)
    requires |msgs| == |accepted|
    ensures Subsequence(Kept(msgs, accepted), msgs)
  {
    if msgs == [] {
      assert PicksOut([], msgs, []);
    } else {
      var n := |msgs| - 1;
      KeptIsSubsequence(msgs[..n], accepted[..n]);
      var at :| PicksOut(Kept(msgs[..n], accepted[..n]), msgs[..n], at);
      PickOneMore(Kept(msgs[..n], accepted[..n]), msgs[..n], at, msgs[n]);
      assert msgs == msgs[..n] + [msgs[n]];
      assert Kept(msgs[..n], accepted[..n]) + [] == Kept(msgs[..n], accepted[..n]);
    }
  }

  /** In every interleaving, a registered client that the current loop has passed has received or
      holds an in-order part of the broadcasts since it registered; the rest were dropped, and
      nothing is lost or doubled. The buffer never exceeds its bound and nothing panics. */
  lemma EveryClientSeesTheStream(steps: seq<Step>, c: ClientId)
    requires Runs(INITIAL, steps)
    ensures var s := After(INITIAL, steps);
            && !s.panicked
            && (c in s.clients ==> |s.clients[c].buffer| <= 32)
            && (c in s.registered && c !in Pending(s) ==>
                  c in s.clients && s.clients[c].since <= |s.broadcasts| &&
                  var k, offered := s.clients[c], s.broadcasts[s.clients[c].since..];
                  && Subsequence(k.received + k.buffer, offered)
                  && |k.received| + |k.buffer| + Dropped(k.accepted) == |offered|)
  {
    RunKeepsInv(INITIAL, steps);
    var s := After(INITIAL, steps);
    if c in s.registered && c !in Pending(s) {
      assert RegisteredOk(s, c) && ClientOk(s.clients[c], s.broadcasts);
      var k := s.clients[c];
      assert s.broadcasts[k.since..] == s.broadcasts[k.since..k.since + |k.accepted|];
      KeptPlusDropped(s.broadcasts[k.since..], k.accepted);
      KeptIsSubsequence(s.broadcasts[k.since..], k.accepted);
    }
  }

  /** The same for a client that has left or been closed: its stream is cut, not disturbed. */
  lemma DepartedClientsSawAPrefix(steps: seq<Step>, c: ClientId)
    requires Runs(INITIAL, steps) && c in After(INITIAL, steps).clients
    ensures var s := After(INITIAL, steps);
            var k := s.clients[c];
            && k.since + |k.accepted| <= |s.broadcasts|
            && Subsequence(k.received + k.buffer, s.broadcasts[k.since..k.since + |k.accepted|])
            && |k.received| + |k.buffer| + Dropped(k.accepted) == |k.accepted|
  {
    RunKeepsInv(INITIAL, steps);
    var s := After(INITIAL, steps);
    var k := s.clients[c];
    assert ClientOk(k, s.broadcasts);
    var offered := s.broadcasts[k.since..k.since + |k.accepted|];
    KeptPlusDropped(offered, k.accepted);
    KeptIsSubsequence(offered, k.accepted);
  }

  /** A message is dropped for a client in exactly one situation: its buffer is full when it is offered. */
  lemma DropsOnlyWhenFull(s: State, step: Step, c: ClientId)
    requires Inv(s) && Enabled(s, step) && c in s.clients
    ensures var before, after := s.clients[c], Apply(s, step).clients[c];
            Dropped(after.accepted) == Dropped(before.accepted)
              + if step == Send(c) && |before.buffer| == 32 then 1 else 0
  {
    assert step == Send(c) ==> RegisteredOk(s, c);
    assert ClientOk(s.clients[c], s.broadcasts);
    var a := s.clients[c].accepted;
    assert forall taken: bool :: (a + [taken])[..|a|] == a;
  }

  /** Once the renderer is closed it stays closed and broadcasts nothing more. */
  lemma {:induction false} ClosedIsFinal(s: State, steps: seq<Step>)
    requires Runs(s, steps) && s.closed
    ensures After(s, steps).closed && After(s, steps).broadcasts == s.broadcasts
    decreases steps
  {
    if steps != [] { ClosedIsFinal(Apply(s, steps[0]), steps[1..]); }
  }

  /** What a handler has written out only ever grows at its end. */
  lemma {:induction false} ReceivedOnlyGrows(s: State, steps: seq<Step>, c: ClientId)
    requires Runs(s, steps) && c in s.clients
    ensures c in After(s, steps).clients && s.clients[c].received <= After(s, steps).clients[c].received
    decreases steps
  {
    if steps != [] { ReceivedOnlyGrows(Apply(s, steps[0]), steps[1..], c); }
  }

  /** A close reaches every client that was registered when it began: the channel is closed, or the
      loop has still to come to it, and once the loop is over none is left open. */
  lemma CloseReachesEveryone(s: State, steps: seq<Step>, c: ClientId)
    requires Enabled(s, BeginClose) && c in s.registered && c in s.clients
    requires Runs(Apply(s, BeginClose), steps)
    ensures var t := After(Apply(s, BeginClose), steps);
            && t.closed && c in t.clients
            && (t.clients[c].channelClosed || (t.lock.Closing? && c in t.lock.pending))
  {
    ClosingGoesOn(Apply(s, BeginClose), steps, c);
  }

  lemma {:induction false} ClosingGoesOn(s: State, steps: seq<Step>, c: ClientId)
    requires s.closed && c in s.clients && Runs(s, steps)
    requires s.clients[c].channelClosed || (s.lock.Closing? && c in s.lock.pending)
    ensures var t := After(s, steps);
            && t.closed && c in t.clients
            && (t.clients[c].channelClosed || (t.lock.Closing? && c in t.lock.pending))
    decreases steps
  {
    if steps != [] { ClosingGoesOn(Apply(s, steps[0]), steps[1..], c); }
  }

  /** A request that comes after the close is served like any other, but hears nothing: no message and
      no close of its channel, in any continuation. Only the end of the request lets it go. */
  lemma LateClientHearsNothing(s: State, c: ClientId, steps: seq<Step>)
    requires s.closed && s.lock.Free? && c !in s.clients
    ensures Enabled(s, Register(c))
    ensures Runs(Apply(s, Register(c)), steps) ==>
              var t := After(Apply(s, Register(c)), steps);
              && c in t.clients && t.clients[c].received == [] && t.clients[c].buffer == []
              && !t.clients[c].channelClosed
              && (t.clients[c].phase == Serving ==> Enabled(t, RequestDone(c)) && !Enabled(t, SeeClosed(c)))
  {
    if Runs(Apply(s, Register(c)), steps) { LateClientStaysUnheard(Apply(s, Register(c)), c, steps); }
  }

  lemma {:induction false} LateClientStaysUnheard(s: State, c: ClientId, steps: seq<Step>)
    requires s.closed && c in s.clients && c !in Pending(s) && !s.lock.Broadcasting? && Runs(s, steps)
    requires s.clients[c].received == [] && s.clients[c].buffer == [] && !s.clients[c].channelClosed
    ensures var t := After(s, steps);
            && c in t.clients && t.clients[c].received == [] && t.clients[c].buffer == []
            && !t.clients[c].channelClosed
    decreases steps
  {
    if steps != [] { LateClientStaysUnheard(Apply(s, steps[0]), c, steps[1..]); }
  }

  /** Reading on: all of what is buffered, then the close. */
  function ReadingOn(c: ClientId, n: nat): seq<Step> {
    if n == 0 then [SeeClosed(c)] else [Receive(c)] + ReadingOn(c, n - 1)
  }

  /** A client whose channel was closed can still read everything it holds, and then its handler
      returns; it cannot see the close before. */
  lemma {:induction false} ClosedClientReadsOn(s: State, c: ClientId)
    requires InPhase(s, c, Serving) && s.clients[c].channelClosed
    ensures Enabled(s, SeeClosed(c)) <==> s.clients[c].buffer == []
    ensures Runs(s, ReadingOn(c, |s.clients[c].buffer|))
    ensures var t := After(s, ReadingOn(c, |s.clients[c].buffer|));
            && InPhase(t, c, Leaving) && t.clients[c].buffer == []
            && t.clients[c].received == s.clients[c].received + s.clients[c].buffer
    decreases |s.clients[c].buffer|
  {
    var k := s.clients[c];
    if k.buffer == [] {
      assert ReadingOn(c, 0)[1..] == [];
      assert k.received + k.buffer == k.received;
    } else {
      var t := Apply(s, Receive(c));
      ClosedClientReadsOn(t, c);
      RunCons(s, Receive(c), ReadingOn(c, |k.buffer| - 1));
      assert k.received + [k.buffer[0]] + k.buffer[1..] == k.received + k.buffer;
    }
  }

  // ----- the renderer's own loops, run under the mutex with no receive in between

  /** From `s` to `t` exactly the clients in `who` were offered the latest broadcast. */
  ghost predicate Offered(s: State, t: State, who: set<ClientId>) {
    && s.broadcasts != [] && t.broadcasts == s.broadcasts && t.clients.Keys == s.clients.Keys
    && forall c | c in s.clients ::
         t.clients[c].buffer
         == if c in who then Pushed(s.clients[c].buffer, s.broadcasts[|s.broadcasts| - 1]) else s.clients[c].buffer
  }

  lemma OfferedNobody(s: State)
    requires Inv(s) && s.lock.Broadcasting?
    ensures Offered(s, s, {})
  {
  }

  lemma RunCons(s: State, step: Step, rest: seq<Step>)
    requires Enabled(s, step) && Runs(Apply(s, step), rest)
    ensures Runs(s, [step] + rest) && After(s, [step] + rest) == After(Apply(s, step), rest)
  {
    hide Enabled, Apply;
    assert ([step] + rest)[1..] == rest;
  }

  lemma OfferedOneMore(s: State, t: State, u: State, c: ClientId, rest: set<ClientId>)
    requires Offered(s, t, {c}) && Offered(t, u, rest) && c !in rest
    ensures Offered(s, u, {c} + rest)
  {
    hide Pushed;
  }

  lemma SendOne(s: State, c: ClientId)
    requires Inv(s) && s.lock.Broadcasting? && c in s.lock.pending
    ensures Enabled(s, Send(c))
    ensures var t := Apply(s, Send(c));
            Inv(t) && t.lock == Broadcasting(s.lock.pending - {c}) && Offered(s, t, {c})
  {
    hide ClientOk, Pushed;
    assert RegisteredOk(s, c);
    StepKeepsInv(s, Send(c));
  }

  /** A run of sends that visits the pending clients in some order pushes the message to each once. */
  lemma {:induction false} UninterruptedSends(s: State, order: seq<ClientId>)
    requires Inv(s) && s.lock.Broadcasting?
    requires forall i, j | 0 <= i < j < |order| :: order[i] != order[j]
    requires forall c :: c in order <==> c in s.lock.pending
    ensures Runs(s, SendAll(order)) && After(s, SendAll(order)).lock == Broadcasting({})
    ensures Offered(s, After(s, SendAll(order)), s.lock.pending)
    decreases order
  {
    hide Inv, Enabled, Apply, Offered;
    if order == [] {
      assert s.lock.pending == {} && SendAll(order) == [];
      OfferedNobody(s);
    } else {
      hide Runs, After;
      var c := order[0];
      SendOne(s, c);
      var t := Apply(s, Send(c));
      assert SendAll(order) == [Send(c)] + SendAll(order[1..]);
      forall d ensures d in order[1..] <==> d in t.lock.pending {
        assert d in order <==> d == c || d in order[1..];
      }
      UninterruptedSends(t, order[1..]);
      RunCons(s, Send(c), SendAll(order[1..]));
      OfferedOneMore(s, t, After(t, SendAll(order[1..])), c, t.lock.pending);
      assert {c} + t.lock.pending == s.lock.pending;
    }
  }

  function SendAll(order: seq<ClientId>): seq<Step> {
    seq(|order|, i requires 0 <= i < |order| => Send(order[i]))
  }

  /** A client's channel object. */
  class SseChannel {
    var buffer: seq<Msg>
    var closed: bool

    constructor ()
      ensures buffer == [] && !closed
    {
      buffer, closed := [], false;
    }

    /** Taking the oldest message; after a close the buffered ones still come first. */
    method Receive() returns (msg: Msg)
      requires buffer != []
      modifies this`buffer
      ensures old(buffer) == [msg] + buffer
    {
      msg := buffer[0];
      buffer := buffer[1..];
    }
  }

  class WebRenderer {
    var closed: bool
    var clients: set<SseChannel>

    ghost predicate Valid()
      reads this, clients
    {
      forall ch | ch in clients :: !ch.closed && |ch.buffer| <= BUFFER
    }

    constructor ()
      ensures Valid() && !closed && clients == {}
    {
      closed, clients := false, {};
    }

    /** A new request: its channel joins the clients, even when the renderer is closed. */
    method Register() returns (ch: SseChannel)
      requires Valid()
      modifies this`clients
      ensures Valid() && fresh(ch) && ch.buffer == [] && !ch.closed
      ensures clients == old(clients) + {ch}
    {
      ch := new SseChannel();
      clients := clients + {ch};
    }

    method Unregister(ch: SseChannel)
      requires Valid()
      modifies this`clients
      ensures Valid() && clients == old(clients) - {ch}
    {
      clients := clients - {ch};
    }

    /** Every client gets the message if it has room, and nobody else is touched. */
    method RenderTrace(msg: Msg)
      requires Valid()
      modifies clients
      ensures Valid()
      ensures forall ch | ch in clients ::
                ch.buffer == old(ch.buffer) + if !closed && |old(ch.buffer)| < 32 then [msg] else []
    {
      if closed {
        return;
      }
      var rest := clients;
      while rest != {}
        invariant rest <= clients && Valid()
        invariant forall ch | ch in rest :: ch.buffer == old(ch.buffer)
        invariant forall ch | ch in clients - rest :: ch.buffer == Pushed(old(ch.buffer), msg)
      {
        var ch :| ch in rest;
        rest := rest - {ch};
        if |ch.buffer| < BUFFER {
          ch.buffer := ch.buffer + [msg];
        }
      }
    }

    /** Every client's channel is closed once, and what it holds stays readable. */
    method Close()
      requires Valid()
      modifies this, clients
      ensures Valid() && closed
      ensures clients == if old(closed) then old(clients) else {}
      ensures forall ch | ch in old(clients) :: ch.closed == !old(closed) && ch.buffer == old(ch.buffer)
    {
      if closed {
        return;
      }
      closed := true;
      ghost var all := clients;
      while clients != {}
        invariant clients <= all && Valid() && closed
        invariant forall ch | ch in all :: ch.buffer == old(ch.buffer) && (ch.closed <==> ch !in clients)
        decreases |clients|
      {
        var ch :| ch in clients;
        assert !ch.closed;
        ch.closed := true;
        clients := clients - {ch};
      }
    }
  }
}
