/** The session protocol as a small-step machine: forwarder goroutines on one side, the
    service's reconnect and select loops on the other, cancellation and the broker in between.
    Every interleaving of their steps is a run. */
module Session {
  import opened Sequences
  import opened Parser
  import opened Pipeline

  // ----- one session: a connection, its channel and its forwarder

  datatype Party = ForwarderSide | ServiceSide

  /** `sync.Once` around closing the channel. */
  datatype Once = Fresh | RunBy(party: Party) | Done

  datatype Forwarder =
    | NotStarted
    | Waiting
    | Holding(delivery: Delivery)
    | Leaving
    | Cleaned
    | Exited

  /** `produced` is what the broker has put into the delivery channel and `taken` how much of it
      the forwarder has received. Like any buffered channel, this one keeps what it holds when it is
      closed. `handed` is what the service got, `dropped` what the forwarder gave up on cancellation. */
  datatype Session = Session(
    produced: seq<Delivery>,
    brokerClosed: bool,
    taken: nat,
    handed: seq<Delivery>,
    dropped: seq<Delivery>,
    forwarder: Forwarder,
    once: Once,
    channelOpened: bool,
    channelCloses: nat,
    connectionLost: bool,
    connectionCloses: nat)

  const NEW_SESSION := Session([], false, 0, [], [], NotStarted, Fresh, false, 0, false, 0)

  /** What the broker and the forwarder do. */
  datatype ForwarderStep =
    | Produce(delivery: Delivery)
    | BrokerClose
    | LoseConnection
    | Take
    | SeeBrokerClosed
    | SeeCancelled
    | BeginCleanup
    | EndCleanup
    | SkipCleanup
    | CloseOut

  predicate ForwarderEnabled(x: Session, step: ForwarderStep, cancelled: bool) {
    match step
    case Produce(_) => x.channelOpened && !x.brokerClosed
    case BrokerClose => x.channelOpened && !x.brokerClosed
    case LoseConnection => true
    case Take => x.forwarder.Waiting? && x.taken < |x.produced|
    case SeeBrokerClosed => x.forwarder.Waiting? && x.brokerClosed && x.taken == |x.produced|
    case SeeCancelled => cancelled && (x.forwarder.Waiting? || x.forwarder.Holding?)
    case BeginCleanup => x.forwarder.Leaving? && x.once.Fresh?
    case EndCleanup => x.once == RunBy(ForwarderSide)
    case SkipCleanup => x.forwarder.Leaving? && x.once.Done?
    case CloseOut => x.forwarder.Cleaned?
  }

  function ForwarderApply(x: Session, step: ForwarderStep, cancelled: bool): Session
    requires ForwarderEnabled(x, step, cancelled)
  {
    match step
    case Produce(d) => x.(produced := x.produced + [d])
    case BrokerClose => x.(brokerClosed := true)
    case LoseConnection => x.(connectionLost := true)
    case Take => x.(forwarder := Holding(x.produced[x.taken]), taken := x.taken + 1)
    case SeeBrokerClosed => x.(forwarder := Leaving)
    case SeeCancelled => x.(forwarder := Leaving, dropped := Held(x))
    case BeginCleanup => x.(once := RunBy(ForwarderSide))
    case EndCleanup => x.(once := Done, channelCloses := x.channelCloses + 1, forwarder := Cleaned)
    case SkipCleanup => x.(forwarder := Cleaned)
    case CloseOut => x.(forwarder := Exited)
  }

  /** The delivery between broker and service: held by the forwarder or dropped by it. */
  function Held(x: Session): seq<Delivery> {
    if x.forwarder.Holding? then [x.forwarder.delivery] else x.dropped
  }

  // ----- the service

  datatype Phase =
    | Top
    | Connecting
    | SettingUp
    | Selecting
    | Handling(delivery: Delivery)
    | Ending(err: SessionError)
    | Closing(err: SessionError)
    | Deciding(err: SessionError)
    | Finishing
    | Stopped

  datatype State = State(
    sessions: seq<Session>,
    phase: Phase,
    cancelled: bool,
    matched: nat,
    attempts: seq<Attempt>,
    handled: seq<Delivery>,
    rendererCloses: nat)

  const INITIAL := State([], Top, false, 0, [], [], 0)

  /** Steps of the reconnect loop. */
  datatype LoopStep =
    | StopCancelled
    | StartConnect
    | ConnectFails
    | Connect
    | Decide
    | CloseRenderer

  /** Steps inside one session: setting up, selecting, handling, tearing down. */
  datatype ServiceStep =
    | OpenChannel
    | ConsumeFails(cancelLike: bool)
    | ConsumeSucceeds
    | SelectCancelled
    | SelectConnectionClosed
    | SelectOutClosed
    | HandOver
    | SkipDelivery
    | RenderSucceeds
    | RenderFails(cancelLike: bool)
    | ServiceBeginCleanup
    | ServiceEndCleanup
    | ServiceSkipCleanup
    | CloseConnection

  datatype Step =
    | Cancel
    | Forward(session: nat, step: ForwarderStep)
    | Loop(loop: LoopStep)
    | Serve(service: ServiceStep)

  predicate LoopEnabled(s: State, step: LoopStep) {
    match step
    case StopCancelled => s.phase.Top? && s.cancelled
    case StartConnect => s.phase.Top? && !s.cancelled
    case ConnectFails => s.phase.Connecting?
    case Connect => s.phase.Connecting?
    case Decide => s.phase.Deciding?
    case CloseRenderer => s.phase.Finishing?
  }

  function LoopApply(s: State, step: LoopStep): State
    requires LoopEnabled(s, step)
  {
    match step
    case StopCancelled => s.(phase := Finishing)
    case StartConnect => s.(phase := Connecting)
    case ConnectFails => s.(phase := Finishing)
    case Connect => s.(sessions := s.sessions + [NEW_SESSION], phase := SettingUp)
    case Decide => s.(phase := if Continues(s.phase.err, s.cancelled) then Top else Finishing)
    case CloseRenderer => s.(phase := Stopped, rendererCloses := s.rendererCloses + 1)
  }

  predicate ServiceEnabled(cfg: Config, s: State, x: Session, step: ServiceStep) {
    match step
    case OpenChannel => s.phase.SettingUp? && !x.channelOpened
    case ConsumeFails(_) => s.phase.SettingUp?
    case ConsumeSucceeds => s.phase.SettingUp? && x.channelOpened
    case SelectCancelled => s.phase.Selecting? && s.cancelled
    case SelectConnectionClosed => s.phase.Selecting? && x.connectionLost
    case SelectOutClosed => s.phase.Selecting? && x.forwarder.Exited?
    case HandOver => s.phase.Selecting? && x.forwarder.Holding?
    case SkipDelivery => s.phase.Handling? && Selected(cfg, s.phase.delivery).None?
    case RenderSucceeds => s.phase.Handling? && Selected(cfg, s.phase.delivery).Some?
    case RenderFails(_) => s.phase.Handling? && Selected(cfg, s.phase.delivery).Some?
    case ServiceBeginCleanup => s.phase.Ending? && x.once.Fresh?
    case ServiceEndCleanup => s.phase.Ending? && x.once == RunBy(ServiceSide)
    case ServiceSkipCleanup => s.phase.Ending? && x.once.Done?
    case CloseConnection => s.phase.Closing?
  }

  /** What a service step does to its session. */
  function ServiceSession(cfg: Config, s: State, x: Session, step: ServiceStep): Session
    requires ServiceEnabled(cfg, s, x, step)
  {
    match step
    case OpenChannel => x.(channelOpened := true)
    case ConsumeFails(_) => x.(channelCloses := x.channelCloses + if x.channelOpened then 1 else 0)
    case ConsumeSucceeds => x.(forwarder := Waiting)
    case HandOver => x.(forwarder := Waiting, handed := x.handed + [x.forwarder.delivery])
    case ServiceBeginCleanup => x.(once := RunBy(ServiceSide))
    case ServiceEndCleanup => x.(once := Done, channelCloses := x.channelCloses + 1)
    case CloseConnection => x.(connectionCloses := x.connectionCloses + 1)
    case _ => x
  }

  function ServicePhase(cfg: Config, s: State, x: Session, step: ServiceStep): Phase
    requires ServiceEnabled(cfg, s, x, step)
  {
    match step
    case OpenChannel => SettingUp
    case ConsumeFails(cancelLike) => Closing(ConsumeFailed(cancelLike))
    case ConsumeSucceeds => Selecting
    case SelectCancelled => Ending(ContextDone)
    case SelectConnectionClosed => Ending(ReconnectNeeded)
    case SelectOutClosed => Ending(ReconnectNeeded)
    case HandOver => Handling(x.forwarder.delivery)
    case SkipDelivery => Selecting
    case RenderSucceeds => if LimitReached(cfg, s.matched + 1) then Ending(MaxEventsReached) else Selecting
    case RenderFails(cancelLike) => Ending(RenderFailed(cancelLike))
    case ServiceBeginCleanup => s.phase
    case ServiceEndCleanup => Closing(s.phase.err)
    case ServiceSkipCleanup => Closing(s.phase.err)
    case CloseConnection => Deciding(s.phase.err)
  }

  function ServiceApply(cfg: Config, s: State, x: Session, step: ServiceStep): State
    requires s.sessions != [] && ServiceEnabled(cfg, s, x, step)
  {
    var t := s.(sessions := s.sessions[|s.sessions| - 1 := ServiceSession(cfg, s, x, step)],
                phase := ServicePhase(cfg, s, x, step));
    match step
    case SkipDelivery => t.(handled := s.handled + [s.phase.delivery])
    case RenderSucceeds =>
      t.(handled := s.handled + [s.phase.delivery],
         attempts := s.attempts + [Attempt(Selected(cfg, s.phase.delivery).value, true)],
         matched := s.matched + 1)
    case RenderFails(_) =>
      t.(handled := s.handled + [s.phase.delivery],
         attempts := s.attempts + [Attempt(Selected(cfg, s.phase.delivery).value, false)])
    case _ => t
  }

  predicate Enabled(cfg: Config, s: State, step: Step) {
    match step
    case Cancel => true
    case Forward(i, f) => i < |s.sessions| && ForwarderEnabled(s.sessions[i], f, s.cancelled)
    case Loop(l) => LoopEnabled(s, l)
    case Serve(v) => s.sessions != [] && ServiceEnabled(cfg, s, s.sessions[|s.sessions| - 1], v)
  }

  function Apply(cfg: Config, s: State, step: Step): State
    requires Enabled(cfg, s, step)
  {
    match step
    case Cancel => s.(cancelled := true)
    case Forward(i, f) => s.(sessions := s.sessions[i := ForwarderApply(s.sessions[i], f, s.cancelled)])
    case Loop(l) => LoopApply(s, l)
    case Serve(v) => ServiceApply(cfg, s, s.sessions[|s.sessions| - 1], v)
  }

  predicate Runs(cfg: Config, s: State, steps: seq<Step>)
    decreases steps
  {
    steps == [] || (Enabled(cfg, s, steps[0]) && Runs(cfg, Apply(cfg, s, steps[0]), steps[1..]))
  }

  function After(cfg: Config, s: State, steps: seq<Step>): State
    requires Runs(cfg, s, steps)
    decreases steps
  {
    if steps == [] then s else After(cfg, Apply(cfg, s, steps[0]), steps[1..])
  }

  // ----- the invariant of one session

  predicate Started(x: Session) {
    !x.forwarder.NotStarted?
  }

  /** What went in came out in order, but for at most one delivery. */
  predicate Fifo(x: Session) {
    && x.taken <= |x.produced|
    && x.handed + Held(x) == x.produced[..x.taken]
    && |Held(x)| <= 1
    && (x.forwarder.Waiting? || x.forwarder.Holding? || x.forwarder.NotStarted? ==> x.dropped == [])
  }

  /** The channel is closed once, by whoever runs the once; the connection only afterwards. */
  predicate ClosesOnce(x: Session) {
    && (Started(x) ==> x.channelOpened && x.channelCloses == if x.once.Done? then 1 else 0)
    && (!Started(x) ==> x.once.Fresh? && x.channelCloses <= (if x.channelOpened then 1 else 0)
                        && x.taken == 0 && x.handed == [])
    && (x.once == RunBy(ForwarderSide) ==> x.forwarder.Leaving?)
    && (x.forwarder.Cleaned? || x.forwarder.Exited? ==> x.once.Done?)
    && x.connectionCloses <= 1
    && (x.connectionCloses == 1 ==> ChannelSettled(x))
  }

  /** The channel, if there is one, has been closed. */
  predicate ChannelSettled(x: Session) {
    x.channelCloses == if x.channelOpened then 1 else 0
  }

  predicate SessionOk(x: Session) {
    Fifo(x) && ClosesOnce(x)
  }

  /** What the forwarder's side leaves to the service. */
  predicate ForwarderFrame(x: Session, y: Session) {
    && y.handed == x.handed
    && y.connectionCloses == x.connectionCloses
    && y.channelOpened == x.channelOpened
    && Started(y) == Started(x)
    && (y.once == RunBy(ServiceSide) <==> x.once == RunBy(ServiceSide))
    && (ChannelSettled(x) ==> ChannelSettled(y))
    && (!Started(x) ==> y.channelCloses == x.channelCloses)
  }

  lemma ForwarderKeepsFifo(x: Session, step: ForwarderStep, cancelled: bool)
    requires Fifo(x) && ClosesOnce(x) && ForwarderEnabled(x, step, cancelled)
    ensures Fifo(ForwarderApply(x, step, cancelled))
  {
    var y := ForwarderApply(x, step, cancelled);
    match step
    case Produce(d) => assert y.produced[..y.taken] == x.produced[..x.taken];
    case Take => assert x.produced[..x.taken + 1] == x.produced[..x.taken] + [x.produced[x.taken]];
    case _ => assert y.produced == x.produced && y.taken == x.taken;
  }

  lemma ForwarderKeepsCloses(x: Session, step: ForwarderStep, cancelled: bool)
    requires ClosesOnce(x) && ForwarderEnabled(x, step, cancelled)
    requires x.connectionCloses == 1 ==> x.once != RunBy(ServiceSide)
    ensures ClosesOnce(ForwarderApply(x, step, cancelled))
    ensures ForwarderFrame(x, ForwarderApply(x, step, cancelled))
  {
  }

  lemma ForwarderKeepsSession(x: Session, step: ForwarderStep, cancelled: bool)
    requires SessionOk(x) && ForwarderEnabled(x, step, cancelled)
    requires x.connectionCloses == 1 ==> x.once != RunBy(ServiceSide)
    ensures SessionOk(ForwarderApply(x, step, cancelled))
    ensures ForwarderFrame(x, ForwarderApply(x, step, cancelled))
  {
    ForwarderKeepsFifo(x, step, cancelled);
    ForwarderKeepsCloses(x, step, cancelled);
    hide ForwarderApply, ForwarderEnabled, Fifo, ClosesOnce, ForwarderFrame;
  }

  // ----- the sessions of a run

  predicate InSession(phase: Phase) {
    phase.SettingUp? || phase.Selecting? || phase.Handling? || phase.Ending? || phase.Closing?
  }

  /** The session the service is in. */
  predicate CurrentFits(x: Session, phase: Phase) {
    && x.connectionCloses == 0
    && (phase.SettingUp? ==> !Started(x) && x.channelCloses == 0)
    && (phase.Selecting? || phase.Handling? || phase.Ending? ==> Started(x))
    && (x.once == RunBy(ServiceSide) ==> phase.Ending?)
    && (phase.Closing? ==> ChannelSettled(x))
  }

  /** A session the service has left: connection closed, though its forwarder may linger. */
  predicate PastFits(x: Session) {
    x.connectionCloses == 1 && x.once != RunBy(ServiceSide)
  }

  predicate Fits(s: State, i: nat)
    requires i < |s.sessions|
  {
    && SessionOk(s.sessions[i])
    && if i == |s.sessions| - 1 && InSession(s.phase) then CurrentFits(s.sessions[i], s.phase)
       else PastFits(s.sessions[i])
  }

  ghost predicate SessionsOk(s: State) {
    && (InSession(s.phase) ==> s.sessions != [])
    && forall i | 0 <= i < |s.sessions| :: Fits(s, i)
  }

  lemma ServiceKeepsSession(cfg: Config, s: State, x: Session, step: ServiceStep)
    requires ServiceEnabled(cfg, s, x, step) && SessionOk(x) && CurrentFits(x, s.phase)
    ensures var y, phase := ServiceSession(cfg, s, x, step), ServicePhase(cfg, s, x, step);
            SessionOk(y) && if InSession(phase) then CurrentFits(y, phase) else PastFits(y)
  {
    hide Selected;
  }

  /** What the forwarder's side may do to a session leaves its place in the run. */
  lemma FrameKeepsFit(x: Session, y: Session, phase: Phase)
    requires ForwarderFrame(x, y)
    ensures CurrentFits(x, phase) ==> CurrentFits(y, phase)
    ensures PastFits(x) ==> PastFits(y)
  {
  }

  lemma ForwardKeepsSessions(s: State, i: nat, f: ForwarderStep)
    requires SessionsOk(s) && i < |s.sessions| && ForwarderEnabled(s.sessions[i], f, s.cancelled)
    ensures SessionsOk(s.(sessions := s.sessions[i := ForwarderApply(s.sessions[i], f, s.cancelled)]))
    ensures ForwarderFrame(s.sessions[i], ForwarderApply(s.sessions[i], f, s.cancelled))
  {
    var x := s.sessions[i];
    assert Fits(s, i);
    assert x.connectionCloses == 1 ==> x.once != RunBy(ServiceSide);
    ForwarderKeepsSession(x, f, s.cancelled);
    var y := ForwarderApply(x, f, s.cancelled);
    FrameKeepsFit(x, y, s.phase);
    hide SessionOk, CurrentFits, PastFits, ForwarderApply, ForwarderEnabled, ForwarderFrame;
    var t := s.(sessions := s.sessions[i := y]);
    forall j | 0 <= j < |t.sessions| ensures Fits(t, j) {
      assert Fits(s, j);
    }
  }

  lemma LoopKeepsSessions(s: State, l: LoopStep)
    requires SessionsOk(s) && LoopEnabled(s, l)
    ensures SessionsOk(LoopApply(s, l))
  {
    var t := LoopApply(s, l);
    forall j | 0 <= j < |t.sessions| ensures Fits(t, j) {
      if j < |s.sessions| { assert Fits(s, j); }
    }
  }

  lemma ServeKeepsSessions(cfg: Config, s: State, v: ServiceStep)
    requires SessionsOk(s) && s.sessions != [] && ServiceEnabled(cfg, s, s.sessions[|s.sessions| - 1], v)
    ensures SessionsOk(ServiceApply(cfg, s, s.sessions[|s.sessions| - 1], v))
  {
    var n := |s.sessions| - 1;
    assert Fits(s, n) && InSession(s.phase);
    ServiceKeepsSession(cfg, s, s.sessions[n], v);
    var t := ServiceApply(cfg, s, s.sessions[n], v);
    assert t.sessions == s.sessions[n := ServiceSession(cfg, s, s.sessions[n], v)];
    assert t.phase == ServicePhase(cfg, s, s.sessions[n], v);
    hide SessionOk, CurrentFits, PastFits, ServiceApply, ServiceSession, ServicePhase, ServiceEnabled;
    forall j | 0 <= j < |t.sessions| ensures Fits(t, j) {
      assert Fits(s, j);
    }
  }

  lemma StepKeepsSessions(cfg: Config, s: State, step: Step)
    requires SessionsOk(s) && Enabled(cfg, s, step)
    ensures SessionsOk(Apply(cfg, s, step))
  {
    match step
    case Cancel =>
      forall j | 0 <= j < |s.sessions| ensures Fits(Apply(cfg, s, step), j) { assert Fits(s, j); }
    case Forward(i, f) => ForwardKeepsSessions(s, i, f);
    case Loop(l) => LoopKeepsSessions(s, l);
    case Serve(v) => ServeKeepsSessions(cfg, s, v);
  }

  // ----- what has been rendered

  function HandedOver(): Session -> seq<Delivery> {
    (x: Session) => x.handed
  }

  /** The deliveries the service got, session after session. */
  function AllHanded(sessions: seq<Session>): seq<Delivery> {
    FlatMap(HandedOver(), sessions)
  }

  function InHand(phase: Phase): seq<Delivery> {
    if phase.Handling? then [phase.delivery] else []
  }

  /** Only teardown is left. */
  predicate Over(phase: Phase) {
    || phase == Ending(MaxEventsReached) || phase == Closing(MaxEventsReached) || phase == Deciding(MaxEventsReached)
    || phase.Finishing? || phase.Stopped?
  }

  ghost predicate OutputOk(cfg: Config, s: State) {
    && AllHanded(s.sessions) == s.handled + InHand(s.phase)
    && Attempted(s.attempts) == SelectedAll(cfg, s.handled)
    && s.matched == |Rendered(s.attempts)|
    && (cfg.maxEvents > 0 ==> s.matched <= cfg.maxEvents && (s.matched == cfg.maxEvents ==> Over(s.phase)))
    && s.rendererCloses == if s.phase.Stopped? then 1 else 0
  }

  lemma {:induction false} HandedUnchanged(sessions: seq<Session>, i: nat, x: Session)
    requires i < |sessions| && x.handed == sessions[i].handed
    ensures AllHanded(sessions[i := x]) == AllHanded(sessions)
  {
    var n := |sessions| - 1;
    if i < n {
      HandedUnchanged(sessions[..n], i, x);
      assert sessions[i := x][..n] == sessions[..n][i := x];
    } else {
      assert sessions[i := x][..n] == sessions[..n];
    }
  }

  lemma HandedOneMore(sessions: seq<Session>, x: Session, d: Delivery)
    requires sessions != [] && x.handed == sessions[|sessions| - 1].handed + [d]
    ensures AllHanded(sessions[|sessions| - 1 := x]) == AllHanded(sessions) + [d]
  {
    var n := |sessions| - 1;
    assert sessions[n := x][..n] == sessions[..n];
    Regroup(AllHanded(sessions[..n]), sessions[n].handed, [d]);
  }

  lemma ServeKeepsOutput(cfg: Config, s: State, v: ServiceStep)
    requires OutputOk(cfg, s) && s.sessions != [] && ServiceEnabled(cfg, s, s.sessions[|s.sessions| - 1], v)
    ensures OutputOk(cfg, ServiceApply(cfg, s, s.sessions[|s.sessions| - 1], v))
  {
    hide Selected, FlatMap, SelectedAll, Attempted, Rendered, AllHanded;
    var n := |s.sessions| - 1;
    var x := s.sessions[n];
    var y := ServiceSession(cfg, s, x, v);
    if v == HandOver {
      HandedOneMore(s.sessions, y, x.forwarder.delivery);
    } else {
      HandedUnchanged(s.sessions, n, y);
      assert s.handled + InHand(s.phase) + [] == s.handled + InHand(s.phase);
    }
    if s.phase.Handling? {
      var d := s.phase.delivery;
      HandledOneMore(cfg, s.handled, d);
      if Selected(cfg, d).Some? {
        AttemptOneMore(s.attempts, Attempt(Selected(cfg, d).value, v == RenderSucceeds));
      }
    }
  }

  lemma LoopKeepsOutput(cfg: Config, s: State, l: LoopStep)
    requires OutputOk(cfg, s) && LoopEnabled(s, l)
    ensures OutputOk(cfg, LoopApply(s, l))
  {
    hide FlatMap, SelectedAll, Attempted, Rendered;
    FlatMapOneMore(HandedOver(), s.sessions, NEW_SESSION);
    assert AllHanded(s.sessions) + [] == AllHanded(s.sessions);
  }

  lemma StepKeepsOutput(cfg: Config, s: State, step: Step)
    requires SessionsOk(s) && OutputOk(cfg, s) && Enabled(cfg, s, step)
    ensures OutputOk(cfg, Apply(cfg, s, step))
  {
    hide FlatMap, SelectedAll, Attempted, Rendered, SessionsOk;
    hide ForwarderApply, ForwarderEnabled, ServiceApply, ServiceEnabled;
    match step
    case Cancel =>
    case Forward(i, f) =>
      ForwardKeepsSessions(s, i, f);
      HandedUnchanged(s.sessions, i, ForwarderApply(s.sessions[i], f, s.cancelled));
    case Loop(l) =>
      LoopKeepsOutput(cfg, s, l);
    case Serve(v) => ServeKeepsOutput(cfg, s, v);
  }

  /** Both invariants hold in every interleaving. */
  lemma {:induction false} RunKeepsInvariants(cfg: Config, s: State, steps: seq<Step>)
    requires SessionsOk(s) && OutputOk(cfg, s) && Runs(cfg, s, steps)
    ensures SessionsOk(After(cfg, s, steps)) && OutputOk(cfg, After(cfg, s, steps))
    decreases steps
  {
    hide SessionsOk, OutputOk, Enabled, Apply;
    if steps != [] {
      StepKeepsSessions(cfg, s, steps[0]);
      StepKeepsOutput(cfg, s, steps[0]);
      RunKeepsInvariants(cfg, Apply(cfg, s, steps[0]), steps[1..]);
    }
  }

  // ----- what every run guarantees

  lemma InvariantsOfRun(cfg: Config, steps: seq<Step>)
    requires Runs(cfg, INITIAL, steps)
    ensures SessionsOk(After(cfg, INITIAL, steps)) && OutputOk(cfg, After(cfg, INITIAL, steps))
  {
    RunKeepsInvariants(cfg, INITIAL, steps);
  }

  /** In every interleaving and every session, what the service got, followed by at most one
      delivery held or dropped by the forwarder, is exactly the part of the broker's stream that
      the forwarder took: nothing doubled, reordered or skipped. */
  lemma DeliveriesKeepTheirOrder(cfg: Config, steps: seq<Step>, i: nat)
    requires Runs(cfg, INITIAL, steps) && i < |After(cfg, INITIAL, steps).sessions|
    ensures var x := After(cfg, INITIAL, steps).sessions[i];
            x.taken <= |x.produced| && |Held(x)| <= 1 && x.handed + Held(x) == x.produced[..x.taken]
  {
    InvariantsOfRun(cfg, steps);
    assert Fits(After(cfg, INITIAL, steps), i);
  }

  /** Across all reconnects, the renderer was called with parse-then-match of the handled
      deliveries, in order, and the handled deliveries are what the sessions handed over but for
      the one being handled. */
  lemma OutputIsTheSelectedStream(cfg: Config, steps: seq<Step>)
    requires Runs(cfg, INITIAL, steps)
    ensures var s := After(cfg, INITIAL, steps);
            && AllHanded(s.sessions) == s.handled + InHand(s.phase)
            && Attempted(s.attempts) == SelectedAll(cfg, s.handled)
            && s.matched == |Rendered(s.attempts)|
            && (cfg.maxEvents > 0 ==> s.matched <= cfg.maxEvents)
            && (AllSucceeded(s.attempts) ==> Rendered(s.attempts) == SelectedAll(cfg, s.handled))
  {
    InvariantsOfRun(cfg, steps);
    var s := After(cfg, INITIAL, steps);
    if AllSucceeded(s.attempts) { AllRendered(s.attempts); }
  }

  /** The limit cuts, it does not select: whatever stream the handled deliveries begin, even all that
      the last session's broker still had to give, the output of a run that reached its limit is the
      first `maxEvents` of that stream's traces. A run that did not reach it rendered all it handled. */
  lemma OutputIsTheFirstEvents(cfg: Config, steps: seq<Step>, stream: seq<Delivery>)
    requires Runs(cfg, INITIAL, steps) && AllSucceeded(After(cfg, INITIAL, steps).attempts)
    requires var s := After(cfg, INITIAL, steps);
             s.handled <= stream && (s.handled == stream || LimitReached(cfg, s.matched))
    ensures Rendered(After(cfg, INITIAL, steps).attempts) == Limited(cfg, SelectedAll(cfg, stream))
  {
    hide FlatMap, SelectedAll;
    OutputIsTheSelectedStream(cfg, steps);
    var s := After(cfg, INITIAL, steps);
    var rest := stream[|s.handled|..];
    assert stream == s.handled + rest;
    SelectedAllConcat(cfg, s.handled, rest);
  }

  /** Nothing that reaches the output changes any more. */
  predicate SameOutput(s: State, t: State) {
    && t.attempts == s.attempts && t.handled == s.handled && t.matched == s.matched
    && |t.sessions| == |s.sessions|
  }

  /** Once only teardown is left, only teardown happens: no delivery, no rendering, no new session. */
  lemma {:induction false} OverIsFinal(cfg: Config, s: State, steps: seq<Step>)
    requires Over(s.phase) && Runs(cfg, s, steps)
    ensures Over(After(cfg, s, steps).phase) && SameOutput(s, After(cfg, s, steps))
    decreases steps
  {
    if steps != [] {
      OverIsFinal(cfg, Apply(cfg, s, steps[0]), steps[1..]);
    }
  }

  /** The event that reaches the limit is the last thing the run does but tear down. */
  lemma LimitStopsTheRun(cfg: Config, before: seq<Step>, after: seq<Step>)
    requires cfg.maxEvents > 0
    requires Runs(cfg, INITIAL, before) && Runs(cfg, After(cfg, INITIAL, before), after)
    requires After(cfg, INITIAL, before).matched == cfg.maxEvents
    ensures SameOutput(After(cfg, INITIAL, before), After(cfg, After(cfg, INITIAL, before), after))
  {
    InvariantsOfRun(cfg, before);
    OverIsFinal(cfg, After(cfg, INITIAL, before), after);
  }

  /** At most one connection is open, and it is the newest; none is closed twice. A channel is
      closed at most once although two parties try, and always before its connection. */
  lemma ResourcesAreClosedInOrder(cfg: Config, steps: seq<Step>, i: nat)
    requires Runs(cfg, INITIAL, steps) && i < |After(cfg, INITIAL, steps).sessions|
    ensures var s := After(cfg, INITIAL, steps);
            var x := s.sessions[i];
            && x.connectionCloses <= 1
            && (x.connectionCloses == 0 ==> i == |s.sessions| - 1 && InSession(s.phase))
            && x.channelCloses <= (if x.channelOpened then 1 else 0)
            && (x.connectionCloses == 1 ==> x.channelCloses == if x.channelOpened then 1 else 0)
  {
    InvariantsOfRun(cfg, steps);
    assert Fits(After(cfg, INITIAL, steps), i);
  }

  /** The renderer is closed exactly when the run has stopped, once, and nothing is rendered after. */
  lemma RendererClosesLast(cfg: Config, before: seq<Step>, after: seq<Step>)
    requires Runs(cfg, INITIAL, before) && Runs(cfg, After(cfg, INITIAL, before), after)
    ensures var s := After(cfg, INITIAL, before);
            && (s.rendererCloses == if s.phase.Stopped? then 1 else 0)
            && (s.rendererCloses == 1 ==>
                  && After(cfg, s, after).rendererCloses == 1
                  && SameOutput(s, After(cfg, s, after)))
  {
    InvariantsOfRun(cfg, before);
    var s := After(cfg, INITIAL, before);
    RunKeepsInvariants(cfg, s, after);
    if s.phase.Stopped? {
      OverIsFinal(cfg, s, after);
      StoppedIsFinal(cfg, s, after);
    }
  }

  lemma {:induction false} StoppedIsFinal(cfg: Config, s: State, steps: seq<Step>)
    requires s.phase.Stopped? && Runs(cfg, s, steps)
    ensures After(cfg, s, steps).phase.Stopped?
    decreases steps
  {
    if steps != [] { StoppedIsFinal(cfg, Apply(cfg, s, steps[0]), steps[1..]); }
  }
}
