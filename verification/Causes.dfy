/** Why sessions and runs of the machine end, and that lost connections are followed by new ones. */
module Causes {
  import opened Parser
  import opened Pipeline
  import opened Session
  import opened Blocking

  // ----- every end has its cause

  /** Something has happened that ends a run. */
  ghost predicate RunHasCause(cfg: Config, s: State, past: seq<Step>) {
    || Cancel in past
    || Loop(ConnectFails) in past
    || (cfg.maxEvents > 0 && s.matched >= cfg.maxEvents)
    || Serve(RenderFails(false)) in past
    || Serve(ConsumeFails(false)) in past
  }

  /** What a session's error says has happened. */
  ghost predicate ErrorHasCause(cfg: Config, s: State, err: SessionError, past: seq<Step>) {
    match err
    case ContextDone => Cancel in past
    case MaxEventsReached => cfg.maxEvents > 0 && s.matched >= cfg.maxEvents
    case ReconnectNeeded =>
      s.sessions != [] && var x := s.sessions[|s.sessions| - 1]; x.connectionLost || x.forwarder.Exited?
    case RenderFailed(cancelLike) => Serve(RenderFails(cancelLike)) in past
    case ConsumeFailed(cancelLike) => Serve(ConsumeFails(cancelLike)) in past
  }

  predicate HasError(phase: Phase) {
    phase.Ending? || phase.Closing? || phase.Deciding?
  }

  ghost predicate Caused(cfg: Config, s: State, past: seq<Step>) {
    && (s.cancelled <==> Cancel in past)
    && (HasError(s.phase) ==> ErrorHasCause(cfg, s, s.phase.err, past))
    && (s.phase.Finishing? || s.phase.Stopped? ==> RunHasCause(cfg, s, past))
  }

  lemma LongerPast(cfg: Config, s: State, past: seq<Step>, step: Step)
    requires Caused(cfg, s, past)
    ensures s.cancelled || step == Cancel <==> Cancel in past + [step]
    ensures HasError(s.phase) ==> ErrorHasCause(cfg, s, s.phase.err, past + [step])
    ensures RunHasCause(cfg, s, past) ==> RunHasCause(cfg, s, past + [step])
  {
    assert forall x :: x in past + [step] <==> x in past || x == step;
  }

  lemma StepCaused(cfg: Config, s: State, past: seq<Step>, step: Step)
    requires SessionsOk(s) && Caused(cfg, s, past) && Enabled(cfg, s, step)
    ensures Caused(cfg, Apply(cfg, s, step), past + [step])
  {
    hide Selected;
    LongerPast(cfg, s, past, step);
    match step
    case Cancel =>
    case Forward(i, f) => ForwardCaused(cfg, s, past, i, f);
    case Loop(l) => assert step in past + [step];
    case Serve(v) =>
      assert step in past + [step];
      assert s.cancelled <==> Cancel in past;
  }

  lemma ForwardCaused(cfg: Config, s: State, past: seq<Step>, i: nat, f: ForwarderStep)
    requires SessionsOk(s) && Caused(cfg, s, past) && Enabled(cfg, s, Forward(i, f))
    ensures Caused(cfg, Apply(cfg, s, Forward(i, f)), past + [Forward(i, f)])
  {
    LongerPast(cfg, s, past, Forward(i, f));
    assert Fits(s, i);
    hide Fifo;
    ExitIsFinal(s.sessions[i], f, s.cancelled);
  }

  lemma ExitIsFinal(x: Session, f: ForwarderStep, cancelled: bool)
    requires ClosesOnce(x) && ForwarderEnabled(x, f, cancelled)
    ensures var y := ForwarderApply(x, f, cancelled);
            (x.forwarder.Exited? ==> y.forwarder.Exited?) && (x.connectionLost ==> y.connectionLost)
  {
  }

  lemma {:induction false} RunCaused(cfg: Config, s: State, past: seq<Step>, steps: seq<Step>)
    requires SessionsOk(s) && Caused(cfg, s, past) && Runs(cfg, s, steps)
    ensures Caused(cfg, After(cfg, s, steps), past + steps)
    decreases steps
  {
    hide SessionsOk, Caused, Enabled, Apply;
    if steps == [] {
      assert past + steps == past;
    } else {
      StepKeepsSessions(cfg, s, steps[0]);
      StepCaused(cfg, s, past, steps[0]);
      RunCaused(cfg, Apply(cfg, s, steps[0]), past + [steps[0]], steps[1..]);
      assert past + [steps[0]] + steps[1..] == past + steps;
    }
  }

  /** A run only stops when it was cancelled, could not connect, reached its limit, or consuming or
      rendering failed with an error of its own; a lost connection never stops it. */
  lemma StoppedRunsHaveACause(cfg: Config, steps: seq<Step>)
    requires Runs(cfg, INITIAL, steps) && After(cfg, INITIAL, steps).phase.Stopped?
    ensures || Cancel in steps
            || Loop(ConnectFails) in steps
            || (cfg.maxEvents > 0 && After(cfg, INITIAL, steps).matched >= cfg.maxEvents)
            || Serve(RenderFails(false)) in steps
            || Serve(ConsumeFails(false)) in steps
  {
    RunCaused(cfg, INITIAL, [], steps);
    assert [] + steps == steps;
  }

  /** A session ends as cancelled, lost, failed or at the limit only when it is. */
  lemma SessionErrorsHaveACause(cfg: Config, steps: seq<Step>)
    requires Runs(cfg, INITIAL, steps) && HasError(After(cfg, INITIAL, steps).phase)
    ensures ErrorHasCause(cfg, After(cfg, INITIAL, steps), After(cfg, INITIAL, steps).phase.err, steps)
  {
    RunCaused(cfg, INITIAL, [], steps);
    assert [] + steps == steps;
  }

  // ----- a lost connection is followed by a new one

  predicate Lost(phase: Phase) {
    HasError(phase) && phase.err == ReconnectNeeded
  }

  lemma LostStep(cfg: Config, s: State, step: Step)
    requires Lost(s.phase) && Enabled(cfg, s, step)
    ensures Lost(Apply(cfg, s, step).phase) || (s.phase.Deciding? && Apply(cfg, s, step).phase.Top?)
  {
  }

  lemma TopConnects(cfg: Config, s: State)
    requires s.phase.Top?
    ensures !s.cancelled ==> Enabled(cfg, s, Loop(StartConnect))
  {
  }

  lemma OneStep(cfg: Config, s: State, step: Step)
    requires Enabled(cfg, s, step)
    ensures Runs(cfg, s, [step]) && After(cfg, s, [step]) == Apply(cfg, s, step)
  {
    hide Enabled, Apply;
    assert [step][1..] == [];
  }

  /** Once a session has lost its connection, every continuation tears it down and is back at the top
      of the reconnect loop, where only a cancellation keeps it from connecting again. */
  lemma {:induction false} LostConnectionsReconnect(cfg: Config, s: State, steps: seq<Step>)
    requires Lost(s.phase) && Runs(cfg, s, steps) && !Lost(After(cfg, s, steps).phase)
    ensures exists k | 0 <= k <= |steps| :: IsBackOnTop(cfg, s, steps[..k])
    decreases steps
  {
    hide Enabled, Apply;
    assert steps != [];
    LostStep(cfg, s, steps[0]);
    var t := Apply(cfg, s, steps[0]);
    if t.phase.Top? {
      assert steps[..1] == [steps[0]];
      OneStep(cfg, s, steps[0]);
      TopConnects(cfg, t);
      assert IsBackOnTop(cfg, s, steps[..1]);
    } else {
      LostConnectionsReconnect(cfg, t, steps[1..]);
      var k :| 0 <= k <= |steps| - 1 && IsBackOnTop(cfg, t, steps[1..][..k]);
      assert steps[..k + 1][1..] == steps[1..][..k];
      assert IsBackOnTop(cfg, s, steps[..k + 1]);
    }
  }

  predicate IsBackOnTop(cfg: Config, s: State, steps: seq<Step>) {
    && Runs(cfg, s, steps) && After(cfg, s, steps).phase.Top?
    && (!After(cfg, s, steps).cancelled ==> Enabled(cfg, After(cfg, s, steps), Loop(StartConnect)))
  }

  /** Back at the top after one session that handed nothing over. */
  ghost predicate FreshStart(s: State) {
    && s.phase.Top? && !s.cancelled && |s.sessions| == 1 && s.sessions[0].handed == []
    && s.handled == [] && s.attempts == [] && s.matched == 0
  }

  /** A first session about to have its connection closed, with its channel closed before. */
  ghost predicate FirstClosing(s: State) {
    && s.phase == Closing(ReconnectNeeded) && !s.cancelled && |s.sessions| == 1 && s.sessions[0].handed == []
    && s.handled == [] && s.attempts == [] && s.matched == 0
  }

  lemma LoseFirstConnection(cfg: Config) returns (steps: seq<Step>)
    ensures Runs(cfg, INITIAL, steps) && FirstClosing(After(cfg, INITIAL, steps))
  {
    steps := OpenStream(cfg);
    steps := Follow(cfg, steps, Forward(0, LoseConnection));
    steps := Follow(cfg, steps, Serve(SelectConnectionClosed));
    steps := Follow(cfg, steps, Serve(ServiceBeginCleanup));
    steps := Follow(cfg, steps, Serve(ServiceEndCleanup));
  }

  lemma EndFirstStream(cfg: Config) returns (steps: seq<Step>)
    ensures Runs(cfg, INITIAL, steps)
    ensures After(cfg, INITIAL, steps)
         == INITIAL.(sessions := [NEW_SESSION.(channelOpened := true, brokerClosed := true, forwarder := Exited,
                                               once := Done, channelCloses := 1)],
                     phase := Selecting)
  {
    steps := OpenStream(cfg);
    steps := Follow(cfg, steps, Forward(0, BrokerClose));
    steps := Follow(cfg, steps, Forward(0, SeeBrokerClosed));
    steps := Follow(cfg, steps, Forward(0, BeginCleanup));
    steps := Follow(cfg, steps, Forward(0, EndCleanup));
    steps := Follow(cfg, steps, Forward(0, CloseOut));
    var x := NEW_SESSION.(channelOpened := true, brokerClosed := true, forwarder := Exited,
                          once := Done, channelCloses := 1);
    assert After(cfg, INITIAL, steps).sessions == [x];
  }

  lemma LoseFirstStream(cfg: Config) returns (steps: seq<Step>)
    ensures Runs(cfg, INITIAL, steps) && FirstClosing(After(cfg, INITIAL, steps))
  {
    steps := EndFirstStream(cfg);
    steps := Follow(cfg, steps, Serve(SelectOutClosed));
    steps := Follow(cfg, steps, Serve(ServiceSkipCleanup));
  }

  /** The first session loses its connection, or its stream ends. */
  lemma LoseFirstSession(cfg: Config, byStream: bool) returns (steps: seq<Step>)
    ensures Runs(cfg, INITIAL, steps) && FreshStart(After(cfg, INITIAL, steps))
  {
    if byStream {
      steps := LoseFirstStream(cfg);
    } else {
      steps := LoseFirstConnection(cfg);
    }
    steps := Follow(cfg, steps, Serve(CloseConnection));
    steps := Follow(cfg, steps, Loop(Decide));
  }

  /** A second session that is selecting, after a first that handed nothing over. */
  ghost predicate SecondSession(s: State) {
    && s.phase.Selecting? && |s.sessions| == 2 && s.sessions[0].handed == []
    && s.sessions[1] == NEW_SESSION.(channelOpened := true, forwarder := Waiting)
    && s.handled == [] && s.attempts == [] && s.matched == 0
  }

  lemma OpenSecondSession(cfg: Config, before: seq<Step>) returns (steps: seq<Step>)
    requires Runs(cfg, INITIAL, before) && FreshStart(After(cfg, INITIAL, before))
    ensures Runs(cfg, INITIAL, steps) && SecondSession(After(cfg, INITIAL, steps))
  {
    steps := Follow(cfg, before, Loop(StartConnect));
    steps := Follow(cfg, steps, Loop(Connect));
    steps := Follow(cfg, steps, Serve(OpenChannel));
    steps := Follow(cfg, steps, Serve(ConsumeSucceeds));
  }

  /** A run that loses its first connection, or its stream, and renders the delivery of its second. */
  lemma ARunReconnects(cfg: Config, d: Delivery, byStream: bool) returns (steps: seq<Step>)
    requires Selected(cfg, d).Some?
    ensures Runs(cfg, INITIAL, steps)
    ensures var s := After(cfg, INITIAL, steps);
            && |s.sessions| == 2 && s.sessions[0].handed == [] && s.sessions[1].handed == [d]
            && s.attempts == [Attempt(Selected(cfg, d).value, true)] && s.matched == 1
  {
    steps := LoseFirstSession(cfg, byStream);
    steps := OpenSecondSession(cfg, steps);
    steps := Follow(cfg, steps, Forward(1, Produce(d)));
    steps := Follow(cfg, steps, Forward(1, Take));
    steps := Follow(cfg, steps, Serve(HandOver));
    steps := Follow(cfg, steps, Serve(RenderSucceeds));
  }

  // ----- what can happen does

  /** The service holds the next delivery of its session's stream. */
  lemma NextDeliveryCanBeTaken(cfg: Config, s: State) returns (steps: seq<Step>)
    requires s.sessions != [] && s.phase.Selecting?
    requires var x := s.sessions[|s.sessions| - 1]; x.forwarder.Waiting? && x.taken < |x.produced|
    ensures Runs(cfg, s, steps)
    ensures var n := |s.sessions| - 1;
            var x := s.sessions[n];
            var d := x.produced[x.taken];
            After(cfg, s, steps)
            == s.(sessions := s.sessions[n := x.(taken := x.taken + 1, handed := x.handed + [d])],
                  phase := Handling(d))
  {
    var n := |s.sessions| - 1;
    var x := s.sessions[n];
    var d := x.produced[x.taken];
    OneStep(cfg, s, Forward(n, Take));
    var t := Apply(cfg, s, Forward(n, Take));
    assert t.sessions == s.sessions[n := x.(taken := x.taken + 1, forwarder := Holding(d))];
    ExtendRun(cfg, s, [Forward(n, Take)], Serve(HandOver));
    steps := [Forward(n, Take)] + [Serve(HandOver)];
    var y := x.(taken := x.taken + 1, handed := x.handed + [d]);
    assert Apply(cfg, t, Serve(HandOver)).sessions == s.sessions[n := y];
  }

  /** What the broker has produced can be handled, whether or not it has closed the stream since; if it
      is selected, the renderer may accept it or refuse it, and the refusal ends the session. */
  lemma NextDeliveryCanGoThrough(cfg: Config, s: State, ok: bool, cancelLike: bool) returns (steps: seq<Step>)
    requires s.sessions != [] && s.phase.Selecting?
    requires var x := s.sessions[|s.sessions| - 1]; x.forwarder.Waiting? && x.taken < |x.produced|
    ensures Runs(cfg, s, steps)
    ensures var x := s.sessions[|s.sessions| - 1];
            var d := x.produced[x.taken];
            var t := After(cfg, s, steps);
            && |t.sessions| == |s.sessions| && t.handled == s.handled + [d]
            && t.sessions[|s.sessions| - 1].handed == x.handed + [d]
            && (Selected(cfg, d).None? ==>
                  t.phase.Selecting? && t.attempts == s.attempts && t.matched == s.matched)
            && (Selected(cfg, d).Some? ==>
                  && t.attempts == s.attempts + [Attempt(Selected(cfg, d).value, ok)]
                  && t.matched == s.matched + (if ok then 1 else 0)
                  && (!ok ==> t.phase == Ending(RenderFailed(cancelLike))))
  {
    hide Selected;
    var x := s.sessions[|s.sessions| - 1];
    var d := x.produced[x.taken];
    steps := NextDeliveryCanBeTaken(cfg, s);
    var outcome := if Selected(cfg, d).None? then SkipDelivery
                   else if ok then RenderSucceeds else RenderFails(cancelLike);
    ExtendRun(cfg, s, steps, Serve(outcome));
    steps := steps + [Serve(outcome)];
  }
}
