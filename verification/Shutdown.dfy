/** Cancellation ends everything: the run cannot get stuck on its way to the stop, and every forwarder
    it leaves behind can follow. */
module Shutdown {
  import opened Pipeline
  import opened Session
  import opened Blocking

  /** A step of the service, or the end of the cleanup when the forwarder runs it: the service waits
      for whoever runs the once. */
  predicate ServiceMoves(s: State, step: Step) {
    step.Loop? || step.Serve? || (s.sessions != [] && step == Forward(|s.sessions| - 1, EndCleanup))
  }

  /** How far a cancelled run is from its stop when it takes the way down. */
  function Distance(s: State): nat {
    match s.phase
    case Stopped => 0
    case Finishing => 1
    case Connecting => 2
    case Top => 2
    case Deciding(_) => 3
    case Closing(_) => 4
    case SettingUp => 5
    case Ending(_) =>
      if s.sessions == [] || s.sessions[|s.sessions| - 1].once.Done? then 5
      else if s.sessions[|s.sessions| - 1].once.Fresh? then 7 else 6
    case Selecting => 8
    case Handling(_) => 9
  }

  /** The step that takes a cancelled run closer to its stop. */
  function WayDown(cfg: Config, s: State): Step
    requires InSession(s.phase) ==> s.sessions != []
  {
    match s.phase
    case Top => Loop(StopCancelled)
    case Connecting => Loop(ConnectFails)
    case SettingUp => Serve(ConsumeFails(true))
    case Selecting => Serve(SelectCancelled)
    case Handling(d) => Serve(if Selected(cfg, d).None? then SkipDelivery else RenderSucceeds)
    case Ending(_) =>
      var once := s.sessions[|s.sessions| - 1].once;
      if once.Fresh? then Serve(ServiceBeginCleanup)
      else if once.Done? then Serve(ServiceSkipCleanup)
      else if once == RunBy(ServiceSide) then Serve(ServiceEndCleanup)
      else Forward(|s.sessions| - 1, EndCleanup)
    case Closing(_) => Serve(CloseConnection)
    case Deciding(_) => Loop(Decide)
    case Finishing => Loop(CloseRenderer)
    case Stopped => Cancel
  }

  lemma OnceCases(once: Once)
    ensures once.Fresh? || once.Done? || once == RunBy(ServiceSide) || once == RunBy(ForwarderSide)
  {
    match once
    case Fresh =>
    case Done =>
    case RunBy(party) => assert party.ForwarderSide? || party.ServiceSide?;
  }

  /** Once the context is cancelled, no reachable phase but the last is a deadlock: a step towards
      the stop is open. */
  lemma CancelledRunNeverDeadlocks(cfg: Config, s: State)
    requires SessionsOk(s) && s.cancelled && !s.phase.Stopped?
    ensures var step := WayDown(cfg, s);
            && Enabled(cfg, s, step) && ServiceMoves(s, step)
            && Distance(Apply(cfg, s, step)) < Distance(s)
            && Apply(cfg, s, step).cancelled
  {
    hide Selected, LimitReached, SessionOk;
    if InSession(s.phase) {
      assert Fits(s, |s.sessions| - 1);
      OnceCases(s.sessions[|s.sessions| - 1].once);
    }
  }

  /** Every step of the way down was the service's, or that of the forwarder running the once. */
  predicate OnlyService(cfg: Config, s: State, steps: seq<Step>)
    requires Runs(cfg, s, steps)
    decreases steps
  {
    steps == [] || (ServiceMoves(s, steps[0]) && OnlyService(cfg, Apply(cfg, s, steps[0]), steps[1..]))
  }

  /** From wherever a run is cancelled it can stop, within nine steps that ask nothing of the broker
      and nothing of the forwarders but to finish a cleanup they have begun. */
  lemma {:induction false} CancelledRunCanStop(cfg: Config, s: State) returns (steps: seq<Step>)
    requires SessionsOk(s) && s.cancelled
    ensures Runs(cfg, s, steps) && After(cfg, s, steps).phase.Stopped?
    ensures OnlyService(cfg, s, steps) && |steps| <= Distance(s) <= 9
    ensures SessionsOk(After(cfg, s, steps)) && After(cfg, s, steps).cancelled
    decreases Distance(s)
  {
    hide SessionsOk, Enabled, Apply, WayDown, ServiceMoves;
    steps := [];
    if !s.phase.Stopped? {
      var step := NextStep(cfg, s);
      var rest := CancelledRunCanStop(cfg, Apply(cfg, s, step));
      steps := [step] + rest;
      assert steps[1..] == rest;
    }
  }

  lemma NextStep(cfg: Config, s: State) returns (step: Step)
    requires SessionsOk(s) && s.cancelled && !s.phase.Stopped?
    ensures Enabled(cfg, s, step) && ServiceMoves(s, step)
    ensures Distance(Apply(cfg, s, step)) < Distance(s)
    ensures Apply(cfg, s, step).cancelled && SessionsOk(Apply(cfg, s, step))
  {
    hide Enabled, Apply, WayDown, ServiceMoves, Distance;
    CancelledRunNeverDeadlocks(cfg, s);
    step := WayDown(cfg, s);
    StepKeepsSessions(cfg, s, step);
  }

  // ----- nothing is left behind

  /** Everything is over: the run has stopped, every connection is closed, every channel that was
      opened is closed, and no forwarder that was started is still there. */
  ghost predicate AllOver(s: State) {
    && s.phase.Stopped?
    && forall i | 0 <= i < |s.sessions| :: SessionOver(s.sessions[i])
  }

  predicate SessionOver(x: Session) {
    && x.connectionCloses == 1 && ChannelSettled(x)
    && (Started(x) ==> x.forwarder.Exited?)
  }

  lemma {:induction false} RunsOn(cfg: Config, s: State, a: seq<Step>, b: seq<Step>)
    requires Runs(cfg, s, a) && Runs(cfg, After(cfg, s, a), b)
    ensures Runs(cfg, s, a + b) && After(cfg, s, a + b) == After(cfg, After(cfg, s, a), b)
    decreases a
  {
    hide Enabled, Apply;
    if a == [] {
      assert a + b == b;
    } else {
      assert (a + b)[1..] == a[1..] + b;
      RunsOn(cfg, Apply(cfg, s, a[0]), a[1..], b);
    }
  }

  /** A stopped run stays as it is, but for forwarders that move on. */
  ghost predicate StoppedAfter(s: State, t: State) {
    && SessionsOk(t) && t.phase.Stopped? && t.cancelled && |t.sessions| == |s.sessions|
    && forall i | 0 <= i < |s.sessions| ::
         (Started(t.sessions[i]) <==> Started(s.sessions[i])) && Rank(t.sessions[i]) <= Rank(s.sessions[i])
  }

  lemma StoppedStep(cfg: Config, s: State, step: Step)
    requires SessionsOk(s) && s.phase.Stopped? && s.cancelled && Enabled(cfg, s, step)
    ensures StoppedAfter(s, Apply(cfg, s, step))
  {
    hide Apply, ForwarderEnabled, ForwarderApply, SessionOk;
    StepKeepsSessions(cfg, s, step);
    StaysStopped(cfg, s, step);
    forall i | 0 <= i < |s.sessions|
      ensures Started(Apply(cfg, s, step).sessions[i]) <==> Started(s.sessions[i])
      ensures Rank(Apply(cfg, s, step).sessions[i]) <= Rank(s.sessions[i])
    {
      assert Fits(s, i);
      PastSessionStep(cfg, s, i, step);
      if step.Forward? && step.session == i { ForwardKeepsSessions(s, i, step.step); }
      if Started(s.sessions[i]) { LeftStaysLeft(cfg, s, i, step); }
    }
  }

  lemma StaysStopped(cfg: Config, s: State, step: Step)
    requires s.phase.Stopped? && Enabled(cfg, s, step)
    ensures var t := Apply(cfg, s, step);
            t.phase.Stopped? && |t.sessions| == |s.sessions| && (s.cancelled ==> t.cancelled)
  {
  }

  lemma {:induction false} StoppedRun(cfg: Config, s: State, steps: seq<Step>)
    requires SessionsOk(s) && s.phase.Stopped? && s.cancelled && Runs(cfg, s, steps)
    ensures StoppedAfter(s, After(cfg, s, steps))
    decreases steps
  {
    hide Enabled, Apply, SessionsOk, Rank, Started;
    if steps != [] {
      StoppedStep(cfg, s, steps[0]);
      StoppedRun(cfg, Apply(cfg, s, steps[0]), steps[1..]);
    }
  }

  /** The forwarders of the first `n` sessions have exited. */
  ghost predicate GoneUpTo(s: State, n: nat) {
    n <= |s.sessions| && forall i | 0 <= i < n && Started(s.sessions[i]) :: s.sessions[i].forwarder.Exited?
  }

  lemma {:induction false} ClearAll(cfg: Config, s: State, n: nat) returns (steps: seq<Step>)
    requires SessionsOk(s) && s.phase.Stopped? && s.cancelled && n <= |s.sessions|
    ensures Runs(cfg, s, steps) && StoppedAfter(s, After(cfg, s, steps)) && GoneUpTo(After(cfg, s, steps), n)
    decreases n
  {
    hide Enabled, Apply, SessionOk;
    steps := [];
    if n > 0 {
      steps := ClearAll(cfg, s, n - 1);
      var t := After(cfg, s, steps);
      var more := ClearOne(cfg, t, n - 1);
      StoppedRun(cfg, t, more);
      RunsOn(cfg, s, steps, more);
      KeepsGone(t, After(cfg, t, more), n - 1);
      StoppedTwice(s, t, After(cfg, t, more));
      steps := steps + more;
    }
  }

  lemma ClearOne(cfg: Config, s: State, i: nat) returns (steps: seq<Step>)
    requires SessionsOk(s) && s.phase.Stopped? && s.cancelled && i < |s.sessions|
    ensures Runs(cfg, s, steps)
    ensures i < |After(cfg, s, steps).sessions|
    ensures Started(After(cfg, s, steps).sessions[i]) ==> After(cfg, s, steps).sessions[i].forwarder.Exited?
  {
    hide Enabled, Apply, SessionOk;
    steps := [];
    assert Fits(s, i);
    if Started(s.sessions[i]) { steps := LeadOut(cfg, s, i); }
  }

  lemma KeepsGone(s: State, t: State, n: nat)
    requires GoneUpTo(s, n) && StoppedAfter(s, t)
    ensures GoneUpTo(t, n)
  {
  }

  lemma StoppedTwice(s: State, t: State, u: State)
    requires StoppedAfter(s, t) && StoppedAfter(t, u)
    ensures StoppedAfter(s, u)
  {
  }

  /** From every reachable state a cancelled run can come to an end with nothing left behind. */
  lemma CancelledRunCanEndCleanly(cfg: Config, before: seq<Step>) returns (steps: seq<Step>)
    requires Runs(cfg, INITIAL, before) && After(cfg, INITIAL, before).cancelled
    ensures Runs(cfg, After(cfg, INITIAL, before), steps)
    ensures AllOver(After(cfg, After(cfg, INITIAL, before), steps))
  {
    hide Enabled, Apply, Runs, After, SessionOk, OutputOk;
    InvariantsOfRun(cfg, before);
    var s := After(cfg, INITIAL, before);
    steps := CancelledRunCanStop(cfg, s);
    var t := After(cfg, s, steps);
    var more := ClearAll(cfg, t, |t.sessions|);
    RunsOn(cfg, s, steps, more);
    EverythingOver(After(cfg, t, more));
    steps := steps + more;
  }

  lemma EverythingOver(s: State)
    requires SessionsOk(s) && s.phase.Stopped? && GoneUpTo(s, |s.sessions|)
    ensures AllOver(s)
  {
    forall i | 0 <= i < |s.sessions| ensures SessionOver(s.sessions[i]) {
      assert Fits(s, i);
    }
  }
}
