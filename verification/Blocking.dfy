/** Forwarders that outlive their session: which of them stay blocked, and until when. */
module Blocking {
  import opened Parser
  import opened Pipeline
  import opened Session

  /** The service has left session `i`, whose forwarder had been started. */
  ghost predicate Left(s: State, i: nat) {
    && SessionsOk(s) && i < |s.sessions|
    && s.sessions[i].connectionCloses == 1 && Started(s.sessions[i])
  }

  /** The forwarder holds a delivery, or its stream still has one for it to take. */
  predicate Stuck(x: Session) {
    x.forwarder.Holding? || (x.forwarder.Waiting? && x.taken < |x.produced|)
  }

  /** What the forwarder does itself, as against what the broker does to its session. */
  predicate OwnStep(f: ForwarderStep) {
    !f.Produce? && !f.BrokerClose? && !f.LoseConnection?
  }

  /** How far a forwarder is from having exited. */
  function Rank(x: Session): nat {
    match x.forwarder
    case NotStarted => 5
    case Waiting => 4
    case Holding(_) => 3
    case Leaving => 2
    case Cleaned => 1
    case Exited => 0
  }

  /** The steps leave the service alone: they are the forwarder's and the broker's at session `i`. */
  predicate OnlyAt(i: nat, steps: seq<Step>) {
    forall j | 0 <= j < |steps| :: steps[j].Forward? && steps[j].session == i
  }

  /** Without a cancellation, these steps lead to the forwarder's exit. */
  predicate Exits(cfg: Config, s: State, i: nat, steps: seq<Step>) {
    && Runs(cfg, s, steps) && Cancel !in steps
    && i < |After(cfg, s, steps).sessions| && After(cfg, s, steps).sessions[i].forwarder.Exited?
  }

  ghost predicate CanExit(cfg: Config, s: State, i: nat) {
    exists steps :: Exits(cfg, s, i, steps)
  }

  // ----- one step

  /** Of all steps only those of the forwarder and the broker reach a session the service has left. */
  lemma PastSessionStep(cfg: Config, s: State, i: nat, step: Step)
    requires i < |s.sessions| && Enabled(cfg, s, step)
    requires i == |s.sessions| - 1 ==> !InSession(s.phase)
    ensures var t := Apply(cfg, s, step);
            && i < |t.sessions| && (t.cancelled <==> s.cancelled || step.Cancel?)
            && t.sessions[i] == if step.Forward? && step.session == i
                                then ForwarderApply(s.sessions[i], step.step, s.cancelled) else s.sessions[i]
  {
    hide ForwarderApply, ForwarderEnabled;
  }

  lemma ForwarderMovesOn(x: Session, f: ForwarderStep, cancelled: bool)
    requires SessionOk(x) && Started(x) && x.connectionCloses == 1 && ForwarderEnabled(x, f, cancelled)
    ensures var y := ForwarderApply(x, f, cancelled);
            && y.connectionCloses == 1 && Started(y)
            && Rank(y) <= Rank(x) && (OwnStep(f) ==> Rank(y) < Rank(x))
            && (Stuck(x) && !cancelled ==>
                  Stuck(y) && y.handed == x.handed && (x.forwarder.Holding? ==> y.forwarder == x.forwarder))
  {
  }

  /** A left session stays left, and whatever happens, its forwarder only moves towards its exit. */
  lemma LeftStaysLeft(cfg: Config, s: State, i: nat, step: Step)
    requires Left(s, i) && Enabled(cfg, s, step)
    ensures Left(Apply(cfg, s, step), i)
    ensures Apply(cfg, s, step).cancelled <==> s.cancelled || step.Cancel?
    ensures var y := Apply(cfg, s, step).sessions[i];
            && Rank(y) <= Rank(s.sessions[i])
            && (step.Forward? && step.session == i && OwnStep(step.step) ==> Rank(y) < Rank(s.sessions[i]))
  {
    hide Apply, ForwarderApply, ForwarderEnabled, SessionOk;
    assert Fits(s, i);
    StepKeepsSessions(cfg, s, step);
    PastSessionStep(cfg, s, i, step);
    if step.Forward? && step.session == i { ForwarderMovesOn(s.sessions[i], step.step, s.cancelled); }
  }

  lemma StuckStep(cfg: Config, s: State, i: nat, step: Step)
    requires Left(s, i) && Stuck(s.sessions[i]) && !s.cancelled && Enabled(cfg, s, step)
    ensures i < |Apply(cfg, s, step).sessions|
    ensures var y := Apply(cfg, s, step).sessions[i];
            && Stuck(y) && y.handed == s.sessions[i].handed
            && (s.sessions[i].forwarder.Holding? ==> y.forwarder == s.sessions[i].forwarder)
  {
    hide Apply, ForwarderApply, ForwarderEnabled, SessionOk, Stuck;
    assert Fits(s, i);
    PastSessionStep(cfg, s, i, step);
    if step.Forward? && step.session == i { ForwarderMovesOn(s.sessions[i], step.step, s.cancelled); }
  }

  // ----- staying blocked

  /** A stuck forwarder of a session that is over stays stuck in every continuation until the context
      is cancelled: not even the closed connection frees it, and what it holds it keeps. */
  lemma {:induction false} LeftForwarderStaysBlocked(cfg: Config, s: State, i: nat, steps: seq<Step>)
    requires Left(s, i) && Stuck(s.sessions[i]) && Runs(cfg, s, steps)
    ensures i < |After(cfg, s, steps).sessions|
    ensures After(cfg, s, steps).cancelled <==> s.cancelled || Cancel in steps
    ensures var y := After(cfg, s, steps).sessions[i];
            !After(cfg, s, steps).cancelled ==>
              && Stuck(y) && y.handed == s.sessions[i].handed
              && (s.sessions[i].forwarder.Holding? ==> y.forwarder == s.sessions[i].forwarder)
    decreases steps
  {
    hide Enabled, Apply, Stuck;
    if s.cancelled {
      CancelledIsFinal(cfg, s, i, steps);
    } else if steps != [] {
      var t := Apply(cfg, s, steps[0]);
      LeftStaysLeft(cfg, s, i, steps[0]);
      StuckStep(cfg, s, i, steps[0]);
      assert Cancel in steps <==> steps[0] == Cancel || Cancel in steps[1..];
      if t.cancelled {
        CancelledIsFinal(cfg, t, i, steps[1..]);
      } else {
        LeftForwarderStaysBlocked(cfg, t, i, steps[1..]);
      }
    }
  }

  lemma {:induction false} CancelledIsFinal(cfg: Config, s: State, i: nat, steps: seq<Step>)
    requires Left(s, i) && s.cancelled && Runs(cfg, s, steps)
    ensures After(cfg, s, steps).cancelled && i < |After(cfg, s, steps).sessions|
    decreases steps
  {
    hide Enabled, Apply;
    if steps != [] {
      LeftStaysLeft(cfg, s, i, steps[0]);
      CancelledIsFinal(cfg, Apply(cfg, s, steps[0]), i, steps[1..]);
    }
  }

  // ----- getting away

  /** What brings a forwarder that is not stuck, or whose context is cancelled, closer to its exit. */
  function WayOut(x: Session, cancelled: bool): ForwarderStep {
    match x.forwarder
    case Leaving => SkipCleanup
    case Cleaned => CloseOut
    case _ => if cancelled then SeeCancelled else if x.brokerClosed then SeeBrokerClosed else BrokerClose
  }

  lemma WayOutIsOpen(s: State, i: nat)
    requires Left(s, i) && (Stuck(s.sessions[i]) ==> s.cancelled) && !s.sessions[i].forwarder.Exited?
    ensures var x := s.sessions[i];
            var f := WayOut(x, s.cancelled);
            && ForwarderEnabled(x, f, s.cancelled)
            && (Stuck(ForwarderApply(x, f, s.cancelled)) ==> s.cancelled)
            && (if f.BrokerClose? then !x.brokerClosed && ForwarderApply(x, f, s.cancelled).brokerClosed
                else OwnStep(f) && Rank(ForwarderApply(x, f, s.cancelled)) < Rank(x))
  {
    assert Fits(s, i);
  }

  /** Steps of the forwarder and the broker alone, at this session, that lead to the exit. */
  lemma {:induction false} LeadOut(cfg: Config, s: State, i: nat) returns (steps: seq<Step>)
    requires Left(s, i) && (Stuck(s.sessions[i]) ==> s.cancelled)
    ensures Exits(cfg, s, i, steps) && OnlyAt(i, steps)
    decreases Rank(s.sessions[i]), !s.sessions[i].brokerClosed
  {
    steps := [];
    if !s.sessions[i].forwarder.Exited? {
      var step := Forward(i, WayOut(s.sessions[i], s.cancelled));
      WayOutIsOpen(s, i);
      LeftStaysLeft(cfg, s, i, step);
      var rest := LeadOut(cfg, Apply(cfg, s, step), i);
      steps := [step] + rest;
      assert steps[1..] == rest;
    }
  }

  // ----- the results

  /** A forwarder whose session is over can exit without a cancellation exactly when it neither
      holds a delivery nor has one left to take. */
  lemma LeftForwarderExitsIff(cfg: Config, s: State, i: nat)
    requires Left(s, i) && !s.cancelled
    ensures CanExit(cfg, s, i) <==> !Stuck(s.sessions[i])
  {
    if Stuck(s.sessions[i]) {
      forall steps ensures !Exits(cfg, s, i, steps) {
        if Runs(cfg, s, steps) { LeftForwarderStaysBlocked(cfg, s, i, steps); }
      }
    } else {
      var steps := LeadOut(cfg, s, i);
    }
  }

  /** Cancelling frees every forwarder: it can exit, stuck or not, and needs nobody else for it. */
  lemma CancellationFrees(cfg: Config, s: State, i: nat)
    requires Left(s, i) && s.cancelled
    ensures exists steps :: Exits(cfg, s, i, steps) && OnlyAt(i, steps)
  {
    var steps := LeadOut(cfg, s, i);
  }

  /** After a cancellation the forwarder even must exit, if it is scheduled: some step of its own
      is always open, each of them takes it closer to the exit, and no step takes it back. */
  lemma CancelledForwarderMovesOn(cfg: Config, s: State, i: nat, step: Step)
    requires Left(s, i) && s.cancelled && Enabled(cfg, s, step)
    ensures !s.sessions[i].forwarder.Exited? ==>
              exists f :: OwnStep(f) && Enabled(cfg, s, Forward(i, f))
    ensures var y := Apply(cfg, s, step).sessions[i];
            && Left(Apply(cfg, s, step), i) && Apply(cfg, s, step).cancelled
            && Rank(y) <= Rank(s.sessions[i])
            && (step.Forward? && step.session == i && OwnStep(step.step) ==> Rank(y) < Rank(s.sessions[i]))
  {
    hide Apply, ForwarderApply;
    LeftStaysLeft(cfg, s, i, step);
    if !s.sessions[i].forwarder.Exited? {
      WayOutIsOpen(s, i);
      var f := WayOut(s.sessions[i], s.cancelled);
      assert OwnStep(f) && Enabled(cfg, s, Forward(i, f));
    }
  }

  // ----- both ways of being stuck occur

  lemma {:induction false} ExtendRun(cfg: Config, s: State, steps: seq<Step>, step: Step)
    requires Runs(cfg, s, steps) && Enabled(cfg, After(cfg, s, steps), step)
    ensures Runs(cfg, s, steps + [step])
    ensures After(cfg, s, steps + [step]) == Apply(cfg, After(cfg, s, steps), step)
    decreases steps
  {
    hide Enabled, Apply;
    if steps == [] {
      assert steps + [step] == [step] && [step][1..] == [];
    } else {
      assert (steps + [step])[1..] == steps[1..] + [step];
      ExtendRun(cfg, Apply(cfg, s, steps[0]), steps[1..], step);
    }
  }

  lemma Follow(cfg: Config, steps: seq<Step>, step: Step) returns (more: seq<Step>)
    requires Runs(cfg, INITIAL, steps) && Enabled(cfg, After(cfg, INITIAL, steps), step)
    ensures Runs(cfg, INITIAL, more) && After(cfg, INITIAL, more) == Apply(cfg, After(cfg, INITIAL, steps), step)
  {
    ExtendRun(cfg, INITIAL, steps, step);
    more := steps + [step];
  }

  /** The first of two deliveries handed over, the second still to take. */
  function Backlogged(first: Delivery, second: Delivery): Session {
    NEW_SESSION.(produced := [first, second], taken := 1, handed := [first],
                 forwarder := Waiting, channelOpened := true)
  }

  lemma OpenStream(cfg: Config) returns (steps: seq<Step>)
    ensures Runs(cfg, INITIAL, steps)
    ensures After(cfg, INITIAL, steps)
         == INITIAL.(sessions := [NEW_SESSION.(channelOpened := true, forwarder := Waiting)], phase := Selecting)
  {
    hide Selected;
    steps := [];
    steps := Follow(cfg, steps, Loop(StartConnect));
    steps := Follow(cfg, steps, Loop(Connect));
    steps := Follow(cfg, steps, Serve(OpenChannel));
    steps := Follow(cfg, steps, Serve(ConsumeSucceeds));
    var x := NEW_SESSION.(channelOpened := true, forwarder := Waiting);
    assert After(cfg, INITIAL, steps).sessions[0] == x;
    assert After(cfg, INITIAL, steps).sessions == [x];
  }

  lemma HandOverFirst(cfg: Config, first: Delivery, second: Delivery) returns (steps: seq<Step>)
    ensures Runs(cfg, INITIAL, steps)
    ensures After(cfg, INITIAL, steps)
         == INITIAL.(sessions := [Backlogged(first, second)], phase := Handling(first))
  {
    hide Selected;
    steps := OpenStream(cfg);
    steps := Follow(cfg, steps, Forward(0, Produce(first)));
    steps := Follow(cfg, steps, Forward(0, Produce(second)));
    assert [first] + [second] == [first, second];
    steps := Follow(cfg, steps, Forward(0, Take));
    steps := Follow(cfg, steps, Serve(HandOver));
    assert After(cfg, INITIAL, steps).sessions[0] == Backlogged(first, second);
    assert After(cfg, INITIAL, steps).sessions == [Backlogged(first, second)];
  }

  /** Rendering the event that reaches the limit, then all of the teardown. */
  lemma StopAtLimit(cfg: Config, first: Delivery, x: Session, steps: seq<Step>) returns (more: seq<Step>)
    requires cfg.maxEvents == 1 && Selected(cfg, first).Some? && x.once.Fresh? && x.connectionCloses == 0
    requires Runs(cfg, INITIAL, steps)
    requires After(cfg, INITIAL, steps) == INITIAL.(sessions := [x], phase := Handling(first))
    ensures Runs(cfg, INITIAL, more)
    ensures var s := After(cfg, INITIAL, more);
            && s.phase.Stopped? && !s.cancelled
            && s.sessions == [x.(once := Done, channelCloses := x.channelCloses + 1, connectionCloses := 1)]
  {
    more := Follow(cfg, steps, Serve(RenderSucceeds));
    more := Follow(cfg, more, Serve(ServiceBeginCleanup));
    more := Follow(cfg, more, Serve(ServiceEndCleanup));
    more := Follow(cfg, more, Serve(CloseConnection));
    more := Follow(cfg, more, Loop(Decide));
    more := Follow(cfg, more, Loop(CloseRenderer));
  }

  /** With a limit of one event, a second delivery taken in time stays in the forwarder's hands
      after the run has stopped and everything else is closed. */
  lemma AForwarderCanBeLeftBlocked(cfg: Config, first: Delivery, second: Delivery) returns (steps: seq<Step>)
    requires cfg.maxEvents == 1 && Selected(cfg, first).Some?
    ensures Runs(cfg, INITIAL, steps)
    ensures var s := After(cfg, INITIAL, steps);
            && s.phase.Stopped? && !s.cancelled && Left(s, 0)
            && s.sessions[0].forwarder == Holding(second)
  {
    steps := HandOverFirst(cfg, first, second);
    steps := Follow(cfg, steps, Forward(0, Take));
    var x := Backlogged(first, second).(taken := 2, forwarder := Holding(second));
    assert After(cfg, INITIAL, steps).sessions == [x];
    steps := StopAtLimit(cfg, first, x, steps);
    InvariantsOfRun(cfg, steps);
  }

  /** And one that has not taken it yet is left waiting before a stream that is not empty; it counts
      on the delivery channel keeping what it holds. */
  lemma AForwarderCanBeLeftWithABacklog(cfg: Config, first: Delivery, second: Delivery) returns (steps: seq<Step>)
    requires cfg.maxEvents == 1 && Selected(cfg, first).Some?
    ensures Runs(cfg, INITIAL, steps)
    ensures var s := After(cfg, INITIAL, steps);
            && s.phase.Stopped? && !s.cancelled && Left(s, 0)
            && s.sessions[0].forwarder.Waiting? && s.sessions[0].produced == [first, second] && s.sessions[0].taken == 1
  {
    steps := HandOverFirst(cfg, first, second);
    steps := StopAtLimit(cfg, first, Backlogged(first, second), steps);
    InvariantsOfRun(cfg, steps);
  }
}
