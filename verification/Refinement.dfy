/** Every interleaving of the session machine is a script of the service and consumer objects: what
    is proved of their methods for all scripts holds for whatever the goroutines do. */
module Refinement {
  import opened Model
  import opened Sequences
  import opened Parser
  import opened Pipeline
  import S = Session
  import opened Service
  import C = Consumer

  /** The turns of the reconnect loop that are over, and the picks of the session under way. */
  datatype Script = Script(turns: seq<Turn>, history: seq<TurnEnd>, picks: seq<Pick>)

  const NOTHING := Script([], [], [])

  // ----- the script a run writes

  function Picked(c: Script, pick: Pick): Script {
    c.(picks := c.picks + [pick])
  }

  function TurnOver(c: Script, turn: Turn, end: TurnEnd): Script {
    Script(c.turns + [turn], c.history + [end], [])
  }

  /** The turn of a session that ends with this error. */
  function SessionTurn(picks: seq<Pick>, err: SessionError, cancelled: bool): Turn {
    Turn(false, if err.ConsumeFailed? then ConsumeError(err.cancelLike) else Consuming(picks), cancelled)
  }

  function WriteLoop(s: S.State, c: Script, l: S.LoopStep): Script
    requires S.LoopEnabled(s, l)
  {
    match l
    case StopCancelled => TurnOver(c, Turn(true, NoConnection, true), TurnEnd(0, None))
    case ConnectFails => TurnOver(c, Turn(false, Refused(false), s.cancelled), TurnEnd(0, None))
    case Decide =>
      TurnOver(c, SessionTurn(c.picks, s.phase.err, s.cancelled), TurnEnd(|c.picks|, Some(s.phase.err)))
    case _ => c
  }

  function WriteService(cfg: Config, s: S.State, x: S.Session, c: Script, v: S.ServiceStep): Script
    requires S.ServiceEnabled(cfg, s, x, v)
  {
    match v
    case SelectCancelled => Picked(c, Done)
    case SelectConnectionClosed => Picked(c, ConnectionClosed)
    case SelectOutClosed => Picked(c, StreamClosed)
    case SkipDelivery => Picked(c, Arrives(s.phase.delivery, Accepts))
    case RenderSucceeds => Picked(c, Arrives(s.phase.delivery, Accepts))
    case RenderFails(cancelLike) => Picked(c, Arrives(s.phase.delivery, Refuses(cancelLike)))
    case _ => c
  }

  function Write(cfg: Config, s: S.State, c: Script, step: S.Step): Script
    requires S.Enabled(cfg, s, step)
  {
    match step
    case Loop(l) => WriteLoop(s, c, l)
    case Serve(v) => WriteService(cfg, s, s.sessions[|s.sessions| - 1], c, v)
    case _ => c
  }

  // ----- the script belongs to the state

  function AllPicks(c: Script): seq<Pick>
    requires |c.turns| == |c.history|
  {
    PicksIn(c.turns, c.history) + c.picks
  }

  /** The count with which the session under way began. */
  function CountBefore(cfg: Config, c: Script): nat
    requires |c.turns| == |c.history|
  {
    MatchedAfter(cfg, 0, PicksIn(c.turns, c.history))
  }

  predicate InTurn(phase: S.Phase) {
    S.InSession(phase) || phase.Deciding?
  }

  /** How far the session under way has come. */
  ghost predicate PicksFit(cfg: Config, matched: nat, picks: seq<Pick>, phase: S.Phase) {
    match phase
    case Selecting => AllGoOn(cfg, matched, picks)
    case Handling(_) => AllGoOn(cfg, matched, picks)
    case Ending(err) => EndFits(cfg, matched, picks, err)
    case Closing(err) => EndFits(cfg, matched, picks, err)
    case Deciding(err) => EndFits(cfg, matched, picks, err)
    case _ => picks == []
  }

  ghost predicate EndFits(cfg: Config, matched: nat, picks: seq<Pick>, err: SessionError) {
    if err.ConsumeFailed? then picks == [] else SessionFits(cfg, matched, picks, |picks|, err)
  }

  ghost predicate TurnsFit(cfg: Config, s: S.State, c: Script) {
    && |c.turns| == |c.history| && RunFits(cfg, 0, c.turns, c.history)
    && (c.turns != [] && !s.phase.Finishing? && !s.phase.Stopped? ==>
          GoesOn(c.turns[|c.turns| - 1], c.history[|c.history| - 1]))
    && (s.phase.Finishing? || s.phase.Stopped? ==>
          c.turns != [] && !GoesOn(c.turns[|c.turns| - 1], c.history[|c.history| - 1]))
  }

  /** What was picked in each session, in the order of the sessions. */
  function SessionPicks(turns: seq<Turn>, history: seq<TurnEnd>): (done: seq<seq<Pick>>)
    requires |turns| == |history|
    ensures |done| == SessionsIn(history)
  {
    if turns == [] then []
    else
      var n := |turns| - 1;
      SessionPicks(turns[..n], history[..n])
        + if history[n].err.Some? then [PicksInTurn(turns[n], history[n])] else []
  }

  /** Session by session, what the script picked is what the forwarder handed over. */
  predicate SessionsMatch(s: S.State, done: seq<seq<Pick>>, picks: seq<Pick>) {
    && |s.sessions| == |done| + (if InTurn(s.phase) then 1 else 0)
    && (forall i | 0 <= i < |done| :: s.sessions[i].handed == Arrivals(done[i]))
    && (InTurn(s.phase) ==> s.sessions[|done|].handed == Arrivals(picks) + S.InHand(s.phase))
  }

  /** The same deliveries were handled and the renderer was called alike. */
  predicate SameEffects(cfg: Config, s: S.State, picks: seq<Pick>) {
    && Arrivals(picks) == s.handled
    && AttemptsOf(cfg, picks) == s.attempts
    && MatchedAfter(cfg, 0, picks) == s.matched
  }

  ghost predicate Follows(cfg: Config, s: S.State, c: Script) {
    && TurnsFit(cfg, s, c)
    && PicksFit(cfg, CountBefore(cfg, c), c.picks, s.phase)
    && SameEffects(cfg, s, AllPicks(c))
    && SessionsMatch(s, SessionPicks(c.turns, c.history), c.picks)
  }

  // ----- every step keeps it so

  lemma PickAdds(cfg: Config, c: Script, pick: Pick)
    requires |c.turns| == |c.history|
    ensures var picks := AllPicks(c);
            && AllPicks(Picked(c, pick)) == picks + [pick]
            && Arrivals(picks + [pick]) == Arrivals(picks) + Arrival()(pick)
            && AttemptsOf(cfg, picks + [pick]) == AttemptsOf(cfg, picks) + AttemptOf(cfg)(pick)
            && Arrivals(c.picks + [pick]) == Arrivals(c.picks) + Arrival()(pick)
            && MatchedAfter(cfg, 0, picks + [pick])
               == MatchedAfter(cfg, 0, picks) + if Counts(cfg, pick) then 1 else 0
  {
    FlatMapOneMore(Arrival(), c.picks, pick);
    var picks := AllPicks(c);
    Regroup(PicksIn(c.turns, c.history), c.picks, [pick]);
    FlatMapOneMore(Arrival(), picks, pick);
    FlatMapOneMore(AttemptOf(cfg), picks, pick);
    MatchedOneMore(cfg, 0, picks, pick);
  }

  /** The machine's counter is the one the script's picks are judged by. */
  lemma CountNow(cfg: Config, s: S.State, c: Script)
    requires Follows(cfg, s, c)
    ensures s.matched == MatchedAfter(cfg, CountBefore(cfg, c), c.picks)
  {
    MatchedConcat(cfg, 0, PicksIn(c.turns, c.history), c.picks);
  }

  /** A pick that ends its session makes the picks a whole session. */
  lemma PickEnds(cfg: Config, matched: nat, picks: seq<Pick>, pick: Pick, err: SessionError)
    requires AllGoOn(cfg, matched, picks)
    requires PickEnd(cfg, MatchedAfter(cfg, matched, picks), pick) == Some(err)
    ensures SessionFits(cfg, matched, picks + [pick], |picks| + 1, err)
  {
    hide PickEnd, MatchedAfter, AllGoOn;
    assert (picks + [pick])[..|picks|] == picks;
  }

  /** Where a pick leads, the picks of the session fit. */
  lemma PickFits(cfg: Config, s: S.State, c: Script, pick: Pick, phase: S.Phase)
    requires Follows(cfg, s, c) && (s.phase.Selecting? || s.phase.Handling?)
    requires match PickEnd(cfg, s.matched, pick)
             case None => phase.Selecting?
             case Some(err) => phase == S.Ending(err)
    ensures PicksFit(cfg, CountBefore(cfg, c), c.picks + [pick], phase)
  {
    hide MatchedAfter, AllGoOn, SessionFits, RunFits, GoesOn, SessionsIn, SameEffects, CountBefore;
    CountNow(cfg, s, c);
    var end := PickEnd(cfg, s.matched, pick);
    if end.Some? {
      PickEnds(cfg, CountBefore(cfg, c), c.picks, pick, end.value);
    } else {
      GoOnOneMore(cfg, CountBefore(cfg, c), c.picks, pick);
    }
  }

  /** The pick a service step makes, if any. */
  function PickOf(cfg: Config, s: S.State, x: S.Session, v: S.ServiceStep): Option<Pick>
    requires S.ServiceEnabled(cfg, s, x, v)
  {
    var picks := WriteService(cfg, s, x, NOTHING, v).picks;
    if picks == [] then None else Some(picks[0])
  }

  predicate SameHanded(s: S.State, t: S.State) {
    && |t.sessions| == |s.sessions|
    && forall i | 0 <= i < |s.sessions| :: t.sessions[i].handed == s.sessions[i].handed
  }

  /** From `s` to `t` this pick was made. */
  predicate Makes(cfg: Config, s: S.State, t: S.State, pick: Pick) {
    && (s.phase.Selecting? || s.phase.Handling?)
    && (match PickEnd(cfg, s.matched, pick)
        case None => t.phase.Selecting?
        case Some(err) => t.phase == S.Ending(err))
    && SameHanded(s, t) && Arrival()(pick) == S.InHand(s.phase)
    && t.handled == s.handled + Arrival()(pick)
    && t.attempts == s.attempts + AttemptOf(cfg)(pick)
    && t.matched == s.matched + if Counts(cfg, pick) then 1 else 0
  }

  lemma ServiceStepMakesAPick(cfg: Config, s: S.State, v: S.ServiceStep)
    requires s.sessions != [] && S.ServiceEnabled(cfg, s, s.sessions[|s.sessions| - 1], v)
    requires PickOf(cfg, s, s.sessions[|s.sessions| - 1], v).Some?
    ensures var x := s.sessions[|s.sessions| - 1];
            Makes(cfg, s, S.ServiceApply(cfg, s, x, v), PickOf(cfg, s, x, v).value)
  {
    hide Selected, LimitReached;
    assert s.handled + [] == s.handled && s.attempts + [] == s.attempts;
  }

  lemma PickFollows(cfg: Config, s: S.State, t: S.State, c: Script, pick: Pick)
    requires Follows(cfg, s, c) && Makes(cfg, s, t, pick)
    ensures Follows(cfg, t, Picked(c, pick))
  {
    hide Arrivals, AttemptsOf, MatchedAfter, PicksFit, PickEnd, RunFits, PicksIn, AllPicks, SessionPicks;
    PickFits(cfg, s, c, pick, t.phase);
    PickAdds(cfg, c, pick);
  }

  lemma ServeFollows(cfg: Config, s: S.State, c: Script, v: S.ServiceStep)
    requires Follows(cfg, s, c) && s.sessions != []
    requires S.ServiceEnabled(cfg, s, s.sessions[|s.sessions| - 1], v)
    ensures var x := s.sessions[|s.sessions| - 1];
            Follows(cfg, S.ServiceApply(cfg, s, x, v), WriteService(cfg, s, x, c, v))
  {
    hide Follows, Makes, S.ServiceApply, S.ServiceEnabled;
    var x := s.sessions[|s.sessions| - 1];
    if PickOf(cfg, s, x, v).Some? {
      ServiceStepMakesAPick(cfg, s, v);
      PickFollows(cfg, s, S.ServiceApply(cfg, s, x, v), c, PickOf(cfg, s, x, v).value);
    } else {
      QuietStepFollows(cfg, s, c, v);
    }
  }

  lemma QuietKeepsPicks(cfg: Config, s: S.State, matched: nat, picks: seq<Pick>, v: S.ServiceStep)
    requires s.sessions != [] && S.ServiceEnabled(cfg, s, s.sessions[|s.sessions| - 1], v)
    requires PickOf(cfg, s, s.sessions[|s.sessions| - 1], v).None? && PicksFit(cfg, matched, picks, s.phase)
    ensures PicksFit(cfg, matched, picks, S.ServicePhase(cfg, s, s.sessions[|s.sessions| - 1], v))
  {
    hide MatchedAfter, AllGoOn, SessionFits, Selected;
    if v == S.ConsumeSucceeds { NothingPicked(cfg, matched, picks); }
  }

  lemma QuietKeepsMatch(cfg: Config, s: S.State, done: seq<seq<Pick>>, picks: seq<Pick>, v: S.ServiceStep)
    requires s.sessions != [] && S.ServiceEnabled(cfg, s, s.sessions[|s.sessions| - 1], v)
    requires PickOf(cfg, s, s.sessions[|s.sessions| - 1], v).None? && SessionsMatch(s, done, picks)
    ensures SessionsMatch(S.ServiceApply(cfg, s, s.sessions[|s.sessions| - 1], v), done, picks)
  {
    hide Arrivals, Selected;
  }

  /** The service steps that pick nothing. */
  lemma QuietStepFollows(cfg: Config, s: S.State, c: Script, v: S.ServiceStep)
    requires Follows(cfg, s, c) && s.sessions != []
    requires S.ServiceEnabled(cfg, s, s.sessions[|s.sessions| - 1], v)
    requires PickOf(cfg, s, s.sessions[|s.sessions| - 1], v).None?
    ensures Follows(cfg, S.ServiceApply(cfg, s, s.sessions[|s.sessions| - 1], v), c)
  {
    hide Arrivals, AttemptsOf, MatchedAfter, AllGoOn, SessionFits, RunFits, PicksIn, Selected, SessionPicks;
    hide PicksFit, SessionsMatch;
    QuietKeepsPicks(cfg, s, CountBefore(cfg, c), c.picks, v);
    QuietKeepsMatch(cfg, s, SessionPicks(c.turns, c.history), c.picks, v);
  }

  lemma OneMoreSession(turns: seq<Turn>, history: seq<TurnEnd>, turn: Turn, end: TurnEnd)
    requires |turns| == |history|
    ensures SessionPicks(turns + [turn], history + [end])
         == SessionPicks(turns, history) + if end.err.Some? then [PicksInTurn(turn, end)] else []
  {
    assert (turns + [turn])[..|turns|] == turns && (history + [end])[..|history|] == history;
  }

  /** The picks of the session that is over, if there was one, join those of the earlier ones. */
  lemma TurnKeepsMatch(s: S.State, t: S.State, done: seq<seq<Pick>>, picks: seq<Pick>)
    requires SessionsMatch(s, done, picks) && S.InHand(s.phase) == []
    requires t.sessions == s.sessions && (t.phase.Top? || t.phase.Finishing?)
    ensures SessionsMatch(t, done + if InTurn(s.phase) then [picks] else [], [])
  {
    hide Arrivals;
    assert Arrivals(picks) + [] == Arrivals(picks);
  }

  /** The finished turn joins the earlier ones, and its picks theirs. */
  lemma TurnJoins(cfg: Config, s: S.State, t: S.State, c: Script, turn: Turn, end: TurnEnd)
    requires TurnsFit(cfg, s, c) && !s.phase.Finishing? && !s.phase.Stopped?
    requires TurnFits(cfg, CountBefore(cfg, c), turn, end) && PicksInTurn(turn, end) == c.picks
    requires if GoesOn(turn, end) then t.phase.Top? else t.phase.Finishing?
    ensures TurnsFit(cfg, t, TurnOver(c, turn, end))
    ensures AllPicks(TurnOver(c, turn, end)) == AllPicks(c)
  {
    hide MatchedAfter, RunFits, TurnFits, GoesOn, PicksIn, PicksInTurn;
    OneMoreTurn(cfg, 0, c.turns, c.history, turn, end);
    assert AllPicks(c) + [] == AllPicks(c);
  }

  lemma TurnFollows(cfg: Config, s: S.State, t: S.State, c: Script, turn: Turn, end: TurnEnd)
    requires Follows(cfg, s, c) && !s.phase.Finishing? && !s.phase.Stopped?
    requires TurnFits(cfg, CountBefore(cfg, c), turn, end) && PicksInTurn(turn, end) == c.picks
    requires if GoesOn(turn, end) then t.phase.Top? else t.phase.Finishing?
    requires t.sessions == s.sessions && (InTurn(s.phase) <==> end.err.Some?) && S.InHand(s.phase) == []
    requires t.handled == s.handled && t.attempts == s.attempts && t.matched == s.matched
    ensures Follows(cfg, t, TurnOver(c, turn, end))
  {
    hide Arrivals, AttemptsOf, MatchedAfter, RunFits, TurnFits, GoesOn, PicksInTurn, SessionPicks, AllPicks;
    hide SessionsMatch, InTurn, AllGoOn, EndFits, CountBefore, PicksIn, SessionFits, Selected;
    TurnJoins(cfg, s, t, c, turn, end);
    hide TurnsFit;
    OneMoreSession(c.turns, c.history, turn, end);
    TurnKeepsMatch(s, t, SessionPicks(c.turns, c.history), c.picks);
  }

  /** The turn a session leaves behind. */
  lemma SessionTurnFits(cfg: Config, matched: nat, picks: seq<Pick>, err: SessionError, cancelled: bool)
    requires EndFits(cfg, matched, picks, err)
    ensures var turn, end := SessionTurn(picks, err, cancelled), TurnEnd(|picks|, Some(err));
            TurnFits(cfg, matched, turn, end) && PicksInTurn(turn, end) == picks
  {
    hide SessionFits;
    assert picks[..|picks|] == picks;
  }

  lemma LoopFollows(cfg: Config, s: S.State, c: Script, l: S.LoopStep)
    requires Follows(cfg, s, c) && S.LoopEnabled(s, l)
    ensures Follows(cfg, S.LoopApply(s, l), WriteLoop(s, c, l))
  {
    hide Arrivals, AttemptsOf, MatchedAfter, RunFits, PicksIn, EndFits, SessionPicks;
    NothingArrives();
    var t := S.LoopApply(s, l);
    match l
    case StopCancelled => TurnFollows(cfg, s, t, c, Turn(true, NoConnection, true), TurnEnd(0, None));
    case ConnectFails => TurnFollows(cfg, s, t, c, Turn(false, Refused(false), s.cancelled), TurnEnd(0, None));
    case Decide =>
      SessionTurnFits(cfg, CountBefore(cfg, c), c.picks, s.phase.err, s.cancelled);
      TurnFollows(cfg, s, t, c, SessionTurn(c.picks, s.phase.err, s.cancelled),
                  TurnEnd(|c.picks|, Some(s.phase.err)));
    case _ =>
  }

  lemma ForwarderHandsNothingOver(s: S.State, i: nat, f: S.ForwarderStep)
    requires i < |s.sessions| && S.ForwarderEnabled(s.sessions[i], f, s.cancelled)
    ensures SameHanded(s, s.(sessions := s.sessions[i := S.ForwarderApply(s.sessions[i], f, s.cancelled)]))
  {
  }

  lemma StepFollows(cfg: Config, s: S.State, c: Script, step: S.Step)
    requires Follows(cfg, s, c) && S.Enabled(cfg, s, step)
    ensures Follows(cfg, S.Apply(cfg, s, step), Write(cfg, s, c, step))
  {
    hide Follows, S.ForwarderApply, S.ForwarderEnabled, S.ServiceApply, S.ServiceEnabled, WriteService;
    hide S.LoopApply, S.LoopEnabled, WriteLoop;
    match step
    case Cancel => SameButForSessions(cfg, s, S.Apply(cfg, s, step), c);
    case Forward(i, f) =>
      ForwarderHandsNothingOver(s, i, f);
      SameButForSessions(cfg, s, S.Apply(cfg, s, step), c);
    case Loop(l) => LoopFollows(cfg, s, c, l);
    case Serve(v) => ServeFollows(cfg, s, c, v);
  }

  lemma NothingArrives()
    ensures Arrivals([]) == []
  {
  }

  lemma SameButForSessions(cfg: Config, s: S.State, t: S.State, c: Script)
    requires Follows(cfg, s, c) && SameHanded(s, t) && t.phase == s.phase
    requires t.handled == s.handled && t.attempts == s.attempts && t.matched == s.matched
    ensures Follows(cfg, t, c)
  {
    hide Arrivals, AttemptsOf, MatchedAfter, RunFits, PicksIn, SessionPicks, GoesOn, PicksFit;
  }

  lemma {:induction false} RunFollows(cfg: Config, s: S.State, c: Script, steps: seq<S.Step>) returns (d: Script)
    requires Follows(cfg, s, c) && S.Runs(cfg, s, steps)
    ensures Follows(cfg, S.After(cfg, s, steps), d)
    decreases steps
  {
    hide Follows, S.Enabled, S.Apply, Write;
    if steps == [] {
      d := c;
    } else {
      StepFollows(cfg, s, c, steps[0]);
      d := RunFollows(cfg, S.Apply(cfg, s, steps[0]), Write(cfg, s, c, steps[0]), steps[1..]);
    }
  }

  // ----- the results

  /** The script has as many sessions as there were connections, and in each of them it picked what
      that session's forwarder handed over, less the delivery that is still being handled. */
  predicate SameSessions(s: S.State, done: seq<seq<Pick>>) {
    && |s.sessions| == |done|
    && forall i | 0 <= i < |done| ::
         s.sessions[i].handed == Arrivals(done[i]) + if i == |done| - 1 then S.InHand(s.phase) else []
  }

  /** A run that has stopped is a complete script of `Service.Run`: session by session the same
      deliveries, the same renderer calls, the same count, and a last turn that does not go on. */
  lemma StoppedRunsAreScripts(cfg: Config, steps: seq<S.Step>)
    returns (turns: seq<Turn>, history: seq<TurnEnd>)
    requires S.Runs(cfg, S.INITIAL, steps) && S.After(cfg, S.INITIAL, steps).phase.Stopped?
    ensures RunFits(cfg, 0, turns, history)
    ensures turns != [] && !GoesOn(turns[|turns| - 1], history[|history| - 1])
    ensures SameEffects(cfg, S.After(cfg, S.INITIAL, steps), PicksIn(turns, history))
    ensures SameSessions(S.After(cfg, S.INITIAL, steps), SessionPicks(turns, history))
  {
    hide Arrivals, AttemptsOf, MatchedAfter, RunFits, PicksIn, GoesOn, SessionPicks;
    assert Follows(cfg, S.INITIAL, NOTHING) by { NothingYet(cfg); }
    var c := RunFollows(cfg, S.INITIAL, NOTHING, steps);
    turns, history := c.turns, c.history;
    assert AllPicks(c) == PicksIn(turns, history);
  }

  /** And so is every run that is still under way, as far as it has come: its script breaks off in
      the session it is in. */
  lemma RunsAreScripts(cfg: Config, steps: seq<S.Step>) returns (turns: seq<Turn>, history: seq<TurnEnd>)
    requires S.Runs(cfg, S.INITIAL, steps)
    ensures RunFits(cfg, 0, turns, history)
    ensures SameEffects(cfg, S.After(cfg, S.INITIAL, steps), PicksIn(turns, history))
    ensures SameSessions(S.After(cfg, S.INITIAL, steps), SessionPicks(turns, history))
  {
    hide Follows, RunFits, SameEffects, PicksIn, SameSessions, SessionPicks;
    assert Follows(cfg, S.INITIAL, NOTHING) by { NothingYet(cfg); }
    var c := RunFollows(cfg, S.INITIAL, NOTHING, steps);
    turns, history := BreakOff(cfg, S.After(cfg, S.INITIAL, steps), c);
  }

  /** A script in the middle of a session, ended there. */
  lemma BreakOff(cfg: Config, s: S.State, c: Script) returns (turns: seq<Turn>, history: seq<TurnEnd>)
    requires Follows(cfg, s, c)
    ensures RunFits(cfg, 0, turns, history)
    ensures SameEffects(cfg, s, PicksIn(turns, history))
    ensures SameSessions(s, SessionPicks(turns, history))
  {
    hide Arrivals, AttemptsOf, MatchedAfter, RunFits, PicksIn, TurnFits, GoesOn, SessionPicks;
    hide SessionsMatch, SameSessions, EndFits, SessionFits, AllGoOn;
    turns, history := c.turns, c.history;
    MatchBreaksOff(s, SessionPicks(turns, history), c.picks);
    if InTurn(s.phase) {
      var err := if s.phase.Ending? || s.phase.Closing? || s.phase.Deciding? then s.phase.err else ContextDone;
      SessionBreaksOff(cfg, CountBefore(cfg, c), c.picks, s.phase);
      SessionTurnFits(cfg, CountBefore(cfg, c), c.picks, err, false);
      OneMoreTurn(cfg, 0, turns, history, SessionTurn(c.picks, err, false), TurnEnd(|c.picks|, Some(err)));
      OneMoreSession(turns, history, SessionTurn(c.picks, err, false), TurnEnd(|c.picks|, Some(err)));
      turns := turns + [SessionTurn(c.picks, err, false)];
      history := history + [TurnEnd(|c.picks|, Some(err))];
    } else {
      assert AllPicks(c) == PicksIn(turns, history);
      assert SessionPicks(turns, history) + [] == SessionPicks(turns, history);
    }
  }

  lemma MatchBreaksOff(s: S.State, done: seq<seq<Pick>>, picks: seq<Pick>)
    requires SessionsMatch(s, done, picks)
    ensures SameSessions(s, done + if InTurn(s.phase) then [picks] else [])
  {
    hide Arrivals;
    assert done + [] == done;
  }

  lemma SessionBreaksOff(cfg: Config, matched: nat, picks: seq<Pick>, phase: S.Phase)
    requires InTurn(phase) && PicksFit(cfg, matched, picks, phase)
    ensures EndFits(cfg, matched, picks,
                    if phase.Ending? || phase.Closing? || phase.Deciding? then phase.err else ContextDone)
  {
    hide MatchedAfter, PickEnd;
    NothingPicked(cfg, matched, []);
  }

  lemma NothingYet(cfg: Config)
    ensures Follows(cfg, S.INITIAL, NOTHING)
  {
  }

  // ----- the forwarders

  /** The round of its loop that a forwarder ends with this step, if it does. */
  function RoundOf(x: S.Session, f: S.ForwarderStep): seq<C.Round> {
    match f
    case SeeBrokerClosed => [C.BrokerClosed]
    case SeeCancelled => [if x.forwarder.Holding? then C.Received(x.forwarder.delivery, false) else C.ContextDone]
    case _ => []
  }

  /** The round that session `i`'s forwarder ends with this step of the machine, if it does. */
  function RoundMade(cfg: Config, s: S.State, i: nat, step: S.Step): seq<C.Round>
    requires S.Enabled(cfg, s, step)
  {
    match step
    case Forward(j, f) => if j == i then RoundOf(s.sessions[i], f) else []
    case Serve(v) =>
      if v.HandOver? && i == |s.sessions| - 1 then [C.Received(s.sessions[i].forwarder.delivery, true)] else []
    case _ => []
  }

  /** The rounds session `i`'s forwarder goes through in a run. */
  function RoundsMade(cfg: Config, s: S.State, i: nat, steps: seq<S.Step>): seq<C.Round>
    requires S.Runs(cfg, s, steps)
    decreases steps
  {
    if steps == [] then []
    else RoundMade(cfg, s, i, steps[0]) + RoundsMade(cfg, S.Apply(cfg, s, steps[0]), i, steps[1..])
  }

  /** The forwarder has left its loop. */
  predicate Gone(x: S.Session) {
    x.forwarder.Leaving? || x.forwarder.Cleaned? || x.forwarder.Exited?
  }

  predicate AtItsEnd(rounds: seq<C.Round>) {
    rounds != [] && C.Ends(rounds[|rounds| - 1])
  }

  /** Why the loop was left: its stream had ended and nothing of it was left, or the context was done. */
  predicate EndedFor(x: S.Session, last: C.Round, cancelled: bool) {
    if last.BrokerClosed? then x.brokerClosed && x.taken == |x.produced| else cancelled
  }

  /** What the script sends is what the service got, what it drops is dropped, it has come to its end
      exactly when the forwarder has left its loop, and then for the reason its last round names. */
  predicate IsScriptOf(x: S.Session, rounds: seq<C.Round>, cancelled: bool) {
    && C.AllButLastGoOn(rounds)
    && FlatMap(C.SentBy(), rounds) == x.handed
    && FlatMap(C.DroppedBy(), rounds) == x.dropped
    && (AtItsEnd(rounds) <==> Gone(x))
    && (Gone(x) ==> EndedFor(x, rounds[|rounds| - 1], cancelled))
  }

  predicate IsScriptAt(s: S.State, i: nat, rounds: seq<C.Round>) {
    if i < |s.sessions| then IsScriptOf(s.sessions[i], rounds, s.cancelled) else rounds == []
  }

  lemma OneMoreRound(x: S.Session, rounds: seq<C.Round>, cancelled: bool, round: C.Round)
    requires IsScriptOf(x, rounds, cancelled) && !Gone(x)
    ensures C.AllButLastGoOn(rounds + [round])
    ensures FlatMap(C.SentBy(), rounds + [round]) == x.handed + C.SentBy()(round)
    ensures x.dropped == [] && FlatMap(C.DroppedBy(), rounds + [round]) == C.DroppedBy()(round)
  {
    C.SentThenDropped(rounds);
    FlatMapOneMore(C.SentBy(), rounds, round);
    FlatMapOneMore(C.DroppedBy(), rounds, round);
  }

  lemma ForwardScript(x: S.Session, rounds: seq<C.Round>, cancelled: bool, f: S.ForwarderStep)
    requires S.SessionOk(x) && S.ForwarderEnabled(x, f, cancelled) && IsScriptOf(x, rounds, cancelled)
    ensures IsScriptOf(S.ForwarderApply(x, f, cancelled), rounds + RoundOf(x, f), cancelled)
  {
    hide FlatMap, C.AllButLastGoOn;
    if f.SeeBrokerClosed? || f.SeeCancelled? {
      OneMoreRound(x, rounds, cancelled, RoundOf(x, f)[0]);
    } else {
      assert rounds + [] == rounds;
    }
  }

  lemma ServeScript(cfg: Config, s: S.State, rounds: seq<C.Round>, v: S.ServiceStep)
    requires S.SessionsOk(s) && s.sessions != []
    requires S.ServiceEnabled(cfg, s, s.sessions[|s.sessions| - 1], v)
    requires IsScriptOf(s.sessions[|s.sessions| - 1], rounds, s.cancelled)
    ensures var x := s.sessions[|s.sessions| - 1];
            IsScriptOf(S.ServiceSession(cfg, s, x, v),
                       rounds + RoundMade(cfg, s, |s.sessions| - 1, S.Serve(v)), s.cancelled)
  {
    hide FlatMap, C.AllButLastGoOn, Selected;
    var x := s.sessions[|s.sessions| - 1];
    assert S.Fits(s, |s.sessions| - 1);
    if v.HandOver? {
      OneMoreRound(x, rounds, s.cancelled, C.Received(x.forwarder.delivery, true));
    } else {
      assert rounds + [] == rounds;
    }
  }

  lemma StepScript(cfg: Config, s: S.State, i: nat, rounds: seq<C.Round>, step: S.Step)
    requires S.SessionsOk(s) && S.Enabled(cfg, s, step) && IsScriptAt(s, i, rounds)
    ensures IsScriptAt(S.Apply(cfg, s, step), i, rounds + RoundMade(cfg, s, i, step))
  {
    hide IsScriptOf, S.ForwarderApply, S.ForwarderEnabled, S.ServiceEnabled, S.ServiceSession, S.ServicePhase;
    hide S.SessionOk, S.CurrentFits, S.PastFits, Selected, RoundOf;
    assert rounds + [] == rounds;
    match step
    case Cancel =>
      if i < |s.sessions| { CancelScript(s.sessions[i], rounds, s.cancelled); }
    case Forward(j, f) =>
      if i == j {
        assert S.Fits(s, i);
        ForwardScript(s.sessions[i], rounds, s.cancelled, f);
      }
    case Loop(l) =>
      NoRoundsYet(s.cancelled);
    case Serve(v) =>
      if i == |s.sessions| - 1 { ServeScript(cfg, s, rounds, v); }
  }

  lemma CancelScript(x: S.Session, rounds: seq<C.Round>, cancelled: bool)
    requires IsScriptOf(x, rounds, cancelled)
    ensures IsScriptOf(x, rounds, true)
  {
  }

  lemma NoRoundsYet(cancelled: bool)
    ensures IsScriptOf(S.NEW_SESSION, [], cancelled)
  {
  }

  lemma {:induction false} RunScript(cfg: Config, s: S.State, i: nat, rounds: seq<C.Round>, steps: seq<S.Step>)
    requires S.SessionsOk(s) && S.Runs(cfg, s, steps) && IsScriptAt(s, i, rounds)
    ensures IsScriptAt(S.After(cfg, s, steps), i, rounds + RoundsMade(cfg, s, i, steps))
    decreases steps
  {
    hide S.SessionsOk, S.Enabled, S.Apply, IsScriptAt, RoundMade;
    if steps == [] {
      assert rounds + [] == rounds;
    } else {
      var t, made := S.Apply(cfg, s, steps[0]), RoundMade(cfg, s, i, steps[0]);
      S.StepKeepsSessions(cfg, s, steps[0]);
      StepScript(cfg, s, i, rounds, steps[0]);
      RunScript(cfg, t, i, rounds + made, steps[1..]);
      Regroup(rounds, made, RoundsMade(cfg, t, i, steps[1..]));
    }
  }

  /** In every interleaving, the rounds each session's forwarder went through are a script of
      `Consumer.Forward`, with the effects and the ending it had there. */
  lemma ForwardersAreScripts(cfg: Config, steps: seq<S.Step>, i: nat)
    requires S.Runs(cfg, S.INITIAL, steps) && i < |S.After(cfg, S.INITIAL, steps).sessions|
    ensures var s := S.After(cfg, S.INITIAL, steps);
            IsScriptOf(s.sessions[i], RoundsMade(cfg, S.INITIAL, i, steps), s.cancelled)
  {
    hide IsScriptOf;
    RunScript(cfg, S.INITIAL, i, [], steps);
    assert [] + RoundsMade(cfg, S.INITIAL, i, steps) == RoundsMade(cfg, S.INITIAL, i, steps);
  }

  /** Without a cancellation nothing is lost: a forwarder that has left its loop handed over all that
      its broker ever produced. */
  lemma NothingIsLostUncancelled(cfg: Config, steps: seq<S.Step>, i: nat)
    requires S.Runs(cfg, S.INITIAL, steps) && i < |S.After(cfg, S.INITIAL, steps).sessions|
    requires !S.After(cfg, S.INITIAL, steps).cancelled && Gone(S.After(cfg, S.INITIAL, steps).sessions[i])
    ensures var x := S.After(cfg, S.INITIAL, steps).sessions[i];
            x.brokerClosed && x.handed == x.produced
  {
    hide FlatMap;
    ForwardersAreScripts(cfg, steps, i);
    S.DeliveriesKeepTheirOrder(cfg, steps, i);
    var x := S.After(cfg, S.INITIAL, steps).sessions[i];
    C.LastOfRounds(RoundsMade(cfg, S.INITIAL, i, steps));
    assert x.produced[..x.taken] == x.produced;
  }
}
