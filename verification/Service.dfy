/** The service object: its match counter, the handling of a delivery, and the two loops.
    What the environment decides (connecting, what a select picks, what the renderer answers)
    comes in as scripts; the interleavings behind them are the subject of module Session, and
    module Refinement leads every one of them back to a script. */
module Service {
  import opened Model
  import opened Sequences
  import opened Parser
  import opened Pipeline

  /** The renderer's answer to a trace, should it be asked. */
  datatype Reply = Accepts | Refuses(cancelLike: bool)

  /** What one select of the session loop picks. */
  datatype Pick = Done | ConnectionClosed | StreamClosed | Arrives(delivery: Delivery, reply: Reply)

  datatype Connecting =
    | Refused(cancelLike: bool)
    | NoConnection
    | ConsumeError(cancelLike: bool)
    | Consuming(picks: seq<Pick>)

  /** One turn of the reconnect loop, with the context as seen before and after it. */
  datatype Turn = Turn(cancelledBefore: bool, connecting: Connecting, cancelledAfter: bool)

  datatype RunResult = Clean | ConnectFailure | NilConnection | SessionFailure(err: SessionError) | CloseFailure

  // ----- what picks amount to

  function Arrival(): Pick -> seq<Delivery> {
    (p: Pick) => if p.Arrives? then [p.delivery] else []
  }

  /** The deliveries handled. */
  function Arrivals(picks: seq<Pick>): seq<Delivery> {
    FlatMap(Arrival(), picks)
  }

  function AttemptOf(cfg: Config): Pick -> seq<Attempt> {
    (p: Pick) =>
      if p.Arrives? && Selected(cfg, p.delivery).Some?
      then [Attempt(Selected(cfg, p.delivery).value, p.reply.Accepts?)]
      else []
  }

  /** The calls of the renderer. */
  function AttemptsOf(cfg: Config, picks: seq<Pick>): seq<Attempt> {
    FlatMap(AttemptOf(cfg), picks)
  }

  /** The event counter after these picks. */
  function MatchedAfter(cfg: Config, matched: nat, picks: seq<Pick>): nat {
    matched + |Rendered(AttemptsOf(cfg, picks))|
  }

  /** The pick is an event that reaches the output. */
  predicate Counts(cfg: Config, pick: Pick) {
    pick.Arrives? && Selected(cfg, pick.delivery).Some? && pick.reply.Accepts?
  }

  lemma MatchedOneMore(cfg: Config, matched: nat, picks: seq<Pick>, pick: Pick)
    ensures MatchedAfter(cfg, matched, picks + [pick])
         == MatchedAfter(cfg, matched, picks) + if Counts(cfg, pick) then 1 else 0
  {
    hide Selected;
    FlatMapOneMore(AttemptOf(cfg), picks, pick);
    var before := AttemptsOf(cfg, picks);
    if pick.Arrives? && Selected(cfg, pick.delivery).Some? {
      AttemptOneMore(before, AttemptOf(cfg)(pick)[0]);
    } else {
      assert before + [] == before;
    }
  }

  lemma MatchedConcat(cfg: Config, matched: nat, a: seq<Pick>, b: seq<Pick>)
    ensures MatchedAfter(cfg, matched, a + b) == MatchedAfter(cfg, MatchedAfter(cfg, matched, a), b)
  {
    FlatMapAppend(AttemptOf(cfg), a, b);
    FlatMapAppend(RenderedBy(), AttemptsOf(cfg, a), AttemptsOf(cfg, b));
  }

  /** The renderer is called with parse-then-match of what is handled. */
  lemma {:induction false} PicksRenderTheSelected(cfg: Config, picks: seq<Pick>)
    ensures Attempted(AttemptsOf(cfg, picks)) == SelectedAll(cfg, Arrivals(picks))
  {
    hide Selected;
    if picks != [] {
      var n := |picks| - 1;
      PicksRenderTheSelected(cfg, picks[..n]);
      var attempts, handled := AttemptsOf(cfg, picks[..n]), Arrivals(picks[..n]);
      if picks[n].Arrives? {
        HandledOneMore(cfg, handled, picks[n].delivery);
        if Selected(cfg, picks[n].delivery).Some? {
          AttemptOneMore(attempts, AttemptOf(cfg)(picks[n])[0]);
        } else {
          assert attempts + [] == attempts;
        }
      } else {
        assert attempts + [] == attempts && handled + [] == handled;
      }
    }
  }

  // ----- how a session ends

  /** The error a pick ends its session with, None when the session goes on; `matched` is the
      counter before the pick. */
  function PickEnd(cfg: Config, matched: nat, pick: Pick): Option<SessionError> {
    match pick
    case Done => Some(ContextDone)
    case ConnectionClosed => Some(ReconnectNeeded)
    case StreamClosed => Some(ReconnectNeeded)
    case Arrives(d, reply) =>
      if Selected(cfg, d).None? then None
      else if reply.Refuses? then Some(RenderFailed(reply.cancelLike))
      else if LimitReached(cfg, matched + 1) then Some(MaxEventsReached)
      else None
  }

  /** None of the picks ends the session. */
  ghost predicate AllGoOn(cfg: Config, matched: nat, picks: seq<Pick>) {
    forall j | 0 <= j < |picks| :: PickEnd(cfg, MatchedAfter(cfg, matched, picks[..j]), picks[j]).None?
  }

  /** A session uses its picks up to the first that ends it, or all of them: a script that runs out
      is a cancelled context. */
  ghost predicate SessionFits(cfg: Config, matched: nat, picks: seq<Pick>, used: nat, err: SessionError) {
    || (used == |picks| && err == ContextDone && AllGoOn(cfg, matched, picks))
    || (0 < used <= |picks| && AllGoOn(cfg, matched, picks[..used - 1])
        && PickEnd(cfg, MatchedAfter(cfg, matched, picks[..used - 1]), picks[used - 1]) == Some(err))
  }

  lemma GoOnOneMore(cfg: Config, matched: nat, picks: seq<Pick>, pick: Pick)
    requires AllGoOn(cfg, matched, picks) && PickEnd(cfg, MatchedAfter(cfg, matched, picks), pick).None?
    ensures AllGoOn(cfg, matched, picks + [pick])
  {
    hide PickEnd, MatchedAfter;
    forall j | 0 <= j <= |picks|
      ensures PickEnd(cfg, MatchedAfter(cfg, matched, (picks + [pick])[..j]), (picks + [pick])[j]).None?
    {
      assert (picks + [pick])[..j] == picks[..j];
      assert picks[..|picks|] == picks;
    }
  }

  lemma EndsAfterGoingOn(cfg: Config, matched: nat, picks: seq<Pick>, used: nat, k: nat, err: SessionError)
    requires SessionFits(cfg, matched, picks, used, err) && k < |picks|
    ensures PickEnd(cfg, MatchedAfter(cfg, matched, picks[..k]), picks[k]).Some? ==> used <= k + 1
    ensures used > k + 1 ==> PickEnd(cfg, MatchedAfter(cfg, matched, picks[..k]), picks[k]).None?
  {
    hide PickEnd, MatchedAfter;
    if used > k + 1 {
      assert picks[..used - 1][..k] == picks[..k];
      assert picks[..used - 1][k] == picks[k];
    }
  }

  /** How a session ends is determined by its script. */
  lemma SessionIsDetermined(cfg: Config, matched: nat, picks: seq<Pick>, used: nat, err: SessionError,
                            used': nat, err': SessionError)
    requires SessionFits(cfg, matched, picks, used, err) && SessionFits(cfg, matched, picks, used', err')
    ensures used == used' && err == err'
  {
    hide PickEnd, MatchedAfter;
    if used > 0 { EndsAfterGoingOn(cfg, matched, picks, used', used - 1, err'); }
    if used' > 0 { EndsAfterGoingOn(cfg, matched, picks, used, used' - 1, err); }
  }

  // ----- the limit

  /** Events were counted, and the last of them reached the limit. */
  predicate Spent(cfg: Config, before: nat, after: nat) {
    after > before && LimitReached(cfg, after)
  }

  /** The counter stays within the limit; if it started at or past it, one event more is counted. */
  predicate WithinLimit(cfg: Config, before: nat, after: nat) {
    cfg.maxEvents > 0 ==> after <= if before < cfg.maxEvents then cfg.maxEvents else before + 1
  }

  lemma GoOnPrefix(cfg: Config, matched: nat, picks: seq<Pick>, n: nat)
    requires AllGoOn(cfg, matched, picks) && n <= |picks|
    ensures AllGoOn(cfg, matched, picks[..n])
  {
    hide PickEnd, MatchedAfter;
    forall j | 0 <= j < n
      ensures PickEnd(cfg, MatchedAfter(cfg, matched, picks[..n][..j]), picks[..n][j]).None?
    {
      assert picks[..n][..j] == picks[..j];
    }
  }

  lemma {:induction false} GoingOnSpendsNothing(cfg: Config, matched: nat, picks: seq<Pick>)
    requires AllGoOn(cfg, matched, picks)
    ensures !Spent(cfg, matched, MatchedAfter(cfg, matched, picks))
  {
    hide Selected, MatchedAfter;
    if picks == [] {
      NothingPicked(cfg, matched, picks);
    } else {
      var n := |picks| - 1;
      GoOnPrefix(cfg, matched, picks, n);
      assert PickEnd(cfg, MatchedAfter(cfg, matched, picks[..n]), picks[n]).None?;
      hide AllGoOn;
      GoingOnSpendsNothing(cfg, matched, picks[..n]);
      MatchedOneMore(cfg, matched, picks[..n], picks[n]);
      assert picks == picks[..n] + [picks[n]];
    }
  }

  /** A session ends on the limit exactly when it counted an event that reached it, and then it has
      gone past it by nothing; a session begun at the limit counts at most one event. */
  lemma SessionLimit(cfg: Config, matched: nat, picks: seq<Pick>, used: nat, err: SessionError)
    requires SessionFits(cfg, matched, picks, used, err)
    ensures var after := MatchedAfter(cfg, matched, picks[..used]);
            WithinLimit(cfg, matched, after) && (err == MaxEventsReached <==> Spent(cfg, matched, after))
  {
    hide MatchedAfter, AllGoOn, Selected;
    if used == |picks| && err == ContextDone && AllGoOn(cfg, matched, picks) {
      assert picks[..used] == picks;
      GoingOnSpendsNothing(cfg, matched, picks);
      MatchedGrows(cfg, matched, picks);
    } else {
      assert picks[..used] == picks[..used - 1] + [picks[used - 1]];
      GoingOnSpendsNothing(cfg, matched, picks[..used - 1]);
      MatchedGrows(cfg, matched, picks[..used - 1]);
      MatchedOneMore(cfg, matched, picks[..used - 1], picks[used - 1]);
    }
  }

  lemma MatchedGrows(cfg: Config, matched: nat, picks: seq<Pick>)
    ensures MatchedAfter(cfg, matched, picks) >= matched
  {
  }

  // ----- turns

  /** How a turn of the reconnect loop went: picks used, and the session's error if there was a session. */
  datatype TurnEnd = TurnEnd(used: nat, err: Option<SessionError>)

  predicate GoesOn(turn: Turn, end: TurnEnd) {
    !turn.cancelledBefore && end.err.Some? && Continues(end.err.value, turn.cancelledAfter)
  }

  /** The turn, begun with the given count, ends this way. */
  ghost predicate TurnFits(cfg: Config, matched: nat, turn: Turn, end: TurnEnd) {
    if turn.cancelledBefore || turn.connecting.Refused? || turn.connecting.NoConnection? then end == TurnEnd(0, None)
    else if turn.connecting.ConsumeError? then end == TurnEnd(0, Some(ConsumeFailed(turn.connecting.cancelLike)))
    else end.err.Some? && SessionFits(cfg, matched, turn.connecting.picks, end.used, end.err.value)
  }

  function PicksInTurn(turn: Turn, end: TurnEnd): seq<Pick> {
    if turn.connecting.Consuming? && end.used <= |turn.connecting.picks| then turn.connecting.picks[..end.used] else []
  }

  /** Everything picked in the given turns. */
  function PicksIn(turns: seq<Turn>, history: seq<TurnEnd>): seq<Pick>
    requires |turns| == |history|
  {
    if turns == [] then []
    else
      var n := |turns| - 1;
      PicksIn(turns[..n], history[..n]) + PicksInTurn(turns[n], history[n])
  }

  /** Turn follows turn as long as each goes on, and each ends as its script and the count say. */
  ghost predicate RunFits(cfg: Config, matched: nat, turns: seq<Turn>, history: seq<TurnEnd>) {
    && |turns| == |history|
    && (turns == [] ||
        var n := |turns| - 1;
        && RunFits(cfg, matched, turns[..n], history[..n])
        && (n > 0 ==> GoesOn(turns[n - 1], history[n - 1]))
        && TurnFits(cfg, MatchedAfter(cfg, matched, PicksIn(turns[..n], history[..n])), turns[n], history[n]))
  }

  /** What the run reports when this turn ends it. */
  function Verdict(turn: Turn, end: TurnEnd): RunResult {
    if turn.cancelledBefore then Clean
    else if turn.connecting.Refused? then if turn.connecting.cancelLike then Clean else ConnectFailure
    else if turn.connecting.NoConnection? then NilConnection
    else if end.err == Some(RenderFailed(false)) || end.err == Some(ConsumeFailed(false)) then
      SessionFailure(end.err.value)
    else Clean
  }

  /** What the run reports before the renderer is closed. */
  function ResultOf(turns: seq<Turn>, history: seq<TurnEnd>): RunResult
    requires |history| <= |turns|
  {
    if history == [] then Clean
    else
      var n := |history| - 1;
      if GoesOn(turns[n], history[n]) then Clean else Verdict(turns[n], history[n])
  }

  /** The number of connections opened. */
  function SessionsIn(history: seq<TurnEnd>): nat {
    if history == [] then 0
    else SessionsIn(history[..|history| - 1]) + if history[|history| - 1].err.Some? then 1 else 0
  }

  lemma OneMoreTurn(cfg: Config, matched: nat, turns: seq<Turn>, history: seq<TurnEnd>, turn: Turn, end: TurnEnd)
    requires RunFits(cfg, matched, turns, history)
    requires turns != [] ==> GoesOn(turns[|turns| - 1], history[|history| - 1])
    requires TurnFits(cfg, MatchedAfter(cfg, matched, PicksIn(turns, history)), turn, end)
    ensures RunFits(cfg, matched, turns + [turn], history + [end])
    ensures PicksIn(turns + [turn], history + [end]) == PicksIn(turns, history) + PicksInTurn(turn, end)
    ensures SessionsIn(history + [end]) == SessionsIn(history) + if end.err.Some? then 1 else 0
  {
    hide MatchedAfter, TurnFits;
    assert (turns + [turn])[..|turns|] == turns && (history + [end])[..|history|] == history;
  }

  /** What holds for a session holds for a run: its last session ends on the limit exactly when the
      run counted an event that reached it. */
  lemma {:induction false} RunLimit(cfg: Config, matched: nat, turns: seq<Turn>, history: seq<TurnEnd>)
    requires RunFits(cfg, matched, turns, history)
    ensures var after := MatchedAfter(cfg, matched, PicksIn(turns, history));
            && WithinLimit(cfg, matched, after)
            && (Spent(cfg, matched, after) <==>
                  history != [] && history[|history| - 1].err == Some(MaxEventsReached))
  {
    hide SessionFits;
    if turns != [] {
      var n := |turns| - 1;
      var before := PicksIn(turns[..n], history[..n]);
      RunLimit(cfg, matched, turns[..n], history[..n]);
      MatchedConcat(cfg, matched, before, PicksInTurn(turns[n], history[n]));
      TurnLimit(cfg, MatchedAfter(cfg, matched, before), turns[n], history[n]);
      MatchedGrows(cfg, matched, before);
      MatchedGrows(cfg, MatchedAfter(cfg, matched, before), PicksInTurn(turns[n], history[n]));
    }
  }

  lemma TurnLimit(cfg: Config, matched: nat, turn: Turn, end: TurnEnd)
    requires TurnFits(cfg, matched, turn, end)
    ensures var after := MatchedAfter(cfg, matched, PicksInTurn(turn, end));
            WithinLimit(cfg, matched, after) && (end.err == Some(MaxEventsReached) <==> Spent(cfg, matched, after))
  {
    if end.err.Some? && turn.connecting.Consuming? {
      SessionLimit(cfg, matched, turn.connecting.picks, end.used, end.err.value);
    }
  }

  // ----- when a run stops, said of its script

  /** The session's script leaves the run no next session. */
  ghost predicate SessionStops(cfg: Config, matched: nat, picks: seq<Pick>, used: nat, cancelledAfter: bool)
    requires used <= |picks|
  {
    if used == 0 then cancelledAfter
    else
      match picks[used - 1]
      case ConnectionClosed => false
      case StreamClosed => false
      case Done => cancelledAfter
      case Arrives(d, reply) =>
        if Selected(cfg, d).None? then cancelledAfter
        else
          match reply
          case Refuses(cancelLike) => !cancelLike || cancelledAfter
          case Accepts =>
            cancelledAfter || (cfg.maxEvents > 0 && MatchedAfter(cfg, matched, picks[..used]) >= cfg.maxEvents)
  }

  /** The turn is the run's last: the context was done before it, there was no connection, consuming or
      rendering failed, the limit was reached, or an error that wraps a context error met a context
      that is done. */
  ghost predicate Stops(cfg: Config, matched: nat, turn: Turn, end: TurnEnd) {
    || turn.cancelledBefore
    || match turn.connecting
       case Refused(_) => true
       case NoConnection => true
       case ConsumeError(cancelLike) => !cancelLike || turn.cancelledAfter
       case Consuming(picks) => end.used <= |picks| && SessionStops(cfg, matched, picks, end.used, turn.cancelledAfter)
  }

  /** The session ended because its connection or its stream was gone. */
  predicate LostConnection(turn: Turn, end: TurnEnd) {
    && !turn.cancelledBefore && turn.connecting.Consuming? && 0 < end.used <= |turn.connecting.picks|
    && var last := turn.connecting.picks[end.used - 1]; last.ConnectionClosed? || last.StreamClosed?
  }

  lemma StopsExactly(cfg: Config, matched: nat, turn: Turn, end: TurnEnd)
    requires TurnFits(cfg, matched, turn, end)
    ensures GoesOn(turn, end) <==> !Stops(cfg, matched, turn, end)
  {
    hide Selected, MatchedAfter, AllGoOn;
    if end.err.Some? && turn.connecting.Consuming? {
      SessionStopsExactly(cfg, matched, turn.connecting.picks, end.used, end.err.value, turn.cancelledAfter);
    }
  }

  lemma SessionStopsExactly(cfg: Config, matched: nat, picks: seq<Pick>, used: nat, err: SessionError, cancelled: bool)
    requires SessionFits(cfg, matched, picks, used, err)
    ensures Continues(err, cancelled) <==> !SessionStops(cfg, matched, picks, used, cancelled)
  {
    hide Selected, MatchedAfter;
    if used > 0 {
      assert picks[..used] == picks[..used - 1] + [picks[used - 1]];
      MatchedOneMore(cfg, matched, picks[..used - 1], picks[used - 1]);
      LastGoesOn(cfg, matched, picks);
    }
  }

  lemma LastGoesOn(cfg: Config, matched: nat, picks: seq<Pick>)
    requires picks != []
    ensures AllGoOn(cfg, matched, picks) ==>
              PickEnd(cfg, MatchedAfter(cfg, matched, picks[..|picks| - 1]), picks[|picks| - 1]).None?
  {
    hide PickEnd, MatchedAfter;
  }

  /** Every turn but the last leaves the run a next one. */
  ghost predicate NoneStops(cfg: Config, matched: nat, turns: seq<Turn>, history: seq<TurnEnd>) {
    && |turns| == |history|
    && forall i | 0 <= i < |turns| - 1 :: !Stops(cfg, CountAt(cfg, matched, turns, history, i), turns[i], history[i])
  }

  /** The counter when turn `i` begins. */
  function CountAt(cfg: Config, matched: nat, turns: seq<Turn>, history: seq<TurnEnd>, i: nat): nat
    requires i <= |turns| == |history|
  {
    MatchedAfter(cfg, matched, PicksIn(turns[..i], history[..i]))
  }

  lemma {:induction false} RunsStopExactly(cfg: Config, matched: nat, turns: seq<Turn>, history: seq<TurnEnd>)
    requires RunFits(cfg, matched, turns, history)
    ensures NoneStops(cfg, matched, turns, history)
    ensures turns != [] ==>
              var n := |turns| - 1;
              var count := CountAt(cfg, matched, turns, history, n);
              GoesOn(turns[n], history[n]) <==> !Stops(cfg, count, turns[n], history[n])
  {
    hide MatchedAfter, TurnFits, GoesOn, Stops, PicksIn;
    if turns != [] {
      var n := |turns| - 1;
      RunsStopExactly(cfg, matched, turns[..n], history[..n]);
      StopsExactly(cfg, CountAt(cfg, matched, turns, history, n), turns[n], history[n]);
      forall i | 0 <= i < n
        ensures !Stops(cfg, CountAt(cfg, matched, turns, history, i), turns[i], history[i])
      {
        assert turns[..n][..i] == turns[..i] && history[..n][..i] == history[..i];
        assert turns[..n][i] == turns[i] && history[..n][i] == history[i];
      }
    }
  }

  /** What is reported of the last turn: which of the four failures it was, if it was one. */
  ghost predicate Reports(cfg: Config, turn: Turn, end: TurnEnd, result: RunResult) {
    && (result.NilConnection? <==> !turn.cancelledBefore && turn.connecting.NoConnection?)
    && (result.ConnectFailure? <==> !turn.cancelledBefore && turn.connecting == Refused(false))
    && (result == SessionFailure(ConsumeFailed(false)) <==>
          !turn.cancelledBefore && turn.connecting == ConsumeError(false))
    && (result == SessionFailure(RenderFailed(false)) <==> !turn.cancelledBefore && LastRefused(cfg, turn, end))
    && (result.SessionFailure? ==> result.err == ConsumeFailed(false) || result.err == RenderFailed(false))
    && !result.CloseFailure?
  }

  /** The last pick was an event that the renderer refused for good. */
  predicate LastRefused(cfg: Config, turn: Turn, end: TurnEnd) {
    && turn.connecting.Consuming? && 0 < end.used <= |turn.connecting.picks|
    && var last := turn.connecting.picks[end.used - 1];
       last.Arrives? && Selected(cfg, last.delivery).Some? && last.reply == Refuses(false)
  }

  lemma ReportsTheLastTurn(cfg: Config, matched: nat, turn: Turn, end: TurnEnd)
    requires TurnFits(cfg, matched, turn, end)
    ensures Reports(cfg, turn, end, if GoesOn(turn, end) then Clean else Verdict(turn, end))
  {
    hide Selected, MatchedAfter, LimitReached, AllGoOn;
    if turn.connecting.Consuming? && |turn.connecting.picks| > 0 {
      LastGoesOn(cfg, matched, turn.connecting.picks);
    }
  }

  class Service {
    const cfg: Config
    var matchedEvents: nat

    /** The renderer's calls and its answers. */
    var rendererCalls: seq<Attempt>
    var connectionsOpened: nat
    var connectionsClosed: nat
    var rendererCloses: nat

    /** Everything the session loops have picked, over all sessions. */
    ghost var picked: seq<Pick>

    /** The renderer was called for what was picked, and the counter is the number of events that
        reached the output. */
    ghost predicate Valid()
      reads this
    {
      matchedEvents == MatchedAfter(cfg, 0, picked) && rendererCalls == AttemptsOf(cfg, picked)
    }

    constructor (cfg: Config)
      ensures Valid() && this.cfg == cfg && picked == []
      ensures connectionsOpened == connectionsClosed == rendererCloses == matchedEvents == 0
    {
      this.cfg := cfg;
      matchedEvents, connectionsOpened, connectionsClosed, rendererCloses := 0, 0, 0, 0;
      rendererCalls, picked := [], [];
    }

    /** Parse, match, render, count; None when the session goes on. */
    method HandleDelivery(d: Delivery, reply: Reply) returns (err: Option<SessionError>)
      requires Valid()
      modifies this`matchedEvents, this`rendererCalls, this`picked
      ensures Valid() && picked == old(picked) + [Arrives(d, reply)]
      ensures matchedEvents == old(matchedEvents) + if Counts(cfg, Arrives(d, reply)) then 1 else 0
      ensures err == PickEnd(cfg, old(matchedEvents), Arrives(d, reply))
    {
      hide MatchedAfter, FlatMap;
      MatchedOneMore(cfg, 0, picked, Arrives(d, reply));
      FlatMapOneMore(AttemptOf(cfg), picked, Arrives(d, reply));
      assert rendererCalls + [] == rendererCalls;
      picked := picked + [Arrives(d, reply)];
      var event := cfg.parse(d);
      if event.None? {
        return None;
      }
      var trace := RoutingTrace(event.value, event.value.destinations);
      if !cfg.matches(trace) {
        return None;
      }
      rendererCalls := rendererCalls + [Attempt(trace, reply.Accepts?)];
      if reply.Refuses? {
        return Some(RenderFailed(reply.cancelLike));
      }
      matchedEvents := matchedEvents + 1;
      if cfg.maxEvents > 0 && matchedEvents >= cfg.maxEvents {
        return Some(MaxEventsReached);
      }
      return None;
    }

    /** The select loop: every delivery picked before the end is handled, in order, and nothing
        after the end is. */
    method RunSession(picks: seq<Pick>) returns (err: SessionError, used: nat)
      requires Valid()
      modifies this`matchedEvents, this`rendererCalls, this`picked
      ensures Valid() && SessionFits(cfg, old(matchedEvents), picks, used, err)
      ensures used <= |picks| && picked == old(picked) + picks[..used]
      ensures matchedEvents == MatchedAfter(cfg, old(matchedEvents), picks[..used])
      ensures WithinLimit(cfg, old(matchedEvents), matchedEvents)
      ensures err == MaxEventsReached <==> Spent(cfg, old(matchedEvents), matchedEvents)
    {
      hide MatchedAfter, AllGoOn, Selected, LimitReached, FlatMap;
      used := 0;
      NothingPicked(cfg, matchedEvents, picks[..0]);
      while used < |picks|
        invariant used <= |picks| && Valid() && picked == old(picked) + picks[..used]
        invariant AllGoOn(cfg, old(matchedEvents), picks[..used])
        invariant matchedEvents == MatchedAfter(cfg, old(matchedEvents), picks[..used])
      {
        var pick := picks[used];
        ghost var before := picks[..used];
        assert picks[..used + 1] == before + [pick];
        MatchedOneMore(cfg, old(matchedEvents), before, pick);
        Regroup(old(picked), before, [pick]);
        used := used + 1;
        var failure := None;
        if pick.Arrives? {
          failure := HandleDelivery(pick.delivery, pick.reply);
        } else {
          MatchedOneMore(cfg, 0, picked, pick);
          FlatMapOneMore(AttemptOf(cfg), picked, pick);
          assert rendererCalls + [] == rendererCalls;
          picked := picked + [pick];
          failure := Some(if pick.Done? then ContextDone else ReconnectNeeded);
        }
        if failure.Some? {
          SessionLimit(cfg, old(matchedEvents), picks, used, failure.value);
          return failure.value, used;
        }
        GoOnOneMore(cfg, old(matchedEvents), before, pick);
      }
      assert picks[..used] == picks;
      SessionLimit(cfg, old(matchedEvents), picks, used, ContextDone);
      return ContextDone, used;
    }

    /** The switch on a session's error: whether the loop goes on, and what is reported if not. */
    method Decide(err: SessionError, cancelled: bool) returns (running: bool, result: RunResult)
      ensures running <==> Continues(err, cancelled)
      ensures result == if err == RenderFailed(false) || err == ConsumeFailed(false) then SessionFailure(err) else Clean
    {
      running, result := false, Clean;
      match err
      case MaxEventsReached =>
      case ContextDone =>
        running := !cancelled;
      case RenderFailed(cancelLike) =>
        if cancelLike {
          running := !cancelled;
        } else {
          result := SessionFailure(err);
        }
      case ConsumeFailed(cancelLike) =>
        if cancelLike {
          running := !cancelled;
        } else {
          result := SessionFailure(err);
        }
      case ReconnectNeeded =>
        running := true;
    }

    /** The body of the reconnect loop. Every connection is closed before the turn is over. */
    method RunTurn(turn: Turn) returns (running: bool, result: RunResult, ghost end: TurnEnd)
      requires Valid() && connectionsOpened == connectionsClosed
      modifies this`matchedEvents, this`rendererCalls, this`picked, this`connectionsOpened, this`connectionsClosed
      ensures Valid() && TurnFits(cfg, old(matchedEvents), turn, end)
      ensures picked == old(picked) + PicksInTurn(turn, end)
      ensures matchedEvents == MatchedAfter(cfg, old(matchedEvents), PicksInTurn(turn, end))
      ensures connectionsOpened == connectionsClosed == old(connectionsOpened) + if end.err.Some? then 1 else 0
      ensures running <==> GoesOn(turn, end)
      ensures result == if running then Clean else Verdict(turn, end)
    {
      hide MatchedAfter, SessionFits;
      running, result, end := false, Clean, TurnEnd(0, None);
      NothingPicked(cfg, matchedEvents, PicksInTurn(turn, end));
      if turn.cancelledBefore {
        return;
      }
      match turn.connecting
      case Refused(cancelLike) =>
        result := if cancelLike then Clean else ConnectFailure;
      case NoConnection =>
        result := NilConnection;
      case ConsumeError(cancelLike) =>
        connectionsOpened := connectionsOpened + 1;
        var err := ConsumeFailed(cancelLike);
        end := TurnEnd(0, Some(err));
        connectionsClosed := connectionsClosed + 1;
        running, result := Decide(err, turn.cancelledAfter);
      case Consuming(picks) =>
        connectionsOpened := connectionsOpened + 1;
        var err, used := RunSession(picks);
        SessionsDoNotFailToConsume(cfg, old(matchedEvents), picks, used, err);
        end := TurnEnd(used, Some(err));
        connectionsClosed := connectionsClosed + 1;
        running, result := Decide(err, turn.cancelledAfter);
    }

    /** The reconnect loop; a script that runs out is a cancelled context. `history` says how each
        turn went. */
    method Reconnect(turns: seq<Turn>) returns (result: RunResult, ghost history: seq<TurnEnd>)
      requires Valid() && connectionsOpened == connectionsClosed
      modifies this`matchedEvents, this`rendererCalls, this`picked, this`connectionsOpened, this`connectionsClosed
      ensures Valid()
      ensures |history| <= |turns| && RunFits(cfg, old(matchedEvents), turns[..|history|], history)
      ensures |history| < |turns| ==> history != [] && !GoesOn(turns[|history| - 1], history[|history| - 1])
      ensures picked == old(picked) + PicksIn(turns[..|history|], history)
      ensures matchedEvents == MatchedAfter(cfg, old(matchedEvents), PicksIn(turns[..|history|], history))
      ensures connectionsOpened == connectionsClosed == old(connectionsOpened) + SessionsIn(history)
      ensures result == ResultOf(turns, history)
    {
      hide MatchedAfter, TurnFits, PicksIn, SessionsIn, RunFits, GoesOn, Verdict, PicksInTurn, AttemptsOf;
      result, history := Clean, [];
      NoTurns(cfg, matchedEvents, turns[..0], history);
      var i := 0;
      var running := true;
      while running && i < |turns|
        invariant |history| == i <= |turns| && Valid()
        invariant RunFits(cfg, old(matchedEvents), turns[..i], history)
        invariant i > 0 ==> (running <==> GoesOn(turns[i - 1], history[i - 1]))
        invariant i == 0 ==> running
        invariant picked == old(picked) + PicksIn(turns[..i], history)
        invariant matchedEvents == MatchedAfter(cfg, old(matchedEvents), PicksIn(turns[..i], history))
        invariant connectionsOpened == connectionsClosed == old(connectionsOpened) + SessionsIn(history)
        invariant result == ResultOf(turns, history)
        decreases running, |turns| - i
      {
        ghost var before, end := PicksIn(turns[..i], history), TurnEnd(0, None);
        running, result, end := RunTurn(turns[i]);
        assert turns[..i + 1] == turns[..i] + [turns[i]];
        OneMoreTurn(cfg, old(matchedEvents), turns[..i], history, turns[i], end);
        MatchedConcat(cfg, old(matchedEvents), before, PicksInTurn(turns[i], end));
        Regroup(old(picked), before, PicksInTurn(turns[i], end));
        history := history + [end];
        i := i + 1;
      }
    }

    /** A whole run: the reconnect loop, then the renderer is closed. Turn follows turn unless it stops
        the run, lost connections are always followed up, every connection is closed before the next is
        opened, and the renderer once. A service may be run again, even past its limit: it then counts
        at most one event. */
    method Run(turns: seq<Turn>, rendererCloseOk: bool) returns (result: RunResult, ghost history: seq<TurnEnd>)
      requires Valid() && connectionsOpened == connectionsClosed
      modifies this
      ensures Valid() && rendererCloses == old(rendererCloses) + 1
      ensures |history| <= |turns| && RunFits(cfg, old(matchedEvents), turns[..|history|], history)
      ensures NoneStops(cfg, old(matchedEvents), turns[..|history|], history)
      ensures |history| < |turns| ==>
                var n := |history| - 1;
                n >= 0 && Stops(cfg, CountAt(cfg, old(matchedEvents), turns[..n + 1], history, n), turns[n], history[n])
      ensures forall i | 0 <= i < |history| && LostConnection(turns[i], history[i]) ::
                i + 1 < |history| || |history| == |turns|
      ensures history != [] ==> Reports(cfg, turns[|history| - 1], history[|history| - 1], ResultOf(turns, history))
      ensures picked == old(picked) + PicksIn(turns[..|history|], history)
      ensures matchedEvents == MatchedAfter(cfg, old(matchedEvents), PicksIn(turns[..|history|], history))
      ensures WithinLimit(cfg, old(matchedEvents), matchedEvents)
      ensures Spent(cfg, old(matchedEvents), matchedEvents) <==>
                history != [] && history[|history| - 1].err == Some(MaxEventsReached)
      ensures connectionsOpened == connectionsClosed == old(connectionsOpened) + SessionsIn(history)
      ensures result == if ResultOf(turns, history) == Clean && !rendererCloseOk then CloseFailure
                        else ResultOf(turns, history)
    {
      hide MatchedAfter, TurnFits, PicksIn, SessionsIn, RunFits, GoesOn, Verdict, Spent, WithinLimit, AttemptsOf;
      hide NoneStops, Stops, LostConnection, Reports, PicksInTurn, ResultOf, CountAt;
      result, history := Reconnect(turns);
      RunLimit(cfg, old(matchedEvents), turns[..|history|], history);
      EndOfRun(cfg, old(matchedEvents), turns, history);
      rendererCloses := rendererCloses + 1;
      if !rendererCloseOk && result == Clean {
        result := CloseFailure;
      }
    }
  }

  /** What a run's history says of its turns. */
  lemma EndOfRun(cfg: Config, matched: nat, turns: seq<Turn>, history: seq<TurnEnd>)
    requires |history| <= |turns| && RunFits(cfg, matched, turns[..|history|], history)
    ensures NoneStops(cfg, matched, turns[..|history|], history)
    ensures history != [] ==>
              var n := |history| - 1;
              && (GoesOn(turns[n], history[n]) <==>
                    !Stops(cfg, CountAt(cfg, matched, turns[..n + 1], history, n), turns[n], history[n]))
              && (LostConnection(turns[n], history[n]) ==> GoesOn(turns[n], history[n]))
              && Reports(cfg, turns[n], history[n], ResultOf(turns, history))
  {
    hide MatchedAfter, TurnFits, PicksIn, GoesOn, Stops, Reports, LostConnection, Verdict;
    RunsStopExactly(cfg, matched, turns[..|history|], history);
    if history != [] {
      var n := |history| - 1;
      assert turns[..n + 1][n] == turns[n] && turns[..n + 1][..n] == turns[..n];
      ReportsTheLastTurn(cfg, CountAt(cfg, matched, turns[..n + 1], history, n), turns[n], history[n]);
      LostConnectionsGoOn(cfg, CountAt(cfg, matched, turns[..n + 1], history, n), turns[n], history[n]);
    }
  }

  lemma LostConnectionsGoOn(cfg: Config, matched: nat, turn: Turn, end: TurnEnd)
    ensures LostConnection(turn, end) ==> !Stops(cfg, matched, turn, end)
  {
  }

  lemma NothingPicked(cfg: Config, matched: nat, picks: seq<Pick>)
    requires |picks| == 0
    ensures AllGoOn(cfg, matched, picks) && MatchedAfter(cfg, matched, picks) == matched
    ensures forall more: seq<Pick> :: more + picks == more
  {
  }

  lemma NoTurns(cfg: Config, matched: nat, turns: seq<Turn>, history: seq<TurnEnd>)
    requires |turns| == |history| == 0
    ensures RunFits(cfg, matched, turns, history) && SessionsIn(history) == 0
    ensures MatchedAfter(cfg, matched, PicksIn(turns, history)) == matched
    ensures forall more: seq<Pick> :: more + PicksIn(turns, history) == more
  {
  }

  /** Once picks are being made, consuming has not failed. */
  lemma SessionsDoNotFailToConsume(cfg: Config, matched: nat, picks: seq<Pick>, used: nat, err: SessionError)
    requires SessionFits(cfg, matched, picks, used, err)
    ensures !err.ConsumeFailed?
  {
  }
}
