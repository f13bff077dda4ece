/**
 * Runs of the agent driver: what every interleaving of its resumptions with everyone else's actions
 * keeps, why turns end, what becomes of wakes, and the points where the code keeps less than it says.
 */
module AgentRuns {
  import opened AgentDriver
  import opened Options
  import opened SessionEvents
  import ConsumedWork
  import Inbox
  import SessionLog
  import WakeLatch

  /** The actions can be taken one after another. */
  predicate Runs(s: State, actions: seq<Action>)
    decreases |actions|
  {
    actions == [] || (Enabled(s, actions[0]) && Runs(Step(s, actions[0]), actions[1..]))
  }

  function After(s: State, actions: seq<Action>): State
    requires Runs(s, actions)
    decreases |actions|
  {
    if actions == [] then s else After(Step(s, actions[0]), actions[1..])
  }

  lemma {:induction false} RunKeeps(s: State, actions: seq<Action>)
    requires Valid(s) && Runs(s, actions)
    ensures Valid(After(s, actions))
    decreases |actions|
  {
    hide Valid, Enabled, Step;
    if actions != [] {
      StepKeeps(s, actions[0]);
      RunKeeps(Step(s, actions[0]), actions[1..]);
    }
  }

  /** Every run of an agent: whatever anyone does at whichever await, the invariant holds throughout. */
  lemma EveryRun(log: seq<Event>, inbox: Inbox.Lists, attempts: seq<nat>, torn: bool, actions: seq<Action>)
    requires LeftAtRest(log, inbox, attempts, torn) && Runs(Resumed(log, inbox, attempts, torn), actions)
    ensures Valid(After(Resumed(log, inbox, attempts, torn), actions))
  {
    hide Valid, Enabled, Step;
    ResumedValid(log, inbox, attempts, torn);
    RunKeeps(Resumed(log, inbox, attempts, torn), actions);
  }

  // ----- what a log at rest is worth -----

  /** Once a turn has ended, a later turn's number is greater. */
  lemma {:induction false} TurnsGrow(log: seq<Event>, i: nat, j: nat)
    requires i < j <= |log| && log[i].TurnEnd? && !SessionLog.Scan(log[..j]).Bad?
    ensures var m := SessionLog.Scan(log[..j]); m == SessionLog.Outside(log[i].turn) || m.turn > log[i].turn
    decreases j
  {
    hide SessionLog.Scan;
    assert log[..j] == log[..j - 1] + [log[j - 1]];
    SessionLog.ScanNext(log[..j - 1], log[j - 1]);
    if i < j - 1 {
      TurnsGrow(log, i, j - 1);
    }
  }

  /** A driver never reuses a turn number, so its logs are of the kind the consumed-work fold reads plainly. */
  lemma WordsHaveDistinctEnds(log: seq<Event>)
    requires !SessionLog.Scan(log).Bad?
    ensures ConsumedWork.DistinctEnds(log)
  {
    forall i: nat, j: nat | i < j < |log| && log[i].TurnEnd? && log[j].TurnEnd? ensures log[i].turn != log[j].turn {
      SessionLog.ScanPrefix(log, j);
      SessionLog.ScanPrefix(log, j + 1);
      assert log[..j + 1] == log[..j] + [log[j]];
      SessionLog.ScanNext(log[..j], log[j]);
      TurnsGrow(log, i, j);
    }
  }

  /**
   * At every rest, the structural check is silent; and unless a tool scheduler failed, the
   * choreography check is silent too on calls with distinct pending ids and parseable arguments.
   */
  lemma AtRestPasses(s: State, parses: string -> bool)
    requires Valid(s) && s.w.phase.Idle?
    ensures SessionLog.WellBracketed(s.w.log)
    ensures !s.w.torn && SessionLog.DistinctCalls(s.w.log, |s.w.log|) ==>
              (SessionLog.Choreography(s.w.log, parses) == [] <==> SessionLog.Parsed(s.w.log, |s.w.log|, parses))
  {
    hide Cited, Inbox.Replay, History, ClaimsAtBoundaries, SessionLog.Scan, SessionLog.Resolved,
        SessionLog.Choreography, SessionLog.Parsed, SessionLog.DistinctCalls, Attempting, ToolsOpen;
    SessionLog.ClosedIsWellBracketed(s.w.log);
    if !s.w.torn && SessionLog.DistinctCalls(s.w.log, |s.w.log|) {
      SessionLog.ChoreographyOfClosed(s.w.log, parses);
    }
  }

  // ----- why turns end -----

  /** The last step that returned settled the turn. */
  predicate EndsSettled(courses: seq<Course>) {
    courses != [] && Settled(courses[|courses| - 1])
  }

  /** Every turn end of the run, by the branch its turn left by and the course of its steps. */
  lemma TurnEndMeans(s: State, p: nat) returns (r: Ended)
    requires Valid(s) && s.run.base <= p < |s.w.log| && s.w.log[p].TurnEnd?
    ensures r in s.run.ended && r.at == p
    ensures var reason := s.w.log[p].reason;
            && (reason.Aborted? <==> r.exit.Threw? && r.signal.Some?)
            && (reason.Aborted? ==> r.signal == Some(reason.cause))
            && (reason == Failed <==> r.exit.Threw? && r.signal.None?)
            && (reason == Blocked <==> r.exit.Rejected?)
            && (reason == MaxTokens <==> (r.exit.NothingLeft? || r.exit.Stopped?) && AnyHitCeiling(r.courses))
            && (reason == Completed <==> (r.exit.NothingFirst? || ((r.exit.NothingLeft? || r.exit.Stopped?)
                                            && !AnyHitCeiling(r.courses) && EndsSettled(r.courses))))
            && reason != Interrupted
    ensures r.exit.NothingFirst? ==> r.courses == []
    ensures r.again <==> (r.exit.NothingLeft? || r.exit.Stopped?) && InputAt(s.w.log, p)
  {
    hide Inv, Placed, AllConverged, InputAt;
    var i :| 0 <= i < |s.run.ended| && s.run.ended[i].at == p;
    r := s.run.ended[i];
    assert EndedOk(s.w.log, r);
  }

  /**
   * A step that returned under a live signal: the turn proposes a further step exactly when input
   * for one is pending, or the step's tools left results for the model and no step of the turn hit
   * the token ceiling. Otherwise it stops. Nothing but the step is closed.
   */
  lemma ReturnedStepGoesOnIff(s: State)
    requires Valid(s) && Unaborted(s) && s.pc.StepDone? && s.pc.step.StepReturns?
    ensures Enabled(s, StepReturnsToTurn)
    ensures var t := Step(s, StepReturnsToTurn);
            && (t.pc == Assembling <==>
                  || s.w.inbox.nextStep != []
                  || (Unconcluded(s.run.course) && !AnyHitCeiling(s.run.courses)))
            && (t.pc == Assembling || t.pc == Stopping)
            && s.w.log + [StepEnd(s.w.phase.turn, s.w.phase.step)] <= t.w.log
            && (forall i | |s.w.log| <= i < |t.w.log| :: !t.w.log[i].TurnEnd?)
            && t.run.courses == s.run.courses + [s.run.course] && t.w.phase == s.w.phase
            && (t.pc == Stopping ==> t.w.inbox == s.w.inbox && |t.w.log| == |s.w.log| + 1)
  {
    var closed := LoggedBy(s, StepEnd(s.w.phase.turn, s.w.phase.step));
    CourseSoFar(s);
    ClaimedMeans(closed.w, NextStep);
    hide Valid, Claimed, AnyHitCeiling, HitCeiling, Unconcluded;
  }

  /** What a returned step returns, by its course, and what the turn's ending is so far, by its steps'. */
  lemma CourseSoFar(s: State)
    requires Valid(s) && s.pc.StepDone? && s.pc.step.StepReturns?
    ensures Unconcluded(s.run.course) <==> s.pc.step.end == None
    ensures AnyHitCeiling(s.run.courses) <==> s.turnEnds == Some(MaxTokens)
  {
    hide Base, SessionLog.Scan, HitCeiling;
  }

  /**
   * Tools that ran without concluding the turn: the model is asked about their results unless an
   * earlier step of the turn hit the token ceiling and no input for a step is pending.
   */
  lemma ToolResultsSeenIff(s: State)
    requires Valid(s) && Unaborted(s) && s.pc == ToolsDone(Ran(false))
    ensures var actions := [ToolsResume, StepReturnsToTurn];
            && Runs(s, actions)
            && var t := After(s, actions);
               && (t.pc == Assembling <==> !AnyHitCeiling(s.run.courses) || s.w.inbox.nextStep != [])
               && (t.pc == Assembling || t.pc == Stopping)
               && (forall i | |s.w.log| <= i < |t.w.log| :: !t.w.log[i].TurnEnd?)
  {
    ToolsResumed(s);
    StepKeeps(s, ToolsResume);
    hide Valid, Enabled, Step, AnyHitCeiling;
    ReturnedStepGoesOnIff(Step(s, ToolsResume));
    Steps2(s, ToolsResume, StepReturnsToTurn);
  }

  lemma ToolsResumed(s: State)
    requires Valid(s) && Unaborted(s) && s.pc == ToolsDone(Ran(false))
    ensures Enabled(s, ToolsResume)
    ensures var t := Step(s, ToolsResume);
            t.pc == StepDone(StepReturns(None)) && Unconcluded(t.run.course) && t.w == s.w && t.run == s.run
  {
    hide Base, SessionLog.Scan, AnyHitCeiling;
  }

  /** A turn that hit the token ceiling ends on its tools' results, which the model never sees. */
  lemma ToolResultsUnseen(s: State)
    requires Valid(s) && Unaborted(s) && s.pc == ToolsDone(Ran(false))
    requires AnyHitCeiling(s.run.courses) && s.w.inbox.nextStep == []
    ensures var actions := [ToolsResume, StepReturnsToTurn, StoppingSettles(true)];
            && Runs(s, actions)
            && After(s, actions).w.log
                 == s.w.log + [StepEnd(s.w.phase.turn, s.w.phase.step), TurnEnd(s.w.phase.turn, MaxTokens)]
  {
    ToolsResumed(s);
    StepKeeps(s, ToolsResume);
    hide Valid, Enabled, Step, AnyHitCeiling;
    var t := Step(s, ToolsResume);
    CourseSoFar(t);
    CeilingStops(t);
    StopsTurn(Step(t, StepReturnsToTurn));
    Steps3(s, ToolsResume, StepReturnsToTurn, StoppingSettles(true));
  }

  lemma CeilingStops(s: State)
    requires Unaborted(s) && s.pc == StepDone(StepReturns(None)) && s.turnEnds == Some(MaxTokens)
      && s.w.inbox.nextStep == []
    ensures Enabled(s, StepReturnsToTurn)
    ensures var t := Step(s, StepReturnsToTurn);
            && t.pc == Stopping && t.turnEnds == s.turnEnds && t.w.phase == s.w.phase && t.w.inbox == s.w.inbox
            && t.w.log == s.w.log + [StepEnd(s.w.phase.turn, s.w.phase.step)]
  {
  }

  lemma StopsTurn(s: State)
    requires Unaborted(s) && s.pc == Stopping && s.turnEnds.Some? && s.w.inbox.nextStep == []
    ensures Enabled(s, StoppingSettles(true))
    ensures Step(s, StoppingSettles(true)).w.log == s.w.log + [TurnEnd(s.w.phase.turn, s.turnEnds.value)]
  {
  }

  /** The decision the turn acts on without looking at its signal: not to enter a step. */
  predicate Unchecked(s: State, a: Action) {
    && a.PreStepReturns? && s.pc.Decided? && s.pc.outcome.Decides? && s.w.phase.Running?
    && (s.pc.outcome.decision.Reject? || (s.pc.outcome.decision.messages == []
        && (s.turnEnds.Some? || s.w.phase.step == 0)))
  }

  /** The end that an action logs, if it closes a turn. */
  predicate Closes(s: State, a: Action)
    requires Enabled(s, a)
  {
    |s.run.ended| < |Step(s, a).run.ended|
  }

  /**
   * A turn that closes ends aborted, with the first cause, exactly when its signal has fired and
   * the closing branch looks at it.
   */
  lemma AbortedIff(s: State, a: Action)
    requires Valid(s) && Enabled(s, a) && Closes(s, a)
    ensures var t := Step(s, a);
            && s.w.phase.Running? && |t.run.ended| == |s.run.ended| + 1
            && t.run.ended[|s.run.ended|].signal == s.w.phase.abort
            && EndedOk(t.w.log, t.run.ended[|s.run.ended|])
            && var reason := t.w.log[t.run.ended[|s.run.ended|].at].reason;
               && (reason.Aborted? <==> s.w.phase.abort.Some? && !Unchecked(s, a))
               && (reason.Aborted? ==> s.w.phase.abort == Some(reason.cause))
  {
    hide Valid, Enabled, Step, Unchecked, InputAt;
    StepKeeps(s, a);
    ClosingExit(s, a);
    LastRecorded(Step(s, a));
  }

  lemma LastRecorded(s: State)
    requires Valid(s) && s.run.ended != []
    ensures EndedOk(s.w.log, s.run.ended[|s.run.ended| - 1])
  {
    hide Inv, Placed, AllConverged;
  }

  lemma ClosingExit(s: State, a: Action)
    requires Valid(s) && Enabled(s, a) && Closes(s, a)
    ensures var t := Step(s, a);
            && s.w.phase.Running? && |t.run.ended| == |s.run.ended| + 1
            && t.run.ended[|s.run.ended|].signal == s.w.phase.abort
            && (s.w.phase.abort.Some? ==> (t.run.ended[|s.run.ended|].exit.Threw? <==> !Unchecked(s, a)))
  {
    hide Base, Claimed, Inputs, Sent, Cancelled, Spliced, HasPending, Attempting, ToolsOpen, SessionLog.Scan, Ending;
  }

  /**
   * Under a fired signal, a turn is followed by another exactly when it breaks off on an empty step
   * with input pending.
   */
  lemma RenewedUnderSignalIff(s: State, a: Action)
    requires Valid(s) && Enabled(s, a) && s.w.phase.Running? && s.w.phase.abort.Some? && !s.pc.TurnDone?
    ensures Step(s, a).pc == TurnDone(true) <==>
              a.PreStepReturns? && s.pc.outcome == Decides(Enter([])) && s.turnEnds.Some? && HasPending(s.w)
  {
    hide Base, Claimed, Inputs, Sent, Cancelled, Spliced, Attempting, ToolsOpen, Logged, SessionLog.Scan, Ending;
  }

  // ----- what becomes of wakes -----

  /** A converged activity on record. */
  lemma ConvergedOnRecord(s: State, c: Convergence)
    requires Valid(s) && c in s.run.converged
    ensures ConvergenceOk(s.w.log, s.run.ended, c)
    ensures c.last.Some? ==> EndedOk(s.w.log, c.last.value)
  {
    hide Inv, Placed, ConvergenceOk, EndedOk;
    var i :| 0 <= i < |s.run.converged| && s.run.converged[i] == c;
    LastOnRecord(s, c);
  }

  lemma LastOnRecord(s: State, c: Convergence)
    requires Valid(s) && ConvergenceOk(s.w.log, s.run.ended, c)
    ensures c.last.Some? ==> EndedOk(s.w.log, c.last.value)
  {
    hide Inv, Placed, AllConverged, EndedOk;
  }

  /**
   * The fate of every wake. Under the last controller, the activity restarts exactly when some wake
   * qualified, was not cleared, and input is pending; a wake that qualified and was not cleared is
   * therefore replayed or has nothing left to replay.
   */
  lemma EveryWake(s: State, c: Convergence, i: nat)
    requires Valid(s) && c in s.run.converged && i < |c.acts|
    ensures c.restarted <==> WakeLatch.Owed(c.maintenance, c.acts) && InputAt(s.w.log, c.at)
    ensures c.restarted ==> c.at < |s.w.log| && s.w.log[c.at].TurnStart?
    ensures WakeLatch.Qualifies(c.maintenance, c.acts, i) && !WakeLatch.ClearedAfter(c.acts, i) ==>
          (c.restarted <==> InputAt(s.w.log, c.at))
    ensures !c.maintenance && WakeLatch.Uncancelled(c.acts, |c.acts|) ==> !c.restarted
  {
    hide Valid, InputAt, WakeLatch.Qualifies, WakeLatch.ClearedAfter, LastOk, RenewalsOk;
    ConvergedOnRecord(s, c);
    if WakeLatch.Uncancelled(c.acts, |c.acts|) { UncancelledOwesNothing(c.acts); }
  }

  lemma UncancelledOwesNothing(acts: seq<WakeLatch.Act>)
    requires WakeLatch.Uncancelled(acts, |acts|)
    ensures !WakeLatch.Owed(false, acts)
  {
  }

  /** Controller `k` of the activity opened a turn. */
  predicate Opened(c: Convergence, k: nat) {
    k < |c.renewed| || (k == |c.renewed| && c.last.Some?)
  }

  function ActsUnder(c: Convergence, k: nat): seq<WakeLatch.Act> {
    if k < |c.renewed| then c.renewed[k].acts else c.acts
  }

  /**
   * A latch dropped with a renewed controller loses no wake: the activity's next controller opened a
   * turn, unless it was cancelled first. And it was there to drop only if the turn broke off on an
   * empty step.
   */
  lemma RenewedWake(s: State, c: Convergence, k: nat)
    requires Valid(s) && c in s.run.converged && k < |c.renewed|
    ensures !c.maintenance
    ensures Opened(c, k + 1) || !WakeLatch.Uncancelled(ActsUnder(c, k + 1), |ActsUnder(c, k + 1)|)
    ensures WakeLatch.Owed(false, c.renewed[k].acts) ==> c.renewed[k].exit.NothingLeft?
  {
    hide Valid, InputAt, WakeLatch.Owed, LastOk;
    ConvergedOnRecord(s, c);
    assert RenewalOk(c.renewed[k]);
    if WakeLatch.Uncancelled(c.renewed[k].acts, |c.renewed[k].acts|) { UncancelledOwesNothing(c.renewed[k].acts); }
  }

  /**
   * Input left pending by a driver that did not restart. If its last turn asked whether any was
   * pending, all of it came after that question; otherwise that turn was thrown out of, rejected or
   * empty, or was never opened.
   */
  lemma LeftPending(s: State, c: Convergence)
    requires Valid(s) && c in s.run.converged && !c.maintenance && InputAt(s.w.log, c.at)
    ensures !c.restarted <==> !WakeLatch.Owed(false, c.acts)
    ensures c.last.Some? && (c.last.value.exit.NothingLeft? || c.last.value.exit.Stopped?) ==>
              c.last.value.at < c.at && !InputAt(s.w.log, c.last.value.at)
    ensures c.last.None? ==> !WakeLatch.Uncancelled(c.acts, |c.acts|)
  {
    hide Valid, InputAt, WakeLatch.Owed, WakeLatch.Uncancelled, RenewalsOk;
    ConvergedOnRecord(s, c);
  }

  /**
   * Disposal: a driver whose present controller was first cancelled by it does not restart, and
   * maintenance does exactly as its earlier wakes say.
   */
  lemma DisposedRestarts(s: State, c: Convergence)
    requires Valid(s) && c in s.run.converged && WakeLatch.FirstCancelled(c.acts, |c.acts|, Disposed)
    ensures !c.maintenance ==> !c.restarted
    ensures c.maintenance ==>
              (c.restarted <==>
                 && (exists i: nat | i < |c.acts| :: c.acts[i].WakingSend? && WakeLatch.Uncancelled(c.acts, i))
                 && (forall j | 0 <= j < |c.acts| && c.acts[j].Cancel? :: c.acts[j].keepInbox)
                 && InputAt(s.w.log, c.at))
  {
    hide Valid, InputAt, WakeLatch.Owed, WakeLatch.FirstCancelled, LastOk, RenewalsOk;
    ConvergedOnRecord(s, c);
    if c.maintenance { WakeLatch.DisposedMaintenanceOwes(c.acts); }
        else { WakeLatch.DisposedDriverOwesNothing(c.acts); }
  }

  // ----- where the code keeps less than it says: from every state of the kind -----

  lemma Steps1(s: State, a: Action)
    requires Enabled(s, a)
    ensures Runs(s, [a]) && After(s, [a]) == Step(s, a)
  {
    hide Enabled, Step;
    assert [a][1..] == [];
  }

  lemma Steps2(s: State, a: Action, b: Action)
    requires Enabled(s, a) && Enabled(Step(s, a), b)
    ensures Runs(s, [a, b]) && After(s, [a, b]) == Step(Step(s, a), b)
  {
    hide Enabled, Step;
    Steps1(Step(s, a), b);
    assert [a, b][1..] == [b];
  }

  lemma Steps3(s: State, a: Action, b: Action, c: Action)
    requires Enabled(s, a) && Enabled(Step(s, a), b) && Enabled(Step(Step(s, a), b), c)
    ensures Runs(s, [a, b, c]) && After(s, [a, b, c]) == Step(Step(Step(s, a), b), c)
  {
    hide Enabled, Step;
    Steps2(Step(s, a), b, c);
    assert [a, b, c][1..] == [b, c];
  }

  /** A driver is running, and its signal has not fired. */
  predicate Unaborted(s: State) {
    s.w.phase.Running? && s.w.phase.abort.None?
  }

  /** A cancel between a rejecting pre-step and the turn that awaits it: the turn ends blocked under a fired signal. */
  lemma RejectedUnderSignal(s: State, cause: CancelCause)
    requires Valid(s) && s.pc == Decided(Decides(Reject))
    ensures var actions := [CancelActivity(cause, true), PreStepReturns];
            && Runs(s, actions)
            && var t := After(s, actions);
               && t.w.phase.Running? && t.w.phase.abort.Some? && t.w.phase.turn == s.w.phase.turn
               && t.w.log == s.w.log + [TurnEnd(s.w.phase.turn, Blocked)]
  {
    hide Base, SessionLog.Scan, Ending;
    Steps2(s, CancelActivity(cause, true), PreStepReturns);
  }

  /**
   * A disposal between an empty pre-step and the turn that awaits it: the turn's aborted controller
   * is replaced, and another turn runs under a live one.
   */
  lemma DisposedTurnRenewed(s: State)
    requires Valid(s) && s.pc == Decided(Decides(Enter([]))) && s.turnEnds.Some? && Unaborted(s) && HasPending(s.w)
    ensures var actions := [CancelActivity(Disposed, true), PreStepReturns, TurnReturns];
            && Runs(s, actions)
            && var t := After(s, actions);
               && Unaborted(t) && t.w.phase.turn == s.w.phase.turn + 1
               && s.w.log + [TurnEnd(s.w.phase.turn, s.turnEnds.value), TurnStart(s.w.phase.turn + 1)] <= t.w.log
  {
    hide Valid, HasPending, Enabled, Step;
    Renews(s, Disposed);
    TurnBegins(Step(Step(s, CancelActivity(Disposed, true)), PreStepReturns));
    Steps3(s, CancelActivity(Disposed, true), PreStepReturns, TurnReturns);
  }

  /** A turn that breaks off on an empty step with input pending renews its controller, fired or not. */
  lemma Renews(s: State, cause: CancelCause)
    requires Valid(s) && s.pc == Decided(Decides(Enter([]))) && s.turnEnds.Some? && Unaborted(s) && HasPending(s.w)
    ensures Enabled(s, CancelActivity(cause, true))
    ensures var t := Step(s, CancelActivity(cause, true));
            && Enabled(t, PreStepReturns)
            && var u := Step(t, PreStepReturns);
               && Unaborted(u) && u.w.phase.turn == s.w.phase.turn && u.pc == TurnDone(true)
               && u.w.log == s.w.log + [TurnEnd(s.w.phase.turn, s.turnEnds.value)]
  {
    hide Base, SessionLog.Scan, Ending, Placed;
  }

  /** A live driver's next turn starts its own log entries. */
  lemma TurnBegins(s: State)
    requires Unaborted(s) && s.pc == TurnDone(true)
    ensures Enabled(s, TurnReturns)
    ensures var t := Step(s, TurnReturns);
            Unaborted(t) && t.w.phase.turn == s.w.phase.turn + 1 && s.w.log + [TurnStart(s.w.phase.turn + 1)] <= t.w.log
  {
  }

  /**
   * A wake between a turn's last look at its inbox and the driver's end: the agent goes idle over its
   * message if and only if the driver was not aborted, or was aborted by disposal.
   */
  lemma WakeAtTurnEnd(s: State, message: Message)
    requires Valid(s) && s.pc == TurnDone(false) && s.w.phase.Running? && !Pending(s.w, message)
    ensures var actions := [SendMessage(message, NextTurn, true), TurnReturns];
            && Runs(s, actions)
            && (After(s, actions).w.phase.Idle? <==> s.w.phase.abort.None? || s.w.phase.abort == Some(Disposed))
  {
    hide Base, SessionLog.Scan, BeginTurn;
    ValidInv(s);
    if s.w.phase.abort.None? || s.w.phase.abort == Some(Disposed) { LatchWhenIdle(s.w); }
    Steps2(s, SendMessage(message, NextTurn, true), TurnReturns);
    BegunRuns(Step(s, SendMessage(message, NextTurn, true)));
  }

  /** A converging activity is idle exactly when it does not restart. */
  lemma BegunRuns(s: State)
    requires !s.w.phase.Idle?
    ensures Converged(s).w.phase.Idle? <==> !(s.w.phase.wakeRequested && HasPending(s.w))
  {
  }

  /** A running driver that was not aborted, or first by disposal, has nothing latched. */
  lemma LatchWhenIdle(w: World)
    requires Inv(w) && w.phase.Running? && (w.phase.abort.None? || w.phase.abort == Some(Disposed))
    ensures !w.phase.wakeRequested
  {
    hide Cited, ClaimsAtBoundaries, SessionLog.Resolved, Inbox.Replay, WakeLatch.Owed, WakeLatch.Uncancelled,
        WakeLatch.FirstCancelled, WakeLatch.After;
    WakeLatch.LatchIsOwed(false, w.acts);
    WakeLatch.AbortIsFirst(false, w.acts, Disposed);
    if w.phase.abort.None? { UncancelledOwesNothing(w.acts); } else { WakeLatch.DisposedDriverOwesNothing(w.acts); }
  }

  /**
   * A wake between a turn's last look at its inbox and the driver's end is latched by nobody: the
   * agent goes idle over its message.
   */
  lemma WakeStranded(s: State, message: Message)
    requires Valid(s) && s.pc == TurnDone(false) && Unaborted(s) && !Pending(s.w, message)
    ensures var actions := [SendMessage(message, NextTurn, true), TurnReturns];
            && Runs(s, actions)
            && var t := After(s, actions);
               t.w.phase == Idle(s.w.phase.turn) && message in t.w.inbox.nextTurn
  {
    hide Base, SessionLog.Scan;
    ValidInv(s);
    LatchWhenIdle(s.w);
    Steps2(s, SendMessage(message, NextTurn, true), TurnReturns);
    var list := s.w.inbox.nextTurn;
    assert (list + [message])[|list|] == message;
  }

  /** A cancel before a promised next turn begins: the driver ends over pending input without opening it. */
  lemma RenewalCancelled(s: State, cause: CancelCause)
    requires Valid(s) && s.pc == TurnDone(true) && Unaborted(s) && HasPending(s.w)
    ensures var actions := [CancelActivity(cause, true), TurnReturns, TurnReturns];
            && Runs(s, actions)
            && var t := After(s, actions);
               t.w.phase == Idle(s.w.phase.turn) && t.w.log == s.w.log && HasPending(t.w)
  {
    hide Base, SessionLog.Scan;
    ValidInv(s);
    LatchWhenIdle(s.w);
    Steps3(s, CancelActivity(cause, true), TurnReturns, TurnReturns);
  }

  // ----- and such states are reached -----

  function Fresh(): State {
    Resumed([], Inbox.Lists([], []), [], false)
  }

  lemma FreshLeft()
    ensures LeftAtRest([], Inbox.Lists([], []), [], false)
  {
  }

  lemma RunsOn(s: State, before: seq<Action>, after: seq<Action>)
    requires Runs(s, before) && Runs(After(s, before), after)
    ensures Runs(s, before + after) && After(s, before + after) == After(After(s, before), after)
    decreases |before|
  {
    hide Enabled, Step;
    if before == [] {
      assert before + after == after;
    } else {
      RunsOn(Step(s, before[0]), before[1..], after);
      assert (before + after)[1..] == before[1..] + after;
    }
  }

  /** The first message of a fresh agent, up to the decision of its first pre-step. */
  lemma FirstDecision(m: Message, decision: PreStepDecision) returns (actions: seq<Action>)
    ensures Runs(Fresh(), actions)
    ensures var t := After(Fresh(), actions);
            Valid(t) && t.pc == Decided(Decides(decision)) && Unaborted(t) && t.w.inbox == Inbox.Lists([], [])
            && t.w.phase.turn == 1 && t.w.phase.step == 0
  {
    var wake := SendMessage(m, NextTurn, true);
    FirstTurn(m);
    hide Sent, Reserve, BeginTurn;
    Steps3(Fresh(), wake, PromptAssembled(true), PluginsDecide(true, decision));
    actions := [wake, PromptAssembled(true), PluginsDecide(true, decision)];
    FreshLeft();
    EveryRun([], Inbox.Lists([], []), [], false, actions);
  }

  lemma FirstTurn(m: Message)
    ensures Enabled(Fresh(), SendMessage(m, NextTurn, true))
    ensures var t := Step(Fresh(), SendMessage(m, NextTurn, true));
            t.pc == Assembling && t.w.phase == Running(None, 1, 0, false) && t.w.inbox == Inbox.Lists([], [])
  {
    var s := Fresh();
    var splice := Insertion(s.w.inbox, NextTurn, m);
    assert Spliced(s.w, splice).inbox == Inbox.Lists([m], []);
    assert Sent(s.w, m, NextTurn, true).inbox == Inbox.Lists([m], []);
    assert [m][1..] == [];
  }

  /** From a fresh agent, a turn ends blocked under a fired signal. */
  lemma RejectedUnderSignalReached(m: Message, cause: CancelCause) returns (actions: seq<Action>)
    ensures Runs(Fresh(), actions)
    ensures var t := After(Fresh(), actions);
            t.w.phase.Running? && t.w.phase.abort.Some? && t.w.log != []
            && t.w.log[|t.w.log| - 1] == TurnEnd(t.w.phase.turn, Blocked)
  {
    hide Valid, Enabled, Step;
    var before := FirstDecision(m, Reject);
    var more := [CancelActivity(cause, true), PreStepReturns];
    RejectedUnderSignal(After(Fresh(), before), cause);
    RunsOn(Fresh(), before, more);
    actions := before + more;
  }

  /** A first step entered with nothing ends its turn. */
  lemma NothingEntered(s: State)
    requires Valid(s) && s.pc == Decided(Decides(Enter([]))) && Unaborted(s) && s.w.inbox == Inbox.Lists([], [])
      && s.w.phase.step == 0
    ensures Runs(s, [PreStepReturns])
    ensures var t := After(s, [PreStepReturns]);
            Valid(t) && t.pc == TurnDone(false) && Unaborted(t) && t.w.inbox == s.w.inbox
  {
    StepKeeps(s, PreStepReturns);
    Steps1(s, PreStepReturns);
    hide Base, Placed;
  }

  /** From a fresh agent, one goes idle over the message of an accepted wake. */
  lemma WakeStrandedReached(m: Message, late: Message) returns (actions: seq<Action>)
    ensures Runs(Fresh(), actions)
    ensures var t := After(Fresh(), actions); t.w.phase.Idle? && late in t.w.inbox.nextTurn
  {
    hide Valid, Enabled, Step;
    var before := FirstDecision(m, Enter([]));
    NothingEntered(After(Fresh(), before));
    RunsOn(Fresh(), before, [PreStepReturns]);
    var more := [SendMessage(late, NextTurn, true), TurnReturns];
    WakeStranded(After(Fresh(), before + [PreStepReturns]), late);
    RunsOn(Fresh(), before + [PreStepReturns], more);
    actions := before + [PreStepReturns] + more;
  }

  /** One step that is entered with a message and answered. */
  lemma OneAnswer(s: State, m: Message, finish: Finish) returns (actions: seq<Action>)
    requires Valid(s) && s.pc == Decided(Decides(Enter([m]))) && Unaborted(s) && !finish.FinishFailure?
    ensures Runs(s, actions)
    ensures var t := After(s, actions);
            Valid(t) && AnsweredBy(t, finish) && Unaborted(t) && t.w.inbox == s.w.inbox
            && t.w.phase.turn == s.w.phase.turn && t.run.courses == s.run.courses
  {
    hide Valid, Enabled, Step;
    ghost var a, b := [PreStepReturns, RequestProposed(true)],
        [CallPrepared(true, false, false), RequestReturns(true), StreamEnds(finish, true)];
    EntersStep(s, m);
    StreamsAnswer(After(s, a), finish);
    RunsOn(s, a, b);
    actions := a + b;
    RunKeeps(s, actions);
  }

  lemma EntersStep(s: State, m: Message)
    requires Valid(s) && s.pc == Decided(Decides(Enter([m]))) && Unaborted(s)
    ensures var actions := [PreStepReturns, RequestProposed(true)];
            && Runs(s, actions)
            && var t := After(s, actions);
               t.pc == Preparing && Unaborted(t) && t.w.inbox == s.w.inbox && t.w.phase.turn == s.w.phase.turn
               && t.run.courses == s.run.courses
  {
    hide Valid;
    Steps2(s, PreStepReturns, RequestProposed(true));
  }

  /** Where a stream that ends with an answer leaves the step. */
  predicate AnsweredBy(s: State, finish: Finish) {
    && s.run.course == Course(Some(finish), None)
    && match finish
       case FinishFailure => false
       case FinishMaxTokens => s.pc == StepDone(StepReturns(Some(StepMaxTokens)))
       case FinishOther(calls) =>
         if calls == [] then s.pc == StepDone(StepReturns(Some(StepCompleted)))
         else s.pc == InTools(Tools(|s.w.log|, calls, [], []))
  }

  lemma StreamsAnswer(s: State, finish: Finish)
    requires s.pc == Preparing && Unaborted(s) && !finish.FinishFailure?
    ensures var actions := [CallPrepared(true, false, false), RequestReturns(true), StreamEnds(finish, true)];
            && Runs(s, actions)
            && var t := After(s, actions);
               AnsweredBy(t, finish) && Unaborted(t) && t.w.inbox == s.w.inbox && t.run.courses == s.run.courses
               && t.w.phase.turn == s.w.phase.turn
  {
    Steps3(s, CallPrepared(true, false, false), RequestReturns(true), StreamEnds(finish, true));
  }

  /** The turn goes on to a further step, which is entered with nothing, while a message waits for the next turn. */
  lemma ThenNothing(s: State, joins: Message, waits: Message) returns (actions: seq<Action>)
    requires Valid(s) && s.pc == StepDone(StepReturns(Some(StepCompleted))) && Unaborted(s)
      && s.w.inbox == Inbox.Lists([], [])
    ensures Runs(s, actions)
    ensures var t := After(s, actions);
            Valid(t) && t.pc == Decided(Decides(Enter([]))) && t.turnEnds.Some? && Unaborted(t) && HasPending(t.w)
            && t.w.phase.turn == s.w.phase.turn
  {
    hide Base, Placed, SessionLog.Scan;
    Joins(s, joins);
    ghost var a, b := [SendMessage(joins, NextStep, false), StepReturnsToTurn],
        [PromptAssembled(true), PluginsDecide(true, Enter([])), SendMessage(waits, NextTurn, false)];
    var t := After(s, a);
    Waits(t, waits);
    hide Enabled, Step;
    RunsOn(s, a, b);
    actions := a + b;
    RunKeeps(s, actions);
  }

  /** Input for a step, queued before the step returns, has the turn propose a further one. */
  lemma Joins(s: State, joins: Message)
    requires Valid(s) && s.pc.StepDone? && s.pc.step.StepReturns? && s.pc.step.end.Some? && Unaborted(s)
      && s.w.inbox == Inbox.Lists([], [])
    ensures var actions := [SendMessage(joins, NextStep, false), StepReturnsToTurn];
            && Runs(s, actions)
            && var t := After(s, actions);
               && t.pc == Assembling && t.turnEnds.Some? && Unaborted(t)
               && t.w.inbox == Inbox.Lists([], []) && t.w.phase.turn == s.w.phase.turn
               && t.run.courses == s.run.courses + [s.run.course]
  {
    hide Base, Placed, SessionLog.Scan;
    Steps2(s, SendMessage(joins, NextStep, false), StepReturnsToTurn);
    var splice := Insertion(s.w.inbox, NextStep, joins);
    assert Spliced(s.w, splice).inbox == Inbox.Lists([], [joins]);
    assert [joins][1..] == [];
  }

  lemma Waits(s: State, waits: Message)
    requires s.pc == Assembling && s.turnEnds.Some? && Unaborted(s) && s.w.inbox == Inbox.Lists([], [])
    ensures var actions := [PromptAssembled(true), PluginsDecide(true, Enter([])), SendMessage(waits, NextTurn, false)];
            && Runs(s, actions)
            && var t := After(s, actions);
               && t.pc == Decided(Decides(Enter([]))) && t.turnEnds.Some? && Unaborted(t)
               && HasPending(t.w) && t.w.phase.turn == s.w.phase.turn
  {
    Steps3(s, PromptAssembled(true), PluginsDecide(true, Enter([])), SendMessage(waits, NextTurn, false));
    var splice := Insertion(s.w.inbox, NextTurn, waits);
    assert Spliced(s.w, splice).inbox == Inbox.Lists([waits], []);
  }

  /** From a fresh agent, an activity that is disposed of runs another turn. */
  lemma DisposedTurnRenewedReached(m: Message, joins: Message, waits: Message) returns (actions: seq<Action>)
    ensures Runs(Fresh(), actions) && CancelActivity(Disposed, true) in actions
    ensures var t := After(Fresh(), actions); Unaborted(t) && t.w.phase.turn == 2
  {
    hide Valid, Enabled, Step;
    var first := FirstDecision(m, Enter([m]));
    var second := OneAnswer(After(Fresh(), first), m, FinishOther([]));
    RunsOn(Fresh(), first, second);
    var third := ThenNothing(After(Fresh(), first + second), joins, waits);
    RunsOn(Fresh(), first + second, third);
    var fourth := [CancelActivity(Disposed, true), PreStepReturns, TurnReturns];
    DisposedTurnRenewed(After(Fresh(), first + second + third));
    RunsOn(Fresh(), first + second + third, fourth);
    actions := first + second + third + fourth;
    assert actions[|first + second + third|] == CancelActivity(Disposed, true);
  }

  /** A further step, entered with a message, whose one tool call is answered. */
  lemma OneTool(s: State, m: Message, call: Call, outcome: Outcome) returns (actions: seq<Action>)
    requires Valid(s) && s.pc == Assembling && Unaborted(s)
    ensures Runs(s, actions) && ToolAnswers(outcome) in actions
    ensures var t := After(s, actions);
            Valid(t) && t.pc == ToolsDone(Ran(false)) && Unaborted(t) && t.w.inbox == s.w.inbox
            && t.run.courses == s.run.courses && t.w.phase.turn == s.w.phase.turn
  {
    hide Valid, Enabled, Step;
    Assembles(s, m);
    ghost var a := [PromptAssembled(true), PluginsDecide(true, Enter([m]))];
    RunKeeps(s, a);
    var b := OneAnswer(After(s, a), m, FinishOther([call]));
    RunsOn(s, a, b);
    ghost var c := [ToolOpens, ToolAnswers(outcome), ToolsReturn(false)];
    UsesTool(After(s, a + b), call, outcome);
    RunsOn(s, a + b, c);
    actions := a + b + c;
    assert actions[|a + b| + 1] == c[1];
    RunKeeps(s, actions);
  }

  lemma Assembles(s: State, m: Message)
    requires s.pc == Assembling && Unaborted(s)
    ensures var actions := [PromptAssembled(true), PluginsDecide(true, Enter([m]))];
            && Runs(s, actions)
            && var t := After(s, actions);
               t.pc == Decided(Decides(Enter([m]))) && Unaborted(t) && t.w == s.w && t.run == s.run
  {
    Steps2(s, PromptAssembled(true), PluginsDecide(true, Enter([m])));
  }

  lemma UsesTool(s: State, call: Call, outcome: Outcome)
    requires Unaborted(s) && AnsweredBy(s, FinishOther([call]))
    ensures var actions := [ToolOpens, ToolAnswers(outcome), ToolsReturn(false)];
            && Runs(s, actions)
            && var t := After(s, actions);
               t.pc == ToolsDone(Ran(false)) && Unaborted(t) && t.w.inbox == s.w.inbox && t.run.courses == s.run.courses
               && t.w.phase.turn == s.w.phase.turn
  {
    Steps3(s, ToolOpens, ToolAnswers(outcome), ToolsReturn(false));
  }

  lemma StepNumber(s: State)
    requires Valid(s) && s.pc.ToolsDone?
    ensures s.w.phase.step == |s.run.courses| + 1
  {
    hide Base, SessionLog.Scan, Ending;
  }

  /** A turn's first step may hit the token ceiling, and its second use a tool. */
  lemma ToolAfterCeiling(m: Message, joins: Message, call: Call, outcome: Outcome) returns (actions: seq<Action>)
    ensures Runs(Fresh(), actions) && ToolAnswers(outcome) in actions
    ensures var t := After(Fresh(), actions);
            && Valid(t) && t.pc == ToolsDone(Ran(false)) && Unaborted(t) && t.w.inbox == Inbox.Lists([], [])
            && t.run.courses == [Course(Some(FinishMaxTokens), None)] && t.w.phase.turn == 1
  {
    hide Valid, Enabled, Step;
    var first := FirstDecision(m, Enter([m]));
    var second := OneAnswer(After(Fresh(), first), m, FinishMaxTokens);
    RunsOn(Fresh(), first, second);
    var cut := After(Fresh(), first + second);
    ghost var third := [SendMessage(joins, NextStep, false), StepReturnsToTurn];
    Joins(cut, joins);
    RunsOn(Fresh(), first + second, third);
    RunKeeps(cut, third);
    var fourth := OneTool(After(cut, third), joins, call, outcome);
    RunsOn(Fresh(), first + second + third, fourth);
    actions := first + second + third + fourth;
    assert ToolAnswers(outcome) in fourth;
    FirstCourse(After(Fresh(), first));
  }

  /** From a fresh agent, a turn ends on the results of a tool that ran in its second step. */
  lemma ToolResultsUnseenReached(m: Message, joins: Message, call: Call, outcome: Outcome)
      returns (actions: seq<Action>)
    ensures Runs(Fresh(), actions) && ToolAnswers(outcome) in actions
    ensures var log := After(Fresh(), actions).w.log;
            |log| >= 2 && log[|log| - 2] == StepEnd(1, 2) && log[|log| - 1] == TurnEnd(1, MaxTokens)
  {
    hide Valid, Enabled, Step;
    var before := ToolAfterCeiling(m, joins, call, outcome);
    var s := After(Fresh(), before);
    StepNumber(s);
    assert HitCeiling(s.run.courses[0]);
    var more := [ToolsResume, StepReturnsToTurn, StoppingSettles(true)];
    ToolResultsUnseen(s);
    RunsOn(Fresh(), before, more);
    actions := before + more;
  }

  /** At a turn's first step boundary no step has returned. */
  lemma FirstCourse(s: State)
    requires Valid(s) && s.pc.Decided? && s.w.phase.step == 0
    ensures s.run.courses == []
  {
    hide Base, SessionLog.Scan, Ending;
  }
}
