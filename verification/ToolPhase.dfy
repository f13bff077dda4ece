/**
 * The tool phase of a driver's step is what the tool scheduler leaves in the log: the entries the
 * driver's tool actions can log are exactly the paired ones, and every run of the scheduler, however
 * it ends, is such a phase.
 */
module ToolPhase {
  import opened Options
  import opened SessionEvents
  import opened AgentDriver
  import AgentRuns
  import ConsumedWork
  import Inbox
  import SessionLog
  import ToolCalls

  /** What others append meanwhile are entries of the live inbox, none of them a claim. */
  predicate OthersFit(log: seq<Event>, from: nat) {
    && Inbox.Replay(log).Some?
    && forall i | from <= i < |log| :: !ConsumedWork.ClaimsInput(log[i])
  }

  /**
   * A driver in its tool phase, whose actions so far have made the log `log`, with these calls open
   * and these answers.
   */
  ghost predicate Stands(s: State, tools: Tools, log: seq<Event>, outcomes: seq<Outcome>) {
    && s.w.phase.Running? && s.w.log == log
    && s.pc == InTools(tools.(callSeqs := CallPositions(log, tools.base), outcomes := outcomes))
  }

  /** Only the log, the inbox and the driver's place in its tool phase have moved. */
  predicate Moved(s: State, t: State) {
    t.w.phase == s.w.phase && t.w.torn == s.w.torn
  }

  /** The action that logs one entry of a tool phase. */
  function Logs(e: Event): Action
    requires e.ToolCall? || e.ToolResult? || Foreign(e)
  {
    match e
    case ToolCall(_, _, _) => ToolOpens
    case ToolResult(_, _, _, outcome, _) => ToolAnswers(outcome)
    case InboxSpliced(splice) => PluginSplice(splice)
    case OtherEvent(kind) => AppendRecord(kind)
  }

  lemma OpensNext(s: State, tools: Tools, log: seq<Event>, turn: nat, step: nat, started: nat, outcomes: seq<Outcome>)
    requires Stands(s, tools, log, outcomes) && s.w.phase.turn == turn && s.w.phase.step == step && tools.base <= |log|
    requires Paired(log, tools.base, turn, step, tools.calls, started, outcomes) && started < |tools.calls|
    ensures Enabled(s, ToolOpens)
    ensures var e := ToolCall(turn, step, tools.calls[started]);
            Stands(Step(s, ToolOpens), tools, log + [e], outcomes) && Moved(s, Step(s, ToolOpens))
  {
    hide Paired, CallPositions;
    PairedSize(log, tools.base, turn, step, tools.calls, started, outcomes);
    PairedCall(log, tools.base, turn, step, tools.calls, started, outcomes);
  }

  lemma AnswersNext(s: State, tools: Tools, log: seq<Event>, turn: nat, step: nat, started: nat, outcomes: seq<Outcome>,
      outcome: Outcome)
    requires Stands(s, tools, log, outcomes) && s.w.phase.turn == turn && s.w.phase.step == step && tools.base <= |log|
    requires Paired(log, tools.base, turn, step, tools.calls, started, outcomes)
      && |outcomes| < started <= |tools.calls|
    ensures |CallPositions(log, tools.base)| == started
    ensures Enabled(s, ToolAnswers(outcome))
    ensures var n := |outcomes|;
            var e := ToolResult(turn, step, tools.calls[n].id, outcome, CallPositions(log, tools.base)[n]);
            Stands(Step(s, ToolAnswers(outcome)), tools, log + [e], outcomes + [outcome])
            && Moved(s, Step(s, ToolAnswers(outcome)))
  {
    hide Paired, CallPositions;
    PairedSize(log, tools.base, turn, step, tools.calls, started, outcomes);
    PairedResult(log, tools.base, turn, step, tools.calls, started, outcomes, outcome);
  }

  lemma OthersNext(s: State, tools: Tools, log: seq<Event>, outcomes: seq<Outcome>, e: Event)
    requires Stands(s, tools, log, outcomes) && tools.base <= |log| && Foreign(e)
      && Inbox.Replay(s.w.log) == Some(s.w.inbox)
    requires Inbox.Replay(log + [e]).Some? && !ConsumedWork.ClaimsInput(e)
    ensures Enabled(s, Logs(e))
    ensures Stands(Step(s, Logs(e)), tools, log + [e], outcomes) && Moved(s, Step(s, Logs(e)))
  {
    hide Inbox.Replay, Inbox.Spliced, CallPositions;
    Inbox.ReplayNext(log, e);
    PositionsNext(log, tools.base, e);
  }

  /** The last entry of a paired log, and what the log was paired with before it. */
  lemma LastResult(events: seq<Event>, base: nat, turn: nat, step: nat, calls: seq<Call>, started: nat,
      outcomes: seq<Outcome>)
    requires base < |events| && events[|events| - 1].ToolResult?
    requires Paired(events, base, turn, step, calls, started, outcomes)
    ensures 0 < |outcomes| <= started <= |calls|
    ensures var prefix, k := events[..|events| - 1], |outcomes| - 1;
            && Paired(prefix, base, turn, step, calls, started, outcomes[..k])
            && |CallPositions(prefix, base)| == started
            && events[|events| - 1] == ToolResult(turn, step, calls[k].id, outcomes[k], CallPositions(prefix, base)[k])
  {
    SessionLog.PairedWithoutResult(events, base, turn, step, calls, started, outcomes);
    var prefix := events[..|events| - 1];
    var rp := ResultPositions(events, base);
    assert CallPositions(events, base) == CallPositions(prefix, base);
    assert rp == ResultPositions(prefix, base) + [|events| - 1];
    assert rp[|outcomes| - 1] == |events| - 1;
  }

  /**
   * Every paired log is reached: from a driver in its tool phase, its tool actions and others'
   * entries make the log any extension that pairs its calls.
   */
  lemma {:induction false} EveryPairingReached(s: State, tools: Tools, log: seq<Event>, turn: nat, step: nat,
      started: nat, outcomes: seq<Outcome>)
    returns (actions: seq<Action>)
    requires Valid(s) && s.pc == InTools(tools) && tools.callSeqs == [] && tools.outcomes == []
      && tools.base == |s.w.log|
    requires s.w.phase.turn == turn && s.w.phase.step == step
    requires s.w.log <= log && Paired(log, tools.base, turn, step, tools.calls, started, outcomes)
      && OthersFit(log, tools.base)
    ensures AgentRuns.Runs(s, actions)
    ensures Stands(AgentRuns.After(s, actions), tools, log, outcomes) && Moved(s, AgentRuns.After(s, actions))
    decreases |log|
  {
    hide Valid, Enabled, Step, Paired, CallPositions, Stands, OthersFit, Logs, Inbox.Replay, AgentRuns.Runs,
        AgentRuns.After;
    if |log| == |s.w.log| {
      assert log == s.w.log;
      NothingDone(s, tools, turn, step, started, outcomes);
      actions := [];
    } else {
      var last := |log| - 1;
      var prefix, e := log[..last], log[last];
      assert prefix + [e] == log;
      FitsBefore(prefix, e, tools.base);
      if e.ToolCall? {
        SessionLog.PairedWithoutCall(log, tools.base, turn, step, tools.calls, started, outcomes);
        actions := EveryPairingReached(s, tools, prefix, turn, step, started - 1, outcomes);
        OpensNext(AgentRuns.After(s, actions), tools, prefix, turn, step, started - 1, outcomes);
        actions := Snoc(s, actions, ToolOpens);
      } else if e.ToolResult? {
        LastResult(log, tools.base, turn, step, tools.calls, started, outcomes);
        var k := |outcomes| - 1;
        actions := EveryPairingReached(s, tools, prefix, turn, step, started, outcomes[..k]);
        AnswersNext(AgentRuns.After(s, actions), tools, prefix, turn, step, started, outcomes[..k], outcomes[k]);
        assert outcomes[..k] + [outcomes[k]] == outcomes;
        actions := Snoc(s, actions, ToolAnswers(outcomes[k]));
      } else {
        SessionLog.PairedWithoutOther(log, tools.base, turn, step, tools.calls, started, outcomes);
        actions := EveryPairingReached(s, tools, prefix, turn, step, started, outcomes);
        LiveInbox(s, actions);
        OthersNext(AgentRuns.After(s, actions), tools, prefix, outcomes, e);
        actions := Snoc(s, actions, Logs(e));
      }
    }
  }

  lemma FitsBefore(log: seq<Event>, e: Event, from: nat)
    requires OthersFit(log + [e], from) && from <= |log|
    ensures OthersFit(log, from) && Inbox.Replay(log + [e]).Some? && !ConsumedWork.ClaimsInput(e)
  {
    hide Inbox.Replay;
    Inbox.ReplayNext(log, e);
    forall i | from <= i < |log| ensures !ConsumedWork.ClaimsInput(log[i]) { assert (log + [e])[i] == log[i]; }
    assert (log + [e])[|log|] == e;
  }

  lemma NothingDone(s: State, tools: Tools, turn: nat, step: nat, started: nat, outcomes: seq<Outcome>)
    requires Valid(s) && s.pc == InTools(tools) && tools.callSeqs == [] && tools.outcomes == []
      && tools.base == |s.w.log|
    requires Paired(s.w.log, tools.base, turn, step, tools.calls, started, outcomes)
    ensures outcomes == [] && AgentRuns.Runs(s, []) && AgentRuns.After(s, []) == s && Stands(s, tools, s.w.log, [])
  {
    SessionLog.PairedNothing(s.w.log, turn, step, tools.calls, started, outcomes);
    assert CallPositions(s.w.log, |s.w.log|) == [];
  }

  lemma LiveInbox(s: State, actions: seq<Action>)
    requires Valid(s) && AgentRuns.Runs(s, actions)
    ensures var t := AgentRuns.After(s, actions); Inbox.Replay(t.w.log) == Some(t.w.inbox)
  {
    hide Enabled, Step, AgentRuns.Runs, AgentRuns.After;
    AgentRuns.RunKeeps(s, actions);
    ValidInv(AgentRuns.After(s, actions));
  }

  /** One more action. */
  lemma Snoc(s: State, actions: seq<Action>, a: Action) returns (more: seq<Action>)
    requires AgentRuns.Runs(s, actions) && Enabled(AgentRuns.After(s, actions), a)
    ensures AgentRuns.Runs(s, more) && AgentRuns.After(s, more) == Step(AgentRuns.After(s, actions), a)
  {
    hide Enabled, Step;
    AgentRuns.Steps1(AgentRuns.After(s, actions), a);
    AgentRuns.RunsOn(s, actions, [a]);
    more := actions + [a];
  }

  /** And only paired logs are: while the scheduler is at work, the step's entries are a pairing of its calls. */
  lemma OnlyPairings(s: State)
    requires Valid(s) && s.pc.InTools?
    ensures var t := s.pc.tools;
            Paired(s.w.log, t.base, s.w.phase.turn, s.w.phase.step, t.calls, |t.callSeqs|, t.outcomes)
            && t.callSeqs == CallPositions(s.w.log, t.base)
  {
    hide Base, Attempting, SessionLog.Scan, Ending;
  }

  /** However the scheduler ended. */
  ghost predicate Leaves(plan: ToolCalls.Plan, t: ToolCalls.State, result: ToolOutcome) {
    match result
    case Ran(concluded) =>
      || (ToolCalls.FinishedState(plan, t) && concluded == ToolCalls.Concludes(t.commits.results, 0))
      || (ToolCalls.CancelledState(plan, t, |plan.calls|) && concluded == ToolCalls.Concludes(t.commits.results, 0))
    case SchedulerFailed => exists error :: ToolCalls.RejectedState(plan, t, error)
  }

  /** The answers that a scheduler's run left in the log. */
  ghost function Answers(plan: ToolCalls.Plan, t: ToolCalls.State, result: ToolOutcome): seq<Outcome> {
    if result.Ran? && |t.commits.results| <= |plan.calls|
      then ToolCalls.Reals(t.commits.results) + ToolCalls.Skips(|plan.calls| - |t.commits.results|)
      else ToolCalls.Reals(t.commits.results)
  }

  lemma LeavesPaired(plan: ToolCalls.Plan, t: ToolCalls.State, result: ToolOutcome) returns (started: nat)
    requires Leaves(plan, t, result)
    ensures plan.before <= t.events
    ensures Paired(t.events, |plan.before|, plan.turn, plan.step, plan.calls, started, Answers(plan, t, result))
    ensures result.Ran? ==> |Answers(plan, t, result)| == |plan.calls|
  {
    hide Paired;
    started := if result.Ran? then |plan.calls| else t.pool.started;
    if result.Ran? && ToolCalls.FinishedState(plan, t) {
      assert ToolCalls.Reals(t.commits.results) + ToolCalls.Skips(0) == ToolCalls.Reals(t.commits.results);
    }
  }

  /**
   * Every run of the scheduler is a tool phase of the driver: from the driver that called it, some
   * interleaving leaves the scheduler's log and returns what it returned, or fails as it failed.
   */
  lemma SchedulerIsToolPhase(s: State, plan: ToolCalls.Plan, t: ToolCalls.State, result: ToolOutcome)
      returns (actions: seq<Action>)
    requires Valid(s) && s.pc == InTools(Tools(|plan.before|, plan.calls, [], [])) && s.w.log == plan.before
    requires s.w.phase.turn == plan.turn && s.w.phase.step == plan.step
    requires Leaves(plan, t, result) && OthersFit(t.events, |plan.before|)
    ensures AgentRuns.Runs(s, actions)
    ensures var u := AgentRuns.After(s, actions);
            u.w.log == t.events && u.pc == ToolsDone(result) && (u.w.torn <==> s.w.torn || result.SchedulerFailed?)
  {
    hide Valid, Paired, OthersFit, Leaves, AgentRuns.Runs, AgentRuns.After;
    var tools := Tools(|plan.before|, plan.calls, [], []);
    var started := LeavesPaired(plan, t, result);
    actions := EveryPairingReached(s, tools, t.events, plan.turn, plan.step, started, Answers(plan, t, result));
    var u := AgentRuns.After(s, actions);
    var last := if result.Ran? then ToolsReturn(result.concluded) else ToolsFail;
    assert Enabled(u, last);
    actions := Snoc(s, actions, last);
  }
}
