/**
 * The tool-call scheduler of one assistant step: exclusive barriers, a bounded rolling pool,
 * ordered commits over out-of-order settlement, abort, and scheduler failure.
 *
 * Between two awaits the scheduler runs alone. At an await (`Await`) the environment may settle
 * any started dispatch with any outcome, abort the step, and append foreign log entries.
 */
module ToolCalls {
  import opened Options
  import opened SessionEvents

  /** A settled dispatch waiting for its turn to commit: its execution context and its raw outcome. */
  datatype Slot = Slot(exec: nat, outcome: nat, needsPost: bool)

  type Error = nat

  /** What the registry's prepare stage decides for a started call. */
  datatype Preparation = Dispatch | PostResult(outcome: nat) | FinalResult(outcome: nat)

  /**
   * One observable scheduling event; calls are named by their model position. A rejected dispatch
   * settles into no slot.
   */
  datatype Step =
    | Classify(call: nat, parallel: bool)             // the call's live mode is read
    | Start(call: nat, exclusive: bool)               // its entry is logged, and its prepare stage begins
    | Prepare(call: nat, preparation: Preparation)    // its prepare stage returns
    | Launch(call: nat)                               // its dispatch begins
    | Settle(call: nat, settled: Option<Slot>)        // its dispatch settles
    | Finalize(slot: Slot)                            // its outcome goes through the post stage
    | Finish(slot: Slot)                              // its outcome is final as it is
    | Abort

  // ----- what a run may do, stated on its trace alone -----

  /** Calls launched and not yet settled after a trace. */
  ghost function Running(t: seq<Step>): set<nat> {
    if t == [] then {}
    else
      var before := Running(t[..|t| - 1]);
      match t[|t| - 1]
      case Launch(c) => before + {c}
      case Settle(c, _) => before - {c}
      case _ => before
  }

  /** Calls that were classified exclusive when they started. */
  ghost function Exclusive(t: seq<Step>): set<nat> {
    if t == [] then {}
    else
      var before := Exclusive(t[..|t| - 1]);
      match t[|t| - 1]
      case Start(c, true) => before + {c}
      case _ => before
  }

  /** How many calls have started. */
  ghost function Starts(t: seq<Step>): nat {
    if t == [] then 0 else Starts(t[..|t| - 1]) + if t[|t| - 1].Start? then 1 else 0
  }

  /** The call whose prepare stage is at work. */
  ghost function Opening(t: seq<Step>): Option<nat> {
    if t == [] then None
    else
      match t[|t| - 1]
      case Start(c, _) => Some(c)
      case Prepare(_, _) => None
      case _ => Opening(t[..|t| - 1])
  }

  /** The latest reading of a live mode. */
  ghost function Reading(t: seq<Step>): Option<Step> {
    if t == [] then None else if t[|t| - 1].Classify? then Some(t[|t| - 1]) else Reading(t[..|t| - 1])
  }

  /** How many outcomes have been finalized. */
  ghost function Finishes(t: seq<Step>): nat {
    if t == [] then 0 else Finishes(t[..|t| - 1]) + if t[|t| - 1].Finalize? || t[|t| - 1].Finish? then 1 else 0
  }

  /**
   * What came of a call: what its dispatch settled with, or the result of its prepare stage, which
   * says whether it still goes through the post stage.
   */
  ghost predicate Came(t: seq<Step>, slot: Slot) {
    || Settle(slot.exec, Some(slot)) in t
    || (slot.needsPost && Prepare(slot.exec, PostResult(slot.outcome)) in t)
    || (!slot.needsPost && Prepare(slot.exec, FinalResult(slot.outcome)) in t)
  }

  predicate Last(t: seq<Step>, s: Step) {
    t != [] && t[|t| - 1] == s
  }

  /**
   * Whether one more step keeps the scheduler's rules: a call starts in model order, as its live mode
   * was read right before, once the previous prepare stage has returned; it is dispatched if that is
   * what its prepare stage decided; and what came of it is finalized in model order, by the stage it
   * needs.
   */
  ghost predicate StepSafe(plan: Plan, before: seq<Step>, s: Step) {
    match s
    case Classify(c, parallel) => parallel == plan.mode(c, before)
    case Start(c, exclusive) =>
      && Last(before, Classify(c, !exclusive))
      && c == Starts(before) && Opening(before).None?
      && Abort !in before && (exclusive ==> Running(before) == {})
    case Prepare(c, _) => Opening(before) == Some(c)
    case Launch(c) =>
      && Last(before, Prepare(c, Dispatch))
      && c !in Running(before)
      && |Running(before)| < plan.max
      && (Running(before) == {} || (Running(before) !! Exclusive(before) && c !in Exclusive(before)))
    case Settle(c, slot) => c in Running(before) && (slot.Some? ==> slot.value.exec == c)
    case Finalize(slot) => slot.needsPost && slot.exec == Finishes(before) && Came(before, slot)
    case Finish(slot) => !slot.needsPost && slot.exec == Finishes(before) && Came(before, slot)
    case Abort => Abort !in before
  }

  ghost predicate PoolSafe(plan: Plan, t: seq<Step>) {
    t == [] || (PoolSafe(plan, t[..|t| - 1]) && StepSafe(plan, t[..|t| - 1], t[|t| - 1]))
  }

  /** Every step of a safe run kept the rules when it was taken. */
  lemma {:induction false} EveryStepSafe(plan: Plan, t: seq<Step>, k: nat)
    requires PoolSafe(plan, t) && k < |t|
    ensures PoolSafe(plan, t[..k]) && StepSafe(plan, t[..k], t[k])
    decreases |t|
  {
    hide StepSafe;
    var p := t[..|t| - 1];
    if k < |p| {
      EveryStepSafe(plan, p, k);
      assert p[..k] == t[..k];
    }
  }

  /** The number of dispatches in flight is within the bound, and an exclusive call in flight is alone. */
  ghost predicate Bounded(plan: Plan, t: seq<Step>) {
    && |Running(t)| <= plan.max
    && forall c | c in Running(t) && c in Exclusive(t) :: Running(t) == {c}
  }

  lemma {:induction false} RunningNext(t: seq<Step>, s: Step)
    ensures Running(t + [s]) ==
          (match s case Launch(c) => Running(t) + {c} case Settle(c, _) => Running(t) - {c} case _ => Running(t))
    ensures Exclusive(t + [s]) == if s.Start? && s.exclusive then Exclusive(t) + {s.call} else Exclusive(t)
    ensures Starts(t + [s]) == Starts(t) + if s.Start? then 1 else 0
  {
    var u := t + [s];
    assert u[..|u| - 1] == t && u[|u| - 1] == s;
  }

  lemma {:induction false} BoundedNext(plan: Plan, t: seq<Step>, s: Step)
    requires Bounded(plan, t) && StepSafe(plan, t, s)
    ensures Bounded(plan, t + [s])
  {
    hide Running, Exclusive, Starts, Opening, Finishes, Came, Last;
    RunningNext(t, s);
    match s {
      case Launch(c) => if Running(t) == {} { assert Running(t + [s]) == {c}; }
      case Settle(c, _) => assert Running(t) == Running(t + [s]) + {c};
      case _ =>
    }
  }

  /**
   * What pool safety means at every moment of a run: the number of dispatches in flight never
   * exceeds the bound, an exclusive call in flight is alone, and nothing starts after an abort.
   */
  lemma {:induction false} PoolSafety(plan: Plan, t: seq<Step>, k: nat)
    requires PoolSafe(plan, t) && k <= |t|
    ensures |Running(t[..k])| <= plan.max
    ensures forall c | c in Running(t[..k]) && c in Exclusive(t[..k]) :: Running(t[..k]) == {c}
    ensures k < |t| && t[k].Start? ==> Abort !in t[..k]
    decreases k
  {
    if k < |t| { EveryStepSafe(plan, t, k); }
    if k == 0 {
      assert t[..k] == [];
    } else {
      EveryStepSafe(plan, t, k - 1);
      PoolSafety(plan, t, k - 1);
      assert t[..k] == t[..k - 1] + [t[k - 1]];
      BoundedNext(plan, t[..k - 1], t[k - 1]);
    }
  }

  /** Every call starts as its live mode was read right before. */
  ghost predicate StartsAsRead(plan: Plan, t: seq<Step>) {
    forall k | 0 <= k < |t| && t[k].Start? :: k > 0 && t[k].exclusive == !plan.mode(t[k].call, t[..k - 1])
  }

  lemma SafeStartsAsRead(plan: Plan, t: seq<Step>)
    requires PoolSafe(plan, t)
    ensures StartsAsRead(plan, t)
  {
    hide PoolSafe, Running, Exclusive, Starts, Opening;
    forall k | 0 <= k < |t| && t[k].Start?
      ensures k > 0 && t[k].exclusive == !plan.mode(t[k].call, t[..k - 1]) {
      EveryStepSafe(plan, t, k);
      assert t[..k][k - 1] == t[k - 1];
      EveryStepSafe(plan, t, k - 1);
    }
  }

  /**
   * A call whose live mode is not parallel when it starts has the pool to itself: nothing is in
   * flight at its start, and nothing else is at any moment of its own dispatch.
   */
  lemma NonParallelAlone(plan: Plan, t: seq<Step>, i: nat, k: nat)
    requires PoolSafe(plan, t) && 0 < i < k <= |t| && t[i].Start? && !plan.mode(t[i].call, t[..i - 1])
    ensures Running(t[..i]) == {}
    ensures t[i].call in Running(t[..k]) ==> Running(t[..k]) == {t[i].call}
  {
    hide PoolSafe, Running, Starts, Opening;
    SafeStartsAsRead(plan, t);
    EveryStepSafe(plan, t, i);
    PoolSafety(plan, t, k);
    assert t[i] == Start(t[i].call, true);
    ExclusiveStays(t, i, k);
  }

  lemma {:induction false} ExclusiveStays(t: seq<Step>, i: nat, k: nat)
    requires i < k <= |t| && t[i].Start? && t[i].exclusive
    ensures t[i].call in Exclusive(t[..k])
    decreases k
  {
    assert t[..k][..k - 1] == t[..k - 1];
    if i < k - 1 { ExclusiveStays(t, i, k - 1); }
  }

  lemma {:induction false} Extend(plan: Plan, t: seq<Step>, s: Step)
    requires PoolSafe(plan, t) && StepSafe(plan, t, s)
    ensures PoolSafe(plan, t + [s]) && Last(t + [s], s)
    ensures Running(t + [s]) ==
          (match s case Launch(c) => Running(t) + {c} case Settle(c, _) => Running(t) - {c} case _ => Running(t))
    ensures Exclusive(t + [s]) == if s.Start? && s.exclusive then Exclusive(t) + {s.call} else Exclusive(t)
    ensures Abort in t + [s] <==> Abort in t || s == Abort
    ensures Starts(t + [s]) == Starts(t) + if s.Start? then 1 else 0
  {
    hide Running, Exclusive, Starts, StepSafe;
    RunningNext(t, s);
    var u := t + [s];
    assert u[..|u| - 1] == t && u[|u| - 1] == s;
    assert Abort in u <==> Abort in t || s == Abort;
  }

  /** What one more step makes of the stages under way. */
  lemma StagesNext(t: seq<Step>, s: Step)
    ensures Opening(t + [s]) == (match s case Start(c, _) => Some(c) case Prepare(_, _) => None case _ => Opening(t))
    ensures Finishes(t + [s]) == Finishes(t) + if s.Finalize? || s.Finish? then 1 else 0
    ensures Reading(t + [s]) == if s.Classify? then Some(s) else Reading(t)
  {
    var u := t + [s];
    assert u[..|u| - 1] == t && u[|u| - 1] == s;
  }

  /** No stage of the scheduler's own has begun or returned. */
  ghost predicate SameStages(t: seq<Step>, u: seq<Step>) {
    t <= u && Opening(u) == Opening(t) && Finishes(u) == Finishes(t)
  }

  /** Nor has a mode been read. */
  ghost predicate SameReading(t: seq<Step>, u: seq<Step>) {
    SameStages(t, u) && Reading(u) == Reading(t)
  }

  /** Every slot holds what came of its call. */
  ghost predicate SlotsOk(slots: map<nat, Slot>, t: seq<Step>) {
    forall c | c in slots :: Came(t, slots[c])
  }

  lemma SlotsGrow(slots: map<nat, Slot>, t: seq<Step>, u: seq<Step>)
    requires SlotsOk(slots, t) && t <= u
    ensures SlotsOk(slots, u)
  {
    forall c | c in slots ensures Came(u, slots[c]) {
      assert Came(t, slots[c]);
      assert forall s | s in t :: s in u;
    }
  }

  lemma SlotsNext(slots: map<nat, Slot>, t: seq<Step>, slot: Slot)
    requires SlotsOk(slots, t)
    ensures SlotsOk(slots[slot.exec := slot], t + [Settle(slot.exec, Some(slot))])
  {
    SlotsGrow(slots, t, t + [Settle(slot.exec, Some(slot))]);
    assert Settle(slot.exec, Some(slot)) in t + [Settle(slot.exec, Some(slot))];
  }

  function Contexts(results: seq<Execution>): seq<Message> {
    if results == [] then [] else Contexts(results[..|results| - 1]) + results[|results| - 1].contexts
  }

  /** Whether a result committed from position `from` on concludes the turn. */
  ghost predicate Concludes(results: seq<Execution>, from: nat) {
    exists k | from <= k < |results| :: results[k].concludesTurn
  }

  lemma ConcludesNext(results: seq<Execution>, from: nat, result: Execution)
    requires from <= |results|
    ensures Concludes(results + [result], from) == (Concludes(results, from) || result.concludesTurn)
  {
    var next := results + [result];
    if result.concludesTurn { assert next[|results|].concludesTurn; }
    if Concludes(results, from) {
      var k :| from <= k < |results| && results[k].concludesTurn;
      assert next[k].concludesTurn;
    }
  }

  lemma ConcludesSplit(results: seq<Execution>, from: nat, mid: nat)
    requires from <= mid <= |results|
    ensures Concludes(results, from) == (Concludes(results[..mid], from) || Concludes(results, mid))
  {
  }

  function Reals(results: seq<Execution>): (os: seq<Outcome>)
    ensures |os| == |results| && forall k | 0 <= k < |results| :: os[k] == Real(results[k])
  {
    seq(|results|, k requires 0 <= k < |results| => Real(results[k]))
  }

  function Skips(n: nat): (os: seq<Outcome>)
    ensures |os| == n && forall k | 0 <= k < n :: os[k] == Skipped
  {
    seq(n, _ => Skipped)
  }

  // ----- the invariant, piece by piece -----

  /** The group's pool and cursors. A settled dispatch stays in `inFlight` until the race hands it out. */
  datatype Pool = Pool(
    slots: map<nat, Slot>, inFlight: set<nat>, settled: set<nat>, failed: bool,
    first: nat, committed: nat, nextToStart: nat, started: nat, max: nat)
  {
    /** Who holds each started call: in flight, settled into its slot, or lost to a recorded failure. */
    ghost predicate Ok() {
      && first <= committed <= nextToStart <= started <= nextToStart + 1
      && settled <= inFlight
      && |inFlight| <= max
      && (forall c | c in inFlight ::
            && first <= c < started
            && (if c in settled then failed || c in slots else committed <= c && c !in slots))
      && (forall c | c in slots :: c < started && slots[c].exec == c)
      && (!failed ==> forall c | committed <= c < nextToStart :: c in slots || c in inFlight)
    }
  }

  /** The trace has obeyed the pool's rules, and agrees with the pool. */
  ghost predicate TraceOk(plan: Plan, trace: seq<Step>, running: set<nat>, signalAborted: bool, first: nat,
      started: nat, parallelMode: bool)
  {
    && PoolSafe(plan, trace)
    && Running(trace) == running && Starts(trace) == started
    && (Abort in trace <==> signalAborted)
    && (forall c | c in Exclusive(trace) :: c < started && (parallelMode ==> c < first))
  }

  /** A failure of the scheduler: a rejected dispatch is recorded at once, a throw only when it reaches the handler. */
  datatype Failure = Thrown(error: Error) | Dispatched(error: Error)

  function FirstDispatched(raised: seq<Failure>): Option<Error> {
    if raised == [] then None
    else
      var before := FirstDispatched(raised[..|raised| - 1]);
      if before.None? && raised[|raised| - 1].Dispatched? then Some(raised[|raised| - 1].error) else before
  }

  function FirstThrown(raised: seq<Failure>): Option<Error> {
    if raised == [] then None
    else
      var before := FirstThrown(raised[..|raised| - 1]);
      if before.None? && raised[|raised| - 1].Thrown? then Some(raised[|raised| - 1].error) else before
  }

  /** What a handler records that runs when these failures have been raised. */
  function Recorded(raised: seq<Failure>): Option<Error> {
    if FirstDispatched(raised).Some? then FirstDispatched(raised) else FirstThrown(raised)
  }

  /**
   * What is recorded, from the failures raised so far and where among them the handler ran;
   * `thrown` is on its way to the handler.
   */
  ghost predicate FailureOk(env: Env, thrown: Option<Error>) {
    match env.handledAt
    case None =>
      && env.schedulerFailure == FirstDispatched(env.raised)
      && (thrown.None? ==> FirstThrown(env.raised).None?)
      && (thrown.Some? ==>
            FirstThrown(env.raised) == thrown || (FirstThrown(env.raised).None? && env.schedulerFailure == thrown))
    case Some(n) => n <= |env.raised| && env.schedulerFailure.Some? && env.schedulerFailure == Recorded(env.raised[..n])
  }

  /** Each committed result was produced by its own call's execution. */
  ghost predicate OwnResults(results: seq<Execution>) {
    forall k | 0 <= k < |results| :: results[k].exec == k
  }

  /** The step's tool entries so far: model-ordered calls, model-ordered results, nothing synthetic. */
  ghost predicate LogOk(plan: Plan, events: seq<Event>, started: nat, results: seq<Execution>) {
    && plan.before <= events
    && Paired(events, |plan.before|, plan.turn, plan.step, plan.calls, started, Reals(results))
    && OwnResults(results)
  }

  lemma LogForeign(plan: Plan, events: seq<Event>, foreign: seq<Event>, started: nat, results: seq<Execution>)
    requires LogOk(plan, events, started, results) && AllForeign(foreign)
    ensures LogOk(plan, events + foreign, started, results)
    ensures CallPositions(events + foreign, |plan.before|) == CallPositions(events, |plan.before|)
  {
    PairedForeign(events, |plan.before|, foreign, plan.turn, plan.step, plan.calls, started, Reals(results));
  }

  lemma LogResult(plan: Plan, events: seq<Event>, started: nat, results: seq<Execution>, result: Execution)
    requires LogOk(plan, events, started, results) && |results| < started && result.exec == |results|
    ensures started <= |plan.calls| && |CallPositions(events, |plan.before|)| == started
    ensures var e := ToolResult(plan.turn, plan.step, plan.calls[|results|].id, Real(result),
        CallPositions(events, |plan.before|)[|results|]);
            && LogOk(plan, events + [e], started, results + [result])
            && CallPositions(events + [e], |plan.before|) == CallPositions(events, |plan.before|)
  {
    PairedResult(events, |plan.before|, plan.turn, plan.step, plan.calls, started, Reals(results), Real(result));
    assert Reals(results + [result]) == Reals(results) + [Real(result)];
  }

  lemma LogCall(plan: Plan, events: seq<Event>, started: nat, results: seq<Execution>)
    requires LogOk(plan, events, started, results) && started < |plan.calls|
    ensures |CallPositions(events, |plan.before|)| == started
    ensures var e := ToolCall(plan.turn, plan.step, plan.calls[started]);
            && LogOk(plan, events + [e], started + 1, results)
            && CallPositions(events + [e], |plan.before|) == CallPositions(events, |plan.before|) + [|events|]
  {
    PairedCall(events, |plan.before|, plan.turn, plan.step, plan.calls, started, Reals(results));
  }

  /** Every started, uncommitted call remembers the log position of its own `tool/call`. */
  ghost predicate CitesOk(callSeqs: map<nat, nat>, positions: seq<nat>, committed: nat, started: nat) {
    && started <= |positions|
    && forall c | committed <= c < started :: c in callSeqs && callSeqs[c] == positions[c]
  }

  lemma CitesStart(callSeqs: map<nat, nat>, positions: seq<nat>, committed: nat, started: nat, position: nat)
    requires CitesOk(callSeqs, positions, committed, started) && |positions| == started
    ensures CitesOk(callSeqs[started := position], positions + [position], committed, started + 1)
  {
  }

  lemma CitesAdvance(callSeqs: map<nat, nat>, positions: seq<nat>, committed: nat, started: nat)
    requires CitesOk(callSeqs, positions, committed, started)
    ensures CitesOk(callSeqs, positions, committed + 1, started)
  {
  }

  lemma RaisedNext(raised: seq<Failure>, f: Failure)
    ensures FirstDispatched(raised + [f]) == if FirstDispatched(raised).None? && f.Dispatched? then Some(f.error)
        else FirstDispatched(raised)
    ensures FirstThrown(raised + [f]) == if FirstThrown(raised).None? && f.Thrown? then Some(f.error)
        else FirstThrown(raised)
  {
    assert (raised + [f])[..|raised|] == raised;
  }

  /** A rejected dispatch is recorded unless a failure is. */
  lemma DispatchRecorded(env: Env, thrown: Option<Error>, error: Error)
    requires FailureOk(env, thrown)
    ensures FailureOk(env.(schedulerFailure := if env.schedulerFailure.None? then Some(error) else env.schedulerFailure,
                           raised := env.raised + [Dispatched(error)]), thrown)
  {
    RaisedNext(env.raised, Dispatched(error));
    if env.handledAt.Some? {
      assert (env.raised + [Dispatched(error)])[..env.handledAt.value] == env.raised[..env.handledAt.value];
    }
  }

  lemma ThrowRaised(env: Env, error: Error)
    requires FailureOk(env, None) && env.handledAt.None?
    ensures FailureOk(env.(raised := env.raised + [Thrown(error)]), Some(error))
  {
    RaisedNext(env.raised, Thrown(error));
  }

  /** What the handler does: a thrown failure is recorded unless an earlier one is. */
  function Caught(env: Env, thrown: Error): Env {
    env.(schedulerFailure := if env.schedulerFailure.None? then Some(thrown) else env.schedulerFailure,
        handledAt := Some(|env.raised|))
  }

  lemma CatchKeeps(env: Env, thrown: Error)
    requires FailureOk(env, Some(thrown)) && env.handledAt.None?
    ensures FailureOk(Caught(env, thrown), None)
  {
    assert env.raised[..|env.raised|] == env.raised;
  }

  lemma FailureThrown(env: Env)
    requires FailureOk(env, None) && env.handledAt.None? && env.schedulerFailure.Some?
    ensures FailureOk(env, env.schedulerFailure)
  {
  }

  /** Which raised failure a handler records: the first rejected dispatch, if there is one by then. */
  function RecordedAt(raised: seq<Failure>): (k: nat)
    requires raised != []
    ensures k < |raised| && Recorded(raised) == Some(raised[k].error)
    ensures if forall i | 0 <= i < |raised| :: raised[i].Thrown? then k == 0
            else raised[k].Dispatched? && forall i | 0 <= i < k :: raised[i].Thrown?
  {
    var init := raised[..|raised| - 1];
    RaisedNext(init, raised[|raised| - 1]);
    assert init + [raised[|raised| - 1]] == raised;
    if init == [] then 0
    else
      var k := RecordedAt(init);
      assert forall i | 0 <= i < |init| :: raised[i] == init[i];
      RecordedNext(init, raised[|raised| - 1], k);
      assert init + [raised[|raised| - 1]] == raised;
      if init[k].Thrown? && raised[|raised| - 1].Dispatched? then |raised| - 1 else k
  }

  lemma RecordedNext(raised: seq<Failure>, f: Failure, k: nat)
    requires k < |raised| && Recorded(raised) == Some(raised[k].error)
    requires raised[k].Thrown? ==> forall i | 0 <= i < |raised| :: raised[i].Thrown?
    ensures Recorded(raised + [f]) == if raised[k].Thrown? && f.Dispatched? then Some(f.error)
        else Some(raised[k].error)
  {
    RaisedNext(raised, f);
    DispatchedIff(raised);
  }

  lemma {:induction false} DispatchedIff(raised: seq<Failure>)
    ensures FirstDispatched(raised).None? <==> forall i | 0 <= i < |raised| :: raised[i].Thrown?
  {
    if raised != [] {
      var init := raised[..|raised| - 1];
      DispatchedIff(init);
      assert forall i | 0 <= i < |init| :: raised[i] == init[i];
    }
  }

  /**
   * A handled failure is the one raised first exactly when that was a rejected dispatch, or no
   * dispatch was rejected before the handler ran.
   */
  lemma RecordsFirstIff(raised: seq<Failure>)
    requires raised != []
    ensures RecordedAt(raised) == 0 <==> raised[0].Dispatched? || forall i | 0 <= i < |raised| :: raised[i].Thrown?
  {
  }

  lemma SettleKeeps(p: Pool, c: nat, slot: Slot)
    requires p.Ok() && c in p.inFlight - p.settled && slot.exec == c
    ensures p.(slots := p.slots[c := slot], settled := p.settled + {c}).Ok()
    ensures p.(settled := p.settled + {c}, failed := true).Ok()
  {
  }

  /** A filled slot at the cursor may be committed; its own race result may still be outstanding. */
  lemma CommitKeeps(p: Pool)
    requires p.Ok() && p.committed in p.slots && p.nextToStart == p.started
    ensures p.committed < p.started && p.slots[p.committed].exec == p.committed
    ensures p.(committed := p.committed + 1).Ok()
  {
  }

  /** Removing a raced index keeps the pool. */
  lemma RaceKeeps(p: Pool, c: nat)
    requires p.Ok() && c in p.settled
    ensures p.(inFlight := p.inFlight - {c}, settled := p.settled - {c}).Ok()
    ensures (p.inFlight - {c}) - (p.settled - {c}) == p.inFlight - p.settled
  {
  }

  lemma NoSlotPast(p: Pool)
    requires p.Ok()
    ensures forall c | p.started <= c :: c !in p.slots
  {
  }

  lemma PoolBounds(p: Pool)
    requires p.Ok()
    ensures p.settled <= p.inFlight && p.first <= p.committed <= p.nextToStart <= p.started
    ensures p.(failed := true).Ok()
  {
  }

  lemma StartKeeps(p: Pool)
    requires p.Ok() && p.nextToStart == p.started
    ensures p.(started := p.started + 1).Ok()
    ensures p.started !in p.slots && p.started !in p.inFlight && p.first <= p.started
    ensures p.started == p.first ==> p.inFlight == {}
  {
  }

  /** The call being started is parked in its slot, and the start cursor passes it. */
  lemma ParkKeeps(p: Pool, slot: Slot)
    requires p.Ok() && p.started == p.nextToStart + 1
    requires p.nextToStart !in p.slots && p.nextToStart !in p.inFlight && slot.exec == p.nextToStart
    ensures p.(slots := p.slots[p.nextToStart := slot], nextToStart := p.started).Ok()
  {
  }

  /** The call being started is launched, and the start cursor passes it. */
  lemma LaunchKeeps(p: Pool)
    requires p.Ok() && p.started == p.nextToStart + 1
    requires p.nextToStart !in p.slots && p.nextToStart !in p.inFlight && |p.inFlight| < p.max
    ensures p.(inFlight := p.inFlight + {p.nextToStart}, nextToStart := p.started).Ok()
    ensures p.settled <= p.inFlight && p.first <= p.nextToStart
    ensures forall c | c in p.inFlight :: p.first <= c < p.nextToStart
  {
  }

  /**
   * With an empty pool, no failure, and the cursor stopped at an empty slot, every started call
   * is committed: the "uncommitted settled calls" state cannot be reached.
   */
  lemma NothingUncommitted(p: Pool)
    requires p.Ok() && !p.failed && p.inFlight == {} && p.nextToStart == p.started
    requires p.committed !in p.slots
    ensures p.committed == p.started
  {
  }

  lemma TraceSettle(plan: Plan, trace: seq<Step>, inFlight: set<nat>, settled: set<nat>, signalAborted: bool,
      first: nat, started: nat, parallelMode: bool, c: nat, slot: Option<Slot>)
    requires TraceOk(plan, trace, inFlight - settled, signalAborted, first, started, parallelMode)
    requires c in inFlight - settled && (slot.Some? ==> slot.value.exec == c)
    ensures var next := trace + [Settle(c, slot)];
            && TraceOk(plan, next, inFlight - (settled + {c}), signalAborted, first, started, parallelMode)
            && SameReading(trace, next)
  {
    Extend(plan, trace, Settle(c, slot));
    StagesNext(trace, Settle(c, slot));
    hide PoolSafe, Running, Exclusive, Starts, Opening, Finishes, Reading;
    assert inFlight - (settled + {c}) == inFlight - settled - {c};
  }

  lemma TraceAbort(plan: Plan, trace: seq<Step>, running: set<nat>, first: nat, started: nat, parallelMode: bool)
    requires TraceOk(plan, trace, running, false, first, started, parallelMode)
    ensures TraceOk(plan, trace + [Abort], running, true, first, started, parallelMode)
    ensures SameReading(trace, trace + [Abort])
  {
    Extend(plan, trace, Abort);
    StagesNext(trace, Abort);
  }

  /** The live mode of a call is read. */
  lemma TraceClassify(plan: Plan, trace: seq<Step>, running: set<nat>, signalAborted: bool, first: nat, started: nat,
      parallelMode: bool, c: nat)
    requires TraceOk(plan, trace, running, signalAborted, first, started, parallelMode)
    ensures var next := trace + [Classify(c, plan.mode(c, trace))];
            TraceOk(plan, next, running, signalAborted, first, started, parallelMode) && SameStages(trace, next)
  {
    Extend(plan, trace, Classify(c, plan.mode(c, trace)));
    StagesNext(trace, Classify(c, plan.mode(c, trace)));
  }

  /** Only an exclusive group of one starts an exclusive call, and it starts with nothing in flight. */
  lemma TraceStart(plan: Plan, trace: seq<Step>, running: set<nat>, first: nat, started: nat, parallelMode: bool)
    requires TraceOk(plan, trace, running, false, first, started, parallelMode)
    requires Last(trace, Classify(started, parallelMode)) && Opening(trace).None?
    requires !parallelMode ==> running == {}
    requires first <= started
    ensures var next := trace + [Start(started, !parallelMode)];
            && TraceOk(plan, next, running, false, first, started + 1, parallelMode)
            && Opening(next) == Some(started) && Finishes(next) == Finishes(trace)
  {
    Extend(plan, trace, Start(started, !parallelMode));
    StagesNext(trace, Start(started, !parallelMode));
  }

  /** The prepare stage at work returns. */
  lemma TracePrepare(plan: Plan, trace: seq<Step>, running: set<nat>, signalAborted: bool, first: nat, started: nat,
      parallelMode: bool, c: nat, preparation: Preparation)
    requires TraceOk(plan, trace, running, signalAborted, first, started, parallelMode) && Opening(trace) == Some(c)
    ensures var next := trace + [Prepare(c, preparation)];
            && TraceOk(plan, next, running, signalAborted, first, started, parallelMode)
            && Opening(next).None? && Finishes(next) == Finishes(trace) && Last(next, Prepare(c, preparation))
  {
    Extend(plan, trace, Prepare(c, preparation));
    StagesNext(trace, Prepare(c, preparation));
  }

  lemma TraceLaunch(plan: Plan, trace: seq<Step>, inFlight: set<nat>, settled: set<nat>, signalAborted: bool,
      first: nat, started: nat, parallelMode: bool, c: nat)
    requires TraceOk(plan, trace, inFlight - settled, signalAborted, first, started, parallelMode)
    requires settled <= inFlight && |inFlight| < plan.max && c !in inFlight && first <= c
    requires Last(trace, Prepare(c, Dispatch))
    requires forall x | x in inFlight :: first <= x
    requires !parallelMode ==> inFlight == {}
    ensures var next := trace + [Launch(c)];
            && TraceOk(plan, next, inFlight + {c} - settled, signalAborted, first, started, parallelMode)
            && SameStages(trace, next)
  {
    var running := inFlight - settled;
    assert inFlight == running + settled;
    assert |running| <= |inFlight|;
    Extend(plan, trace, Launch(c));
    StagesNext(trace, Launch(c));
    assert inFlight + {c} - settled == running + {c};
  }

  /** The step that finalizes an outcome. */
  function Finalizing(slot: Slot): Step {
    if slot.needsPost then Finalize(slot) else Finish(slot)
  }

  /** What came of the call at the commit cursor is finalized. */
  lemma TraceFinish(plan: Plan, trace: seq<Step>, running: set<nat>, signalAborted: bool, first: nat, started: nat,
      parallelMode: bool, slot: Slot)
    requires TraceOk(plan, trace, running, signalAborted, first, started, parallelMode)
    requires slot.exec == Finishes(trace) && Came(trace, slot)
    ensures var next := trace + [Finalizing(slot)];
            && TraceOk(plan, next, running, signalAborted, first, started, parallelMode)
            && Opening(next) == Opening(trace) && Finishes(next) == Finishes(trace) + 1
  {
    Extend(plan, trace, Finalizing(slot));
    StagesNext(trace, Finalizing(slot));
  }

  /** How a group ends. */
  datatype GroupOutcome =
    | GroupDone(consumed: nat, aborted: bool, concluded: bool)
    | GroupFailed(error: Error)

  /** How a step's tool phase ends. */
  datatype RunOutcome =
    | Finished(concluded: bool)
    | Cancelled(concluded: bool)
    | Rejected(error: Error)

  /**
   * The fixed inputs of one step's tool phase, with the log on entry. `mode` is the registry's live
   * classification: whether a call is parallel, asked after what has happened so far.
   */
  datatype Plan = Plan(
    turn: nat, step: nat, calls: seq<Call>, before: seq<Event>, max: nat, mode: (nat, seq<Step>) -> bool)

  /**
   * The variables the scheduler's closures share, the step's log, signal and context acceptor,
   * and the history of the run. Positions are model positions: a group's index `i` is position
   * `pool.first + i`, its calls are `calls[pool.first..end]`, and its sparse arrays are maps.
   */
  datatype State = State(events: seq<Event>, commits: Commits, group: Group, pool: Pool, env: Env)

  datatype Commits = Commits(callSeqs: map<nat, nat>, results: seq<Execution>, accepted: seq<Message>, concluded: bool)

  datatype Group = Group(end: nat, parallelMode: bool, aborted: bool)

  datatype Env = Env(signalAborted: bool, schedulerFailure: Option<Error>, raised: seq<Failure>, handledAt: Option<nat>,
      trace: seq<Step>)

  /** What holds at every await, even while a failure is being thrown. */
  ghost predicate Core(plan: Plan, s: State, thrown: Option<Error>) {
    && s.pool.max == plan.max >= 1
    && s.pool.started <= s.group.end <= |plan.calls|
    && (!s.group.parallelMode ==> s.group.end <= s.pool.first + 1)
    && s.pool.failed == s.env.schedulerFailure.Some?
    && |s.commits.results| <= s.pool.started
    && LogOk(plan, s.events, s.pool.started, s.commits.results)
    && s.pool.Ok()
    && TraceOk(plan, s.env.trace, s.pool.inFlight - s.pool.settled, s.env.signalAborted, s.pool.first, s.pool.started,
        s.group.parallelMode)
    && SlotsOk(s.pool.slots, s.env.trace)
    && FailureOk(s.env, thrown)
  }

  /** The entry is one inbox splice that queues this context for the next step. */
  predicate Queues(e: Event, context: Message) {
    e.InboxSpliced? && e.splice.target == NextStep && e.splice.inserted == [context]
    && e.splice.removedCount == None && !e.splice.canceled
  }

  /** The result is logged, and its contexts are queued right behind it, in order. */
  ghost predicate Queued(events: seq<Event>, from: nat, result: Execution) {
    exists p: nat ::
      && from <= p && p + |result.contexts| < |events| && events[p].ToolResult? && events[p].outcome == Real(result)
      && forall q | p < q <= p + |result.contexts| :: Queues(events[q], result.contexts[q - p - 1])
  }

  ghost predicate AllQueued(plan: Plan, events: seq<Event>, results: seq<Execution>) {
    forall k | 0 <= k < |results| :: Queued(events, |plan.before|, results[k])
  }

  lemma QueuedStays(plan: Plan, events: seq<Event>, next: seq<Event>, results: seq<Execution>)
    requires AllQueued(plan, events, results) && events <= next
    ensures AllQueued(plan, next, results)
  {
    forall k | 0 <= k < |results| ensures Queued(next, |plan.before|, results[k]) {
      assert Queued(events, |plan.before|, results[k]);
    }
  }

  /** What is committed is exactly the answered prefix, with its contexts. */
  ghost predicate Committed(plan: Plan, s: State) {
    && |s.commits.results| == s.pool.committed
    && s.commits.accepted == Contexts(s.commits.results)
    && s.commits.concluded == Concludes(s.commits.results, s.pool.first)
    && CitesOk(s.commits.callSeqs, CallPositions(s.events, |plan.before|), s.pool.committed, s.pool.started)
    && AllQueued(plan, s.events, s.commits.results)
    && s.env.handledAt.None?
  }

  /** The cursors: of the commit, of the finalized outcomes, and of the call being started. */
  ghost predicate Cursor(plan: Plan, s: State) {
    && Committed(plan, s)
    && Finishes(s.env.trace) == s.pool.committed
    && Opening(s.env.trace) == if s.pool.nextToStart < s.pool.started then Some(s.pool.nextToStart) else None
  }

  /** Only the environment has moved. */
  ghost predicate EnvironmentOnly(plan: Plan, s: State, t: State) {
    && t.commits == s.commits && t.group == s.group
    && t.pool == s.pool.(slots := t.pool.slots, settled := t.pool.settled, failed := t.pool.failed)
    && s.events <= t.events
    && CallPositions(t.events, |plan.before|) == CallPositions(s.events, |plan.before|)
    && (AllQueued(plan, s.events, s.commits.results) ==> AllQueued(plan, t.events, s.commits.results))
    && SameReading(s.env.trace, t.env.trace)
    && (s.env.signalAborted ==> t.env.signalAborted)
    && (s.env.schedulerFailure.Some? || s.pool.inFlight == {} ==> t.env.schedulerFailure == s.env.schedulerFailure)
    && t.env.handledAt == s.env.handledAt && s.env.raised <= t.env.raised
    && (forall c | c in s.pool.slots :: c in t.pool.slots)
    && (forall c | c in t.pool.slots :: c in s.pool.slots || c in s.pool.inFlight)
    && s.pool.settled <= t.pool.settled
  }

  // ----- the environment -----

  /** A dispatch settles into its slot. */
  function Fulfilled(s: State, c: nat, slot: Slot): State {
    s.(pool := s.pool.(slots := s.pool.slots[c := slot], settled := s.pool.settled + {c}),
        env := s.env.(trace := s.env.trace + [Settle(c, Some(slot))]))
  }

  /** A dispatch rejects: a failure of the scheduler, recorded unless one is. */
  function Refused(s: State, c: nat, error: Error): State {
    var failure := if s.env.schedulerFailure.None? then Some(error) else s.env.schedulerFailure;
    s.(pool := s.pool.(settled := s.pool.settled + {c}, failed := true),
       env := s.env.(schedulerFailure := failure, raised := s.env.raised + [Dispatched(error)],
           trace := s.env.trace + [Settle(c, None)]))
  }

  lemma FulfilledKeeps(plan: Plan, s: State, thrown: Option<Error>, c: nat, slot: Slot)
    requires Core(plan, s, thrown) && c in s.pool.inFlight - s.pool.settled && slot.exec == c
    ensures Core(plan, Fulfilled(s, c, slot), thrown) && EnvironmentOnly(plan, s, Fulfilled(s, c, slot))
  {
    hide Pool.Ok, TraceOk, LogOk, FailureOk, SlotsOk, SameReading, AllQueued;
    SettleKeeps(s.pool, c, slot);
    TraceSettle(plan, s.env.trace, s.pool.inFlight, s.pool.settled, s.env.signalAborted, s.pool.first, s.pool.started,
        s.group.parallelMode, c, Some(slot));
    SlotsNext(s.pool.slots, s.env.trace, slot);
    SameFailure(s.env, thrown, Fulfilled(s, c, slot).env);
  }

  lemma RefusedKeeps(plan: Plan, s: State, thrown: Option<Error>, c: nat, error: Error)
    requires Core(plan, s, thrown) && c in s.pool.inFlight - s.pool.settled
    ensures Core(plan, Refused(s, c, error), thrown) && EnvironmentOnly(plan, s, Refused(s, c, error))
  {
    hide Pool.Ok, TraceOk, LogOk, FailureOk, SlotsOk, SameReading, AllQueued;
    SettleKeeps(s.pool, c, Slot(c, 0, false));
    TraceSettle(plan, s.env.trace, s.pool.inFlight, s.pool.settled, s.env.signalAborted, s.pool.first, s.pool.started,
        s.group.parallelMode, c, None);
    SlotsGrow(s.pool.slots, s.env.trace, s.env.trace + [Settle(c, None)]);
    DispatchRecorded(s.env, thrown, error);
    var t := Refused(s, c, error);
    SameFailure(t.env.(trace := s.env.trace), thrown, t.env);
  }

  method SettleOne(plan: Plan, s: State, ghost thrown: Option<Error>) returns (t: State)
    requires Core(plan, s, thrown) && s.pool.inFlight - s.pool.settled != {}
    ensures Core(plan, t, thrown) && EnvironmentOnly(plan, s, t)
    ensures t.pool.inFlight - t.pool.settled < s.pool.inFlight - s.pool.settled
  {
    hide Core, EnvironmentOnly;
    var c :| c in s.pool.inFlight - s.pool.settled;
    var fulfilled: bool, raw: nat, post: bool, error: Error := *, *, *, *;
    if fulfilled {
      FulfilledKeeps(plan, s, thrown, c, Slot(c, raw, post));
      t := Fulfilled(s, c, Slot(c, raw, post));
    } else {
      RefusedKeeps(plan, s, thrown, c, error);
      t := Refused(s, c, error);
    }
  }

  /** Nothing but the trace and the signal moved. */
  lemma SameFailure(env: Env, thrown: Option<Error>, next: Env)
    requires FailureOk(env, thrown) && next == env.(trace := next.trace, signalAborted := next.signalAborted)
    ensures FailureOk(next, thrown)
  {
  }

  /**
   * Yield at an await, of a tool's stage or of one of the scheduler's own calls: dispatches may
   * settle, the step may be aborted, others may append. A thrown failure may be on its way.
   */
  method Await(plan: Plan, s: State, ghost thrown: Option<Error>) returns (t: State)
    requires Core(plan, s, thrown)
    ensures Core(plan, t, thrown) && EnvironmentOnly(plan, s, t)
  {
    hide Pool.Ok, TraceOk, LogOk, FailureOk, SlotsOk, AllQueued, Opening, Finishes, Reading;
    t := s;
    var more: bool := *;
    while more && t.pool.inFlight - t.pool.settled != {}
      invariant Core(plan, t, thrown) && EnvironmentOnly(plan, s, t)
      decreases t.pool.inFlight - t.pool.settled
    {
      t := SettleOne(plan, t, thrown);
      more := *;
    }
    var abort: bool, foreign: seq<Event> := *, *;
    if abort && !t.env.signalAborted {
      TraceAbort(plan, t.env.trace, t.pool.inFlight - t.pool.settled, t.pool.first, t.pool.started,
          t.group.parallelMode);
      SlotsGrow(t.pool.slots, t.env.trace, t.env.trace + [Abort]);
      SameFailure(t.env, thrown, t.env.(signalAborted := true, trace := t.env.trace + [Abort]));
      t := t.(env := t.env.(signalAborted := true, trace := t.env.trace + [Abort]));
    }
    if AllForeign(foreign) {
      LogForeign(plan, t.events, foreign, t.pool.started, t.commits.results);
      if AllQueued(plan, t.events, t.commits.results) {
        QueuedStays(plan, t.events, t.events + foreign, t.commits.results);
      }
      t := t.(events := t.events + foreign);
    }
  }

  /** `Promise.allSettled` over the pool: every started dispatch settles. */
  method DrainAll(plan: Plan, s: State) returns (t: State)
    requires Core(plan, s, None)
    ensures Core(plan, t, None) && EnvironmentOnly(plan, s, t)
    ensures Running(t.env.trace) == {}
  {
    hide Pool.Ok, LogOk, FailureOk, SlotsOk, AllQueued, Opening, Finishes, Reading, PoolSafe, Starts;
    t := s;
    while t.pool.inFlight - t.pool.settled != {}
      invariant Core(plan, t, None) && EnvironmentOnly(plan, s, t)
      decreases t.pool.inFlight - t.pool.settled
    {
      t := SettleOne(plan, t, None);
      t := Await(plan, t, None);
    }
  }

  // ----- the scheduler -----

  /** A new failure starts on its way to the handler. */
  method Throw(plan: Plan, s: State) returns (t: State, thrown: Error)
    requires Core(plan, s, None) && s.env.handledAt.None?
    ensures t == s.(env := s.env.(raised := t.env.raised)) && Core(plan, t, Some(thrown))
  {
    hide Pool.Ok, TraceOk, LogOk, FailureOk;
    thrown := *;
    ThrowRaised(s.env, thrown);
    t := s.(env := s.env.(raised := s.env.raised + [Thrown(thrown)]));
  }

  /** Log a committed result, citing the call at the cursor. */
  method AppendToolResult(plan: Plan, s: State, result: Execution) returns (t: State)
    requires Core(plan, s, None) && Committed(plan, s) && s.pool.committed < s.pool.started
      && result.exec == s.pool.committed
    ensures t == s.(events := t.events, commits := s.commits.(results := s.commits.results + [result]))
      && Core(plan, t, None)
    ensures |t.events| == |s.events| + 1 && s.events <= t.events
    ensures t.events[|s.events|].ToolResult? && t.events[|s.events|].outcome == Real(result)
    ensures CallPositions(t.events, |plan.before|) == CallPositions(s.events, |plan.before|)
  {
    hide Pool.Ok, TraceOk, LogOk, FailureOk, SlotsOk, AllQueued;
    LogResult(plan, s.events, s.pool.started, s.commits.results, result);
    var c := s.pool.committed;
    t := s.(events := s.events + [ToolResult(plan.turn, plan.step, plan.calls[c].id, Real(result),
        s.commits.callSeqs[c])],
            commits := s.commits.(results := s.commits.results + [result]));
  }

  /** What every part of a group run leaves alone. */
  ghost predicate SameGroup(s: State, t: State) {
    && t.group == s.group
    && t.pool.first == s.pool.first && t.pool.max == s.pool.max
    && (s.env.signalAborted ==> t.env.signalAborted)
    && t.env.handledAt == s.env.handledAt
    && s.pool.started <= t.pool.started
    && s.commits.results <= t.commits.results
  }

  /**
   * Queue a committed result's contexts for the next step, in order, each as one inbox splice; the
   * inbox may refuse one.
   */
  method AcceptContexts(plan: Plan, s: State, contexts: seq<Message>) returns (t: State, accepted: bool)
    requires Core(plan, s, None)
    ensures t == s.(events := t.events) && Core(plan, t, None) && s.events <= t.events
    ensures CallPositions(t.events, |plan.before|) == CallPositions(s.events, |plan.before|)
    ensures accepted ==> |t.events| == |s.events| + |contexts|
    ensures |t.events| <= |s.events| + |contexts|
    ensures forall k | |s.events| <= k < |t.events| :: Queues(t.events[k], contexts[k - |s.events|])
  {
    hide Pool.Ok, TraceOk, LogOk, FailureOk, SlotsOk;
    t := s;
    for k := 0 to |contexts|
      invariant t == s.(events := t.events) && Core(plan, t, None) && s.events <= t.events
        && |t.events| == |s.events| + k
      invariant CallPositions(t.events, |plan.before|) == CallPositions(s.events, |plan.before|)
      invariant forall i | |s.events| <= i < |t.events| :: Queues(t.events[i], contexts[i - |s.events|])
    {
      var start: nat, refused: bool := *, *;
      if refused { return t, false; }
      var entry := InboxSpliced(Splice(NextStep, start, None, [contexts[k]], false));
      LogForeign(plan, t.events, [entry], t.pool.started, t.commits.results);
      t := t.(events := t.events + [entry]);
    }
    return t, true;
  }

  /** The stage that finalizes what came of the call at the cursor begins. */
  function Finalized(s: State, slot: Slot): State {
    s.(env := s.env.(trace := s.env.trace + [Finalizing(slot)]))
  }

  lemma FinalizedKeeps(plan: Plan, s: State)
    requires Core(plan, s, None) && Cursor(plan, s) && s.pool.nextToStart == s.pool.started
    requires s.pool.committed in s.pool.slots
    ensures s.pool.committed < s.pool.started && s.pool.slots[s.pool.committed].exec == s.pool.committed
    ensures var t := Finalized(s, s.pool.slots[s.pool.committed]);
            && Core(plan, t, None) && Committed(plan, t)
            && Opening(t.env.trace).None? && Finishes(t.env.trace) == s.pool.committed + 1
  {
    var slot := s.pool.slots[s.pool.committed];
    var t := Finalized(s, slot);
    CommitKeeps(s.pool);
    assert Came(s.env.trace, slot);
    hide Pool.Ok, TraceOk, LogOk, FailureOk, CitesOk, SlotsOk, AllQueued, Came;
    TraceFinish(plan, s.env.trace, s.pool.inFlight - s.pool.settled, s.env.signalAborted, s.pool.first, s.pool.started,
        s.group.parallelMode, slot);
    SlotsGrow(s.pool.slots, s.env.trace, t.env.trace);
    SameFailure(s.env, None, t.env);
  }

  /** A committed result and its contexts join what is committed. */
  lemma CommittedNext(plan: Plan, before: seq<Event>, events: seq<Event>, results: seq<Execution>, result: Execution)
    requires |plan.before| <= |before| && AllQueued(plan, before, results)
    requires before <= events && |events| == |before| + 1 + |result.contexts|
    requires events[|before|].ToolResult? && events[|before|].outcome == Real(result)
    requires forall q | |before| < q < |events| :: Queues(events[q], result.contexts[q - |before| - 1])
    ensures AllQueued(plan, events, results + [result])
    ensures Contexts(results + [result]) == Contexts(results) + result.contexts
  {
    QueuedStays(plan, before, events, results);
    hide Queues;
    assert Queued(events, |plan.before|, result);
    assert (results + [result])[..|results|] == results;
  }

  /** The call at the cursor is committed. */
  function Advanced(s: State, result: Execution): State {
    s.(commits := s.commits.(accepted := s.commits.accepted + result.contexts,
                             concluded := s.commits.concluded || result.concludesTurn),
        pool := s.pool.(committed := s.pool.committed + 1))
  }

  lemma AdvancedKeeps(plan: Plan, before: seq<Event>, results: seq<Execution>, s: State, result: Execution)
    requires Core(plan, s, None) && s.pool.nextToStart == s.pool.started && s.pool.committed in s.pool.slots
    requires |results| == s.pool.committed && s.commits.results == results + [result]
    requires s.commits.accepted == Contexts(results) && s.commits.concluded == Concludes(results, s.pool.first)
    requires CitesOk(s.commits.callSeqs, CallPositions(s.events, |plan.before|), s.pool.committed, s.pool.started)
    requires s.env.handledAt.None?
    requires Finishes(s.env.trace) == s.pool.committed + 1 && Opening(s.env.trace).None?
    requires |plan.before| <= |before| && AllQueued(plan, before, results)
    requires before <= s.events && |s.events| == |before| + 1 + |result.contexts|
    requires s.events[|before|].ToolResult? && s.events[|before|].outcome == Real(result)
    requires forall q | |before| < q < |s.events| :: Queues(s.events[q], result.contexts[q - |before| - 1])
    ensures Core(plan, Advanced(s, result), None) && Cursor(plan, Advanced(s, result))
  {
    hide Pool.Ok, TraceOk, LogOk, FailureOk, CitesOk, Concludes, Contexts, SlotsOk, AllQueued, Opening, Finishes,
        Reading, Queues;
    CommittedNext(plan, before, s.events, results, result);
    CommitKeeps(s.pool);
    PoolBounds(s.pool);
    ConcludesNext(results, s.pool.first, result);
    CitesAdvance(s.commits.callSeqs, CallPositions(s.events, |plan.before|), s.pool.committed, s.pool.started);
  }

  lemma LogStarts(plan: Plan, events: seq<Event>, started: nat, results: seq<Execution>)
    requires LogOk(plan, events, started, results)
    ensures plan.before <= events
  {
  }

  /** Finalize and log the settled call at the cursor. Each stage may reject. */
  method CommitOne(plan: Plan, s: State) returns (t: State, thrown: Option<Error>)
    requires Core(plan, s, None) && Cursor(plan, s) && s.pool.nextToStart == s.pool.started
    requires s.pool.committed in s.pool.slots
    ensures Core(plan, t, thrown) && SameGroup(s, t)
    ensures t.pool.inFlight == s.pool.inFlight && t.pool.nextToStart == t.pool.started == s.pool.started
    ensures s.pool.inFlight == {} ==> t.env.schedulerFailure == s.env.schedulerFailure
    ensures thrown.None? ==> Cursor(plan, t) && t.pool.committed == s.pool.committed + 1
    ensures s.env.trace + [Finalizing(s.pool.slots[s.pool.committed])] <= t.env.trace
  {
    hide Pool.Ok, TraceOk, LogOk, FailureOk, CitesOk, Concludes, Contexts, SlotsOk, AllQueued, Opening, Finishes,
        Reading, Queues;
    var slot := s.pool.slots[s.pool.committed];
    FinalizedKeeps(plan, s);
    t := Finalized(s, slot);
    if slot.needsPost { t := Await(plan, t, None); }
    var rejected: bool, content: nat, concludes: bool, contexts: seq<Message> := *, *, *, *;
    var result := Execution(slot.exec, content, concludes, contexts);
    if rejected {
      var e;
      t, e := Throw(plan, t);
      return t, Some(e);
    }
    ghost var before := t.events;
    LogStarts(plan, t.events, t.pool.started, t.commits.results);
    t := AppendToolResult(plan, t, result);
    var accepted;
    t, accepted := AcceptContexts(plan, t, result.contexts);
    if !accepted {
      var e;
      t, e := Throw(plan, t);
      return t, Some(e);
    }
    AdvancedKeeps(plan, before, s.commits.results, t, result);
    t := Advanced(t, result);
    thrown := None;
  }

  /** Commit every settled call at the cursor, in model order. */
  method CommitReady(plan: Plan, s: State) returns (t: State, thrown: Option<Error>)
    requires Core(plan, s, None) && Cursor(plan, s) && s.pool.nextToStart == s.pool.started
    ensures Core(plan, t, thrown) && SameGroup(s, t)
    ensures t.pool.inFlight == s.pool.inFlight && t.pool.nextToStart == t.pool.started == s.pool.started
    ensures s.pool.inFlight == {} ==> t.env.schedulerFailure == s.env.schedulerFailure
    ensures thrown.None? ==> Cursor(plan, t) && t.pool.committed !in t.pool.slots
  {
    hide Pool.Ok, TraceOk, LogOk, FailureOk, CitesOk, SlotsOk, AllQueued, Opening, Finishes, Reading;
    t := s;
    while t.pool.committed < t.group.end
      invariant Core(plan, t, None) && Cursor(plan, t) && SameGroup(s, t)
      invariant t.pool.inFlight == s.pool.inFlight && t.pool.nextToStart == t.pool.started == s.pool.started
      invariant s.pool.inFlight == {} ==> t.env.schedulerFailure == s.env.schedulerFailure
      decreases t.group.end - t.pool.committed
    {
      if t.pool.committed !in t.pool.slots { return t, None; }
      t, thrown := CommitOne(plan, t);
      if thrown.Some? { return; }
    }
    NoSlotPast(t.pool);
    return t, None;
  }

  /** The next call's entry is logged, and its position kept. */
  function Begun(plan: Plan, s: State): State
    requires s.pool.nextToStart < |plan.calls|
  {
    var index := s.pool.nextToStart;
    s.(events := s.events + [ToolCall(plan.turn, plan.step, plan.calls[index])],
       commits := s.commits.(callSeqs := s.commits.callSeqs[index := |s.events|]),
       pool := s.pool.(started := index + 1),
       env := s.env.(trace := s.env.trace + [Start(index, !s.group.parallelMode)]))
  }

  lemma BegunKeeps(plan: Plan, s: State)
    requires Core(plan, s, None) && Cursor(plan, s)
    requires s.pool.nextToStart == s.pool.started < s.group.end && !s.env.signalAborted
    requires Last(s.env.trace, Classify(s.pool.started, s.group.parallelMode))
    ensures Core(plan, Begun(plan, s), None) && Cursor(plan, Begun(plan, s))
    ensures s.pool.started !in s.pool.slots && s.pool.started !in s.pool.inFlight && s.pool.first <= s.pool.started
    ensures s.pool.started == s.pool.first ==> s.pool.inFlight == {}
  {
    hide Pool.Ok, TraceOk, LogOk, FailureOk, CitesOk, Paired, SlotsOk, Opening, Finishes, Reading, Last, AllQueued;
    StartKeeps(s.pool);
    LogCall(plan, s.events, s.pool.started, s.commits.results);
    TraceStart(plan, s.env.trace, s.pool.inFlight - s.pool.settled, s.pool.first, s.pool.started,
        s.group.parallelMode);
    CitesStart(s.commits.callSeqs, CallPositions(s.events, |plan.before|), s.pool.committed, s.pool.started,
        |s.events|);
    SlotsGrow(s.pool.slots, s.env.trace, Begun(plan, s).env.trace);
    QueuedStays(plan, s.events, Begun(plan, s).events, s.commits.results);
    SameFailure(s.env, None, Begun(plan, s).env);
  }

  /** Log the next call, as its live mode was just read, and await its prepare stage. */
  method BeginCall(plan: Plan, s: State) returns (t: State)
    requires Core(plan, s, None) && Cursor(plan, s)
    requires s.pool.nextToStart == s.pool.started < s.group.end && !s.env.signalAborted
    requires Last(s.env.trace, Classify(s.pool.started, s.group.parallelMode))
    ensures Core(plan, t, None) && Cursor(plan, t) && SameGroup(s, t)
    ensures t.pool.started == s.pool.started + 1 && t.pool.nextToStart == s.pool.started
      && t.pool.inFlight == s.pool.inFlight
    ensures t.pool.nextToStart !in t.pool.slots && t.pool.nextToStart !in t.pool.inFlight
    ensures t.pool.nextToStart == t.pool.first ==> t.pool.inFlight == {}
    ensures s.events + [ToolCall(plan.turn, plan.step, plan.calls[s.pool.started])] <= t.events
    ensures s.env.trace + [Start(s.pool.started, !s.group.parallelMode)] <= t.env.trace
  {
    hide Pool.Ok, TraceOk, LogOk, FailureOk, CitesOk, Paired, SlotsOk, Opening, Finishes, Reading, Last, AllQueued;
    BegunKeeps(plan, s);
    t := Begun(plan, s);
    t := Await(plan, t, None);
  }

  /** The prepare stage of the call being started has returned. */
  ghost predicate Prepared(plan: Plan, s: State, preparation: Preparation) {
    && Core(plan, s, None) && Committed(plan, s)
    && s.pool.started == s.pool.nextToStart + 1
    && s.pool.nextToStart !in s.pool.slots && s.pool.nextToStart !in s.pool.inFlight
    && (s.pool.nextToStart == s.pool.first ==> s.pool.inFlight == {})
    && Finishes(s.env.trace) == s.pool.committed && Opening(s.env.trace).None?
    && Last(s.env.trace, Prepare(s.pool.nextToStart, preparation))
  }

  function Returned(s: State, preparation: Preparation): State {
    s.(env := s.env.(trace := s.env.trace + [Prepare(s.pool.nextToStart, preparation)]))
  }

  lemma ReturnedKeeps(plan: Plan, s: State, preparation: Preparation)
    requires Core(plan, s, None) && Cursor(plan, s) && s.pool.started == s.pool.nextToStart + 1
    requires s.pool.nextToStart !in s.pool.slots && s.pool.nextToStart !in s.pool.inFlight
    requires s.pool.nextToStart == s.pool.first ==> s.pool.inFlight == {}
    ensures Prepared(plan, Returned(s, preparation), preparation)
  {
    hide Pool.Ok, TraceOk, LogOk, FailureOk, CitesOk, SlotsOk, AllQueued, Opening, Finishes, Reading, Last;
    TracePrepare(plan, s.env.trace, s.pool.inFlight - s.pool.settled, s.env.signalAborted, s.pool.first,
        s.pool.started, s.group.parallelMode, s.pool.nextToStart, preparation);
    SlotsGrow(s.pool.slots, s.env.trace, Returned(s, preparation).env.trace);
    SameFailure(s.env, None, Returned(s, preparation).env);
  }

  /** The call being started is dispatched. */
  function Launched(s: State): State {
    var index := s.pool.nextToStart;
    s.(pool := s.pool.(inFlight := s.pool.inFlight + {index}, nextToStart := index + 1),
        env := s.env.(trace := s.env.trace + [Launch(index)]))
  }

  lemma LaunchedKeeps(plan: Plan, s: State)
    requires Prepared(plan, s, Dispatch) && |s.pool.inFlight| < s.pool.max
    ensures Core(plan, Launched(s), None) && Cursor(plan, Launched(s))
  {
    hide Pool.Ok, TraceOk, LogOk, FailureOk, CitesOk, Paired, SlotsOk, AllQueued, Opening, Finishes, Reading, Last;
    LaunchKeeps(s.pool);
    TraceLaunch(plan, s.env.trace, s.pool.inFlight, s.pool.settled, s.env.signalAborted, s.pool.first, s.pool.started,
        s.group.parallelMode, s.pool.nextToStart);
    SlotsGrow(s.pool.slots, s.env.trace, Launched(s).env.trace);
    SameFailure(s.env, None, Launched(s).env);
  }

  /** The call being started has its outcome already, which is parked in its slot. */
  function Parked(s: State, slot: Slot): State {
    var index := s.pool.nextToStart;
    s.(pool := s.pool.(slots := s.pool.slots[index := slot], nextToStart := index + 1))
  }

  /** The result that a prepare stage returns in place of a dispatch. */
  predicate ResultOf(preparation: Preparation, slot: Slot) {
    match preparation
    case Dispatch => false
    case PostResult(outcome) => slot.outcome == outcome && slot.needsPost
    case FinalResult(outcome) => slot.outcome == outcome && !slot.needsPost
  }

  lemma ParkedSlots(slots: map<nat, Slot>, trace: seq<Step>, preparation: Preparation, slot: Slot)
    requires SlotsOk(slots, trace) && Last(trace, Prepare(slot.exec, preparation)) && ResultOf(preparation, slot)
    ensures SlotsOk(slots[slot.exec := slot], trace)
  {
    assert Prepare(slot.exec, preparation) in trace;
    assert Came(trace, slot);
  }

  lemma ParkedKeeps(plan: Plan, s: State, preparation: Preparation, slot: Slot)
    requires Prepared(plan, s, preparation) && slot.exec == s.pool.nextToStart && ResultOf(preparation, slot)
    ensures Core(plan, Parked(s, slot), None) && Cursor(plan, Parked(s, slot))
  {
    hide Pool.Ok, TraceOk, LogOk, FailureOk, CitesOk, Paired, SlotsOk, AllQueued, Opening, Finishes, Last, ResultOf;
    ParkedSlots(s.pool.slots, s.env.trace, preparation, slot);
    ParkKeeps(s.pool, slot);
  }

  /** Start the next call, then launch its dispatch or park its early result. */
  method StartCall(plan: Plan, s: State) returns (t: State, thrown: Option<Error>)
    requires Core(plan, s, None) && Cursor(plan, s)
    requires s.pool.nextToStart == s.pool.started < s.group.end && |s.pool.inFlight| < s.pool.max
    requires !s.env.signalAborted && s.env.schedulerFailure.None?
    requires Last(s.env.trace, Classify(s.pool.started, s.group.parallelMode))
    ensures Core(plan, t, thrown) && SameGroup(s, t) && t.pool.started == s.pool.started + 1
    ensures thrown.None? ==> Cursor(plan, t) && t.pool.nextToStart == t.pool.started && t.env.schedulerFailure.None?
    ensures s.events + [ToolCall(plan.turn, plan.step, plan.calls[s.pool.started])] <= t.events
    ensures s.env.trace + [Start(s.pool.started, !s.group.parallelMode)] <= t.env.trace
  {
    hide Pool.Ok, TraceOk, LogOk, FailureOk, CitesOk, Paired, SlotsOk, AllQueued, Opening, Finishes, Reading, Last,
        Core;
    var index := s.pool.nextToStart;
    t := BeginCall(plan, s);
    var rejected: bool, prepared: Preparation := *, *;
    if rejected {
      var e;
      t, e := Throw(plan, t);
      return t, Some(e);
    }
    ReturnedKeeps(plan, t, prepared);
    t := Returned(t, prepared);
    thrown := Check(plan, t);
    if thrown.Some? { return; }
    match prepared {
      case Dispatch =>
        LaunchedKeeps(plan, t);
        t := Launched(t);
      case PostResult(outcome) =>
        ParkedKeeps(plan, t, prepared, Slot(index, outcome, true));
        t := Parked(t, Slot(index, outcome, true));
      case FinalResult(outcome) =>
        ParkedKeeps(plan, t, prepared, Slot(index, outcome, false));
        t := Parked(t, Slot(index, outcome, false));
    }
    thrown := None;
  }

  /**
   * What holds when one of the scheduler's own calls has returned and its caller goes on. Meanwhile
   * a dispatch may have settled, into the cursor's slot or into a failure, but then it is still in
   * flight; and the signal may have fired.
   */
  ghost predicate Settled(plan: Plan, s: State) {
    && Core(plan, s, None) && Cursor(plan, s)
    && s.pool.nextToStart == s.pool.started
    && (s.env.schedulerFailure.Some? ==> s.pool.inFlight != {})
    && (s.pool.committed in s.pool.slots ==> s.pool.committed in s.pool.inFlight)
    && (s.group.aborted ==> s.env.signalAborted)
  }

  /** What holds right after the failure and the signal were checked. */
  ghost predicate Checked(plan: Plan, s: State) {
    Settled(plan, s) && s.env.schedulerFailure.None? && s.group.aborted == s.env.signalAborted
  }

  /** Await one of the scheduler's own calls that left the cursor at an empty slot. */
  method AwaitCall(plan: Plan, s: State) returns (t: State)
    requires Core(plan, s, None) && Cursor(plan, s) && s.pool.nextToStart == s.pool.started
    requires s.env.schedulerFailure.Some? ==> s.pool.inFlight != {}
    requires s.pool.committed in s.pool.slots ==> s.pool.committed in s.pool.inFlight
    requires s.group.aborted ==> s.env.signalAborted
    ensures Settled(plan, t) && SameGroup(s, t)
    ensures t.pool.started == s.pool.started && t.pool.inFlight == s.pool.inFlight
    ensures Reading(t.env.trace) == Reading(s.env.trace)
  {
    hide Pool.Ok, TraceOk, LogOk, FailureOk, CitesOk, Contexts, Concludes, SlotsOk, AllQueued, Opening, Finishes,
        Reading;
    t := Await(plan, s, None);
  }

  /** `throwSchedulerFailure` after an own call: the recorded failure, if there is one. */
  method Check(plan: Plan, s: State) returns (thrown: Option<Error>)
    requires Core(plan, s, None) && s.env.handledAt.None?
    ensures thrown == s.env.schedulerFailure && Core(plan, s, thrown)
  {
    hide Pool.Ok, TraceOk, LogOk, FailureOk;
    if s.env.schedulerFailure.Some? { FailureThrown(s.env); }
    return s.env.schedulerFailure;
  }

  /** The live mode of a call is read. */
  function Read(plan: Plan, s: State, c: nat): State {
    s.(env := s.env.(trace := s.env.trace + [Classify(c, plan.mode(c, s.env.trace))]))
  }

  lemma ReadKeeps(plan: Plan, s: State, c: nat)
    requires Core(plan, s, None)
    ensures Core(plan, Read(plan, s, c), None) && SameStages(s.env.trace, Read(plan, s, c).env.trace)
    ensures Last(Read(plan, s, c).env.trace, Classify(c, plan.mode(c, s.env.trace)))
    ensures Reading(Read(plan, s, c).env.trace) == Some(Classify(c, plan.mode(c, s.env.trace)))
  {
    hide Pool.Ok, TraceOk, LogOk, FailureOk, SlotsOk, SameStages;
    TraceClassify(plan, s.env.trace, s.pool.inFlight - s.pool.settled, s.env.signalAborted, s.pool.first,
        s.pool.started, s.group.parallelMode, c);
    SlotsGrow(s.pool.slots, s.env.trace, Read(plan, s, c).env.trace);
    SameFailure(s.env, None, Read(plan, s, c).env);
  }

  /** Start the next call, as its live mode was just read, and commit what is ready, awaiting both. */
  method StartNext(plan: Plan, s: State) returns (t: State, thrown: Option<Error>)
    requires Checked(plan, s) && !s.group.aborted
    requires s.pool.nextToStart < s.group.end && |s.pool.inFlight| < s.pool.max
    requires Last(s.env.trace, Classify(s.pool.started, s.group.parallelMode))
    ensures After(plan, s, t, thrown) && t.pool.started == s.pool.started + 1
    ensures thrown.None? ==> Checked(plan, t)
  {
    hide Pool.Ok, TraceOk, LogOk, FailureOk, CitesOk, Paired, Contexts, Concludes, SlotsOk, AllQueued, Opening,
        Finishes, Reading, Last;
    t, thrown := StartCall(plan, s);
    t := Await(plan, t, thrown);
    if thrown.Some? { return; }
    thrown := Check(plan, t);
    if thrown.Some? { return; }
    t, thrown := CommitReady(plan, t);
    if thrown.Some? {
      t := Await(plan, t, thrown);
      return;
    }
    t := AwaitCall(plan, t);
    thrown := Check(plan, t);
    if thrown.Some? { return; }
    if t.env.signalAborted { t := t.(group := t.group.(aborted := true)); }
  }

  /** The group's first call is about to start, if the signal has not fired, as its live mode was just read. */
  ghost predicate FirstRead(s: State) {
    s.pool.nextToStart == s.pool.first && !s.group.aborted ==>
      Last(s.env.trace, Classify(s.pool.first, s.group.parallelMode))
  }

  /** Why the pool is filled no further: an abort, no call left, no room, or a next call that is no longer parallel. */
  ghost predicate Filled(s: State) {
    || s.group.aborted || s.pool.nextToStart == s.group.end || |s.pool.inFlight| >= s.pool.max
    || (s.pool.first < s.pool.nextToStart && Reading(s.env.trace) == Some(Classify(s.pool.nextToStart, false)))
  }

  /** Start calls while the pool has room and they are parallel, committing in order after each. */
  method FillPool(plan: Plan, s: State) returns (t: State, thrown: Option<Error>)
    requires Checked(plan, s) && FirstRead(s)
    ensures After(plan, s, t, thrown)
    ensures thrown.None? ==> Checked(plan, t) && Filled(t)
    ensures t.pool.started == s.pool.started ==> thrown.None? && t.pool.inFlight == s.pool.inFlight
    ensures thrown.None? && !t.group.aborted && t.pool.inFlight == {} && t.pool.first < t.group.end ==>
          t.pool.first < t.pool.started
  {
    hide Pool.Ok, TraceOk, LogOk, FailureOk, CitesOk, Paired, Contexts, Concludes, SlotsOk, AllQueued, Opening,
        Finishes, Reading, Last;
    t, thrown := s, None;
    while !t.group.aborted && t.pool.nextToStart < t.group.end && |t.pool.inFlight| < t.pool.max
      invariant Checked(plan, t) && FirstRead(t) && thrown.None?
      invariant SameGroup(s.(group := t.group), t) && t.group == s.group.(aborted := t.group.aborted)
      invariant t.pool.started == s.pool.started ==> t.pool.inFlight == s.pool.inFlight
      decreases t.group.end - t.pool.nextToStart
    {
      PoolBounds(t.pool);
      if t.pool.nextToStart > t.pool.first && t.group.parallelMode {
        // re-read the live mode: a registry change turns the next call into a barrier
        var parallel := plan.mode(t.pool.nextToStart, t.env.trace);
        ReadKeeps(plan, t, t.pool.nextToStart);
        t := Read(plan, t, t.pool.nextToStart);
        if !parallel { return t, None; }
      }
      t, thrown := StartNext(plan, t);
      if thrown.Some? { return; }
    }
    return t, None;
  }

  /** `Promise.race` over the pool: wait until some dispatch has settled, and take one settled index. */
  method Race(plan: Plan, s: State) returns (t: State)
    requires Settled(plan, s) && s.pool.inFlight != {}
    ensures Core(plan, t, None) && Cursor(plan, t) && SameGroup(s, t)
    ensures t.pool.nextToStart == t.pool.started == s.pool.started && t.pool.inFlight < s.pool.inFlight
    ensures |t.pool.inFlight| == |s.pool.inFlight| - 1
  {
    hide Pool.Ok, TraceOk, LogOk, FailureOk, CitesOk, SlotsOk, AllQueued, Opening, Finishes, Reading;
    t := s;
    if t.pool.settled == {} { t := SettleOne(plan, t, None); }
    t := Await(plan, t, None);
    PoolBounds(t.pool);
    var c :| c in t.pool.settled;
    RaceKeeps(t.pool, c);
    t := t.(pool := t.pool.(inFlight := t.pool.inFlight - {c}, settled := t.pool.settled - {c}));
  }

  /** The ways a part of a group run may leave `s`. */
  ghost predicate After(plan: Plan, s: State, t: State, thrown: Option<Error>) {
    && Core(plan, t, thrown)
    && t.group == s.group.(aborted := t.group.aborted)
    && SameGroup(s.(group := t.group), t)
    && (thrown.None? ==> Settled(plan, t))
  }

  /** One round of the drain loop: race, check for a failure, commit, and look for an abort. */
  method Round(plan: Plan, s: State) returns (t: State, thrown: Option<Error>)
    requires Settled(plan, s) && s.pool.inFlight != {}
    ensures After(plan, s, t, thrown)
    ensures thrown.None? ==> Checked(plan, t)
    ensures t.pool.started == s.pool.started && t.pool.inFlight < s.pool.inFlight
    ensures |t.pool.inFlight| == |s.pool.inFlight| - 1
  {
    hide Pool.Ok, TraceOk, LogOk, FailureOk, CitesOk, Paired, Contexts, Concludes, SlotsOk, AllQueued, Opening,
        Finishes, Reading;
    t := Race(plan, s);
    thrown := Check(plan, t);
    if thrown.Some? { return; }
    t, thrown := CommitReady(plan, t);
    if thrown.Some? {
      t := Await(plan, t, thrown);
      return;
    }
    t := AwaitCall(plan, t);
    thrown := Check(plan, t);
    if thrown.Some? { return; }
    if t.env.signalAborted { t := t.(group := t.group.(aborted := true)); }
  }

  /** Fill the pool and await it. */
  method Refill(plan: Plan, s: State) returns (t: State, thrown: Option<Error>)
    requires Checked(plan, s) && FirstRead(s)
    ensures After(plan, s, t, thrown)
    ensures thrown.None? ==> Filled(t)
    ensures t.pool.started == s.pool.started ==> thrown.None? && t.pool.inFlight == s.pool.inFlight
    ensures thrown.None? && !t.group.aborted && t.pool.inFlight == {} && t.pool.first < t.group.end ==>
          t.pool.first < t.pool.started
  {
    hide Pool.Ok, TraceOk, LogOk, FailureOk, CitesOk, Contexts, Concludes, SlotsOk, AllQueued, Opening, Finishes,
        Reading;
    t, thrown := FillPool(plan, s);
    if thrown.Some? {
      t := Await(plan, t, thrown);
    } else {
      t := AwaitCall(plan, t);
    }
  }

  /** The guarded part of a group run: fill, then race, commit and refill until the pool is empty. */
  method Drive(plan: Plan, s: State) returns (t: State, thrown: Option<Error>)
    requires Checked(plan, s) && FirstRead(s) && s.pool.inFlight == {}
    ensures After(plan, s, t, thrown)
    ensures thrown.None? ==> t.pool.inFlight == {}
    ensures thrown.None? && !t.group.aborted && t.pool.first < t.group.end ==> t.pool.first < t.pool.started
    ensures thrown.None? ==> Filled(t)
  {
    hide Core, Cursor, Filled;
    t, thrown := Refill(plan, s);
    if thrown.Some? { return; }
    while t.pool.inFlight != {}
      invariant thrown.None? && After(plan, s, t, None) && Filled(t)
      invariant !t.group.aborted && t.pool.inFlight == {} && t.pool.first < t.group.end ==>
            t.pool.first < t.pool.started
      decreases t.group.end - t.pool.started, t.pool.inFlight
    {
      BoundedStarts(plan, t);
      SomeStarted(plan, t);
      t, thrown := Round(plan, t);
      if thrown.Some? { return; }
      t, thrown := Refill(plan, t);
      if thrown.Some? { return; }
      BoundedStarts(plan, t);
    }
  }

  lemma BoundedStarts(plan: Plan, s: State)
    requires Settled(plan, s)
    ensures s.pool.started <= s.group.end
  {
  }

  lemma SomeStarted(plan: Plan, s: State)
    requires Settled(plan, s) && s.pool.inFlight != {}
    ensures s.pool.first < s.pool.nextToStart
  {
    hide TraceOk, LogOk, FailureOk, SlotsOk, AllQueued;
    var c :| c in s.pool.inFlight;
  }

  /** Log an ordered call and synthetic result for every call from `from` to `to`. */
  method AppendSkippedToolCalls(plan: Plan, events: seq<Event>, from: nat, to: nat, results: seq<Execution>)
      returns (log: seq<Event>)
    requires |results| <= from <= to <= |plan.calls| && plan.before <= events
    requires Paired(events, |plan.before|, plan.turn, plan.step, plan.calls, from,
        Reals(results) + Skips(from - |results|))
    ensures plan.before <= events <= log
    ensures Paired(log, |plan.before|, plan.turn, plan.step, plan.calls, to, Reals(results) + Skips(to - |results|))
  {
    hide Paired;
    log := events;
    for n := from to to
      invariant plan.before <= events <= log
      invariant Paired(log, |plan.before|, plan.turn, plan.step, plan.calls, n, Reals(results) + Skips(n - |results|))
    {
      var callSeq := |log|;
      SkippedPair(plan, log, n, results);
      log := log + [ToolCall(plan.turn, plan.step, plan.calls[n])];
      log := log + [ToolResult(plan.turn, plan.step, plan.calls[n].id, Skipped, callSeq)];
    }
  }

  lemma SkippedPair(plan: Plan, log: seq<Event>, n: nat, results: seq<Execution>)
    requires plan.before <= log && |results| <= n < |plan.calls|
    requires Paired(log, |plan.before|, plan.turn, plan.step, plan.calls, n, Reals(results) + Skips(n - |results|))
    ensures var next := log + [ToolCall(plan.turn, plan.step, plan.calls[n])]
        + [ToolResult(plan.turn, plan.step, plan.calls[n].id, Skipped, |log|)];
            && plan.before <= next
            && Paired(next, |plan.before|, plan.turn, plan.step, plan.calls, n + 1, Reals(results)
                + Skips(n + 1 - |results|))
  {
    hide Paired, CallPositions;
    var outcomes := Reals(results) + Skips(n - |results|);
    var base, called := |plan.before|, log + [ToolCall(plan.turn, plan.step, plan.calls[n])];
    PairedCall(log, base, plan.turn, plan.step, plan.calls, n, outcomes);
    PairedSize(log, base, plan.turn, plan.step, plan.calls, n, outcomes);
    PairedResult(called, base, plan.turn, plan.step, plan.calls, n + 1, outcomes, Skipped);
    assert outcomes + [Skipped] == Reals(results) + Skips(n + 1 - |results|);
  }

  /** Between groups: everything started is committed and nothing is in flight. */
  ghost predicate Between(plan: Plan, s: State) {
    && Core(plan, s, None)
    && s.commits.accepted == Contexts(s.commits.results)
    && AllQueued(plan, s.events, s.commits.results)
    && |s.commits.results| == s.pool.committed == s.pool.nextToStart == s.pool.started
    && Finishes(s.env.trace) == s.pool.committed && Opening(s.env.trace).None?
    && s.pool.inFlight == {}
    && s.env.schedulerFailure.None? && s.env.handledAt.None?
  }

  /** What a rejected run leaves: an answered prefix of a started prefix, every dispatch settled, the first failure. */
  ghost predicate RejectedState(plan: Plan, s: State, error: Error) {
    && |s.commits.results| <= s.pool.started <= |plan.calls|
    && LogOk(plan, s.events, s.pool.started, s.commits.results)
    && PoolSafe(plan, s.env.trace) && Running(s.env.trace) == {} && Starts(s.env.trace) == s.pool.started
    && s.env.handledAt.Some? && s.env.handledAt.value <= |s.env.raised|
    && Recorded(s.env.raised[..s.env.handledAt.value]) == Some(error)
  }

  /**
   * What a cancelled run leaves: real results for what had started, and a synthetic one for each
   * call from there to `to`.
   */
  ghost predicate CancelledState(plan: Plan, s: State, to: nat) {
    && |s.commits.results| <= to <= |plan.calls|
    && plan.before <= s.events
    && Paired(s.events, |plan.before|, plan.turn, plan.step, plan.calls, to, Reals(s.commits.results)
        + Skips(to - |s.commits.results|))
    && OwnResults(s.commits.results)
    && s.commits.accepted == Contexts(s.commits.results)
    && AllQueued(plan, s.events, s.commits.results)
    && s.env.signalAborted
    && PoolSafe(plan, s.env.trace) && Running(s.env.trace) == {}
    && Starts(s.env.trace) == Finishes(s.env.trace) == |s.commits.results|
  }

  /** A fresh group over `calls[s.pool.started..end]`. */
  function Opened(s: State, end: nat, parallelMode: bool): State {
    var n := s.pool.started;
    State(s.events, Commits(map[], s.commits.results, s.commits.accepted, false),
        Group(end, parallelMode, s.env.signalAborted),
          Pool(map[], {}, {}, false, n, n, n, n, s.pool.max), s.env)
  }

  lemma OpenGroup(plan: Plan, s: State, end: nat, parallelMode: bool)
    requires Between(plan, s) && s.pool.started < end <= |plan.calls|
    requires !parallelMode ==> end == s.pool.started + 1
    ensures Checked(plan, Opened(s, end, parallelMode))
  {
    hide PoolSafe, AllQueued;
  }

  /** A group that ran to its end without a failure has committed everything it started. */
  lemma QuietAtEnd(plan: Plan, s: State)
    requires Settled(plan, s) && s.pool.inFlight == {}
    ensures s.env.schedulerFailure.None? && s.pool.committed !in s.pool.slots
  {
  }

  lemma Quiesced(plan: Plan, s: State)
    requires Settled(plan, s) && s.pool.inFlight == {}
    ensures Between(plan, s) && s.pool.committed == s.pool.started
    ensures s.commits.concluded == Concludes(s.commits.results, s.pool.first)
    ensures plan.before <= s.events
    ensures Paired(s.events, |plan.before|, plan.turn, plan.step, plan.calls, s.pool.started,
        Reals(s.commits.results) + Skips(0))
    ensures OwnResults(s.commits.results)
    ensures PoolSafe(plan, s.env.trace) && Running(s.env.trace) == {}
    ensures Starts(s.env.trace) == Finishes(s.env.trace) == |s.commits.results|
  {
  }

  /**
   * The group's failure handler: record the failure unless one is recorded, let every started
   * dispatch settle, rethrow the recorded one.
   */
  method Reject(plan: Plan, s: State, thrown: Error) returns (t: State, error: Error)
    requires Core(plan, s, Some(thrown)) && s.env.handledAt.None?
    ensures t.commits == s.commits && RejectedState(plan, t, error)
    ensures t.env.handledAt == Some(|s.env.raised|) && s.env.raised <= t.env.raised
  {
    hide Pool.Ok, LogOk, FailureOk, PoolSafe, SlotsOk, AllQueued, Starts, Opening, Finishes, Reading, Running,
        Exclusive;
    PoolBounds(s.pool);
    CatchKeeps(s.env, thrown);
    t := s.(pool := s.pool.(failed := true), env := Caught(s.env, thrown));
    t := DrainAll(plan, t);
    HandledFailure(t.env);
    error := t.env.schedulerFailure.value;
  }

  lemma HandledFailure(env: Env)
    requires FailureOk(env, None) && env.handledAt.Some?
    ensures env.handledAt.value <= |env.raised| && env.schedulerFailure.Some?
    ensures Recorded(env.raised[..env.handledAt.value]) == env.schedulerFailure
  {
  }

  /**
   * Where a rejection does not carry the first failure: from every state with a dispatch in flight in
   * which a failure is thrown, that dispatch may reject while the failure is on its way to the
   * handler, and then the rejected dispatch is reported instead.
   */
  lemma ThrownFailureMasked(plan: Plan, s: State, c: nat, thrown: Error, rejected: Error) returns (t: State)
    requires Core(plan, s, None) && s.env.handledAt.None? && s.env.raised == [] && c in s.pool.inFlight - s.pool.settled
    ensures var pending := s.(env := s.env.(raised := [Thrown(thrown)]));
            Core(plan, pending, Some(thrown)) && Core(plan, t, Some(thrown)) && EnvironmentOnly(plan, pending, t)
    ensures t.env.handledAt.None? && t.env.raised == [Thrown(thrown), Dispatched(rejected)]
    ensures Caught(t.env, thrown).schedulerFailure == Some(rejected) && RecordedAt(t.env.raised) == 1
  {
    hide Pool.Ok, TraceOk, LogOk, SlotsOk, AllQueued, SameReading;
    assert [] + [Thrown(thrown)] == [Thrown(thrown)];
    ThrowRaised(s.env, thrown);
    NothingRaised(s.env);
    var pending := s.(env := s.env.(raised := [Thrown(thrown)]));
    RefusedKeeps(plan, pending, Some(thrown), c, rejected);
    t := Refused(pending, c, rejected);
    assert [Thrown(thrown)] + [Dispatched(rejected)] == [Thrown(thrown), Dispatched(rejected)];
    assert t.env.raised[1].Dispatched?;
  }

  lemma NothingRaised(env: Env)
    requires FailureOk(env, None) && env.handledAt.None? && env.raised == []
    ensures env.schedulerFailure.None?
  {
  }

  /** The next call of a pool with room is read as parallel, started and dispatched. */
  function Dispatches(plan: Plan, s: State): State
    requires s.pool.nextToStart < |plan.calls|
  {
    Launched(Returned(Begun(plan, Read(plan, s, s.pool.nextToStart)), Dispatch))
  }

  /** The registry always answers that the call is parallel. */
  ghost predicate AlwaysParallel(plan: Plan, c: nat) {
    forall t :: plan.mode(c, t)
  }

  lemma DispatchesKeeps(plan: Plan, s: State)
    requires Core(plan, s, None) && Cursor(plan, s) && !s.env.signalAborted
    requires s.pool.nextToStart == s.pool.started < s.group.end && |s.pool.inFlight| < s.pool.max
    requires s.group.parallelMode && AlwaysParallel(plan, s.pool.started)
    ensures s.pool.started < |plan.calls|
    ensures Core(plan, Dispatches(plan, s), None) && Cursor(plan, Dispatches(plan, s))
  {
    hide Pool.Ok, TraceOk, LogOk, FailureOk, CitesOk, SlotsOk, AllQueued, Opening, Finishes, Reading, Last;
    ReadKeeps(plan, s, s.pool.started);
    var read := Read(plan, s, s.pool.started);
    BegunKeeps(plan, read);
    ReturnedKeeps(plan, Begun(plan, read), Dispatch);
    LaunchedKeeps(plan, Returned(Begun(plan, read), Dispatch));
  }

  /**
   * Such a state is reached by two parallel calls: the first has settled and is about to be
   * finalized, which may throw, and the second is in flight.
   */
  lemma TwoInFlight(plan: Plan, raw: nat) returns (s: State)
    requires |plan.calls| >= 2 && plan.max >= 2 && AlwaysParallel(plan, 0) && AlwaysParallel(plan, 1)
    ensures Core(plan, s, None) && Cursor(plan, s) && s.env.handledAt.None? && s.env.raised == []
    ensures s.pool.nextToStart == s.pool.started == 2 && s.pool.committed == 0
    ensures 0 in s.pool.slots && s.pool.slots[0].needsPost && 1 in s.pool.inFlight - s.pool.settled
  {
    hide Pool.Ok, TraceOk, LogOk, FailureOk, CitesOk, SlotsOk, AllQueued, Opening, Finishes, Reading, AlwaysParallel;
    InitialBetween(plan, plan.before, false);
    var none := Opened(Initial(plan, plan.before, false), |plan.calls|, true);
    OpenGroup(plan, Initial(plan, plan.before, false), |plan.calls|, true);
    DispatchesKeeps(plan, none);
    var one := Dispatches(plan, none);
    DispatchesKeeps(plan, one);
    var two := Dispatches(plan, one);
    FulfilledKeeps(plan, two, None, 0, Slot(0, raw, true));
    s := Fulfilled(two, 0, Slot(0, raw, true));
  }

  /** What a group that was cancelled at rest leaves. */
  lemma QuiescedCancelled(plan: Plan, s: State)
    requires Settled(plan, s) && s.pool.inFlight == {} && s.env.signalAborted
    ensures CancelledState(plan, s, s.pool.started)
  {
    hide Settled, Paired, PoolSafe, AllQueued;
    Quiesced(plan, s);
  }

  /** An ordered call and synthetic result for each call from `from` to `to`, after a cancellation. */
  method Skip(plan: Plan, s: State, from: nat, to: nat) returns (t: State)
    requires CancelledState(plan, s, from) && from <= to <= |plan.calls|
    ensures CancelledState(plan, t, to) && t == s.(events := t.events)
  {
    hide Paired, PoolSafe, AllQueued, Starts, Finishes, Running;
    var log := AppendSkippedToolCalls(plan, s.events, from, to, s.commits.results);
    QueuedStays(plan, s.events, log, s.commits.results);
    t := s.(events := log);
  }

  /** Run one exclusive barrier or one parallel pool over `calls[s.pool.started..end]`. */
  method RunGroup(plan: Plan, s: State, end: nat, parallelMode: bool) returns (t: State, outcome: GroupOutcome)
    requires Between(plan, s) && s.pool.started < |plan.calls|
    requires Last(s.env.trace, Classify(s.pool.started, parallelMode))
    requires end == if parallelMode then |plan.calls| else s.pool.started + 1
    ensures s.commits.results <= t.commits.results
    ensures outcome.GroupFailed? ==> RejectedState(plan, t, outcome.error)
    ensures outcome.GroupDone? ==> outcome.concluded == Concludes(t.commits.results, s.pool.started)
    ensures outcome.GroupDone? && outcome.aborted ==>
              outcome.consumed == end - s.pool.started && CancelledState(plan, t, end)
    ensures outcome.GroupDone? && !outcome.aborted ==>
              Between(plan, t) && outcome.consumed == t.pool.started - s.pool.started
              && 0 < outcome.consumed <= end - s.pool.started
              && (outcome.consumed == end - s.pool.started
                  || Reading(t.env.trace) == Some(Classify(t.pool.started, false)))
  {
    hide Pool.Ok, TraceOk, LogOk, FailureOk, CitesOk, Paired, PoolSafe, Concludes, RejectedState, SlotsOk, AllQueued,
        Opening, Finishes, Reading, Starts, Running, Exclusive, Last, CancelledState;
    var n := s.pool.started;
    OpenGroup(plan, s, end, parallelMode);
    var thrown;
    t, thrown := Drive(plan, Opened(s, end, parallelMode));
    if thrown.Some? {
      var error;
      t, error := Reject(plan, t, thrown.value);
      return t, GroupFailed(error);
    }
    QuietAtEnd(plan, t);
    Quiesced(plan, t);
    if t.group.aborted {
      QuiescedCancelled(plan, t);
      t := Skip(plan, t, t.pool.started, end);
      return t, GroupDone(end - n, true, t.commits.concluded);
    }
    if t.pool.committed != t.pool.started {
      assert false;  // the "uncommitted settled calls" throw
    }
    return t, GroupDone(t.pool.started - n, false, t.commits.concluded);
  }

  /** What an uncancelled run leaves: one call and one real result per model call, in model order. */
  ghost predicate FinishedState(plan: Plan, s: State) {
    && |s.commits.results| == |plan.calls|
    && plan.before <= s.events
    && Paired(s.events, |plan.before|, plan.turn, plan.step, plan.calls, |plan.calls|, Reals(s.commits.results))
    && OwnResults(s.commits.results)
    && s.commits.accepted == Contexts(s.commits.results)
    && AllQueued(plan, s.events, s.commits.results)
    && PoolSafe(plan, s.env.trace) && Running(s.env.trace) == {}
    && Starts(s.env.trace) == Finishes(s.env.trace) == |s.commits.results|
  }

  /** Read the live mode of the first unstarted call, run the group it begins, and await that. */
  method NextGroup(plan: Plan, s: State) returns (t: State, outcome: GroupOutcome)
    requires Between(plan, s) && s.pool.started < |plan.calls|
    ensures s.commits.results <= t.commits.results
    ensures outcome.GroupFailed? ==> RejectedState(plan, t, outcome.error)
    ensures outcome.GroupDone? ==>
              && outcome.concluded == Concludes(t.commits.results, s.pool.started)
              && s.pool.started + outcome.consumed <= |plan.calls|
              && if outcome.aborted then CancelledState(plan, t, s.pool.started + outcome.consumed)
                 else Between(plan, t) && 0 < outcome.consumed == t.pool.started - s.pool.started
  {
    hide Between, Concludes, RejectedState, CancelledState, Last;
    var next := s.pool.started;
    var parallel := plan.mode(next, s.env.trace);
    ReadBetween(plan, s, next);
    t, outcome := RunGroup(plan, Read(plan, s, next), if parallel then |plan.calls| else next + 1, parallel);
    if outcome.GroupFailed? {
      t := AwaitRejected(plan, t, outcome.error);
    } else if outcome.aborted {
      t := AwaitCancelled(plan, t, next + outcome.consumed);
    } else {
      t := AwaitGroup(plan, t);
    }
  }

  /**
   * Schedule one step's tool calls. However the environment settles, aborts or fails: a finished
   * run answers every call, a cancelled run answers every call with real results first and
   * synthetic ones after, and a rejected run carries the first failure over a fully settled pool.
   */
  method ExecuteToolCalls(turn: nat, step: nat, max: nat, mode: (nat, seq<Step>) -> bool, calls: seq<Call>,
      events: seq<Event>, signalAborted: bool) returns (t: State, outcome: RunOutcome)
    requires max >= 1
    ensures var plan := Plan(turn, step, calls, events, max, mode);
            && PoolSafe(plan, t.env.trace) && StartsAsRead(plan, t.env.trace)
            && match outcome
               case Finished(concluded) => FinishedState(plan, t) && concluded == Concludes(t.commits.results, 0)
               case Cancelled(concluded) =>
                 CancelledState(plan, t, |calls|) && concluded == Concludes(t.commits.results, 0)
               case Rejected(error) => RejectedState(plan, t, error)
  {
    hide Pool.Ok, TraceOk, LogOk, FailureOk, CitesOk, Paired, PoolSafe, Concludes, RejectedState, SlotsOk, AllQueued,
        Opening, Finishes, Reading, Starts, Running, Exclusive, Last, StartsAsRead;
    var plan := Plan(turn, step, calls, events, max, mode);
    t := Initial(plan, events, signalAborted);
    InitialBetween(plan, events, signalAborted);
    var next, concluded := 0, false;
    while next < |calls|
      invariant Between(plan, t) && t.pool.started == next <= |calls|
      invariant concluded == Concludes(t.commits.results, 0)
      decreases |calls| - next
    {
      ghost var before := t.commits.results;
      var group;
      t, group := NextGroup(plan, t);
      if group.GroupFailed? {
        RejectedSafe(plan, t, group.error);
        SafeStartsAsRead(plan, t.env.trace);
        return t, Rejected(group.error);
      }
      ConcludesSplit(t.commits.results, 0, next);
      assert t.commits.results[..next] == before;
      next := next + group.consumed;
      concluded := concluded || group.concluded;
      if group.aborted {
        t := Skip(plan, t, next, |calls|);
        CancelledSafe(plan, t);
        SafeStartsAsRead(plan, t.env.trace);
        return t, Cancelled(concluded);
      }
    }
    AllAnswered(plan, t);
    SafeStartsAsRead(plan, t.env.trace);
    return t, Finished(concluded);
  }

  lemma ReadBetween(plan: Plan, s: State, c: nat)
    requires Between(plan, s)
    ensures Between(plan, Read(plan, s, c)) && Last(Read(plan, s, c).env.trace, Classify(c, plan.mode(c, s.env.trace)))
  {
    hide Core, AllQueued, Opening, Finishes, Reading, Last;
    ReadKeeps(plan, s, c);
  }

  lemma CancelledSafe(plan: Plan, s: State)
    requires CancelledState(plan, s, |plan.calls|)
    ensures PoolSafe(plan, s.env.trace)
  {
  }

  lemma RejectedSafe(plan: Plan, s: State, error: Error)
    requires RejectedState(plan, s, error)
    ensures PoolSafe(plan, s.env.trace)
  {
  }

  /** Await a group that is done: the pool is empty, so only the signal and the log move. */
  method AwaitGroup(plan: Plan, s: State) returns (t: State)
    requires Between(plan, s)
    ensures Between(plan, t) && t.commits == s.commits && t.pool.started == s.pool.started
  {
    hide Pool.Ok, TraceOk, LogOk, FailureOk, SlotsOk, AllQueued, Opening, Finishes, Reading;
    t := Await(plan, s, None);
  }

  /** Await a group that was cancelled: others may append. */
  method AwaitCancelled(plan: Plan, s: State, to: nat) returns (t: State)
    requires CancelledState(plan, s, to)
    ensures CancelledState(plan, t, to) && t.commits == s.commits
  {
    hide Paired, PoolSafe, AllQueued, Starts, Finishes, Running;
    t := s;
    var foreign: seq<Event> := *;
    if AllForeign(foreign) {
      PairedForeign(s.events, |plan.before|, foreign, plan.turn, plan.step, plan.calls, to,
                    Reals(s.commits.results) + Skips(to - |s.commits.results|));
      QueuedStays(plan, s.events, s.events + foreign, s.commits.results);
      t := s.(events := s.events + foreign);
    }
  }

  /** Await a group that was rejected: others may append. */
  method AwaitRejected(plan: Plan, s: State, error: Error) returns (t: State)
    requires RejectedState(plan, s, error)
    ensures RejectedState(plan, t, error) && t.commits == s.commits
  {
    hide LogOk, PoolSafe, Starts, Running;
    t := s;
    var foreign: seq<Event> := *;
    if AllForeign(foreign) {
      LogForeign(plan, s.events, foreign, s.pool.started, s.commits.results);
      t := s.(events := s.events + foreign);
    }
  }

  function Initial(plan: Plan, events: seq<Event>, signalAborted: bool): State {
    State(events, Commits(map[], [], [], false), Group(0, true, signalAborted),
        Pool(map[], {}, {}, false, 0, 0, 0, 0, plan.max),
          Env(signalAborted, None, [], None, if signalAborted then [Abort] else []))
  }

  lemma InitialBetween(plan: Plan, events: seq<Event>, signalAborted: bool)
    requires plan.max >= 1 && plan.before == events
    ensures Between(plan, Initial(plan, events, signalAborted)) && !Concludes([], 0)
  {
    var s := Initial(plan, events, signalAborted);
    PairedEmpty(events, plan.turn, plan.step, plan.calls);
    assert Reals([]) == [];
    if signalAborted {
      Extend(plan, [], Abort);
      StagesNext([], Abort);
      assert [] + [Abort] == [Abort];
    }
    assert TraceOk(plan, s.env.trace, {}, signalAborted, 0, 0, true);
  }

  lemma AllAnswered(plan: Plan, s: State)
    requires Between(plan, s) && s.pool.started == |plan.calls|
    ensures FinishedState(plan, s)
  {
  }
}
