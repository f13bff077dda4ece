/**
 * Bounded write batching of one live session: pending events, a batching deadline, one active
 * write, failure retention, and an explicit quiescence barrier.
 *
 * Every promise callback is its own step, so that public calls may fall between a write's
 * settlement, its `finally`, and the continuations queued behind it. A timer callback is a new
 * event-loop task: it runs only when no such continuation is outstanding.
 */
module WriteBehind {
  import opened SessionEvents

  /** The active write: absent, running, or settled and waiting for its `finally`. */
  datatype Active = Idle | Writing(batch: seq<Event>, background: bool) | Settled(ok: bool, background: bool)

  /** The flush barrier: closed, awaiting an overlapping write, awaiting its own write, or about to resume. */
  datatype Barrier = Closed | AwaitOverlap | AwaitOwn | Resuming(own: bool, ok: bool)

  /** How a flush promise settled, with the durable and enqueued histories at that moment. */
  datatype FlushOutcome = Resolved(durable: seq<Event>, enqueued: seq<Event>) | Rejected

  datatype Queue = Queue(pending: seq<Event>, timer: bool, deadlineExpired: bool, automaticPaused: bool)

  /** `continuation`: a settled background write's `continueAutomatic` is queued. */
  datatype Writer = Writer(active: Active, barrier: Barrier, continuation: bool)

  /** `overlapped` records whether a write was ever started over an active one. */
  datatype History = History(durable: seq<Event>, enqueued: seq<Event>, flushes: seq<FlushOutcome>, overlapped: bool)

  datatype State = State(q: Queue, w: Writer, h: History)

  const INITIAL := State(Queue([], false, false, false), Writer(Idle, Closed, false), History([], [], [], false))

  datatype Action =
    | Enqueue(event: Event)
    | Flush
    | CancelAutomaticWait
    | Deadline
    | WriteResolves
    | WriteRejects
    | Finally
    | ContinueAutomatic
    | ResumeBarrier

  // ----- the controller's segments as functions -----

  function StartWrite(s: State, background: bool): State {
    State(
      Queue([], false, false, s.q.automaticPaused),
      s.w.(active := Writing(s.q.pending, background)),
      s.h.(overlapped := s.h.overlapped || s.w.active != Idle))
  }

  /** The body of the drain loop: start the next own write, or close the barrier and resolve its callers. */
  function DrainLoop(s: State): State {
    if s.q.pending != [] then
      var t := StartWrite(s, false);
      t.(w := t.w.(barrier := AwaitOwn))
    else
      s.(w := s.w.(barrier := Closed), h := s.h.(flushes := s.h.flushes + [Resolved(s.h.durable, s.h.enqueued)]))
  }

  predicate Enabled(s: State, a: Action) {
    match a
    case Enqueue(_) => true
    case Flush => true
    case CancelAutomaticWait => true
    case Deadline => s.q.timer && !s.w.continuation && !s.w.active.Settled? && !s.w.barrier.Resuming?
    case WriteResolves => s.w.active.Writing?
    case WriteRejects => s.w.active.Writing?
    case Finally => s.w.active.Settled?
    case ContinueAutomatic => s.w.continuation
    case ResumeBarrier => s.w.barrier.Resuming?
  }

  function Step(s: State, a: Action): State
    requires Enabled(s, a)
  {
    match a
    case Enqueue(e) =>
      var arm := s.w.barrier.Closed? && (s.q.automaticPaused || s.q.pending == []);
      var lift := s.w.barrier.Closed? && s.q.automaticPaused;
      State(
        Queue(s.q.pending + [e], s.q.timer || arm, s.q.deadlineExpired && !lift, s.q.automaticPaused && !lift),
        s.w, s.h.(enqueued := s.h.enqueued + [e]))
    case Flush =>
      if !s.w.barrier.Closed? then s
      else
        var t := s.(q := Queue(s.q.pending, false, false, false));
        if s.w.active.Idle? then DrainLoop(t) else t.(w := t.w.(barrier := AwaitOverlap))
    case CancelAutomaticWait => s.(q := s.q.(timer := false, deadlineExpired := false))
    case Deadline =>
      if s.w.active.Idle? then StartWrite(s, true)
      else s.(q := s.q.(timer := false, deadlineExpired := true))
    case WriteResolves =>
      s.(w := s.w.(active := Settled(true, s.w.active.background)),
          h := s.h.(durable := s.h.durable + s.w.active.batch))
    case WriteRejects =>
      State(
        Queue(s.w.active.batch + s.q.pending, false, false, true),
        s.w.(active := Settled(false, s.w.active.background)), s.h)
    case Finally =>
      var barrier := match s.w.barrier
        case AwaitOverlap => Resuming(false, true)
        case AwaitOwn => Resuming(true, s.w.active.ok)
        case b => b;
      s.(w := Writer(Idle, barrier, s.w.continuation || (s.w.active.ok && s.w.active.background)))
    case ContinueAutomatic =>
      var t := s.(w := s.w.(continuation := false));
      if s.w.barrier.Closed? && s.q.pending != [] && s.q.deadlineExpired then StartWrite(t, true) else t
    case ResumeBarrier =>
      if s.w.barrier.own && !s.w.barrier.ok then
        s.(w := s.w.(barrier := Closed), h := s.h.(flushes := s.h.flushes + [Rejected]))
      else
        DrainLoop(if s.w.barrier.own then s else s.(q := s.q.(automaticPaused := false)))
  }

  // ----- invariants -----

  function Batch(active: Active): seq<Event> {
    if active.Writing? then active.batch else []
  }

  /** Nothing is lost, duplicated or reordered: durable, active and pending events are the enqueue history. */
  ghost predicate Conserved(s: State) {
    s.h.durable + Batch(s.w.active) + s.q.pending == s.h.enqueued
  }

  ghost predicate FlushesDurable(s: State) {
    forall k | 0 <= k < |s.h.flushes| && s.h.flushes[k].Resolved? :: s.h.flushes[k].durable == s.h.flushes[k].enqueued
  }

  /** How the flags, the active write and the barrier may combine. */
  ghost predicate Control(s: State) {
    && !s.h.overlapped
    && (s.q.timer ==> s.q.pending != [] && !s.q.automaticPaused && s.w.barrier.Closed?)
    && (s.q.deadlineExpired ==>
          s.w.barrier.Closed? && !s.q.automaticPaused && (s.w.continuation ==> s.w.active.Idle?)
          && (s.w.active.Settled? ==> s.w.active.ok))
    && (s.w.active == Settled(false, false) || s.w.barrier == Resuming(true, false) ==> s.q.automaticPaused)
    && (match s.w.barrier
        case Closed => s.w.active.Idle? || (s.w.active.background && !s.w.continuation)
        case AwaitOverlap => !s.w.active.Idle? && s.w.active.background && !s.w.continuation
        case AwaitOwn => !s.w.active.Idle? && !s.w.active.background
        case Resuming(_, _) => s.w.active.Idle?)
  }

  ghost predicate Inv(s: State) {
    Conserved(s) && FlushesDurable(s) && Control(s)
  }

  /**
   * Somebody will write the queue: an armed deadline, an open barrier, a recorded pause (lifted by
   * the next enqueue), or an expired deadline that a running write's continuation still has to read.
   */
  ghost predicate Served(s: State) {
    || s.q.pending == []
    || s.q.timer
    || !s.w.barrier.Closed?
    || s.q.automaticPaused
    || (s.q.deadlineExpired && (s.w.continuation || !s.w.active.Idle?))
  }

  lemma StepKeepsControl(s: State, a: Action)
    requires Control(s) && Enabled(s, a)
    ensures Control(Step(s, a))
  {
  }

  lemma StepConserves(s: State, a: Action)
    requires Conserved(s) && Control(s) && Enabled(s, a)
    ensures Conserved(Step(s, a))
  {
  }

  lemma StepKeepsFlushes(s: State, a: Action)
    requires Inv(s) && Enabled(s, a)
    ensures FlushesDurable(Step(s, a))
  {
  }

  lemma StepKeepsInv(s: State, a: Action)
    requires Inv(s) && Enabled(s, a)
    ensures Inv(Step(s, a))
  {
  }

  lemma StepKeepsServed(s: State, a: Action)
    requires Inv(s) && Served(s) && Enabled(s, a) && a != CancelAutomaticWait
    ensures Served(Step(s, a))
  {
  }

  // ----- whole runs -----

  ghost predicate Runs(s: State, actions: seq<Action>)
    decreases |actions|
  {
    actions == [] || (Enabled(s, actions[0]) && Runs(Step(s, actions[0]), actions[1..]))
  }

  function Run(s: State, actions: seq<Action>): State
    requires Runs(s, actions)
    decreases |actions|
  {
    if actions == [] then s else Run(Step(s, actions[0]), actions[1..])
  }

  lemma {:induction false} RunKeeps(s: State, actions: seq<Action>)
    requires Inv(s) && Runs(s, actions)
    ensures Inv(Run(s, actions))
    ensures Served(s) && CancelAutomaticWait !in actions ==> Served(Run(s, actions))
    decreases |actions|
  {
    if actions != [] {
      StepKeepsInv(s, actions[0]);
      if Served(s) && actions[0] != CancelAutomaticWait { StepKeepsServed(s, actions[0]); }
      RunKeeps(Step(s, actions[0]), actions[1..]);
    }
  }

  /** Over every interleaving: conservation in order, one write at a time, and durable flushes. */
  lemma EveryRunConserves(actions: seq<Action>)
    requires Runs(INITIAL, actions)
    ensures var s := Run(INITIAL, actions);
            && s.h.durable + Batch(s.w.active) + s.q.pending == s.h.enqueued
            && !s.h.overlapped
            && (forall k | 0 <= k < |s.h.flushes| && s.h.flushes[k].Resolved? ::
                  s.h.flushes[k].durable == s.h.flushes[k].enqueued)
  {
    RunKeeps(INITIAL, actions);
  }

  /** Without `cancelAutomaticWait`, queued work is never stranded. */
  lemma EveryRunServes(actions: seq<Action>)
    requires Runs(INITIAL, actions) && CancelAutomaticWait !in actions
    ensures Served(Run(INITIAL, actions))
  {
    RunKeeps(INITIAL, actions);
  }

  /** `cancelAutomaticWait` strands exactly the queue that nothing but the cancelled deadline was serving. */
  lemma CancelStrands(s: State)
    requires Inv(s)
    ensures Served(Step(s, CancelAutomaticWait)) <==> s.q.pending == [] || !s.w.barrier.Closed? || s.q.automaticPaused
  {
  }

  /** Exactly a flush, or a write in flight that fails and so records a pause, makes a stranded queue served again. */
  lemma StrandedUntilFlush(s: State, a: Action)
    requires Inv(s) && !Served(s) && Enabled(s, a)
    ensures Served(Step(s, a)) <==> a.Flush? || a.WriteRejects?
  {
  }

  /**
   * A stranded queue whose writer is idle is written by no run that does not flush: nothing more
   * becomes durable, whatever is enqueued.
   */
  lemma {:induction false} StrandedForGood(s: State, actions: seq<Action>)
    requires Inv(s) && !Served(s) && s.w.active.Idle? && Runs(s, actions) && Flush !in actions
    ensures var t := Run(s, actions);
            !Served(t) && t.w.active.Idle? && t.h.durable == s.h.durable && s.q.pending <= t.q.pending
    decreases |actions|
  {
    if actions != [] {
      StepKeepsInv(s, actions[0]);
      StrandedUntilFlush(s, actions[0]);
      StrandedForGood(Step(s, actions[0]), actions[1..]);
    }
  }

  /** Such a queue is reached by enqueueing one event and cancelling the wait. */
  lemma StrandedReached(e: Event)
    ensures Runs(INITIAL, [Enqueue(e), CancelAutomaticWait])
    ensures var s := Run(INITIAL, [Enqueue(e), CancelAutomaticWait]);
            Inv(s) && !Served(s) && s.w.active.Idle? && s.q.pending == [e]
  {
    var s := Step(INITIAL, Enqueue(e));
    Then(s, CancelAutomaticWait, []);
    Then(INITIAL, Enqueue(e), [CancelAutomaticWait]);
    assert [Enqueue(e)] + [CancelAutomaticWait] == [Enqueue(e), CancelAutomaticWait];
    RunKeeps(INITIAL, [Enqueue(e), CancelAutomaticWait]);
  }

  lemma Then(s: State, a: Action, rest: seq<Action>)
    requires Enabled(s, a) && Runs(Step(s, a), rest)
    ensures Runs(s, [a] + rest) && Run(s, [a] + rest) == Run(Step(s, a), rest)
  {
  }

  /** The drain loop resolves after at most one more successful write. */
  lemma DrainResolves(s: State) returns (actions: seq<Action>)
    requires Inv(s) && s.w.active.Idle?
    ensures Runs(DrainLoop(s), actions)
    ensures Run(DrainLoop(s), actions).h ==
          s.h.(durable := s.h.enqueued, flushes := s.h.flushes + [Resolved(s.h.enqueued, s.h.enqueued)])
  {
    var t := DrainLoop(s);
    assert s.h.durable + [] == s.h.durable;
    assert s.h.durable + s.q.pending == s.h.enqueued;
    if s.q.pending == [] {
      assert s.h.durable + [] == s.h.enqueued;
      actions := [];
    } else {
      var t1 := Step(t, WriteResolves);
      var t2 := Step(t1, Finally);
      Then(t2, ResumeBarrier, []);
      Then(t1, Finally, [ResumeBarrier]);
      Then(t, WriteResolves, [Finally, ResumeBarrier]);
      actions := [WriteResolves] + [Finally, ResumeBarrier];
    }
  }

  /**
   * A flush can finish from any state: if the writes it waits for succeed, it resolves with every
   * enqueued event durable.
   */
  lemma FlushCanResolve(s: State) returns (actions: seq<Action>)
    requires Inv(s) && s.w.barrier.Closed?
    ensures Runs(s, [Flush] + actions)
    ensures var t := Run(s, [Flush] + actions);
            t.h == s.h.(durable := s.h.enqueued, flushes := s.h.flushes + [Resolved(s.h.enqueued, s.h.enqueued)])
  {
    var t := Step(s, Flush);
    StepKeepsInv(s, Flush);
    if s.w.active.Idle? {
      actions := DrainResolves(s.(q := Queue(s.q.pending, false, false, false)));
    } else {
      var settled := if t.w.active.Writing? then Step(t, WriteResolves) else t;
      var u := Step(settled, Finally);
      var drained := u.(q := u.q.(automaticPaused := false));
      if t.w.active.Writing? { StepKeepsInv(t, WriteResolves); }
      StepKeepsInv(settled, Finally);
      assert Inv(drained);
      var rest := DrainResolves(drained);
      Then(u, ResumeBarrier, rest);
      Then(settled, Finally, [ResumeBarrier] + rest);
      actions := [Finally] + ([ResumeBarrier] + rest);
      if t.w.active.Writing? {
        Then(t, WriteResolves, actions);
        actions := [WriteResolves] + actions;
      }
    }
    Then(s, Flush, actions);
  }

  // ----- served work is written -----

  /** Nothing is enqueued, flushed or cancelled, and no write fails. */
  predicate Unattended(a: Action) {
    !a.Enqueue? && !a.Flush? && !a.CancelAutomaticWait? && !a.WriteRejects?
  }

  predicate AllUnattended(actions: seq<Action>) {
    forall a | a in actions :: Unattended(a)
  }

  /** The callback that is next, of a queue that is served and not paused. */
  function NextCallback(s: State): Action {
    if s.w.active.Writing? then WriteResolves
    else if s.w.active.Settled? then Finally
    else if s.w.continuation then ContinueAutomatic
    else if s.w.barrier.Resuming? then ResumeBarrier
    else Deadline
  }

  predicate Finished(s: State) {
    s.q.pending == [] && s.w.active.Idle? && !s.w.continuation && !s.w.barrier.Resuming?
  }

  /** What is left to do: a batch to start, then its write, then the callbacks behind it. */
  function Work(s: State): (nat, nat, nat) {
    (if s.q.pending == [] then 0 else 1,
     if s.w.active.Writing? then 2 else if s.w.active.Settled? then 1 else 0,
     (if s.w.continuation then 1 else 0) + (if s.w.barrier.Resuming? then 1 else 0))
  }

  lemma CallbackWorks(s: State)
    requires Inv(s) && Served(s) && !s.q.automaticPaused && !Finished(s)
    ensures Enabled(s, NextCallback(s)) && Unattended(NextCallback(s))
    ensures var t, m, n := Step(s, NextCallback(s)), Work(s), Work(Step(s, NextCallback(s)));
            && Inv(t) && Served(t) && !t.q.automaticPaused && t.h.enqueued == s.h.enqueued
            && (n.0 < m.0 || (n.0 == m.0 && (n.1 < m.1 || (n.1 == m.1 && n.2 < m.2))))
  {
    var a := NextCallback(s);
    StepKeepsInv(s, a);
    StepKeepsServed(s, a);
  }

  /**
   * What is served is written: from every state with a served queue that is not paused, callbacks
   * alone, of timers and of writes that succeed, make everything enqueued durable.
   */
  lemma {:induction false} ServedIsWritten(s: State) returns (actions: seq<Action>)
    requires Inv(s) && Served(s) && !s.q.automaticPaused
    ensures Runs(s, actions) && AllUnattended(actions)
    ensures var t := Run(s, actions); t.h.enqueued == s.h.enqueued && t.h.durable == s.h.enqueued && Finished(t)
    decreases Work(s).0, Work(s).1, Work(s).2
  {
    if Finished(s) {
      assert s.h.durable + [] + [] == s.h.durable;
      actions := [];
    } else {
      CallbackWorks(s);
      var a := NextCallback(s);
      var rest := ServedIsWritten(Step(s, a));
      hide Inv, Served, Enabled, Step, NextCallback, Work;
      Then(s, a, rest);
      actions := [a] + rest;
    }
  }

  /** An armed deadline, or an expired one whose write is still under way, serves the queue. */
  lemma DeadlineServes(s: State)
    requires Inv(s) && (s.q.timer || (s.q.deadlineExpired && !s.w.active.Idle?))
    ensures Served(s) && !s.q.automaticPaused
  {
  }

  /** After a failed write, the next enqueue serves the queue again. */
  lemma EnqueueServes(s: State, e: Event)
    requires Inv(s) && s.w.barrier.Closed? && (s.q.automaticPaused || s.q.pending == [])
    ensures var t := Step(s, Enqueue(e)); Inv(t) && Served(t) && !t.q.automaticPaused
  {
    StepKeepsInv(s, Enqueue(e));
  }

  // ----- the controller -----

  /** One live session's write controller; every method is one segment, and refines its `Step`. */
  class SessionWriteBehind {
    var pending: seq<Event>
    var timer: bool
    var active: Active
    var barrier: Barrier
    var deadlineExpired: bool
    var automaticPaused: bool
    var continuation: bool
    ghost var history: History

    ghost function S(): State
      reads this
    {
      State(Queue(pending, timer, deadlineExpired, automaticPaused), Writer(active, barrier, continuation), history)
    }

    ghost predicate Valid()
      reads this
    {
      Inv(S())
    }

    constructor ()
      ensures S() == INITIAL && Valid()
    {
      pending, timer, active, barrier := [], false, Idle, Closed;
      deadlineExpired, automaticPaused, continuation := false, false, false;
      history := INITIAL.h;
    }

    method EnqueueEvent(event: Event)
      requires Valid()
      modifies this
      ensures S() == Step(old(S()), Enqueue(event)) && Valid()
      ensures pending == old(pending) + [event] && active == old(active) && barrier == old(barrier)
      ensures barrier.Closed? && (old(automaticPaused) || old(pending) == []) ==> timer && !automaticPaused
      ensures barrier.Closed? && old(automaticPaused) ==> !deadlineExpired
      ensures !barrier.Closed? || (!old(automaticPaused) && old(pending) != []) ==>
                timer == old(timer) && automaticPaused == old(automaticPaused)
                && deadlineExpired == old(deadlineExpired)
    {
      StepKeepsInv(S(), Enqueue(event));
      var wasEmpty := pending == [];
      pending := pending + [event];
      history := history.(enqueued := history.enqueued + [event]);
      if !barrier.Closed? { return; }
      if automaticPaused {
        automaticPaused := false;
        deadlineExpired := false;
        ArmTimer();
      } else if wasEmpty {
        ArmTimer();
      }
    }

    method FlushPending()
      requires Valid()
      modifies this
      ensures S() == Step(old(S()), Flush) && Valid()
      ensures !old(barrier).Closed? ==> S() == old(S())
      ensures old(barrier).Closed? ==> !timer && !deadlineExpired && !automaticPaused
      ensures old(barrier).Closed? && !old(active).Idle? ==>
                barrier == AwaitOverlap && pending == old(pending) && active == old(active)
      ensures old(barrier).Closed? && old(active).Idle? && old(pending) != [] ==>
                barrier == AwaitOwn && pending == [] && active == Writing(old(pending), false)
      ensures old(barrier).Closed? && old(active).Idle? && old(pending) == [] ==>
                barrier == Closed && active.Idle? && |history.flushes| == |old(history).flushes| + 1
    {
      StepKeepsInv(S(), Flush);
      if !barrier.Closed? { return; }
      CancelTimer();
      deadlineExpired := false;
      automaticPaused := false;
      if !active.Idle? {
        barrier := AwaitOverlap;
      } else {
        DrainBarrier();
      }
    }

    method CancelWait()
      requires Valid()
      modifies this
      ensures S() == Step(old(S()), CancelAutomaticWait) && Valid()
      ensures !timer && !deadlineExpired && pending == old(pending) && active == old(active) && barrier == old(barrier)
      ensures automaticPaused == old(automaticPaused) && continuation == old(continuation)
    {
      StepKeepsInv(S(), CancelAutomaticWait);
      CancelTimer();
      deadlineExpired := false;
    }

    method ArmTimer()
      modifies `timer
      ensures timer
    {
      timer := true;
    }

    method CancelTimer()
      modifies `timer
      ensures !timer
    {
      timer := false;
    }

    /** Start the whole queue as a background write, or remember that an active write used the budget. */
    method OnDeadline()
      requires Valid() && Enabled(S(), Deadline)
      modifies this
      ensures S() == Step(old(S()), Deadline) && Valid()
      ensures !timer && deadlineExpired == !old(active).Idle?
      ensures old(active).Idle? ==> active == Writing(old(pending), true) && pending == []
      ensures !old(active).Idle? ==> active == old(active) && pending == old(pending)
    {
      StepKeepsInv(S(), Deadline);
      timer := false;
      if !active.Idle? {
        deadlineExpired := true;
        return;
      }
      BeginWrite(true);
    }

    method Continue()
      requires Valid() && Enabled(S(), ContinueAutomatic)
      modifies this
      ensures S() == Step(old(S()), ContinueAutomatic) && Valid()
      ensures !continuation && barrier == old(barrier)
      ensures old(barrier).Closed? && old(deadlineExpired) && old(pending) != [] ==>
                active == Writing(old(pending), true) && pending == [] && !timer && !deadlineExpired
      ensures !(old(barrier).Closed? && old(deadlineExpired) && old(pending) != []) ==>
                active == old(active) && pending == old(pending) && timer == old(timer)
                && deadlineExpired == old(deadlineExpired)
    {
      StepKeepsInv(S(), ContinueAutomatic);
      continuation := false;
      if !barrier.Closed? || pending == [] { return; }
      if deadlineExpired {
        deadlineExpired := false;
        BeginWrite(true);
      }
    }

    /** One turn of the drain loop: start the next own write, or close the barrier and resolve. */
    method DrainBarrier()
      modifies this
      ensures S() == DrainLoop(old(S()))
      ensures old(pending) != [] ==> active == Writing(old(pending), false) && pending == [] && barrier == AwaitOwn
      ensures old(pending) == [] ==> barrier == Closed && active == old(active)
      ensures old(pending) == [] ==>
                history.flushes == old(history).flushes + [Resolved(old(history).durable, old(history).enqueued)]
    {
      if pending != [] {
        BeginWrite(false);
        barrier := AwaitOwn;
      } else {
        barrier := Closed;
        history := history.(flushes := history.flushes + [Resolved(history.durable, history.enqueued)]);
      }
    }

    method Resume()
      requires Valid() && Enabled(S(), ResumeBarrier)
      modifies this
      ensures S() == Step(old(S()), ResumeBarrier) && Valid()
      ensures old(barrier) == Resuming(true, false) ==>
                barrier == Closed && history.flushes == old(history).flushes + [Rejected] && pending == old(pending)
                && active == old(active) && automaticPaused == old(automaticPaused)
      ensures old(barrier) != Resuming(true, false) && old(pending) != [] ==>
                barrier == AwaitOwn && active == Writing(old(pending), false) && pending == []
      ensures old(barrier) != Resuming(true, false) && old(pending) == [] ==>
                && barrier == Closed
                && history.flushes == old(history).flushes + [Resolved(history.durable, history.enqueued)]
      ensures !old(barrier).own ==> !automaticPaused
    {
      StepKeepsInv(S(), ResumeBarrier);
      if barrier.own && !barrier.ok {
        barrier := Closed;
        history := history.(flushes := history.flushes + [Rejected]);
        return;
      }
      if !barrier.own { automaticPaused := false; }
      DrainBarrier();
    }

    method BeginWrite(background: bool)
      modifies this
      ensures S() == StartWrite(old(S()), background)
      ensures active == Writing(old(pending), background) && pending == [] && !timer && !deadlineExpired
      ensures barrier == old(barrier) && automaticPaused == old(automaticPaused) && continuation == old(continuation)
    {
      var batch := pending;
      pending := [];
      CancelTimer();
      deadlineExpired := false;
      history := history.(overlapped := history.overlapped || active != Idle);
      active := Writing(batch, background);
    }

    method OnWritten()
      requires Valid() && Enabled(S(), WriteResolves)
      modifies this
      ensures S() == Step(old(S()), WriteResolves) && Valid()
      ensures active == Settled(true, old(active).background)
        && history.durable == old(history).durable + old(active).batch
      ensures pending == old(pending) && timer == old(timer) && deadlineExpired == old(deadlineExpired)
    {
      StepKeepsInv(S(), WriteResolves);
      history := history.(durable := history.durable + active.batch);
      active := Settled(true, active.background);
    }

    /** The `catch` handler: retain the batch ahead of newer events and pause automatic retries. */
    method OnWriteFailed()
      requires Valid() && Enabled(S(), WriteRejects)
      modifies this
      ensures S() == Step(old(S()), WriteRejects) && Valid()
      ensures pending == old(active).batch + old(pending) && active == Settled(false, old(active).background)
      ensures !timer && !deadlineExpired && automaticPaused && history == old(history)
    {
      StepKeepsInv(S(), WriteRejects);
      pending := active.batch + pending;
      CancelTimer();
      deadlineExpired := false;
      automaticPaused := true;
      active := Settled(false, active.background);
    }

    /** The `finally` handler; it also queues what awaits the write. */
    method OnFinally()
      requires Valid() && Enabled(S(), Finally)
      modifies this
      ensures S() == Step(old(S()), Finally) && Valid()
      ensures active == Idle && pending == old(pending) && history == old(history)
      ensures continuation == (old(continuation) || (old(active).ok && old(active).background))
      ensures old(barrier) == AwaitOverlap ==> barrier == Resuming(false, true)
      ensures old(barrier) == AwaitOwn ==> barrier == Resuming(true, old(active).ok)
    {
      StepKeepsInv(S(), Finally);
      var ok, background := active.ok, active.background;
      active := Idle;
      if ok && background { continuation := true; }
      match barrier {
        case AwaitOverlap => barrier := Resuming(false, true);
        case AwaitOwn => barrier := Resuming(true, ok);
        case _ =>
      }
    }
  }
}
